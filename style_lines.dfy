/** The `StyleLines` enumeration of the shared constants: six style lines, in declaration order. */
module StyleLines {
  import opened Wrappers

  datatype StyleLine = CASUAL | FORMAL | SPORTY | BOHEMIAN | VINTAGE | MINIMALIST

  /** The members in declaration order, as `Object.values(StyleLines)` and `enumerate(StyleLines)` see them. */
  const All: seq<StyleLine> := [CASUAL, FORMAL, SPORTY, BOHEMIAN, VINTAGE, MINIMALIST]

  /** The string value of each member (equal to its name). */
  function Name(l: StyleLine): string {
    match l
    case CASUAL => "CASUAL"
    case FORMAL => "FORMAL"
    case SPORTY => "SPORTY"
    case BOHEMIAN => "BOHEMIAN"
    case VINTAGE => "VINTAGE"
    case MINIMALIST => "MINIMALIST"
  }

  /** The position of a member in declaration order. */
  function Index(l: StyleLine): (i: nat)
    ensures i < |All| && All[i] == l
  {
    match l
    case CASUAL => 0
    case FORMAL => 1
    case SPORTY => 2
    case BOHEMIAN => 3
    case VINTAGE => 4
    case MINIMALIST => 5
  }

  /** The member whose string value is `s`, if any. */
  function FromName(s: string): (r: Option<StyleLine>)
    ensures r.Some? ==> Name(r.value) == s
    ensures r.None? ==> forall l :: Name(l) != s
  {
    if s == "CASUAL" then Some(CASUAL)
    else if s == "FORMAL" then Some(FORMAL)
    else if s == "SPORTY" then Some(SPORTY)
    else if s == "BOHEMIAN" then Some(BOHEMIAN)
    else if s == "VINTAGE" then Some(VINTAGE)
    else if s == "MINIMALIST" then Some(MINIMALIST)
    else None
  }

  /** The enumeration has six distinct members and lists every member. */
  lemma AllIsTheEnumeration()
    ensures |All| == 6
    ensures forall i, j :: 0 <= i < j < |All| ==> All[i] != All[j]
    ensures forall l :: l in All
  {
    forall l: StyleLine ensures l in All {
      assert All[Index(l)] == l;
    }
  }

  /** Values are distinct, so a value names exactly one member. */
  lemma NameInjective(l: StyleLine, m: StyleLine)
    ensures Name(l) == Name(m) <==> l == m
  {
  }

  /** Parsing a member's value gives the member back. */
  lemma FromNameOfName(l: StyleLine)
    ensures FromName(Name(l)) == Some(l)
  {
  }
}
