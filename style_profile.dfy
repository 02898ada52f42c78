/**
 * The backend style-profile document: its style preferences (a style line and a score in
 * [0, 100]), the placeholder computation of preferences from random draws, the top style lines,
 * and the save hook that recomputes the preferences when the quiz responses changed.
 * `Math.random()` is a parameter: one draw in [0, 1) per style line.
 */
module StyleProfileModel {
  import opened Wrappers
  import StyleLines
  import Sorting
  import JsBuiltins

  /** One preference: the style line's string value and its score. */
  datatype StylePreference = StylePreference(styleLine: string, preferenceScore: real)

  function ScoreOf(p: StylePreference): real {
    p.preferenceScore
  }

  /** The sub-schema: the style line is one of the enumeration's values and the score lies in [0, 100]. */
  predicate ValidPreference(p: StylePreference) {
    StyleLines.FromName(p.styleLine).Some? && 0.0 <= p.preferenceScore <= 100.0
  }

  /** A validation error names the index of the first preference that breaks the sub-schema. */
  datatype ValidationError = InvalidPreference(index: nat)

  /** Document validation of the preferences array: the first offending entry, if any. */
  function ValidatePreferences(prefs: seq<StylePreference>): (r: Result<(), ValidationError>)
    ensures r.Success? <==> forall i :: 0 <= i < |prefs| ==> ValidPreference(prefs[i])
    ensures r.Failure? ==>
      && r.error.index < |prefs| && !ValidPreference(prefs[r.error.index])
      && forall i :: 0 <= i < r.error.index ==> ValidPreference(prefs[i])
    decreases |prefs|
  {
    if |prefs| == 0 then Success(())
    else if !ValidPreference(prefs[0]) then Failure(InvalidPreference(0))
    else match ValidatePreferences(prefs[1..])
      case Success(_) => Success(())
      case Failure(e) => Failure(InvalidPreference(e.index + 1))
  }

  /** `Math.random()` draws: one per style line, each in [0, 1). */
  predicate Draws(draws: seq<real>) {
    |draws| == |StyleLines.All| && forall i :: 0 <= i < |draws| ==> 0.0 <= draws[i] < 1.0
  }

  /** One preference per style line, in enumeration order, with score `100 * draw`. */
  function Unsorted(draws: seq<real>): (r: seq<StylePreference>)
    requires Draws(draws)
    ensures |r| == |StyleLines.All|
    ensures forall i :: 0 <= i < |r| ==>
      r[i] == StylePreference(StyleLines.Name(StyleLines.All[i]), draws[i] * 100.0)
  {
    seq(|StyleLines.All|, i requires 0 <= i < |StyleLines.All| =>
      StylePreference(StyleLines.Name(StyleLines.All[i]), draws[i] * 100.0))
  }

  /** `calculateStylePreferences`: one scored preference per style line, by descending score. */
  function CalculateStylePreferences(draws: seq<real>): (r: seq<StylePreference>)
    requires Draws(draws)
    ensures |r| == |StyleLines.All|
  {
    Sorting.SortDesc(Unsorted(draws), ScoreOf)
  }

  /** Each computed entry is one of the unsorted entries. */
  lemma CalculatedEntry(draws: seq<real>, i: nat)
    requires Draws(draws) && i < |CalculateStylePreferences(draws)|
    ensures ValidPreference(CalculateStylePreferences(draws)[i])
    ensures CalculateStylePreferences(draws)[i].preferenceScore < 100.0
  {
    var u := Unsorted(draws);
    var r := CalculateStylePreferences(draws);
    Sorting.SortDescCorrect(u, ScoreOf);
    assert r[i] in multiset(u);
    var k :| 0 <= k < |u| && u[k] == r[i];
    StyleLines.FromNameOfName(StyleLines.All[k]);
  }

  lemma CalculatedCovers(draws: seq<real>, l: StyleLines.StyleLine)
    requires Draws(draws)
    ensures exists i ::
      0 <= i < |CalculateStylePreferences(draws)| && CalculateStylePreferences(draws)[i].styleLine == StyleLines.Name(l)
  {
    var u := Unsorted(draws);
    var r := CalculateStylePreferences(draws);
    Sorting.SortDescCorrect(u, ScoreOf);
    var k := StyleLines.Index(l);
    assert u[k] in multiset(r);
    var i :| 0 <= i < |r| && r[i] == u[k];
  }

  lemma UnsortedDistinct(draws: seq<real>)
    requires Draws(draws)
    ensures forall a, b :: 0 <= a < b < |Unsorted(draws)| ==> Unsorted(draws)[a].styleLine != Unsorted(draws)[b].styleLine
  {
    StyleLines.AllIsTheEnumeration();
    forall a, b | 0 <= a < b < |StyleLines.All|
      ensures StyleLines.Name(StyleLines.All[a]) != StyleLines.Name(StyleLines.All[b])
    {
      StyleLines.NameInjective(StyleLines.All[a], StyleLines.All[b]);
    }
  }

  lemma MultiplicityTwo<T>(s: seq<T>, i: nat, j: nat)
    requires i < j < |s| && s[i] == s[j]
    ensures multiset(s)[s[i]] >= 2
  {
    assert s == s[..j] + s[j..];
    assert s[i] in multiset(s[..j]) by {
      assert s[..j][i] == s[i];
    }
    assert s[j] in multiset(s[j..]) by {
      assert s[j..][0] == s[j];
    }
  }

  lemma MultiplicityOne<T>(u: seq<T>, a: nat)
    requires a < |u| && forall k :: 0 <= k < |u| && k != a ==> u[k] != u[a]
    ensures multiset(u)[u[a]] == 1
  {
    assert u == u[..a] + [u[a]] + u[a + 1..];
    assert u[a] !in u[..a];
    assert u[a] !in u[a + 1..];
  }

  /** A permutation of entries with pairwise distinct style lines still has pairwise distinct style lines. */
  lemma PermutationKeepsDistinctLines(u: seq<StylePreference>, r: seq<StylePreference>, i: nat, j: nat)
    requires multiset(r) == multiset(u)
    requires forall a, b :: 0 <= a < b < |u| ==> u[a].styleLine != u[b].styleLine
    requires i < j < |r|
    ensures r[i].styleLine != r[j].styleLine
  {
    if r[i].styleLine == r[j].styleLine {
      assert r[i] in multiset(u) && r[j] in multiset(u);
      var a :| 0 <= a < |u| && u[a] == r[i];
      var b :| 0 <= b < |u| && u[b] == r[j];
      assert a == b;
      MultiplicityTwo(r, i, j);
      MultiplicityOne(u, a);
    }
  }

  /**
   * The computed preferences: every style line exactly once, each score in [0, 100) (so every
   * entry passes validation), ordered by descending score.
   */
  lemma CalculatedPreferencesShape(draws: seq<real>)
    requires Draws(draws)
    ensures var r := CalculateStylePreferences(draws);
      && |r| == |StyleLines.All|
      && (forall l :: exists i :: 0 <= i < |r| && r[i].styleLine == StyleLines.Name(l))
      && (forall i, j :: 0 <= i < j < |r| ==> r[i].styleLine != r[j].styleLine)
      && (forall i :: 0 <= i < |r| ==> ValidPreference(r[i]) && r[i].preferenceScore < 100.0)
      && (forall i, j :: 0 <= i < j < |r| ==> r[i].preferenceScore >= r[j].preferenceScore)
  {
    var u := Unsorted(draws);
    var r := CalculateStylePreferences(draws);
    Sorting.SortDescCorrect(u, ScoreOf);
    forall i | 0 <= i < |r| ensures ValidPreference(r[i]) && r[i].preferenceScore < 100.0 {
      CalculatedEntry(draws, i);
    }
    forall l ensures exists i :: 0 <= i < |r| && r[i].styleLine == StyleLines.Name(l) {
      CalculatedCovers(draws, l);
    }
    UnsortedDistinct(draws);
    forall i, j | 0 <= i < j < |r| ensures r[i].styleLine != r[j].styleLine {
      PermutationKeepsDistinctLines(u, r, i, j);
    }
    assert forall i, j :: 0 <= i < j < |r| ==> ScoreOf(r[i]) >= ScoreOf(r[j]);
  }

  /** `getTopStyleLines(n)`: the style lines of the first `n` preferences, by descending score. */
  function TopStyleLines(prefs: seq<StylePreference>, n: int): (r: seq<string>)
    ensures n >= 0 ==> |r| == if n <= |prefs| then n else |prefs|
  {
    var top := JsBuiltins.SliceTo(Sorting.SortDesc(prefs, ScoreOf), n);
    seq(|top|, i requires 0 <= i < |top| => top[i].styleLine)
  }

  /** A non-negative `n` yields `min(n, |prefs|)` style lines, each from some preference. */
  lemma TopStyleLinesCount(prefs: seq<StylePreference>, n: nat)
    ensures var r := TopStyleLines(prefs, n);
      && |r| == (if n <= |prefs| then n else |prefs|)
      && forall i :: 0 <= i < |r| ==> exists k :: 0 <= k < |prefs| && prefs[k].styleLine == r[i]
  {
    var sorted := Sorting.SortDesc(prefs, ScoreOf);
    Sorting.SortDescCorrect(prefs, ScoreOf);
    var top := JsBuiltins.SliceTo(sorted, n);
    forall i | 0 <= i < |top| ensures exists k :: 0 <= k < |prefs| && prefs[k].styleLine == top[i].styleLine {
      assert top[i] == sorted[i];
      assert sorted[i] in multiset(prefs);
      var k :| 0 <= k < |prefs| && prefs[k] == sorted[i];
    }
  }

  /** A preference whose style line is not among the top ones scores no higher than every top one. */
  lemma TopStyleLinesAreBest(prefs: seq<StylePreference>, n: int, p: StylePreference, q: StylePreference)
    requires p in prefs && p.styleLine !in TopStyleLines(prefs, n)
    requires q in JsBuiltins.SliceTo(Sorting.SortDesc(prefs, ScoreOf), n)
    ensures q.preferenceScore >= p.preferenceScore
  {
    var sorted := Sorting.SortDesc(prefs, ScoreOf);
    var top := JsBuiltins.SliceTo(sorted, n);
    var lines := TopStyleLines(prefs, n);
    assert top == sorted[..|top|];
    forall m | 0 <= m < |top| ensures top[m] != p {
      assert lines[m] == top[m].styleLine;
    }
    assert p !in multiset(top);
    Sorting.TopDominates(prefs, ScoreOf, |top|);
    assert p in multiset(prefs) - multiset(top);
    assert ScoreOf(q) >= ScoreOf(p);
  }

  /** For freshly computed preferences, asking for six or more top lines gives every style line. */
  lemma TopOfCalculatedCoversAll(draws: seq<real>, n: int, l: StyleLines.StyleLine)
    requires Draws(draws) && n >= |StyleLines.All|
    ensures StyleLines.Name(l) in TopStyleLines(CalculateStylePreferences(draws), n)
  {
    var prefs := CalculateStylePreferences(draws);
    CalculatedPreferencesShape(draws);
    Sorting.SortDescOfSorted(prefs, ScoreOf);
    var i :| 0 <= i < |prefs| && prefs[i].styleLine == StyleLines.Name(l);
    assert TopStyleLines(prefs, n)[i] == StyleLines.Name(l);
  }

  /** A style-profile document. `quizModified` is Mongoose's `isModified('quizResponses')`. */
  class StyleProfile {
    var user: nat
    var quizResponses: map<string, string>
    var quizModified: bool
    var preferences: array<StylePreference>

    /** A new document: every path counts as modified and there are no preferences yet. */
    constructor (user: nat, quizResponses: map<string, string>)
      ensures this.user == user && this.quizResponses == quizResponses
      ensures quizModified && preferences.Length == 0 && fresh(preferences)
    {
      this.user := user;
      this.quizResponses := quizResponses;
      quizModified := true;
      preferences := new StylePreference[0];
    }

    /** Assigning the quiz responses marks the path modified. */
    method SetQuizResponses(responses: map<string, string>)
      modifies this
      ensures quizResponses == responses && quizModified
      ensures user == old(user) && preferences == old(preferences)
    {
      quizResponses := responses;
      quizModified := true;
    }

    /** Assigning the preferences array directly (it is validated on save). */
    method SetPreferences(prefs: seq<StylePreference>)
      modifies this
      ensures preferences[..] == prefs && fresh(preferences)
      ensures user == old(user) && quizResponses == old(quizResponses) && quizModified == old(quizModified)
    {
      preferences := new StylePreference[|prefs|](i requires 0 <= i < |prefs| => prefs[i]);
    }

    /** `getTopStyleLines(n)`: sorts the stored preferences in place, then reads off the first `n`. */
    method GetTopStyleLines(n: int) returns (r: seq<string>)
      modifies preferences
      ensures r == TopStyleLines(old(preferences[..]), n)
      ensures preferences[..] == Sorting.SortDesc(old(preferences[..]), ScoreOf)
    {
      Sorting.SortDescInPlace(preferences, ScoreOf);
      var top := JsBuiltins.SliceTo(preferences[..], n);
      r := seq(|top|, i requires 0 <= i < |top| => top[i].styleLine);
    }

    /**
     * `save()`: validation runs first (Mongoose validates before the `pre('save')` hooks), then the
     * hook recomputes the preferences from `draws` when the quiz responses were modified; a saved
     * document has no modified paths.
     */
    method Save(draws: seq<real>) returns (r: Result<(), ValidationError>)
      requires Draws(draws)
      modifies this
      ensures r == ValidatePreferences(old(preferences[..]))
      ensures r.Failure? ==> preferences == old(preferences) && quizModified == old(quizModified)
      ensures r.Success? && old(quizModified) ==>
        fresh(preferences) && preferences[..] == CalculateStylePreferences(draws)
      ensures r.Success? && !old(quizModified) ==> preferences == old(preferences)
      ensures r.Success? ==> !quizModified
      ensures user == old(user) && quizResponses == old(quizResponses)
      ensures preferences[..] == old(preferences[..]) || fresh(preferences)
    {
      r := ValidatePreferences(preferences[..]);
      if r.Failure? {
        return;
      }
      if quizModified {
        var computed := CalculateStylePreferences(draws);
        preferences := new StylePreference[|computed|](i requires 0 <= i < |computed| => computed[i]);
      }
      quizModified := false;
    }
  }
}
