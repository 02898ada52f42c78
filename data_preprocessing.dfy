/**
 * `encode_style_lines` of the AI preprocessing utilities: style-line labels become one-hot rows of
 * `np.eye(len(StyleLines))`, with the mapping from each enumeration member to its position.
 * Labels are the members' string values; the 0.0/1.0 floats of `np.eye` are the reals 0.0/1.0.
 */
module DataPreprocessing {
  import opened Wrappers
  import StyleLines

  /** `KeyError(key)`, raised by the dictionary lookup for a label outside the enumeration. */
  datatype KeyError = KeyError(key: string)

  /** `{style: i for i, style in enumerate(StyleLines)}`, keyed by the members' values. */
  function StyleMapping(): (m: map<string, nat>)
    ensures forall l :: StyleLines.Name(l) in m && m[StyleLines.Name(l)] == StyleLines.Index(l)
    ensures forall s :: s in m <==> StyleLines.FromName(s).Some?
  {
    map["CASUAL" := 0, "FORMAL" := 1, "SPORTY" := 2, "BOHEMIAN" := 3, "VINTAGE" := 4, "MINIMALIST" := 5]
  }

  /** Row `k` of the identity matrix of size `n`. */
  function OneHot(n: nat, k: nat): (row: seq<real>)
    ensures |row| == n
    ensures forall j :: 0 <= j < n ==> row[j] == if j == k then 1.0 else 0.0
  {
    seq(n, j => if j == k then 1.0 else 0.0)
  }

  /** `labels[i]` is the first label with no entry in the mapping. */
  predicate FirstUnknown(labels: seq<string>, i: int) {
    && 0 <= i < |labels|
    && labels[i] !in StyleMapping()
    && forall j :: 0 <= j < i ==> labels[j] in StyleMapping()
  }

  /** `[style_mapping[style] for style in style_lines]`: fails on the first unknown label. */
  function EncodeIndices(labels: seq<string>): (r: Result<seq<nat>, KeyError>)
    ensures r.Success? <==> forall i :: 0 <= i < |labels| ==> labels[i] in StyleMapping()
    ensures r.Success? ==>
      && |r.value| == |labels|
      && forall i :: 0 <= i < |labels| ==> r.value[i] == StyleMapping()[labels[i]]
    ensures r.Failure? ==> exists i :: FirstUnknown(labels, i) && labels[i] == r.error.key
    decreases |labels|
  {
    if |labels| == 0 then Success([])
    else if labels[0] !in StyleMapping() then Failure(KeyError(labels[0]))
    else match EncodeIndices(labels[1..])
      case Success(rest) => Success([StyleMapping()[labels[0]]] + rest)
      case Failure(e) =>
        var i :| FirstUnknown(labels[1..], i) && labels[1..][i] == e.key;
        assert FirstUnknown(labels, i + 1);
        Failure(e)
  }

  /** `encode_style_lines`: one one-hot row of width `len(StyleLines)` per label, in input order. */
  function EncodeStyleLines(labels: seq<string>): (r: Result<seq<seq<real>>, KeyError>)
    ensures r.Success? <==> forall i :: 0 <= i < |labels| ==> StyleLines.FromName(labels[i]).Some?
    ensures r.Success? ==> |r.value| == |labels| && forall i :: 0 <= i < |labels| ==>
      var l := StyleLines.FromName(labels[i]).value;
      r.value[i] == OneHot(|StyleLines.All|, StyleLines.Index(l))
    ensures r.Failure? ==> StyleLines.FromName(r.error.key).None? && r.error.key in labels
  {
    match EncodeIndices(labels)
    case Failure(e) => Failure(e)
    case Success(ks) => Success(seq(|ks|, i requires 0 <= i < |ks| => OneHot(|StyleLines.All|, ks[i])))
  }

  /** The position of the first 1.0 in a row, if there is one. */
  function PositionOfOne(row: seq<real>): (r: Option<nat>)
    ensures r.Some? ==>
      && r.value < |row| && row[r.value] == 1.0
      && forall j :: 0 <= j < r.value ==> row[j] != 1.0
    ensures r.None? ==> forall j :: 0 <= j < |row| ==> row[j] != 1.0
  {
    if |row| == 0 then None
    else if row[0] == 1.0 then Some(0)
    else match PositionOfOne(row[1..])
      case None => None
      case Some(k) => Some(k + 1)
  }

  /** Decodes a one-hot row back to the label of the member at the position of its 1.0. */
  function DecodeRow(row: seq<real>): Option<string> {
    match PositionOfOne(row)
    case Some(k) => if k < |StyleLines.All| then Some(StyleLines.Name(StyleLines.All[k])) else None
    case None => None
  }

  /** Every member gets its own position in enumeration order, 0 to 5, and nothing else is mapped. */
  lemma MappingIsEnumerationOrder()
    ensures |StyleMapping()| == |StyleLines.All|
    ensures forall i :: 0 <= i < |StyleLines.All| ==> StyleMapping()[StyleLines.Name(StyleLines.All[i])] == i
  {
  }

  /** Each encoded row has exactly one 1.0, at its label's position, and 0.0 everywhere else. */
  lemma {:induction false} EncodedRowIsOneHot(labels: seq<string>, i: nat)
    requires EncodeStyleLines(labels).Success? && i < |labels|
    ensures var row := EncodeStyleLines(labels).value[i];
      var k := StyleMapping()[labels[i]];
      |row| == 6 && k < 6 && row[k] == 1.0
      && (forall j :: 0 <= j < 6 && j != k ==> row[j] == 0.0)
  {
    var l := StyleLines.FromName(labels[i]).value;
    assert StyleMapping()[StyleLines.Name(l)] == StyleLines.Index(l);
  }

  /** Round trip: decoding row `i` of the encoding gives back `labels[i]`. */
  lemma {:induction false} DecodeEncode(labels: seq<string>, i: nat)
    requires EncodeStyleLines(labels).Success? && i < |labels|
    ensures DecodeRow(EncodeStyleLines(labels).value[i]) == Some(labels[i])
  {
    var l := StyleLines.FromName(labels[i]).value;
    var row := EncodeStyleLines(labels).value[i];
    var k := PositionOfOne(row);
    assert row[StyleLines.Index(l)] == 1.0;
    assert k == Some(StyleLines.Index(l));
  }

  /** A label outside the enumeration makes the whole call fail with a KeyError. */
  lemma UnknownLabelFails(labels: seq<string>, i: nat)
    requires i < |labels| && StyleLines.FromName(labels[i]).None?
    ensures EncodeStyleLines(labels).Failure?
  {
  }

  /** The empty input encodes to no rows. */
  lemma EmptyInput()
    ensures EncodeStyleLines([]) == Success([])
  {
  }
}
