/**
  Keyword-containment inference shared by both parser variants: `some(k =>
  text.includes(k))` over an indicator list, the first label of an ordered list
  found in the text, and the fixed-literal extractors.
*/
module Keywords {
  import opened Wrappers
  import opened JsText

  /** Some needle of the list occurs in `haystack`. */
  function AnyContained(haystack: string, needles: seq<string>): (r: bool)
    ensures r <==> exists i :: 0 <= i < |needles| && Contains(haystack, needles[i])
  {
    if |needles| == 0 then false
    else Contains(haystack, needles[0]) || AnyContained(haystack, needles[1..])
  }

  /** Every entry of the list lower-cased: `indicators.map(k => k.toLowerCase())`. */
  function LowerAll(words: seq<string>): (r: seq<string>)
    ensures |r| == |words|
    ensures forall i :: 0 <= i < |words| ==> r[i] == Lower(words[i])
  {
    if |words| == 0 then [] else [Lower(words[0])] + LowerAll(words[1..])
  }

  /**
    `indicators.some(k => text.toLowerCase().includes(k.toLowerCase()))`:
    some indicator occurs in the text, ignoring ASCII case.
  */
  predicate AnyIndicator(text: string, indicators: seq<string>) {
    AnyContained(Lower(text), LowerAll(indicators))
  }

  lemma AnyIndicatorAt(text: string, indicators: seq<string>, i: nat)
    requires i < |indicators| && Contains(Lower(text), Lower(indicators[i]))
    ensures AnyIndicator(text, indicators)
  {
    assert LowerAll(indicators)[i] == Lower(indicators[i]);
  }

  /** The index of the first needle of the list that occurs in `haystack`. */
  function FirstContained(haystack: string, needles: seq<string>): (r: Option<nat>)
    ensures r.Some? ==> r.value < |needles| && Contains(haystack, needles[r.value])
    ensures r.Some? ==> forall j :: 0 <= j < r.value ==> !Contains(haystack, needles[j])
    ensures r.None? <==> forall j :: 0 <= j < |needles| ==> !Contains(haystack, needles[j])
  {
    if |needles| == 0 then None
    else if Contains(haystack, needles[0]) then Some(0)
    else
      match FirstContained(haystack, needles[1..])
      case Some(i) =>
        assert forall j :: 1 <= j <= i ==> needles[j] == needles[1..][j - 1];
        Some(i + 1)
      case None =>
        assert forall j :: 1 <= j < |needles| ==> needles[j] == needles[1..][j - 1];
        None
  }

  /** The index of the first label that occurs in `text` when both are lower-cased. */
  function FirstLabel(text: string, labels: seq<string>): (r: Option<nat>)
    ensures r.Some? ==> r.value < |labels| && Contains(Lower(text), Lower(labels[r.value]))
    ensures r.Some? ==> forall j :: 0 <= j < r.value ==> !Contains(Lower(text), Lower(labels[j]))
    ensures r.None? <==> forall j :: 0 <= j < |labels| ==> !Contains(Lower(text), Lower(labels[j]))
  {
    FirstContained(Lower(text), LowerAll(labels))
  }

  /** Label `i` occurs in `text` ignoring case, and no label listed before it does. */
  predicate IsFirstLabel(text: string, labels: seq<string>, i: int) {
    0 <= i < |labels| && Contains(Lower(text), Lower(labels[i]))
    && forall j :: 0 <= j < i ==> !Contains(Lower(text), Lower(labels[j]))
  }

  /** A label that occurs, with none occurring before it, is the one `FirstLabel` finds. */
  lemma FirstLabelIsFirst(text: string, labels: seq<string>, i: int)
    requires IsFirstLabel(text, labels, i)
    ensures FirstLabel(text, labels) == Some(i)
  {
    var r := FirstLabel(text, labels);
    assert r.Some?;
    assert !(r.value < i);
    assert !(i < r.value);
  }

  /**
    `match ? match[0] : literal` for a regex that is a plain literal: the matched
    text when the literal occurs, else the literal itself.
  */
  function MatchedLiteral(text: string, literal: string): (r: string)
    ensures r == literal
  {
    match IndexOf(text, literal)
    case Some(i) => text[i..i + |literal|]
    case None => literal
  }
}
