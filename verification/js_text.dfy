/**
  The JavaScript string operations the work-order pipeline is built from:
  whitespace and line-terminator classes, ASCII case mapping, substring search,
  `trim`, the newline and whitespace-run replacements, the `Label:.*$` tail
  removal, digit filtering, UTF-16 length, and `join('\n')` / `split('\n')`.
*/
module JsText {
  import opened Wrappers

  // ---------------------------------------------------------------- character classes

  /** The characters `String.prototype.trim` removes and the regex class `\s` matches. */
  predicate IsSpace(c: char) {
    || c == '\t' || c == '\n' || c == '\U{B}' || c == '\U{C}' || c == '\r' || c == ' '
    || c == '\U{A0}' || c == '\U{1680}' || ('\U{2000}' <= c <= '\U{200A}')
    || c == '\U{2028}' || c == '\U{2029}' || c == '\U{202F}' || c == '\U{205F}'
    || c == '\U{3000}' || c == '\U{FEFF}'
  }

  /** The characters the regex `.` does not match and that stop a non-multiline `.*$`. */
  predicate IsLineTerminator(c: char) {
    c == '\n' || c == '\r' || c == '\U{2028}' || c == '\U{2029}'
  }

  /** The regex class `\d`: ASCII decimal digits only. */
  predicate IsDigit(c: char) {
    '0' <= c <= '9'
  }

  predicate IsUpper(c: char) {
    'A' <= c <= 'Z'
  }

  /** `toLowerCase` on one character, restricted to ASCII. */
  function LowerChar(c: char): (r: char)
    ensures !IsUpper(r)
    ensures IsUpper(c) ==> r as int == c as int + 32
    ensures !IsUpper(c) ==> r == c
  {
    if IsUpper(c) then (c as int + 32) as char else c
  }

  /** `toLowerCase` restricted to ASCII; every other character is kept. */
  function Lower(s: string): (r: string)
    ensures |r| == |s|
    ensures forall i :: 0 <= i < |s| ==> r[i] == LowerChar(s[i])
  {
    seq(|s|, i requires 0 <= i < |s| => LowerChar(s[i]))
  }

  /** JavaScript truthiness of an optional string: present and non-empty. */
  predicate Truthy(s: Option<string>) {
    s.Some? && s.value != ""
  }

  /** `a || b` on optional strings. */
  function Or(a: Option<string>, b: string): (r: string)
    ensures Truthy(a) ==> r == a.value
    ensures !Truthy(a) ==> r == b
  {
    if Truthy(a) then a.value else b
  }

  predicate NoNewline(s: string) {
    '\n' !in s
  }

  lemma NoNewlineConcat(a: string, b: string)
    requires NoNewline(a) && NoNewline(b)
    ensures NoNewline(a + b)
  {
  }

  /** Every line of the list is free of newlines. */
  predicate SingleLines(lines: seq<string>) {
    forall i :: 0 <= i < |lines| ==> NoNewline(lines[i])
  }

  lemma SingleLinesAppend(a: seq<string>, b: seq<string>)
    requires SingleLines(a) && SingleLines(b)
    ensures SingleLines(a + b)
  {
    assert forall i :: 0 <= i < |a + b| ==> (a + b)[i] == if i < |a| then a[i] else b[i - |a|];
  }

  predicate NoLineTerminator(s: string) {
    forall i :: 0 <= i < |s| ==> !IsLineTerminator(s[i])
  }

  // ---------------------------------------------------------------- substring search

  predicate StartsWith(s: string, p: string) {
    |p| <= |s| && s[..|p|] == p
  }

  predicate EndsWith(s: string, p: string) {
    |p| <= |s| && s[|s| - |p|..] == p
  }

  /** `t` occurs in `s` starting at index `i`. */
  predicate MatchesAt(s: string, t: string, i: nat) {
    i + |t| <= |s| && s[i..i + |t|] == t
  }

  /** The first index at or after `from` where `t` occurs in `s`. */
  function IndexOfFrom(s: string, t: string, from: nat): (r: Option<nat>)
    ensures r.Some? ==> from <= r.value && MatchesAt(s, t, r.value)
    ensures r.Some? ==> forall k: nat :: from <= k < r.value ==> !MatchesAt(s, t, k)
    ensures r.None? ==> forall k: nat :: from <= k ==> !MatchesAt(s, t, k)
    decreases |s| - from
  {
    if from + |t| > |s| then None
    else if MatchesAt(s, t, from) then Some(from)
    else IndexOfFrom(s, t, from + 1)
  }

  /** `indexOf`: the first occurrence of `t` in `s`. */
  function IndexOf(s: string, t: string): (r: Option<nat>)
    ensures r.Some? ==> MatchesAt(s, t, r.value) && forall k: nat :: k < r.value ==> !MatchesAt(s, t, k)
    ensures r.None? ==> forall k: nat :: !MatchesAt(s, t, k)
  {
    IndexOfFrom(s, t, 0)
  }

  /** `includes`: case-sensitive substring containment. */
  predicate Contains(s: string, t: string) {
    IndexOf(s, t).Some?
  }

  lemma ContainsAt(s: string, t: string, i: nat)
    requires MatchesAt(s, t, i)
    ensures Contains(s, t)
  {
  }

  /** Containment is transitive: an occurrence of `t` inside an occurrence of `u` is in `s`. */
  lemma ContainsTransitive(s: string, u: string, t: string)
    requires Contains(s, u) && Contains(u, t)
    ensures Contains(s, t)
  {
    var i := IndexOf(s, u).value;
    var j := IndexOf(u, t).value;
    var found := s[i + j..i + j + |t|];
    forall k | 0 <= k < |t|
      ensures found[k] == t[k]
    {
      assert s[i..i + |u|][j + k] == u[j..j + |t|][k];
    }
    assert found == t;
    ContainsAt(s, t, i + j);
  }

  lemma PrefixContained(s: string, p: string)
    requires StartsWith(s, p)
    ensures Contains(s, p)
  {
    ContainsAt(s, p, 0);
  }

  lemma LowerSlice(s: string, a: nat, b: nat)
    requires a <= b <= |s|
    ensures Lower(s)[a..b] == Lower(s[a..b])
  {
  }

  /** Where the lower-cased text shows the lower-cased name, the text itself shows it in its own case. */
  lemma MatchIgnoringCase(text: string, name: string, k: nat)
    requires MatchesAt(Lower(text), Lower(name), k)
    ensures k + |name| <= |text|
    ensures Lower(text[k..k + |name|]) == Lower(name) && Contains(text, text[k..k + |name|])
  {
    LowerSlice(text, k, k + |name|);
    ContainsAt(text, text[k..k + |name|], k);
  }

  /**
    `text.match(/name/i)[0]` for a pattern without metacharacters: the leftmost
    occurrence of `name` ignoring case, as it is written in `text`.
  */
  function FindIgnoringCase(text: string, name: string): (r: Option<string>)
    ensures r.Some? <==> Contains(Lower(text), Lower(name))
    ensures r.Some? ==> Lower(r.value) == Lower(name) && Contains(text, r.value)
    ensures forall k: nat :: MatchesAt(Lower(text), Lower(name), k) && (forall j: nat :: j < k ==> !MatchesAt(Lower(text), Lower(name), j))
                             ==> k + |name| <= |text| && r == Some(text[k..k + |name|])
  {
    match IndexOf(Lower(text), Lower(name))
    case Some(k) =>
      MatchIgnoringCase(text, name, k);
      Some(text[k..k + |name|])
    case None => None
  }

  /** Lower-casing both sides preserves an occurrence. */
  lemma LowerPreservesMatch(s: string, t: string, i: nat)
    requires MatchesAt(s, t, i)
    ensures MatchesAt(Lower(s), Lower(t), i)
  {
    LowerSlice(s, i, i + |t|);
  }

  lemma LowerPreservesContains(s: string, t: string)
    requires Contains(s, t)
    ensures Contains(Lower(s), Lower(t))
  {
    var i := IndexOf(s, t).value;
    LowerPreservesMatch(s, t, i);
    ContainsAt(Lower(s), Lower(t), i);
  }

  /** A lower-cased string never contains a string holding an upper-case ASCII letter. */
  lemma LowerExcludesUpper(s: string, t: string, j: nat)
    requires j < |t| && IsUpper(t[j])
    ensures !Contains(Lower(s), t)
  {
  }

  /**
    If `u` occurs in `s` and the lower-cased `s` does not contain `l`, the lower-cased
    `u` does not contain it either.
  */
  lemma AbsentInInfix(s: string, u: string, l: string)
    requires Contains(s, u)
    requires !Contains(Lower(s), l)
    ensures !Contains(Lower(u), l)
  {
    if Contains(Lower(u), l) {
      var i := IndexOf(s, u).value;
      LowerPreservesMatch(s, u, i);
      ContainsAt(Lower(s), Lower(u), i);
      ContainsTransitive(Lower(s), Lower(u), l);
      assert false;
    }
  }

  /** A string occurring inside a newline-free string is newline-free. */
  lemma InfixNoNewline(s: string, u: string)
    requires Contains(s, u) && NoNewline(s)
    ensures NoNewline(u)
  {
    var i := IndexOf(s, u).value;
    forall k | 0 <= k < |u|
      ensures u[k] != '\n'
    {
      assert u[k] == s[i + k];
    }
  }

  /** A string occurring inside a string free of line terminators is free of them too. */
  lemma InfixNoLineTerminator(s: string, u: string)
    requires Contains(s, u) && NoLineTerminator(s)
    ensures NoLineTerminator(u)
  {
    var i := IndexOf(s, u).value;
    assert forall k :: 0 <= k < |u| ==> u[k] == s[i + k];
  }

  /** A string lacking character `c` contains no string that holds `c`. */
  lemma AbsentChar(s: string, t: string, c: char)
    requires c in t && c !in s
    ensures !Contains(s, t)
  {
  }

  // ---------------------------------------------------------------- trim

  function TrimStart(s: string): (r: string)
    ensures |r| <= |s| && r == s[|s| - |r|..]
    ensures r == [] || !IsSpace(r[0])
    ensures forall i :: 0 <= i < |s| - |r| ==> IsSpace(s[i])
  {
    if |s| > 0 && IsSpace(s[0]) then TrimStart(s[1..]) else s
  }

  function TrimEnd(s: string): (r: string)
    ensures |r| <= |s| && r == s[..|r|]
    ensures r == [] || !IsSpace(r[|r| - 1])
    ensures forall i :: |r| <= i < |s| ==> IsSpace(s[i])
  {
    if |s| > 0 && IsSpace(s[|s| - 1]) then TrimEnd(s[..|s| - 1]) else s
  }

  /** `trim`: the result occurs in `s`, and neither end is whitespace. */
  function Trim(s: string): (r: string)
    ensures Contains(s, r)
    ensures r == [] || (!IsSpace(r[0]) && !IsSpace(r[|r| - 1]))
    ensures |r| <= |s|
  {
    var t := TrimStart(s);
    var r := TrimEnd(t);
    PrefixOfSuffix(s, |s| - |t|, |r|);
    ContainsAt(s, r, |s| - |t|);
    r
  }

  lemma PrefixOfSuffix(s: string, a: nat, n: nat)
    requires a + n <= |s|
    ensures s[a..][..n] == s[a..a + n]
  {
  }

  /** `trim` cuts a whitespace prefix and a whitespace suffix. */
  lemma TrimSlice(s: string) returns (a: nat, b: nat)
    ensures a <= b <= |s| && Trim(s) == s[a..b]
    ensures forall i :: 0 <= i < a ==> IsSpace(s[i])
    ensures forall i :: b <= i < |s| ==> IsSpace(s[i])
  {
    var t := TrimStart(s);
    var r := TrimEnd(t);
    a := |s| - |t|;
    b := a + |r|;
    PrefixOfSuffix(s, a, |r|);
    forall i | b <= i < |s|
      ensures IsSpace(s[i])
    {
      assert s[i] == t[i - a];
    }
  }

  /** Trimming keeps every stretch that starts and ends with a non-space character. */
  lemma TrimKeepsInner(s: string, k: nat, n: nat)
    requires 0 < n && k + n <= |s| && !IsSpace(s[k]) && !IsSpace(s[k + n - 1])
    ensures Contains(Trim(s), s[k..k + n])
  {
    var a, b := TrimSlice(s);
    SpaceFreeStretchInside(s, a, b, k, n);
  }

  /** A stretch with non-space ends lies inside any cut that removes only spaces. */
  lemma SpaceFreeStretchInside(s: string, a: nat, b: nat, k: nat, n: nat)
    requires a <= b <= |s|
    requires forall i :: 0 <= i < a ==> IsSpace(s[i])
    requires forall i :: b <= i < |s| ==> IsSpace(s[i])
    requires 0 < n && k + n <= |s| && !IsSpace(s[k]) && !IsSpace(s[k + n - 1])
    ensures Contains(s[a..b], s[k..k + n])
  {
    NotInSpaceHead(s, a, k);
    NotInSpaceTail(s, b, k + n - 1);
    SliceOfSlice(s, a, b, k, n);
    ContainsAt(s[a..b], s[k..k + n], k - a);
  }

  lemma SliceOfSlice(s: string, a: nat, b: nat, k: nat, n: nat)
    requires a <= k && k + n <= b <= |s|
    ensures MatchesAt(s[a..b], s[k..k + n], k - a)
  {
    var inner := s[a..b];
    var found := inner[k - a..k - a + n];
    var stretch := s[k..k + n];
    forall i | 0 <= i < n
      ensures found[i] == stretch[i]
    {
      assert inner[k - a + i] == s[a + (k - a + i)];
    }
    assert found == stretch;
  }

  lemma NotInSpaceHead(s: string, a: nat, j: nat)
    requires a <= |s| && forall i :: 0 <= i < a ==> IsSpace(s[i])
    requires j < |s| && !IsSpace(s[j])
    ensures a <= j
  {
  }

  lemma NotInSpaceTail(s: string, b: nat, j: nat)
    requires forall i :: b <= i < |s| ==> IsSpace(s[i])
    requires j < |s| && !IsSpace(s[j])
    ensures j < b
  {
  }

  /** Trimming an already trimmed string changes nothing. */
  lemma TrimIdempotent(s: string)
    ensures Trim(Trim(s)) == Trim(s)
  {
    var r := Trim(s);
    assert TrimStart(r) == r;
    assert TrimEnd(r) == r;
  }

  // ---------------------------------------------------------------- replacements

  /** `replace(/\n/g, ' ')`. */
  function ReplaceNewlines(s: string): (r: string)
    ensures |r| == |s|
    ensures NoNewline(r)
    ensures forall i :: 0 <= i < |s| && s[i] != '\n' ==> r[i] == s[i]
  {
    seq(|s|, i requires 0 <= i < |s| => if s[i] == '\n' then ' ' else s[i])
  }

  /** The suffix of `s` left after its leading run of whitespace. */
  function DropSpaces(s: string): (r: string)
    ensures |r| <= |s| && r == s[|s| - |r|..]
    ensures r == [] || !IsSpace(r[0])
  {
    if |s| > 0 && IsSpace(s[0]) then DropSpaces(s[1..]) else s
  }

  /** No two spaces in a row, and no whitespace character other than the plain space. */
  predicate SingleSpaced(s: string) {
    && (forall i :: 0 <= i < |s| && IsSpace(s[i]) ==> s[i] == ' ')
    && (forall i :: 0 <= i < |s| - 1 ==> !(s[i] == ' ' && s[i + 1] == ' '))
  }

  /** `replace(/\s+/g, ' ')`: every maximal run of whitespace becomes one space. */
  function CollapseSpaces(s: string): (r: string)
    ensures SingleSpaced(r)
    ensures |s| > 0 && !IsSpace(s[0]) ==> |r| > 0 && r[0] == s[0]
    ensures |r| <= |s|
    decreases |s|
  {
    if |s| == 0 then ""
    else if IsSpace(s[0]) then " " + CollapseSpaces(DropSpaces(s))
    else [s[0]] + CollapseSpaces(s[1..])
  }

  /** `replace(/[^\d\s]/g, '')`: keep only digits and whitespace. */
  function KeepDigitsAndSpaces(s: string): (r: string)
    ensures forall i :: 0 <= i < |r| ==> IsDigit(r[i]) || IsSpace(r[i])
    ensures DigitCount(r) == DigitCount(s)
  {
    if |s| == 0 then ""
    else if IsDigit(s[0]) || IsSpace(s[0]) then [s[0]] + KeepDigitsAndSpaces(s[1..])
    else KeepDigitsAndSpaces(s[1..])
  }

  /** The number of ASCII digits in `s`. */
  function DigitCount(s: string): nat {
    if |s| == 0 then 0 else (if IsDigit(s[0]) then 1 else 0) + DigitCount(s[1..])
  }

  /** `replace(/\s/g, '')`: drop all whitespace. */
  function DropAllSpaces(s: string): (r: string)
    ensures forall i :: 0 <= i < |r| ==> !IsSpace(r[i])
  {
    if |s| == 0 then ""
    else if IsSpace(s[0]) then DropAllSpaces(s[1..])
    else [s[0]] + DropAllSpaces(s[1..])
  }

  /** On a string of digits and whitespace, dropping the whitespace leaves exactly the digits. */
  lemma {:induction false} DropSpacesCountsDigits(s: string)
    requires forall i :: 0 <= i < |s| ==> IsDigit(s[i]) || IsSpace(s[i])
    ensures |DropAllSpaces(s)| == DigitCount(s)
  {
    if |s| > 0 {
      DropSpacesCountsDigits(s[1..]);
    }
  }

  /** `replace(/,/g, '')`. */
  function RemoveCommas(s: string): (r: string)
    ensures ',' !in r
    ensures |s| > 0 && s[0] != ',' ==> |r| > 0 && r[0] == s[0]
  {
    if |s| == 0 then ""
    else if s[0] == ',' then RemoveCommas(s[1..])
    else [s[0]] + RemoveCommas(s[1..])
  }

  // ---------------------------------------------------------------- label tails

  /**
    A case-insensitive label `tag` starts at `i` and nothing after it is a line
    terminator: where the regex `tag.*$` (flag `i`, no `s`, no `m`) matches.
  */
  predicate LabelTailAt(s: string, tag: string, i: nat) {
    MatchesAt(Lower(s), Lower(tag), i) && NoLineTerminator(s[i + |tag|..])
  }

  function LabelTailFrom(s: string, tag: string, from: nat): (r: Option<nat>)
    ensures r.Some? ==> from <= r.value && LabelTailAt(s, tag, r.value)
    ensures r.Some? ==> forall k: nat :: from <= k < r.value ==> !LabelTailAt(s, tag, k)
    ensures r.None? ==> forall k: nat :: from <= k ==> !LabelTailAt(s, tag, k)
    decreases |s| - from
  {
    if from + |tag| > |s| then None
    else if LabelTailAt(s, tag, from) then Some(from)
    else LabelTailFrom(s, tag, from + 1)
  }

  /** `replace(/tag.*$/i, '')`: cut `s` where the first label tail starts. */
  function StripLabelTail(s: string, tag: string): (r: string)
    ensures StartsWith(s, r)
    ensures forall k: nat :: k < |r| ==> !LabelTailAt(s, tag, k)
    ensures |r| < |s| ==> LabelTailAt(s, tag, |r|)
  {
    match LabelTailFrom(s, tag, 0)
    case Some(i) => s[..i]
    case None => s
  }

  /**
    Without line terminators every occurrence of the label is a label tail, so the
    stripped string holds no occurrence at all.
  */
  lemma StripWithoutTerminators(s: string, tag: string)
    requires NoLineTerminator(s) && |tag| > 0
    ensures !Contains(Lower(StripLabelTail(s, tag)), Lower(tag))
  {
    var r := StripLabelTail(s, tag);
    if Contains(Lower(r), Lower(tag)) {
      var k := IndexOf(Lower(r), Lower(tag)).value;
      assert Lower(r) == Lower(s)[..|r|];
      assert Lower(s)[k..k + |tag|] == Lower(r)[k..k + |tag|];
      assert MatchesAt(Lower(s), Lower(tag), k);
      assert NoLineTerminator(s[k + |tag|..]);
      assert LabelTailAt(s, tag, k);
      assert false;
    }
  }

  // ---------------------------------------------------------------- lengths

  /** `length`: the number of UTF-16 code units. */
  function Utf16Length(s: string): (n: nat)
    ensures |s| <= n <= 2 * |s|
  {
    if |s| == 0 then 0
    else Utf16Length(s[..|s| - 1]) + (if s[|s| - 1] as int > 0xFFFF then 2 else 1)
  }

  // ---------------------------------------------------------------- lines

  /** `lines.join('\n')`. */
  function JoinLines(lines: seq<string>): string {
    if |lines| == 0 then ""
    else if |lines| == 1 then lines[0]
    else lines[0] + "\n" + JoinLines(lines[1..])
  }

  /** The index of the first newline of `s`. */
  function NewlineIndex(s: string): (r: Option<nat>)
    ensures r.Some? ==> r.value < |s| && s[r.value] == '\n' && NoNewline(s[..r.value])
    ensures r.None? ==> NoNewline(s)
  {
    if |s| == 0 then None
    else if s[0] == '\n' then Some(0)
    else match NewlineIndex(s[1..])
      case Some(i) => (assert s[..i + 1] == [s[0]] + s[1..][..i]; Some(i + 1))
      case None => None
  }

  /** `s.split('\n')`. */
  function SplitLines(s: string): (r: seq<string>)
    ensures |r| > 0
    ensures forall i :: 0 <= i < |r| ==> NoNewline(r[i])
    decreases |s|
  {
    match NewlineIndex(s)
    case None => [s]
    case Some(i) => [s[..i]] + SplitLines(s[i + 1..])
  }

  /** Splitting the joined lines gives the lines back, when none holds a newline. */
  lemma {:induction false} SplitJoin(lines: seq<string>)
    requires |lines| > 0
    requires forall i :: 0 <= i < |lines| ==> NoNewline(lines[i])
    ensures SplitLines(JoinLines(lines)) == lines
  {
    if |lines| > 1 {
      var s := JoinLines(lines);
      var n := |lines[0]|;
      assert s == lines[0] + "\n" + JoinLines(lines[1..]);
      assert s[n] == '\n';
      assert s[..n] == lines[0];
      assert NewlineIndex(s) == Some(n) by {
        NewlineUnique(s, n);
      }
      assert s[n + 1..] == JoinLines(lines[1..]);
      SplitJoin(lines[1..]);
    }
  }

  lemma NewlineUnique(s: string, n: nat)
    requires n < |s| && s[n] == '\n' && NoNewline(s[..n])
    ensures NewlineIndex(s) == Some(n)
  {
  }

  /** Joining the split pieces gives the string back. */
  lemma {:induction false} JoinSplit(s: string)
    ensures JoinLines(SplitLines(s)) == s
    decreases |s|
  {
    match NewlineIndex(s)
    case None =>
    case Some(i) =>
      JoinSplit(s[i + 1..]);
      assert s == s[..i] + "\n" + s[i + 1..];
  }

  /** Joining a concatenation puts one newline between the two joined halves. */
  lemma {:induction false} JoinAppend(a: seq<string>, b: seq<string>)
    requires |a| > 0 && |b| > 0
    ensures JoinLines(a + b) == JoinLines(a) + "\n" + JoinLines(b)
  {
    if |a| == 1 {
      assert (a + b)[1..] == b;
    } else {
      assert (a + b)[1..] == a[1..] + b;
      JoinAppend(a[1..], b);
    }
  }
}
