/**
  The regular-expression layer of the work-order parsers, kept abstract.

  Every regex the two parser variants apply is a `Pattern`. What a regex finds in
  a document is supplied with the document in a `Scan`: for each pattern its first
  capture group (or, for the patterns that have no group, the whole match), the
  captures of the global dollar-amount regex in order, and the successive matches
  of the two task regexes. The ordered candidate chains built on top of them are
  modelled concretely here.
*/
module Matching {
  import opened Wrappers
  import opened JsText
  import opened JsNumber

  /** One regex per constructor; the line of the source that declares it is given. */
  datatype Pattern =
      // ets-pdf-parser-test/pdf-parser-real.js and src/services/ets-parser.ts
    | OrderNumberLabel        // real.js:112, ets-parser.ts:86: `Order Number:` then an identifier
    | DayMonthYear            // real.js:127, ets-parser.ts:91: `4 Jun 2024`
    | CustomerPhone           // real.js:198, ets-parser.ts:111: `Customer Phone:` up to a newline
    | TotalAud                // real.js:262, ets-parser.ts:151: a `$` amount after `Total AUD`
    | CostLimitPhrase         // real.js:279, ets-parser.ts:168: `cost limit` through a `$` amount
      // ets-pdf-parser-test/pdf-parser-real.js only
    | PurchaseOrder           // :113  `PO` then an identifier
    | WorkOrderLabel          // :114  `Work Order:` then an identifier
    | SlashDate               // :128  `4/6/2024`
    | IsoDate                 // :129  `2024-06-04`
    | ToUpperRunBeforeLabel   // :142  capitals after `To:` up to `ETS Phone`, `Phone:` or `Address:`
    | ContractorLabel         // :143  `Contractor:` line
    | AssignedTo              // :144  `Assigned to:` line
    | CustomerDetails         // :157  `Customer Details:` up to a newline or the next label
    | ContactLabel            // :158  `Contact:` line
    | CustomerLabel           // :159  `Customer:` line
    | SiteContactLabel        // :160  `Site Contact:` line
    | SiteAddressLabel        // :178  `Site Address:` up to a newline or a phone label
    | AddressLabel            // :179  `Address:` line
    | LocationLabel           // :180  `Location:` line
    | PhoneLabel              // :199  `Phone:` line
    | MobileLabel             // :200  `Mobile:` line
    | ContactDigits           // :201  a ten-digit number somewhere after `Contact`
    | BareDigits              // :202  any ten-digit number
    | ClientInstructions      // :240  text after `Client Instructions` up to a blank line
    | JobDescriptionLabel     // :241  text after `Job Description:` up to a blank line
    | PleaseAttend            // :242  NO capture group: text from `Please attend` to a blank line
    | WorkRequired            // :243  text after `Work Required:` up to a blank line
    | ValueLabel              // :263  a `$` amount after `Value`
    | EtsPhoneLoose           // :335  NO capture group: `1300 755 455`, spaces optional
      // src/services/ets-parser.ts only
    | ToUpperRun              // :96   capitals after `To:`
    | CustomerDetailsToAddress  // :101 `Customer Details:` up to a newline or `Site Address`
    | SiteAddressToPhone      // :106  `Site Address:` up to a newline or `Customer Phone`
    | ClientInstructionsBlock // :135  text after `Client Instructions` up to a blank line
    | JobDescriptionBlock     // :136  text after `Job Description:` up to a blank line
    | PleaseAttendBlock       // :137  NO capture group: text from `Please attend` to a blank line
    | CostLimitAmount         // :153  the digits of a `$` amount after `cost limit`

  /**
    What the regexes find in one document. `capture(p)` is `None` when `p` does not
    match. `dollarAmounts` holds the amount captured by each successive match of the
    global `$` regex (real.js:264, ets-parser.ts:152). `looseTasks` and `dottedTasks`
    are the (number, raw description) pairs of the task regexes of real.js:285 and
    ets-parser.ts:176.
  */
  datatype Scan = Scan(
    text: string,
    capture: Pattern -> Option<string>,
    dollarAmounts: seq<string>,
    looseTasks: seq<(string, string)>,
    dottedTasks: seq<(string, string)>)

  /** The outcome of the upstream PDF-to-text step. */
  datatype PdfText = Extracted(scan: Scan) | ExtractionFailed(message: string)

  /**
    Element 1 of `text.match(/\$…/g)`: with the global flag `match` returns the whole
    matches, so element 1 is the SECOND match, `$` included, or undefined.
  */
  function GlobalElementOne(amounts: seq<string>): (r: Option<string>)
    ensures r.Some? <==> |amounts| >= 2
    ensures r.Some? ==> |r.value| > 0 && r.value[0] == '$'
  {
    if |amounts| >= 2 then Some("$" + amounts[1]) else None
  }

  // ---------------------------------------------------------------- first match

  /** The first candidate that matched at all: `if (match) return …`. */
  function FirstPresent(caps: seq<Option<string>>): (r: Option<nat>)
    ensures r.Some? ==> r.value < |caps| && caps[r.value].Some?
    ensures r.Some? ==> forall j :: 0 <= j < r.value ==> caps[j].None?
    ensures r.None? ==> forall j :: 0 <= j < |caps| ==> caps[j].None?
  {
    if |caps| == 0 then None
    else if caps[0].Some? then Some(0)
    else match FirstPresent(caps[1..])
      case Some(i) => Some(i + 1)
      case None => None
  }

  /** The cleaned capture of the first candidate that matched, else `fallback`. */
  function FirstMatch(caps: seq<Option<string>>, clean: string -> string, fallback: string): (r: string)
    ensures (forall j :: 0 <= j < |caps| ==> caps[j].None?) ==> r == fallback
    ensures forall i :: 0 <= i < |caps| && caps[i].Some? && (forall j :: 0 <= j < i ==> caps[j].None?)
                        ==> r == clean(caps[i].value)
  {
    match FirstPresent(caps)
    case Some(i) => clean(caps[i].value)
    case None => fallback
  }

  // ---------------------------------------------------------------- validated chains

  /** `match && match[1]`: the candidate matched with a non-empty capture. */
  predicate Captured(c: Option<string>) {
    c.Some? && c.value != ""
  }

  /** Candidate `i` matched and its cleaned capture passes the validity check. */
  predicate Accepted(caps: seq<Option<string>>, clean: string -> string, valid: string -> bool, i: int) {
    0 <= i < |caps| && Captured(caps[i]) && valid(clean(caps[i].value))
  }

  /** The index of the first accepted candidate. */
  function FirstAccepted(caps: seq<Option<string>>, clean: string -> string, valid: string -> bool): (r: Option<nat>)
    ensures r.Some? ==> Accepted(caps, clean, valid, r.value)
    ensures r.Some? ==> forall j :: 0 <= j < r.value ==> !Accepted(caps, clean, valid, j)
    ensures r.None? ==> forall j :: 0 <= j < |caps| ==> !Accepted(caps, clean, valid, j)
  {
    if |caps| == 0 then None
    else if Captured(caps[0]) && valid(clean(caps[0].value)) then Some(0)
    else
      match FirstAccepted(caps[1..], clean, valid)
      case Some(i) =>
        assert forall j :: 1 <= j <= i ==> Accepted(caps, clean, valid, j) == Accepted(caps[1..], clean, valid, j - 1);
        Some(i + 1)
      case None =>
        assert forall j :: 1 <= j < |caps| ==> Accepted(caps, clean, valid, j) == Accepted(caps[1..], clean, valid, j - 1);
        None
  }

  /**
    An ordered chain of candidate patterns: the cleaned capture of the first
    candidate whose cleaned capture is valid, else the fallback sentinel.
  */
  function Chain(caps: seq<Option<string>>, clean: string -> string, valid: string -> bool, fallback: string): (r: string)
    ensures (forall i :: 0 <= i < |caps| ==> !Accepted(caps, clean, valid, i)) ==> r == fallback
    ensures forall i :: Accepted(caps, clean, valid, i) && (forall j :: 0 <= j < i ==> !Accepted(caps, clean, valid, j))
                        ==> r == clean(caps[i].value)
    ensures r == fallback || valid(r)
    ensures r == fallback || exists i :: 0 <= i < |caps| && Captured(caps[i]) && r == clean(caps[i].value)
  {
    match FirstAccepted(caps, clean, valid)
    case Some(k) =>
      assert forall i :: Accepted(caps, clean, valid, i) && (forall j :: 0 <= j < i ==> !Accepted(caps, clean, valid, j))
                         ==> i == k by {
        forall i | Accepted(caps, clean, valid, i) && (forall j :: 0 <= j < i ==> !Accepted(caps, clean, valid, j))
          ensures i == k
        {
          FirstAcceptedIsFirst(caps, clean, valid, i);
        }
      }
      clean(caps[k].value)
    case None => fallback
  }

  /** A candidate that is accepted with none accepted before it is the one the chain finds. */
  lemma FirstAcceptedIsFirst(caps: seq<Option<string>>, clean: string -> string, valid: string -> bool, i: int)
    requires Accepted(caps, clean, valid, i)
    requires forall j :: 0 <= j < i ==> !Accepted(caps, clean, valid, j)
    ensures FirstAccepted(caps, clean, valid) == Some(i)
  {
    var r := FirstAccepted(caps, clean, valid);
    assert r.Some?;
    assert !(r.value < i);
    assert !(i < r.value);
  }

  // ---------------------------------------------------------------- numeric chains

  /** The number candidate `c` yields: its capture, commas removed, through `parseFloat`. */
  function CandidateNumber(c: Option<string>): Option<real> {
    if Captured(c) then ParseFloat(RemoveCommas(c.value)) else None
  }

  /** Candidate `c` yields a number passing `ok`. */
  predicate Yields(c: Option<string>, ok: real -> bool) {
    CandidateNumber(c).Some? && ok(CandidateNumber(c).value)
  }

  /** The index of the first flag that is set. */
  function FirstSet(flags: seq<bool>): (r: Option<nat>)
    ensures r.Some? ==> r.value < |flags| && flags[r.value]
    ensures r.Some? ==> forall j :: 0 <= j < r.value ==> !flags[j]
    ensures r.None? ==> forall j :: 0 <= j < |flags| ==> !flags[j]
  {
    if |flags| == 0 then None
    else if flags[0] then Some(0)
    else
      match FirstSet(flags[1..])
      case Some(i) =>
        assert forall j :: 1 <= j <= i ==> flags[j] == flags[1..][j - 1];
        Some(i + 1)
      case None =>
        assert forall j :: 1 <= j < |flags| ==> flags[j] == flags[1..][j - 1];
        None
  }

  /** For each candidate, whether it yields a number passing `ok`. */
  function YieldFlags(cands: seq<Option<string>>, ok: real -> bool): (r: seq<bool>)
    ensures |r| == |cands|
    ensures forall i :: 0 <= i < |cands| ==> r[i] == Yields(cands[i], ok)
  {
    seq(|cands|, i requires 0 <= i < |cands| => Yields(cands[i], ok))
  }

  /** The index of the first candidate that yields a number passing `ok`. */
  function FirstYielding(cands: seq<Option<string>>, ok: real -> bool): (r: Option<nat>)
    ensures r.Some? ==> r.value < |cands| && Yields(cands[r.value], ok)
    ensures r.Some? ==> forall j :: 0 <= j < r.value ==> !Yields(cands[j], ok)
    ensures r.None? ==> forall j :: 0 <= j < |cands| ==> !Yields(cands[j], ok)
  {
    FirstSet(YieldFlags(cands, ok))
  }

  /** The first candidate number that passes `ok`, or `None` when no candidate does. */
  function FirstNumber(cands: seq<Option<string>>, ok: real -> bool): (r: Option<real>)
    ensures r.Some? ==> ok(r.value)
    ensures r.None? <==> forall i :: 0 <= i < |cands| ==> !Yields(cands[i], ok)
    ensures forall i :: 0 <= i < |cands| && Yields(cands[i], ok) && (forall j :: 0 <= j < i ==> !Yields(cands[j], ok))
                        ==> r == CandidateNumber(cands[i])
  {
    match FirstYielding(cands, ok)
    case Some(k) =>
      assert forall i :: 0 <= i < |cands| && Yields(cands[i], ok) && (forall j :: 0 <= j < i ==> !Yields(cands[j], ok))
                         ==> i == k by {
        forall i | 0 <= i < |cands| && Yields(cands[i], ok) && (forall j :: 0 <= j < i ==> !Yields(cands[j], ok))
          ensures i == k
        {
          FirstYieldingIsFirst(cands, ok, i);
        }
      }
      CandidateNumber(cands[k])
    case None => None
  }

  /** A candidate that yields, with none yielding before it, is the one `FirstYielding` finds. */
  lemma FirstYieldingIsFirst(cands: seq<Option<string>>, ok: real -> bool, i: int)
    requires 0 <= i < |cands| && Yields(cands[i], ok)
    requires forall j :: 0 <= j < i ==> !Yields(cands[j], ok)
    ensures FirstYielding(cands, ok) == Some(i)
  {
    var r := FirstYielding(cands, ok);
    assert r.Some?;
    assert !(r.value < i);
    assert !(i < r.value);
  }

  /** A candidate whose text starts with `$` never yields a number. */
  lemma DollarCandidateNeverYields(c: Option<string>, ok: real -> bool)
    requires c.Some? && |c.value| > 0 && c.value[0] == '$'
    ensures !Yields(c, ok)
  {
    DollarIsNaN(RemoveCommas(c.value));
  }

  /** Past a leading candidate that does not yield, the search finds what it finds in the rest, one place later. */
  lemma FirstYieldingSkipsHead(cands: seq<Option<string>>, ok: real -> bool)
    requires |cands| > 0 && !Yields(cands[0], ok)
    ensures FirstYielding(cands[1..], ok).None? ==> FirstYielding(cands, ok).None?
    ensures FirstYielding(cands[1..], ok).Some? ==> FirstYielding(cands, ok) == Some(FirstYielding(cands[1..], ok).value + 1)
  {
    var flags := YieldFlags(cands, ok);
    var tailFlags := YieldFlags(cands[1..], ok);
    assert flags[1..] == tailFlags by {
      forall j | 0 <= j < |tailFlags|
        ensures flags[1..][j] == tailFlags[j]
      {
        assert cands[1..][j] == cands[j + 1];
      }
    }
    assert !flags[0];
  }

  /** A leading candidate that does not yield is skipped. */
  lemma FirstNumberSkipsHead(cands: seq<Option<string>>, ok: real -> bool)
    requires |cands| > 0 && !Yields(cands[0], ok)
    ensures FirstNumber(cands, ok) == FirstNumber(cands[1..], ok)
  {
    FirstYieldingSkipsHead(cands, ok);
    if FirstYielding(cands[1..], ok).Some? {
      var i := FirstYielding(cands[1..], ok).value;
      assert cands[i + 1] == cands[1..][i];
    }
  }

  /** A leading candidate that yields decides the chain. */
  lemma FirstNumberTakesHead(cands: seq<Option<string>>, ok: real -> bool)
    requires |cands| > 0 && Yields(cands[0], ok)
    ensures FirstNumber(cands, ok) == CandidateNumber(cands[0])
  {
    assert FirstYielding(cands, ok) == Some(0);
  }

  /** Removing a candidate that never yields, wherever it stands, leaves the chain's answer unchanged. */
  lemma {:induction false} FirstNumberIgnoresBarren(front: seq<Option<string>>, dead: Option<string>, back: seq<Option<string>>, ok: real -> bool)
    requires !Yields(dead, ok)
    ensures FirstNumber(front + [dead] + back, ok) == FirstNumber(front + back, ok)
  {
    var with := front + [dead] + back;
    var without := front + back;
    if |front| == 0 {
      assert with[1..] == without;
      FirstNumberSkipsHead(with, ok);
    } else {
      assert with[0] == front[0] && without[0] == front[0];
      if Yields(front[0], ok) {
        FirstNumberTakesHead(with, ok);
        FirstNumberTakesHead(without, ok);
      } else {
        assert with[1..] == front[1..] + [dead] + back;
        assert without[1..] == front[1..] + back;
        FirstNumberSkipsHead(with, ok);
        FirstNumberSkipsHead(without, ok);
        FirstNumberIgnoresBarren(front[1..], dead, back, ok);
      }
    }
  }

  /** A barren middle candidate of three can be dropped. */
  lemma FirstNumberDropsMiddle(first: Option<string>, dead: Option<string>, last: Option<string>, ok: real -> bool)
    requires !Yields(dead, ok)
    ensures FirstNumber([first, dead, last], ok) == FirstNumber([first, last], ok)
  {
    assert [first, dead, last] == [first] + [dead] + [last];
    assert [first, last] == [first] + [last];
    FirstNumberIgnoresBarren([first], dead, [last], ok);
  }

  /** Appending a candidate that never yields leaves the chain's answer unchanged. */
  lemma FirstNumberIgnoresBarrenTail(cands: seq<Option<string>>, last: Option<string>, ok: real -> bool)
    requires !Yields(last, ok)
    ensures FirstYielding(cands + [last], ok) == FirstYielding(cands, ok)
    ensures FirstNumber(cands + [last], ok) == FirstNumber(cands, ok)
  {
    var longer := cands + [last];
    assert forall j :: 0 <= j < |cands| ==> longer[j] == cands[j];
    match FirstYielding(cands, ok)
    case Some(i) =>
      FirstYieldingIsFirst(longer, ok, i);
    case None =>
      assert longer[|cands|] == last;
      assert FirstYielding(longer, ok).None?;
  }
}
