/**
  The geocoding work-order parser of ets-pdf-parser-test/pdf-parser-real.js.

  Each field is an ordered chain of candidate patterns: the first candidate whose
  capture survives post-processing and the field's validity check wins, otherwise
  the field gets a descriptive sentinel. Flags and urgency come from keyword
  containment in the lower-cased text. Any error raised while building the record
  is rethrown as `Failed to parse PDF: …`.
*/
module RealParser {
  import opened Wrappers
  import opened JsText
  import opened JsNumber
  import opened Matching
  import opened Keywords
  import opened WorkOrders

  const ContactSentinel: string := "Site Contact Not Found"
  const AddressSentinel: string := "Address Not Found"
  const PhoneSentinel: string := "Phone Not Found"
  const ContractorFallback: string := "CONTRACTOR TBD"
  const DescriptionFallback: string := "Please attend site as per work order requirements."
  const GeneralElectrical: string := "General Electrical"
  const FailurePrefix: string := "Failed to parse PDF: "

  /** V8's message for `match[1].trim()` when the pattern has no capture group. */
  const UndefinedTrimMessage: string := "Cannot read properties of undefined (reading 'trim')"

  /** The work-type labels, most specific first. */
  const WorkTypes: seq<string> := [
    "Electrical MS", "Electrical Report", "HOME ASSIST elec",
    "Installation Of Power Point", "Emergency Electrical", "Electrical Maintenance"]

  const JsaIndicators: seq<string> := ["job safety analysis", "risk assessment", "identified hazards"]
  const SwmsIndicators: seq<string> := ["SWMS", "safe work method", "high-risk"]
  /** Compared with the lower-cased text as written, without lower-casing the keyword. */
  const UrgentKeywords: seq<string> := ["emergency", "urgent", "ASAP", "immediately"]

  /** `Date.now()` and `new Date().toLocaleDateString()`, rendered, at parse time. */
  datatype Clock = Clock(timestamp: string, localDate: string)

  /** What the geocoding service answers for one address query. */
  datatype LookupOutcome =
    | HttpFailure(status: int)                       // a non-2xx response
    | Rows(rows: seq<(Coordinate, Coordinate)>)      // the parsed result rows
    | UnreadableBody                                 // the body is not the expected JSON
    | NetworkFailure                                 // the request itself failed

  // ---------------------------------------------------------------- header fields

  function ExtractOrderNumber(scan: Scan, clock: Clock): string {
    FirstMatch([scan.capture(OrderNumberLabel), scan.capture(PurchaseOrder), scan.capture(WorkOrderLabel)],
               Trim, "ETS-" + clock.timestamp)
  }

  function ExtractDate(scan: Scan, clock: Clock): string {
    FirstMatch([scan.capture(DayMonthYear), scan.capture(SlashDate), scan.capture(IsoDate)],
               Trim, clock.localDate)
  }

  function CleanContractor(c: string): string {
    ReplaceNewlines(Trim(c))
  }

  function ExtractContractor(scan: Scan): string {
    FirstMatch([scan.capture(ToUpperRunBeforeLabel), scan.capture(ContractorLabel), scan.capture(AssignedTo)],
               CleanContractor, ContractorFallback)
  }

  // ---------------------------------------------------------------- site contact

  /** Trim, newlines to spaces, then cut at a trailing `Phone:` and a trailing `Address:`. */
  function CleanContactName(c: string): (r: string)
    ensures NoNewline(r)
  {
    var joined := ReplaceNewlines(Trim(c));
    var noPhone := StripLabelTail(joined, "Phone:");
    PrefixContained(joined, noPhone);
    InfixNoNewline(joined, noPhone);
    var name := Trim(noPhone);
    InfixNoNewline(noPhone, name);
    var noAddress := StripLabelTail(name, "Address:");
    PrefixContained(name, noAddress);
    InfixNoNewline(name, noAddress);
    var r := Trim(noAddress);
    InfixNoNewline(noAddress, r);
    r
  }

  predicate LongerThan2(s: string) {
    Utf16Length(s) > 2
  }

  function ContactCandidates(scan: Scan): seq<Option<string>> {
    [scan.capture(CustomerDetails), scan.capture(ContactLabel), scan.capture(CustomerLabel), scan.capture(SiteContactLabel)]
  }

  /** The site contact: the sentinel, or a name longer than two characters on one line. */
  function ExtractSiteContactName(scan: Scan): (r: string)
    ensures r == ContactSentinel || (Utf16Length(r) > 2 && NoNewline(r))
    ensures r == Chain(ContactCandidates(scan), CleanContactName, LongerThan2, ContactSentinel)
  {
    Chain(ContactCandidates(scan), CleanContactName, LongerThan2, ContactSentinel)
  }

  /** No carriage return or Unicode line/paragraph separator: the captures of the `.`-only patterns. */
  predicate NoStrayTerminator(s: string) {
    forall i :: 0 <= i < |s| ==> s[i] != '\r' && s[i] != '\U{2028}' && s[i] != '\U{2029}'
  }

  /** Joining lines of such a capture leaves no line terminator at all. */
  lemma JoinedHasNoTerminator(c: string)
    requires NoStrayTerminator(c)
    ensures NoLineTerminator(ReplaceNewlines(Trim(c)))
  {
    var a, b := TrimSlice(c);
    StrayFreeSlice(c, a, b);
    StrayFreeJoined(c[a..b]);
  }

  lemma StrayFreeSlice(c: string, a: nat, b: nat)
    requires a <= b <= |c| && NoStrayTerminator(c)
    ensures NoStrayTerminator(c[a..b])
  {
    assert forall k :: 0 <= k < b - a ==> c[a..b][k] == c[a + k];
  }

  lemma StrayFreeJoined(t: string)
    requires NoStrayTerminator(t)
    ensures NoLineTerminator(ReplaceNewlines(t))
  {
  }

  /**
    Cutting at a label and trimming leaves no occurrence of that label and keeps
    every label already absent absent.
  */
  lemma CutAndTrim(s: string, tag: string, absent: string)
    requires NoLineTerminator(s) && |tag| > 0
    requires !Contains(Lower(s), absent)
    ensures NoLineTerminator(Trim(StripLabelTail(s, tag)))
    ensures !Contains(Lower(Trim(StripLabelTail(s, tag))), Lower(tag))
    ensures !Contains(Lower(Trim(StripLabelTail(s, tag))), absent)
  {
    var cut := StripLabelTail(s, tag);
    PrefixContained(s, cut);
    InfixNoLineTerminator(s, cut);
    StripWithoutTerminators(s, tag);
    AbsentInInfix(s, cut, absent);
    var t := Trim(cut);
    InfixNoLineTerminator(cut, t);
    AbsentInInfix(cut, t, Lower(tag));
    AbsentInInfix(cut, t, absent);
  }

  lemma LowerLabels()
    ensures Lower("Phone:") == "phone:"
    ensures Lower("Address:") == "address:"
    ensures Lower("Contact:") == "contact:"
  {
  }

  /**
    When the capture holds no stray line terminator, the cleaned name contains no
    `phone:` and no `address:`, in any case.
  */
  lemma {:induction false} ContactNameHasNoLabels(c: string)
    requires NoStrayTerminator(c)
    ensures !Contains(Lower(CleanContactName(c)), "phone:")
    ensures !Contains(Lower(CleanContactName(c)), "address:")
  {
    LowerLabels();
    var joined := ReplaceNewlines(Trim(c));
    JoinedHasNoTerminator(c);
    CutAndTrimFirst(joined);
    var name := Trim(StripLabelTail(joined, "Phone:"));
    CutAndTrim(name, "Address:", "phone:");
  }

  /** The first cut: `Phone:` removed from a terminator-free string, then trimmed. */
  lemma CutAndTrimFirst(s: string)
    requires NoLineTerminator(s)
    ensures NoLineTerminator(Trim(StripLabelTail(s, "Phone:")))
    ensures !Contains(Lower(Trim(StripLabelTail(s, "Phone:"))), "phone:")
  {
    LowerLabels();
    var cut := StripLabelTail(s, "Phone:");
    PrefixContained(s, cut);
    InfixNoLineTerminator(s, cut);
    StripWithoutTerminators(s, "Phone:");
    var t := Trim(cut);
    InfixNoLineTerminator(cut, t);
    AbsentInInfix(cut, t, "phone:");
  }

  // ---------------------------------------------------------------- site address

  /** Trim, newlines to spaces, then cut at a trailing `Phone:` and a trailing `Contact:`. */
  function CleanAddress(c: string): (r: string)
    ensures NoNewline(r)
  {
    var joined := ReplaceNewlines(Trim(c));
    var noPhone := StripLabelTail(joined, "Phone:");
    PrefixContained(joined, noPhone);
    InfixNoNewline(joined, noPhone);
    var address := Trim(noPhone);
    InfixNoNewline(noPhone, address);
    var noContact := StripLabelTail(address, "Contact:");
    PrefixContained(address, noContact);
    InfixNoNewline(address, noContact);
    var r := Trim(noContact);
    InfixNoNewline(noContact, r);
    r
  }

  predicate LongerThan5(s: string) {
    Utf16Length(s) > 5
  }

  function AddressCandidates(scan: Scan): seq<Option<string>> {
    [scan.capture(SiteAddressLabel), scan.capture(AddressLabel), scan.capture(LocationLabel)]
  }

  /** The site address: the sentinel, or an address longer than five characters on one line. */
  function ExtractSiteAddress(scan: Scan): (r: string)
    ensures r == AddressSentinel || (Utf16Length(r) > 5 && NoNewline(r))
    ensures r == Chain(AddressCandidates(scan), CleanAddress, LongerThan5, AddressSentinel)
  {
    Chain(AddressCandidates(scan), CleanAddress, LongerThan5, AddressSentinel)
  }

  /**
    When the capture holds no stray line terminator, the cleaned address contains
    no `phone:` and no `contact:`, in any case.
  */
  lemma AddressHasNoLabels(c: string)
    requires NoStrayTerminator(c)
    ensures !Contains(Lower(CleanAddress(c)), "phone:")
    ensures !Contains(Lower(CleanAddress(c)), "contact:")
  {
    LowerLabels();
    var joined := ReplaceNewlines(Trim(c));
    JoinedHasNoTerminator(c);
    CutAndTrimFirst(joined);
    var address := Trim(StripLabelTail(joined, "Phone:"));
    CutAndTrim(address, "Contact:", "phone:");
  }

  // ---------------------------------------------------------------- site phone

  /** Trim, then keep only digits and whitespace. */
  function CleanPhone(c: string): string {
    KeepDigitsAndSpaces(Trim(c))
  }

  /** `phone.replace(/\s/g, '').length >= 10`. */
  predicate EnoughDigits(s: string) {
    Utf16Length(DropAllSpaces(s)) >= 10
  }

  /** Digits and whitespace only, with at least ten digits. */
  predicate PhoneShaped(s: string) {
    && (forall i :: 0 <= i < |s| ==> IsDigit(s[i]) || IsSpace(s[i]))
    && DigitCount(s) >= 10
  }

  lemma {:induction false} AsciiUtf16Length(s: string)
    requires forall i :: 0 <= i < |s| ==> s[i] as int <= 0xFFFF
    ensures Utf16Length(s) == |s|
  {
    if |s| > 0 {
      AsciiUtf16Length(s[..|s| - 1]);
    }
  }

  /** On a cleaned capture, the code's length test is the ten-digit test. */
  lemma EnoughDigitsCountsDigits(c: string)
    ensures EnoughDigits(CleanPhone(c)) <==> DigitCount(CleanPhone(c)) >= 10
  {
    var p := CleanPhone(c);
    var d := DropAllSpaces(p);
    DropSpacesCountsDigits(p);
    DroppedAreDigits(p);
    AsciiUtf16Length(d);
  }

  lemma {:induction false} DroppedAreDigits(s: string)
    requires forall i :: 0 <= i < |s| ==> IsDigit(s[i]) || IsSpace(s[i])
    ensures forall i :: 0 <= i < |DropAllSpaces(s)| ==> IsDigit(DropAllSpaces(s)[i])
  {
    if |s| > 0 {
      DroppedAreDigits(s[1..]);
    }
  }

  function PhoneCandidates(scan: Scan): seq<Option<string>> {
    [scan.capture(CustomerPhone), scan.capture(PhoneLabel), scan.capture(MobileLabel),
     scan.capture(ContactDigits), scan.capture(BareDigits)]
  }

  /**
    The site phone: the sentinel, or digits and whitespace holding at least ten
    digits. A capture with fewer digits falls through to the next candidate.
  */
  function ExtractSiteContactPhone(scan: Scan): (r: string)
    ensures r == PhoneSentinel || PhoneShaped(r)
    ensures forall i :: 0 <= i < 5 && Captured(PhoneCandidates(scan)[i])
                        && DigitCount(CleanPhone(PhoneCandidates(scan)[i].value)) < 10
                        ==> !Accepted(PhoneCandidates(scan), CleanPhone, EnoughDigits, i)
    ensures var caps := PhoneCandidates(scan);
      forall i :: 0 <= i < 5 && Captured(caps[i]) && DigitCount(CleanPhone(caps[i].value)) >= 10
                  && (forall j :: 0 <= j < i && Captured(caps[j]) ==> DigitCount(CleanPhone(caps[j].value)) < 10)
                  ==> r == CleanPhone(caps[i].value)
    ensures var caps := PhoneCandidates(scan);
      (forall i :: 0 <= i < 5 && Captured(caps[i]) ==> DigitCount(CleanPhone(caps[i].value)) < 10) ==> r == PhoneSentinel
    ensures r == Chain(PhoneCandidates(scan), CleanPhone, EnoughDigits, PhoneSentinel)
  {
    var caps := PhoneCandidates(scan);
    var r := Chain(caps, CleanPhone, EnoughDigits, PhoneSentinel);
    forall i | 0 <= i < 5 && Captured(caps[i])
      ensures EnoughDigits(CleanPhone(caps[i].value)) <==> DigitCount(CleanPhone(caps[i].value)) >= 10
    {
      EnoughDigitsCountsDigits(caps[i].value);
    }
    r
  }

  // ---------------------------------------------------------------- work type

  lemma GenericIsNotAWorkType(i: nat)
    requires i < |WorkTypes|
    ensures WorkTypes[i] != GeneralElectrical
  {
  }

  /** The first work-type label contained in the text ignoring case, else the generic label. */
  function ExtractWorkType(text: string): (r: string)
    ensures r == GeneralElectrical <==> forall j :: 0 <= j < |WorkTypes| ==> !Contains(Lower(text), Lower(WorkTypes[j]))
    ensures r != GeneralElectrical ==> exists i :: 0 <= i < |WorkTypes| && r == WorkTypes[i]
                                        && Contains(Lower(text), Lower(WorkTypes[i]))
                                        && forall j :: 0 <= j < i ==> !Contains(Lower(text), Lower(WorkTypes[j]))
  {
    match FirstLabel(text, WorkTypes)
    case Some(i) =>
      GenericIsNotAWorkType(i);
      WorkTypes[i]
    case None => GeneralElectrical
  }

  // ---------------------------------------------------------------- job description

  /** Trim, then collapse every whitespace run to one space. */
  function CleanDescription(c: string): string {
    CollapseSpaces(Trim(c))
  }

  predicate LongerThan10(s: string) {
    Utf16Length(s) > 10
  }

  /**
    The job description. The third candidate has no capture group, so when it is
    reached and matches, `match[1].trim()` throws instead of falling back.
  */
  function ExtractJobDescription(scan: Scan): (r: Result<string, string>)
    ensures var front := [scan.capture(ClientInstructions), scan.capture(JobDescriptionLabel)];
      r.Failure? <==> (!Accepted(front, CleanDescription, LongerThan10, 0)
                       && !Accepted(front, CleanDescription, LongerThan10, 1)
                       && scan.capture(PleaseAttend).Some?)
    ensures r.Failure? ==> r.error == UndefinedTrimMessage
    ensures r.Success? ==> r.value == DescriptionFallback || (Utf16Length(r.value) > 10 && SingleSpaced(r.value))
    ensures var front := [scan.capture(ClientInstructions), scan.capture(JobDescriptionLabel)];
      forall i :: Accepted(front, CleanDescription, LongerThan10, i)
                  && (forall j :: 0 <= j < i ==> !Accepted(front, CleanDescription, LongerThan10, j))
                  ==> r == Success(CleanDescription(front[i].value))
    ensures var front := [scan.capture(ClientInstructions), scan.capture(JobDescriptionLabel)];
      !Accepted(front, CleanDescription, LongerThan10, 0) && !Accepted(front, CleanDescription, LongerThan10, 1)
      && scan.capture(PleaseAttend).None?
      ==> r == Success(Chain([scan.capture(WorkRequired)], CleanDescription, LongerThan10, DescriptionFallback))
  {
    var front := [scan.capture(ClientInstructions), scan.capture(JobDescriptionLabel)];
    match FirstAccepted(front, CleanDescription, LongerThan10)
    case Some(k) =>
      assert forall i :: Accepted(front, CleanDescription, LongerThan10, i)
                         && (forall j :: 0 <= j < i ==> !Accepted(front, CleanDescription, LongerThan10, j))
                         ==> i == k by {
        forall i | Accepted(front, CleanDescription, LongerThan10, i)
                   && (forall j :: 0 <= j < i ==> !Accepted(front, CleanDescription, LongerThan10, j))
          ensures i == k
        {
          FirstAcceptedIsFirst(front, CleanDescription, LongerThan10, i);
        }
      }
      Success(CleanDescription(front[k].value))
    case None =>
      if scan.capture(PleaseAttend).Some? then Failure(UndefinedTrimMessage)
      else Success(Chain([scan.capture(WorkRequired)], CleanDescription, LongerThan10, DescriptionFallback))
  }

  // ---------------------------------------------------------------- value, cost limit, tasks

  predicate InValueRange(v: real) {
    0.0 < v < 10000.0
  }

  function ValueCandidates(scan: Scan): seq<Option<string>> {
    [scan.capture(TotalAud), scan.capture(ValueLabel), GlobalElementOne(scan.dollarAmounts)]
  }

  /** The first candidate amount strictly between 0 and 10000, else 0. */
  function ExtractEstimatedValue(scan: Scan): (r: real)
    ensures r == 0.0 || InValueRange(r)
    ensures r == 0.0 <==> forall i :: 0 <= i < 3 ==> !Yields(ValueCandidates(scan)[i], InValueRange)
  {
    FirstNumber(ValueCandidates(scan), InValueRange).GetOr(0.0)
  }

  /**
    The global `$` candidate never contributes: element 1 of a global match is a
    whole match starting with `$`, which `parseFloat` reads as `NaN`.
  */
  lemma GlobalValueCandidateIsDead(scan: Scan)
    ensures ExtractEstimatedValue(scan)
         == FirstNumber([scan.capture(TotalAud), scan.capture(ValueLabel)], InValueRange).GetOr(0.0)
  {
    var last := GlobalElementOne(scan.dollarAmounts);
    if last.Some? {
      DollarCandidateNeverYields(last, InValueRange);
    }
    assert ValueCandidates(scan) == [scan.capture(TotalAud), scan.capture(ValueLabel)] + [last];
    FirstNumberIgnoresBarrenTail([scan.capture(TotalAud), scan.capture(ValueLabel)], last, InValueRange);
  }

  function ExtractCostLimit(scan: Scan): Option<string> {
    match scan.capture(CostLimitPhrase)
    case Some(c) => Some(Trim(c))
    case None => None
  }

  function ExtractTasks(scan: Scan): seq<WorkTask> {
    ToTasks(scan.looseTasks)
  }

  // ---------------------------------------------------------------- inference

  /** A job safety analysis is required iff a JSA indicator occurs, ignoring case. */
  function DetermineJsaRequirement(text: string): (r: bool)
    ensures r <==> exists i :: 0 <= i < |JsaIndicators| && Contains(Lower(text), Lower(JsaIndicators[i]))
  {
    AnyIndicator(text, JsaIndicators)
  }

  /** A safe work method statement is required iff a SWMS indicator occurs, ignoring case. */
  function DetermineSwmsRequirement(text: string): (r: bool)
    ensures r <==> exists i :: 0 <= i < |SwmsIndicators| && Contains(Lower(text), Lower(SwmsIndicators[i]))
  {
    AnyIndicator(text, SwmsIndicators)
  }

  /**
    `urgent` when the lower-cased text contains a keyword as written, else
    `standard`. The keyword `ASAP` holds capitals and so can never match, and
    `emergency` is never produced.
  */
  function DetermineUrgency(text: string): (r: string)
    ensures r == Urgent || r == Standard
    ensures r == Urgent <==> (Contains(Lower(text), "emergency") || Contains(Lower(text), "urgent")
                              || Contains(Lower(text), "immediately"))
  {
    LowerExcludesUpper(text, "ASAP", 0);
    assert UrgentKeywords[0] == "emergency" && UrgentKeywords[1] == "urgent";
    assert UrgentKeywords[2] == "ASAP" && UrgentKeywords[3] == "immediately";
    var found := AnyContained(Lower(text), UrgentKeywords);
    assert found <==> exists i :: 0 <= i < 4 && Contains(Lower(text), UrgentKeywords[i]);
    assert found ==> (Contains(Lower(text), UrgentKeywords[0]) || Contains(Lower(text), UrgentKeywords[1])
                      || Contains(Lower(text), UrgentKeywords[3]));
    if found then Urgent else Standard
  }

  function ExtractEtsPhone(scan: Scan): string {
    scan.capture(EtsPhoneLoose).GetOr(PartnerPhone)
  }

  // ---------------------------------------------------------------- geocoding

  /** The guard that answers without a lookup. */
  predicate SkipsLookup(address: string) {
    address == "" || address == AddressSentinel || Utf16Length(address) < 5
  }

  /**
    Coordinates for the address: skipped by the guard, or looked up once; every
    failure of the lookup gives the ungeocoded `(0, 0, false)`.
  */
  function GeocodeAddress(address: string, lookup: string -> LookupOutcome): (r: Location)
    ensures SkipsLookup(address) ==> r == Ungeocoded
    ensures !r.geocoded ==> r == Ungeocoded
    ensures r.geocoded <==> !SkipsLookup(address) && lookup(address).Rows? && |lookup(address).rows| > 0
    ensures r.geocoded ==> (r.latitude, r.longitude) == lookup(address).rows[0]
  {
    if SkipsLookup(address) then Ungeocoded
    else
      match lookup(address)
      case Rows(rows) => if |rows| > 0 then Location(rows[0].0, rows[0].1, true) else Ungeocoded
      case HttpFailure(_) => Ungeocoded
      case UnreadableBody => Ungeocoded
      case NetworkFailure => Ungeocoded
  }

  /** On an extracted address only the sentinel comparison of the guard can fire. */
  lemma OnlySentinelSkips(scan: Scan)
    ensures SkipsLookup(ExtractSiteAddress(scan)) <==> ExtractSiteAddress(scan) == AddressSentinel
  {
  }

  // ---------------------------------------------------------------- the work order

  /** What every work order this parser returns satisfies. */
  predicate WellFormedOrder(w: WorkOrder) {
    && w.customerName == CustomerLegalName
    && (w.siteContactName == ContactSentinel || (Utf16Length(w.siteContactName) > 2 && NoNewline(w.siteContactName)))
    && (w.siteAddress == AddressSentinel || (Utf16Length(w.siteAddress) > 5 && NoNewline(w.siteAddress)))
    && (w.siteContactPhone == PhoneSentinel || PhoneShaped(w.siteContactPhone))
    && w.siteLocation.Some?
    && (w.siteLocation.value.geocoded || w.siteLocation.value == Ungeocoded)
    && (w.siteAddress == AddressSentinel ==> w.siteLocation.value == Ungeocoded)
    && (w.workType == GeneralElectrical || w.workType in WorkTypes)
    && (w.jobDescription == DescriptionFallback || Utf16Length(w.jobDescription) > 10)
    && w.estimatedValue.Some? && (w.estimatedValue.value == 0.0 || InValueRange(w.estimatedValue.value))
    && (w.urgency == Urgent || w.urgency == Standard)
    && w.etsEmail == PartnerEmail
  }

  /** The record `parseWorkOrder` returns once the description is known. */
  function AssembleOrder(scan: Scan, clock: Clock, lookup: string -> LookupOutcome, description: string): (w: WorkOrder)
    requires description == DescriptionFallback || Utf16Length(description) > 10
    ensures WellFormedOrder(w) && w.jobDescription == description
    ensures w.siteAddress == ExtractSiteAddress(scan) && w.siteLocation == Some(GeocodeAddress(w.siteAddress, lookup))
    ensures w.siteContactName == ExtractSiteContactName(scan) && w.siteContactPhone == ExtractSiteContactPhone(scan)
    ensures w.orderNumber == ExtractOrderNumber(scan, clock) && w.date == ExtractDate(scan, clock)
    ensures w.contractor == ExtractContractor(scan) && w.etsPhone == ExtractEtsPhone(scan)
    ensures w.workType == ExtractWorkType(scan.text) && w.tasks == ExtractTasks(scan)
    ensures w.estimatedValue == Some(ExtractEstimatedValue(scan)) && w.costLimit == ExtractCostLimit(scan)
    ensures w.requiresJSA == DetermineJsaRequirement(scan.text) && w.requiresSWMS == DetermineSwmsRequirement(scan.text)
    ensures w.urgency == DetermineUrgency(scan.text)
  {
    var text := scan.text;
    var siteAddress := ExtractSiteAddress(scan);
    WorkOrder(
      orderNumber := ExtractOrderNumber(scan, clock),
      date := ExtractDate(scan, clock),
      contractor := ExtractContractor(scan),
      siteContactName := ExtractSiteContactName(scan),
      siteAddress := siteAddress,
      siteContactPhone := ExtractSiteContactPhone(scan),
      siteLocation := Some(GeocodeAddress(siteAddress, lookup)),
      customerName := CustomerLegalName,
      workType := ExtractWorkType(text),
      jobDescription := description,
      estimatedValue := Some(ExtractEstimatedValue(scan)),
      costLimit := ExtractCostLimit(scan),
      tasks := ExtractTasks(scan),
      requiresJSA := DetermineJsaRequirement(text),
      requiresSWMS := DetermineSwmsRequirement(text),
      urgency := DetermineUrgency(text),
      etsPhone := ExtractEtsPhone(scan),
      etsEmail := MatchedLiteral(text, PartnerEmail))
  }

  /**
    `parseWorkOrder`: the whole record from the extracted text, or the rethrown
    error. The address is extracted first because the geocoder needs it.
  */
  function ParseWorkOrder(pdf: PdfText, clock: Clock, lookup: string -> LookupOutcome): (r: Result<WorkOrder, string>)
    ensures r.Failure? <==> pdf.ExtractionFailed? || ExtractJobDescription(pdf.scan).Failure?
    ensures r.Failure? ==> StartsWith(r.error, FailurePrefix)
    ensures r.Success? ==> WellFormedOrder(r.value)
    ensures r.Success? ==> pdf.Extracted? && ExtractJobDescription(pdf.scan).Success?
                           && r.value == AssembleOrder(pdf.scan, clock, lookup, ExtractJobDescription(pdf.scan).value)
  {
    match pdf
    case ExtractionFailed(m) => Failure(FailurePrefix + m)
    case Extracted(scan) =>
      match ExtractJobDescription(scan)
      case Failure(m) => Failure(FailurePrefix + m)
      case Success(description) => Success(AssembleOrder(scan, clock, lookup, description))
  }
}
