/**
  The production work-order parser of src/services/ets-parser.ts.

  It refuses documents that do not name the partner, and otherwise fills each field
  from the first candidate pattern that matches, with an empty string (or an absent
  number) when none does. It does not geocode. Errors are not caught, so an
  exception surfaces with its own message.
*/
module EtsParser {
  import opened Wrappers
  import opened JsText
  import opened JsNumber
  import opened Matching
  import opened Keywords
  import opened WorkOrders

  const NotEtsMessage: string := "Document is not an ETS work order"
  const PartnerMarker: string := "Emergency Trade Services Pty Ltd"
  const GeneralElectrical: string := "General Electrical"

  /** V8's message for `match[1].trim()` when the pattern has no capture group. */
  const UndefinedTrimMessage: string := "Cannot read properties of undefined (reading 'trim')"

  const WorkTypes: seq<string> := ["Electrical MS", "Electrical Report", "HOME ASSIST elec", "Installation Of Power Point"]

  const JsaIndicators: seq<string> :=
    ["complete a risk assessment", "job safety analysis", "identified hazards", "risks above low level"]
  const SwmsIndicators: seq<string> :=
    ["jobs exceeding $1,000", "high-risk Hazard", "SWMS must be completed", "roof work", "excavations"]
  const EmergencyKeywords: seq<string> := ["Emergency Trade Services", "safety hazards", "power outages"]
  const UrgentKeywords: seq<string> := ["emergency", "urgent", "ASAP", "immediately", "critical"]

  /** The document names the partner's legal entity or its mailbox, case-sensitively. */
  predicate IsEtsDocument(text: string) {
    Contains(text, PartnerMarker) || Contains(text, PartnerEmail)
  }

  /**
    `match ? match[1].trim() : ''`: a single-pattern field is a part of its capture
    that is already trimmed, and empty when the pattern does not match.
  */
  function CaptureOrEmpty(c: Option<string>): (r: string)
    ensures c.None? ==> r == ""
    ensures c.Some? ==> r == Trim(c.value)
    ensures c.Some? ==> Contains(c.value, r)
    ensures Trim(r) == r
  {
    match c
    case Some(v) =>
      TrimIdempotent(v);
      Trim(v)
    case None => ""
  }

  /**
    The first of the four work-type labels found ignoring case, AS IT IS WRITTEN IN
    THE DOCUMENT (the regex's whole match), else the generic label.
  */
  function ExtractWorkType(text: string): (r: string)
    ensures r == GeneralElectrical <==> forall j :: 0 <= j < |WorkTypes| ==> !Contains(Lower(text), Lower(WorkTypes[j]))
    ensures forall i :: IsFirstLabel(text, WorkTypes, i) ==> Lower(r) == Lower(WorkTypes[i]) && Contains(text, r)
    ensures forall i :: IsFirstLabel(text, WorkTypes, i) ==> Some(r) == FindIgnoringCase(text, WorkTypes[i])
  {
    match FirstLabel(text, WorkTypes)
    case Some(i) =>
      var r := FindIgnoringCase(text, WorkTypes[i]).value;
      LabelIsNotGeneric(i);
      assert forall i' :: IsFirstLabel(text, WorkTypes, i') ==> i' == i by {
        forall i' | IsFirstLabel(text, WorkTypes, i')
          ensures i' == i
        {
          FirstLabelIsFirst(text, WorkTypes, i');
        }
      }
      r
    case None => GeneralElectrical
  }

  /** Of two casings of the same label, the one earlier in the document is the work type. */
  lemma EarlierCasingWins()
    ensures ExtractWorkType("electrical ms Electrical MS") == "electrical ms"
  {
    var text := "electrical ms Electrical MS";
    assert Lower(text)[0..13] == Lower(WorkTypes[0]);
    assert IsFirstLabel(text, WorkTypes, 0);
    assert text[0..13] == "electrical ms";
  }

  /** No work-type label has the length of the generic label, so a matched label is never mistaken for it. */
  lemma LabelIsNotGeneric(i: nat)
    requires i < |WorkTypes|
    ensures |WorkTypes[i]| != |GeneralElectrical|
  {
  }

  /**
    The job description. The third candidate has no capture group, so when it is
    the first to match `match[1].trim()` throws.
  */
  function ExtractJobDescription(scan: Scan): (r: Result<string, string>)
    ensures r.Failure? <==> (scan.capture(ClientInstructionsBlock).None? && scan.capture(JobDescriptionBlock).None?
                             && scan.capture(PleaseAttendBlock).Some?)
    ensures r.Failure? ==> r.error == UndefinedTrimMessage
    ensures scan.capture(ClientInstructionsBlock).Some? ==> r == Success(Trim(scan.capture(ClientInstructionsBlock).value))
    ensures scan.capture(ClientInstructionsBlock).None? && scan.capture(JobDescriptionBlock).Some? ==>
      r == Success(Trim(scan.capture(JobDescriptionBlock).value))
    ensures (scan.capture(ClientInstructionsBlock).None? && scan.capture(JobDescriptionBlock).None?
             && scan.capture(PleaseAttendBlock).None?) ==> r == Success("")
    ensures r.Success? ==> Trim(r.value) == r.value
  {
    if scan.capture(ClientInstructionsBlock).Some? then Success(CaptureOrEmpty(scan.capture(ClientInstructionsBlock)))
    else if scan.capture(JobDescriptionBlock).Some? then Success(CaptureOrEmpty(scan.capture(JobDescriptionBlock)))
    else if scan.capture(PleaseAttendBlock).Some? then Failure(UndefinedTrimMessage)
    else Success("")
  }

  predicate Positive(v: real) {
    v > 0.0
  }

  function ValueCandidates(scan: Scan): seq<Option<string>> {
    [scan.capture(TotalAud), GlobalElementOne(scan.dollarAmounts), scan.capture(CostLimitAmount)]
  }

  /** The first positive candidate amount, absent when there is none. */
  function ExtractEstimatedValue(scan: Scan): (r: Option<real>)
    ensures r.Some? ==> r.value > 0.0
    ensures r.None? <==> forall i :: 0 <= i < 3 ==> !Yields(ValueCandidates(scan)[i], Positive)
  {
    FirstNumber(ValueCandidates(scan), Positive)
  }

  /** The global `$` candidate in the middle never contributes. */
  lemma GlobalValueCandidateIsDead(scan: Scan)
    ensures ExtractEstimatedValue(scan)
         == FirstNumber([scan.capture(TotalAud), scan.capture(CostLimitAmount)], Positive)
  {
    var dead := GlobalElementOne(scan.dollarAmounts);
    if dead.Some? {
      DollarCandidateNeverYields(dead, Positive);
    }
    FirstNumberDropsMiddle(scan.capture(TotalAud), dead, scan.capture(CostLimitAmount), Positive);
  }

  function ExtractCostLimit(scan: Scan): Option<string> {
    match scan.capture(CostLimitPhrase)
    case Some(c) => Some(Trim(c))
    case None => None
  }

  function ExtractTasks(scan: Scan): seq<WorkTask> {
    ToTasks(scan.dottedTasks)
  }

  /** A job safety analysis is required iff a JSA indicator occurs, ignoring case. */
  function DetermineJsaRequirement(text: string): (r: bool)
    ensures r <==> exists i :: 0 <= i < |JsaIndicators| && Contains(Lower(text), Lower(JsaIndicators[i]))
  {
    AnyIndicator(text, JsaIndicators)
  }

  /** A safe work method statement is required iff a SWMS indicator occurs, ignoring case. */
  function DetermineSwmsRequirement(text: string): (r: bool)
    ensures r <==> exists i :: 0 <= i < |SwmsIndicators| && Contains(Lower(text), Lower(SwmsIndicators[i]))
  {
    AnyIndicator(text, SwmsIndicators)
  }

  /** Two keyword tiers, both compared ignoring case: emergency first, then urgent, else standard. */
  function DetermineUrgency(text: string): (r: string)
    ensures r == Emergency <==> AnyIndicator(text, EmergencyKeywords)
    ensures r == Urgent <==> !AnyIndicator(text, EmergencyKeywords) && AnyIndicator(text, UrgentKeywords)
    ensures r == Standard <==> !AnyIndicator(text, EmergencyKeywords) && !AnyIndicator(text, UrgentKeywords)
  {
    if AnyIndicator(text, EmergencyKeywords) then Emergency
    else if AnyIndicator(text, UrgentKeywords) then Urgent
    else Standard
  }

  /**
    A document accepted because it carries the partner's legal name is always
    classified `emergency`: that name holds the first emergency keyword.
  */
  lemma LegalNameMeansEmergency(text: string)
    requires Contains(text, PartnerMarker)
    ensures DetermineUrgency(text) == Emergency
  {
    var keyword := EmergencyKeywords[0];
    assert StartsWith(PartnerMarker, keyword);
    PrefixContained(PartnerMarker, keyword);
    ContainsTransitive(text, PartnerMarker, keyword);
    LowerPreservesContains(text, keyword);
    AnyIndicatorAt(text, EmergencyKeywords, 0);
  }

  /** What every work order this parser returns satisfies. */
  predicate WellFormedOrder(w: WorkOrder) {
    && w.customerName == CustomerLegalName
    && w.siteLocation.None?
    && Trim(w.orderNumber) == w.orderNumber && Trim(w.date) == w.date && Trim(w.contractor) == w.contractor
    && Trim(w.siteContactName) == w.siteContactName && Trim(w.siteAddress) == w.siteAddress
    && Trim(w.siteContactPhone) == w.siteContactPhone
    && (w.estimatedValue.None? || w.estimatedValue.value > 0.0)
    && (w.urgency == Emergency || w.urgency == Urgent || w.urgency == Standard)
    && w.etsPhone == PartnerPhone
    && w.etsEmail == PartnerEmail
  }

  /** The record `parseWorkOrder` returns once the description is known. */
  function AssembleOrder(scan: Scan, description: string): (w: WorkOrder)
    ensures WellFormedOrder(w) && w.jobDescription == description
    ensures w.orderNumber == CaptureOrEmpty(scan.capture(OrderNumberLabel)) && w.date == CaptureOrEmpty(scan.capture(DayMonthYear))
    ensures w.contractor == CaptureOrEmpty(scan.capture(ToUpperRun))
    ensures w.siteContactName == CaptureOrEmpty(scan.capture(CustomerDetailsToAddress))
    ensures w.siteAddress == CaptureOrEmpty(scan.capture(SiteAddressToPhone))
    ensures w.siteContactPhone == CaptureOrEmpty(scan.capture(CustomerPhone))
    ensures w.workType == ExtractWorkType(scan.text) && w.tasks == ExtractTasks(scan)
    ensures w.estimatedValue == ExtractEstimatedValue(scan) && w.costLimit == ExtractCostLimit(scan)
    ensures w.requiresJSA == DetermineJsaRequirement(scan.text) && w.requiresSWMS == DetermineSwmsRequirement(scan.text)
    ensures w.urgency == DetermineUrgency(scan.text)
  {
    var text := scan.text;
    WorkOrder(
      orderNumber := CaptureOrEmpty(scan.capture(OrderNumberLabel)),
      date := CaptureOrEmpty(scan.capture(DayMonthYear)),
      contractor := CaptureOrEmpty(scan.capture(ToUpperRun)),
      siteContactName := CaptureOrEmpty(scan.capture(CustomerDetailsToAddress)),
      siteAddress := CaptureOrEmpty(scan.capture(SiteAddressToPhone)),
      siteContactPhone := CaptureOrEmpty(scan.capture(CustomerPhone)),
      siteLocation := None,
      customerName := CustomerLegalName,
      workType := ExtractWorkType(text),
      jobDescription := description,
      estimatedValue := ExtractEstimatedValue(scan),
      costLimit := ExtractCostLimit(scan),
      tasks := ExtractTasks(scan),
      requiresJSA := DetermineJsaRequirement(text),
      requiresSWMS := DetermineSwmsRequirement(text),
      urgency := DetermineUrgency(text),
      etsPhone := MatchedLiteral(text, PartnerPhone),
      etsEmail := MatchedLiteral(text, PartnerEmail))
  }

  /**
    `parseWorkOrder`: a document that does not name the partner is refused; an
    exception of the extraction step or of the description extractor propagates.
  */
  function ParseWorkOrder(pdf: PdfText): (r: Result<WorkOrder, string>)
    ensures pdf.ExtractionFailed? ==> r == Failure(pdf.message)
    ensures pdf.Extracted? ==> (!IsEtsDocument(pdf.scan.text) <==> r == Failure(NotEtsMessage))
    ensures r.Failure? <==> pdf.ExtractionFailed? || !IsEtsDocument(pdf.scan.text) || ExtractJobDescription(pdf.scan).Failure?
    ensures r.Success? ==> WellFormedOrder(r.value)
    ensures r.Success? ==> pdf.Extracted? && ExtractJobDescription(pdf.scan).Success?
                           && r.value == AssembleOrder(pdf.scan, ExtractJobDescription(pdf.scan).value)
  {
    match pdf
    case ExtractionFailed(m) => Failure(m)
    case Extracted(scan) =>
      if !IsEtsDocument(scan.text) then Failure(NotEtsMessage)
      else
        match ExtractJobDescription(scan)
        case Failure(m) => Failure(m)
        case Success(description) => Success(AssembleOrder(scan, description))
  }

  /** Every order parsed from a document naming the legal entity is an emergency. */
  lemma MarkedOrdersAreEmergencies(pdf: PdfText)
    requires pdf.Extracted? && Contains(pdf.scan.text, PartnerMarker)
    requires ParseWorkOrder(pdf).Success?
    ensures ParseWorkOrder(pdf).value.urgency == Emergency
  {
    LegalNameMeansEmergency(pdf.scan.text);
  }
}
