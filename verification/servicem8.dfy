/**
  The job-creation path of src/services/servicem8.ts: the conversion of
  extracted PDF fields into a job, its validation, the transformation into the
  request body with the generated job notes, the `createJob` gate around the
  request, and the company-name fallback of `createCustomer`.

  The HTTP call is a parameter: the model says which body is sent and how each
  answer is turned into the result.
*/
module ServiceM8 {
  import opened Wrappers
  import opened JsText
  import opened JsNumber

  /** `ServiceM8Job`: every field optional, as in the interface. */
  datatype Job = Job(
    active: Option<bool>,
    jobAddress: Option<string>,
    jobDescription: Option<string>,
    companyName: Option<string>,
    firstName: Option<string>,
    lastName: Option<string>,
    mobile: Option<string>,
    email: Option<string>,
    urgency: Option<string>,
    jobValue: Option<real>,
    estimatedHours: Option<real>,
    scheduleDate: Option<string>,
    scheduleTime: Option<string>,
    categoryUuid: Option<string>,
    jobType: Option<string>,
    sourcePdf: Option<string>,
    pdfReference: Option<string>,
    workScope: Option<string>,
    jobSummary: Option<string>)

  /** The request body of `transformToServiceM8Format`; `None` is a key JSON leaves out. */
  datatype ApiJob = ApiJob(
    active: bool,
    jobAddress: Option<string>,
    jobDescription: Option<string>,
    jobNotes: string,
    companyName: Option<string>,
    firstName: Option<string>,
    lastName: Option<string>,
    mobile: Option<string>,
    email: Option<string>,
    jobValue: Option<real>,
    estimatedHours: Option<real>,
    scheduleDate: Option<string>,
    scheduleTime: Option<string>,
    categoryUuid: Option<string>)

  /** The outcome of `validateJobData`. */
  datatype Validation = Valid | Invalid(error: string)

  const AddressRequired: string := "Job address is required"
  const DescriptionRequired: string := "Job description is required"
  const NameRequired: string := "Customer name (company or individual) is required"

  /** `if (x)` on an optional number: present and not zero. */
  predicate NumberTruthy(v: Option<real>) {
    v.Some? && v.value != 0.0
  }

  /** A job names its customer by company, first name or last name. */
  predicate NamesCustomer(job: Job) {
    Truthy(job.companyName) || Truthy(job.firstName) || Truthy(job.lastName)
  }

  /** `validateJobData`: address, then description, then some customer name. */
  function ValidateJob(job: Job): (r: Validation)
    ensures r == Valid <==> Truthy(job.jobAddress) && Truthy(job.jobDescription) && NamesCustomer(job)
    ensures !Truthy(job.jobAddress) ==> r == Invalid(AddressRequired)
    ensures Truthy(job.jobAddress) && !Truthy(job.jobDescription) ==> r == Invalid(DescriptionRequired)
    ensures Truthy(job.jobAddress) && Truthy(job.jobDescription) && !NamesCustomer(job) ==> r == Invalid(NameRequired)
  {
    if !Truthy(job.jobAddress) then Invalid(AddressRequired)
    else if !Truthy(job.jobDescription) then Invalid(DescriptionRequired)
    else if !Truthy(job.companyName) && !Truthy(job.firstName) && !Truthy(job.lastName) then Invalid(NameRequired)
    else Valid
  }

  // ---------------------------------------------------------------- job notes

  /**
    The note markers exactly as the file holds them: emoji whose UTF-8 bytes were
    read as Mac Roman and saved again, so each marker is the resulting characters.
  */
  const ReferenceMarker: string := "\U{F8FF}\U{FC}\U{EC}\U{D1}"
  const TypeMarker: string := "\U{F8FF}\U{FC}\U{EC}\U{E3}"
  const CriticalMarker: string := "\U{F8FF}\U{FC}\U{F6}\U{AE}"
  const UrgentMarker: string := "\U{201A}\U{F6}\U{B0}"
  const StandardMarker: string := "\U{F8FF}\U{FC}\U{EC}\U{D6}"
  const ScopeMarker: string := "\U{F8FF}\U{FC}\U{EE}\U{DF}"
  const SummaryMarker: string := "\U{F8FF}\U{FC}\U{EC}\U{F9}"
  const SourceMarker: string := "\U{F8FF}\U{FC}\U{EC}\U{C5}"
  const GeneratedMarker: string := "\U{F8FF}\U{FC}\U{A7}\U{F1}"
  const CreatedMarker: string := "\U{201A}\U{E8}\U{221E}"

  const GeneratedLine: string := GeneratedMarker + " Generated with" + " Claude Code PDF" + " Work Order Converter"

  /** The marker of the urgency line: `Critical`, `Urgent`, or any other value. */
  function UrgencyMarker(urgency: string): (r: string)
    ensures urgency == "Critical" <==> r == CriticalMarker
    ensures urgency == "Urgent" <==> r == UrgentMarker
    ensures urgency != "Critical" && urgency != "Urgent" <==> r == StandardMarker
  {
    if urgency == "Critical" then CriticalMarker
    else if urgency == "Urgent" then UrgentMarker
    else StandardMarker
  }

  /** One labelled note when the field is truthy, else nothing. */
  function NoteIf(field: Option<string>, prefix: string): (r: seq<string>)
    ensures |r| == (if Truthy(field) then 1 else 0)
    ensures Truthy(field) ==> r[0] == prefix + field.value
  {
    if Truthy(field) then [prefix + field.value] else []
  }

  /** The optional notes, in the order the code pushes them. */
  function FieldNotes(job: Job): seq<string> {
    NoteIf(job.pdfReference, ReferenceMarker + " PDF Reference: ")
      + NoteIf(job.jobType, TypeMarker + " Type: ")
      + (if Truthy(job.urgency) then [UrgencyMarker(job.urgency.value) + " Urgency: " + job.urgency.value] else [])
      + NoteIf(job.workScope, ScopeMarker + " Work Scope: ")
      + NoteIf(job.jobSummary, SummaryMarker + " Summary: ")
      + NoteIf(job.sourcePdf, SourceMarker + " Source: ")
  }

  /** The number of optional fields that are truthy. */
  function TruthyFieldCount(job: Job): nat {
    (if Truthy(job.pdfReference) then 1 else 0) + (if Truthy(job.jobType) then 1 else 0)
      + (if Truthy(job.urgency) then 1 else 0) + (if Truthy(job.workScope) then 1 else 0)
      + (if Truthy(job.jobSummary) then 1 else 0) + (if Truthy(job.sourcePdf) then 1 else 0)
  }

  /** The pushed entries: the field notes, the generator line after a newline, the creation stamp. */
  function NoteEntries(job: Job, createdAt: string): (r: seq<string>)
    ensures |r| == TruthyFieldCount(job) + 2
    ensures r[|r| - 2] == "\n" + GeneratedLine
    ensures r[|r| - 1] == CreatedMarker + " Created: " + createdAt
  {
    FieldNotes(job) + ["\n" + GeneratedLine, CreatedMarker + " Created: " + createdAt]
  }

  /** `buildJobNotes`, with `createdAt` the rendered clock reading. */
  function BuildJobNotes(job: Job, createdAt: string): string {
    JoinLines(NoteEntries(job, createdAt))
  }

  /** None of the fields that become note lines holds a newline. */
  predicate SingleLineFields(job: Job, createdAt: string) {
    && (job.pdfReference.Some? ==> NoNewline(job.pdfReference.value))
    && (job.jobType.Some? ==> NoNewline(job.jobType.value))
    && (job.urgency.Some? ==> NoNewline(job.urgency.value))
    && (job.workScope.Some? ==> NoNewline(job.workScope.value))
    && (job.jobSummary.Some? ==> NoNewline(job.jobSummary.value))
    && (job.sourcePdf.Some? ==> NoNewline(job.sourcePdf.value))
    && NoNewline(createdAt)
  }

  /**
    When no field holds a newline, the notes split into the field notes, an empty
    line, the generator line and the creation stamp: the generator line always
    stands after a blank line.
  */
  lemma JobNotesLines(job: Job, createdAt: string)
    requires SingleLineFields(job, createdAt)
    ensures SplitLines(BuildJobNotes(job, createdAt))
         == FieldNotes(job) + ["", GeneratedLine, CreatedMarker + " Created: " + createdAt]
  {
    var notes := FieldNotes(job);
    var created := CreatedMarker + " Created: " + createdAt;
    FieldNotesSingle(job, createdAt);
    NoNewlineConcat(GeneratedMarker, " Generated with");
    NoNewlineConcat(GeneratedMarker + " Generated with", " Claude Code PDF");
    NoNewlineConcat(GeneratedMarker + " Generated with" + " Claude Code PDF", " Work Order Converter");
    NoNewlineConcat(CreatedMarker, " Created: ");
    NoNewlineConcat(CreatedMarker + " Created: ", createdAt);
    assert SingleLines(["", GeneratedLine, created]);
    SingleLinesAppend(notes, ["", GeneratedLine, created]);
    SplitJoin(notes + ["", GeneratedLine, created]);
    BlankLineJoin(notes, GeneratedLine, created);
  }

  /** A line that starts with a newline joins like an empty line before it. */
  lemma BlankLineJoin(front: seq<string>, g: string, c: string)
    ensures JoinLines(front + ["\n" + g, c]) == JoinLines(front + ["", g, c])
  {
    assert JoinLines([g, c]) == g + "\n" + c;
    assert JoinLines(["\n" + g, c]) == "\n" + g + "\n" + c;
    assert JoinLines(["", g, c]) == "" + "\n" + JoinLines([g, c]);
    if |front| > 0 {
      JoinAppend(front, ["\n" + g, c]);
      JoinAppend(front, ["", g, c]);
    } else {
      assert front + ["\n" + g, c] == ["\n" + g, c];
      assert front + ["", g, c] == ["", g, c];
    }
  }

  lemma NoteIfSingle(field: Option<string>, prefix: string)
    requires NoNewline(prefix) && (field.Some? ==> NoNewline(field.value))
    ensures SingleLines(NoteIf(field, prefix))
  {
    if Truthy(field) {
      NoNewlineConcat(prefix, field.value);
    }
  }

  lemma UrgencyNoteSingle(urgency: Option<string>)
    requires urgency.Some? ==> NoNewline(urgency.value)
    ensures SingleLines(if Truthy(urgency) then [UrgencyMarker(urgency.value) + " Urgency: " + urgency.value] else [])
  {
    if Truthy(urgency) {
      var marker := UrgencyMarker(urgency.value);
      assert NoNewline(marker);
      NoNewlineConcat(marker, " Urgency: ");
      NoNewlineConcat(marker + " Urgency: ", urgency.value);
    }
  }

  lemma FieldNotesSingle(job: Job, createdAt: string)
    requires SingleLineFields(job, createdAt)
    ensures SingleLines(FieldNotes(job))
  {
    var p0 := NoteIf(job.pdfReference, ReferenceMarker + " PDF Reference: ");
    var p1 := NoteIf(job.jobType, TypeMarker + " Type: ");
    var p2 := if Truthy(job.urgency) then [UrgencyMarker(job.urgency.value) + " Urgency: " + job.urgency.value] else [];
    var p3 := NoteIf(job.workScope, ScopeMarker + " Work Scope: ");
    var p4 := NoteIf(job.jobSummary, SummaryMarker + " Summary: ");
    var p5 := NoteIf(job.sourcePdf, SourceMarker + " Source: ");
    NoNewlineConcat(ReferenceMarker, " PDF Reference: ");
    NoNewlineConcat(TypeMarker, " Type: ");
    NoNewlineConcat(ScopeMarker, " Work Scope: ");
    NoNewlineConcat(SummaryMarker, " Summary: ");
    NoNewlineConcat(SourceMarker, " Source: ");
    NoteIfSingle(job.pdfReference, ReferenceMarker + " PDF Reference: ");
    NoteIfSingle(job.jobType, TypeMarker + " Type: ");
    UrgencyNoteSingle(job.urgency);
    NoteIfSingle(job.workScope, ScopeMarker + " Work Scope: ");
    NoteIfSingle(job.jobSummary, SummaryMarker + " Summary: ");
    NoteIfSingle(job.sourcePdf, SourceMarker + " Source: ");
    SingleLinesAppend(p0, p1);
    SingleLinesAppend(p0 + p1, p2);
    SingleLinesAppend(p0 + p1 + p2, p3);
    SingleLinesAppend(p0 + p1 + p2 + p3, p4);
    SingleLinesAppend(p0 + p1 + p2 + p3 + p4, p5);
  }

  // ---------------------------------------------------------------- transformation

  /** `x ? x : undefined` for the optional numbers copied only when truthy. */
  function KeepIfTruthy(v: Option<real>): (r: Option<real>)
    ensures r.Some? <==> NumberTruthy(v)
    ensures r.Some? ==> r == v
  {
    if NumberTruthy(v) then v else None
  }

  function KeepIfNonEmpty(s: Option<string>): (r: Option<string>)
    ensures r.Some? <==> Truthy(s)
    ensures r.Some? ==> r == s
  {
    if Truthy(s) then s else None
  }

  /**
    `transformToServiceM8Format`: active unless explicitly false, the address,
    description and customer fields copied, the notes built, and each optional
    field copied only when truthy.
  */
  function TransformJob(job: Job, createdAt: string): (r: ApiJob)
    ensures r.active <==> job.active != Some(false)
    ensures r.jobAddress == job.jobAddress && r.jobDescription == job.jobDescription
    ensures r.companyName == job.companyName && r.firstName == job.firstName && r.lastName == job.lastName
    ensures r.mobile == job.mobile && r.email == job.email
    ensures r.jobNotes == BuildJobNotes(job, createdAt)
    ensures r.jobValue.Some? <==> NumberTruthy(job.jobValue)
    ensures r.estimatedHours.Some? <==> NumberTruthy(job.estimatedHours)
    ensures r.scheduleDate.Some? <==> Truthy(job.scheduleDate)
    ensures r.scheduleTime.Some? <==> Truthy(job.scheduleTime)
    ensures r.categoryUuid.Some? <==> Truthy(job.categoryUuid)
    ensures r.jobValue.Some? ==> r.jobValue == job.jobValue
    ensures r.estimatedHours.Some? ==> r.estimatedHours == job.estimatedHours
    ensures r.scheduleDate.Some? ==> r.scheduleDate == job.scheduleDate
    ensures r.scheduleTime.Some? ==> r.scheduleTime == job.scheduleTime
    ensures r.categoryUuid.Some? ==> r.categoryUuid == job.categoryUuid
  {
    ApiJob(
      active := job.active != Some(false),
      jobAddress := job.jobAddress,
      jobDescription := job.jobDescription,
      jobNotes := BuildJobNotes(job, createdAt),
      companyName := job.companyName,
      firstName := job.firstName,
      lastName := job.lastName,
      mobile := job.mobile,
      email := job.email,
      jobValue := KeepIfTruthy(job.jobValue),
      estimatedHours := KeepIfTruthy(job.estimatedHours),
      scheduleDate := KeepIfNonEmpty(job.scheduleDate),
      scheduleTime := KeepIfNonEmpty(job.scheduleTime),
      categoryUuid := KeepIfNonEmpty(job.categoryUuid))
  }

  // ---------------------------------------------------------------- the request

  /** What the job endpoint does with one request. */
  datatype ApiOutcome =
    | Created(job: string)                         // a 2xx answer with the created job's JSON
    | Rejected(status: nat, body: string)          // a non-2xx answer and its text
    | Raised(message: Option<string>)              // an exception; `None` when it is not an `Error`

  datatype CreateResult = CreateResult(success: bool, job: Option<string>, error: Option<string>)

  /** The decimal form of a natural number, as template interpolation prints it. */
  function DecimalString(n: nat): (r: string)
    ensures |r| > 0 && AllDigits(r)
    ensures DigitsValue(r) == n
  {
    if n < 10 then [('0' as int + n) as char]
    else
      var front := DecimalString(n / 10);
      var r := front + [('0' as int + n % 10) as char];
      assert r[..|r| - 1] == front;
      r
  }

  /** How `createJob` reports the endpoint's answer to a valid job. */
  function Report(answer: ApiOutcome): (r: CreateResult)
    ensures r.success <==> answer.Created?
    ensures answer.Created? ==> r == CreateResult(true, Some(answer.job), None)
    ensures !answer.Created? ==> r.error.Some? && r.job.None?
    ensures answer.Raised? ==> r.error == Some("Network error: " + answer.message.GetOr("Unknown error"))
  {
    match answer
    case Created(j) => CreateResult(true, Some(j), None)
    case Rejected(status, body) =>
      CreateResult(false, None, Some("ServiceM8 API Error (" + DecimalString(status) + "): " + body))
    case Raised(m) => CreateResult(false, None, Some("Network error: " + m.GetOr("Unknown error")))
  }

  /** A rejection reports the status in decimal, which reads back as the status code, followed by the body. */
  lemma RejectionReportsStatus(status: nat, body: string)
    ensures exists digits :: (ParseFloat(digits) == Some(status as real)
                              && Report(Rejected(status, body)).error == Some("ServiceM8 API Error (" + digits + "): " + body))
  {
    var digits := DecimalString(status);
    ParseDigits(digits);
    assert Report(Rejected(status, body)).error == Some("ServiceM8 API Error (" + digits + "): " + body);
  }

  /**
    `createJob`: an invalid job is answered with the validation message and no
    request; otherwise the transformed body is sent once and the answer reported.
  */
  function CreateJob(job: Job, createdAt: string, send: ApiJob -> ApiOutcome): (r: CreateResult)
    ensures ValidateJob(job).Invalid? ==> r == CreateResult(false, None, Some(ValidateJob(job).error))
    ensures ValidateJob(job) == Valid ==> r == Report(send(TransformJob(job, createdAt)))
    ensures r.success <==> ValidateJob(job) == Valid && send(TransformJob(job, createdAt)).Created?
  {
    match ValidateJob(job)
    case Invalid(e) => CreateResult(false, None, Some(e))
    case Valid => Report(send(TransformJob(job, createdAt)))
  }

  /** An invalid job never reaches the endpoint: the answer does not depend on it. */
  lemma InvalidJobSendsNothing(job: Job, createdAt: string, send1: ApiJob -> ApiOutcome, send2: ApiJob -> ApiOutcome)
    requires ValidateJob(job).Invalid?
    ensures CreateJob(job, createdAt, send1) == CreateJob(job, createdAt, send2)
  {
  }

  // ---------------------------------------------------------------- customers

  /** A template interpolation of an optional string: JavaScript prints a missing value as `undefined`. */
  function Interpolate(s: Option<string>): string {
    match s
    case Some(v) => v
    case None => "undefined"
  }

  /**
    The `company_name` sent by `createCustomer`: the company when truthy, else the
    trimmed `${first_name} ${last_name}`.
  */
  function CustomerCompanyName(companyName: Option<string>, firstName: Option<string>, lastName: Option<string>): (r: string)
    ensures Truthy(companyName) ==> r == companyName.value
    ensures !Truthy(companyName) ==> r == Trim(Interpolate(firstName) + " " + Interpolate(lastName))
  {
    Or(companyName, Trim(Interpolate(firstName) + " " + Interpolate(lastName)))
  }

  /** Without a company, a missing name part shows up as the word `undefined` in the company name. */
  lemma MissingNamePrintsUndefined(firstName: Option<string>, lastName: Option<string>)
    requires firstName.None? || lastName.None?
    ensures Contains(CustomerCompanyName(None, firstName, lastName), "undefined")
  {
    var joined := Interpolate(firstName) + " " + Interpolate(lastName);
    var k := if firstName.None? then 0 else |joined| - 9;
    assert joined[k..k + 9] == "undefined";
    ContainsAt(joined, "undefined", k);
    TrimKeepsInner(joined, k, 9);
  }

  // ---------------------------------------------------------------- conversion from PDF fields

  /** The fields of the extracted-PDF object that `convertPdfToServiceM8Job` reads. */
  datatype PdfFields = PdfFields(
    location: Option<string>,
    address: Option<string>,
    jobDescription: Option<string>,
    workScope: Option<string>,
    customerName: Option<string>,
    companyName: Option<string>,
    firstName: Option<string>,
    lastName: Option<string>,
    phone: Option<string>,
    mobile: Option<string>,
    email: Option<string>,
    urgency: Option<string>,
    jobValue: Option<real>,
    totalCost: Option<real>,
    estimatedHours: Option<real>,
    documentType: Option<string>,
    reference: Option<string>,
    id: Option<string>,
    jobSummary: Option<string>,
    name: Option<string>,
    filename: Option<string>)

  /** `a || b` on optional numbers. */
  function OrNumber(a: Option<real>, b: real): (r: real)
    ensures NumberTruthy(a) ==> r == a.value
    ensures !NumberTruthy(a) ==> r == b
  {
    if NumberTruthy(a) then a.value else b
  }

  /** `convertPdfToServiceM8Job`: every field the first truthy source, else its default; always active. */
  function ConvertPdfToJob(pdf: PdfFields): (r: Job)
    ensures r.active == Some(true)
    ensures r.jobAddress == Some(if Truthy(pdf.location) then pdf.location.value else Or(pdf.address, ""))
    ensures r.jobDescription == Some(if Truthy(pdf.jobDescription) then pdf.jobDescription.value else Or(pdf.workScope, ""))
    ensures r.urgency == Some(Or(pdf.urgency, "Standard")) && Truthy(r.urgency)
    ensures r.jobType == Some(Or(pdf.documentType, "Work Order")) && Truthy(r.jobType)
    ensures r.jobValue == Some(if NumberTruthy(pdf.jobValue) then pdf.jobValue.value else OrNumber(pdf.totalCost, 0.0))
    ensures r.estimatedHours == Some(if NumberTruthy(pdf.estimatedHours) then pdf.estimatedHours.value else 0.0)
    ensures r.companyName == Some(if Truthy(pdf.customerName) then pdf.customerName.value else Or(pdf.companyName, ""))
    ensures r.firstName == Some(if Truthy(pdf.firstName) then pdf.firstName.value else "")
    ensures r.lastName == Some(if Truthy(pdf.lastName) then pdf.lastName.value else "")
    ensures r.mobile == Some(if Truthy(pdf.phone) then pdf.phone.value else Or(pdf.mobile, ""))
    ensures r.email == Some(if Truthy(pdf.email) then pdf.email.value else "")
    ensures r.pdfReference == Some(if Truthy(pdf.reference) then pdf.reference.value else Or(pdf.id, ""))
    ensures r.workScope == Some(if Truthy(pdf.workScope) then pdf.workScope.value else "")
    ensures r.jobSummary == Some(if Truthy(pdf.jobSummary) then pdf.jobSummary.value else "")
    ensures r.sourcePdf == Some(if Truthy(pdf.name) then pdf.name.value else Or(pdf.filename, ""))
    ensures r.scheduleDate.None? && r.scheduleTime.None? && r.categoryUuid.None?
  {
    Job(
      active := Some(true),
      jobAddress := Some(Or(pdf.location, Or(pdf.address, ""))),
      jobDescription := Some(Or(pdf.jobDescription, Or(pdf.workScope, ""))),
      companyName := Some(Or(pdf.customerName, Or(pdf.companyName, ""))),
      firstName := Some(Or(pdf.firstName, "")),
      lastName := Some(Or(pdf.lastName, "")),
      mobile := Some(Or(pdf.phone, Or(pdf.mobile, ""))),
      email := Some(Or(pdf.email, "")),
      urgency := Some(Or(pdf.urgency, "Standard")),
      jobValue := Some(OrNumber(pdf.jobValue, OrNumber(pdf.totalCost, 0.0))),
      estimatedHours := Some(OrNumber(pdf.estimatedHours, 0.0)),
      scheduleDate := None,
      scheduleTime := None,
      categoryUuid := None,
      jobType := Some(Or(pdf.documentType, "Work Order")),
      sourcePdf := Some(Or(pdf.name, Or(pdf.filename, ""))),
      pdfReference := Some(Or(pdf.reference, Or(pdf.id, ""))),
      workScope := Some(Or(pdf.workScope, "")),
      jobSummary := Some(Or(pdf.jobSummary, "")))
  }

  /**
    The request body of a converted PDF: active, without schedule or category, and
    with a job value exactly when the PDF's job value or total cost is non-zero,
    so a zero amount is left out rather than sent.
  */
  lemma ConvertedJobBody(pdf: PdfFields, createdAt: string)
    ensures var body := TransformJob(ConvertPdfToJob(pdf), createdAt);
      body.active && body.scheduleDate.None? && body.scheduleTime.None? && body.categoryUuid.None?
      && (body.jobValue.Some? <==> NumberTruthy(pdf.jobValue) || NumberTruthy(pdf.totalCost))
      && (body.estimatedHours.Some? <==> NumberTruthy(pdf.estimatedHours))
      && (body.jobValue.Some? ==> body.jobValue == Some(if NumberTruthy(pdf.jobValue) then pdf.jobValue.value else pdf.totalCost.value))
  {
    var job := ConvertPdfToJob(pdf);
    assert NumberTruthy(job.jobValue) <==> NumberTruthy(pdf.jobValue) || NumberTruthy(pdf.totalCost);
  }

  /**
    A converted PDF passes validation exactly when it has a location or address, a
    description or work scope, and a customer, company, first or last name.
  */
  lemma ConvertedJobValidity(pdf: PdfFields)
    ensures ValidateJob(ConvertPdfToJob(pdf)) == Valid
        <==> (Truthy(pdf.location) || Truthy(pdf.address))
             && (Truthy(pdf.jobDescription) || Truthy(pdf.workScope))
             && (Truthy(pdf.customerName) || Truthy(pdf.companyName) || Truthy(pdf.firstName) || Truthy(pdf.lastName))
  {
    var job := ConvertPdfToJob(pdf);
    assert Truthy(job.jobAddress) <==> Truthy(pdf.location) || Truthy(pdf.address);
    assert Truthy(job.jobDescription) <==> Truthy(pdf.jobDescription) || Truthy(pdf.workScope);
    assert Truthy(job.companyName) <==> Truthy(pdf.customerName) || Truthy(pdf.companyName);
  }

  /** Without a reference, a job's notes open with its type line and then its urgency line. */
  lemma NotesOpenWithTypeAndUrgency(job: Job)
    requires !Truthy(job.pdfReference) && Truthy(job.jobType) && Truthy(job.urgency)
    ensures FieldNotes(job)[..2]
         == [TypeMarker + " Type: " + job.jobType.value, UrgencyMarker(job.urgency.value) + " Urgency: " + job.urgency.value]
  {
    var typeNote := TypeMarker + " Type: " + job.jobType.value;
    var urgencyNote := UrgencyMarker(job.urgency.value) + " Urgency: " + job.urgency.value;
    var rest := NoteIf(job.workScope, ScopeMarker + " Work Scope: ")
      + NoteIf(job.jobSummary, SummaryMarker + " Summary: ") + NoteIf(job.sourcePdf, SourceMarker + " Source: ");
    assert NoteIf(job.pdfReference, ReferenceMarker + " PDF Reference: ") == [];
    assert NoteIf(job.jobType, TypeMarker + " Type: ") == [typeNote];
    assert FieldNotes(job) == [] + [typeNote] + [urgencyNote] + rest;
    assert ([] + [typeNote] + [urgencyNote] + rest)[..2] == [typeNote, urgencyNote];
  }

  /**
    The notes of a converted PDF always carry the type and urgency lines, and the
    urgency line of a PDF without urgency uses the standard marker.
  */
  lemma ConvertedJobNotes(pdf: PdfFields, createdAt: string)
    requires !Truthy(pdf.urgency) && !Truthy(pdf.reference) && !Truthy(pdf.id)
    ensures FieldNotes(ConvertPdfToJob(pdf))[..2]
         == [TypeMarker + " Type: " + Or(pdf.documentType, "Work Order"), StandardMarker + " Urgency: Standard"]
  {
    var job := ConvertPdfToJob(pdf);
    assert job.urgency == Some("Standard") && job.jobType == Some(Or(pdf.documentType, "Work Order"));
    assert !Truthy(job.pdfReference);
    assert UrgencyMarker("Standard") == StandardMarker;
    NotesOpenWithTypeAndUrgency(job);
    assert StandardMarker + " Urgency: " + "Standard" == StandardMarker + " Urgency: Standard";
  }
}
