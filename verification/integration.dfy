/**
  `ETSServiceM8Integration`: the mapping from a parsed work order to a ServiceM8
  job record, with its job-description formatter and its two lookup tables.

  The class exists in four copies. pdf-parser-real.js, ets-pdf-parser.ts and
  ets-pdf-parser.js share the sectioned formatter and carry the site coordinates;
  the copy in src/services/ets-parser.ts has the plain formatter and no
  coordinate fields. The copies differ otherwise only in the `source` tag.
*/
module Integration {
  import opened Wrappers
  import opened JsText
  import opened WorkOrders

  /** Which copy of the class does the mapping. */
  datatype Copy =
    | RealParserCopy     // ets-pdf-parser-test/pdf-parser-real.js
    | StandaloneCopy     // ets-pdf-parser-test/ets-pdf-parser.ts and its compiled ets-pdf-parser.js
    | AppServiceCopy     // src/services/ets-parser.ts

  /** The ServiceM8 job record. The coordinate fields exist only in the geocoding copies. */
  datatype JobRecord = JobRecord(
    jobNumber: string,
    jobAddress: string,
    jobContactName: string,
    jobContactPhone: string,
    jobDescription: string,
    customerName: string,
    jobLatitude: Option<Coordinate>,
    jobLongitude: Option<Coordinate>,
    geocoded: Option<bool>,
    categoryName: string,
    jobPriority: string,
    jobIsEmergency: bool,
    generatedValue: real,
    etsOrderNumber: string,
    etsWorkType: string,
    requiresJsa: bool,
    requiresSwms: bool,
    costLimit: Option<string>,
    source: string,
    createdBy: string)

  const SiteHeading: string := "=== SITE INFORMATION ==="
  const JobHeading: string := "=== JOB DESCRIPTION ==="
  const ScopeHeading: string := "=== SCOPE OF WORKS ==="
  const CostHeading: string := "=== COST LIMIT ==="
  const PlainScopeHeading: string := "Scope of Works:"
  const NoCoordinates: string := "Location: Coordinates not available"

  const GeneralCategory: string := "General Electrical"
  const NormalPriority: string := "normal"

  const CategoryTable: map<string, string> := map[
    "Electrical MS" := "Emergency Electrical",
    "Electrical Report" := "Electrical Assessment",
    "HOME ASSIST elec" := "Residential Electrical",
    "Installation Of Power Point" := "Electrical Installation"]

  const PriorityTable: map<string, string> := map[
    "emergency" := "urgent",
    "urgent" := "high",
    "standard" := "normal"]

  // ---------------------------------------------------------------- lines

  /** Every line followed by a newline: what a run of `+= line + '\n'` appends. */
  function Terminated(lines: seq<string>): string {
    if |lines| == 0 then "" else lines[0] + "\n" + Terminated(lines[1..])
  }

  lemma {:induction false} TerminatedAppend(a: seq<string>, b: seq<string>)
    ensures Terminated(a + b) == Terminated(a) + Terminated(b)
  {
    if |a| > 0 {
      assert (a + b)[0] == a[0];
      assert (a + b)[1..] == a[1..] + b;
      TerminatedAppend(a[1..], b);
      calc {
        Terminated(a + b);
        a[0] + "\n" + Terminated(a[1..] + b);
        a[0] + "\n" + (Terminated(a[1..]) + Terminated(b));
        (a[0] + "\n" + Terminated(a[1..])) + Terminated(b);
      }
    } else {
      assert a + b == b;
    }
  }

  lemma TerminatedOne(x: string)
    ensures Terminated([x]) == x + "\n"
  {
    assert [x][1..] == [];
  }

  /** Joining lines is writing the leading lines terminated, then joining the rest. */
  lemma {:induction false} JoinAfterTerminated(a: seq<string>, rest: seq<string>)
    requires |rest| > 0
    ensures JoinLines(a + rest) == Terminated(a) + JoinLines(rest)
  {
    if |a| > 0 {
      assert (a + rest)[0] == a[0];
      assert (a + rest)[1..] == a[1..] + rest;
      JoinAfterTerminated(a[1..], rest);
    } else {
      assert a + rest == rest;
    }
  }

  /** Three terminated lines. */
  lemma TerminatedThree(x: string, y: string, z: string)
    ensures Terminated([x, y, z]) == x + "\n" + y + "\n" + z + "\n"
  {
    assert [x, y, z][1..] == [y, z];
    assert [y, z][1..] == [z];
    TerminatedOne(z);
  }

  // ---------------------------------------------------------------- tasks

  /** `${task.taskNumber}. ${task.description}`. */
  function TaskLine(t: WorkTask): string {
    t.taskNumber + ". " + t.description
  }

  function TaskLines(ts: seq<WorkTask>): (r: seq<string>)
    ensures |r| == |ts|
    ensures forall i :: 0 <= i < |ts| ==> r[i] == TaskLine(ts[i])
  {
    seq(|ts|, i requires 0 <= i < |ts| => TaskLine(ts[i]))
  }

  /** The `forEach` over the tasks: one terminated line per task, in order. */
  function TaskBlock(ts: seq<WorkTask>): string {
    Terminated(TaskLines(ts))
  }

  /** The block for the tasks before `i` and task `i` is the block for the tasks up to `i`. */
  lemma TaskBlockStep(ts: seq<WorkTask>, i: nat)
    requires i < |ts|
    ensures TaskBlock(ts[..i + 1]) == TaskBlock(ts[..i]) + (ts[i].taskNumber + ". " + ts[i].description + "\n")
  {
    assert TaskLines(ts[..i + 1]) == TaskLines(ts[..i]) + [TaskLine(ts[i])];
    TerminatedAppend(TaskLines(ts[..i]), [TaskLine(ts[i])]);
    TerminatedOne(TaskLine(ts[i]));
  }

  lemma TaskLinesSingle(ts: seq<WorkTask>)
    requires forall i :: 0 <= i < |ts| ==> NoNewline(ts[i].taskNumber) && NoNewline(ts[i].description)
    ensures SingleLines(TaskLines(ts))
  {
  }

  // ---------------------------------------------------------------- the sectioned formatter

  predicate Geocoded(w: WorkOrder) {
    w.siteLocation.Some? && w.siteLocation.value.geocoded
  }

  function ContactLines(w: WorkOrder): seq<string> {
    if w.siteContactName != "" then ["Site Contact: " + w.siteContactName] else []
  }

  function PhoneLines(w: WorkOrder): seq<string> {
    if w.siteContactPhone != "" then ["Site Phone: " + w.siteContactPhone] else []
  }

  /** Coordinates when geocoded, else the address with a notice, else nothing. */
  function PlaceLines(w: WorkOrder): seq<string> {
    if Geocoded(w) then ["Site Location: " + w.siteLocation.value.latitude + ", " + w.siteLocation.value.longitude]
    else if w.siteAddress != "" then ["Site Address: " + w.siteAddress, NoCoordinates]
    else []
  }

  /** The lines of the site block, heading first. */
  function SiteLines(w: WorkOrder): seq<string> {
    [SiteHeading] + ContactLines(w) + PhoneLines(w) + PlaceLines(w)
  }

  function ScopeLines(ts: seq<WorkTask>, heading: string): seq<string> {
    if |ts| > 0 then ["", heading] + TaskLines(ts) + [""] else []
  }

  function CostLines(w: WorkOrder): seq<string> {
    if Truthy(w.costLimit) then [CostHeading, w.costLimit.value] else []
  }

  /**
    The reference layout of the sectioned description, line by line. With tasks,
    the scope section ends in an empty line; without tasks, the cost heading
    directly follows the job description.
  */
  function DescriptionLines(w: WorkOrder): seq<string> {
    SiteLines(w) + ["", JobHeading, w.jobDescription] + ScopeLines(w.tasks, ScopeHeading) + CostLines(w)
  }

  function ContactPart(w: WorkOrder): string {
    if w.siteContactName != "" then "Site Contact: " + w.siteContactName + "\n" else ""
  }

  function PhonePart(w: WorkOrder): string {
    if w.siteContactPhone != "" then "Site Phone: " + w.siteContactPhone + "\n" else ""
  }

  function PlacePart(w: WorkOrder): string {
    if Geocoded(w) then "Site Location: " + w.siteLocation.value.latitude + ", " + w.siteLocation.value.longitude + "\n"
    else if w.siteAddress != "" then "Site Address: " + w.siteAddress + "\n" + NoCoordinates + "\n"
    else ""
  }

  /** The site block as the formatter writes it. */
  function SiteBlock(w: WorkOrder): string {
    SiteHeading + "\n" + ContactPart(w) + PhonePart(w) + PlacePart(w)
  }

  /** The scope section: the heading after a blank line, then every task on its own line. */
  function ScopePart(ts: seq<WorkTask>, heading: string): string {
    if |ts| > 0 then "\n\n" + heading + "\n" + TaskBlock(ts) else ""
  }

  function CostPart(w: WorkOrder): string {
    if Truthy(w.costLimit) then "\n" + CostHeading + "\n" + w.costLimit.value else ""
  }

  /** The sectioned `formatJobDescription` of the geocoding copies. */
  function FormatSite(w: WorkOrder): string {
    SiteBlock(w) + ("\n" + JobHeading + "\n" + w.jobDescription) + ScopePart(w.tasks, ScopeHeading) + CostPart(w)
  }

  /** A line that is written only under a condition is a list of zero or one terminated lines. */
  lemma OptionalLine(lines: seq<string>, part: string, line: string)
    requires (lines == [] && part == "") || (lines == [line] && part == line + "\n")
    ensures part == Terminated(lines)
  {
    if lines == [line] {
      TerminatedOne(line);
    }
  }

  lemma PlacePartLines(w: WorkOrder)
    ensures PlacePart(w) == Terminated(PlaceLines(w))
  {
    var place := PlaceLines(w);
    if Geocoded(w) {
      TerminatedOne(place[0]);
    } else if w.siteAddress != "" {
      assert place == [place[0]] + [place[1]];
      TerminatedAppend([place[0]], [place[1]]);
      TerminatedOne(place[0]);
      TerminatedOne(place[1]);
    }
  }

  lemma TerminatedFour(a: seq<string>, b: seq<string>, c: seq<string>, d: seq<string>)
    ensures Terminated(a + b + c + d) == Terminated(a) + Terminated(b) + Terminated(c) + Terminated(d)
  {
    TerminatedAppend(a + b + c, d);
    TerminatedAppend(a + b, c);
    TerminatedAppend(a, b);
  }

  lemma SiteBlockLines(w: WorkOrder)
    ensures SiteBlock(w) == Terminated(SiteLines(w))
  {
    OptionalLine(ContactLines(w), ContactPart(w), "Site Contact: " + w.siteContactName);
    OptionalLine(PhoneLines(w), PhonePart(w), "Site Phone: " + w.siteContactPhone);
    PlacePartLines(w);
    TerminatedOne(SiteHeading);
    TerminatedFour([SiteHeading], ContactLines(w), PhoneLines(w), PlaceLines(w));
  }

  /**
    The body after the site block in both formatters: the first line, then the
    scope section, then the cost line(s), joined exactly as the reference layout.
  */
  lemma TailLines(first: string, ts: seq<WorkTask>, heading: string, cost: seq<string>)
    ensures first + ScopePart(ts, heading) + CostTail(cost) == JoinLines([first] + ScopeLines(ts, heading) + cost)
  {
    if |ts| > 0 {
      TailWithTasks(first, ts, heading, cost);
    } else {
      assert [first] + ScopeLines(ts, heading) + cost == [first] + cost;
      if |cost| > 0 {
        JoinAppend([first], cost);
      }
    }
  }

  /** What the cost lines add after the line before them. */
  function CostTail(cost: seq<string>): string {
    if |cost| > 0 then "\n" + JoinLines(cost) else ""
  }

  lemma CostTailJoin(cost: seq<string>)
    ensures JoinLines([""] + cost) == CostTail(cost)
  {
    if |cost| > 0 {
      assert ([""] + cost)[1..] == cost;
    }
  }

  lemma TailWithTasks(first: string, ts: seq<WorkTask>, heading: string, cost: seq<string>)
    requires |ts| > 0
    ensures first + ScopePart(ts, heading) + CostTail(cost) == JoinLines([first] + ScopeLines(ts, heading) + cost)
  {
    var tl := TaskLines(ts);
    var tail := CostTail(cost);
    CostTailJoin(cost);
    RegroupScope(first, heading, tl, cost);
    JoinAfterTerminated([first, "", heading] + tl, [""] + cost);
    TerminatedAppend([first, "", heading], tl);
    TerminatedThree(first, "", heading);
    RegroupHeading(first, heading, TaskBlock(ts), tail);
  }

  lemma RegroupHeading(first: string, heading: string, block: string, tail: string)
    ensures (first + "\n" + "" + "\n" + heading + "\n") + block + tail == first + ("\n\n" + heading + "\n" + block) + tail
  {
    assert "\n" + "" + "\n" == "\n\n";
  }

  lemma RegroupScope(first: string, heading: string, tl: seq<string>, cost: seq<string>)
    ensures [first] + (["", heading] + tl + [""]) + cost == ([first, "", heading] + tl) + ([""] + cost)
  {
  }

  lemma CostJoin(w: WorkOrder)
    ensures CostPart(w) == CostTail(CostLines(w))
  {
    if Truthy(w.costLimit) {
      assert JoinLines([CostHeading, w.costLimit.value]) == CostHeading + "\n" + JoinLines([w.costLimit.value]);
    }
  }

  lemma RegroupDescription(site: seq<string>, jd: string, scope: seq<string>, cost: seq<string>)
    ensures site + ["", JobHeading, jd] + scope + cost == (site + ["", JobHeading]) + ([jd] + scope + cost)
  {
  }

  lemma RegroupJob(block: string, jd: string, scope: string, cost: string)
    ensures block + ("\n" + JobHeading + "\n") + (jd + scope + cost) == block + ("\n" + JobHeading + "\n" + jd) + scope + cost
  {
  }

  /** The sectioned description is the reference layout joined with newlines. */
  lemma FormatSiteLines(w: WorkOrder)
    ensures FormatSite(w) == JoinLines(DescriptionLines(w))
  {
    var site := SiteLines(w);
    var jd := w.jobDescription;
    var scope := ScopeLines(w.tasks, ScopeHeading);
    var cost := CostLines(w);
    var rest := [jd] + scope + cost;
    SiteBlockLines(w);
    CostJoin(w);
    TailLines(jd, w.tasks, ScopeHeading, cost);
    RegroupDescription(site, jd, scope, cost);
    JoinAfterTerminated(site + ["", JobHeading], rest);
    TerminatedAppend(site, ["", JobHeading]);
    assert ["", JobHeading][1..] == [JobHeading];
    TerminatedOne(JobHeading);
    assert Terminated(["", JobHeading]) == "\n" + JobHeading + "\n";
    RegroupJob(SiteBlock(w), jd, ScopePart(w.tasks, ScopeHeading), CostPart(w));
  }

  /** Every field that the description prints holds no newline. */
  predicate SingleLineFields(w: WorkOrder) {
    && NoNewline(w.siteContactName) && NoNewline(w.siteContactPhone) && NoNewline(w.siteAddress)
    && (w.siteLocation.Some? ==> NoNewline(w.siteLocation.value.latitude) && NoNewline(w.siteLocation.value.longitude))
    && NoNewline(w.jobDescription)
    && (w.costLimit.Some? ==> NoNewline(w.costLimit.value))
    && (forall i :: 0 <= i < |w.tasks| ==> NoNewline(w.tasks[i].taskNumber) && NoNewline(w.tasks[i].description))
  }

  lemma ScopeLinesSingle(ts: seq<WorkTask>, heading: string)
    requires NoNewline(heading)
    requires forall i :: 0 <= i < |ts| ==> NoNewline(ts[i].taskNumber) && NoNewline(ts[i].description)
    ensures SingleLines(ScopeLines(ts, heading))
  {
    if |ts| > 0 {
      TaskLinesSingle(ts);
      SingleLinesAppend(["", heading], TaskLines(ts));
      SingleLinesAppend(["", heading] + TaskLines(ts), [""]);
    }
  }

  lemma PlaceLinesSingle(w: WorkOrder)
    requires SingleLineFields(w)
    ensures SingleLines(PlaceLines(w))
  {
    if Geocoded(w) {
      var at := w.siteLocation.value;
      NoNewlineConcat("Site Location: ", at.latitude);
      NoNewlineConcat("Site Location: " + at.latitude, ", ");
      NoNewlineConcat("Site Location: " + at.latitude + ", ", at.longitude);
    } else {
      NoNewlineConcat("Site Address: ", w.siteAddress);
    }
  }

  lemma SingleLinesFour(a: seq<string>, b: seq<string>, c: seq<string>, d: seq<string>)
    requires SingleLines(a) && SingleLines(b) && SingleLines(c) && SingleLines(d)
    ensures SingleLines(a + b + c + d)
  {
    SingleLinesAppend(a, b);
    SingleLinesAppend(a + b, c);
    SingleLinesAppend(a + b + c, d);
  }

  lemma SiteLinesSingle(w: WorkOrder)
    requires SingleLineFields(w)
    ensures SingleLines(SiteLines(w))
  {
    NoNewlineConcat("Site Contact: ", w.siteContactName);
    NoNewlineConcat("Site Phone: ", w.siteContactPhone);
    PlaceLinesSingle(w);
    SingleLinesFour([SiteHeading], ContactLines(w), PhoneLines(w), PlaceLines(w));
  }

  lemma DescriptionLinesSingle(w: WorkOrder)
    requires SingleLineFields(w)
    ensures SingleLines(DescriptionLines(w))
  {
    var site := SiteLines(w);
    var scope := ScopeLines(w.tasks, ScopeHeading);
    var cost := CostLines(w);
    SiteLinesSingle(w);
    ScopeLinesSingle(w.tasks, ScopeHeading);
    assert SingleLines(cost);
    var job := ["", JobHeading, w.jobDescription];
    assert SingleLines(job);
    SingleLinesAppend(site, job);
    SingleLinesAppend(site + job, scope);
    SingleLinesAppend(site + job + scope, cost);
  }

  /**
    For single-line fields the description splits back into exactly the reference
    lines: every section can be read off the formatted text.
  */
  lemma FormatSiteRoundTrip(w: WorkOrder)
    requires SingleLineFields(w)
    ensures SplitLines(FormatSite(w)) == DescriptionLines(w)
  {
    FormatSiteLines(w);
    DescriptionLinesSingle(w);
    SplitJoin(DescriptionLines(w));
  }

  /** The site block as ets-pdf-parser.js appends it, one conditional line at a time. */
  method AppendSiteBlock(w: WorkOrder) returns (description: string)
    ensures description == SiteBlock(w)
  {
    description := SiteHeading + "\n";
    if w.siteContactName != "" {
      description := description + ("Site Contact: " + w.siteContactName + "\n");
    }
    assert description == SiteHeading + "\n" + ContactPart(w);
    if w.siteContactPhone != "" {
      description := description + ("Site Phone: " + w.siteContactPhone + "\n");
    }
    assert description == SiteHeading + "\n" + ContactPart(w) + PhonePart(w);
    if Geocoded(w) {
      description := description + ("Site Location: " + w.siteLocation.value.latitude + ", " + w.siteLocation.value.longitude + "\n");
    } else if w.siteAddress != "" {
      description := description + ("Site Address: " + w.siteAddress + "\n" + NoCoordinates + "\n");
    }
  }

  /** The task lines as the `forEach` appends them, each ended by a newline. */
  method AppendTasks(ts: seq<WorkTask>) returns (block: string)
    ensures block == TaskBlock(ts)
  {
    block := "";
    var i := 0;
    while i < |ts|
      invariant 0 <= i <= |ts|
      invariant block == TaskBlock(ts[..i])
    {
      TaskBlockStep(ts, i);
      block := block + (ts[i].taskNumber + ". " + ts[i].description + "\n");
      i := i + 1;
    }
    assert ts[..i] == ts;
  }

  /**
    The `formatJobDescription` of ets-pdf-parser.js as the code runs it: a string
    grown by `+=`, with a loop for the tasks.
  */
  method FormatSiteImperative(w: WorkOrder) returns (description: string)
    ensures description == JoinLines(DescriptionLines(w))
  {
    var site := AppendSiteBlock(w);
    var job := "\n" + JobHeading + "\n" + w.jobDescription;
    var scope := "";
    if |w.tasks| > 0 {
      var tasks := AppendTasks(w.tasks);
      scope := "\n\n" + ScopeHeading + "\n" + tasks;
    }
    var cost := "";
    if w.costLimit.Some? && w.costLimit.value != "" {
      cost := "\n" + CostHeading + "\n" + w.costLimit.value;
    }
    description := site + job + scope + cost;
    FormatSiteLines(w);
  }

  // ---------------------------------------------------------------- the plain formatter

  /** The reference layout of the plain description of src/services/ets-parser.ts. */
  function PlainLines(w: WorkOrder): seq<string> {
    [w.jobDescription] + ScopeLines(w.tasks, PlainScopeHeading) + (if Truthy(w.costLimit) then [w.costLimit.value] else [])
  }

  /** The plain `formatJobDescription`: the description, the scope and the cost limit, untitled. */
  function FormatPlain(w: WorkOrder): string {
    w.jobDescription + ScopePart(w.tasks, PlainScopeHeading) + (if Truthy(w.costLimit) then "\n" + w.costLimit.value else "")
  }

  lemma FormatPlainLines(w: WorkOrder)
    ensures FormatPlain(w) == JoinLines(PlainLines(w))
  {
    var cost := if Truthy(w.costLimit) then [w.costLimit.value] else [];
    TailLines(w.jobDescription, w.tasks, PlainScopeHeading, cost);
  }

  /** The plain description of single-line fields splits back into its reference lines. */
  lemma FormatPlainRoundTrip(w: WorkOrder)
    requires SingleLineFields(w)
    ensures SplitLines(FormatPlain(w)) == PlainLines(w)
  {
    FormatPlainLines(w);
    ScopeLinesSingle(w.tasks, PlainScopeHeading);
    var cost := if Truthy(w.costLimit) then [w.costLimit.value] else [];
    SingleLinesAppend([w.jobDescription], ScopeLines(w.tasks, PlainScopeHeading));
    SingleLinesAppend([w.jobDescription] + ScopeLines(w.tasks, PlainScopeHeading), cost);
    SplitJoin(PlainLines(w));
  }

  // ---------------------------------------------------------------- lookup tables

  /** `mappings[workType] || 'General Electrical'`. */
  function Category(workType: string): (r: string)
    ensures workType in CategoryTable ==> r == CategoryTable[workType]
    ensures r == GeneralCategory <==> workType !in CategoryTable
  {
    if workType in CategoryTable && CategoryTable[workType] != "" then CategoryTable[workType] else GeneralCategory
  }

  /** `mappings[urgency] || 'normal'`. */
  function Priority(urgency: string): (r: string)
    ensures r == "urgent" <==> urgency == Emergency
    ensures r == "high" <==> urgency == Urgent
    ensures r == NormalPriority <==> urgency != Emergency && urgency != Urgent
  {
    assert PriorityTable["emergency"] == "urgent" && PriorityTable["urgent"] == "high";
    assert urgency in PriorityTable <==> urgency in {"emergency", "urgent", "standard"};
    if urgency in PriorityTable && PriorityTable[urgency] != "" then PriorityTable[urgency] else NormalPriority
  }

  /**
    The category table is keyed by the exact label: a work type that differs
    from a key only in letter case falls back to the general category.
  */
  lemma CaseVariantsFallBack(workType: string, key: string)
    requires key in CategoryTable && Lower(workType) == Lower(key) && workType != key
    ensures Category(workType) == GeneralCategory
  {
  }

  // ---------------------------------------------------------------- the mapping

  /** `workOrder.estimatedValue || 0`. */
  function GeneratedValue(v: Option<real>): (r: real)
    ensures v.None? ==> r == 0.0
    ensures v.Some? ==> r == v.value
  {
    if v.Some? && v.value != 0.0 then v.value else 0.0
  }

  /** `convertToServiceM8Job` of the given copy. */
  function ToJobRecord(w: WorkOrder, copy: Copy): (r: JobRecord)
    ensures r.jobNumber == w.orderNumber && r.etsOrderNumber == w.orderNumber
    ensures r.jobAddress == w.siteAddress && r.jobContactName == w.siteContactName
    ensures r.jobContactPhone == w.siteContactPhone && r.customerName == w.customerName
    ensures r.jobDescription == (if copy == AppServiceCopy then FormatPlain(w) else FormatSite(w))
    ensures copy == AppServiceCopy <==> r.geocoded.None?
    ensures copy != AppServiceCopy ==> (r.geocoded == Some(Geocoded(w)) && (r.jobLatitude.Some? <==> w.siteLocation.Some?))
    ensures copy != AppServiceCopy && w.siteLocation.Some? ==>
      r.jobLatitude == Some(w.siteLocation.value.latitude) && r.jobLongitude == Some(w.siteLocation.value.longitude)
    ensures copy == AppServiceCopy || w.siteLocation.None? ==> r.jobLatitude.None? && r.jobLongitude.None?
    ensures r.categoryName == Category(w.workType) && r.jobPriority == Priority(w.urgency)
    ensures r.jobIsEmergency <==> w.urgency == Emergency
    ensures r.jobIsEmergency <==> r.jobPriority == "urgent"
    ensures r.requiresJsa == w.requiresJSA && r.requiresSwms == w.requiresSWMS
    ensures r.generatedValue == w.estimatedValue.GetOr(0.0)
    ensures r.costLimit == w.costLimit && r.etsWorkType == w.workType
    ensures r.source == (if copy == RealParserCopy then "ETS PDF Parser" else "ETS Email Integration")
    ensures r.createdBy == "PDF Parser"
  {
    var geocodes := copy != AppServiceCopy;
    JobRecord(
      jobNumber := w.orderNumber,
      jobAddress := w.siteAddress,
      jobContactName := w.siteContactName,
      jobContactPhone := w.siteContactPhone,
      jobDescription := if geocodes then FormatSite(w) else FormatPlain(w),
      customerName := w.customerName,
      jobLatitude := if geocodes && w.siteLocation.Some? then Some(w.siteLocation.value.latitude) else None,
      jobLongitude := if geocodes && w.siteLocation.Some? then Some(w.siteLocation.value.longitude) else None,
      geocoded := if geocodes then Some(w.siteLocation.Some? && w.siteLocation.value.geocoded) else None,
      categoryName := Category(w.workType),
      jobPriority := Priority(w.urgency),
      jobIsEmergency := w.urgency == Emergency,
      generatedValue := GeneratedValue(w.estimatedValue),
      etsOrderNumber := w.orderNumber,
      etsWorkType := w.workType,
      requiresJsa := w.requiresJSA,
      requiresSwms := w.requiresSWMS,
      costLimit := w.costLimit,
      source := if copy == RealParserCopy then "ETS PDF Parser" else "ETS Email Integration",
      createdBy := "PDF Parser")
  }

  // ---------------------------------------------------------------- the sample order

  /** The sample order of ets-pdf-parser-test/test.js. */
  const SampleOrder: WorkOrder := WorkOrder(
    orderNumber := "PO1529-MS01-001",
    date := "",
    contractor := "",
    siteContactName := "Lynda M Harraway",
    siteAddress := "105 Hunter St, Burringbar NSW 2483",
    siteContactPhone := "0407840570",
    siteLocation := Some(Location("-28.5125", "153.5075", true)),
    customerName := "EMERGENCY TRADE SERVICES Pty Ltd",
    workType := "Electrical MS",
    jobDescription := "Please attend site to repair electrical fault.",
    estimatedValue := Some(450.0),
    costLimit := Some("strictly $250 + GST cost limit"),
    tasks := [WorkTask("1.1", "Investigate fault", false), WorkTask("1.2", "Repair components", false)],
    requiresJSA := true,
    requiresSWMS := false,
    urgency := "urgent",
    etsPhone := "1300 755 455",
    etsEmail := "admin@etsaus.com.au")

  lemma SampleContactLine()
    ensures ContactLines(SampleOrder) == ["Site Contact: Lynda M Harraway"]
  {
    assert "Site Contact: " + "Lynda M Harraway" == "Site Contact: Lynda M Harraway";
  }

  lemma SamplePhoneLine()
    ensures PhoneLines(SampleOrder) == ["Site Phone: 0407840570"]
  {
    assert "Site Phone: " + "0407840570" == "Site Phone: 0407840570";
  }

  lemma SampleLocationLine()
    ensures PlaceLines(SampleOrder) == ["Site Location: -28.5125, 153.5075"]
  {
    assert "Site Location: " + "-28.5125" + ", " + "153.5075" == "Site Location: -28.5125, 153.5075";
  }

  lemma SampleSiteLines()
    ensures SiteLines(SampleOrder) == [SiteHeading, "Site Contact: Lynda M Harraway", "Site Phone: 0407840570",
                                       "Site Location: -28.5125, 153.5075"]
  {
    SampleContactLine();
    SamplePhoneLine();
    SampleLocationLine();
  }

  lemma SampleFirstTask()
    ensures TaskLine(SampleOrder.tasks[0]) == "1.1. Investigate fault"
  {
    assert "1.1" + ". " + "Investigate fault" == "1.1. Investigate fault";
  }

  lemma SampleSecondTask()
    ensures TaskLine(SampleOrder.tasks[1]) == "1.2. Repair components"
  {
    assert "1.2" + ". " + "Repair components" == "1.2. Repair components";
  }

  lemma SampleTaskLines()
    ensures TaskLines(SampleOrder.tasks) == ["1.1. Investigate fault", "1.2. Repair components"]
  {
    SampleFirstTask();
    SampleSecondTask();
  }

  /** The reference lines of the sample: coordinates instead of the address, two tasks, the cost limit. */
  lemma SampleLines()
    ensures DescriptionLines(SampleOrder) == [
      SiteHeading,
      "Site Contact: Lynda M Harraway",
      "Site Phone: 0407840570",
      "Site Location: -28.5125, 153.5075",
      "",
      JobHeading,
      "Please attend site to repair electrical fault.",
      "",
      ScopeHeading,
      "1.1. Investigate fault",
      "1.2. Repair components",
      "",
      CostHeading,
      "strictly $250 + GST cost limit"]
  {
    SampleSiteLines();
    SampleTaskLines();
  }

  /** The geocoding copies describe a job by the reference layout, joined. */
  lemma GeocodingDescription(w: WorkOrder, copy: Copy)
    requires copy != AppServiceCopy
    ensures ToJobRecord(w, copy).jobDescription == JoinLines(DescriptionLines(w))
  {
    FormatSiteLines(w);
  }

  lemma SampleLayout()
    ensures |DescriptionLines(SampleOrder)| == 14 && DescriptionLines(SampleOrder)[3] == "Site Location: -28.5125, 153.5075"
  {
    SampleLines();
  }

  lemma SampleClassification()
    ensures ToJobRecord(SampleOrder, StandaloneCopy).categoryName == "Emergency Electrical"
    ensures ToJobRecord(SampleOrder, StandaloneCopy).jobPriority == "high"
    ensures !ToJobRecord(SampleOrder, StandaloneCopy).jobIsEmergency
  {
  }

  /** The record test.js prints: the sectioned description of the sample, `Emergency Electrical`, `high`. */
  lemma SampleRecord()
    ensures ToJobRecord(SampleOrder, StandaloneCopy).jobDescription == JoinLines(DescriptionLines(SampleOrder))
    ensures |DescriptionLines(SampleOrder)| == 14 && DescriptionLines(SampleOrder)[3] == "Site Location: -28.5125, 153.5075"
    ensures ToJobRecord(SampleOrder, StandaloneCopy).categoryName == "Emergency Electrical"
    ensures ToJobRecord(SampleOrder, StandaloneCopy).jobPriority == "high"
    ensures !ToJobRecord(SampleOrder, StandaloneCopy).jobIsEmergency
  {
    GeocodingDescription(SampleOrder, StandaloneCopy);
    SampleLayout();
    SampleClassification();
  }
}
