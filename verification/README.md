# ETS work orders to ServiceM8 jobs, in Dafny

This project models the work-order pipeline of the ETS/ServiceM8 integration.

- Text extracted from a partner's PDF work order is turned into a structured
  `WorkOrder` by one of two parsers:
  - the test parser in `ets-pdf-parser-test/pdf-parser-real.js`, which geocodes the site address;
  - the production parser in `src/services/ets-parser.ts`, which refuses documents that do not name the partner.
- The order is mapped to a ServiceM8 job record by the `convertToServiceM8Job` mapper and its description formatter.
  The source holds four copies of them, which differ only in the provenance tag, in the formatter used and in whether coordinates are kept.
- The job-creation path of `src/services/servicem8.ts` is modelled:
  - conversion of extracted PDF fields into a job;
  - validation and the request body;
  - generated job notes;
  - the request gate of `createJob`;
  - the customer company-name fallback.
- Role resolution (`useUserRole`) and theme settings (`ThemeContext`) are modelled too.

Modules, leaf first:

| module | file | what it holds |
|---|---|---|
| `Wrappers` | wrappers.dfy | `Option` and `Result` |
| `JsText` | js_text.dfy | the JavaScript string operations the code relies on |
| `JsNumber` | js_number.dfy | `parseFloat` on a decimal prefix |
| `Matching` | matching.dfy | regex candidates and first-match chains |
| `WorkOrders` | work_orders.dfy | the shared `WorkOrder` record and partner constants |
| `Keywords` | keywords.dfy | keyword containment |
| `RealParser` | real_parser.dfy | the test parser with geocoding |
| `EtsParser` | ets_parser.dfy | the production parser |
| `Integration` | integration.dfy | formatters, lookup tables and the job mapper |
| `ServiceM8` | servicem8.dfy | job creation |
| `UserRole` | user_role.dfy | role resolution |
| `ThemeContext` | theme_context.dfy | theme settings |
| `Pipeline` | pipeline.dfy | properties across parser and mapper |

`JsText` models these JavaScript string operations:
- `trim` and `\s`, with the full ECMAScript whitespace set;
- `toLowerCase` and `/i` matching, on ASCII letters only;
- `length`, counted in UTF-16 code units;
- `split('\n')` and `join('\n')`;
- the `label.*$` cut used to strip spill-over labels.

Regular expressions are not re-implemented. A `Scan` records what each regex of the two parsers captures from the text:
- group 1, or the whole match for the patterns that have no group;
- the captures of the global `$` pattern;
- the two task-list match lists.

Each extractor is then the code's ordered candidate chain over those captures, with its clean-up, validity test and fallback.

Inputs that come from outside are parameters:
- the clock reading;
- the geocoder's answer;
- the ServiceM8 endpoint's answer;
- `JSON.parse` of stored theme settings;
- the base palette of each theme.

Behaviour modelled as written, where the code differs from a plain reading of its intent:

- Both parsers read element `[1]` of a global `$` match.
  - That is the second whole match, which starts with `$`, so `parseFloat` gives `NaN`.
  - The candidate therefore never contributes.
  - `RealParser.GlobalValueCandidateIsDead` and `EtsParser.GlobalValueCandidateIsDead` prove the value extraction equals the chain without it.
- The `Please attend` description candidate has no capture group.
  - When it is the first candidate to match, `match[1].trim()` throws.
  - The test parser reports that as `Failed to parse PDF: ` plus the message.
  - The production parser lets the exception through.
  - So a document can fail on this one field, although every other field falls back to its default.
- The test parser compares the lower-cased text with the urgency keywords as written.
  - So `ASAP` never matches.
  - Its urgency is `urgent` exactly when `emergency`, `urgent` or `immediately` occurs.
  - It never yields `emergency`, so the emergency-first priority chain exists only in the production parser.
- The test parser's geocoding guard skips addresses shorter than 5 UTF-16 code units.
  - The extracted address must still be longer than 5 to be accepted.
  - So the lookup is skipped only for the sentinel (`RealParser.OnlySentinelSkips`).
- The production parser's estimated value is any positive amount, with no upper bound. The test parser keeps the bound of 10,000.
- The job notes keep the characters the source file holds: emoji that were decoded as Mac Roman and saved again.
  - They also keep its literal generator line.
- The role hook tests the stored test role for truthiness, not for presence.
  - An empty stored test role therefore falls through to the email (`UserRole.GetUserRole`).

## Model

| member | source | states |
|---|---|---|
| RealParser.ParseWorkOrder | ets-pdf-parser-test/pdf-parser-real.js:6-55 | parsing fails exactly when text extraction fails or the description extractor throws, every failure message starts with `Failed to parse PDF: `, and every parsed order has the partner as customer, sentinel-or-valid contact, address and phone, a location that is geocoded or (0,0,false) and always (0,0,false) for the address sentinel, a known work type, a description that is the fallback or longer than 10, a value of 0 or in (0, 10000), urgency urgent or standard, and the partner mailbox; a parsed order is the record assembled from the text and the description |
| RealParser.AssembleOrder | ets-pdf-parser-test/pdf-parser-real.js:17-38 | each field of the order is its own extractor's result, and the location is the geocoder's answer for the order's own address |
| RealParser.GeocodeAddress | ets-pdf-parser-test/pdf-parser-real.js:57-108 | guarded addresses are never looked up; an address is geocoded exactly when the lookup answers with at least one row, and then takes the first row's coordinates; every other outcome (HTTP error, no rows, bad body, network failure) gives (0,0,false) |
| RealParser.OnlySentinelSkips | ets-pdf-parser-test/pdf-parser-real.js:58-64 | for any extracted address the geocoding guard fires exactly when the address is the not-found sentinel |
| RealParser.CleanContactName | ets-pdf-parser-test/pdf-parser-real.js:164-168 | the cleaned contact name never contains a newline |
| RealParser.ExtractSiteContactName | ets-pdf-parser-test/pdf-parser-real.js:155-174 | the contact name is the sentinel or a single-line name longer than 2 code units, and it is the first candidate that survives cleaning and the length test |
| RealParser.ContactNameHasNoLabels | ets-pdf-parser-test/pdf-parser-real.js:164-168 | when the capture has no stray line terminator, the cleaned contact name contains neither `phone:` nor `address:` in any case |
| RealParser.JoinedHasNoTerminator | ets-pdf-parser-test/pdf-parser-real.js:166 | replacing newlines in a trimmed capture without other terminators leaves no line terminator |
| RealParser.CutAndTrim | ets-pdf-parser-test/pdf-parser-real.js:167-168 | cutting `label.*$` removes every occurrence of the label and keeps the string free of terminators and of any fragment it lacked |
| RealParser.CutAndTrimFirst | ets-pdf-parser-test/pdf-parser-real.js:167 | after the `Phone:` cut the text holds no `phone:` in any case |
| RealParser.CleanAddress | ets-pdf-parser-test/pdf-parser-real.js:185-189 | the cleaned address never contains a newline |
| RealParser.ExtractSiteAddress | ets-pdf-parser-test/pdf-parser-real.js:176-194 | the address is the sentinel or a single-line address longer than 5 code units, taken from the first candidate that survives |
| RealParser.AddressHasNoLabels | ets-pdf-parser-test/pdf-parser-real.js:185-189 | when the capture has no stray line terminator, the cleaned address contains neither `phone:` nor `contact:` |
| RealParser.ExtractSiteContactPhone | ets-pdf-parser-test/pdf-parser-real.js:196-217 | the phone is the sentinel or digits and whitespace only with at least 10 digits; it is the cleaned capture of the first candidate, in list order, that matched and keeps at least 10 digits after cleaning, a capture with fewer digits falling through to the next; and it is the sentinel when no candidate keeps 10 digits |
| RealParser.EnoughDigitsCountsDigits | ets-pdf-parser-test/pdf-parser-real.js:209-210 | the length test on the space-stripped phone is the same as counting at least 10 digits |
| RealParser.DroppedAreDigits | ets-pdf-parser-test/pdf-parser-real.js:209-210 | stripping spaces from a digits-and-spaces string leaves digits only |
| RealParser.AsciiUtf16Length | ets-pdf-parser-test/pdf-parser-real.js:210 | for characters of the basic plane the UTF-16 length is the character count |
| RealParser.ExtractWorkType | ets-pdf-parser-test/pdf-parser-real.js:219-236 | the generic label exactly when no work-type label occurs ignoring case, else one of the six labels as listed |
| RealParser.ExtractJobDescription | ets-pdf-parser-test/pdf-parser-real.js:238-258 | extraction throws exactly when the two labelled candidates yield nothing acceptable and the group-less `Please attend` candidate matches; the first labelled candidate whose cleaned capture is longer than 10 gives the description; with neither accepted and no `Please attend` match, the `Work Required` candidate is tried before the fallback sentence; every result is the fallback or a single-spaced text longer than 10 |
| RealParser.ExtractEstimatedValue | ets-pdf-parser-test/pdf-parser-real.js:260-276 | the value is 0 or in (0, 10000), and 0 exactly when no candidate parses to an amount in range |
| RealParser.GlobalValueCandidateIsDead | ets-pdf-parser-test/pdf-parser-real.js:264 | the global `$` candidate never yields, so the value is that of the other two candidates |
| RealParser.DetermineJsaRequirement | ets-pdf-parser-test/pdf-parser-real.js:299-309 | JSA is required exactly when some indicator occurs ignoring case |
| RealParser.DetermineSwmsRequirement | ets-pdf-parser-test/pdf-parser-real.js:311-321 | SWMS is required exactly when some indicator occurs ignoring case |
| RealParser.DetermineUrgency | ets-pdf-parser-test/pdf-parser-real.js:323-332 | urgency is urgent or standard, urgent exactly when `emergency`, `urgent` or `immediately` occurs ignoring case (the upper-case `ASAP` keyword can never match) |
| EtsParser.ParseWorkOrder | src/services/ets-parser.ts:50-78 | extraction failures propagate unchanged, a document not naming the partner fails with `Document is not an ETS work order`, the description extractor's exception propagates, and every parsed order has the partner as customer, no location, a positive or absent value, one of the three urgencies and the partner phone and mailbox; a parsed order is the record assembled from the text and the description |
| EtsParser.AssembleOrder | src/services/ets-parser.ts:59-77 | each single-pattern field is its trimmed capture or empty, and the work type, value, cost limit, tasks, JSA and SWMS flags and urgency are their extractors' results |
| EtsParser.CaptureOrEmpty | src/services/ets-parser.ts:85-113 | a single-pattern field is a part of its capture with no whitespace left to trim, and empty when the pattern does not match |
| EtsParser.ExtractWorkType | src/services/ets-parser.ts:115-130 | the work type is the generic label exactly when no label occurs ignoring case; otherwise it is the first occurrence in the document, as written there, of the first of the four labels in list order that occurs |
| EtsParser.EarlierCasingWins | src/services/ets-parser.ts:124-126 | when a label appears twice in different casings, the work type is the earlier casing, as `match[0]` returns it |
| EtsParser.ExtractJobDescription | src/services/ets-parser.ts:132-146 | extraction throws exactly when the two labelled candidates do not match and the group-less candidate does; otherwise the first labelled candidate that matches gives its trimmed capture, and no match at all gives the empty string; a description never has whitespace left to trim |
| EtsParser.ExtractEstimatedValue | src/services/ets-parser.ts:148-165 | the value is positive when present, and absent exactly when no candidate parses to a positive amount |
| EtsParser.GlobalValueCandidateIsDead | src/services/ets-parser.ts:152 | the global `$` candidate never yields, so the value is that of the other two candidates |
| EtsParser.DetermineJsaRequirement | src/services/ets-parser.ts:190-201 | JSA is required exactly when some indicator occurs ignoring case |
| EtsParser.DetermineSwmsRequirement | src/services/ets-parser.ts:203-215 | SWMS is required exactly when some indicator occurs ignoring case |
| EtsParser.DetermineUrgency | src/services/ets-parser.ts:217-232 | emergency exactly when an emergency-tier keyword occurs, urgent exactly when none does but an urgent-tier keyword does, standard otherwise |
| EtsParser.LegalNameMeansEmergency | src/services/ets-parser.ts:80-83 | a text naming the partner's legal entity is always classified emergency |
| EtsParser.MarkedOrdersAreEmergencies | src/services/ets-parser.ts:217-232 | every order parsed from a document naming the legal entity is an emergency |
| Matching.FirstNumber | src/services/ets-parser.ts:148-165 | the number of the first candidate, in list order, whose number passes the test is the amount; no amount exactly when none does |
| Matching.DollarCandidateNeverYields | src/services/ets-parser.ts:152-160 | a capture starting with `$` never parses to a number |
| Matching.FirstNumberIgnoresBarren | ets-pdf-parser-test/pdf-parser-real.js:260-276 | removing a candidate that cannot yield leaves the first-number result unchanged |
| Matching.Chain | ets-pdf-parser-test/pdf-parser-real.js:163-173 | a candidate chain gives the cleaned capture of the first candidate that matched non-empty and passes the test, the fallback when no candidate does, and otherwise always a value passing the test |
| JsNumber.ParseDigits | src/services/ets-parser.ts:159 | `parseFloat` of a digit string is its decimal value |
| JsNumber.DollarIsNaN | src/services/ets-parser.ts:159 | `parseFloat` of a string starting with `$` is `NaN` |
| JsText.FindIgnoringCase | src/services/ets-parser.ts:124-126 | a case-insensitive literal pattern matches exactly when the lower-cased text contains the lower-cased literal, and its whole match is the text at the leftmost such position, in the document's own casing |
| JsText.Trim | src/services/ets-parser.ts:85-113 | `trim` returns a part of the input with no whitespace at either end |
| JsText.TrimIdempotent | src/services/ets-parser.ts:85-113 | trimming twice is trimming once |
| JsText.SplitJoin | src/services/servicem8.ts:291 | splitting joined single-line lines on newlines gives the lines back |
| JsText.JoinSplit | src/services/servicem8.ts:291 | joining the pieces of a split gives the string back |
| Keywords.AnyContained | src/services/ets-parser.ts:190-201 | some keyword matches exactly when one of the list occurs |
| Keywords.FirstContained | ets-pdf-parser-test/pdf-parser-real.js:219-236 | the first label of the list that occurs, and none exactly when no label occurs |
| Keywords.FirstLabel | ets-pdf-parser-test/pdf-parser-real.js:219-236 | the first label found when text and labels are both lower-cased; no label exactly when none occurs that way |
| Keywords.MatchedLiteral | src/services/ets-parser.ts:234-242 | a literal-pattern extractor always yields the literal |
| WorkOrders.ToTasks | ets-pdf-parser-test/pdf-parser-real.js:283-297 | tasks keep the document order, one per match, each with its number and trimmed description, and a task is conditional exactly when its text contains `if you cannot` ignoring case |
| Integration.FormatSiteLines | ets-pdf-parser-test/pdf-parser-real.js:372-405 | the formatted description is the site block, the job section, the scope section when there are tasks and the cost section when there is a cost limit, joined by newlines in that fixed order |
| Integration.FormatSiteRoundTrip | ets-pdf-parser-test/pdf-parser-real.js:372-405 | when no field holds a newline, splitting the description on newlines recovers exactly the section lines, so no field is reordered, merged or lost |
| Integration.FormatSiteImperative | ets-pdf-parser-test/ets-pdf-parser.js:29-62 | the imperative line-pushing copy of the formatter yields the same description as the reference section layout |
| Integration.AppendSiteBlock | ets-pdf-parser-test/ets-pdf-parser.js:31-46 | the conditional `+=` lines build the site block: the heading, the contact and phone lines when present, then the coordinates when geocoded or else the address with the no-coordinates notice |
| Integration.AppendTasks | ets-pdf-parser-test/ets-pdf-parser.js:53-55 | the `forEach` appends one terminated `number. description` line per task, in order |
| Integration.FormatPlainLines | src/services/ets-parser.ts:284-299 | the production formatter prints the description, then the scope section when there are tasks, then the cost section when there is a cost limit |
| Integration.FormatPlainRoundTrip | src/services/ets-parser.ts:284-299 | when no field holds a newline, splitting the production description recovers exactly its section lines |
| Integration.Category | ets-pdf-parser-test/pdf-parser-real.js:407-416 | a work type in the table gets its category, and the generic category is given exactly to work types outside the table |
| Integration.CaseVariantsFallBack | ets-pdf-parser-test/pdf-parser-real.js:407-416 | the table lookup is case-sensitive: a case variant of a listed work type gets the generic category |
| Integration.Priority | ets-pdf-parser-test/pdf-parser-real.js:418-426 | priority is urgent exactly for emergency, high exactly for urgent, normal for everything else |
| Integration.GeneratedValue | ets-pdf-parser-test/pdf-parser-real.js:361 | the generated value is the estimate, or 0 when there is none |
| Integration.ToJobRecord | ets-pdf-parser-test/pdf-parser-real.js:347-370 | the record carries the order's number, address, contact, customer, cost limit, work type and JSA/SWMS flags; the description comes from the copy's formatter; the geocoding copies carry the location's coordinates exactly when the order has a location, the production copy never; the category and priority are the table lookups of the work type and urgency; the job is an emergency exactly when the urgency is `emergency`, which is exactly when the priority is urgent; the provenance tag depends on the copy |
| Integration.SampleRecord | ets-pdf-parser-test/test.js:4-24 | the sample order maps to a 14-line description with the location on line 4, category Emergency Electrical, priority high, not an emergency |
| Pipeline.RealParserJobsAreNotEmergencies | ets-pdf-parser-test/pdf-parser-real.js:323-332 | a job made from a test-parser order is never an emergency and never has the urgent priority, and the geocoding copies always carry coordinates |
| Pipeline.LegalNameJobsAreUrgent | src/services/ets-parser.ts:217-232 | a job made from a production-parser order of a document naming the legal entity is an emergency with the urgent priority |
| ServiceM8.ValidateJob | src/services/servicem8.ts:198-212 | a job is valid exactly when it has an address, a description and some customer name; otherwise the first missing item names the error, in that order |
| ServiceM8.TransformJob | src/services/servicem8.ts:217-254 | the body is active unless `active` is explicitly false, copies address, description and customer fields, carries the generated notes, and holds each optional field exactly when it is truthy, with the job's own value |
| ServiceM8.UrgencyMarker | src/services/servicem8.ts:271-272 | Critical and Urgent get their own markers, and every other urgency gets the standard one |
| ServiceM8.NoteEntries | src/services/servicem8.ts:259-292 | one note per truthy field, then the generator entry starting with a newline, then the creation stamp last |
| ServiceM8.JobNotesLines | src/services/servicem8.ts:259-292 | when no field holds a newline, the notes split into the field notes in order, a blank line, the generator line and the creation stamp |
| ServiceM8.CreateJob | src/services/servicem8.ts:65-108 | an invalid job is answered with the validation message; otherwise success exactly when the endpoint creates the job, and any failure has an error and no job |
| ServiceM8.Report | src/services/servicem8.ts:87-107 | success exactly when the endpoint created the job, which is then returned; a rejection or a raised error gives an error message and no job, `Network error: ` with the message or `Unknown error` for a raised one |
| ServiceM8.InvalidJobSendsNothing | src/services/servicem8.ts:67-71 | for an invalid job the result does not depend on the endpoint at all, so no request is sent |
| ServiceM8.RejectionReportsStatus | src/services/servicem8.ts:87-93 | a rejected request reports a decimal status that reads back as the status code |
| ServiceM8.DecimalString | src/services/servicem8.ts:91 | the printed status is a non-empty digit string whose value is the status |
| ServiceM8.CustomerCompanyName | src/services/servicem8.ts:130 | the company name is the company when truthy, else the trimmed first and last name |
| ServiceM8.MissingNamePrintsUndefined | src/services/servicem8.ts:130 | without a company and with a name part missing, the company name contains the word `undefined` |
| ServiceM8.ConvertPdfToJob | src/services/servicem8.ts:311-339 | a converted job is always active, takes each field from its first truthy source or the default, always has an urgency and a job type, and has no schedule or category |
| ServiceM8.ConvertedJobBody | src/services/servicem8.ts:219-251 | the request body of a converted PDF is active, has no schedule or category, and carries a job value exactly when the PDF's job value or total cost is non-zero, taken in that order, so a zero amount is omitted |
| ServiceM8.ConvertedJobValidity | src/services/servicem8.ts:311-339 | a converted PDF passes validation exactly when it has a location or address, a description or scope, and a customer, company, first or last name |
| ServiceM8.ConvertedJobNotes | src/services/servicem8.ts:262-274 | without reference or urgency, a converted job's notes start with the type line and the standard-urgency line |
| UserRole.InitialTestRole | src/hooks/useUserRole.ts:9-15 | in a browser the test role starts as the stored entry; without a window it starts empty |
| UserRole.EmailRole | src/hooks/useUserRole.ts:21-31 | admin exactly when the email contains the admin domain, reviewer exactly when it does not but contains the reviewer marker, subcontractor otherwise or without an email |
| UserRole.GetUserRole | src/hooks/useUserRole.ts:17-32 | a non-empty test role always wins; otherwise the email decides |
| UserRole.ResolvedRole | src/hooks/useUserRole.ts:34 | a role is resolved exactly when the session is authenticated and has a user |
| UserRole.Flags | src/hooks/useUserRole.ts:51-53 | each flag holds exactly when the resolved role is that role |
| UserRole.FlagsExclusive | src/hooks/useUserRole.ts:51-53 | at most one flag holds, and none without a role or with a stored role that is not one of the three |
| UserRole.SetTestRole | src/hooks/useUserRole.ts:37-40 | the role is kept in memory and in storage, and the session is untouched |
| UserRole.ClearTestRole | src/hooks/useUserRole.ts:43-46 | the role is removed from memory and storage, and the session is untouched |
| UserRole.SetTestRoleWins | src/hooks/useUserRole.ts:37-40 | after setting a role it is the resolved role, also after a reload reads it back from storage |
| UserRole.ClearTestRoleUsesEmail | src/hooks/useUserRole.ts:43-46 | after clearing, the role is resolved from the email again |
| UserRole.AdminBeforeReviewer | src/hooks/useUserRole.ts:23-29 | an email with both markers resolves to admin |
| ThemeContext.ThemeOf | src/context/ThemeContext.tsx:29 | exactly the three theme keys name a theme, and each names the theme with that key |
| ThemeContext.KeyRoundTrip | src/context/ThemeContext.tsx:29 | every theme is found again under its own key |
| ThemeContext.LoadSettings | src/context/ThemeContext.tsx:22-40 | nothing stored, a parse failure, a missing or unknown theme all give the defaults and drop stored overrides; a known theme keeps its stored overrides, or none when they are falsy |
| ThemeContext.Merge | src/context/ThemeContext.tsx:47-51 | the merged keys are both key sets, override keys take the override value, all others keep the base value |
| ThemeContext.SetTheme | src/context/ThemeContext.tsx:68 | the theme changes and the overrides stay |
| ThemeContext.UpdateOverride | src/context/ThemeContext.tsx:69-74 | the token gets the value and every other override is unchanged |
| ThemeContext.ResetOverrides | src/context/ThemeContext.tsx:75 | the overrides are emptied and the theme stays |
| ThemeContext.ResetAppliesBase | src/context/ThemeContext.tsx:47-51 | after a reset the applied variables are exactly the theme's own |
| ThemeContext.UpdateApplied | src/context/ThemeContext.tsx:69-74 | after an update the token shows its new value and every other applied variable is unchanged |
| ThemeContext.UpdateOverrideLastWins | src/context/ThemeContext.tsx:69-74 | updating a token twice keeps only the second value |
| ThemeContext.SetThemeKeepsOverrides | src/context/ThemeContext.tsx:68 | switching theme puts the same overrides on the new palette |

## Left out

- PDF-to-text extraction (`pdf-parse`) is a parameter. Its success or failure and its text are inputs.
- Regex evaluation is abstracted: each pattern's capture is an input of `Scan`. The models do not prove that a capture matches its pattern.
- The HTTP requests are parameters: the geocoder lookup and the ServiceM8 job endpoint. Their URLs, headers and query strings are not modelled.
- Logging is not modelled.
- The clock is a parameter. The generated order number, the default date and the notes' creation stamp take it as rendered text.
- Number-to-string conversion of coordinates is not modelled. Coordinates are kept as the printed strings they become in the description.
- `parseFloat` is modelled for signs, digits and a fraction only. Exponents and `Infinity` are not, and neither are floating-point rounding, `NaN` arithmetic or `NaN` job values.
- `toLowerCase` is modelled for ASCII letters only. The keyword lists and labels are ASCII, but text outside ASCII is not case-folded.
- RealParser.ContactNameHasNoLabels: proved only for captures without stray line terminators. A capture such as `X Phone: a` + CR + `Address: b` keeps `Address:` because the `.*$` cut stops at the carriage return.
- RealParser.AddressHasNoLabels: proved only for captures without stray line terminators, for the same reason.
- The lookup tables are modelled as maps. Keys inherited from `Object.prototype`, such as `constructor`, are not modelled. The same holds for the theme table's lookup of a stored theme name.
- ServiceM8.CreateJob: a 2xx answer whose body is not JSON is modelled as a raised error, which the code reports the same way as a network error.
- ServiceM8.ConvertPdfToJob: the extracted-PDF object is untyped in the source. The model takes optional strings and numbers, so non-string values are not modelled.
- ThemeContext.LoadSettings: the parsed value is reduced to an optional theme string and optional overrides. A stored `theme` that is not a string is treated as unknown. Truthy overrides that are not a map are not modelled.
- The services' other API calls, the mail poller, the React components and the Supabase client are not part of this model.
- Persisting theme settings to local storage, and applying CSS variables to the document, are not part of this model.
- The `ServiceM8Service` constructor's configuration is not part of this model.
