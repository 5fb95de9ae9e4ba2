# OrbitEd core, modelled in Dafny

OrbitEd is a browser dashboard for satellite tracking and space education. This project models its deterministic logic and proves properties of it. The model has one Dafny module per source file, plus two shared modules. `Common` holds Option/Result, a JavaScript-like `Value`, string helpers and JavaScript `slice` semantics. `TimeFormat` holds the time-ago and duration formatters, which several components copy word for word.

- **Validators.**
  - `Security`: the API-key check, `sanitizeInput`, the sliding-window `RateLimiter` and the expiring `secureStorage`.
  - `TriggerValidator`: the trigger request, response and flow-id validators, and the id-format classifier.
  - `MetricsValidator`: the metrics parameter, response, workflow and user-metrics validators, and the mock response.
  - `Patterns`: the UUID and `YYYY-MM-DD` shape checks, written by hand as character-class predicates.
- **Services.**
  - `WorqhatService`: the checks made before a request, request paths and query strings, and normalisation of responses and errors.
  - `SatelliteAiService`: parsing of AI replies into insights, facts and quiz questions, and the recommendation lists.
  - `AuthService`: the mock credential store, modelled as a stored-user cell.
- **Hooks and components.**
  - Each React component with state is a class. Its state variables are fields, and each event handler is one atomic method.
  - These are the metrics hook, the quiz, facts and notification widgets, the workflow executor, the three chat assistants, the ISS tracker, the globe's ground-track trail, the workflow manager, the metrics page and widget, the route guard and the main layout.
- **Pages.** The user table, the satellite catalogue, the article library and the sandbox's altitude feedback.

Effects are parameters. HTTP replies, AI replies, the stored user, the wall clock (`now`, in milliseconds) and the answer of a confirmation dialog are all passed in. Library behaviour is also a parameter, or an uninterpreted function: `Date` parsing, `JSON.parse`/`JSON.stringify`, `toFixed`, `toLocale*` and URL encoding.

Orbit propagation and geodetic conversion are done by the satellite.js library (src/components/MapboxGlobe.tsx:132-146). The model covers only the bookkeeping around them: each tick's fix, which may be missing, is an input. The model follows the code wherever the code's comments say otherwise. One example is EnhancedAiTutor.tsx:42-46: its comment says four exchanges are kept, but the code keeps four entries, and the model keeps four entries.

## Model

| member | source | states |
|---|---|---|
| Patterns.UuidIsIdToken | src/utils/workflowTriggerValidator.ts:58 | a string of the 8-4-4-4-12 UUID layout (version digit 1-5, variant digit 8/9/a/b, any letter case) is 36 characters of letters, digits and hyphens, so it also passes the id-token class |
| Patterns.DateShapeLayout | src/utils/worqhatApiValidator.ts:11 | a `\d{4}-\d{2}-\d{2}` shaped string has hyphens at positions 4 and 7, digits at both ends, and is never a UUID |
| Security.ValidateApiKey | src/utils/security.ts:24-38 | the key is accepted exactly when it starts with `wqh_` and is at least 20 characters long |
| Security.StripAngleBrackets | src/utils/security.ts:43 | the result has no `<` and no `>` and only deletes characters of its input |
| Security.StripScriptScheme | src/utils/security.ts:44 | the single left-to-right, case-insensitive deletion of `javascript:` only deletes characters |
| Security.WordRunEnd | src/utils/security.ts:45 | the `\w+` run that starts at a position ends at the first non-word character or at the end |
| Security.HandlerMatchLength | src/utils/security.ts:45 | a match of `on\w+=` is at least four characters long and ends with `=` |
| Security.StripEventHandlers | src/utils/security.ts:45 | deleting every `on\w+=` match only deletes characters |
| Security.StripPasses | src/utils/security.ts:43-45 | the three `replace` passes together leave no `<` or `>` and only delete characters of the input |
| Security.SanitizeInput | src/utils/security.ts:41-47 | the sanitised text has no `<` or `>`, is a subsequence of the input and never longer, and has no leading or trailing whitespace |
| Security.ScanStep | src/utils/security.ts:44 | where no `javascript:` match starts at the head, the head is kept and the scan resumes one character later |
| Security.ShortUnchanged | src/utils/security.ts:44 | a text shorter than `javascript:` passes the scheme deletion unchanged |
| Security.KeepFirst | src/utils/security.ts:44 | a head character other than `j`/`J` is always kept |
| Security.LeadingSchemeDeleted | src/utils/security.ts:44 | a leading `javascript:` followed by a short tail is deleted and the tail kept |
| Security.KeepAva | src/utils/security.ts:44 | a leading `ava` is kept in front of whatever the rest becomes |
| Security.KeepLeadingJ | src/utils/security.ts:44 | a leading `j` at which no case-insensitive `javascript:` starts is kept, and the scan goes on after it |
| Security.SecondJBreaksScheme | src/utils/security.ts:44 | no occurrence starts at a `j` whose fourth following character is another `j` |
| Security.NestedSchemeSurvives | src/utils/security.ts:44 | the single pass turns `javajavascript:script:` into `javascript:`, so the scheme can survive sanitising |
| Security.InWindow | src/utils/security.ts:63-65 | a stored timestamp survives exactly when it is less than `windowMs` old, in stored order |
| Security.RateLimiter.constructor | src/utils/security.ts:50-56 | a new limiter keeps its limit and window and holds no history |
| Security.RateLimiter.IsAllowed | src/utils/security.ts:58-74 | the request is allowed exactly when fewer than `maxRequests` stored timestamps are inside the window; on allow the identifier's entry becomes its in-window timestamps followed by `now`, on refusal the map is unchanged; no identifier ever holds more than `maxRequests` timestamps |
| Security.DecisionCountsWindow | src/utils/security.ts:63-67 | the decision is the count of stored timestamps with `now - t < windowMs` compared with the limit |
| Security.WindowExcludesBoundary | src/utils/security.ts:64 | a timestamp exactly `windowMs` old no longer counts |
| Security.AdmitKeepsBound | src/utils/security.ts:67-72 | admitting a request keeps every identifier at or under the limit and leaves every other identifier's history untouched |
| Security.MakeItem | src/utils/security.ts:92-97 | the stored item carries the value and the write time, and has no expiry exactly when the minutes are absent or 0 |
| Security.SecureStorage.constructor | src/utils/security.ts:91 | the store starts empty |
| Security.SecureStorage.Set | src/utils/security.ts:92-104 | the key is bound to the new item, or nothing changes when the browser refuses the write |
| Security.SecureStorage.Get | src/utils/security.ts:106-124 | returns the stored value, or null for a missing key or an expired item, which is also deleted |
| Security.Expired | src/utils/security.ts:114 | an item stored without an expiry never expires, and an expired item's expiry instant lies before the read |
| Security.ReadValue | src/utils/security.ts:106-124 | a non-null read comes from a present, unexpired item and is its value; a present unexpired item is always returned |
| Security.AfterRead | src/utils/security.ts:114-117 | a read deletes at most the key it reads, and that key exactly when it has expired; every other entry is kept unchanged |
| Security.SecureStorage.Remove | src/utils/security.ts:126-128 | exactly that key is removed |
| Security.SecureStorage.Clear | src/utils/security.ts:130-132 | the store becomes empty |
| Security.ReadAfterWrite | src/utils/security.ts:92-119 | a value written with an expiry reads back unchanged until `now` passes the expiry, and afterwards reads null and is deleted |
| Security.WriteWithoutExpiry | src/utils/security.ts:96-114 | a value written without minutes (or with 0) never expires |
| TriggerValidator.ValidateTriggerRequest | src/utils/workflowTriggerValidator.ts:6-31 | `valid` iff no errors; null or undefined gives exactly the missing-payload error, a non-object exactly the not-an-object error, and any object (arrays included) only the serialisability error when it cannot be serialised |
| TriggerValidator.FaultMessages | src/utils/workflowTriggerValidator.ts:41-76 | one message per fault |
| TriggerValidator.ValidateTriggerResponse | src/utils/workflowTriggerValidator.ts:36-83 | the errors are the messages of the response's faults, and `valid` iff there are none |
| TriggerValidator.TriggerResponseFaultsMembers | src/utils/workflowTriggerValidator.ts:40-77 | a non-object gives exactly one fault and stops; otherwise a field check is reported exactly when it fails |
| TriggerValidator.TriggerResponseFaultsOrder | src/utils/workflowTriggerValidator.ts:46-77 | the faults of an object appear in field order |
| TriggerValidator.TriggerResponseValidIff | src/utils/workflowTriggerValidator.ts:36-83 | no faults exactly when `success` is a boolean, `message` a string, `analytics_id` a UUID string, `timestamp` a parseable string and `data` absent or a non-null object |
| TriggerValidator.MockAnalyticsIdIsUuid | src/utils/workflowTriggerValidator.ts:183 | the mock `analytics_id` matches the UUID pattern |
| TriggerValidator.MockTriggerResponseValid | src/utils/workflowTriggerValidator.ts:179-190 | the mock trigger response passes the response validator |
| TriggerValidator.ValidateFlowId | src/utils/workflowTriggerValidator.ts:88-112 | at most one error; a string id is valid exactly when it is non-empty, the empty id gets the single `flowId is required` error, and a non-UUID id is still valid |
| TriggerValidator.ValidateWorkflowIdFormat | src/utils/workflowTriggerValidator.ts:274-316 | `valid` iff the id is a string of length at least 8, iff the format is not `invalid`; `uuid` iff UUID-shaped; `alphanumeric` iff an id token of length at least 8 that is not a UUID; suggestions exactly for `custom` ids and non-empty ids shorter than 8 |
| TriggerValidator.UuidNeverAlphanumeric | src/utils/workflowTriggerValidator.ts:284-293 | a UUID-shaped id is always classified `uuid` even though it would also pass the alphanumeric test |
| MetricsValidator.ValidateMetricsParams | src/utils/worqhatApiValidator.ts:6-44 | the errors are the messages of the failed parameter checks in check order, and `valid` iff there are none |
| MetricsValidator.CheckParams | src/utils/worqhatApiValidator.ts:12-33 | the step-by-step pushes produce exactly the failed parameter checks |
| MetricsValidator.ParamsFaultsMembers | src/utils/worqhatApiValidator.ts:10-33 | a date error is reported iff that date is given and not of the `\d{4}-\d{2}-\d{2}` shape; the range error iff both dates are given and the start parses to a later instant than the end; the status error iff a status is given outside completed/failed/in_progress; at most four errors |
| MetricsValidator.UnparseableDateNoRangeError | src/utils/worqhatApiValidator.ts:21-28 | a start date that does not parse never triggers the range error |
| MetricsValidator.AllCounters | src/utils/worqhatApiValidator.ts:169-173 | every listed field is a number no smaller than 0 |
| MetricsValidator.ValidUserMetrics | src/utils/worqhatApiValidator.ts:164-174 | a user-metrics entry is accepted iff it is a non-null object whose `total`, `completed`, `failed` and `in_progress` are numbers no smaller than 0 |
| MetricsValidator.CheckRequiredFields | src/utils/worqhatApiValidator.ts:118-124 | the loop over the required fields pushes exactly the required-field faults |
| MetricsValidator.ValidateWorkflow | src/utils/worqhatApiValidator.ts:110-159 | the returned list is the messages of the workflow's faults |
| MetricsValidator.CheckWorkflow | src/utils/worqhatApiValidator.ts:113-158 | the step-by-step pushes produce exactly the workflow's faults |
| MetricsValidator.RequiredFieldFaultsMembers | src/utils/worqhatApiValidator.ts:120-124 | a required-field error is reported exactly for the listed fields that are not non-empty strings |
| MetricsValidator.RequiredFieldsPresent | src/utils/worqhatApiValidator.ts:120-124 | when every required field is a non-empty string, no required-field error is reported |
| MetricsValidator.RequiredFieldFaultsCount | src/utils/worqhatApiValidator.ts:120-124 | one error per missing or non-string required field |
| MetricsValidator.WorkflowFaultsSteps | src/utils/worqhatApiValidator.ts:117-156 | for an object, each fault is a failing required field, a truthy non-UUID `id` or `workflow_id`, a truthy status outside the three values, an unparseable truthy start time, or a non-null unparseable end time, and nothing else |
| MetricsValidator.WorkflowFieldRequiredFaults | src/utils/worqhatApiValidator.ts:117-124 | for an object, a field-required error is reported iff the field is required and not a non-empty string; the not-an-object error never appears |
| MetricsValidator.WorkflowUuidFaults | src/utils/worqhatApiValidator.ts:126-135 | the UUID errors for `id` and `workflow_id` appear iff the field is truthy and fails the UUID pattern |
| MetricsValidator.WorkflowStatusAndTimeFaults | src/utils/worqhatApiValidator.ts:137-156 | the status error iff a truthy status is outside the three values; the start-time error iff a truthy start time does not parse; a null or absent end time is accepted |
| MetricsValidator.WellFormedWorkflowNoFaults | src/utils/worqhatApiValidator.ts:110-159 | a well-formed workflow record gets no error |
| MetricsValidator.IllFormedWorkflowFaults | src/utils/worqhatApiValidator.ts:110-159 | a record that is not well formed gets at least one error |
| MetricsValidator.WorkflowValidIff | src/utils/worqhatApiValidator.ts:110-159 | no errors exactly when the record is well formed |
| MetricsValidator.NonObjectWorkflowOneError | src/utils/worqhatApiValidator.ts:113-115 | a record that is not an object gets exactly the one not-an-object error |
| MetricsValidator.AllWorkflowErrors | src/utils/worqhatApiValidator.ts:93-94 | one error list per workflow, that workflow's own |
| MetricsValidator.ValidateMetricsResponse | src/utils/worqhatApiValidator.ts:49-105 | the errors are the messages of the response's faults, and `valid` iff there are none |
| MetricsValidator.CheckMetricsResponse | src/utils/worqhatApiValidator.ts:53-99 | the step-by-step pushes produce exactly the response's faults |
| MetricsValidator.CheckWorkflowsPart | src/utils/worqhatApiValidator.ts:90-99 | extends the faults with those of the `workflows` part |
| MetricsValidator.CheckMetricsPart | src/utils/worqhatApiValidator.ts:59-87 | extends the faults with those of the `metrics` part |
| MetricsValidator.CheckCounters | src/utils/worqhatApiValidator.ts:70-74 | the loop over the counter fields pushes one fault per non-number counter |
| MetricsValidator.CheckUsers | src/utils/worqhatApiValidator.ts:81-85 | the loop over the per-user entries pushes one fault per invalid entry |
| MetricsValidator.CheckWorkflowList | src/utils/worqhatApiValidator.ts:93-98 | the loop over the workflows pushes one fault per workflow with errors |
| MetricsValidator.WorkflowListFaultsMembers | src/utils/worqhatApiValidator.ts:93-98 | a workflow fault is reported exactly for each index whose error list is non-empty, carrying that list |
| MetricsValidator.WorkflowListFaultsIncreasing | src/utils/worqhatApiValidator.ts:93-98 | workflow faults appear in increasing index order |
| MetricsValidator.MetricsResponseFaultsShape | src/utils/worqhatApiValidator.ts:53-98 | a non-object response gets exactly one error; with an array of workflows, workflow `i` contributes its fault iff its own error list is non-empty |
| MetricsValidator.CounterFaultsKinds | src/utils/worqhatApiValidator.ts:70-74 | the counter loop only reports counter errors |
| MetricsValidator.UserFaultsKinds | src/utils/worqhatApiValidator.ts:81-85 | the per-user loop only reports user errors |
| MetricsValidator.WorkflowMessagePrefix | src/utils/worqhatApiValidator.ts:96 | each workflow error message starts with `Workflow <index>: ` |
| MetricsValidator.CounterFaultsNoneIff | src/utils/worqhatApiValidator.ts:70-74 | no counter error iff every counter field is a number |
| MetricsValidator.UserFaultsNoneIff | src/utils/worqhatApiValidator.ts:81-85 | no user error iff every per-user entry is valid |
| MetricsValidator.WorkflowListFaultsNoneIff | src/utils/worqhatApiValidator.ts:93-98 | no workflow error iff every workflow is well formed |
| MetricsValidator.MetricsResponseValidIff | src/utils/worqhatApiValidator.ts:49-105 | the response is valid exactly when it is an object with a metrics object of five numeric counters and a valid per-user object, and an array of well-formed workflows |
| MetricsValidator.MockMetricsFields | src/utils/worqhatApiValidator.ts:196-210 | the mock counters are 2, 2, 0, 0 and 8500, with one per-user entry |
| MetricsValidator.MockIdsAreUuids | src/utils/worqhatApiValidator.ts:213-214 | both mock ids match the UUID pattern |
| MetricsValidator.MockWorkflowFields | src/utils/worqhatApiValidator.ts:212-221 | the mock workflow's fields as written |
| MetricsValidator.MockWorkflowValid | src/utils/worqhatApiValidator.ts:212-221 | the mock workflow gets no error when its two timestamps parse |
| MetricsValidator.MockByUserValid | src/utils/worqhatApiValidator.ts:202-209 | the mock per-user object and its entry are valid |
| MetricsValidator.MockCountersAreNumbers | src/utils/worqhatApiValidator.ts:197-201 | every mock counter is a number |
| MetricsValidator.MockResponseValid | src/utils/worqhatApiValidator.ts:194-224 | the mock response passes the response validator |
| MetricsValidator.MockCountersAddUp | src/utils/worqhatApiValidator.ts:197-200 | completed + failed + in-progress equals the total in the mock |
| WorqhatService.Thrown | src/services/worqhatService.ts:192-199 | a caught error becomes a failed response with null data and the error's message |
| Common.OrString | src/services/worqhatService.ts:86 | JavaScript's `or` on strings: the first when non-empty, otherwise the second; also the API-key fallback at line 75 and the message choice at SmartSatelliteAssistant.tsx:112 |
| WorqhatService.PlanTrigger | src/services/worqhatService.ts:75-100 | no request without an API key (from the options or the environment) or with an empty flow id, each with its own message; otherwise the path is the base URL (default `/api`) + `/flows/trigger/` + flow id, with a bearer header for that key and the payload as given |
| WorqhatService.DefaultTriggerPath | src/services/worqhatService.ts:86-87 | without a base URL the trigger path is `/api/flows/trigger/<flowId>` |
| WorqhatService.ErrorFields | src/services/worqhatService.ts:104-142 | an unparseable error body gives `HTTP <status>: <statusText>` and the status; a null or undefined JSON body has no fields to read (the source throws), and any other JSON body gives fields; the error is the body's `message` when truthy, else `API Error: <status>`; the code is the body's `code` when truthy, else the status |
| WorqhatService.NormalisedBody | src/services/worqhatService.ts:157-166 | a body without a boolean `success` is normalised: `success` is false iff `error` is truthy, `analytics_id` falls back analytics_id, execution_id, id, `unknown`, `message` falls back message, status, a default, `timestamp` to now and `data` to the whole body |
| WorqhatService.ExecuteWorkflow | src/services/worqhatService.ts:66-200 | no request is sent exactly when the pre-checks fail, and the result is then the thrown message; a network failure gives its message; a non-OK status gives `success=false`, null data and the normalised error and code; an OK reply gives the normalised success response |
| WorqhatService.OkTriggerResponse | src/services/worqhatService.ts:146-191 | an unparseable body or a non-object gives a failed response with the thrown message; an object always gives `success=true` and no error |
| WorqhatService.OkTriggerExecutionId | src/services/worqhatService.ts:157-191 | a successful trigger's execution id is the normalised `analytics_id`: the fallback chain down to `unknown` when `success` is not boolean, the body's own `analytics_id` otherwise |
| WorqhatService.OrTruthy | src/services/worqhatService.ts:162 | JavaScript's `or` is truthy when `b` is, and is `b` when `a` is falsy |
| WorqhatService.MetricsThrown | src/services/worqhatService.ts:461-468 | a caught error becomes a failed metrics result carrying its message |
| WorqhatService.MetricsPreCheck | src/services/worqhatService.ts:349-359 | no request without a configured key or with a given start or end date that is not of the `\d{4}-\d{2}-\d{2}` shape; the key is checked first, the start date before the end date |
| WorqhatService.Keys | src/services/worqhatService.ts:362-366 | the keys of the query pairs, in order |
| WorqhatService.BuildQuery | src/services/worqhatService.ts:362-366 | the successive appends give exactly `QueryPairs`: they list `start_date`, `end_date`, `status`, `user_id` in that order, each only when its value is truthy, carrying that value |
| WorqhatService.QueryPairs | src/services/worqhatService.ts:362-366 | at most four pairs, and four exactly when all of start date, end date, status and user id are present |
| WorqhatService.QueryPairsOrder | src/services/worqhatService.ts:363-366 | the query keys follow the fixed order |
| WorqhatService.QueryPairsValues | src/services/worqhatService.ts:363-366 | each query pair carries its parameter's non-empty value |
| WorqhatService.QueryPairsKeys | src/services/worqhatService.ts:363-366 | a key appears iff its parameter is truthy |
| WorqhatService.QueryString | src/services/worqhatService.ts:371 | the query string is empty iff there are no pairs |
| WorqhatService.MetricsUrl | src/services/worqhatService.ts:369-373 | the URL is `/api/flows/metrics`, followed by `?` and the query exactly when at least one parameter is present |
| WorqhatService.MetricsBodyCheck | src/services/worqhatService.ts:428-446 | a body is accepted only if `metrics` is truthy, `workflows` is an array and all five counters are numbers; a body without `metrics` gets the invalid-format error |
| WorqhatService.FirstNonNumber | src/services/worqhatService.ts:442-446 | the first counter field, in list order, that is not a number, or none when all are numbers |
| WorqhatService.MetricsUrlBareIff | src/services/worqhatService.ts:362-373 | the metrics URL built from the parameters has no query string exactly when none of start date, end date, status and user id is present |
| WorqhatService.GetWorkflowMetrics | src/services/worqhatService.ts:345-469 | no request exactly when the pre-checks fail; the URL is the metrics endpoint built from the query pairs of the parameters (`QueryPairs`), so it has no query exactly when no parameter is present; failures carry the network message, the normalised error and code, the parse message or the body-check message; an accepted body is returned as the data |
| SatelliteAiService.StripMarker | src/services/satelliteAiService.ts:248 | removes the longest leading run of digits, bullets, hyphens, asterisks, dots and whitespace, and nothing else (the same cleaning at line 121) |
| SatelliteAiService.Clean | src/services/satelliteAiService.ts:248 | a cleaned line never starts with a marker character and is never longer than the line (the same cleaning at line 121) |
| SatelliteAiService.NonBlankLines | src/services/satelliteAiService.ts:246-247 | splitting on newlines keeps only the lines that are not blank (as at line 116) |
| SatelliteAiService.Insights | src/services/satelliteAiService.ts:116-130 | exactly min(n, 5) insights, where n counts the cleaned list lines longer than 10 characters; drawn in order from the cleaned list lines; each longer than 10; every such line is an insight when n is at most 5 |
| SatelliteAiService.InsightsAreFirst | src/services/satelliteAiService.ts:119-130 | no qualifying line is skipped: a cleaned list line longer than 10 characters with fewer than five such lines before it is an insight |
| SatelliteAiService.CleanedFrom | src/services/satelliteAiService.ts:121 | every cleaned insight comes from one of the lines |
| SatelliteAiService.InsightsShape | src/services/satelliteAiService.ts:116-122 | every insight is longer than 10 characters, has its bullet prefix stripped, and comes from a non-blank line whose trimmed text starts with a digit, a bullet, a hyphen or an asterisk |
| SatelliteAiService.AnalyzeSatelliteData | src/services/satelliteAiService.ts:113-141 | a successful AI reply gives its content as the analysis, its insights and the type's recommendations; a failed one gives `success=false` with empty analysis, insights and recommendations and the reply's error |
| SatelliteAiService.Recommendations | src/services/satelliteAiService.ts:156-194 | always exactly three strings, the fixed default list for an unknown analysis type |
| SatelliteAiService.Facts | src/services/satelliteAiService.ts:245-250 | with n the cleaned lines longer than 20 characters: exactly min(n, count) facts for a non-negative count, max(0, n + count) for a negative one (slice from the back); in the relative order of their source lines; each longer than 20; every such line is a fact when n is at most count |
| SatelliteAiService.FactsAreFirst | src/services/satelliteAiService.ts:245-251 | no qualifying line is skipped: a cleaned line longer than 20 characters with fewer than `count` such lines before it is a fact |
| SatelliteAiService.CleanedLines | src/services/satelliteAiService.ts:246-248 | one cleaned line per non-blank line, none starting with a list marker |
| SatelliteAiService.FactsShape | src/services/satelliteAiService.ts:248-249 | every fact is longer than 20 characters and does not start with a digit, a bullet, a hyphen, an asterisk, a dot or whitespace |
| SatelliteAiService.GenerateSatelliteFacts | src/services/satelliteAiService.ts:243-262 | a successful reply gives its facts; a failed one gives `success=false`, no facts and the reply's error |
| SatelliteAiService.WsRun | src/services/satelliteAiService.ts:307-310 | the `\s*` run starting at a position ends at the first non-whitespace character or the end |
| SatelliteAiService.LazyLineEnd | src/services/satelliteAiService.ts:308 | the lazy `.+?` of an option stops at the first position where the lookahead holds, never crossing a line terminator |
| SatelliteAiService.OptionBodyEnd | src/services/satelliteAiService.ts:308 | an option's body, once found, ends after its start |
| SatelliteAiService.OptionMatchAt | src/services/satelliteAiService.ts:308 | an option match starts with a letter A-D and `)` and is longer than two characters |
| SatelliteAiService.OptionMatches | src/services/satelliteAiService.ts:308 | every global option match starts with a letter A-D followed by `)` |
| SatelliteAiService.LazyAnyEnd | src/services/satelliteAiService.ts:307-310 | the lazy `.+?` with the dot-all flag stops inside the text |
| SatelliteAiService.CorrectMatch | src/services/satelliteAiService.ts:309 | the captured answer letter is one of A-D |
| SatelliteAiService.QuestionMatch | src/services/satelliteAiService.ts:307 | a question capture is non-empty and there is a `QUESTION:` at or after the search start |
| SatelliteAiService.ExplanationMatch | src/services/satelliteAiService.ts:310 | an explanation capture is non-empty and there is an `EXPLANATION:` at or after the search start |
| SatelliteAiService.QuizFailure | src/services/satelliteAiService.ts:330-337 | the fallback reply is unsuccessful, carries the parse-failure message and has no question, options or explanation |
| SatelliteAiService.ParseQuiz | src/services/satelliteAiService.ts:304-337 | success exactly when all four patterns match; then the answer is the letter's index (A=0 ... D=3), so within 0..3, with one option per option match; otherwise the fixed failure with empty question, no options and answer 0 |
| SatelliteAiService.GenerateSatelliteQuizAsWritten | src/services/satelliteAiService.ts:304-337 | the quiz parse as written, where `$` matches only at the end of the reply; a failed AI call gives the failure result |
| SatelliteAiService.GenerateSatelliteQuiz | src/services/satelliteAiService.ts:304-337 | the quiz parse with `$` also matching at line ends; a failed AI call gives the failure result, and the answer is within 0..3 |
| SatelliteAiService.QuizAsWrittenLosesLastOption | src/services/satelliteAiService.ts:288-308 | a reply in exactly the requested format with D correct parses to three options and answer index 3 |
| SatelliteAiService.QuizKeepsEveryOption | src/services/satelliteAiService.ts:288-308 | with line-end `$`, the same reply parses to all four options and the answer indexes one of them |
| WorkflowMetricsHook.Percent | src/hooks/useWorkflowMetrics.tsx:46-56 | 0 when the total is not positive, otherwise the share that makes `rate * total = part * 100` (also the per-user rate at line 76) |
| WorkflowMetricsHook.PercentBounds | src/hooks/useWorkflowMetrics.tsx:46-56 | a part between 0 and the total gives a rate between 0 and 100 (also the per-user rate at line 76) |
| WorkflowMetricsHook.PercentSum | src/hooks/useWorkflowMetrics.tsx:46-56 | two disjoint parts of one total give rates that add up to at most 100 |
| WorkflowMetricsHook.Insert | src/hooks/useWorkflowMetrics.tsx:66 | inserting into the ordering adds exactly that element (the same ordering sorts the user stats at line 77) |
| WorkflowMetricsHook.InsertSorted | src/hooks/useWorkflowMetrics.tsx:66 | inserting into a list sorted by descending key keeps it sorted (the same ordering sorts the user stats at line 77) |
| WorkflowMetricsHook.SortDesc | src/hooks/useWorkflowMetrics.tsx:66 | sorting by descending key is a permutation (the same ordering sorts the user stats at line 77) |
| WorkflowMetricsHook.SortDescSorted | src/hooks/useWorkflowMetrics.tsx:66 | the sorted list is in non-increasing key order (the same ordering sorts the user stats at line 77) |
| WorkflowMetricsHook.InsertStable | src/hooks/useWorkflowMetrics.tsx:66 | inserting into a sorted list places the new element after every element with an equal key |
| WorkflowMetricsHook.SortDescStable | src/hooks/useWorkflowMetrics.tsx:66 | the sort is stable, as `Array.prototype.sort` is: for every key value, the elements with that key appear in their input order |
| WorkflowMetricsHook.TakeKeepsLargest | src/hooks/useWorkflowMetrics.tsx:67 | the first `limit` of a sorted list are sorted and no omitted element has a larger key than a kept one |
| WorkflowMetricsHook.ToUserStat | src/hooks/useWorkflowMetrics.tsx:73-76 | a user row copies the user id and the four counters, with success rate 0 for a non-positive total and between 0 and 100 otherwise |
| WorkflowMetricsHook.MetricsHook.constructor | src/hooks/useWorkflowMetrics.tsx:9-11 | the hook starts not loading, with no error and no metrics |
| WorkflowMetricsHook.MetricsHook.FetchMetrics | src/hooks/useWorkflowMetrics.tsx:13-35 | on a successful reply with data the metrics are replaced and the error stays cleared; otherwise the error is set to the reply's error or the default message, the metrics are kept and the failure is passed on; loading ends false either way |
| WorkflowMetricsHook.MetricsHook.ClearError | src/hooks/useWorkflowMetrics.tsx:37-39 | only the error is cleared |
| WorkflowMetricsHook.MetricsHook.ClearMetrics | src/hooks/useWorkflowMetrics.tsx:41-43 | only the metrics are cleared |
| WorkflowMetricsHook.MetricsHook.SuccessRate | src/hooks/useWorkflowMetrics.tsx:46-50 | 0 without metrics or with a non-positive total, otherwise completed / total * 100 |
| WorkflowMetricsHook.MetricsHook.FailureRate | src/hooks/useWorkflowMetrics.tsx:52-56 | 0 without metrics or with a non-positive total, otherwise failed / total * 100 |
| WorkflowMetricsHook.MetricsHook.WorkflowsByStatus | src/hooks/useWorkflowMetrics.tsx:80-83 | exactly the workflows with that status, in original order, as many as there are stored workflows with that status, and none without metrics |
| WorkflowMetricsHook.MetricsHook.ActiveWorkflows | src/hooks/useWorkflowMetrics.tsx:58-61 | equals the workflows with status `in_progress` |
| WorkflowMetricsHook.MetricsHook.RecentWorkflows | src/hooks/useWorkflowMetrics.tsx:63-68 | the stored workflows are reordered in place by descending start time, as a permutation, stably (equal start times keep their order); the result is at most `limit` workflows in non-increasing start time and no omitted workflow is newer than a returned one; nothing without metrics |
| WorkflowMetricsHook.MetricsHook.UserStats | src/hooks/useWorkflowMetrics.tsx:70-78 | one row per user entry, as a permutation, sorted by total descending; users with equal totals keep their `metricsByUser` order; nothing without metrics |
| WorkflowMetricsHook.MetricsHook.AverageDuration | src/hooks/useWorkflowMetrics.tsx:85-88 | the average duration, or 0 without metrics |
| WorkflowMetricsHook.MetricsHook.TotalWorkflows | src/hooks/useWorkflowMetrics.tsx:90-93 | the total, or 0 without metrics |
| WorkflowMetricsHook.RatesShareHundred | src/hooks/useWorkflowMetrics.tsx:46-56 | with non-negative completed and failed counts within the total, success and failure rates add up to at most 100 |
| WorkflowMetricsHook.UserStatsRows | src/hooks/useWorkflowMetrics.tsx:70-78 | every user entry has its row and every row comes from an entry |
| SatelliteQuizWidget.ErrorOr | src/components/SatelliteQuizWidget.tsx:73 | the reply's error when it is a non-empty string, otherwise the fallback message |
| SatelliteQuizWidget.ScoreColor | src/components/SatelliteQuizWidget.tsx:119-125 | muted with no questions; otherwise green iff the score is at least 80% of the questions, yellow iff it is below 80% and at least 60%, red iff below 60% |
| SatelliteQuizWidget.PercentageThreshold | src/components/SatelliteQuizWidget.tsx:121-123 | comparing `score / total * 100` with a whole percentage is the same as comparing `100 * score` with `p * total` |
| SatelliteQuizWidget.DifficultyColor | src/components/SatelliteQuizWidget.tsx:111-117 | green for easy, red for hard, yellow for anything else |
| SatelliteQuizWidget.QuizWidget.constructor | src/components/SatelliteQuizWidget.tsx:41-52 | an empty question, no answer, no result shown and a 0/0 score |
| SatelliteQuizWidget.QuizWidget.FetchNewQuestion | src/components/SatelliteQuizWidget.tsx:54-80 | a successful reply installs the new question with no answer and no result shown and keeps the score and question count; a failed one leaves the quiz unchanged and sets the error; loading ends false; `0 <= score <= totalQuestions` is kept |
| SatelliteQuizWidget.QuizWidget.HandleAnswerSelect | src/components/SatelliteQuizWidget.tsx:87-97 | once the result is shown nothing changes, so each question is scored at most once; otherwise the answer is recorded, the result shown, the question count goes up by one and the score goes up by one iff the answer is the correct one; `0 <= score <= totalQuestions` is kept |
| SatelliteQuizWidget.QuizWidget.ResetScore | src/components/SatelliteQuizWidget.tsx:103-109 | zeroes score and question count and changes nothing else |
| SatelliteQuizWidget.QuizWidget.ScoreColorNow | src/components/SatelliteQuizWidget.tsx:119-120 | the colour is muted exactly when no question has been answered |
| SatelliteFactsWidget.NextIndex | src/components/SatelliteFactsWidget.tsx:78-80 | `(i + 1) mod n`: the next index, wrapping from the last to 0, always in `[0, n)` |
| SatelliteFactsWidget.PrevIndex | src/components/SatelliteFactsWidget.tsx:82-84 | `(i - 1 + n) mod n`: the previous index, wrapping from 0 to the last, always in `[0, n)` |
| SatelliteFactsWidget.PrevUndoesNext | src/components/SatelliteFactsWidget.tsx:78-84 | going back after going forward returns to the same fact |
| SatelliteFactsWidget.NextUndoesPrev | src/components/SatelliteFactsWidget.tsx:78-84 | going forward after going back returns to the same fact |
| SatelliteFactsWidget.RefreshTimer | src/components/SatelliteFactsWidget.tsx:61-64 | the refresh interval exists exactly when auto-refresh is on, with period minutes * 60000 ms |
| SatelliteFactsWidget.FactsWidget.constructor | src/components/SatelliteFactsWidget.tsx:30-34 | no facts, cursor 0, no error, never updated |
| SatelliteFactsWidget.FactsWidget.FetchFacts | src/components/SatelliteFactsWidget.tsx:36-55 | a successful non-empty reply replaces the facts, resets the cursor to 0 and stamps the update time; an empty or failed reply keeps facts, cursor and time and sets the error; the cursor stays within the facts |
| SatelliteFactsWidget.FactsWidget.NextFact | src/components/SatelliteFactsWidget.tsx:78-80 | the cursor moves to the next index and nothing else changes |
| SatelliteFactsWidget.FactsWidget.PrevFact | src/components/SatelliteFactsWidget.tsx:82-84 | the cursor moves to the previous index and nothing else changes |
| SatelliteFactsWidget.FactsWidget.ShowsNavigation | src/components/SatelliteFactsWidget.tsx:191-225 | the previous/next buttons show exactly when the auto-cycle timer runs; then the fact list is non-empty, so both handlers can run, and each moves the cursor to a different fact |
| SatelliteFactsWidget.FactsWidget.SelectFact | src/components/SatelliteFactsWidget.tsx:203-214 | a dot click shows that fact, and nothing else changes |
| SatelliteFactsWidget.FactsWidget.CycleTimer | src/components/SatelliteFactsWidget.tsx:68-76 | the auto-cycle interval exists exactly when there is more than one fact, with an 8-second period |
| NotificationCenter.UnreadCount | src/components/NotificationCenter.tsx:54 | never more than the list's length, and 0 exactly when every notification is read |
| NotificationCenter.MarkRead | src/components/NotificationCenter.tsx:69-73 | sets `read` on the matching ids only; length, order and every other field are unchanged |
| NotificationCenter.ReadIf | src/components/NotificationCenter.tsx:71 | one notification after marking: only its read flag may change, and it is set exactly when it was already set or the id matches |
| NotificationCenter.MarkAllRead | src/components/NotificationCenter.tsx:198-200 | every notification is marked read and nothing else changes |
| NotificationCenter.Remove | src/components/NotificationCenter.tsx:75-77 | removes exactly the matching entries and keeps the rest in order, one entry per non-matching notification (the count of those) |
| NotificationCenter.MarkReadIdempotent | src/components/NotificationCenter.tsx:69-73 | marking the same id twice is the same as once |
| NotificationCenter.MarkReadCount | src/components/NotificationCenter.tsx:69-73 | the unread count drops by exactly the number of unread notifications with that id (the count is line 54) |
| NotificationCenter.MarkAllReadClears | src/components/NotificationCenter.tsx:198-200 | after mark-all-read no notification is unread (the count is line 54) |
| NotificationCenter.RemoveCount | src/components/NotificationCenter.tsx:75-77 | removing never increases the unread count (the count is line 54) |
| NotificationCenter.NotificationCenter.constructor | src/components/NotificationCenter.tsx:26-52 | closed, with the three samples stamped 2, 5 and 12 minutes ago, two of them unread |
| NotificationCenter.NotificationCenter.Toggle | src/components/NotificationCenter.tsx:96 | flips the panel and keeps the list |
| NotificationCenter.NotificationCenter.Close | src/components/NotificationCenter.tsx:116 | closes the panel and keeps the list (also line 132) |
| NotificationCenter.NotificationCenter.MarkAsRead | src/components/NotificationCenter.tsx:69-73 | the list becomes its marked version and the unread count does not increase |
| NotificationCenter.NotificationCenter.RemoveNotification | src/components/NotificationCenter.tsx:75-77 | the list loses exactly the matching entries and the unread count does not increase |
| NotificationCenter.NotificationCenter.MarkAllAsRead | src/components/NotificationCenter.tsx:198-200 | every notification becomes read, so the unread count is 0 |
| TimeFormat.HoursOfMinutes | src/components/SatelliteFactsWidget.tsx:89-93 | flooring to minutes and then to hours is flooring straight to hours |
| TimeFormat.AgeOf | src/components/SatelliteFactsWidget.tsx:86-96 | "Just now" below one minute, whole minutes below one hour, whole hours below one day, a date otherwise, each count the floor of the age in that unit; the copies at src/components/NotificationCenter.tsx:79-89 and src/components/WorkflowMetricsWidget.tsx:72-82 are the same |
| TimeFormat.RenderAge | src/components/NotificationCenter.tsx:84-88 | minutes end in `m ago` and hours in `h ago`; only a date shows the locale string |
| TimeFormat.AgeMonotone | src/components/SatelliteFactsWidget.tsx:86-96 | an older date never lands in a finer bucket, nor shows a smaller count in the same bucket |
| TimeFormat.FormatTimeAgo | src/components/NotificationCenter.tsx:79-89 | `Just now` below one minute, `<m>m ago` below one hour, `<h>h ago` below one day, otherwise the locale date; shared by the three widgets with the same code |
| TimeFormat.UnitOf | src/components/WorkflowMetricsWidget.tsx:66-70 | milliseconds iff below 1000, minutes iff at least 60000, seconds in between |
| TimeFormat.UnitMonotone | src/components/WorkflowMetricsWidget.tsx:66-70 | a longer duration never uses a smaller unit |
| TimeFormat.FormatDuration | src/pages/WorkflowMetrics.tsx:109-113 | `<ms>ms` below 1000, then the one-decimal seconds (a value in [1, 60)) with `s`, then the one-decimal minutes (at least 1) with `m`; the widget's copy at src/components/WorkflowMetricsWidget.tsx:66-70 is the same |
| ReadyWorkflowExecutor.MakePayload | src/components/ReadyWorkflowExecutor.tsx:31-35 | a payload has exactly the three fields `ID`, `NORAD_CAT_ID` and `OBJECT_ID`, with the given values |
| ReadyWorkflowExecutor.Record | src/components/ReadyWorkflowExecutor.tsx:58-64 | the new entry goes first, followed by at most four older entries in their prior order, so at most five |
| ReadyWorkflowExecutor.RecordAtCapacity | src/components/ReadyWorkflowExecutor.tsx:64 | at five entries the oldest one is dropped |
| ReadyWorkflowExecutor.QuickPayload | src/components/ReadyWorkflowExecutor.tsx:116-136 | the ISS preset (`iss-tracking-1`, NORAD 25544) and the Hubble preset (`hubble-tracking-1`, NORAD 20580) by name, and the test preset (`test-execution-<now>`, NORAD `test-norad`) for any other name; every preset has exactly the three keys |
| ReadyWorkflowExecutor.Executor.constructor | src/components/ReadyWorkflowExecutor.tsx:23-35 | not executing, no result, no history and the default payload |
| ReadyWorkflowExecutor.Executor.ExecuteYourWorkflow | src/components/ReadyWorkflowExecutor.tsx:37-99 | a successful response prepends an entry whose id is the execution id, or the timestamp when there is none, carrying a copy of the payload, keeping at most five; its result is the run's data, unless the execution id is neither a string, an array, null nor undefined, when the toast's `slice` throws and the `catch` block replaces the result with the `TypeError` message while the entry stays; a failure records the error and leaves the history unchanged; executing ends false and the payload is kept |
| ReadyWorkflowExecutor.Executor.UpdatePayloadField | src/components/ReadyWorkflowExecutor.tsx:101-106 | only the named field changes, to the given value |
| ReadyWorkflowExecutor.Executor.UseQuickPayload | src/components/ReadyWorkflowExecutor.tsx:116-136 | the payload becomes the named preset, or the test preset for an unknown name, and nothing else changes |
| EnhancedAiTutor.FullContext | src/components/EnhancedAiTutor.tsx:30-33 | the prompt always contains the question and contains "Previous conversation" when there is history; without history it is the context, a blank line, `Question: ` and the question |
| EnhancedAiTutor.MarkerWithoutHistory | src/components/EnhancedAiTutor.tsx:30-33 | a first prompt whose context spells out `Previous conversation:` carries the marker with no history, so the marker alone does not show history |
| EnhancedAiTutor.Remember | src/components/EnhancedAiTutor.tsx:42-46 | the last four prior entries (all of them when fewer) followed by `Q: <question>` and `A: <answer>`, so at most six entries ending with that pair |
| EnhancedAiTutor.Tutor.constructor | src/components/EnhancedAiTutor.tsx:14-21 | the initial message, an empty input and no history |
| EnhancedAiTutor.Tutor.SetInput | src/components/EnhancedAiTutor.tsx:20 | only the input changes |
| EnhancedAiTutor.Tutor.HandleAsk | src/components/EnhancedAiTutor.tsx:23-50 | nothing happens for a blank input or while loading; otherwise the input is cleared and the prompt sent; on success the reply is shown and the history becomes the remembered pair, on failure the apology is shown and the history is unchanged; at most six history entries |
| SmartSatelliteAssistant.PromptHasDataIff | src/components/SmartSatelliteAssistant.tsx:94-109 | the prompt opens with the tracking-data block exactly when satellite data is present |
| SmartSatelliteAssistant.DataLinesShowTracking | src/components/SmartSatelliteAssistant.tsx:96-105 | the joined data block shows `Active` or `Paused` as tracking is on or off and ends with the educator instruction |
| SmartSatelliteAssistant.ContextualPrompt | src/components/SmartSatelliteAssistant.tsx:94-109 | the contextual prompt always contains the user's question |
| SmartSatelliteAssistant.PromptEndsWithQuestion | src/components/SmartSatelliteAssistant.tsx:94-109 | the question is the last thing in the prompt: only a newline follows it after the data block, and nothing in the plain prompt |
| SmartSatelliteAssistant.WelcomeText | src/components/SmartSatelliteAssistant.tsx:86 | the welcome opens with the assistant banner and the tracking lead and ends with the invitation to ask |
| SmartSatelliteAssistant.ReplyKind | src/components/SmartSatelliteAssistant.tsx:136 | a reply is typed `analysis` exactly when it answers a quick action |
| SmartSatelliteAssistant.SmartAssistant.constructor | src/components/SmartSatelliteAssistant.tsx:51-55 | an empty log, an empty input and auto-analysis on |
| SmartSatelliteAssistant.SmartAssistant.SetInput | src/components/SmartSatelliteAssistant.tsx:52 | only the input changes |
| SmartSatelliteAssistant.SmartAssistant.ToggleAutoAnalysis | src/components/SmartSatelliteAssistant.tsx:213 | only the auto-analysis switch flips |
| SmartSatelliteAssistant.SmartAssistant.Welcome | src/components/SmartSatelliteAssistant.tsx:82-92 | the welcome message becomes the whole log exactly when auto-analysis is on, data is present and the log is empty; otherwise nothing changes |
| SmartSatelliteAssistant.SmartAssistant.HandleSend | src/components/SmartSatelliteAssistant.tsx:111-140 | nothing happens for a blank message or while loading; otherwise the user message is appended before the call, the input is cleared only for typed messages, the contextual prompt is sent, and the assistant's reply is appended only on success, typed `analysis` iff it answers a quick action |
| SmartSatelliteAssistant.SmartAssistant.ClearConversation | src/components/SmartSatelliteAssistant.tsx:170-172 | the log becomes empty and nothing else changes |
| WorqhatAiAssistant.FullQuestion | src/components/WorqhatAiAssistant.tsx:43-45 | only the first question of a conversation is prefixed with the initial prompt; the question is always contained |
| WorqhatAiAssistant.AssistantPanel.constructor | src/components/WorqhatAiAssistant.tsx:21-28 | an empty log and an empty input |
| WorqhatAiAssistant.AssistantPanel.SetInput | src/components/WorqhatAiAssistant.tsx:28 | only the input changes |
| WorqhatAiAssistant.AssistantPanel.HandleSend | src/components/WorqhatAiAssistant.tsx:30-60 | nothing happens for blank input or while loading; otherwise the user message is appended and the input cleared, the full question is sent, and the reply is appended only when the call succeeds |
| ISSTrackerWorkflow.FirstTruthyKey | src/components/ISSTrackerWorkflow.tsx:54-61 | the first key, in order, whose field is truthy, or none when no field is |
| ISSTrackerWorkflow.ExtractIssData | src/components/ISSTrackerWorkflow.tsx:51-65 | the first truthy field among `httpResponse`, `satelliteData`, `data`, `result`, otherwise the whole response data |
| ISSTrackerWorkflow.HttpResponseWins | src/components/ISSTrackerWorkflow.tsx:54-55 | a truthy `httpResponse` is always the one taken |
| ISSTrackerWorkflow.ISSTracker.constructor | src/components/ISSTrackerWorkflow.tsx:20-27 | the default workflow id and empty results |
| ISSTrackerWorkflow.ISSTracker.SetWorkflowId | src/components/ISSTrackerWorkflow.tsx:20 | only the workflow id changes |
| ISSTrackerWorkflow.ISSTracker.ExecuteISSWorkflow | src/components/ISSTrackerWorkflow.tsx:29-75 | a blank workflow id aborts before any call and changes nothing; on success the result, execution id and extracted data are set; on failure the result becomes `{error}` and the extracted data null |
| ISSTrackerWorkflow.ISSTracker.ClearResults | src/components/ISSTrackerWorkflow.tsx:77-81 | result, execution id and extracted data are reset and the workflow id kept |
| MapboxGlobe.ReportOf | src/components/MapboxGlobe.tsx:156-162 | the reported update carries the fix's position, altitude and speed and the constant period 92.68 |
| MapboxGlobe.Extend | src/components/MapboxGlobe.tsx:185-188 | the new point goes last; below 100 points the old trail is kept as a prefix, at 100 exactly the oldest point is evicted |
| MapboxGlobe.Step | src/components/MapboxGlobe.tsx:185-188 | a frame without a fix leaves the trail; a fix appends its point as `[lng, lat]`, last; a trail within 100 points stays within 100 |
| MapboxGlobe.TrailAfter | src/components/MapboxGlobe.tsx:185-188 | over any run of ticks the trail never holds more than 100 points |
| MapboxGlobe.ReportsAfter | src/components/MapboxGlobe.tsx:156-162 | at most one update per tick, each with the constant period |
| MapboxGlobe.Hits | src/components/MapboxGlobe.tsx:139 | the ticks with a position are at most all the ticks |
| MapboxGlobe.NoFixNoChange | src/components/MapboxGlobe.tsx:139 | ticks where propagation yields no position change the trail not at all and report nothing |
| MapboxGlobe.TrailLength | src/components/MapboxGlobe.tsx:185-188 | the trail grows by one per tick with a position until it reaches 100 |
| MapboxGlobe.OneReportPerHit | src/components/MapboxGlobe.tsx:139-162 | exactly one update per tick with a position |
| MapboxGlobe.LastPosition | src/components/MapboxGlobe.tsx:164-182 | a run whose last tick gives a position leaves the marker (and a centred camera) at that position; in every case the result is the old position or some position |
| MapboxGlobe.LastPositionIsNewest | src/components/MapboxGlobe.tsx:164-182 | the marker ends at the newest tick that gave a position, and stays where it was when no tick did |
| MapboxGlobe.NewestLast | src/components/MapboxGlobe.tsx:186 | after a tick with a position, that (lng, lat) point is last |
| MapboxGlobe.OrbitTracker.constructor | src/components/MapboxGlobe.tsx:165 | an empty trail, no marker, no centring and no updates |
| MapboxGlobe.OrbitTracker.Tick | src/components/MapboxGlobe.tsx:135-192 | a tick without a position changes nothing but the trail step (none); with one it reports the update, moves the marker, centres when asked and extends the trail |
| MapboxGlobe.OrbitTracker.Track | src/components/MapboxGlobe.tsx:129-199 | nothing runs unless the map exists and tracking is on; otherwise the ticks run in order, the trail and reports are those of the run, the marker is at the newest position of the run (or unmoved), and the camera is too when centring is on and unmoved when it is off |
| WorkflowManager.FilteredWorkflows | src/components/WorkflowManager.tsx:131-140 | with no metrics the list is empty; otherwise a workflow is listed iff the search hits its id or user case-insensitively (or is empty) and the status and user filters are empty or equal; order is kept, the length is the number of matching stored workflows, and empty filters list everything |
| WorkflowManager.FirstIndex | src/components/WorkflowManager.tsx:143 | the position of the first occurrence of a value |
| WorkflowManager.FirstIndexPrefix | src/components/WorkflowManager.tsx:143 | a first occurrence inside a prefix is the same in the prefix and in the whole sequence |
| WorkflowManager.Unique | src/components/WorkflowManager.tsx:143 | the `Set` of a sequence: no repeats, exactly the same members, in order of first occurrence |
| WorkflowManager.UniqueUsers | src/components/WorkflowManager.tsx:143 | the user ids of the workflows deduplicated, empty without metrics |
| WorkflowManager.UniqueUsersComplete | src/components/WorkflowManager.tsx:143 | the user dropdown has no duplicates and offers exactly the users that own some workflow |
| WorkflowManager.FormatDuration | src/components/WorkflowManager.tsx:122-128 | `Running...` for a missing or empty end time, otherwise the shared duration format of end minus start |
| WorkflowManager.HandleExecuteWorkflow | src/components/WorkflowManager.tsx:64-89 | input that does not parse gives the destructive `Invalid Input` toast and no call; otherwise the workflow runs once, a success gives the `Workflow <first 8>... executed successfully` toast and schedules a refresh, a failure gives the service's error or `Failed to execute workflow`, destructive |
| WorkflowMetricsPage.CleanFilters | src/pages/WorkflowMetrics.tsx:49-53 | a filter is sent iff it is non-empty, and then with its own value |
| WorkflowMetricsPage.CleanFiltersKeepsPresent | src/pages/WorkflowMetrics.tsx:49-53 | cleaning is idempotent and keeps exactly the non-empty filters |
| WorkflowMetricsPage.FilterChange | src/pages/WorkflowMetrics.tsx:75-80 | the changed key becomes the value, or unset when the value is empty; every other key is kept |
| WorkflowMetricsPage.ClearedFiltersSendNothing | src/pages/WorkflowMetrics.tsx:82-89 | after "clear" no filter at all is sent |
| WorkflowMetricsPage.SuccessRate | src/pages/WorkflowMetrics.tsx:119-123 | 0 without metrics or with no workflows, otherwise completed/total*100, and within 0..100 when completed does not exceed the total |
| WorkflowMetricsPage.ShareAsWritten | src/pages/WorkflowMetrics.tsx:402 | the JavaScript quotient count/total*100: finite for a non-zero total, NaN exactly for 0/0 |
| WorkflowMetricsPage.ShareTextAsWritten | src/pages/WorkflowMetrics.tsx:402-432 | the percentage as rendered: the formatted share for a positive total, `NaN%` or `±Infinity%` for a zero total |
| WorkflowMetricsPage.EmptyTotalShowsNaN | src/pages/WorkflowMetrics.tsx:402 | with no workflows at all the page shows `NaN%` |
| WorkflowMetricsPage.ShareText | src/pages/WorkflowMetrics.tsx:402-432 | the corrected percentage: 0 for an empty total, otherwise the same text as the page |
| WorkflowMetricsPage.ShareTextBounded | src/pages/WorkflowMetrics.tsx:402-432 | the corrected percentage is always a number between 0 and 100 |
| WorkflowMetricsPage.StatusDistribution | src/pages/WorkflowMetrics.tsx:396-435 | the corrected status bars (see Findings): three labels, the completed, failed and in-progress shares in that order; for a positive total each is the text the page renders, for an empty total each is `0%` instead of the page's `NaN%` |
| WorkflowMetricsPage.StatusSharesAddUp | src/pages/WorkflowMetrics.tsx:402-432 | for counts that fit in the total, the three bars format shares between 0 and 100 whose sum is at most 100, and exactly 100 when the three counts make up the whole total |
| WorkflowMetricsPage.MetricsPage.constructor | src/pages/WorkflowMetrics.tsx:30-41 | no metrics, no error, not loading, never updated, the initial filters |
| WorkflowMetricsPage.MetricsPage.FetchMetrics | src/pages/WorkflowMetrics.tsx:43-68 | the cleaned filters are sent; success with data stores the metrics, stamps the time and clears the error; otherwise the old metrics stay and the error is the reply's or `Failed to fetch metrics`; loading ends either way |
| WorkflowMetricsPage.MetricsPage.HandleFilterChange | src/pages/WorkflowMetrics.tsx:75-80 | the filters become the filter change and nothing else moves |
| WorkflowMetricsPage.MetricsPage.ClearFilters | src/pages/WorkflowMetrics.tsx:82-89 | the filters return to the cleared state and nothing else moves |
| WorkflowMetricsWidget.AutoRefreshPeriod | src/components/WorkflowMetricsWidget.tsx:59-64 | a timer runs iff auto-refresh is on and the interval is positive, with period interval*60000 ms, at least a minute |
| WorkflowMetricsWidget.ActiveSummary | src/components/WorkflowMetricsWidget.tsx:265-274 | at most three active workflows are listed, in order, followed by a `+N more` line exactly when there are more than three |
| WorkflowMetricsWidget.ActiveLine | src/components/WorkflowMetricsWidget.tsx:267 | a running workflow's line is a prefix of its id of length min(8, id length), then exactly `... - Running` at the end |
| WorkflowMetricsWidget.MoreLine | src/components/WorkflowMetricsWidget.tsx:270-274 | the overflow line is `+`, a non-empty run of decimal digits whose value is the overflow count, then ` more` |
| Common.NatToStringValue | src/components/WorkflowMetricsWidget.tsx:272 | reading the decimal text of a number back gives the number |
| WorkflowMetricsWidget.MetricsWidget.constructor | src/components/WorkflowMetricsWidget.tsx:36-42 | the widget shares the hook and was never updated |
| WorkflowMetricsWidget.MetricsWidget.LoadMetrics | src/components/WorkflowMetricsWidget.tsx:44-51 | the update stamp moves, with the metrics stored, only when the hook's fetch did not throw; on a failure the metrics and stamp stay and an error is set |
| WorkflowMetricsWidget.MetricsWidget.ActiveBox | src/components/WorkflowMetricsWidget.tsx:262-274 | the box is empty exactly when no workflow is in progress, and otherwise is the active summary |
| AuthService.FindByCredentials | src/services/authService.ts:25-27 | the first user whose username and password both match, or none exactly when no user matches |
| AuthService.ResetPassword | src/services/authService.ts:53-67 | succeeds with `true` iff some account has that e-mail, otherwise fails with `No account found with that email address` |
| AuthService.AdminCanLogIn | src/services/authService.ts:11-18 | `admin`/`admin123` logs in as the admin account |
| AuthService.MixedCredentialsRefused | src/services/authService.ts:25-27 | one user's name with another's password is refused |
| AuthService.AuthStore.constructor | src/services/authService.ts:44-47 | the store starts from whatever was stored |
| AuthService.AuthStore.CurrentUser | src/services/authService.ts:44-47 | the stored user, or none when nothing is stored; `Login` and `Logout` state that it is the logged-in user after a login and none after a logout |
| AuthService.AuthStore.IsAuthenticated | src/services/authService.ts:49-51 | authenticated iff a current user is stored |
| AuthService.AuthStore.HasRole | src/services/authService.ts:69-72 | true iff a user is stored and has exactly that role; it implies being authenticated |
| AuthService.AuthStore.Login | src/services/authService.ts:22-38 | succeeds iff some user has both credentials; a success stores and returns that user, a failure gives `Invalid username or password` and leaves the store alone |
| AuthService.AuthStore.Logout | src/services/authService.ts:40-42 | afterwards nobody is signed in and no role holds |
| ProtectedRoute.Guard | src/components/auth/ProtectedRoute.tsx:14-26 | signed out goes to login; a non-empty required role the user lacks goes to `/unauthorized`; everything else renders the page, each iff its condition |
| ProtectedRoute.Target | src/components/auth/ProtectedRoute.tsx:14-26 | only the two redirects have a target, `/login` for the signed-out case and `/unauthorized` otherwise; rendering the page has none |
| ProtectedRoute.GuardStore | src/components/auth/ProtectedRoute.tsx:14-23 | the route decides on the store's current user exactly as the guard does |
| ProtectedRoute.NoRoleNeeded | src/components/auth/ProtectedRoute.tsx:20 | a missing or empty required role lets every signed-in user through |
| ProtectedRoute.SignedOutAlwaysToLogin | src/components/auth/ProtectedRoute.tsx:14-17 | whatever the role, a signed-out visitor is sent to `/login` |
| MainLayout.SidebarItems | src/components/layout/MainLayout.tsx:110-111 | an entry is shown iff its allowed roles include the user's role, in the navigation's order, and as many entries as are permitted |
| MainLayout.Names | src/components/layout/MainLayout.tsx:110-123 | one name per navigation entry, in order |
| MainLayout.MobileItems | src/components/layout/MainLayout.tsx:178-181 | the bottom bar shows the first four permitted entries, or all of them when fewer |
| MainLayout.UserSidebar | src/components/layout/MainLayout.tsx:19-50 | a plain user sees Dashboard, Satellites and Settings |
| MainLayout.AdminSidebar | src/components/layout/MainLayout.tsx:19-50 | an admin sees all five entries, and the first four on mobile (the mobile slice is lines 178-181) |
| MainLayout.Layout.constructor | src/components/layout/MainLayout.tsx:57 | the layout starts from the stored user |
| MainLayout.Layout.OnStorageChange | src/components/layout/MainLayout.tsx:67-74 | a storage event re-reads the stored user |
| MainLayout.Layout.Render | src/components/layout/MainLayout.tsx:77-85 | no user redirects to login (and renders nothing); otherwise the shell shows the user's sidebar and mobile entries (the filters are lines 110-111 and 178-181) |
| MainLayout.Layout.HandleLogout | src/components/layout/MainLayout.tsx:61-64 | afterwards nobody is signed in and the app navigates to `/login` |
| UsersPage.FilteredUsers | src/pages/admin/Users.tsx:35-38 | a row is shown iff the term occurs case-insensitively in its name or e-mail, in order, and as many rows as match |
| UsersPage.EmptySearchListsAll | src/pages/admin/Users.tsx:35-38 | an empty search lists every row in order (the initial term is line 31) |
| UsersPage.WithoutUser | src/pages/admin/Users.tsx:47 | the rows whose id differs, in order, and as many as there are such rows |
| UsersPage.DeleteAbsentIsNoOp | src/pages/admin/Users.tsx:47 | deleting an id no row has changes nothing, so deleting twice equals deleting once |
| UsersPage.UsersTable.constructor | src/pages/admin/Users.tsx:10-31 | the two mock rows and an empty search |
| UsersPage.UsersTable.SetSearchTerm | src/pages/admin/Users.tsx:31 | only the search term changes |
| UsersPage.UsersTable.Shown | src/pages/admin/Users.tsx:35-38 | the rows on screen are exactly the stored rows that match the search |
| UsersPage.UsersTable.HandleDelete | src/pages/admin/Users.tsx:45-49 | a confirmed delete removes exactly the rows with that id, keeping order; a declined one changes nothing |
| SatellitesPage.FilteredSatellites | src/pages/Satellites.tsx:23-27 | an entry is shown iff its name contains the search case-insensitively and the filter is `All` or its type, in order, and as many as match |
| SatellitesPage.ShowsEverythingByDefault | src/pages/Satellites.tsx:23-27 | the opening state lists the whole catalogue in order (the opening state is lines 18-19) |
| SatellitesPage.SearchReadsOnlyName | src/pages/Satellites.tsx:24 | entries with the same name and type are found alike, whatever else differs |
| SatellitesPage.UnusedTypeShowsNothing | src/pages/Satellites.tsx:26 | a type no entry has empties the list |
| SatellitesPage.DefenseShowsNothing | src/pages/Satellites.tsx:9-21 | the `Defense` chip is offered but always shows an empty list |
| LibraryPage.FilteredArticles | src/pages/Library.tsx:24-28 | an article is shown iff its title contains the search case-insensitively and the category is `All` or its own, in order, and as many as match |
| LibraryPage.ShowsEverythingByDefault | src/pages/Library.tsx:24-28 | the opening state lists every article in order (the opening state is lines 19-20) |
| LibraryPage.OpeningListHasSix | src/pages/Library.tsx:9-16 | all six shipped articles are listed at first |
| LibraryPage.SearchIgnoresReadTimeAndBookmark | src/pages/Library.tsx:25 | the read time and bookmark flag do not affect whether an article is found |
| Sandbox.Classify | src/pages/Sandbox.tsx:23-31 | below 300 km the drag warning, above 35000 km the communications note, the revolutions line in between, each iff its range |
| Sandbox.RevolutionsLineShowsNumbers | src/pages/Sandbox.tsx:29 | the middle line starts with `At ` and shows the velocity and the revolutions estimate |
| Sandbox.RevolutionsLineEnding | src/pages/Sandbox.tsx:29 | the middle line ends with ` revolutions per day.` |
| Sandbox.FeedbackText | src/pages/Sandbox.tsx:23-31 | the feedback is the drag warning, the communications note or the revolutions line for the altitude's range, with velocity to 2 and revolutions to 1 decimal |
| Sandbox.WarningOnlyWhenTooLow | src/pages/Sandbox.tsx:24-25 | the drag warning appears iff the altitude is below 300 km |
| Sandbox.EveryFeedbackReachable | src/pages/Sandbox.tsx:63-70 | the initial 400 km is on the slider and each of the three lines is reachable from some slider position (the initial value is line 11) |
| Sandbox.SliderThresholds | src/pages/Sandbox.tsx:63-70 | the thresholds on the slider: 250 warns, 300 and 35000 do not, 35050 is geostationary (the thresholds are lines 23-31) |

## Left out

- Network I/O. `fetch`, the AI chat call, the CORS proxy and the connection test are all left out. Their outcomes enter as reply datatypes, and a thrown exception enters as its own reply variant.
- Orbit propagation, the velocity norm (src/components/MapboxGlobe.tsx:150-153) and the unused analytic helpers in src/services/satelliteService.ts. These are floating-point library computations. Each tick's fix and speed are inputs.
- Sandbox.FeedbackText: the revolutions-per-day estimate (src/pages/Sandbox.tsx:29) is a floating-point formula. It is the parameter `revsPerDay`, so the model does not check the formula's arithmetic.
- Floating-point numbers are reals. `NaN` and `Infinity` are modelled only where the metrics page divides by a zero total (see Findings). Everywhere else a quotient is the exact real.
- `toFixed`, `toLocaleString`, `toLocaleDateString`, `Date` parsing, `JSON.parse`, `JSON.stringify` and URL encoding are parameters. The model states what is passed to them, not the text they produce.
- `toLowerCase` folds ASCII letters only. Case-insensitive searches over other scripts are not modelled.
- Regular expressions are hand-written predicates for the specific patterns in use. No general regex engine is modelled.
- Timers and animation frames are left out: `setTimeout`, `setInterval`, `requestAnimationFrame`, the two-second refresh delay and the fact carousel's interval. Each handler is one atomic step. Timers appear only as the guards that decide whether one exists (`WorkflowMetricsWidget.AutoRefreshPeriod`, `SatelliteFactsWidget.RefreshTimer`, `SatelliteFactsWidget.FactsWidget.CycleTimer`). React's batching and the interleaving of asynchronous handlers are not modelled.
- `localStorage` is a stored-user cell and a key/value map. The JSON round trip of the stored user is taken to be exact.
- Security.ReadAfterWrite: `secureStorage.set` and `get` also pass the value through `JSON.stringify` and `JSON.parse` (src/utils/security.ts:100, 111). The model stores the value itself, so it promises an exact read-back. The real round trip turns `undefined` inside an array into `null` and drops object fields holding `undefined`, so only JSON-faithful values read back unchanged. No modelled caller uses `secureStorage`.
- The prompt texts sent to the AI are built with their fixed wording written out. The numbers and JSON placed in them come from the `toFixed` and `JSON.stringify` parameters, so the model fixes where each value goes but not its digits.
- SmartSatelliteAssistant's quick-action catalogue, its speech input and the clipboard are left out. A quick action enters `HandleSend` as an optional prompt.
- `window.confirm` and `alert` are left out. A confirmation answer is a parameter. An alert is only the abort it accompanies.
- Rendering, icons, colours, animations, Mapbox markers and camera, and the marker element's DOM are left out. `Tick` records a marker position and a centring request instead.
- Inputs are typed. Checks that only an untyped caller could fail are left out, such as the `user_id` type test at src/utils/worqhatApiValidator.ts:35-38. The Dafny types already guarantee them.
- JavaScript object prototypes are left out. A key such as `toString` or `__proto__` is an ordinary key in the model.
- WorkflowMetricsHook.MetricsHook.RecentWorkflows: the start time is a parameter `time` returning an integer, so an unparsable timestamp (`NaN` from `getTime`, which makes the comparator return `NaN`) is not modelled.
- WorkflowMetricsHook: `avg_duration` is an integer number of milliseconds, not a float.
- SatelliteFactsWidget.FactsWidget.NextFact: requires a non-empty fact list. The source calls it only when there is more than one fact (src/components/SatelliteFactsWidget.tsx:69-76, 191), and `SatelliteFactsWidget.FactsWidget.ShowsNavigation` states that this condition meets the requires. With zero facts, JavaScript would give `NaN`.
- SatelliteFactsWidget.FactsWidget.PrevFact: requires a non-empty fact list, for the same reason as `NextFact`.
- EnhancedAiTutor.FullContext: proves only one direction of "the prompt carries the history marker iff there is history": history implies the marker. The converse is false in the source, because `context` or `question` may itself contain `Previous conversation:`; `EnhancedAiTutor.MarkerWithoutHistory` shows such a prompt.
- MainLayout.IsActive: plain string equality, with no contract of its own.
- WorqhatService.Env: one text `typeErrorText` stands for every `TypeError` the engine raises when a property of `null` or `undefined` is read (`ExecuteWorkflow`, and the three reads in `MetricsBodyCheck`). The engine's real message names the property read and whether the value was `null` or `undefined`, so the model does not tell these messages apart.
- ReadyWorkflowExecutor.Executor.ExecuteYourWorkflow: `executeWorkflow` never rejects, since it turns every failure into a failed response, so the only throw the model has is the success toast's `executionId?.slice(0, 8)`, which `ExecuteYourWorkflow` models. The `TypeError` message is a parameter.
- Security.ValidateApiKey: JavaScript's `length` counts UTF-16 code units, while the model counts characters. A key with characters outside the Basic Multilingual Plane can reach 20 code units with fewer characters, so the model rejects it where the source accepts it.
- TriggerValidator.ValidateWorkflowIdFormat: the `length >= 8` checks count characters, not UTF-16 code units, with the same consequence for ids outside the Basic Multilingual Plane.
- SatelliteAiService.Facts: the `length > 20` filter counts characters, not UTF-16 code units.
- SatelliteAiService.Insights: the `length > 10` filter counts characters, not UTF-16 code units.
- WorkflowManager.HandleExecuteWorkflow: the toast's `slice(0, 8)` of the workflow id takes eight characters, not eight UTF-16 code units.
- WorkflowMetricsWidget.ActiveLine: the `slice(0, 8)` of the workflow id takes eight characters, not eight UTF-16 code units.
- Security.MakeItem: `expireMinutes` is an integer. A fractional number of minutes, which gives a fractional expiry instant in the source, is not modelled.
- MetricsValidator.UuidTest: a non-string value fails the test. JavaScript's `regex.test` first converts its argument with `String()`, so an array holding one UUID string would pass in the source.
- Layout-only pages, thin wrappers around the network hook, the example file and the environment glue in security.ts (`validateEnvironment`, `initializeSecurity`, `getCSPDirectives`) are not part of this model.

## Findings

| source | as written | input that shows it | evidently intended | confidence | as-written member | corrected member |
|---|---|---|---|---|---|---|
| src/services/satelliteAiService.ts:308 | the options regex ends each option at a lookahead for a newline and the next option letter, `CORRECT:`, or `$` without the `m` flag, so `$` matches only at the very end of the reply | the reply format the prompt asks for, with option `D)` followed by `\nCORRECT: D`: option D is not matched, so three options are parsed while `correctAnswer` is 3 | all four options parsed, so `correctAnswer` always indexes an option | not executed | SatelliteAiService.QuizAsWrittenLosesLastOption | SatelliteAiService.QuizKeepsEveryOption |
| src/pages/WorkflowMetrics.tsx:402-432 | each status percentage is count / total * 100 with no guard for a zero total | a metrics response with `total_workflows` 0 (and zero counts): each bar reads `NaN%` | 0% for an empty total, as `calculateSuccessRate` does at src/pages/WorkflowMetrics.tsx:119-123 | not executed | WorkflowMetricsPage.EmptyTotalShowsNaN | WorkflowMetricsPage.ShareTextBounded |
