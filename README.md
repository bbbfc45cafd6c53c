# Patient record analysis page, modelled in Dafny

The page is a form for one patient record: name, age, gender, vital signs,
lab values, a comma-separated list of symptoms, and notes. `script.js`
drives it in three steps:

1. When the form is submitted, it turns the form into a JSON payload.
2. It posts the payload to the backend's `/analyze` endpoint.
3. It renders the reply: a risk score and level, a summary, lists of flags
   and recommendations, the reviewed metrics under humanised labels, and a
   timestamp.

A status line reports the backend's state. When the script loads, it checks
health once with an `OPTIONS` request.

The model has five modules:

- `Wrappers`: `Option`.
- `Text`: JavaScript's `trim`, `split` on one character, and `join`. It
  carries the two round trips between `split` and `join`, and a proof that
  `Trim` is the unique infix with only whitespace around it and no
  whitespace at its own two ends. The whitespace `IsWhitespace` describes is
  ECMAScript's WhiteSpace and LineTerminator set, written out character by
  character.
- `Payload`: the payload object literal of `handleAnalysis`. It models the
  symptoms parser, the `|| null` normalisation of vitals and labs, the
  trimmed name, and the `""` default for notes.
- `Label`: the camelCase-to-label expression of `renderMetrics`.
- `View`: the page itself, in two forms.
  - A record `UiState` with pure transition functions. These are `Loading`,
    `Begun`, `Finished`, `Submitted` and `HealthChecked`, plus `Run` for a
    sequence of events.
  - A class `Page` whose fields are the elements the script writes. The
    three result lists are `ListElement` objects holding a `seq<string>`.
    `FormatList` and `Page.RenderMetrics` clear a list and append to it in a
    loop, and are proved to leave it equal to `ListContents` and
    `MetricLines`. Every other `Page` method is proved to change `State()`
    exactly as its transition function says.

The network is an input. The caller gives each request's outcome as a
`Reply`, which is one of:

- `Ok(body)`: a response with an ok status, and its body.
- `NotOk`: a response with any other status.
- `NetworkError(message)`: the request threw, with that message.

Two details of the code shape the model:

- A failed analysis sets the status to `Backend error: <message>`
  (script.js:104). Only the health check writes `Backend: offline`
  (script.js:122).
- A form without a patient name throws at `.trim()` (script.js:53) before
  anything changes, so a submission like that leaves the page as it was.

## Model

| member | source | states |
|---|---|---|
| Text.Trim | script.js:53 | the trim is no longer than the input and has no whitespace at either end |
| Text.TrimCharacterized | script.js:53 | `Trim(s)` is exactly the one infix of `s` that has only whitespace before and after it and none at its own ends (both directions) |
| Text.TrimUnique | script.js:53 | any infix with only whitespace around it and none at its ends is the trim |
| Text.TrimEmpty | script.js:69-70 | a segment trims to `""` (and is dropped by the filter) exactly when it is all whitespace |
| Text.TrimOfPadded | script.js:53 | whitespace added around a trimmed string is removed again by trim |
| Text.TrimAfterWhitespace | script.js:69 | leading whitespace does not change a trim |
| Text.TrimKeepsAbsent | script.js:69 | trimming never adds a character, so a comma-free segment stays comma-free |
| Text.IndexOf | script.js:68 | the position of the first separator, or the length when there is none, with nothing before it being the separator |
| Text.Split | script.js:68 | `split` always gives at least one piece, and no piece contains the separator |
| Text.JoinOfSplit | script.js:68 | joining the pieces of `split` with the separator gives back the input |
| Text.SplitOfJoin | script.js:68 | splitting a join of separator-free pieces gives back the pieces |
| Text.SplitConcat | script.js:68 | splitting `a + "," + b` is splitting `a`, then splitting `b`, in order |
| Payload.OrNull | script.js:57-65 | `value \|\| null` gives null exactly for a missing or empty value, and any other value (`"0"` included) unchanged |
| Payload.Clean | script.js:69-70 | trim-then-filter never lengthens the list and keeps only non-empty trimmed items |
| Payload.CleanKeepsSeparatorFree | script.js:69-70 | trim-then-filter keeps comma-free segments comma-free |
| Payload.CleanAppend | script.js:69-70 | trim-then-filter works segment by segment, preserving order across a concatenation |
| Payload.ParseSymptoms | script.js:67-70 | every parsed symptom is non-empty, trimmed and comma-free, and a missing field gives no symptoms |
| Payload.ParseSymptomsConcat | script.js:67-70 | the text before and after a comma parse independently, and their symptoms keep input order |
| Payload.ParseSymptomsSegment | script.js:67-70 | a comma-free text gives its trim, or nothing when it is blank |
| Payload.SegmentAfterWhitespace | script.js:69 | leading whitespace before a single comma-free segment changes nothing |
| Payload.ParseSymptomsAfterWhitespace | script.js:69 | leading whitespace before the text changes no symptom |
| Payload.ParseSymptomsOfOne | script.js:67-70 | a clean symptom parses to itself alone |
| Payload.ParseSymptomsOfList | script.js:67-70 | clean symptoms written as `"a, b, c"` parse back to the same list, in order |
| Payload.ParseSymptomsTrailingComma | script.js:67-70 | a trailing comma adds no symptom |
| Payload.ParseSymptomsBlankFirst | script.js:67-70 | a blank segment before a comma adds no symptom |
| Payload.ParseSymptomsDropsBlanks | script.js:67-70 | `"f, , c,"` with clean `f` and `c` gives exactly `[f, c]` |
| Payload.ParseSymptomsExample | script.js:67-70 | `"fever, , chills,"` gives `["fever", "chills"]` |
| Payload.BuildPayload | script.js:52-72 | there is no payload exactly when the patient name is missing; otherwise the payload is well formed (trimmed name, no empty vital or lab, clean symptoms), and each field comes from its form value with the defaults of lines 57-71 |
| Label.ToUpper | script.js:37 | an ASCII lower-case letter becomes its capital, 32 code points lower, and every other character is unchanged |
| Label.SpaceBeforeCapitals | script.js:37 | a space goes before each capital, so the length grows by the number of capitals, and the result never starts with a capital |
| Label.UpperFirst | script.js:37 | only the first character changes, to its upper case |
| Label.Humanise | script.js:37 | the label's length is the key's plus its number of `A`-`Z`; it starts with a space for a capital first letter and with the upper-cased first letter otherwise |
| Label.DropInsertedSpacesInverse | script.js:37 | removing each space that precedes a capital undoes the space insertion, spaces in the key included |
| Label.HumaniseRecoversKey | script.js:37 | removing the inserted spaces from the label gives the key with its first character upper-cased |
| Label.HumaniseLeadingCapital | script.js:37 | a key starting with a capital gives a label of a leading space followed by that capital |
| Label.LowerRun | script.js:37 | a run without capitals passes through the space insertion unchanged |
| Label.CapitalWord | script.js:37 | a capital followed by a lower-case run gets exactly one space in front |
| Label.HumaniseThreeWords | script.js:37 | a three-word camelCase key becomes its three words separated by spaces, the first one capitalised |
| Label.HumaniseExample | script.js:37 | `bloodPressureRisk` becomes `Blood Pressure Risk` |
| View.MetricLines | script.js:35-39 | one line per metric entry, in entry order, each `"<label>: <value>"` |
| View.MetricLinesExample | script.js:37-38 | `{bloodPressureRisk: "elevated"}` renders as `Blood Pressure Risk: elevated` |
| View.Loading | script.js:43-46 | the button is disabled exactly while loading, shows `Analyzing...` while loading and `Generate Analysis` otherwise, and ends idle when loading stops; nothing but the button changes |
| View.Begun | script.js:74-83 | while the request is out, the button is busy, the error class is off, the status reads `Backend: analyzing...`, one more request has been sent, no alert is raised, and the results are untouched |
| View.Finished | script.js:85-108 | whatever the reply, the button ends idle. A failure leaves the results as they were, adds the error class, shows `Backend error: ` and the message, and raises one alert. An ok reply shows the panel with the risk score, `<level> risk`, the summary, the three lists and the formatted timestamp, shows `Backend: online`, and raises no alert |
| View.Submitted | script.js:48-109 | a form without a patient name changes nothing. Otherwise one request goes out and the button ends idle. An ok reply shows the panel with the risk score, `<level> risk`, the summary, the three lists and the formatted timestamp, with the status online, no error class and no alert. `NotOk` shows `Backend error: Failed to analyze record`, and a thrown error shows its message; both leave the results unchanged and add the error class |
| View.HealthChecked | script.js:111-124 | one request; the error class is off exactly for an ok reply; online for an ok reply and offline otherwise; nothing else changes |
| View.RunKeepsIdle | script.js:48-124 | starting from an idle page, across any sequence of submissions and health checks, whatever their outcomes, the button is idle between events |
| View.RunWithoutSuccessKeepsResults | script.js:85-105 | with no ok reply to a sent submission, the results panel stays as it was, however many failures there are |
| View.RequestsOf | script.js:48-124 | the reference count for `RunCountsRequests`: it counts the events that send a request, which are health checks (line 113) and submissions with a patient name (lines 53, 79), and is never more than the number of events |
| View.RunCountsRequests | script.js:48-124 | the requests sent are exactly one per health check and one per submission with a patient name; a submission without one sends none |
| View.FormatList | script.js:18-31 | the old content is discarded. Empty or absent items give exactly the fallback; otherwise the list is the items, in order. The result depends only on the arguments, so a second identical call changes nothing |
| View.ListElement.Clear | script.js:19 | the list is emptied |
| View.ListElement.Append | script.js:21-23 | the new item goes at the end |
| View.Page.constructor | script.js:3-16 | the page starts from the state its markup gives, with three distinct result lists |
| View.Page.ToggleLoading | script.js:43-46 | the page changes as `Loading` says |
| View.Page.RenderMetrics | script.js:33-41 | the metrics list is cleared, then holds `MetricLines` of the entries; absent metrics leave it empty, with no fallback item |
| View.Page.ShowSummary | script.js:90-95 | the panel is shown with the risk score, `<level> risk` and the summary |
| View.Page.FillLists | script.js:96-98 | the flags, recommendations and metrics lists are written with their fallbacks |
| View.Page.ShowAnalysis | script.js:89-101 | the page changes as the ok branch of `Finished` says, before `finally` |
| View.Page.BeginAnalysis | script.js:52-83 | the payload sent is `BuildPayload(form)`; without one nothing changes, and otherwise the page changes as `Begun` says |
| View.Page.EndAnalysis | script.js:85-108 | the page changes as `Finished` says |
| View.Page.HandleAnalysis | script.js:48-109 | the payload sent is `BuildPayload(form)`, and the page changes as `Submitted` says |
| View.Page.CheckBackendHealth | script.js:111-124 | the page changes as `HealthChecked` says |
| View.Boot | script.js:126 | loading the script runs the health check exactly once, with no retry: one request, and the status as `HealthChecked` says. The page and its three result lists are fresh, so the submit handler registered next (line 127) can go on to change them |

## Left out

- The network: `fetch`, the HTTP method and headers, `JSON.stringify` and `response.json()` are not modelled. Each request's outcome is a `Reply` parameter, and a request is recorded only as the counter `requestsSent`.
- The DOM binding (script.js:3-16), `event.preventDefault`, `FormData` and the listener registration at line 127 are not modelled. The form is a map from field name to value, where a missing field is `FormData.get` returning `null`.
- `alert` (script.js:105) is recorded only as the counter `alertsRaised`.
- `new Date(...).toLocaleString()` (script.js:99) is locale-dependent, so it is a function parameter `formatTime` that is applied to the timestamp text.
- `Number(...)` for the age (script.js:54) carries JavaScript's numeric coercion and NaN. The age is kept as the opaque `NumberOf(text)`.
- Async scheduling: a submission is its synchronous part (`BeginAnalysis`) followed by the rest once the reply arrives (`EndAnalysis`), and `Run` handles each event to completion. Interleavings are not modelled. That includes the startup health reply (script.js:113-123) arriving while a submission waits (the listener is registered at line 127 before that reply is in). Such a reply can leave the status `Backend: online` with the error class on, which `Submitted` does not cover. It also includes two overlapping submissions.
- Malformed replies are not modelled: a null `metricsReviewed` (which throws in `Object.entries`), `flags` that are not an array, and non-string values that JavaScript converts to text. `Analysis` holds the reply already as text and sequences.
- The initial content of the page (index.html) is not part of this model. The `Page` constructor takes it as a `UiState`.
- Label.ToUpper: only ASCII lower-case letters are upper-cased. `toUpperCase` on other characters (such as `ß` or `é`) follows Unicode case mapping, which is not modelled.
- Text.Trim: strings are sequences of Unicode scalar values, not the UTF-16 code units of JavaScript, so a lone surrogate cannot occur.
- View.MetricLines: the entries are taken in the order given, which is the order `Object.entries` produces. The ordering rules for integer-like keys are not modelled.
