# Web-scraper front end: verified model of its component logic

This project models, in Dafny, the behaviour of the three React components of
a browser front end for a web-scraping and AI-analysis service:

- **Dashboard** (`src/components/Dashboard.jsx`): the relative-time label of
  each scrape (`getTimeAgo`), the 24-hour "new" highlight (`isRecentScrape`),
  loading the statistics and the five latest scrapes (`loadDashboardData`,
  run on mount and every 5 minutes) and deleting a scrape (`handleDelete`).
- **DataDisplay** (`src/components/DataDisplay.jsx`): where the content, the
  AI analysis and the content statistics are found inside `data`, when the
  "No AI analysis" body shows, how long lists are cut short, which tab body
  renders, and the expansion flags of the collapsible sections.
- **ScrapeForm** (`src/components/ScrapeForm.jsx`): the submit handler
  (URL validation, request payload, preview or save endpoint, the parent's
  callback, the toast text, clearing the fields, the `loading` flag) and the
  form's field setters.

Supporting modules model what these components stand on: JavaScript values
and truthiness, property reads that throw on null or undefined, `||`
fallback chains, `String.prototype.trim`, decimal printing (`JsValue`,
`JsString`); the backend as requests and settled outcomes (`Api`); the toast
surface as an append-only log (`Toasts`).

The state a component keeps (`useState`) is a class whose fields the
handlers assign. Each `async` handler is split at its `await`: one method
runs up to the call and returns the request it issues, a second runs the
rest once the call has settled, given the `Outcome` (the response body, or a
rejection with the error response's body and the error's message). This
makes the state while a request is outstanding observable (the spinner is
on), and lets several requests be outstanding at once as in the browser.
The clock reading, the date parsed from a record, and the answer to
`window.confirm` are parameters.

Two behaviours of the code the proofs bring out:

- In `loadDashboardData`, `setStats` runs before the records' body is read.
  If the statistics call returns a usable body and the records call returns
  a null body, the statistics are replaced, the records are not, and the
  error toast shows (`Dashboard.LoadEffectOf`). With either call rejected,
  nothing changes.
- In `DataDisplay`, the third place the analysis is looked up
  (`data.content.aiAnalysis`) can never decide the result: whenever it is
  truthy, `content` is `data.content` and the first lookup already found it
  (`DataDisplay.ThirdCandidateUnreachable`).

## Model

| member | source | states |
|---|---|---|
| `RelativeTime.TimeAgo` | src/components/Dashboard.jsx:56-76 | an invalid date gets the calendar date; minute counts are 1..59, hour counts 1..23, day counts 2..6 |
| `RelativeTime.TimeAgoBuckets` | src/components/Dashboard.jsx:59-68 | each label is chosen on exactly one half-open age range: "Just now" below 1 minute (all future timestamps included), minutes below 1 hour, hours below 24 hours, "Yesterday" from 24 up to 48 hours, days from 2 up to 7 days, the calendar date from 7 days on; the count is the age floored to the unit |
| `RelativeTime.FloorBounds` | src/components/Dashboard.jsx:60-62 | `Math.floor(ms / k)` brackets the age: floor·k ≤ age < floor·k + k, also for negative ages |
| `RelativeTime.TimeAgoMonotone` | src/components/Dashboard.jsx:59-68 | an older timestamp never gets a fresher bucket, and within one bucket never a smaller count |
| `RelativeTime.MinutePluralisation` | src/components/Dashboard.jsx:65 | "minute" is singular exactly when the count is 1 |
| `RelativeTime.HourPluralisation` | src/components/Dashboard.jsx:66 | "hour" is singular exactly when the count is 1 |
| `RelativeTime.LabelText` | src/components/Dashboard.jsx:64-68 | exactly the labels that show a count end with " ago" |
| `RelativeTime.LabelTextInjective` | src/components/Dashboard.jsx:64-68 | two relative labels with the same text are the same bucket with the same count |
| `RelativeTime.IsRecentScrape` | src/components/Dashboard.jsx:79-84 | recent exactly when the date is valid and now − past ≤ 86 400 000 ms: the 24-hour bound is inclusive and future timestamps are recent |
| `RelativeTime.RecentAgreesWithLabel` | src/components/Dashboard.jsx:128-129 | for one clock reading, every scrape labelled "Just now", in minutes or in hours is highlighted; a "Yesterday" one only at exactly 24 hours; older ones never |
| `JsString.NatTextInjective` | src/components/Dashboard.jsx:65-68 | distinct counts print as distinct decimal text |
| `Dashboard.DashboardState.constructor` | src/components/Dashboard.jsx:7-9 | no statistics, no records, spinner on |
| `Dashboard.DashboardState.StartLoad` | src/components/Dashboard.jsx:11-28 | the spinner turns on and the statistics GET and the page-1, limit-5 records GET go out together (on mount and on each 5-minute tick) |
| `Dashboard.LoadEffectOf` | src/components/Dashboard.jsx:25-36 | both snapshots are replaced, with the bodies' `data`, exactly when both calls respond with readable bodies; the statistics are replaced exactly when both calls respond and the statistics body is readable; a rejection of either call, or a null or undefined statistics body, replaces neither and fails; the records are never replaced without the statistics; failure and "records not replaced" coincide |
| `Dashboard.DashboardState.SettleLoad` | src/components/Dashboard.jsx:29-36 | the new statistics and records are those of `LoadEffectOf`, exactly one error toast on failure and none on success, and the spinner is off afterwards |
| `Dashboard.DashboardState.RequestDelete` | src/components/Dashboard.jsx:39-45 | a declined confirmation issues no request and changes no state and no toast; a confirmed one opens one "Deleting..." toast under a fresh id, advances the id counter by one, and issues the DELETE for that id |
| `Dashboard.DeleteFailureText` | src/components/Dashboard.jsx:50 | the failure text is the error response's `message`, else the error's `message`, else "Failed to delete", and is never empty |
| `Dashboard.DeleteToast` | src/components/Dashboard.jsx:44-51 | success exactly when the call responds with a readable body, with the response's `message` or "Deleted successfully!"; a rejection is an error toast with the failure text of the error; a null or undefined body is an error toast with the failure text of the TypeError the `message` read throws |
| `Dashboard.DashboardState.SettleDelete` | src/components/Dashboard.jsx:44-52 | the loading toast is updated once with `DeleteToast`; a reload starts exactly on success; the statistics and records are untouched |
| `JsValue.FirstNonEmpty` | src/components/ScrapeForm.jsx:54-57 | a `||` chain of strings yields the first non-empty candidate, every earlier one being empty, or the fallback when all are empty |
| `JsValue.FirstNonEmptyPicks` | src/components/ScrapeForm.jsx:54-57 | a non-empty candidate preceded only by empty ones is the result |
| `JsValue.FirstNonEmptyFallback` | src/components/ScrapeForm.jsx:54-57 | all candidates empty gives the fallback |
| `JsValue.Read` | src/components/Dashboard.jsx:29-30 | a property read throws exactly on null or undefined |
| `JsValue.OptProp` | src/components/ScrapeForm.jsx:54-55 | optional chaining on null or undefined is undefined, and on any other value is the plain property read; a truthy result is an own property of an object |
| `JsValue.FirstNonEmptyPrecedence` | src/components/ScrapeForm.jsx:54-57 | each candidate of a `||` chain wins exactly when it is non-empty and every earlier one is empty; all empty gives the fallback |
| `JsValue.Truthy` | src/components/DataDisplay.jsx:9 | the falsy values are exactly undefined, null, false, 0 and "" |
| `JsValue.Prop` | src/components/DataDisplay.jsx:22 | a read gives an object's own property, and undefined for a missing key or a non-object |
| `JsValue.KeyCount` | src/components/DataDisplay.jsx:193 | `Object.keys(v).length` is 0 exactly when `v` is not a non-empty string, array or object |
| `Api.ErrorField` | src/components/Dashboard.jsx:50 | `error.response?.data?.k` gives "" when the error carries no response body; when the body holds a string under `k` it gives that string; a non-empty text only comes from a string under `k` |
| `JsValue.Or` | src/components/DataDisplay.jsx:22 | `a || b` is `a` when `a` is truthy and `b` otherwise, and is truthy exactly when either is |
| `DataDisplay.Render` | src/components/DataDisplay.jsx:9-36 | a falsy `data` renders only the placeholder; otherwise content, analysis and statistics are resolved and the bodies are those `TabBodies` gives for the active tab, at most one |
| `DataDisplay.ContentOf` | src/components/DataDisplay.jsx:22 | `content` is `data.content` when truthy, else `data`, and is always truthy |
| `DataDisplay.AnalysisOf` | src/components/DataDisplay.jsx:25-32 | the resolved analysis is null or truthy |
| `DataDisplay.ThirdCandidateUnreachable` | src/components/DataDisplay.jsx:25-32 | the three-way lookup equals the lookup of `content.aiAnalysis` then `data.ai_analysis`, so its third branch never decides |
| `DataDisplay.StatsOf` | src/components/DataDisplay.jsx:36 | the statistics are `content.contentStats` when truthy, else an empty object |
| `DataDisplay.NoAnalysisShown` | src/components/DataDisplay.jsx:193 | the analysis renders exactly for a non-empty string, array or object; a truthy number or boolean still shows "No AI analysis" |
| `DataDisplay.NoAnalysisIff` | src/components/DataDisplay.jsx:193 | "No AI analysis" shows exactly when the analysis is null or has no keys |
| `DataDisplay.Truncate` | src/components/DataDisplay.jsx:156 | `slice(0, n)` is the prefix of length min(length, n) |
| `DataDisplay.ListPanel` | src/components/DataDisplay.jsx:130-186 | a list section shows only for a non-empty array; expanded, it shows exactly `slice(0, limit)` of the list (all of a list within the limit), and a "more" count exactly when counting is on and the list is longer, equal to length − limit, with shown + more = total |
| `DataDisplay.OriginalDataOf` | src/components/DataDisplay.jsx:130-186 | the paragraphs, links and images sections each show exactly when the field is a non-empty array, and are expanded exactly when that section's flag is also set |
| `DataDisplay.OriginalDataLimits` | src/components/DataDisplay.jsx:137-177 | the first 10 paragraphs, 20 links and 12 images of their lists (all of a shorter list); "...and N more" only under paragraphs, exactly above 10, with N = length − 10 |
| `DataDisplay.TabBodies` | src/components/DataDisplay.jsx:456-458 | exactly one body for each of the three tab values and none for any other |
| `DataDisplay.Toggled` | src/components/DataDisplay.jsx:38-43 | toggling negates the flag of that section and keeps every other section's flag |
| `DataDisplay.ToggleTwice` | src/components/DataDisplay.jsx:38-43 | toggling a section twice restores every section's flag |
| `DataDisplay.DataDisplayState.constructor` | src/components/DataDisplay.jsx:6-7 | the active tab starts as 'ai-analysis' with no section expanded |
| `DataDisplay.DataDisplayState.SetActiveTab` | src/components/DataDisplay.jsx:434-451 | sets the tab and nothing else |
| `DataDisplay.DataDisplayState.ToggleSection` | src/components/DataDisplay.jsx:38-43 | the sections become `Toggled` of the old ones; the tab is unchanged |
| `JsString.TrimStart` | src/components/ScrapeForm.jsx:16 | removes exactly the leading white space |
| `JsString.TrimEnd` | src/components/ScrapeForm.jsx:16 | removes exactly the trailing white space |
| `JsString.Trim` | src/components/ScrapeForm.jsx:29 | the result is a slice with only white space cut off either side, and neither starts nor ends with white space |
| `JsString.TrimEmptyIffBlank` | src/components/ScrapeForm.jsx:16 | a string trims to empty exactly when it is all white space |
| `JsString.NatText` | src/components/Dashboard.jsx:65 | a count prints as non-empty digits with no leading zero |
| `JsString.NatTextValue` | src/components/Dashboard.jsx:65 | the printed digits, read back as a decimal number, give the count |
| `ScrapeForm.PayloadOf` | src/components/ScrapeForm.jsx:25-30 | the URL is sent untrimmed; the prompt is sent trimmed and non-empty, or omitted exactly when it is blank; method and AI flag as set |
| `ScrapeForm.RequestFor` | src/components/ScrapeForm.jsx:32-34 | a preview goes to the preview endpoint, a save to the scrape endpoint, with the payload unchanged |
| `ScrapeForm.CallbackFor` | src/components/ScrapeForm.jsx:36-40 | `onPreview` exactly for a preview when it is given; otherwise `onScrapeComplete` when given (a preview without `onPreview` included); otherwise none |
| `ScrapeForm.ErrorText` | src/components/ScrapeForm.jsx:54-59 | "❌ " followed by the response `details`, else the response `message`, else the error's `message`, else "Failed to scrape URL" |
| `ScrapeForm.SettleEffectOf` | src/components/ScrapeForm.jsx:36-59 | a rejection reaches no callback and shows `ErrorText`; a response reaches `CallbackFor`'s callback; a callback that throws turns the toast into `ErrorText` of what it threw; otherwise a preview shows the fixed preview text, a save shows the response `message` or the default, and a save with a null or undefined body shows `ErrorText` of the TypeError the `message` read throws; every error toast starts with "❌ "; fields are cleared exactly after a successful save whose callback did not throw |
| `ScrapeForm.AppCallbackError` | src/App.jsx:11-19 | the application's two callbacks throw exactly on a null or undefined body, with the TypeError of reading `data` |
| `ScrapeForm.NullBodyWithAppCallbacks` | src/App.jsx:11-19 | with the application's callbacks, a null body, preview or save, reaches the callback and then shows "❌ Cannot read properties of null (reading 'data')", and clears no field |
| `ScrapeForm.ScrapeFormState.constructor` | src/components/ScrapeForm.jsx:7-12 | empty URL and prompt, method "auto", AI analysis on, prompt input hidden, not loading |
| `ScrapeForm.ScrapeFormState.SetUrl` | src/components/ScrapeForm.jsx:77 | sets the URL only |
| `ScrapeForm.ScrapeFormState.SetCustomPrompt` | src/components/ScrapeForm.jsx:117 | sets the prompt only |
| `ScrapeForm.ScrapeFormState.SetAnalyzeWithAI` | src/components/ScrapeForm.jsx:88 | sets the AI flag only |
| `ScrapeForm.ScrapeFormState.TogglePromptInput` | src/components/ScrapeForm.jsx:104 | flips the prompt input's visibility only |
| `ScrapeForm.ScrapeFormState.Submit` | src/components/ScrapeForm.jsx:14-34 | a blank URL shows one warning, sends nothing, opens no loading toast and leaves `loading`; otherwise a loading toast opens, `loading` is on, and the `PayloadOf` request goes to `RequestFor`'s endpoint |
| `ScrapeForm.ScrapeFormState.Settle` | src/components/ScrapeForm.jsx:36-62 | the callback, toast and field clearing are those of `SettleEffectOf` for the given outcome and callback behaviour, and `loading` is off whatever the outcome |
| `ScrapeForm.ScrapeFormState.HandleSubmit` | src/components/ScrapeForm.jsx:14-63 | a blank URL sends nothing, delivers nothing, changes no field and shows only the "Please enter a URL" warning; otherwise one request is sent, `loading` is on while it is outstanding and off afterwards, the response goes to the callback `SettleEffectOf` names, the toasts are one loading toast and then its update to `SettleEffectOf`'s toast, the id counter advances by one (by none for a blank URL), and the URL is empty afterwards exactly after a successful save whose callback did not throw, with the prompt emptied alongside |
| `Toasts.Toaster.constructor` | src/utils/toast.js:1-2 | the model's starting state for the toast surface the module imports: an empty log, with no loading id handed out yet |
| `Toasts.Toaster.ShowLoading` | src/utils/toast.js:59-64 | a loading toast gets the next id, which no earlier loading toast in the log has |
| `Toasts.Toaster.Update` | src/utils/toast.js:67-94 | appends one update of the given toast and keeps ids |
| `Toasts.Toaster.Show` | src/utils/toast.js:23-56 | appends one plain toast |

## Left out

- Markup, inline styles, CSS classes and the emoji decoration of the JSX are presentation with nothing to state; only the choices that decide what renders are modelled.
- The 5-minute `setInterval` and its `clearInterval` on unmount are scheduling: each tick runs exactly `StartLoad`, and the timer itself is not modelled.
- `toLocaleDateString` and `toLocaleString` depend on the host's locale: the 7-days-and-older branch is the opaque label `CalendarDate`, and the absolute date shown beside each scrape is not modelled.
- Clipboard, `Blob`, object URLs, the JSON download and `JSON.stringify` (copy, download and the Raw JSON text) are browser APIs; the Raw JSON tab is a body without content.
- The fields of the AI-analysis body, the page header, metadata, headings and content-statistics badges, and the Dashboard's statistic cards (`stats?.totalScraped || 0`) are rendering of values the model resolves but does not lay out.
- `src/App.jsx`'s tab navigation between the components is routing (only what its two callbacks throw is modelled); `src/services/api.js` (base URL, 60-second timeout, paths) is configuration: calls are request values and settled outcomes.
- `window.confirm` is the boolean `confirmed`; `console.log`/`console.error` are dropped.
- JavaScript numbers are modelled as integers. `getTimeAgo` floors a floating quotient and `isRecentScrape` compares a floating quotient; for ages below 2^53 ms in magnitude these agree with the integer and real arithmetic used here.
- Dates: parsing `created_at` is the `Instant` parameter (a time or the invalid date).
- The clock: `getTimeAgo` and `isRecentScrape` each call `new Date()`; the model gives both one reading `now`, so `RelativeTime.RecentAgreesWithLabel` holds for a single reading and says nothing about two readings that straddle the 24-hour edge.
- `Dashboard.DeleteToast`: a non-string `message` in a response or error body is treated as absent, where the source would render the value itself.
- `Dashboard.DeleteFailureText`: a non-string `message` in the error body is treated as absent, where the source would pass the value on.
- `ScrapeForm.ErrorText`: a non-string `details` or `message` in the error body is treated as absent, where the source would convert it to text.
- `ScrapeForm.SettleEffectOf`: a non-string `message` in a save response is treated as absent.
- `DataDisplay.ListPanel`: a list field holding a non-empty string, or an object with a positive own `length` key (either of which the source would show as a section and fail to map when expanded), is treated as no section.
- Property reads see an object's own keys only: inherited properties such as a string's `length` read as a property are not modelled.
- The parent's callbacks are given by what they throw (`callbackError`); their other effects (the application's `setSelectedData` and tab switch) are not modelled, and a call is recorded in `delivered`.
- React's batching of state updates and the staleness of closures are not modelled: an assignment is visible at once.
- The text of a TypeError raised by reading a property of a null or undefined body is V8's wording; other engines word it differently.
