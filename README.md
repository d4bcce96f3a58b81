# Agent Loss Prevention audit: a Dafny model of the audit core

The application audits a web shop for the ways an AI shopping agent fails on
it. A backend client asks the TinyFish agent to inspect a URL and extracts a
JSON audit from its answer. The audit holds three issue lists: technical
failures, contextual errors and competitive gaps. Each issue has a severity:
critical, high, medium or low. The frontend computes metrics from the audit
and renders a dashboard.

This project models the computations at the centre of that flow and proves
what those computations promise:

- `Api` (frontend `api.js`): `processAuditData` derives metrics and the combined issue list. `formatDate` buckets an elapsed time.
- `Models` (backend `models.py`): the closed severity enumeration, the issue types, and the derived properties of `AuditResult`.
- `Dashboard` (frontend `dashboard.js`), covering these pieces:
  - URL normalisation, and the submit handler's page state, as a class.
  - The risk tier.
  - The executive-summary insights, as a method that pushes lines one by one.
  - The fix-time estimate.
  - The stable severity sort.
  - What an issue card shows.
- `TinyfishClient` (backend `tinyfish_client.py`), covering these pieces:
  - `parse_tinyfish_response`.
  - The server-sent-event loop of `run_audit`, as a step function, its fold, and a loop method proved equal to the fold.
- `Parity`: the backend record serialised for the frontend. It proves that both sides compute the same metrics, and it checks the issue-card category against the issue's real type.
- `Wrappers`, `Json` and `Text` are support modules. They hold Option/Result, a JSON value, and the string operations the sources use: JavaScript `trim`, Python whitespace, `find`/`rfind`, slicing and substring search.

Conventions:
- Integers are unbounded. Every quantity in the core is a small non-negative count or a millisecond difference, so nothing wraps around.
- Fractional hours in the fix-time estimate are counted in quarter-hours, where they are exact.
- The JSON decoder and encoder, the clock and the backend request are parameters of the operations that use them.
- Source cells below are relative to the repository root.

## Model

| member | source | states |
|---|---|---|
| Text.Trim | frontend/static/js/dashboard.js:106 | `String.prototype.trim`: the result has no leading or trailing whitespace, and it is empty exactly when the input is all whitespace; TrimIsInfix states which part of the input it is |
| Text.TrimIsInfix | frontend/static/js/dashboard.js:106 | the trimmed string is the part of the input that starts at some k, with only whitespace before k and only whitespace after it |
| Text.TrimmedIsFixed | frontend/static/js/dashboard.js:106 | trimming a string that has no surrounding whitespace returns it unchanged |
| Text.Find | backend/tinyfish_client.py:24 | `str.find`: -1 exactly when the character is absent; otherwise the index of its first occurrence |
| Text.RFind | backend/tinyfish_client.py:25 | `str.rfind`: -1 exactly when the character is absent; otherwise the index of its last occurrence |
| Text.Slice | backend/tinyfish_client.py:37 | Python slicing `s[i:j]`: the substring when i < j, and empty otherwise |
| Api.WithSeverity | frontend/static/js/api.js:59-62 | `filter(i => i.severity === level)`: no longer than the input, and every element has exactly that severity string |
| Api.WithSeverityContents | frontend/static/js/api.js:59-62 | the filtered list holds every issue of that level as many times as the input does and no other issue; an issue is in it iff it is in the input with that severity |
| Api.WithSeverityCountsLevel | frontend/static/js/api.js:59-62 | the filtered length is the number of issues whose severity is that level |
| Api.WithSeverityConcat | frontend/static/js/api.js:59-62 | filtering distributes over concatenation |
| Api.RiskScore | frontend/static/js/api.js:65-70 | `Math.min(100, …)`: at most 100, never above the weighted sum, and equal to it below 100 |
| Api.ProcessAuditData | frontend/static/js/api.js:51-87 | allIssues is the three lists in order, with a missing list counted as empty; totalIssues is its length and the sum of the category counts; each severity count is that level's multiplicity; riskScore is min(100, 25c+10h+5m+2l); every other input key passes through unchanged, and `metrics`/`allIssues` override input keys of those names |
| Api.SeverityCountsBound | frontend/static/js/api.js:59-62 | critical+high+medium+low ≤ totalIssues, with equality iff every severity is one of the four strings |
| Api.SeverityCountSnoc | frontend/static/js/api.js:59-62 | appending one issue raises the count of its own severity string by one and leaves every other count unchanged |
| Api.NoListsNoIssues | frontend/static/js/api.js:52-86 | a record with all three lists absent yields no issues, totalIssues 0 and riskScore 0 |
| Api.ReprocessIsIdentity | frontend/static/js/api.js:72-86 | processing a processed record again, with the computed keys allIssues and metrics present under any values or absent, recomputes exactly the same record |
| Api.AddingIssuesNeverLowersRisk | frontend/static/js/api.js:65-70 | extending any of the three lists never lowers riskScore |
| Api.OneOfEachScores42 | frontend/static/js/api.js:65-70 | one issue of each severity scores 42 |
| Api.FiveCriticalClampTo100 | frontend/static/js/api.js:65-70 | five critical issues score the cap, 100 |
| Api.ElapsedSince | frontend/static/js/api.js:95-105 | the bucket: "just now" iff under a minute (future dates included); otherwise minutes, hours or days by the first matching threshold, with the amount being the floored quotient and at least 1 |
| Api.FormatDate | frontend/static/js/api.js:92-105 | "Just now" iff under a minute; otherwise exactly "<n> <unit>" then "s" iff n > 1 then " ago": the prefix, the suffix and the total length are all pinned |
| Models.NewAuditResult | backend/models.py:45-52 | omitted issue lists default to empty; given issue lists and the other fields are kept |
| Models.AllIssues | backend/models.py:86-88 | all_issues: technical, then contextual, then competitive, position by position |
| Models.TotalIssues | backend/models.py:54-56 | total_issues is the length of all_issues |
| Models.WeightOf | backend/models.py:58-83 | `sum(w for issue in all_issues if issue.severity == s)`, summed from the front; CountMatchesPositions and WeightIsScaledCount state what it counts |
| Models.CriticalCount | backend/models.py:58-60 | critical_count, the sum of 1 over the critical issues; Parity.MetricsAgree ties it to the frontend |
| Models.HighCount | backend/models.py:62-64 | high_count, the sum of 1 over the high issues |
| Models.MediumCount | backend/models.py:66-68 | medium_count, the sum of 1 over the medium issues |
| Models.LowCount | backend/models.py:70-72 | low_count, the sum of 1 over the low issues |
| Models.WeightIsScaledCount | backend/models.py:75-83 | `sum(w for … if severity == s)` is w times the count of s |
| Models.CountMatchesPositions | backend/models.py:58-72 | each count is the number of positions holding that severity |
| Models.CountOfPrefix | backend/models.py:58-72 | the count of a prefix is the number of positions below its length that hold the severity |
| Models.PositionsBelowSnoc | backend/models.py:58-72 | one more position adds one to the count exactly when it holds the severity |
| Models.CountOfSnoc | backend/models.py:58-72 | the last issue adds one to the count of its own severity and to no other count |
| Models.RiskScore | backend/models.py:74-84 | risk_score is at most 100 and equals min(100, 25c+10h+5m+2l) |
| Models.ClosedEnumCounts | backend/models.py:7-11 | with a closed enumeration the four counts of any list add up to its length |
| Models.CountsSumToTotal | backend/models.py:58-72 | critical_count+high_count+medium_count+low_count == total_issues |
| Models.DefaultsHaveNoRisk | backend/models.py:49-51 | a result with defaulted lists has no issues, zero counts and risk_score 0 |
| Dashboard.NormalizeUrl | frontend/static/js/dashboard.js:106-116 | an error with "Please enter a valid URL" iff the trimmed input is empty; otherwise the result has an http(s) scheme, and it is the trimmed input when that already matches `^https?://` case-insensitively, or "https://" plus the trimmed input when it does not |
| Dashboard.PrefixedHasScheme | frontend/static/js/dashboard.js:114-116 | a URL with "https://" prepended always passes the scheme test, so the prefix is added at most once |
| Dashboard.NormalizeIsIdempotent | frontend/static/js/dashboard.js:106-116 | normalising a normalised URL changes nothing |
| Dashboard.NormalizedEndsTrimmed | frontend/static/js/dashboard.js:106-116 | a normalised URL is non-empty and ends with the last character of the trimmed input, which is not whitespace |
| Dashboard.SchemeUrlIsFixed | frontend/static/js/dashboard.js:106-116 | a URL that already has an http(s) scheme and no trailing whitespace is sent unchanged |
| Dashboard.DashboardState.constructor | frontend/static/js/dashboard.js:6 | no audit shown and no error at start |
| Dashboard.DashboardState.HandleAuditSubmit | frontend/static/js/dashboard.js:102-142 | an empty URL adds the error and sends nothing; otherwise the normalised URL is sent; on success currentAuditData is the processed record; on failure "Audit failed: " plus the message is shown and currentAuditData is kept |
| Dashboard.DashboardState.ShowResponse | frontend/static/js/dashboard.js:123-142 | a successful request makes currentAuditData the processed record and adds no error; a failed one adds "Audit failed: " plus the message and keeps currentAuditData |
| Dashboard.TierOf | frontend/static/js/dashboard.js:214-228 | Critical iff ≥75, High iff 50–74, Medium iff 25–49, Low iff below 25 |
| Dashboard.TierLabel | frontend/static/js/dashboard.js:216-228 | the risk level text of each tier; TierDisplayOfScore states it by score band |
| Dashboard.TierColor | frontend/static/js/dashboard.js:216-228 | the risk colour of each tier; TierDisplayOfScore states it by score band |
| Dashboard.TierDisplayOfScore | frontend/static/js/dashboard.js:216-228 | "Critical Risk" iff the score is at least 75, "High Risk" iff 50–74, "Medium Risk" iff 25–49, "Low Risk" with colour #10B981 iff below 25, and each band's colour variable |
| Dashboard.TierIsMonotone | frontend/static/js/dashboard.js:214-228 | a higher score never gets a lower tier |
| Dashboard.ChainMembers | frontend/static/js/dashboard.js:258-299 | a line is in the summary exactly when its condition holds |
| Dashboard.SummaryMembers | frontend/static/js/dashboard.js:258-299 | the membership condition of every insight line, in terms of the record's metrics and list lengths |
| Dashboard.SummaryFor | frontend/static/js/dashboard.js:254-299 | the summary lines for given metrics and list lengths; SummaryMembers, SummaryForIsChain and SummaryForIsOrdered state them |
| Dashboard.SummaryLines | frontend/static/js/dashboard.js:254-299 | the summary lines of a record, from its metrics and the lengths of its three lists; ExecutiveSummary computes them |
| Dashboard.ExecutiveSummary | frontend/static/js/dashboard.js:254-299 | the pushed insights, then the template's "no issues" line, equal the specified summary lines |
| Dashboard.RevenueLineIff | frontend/static/js/dashboard.js:261-264 | the loss line appears iff 50000c+15000h > 0, and it shows 50c+15h thousand |
| Dashboard.RiskLinesIff | frontend/static/js/dashboard.js:266-276 | the critical line appears iff there are critical issues; the bottom-quartile line iff the score is ≥75; the above-average line iff it is 50–74 |
| Dashboard.TechnicalVersusContextual | frontend/static/js/dashboard.js:278-285 | the technical line appears iff techCount > contextCount; the contextual line iff techCount ≤ contextCount and contextCount > 0; never both |
| Dashboard.NoIssuesLineIff | frontend/static/js/dashboard.js:287-299 | the competitive line appears iff there are gaps, and the "no issues" line iff totalIssues is 0 |
| Dashboard.AppendWhenInOrder | frontend/static/js/dashboard.js:258-291 | pushing a line that comes later than all lines so far keeps them in order |
| Dashboard.WhenChainInOrder | frontend/static/js/dashboard.js:258-299 | whatever the conditions, the chosen lines sit in the summary's fixed order |
| Dashboard.SummaryIsOrdered | frontend/static/js/dashboard.js:258-299 | the summary's lines come in fixed order, each at most once |
| Dashboard.SummaryForIsOrdered | frontend/static/js/dashboard.js:258-299 | for any metrics and list lengths the summary lines are in the fixed order |
| Dashboard.SummaryForIsChain | frontend/static/js/dashboard.js:258-299 | bridge lemma: unfolds SummaryFor into the eight conditional lines, concatenated in the order the code pushes them, with the loss as 50000 per critical plus 15000 per high, for use inside ExecutiveSummary's proof |
| Dashboard.FixTimelineOf | frontend/static/js/dashboard.js:474-484 | the parts the timeline shows are 8 quarter-hours (2 h) per critical, 4 (1 h) per high, and 2 (30 min) per medium plus 1 (15 min) per low; workDays is the ceiling of their total over 24 quarter-hours (6 hours), and 0 iff all counts are 0 |
| Dashboard.Insert | frontend/static/js/dashboard.js:546-550 | one insertion step of the sort: the result is a permutation of the list plus the element |
| Dashboard.InsertKeepsSorted | frontend/static/js/dashboard.js:546-550 | inserting into a sorted list keeps it sorted |
| Dashboard.AppendNoMoreSevere | frontend/static/js/dashboard.js:546-550 | appending an issue that the comparator puts after every issue of a sorted list keeps it sorted |
| Dashboard.SortBySeverity | frontend/static/js/dashboard.js:546-550 | the sorted copy is a permutation of allIssues |
| Dashboard.SortIsSorted | frontend/static/js/dashboard.js:546-550 | the sorted copy orders critical, high, medium, low |
| Dashboard.InsertIsStable | frontend/static/js/dashboard.js:546-550 | an insertion keeps the order within each severity |
| Dashboard.SortIsStable | frontend/static/js/dashboard.js:546-550 | the sort keeps the original order among equal severities |
| Dashboard.AbsentLevelFiltersEmpty | frontend/static/js/dashboard.js:546-550 | filtering a list for a level it does not contain gives nothing |
| Dashboard.SortedIsGrouped | frontend/static/js/dashboard.js:546-550 | a sorted list is its four severity groups laid end to end |
| Dashboard.GroupedSnoc | frontend/static/js/dashboard.js:546-550 | appending an issue no more severe than the rest (one the comparator ranks no earlier) appends it to its own severity group and leaves the others unchanged |
| Dashboard.SingleByRank | frontend/static/js/dashboard.js:547 | one issue of known severity falls into exactly the group its rank names |
| Dashboard.StableSortIsUnique | frontend/static/js/dashboard.js:546-550 | any sorted list with the same severity groups is SortBySeverity's result, so the stable sort is fully determined |
| Dashboard.InferCategoryAsWritten | frontend/static/js/dashboard.js:584-599 | as written: Technical Failure iff error_type is truthy; otherwise a truthy content gives Contextual Error; otherwise Competitive Gap |
| Dashboard.InferCategory | frontend/static/js/dashboard.js:584-599 | corrected: Contextual Error iff content is present; Technical Failure iff content is absent and error_type present |
| Dashboard.Title | frontend/static/js/dashboard.js:601 | the first truthy of element, content, missing_element, else "Issue" |
| Dashboard.Location | frontend/static/js/dashboard.js:602 | the location if truthy, else "Unknown location" |
| Dashboard.IssueCard | frontend/static/js/dashboard.js:573-602 | the card as written: "Technical Failure" with the transaction impact iff error_type is truthy; otherwise "Contextual Error" with the agent confusion iff content is truthy; otherwise "Competitive Gap" with the agent impact; title, location and severity as stated by Title and Location |
| Dashboard.CorrectedIssueCard | frontend/static/js/dashboard.js:584-599 | the card with the corrected inference: "Contextual Error" with the agent confusion iff content is present; "Technical Failure" with the transaction impact iff content is absent and error_type present; "Competitive Gap" with the agent impact otherwise |
| Dashboard.CategoryLabel | frontend/static/js/dashboard.js:584-599 | the category label of each category; its values are stated by IssueCard |
| Dashboard.ImpactLabel | frontend/static/js/dashboard.js:584-599 | the impact label of each category; its values are stated by IssueCard |
| Dashboard.ImpactText | frontend/static/js/dashboard.js:584-599 | the impact field of each category: transaction_impact, agent_confusion or agent_impact, as IssueCard states |
| TinyfishClient.JsonCandidate | backend/tinyfish_client.py:24-37 | nothing when `{` or `}` is missing; otherwise `result[find('{') : rfind('}')+1]`, which is empty when the last `}` precedes the first `{`, and otherwise starts with `{`, ends with `}`, and has no `{` before it and no `}` after it |
| TinyfishClient.ParseTinyfishResponse | backend/tinyfish_client.py:14-64 | total; url is always the argument and audit_date the current time; with no braces, or when decoding fails or gives a non-object, the empty audit; otherwise the decoded keys, with url overwritten |
| TinyfishClient.EmptyAudit | backend/tinyfish_client.py:29-35 | the fallback record: the url, the current time and three empty issue lists |
| TinyfishClient.SurroundingTextIgnored | backend/tinyfish_client.py:22-37 | prose around a single brace-delimited block does not change what is decoded |
| TinyfishClient.FailedDecodeGivesEmptyAudit | backend/tinyfish_client.py:46-64 | a decode error, or a value that is not a dictionary, falls back to the empty audit |
| TinyfishClient.Contains | backend/tinyfish_client.py:196 | Python's `"rejected" in value`: key test on a dict, element test on a list, substring test on a string, TypeError otherwise |
| TinyfishClient.CollectResult | backend/tinyfish_client.py:177-212 | the loop updating result_text and raw_events line by line computes the fold of Step over the lines |
| TinyfishClient.ApplyPayload | backend/tinyfish_client.py:186-212 | how one payload changes result_text; its cases are stated by CompleteEventOutcome, OtherEventOutcome, UndecodablePayloadAppended and NonObjectEventFails |
| TinyfishClient.Step | backend/tinyfish_client.py:179-212 | one iteration of the line loop; its cases are stated by NonDataLineKeepsText, IgnoredPayloadKeepsText and RawEventsAreNonBlankLines |
| TinyfishClient.Fold | backend/tinyfish_client.py:177-212 | the whole loop from empty text and no events, stopping at the first exception; CollectResult computes it and FoldErrorIsFinal states the stop |
| TinyfishClient.FoldErrorIsFinal | backend/tinyfish_client.py:187-212 | an exception from one event ends the stream with that exception |
| TinyfishClient.NonBlank | backend/tinyfish_client.py:180-181 | the lines kept as events are non-blank |
| TinyfishClient.RawEventsAreNonBlankLines | backend/tinyfish_client.py:180-181 | raw_events is exactly the non-blank lines, in order |
| TinyfishClient.NonDataLineKeepsText | backend/tinyfish_client.py:184 | a line without the `data: ` prefix leaves result_text unchanged |
| TinyfishClient.IgnoredPayloadKeepsText | backend/tinyfish_client.py:185-186 | a blank payload or `[DONE]` is ignored |
| TinyfishClient.UndecodablePayloadAppended | backend/tinyfish_client.py:210-212 | an undecodable payload is appended verbatim, and the line is recorded |
| TinyfishClient.CompleteEventOutcome | backend/tinyfish_client.py:192-202 | a COMPLETE event sets result_text to the serialised resultJson unless that contains "rejected"; without resultJson, or when a dictionary resultJson has the "rejected" key, result_text is unchanged; a string or list resultJson containing "rejected" raises TypeError in the warning's `result_json['rejected']`, and one that `in` cannot search raises TypeError; it never reaches the result/output/message branches |
| TinyfishClient.OtherEventOutcome | backend/tinyfish_client.py:203-209 | otherwise `result` replaces result_text, and `output` or `message` append to it, tried in that order |
| TinyfishClient.NonObjectEventFails | backend/tinyfish_client.py:188-189 | a decoded payload that is not a dictionary raises AttributeError at `event.get` |
| TinyfishClient.PlainTextStreamConcatenates | backend/tinyfish_client.py:210-212 | a stream of plain-text payloads accumulates them in order |
| TinyfishClient.AuditFromStream | backend/tinyfish_client.py:177-222 | run_audit after the request: fails exactly when the loop raised; otherwise the parse of the collected text, with the url argument and current date |
| TinyfishClient.NoDataLinesGivesEmptyAudit | backend/tinyfish_client.py:184-222 | a stream without data lines collects nothing and yields the empty audit |
| Parity.ToFrontend | backend/models.py:14-42 | a serialised issue keeps its severity string; error_type is present on technical and contextual issues, content only on contextual ones, missing_element only on gaps |
| Parity.Serialize | backend/models.py:45-52 | an AuditResult as the frontend receives it: all three issue lists present, converted issue by issue, and the url; MetricsAgree and AllIssuesAgree state what the frontend computes from it |
| Parity.ToFrontendAllConcat | backend/models.py:86-88 | converting issue by issue commutes with concatenation |
| Parity.ToFrontendAllSnoc | backend/models.py:86-88 | converting a list converts its last issue last |
| Parity.SeverityValueIsInjective | backend/models.py:7-11 | distinct enumeration members have distinct string values |
| Parity.CountsAgree | backend/models.py:58-72 | the frontend's string count of a level equals the backend's enumeration count |
| Parity.AllIssuesAgree | frontend/static/js/api.js:52-56 | the frontend's allIssues is the backend's all_issues, converted |
| Parity.LevelCountAgrees | frontend/static/js/api.js:59-62 | the frontend's count of one level on the serialised record equals the backend's count of that level |
| Parity.SeverityCountsAgree | backend/models.py:58-72 | the frontend's four severity counts on the serialised record equal critical_count, high_count, medium_count and low_count |
| Parity.MetricsAgree | backend/models.py:54-88 | for the same issues, the frontend's totalIssues, four counts and riskScore equal the backend's total_issues, counts and risk_score |
| Parity.AsWrittenMislabelsContextualErrors | frontend/static/js/dashboard.js:584-588 | as written, every contextual error with a non-empty error_type gets a card labelled "Technical Failure" under "Transaction Impact" with no impact text; the sample audit's "seasonal_mismatch" error is one |
| Parity.CorrectedCardShowsContextualErrors | frontend/static/js/dashboard.js:584-599 | with the corrected inference, a backend contextual error's card says "Contextual Error" and shows its agent_confusion under "Agent Confusion" |
| Parity.CategoryMatchesIssueType | frontend/static/js/dashboard.js:584-599 | the corrected inference labels every serialised backend issue with its own type |

## Left out

- DOM rendering is left out: markup, `escapeHtml`, icons, charts, scrolling, loading overlays, clearing the input. The model keeps only the content the rendering decides: tiers, insight lines and card fields.
- `frontend/static/js/charts.js` is not part of this model. It configures a chart library, and its gauge thresholds repeat the tier rule.
- The revenue calculator and the timeline bar widths are left out. They are floating-point arithmetic and number formatting.
- The insight texts are not modelled. Each insight is a datatype constructor carrying the number it shows; the revenue figure is exact because 50000c+15000h is a multiple of 1000.
- The network is not modelled: `fetch`, `submitAudit`, `fetchExampleAudit`, the httpx streaming request, and the API-key and status checks before the loop. In HandleAuditSubmit the backend request is a function parameter returning the record or an error message.
- `backend/enrichment.py`, `backend/main.py`, `backend/prompts.py` and `backend/config.py` are not part of this model. They hold a network client, routes, a prompt string and settings loading.
- `run_audit_mock` is left out as an operation, because it only builds constant data. Its first contextual error is used in Parity, with the four characters its content starts with in the file.
- JSON decoding and encoding are not modelled. `json.loads` and `json.dumps` are uninterpreted function parameters, so no property depends on JSON syntax. JSON numbers are integers.
- Logging is left out as output. The log arguments that can raise are modelled where they raise: `event.get('type')` on a decoded value that is not a dictionary (backend/tinyfish_client.py:189) is the AttributeError of NonObjectEventFails; `result_json['rejected']` on a string or list (backend/tinyfish_client.py:197) is the TypeError of CompleteEventOutcome; `len(result_text)` and `result_text[:500]` (backend/tinyfish_client.py:214-216) only see a string in the model, because a non-string `result` already ends the stream (see the TinyfishClient.Step line below).
- Clocks are parameters: `datetime.now()` becomes `now`, and FormatDate takes the millisecond difference. An invalid date string, which would give NaN, is not modelled.
- Pydantic validation and coercion are left out. `AuditResult(**audit_data)` at the end of run_audit is therefore not modelled, and backend severities are a closed enumeration.
- Unicode is handled at the level of code points: JavaScript and Python whitespace are listed characters, and no normalisation is done.
- The double-submission race on currentAuditData is concurrency and is not modelled.
- Dashboard.SortBySeverity: requires every severity to be one of the four known strings. For any other string the comparator returns NaN, which the sort treats as "equal", and that is not a consistent comparison.
- TinyfishClient.Step: a `result` value that is not a string is modelled as a TypeError that ends the stream. Python would store the value and fail later, or fall back to the empty audit in parse_tinyfish_response.
- Parity.ToFrontend: `audit_date` and `enrichment` are not carried into the serialised record. No metric depends on them.

## Findings

| source | as written | input that shows it | evidently intended | confidence | as-written member | corrected member |
|---|---|---|---|---|---|---|
| frontend/static/js/dashboard.js:584-599 | the card tests `issue.error_type` before `issue.content`; backend ContextualError also has `error_type` (backend/models.py:27), so contextual errors are labelled "Technical Failure" and show the transaction impact (absent) instead of the agent confusion | the sample audit's contextual error with error_type "seasonal_mismatch" (backend/tinyfish_client.py:96-103) | a contextual error is labelled "Contextual Error"; testing content first makes the label match every issue type | not executed | Parity.AsWrittenMislabelsContextualErrors (about Dashboard.IssueCard and Dashboard.InferCategoryAsWritten) | Dashboard.CorrectedIssueCard and Dashboard.InferCategory, with Parity.CategoryMatchesIssueType and Parity.CorrectedCardShowsContextualErrors |
