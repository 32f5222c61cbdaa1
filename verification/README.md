# admin-bini dashboard core, modelled in Dafny

A functional model of the pure logic inside the admin-bini management dashboard (a Next.js
application for a chain of sites): the rule-based anomaly detectors, the AI route handlers that
build prompts and shape replies, the Markdown-to-blocks parser of the PDF report, the list editing
of the management tabs, the date periods of the overview, and the analysis view's display mapping.
The clock, generated ids, the text-generation provider (an oracle answering with text or failing)
and JSON parsing and serialisation (an abstract codec) are parameters; everything else is written
out and proved.

One Dafny module per source file, over shared helpers:

- `Wrappers` (`Option`), `Seqs` (filter, map, count, sum with their lemmas);
- `JsText`: the JavaScript string operations the code relies on (`trim`, `split`, `join`,
  `indexOf`, `includes`, `slice`, `replace` with its `$` patterns, `toUpperCase` for Basic Latin
  and Latin-1 letters), over UTF-16 code units;
- `Json`: JSON values, object property lookup, object spread and truthiness;
- `Registry`: lookup in an object literal, including the members every object inherits from
  `Object.prototype`;
- `Sanitizer`: global regular-expression removal (`<think>` blocks, code fences) and the inline
  Markdown stripping;
- `Http`: requests, replies, thrown values and the `AsWritten`/`Corrected` variant switch used for
  the findings below;
- `Calendar`: ECMAScript's date arithmetic (section 21.4.1 of ECMA-262: `MakeDay`,
  `DayFromYear`, `WeekDay`, and the normalisation done by `new Date(y, m, d)`, `setDate`,
  `setMonth` and `setFullYear`).

Files: `wrappers.dfy`, `seqs.dfy`, `js_text.dfy`, `json.dfy`, `registry.dfy`, `sanitizer.dfy`,
`http.dfy`, `calendar.dfy`; `prompt_builder.dfy`, `alerts_tab.dfy`, `alerts_widget.dfy`;
`analyze_review.dfy`, `generate_report.dfy`, `anomaly_report.dfy`, `analyze_metrics.dfy`,
`recommendations.dfy`; `report_markdown.dfy`; `tab_list.dfy`, `employees_tab.dfy`,
`sites_tab.dfy`, `instructions_tab.dfy`, `reports_tab.dfy`, `reviews_tab.dfy`; `date_range.dfy`,
`overview_tab.dfy`; `review_analyzer_view.dfy`.

Four behaviours of the code are modelled as written: the analyze-review fallback is a constant
record, not derived from the review's rating; no JSON span is extracted from the provider's reply
before parsing; fence stripping deletes the fenced content along with the fences; and the alert
rules compare the site and employee statuses with "fermé" and "congé".

Long string literals (prompts, instructions, colour classes) are written as concatenations of
shorter literals; the concatenation is the same text, split only to keep the proofs cheap.

## Model

| member | source | states |
|---|---|---|
| PromptBuilder.DetectAnomaliesFollowsRules | lib/prompts/prompt-builder.ts:72-146 | the detector is the eight rules applied independently, keeping those that fire in the fixed order revenue, overload, low occupancy, NPS, negative sentiment, uptime, compliance, turnover |
| PromptBuilder.FiredMembers | lib/prompts/prompt-builder.ts:72-146 | every reported anomaly is the anomaly of some rule of the list that fires |
| PromptBuilder.NoAnomalyIffWithinThresholds | lib/prompts/prompt-builder.ts:76-137 | nothing is reported exactly when every metric lies within its threshold, the boundary values 20, 90, 50, 10, 40, 95, 80 and 20 included, since every comparison is strict |
| PromptBuilder.AtMostSevenAnomalies | lib/prompts/prompt-builder.ts:84-98 | overload and low occupancy never fire together, so at most seven anomalies are reported |
| PromptBuilder.AnomalyShape | lib/prompts/prompt-builder.ts:76-142 | each anomaly carries its rule's description; its severity is CRITIQUE exactly for revenue and uptime and MOYENNE exactly for turnover; its value is the metric's text, with "%" for every rule but the NPS trend |
| PromptBuilder.BuildAnomalyPrompt | lib/prompts/prompt-builder.ts:54-70 | the anomaly prompt opens with the system persona and the detection header and closes with the four-point request followed by the serialised context |
| PromptBuilder.AnomalyBlockLines | lib/prompts/prompt-builder.ts:57-61 | splitting the anomaly block at line breaks gives back exactly one "⚠️ severity: description (Valeur: value)" line per detected anomaly, in detection order |
| PromptBuilder.RuleLineIsSingle | lib/prompts/prompt-builder.ts:61 | no anomaly line contains a line break, so lines cannot run into each other |
| PromptBuilder.MockContextIsQuiet | lib/utils/mock-context.ts:4-85 | the fixture context raises no anomaly |
| PromptBuilder.PersonaChoice | lib/prompts/prompt-builder.ts:9-15 | "conversational" and "anomaly" both select the system persona, the three others their own, and a type outside the map that is no built-in object member prints "undefined"; a built-in member name prints that member as text |
| PromptBuilder.SignedMarksGrowth | lib/prompts/prompt-builder.ts:21-33 | a trend's text opens with "+" exactly when the trend is strictly positive, and ends with the number unchanged |
| PromptBuilder.BuildPrompt | lib/prompts/prompt-builder.ts:4-52 | the prompt opens with the persona, a blank line and the header with the period in capitals, and ends with the question block |
| PromptBuilder.PromptEnds | lib/prompts/prompt-builder.ts:49-51 | every prompt starts with its type's persona and ends with the question |
| AlertsTab.IdsDistinct | components/dashboard/tabs/alerts-tab.tsx:40-102 | the five alert ids are distinct, and every alert's anomaly type is one the anomaly report route knows |
| AlertsTab.RevenueRule | components/dashboard/tabs/alerts-tab.tsx:37-49 | the high revenue alert is raised exactly when there are sites and the mean monthly revenue, a missing one counting as 0, is below 50000; with no sites the mean is NaN and nothing is raised |
| AlertsTab.OccupancyRule | components/dashboard/tabs/alerts-tab.tsx:51-63 | one medium occupancy alert is raised exactly when some site's occupancy, missing counting as 0, is below 50 |
| AlertsTab.ReviewsRule | components/dashboard/tabs/alerts-tab.tsx:65-77 | the high review alert is raised exactly when more than two reviews are rated 2 or less |
| AlertsTab.ClosureRule | components/dashboard/tabs/alerts-tab.tsx:79-91 | the critical closure alert is raised exactly when some site's status is "maintenance" or the closed status the rule compares |
| AlertsTab.StaffRule | components/dashboard/tabs/alerts-tab.tsx:93-105 | the medium staff alert is raised exactly when more than three employees have the on-leave status the rule compares |
| AlertsTab.FiveInOrder | components/dashboard/tabs/alerts-tab.tsx:34-107 | five rule outputs of at most one alert each, in rank order, make at most five alerts in rule order |
| AlertsTab.GeneratedShape | components/dashboard/tabs/alerts-tab.tsx:34-107 | the effect yields at most five alerts, in the order revenue, occupancy, reviews, closure, staff, with distinct ids, each carrying its anomaly type |
| AlertsTab.GeneratedFires | components/dashboard/tabs/alerts-tab.tsx:34-107 | each alert is in the generated list exactly when its rule's condition holds on the inputs |
| AlertsTab.LowRevenueRaises | components/dashboard/tabs/alerts-tab.tsx:37-38 | sites that all earn less than the threshold raise the revenue alert |
| AlertsTab.DeclaredStatusesMissed | components/dashboard/tabs/alerts-tab.tsx:79-94 | a site with the declared status "closed" and any number of employees "on_leave" raise nothing as written, while the rules with the declared statuses fire |
| AlertsTab.ActiveAlerts | components/dashboard/tabs/alerts-tab.tsx:164 | an alert is active exactly when its id is not dismissed, and there are never more active alerts than alerts |
| AlertsTab.Dismiss | components/dashboard/tabs/alerts-tab.tsx:232 | dismissing adds exactly the id to the dismissed set and leaves the alert list untouched |
| AlertsTab.DismissHides | components/dashboard/tabs/alerts-tab.tsx:164-232 | after a dismissal the active alerts are the earlier active ones minus those with that id; dismissing twice is dismissing once |
| AlertsTab.CountsPartition | components/dashboard/tabs/alerts-tab.tsx:174-192 | the counters count alerts of exactly their severity, so together with the low alerts they add up to the number of alerts |
| AlertsTab.GeneratedCounts | components/dashboard/tabs/alerts-tab.tsx:34-192 | on generated alerts the closure alert is the only critical one, revenue and reviews are the high ones, occupancy and staff the medium ones, and none is low |
| AlertsTab.AttachReport | components/dashboard/tabs/alerts-tab.tsx:136-162 | a successful reply sets `generatedReport` on the alerts with the reported alert's id only; an alert without anomaly type, a failed reply or a thrown request changes nothing |
| AlertsTab.AttachStable | components/dashboard/tabs/alerts-tab.tsx:152-155 | attaching the same reply twice is attaching it once, and it changes no alert's id, severity, title or description, hence no counter |
| AlertsWidget.Raise | components/ai/alerts-widget.tsx:56-84 | a classifier step yields its alert exactly when the analysis contains one of its keywords (as a substring of a text, as an element equal to it in an array): "CRITIQUE" for the critical alert, "revenue" or "Baisse" for the revenue alert, "Occupation" or "capacité" for the occupancy alert, all case-sensitive |
| AlertsWidget.AlertOf | components/ai/alerts-widget.tsx:57-83 | each alert is fresh (not dismissed) with its fixed severity: critical, high, medium |
| AlertsWidget.ParseShape | components/ai/alerts-widget.tsx:52-87 | the classifier yields at most three alerts, in the order critical, revenue, occupancy, with distinct ids, and holds an alert exactly when its keywords occur |
| AlertsWidget.ParseEmpty | components/ai/alerts-widget.tsx:86 | the classifier yields nothing exactly when no keyword occurs |
| AlertsWidget.AnalysisOf | components/ai/alerts-widget.tsx:43-56 | the analysis is classified exactly when it is a string or an array; a null body, a missing or null `analysis` and any other value each raise their own TypeError |
| AlertsWidget.ArrayAnalysis | components/ai/alerts-widget.tsx:56-84 | an array analysis raises an alert only for an element equal to a keyword: no keyword element means no alert, even for an element whose text contains every keyword |
| AlertsWidget.Refresh | components/ai/alerts-widget.tsx:27-50 | a string or array `analysis` (the values with an `includes` method) replaces the alerts with its classification and clears the error; a failed status, a thrown request, or a TypeError (null body, missing or null `analysis`, an `includes` that is not a function) keeps the alerts and shows that case's message; loading ends in every case |
| AlertsWidget.Dismiss | components/ai/alerts-widget.tsx:159-161 | dismissing keeps the list's length and ids |
| AlertsWidget.Active | components/ai/alerts-widget.tsx:114 | the active alerts are alerts of the list that are not dismissed |
| AlertsWidget.DismissHides | components/ai/alerts-widget.tsx:114-161 | dismissing sets `dismissed` on the alerts with that id and changes nothing else; the active list afterwards is the earlier active list without that id |
| AlertsWidget.ColorChoice | components/ai/alerts-widget.tsx:96-105 | critical, high and medium get their own colour, and any other severity that is no built-in object member falls back to the low colour; a built-in member name gives that member as text |
| AlertsWidget.ColorsNonEmpty | components/ai/alerts-widget.tsx:97-103 | the four colours of the deployed palette are non-empty, so the fallback never applies to a listed severity |
| AnalyzeReview.Dispatch | app/api/ai/analyze-review/route.ts:13-35 | a body that cannot be read or is null goes to the catch; the batch route needs a truthy `batchAnalysis` and reviews of positive length and carries the body's own reviews; the single route needs all four fields truthy and carries them unchanged |
| AnalyzeReview.BatchTakesPrecedence | app/api/ai/analyze-review/route.ts:26-29 | a body qualifying for both analyses is analysed as a batch, with its reviews and filter |
| AnalyzeReview.MissingIffNeither | app/api/ai/analyze-review/route.ts:26-34 | a readable body is a missing-data request exactly when it qualifies for neither analysis |
| AnalyzeReview.SummaryLine | app/api/ai/analyze-review/route.ts:118-124 | a review yields a summary line exactly when its comment is a string; otherwise `substring` throws |
| AnalyzeReview.SummaryLineShape | app/api/ai/analyze-review/route.ts:120-123 | a line opens with "Avis", the 1-based position and the site, and ends with at most the first hundred characters of the comment and an ellipsis |
| AnalyzeReview.BatchSummary | app/api/ai/analyze-review/route.ts:118-125 | the summary exists exactly when the reviews are an array all of whose items have a string comment |
| AnalyzeReview.SingleBody | app/api/ai/analyze-review/route.ts:98-102 | the answer has the analysis's own fields, except that `analysisType` is "single" and `analyzedReview` echoes title, rating and site |
| AnalyzeReview.BatchBody | app/api/ai/analyze-review/route.ts:176-181 | the answer has the analysis's own fields, except for the type "batch", the review count and the filter, which override them |
| AnalyzeReview.HandleSingle | app/api/ai/analyze-review/route.ts:51-107 | the provider is always asked; the handler rejects exactly when the call fails or the cleaned reply is not JSON, and otherwise answers 200 with the single body |
| AnalyzeReview.HandleBatch | app/api/ai/analyze-review/route.ts:109-186 | the provider is asked exactly when the summary can be built; the handler rejects exactly when the summary fails or the reply cannot be parsed |
| AnalyzeReview.Conclude | app/api/ai/analyze-review/route.ts:26-48 | the prompt sent is reported unchanged whatever the handler's outcome |
| AnalyzeReview.PostAsWritten | app/api/ai/analyze-review/route.ts:13-49 | the endpoint answers only 200 or 400; an unhandled rejection happens only after a provider call or on a batch |
| AnalyzeReview.Post | app/api/ai/analyze-review/route.ts:13-49 | with the handler awaited, every request is answered; the status is 400 exactly for missing data, with the error body and no provider call, and 200 otherwise |
| AnalyzeReview.FailureEscapesCatch | app/api/ai/analyze-review/route.ts:26-29 | as written, a failed provider call or unparsable reply in a single analysis escapes POST's catch |
| AnalyzeReview.MalformedBatchEscapesCatch | app/api/ai/analyze-review/route.ts:118-125 | as written, a batch with an item lacking a text comment escapes POST's catch without any provider call |
| AnalyzeReview.FailureAnsweredWithFallback | app/api/ai/analyze-review/route.ts:36-47 | once the handler is awaited, the same failures are answered 200 with the fallback analysis |
| AnalyzeReview.VariantsAgreeWithoutRejection | app/api/ai/analyze-review/route.ts:26-48 | where no handler rejects, the corrected endpoint answers as the written one does |
| AnalyzeReview.PromptIgnoresReview | app/api/ai/analyze-review/route.ts:57-81 | as written, every single request sends the same prompt, with the literal `{{siteName}}`, `{{rating}}`, `{{title}}` and `{{review}}` placeholders |
| AnalyzeReview.BatchPromptIgnoresReviews | app/api/ai/analyze-review/route.ts:127-160 | as written, every batch sends the same prompt, with the `{{filterSite}}`, `{{reviews.length}}` and `{{reviewsSummary}}` placeholders |
| AnalyzeReview.SingleTemplateInjective | app/api/ai/analyze-review/route.ts:65-69 | two different review texts give two different filled single templates |
| AnalyzeReview.PromptCarriesReview | app/api/ai/analyze-review/route.ts:57-81 | with the placeholders filled, two single requests that differ only in the review text send different prompts |
| AnalyzeReview.SinglePromptSent | app/api/ai/analyze-review/route.ts:65-69 | with the placeholders filled, the prompt carries the site, rating, title and review of the request |
| AnalyzeReview.BatchPromptCarriesSummary | app/api/ai/analyze-review/route.ts:136-140 | with the placeholders filled, the batch prompt carries the filter, the number of reviews and the summary of the reviews |
| AnalyzeReview.SingleSuccess | app/api/ai/analyze-review/route.ts:83-102 | a parsable cleaned reply gives 200 with the parsed fields, type "single" and the echoed review data |
| AnalyzeReview.SingleRoutePrompt | app/api/ai/analyze-review/route.ts:57-81 | a single request sends the single prompt of the variant, whatever the reply |
| AnalyzeReview.BatchRoutePrompt | app/api/ai/analyze-review/route.ts:127-160 | a batch whose summary can be built sends the batch prompt of the variant, with the review count and the summary |
| AnalyzeReview.CorrectedPromptInjective | app/api/ai/analyze-review/route.ts:65-69 | with the placeholders filled, two different review texts give two different single prompts |
| AnalyzeReview.RoutesCarryReview | app/api/ai/analyze-review/route.ts:57-81 | two single requests that differ only in a textual review are sent different corrected prompts |
| GenerateReport.FindInTable | app/api/reports/generate/route.ts:13-76 | looking a key up in `REPORT_PROMPTS` finds the template of each of the six report types, an inherited member for an `Object.prototype` name, and nothing otherwise |
| GenerateReport.TableKeys | app/api/reports/generate/route.ts:13-76 | the table holds an own template exactly for the six report types, "executive" among them, and answers every prototype member name with the inherited member |
| GenerateReport.InheritedNotReportType | app/api/reports/generate/route.ts:13-76 | no prototype member name is one of the report types |
| GenerateReport.ReportType | app/api/reports/generate/route.ts:82-83 | a truthy `reportType` is kept as sent; a missing or falsy one becomes "executive" |
| GenerateReport.BasePrompt | app/api/reports/generate/route.ts:84 | an own template is used; an absent key falls back to the executive template; an inherited member is not nullish, so as written no string template is found, while the own-key lookup falls back |
| GenerateReport.SuccessBody | app/api/reports/generate/route.ts:99-105 | the success body has `success` true, the type, the content, the clock reading, the source "perplexity", and no error |
| GenerateReport.Generate | app/api/reports/generate/route.ts:78-119 | only 200 or 500 is answered; 200 exactly when a prompt was built and the provider answered with text; a prompt is built exactly for a readable non-null body whose type yields a template |
| GenerateReport.TemplateFilled | app/api/reports/generate/route.ts:86-88 | the context summary replaces the `{{context}}` slot right after the context label, `$` patterns expanded, and is inserted verbatim when it has no `$` |
| GenerateReport.NoTypeUsesExecutive | app/api/reports/generate/route.ts:82-88 | a request without a truthy type is sent the executive template filled with its context |
| GenerateReport.UnknownTypeUsesExecutive | app/api/reports/generate/route.ts:82-105 | an unknown, non-inherited type is sent the executive template, and the success reply still echoes the requested type |
| GenerateReport.KnownTypeUsesItsTemplate | app/api/reports/generate/route.ts:82-88 | each of the six report types is sent its own template filled with the context |
| GenerateReport.SuccessReply | app/api/reports/generate/route.ts:97-105 | a 200 reply carries `success: true`, the type, the cleaned text, the clock reading and the source; a reply with no closing think tag is only trimmed |
| GenerateReport.ErrorAnswers | app/api/reports/generate/route.ts:106-118 | every failure answers 500: the parser's message for an unreadable body, the thrown message or default text for a provider failure, and for a null body, a template that is not a string and a reply without text the message of the TypeError thrown at that place, each its own |
| GenerateReport.InheritedTypeFails | app/api/reports/generate/route.ts:84-88 | as written, a type such as "toString" finds an inherited function, `replace` is not a function, and the request fails with 500 before the provider is called |
| GenerateReport.InheritedTypeCorrected | app/api/reports/generate/route.ts:84 | looking up own keys only, the same request is sent the executive template and succeeds |
| AnomalyReport.FindInInstructions | app/api/reports/anomaly/route.ts:13-26 | looking a key up in `anomalyPrompts` finds the instruction of each of the six anomaly types, an inherited member for an `Object.prototype` name, and nothing otherwise |
| AnomalyReport.InstructionChoice | app/api/reports/anomaly/route.ts:32-34 | the six anomaly types get their own instruction; an undefined type and any other name get the generic one; a prototype member name gets the member as text, which is truthy: "[object Object]" for `__proto__`, "function Object() { [native code] }" for `constructor`, and the native source of the method of that name otherwise |
| AnomalyReport.InstructionsNonEmpty | app/api/reports/anomaly/route.ts:13-26 | every instruction of the table is non-empty, so a known type never falls back to the default instruction |
| AnomalyReport.InheritedNotAnomalyType | app/api/reports/anomaly/route.ts:13-26 | no prototype member name is one of the anomaly types |
| AnomalyReport.AnomalyPrompt | app/api/reports/anomaly/route.ts:36-50 | the prompt opens with the severity in capitals and the instruction, and closes with the context and the fixed request for five sections |
| AnomalyReport.SuccessFields | app/api/reports/anomaly/route.ts:61-67 | the success body holds `success` true, the report, the timestamp, and the type and severity when they are defined; no other key |
| AnomalyReport.Generate | app/api/reports/anomaly/route.ts:28-75 | every failure answers 500 with the one fixed message; a prompt is sent exactly for a readable non-null body; the answer is 200 exactly when the provider call does not throw |
| AnomalyReport.PromptSent | app/api/reports/anomaly/route.ts:30-50 | the prompt carries `String(severity)` in capitals, the chosen instruction, and the indented context cut to at most 4000 code units |
| AnomalyReport.SuccessReply | app/api/reports/anomaly/route.ts:59-67 | a success carries the cleaned reply, or the empty text when the reply has none, the clock reading, and the type and severity as sent |
| AnalyzeMetrics.MetricsPrompt | app/api/ai/analyze-metrics/route.ts:19-36 | the prompt opens with the introduction and the context summary, and closes with the question in double quotes and the expected structure |
| AnalyzeMetrics.SuccessFields | app/api/ai/analyze-metrics/route.ts:49-53 | the success body holds `success` true, the analysis and the source "perplexity", and no other key |
| AnalyzeMetrics.Post | app/api/ai/analyze-metrics/route.ts:13-61 | every failure answers 500 with the fixed message; a prompt is sent exactly for a readable non-null body that has a context, since serialising an undefined context gives no string to slice; 200 exactly when the provider answers with text |
| AnalyzeMetrics.PromptSent | app/api/ai/analyze-metrics/route.ts:15-30 | the prompt carries a prefix of the serialised context of at most 5000 code units, the whole of it when it fits, and `String(question)` in quotes |
| AnalyzeMetrics.SuccessReply | app/api/ai/analyze-metrics/route.ts:45-53 | a success carries the reply with think blocks removed and trimmed, the source, and no error |
| Recommendations.Types | app/api/ai/recommendations/route.ts:11-19 | an undefined or "all" focus asks for the three areas; any other focus, null included, is the single type asked for |
| Recommendations.Question | app/api/ai/recommendations/route.ts:25 | the question asks for three priority recommendations about the area the type names |
| Recommendations.AreasDiffer | app/api/ai/recommendations/route.ts:25 | "commercial" and "operational" name their areas, every other value names the team, and the three questions differ |
| Recommendations.PromptForType | app/api/ai/recommendations/route.ts:24-28 | the prompt opens with the persona that `String(type)` selects and ends with the type's question |
| Recommendations.PromptForArea | app/api/ai/recommendations/route.ts:24-28 | the three areas each open with their own persona |
| Recommendations.Kept | app/api/ai/recommendations/route.ts:36-41 | a reply adds one recommendation, carrying the type and the first block's text, exactly when its first block is text |
| Recommendations.CollectedFollowsTypes | app/api/ai/recommendations/route.ts:23-42 | there are never more recommendations than types, and each is the text reply for one of the types |
| Recommendations.AllTextKeepsAll | app/api/ai/recommendations/route.ts:23-42 | when every reply opens with text, each type gets exactly one recommendation, in the order of the types |
| Recommendations.Gather | app/api/ai/recommendations/route.ts:23-42 | one call per type, in order, with that type's prompt; the loop completes exactly when no call throws, and otherwise stops at the call that threw |
| Recommendations.Listing | app/api/ai/recommendations/route.ts:44 | the body lists the recommendations in order as `{ focus, content }` objects |
| Recommendations.Answer | app/api/ai/recommendations/route.ts:23-53 | the answer is 200 exactly when no call throws, with every type's prompt sent and the collected list; otherwise 500 with the fixed error |
| Recommendations.Post | app/api/ai/recommendations/route.ts:9-54 | 400 with "Missing context" and no call exactly for a readable body without a truthy context; 200 exactly when the context is read and every call returns; 500 otherwise |
| Sanitizer.Delimited | app/pdf/ReportPDF.tsx:163-165 | a delimited match spans more than its opening delimiter and stays inside the text |
| Sanitizer.MatchAt | app/pdf/ReportPDF.tsx:163-169 | a match is never empty and stays inside the text, and none starts on a character that cannot open the pattern |
| Sanitizer.PlainPrefix | app/api/ai/analyze-review/route.ts:91-94 | a prefix in which the pattern cannot start passes through a global replace unchanged, ahead of the replaced rest |
| Sanitizer.PlainText | app/api/ai/analyze-review/route.ts:91-94 | text in which the pattern cannot start is left unchanged by a global replace |
| Sanitizer.NoMatchUnchanged | app/api/ai/analyze-review/route.ts:91-94 | where the pattern matches at no position, a global replace changes nothing |
| Sanitizer.ThinkBlockRemoved | app/api/ai/analyze-review/route.ts:92 | a think block is removed up to its first closing tag, and the scan continues after it |
| Sanitizer.UnclosedThinkKept | app/api/reports/generate/route.ts:97 | without a closing tag the text is left as it is, because the lazy match needs its closing half |
| Sanitizer.FencedPayloadDeleted | app/api/ai/analyze-review/route.ts:91-94 | the review clean-up deletes a fenced block with its content, so a reply that only wraps JSON in a fence cleans to the empty text |
| Sanitizer.ReviewReplyAfterThinking | app/api/ai/analyze-review/route.ts:91-94 | a reasoning block followed by a bare reply cleans to the reply, trimmed |
| Sanitizer.ReportKeepsFences | app/api/reports/generate/route.ts:97 | the report clean-up keeps code fences; text without think tags is only trimmed |
| Sanitizer.PlainInlineUnchanged | app/pdf/ReportPDF.tsx:158-172 | text with no markup character renders unchanged |
| Sanitizer.StrongUnwrapped | app/pdf/ReportPDF.tsx:163 | `**x**` renders as `x` |
| Sanitizer.CodeUnwrapped | app/pdf/ReportPDF.tsx:167 | `` `x` `` renders as `x` when `x` is not empty |
| Sanitizer.LinkUnwrapped | app/pdf/ReportPDF.tsx:169 | `[text](url)` renders as `text`, and the address is dropped |
| Sanitizer.LinkMatch | app/pdf/ReportPDF.tsx:169 | the link pattern matches the whole of `[text](url)` and keeps the text |
| ReportMarkdown.Run | app/pdf/ReportPDF.tsx:227-229 | the run of a character that opens a line is maximal: every character in it is that character and the next one is not |
| ReportMarkdown.AfterMarker | app/pdf/ReportPDF.tsx:227-239 | after a marker, the tail `\s+(.*)$` matches exactly when some white run allows it, and the capture, once trimmed, is trimmed text |
| ReportMarkdown.MarkerMatch | app/pdf/ReportPDF.tsx:227-239 | the tail matches exactly when the marker is followed by white space and the rest after it holds no line terminator |
| ReportMarkdown.WhiteRunMatches | app/pdf/ReportPDF.tsx:227-239 | the white run that trimming removes is a witness of the pattern |
| ReportMarkdown.MatchCoversRun | app/pdf/ReportPDF.tsx:227-239 | any match of the tail starts with white space and leaves no line terminator after the trimmed white run |
| ReportMarkdown.HeadingRun | app/pdf/ReportPDF.tsx:227-229 | a line is a heading exactly when it opens with at least one `#` and the whole run of `#` is followed by the tail pattern |
| ReportMarkdown.Classify | app/pdf/ReportPDF.tsx:226-246 | a heading is tried first, with its level equal to the number of `#` marks; then a bullet; anything else is a paragraph holding the trimmed line; texts are trimmed |
| ReportMarkdown.CellTexts | app/pdf/ReportPDF.tsx:208-215 | every cell of a table line is trimmed and holds no bar |
| ReportMarkdown.CellCount | app/pdf/ReportPDF.tsx:208-215 | a table line has one cell fewer than its closed form has bars |
| ReportMarkdown.HeaderCells | app/pdf/ReportPDF.tsx:191-198 | every header cell is non-empty, trimmed and free of bars |
| ReportMarkdown.HeaderKeeps | app/pdf/ReportPDF.tsx:194-198 | the header keeps exactly the non-empty cells of its line, and is empty exactly when every cell is |
| ReportMarkdown.ScanAll | app/pdf/ReportPDF.tsx:176-181 | every line is scanned, one line to one scan |
| ReportMarkdown.ScanAt | app/pdf/ReportPDF.tsx:181 | each line is scanned on its own, independently of its neighbours |
| ReportMarkdown.ScanSound | app/pdf/ReportPDF.tsx:181-200 | a scanned line is trimmed, non-empty unless skipped, and its cells are bar-free and trimmed |
| ReportMarkdown.BodyEnd | app/pdf/ReportPDF.tsx:206-219 | the table body is the longest run of lines starting with a bar |
| ReportMarkdown.BodyEndAt | app/pdf/ReportPDF.tsx:206-219 | the body ends at the first line that does not start with a bar |
| ReportMarkdown.Rows | app/pdf/ReportPDF.tsx:212-218 | one row per body line, holding that line's cells |
| ReportMarkdown.Parse | app/pdf/ReportPDF.tsx:175-250 | there are never more blocks than lines left |
| ReportMarkdown.Blocks | app/pdf/ReportPDF.tsx:175-250 | a report text never yields more blocks than it has lines |
| ReportMarkdown.ParseWellFormed | app/pdf/ReportPDF.tsx:175-250 | from sound lines every block is well formed: headings have a level, paragraphs are non-empty, texts are trimmed, and tables have a non-empty header and bar-free cells |
| ReportMarkdown.BlocksWellFormed | app/pdf/ReportPDF.tsx:175-250 | every block of any report text is well formed |
| ReportMarkdown.TableAbsorbs | app/pdf/ReportPDF.tsx:190-223 | a table head gives one table block with its header cells and one row per bar line of the longest run after the alignment line, and parsing resumes after that run |
| ReportMarkdown.FailedTableIsParagraph | app/pdf/ReportPDF.tsx:189-246 | a bar line that fails the table test becomes a paragraph holding the trimmed line |
| ReportMarkdown.NoTables | app/pdf/ReportPDF.tsx:180-247 | without bar lines the parser maps lines to blocks one by one |
| ReportMarkdown.OnlySkipped | app/pdf/ReportPDF.tsx:183-187 | lines that are all blank or rules yield no block |
| ReportMarkdown.StandaloneLines | app/pdf/ReportPDF.tsx:180-247 | the blocks of scanned stand-alone lines are those of the reference line-by-line classification |
| ReportMarkdown.PlainText | app/pdf/ReportPDF.tsx:175-250 | a text without table lines gives, for each line that is not blank or a rule, its heading, bullet or paragraph, in order |
| ReportMarkdown.BlankText | app/pdf/ReportPDF.tsx:183-187 | a text of blank lines and rules yields no block |
| ReportMarkdown.ReadRows | app/pdf/ReportPDF.tsx:204-219 | the inner loop stops at the end of the body and reads the rows of exactly those lines |
| ReportMarkdown.ParseLines | app/pdf/ReportPDF.tsx:179-249 | the outer loop yields the blocks of the recursive reference parser |
| ReportMarkdown.ParseMarkdownToBlocks | app/pdf/ReportPDF.tsx:175-250 | the parser's loop yields the reference blocks of the text, each well formed |
| ReportMarkdown.RowCells | app/pdf/ReportPDF.tsx:337-355 | a row renders one cell per header: its own cell unwrapped of inline markup, or empty where the row is short; extra cells are dropped |
| ReportMarkdown.BarLineIsParagraph | app/pdf/ReportPDF.tsx:189-246 | a line that starts with a bar is neither blank, a rule, a heading nor a bullet, so on its own it is a paragraph |
| ReportMarkdown.PlainLines | app/pdf/ReportPDF.tsx:180-247 | scanned lines without a bar line parse to the blocks of the lines taken one by one |
| Http.ErrorText | app/api/reports/generate/route.ts:111-114 | a thrown `Error` contributes its message; any other thrown value gives the fallback text |
| Http.Failed | app/api/reports/generate/route.ts:108-117 | the error answer has status 500, `success` false and the message, and no other key |
| Http.OrEmpty | app/api/reports/generate/route.ts:86 | `context ?? {}` keeps a defined, non-null context and replaces undefined or null by the empty object |
| Http.ContextSummary | app/api/reports/generate/route.ts:86 | the summary is a prefix of the serialised context of at most the limit, and the whole serialisation when it is shorter |
| Registry.FindSpec | app/api/reports/generate/route.ts:84 | an object literal answers a key with its own entry exactly when it has one; otherwise with an inherited member exactly for the `Object.prototype` names; otherwise undefined |
| Registry.FindCons | app/api/reports/anomaly/route.ts:32-33 | a lookup checks the first key of the literal, then the rest |
| JsText.TrimStart | app/pdf/ReportPDF.tsx:181 | the result is a suffix of the input; everything removed is white space; and it does not start with white space |
| JsText.TrimEnd | app/pdf/ReportPDF.tsx:181 | the result is a prefix of the input; everything removed is white space; and it does not end with white space |
| JsText.Trim | app/pdf/ReportPDF.tsx:181 | the result neither starts nor ends with white space; it is empty exactly when the input is all white; text without white ends is kept |
| JsText.TrimFacts | app/pdf/ReportPDF.tsx:181 | trimming both ends gives the empty text exactly for all-white input, and keeps text without white ends |
| JsText.IndexOfFrom | components/ai/alerts-widget.tsx:56 | the index found is the first occurrence at or after the start, and none means that no occurrence exists from there |
| JsText.IncludesIff | components/ai/alerts-widget.tsx:56 | `includes` holds exactly when the needle occurs somewhere |
| JsText.FirstOccurrenceAfter | app/api/reports/generate/route.ts:88 | a needle whose first character is absent from a text is first found just after it |
| JsText.Split | app/pdf/ReportPDF.tsx:176 | splitting gives at least one piece, and no piece holds the separator |
| JsText.JoinSplit | app/pdf/ReportPDF.tsx:176 | joining the pieces of a split with the separator gives the text back |
| JsText.SplitJoin | app/pdf/ReportPDF.tsx:176 | splitting a join of pieces without the separator gives the pieces back |
| JsText.SplitCount | app/pdf/ReportPDF.tsx:176 | a split has one piece more than the text has separators |
| JsText.Take | app/api/ai/analyze-review/route.ts:123 | `slice(0, n)` and `substring(0, n)` give the first n code units, or the whole text when shorter |
| JsText.NatText | components/dashboard/tabs/reports-tab.tsx:67 | the decimal text of a number is non-empty and all digits |
| JsText.NatTextRoundTrip | components/dashboard/tabs/reports-tab.tsx:67 | reading the printed number back gives the number |
| JsText.NatTextInjective | components/dashboard/tabs/reports-tab.tsx:67 | distinct clock readings print differently, so distinct ids come from distinct readings |
| JsText.ToUpper | app/api/reports/anomaly/route.ts:36-38 | upper-casing never shortens the text and leaves text without lower-case letters unchanged |
| JsText.SubstitutePlain | app/api/reports/generate/route.ts:88 | a replacement without `$` is inserted verbatim |
| JsText.ReplaceFirst | app/api/reports/generate/route.ts:88 | a text in which the pattern never occurs is returned unchanged |
| JsText.ReplaceFirstAt | app/api/reports/generate/route.ts:88 | when the first occurrence of the pattern starts at `i`, exactly that occurrence gives way to the replacement with its `$` patterns expanded, and the text before and after it is kept |
| JsText.IndexOfFirst | app/api/reports/generate/route.ts:88 | `indexOf` finds nothing exactly when the pattern never occurs, and otherwise the occurrence with none before it |
| JsText.ReplaceFirstInTemplate | app/api/reports/generate/route.ts:88 | in a template whose head cannot start the pattern, the replacement lands between the head and the tail |
| Json.GetSpec | app/api/ai/analyze-review/route.ts:15-24 | a property is undefined exactly when no field has the key, and otherwise is the value of a field with the key |
| Json.GetAppend | app/api/ai/analyze-review/route.ts:98-102 | in an object written as two parts, a key is found in the first part if it is there, else in the second |
| Json.Defined | app/api/reports/anomaly/route.ts:65-66 | a field whose value is undefined is absent from the serialised object |
| Json.Put | components/dashboard/tabs/sites-tab.tsx:74 | assigning a key gives it the new value and leaves every other key as it was |
| Json.Remove | app/api/reports/anomaly/route.ts:65-66 | assigning undefined makes the key absent and leaves every other key as it was |
| Json.Assign | components/dashboard/tabs/employees-tab.tsx:70 | `{ ...obj, key: v }` gives the key the value, undefined meaning absent, and keeps every other key |
| Json.PutSame | components/dashboard/tabs/sites-tab.tsx:74 | assigning the value a key already has changes nothing |
| Json.RemoveAbsent | app/api/reports/anomaly/route.ts:65-66 | removing a key the object does not have changes nothing |
| Json.Overlay | components/dashboard/tabs/employees-tab.tsx:70 | after `{ ...obj, ...form }` each key has the form's last value for it, or the object's own value when the form lacks it |
| Json.OverlayDistinct | components/dashboard/tabs/sites-tab.tsx:61 | with distinct form keys, the object carries every form value and keeps every other key |
| Json.OverlayKeeps | components/dashboard/tabs/sites-tab.tsx:61 | spreading a form whose values the object already has gives the same object back |
| Json.Spread | app/api/ai/analyze-review/route.ts:98-99 | spreading an object copies its fields, and spreading null, a boolean or a number copies nothing |
| Seqs.Filter | components/dashboard/tabs/alerts-tab.tsx:164 | a filter keeps only elements that pass the test and never adds any |
| Seqs.FilterMembers | components/dashboard/tabs/alerts-tab.tsx:164 | every kept element comes from the input, and an input element is kept exactly when it passes |
| Seqs.FilterAppend | components/dashboard/tabs/reports-tab.tsx:87 | filtering a concatenation filters each part, keeping the input order |
| Seqs.FilterExtremes | components/dashboard/tabs/reports-tab.tsx:87 | when every element passes, all are kept; the result is empty exactly when none passes |
| Seqs.FilterComplement | components/dashboard/tabs/alerts-tab.tsx:174-192 | a test and its negation split the elements between them |
| Seqs.Count | components/dashboard/tabs/alerts-tab.tsx:65 | a count never exceeds the length and is zero exactly when no element passes |
| Seqs.CountAppend | components/dashboard/tabs/alerts-tab.tsx:174-192 | the count over a concatenation is the sum of the parts' counts |
| Seqs.MapAt | components/dashboard/tabs/alerts-tab.tsx:164 | the element at each index of a map is the function applied to the input's element there |
| Seqs.SumBelow | components/dashboard/tabs/alerts-tab.tsx:37 | a sum of values each below a bound is at most the bound times their number, and below it when there is at least one |
| Registry.FindSix | app/api/reports/generate/route.ts:13-76 | a lookup in an object literal of six entries answers the first entry whose key matches, and falls back to the empty literal (the inherited members) otherwise |
| TabList.FindById | components/dashboard/tabs/employees-tab.tsx:97-99 | the row found is the first with the id, and nothing is found exactly when no row has it |
| TabList.UpdateWhere | components/dashboard/tabs/employees-tab.tsx:70 | every row with the id is rewritten, every other row is left as it was, and the list keeps its length |
| TabList.RemoveWhere | components/dashboard/tabs/employees-tab.tsx:77 | removal never lengthens the list |
| TabList.RemoveWhereExact | components/dashboard/tabs/employees-tab.tsx:77 | removal keeps exactly the rows with another id and drops as many rows as have the id |
| TabList.RemoveAbsentId | components/dashboard/tabs/sites-tab.tsx:68 | removing an id that no row has changes nothing |
| TabList.RemoveAppended | components/dashboard/tabs/sites-tab.tsx:54-68 | removing the id of a row just appended, when no earlier row had it, gives back the earlier rows |
| EmployeesTab.Pairs | components/dashboard/tabs/employees-tab.tsx:31-40 | the form has the eight properties first name, last name, role, site, email, phone, salary and status, in that order |
| EmployeesTab.HireFields | components/dashboard/tabs/employees-tab.tsx:48-52 | a new employee has the generated id, the form's values and the hire date, and no other property |
| EmployeesTab.AddEmployee | components/dashboard/tabs/employees-tab.tsx:42-66 | without a first name, last name and site nothing changes; otherwise the new employee is appended after the unchanged list and the form is reset |
| EmployeesTab.OpenEdit | components/dashboard/tabs/employees-tab.tsx:82-95 | opening the edit dialog selects the employee and loads the form with its eight values |
| EmployeesTab.AskDelete | components/dashboard/tabs/employees-tab.tsx:254-256 | the delete button selects the employee and changes nothing else |
| EmployeesTab.EditEmployee | components/dashboard/tabs/employees-tab.tsx:68-73 | with no selection nothing changes; otherwise each employee with the selected id takes the form's values and keeps its other properties, the others are untouched, and the selection is cleared |
| EmployeesTab.DeleteEmployee | components/dashboard/tabs/employees-tab.tsx:75-80 | with no selection nothing changes; otherwise exactly the employees with the selected id go, and the selection is cleared |
| EmployeesTab.SaveUnchanged | components/dashboard/tabs/employees-tab.tsx:68-95 | opening the edit dialog and saving without changes leaves the list as it was, when the opened employee is the only one with its id |
| EmployeesTab.DeleteUndoesAdd | components/dashboard/tabs/employees-tab.tsx:42-80 | deleting an employee just added under a new id gives back the list from before the add |
| SitesTab.Pairs | components/dashboard/tabs/sites-tab.tsx:29-35 | the form has the five properties name, region, manager, capacity and status, in that order |
| SitesTab.KeysDistinct | components/dashboard/tabs/sites-tab.tsx:43-52 | the properties of a new site are distinct, and `id` is none of them |
| SitesTab.OpenFields | components/dashboard/tabs/sites-tab.tsx:43-52 | a new site has the generated id, the form's values and the defaults for visitors, revenue, a rating of 4, the opening date and coordinates, and no other property |
| SitesTab.AddSite | components/dashboard/tabs/sites-tab.tsx:37-57 | without a name, region, manager and a capacity other than 0 nothing changes; otherwise the new site is appended and the form is reset |
| SitesTab.OpenEdit | components/dashboard/tabs/sites-tab.tsx:77-87 | opening the edit dialog selects the site and loads the form with its five values |
| SitesTab.Input | components/dashboard/tabs/sites-tab.tsx:123-148 | the dialog inputs set the name, region, manager and capacity, and never the status |
| SitesTab.AskDelete | components/dashboard/tabs/sites-tab.tsx:198-201 | the delete button selects the site and changes nothing else |
| SitesTab.EditSite | components/dashboard/tabs/sites-tab.tsx:59-64 | with no selection nothing changes; otherwise each site with the selected id takes the form's values and keeps its other properties, the others are untouched, and the selection is cleared |
| SitesTab.DeleteSite | components/dashboard/tabs/sites-tab.tsx:66-71 | with no selection nothing changes; otherwise exactly the sites with the selected id go, and the selection is cleared |
| SitesTab.CloseSite | components/dashboard/tabs/sites-tab.tsx:73-75 | each site with the id gets status "closed" and keeps every other property; the other sites, the form and the selection are untouched |
| SitesTab.StatusLabel | components/dashboard/tabs/sites-tab.tsx:183 | the label is "Actif" exactly for "active", "Maintenance" exactly for "maintenance", and "Fermé" for any other status |
| SitesTab.ClosedSiteLabel | components/dashboard/tabs/sites-tab.tsx:73-75 | a site offered the close button no longer offers it once closed, and reads "Fermé" |
| SitesTab.EditKeepsStatus | components/dashboard/tabs/sites-tab.tsx:59-87 | an edit through the dialog inputs keeps the status the site had when the dialog opened |
| SitesTab.SaveUnchanged | components/dashboard/tabs/sites-tab.tsx:59-87 | opening the edit dialog and saving without changes leaves the list as it was, when the opened site is the only one with its id |
| SitesTab.DeleteUndoesAdd | components/dashboard/tabs/sites-tab.tsx:37-71 | deleting a site just added under a new id gives back the list from before the add |
| InstructionsTab.FirstChoice | components/dashboard/tabs/instructions-tab.tsx:31 | the form starts with one selected id: the first site's when it is truthy, otherwise the empty text |
| InstructionsTab.Tick | components/dashboard/tabs/instructions-tab.tsx:130-136 | ticking puts the site's id in the selection, unticking removes every copy of it, and no other id changes membership |
| InstructionsTab.Targets | components/dashboard/tabs/instructions-tab.tsx:44 | sending to all targets every site; otherwise a site is a target exactly when its id is selected, and targets come from the site list |
| InstructionsTab.Column | components/dashboard/tabs/instructions-tab.tsx:53-55 | one entry per target, holding that target's property |
| InstructionsTab.Create | components/dashboard/tabs/instructions-tab.tsx:38-72 | a blank title or content, or no target, changes nothing; otherwise the new instruction goes in front with the targets' ids, names and managers in parallel, the untrimmed texts, the priority, status "nouveau", author "PDG", the id from the first clock reading, the creation time from the second and a due date one week after the third, and the form is reset |
| InstructionsTab.DueAfterCreation | components/dashboard/tabs/instructions-tab.tsx:60-61 | the due date is at least one week after the creation time exactly when the clock does not run backwards between the two readings |
| InstructionsTab.SentToAllLine | components/dashboard/tabs/instructions-tab.tsx:213 | an instruction sent to all sites reads "Tous les sites" while the site list is unchanged |
| InstructionsTab.PartialLine | components/dashboard/tabs/instructions-tab.tsx:44-54 | a selection that leaves out a site names fewer sites than exist, so the line lists the names |
| ReviewsTab.Filtered | components/dashboard/tabs/reviews-tab.tsx:27-30 | "all" keeps every review; any other choice keeps exactly the reviews of that site |
| ReviewsTab.Round | components/dashboard/tabs/reviews-tab.tsx:163 | `Math.round` gives the integer within half a unit, halves rounding up |
| ReviewsTab.Percent | components/dashboard/tabs/reviews-tab.tsx:162-163 | the percentage is 0 without reviews, between 0 and 100, 100 when every review counts, and within half a point of the exact share |
| ReviewsTab.SatisfactionRate | components/dashboard/tabs/reviews-tab.tsx:156-163 | for a non-empty list the rate is 100 × positive / total rounded to the nearest integer (within half a point); it lies between 0 and 100, is 0 without reviews or without positive ones and 100 when all are positive |
| ReviewsTab.SiteName | components/dashboard/tabs/reviews-tab.tsx:41 | the site name sent is always truthy, and is "N/A" for a site not in the list |
| ReviewsTab.FilterSite | components/dashboard/tabs/reviews-tab.tsx:93-96 | the batch filter reads "Tous les sites" for "all", otherwise the chosen site's name |
| ReviewsTab.BatchRequest | components/dashboard/tabs/reviews-tab.tsx:85-97 | the batch body carries the flag, one item per filtered review in order, and the filter's site |
| ReviewsTab.BatchRequestRoute | components/dashboard/tabs/reviews-tab.tsx:82-97 | the route analyses a batch body as a batch exactly when the filter kept some review, and answers missing data otherwise |
| ReviewsTab.SingleRequestRoute | components/dashboard/tabs/reviews-tab.tsx:43-52 | the route analyses a single body exactly when the review has a truthy comment, title and rating; the "" and 0 defaults make it missing data |
| ReviewsTab.SingleShapeRoute | app/api/ai/analyze-review/route.ts:26-34 | a body with just the four single fields is analysed singly when all four are truthy and is missing data otherwise |
| ReviewsTab.Settle | components/dashboard/tabs/reviews-tab.tsx:54-71 | the analysis is shown exactly for a readable reply without a truthy error, and otherwise an error is shown: the reply's own, "Erreur status: text", or the thrown message or fallback; loading always ends |
| ReviewsTab.BatchShapeRoute | app/api/ai/analyze-review/route.ts:26-34 | a body with the flag set, an array of reviews and a filter site is analysed as a batch exactly when the array is non-empty, and is missing data otherwise |
| ReviewsTab.ShareBounds | components/dashboard/tabs/reviews-tab.tsx:162-163 | a part of a positive total is a share between 0 and 1, and 1 when it is the whole |
| Calendar.DaysIn | lib/types/date-range.ts:36 | a month has 28 to 31 days, and 29 exactly for February of a leap year |
| Calendar.WeekDay | lib/types/date-range.ts:24 | the weekday of a day number is one of the seven days, 0 for Sunday |
| Calendar.YearLength | lib/types/date-range.ts:44-46 | 1 January of the next year comes 365 days after 1 January, 366 in a leap year |
| Calendar.NextMonth | lib/types/date-range.ts:35-36 | the first of the next month is as many days on as the month is long, across the year boundary too |
| Calendar.InMonth | lib/types/date-range.ts:35 | an in-range month's day number is the year's first day plus the days of the earlier months plus the day less one |
| Calendar.DayShift | components/dashboard/tabs/overview-tab.tsx:59-62 | changing the day of month moves the day number by the same amount, whatever the month |
| Calendar.Carry | components/dashboard/tabs/overview-tab.tsx:65 | an out-of-range month is first carried into the year, month 12 being January of the next year and month -1 December of the year before |
| Calendar.Normalize | lib/types/date-range.ts:35-36 | a date built from any year, month and day is a valid calendar date with the day number those three give |
| Calendar.NormalizeDay | lib/types/date-range.ts:24-26 | day numbers past the month's end or below 1 carry into the neighbouring months and always give a valid date |
| Calendar.NormalizeValid | lib/types/date-range.ts:12 | a date already in range is kept as it is |
| Calendar.DayNumberOrder | lib/types/date-range.ts:10-55 | dates strictly in calendar order have strictly increasing day numbers |
| Calendar.NotAfter | lib/types/date-range.ts:10-55 | dates in calendar order, or equal, have day numbers in the same order |
| Calendar.SameDay | lib/types/date-range.ts:10-55 | two valid dates with the same day number are the same date |
| Calendar.LastDay | lib/types/date-range.ts:36 | day 0 of the next month is the last day of the month, for December too |
| Calendar.YearEnd | lib/types/date-range.ts:44-46 | every date of a year falls before 1 January of the next |
| Calendar.YearsApart | components/dashboard/tabs/overview-tab.tsx:67-68 | a later year starts on a later or equal day number |
| Calendar.MonthsApart | lib/types/date-range.ts:34-36 | within a year every day of an earlier month comes before the first of a later month |
| Calendar.GetDay | lib/types/date-range.ts:24 | getDay gives a weekday from 0 (Sunday) to 6 |
| Calendar.NewDate | lib/types/date-range.ts:12 | a constructed date is midnight of the normalised date, at day number times one day in milliseconds |
| Calendar.SetDate | lib/types/date-range.ts:24-26 | setting the day of month keeps the time of day and moves the moment by whole days, the difference of the two days |
| Calendar.SetMonth | components/dashboard/tabs/overview-tab.tsx:65 | setting the month keeps the day and the time of day, with an out-of-range day carried into the next month |
| Calendar.SetFullYear | components/dashboard/tabs/overview-tab.tsx:68 | setting the year keeps the month, the day and the time of day, 29 February carried into 1 March |
| DateRange.Today | lib/types/date-range.ts:12 | today is the current date at midnight, no later than now and less than a day before it |
| DateRange.DayRange | lib/types/date-range.ts:15-21 | the day period starts at today's midnight and ends exactly 24 hours later |
| DateRange.BackToSunday | lib/types/date-range.ts:24-26 | going back by the weekday lands on a Sunday, and seven days on from it is again a Sunday |
| DateRange.WeekRange | lib/types/date-range.ts:22-33 | the week period starts at midnight of the Sunday of the current week, the weekday count of days before today, and ends at the next Sunday's midnight |
| DateRange.MonthRange | lib/types/date-range.ts:34-43 | the month period runs from the first of the current month to its last day, both at midnight |
| DateRange.YearRange | lib/types/date-range.ts:44-53 | the year period runs from 1 January to 31 December of the current year, both at midnight |
| DateRange.GetDateRange | lib/types/date-range.ts:10-55 | a period exists exactly for the kinds day, week, month and year, of the kind asked for; any other kind gives none |
| DateRange.RangeHoldsToday | lib/types/date-range.ts:10-55 | every period starts at or before today's midnight and ends at or after it |
| OverviewTab.PreviousMonthLength | components/dashboard/tabs/overview-tab.tsx:65 | the month before the current one, December of last year for January, has 28 to 31 days |
| OverviewTab.MonthBack | components/dashboard/tabs/overview-tab.tsx:64-66 | going back a month moves back exactly the length of the previous month: to the same day of it when it has that day, otherwise to a day of the current month (31 March to 3 March) |
| OverviewTab.DayBack | components/dashboard/tabs/overview-tab.tsx:65 | the same day of the previous month is that month's length earlier |
| OverviewTab.YearBack | components/dashboard/tabs/overview-tab.tsx:67-69 | going back a year moves back 365 or 366 days |
| OverviewTab.StartDate | components/dashboard/tabs/overview-tab.tsx:54-74 | the start is one day, seven days, one year (365 or 366 days) or, for month and any other kind, one previous-month length before now, at the same time of day |
| OverviewTab.StartsNest | components/dashboard/tabs/overview-tab.tsx:54-74 | a year starts no later than a month, a month no later than a week, and a week strictly before a day |
| OverviewTab.FilterReviewsByRange | components/dashboard/tabs/overview-tab.tsx:77-84 | a review is kept exactly when it has a truthy date that reads as a moment no earlier than the start, and reviews without a date are dropped |
| OverviewTab.FilterNests | components/dashboard/tabs/overview-tab.tsx:77-84 | a review kept for a shorter period is kept for every longer one |
| OverviewTab.Satisfaction | components/dashboard/tabs/overview-tab.tsx:147-157 | the rate is between 0 and 100, 0 when no review is in the period, and is the reviews-tab rate of the reviews in the period |
| Calendar.NormalizeDayNumber | lib/types/date-range.ts:24-26 | carrying the day into the neighbouring months keeps its day number |
| Calendar.MonthStep | lib/types/date-range.ts:34-36 | the first of the next month, within the year, is the first of this month plus this month's length |
| OverviewTab.JanuaryBack | components/dashboard/tabs/overview-tab.tsx:65 | month -1 of a year is December of the year before, 31 days before January |
| OverviewTab.YearBefore | components/dashboard/tabs/overview-tab.tsx:67-69 | the same month and day one year earlier lies 365 or 366 days before |
| ReviewAnalyzerView.BarWidth | components/dashboard/ai/ai-review-analyzer.tsx:59 | the bar width is within 0 and 100 percent, linear in a score from -1 to 1, empty below and full above |
| ReviewAnalyzerView.BarWidthMonotone | components/dashboard/ai/ai-review-analyzer.tsx:59 | a higher score never gives a narrower bar |
| ReviewAnalyzerView.BarBand | components/dashboard/ai/ai-review-analyzer.tsx:52-58 | the bar is green exactly above 0.5, yellow exactly in (0, 0.5] and red exactly at 0 or below |
| ReviewAnalyzerView.BandMatchesWidth | components/dashboard/ai/ai-review-analyzer.tsx:52-59 | a red bar is at most half full, a yellow one between half and three quarters, a green one over three quarters, and colours follow the order of scores |
| ReviewAnalyzerView.PriorityLabel | components/dashboard/ai/ai-review-analyzer.tsx:34 | the label is "Élevée" exactly for high, "Moyenne" exactly for medium and "Basse" for everything else |
| ReviewAnalyzerView.PriorityColor | components/dashboard/ai/ai-review-analyzer.tsx:16-27 | high, medium and low get red, yellow and green, and grey exactly for any other priority |
| ReviewAnalyzerView.BadgeAgrees | components/dashboard/ai/ai-review-analyzer.tsx:16-34 | green implies "Basse" and "Basse" is green or grey; red exactly when "Élevée" |
| ReviewAnalyzerView.ListSection | components/dashboard/ai/ai-review-analyzer.tsx:66-99 | a non-empty array is listed item by item; any other value with a positive `length` (a non-empty string, an object with a positive `length` property) has no `map` and makes the render fail; everything else hides the section |
| ReportsTab.Find | components/dashboard/tabs/reports-tab.tsx:65 | the lookup finds nothing exactly when no entry has the id, and otherwise an entry of the catalogue with that id |
| ReportsTab.FindFirst | components/dashboard/tabs/reports-tab.tsx:65 | an id finds the first entry that has it |
| ReportsTab.CatalogueIds | components/dashboard/tabs/reports-tab.tsx:16-23 | the catalogue holds the six report types in order, each named and with pages |
| ReportsTab.CatalogueEntries | components/dashboard/tabs/reports-tab.tsx:16-23 | each id finds its own entry, with 8, 12, 10, 6, 4 and 15 pages |
| ReportsTab.Generate | components/dashboard/tabs/reports-tab.tsx:39-84 | a successful reply puts one report at the front with the catalogue name and pages (or "Rapport" and 8), the reply's content, the id from the `Date.now()` reading and the date from the separate `new Date()` reading; any other outcome keeps the list and shows the reply's error, the default text, "HTTP status" or the thrown message; generation ends in every case |
| ReportsTab.Delete | components/dashboard/tabs/reports-tab.tsx:86-88 | exactly the reports with the id are removed, the others stay in order, and the count drops by the number removed |
| ReportsTab.DeleteUndoesGenerate | components/dashboard/tabs/reports-tab.tsx:64-88 | deleting the report a successful generation added, when its id was new, restores the list from before |
| ReportsTab.CatalogueDistinct | components/dashboard/tabs/reports-tab.tsx:16-23 | no two report types share an id |
| ReportsTab.CatalogueNamed | components/dashboard/tabs/reports-tab.tsx:65-71 | every entry a type finds has a name and pages, so neither the "Rapport" nor the 8-page default applies to a catalogued type |
| ReviewsTab.AverageText | components/dashboard/tabs/reviews-tab.tsx:148-155 | the average shows "0" for an empty list and otherwise the one-decimal text of the mean rating |

## Left out

- Provider SDK calls (`generateText`, `anthropic.messages.create`), API keys and environment: foreign calls, modelled as an outcome parameter (text or failure).
- JSON `parse` and `stringify`: an abstract codec parameter; only the truncation, splicing and property handling around them are modelled.
- Clock readings (`new Date()`, `Date.now()`, `toISOString`) and generated ids: parameters, one per reading (the five alert rules each take their own); the model assumes no order between two readings of the same handler.
- Number-to-text conversion (`String(n)`, template interpolation of numbers), `toFixed` and `toLocaleString`/`toLocaleDateString`: parameters or left out, as they are the runtime's formatting; the date-range labels are not modelled.
- ReviewsTab.AverageText: the one-decimal formatting of the mean is a parameter, so the contract fixes the "0" case and which mean is printed, not its digits.
- Floating-point arithmetic: numbers are `real`; NaN is modelled only where the code relies on it (the revenue mean over zero sites); the float averages of the overview metrics (total revenue, average occupancy, average rating) are not modelled.
- The form inputs' `parseInt` of salary and capacity: the forms hold the values after conversion, as JSON values; NaN results are not modelled.
- JsText.ToUpper: maps only Basic Latin and Latin-1 letters (with "ß" to "SS", "ÿ" to "Ÿ" and "µ" to "Μ"); other letters that `toUpperCase` maps, such as "œ", Greek and Cyrillic, are kept unchanged, so the identity clause holds in the model for text JavaScript would change. The Unicode case tables are out of scope; this affects the upper-cased anomaly severity and the period in the general prompt only for such text.
- ReviewsTab.RatingValue: a rating that is not a number counts as 0; `sum + (r.rating || 0)` would instead join a string rating as text and count `true` as 1. The reviews' ratings are numbers in the dashboard's data.
- Json.LengthPositive: an object's `length` property is compared with 0 only when it is a number or a boolean; JavaScript's `> 0` also converts text such as "5", which the model reads as not positive, because string-to-number conversion is the runtime's.
- AlertsTab.Negative: a `null` rating is treated like a missing one and does not count, where JavaScript's `null <= 2` is true.
- Recommendations: the context is read through a `decode` parameter that gives the fields `buildPrompt` reads, because JSON serialisation and parsing are the runtime's.
- Strings are sequences of UTF-16 code units given as `char`; characters outside the Basic Multilingual Plane are not modelled separately.
- Time zones and daylight-saving time: local time is a single timeline of 24-hour days; `new Date(review.date)` (date-text parsing) is a parameter.
- Object identity: rows are compared by value, which is what `===` does for the primitive ids the tabs use.
- The messages of the TypeErrors the runtime throws (a property read of null or undefined, a call of a value that is not a function) are parameters, one per throw site; the model does not say whether two of them are equal.
- React state, dialogs open or closed, rendering, colour classes of the instruction priorities and status icons: rendering only.
- The chat and anomalies routes (`app/api/ai/chat/route.ts`, `app/api/ai/anomalies/route.ts`): a null check plus a pass-through to the provider.
- Services, hooks, authentication, charts, static tabs, PDF styling and configuration: fetch plumbing, browser storage, DOM and styling.
- `lib/prompts/system-prompt.ts`: its text is an opaque constant; `lib/utils/mock-context.ts` is used only as the fixture input of `PromptBuilder.MockContextIsQuiet`.
- The filters `filterSitesByRange` and `filterOriginsByRange` are identity placeholders in the code; the model states this (`OverviewTab.Unfiltered`) without a row, since there is nothing to prove about them.

## Findings

| source | as written | input that shows it | evidently intended | confidence | as-written member | corrected member |
|---|---|---|---|---|---|---|
| app/api/ai/analyze-review/route.ts:26-29 | the handlers' promises are returned without `await` inside `try`, so a rejection (provider failure, unparsable reply, malformed batch entry) escapes the `catch` and the framework answers with its own error | a single request whose provider reply is not valid JSON | every failure answered by the 200 fallback record of lines 36-47 | not executed | AnalyzeReview.FailureEscapesCatch | AnalyzeReview.FailureAnsweredWithFallback |
| app/api/ai/analyze-review/route.ts:57-81 | the prompts hold literal placeholders such as `{{siteName}}` and `{{review}}` that are never substituted, so the review and the computed summary (lines 118-125) never reach the provider | any single request: the prompt is the same whatever the review | the review's site, rating, title and text in the prompt | not executed | AnalyzeReview.PromptIgnoresReview | AnalyzeReview.PromptCarriesReview |
| components/dashboard/tabs/alerts-tab.tsx:79-93 | the closure and staff rules compare the statuses "fermé" and "congé", but sites and employees carry "closed" and "on_leave" (lib/hooks/use-dashboard-data.ts:11, :24; sites-tab writes "closed") | one site with status "closed" and four employees "on_leave" | a critical closure alert and a staff alert | not executed | AlertsTab.DeclaredStatusesMissed | AlertsTab.ClosureRule |
| app/api/reports/generate/route.ts:84 | `REPORT_PROMPTS[type] ?? REPORT_PROMPTS.executive` finds inherited members for types such as "toString", which are functions, not nullish, so `basePrompt.replace` throws and the reply is a 500 | reportType "toString" | an unknown type, inherited names included, uses the executive template | not executed | GenerateReport.InheritedTypeFails | GenerateReport.InheritedTypeCorrected |
