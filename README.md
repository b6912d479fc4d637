# PDF summarizer: a Dafny model of its orchestration and activities

The program watches the `input` blob container. For each new blob it starts
one durable orchestration whose input is the blob's item name. The
orchestrator then calls three activities in order:

- `analyze_pdf` runs layout analysis on the PDF and returns the
  newline-joined text of its lines;
- `summarize_text` posts that text to a chat-completions deployment and
  returns the first choice's content;
- `write_summary` uploads the summary to the `output` container under
  `"{blob}-{YYYYMMDDHHMMSS}.txt"` and returns that name.

Each call runs under a retry policy: at most 3 attempts, with a first retry
interval of 5000 ms. The orchestration's result is the name `write_summary`
returned. If a step fails on every attempt, the orchestration fails there and
no later step runs.

The model has one module per part of `function_app.py`:

- `BlobTrigger` (`blob_trigger.dfy`): the item name, the last `/`-separated
  segment of the blob path (line 24).
- `Orchestration` (`orchestrator.dfy`): the orchestrator (lines 29-36).
  `Apply` is the effect of one activity outcome delivered to the
  orchestration. `Run` is the effect of a sequence of outcomes. The class
  `Orchestrator` does the same steps on mutable fields: `Resume` handles one
  outcome and `Drive` loops over a sequence of them. Every attempt is
  recorded in a history, with its step, activity, attempt number, retry
  delay, input and outcome. The lemmas about `Run` state the ordering, retry
  bound, fail-fast and data-flow guarantees.
- `AnalyzePdf` (`analyze_pdf.dfy`): the text join (lines 52-56) over pages of
  lines.
- `SummarizeText` (`summarize_text.dfy`): the URL, headers and body of the
  request (lines 63-75), and how the response becomes a summary or an error
  (lines 77-79).
- `WriteSummary` (`write_summary.dfy`): the output name and the upload
  (lines 85-92).
- `Strings` (`strings.dfy`): Python's `split`, `join` and character counting
  for a one-character separator.
- `Pipeline` (`pipeline.dfy`): the pieces connected end to end, plus the
  worked example `input/report.pdf`.
- `Wrappers` (`wrappers.dfy`): `Option` and `Result`.

The retry policy is taken from the code. The code gives no way to mark an
error as non-retryable: `RetryOptions` is built with only an interval and an
attempt count. So every failure is retried until 3 attempts are used,
including one caused by a 4xx response: `summarize_text` raises the same way
for a 4xx as for a 5xx status, and the orchestrator retries it like any
other failure.

## Model

| member | source | states |
|---|---|---|
| `Strings.Split` | function_app.py:24 | `str.split` with a one-character separator always gives at least one piece, and no piece contains the separator |
| `Strings.Join` | function_app.py:52-56 | `sep.join(parts)`: a join of at least one piece starts with its first piece and has room for the separators between the pieces; `SplitJoin` and `CountJoin` tie it to `Split` and to the separator count |
| `Strings.JoinSplit` | function_app.py:24 | joining the pieces of a split with the separator gives back the original string |
| `Strings.SplitJoin` | function_app.py:52-56 | splitting a join of at least one separator-free piece gives back exactly those pieces |
| `Strings.CountJoin` | function_app.py:52-56 | a join of k >= 1 pieces holds the pieces' own separators plus exactly k - 1 more |
| `BlobTrigger.ItemName` | function_app.py:24 | `split("/")[-1]`: the orchestration input never contains a `/` |
| `BlobTrigger.ItemNameIsLastSegment` | function_app.py:24 | the item name is a `/`-free suffix of the blob path, preceded there by `/` unless it is the whole path; it is the whole path exactly when the path holds no `/` |
| `BlobTrigger.LastSegmentUnique` | function_app.py:24 | the last-segment property fixes the name uniquely, so it is an independent definition of what the trigger computes |
| `BlobTrigger.ItemNameIgnoresPrefix` | function_app.py:24-25 | any directory prefix is dropped: `dir/name` yields `name` as the orchestration input |
| `Orchestration.Init` | function_app.py:30 | the orchestration starts running at `analyze_pdf` with no attempt recorded; `RunWf` proves the invariant from here |
| `Orchestration.RetryDelay` | function_app.py:31 | the policy's wait before an attempt: none before the first, the 5000 ms first retry interval before each retry |
| `Orchestration.StepInput` | function_app.py:30-35 | the data flow of the `yield`s: `analyze_pdf` gets the blob name, `summarize_text` the text step 0 returned, `write_summary` the record of the blob name and step 1's summary |
| `Orchestration.Apply` | function_app.py:31-35 | one delivered outcome appends exactly one attempt to the history and keeps the earlier history; the appended attempt is the current step's next attempt, carrying that outcome; after the orchestration has ended, a delivery changes nothing |
| `Orchestration.ApplyPreservesWf` | function_app.py:29-36 | every delivery preserves the orchestration invariant: status, step, attempt count and outputs agree; every attempt names its step's activity and has number 1..3, the policy's delay, the input the data flow gives and, on success, that step's output; attempts follow one another; per-step attempt counts stay within 3 |
| `Orchestration.RunFrom` | function_app.py:29-36 | delivering outcomes in order: an ended orchestration is left as it is, and while it keeps running each outcome adds exactly one attempt |
| `Orchestration.Run` | function_app.py:29-36 | the orchestration for a blob after the outcomes from the start; if it is still running, every outcome was taken, one attempt each |
| `Orchestration.RunFromPreservesWf` | function_app.py:29-36 | the invariant holds after any sequence of deliveries |
| `Orchestration.RunWf` | function_app.py:29-36 | every run from the start satisfies the invariant |
| `Orchestration.RunFromExtends` | function_app.py:33-35 | deliveries only append to the history; while still running, each one has added exactly one attempt |
| `Orchestration.RunFromAppend` | function_app.py:33-35 | delivering two sequences one after the other is the same as delivering their concatenation |
| `Orchestration.RunIsAppendOnly` | function_app.py:33-36 | more deliveries never rewrite the history already recorded, and an orchestration that has completed or failed stays exactly as it is |
| `Orchestration.RunTerminates` | function_app.py:31-35 | after 9 deliveries (3 steps times 3 attempts) the orchestration has completed or failed |
| `Orchestration.StepsNonDecreasing` | function_app.py:33-35 | along a sequential history, step indices never decrease |
| `Orchestration.PredecessorSucceeded` | function_app.py:33-35 | in a sequential history, every attempt of step n + 1 comes after a successful attempt of step n |
| `Orchestration.StrictOrdering` | function_app.py:33-35 | in every run, steps are attempted in order; `summarize_text` is attempted only after `analyze_pdf` succeeded, and `write_summary` only after `summarize_text` succeeded |
| `Orchestration.RetriesFollowFailures` | function_app.py:31 | attempt m of a step comes right after its m - 1 earlier attempts, all of them failures of the same step |
| `Orchestration.RetryPolicy` | function_app.py:31-35 | no step gets more than 3 attempts; a first attempt waits 0 ms; each retry waits 5000 ms and directly follows a failure of the same step |
| `Orchestration.FailedAfterThreeAttempts` | function_app.py:31-35 | a failed orchestration's last three attempts are attempts 1, 2 and 3 of its current step, all of them failures |
| `Orchestration.FailFast` | function_app.py:31-36 | a failed run has spent 3 failing attempts on its current step, its error is the last failure, and no later step was attempted (the converse is `ThirdFailureEndsRun`) |
| `Orchestration.WfThirdFailureEnds` | function_app.py:31-36 | in a well-formed state, a third failure of any step is the last attempt recorded, and the orchestration has failed at that step with that error |
| `Orchestration.ThirdFailureEndsRun` | function_app.py:31-36 | in every run, when any step fails its third attempt that attempt is the last one made: the run has failed at that step with that error, and whatever is delivered afterwards changes nothing |
| `Orchestration.RunFromRecordsOutcomes` | function_app.py:33-35 | the attempts added by a sequence of deliveries record those outcomes in delivery order, one per delivery, and never more attempts than outcomes |
| `Orchestration.RunRecordsOutcomes` | function_app.py:33-35 | the history of a run records the delivered outcomes in order: attempt i came back with the i-th outcome |
| `Orchestration.WfDataFlow` | function_app.py:30-36 | in any state satisfying the invariant, the step inputs come from the blob name and from the earlier steps' results |
| `Orchestration.DataFlow` | function_app.py:30-36 | `analyze_pdf` gets the blob name; `summarize_text` gets exactly the text `analyze_pdf` returned; `write_summary` gets `{"blob": blob name, "summary": what summarize_text returned}`; a completed run's result is what `write_summary` returned |
| `Orchestration.PermanentFailure` | function_app.py:31-33 | an `analyze_pdf` that always fails is attempted exactly 3 times, with delays 0, 5000 and 5000 ms; the run fails at step 0 and nothing else is attempted |
| `Orchestration.HappyPath` | function_app.py:30-36 | three successes complete the run, with one attempt per step, the inputs passed along, and `write_summary`'s result as the orchestration's result |
| `Orchestration.TransientFailureRecovers` | function_app.py:31-36 | `summarize_text` failing twice and then succeeding uses 3 attempts of that step; the run still completes, and `write_summary` gets the third attempt's summary |
| `Orchestration.Orchestrator.constructor` | function_app.py:30 | a new orchestration holds the blob name as its input and has run nothing |
| `Orchestration.Orchestrator.Resume` | function_app.py:33-35 | the mutable orchestration performs exactly `Apply` on its fields and keeps the invariant |
| `Orchestration.Orchestrator.Drive` | function_app.py:29-36 | the loop over outcomes leaves the fields equal to `RunFrom` of the old state; it stops early only when the orchestration has ended, and the history grows by one attempt per outcome taken |
| `Orchestration.Orchestrate` | function_app.py:29-36 | driving a new orchestration gives exactly `Run`; it takes one outcome per attempt and stops early only once the run has ended |
| `AnalyzePdf.LineContents` | function_app.py:53-55 | every line of every page contributes exactly one content: there are as many contents as lines |
| `AnalyzePdf.ExtractedText` | function_app.py:52-56 | the returned text: empty when there are no lines, the line itself when there is one |
| `AnalyzePdf.LineContentsAppend` | function_app.py:52-56 | the lines of consecutive runs of pages are concatenated, in page order |
| `AnalyzePdf.LineContentsAt` | function_app.py:52-56 | line l of page p sits at the position after all lines of the earlier pages and the earlier lines of its own page |
| `AnalyzePdf.EmptyPageContributesNothing` | function_app.py:52-56 | inserting a page with no lines leaves the text unchanged |
| `AnalyzePdf.SeparatorCount` | function_app.py:52-56 | with k >= 1 lines, the text holds the lines' own newlines plus exactly k - 1 separators |
| `AnalyzePdf.SplitRecoversLines` | function_app.py:52-56 | if no line contains a newline, splitting the text on newlines gives back the line contents in page order and then line order |
| `SummarizeText.RStrip` | function_app.py:63 | `rstrip("/")` gives a prefix of the endpoint that does not end in `/` |
| `SummarizeText.RStripStripsTrailing` | function_app.py:63 | `rstrip("/")` gives the prefix before the trailing run of `/`, and that prefix does not end in `/` |
| `SummarizeText.StripsTrailingUnique` | function_app.py:63 | only one prefix has that property, so it defines `rstrip` independently |
| `SummarizeText.RStripIgnoresTrailing` | function_app.py:63 | one more trailing `/` does not change the stripped endpoint |
| `SummarizeText.CompletionsUrl` | function_app.py:63-67 | the URL ends with `/openai/deployments/{deployment}/chat/completions?api-version=2025-01-01-preview`, and what precedes it is the endpoint cut before its trailing `/`s, by the independent definition `StripsTrailing` |
| `SummarizeText.CompletionsUrlShape` | function_app.py:63-67 | the URL is the endpoint with every trailing `/` removed, then `/openai/deployments/{deployment}/chat/completions?api-version=2025-01-01-preview` |
| `SummarizeText.CompletionsUrlIgnoresTrailingSlash` | function_app.py:63-67 | a trailing `/` on the configured endpoint does not change the URL |
| `SummarizeText.Summarize` | function_app.py:77-80 | the activity succeeds exactly when the service's answer to its request has no 4xx/5xx status and holds a choice; the summary is then `choices[0].message.content`, even if empty |
| `SummarizeText.SummarizeRequest` | function_app.py:63-77 | the request posted goes to the stripped endpoint's completions URL for the deployment, with the headers the activity passes (`api-key` and `Content-Type: application/json`), and a body of exactly one `user` message holding the text with `max_tokens` 200; the outcome is read from the answer to that request |
| `WriteSummary.Pad` | function_app.py:87 | zero-padded formatting gives exactly `width` decimal digits |
| `WriteSummary.PadValue` | function_app.py:87 | a number below 10^width is read back from its padded digits |
| `WriteSummary.Stamp` | function_app.py:87 | the timestamp is exactly 14 digits |
| `WriteSummary.StampRoundTrip` | function_app.py:87 | the six fields of a valid time are recovered from its `YYYYMMDDHHMMSS` digits |
| `WriteSummary.OutputName` | function_app.py:87-88 | the output name is the blob name, `-`, the 14-digit stamp and `.txt`, at fixed positions |
| `WriteSummary.OutputNameRoundTrip` | function_app.py:87-88 | the output name is the blob name, `-`, 14 digits and `.txt`, and both the blob name and the time are recovered from it |
| `WriteSummary.OutputNameInjective` | function_app.py:87-88 | different seconds, or different blob names, give different output names |
| `WriteSummary.Write` | function_app.py:85-92 | the name returned is the name uploaded under, in the `output` container, with the summary as data, and it encodes the blob name and the time |
| `Pipeline.EndToEnd` | function_app.py:24-92 | when every activity succeeds at its first attempt, the orchestration for a blob path completes with the name the summary was uploaded under; that name encodes the `/`-free item name and the time |
| `Pipeline.SummarizeOutcome` | function_app.py:78-80 | an attempt of `summarize_text` reaches the orchestrator as a success exactly when the activity succeeded, carrying its summary |
| `Pipeline.ErrorResponseRetried` | function_app.py:31-34 | a 4xx or 5xx status or an empty `choices` is retried like any failure: the next attempt is `summarize_text` again with the same text after 5000 ms, and the third such failure fails the orchestration |
| `Pipeline.EmptySummaryDelivered` | function_app.py:33-35 | an empty first-choice content is a success: the empty summary goes to `write_summary`'s first attempt with no retry |
| `Pipeline.ReportItemName` | function_app.py:24 | `input/report.pdf` has item name `report.pdf` |
| `Pipeline.ReportText` | function_app.py:52-56 | two one-line pages give `"Quarterly revenue rose 8%.\nCosts were flat."` |
| `Pipeline.ReportStamp` | function_app.py:87 | 2025-01-01 12:00:00 formats as `20250101120000` |
| `Pipeline.ReportOutputName` | function_app.py:87-88 | the example's output name is `report.pdf-20250101120000.txt` |

## Left out

- The durable-functions runtime is not modelled: replay of the generator, checkpointing, `start_new`, instance ids and timers. The model keeps only what the orchestrator's code and its `RetryOptions` arguments fix: one outcome per attempt, delivered in order. A retry's delay is recorded as data, with no clock behind it.
- `Orchestration.RetryDelay`: every retry waits the first retry interval, 5000 ms. This assumes the library's default backoff coefficient of 1. The library is not part of this model, and other `RetryOptions` settings (maximum interval, retry timeout) are not modelled.
- Storage, layout analysis and HTTP are not modelled: the blob download and upload, `DocumentAnalysisClient` and its poller, and `requests.post`. Their results are inputs: the pages, the service as a function from request to response, and the success or failure of each attempt.
- `SummarizeText.SummaryOf` does not model malformed JSON. It takes the response as already decoded, with a status and a list of choices. A body without `choices`, `message` or `content`, or with a null content, is not modelled.
- `os.environ` lookups are not modelled. The endpoint, deployment and key are the `Config` parameter, so a missing variable (a `KeyError`) is not modelled.
- `datetime.utcnow()` is not modelled; the time is a parameter.
- `WriteSummary.Pad`: `%Y` is modelled as four zero-padded digits. Some C libraries do not pad years before 1000.
- `WriteSummary.Write` requires the ranges a `datetime` guarantees for its fields. Day-of-month validity per month is not checked, because the name only formats the fields.
- An activity's exception is modelled as an error string. When an orchestration fails, that error is the last failure's.
- The async trigger wiring and the logging calls are plumbing and are not modelled.
- `test_openai_http.py` is a standalone script that lists deployments over HTTP. It has no logic to model.
