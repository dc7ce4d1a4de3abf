# Benchmark harness: a verified model

RememberStack's benchmark harness asks a language model questions about long
conversations, lets it read the memory through tools, and has a second model
judge the answers. It spends real money while doing so: it works under call
ceilings and a spend threshold, checkpoints every outcome, is interrupted, and
is resumed. This project models that harness, and the ordering and scoring
kernels around it, and proves what an operator relies on: that no charge is
lost, that budgets hold over whole invocations, that a crashed grading run never
pays twice for one item, and that the scores mean what they say.

Everything is proved for all inputs, all replies of the outside world and all
reachable states. The provider, the judge, the read surface, the remote
deployment and the tracing client are objects whose n-th call yields the n-th
value of an arbitrary function, so any behaviour of theirs is one of these
functions. Money is an exact natural number of the smallest unit; scores and
means are exact rationals.

`dafny verify dfyconfig.toml` checks the whole project.

## The parts

| module | what it is about |
|---|---|
| `Records` | the checkpoint's records, the validators' conditions, and sums over them |
| `AnswerText`, `AnswerLoop`, `AnswerProofs`, `AnswerMeaning`, `AnswerGuard`, `AnswerRun` | one question: the text rules, the loop as a function of all outcomes, what every ending keeps, what it says in terms of the replies alone, when a guard loses a charge, and the loop as it updates its locals and the run state in place, proved to be that function |
| `RunHistory` | what a save may add, what every saved state satisfies, and what a reload checks |
| `StageRuns`, `JudgeRuns` | a whole answer or judge stage as a function of everything it will be answered, and which records it leaves |
| `RunStages`, `JudgeStage`, `IngestStage` | the three stages over a run directory, the first two proved to leave what these functions prescribe: budget checks, save points, outages, refusals |
| `Merge`, `Summary` | joining the states of disjoint shards, and the summary of one run or several |
| `Sidecar`, `SidecarProofs`, `SidecarGrades`, `SidecarBilling`, `SidecarBudget`, `SidecarRun` | grading of saved answers: the write-ahead protocol as a state machine with crashes, its invariants over every history, which reply is behind each record, when its reported cost is exact, when a run gets through its items, and the loop that follows it |
| `SnapshotTree`, `SnapshotReader`, `SearchScan`, `SnapshotSearch`, `Descriptors` | the mounted snapshot: bounded walk, listing and paging; the search over any candidates and over the tree; descriptors under failure at any point |
| `Kendall`, `EventOrder` | rank correlation with ties, event alignment and the event-ordering score |
| `Gate` | the paired bootstrap gate |
| `Manifest`, `ManifestSelection` | largest-remainder apportionment and the selection of questions |
| `TreeDigest`, `TreeCollision`, `PathTopology` | the canonical encoding of a workspace tree, its walk, the listings that share an encoding, and the separation of roots |
| `TokenF1` | the answer scorer from token lists on |
| `Tracing` | the end of every observation, and of the question, under exceptions and interrupts |
| `Arithmetic`, `Collections` | sums, sorting, subsequences and products, for use by the others |

## How the main results hang together

**Accounting.** `AnswerLoop.Ask` is the answer loop as a function of every
outcome; `AnswerRun.AnswerOne` is the loop as the program runs it, proved equal.
`EveryQuestionEndsWell` says that every ending's books equal what the provider
charged. `RunHistory` turns this into an invariant of every durable state. The
stages add the promise that links disk and provider: `PaidFrom` relates two
positions of the provider and two checkpoints, and says that the second
checkpoint paid for exactly the charges in between, kept every earlier record,
counted every call, and passed the threshold by less than one call's cost.
`AnswerSample` and `JudgeSample` end in that relation however they end; only an
exception nobody handles can leave charges of one question, or of one judge
call, unpaid. Each stage says exactly when it refuses, ends short of
completion only at a reached threshold or right after what stopped it, and so
completes whenever nothing stops it and the budgets cover what is left.

**Contents.** What is stored is what was said. `AnswerMeaning` tells the end of a
question from the replies and the tool results alone, without the loop: the
question ends at the first reply after which it may not go on, and that reply
gives it its answer or its failure (`EveryQuestionIsTold`). A recorded answer is
word for word the text of the last reply (`AnswerWasSaid`), and such a reply is
recorded (`SaidIsAnswer`); claims, counters and usage follow
(`EveryRecordIsTold`). `StageRuns.AnswerStage` and `JudgeRuns.JudgeStageOf` are
whole stages as functions of everything they will be answered. `AnswerSample` and
`JudgeSample` leave exactly the checkpoint and the end that these prescribe, and
`StageAnswers` and `StageVerdicts` say what that holds: the told records of the
first questions up to where the stage stopped, failed answers wrong and unheard,
every other verdict that of the ruling in its turn, and everything stored before
as it was. In the same way a grade holds the verdict of the last call made for its
item (`SidecarGrades.RecordsAreReplies`), a search returns the lines that hold the
query and no others (`SnapshotSearch.MatchesAre`), and a summary counts the
questions whose stored verdict is correct (`Summary.TallyTells`).

**Guards.** The stages check the worst case in advance. With that, the call
guard inside a question cannot fire and the spend guard fires only before a
question's first call (`GuardOnlyBeforeFirstCall`, in both directions). Without
it, a charge can be lost: `AnswerGuard.LosesAChargeIff` says for which
configurations and limits.

**Grading saved answers.** The protocol archives a rejected attempt, marks the
item in flight, calls, and settles, each a durable action between which a crash
may happen. At most one paid call per item, calls bounded by attempts and by the
largest limit, a complete archive and exact counts hold in every reachable
state; while rejections come unbilled, the charges stay below the limit last in
force plus the cost of one call (`SidecarBilling.ChargesAreBounded`). An
execution reports if and only if its limits cover the open items and every one of
their calls leaves a grade (`SidecarBudget.GetsThroughIff`). The reported cost is exact if and only if no billed rejection was superseded before
the execution began (`SidecarBilling.ReportedCostIs`). A report that is too low
therefore needs a provider that bills a rejection (`ForgottenRejection`). The
shipped adapter does not: it raises its capacity rejections without a usage
(src/rememberstack/adapters/openrouter.py:742-748, 993-997), and only for a
response body that holds none (1070-1099). Under it every report is exact
(`ShippedReportIsExact`).

**Where the code promises less than one might read into it.** A search that is
not flagged as truncated can still be incomplete: at the limit, two empty files
with matching names are enough (`SilentStopLosesMatches`). For every tree the
flag can be trusted if and only if the walk is cut, or no such file within the
caps is followed by another match (`FlagIsTrueIff`). Two different trees can
have one digest (`TreesCollide`), and a listing shares its encoding with another
one if and only if a record before its last is a link whose target, or the path
after it, holds a newline (`CollidesIff`); without such a record the digest
decides between the trees (`UnambiguousTree`). The gate's bounds are exchanged by
swapping its sides only for one resample or a multiple of twenty
(`DualityIsBalance`). Fewer than twenty questions can be selected
(`FewerThanTwenty`), exactly when a category has fewer questions than its share
(`TwentyIffEnough`). Tracing cannot change how a
question ends except by an interrupt of its client, which passes the handlers
for ordinary exceptions (`Tracing.Question`).

## Model

| member | source | states |
|---|---|---|
| `AnswerText.UnknownIsOneWord` | benchmarks/locomo/runner.py:2708-2710 | A terminal Unknown, however padded, cased or dotted, is a single word, so no word cap of one or more rejects it. |
| `AnswerText.StripLeftKeepsWords` | benchmarks/locomo/runner.py:2708-2710 | Stripping leading white space does not change the number of words, as both are cut at the same characters. |
| `AnswerText.StripRightKeepsWords` | benchmarks/locomo/runner.py:2708-2710 | Stripping trailing white space does not change the number of words. |
| `AnswerText.UnknownIsSpelled` | benchmarks/locomo/runner.py:2708-2710 | A text is the terminal Unknown if and only if it spells the word in any case, then dots only, with white space around it at most. |
| `AnswerText.WordsAreStarts` | benchmarks/locomo/runner.py:2134 | There are as many words as positions where a character that is not white space follows white space, or begins the text. |
| `AnswerProofs.ClaimsAreRankedOnce` | benchmarks/locomo/runner.py:2743-2770 | The claims of any trace are ranked exactly 1..n, name every evidence claim of every envelope, and name none twice. |
| `AnswerProofs.CollectInParts` | benchmarks/locomo/runner.py:2749-2769 | Collecting claims from a trace read in two parts equals collecting the first and going on with what was seen: first-seen order is kept across calls and envelopes. |
| `AnswerProofs.SpendIsCost` | benchmarks/locomo/runner.py:1988-1989 | What the provider charged over any range of calls is the cost of the usages it reported for them. |
| `AnswerProofs.SettleCharges` | benchmarks/locomo/runner.py:1887-1892 | After any reply, whatever its kind, the loop has booked exactly the usages reported so far and the shared spend is the spend at the start plus their cost. |
| `AnswerProofs.InvalidTurn` | benchmarks/locomo/runner.py:1887-1939 | After an invalid completion the question either goes on with sound books strictly below the threshold and with a call left, or ends with a draft its validators accept. |
| `AnswerProofs.CallFailedTurn` | benchmarks/locomo/runner.py:1940-1986 | A failed call ends the question or, on an outage, hands over every usage and call of the question. |
| `AnswerProofs.FinishedTurn` | benchmarks/locomo/runner.py:2134-2192 | A terminal answer counts one reader attempt more, except after a guarded Unknown, which is already counted; as that is one word, the word-cap exit cannot count it a second time. |
| `AnswerProofs.ToolTurn` | benchmarks/locomo/runner.py:2193-2442 | Every tool outcome either goes on with one more trace entry within the tool limit, or ends soundly; the loop goes on only strictly below the threshold. |
| `AnswerProofs.DecisionTurn` | benchmarks/locomo/runner.py:1990-2057 | A validated reply that exceeds the threshold, or meets it with a tool step, ends the question with its usage booked; every other one is judged on its own action. |
| `AnswerProofs.ReplyTurn` | benchmarks/locomo/runner.py:1832-2442 | No kind of reply leaves the loop with counters or books that a later turn could not repair: the invariant holds for the next turn or the ending is good. |
| `AnswerProofs.LoopEndsWell` | benchmarks/locomo/runner.py:1796-2457 | From any sound loop head the remaining turns, however many, end well. |
| `AnswerProofs.EveryQuestionEndsWell` | benchmarks/locomo/runner.py:1744-2457 | For every sequence of provider and tool outcomes a question ends with spend equal to the start plus everything charged, a draft within all limits, or an outage that hands over exactly the billed usages; the spend overshoots the threshold by less than its last call. |
| `AnswerProofs.GuardOnlyBeforeFirstCall` | benchmarks/locomo/runner.py:1797-1803 | With the worst case pre-checked, the call-ceiling guard never fires and the spend guard fires only before the first call, if and only if the threshold is reached by then. |
| `AnswerGuard.LosesAChargeIff` | benchmarks/locomo/runner.py:1797-1803 | Some provider makes the call-ceiling guard fire after a charge if and only if the snapshot is mounted, the calls left under the ceiling are one or more but fewer than the question may make, a tool may be called (twice, unless the retries cover all earlier calls), and the threshold leaves a unit to charge and one more. |
| `AnswerProofs.SmoothNeverStops` | benchmarks/locomo/runner.py:1744-2457 | Without an outage or an unhandled exception among the replies a question ends in a record or at a guard. |
| `AnswerProofs.RecordIsWellKept` | benchmarks/locomo/model.py:406-427 | A settled draft turns into a record with exactly one of answer and failure, reader_called exactly when a call was made, and all retry and attempt counts within the calls. |
| `AnswerProofs.EveryRecordIsWellKept` | benchmarks/locomo/runner.py:2168-2192 | Whatever record a question returns passes every validator, names its question, and carries exactly the aggregate of what the provider billed for its calls. |
| `AnswerMeaning.EveryQuestionIsTold` | benchmarks/locomo/runner.py:1744-2457 | Told by the replies and tool results alone: a question ends at the first reply after which it may not go on, or at a guard, and this reply gives it its answer or its kind of failure; trace, attempts and retries count the replies of each sort before it. |
| `AnswerMeaning.AnswerWasSaid` | benchmarks/locomo/runner.py:2079-2192 | A recorded answer is, word for word, the text of the question's last reply: an answer of the configured model, within the threshold and the word cap, after a tool call. |
| `AnswerMeaning.SaidIsAnswer` | benchmarks/locomo/runner.py:2079-2192 | Conversely, such a reply, once content was read, settles the question with exactly its text. |
| `AnswerMeaning.ClaimsAreFirstSeen` | benchmarks/locomo/runner.py:2743-2770 | The claims are the evidence items that come first with their claim, in the order seen, ranked from one, with their text, document and that document's session. |
| `AnswerMeaning.EvidenceInOrder` | benchmarks/locomo/runner.py:2743-2770 | Evidence and hydration drops are those of the calls, one call after the other. |
| `AnswerMeaning.EvidenceOfCall` | benchmarks/locomo/runner.py:2743-2770 | Of one call they are those of its envelopes in order; a response without envelopes has none. |
| `AnswerMeaning.UsageAddsUp` | benchmarks/locomo/runner.py:2821-2835 | Tokens in, tokens out and cost of an aggregated usage each add up over its parts. |
| `AnswerMeaning.UsageOfOne` | benchmarks/locomo/runner.py:2821-2835 | One call's aggregate is its own usage; without a usage there is none. |
| `AnswerMeaning.JoinedNames` | benchmarks/locomo/runner.py:2827 | Joined model names stand one after the other, with a bar between each two. |
| `AnswerMeaning.ContentIsRead` | benchmarks/locomo/runner.py:2713-2738 | A trace holds a content-bearing read if and only if some call of it succeeded and is one of the direct reads, or a query whose response has a rows entry. |
| `AnswerMeaning.AggregateNames` | benchmarks/locomo/runner.py:2825-2828 | One model keeps its name; several are all named, each once, in codepoint order. |
| `AnswerMeaning.EveryRecordIsTold` | benchmarks/locomo/runner.py:2168-2192 | Every field of a question's record is told by the tape: answer or failure, trace, claims, drops, counters and usage. |
| `AnswerRun.AddEvidence` | benchmarks/locomo/runner.py:2751-2769 | The innermost loop extends the seen set by the envelope's claims and the list by its first-seen ones. |
| `AnswerRun.ClaimsFromTrace` | benchmarks/locomo/runner.py:2743-2770 | The triple loop computes the specified first-seen claims of the whole trace. |
| `AnswerRun.BuildRecord` | benchmarks/locomo/runner.py:2666-2705 | Terminal records are built from the final trace, counters and usages of the loop. |
| `AnswerRun.Session.Charge` | benchmarks/locomo/runner.py:1888-1892 | Booking a reported usage appends it and raises the shared spend in the run state, changing nothing else. |
| `AnswerRun.Session.InvalidCompletion` | benchmarks/locomo/runner.py:1887-1939 | The in-place handling of an invalid completion is the specified one. |
| `AnswerRun.Session.FailedCall` | benchmarks/locomo/runner.py:1940-1986 | The in-place handling of a failed call is the specified one; the run state holds the spend of the ending. |
| `AnswerRun.Session.TerminalAnswer` | benchmarks/locomo/runner.py:2079-2192 | The in-place handling of an answer, with its Unknown guard and word cap, is the specified one, which records the reply's own text. |
| `AnswerRun.Session.RequestedTool` | benchmarks/locomo/runner.py:2193-2442 | The in-place handling of a requested tool is the specified one, and the dispatcher is asked once per trace entry. |
| `AnswerRun.Session.OneTurn` | benchmarks/locomo/runner.py:1796-2442 | One pass of the loop body moves provider, dispatcher, locals and shared spend exactly as one specified turn. |
| `AnswerRun.Session.Drive` | benchmarks/locomo/runner.py:1796-2457 | The whole loop computes the specified ending and leaves the spend it names, with no more calls than the question may make; it stops the run only right after the outage or crash it met. |
| `AnswerRun.Converse` | benchmarks/locomo/runner.py:1771-2457 | A question changes nothing of the run state but the spend; with a failed mount it makes no call. |
| `AnswerRun.Conclude` | benchmarks/locomo/runner.py:2909-2914 | An outage adds the question's usages and calls to the interrupted ones; every other ending leaves them alone. |
| `AnswerRun.AnswerOne` | benchmarks/locomo/runner.py:1744-2457 | The imperative loop, run against any provider and read surface, ends as its specification prescribes and changes the run state accordingly; what that ending says is told by the replies alone. |
| `RunHistory.SaveAccounts` | benchmarks/locomo/runner.py:1488-1494 | Every kind of save keeps the recorded cost equal to the sum over all recorded usages. |
| `RunHistory.SaveExtends` | benchmarks/locomo/runner.py:764-766 | A save only adds: no stored record changes or disappears, and counters only grow. |
| `RunHistory.SaveKeepsIngests` | benchmarks/locomo/runner.py:1459-1469 | A save keeps every ingest record matching its document and every sample on one deployment. |
| `RunHistory.SaveKeepsAnswers` | benchmarks/locomo/runner.py:1470-1484 | A save keeps every answer under its own item, matching its question, with ranks 1..n. |
| `RunHistory.SaveKeepsJudges` | benchmarks/locomo/runner.py:1455-1458 | A save keeps every judgment under its own item and within the answered items. |
| `RunHistory.KeptIsValid` | benchmarks/locomo/runner.py:1436-1494 | What every save keeps implies every check of a reload. |
| `RunHistory.EverySavedStateIsKept` | benchmarks/locomo/runner.py:1436-1494 | Over any sequence of ingest, answer and judge saves from a fresh run, every saved state is exactly accounted and passes every check of a reload. |
| `RunHistory.NothingSavedIsLost` | benchmarks/locomo/model.py:450-465 | Any later saved state extends any earlier one: records are never changed or dropped. |
| `RunStages.RunDirectory.Save` | benchmarks/locomo/runner.py:2988-2990 | The checkpoint is replaced as a whole by the state in memory, and its history grows by exactly that state. |
| `RunStages.ValidateState` | benchmarks/locomo/runner.py:1436-1494 | The reload accepts a checkpoint if and only if it meets all the listed conditions. |
| `RunStages.Load` | benchmarks/locomo/runner.py:1224-1263 | On a directory only these stages wrote the reload never rejects, and memory equals the checkpoint. |
| `RunStages.RemainingQuestions` | benchmarks/locomo/runner.py:646-651 | The questions left to answer are distinct planned items, and every other question of the sample has an answer. |
| `RunStages.DraftIsPaid` | benchmarks/locomo/runner.py:2821-2835 | What a terminal draft spent is what the provider charged for the question, less than one call above the threshold. |
| `RunStages.OutageIsPaid` | benchmarks/locomo/runner.py:1957-1963 | What an outage hands over costs exactly what the provider charged for the question's calls. |
| `RunStages.RecordPays` | benchmarks/locomo/runner.py:764-765 | Saving a question's record is a legal save: it accounts for the question's charges and adds one answer. |
| `RunStages.OutagePays` | benchmarks/locomo/runner.py:2909-2914 | Saving an outage is a legal save that pays every charge of the interrupted question. |
| `RunStages.AnswerWithRoom` | benchmarks/locomo/runner.py:683-762 | With the worst case pre-checked, a question ends as the question loop prescribes at the provider's and the read surface's positions: the record handed over is the one built from that ending, the run state holds its books, and a guard leaves it untouched. |
| `RunStages.AnswerNext` | benchmarks/locomo/runner.py:682-770 | One question ends as the question loop prescribes at the provider's position: the record saved is the one of that ending, an outage saves its usages, a guard and an unhandled exception save nothing; only the last leaves its own charges unpaid. |
| `RunStages.AdmitAnswers` | benchmarks/locomo/runner.py:584-645 | The readiness is saved, and nothing else changes, exactly when the sample is admitted, ingested on one deployment, within the question limit and in agreement with the stored fingerprint; the stage goes on if and only if the live checks after that pass as well. |
| `RunStages.AnswerAdmissionTells` | benchmarks/locomo/runner.py:584-670 | In elementary terms an answer stage is not refused if and only if it is admitted, the sample has questions, the question limit covers the manifest, all its documents are recorded on one deployment, a stored fingerprint agrees, and the worst case of the open questions fits under the call ceiling with the spend not beyond the threshold. |
| `RunStages.OneDeploymentTells` | benchmarks/locomo/runner.py:1695-1716 | One deployment means that the sample has records and all of them name the same. |
| `RunStages.SampleQuestionsAre` | benchmarks/locomo/runner.py:646-651 | A sample's questions are those of the manifest that belong to it, in order. |
| `RunStages.OpenQuestionsAre` | benchmarks/locomo/runner.py:646-651 | Open are those of them that have no answer, in order. |
| `RunStages.AnswerAll` | benchmarks/locomo/runner.py:682-770 | The checkpoint and the end are the one result that the loop's endings, taken question by question at the positions reached, prescribe. It pays for everything charged, the calls stay within the ceiling, and a normal end answers all questions; every other end is a guard at a reached threshold, or the last reply or tool step was an outage or a crash; so it completes when none is and the questions left cannot meet the threshold. |
| `RunStages.AnswerSample` | benchmarks/locomo/runner.py:572-770 | A whole answer stage: it is refused if and only if attestation, readiness, the call ceiling or the threshold fails, and then charges nothing; otherwise it leaves exactly the records of the endings that the loop prescribes at the provider's positions, each told by the replies, and with them every charge (one question's at most is lost to an unhandled exception); all agent calls stay within the limit, a guard only reports a reached threshold, any other end follows an outage or crash just met, and it completes if there is none and the worst case cannot meet the threshold. |
| `StageRuns.StageAnswers` | benchmarks/locomo/runner.py:682-770 | However a stage ends, its checkpoint holds the records of the first questions up to where it stopped, each with its answer, trace, claims and usage as the replies and results tell them, and every other answer as it was; it completes exactly when these are all questions. |
| `JudgeStage.JudgeOne` | benchmarks/locomo/runner.py:2488-2663 | One judge call: the guard fires exactly when the calls or the spend are used up; otherwise exactly one call is made, and its outcome is a visible verdict or an outage, with its usage booked. |
| `JudgeStage.LocalWrongPays` | benchmarks/locomo/runner.py:2471-2473 | A failed answer is wrong without a call, and storing that verdict is a legal save. |
| `JudgeStage.VerdictPays` | benchmarks/locomo/runner.py:864-865 | Storing a verdict is a legal save: it accounts for the judge's fee and adds one judgment. |
| `JudgeStage.OutageIsBilled` | benchmarks/locomo/runner.py:2565-2571 | A judge outage keeps its usage and call as interrupted, a legal save that pays the fee. |
| `JudgeStage.JudgeNext` | benchmarks/locomo/runner.py:820-870 | One answer is judged and saved: a failed one as wrong without a call, any other one with the record of the judge's ruling at its position; it stops the run exactly at a guard, an outage or an unhandled exception, and only the last leaves one call unpaid. |
| `JudgeStage.JudgeAll` | benchmarks/locomo/runner.py:820-870 | The checkpoint and the end are the one result that the rulings, taken question by question at the positions reached, prescribe. It pays every fee, the calls stay within the ceiling, and a normal end judges each question; every other end is a guard at a reached threshold, or the last ruling was an outage or a crash; so it completes when none is and the open calls cannot meet the threshold. |
| `JudgeStage.CountOpen` | benchmarks/locomo/runner.py:802-806 | The remaining calls are the answered, unfailed items without a verdict. |
| `JudgeStage.OpenCallsAre` | benchmarks/locomo/runner.py:802-806 | The calls needed are as many as there are questions answered without a failure and not yet judged. |
| `JudgeStage.JudgeAdmissionTells` | benchmarks/locomo/runner.py:786-819 | In elementary terms a judge stage is not refused if and only if it is admitted, the sample has questions, all of them are answered, and the calls still needed fit under the ceiling with the spend not beyond the threshold. |
| `JudgeStage.JudgeSample` | benchmarks/locomo/runner.py:773-874 | A whole judge stage: it is refused if and only if an answer is missing or a budget does not cover the open calls, and then changes nothing; otherwise it leaves exactly the verdicts that the rulings at the judge's positions prescribe, a failed answer wrong and unheard, a correct one only for a ruling of correct that counts, and with them every fee but at most one lost call's; no run makes more judge calls than its ceiling, any end but completion is a reached threshold or follows an outage or crash just met, and it completes if there is none and the open calls cannot meet the threshold. |
| `JudgeRuns.StageVerdicts` | benchmarks/locomo/runner.py:820-870 | However a stage ends, its checkpoint keeps all earlier verdicts and holds one for each of the first questions up to where it stopped: wrong, without call or usage, for a failed answer, and otherwise the record of the ruling number that comes after those of the questions before it, at the spend reached by then; it completes exactly when these are all questions. |
| `JudgeRuns.RulingIsRecorded` | benchmarks/locomo/runner.py:2488-2663 | The record of a ruling is valid, carries its charge, and is correct only for a ruling of correct by the pinned model within the threshold; every other ruling is a visible wrong. |
| `IngestStage.RunProbe` | benchmarks/locomo/runner.py:351-401 | A probe is made only below the threshold, and whatever it reports is durable before its outcome counts; it passes exactly when it answers, a chat probe with the pinned model's ok. |
| `IngestStage.Preflight` | benchmarks/locomo/runner.py:489-503 | At most two probes are made; it succeeds if and only if both pass and the threshold is open before, between and after them. |
| `IngestStage.ProbesPassTells` | benchmarks/locomo/runner.py:351-401 | The probes pass if and only if the chat model answers ok under its pinned name, the embedding model answers, and the spend with both stays below the threshold. |
| `IngestStage.ExactLiveTells` | benchmarks/locomo/runner.py:1653-1692 | The live set is exact if and only if all of the sample's records name this deployment and the live documents are theirs and no others. |
| `IngestStage.IngestAdmissionTells` | benchmarks/locomo/runner.py:438-503 | In elementary terms an ingest stage is not refused if and only if it is admitted within the document limit and, with a document outstanding, the build is current and the deployment attests an exact live set. |
| `IngestStage.RequireExactLive` | benchmarks/locomo/runner.py:1653-1692 | A deployment is accepted if and only if it attests and its live documents are exactly the checkpointed ones, all of them on this deployment. |
| `IngestStage.IngestOne` | benchmarks/locomo/runner.py:504-568 | An upload is made only for an intact file and an exact, attested deployment; the document is recorded if and only if the upload is new, of this deployment and of the same content, then with the ids it was given, and the deployment is exact again. |
| `IngestStage.IngestAll` | benchmarks/locomo/runner.py:504-569 | Uploads happen only over an exact live set, and a normal end leaves the live set equal to the records; otherwise some outstanding document is blocked: its file changed, the last attestation failed, the live set is not exact, or the last upload was not accepted. |
| `IngestStage.PrepareIngest` | benchmarks/locomo/runner.py:438-503 | With documents outstanding the stage is refused if and only if the build is not current or the live set not exact, and uploads start if and only if both probes pass as well. |
| `IngestStage.StoredHashMatches` | benchmarks/locomo/runner.py:506-510 | A stored ingest never disagrees with its document on a directory that only these stages wrote. |
| `IngestStage.IngestedTogether` | benchmarks/locomo/runner.py:1695-1716 | Once all of a sample's documents are recorded, its records name one deployment, so the answer stage's check accepts it. |
| `IngestStage.IngestSample` | benchmarks/locomo/runner.py:406-569 | A whole ingest stage: it is refused exactly under its guards; every probe is paid in the checkpoint, a full resume calls nothing and uploads nothing, completion leaves the sample ready to answer, and any other end is a failed probe, a reached threshold or a blocked document; so it completes if the probes pass, the deployment is faithful and the files are intact. |
| `Merge.ClaimSamples` | benchmarks/locomo/runner.py:1103-1110 | A shard's samples are accepted if and only if none of them has an owner. |
| `Merge.RequireDisjointSamples` | benchmarks/locomo/runner.py:1095-1112 | Shards are accepted if and only if no sample is recorded by two of them; the result is everything recorded. |
| `Merge.MeasuresAgree` | benchmarks/locomo/runner.py:2875-2886 | The measured spend is the accounted cost, and the measured calls are what the call ceilings bound. |
| `Merge.JoinAccounts` | benchmarks/locomo/runner.py:1007-1041 | The accounted cost of two disjoint shards is the sum of theirs. |
| `Merge.JoinIsValid` | benchmarks/locomo/runner.py:1007-1041 | Two valid, disjoint shards join into a state that passes every check of a reload. |
| `Merge.DisjointIsNoneTwice` | benchmarks/locomo/runner.py:1095-1112 | Shards are disjoint if and only if no two of them hold an answer or a verdict for questions of one sample. |
| `Merge.MergedIngest` | benchmarks/locomo/runner.py:1010-1015 | The merge holds every ingest record of a sample that its shard records, unchanged. |
| `Merge.IngestSource` | benchmarks/locomo/runner.py:1010-1015 | Every ingest record of the merge comes from a shard that holds it and records its sample. |
| `Merge.MergedIsValid` | benchmarks/locomo/runner.py:1007-1055 | Any number of valid, sample-disjoint shards merge into a state that passes every check of a reload and records exactly their samples. |
| `Merge.MergeMeasures` | benchmarks/locomo/runner.py:968-988 | Tokens, spend, calls and retries of a merge are the sums over its shards. |
| `Merge.MergeGrades` | benchmarks/locomo/runner.py:901-905 | Correct verdicts and summed scores of a merge, over all questions or any selection, are the sums over its shards. |
| `Summary.CategoriesPartition` | benchmarks/locomo/runner.py:935-952 | The four categories' questions, verdicts and scores add up to the manifest's. |
| `Summary.CountFlaws` | benchmarks/locomo/runner.py:906-913 | One question adds exactly its own answer and judge flaw to the counters. |
| `Summary.GradeAll` | benchmarks/locomo/runner.py:892-913 | The accumulating loop counts every question, verdict, score and flaw of the manifest, in all and by category. |
| `Summary.Summarize` | benchmarks/locomo/runner.py:877-992 | A summary's counts, percentages and totals are those of the records, absent records scoring zero: correct means a stored verdict of correct. |
| `Summary.TallyTells` | benchmarks/locomo/runner.py:892-913 | Over distinct questions the correct count is the number of those with a stored verdict of correct, in all and by category; missing and failed records are counted by kind. |
| `Summary.PercentTells` | benchmarks/locomo/runner.py:920-930 | The percentage is full if and only if every question was judged correct, and zero if and only if none was. |
| `Summary.ScoreOfOne` | benchmarks/locomo/runner.py:894-900 | A question without a stored answer adds nothing to the score, any other the scorer's value for its stored answer, its gold and its category. |
| `Summary.ScoresAddUp` | benchmarks/locomo/runner.py:922 | Scores add up over the questions. |
| `Summary.TotalsTell` | benchmarks/locomo/runner.py:962-988 | Every total is the sum, over the records that carry it and the unowned usages, of the field it is named for. |
| `Summary.EverySummaryTells` | benchmarks/locomo/runner.py:877-992 | A whole summary is told by the records of its checkpoint alone. |
| `Summary.ReportedCostIsSpent` | benchmarks/locomo/runner.py:988 | On a checkpoint that passed the reload, the reported cost is the total of all its usages. |
| `Summary.MergedSummaryAddsUp` | benchmarks/locomo/runner.py:1055-1066 | Every reported total, verdict and score sum of a merged summary is the sum over the shards. |
| `Summary.MergedLookup` | benchmarks/locomo/runner.py:1028-1037 | The merge holds every answer and every verdict of its shards, unchanged. |
| `Summary.MergedSource` | benchmarks/locomo/runner.py:1028-1037 | Every answer and every verdict of the merge comes from a shard. |
| `Summary.UnrecordedAre` | benchmarks/locomo/runner.py:1056-1060 | The samples named as missing are exactly the configured ones that no shard records, in their order. |
| `Summary.SummarizeMerged` | benchmarks/locomo/runner.py:1001-1069 | Merging succeeds exactly on disjoint shards, adds up, and names the samples nobody recorded. |
| `Summary.SummarizeRuns` | benchmarks/locomo/runner.py:995-1069 | Summarizing succeeds exactly on one or more shards of one identity without a shared sample, adds up over them, and reports what the merged records tell. |
| `Summary.MergeOrder` | benchmarks/locomo/runner.py:1028-1037 | Shards in another order merge into the same answers and judgments. |
| `Summary.DisjointOrder` | benchmarks/locomo/runner.py:1095-1112 | Whether shards are disjoint does not depend on their order. |
| `Summary.ShardOrderDoesNotMatter` | benchmarks/locomo/runner.py:995-1069 | The shards' order decides neither whether they merge nor what is reported. |
| `Sidecar.ArchiveView` | benchmarks/locomo/judge_sidecar.py:365-372 | Archiving a rejected attempt keeps the item's record, archive and calls consistent. |
| `Sidecar.MarkView` | benchmarks/locomo/judge_sidecar.py:352-374 | Marking an item in flight keeps them consistent, and numbers the attempt right after the calls made. |
| `Sidecar.CallView` | benchmarks/locomo/judge_sidecar.py:375-384 | A call under a marker keeps them consistent. |
| `Sidecar.SettleView` | benchmarks/locomo/judge_sidecar.py:385-419 | Replacing the marker by the observed outcome keeps them consistent. |
| `Sidecar.ActionKeeps` | benchmarks/locomo/judge_sidecar.py:310-443 | Every durable action, and a crash at any point, keeps files and calls fitting together. |
| `SidecarProofs.ActionKeepsCount` | benchmarks/locomo/judge_sidecar.py:342-374 | Attempts on disk stay at most one ahead of the calls made, and only for a marker in doubt. |
| `SidecarProofs.ActionKeepsBudget` | benchmarks/locomo/judge_sidecar.py:361-364 | No action takes the attempts beyond the largest call limit given. |
| `SidecarProofs.ActionKeepsCost` | benchmarks/locomo/judge_sidecar.py:343-346 | The running cost never exceeds what was charged, and equals it while capacity rejections come unbilled. |
| `SidecarProofs.EveryStateIsKept` | benchmarks/locomo/judge_sidecar.py:310-443 | All of this holds in every reachable state, over any number of executions and crashes. |
| `SidecarProofs.CallsAreBounded` | benchmarks/locomo/judge_sidecar.py:342-364 | In every durable state: calls made <= attempts on disk <= calls made + 1, and attempts never exceed the largest limit. |
| `SidecarProofs.AtMostOnePaidCall` | benchmarks/locomo/judge_sidecar.py:347-423 | Across any crashes and restarts an item gets at most one call that was not a capacity rejection. |
| `SidecarProofs.SettledIsFinal` | benchmarks/locomo/judge_sidecar.py:348-350 | A settled item is never called again, and none of its files changes. |
| `SidecarProofs.UnsettledBlocks` | benchmarks/locomo/judge_sidecar.py:324-335 | With an unsettled or unaccounted attempt on disk, no later execution makes a call or changes a file. |
| `SidecarProofs.ArchiveIsComplete` | benchmarks/locomo/judge_sidecar.py:365-372 | Every superseded attempt 1..k-1 of an item is archived, as the rejection it was and with the usage it reported. |
| `SidecarProofs.EveryChargeIsOnDisk` | benchmarks/locomo/judge_sidecar.py:343-346 | With no attempt in doubt, what was charged is exactly what the records and the archived attempts hold. |
| `SidecarProofs.StartsExactIffSupersededIsFree` | benchmarks/locomo/judge_sidecar.py:343-346 | An execution starts from the exact cost if and only if the archived, superseded attempts cost nothing. |
| `SidecarProofs.ReportIsExact` | benchmarks/locomo/judge_sidecar.py:424-444 | On normal return saved answers = graded + source failures + judge failures, each count, the correct grades too, is that of the records, the reported calls are the calls made, and the reported cost never exceeds the charge and equals it while rejections come unbilled. |
| `SidecarProofs.RecordsAlwaysMatch` | benchmarks/locomo/judge_sidecar.py:336-341 | The check of the records against the frozen inputs never fails on a directory that only this protocol wrote. |
| `SidecarProofs.StartsIff` | benchmarks/locomo/judge_sidecar.py:310-341 | In every reachable state an execution may start if and only if both limits are positive, the frozen snapshot is its own, and no recorded attempt is in flight or unaccounted for, capacity rejections apart. |
| `SidecarGrades.RecordsAreReplies` | benchmarks/locomo/judge_sidecar.py:352-423 | In every state of every history each record is told by the calls made for its item: a grade holds the verdict and usage of the last one, from the pinned model, after rejections only; failures and rejections likewise name the reply behind them. |
| `SidecarGrades.ArchiveIsReplies` | benchmarks/locomo/judge_sidecar.py:365-372 | Every archived attempt is a rejection, told by the calls up to its own. |
| `SidecarBilling.ActionForgetsNothing` | benchmarks/locomo/judge_sidecar.py:347-423 | Within one execution no action loses sight of a further charge. |
| `SidecarBilling.ReportedCostIs` | benchmarks/locomo/judge_sidecar.py:440 | The reported cost falls short by exactly the billed attempts superseded before this execution; it is what was charged if and only if there were none. |
| `SidecarBilling.ChargesAreBounded` | benchmarks/locomo/judge_sidecar.py:361-423 | While rejections come unbilled, everything the provider charged stays, in every state of every history, below the cost limit of the execution that made the last call plus the cost of that one call. |
| `SidecarBilling.ForgottenRejection` | benchmarks/locomo/judge_sidecar.py:343-372 | With a provider that bills its rejections a report can be short: two billed rejections, then a verdict, are reported as two of three charged. |
| `SidecarBilling.ShippedReportIsExact` | src/rememberstack/adapters/openrouter.py:742-748 | When capacity rejections carry no usage, as the shipped adapter raises them, every report is exact, over any number of executions and crashes. |
| `SidecarRun.Directory.Publish` | benchmarks/locomo/judge_sidecar.py:133-147 | One atomic file update is one action of the protocol, and the history grows by exactly that state. |
| `SidecarRun.SettleCall` | benchmarks/locomo/judge_sidecar.py:375-423 | A call's outcome replaces its marker, or leaves it in doubt, and no other item is touched; the run goes on exactly after a grade from the pinned model within the cost limit, and then the record holds this reply's verdict and usage. |
| `SidecarRun.CallOnce` | benchmarks/locomo/judge_sidecar.py:373-423 | An item is marked before, called exactly once, and settled after. |
| `SidecarRun.GradeItem` | benchmarks/locomo/judge_sidecar.py:347-423 | An open item is recorded, or archived, marked, called and settled; a call is made exactly within both budgets, and the run goes on exactly when the item passes, with the totals moved by it. |
| `SidecarRun.GradeAll` | benchmarks/locomo/judge_sidecar.py:347-423 | The loop over the frozen order settles every item exactly when each open one passes in turn, and stops at a boundary with its outcome saved otherwise. |
| `SidecarBudget.GetsThroughIff` | benchmarks/locomo/judge_sidecar.py:347-423 | Passing item by item is one condition: the limits cover the calls that the open items need, the last one starting below the cost limit, and every one of these calls leaves a grade; the totals grow by exactly these calls and their cost. |
| `SidecarRun.GradeSavedAnswers` | benchmarks/locomo/judge_sidecar.py:308-444 | An execution is refused exactly for a limit that is not positive, another snapshot, or an attempt in flight or unaccounted for, then changing nothing; otherwise it reports if and only if the limits cover its open items and every one of their calls leaves a grade. Then each open item holds the verdict of the reply in its turn, each closed one its record, and the report agrees with the calls, the charges and the records, correct grades included. |
| `SnapshotTree.WalkDirectory` | benchmarks/locomo/retrieval.py:416-431 | Expanding one directory keeps the files found and pending within the preorder, and complete unless entries were cut. |
| `SnapshotTree.BoundedFiles` | benchmarks/locomo/retrieval.py:394-432 | The stack walk returns exactly the files of the name-sorted preorder under a budget of listed entries, which it reports as truncated exactly when a complete walk would list the cap or more; the result is part of the preorder in order, all of it unless truncated, and the walk visits at most the cap and terminates. |
| `SnapshotTree.UncutWalk` | benchmarks/locomo/retrieval.py:416-431 | A budget that a complete walk does not use up makes no difference: the walk returns the whole preorder. |
| `SnapshotTree.CutListing` | benchmarks/locomo/retrieval.py:419-431 | Listing only the first entries of a directory loses files and nothing else. |
| `SnapshotTree.FilesAre` | benchmarks/locomo/retrieval.py:406-431 | The preorder holds exactly the files reached through visible entries. |
| `Orders.LexLeIs` | benchmarks/locomo/retrieval.py:429-431 | Names and paths are sorted by codepoints: a beginning comes first, and otherwise the smaller character at the first difference decides. |
| `SnapshotTree.FilesAscend` | benchmarks/locomo/retrieval.py:429-431 | The preorder lists files in strictly ascending path order, so none twice. |
| `SnapshotTree.EnumerationOrderDoesNotMatter` | benchmarks/locomo/retrieval.py:429-431 | A complete walk depends neither on the order in which directories enumerate entries nor on anything but the files that are there. |
| `SnapshotTree.TruncatedWalkIsHonest` | benchmarks/locomo/retrieval.py:416-432 | Even a truncated walk returns only files that are there, each once. |
| `SnapshotReader.List` | benchmarks/locomo/retrieval.py:313-342 | A listing is the first 200 of the visible entries among those visited, in name order, and all visible entries unless it reports truncation, which it does exactly at either cap. |
| `SnapshotSearch.ScanLines` | benchmarks/locomo/retrieval.py:373-380 | Scanning stops at the first line that leaves enough matches, and is complete otherwise; which lines match is said by MatchesAre. |
| `SnapshotSearch.ScanFile` | benchmarks/locomo/retrieval.py:353-382 | A candidate's fate is decided by its causes: the file cap, the bytes left, an unreadable file, a line that fills the limit, or a path that does; flag, break and totals follow it exactly. |
| `SnapshotSearch.ScanFiles` | benchmarks/locomo/retrieval.py:353-382 | The loop breaks and is flagged exactly as the first candidate that stops it says, with the matches, files and bytes of the candidates before and, if scanned, of that one. |
| `SnapshotSearch.MatchesAre` | benchmarks/locomo/retrieval.py:371-380 | The matches of the walked files are exactly the true ones: every path that holds the query, and every line that does, with its number and its text. |
| `SnapshotSearch.FileMatchesAscend` | benchmarks/locomo/retrieval.py:371-380 | Within a file the path comes first and the lines follow in order, none twice. |
| `SnapshotSearch.PathTextJoins` | benchmarks/locomo/retrieval.py:360 | A path is matched as its names joined by slashes. |
| `SnapshotSearch.Search` | benchmarks/locomo/retrieval.py:344-392 | The result is the one answer for the files that the walk under its budget returns: broken exactly on an unreadable file, flagged exactly when the walk or the scan was cut, with the totals of what was scanned. Every match is a true one of a walked file, and an unflagged result short of the limit holds every true one of every visible file. |
| `SnapshotSearch.ResultIsHonest` | benchmarks/locomo/retrieval.py:344-392 | Any result begins the walked files' matches in order, within the limit and all caps. |
| `SnapshotSearch.ShortResultIsComplete` | benchmarks/locomo/retrieval.py:344-392 | A result that is not flagged and has fewer matches than asked for is exactly all true path and line matches of the visible files. |
| `SearchScan.SilentMissIff` | benchmarks/locomo/retrieval.py:353-382 | A search at one limit is unflagged and yet misses matches if and only if, with everything up to it readable within the caps, an empty file brings the matches to the limit with its path and another match follows. |
| `SnapshotSearch.FlagIsTrueIff` | benchmarks/locomo/retrieval.py:344-392 | For every tree, unflagged means complete at every limit if and only if the walk is cut (every search is then flagged) or no visible empty file that the caps let the scan reach, and that matches by its path early enough to be asked for, is followed by another match. |
| `SnapshotSearch.SilentStopLosesMatches` | benchmarks/locomo/retrieval.py:369-382 | It is not always: under a root with its version marker and two empty files a1 and a2, a query that occurs in both names returns at limit one the first match, unflagged. |
| `SnapshotReader.FoundFilesOpen` | benchmarks/locomo/retrieval.py:353-363 | Every path the walk returns opens the file it was found as. |
| `SnapshotReader.ReadPage` | benchmarks/locomo/retrieval.py:434-456 | A page of the file is returned exactly for a readable regular file within the byte limit, and one beyond it is told apart. |
| `SnapshotReader.PagesMakeProgress` | benchmarks/locomo/retrieval.py:445-455 | A page holds the lines from the asked one on, each under its number, as far as the file and the page go; a truncated one is full and leads strictly further. |
| `SnapshotReader.PagesConcatenate` | benchmarks/locomo/retrieval.py:446-455 | Following end_line + 1 until a page is not truncated yields the rest of the file. |
| `SnapshotReader.WholeFileIsRead` | benchmarks/locomo/retrieval.py:446-455 | From the first line, the pages concatenate to the whole file. |
| `Descriptors.Table.Close` | benchmarks/locomo/retrieval.py:584 | Only an open descriptor is closed, and one close ends it. |
| `Descriptors.Descend` | benchmarks/locomo/retrieval.py:574-586 | However deep the path and wherever it fails, one directory is held at rest and two in between. |
| `Descriptors.ReadStream` | benchmarks/locomo/retrieval.py:600-603 | A stream that took the file over closes it however the read ends, and nothing else does. |
| `Descriptors.ReadFile` | benchmarks/locomo/retrieval.py:588-612 | Whatever fails between open and decode, exactly the descriptors still open remain to be released. |
| `Descriptors.Release` | benchmarks/locomo/retrieval.py:617-627 | The cleanup closes what is still held, each once. |
| `Descriptors.ReadOutcomeTells` | benchmarks/locomo/retrieval.py:563-616 | Bytes come of a named path if and only if all its calls succeed, the file is regular and fits, and what is read fits and decodes; the limit is reported if and only if the file is too large or has grown so. |
| `Descriptors.ReadPinned` | benchmarks/locomo/retrieval.py:563-627 | For any depth and any failure, every descriptor opened is closed exactly once, the root descriptor is untouched, and at most two extra are open at a time; the bytes are returned exactly when every call succeeds on a regular file that fits and decodes. |
| `Kendall.CountPair` | benchmarks/rs_harness_beam/official_score.py:316-329 | A pair counts as concordant, discordant or tied by the signs of its differences, twice if tied in both rankings. |
| `Kendall.CountRow` | benchmarks/rs_harness_beam/official_score.py:315-329 | The inner loop counts one item against all later ones. |
| `Kendall.CountPairs` | benchmarks/rs_harness_beam/official_score.py:314-329 | The nested loops count every pair once. |
| `Kendall.CountsPartition` | benchmarks/rs_harness_beam/official_score.py:314-330 | Concordant, discordant and tied pairs are together all pairs. |
| `Kendall.PairsAreHalf` | benchmarks/rs_harness_beam/official_score.py:330 | There are n(n-1)/2 pairs. |
| `Kendall.TauIsBounded` | benchmarks/rs_harness_beam/official_score.py:330-334 | (C-D)^2 <= (n0 - ties in x)(n0 - ties in y) for any two rankings. |
| `Kendall.TauIsSymmetric` | benchmarks/rs_harness_beam/official_score.py:305-334 | Exchanging the rankings exchanges the tie corrections and nothing else. |
| `Kendall.TauNegates` | benchmarks/rs_harness_beam/official_score.py:305-334 | Negating one ranking exchanges concordant and discordant pairs. |
| `Kendall.TauIgnoresOrder` | benchmarks/rs_harness_beam/official_score.py:305-334 | Permuting both rankings together changes no count. |
| `Kendall.TauInRange` | benchmarks/rs_harness_beam/official_score.py:331-334 | The coefficient lies between -1 and 1. |
| `Kendall.TauIsOneIff` | benchmarks/rs_harness_beam/official_score.py:305-334 | The coefficient is one if and only if every pair is ordered, or tied, alike in both rankings and some pair is not tied. |
| `Kendall.TauIsMinusOneIff` | benchmarks/rs_harness_beam/official_score.py:305-334 | It is minus one if and only if every pair is ordered oppositely, or tied, in both rankings and some pair is not tied. |
| `Kendall.TauIsUnique` | benchmarks/rs_harness_beam/official_score.py:331-334 | The pair counts determine the coefficient. |
| `Kendall.NegationNegatesTau` | benchmarks/rs_harness_beam/official_score.py:305-334 | Negating one ranking negates the coefficient. |
| `Kendall.SymmetryKeepsTau` | benchmarks/rs_harness_beam/official_score.py:305-334 | Exchanging the rankings keeps the coefficient. |
| `Kendall.OrderKeepsTau` | benchmarks/rs_harness_beam/official_score.py:305-334 | Permuting both rankings together keeps the coefficient. |
| `EventOrder.FindMatch` | benchmarks/rs_harness_beam/official_score.py:290-296 | The first unused equivalent reference event is found, or there is none. |
| `EventOrder.Align` | benchmarks/rs_harness_beam/official_score.py:283-302 | Alignment keeps the length and uses every reference index at most once; for a judge that answers by any one relation, each system event takes the first unused reference event that is the same. |
| `EventOrder.EqualityKeepsTheSystem` | benchmarks/rs_harness_beam/official_score.py:283-302 | When equivalent means equal, alignment changes nothing. |
| `EventOrder.ScoresAreInRange` | benchmarks/rs_harness_beam/official_score.py:344-367 | Precision, recall, F1, normalised coefficient and final score lie between zero and one. |
| `EventOrder.PrecisionAndRecallTell` | benchmarks/rs_harness_beam/official_score.py:344-350 | Precision is the common events over these and the system events, repetitions included, outside the reference; recall is the common events over these and the reference events that the system lacks. |
| `EventOrder.F1OfShares` | benchmarks/rs_harness_beam/official_score.py:351 | F1 is twice the common events over twice these and all misses. |
| `EventOrder.FinalTells` | benchmarks/rs_harness_beam/official_score.py:359-366 | The final value is F1 times the coefficient moved from minus one and one to zero and one. |
| `EventOrder.RankTells` | benchmarks/rs_harness_beam/official_score.py:355-357 | An event's rank is its last position, counted from one; an absent event has the rank after all events. |
| `EventOrder.DedupedTells` | benchmarks/rs_harness_beam/official_score.py:352 | The rankings run over each event once, in order of first occurrence, reference first. |
| `EventOrder.RankPointsTell` | benchmarks/rs_harness_beam/official_score.py:352-358 | Each event of the union is ranked in both lists. |
| `EventOrder.SameEventsMatchFully` | benchmarks/rs_harness_beam/official_score.py:344-351 | Two lists of the same events score full precision and recall. |
| `EventOrder.ReferenceOrderScoresOne` | benchmarks/rs_harness_beam/official_score.py:337-367 | Two or more distinct events in the reference order have coefficient one and no other, and score exactly one. |
| `EventOrder.ReversalScoresZero` | benchmarks/rs_harness_beam/official_score.py:337-367 | Their reversal has coefficient minus one and no other, and scores exactly zero, at full F1. |
| `EventOrder.EventOrdering` | benchmarks/rs_harness_beam/official_score.py:337-367 | End to end the parts are the precision, recall and pair counts of the aligned list, and whatever the judge says, the score is in range; with equality as equivalence the reference order scores one and its reversal zero. |
| `Gate.Gate` | benchmarks/p1_ranked/locomo_gate.py:114-164 | Each rejection happens exactly under its condition, and a decision exactly when none holds; bounds and decision are the verdict over the runs' common questions in sorted order, and the decision is the one that the counts of resample means give. |
| `Gate.DecisionIsByCounts` | benchmarks/p1_ranked/locomo_gate.py:144-152 | The decision by counting resample means: passed if and only if at most a twentieth of them do not exceed minus the margin, failed if and only if not so and at least nineteen twentieths, and one, lie below it. |
| `Gate.DifferenceTells` | benchmarks/p1_ranked/locomo_gate.py:128-132 | A question's difference is its mean label over the change runs less that over the main runs. |
| `Gate.MeansAreDrawn` | benchmarks/p1_ranked/locomo_gate.py:135-139 | Each resample mean is that of as many drawn differences as there are questions. |
| `Gate.LowerIsBelowUpper` | benchmarks/p1_ranked/locomo_gate.py:144-145 | The lower bound never exceeds the upper one. |
| `Gate.SortedBelow` | benchmarks/p1_ranked/locomo_gate.py:140-145 | Every order statistic of a pointwise larger list is at least as large. |
| `Gate.GateIsMonotone` | benchmarks/p1_ranked/locomo_gate.py:133-152 | Raising any change-side label never moves the decision down the order fail, inconclusive, pass. |
| `Gate.SortNegated` | benchmarks/p1_ranked/locomo_gate.py:140-143 | Sorting the negated means mirrors the sorted means. |
| `Gate.NegatedBounds` | benchmarks/p1_ranked/locomo_gate.py:144-145 | For balanced resample counts, negating every mean exchanges and negates the bounds. |
| `Gate.BalancedIsDual` | benchmarks/p1_ranked/locomo_gate.py:133-145 | For balanced counts, swapping the two sides negates and exchanges the bounds, whatever the runs and draws. |
| `Gate.UnbalancedIsNotDual` | benchmarks/p1_ranked/locomo_gate.py:144-145 | For every other count there are runs and draws where it does not. |
| `Gate.DualityIsBalance` | benchmarks/p1_ranked/locomo_gate.py:144-145 | So duality holds for all runs and draws if and only if the resamples are one or a multiple of twenty. |
| `Manifest.FirstSlots` | benchmarks/locomo/generate_manifests.py:70-77 | Every category gets one slot and the floor of its quota, and the remainders are what the floors leave. |
| `Manifest.BonusSlots` | benchmarks/locomo/generate_manifests.py:78-82 | Exactly the first categories in order of remainder get one slot more. |
| `Manifest.SharesAddUp` | benchmarks/locomo/generate_manifests.py:73-77 | Floors and remainders add up to the full quota of the spare slots. |
| `Manifest.LeftOverIsSmall` | benchmarks/locomo/generate_manifests.py:78 | The left-over slots are never negative and fewer than the categories with a remainder, unless there are none. |
| `Manifest.BonusMeansRemainder` | benchmarks/locomo/generate_manifests.py:79-82 | Only a category with a positive remainder gets a left-over slot, so no allocation exceeds the ceiling of its quota. |
| `Manifest.WinnersAreLargest` | benchmarks/locomo/generate_manifests.py:79-82 | A category with a larger remainder wins a left-over slot before one with a smaller. |
| `Manifest.WholeGrows` | benchmarks/locomo/generate_manifests.py:74-77 | A larger category has no smaller floor, and a larger remainder when the floors are equal. |
| `Manifest.Apportion` | benchmarks/locomo/generate_manifests.py:67-82 | The allocations sum to twenty; each is one, plus the floor of its quota, plus one exactly for the winners by largest remainder; and a strictly larger category never gets fewer. |
| `ManifestSelection.Collect` | benchmarks/locomo/generate_manifests.py:83-90 | The selected ids are those of the first items of each category, as many as its allocation. |
| `ManifestSelection.Keep` | benchmarks/locomo/generate_manifests.py:91-93 | The output keeps the selected questions in their order. |
| `ManifestSelection.PicksFillSlots` | benchmarks/locomo/generate_manifests.py:83-93 | As many questions are selected as slots can be filled. |
| `ManifestSelection.PicksInOrder` | benchmarks/locomo/generate_manifests.py:91-93 | The selection is a subsequence of the questions. |
| `ManifestSelection.PicksAreFirst` | benchmarks/locomo/generate_manifests.py:83-90 | Of each category exactly the first items are selected. |
| `ManifestSelection.HalfQuota` | benchmarks/locomo/generate_manifests.py:73-82 | A category of two or more, in a total of at least twice the spare slots, has enough questions for its allocation. |
| `ManifestSelection.TwentyIffEnough` | benchmarks/locomo/generate_manifests.py:65-93 | Never more than twenty are selected, and exactly twenty if and only if every category has as many questions as its share by largest remainder of the category counts. |
| `ManifestSelection.FewerThanTwenty` | benchmarks/locomo/generate_manifests.py:65-93 | Of twenty questions, one in the first category and nineteen in the second, fewer than twenty are selected. |
| `ManifestSelection.TwentyArePicked` | benchmarks/locomo/generate_manifests.py:65-93 | With two or more in every category and a total of at least twice the spare slots, exactly twenty are selected. |
| `ManifestSelection.DevelopmentSample` | benchmarks/locomo/generate_manifests.py:65-93 | The loops select the first items of each category, as many as its share by largest remainder, in manifest order; no questions give none. |
| `TreeDigest.Feed` | benchmarks/workspacebench/hashing.py:176-183 | The bytes fed to the hasher are the specified stream of the entries. |
| `TreeDigest.RoundTrip` | benchmarks/workspacebench/hashing.py:177-183 | When paths hold no NUL and payloads no newline, a decoder recovers the entry list from the stream. |
| `TreeDigest.MirrorInjective` | benchmarks/workspacebench/hashing.py:177-183 | When paths hold no newline and payloads no NUL, equal streams mean equal entry lists. |
| `TreeCollision.UnambiguousIsDetermined` | benchmarks/workspacebench/hashing.py:177-183 | A listing in which no link before the last record has a newline in its target and no path behind a link holds one shares its stream with no other listing that the hasher may be fed. |
| `TreeCollision.CollidesIff` | benchmarks/workspacebench/hashing.py:177-183 | Some other listing that the hasher may be fed has the same stream if and only if some record before the last is a link and its target, or the path after it, holds a newline. |
| `TreeCollision.UnambiguousTree` | benchmarks/workspacebench/hashing.py:165-184 | Two trees, the first of them without such a record in canonical order, feed the same stream if and only if they hold the same entries. |
| `TreeCollision.TreesCollide` | benchmarks/workspacebench/hashing.py:165-184 | Two well-named trees without an escaping link hold different links and feed one stream. |
| `TreeDigest.SameStreamSameTree` | benchmarks/workspacebench/hashing.py:165-184 | Two plain trees feed the same stream if and only if they hold the same files and links. |
| `TreeDigest.OrderDoesNotMatter` | benchmarks/workspacebench/hashing.py:257 | The stream does not depend on the order in which entries were found. |
| `TreeDigest.SameTreeListing` | benchmarks/workspacebench/hashing.py:234-256 | Enumerating any number of directories, at any depth, in other orders keeps the entries found and whether a link escapes. |
| `TreeDigest.PermutedIsSameTree` | benchmarks/workspacebench/hashing.py:234-256 | A directory listed in any other order is the same tree. |
| `TreeDigest.ListingIsDistinct` | benchmarks/workspacebench/hashing.py:234-256 | A tree without repeated names lists every path once. |
| `TreeDigest.EnumerationDoesNotMatter` | benchmarks/workspacebench/hashing.py:165-184 | The stream does not depend on the orders in which the directories of a tree, all of them and at any depth, enumerate their entries. |
| `TreeDigest.WalkDirectory` | benchmarks/workspacebench/hashing.py:234-256 | Visiting one directory records its files and links, keeps its real directories for later, and fails only on an escaping link. |
| `TreeDigest.ListingIs` | benchmarks/workspacebench/hashing.py:232-258 | A listing holds the entries of the files and links below, each with its path, its kind, and its hash or target, and no others. |
| `TreeDigest.EscapesIs` | benchmarks/workspacebench/hashing.py:232-258 | The walk meets an escape if and only if some link, at any depth below, leaves the root. |
| `TreeDigest.TreeEntries` | benchmarks/workspacebench/hashing.py:232-258 | The walk fails exactly when some link escapes, and otherwise returns the entries of all files and links below, sorted by path. |
| `PathTopology.OverlapIsSharing` | benchmarks/workspacebench/hashing.py:110-111 | Two roots overlap if and only if some path lies below both. |
| `PathTopology.CheckSources` | benchmarks/workspacebench/hashing.py:61-73 | Sources pass if and only if every overlap among them is the one allowed nesting. |
| `PathTopology.CheckOutputs` | benchmarks/workspacebench/hashing.py:74-88 | Outputs pass if and only if they overlap no source and no other output. |
| `PathTopology.RequireTopology` | benchmarks/workspacebench/hashing.py:36-88 | Roots are accepted if and only if all are absolute and known and no path is shared except by the allowed nesting. |
| `TokenF1.CountCommon` | benchmarks/locomo/protocol.py:681-682 | Crossing tokens off counts the multiset intersection. |
| `TokenF1.F1IsDice` | benchmarks/locomo/protocol.py:677-687 | F1 is twice the common tokens over all tokens of both sides. |
| `TokenF1.F1IsSymmetric` | benchmarks/locomo/protocol.py:677-687 | F1 is symmetric. |
| `TokenF1.F1InRange` | benchmarks/locomo/protocol.py:677-687 | F1 lies between zero and one, and is one if and only if the token multisets are equal and not empty. |
| `TokenF1.BestIsMaximum` | benchmarks/locomo/protocol.py:636 | The best match of a gold part is attained by one predicted part and exceeded by none. |
| `TokenF1.MorePartsNeverHurt` | benchmarks/locomo/protocol.py:632-638 | Adding predicted parts never lowers a category-1 score. |
| `TokenF1.PartOrderDoesNotMatter` | benchmarks/locomo/protocol.py:632-638 | The order of predicted and gold parts does not matter. |
| `TokenF1.OfficialF1InRange` | benchmarks/locomo/protocol.py:623-639 | Every answer score lies between zero and one, in every category. |
| `TokenF1.PlainScoreTells` | benchmarks/locomo/protocol.py:629-639 | In categories 2 and 4 the score is twice the common tokens over all tokens, in 3 against the gold's part before its first semicolon. |
| `TokenF1.PartsScoreTells` | benchmarks/locomo/protocol.py:632-638 | In category 1 it is the mean over the gold parts of their best match among the predicted parts. |
| `TokenF1.BestSumAdds` | benchmarks/locomo/protocol.py:632-638 | The best matches are summed over the gold parts. |
| `TokenF1.NoAnswerScoresZero` | benchmarks/locomo/protocol.py:627-628 | No prediction, or an empty one, scores zero. |
| `Tracing.Call.End` | benchmarks/locomo/tracing.py:284-294 | An observation's end is asked for exactly once, however often it is ended; of what the client raises only an interrupt escapes. |
| `Tracing.Call.Finish` | benchmarks/locomo/tracing.py:305-318 | Finishing asks for the end even if the update raises; what escapes is the last interrupt of both calls. |
| `Tracing.QuestionTrace.StartCall` | benchmarks/locomo/tracing.py:178-198 | A started observation is retained for the cleanup; one that failed to start leaves no trace. |
| `Tracing.QuestionTrace.EndStarted` | benchmarks/locomo/tracing.py:200-208 | Every retained observation ends up ended, unless an interrupt escapes. |
| `Tracing.QuestionTrace.Run` | benchmarks/locomo/tracing.py:135-242 | Whatever the body starts, finishes and ends, in any order, keeps each end count at most one, and the body ends by itself unless an interrupt of the client ends it. |
| `Tracing.OvertakenEndsAs` | benchmarks/locomo/tracing.py:86-125 | What ends as its body does, unless an interrupt took its place, ends so exactly when no call was interrupted, and otherwise in the exception of the last interrupted call. |
| `Tracing.Question` | benchmarks/locomo/tracing.py:86-125 | The question ends as its body does, unless the client interrupts, and then with the last interrupt: through start failures, the handlers, the order of the cleanup and the ignored result of leaving the root. Without one, every observation is ended exactly once; the root is entered exactly if the client opens it, and left as often as entered. |
| `Tracing.OrdinaryClientIsInvisible` | benchmarks/locomo/tracing.py:86-125 | A client that raises ordinary exceptions only, at any of its calls, cannot change how a question ends. |

## Left out

- Kendall.TauInRange: the square root in the denominator is not computed; `IsTau` says which real is the coefficient, by its sign and its square, and `TauIsUnique` that there is only one.
- EventOrder.EventOrdering: returns precision, recall and the pair counts; the score is stated for the coefficient those counts determine.
- Descriptors.ReadPinned: assumes that closing a descriptor succeeds, so the branches that swallow a failing close are not modelled; a descriptor stands for one opening, so reuse of small numbers is not modelled either.
- TreeCollision.CollidesIff: ranges over listings as the hasher is fed them, in any order and with repeated paths; which of them are the sorted listing of a tree is not asked.
- Summary.SummarizeRuns: the plan as a whole stands for the six hash and name fields that the merge compares.
- IngestStage.RequireExactLive: the live documents are a set of rows; order and duplicates of the query's result are not modelled.
- ManifestSelection.DevelopmentSample: assumes at most twenty categories, as the program has four; quotas are exact rationals instead of floats.
- TokenF1.OfficialF1InRange: starts from token lists; normalisation, stemming and splitting are inputs.
- TreeDigest.TreeEntries: files and directories of one directory are visited in one pass instead of two sorted ones, as the final sort by path decides the order.
- Tracing.Question: the metadata written to observations is not modelled, nor is the flush at the end of a stage.
- Category-5 questions, session diagnostics, retrieved sessions, latencies, prompts, guard-feedback text, failure messages and the saved summary file of a run.
- Rounding of floats and decimals, and thresholds that are not finite.
- Hashes, identifiers and fingerprints are opaque values; the random generator is an arbitrary fixed table.
- Real file systems: races, links and inode checks, locks, temporary files, and the check that a new grading directory is empty; an atomic write is one step of a single writer.
- Parsing and validation of JSON, protocol pins, readiness reports, tool catalogs, git revisions and the command lines: their verdicts enter as booleans or typed replies.
- Implementations of the providers, the HTTP client, the database and the deployment.
- `mean_nugget_score`, `_without_empty_containers` and `render_session`, which would only add easy members.
