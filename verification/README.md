# A verified model of onejudge's conversation engine

onejudge drives a worker through a conversation, has a supervisor (one judge or a panel of
them) decide after each reply whether the work is done, and lets notes be sent into the run
while it is live. This project models that engine in Dafny and proves what it promises.

It has two views of the same loop.

- **A small-step machine** of senders, the watch thread beside a live turn and the engine
  thread (`NoteDelivery` and the modules that follow it). A note is named by its position
  among the notes sent, and every theorem is about every reachable state of every
  interleaving.
- **The imperative loop** (`Engine`, with the class of each object it updates: `Transcript`,
  `NoopStreak`, `Sink`, `Watch`). Providers, inbox and observer are any functions of how often,
  or with what, they were asked, so that every run of a stateful one is a run of some function.
  Ghost fields record what was appended, asked and taken, and `Sound` ties every real field to
  that account.

Around it stand the other cores: a panel's combination of decisions and verdicts (`Panel`),
its thread protocol (`PanelHistory`), the re-ask policy (`Reask`), the streamed provider
reader (`Streams`), the criterion scanners (`CriterionRules`), runs replacing one another
under a watched session (`Follow`, and the code as it is in `Publishing`), the release
declaration's schema (`ReleaseTargets`) and the telemetry fold (`Telemetries`).

`dafny verify dfyconfig.toml` checks the whole project.

## Where the code falls short of what it says

Each item names a witness, an input or a run on which the property fails, and the exact
condition under which it holds, as an equivalence over all inputs or all runs.

- **Cuts.** `push_redirected` clamps a cumulative count against the events still left
  (crates/onejudge/src/engine.rs:520), though events were already drained from them. Two
  redirects can make the clamp panic, or cut short: `Redirects.TwoRedirectsMayFail`. It is
  legal exactly under `Redirects.ClampLegal`, and cuts where it was meant to exactly under
  `Redirects.CutsAsIntended`; with at most one redirect always.
- **A stopped decision.** A history observation that stops the run during supervision returns
  (crates/onejudge/src/engine.rs:1174-1176) before redirects are recorded, so a note the judge
  was shown is neither recorded nor answered: `NoteTheorems.HistoryStopDropsARedirect`. Every
  shown note is recorded and answered exactly on the runs that do not end so:
  `NoteTheorems.HandedMeansAnswered`.
- **The turn cap.** The loop is said to be bounded by the cap (crates/onejudge/src/engine.rs:3-4),
  and an instruction for a lost turn to count toward it (docs/protocol.md:171-172), but the cap
  counts replies only (crates/onejudge/src/engine.rs:1005-1008, 1063). Where nobody takes lost
  turns, or there is nobody to ask, no run makes more worker calls than the cap:
  `Engine.Converse`. Otherwise there is one past every bound, whatever the cap:
  `Engine.LostTurnsUnbounded`. In every run the calls past the cap are at most the lost ones.
- **The end of a turn.** A watch is said to take nothing after `end`
  (crates/onejudge/src/interrupt.rs:135), but looks at `ended` only before it waits
  (crates/onejudge/src/interrupt.rs:184-189), so that a claim may land after it:
  `NoteTheorems.LateClaim`. There is never a second, and there is one exactly when the turn ended
  during a look at the inbox that found a note to take, not while a note was presented or the
  socket awaited: `Watches.Watch.Run`.
- **What a decision cost.** A decision asked for again is said to carry the cost of every attempt
  (crates/onejudge/src/provider.rs:970-972). The default `supervise` drops the usage of a verdict
  that did not complete (crates/onejudge/src/provider.rs:689-708), and a failure carries none of
  what came before it: `Reask.LegacyUndercounts`, `Reask.FailureLosesAll`. A decision that came
  back carries all it cost exactly when each dropped verdict reports each signal not at all, or as
  a zero on one that some attempt does report; one that failed, exactly when no attempt reported
  anything: `Reask.LegacyReportsAll`.
- **Code spans.** The invocation rule is introduced as looking inside code spans
  (crates/onejudge/src/note.rs:1084-1086). Read as its second sentence puts it, a backtick and
  then text without one, it holds of every text: `CriterionRules.InvokesIsOwnRule`. Read as its
  first does, it does not, since a closing backtick counts like an opening one:
  `CriterionRules.BetweenSpans`. It refuses what that reading would exactly on the texts with a
  binary spelled inside a span, or with none past a backtick: `CriterionRules.SpanRule`.
- **A removed log.** A replaced run's log is removed while its publisher may still append. If the
  transport then makes the log anew, a follower can hand on a record without the one before it:
  `Follow.GapAfterRemoval`. What is handed on has a gap exactly when some record of it was
  published after a removal that dropped earlier ones: `Follow.HandsOnOneRun`.

## Model

| member | source | states |
|---|---|---|
| NoteTheorems.EachNoteInOnePlace | crates/onejudge/src/engine.rs:430-472 | in every interleaving each note sent is in exactly one place, is recorded at most once, and its sender hears at most one of an answer, a refusal and a withdrawal |
| NoteTheorems.NothingLeftInDoubt | crates/onejudge/src/engine.rs:748-775 | once the channel is closed every note was answered, refused, withdrawn or dropped, exactly one of them; what was answered is what was recorded, and what was shown is that plus what was dropped |
| NoteTheorems.HandedMeansAnswered | crates/onejudge/src/engine.rs:1122-1265 | every note a party was shown is recorded and answered, if and only if the run was not stopped by a history observation of a turn that notes had redirected |
| NoteTheorems.HistoryStopDropsARedirect | crates/onejudge/src/engine.rs:1174-1184 | a reachable run in which such a stop leaves a shown note unrecorded and unanswered |
| NoteTheorems.DecisionHasEveryNote | crates/onejudge/src/engine.rs:1122-1256 | a decision leaves its loop only with the inbox empty and every note on record either in its query's snapshot or framed into the turn that took it, so that snapshot's and framing's criteria are every criterion in force |
| NoteTheorems.SettlesExactlyItsBlock | crates/onejudge/src/engine.rs:433-472 | a settled decision, one the engine took, answers exactly the notes recorded since its block opened, in order: with its reason when it completed, and otherwise by how each reached the judge, as redirecting its turn or at its turn's end |
| NoteAnswers.AnsweredAsDelivered | crates/onejudge/src/engine.rs:433-472 | over every run's actions: a sender not told of a completion is told it interrupted a party exactly when a watch of that party's turn confirmed its note, and otherwise which drain took it: queued at the loop's top, at the worker's turn's end after a reply, at the supervisor's after a decision; one told of a completion had reached the judge |
| NoteAnswers.RecordedAsDelivered | crates/onejudge/src/engine.rs:627-686 | over every run's actions: a note is on record as the supervisor's exactly when a watch of its turn confirmed it or the drain after a decision took it, and as the worker's otherwise |
| NoteAnswers.RunJudged | crates/onejudge/src/engine.rs:1258-1265 | no sender hears of a completion, or of a reason for it, that no decision of the run gave |
| NoteTheorems.JudgedOnlyOnCompletion | crates/onejudge/src/engine.rs:1258-1265 | no sender is told its note was judged before a decision has completed the conversation |
| NoteTheorems.WatchPresentsWhatItConfirms | crates/onejudge/src/interrupt.rs:169-229 | whatever else runs, a watch has presented exactly its confirmed redirects in order, measured monotonically, took only interrupt notes to its party, none twice, and at most one after its turn ended |
| NoteTheorems.MeasuredWhenConfirmed | crates/onejudge/src/interrupt.rs:208-226 | over every run's actions: a watch has observed exactly what was seen of its turn since it opened, and each redirect was measured with all of that by the step that confirmed it |
| NoteTheorems.LateClaim | crates/onejudge/src/interrupt.rs:184-189 | a reachable run in which a watch claims a note after its turn has ended |
| NoteTheorems.ReleasedStaysOut | crates/onejudge/src/interrupt.rs:183-208 | a note handed back is in no framing of that turn, no equal note is presented after it, and it stays unclaimable |
| NoteBalance.RunBalances | crates/onejudge/src/engine.rs:615-686 | the balance equations of places, records and answers hold in every reachable state |
| NoteDecisions.RunDecides | crates/onejudge/src/engine.rs:1122-1256 | what a decision block holds, has shown and has answered, in every reachable state |
| NoteWatch.RunWatched | crates/onejudge/src/interrupt.rs:169-229 | the watch's own invariant, in every reachable state |
| Notes.ComposeConcat | crates/onejudge/src/note.rs:577-585 | composing criteria is a homomorphism: a criterion enters when its note is delivered, and no later delivery removes or reorders it |
| Notes.ComposeBinds | crates/onejudge/src/note.rs:577-585 | every delivered note that brings a criterion binds it, once and in order, and nothing else does |
| Notes.BlockHolds | crates/onejudge/src/note.rs:724-775 | what the worker is handed of some notes holds the text of every one: its own in order, each with the criterion it brings, and then the supervisor's in order |
| LiveTurn.InterruptsIs | crates/onejudge/src/interrupt.rs:159-165 | a note may redirect a party's turn exactly when it asks to interrupt and is for that party or for both |
| Watches.Watch.Run | crates/onejudge/src/interrupt.rs:169-229 | the loop returns, under any interleaving of the engine's thread, redirects each framed from exactly what was confirmed so far, of a note its look found, and measured with all that the turn had shown up to and with the slice it was presented in: as many tool uses, and the non-blank texts in order; nothing equal to a released note is confirmed or released after it; every slice from the socket's first listening is a look, or the presentation of what a look found, and a look that finds nothing passed by no note it could take; a worker's senders are answered in order; one claim is late exactly when the slice that ended the turn was a look that found a note, and otherwise none is |
| Watches.Watch.Present | crates/onejudge/src/interrupt.rs:190-226 | one claimed note is confirmed, framed last and measured with what is observed then, or released and left out of every later framing |
| Watches.Watch.Take | crates/onejudge/src/interrupt.rs:185-189 | the first queued interrupt note to this party that was not passed over, or none is queued |
| Watches.Watch.Observe | crates/onejudge/src/interrupt.rs:122-133 | what is measured only grows, and blank text is not measured |
| Watches.FoldedCounts | crates/onejudge/src/interrupt.rs:122-133 | what is measured of some events is as many tool uses as there are among them, and each of their texts that says something, once and in order |
| Watches.Confirms | crates/onejudge/src/interrupt.rs:190-226 | appending one confirmed redirect keeps framing, measure and passing-over |
| Redirects.PushRedirected | crates/onejudge/src/engine.rs:511-534 | the draining loop panics exactly when its cuts do, and otherwise extends the transcript by the turns the cuts divide the call into |
| Redirects.AppendedIsCut | crates/onejudge/src/engine.rs:511-534 | what is appended is the turns of those cuts |
| Redirects.TurnsShape | crates/onejudge/src/engine.rs:499-534 | 2r+1 alternating messages: an assistant message a turn, each redirect's own text between the turn it ended and the one it opened, the reply last |
| Redirects.TurnsKeepEvents | crates/onejudge/src/engine.rs:501-509 | no event is lost, repeated or moved, and r+1 assistant turns are counted |
| Redirects.EachTextSaidOnce | crates/onejudge/src/engine.rs:519-531 | every text observed by the last redirect is in exactly one interrupted turn, that of the first redirect measured with it, in order |
| Redirects.ClampLegal | crates/onejudge/src/engine.rs:520 | when the clamp is legal, exactly: no redirect, or all but the last measured within the first half of the events, or their largest count once at exactly half |
| Redirects.CutsAsIntended | crates/onejudge/src/engine.rs:517-531 | when the cut is the one meant, exactly: the last count and the largest before it, each cut short at the total, fit in the total together |
| Redirects.IntendedCut | crates/onejudge/src/engine.rs:501-509 | clamping to the total cuts at each recorded cumulative count, short only at the total |
| Redirects.OneRedirectIsExact | crates/onejudge/src/engine.rs:511-534 | at most one redirect is always appended, and cut where it was measured |
| Redirects.TwoRedirectsMayFail | crates/onejudge/src/engine.rs:518-523 | two redirects that make the clamp panic, and two that make it cut short |
| Transcripts.Transcript.Push | crates/onejudge/src/transcript.rs:145-147 | the transcript is append-only |
| Transcripts.Transcript.Turns | crates/onejudge/src/transcript.rs:151-156 | the count of assistant messages |
| Transcripts.AlternatesConcat | crates/onejudge/src/engine.rs:1053-1055 | turns that open with the assistant, after a user message, leave no assistant message answering another |
| Noop.StreakGrows | crates/onejudge/src/engine.rs:86-99 | the incremental count stays the length of the longest suffix of quiet exchanges that give the last answer |
| Noop.StreakUnique | crates/onejudge/src/engine.rs:76-81 | there is only one such length |
| Noop.StreakSettles | crates/onejudge/src/engine.rs:99-101 | reaching the limit is the last two exchanges being quiet and giving the same answer |
| Noop.RepeatsSameWords | crates/onejudge/src/engine.rs:86-131 | two exchanges count as a repeat exactly when neither did anything, all messages are short and both replies say the same words in the same order, whatever their case and punctuation |
| Noop.NoopStreak.Observe | crates/onejudge/src/engine.rs:86-101 | the streak's field is that length of the whole history, and it reports a repeat exactly when the history ends in one |
| Histories.TranscriptShape | crates/onejudge/src/engine.rs:809-834 | a transcript that fits its history opens with the input, alternates, and ends in a user message exactly when the worker is to be called |
| Histories.RenderedRecounts | crates/onejudge/src/engine.rs:1300-1314 | entry by entry the transcript is one user message that holds the notes handed, the turns of a reply, or one user message that ends with the supervisor's own words and holds before them every note relayed, and nothing when there is none |
| Histories.AnswerShape | crates/onejudge/src/engine.rs:1053-1055 | a reply enters the history as one assistant message and one for each redirect, with exactly its events |
| Histories.RepliesCount | crates/onejudge/src/engine.rs:1064-1068 | assistant messages are at least the replies, and none without one |
| Histories.RepliedOrLost | crates/onejudge/src/engine.rs:913-923 | every worker call is one that replied or one that was lost |
| Histories.CallsJoined | crates/onejudge/src/engine.rs:913-1016 | a call that replied joins the history in call order; one that was lost does not |
| Histories.ExchangeJoins | crates/onejudge/src/engine.rs:1023-1028 | exchange by exchange, the streak is shown what each successful call was asked and gave |
| Histories.JudgingFits | crates/onejudge/src/engine.rs:1413-1426 | judged turns have strictly increasing numbers and flatten to every decision drained, in order, across re-taken decisions |
| Histories.NotesTaken | crates/onejudge/src/engine.rs:627-643 | notes taken and handed on keep the record an interleaving of the inbox's notes and the watches', nothing missing |
| Histories.NotesInterrupt | crates/onejudge/src/engine.rs:906-912 | so do notes confirmed into a worker's turn, whether it replied or was lost, and they are the worker's share of what was confirmed |
| Histories.NotesHeard | crates/onejudge/src/engine.rs:1179-1184 | so do notes confirmed into a judge's turn that was heard out: the supervisor's share of what was confirmed is each such call's redirects, in call order, and nothing for one about a lost turn |
| Histories.WorkerSpends | crates/onejudge/src/engine.rs:1017-1019 | a worker reply adds its usage to the account of both parties' calls, a lost call adds none |
| Histories.JudgeSpends | crates/onejudge/src/engine.rs:970-972 | so does a decision, and one that failed adds none |
| Usages.TotalConcat | crates/onejudge/src/usage.rs:48-65 | a total does not depend on how calls are grouped or whose came first |
| Usages.TotalEmpty | crates/onejudge/src/usage.rs:36-46 | a total reports nothing exactly when no call did |
| Observations.Sink.Observe | crates/onejudge/src/engine.rs:729-741 | an observation is admitted only within the grammar and after no break |
| Engine.Converse | crates/onejudge/src/engine.rs:748-775 | a whole conversation, over any world with finitely many lost turns and notes: it ends; its transcript is what its history says, every instruction in it verbatim after the notes beside it; replies and assistant messages are bounded by the cap, the simulated user's own where it gives one, and so are worker calls where a lost turn ends the run, and elsewhere by the cap and the lost ones; every note is on record and no other: what each look at the inbox found, and the redirects of every worker call and of every judge call about a reply that was heard out; every call opened on the instruction it is measured on, with no supervisor's note owed; the trace keeps the grammar and Break is final, however the run ends; judged turns are the drained decisions |
| Engine.LostTurnsUnbounded | crates/onejudge/src/engine.rs:1005-1008 | wherever there is somebody to ask and lost turns are taken, some run makes more worker calls than any number named beforehand, whatever the cap |
| Engine.Engine.FinishedRun | crates/onejudge/src/engine.rs:777-1345 | what an ending that is not a panic means for the run's own data |
| Engine.Engine.FinishedCalls | crates/onejudge/src/engine.rs:914-1013 | what any ending means for its calls: how many there were, why none follows the last, and that the trace kept the grammar |
| Engine.Engine.StandingBounded | crates/onejudge/src/engine.rs:1064-1096 | a run still standing bought no reply past the cap, however many notes arrived |
| Engine.Engine.Drive | crates/onejudge/src/engine.rs:818-1345 | the loop ends by a lexicographic measure of turns under the cap and lost turns left, and `Finished` holds of its ending |
| Engine.Engine.Turn | crates/onejudge/src/engine.rs:818-1345 | one round ends the run, or leaves it at the top with more assistant turns under the cap, or with one lost call more |
| Engine.Engine.Work | crates/onejudge/src/engine.rs:844-1016 | an opened worker turn ends the run, replies with more assistant turns still under the cap, or is lost and resumed; and a lost one is resumed exactly when the judge side was asked and had an instruction, and the observer has not broken |
| Engine.Engine.NewAtTop | crates/onejudge/src/engine.rs:804-817 | a new engine stands at the top of its loop |
| Engine.Engine.OpenWorker | crates/onejudge/src/engine.rs:819-843 | the worker's turn opens on a transcript ending in the instruction, numbered past every assistant turn |
| Engine.Engine.CallWorker | crates/onejudge/src/engine.rs:836-912 | the call is shown everything, its redirects are recorded to the worker whatever became of it, and the observer sees its events up to its first break |
| Engine.Engine.ObserveWorker | crates/onejudge/src/engine.rs:868-900 | the observer sees each event whole once and in order, a tool right before the action that used it and nothing besides, up to and not past its break |
| Engine.Engine.KeepReply | crates/onejudge/src/engine.rs:1011-1055 | a reply's usage, exchange, observations and messages, each joined to what came before |
| Engine.Engine.RecordReply | crates/onejudge/src/engine.rs:1014-1057 | with that reply on record the run is sound and within the cap, or it has panicked where the reply's events cannot be cut |
| Engine.Engine.Recover | crates/onejudge/src/engine.rs:914-1013 | the judge side is asked only when it takes lost turns, the error has a kind and the observer has not stopped the run; the loop goes round exactly when it was asked and had an instruction; unasked or unanswered, the worker's own error stands, and every judge decision is on record either way |
| Engine.Engine.ConsultOnLost | crates/onejudge/src/engine.rs:914-973 | a decision about a lost turn is taken with every note on record and none confirmed into it; with no decision, no worker call follows |
| Engine.Engine.Resume | crates/onejudge/src/engine.rs:973-1013 | what it said then ends the run as completed, goes round with its instruction as one user message, verbatim, and no reply counted, or leaves the worker's own error; nothing is appended by an ending |
| Engine.Engine.LostCall | crates/onejudge/src/engine.rs:913-916 | a call that did not reply adds nothing to what the run holds |
| Engine.Engine.HandOver | crates/onejudge/src/engine.rs:820-824 | notes handed to the worker are recorded in order and become one user message that holds them all |
| Engine.Engine.Owe | crates/onejudge/src/engine.rs:1179-1184 | notes that reached the judge, from the inbox or from the watch of the very call that was heard, are recorded in order and owed to the worker |
| Engine.Engine.Hear | crates/onejudge/src/engine.rs:1179-1238 | a judge call that was heard out has its redirects recorded, its decisions drained and both shown, whether it failed or not |
| Engine.Engine.Follow | crates/onejudge/src/engine.rs:1057-1096 | what a reply leads to, in order: it ends the run at the cap or on done before the no-op rule is asked, and settles on that before the inbox is; notes found there go to the worker with the supervisor unasked; and only an empty inbox has the supervisor asked |
| Engine.Engine.Relay | crates/onejudge/src/engine.rs:1080-1113 | notes found in the inbox open the next turn with the supervisor unasked, and only an empty inbox has it asked |
| Engine.Engine.Query | crates/onejudge/src/engine.rs:1125-1256 | one round of the decision: ruled only with the record exactly its query's snapshot and the redirects of that very call, and the inbox found empty after; failed only with every decision on record; stopped by the judge's own history exactly when it was not heard out; else broken or re-taken |
| Engine.Engine.Decide | crates/onejudge/src/engine.rs:1122-1256 | the re-take loop ends, and no ruling leaves it without every note in hand |
| Engine.Engine.ObserveJudges | crates/onejudge/src/engine.rs:1190-1238 | the observer sees bare judges' events, then each panel judge's right before its decision, up to its break |
| Engine.Engine.Act | crates/onejudge/src/engine.rs:1266-1342 | which ending or instruction each ruling becomes: an instruction is one user message that ends with the supervisor's words verbatim, is all of them when no note is owed, and otherwise holds every note owed before them; never with a completion |
| Engine.Engine.RecordJudgeDecisions | crates/onejudge/src/engine.rs:1413-1426 | drained decisions join their turn's entry or open the next one |
| Panel.JudgePanel.CombineSupervision | crates/onejudge/src/panel.rs:331-441 | one decision is recorded a judge even when the call fails; the answer is the greatest of the judges' kinds; its reason is every judge's own under its name, an instruction the header and words of every judge that did not complete and of no other, in list order, an unparsed answer those of the judges whose answers did not parse; a failure is named after the first judge that failed, is of its kind and says of every judge how it failed or what it decided; a panel of one is its judge |
| Panel.JudgePanel.SuperviseAndDrain | crates/onejudge/src/panel.rs:716-718 | what is drained after a call, whichever way it ended, is one decision a judge after whatever was not drained before, and nothing is left |
| Panel.JudgePanel.Outcome | crates/onejudge/src/panel.rs:386-441 | the chain of tests returns the greatest kind, with what that kind carries |
| Panel.JudgePanel.Record | crates/onejudge/src/panel.rs:335-365 | every judge's decision, in list order, with its own reason and tool uses, and the sum of what they reported |
| Panel.BlocksSay | crates/onejudge/src/panel.rs:398-411 | the instruction is one block for each judge that did not complete, in list order and no other, each its header and then its own message or what was wanting |
| Panel.UnparsedGiven | crates/onejudge/src/panel.rs:424-439 | the problem and the answer are those of every judge whose answer did not parse, each under its name, in list order, and of no other |
| Panel.GreatestUnique | crates/onejudge/src/panel.rs:391-421 | the combined kind depends on neither order nor repetition of the answers |
| Panel.DoneMeansAllDone | crates/onejudge/src/panel.rs:391-396 | completed exactly when every judge completed, an error exactly when one failed |
| Picking.PresentPicks | crates/onejudge/src/panel.rs:398-411 | filtering a list of optional parts keeps one item for each there is, in list order, and none for the rest |
| Picking.PicksUnique | crates/onejudge/src/panel.rs:398-411 | nothing else does |
| Panel.FailureFinds | crates/onejudge/src/panel.rs:292-323 | a failure is reported exactly when some judge failed |
| Panel.FirstFailedIs | crates/onejudge/src/panel.rs:298-301 | it is named after the first judge that failed |
| Panel.FailureNames | crates/onejudge/src/panel.rs:292-323 | and is of that judge's kind; a panel of one passes its judge's error on |
| Panel.FoldVerdicts | crates/onejudge/src/panel.rs:471-509 | the conjunction of booleans, the minimum of scores, or the first judge whose verdict is of the wrong type |
| Panel.JudgeAcross | crates/onejudge/src/panel.rs:447-510 | only judges that can answer are asked; then a failure that says of every judge its verdict's value and reason or how it failed, one judge's own verdict, or the fold |
| Panel.NobodyAsked | crates/onejudge/src/panel.rs:452-461 | nobody is asked exactly when the query is for a score and no judge gives one |
| PanelHistory.NeverStuck | crates/onejudge/src/panel.rs:806-862 | no interleaving of the judges' threads and the caller's deadlocks |
| PanelHistory.RunEnds | crates/onejudge/src/panel.rs:806-862 | every step of every thread uses up a bound fixed by what the judges may ask |
| PanelHistory.RunAnswers | crates/onejudge/src/panel.rs:839-849 | when the answers are back they are the judges' own in list order, however they finished; each request had one reply, the observer saw a prefix of arrivals ending at its first break, and every request from that one on was told to break |
| PanelHistory.RunFinishes | crates/onejudge/src/panel.rs:815-838 | a judge's answer is the one it finished with, and it finishes once |
| PanelHistory.NextKeeps | crates/onejudge/src/panel.rs:818-849 | every step keeps each unanswered request paired with the one judge that waits on it, and replies in arrival order |
| Reask.SuperviseWithReask | crates/onejudge/src/provider.rs:982-1016 | the first failure is fatal, the first usable answer is the decision, the last of three unusable ones is returned as it stands, each ask names what was unusable before it, and every attempt is paid for |
| Reask.ComesToOne | crates/onejudge/src/provider.rs:982-1016 | and there is one such way of asking, with one answer |
| Reask.ChainedUnique | crates/onejudge/src/provider.rs:295-300 | one supervisor is asked the same things in the same order |
| Reask.ParsedSpeaks | crates/onejudge/src/provider.rs:925-962 | an answer is a completion exactly when it says so with a reason and no message, and carries the trimmed reason; an instruction exactly when it says not and has a message, and carries it verbatim; lacks one exactly when that is missing or blank; and is unparsed otherwise, carrying the text |
| Reask.LegacyMeans | crates/onejudge/src/provider.rs:677-710 | the default supervision completes exactly when the verdict holds, instructs exactly when the simulated user then says something, in its words, and fails as the call that failed |
| Reask.LegacyAccount | crates/onejudge/src/provider.rs:670-710 | a default decision that came back carries what it spent less the verdicts that did not complete, and one that failed carries nothing |
| Reask.SpentIs | crates/onejudge/src/provider.rs:670-710 | what the attempts spend is what they report and what they drop, whatever the order of adding |
| Reask.AttemptsReport | crates/onejudge/src/provider.rs:980-1016 | what the re-ask loop accumulates is the sum of what each attempt reports |
| Reask.LegacyReportsAll | crates/onejudge/src/provider.rs:670-710 | a default decision carries all it spent exactly when, attempt by attempt: it came back, and every dropped verdict reports each signal not at all or as a zero on one that some attempt reports; or it failed, and no attempt reported anything |
| Reask.SignalKept | crates/onejudge/src/provider.rs:670-710 | signal by signal, the sum reported is the sum spent exactly when nothing dropped shows at any attempt |
| Reask.LegacyUndercounts | crates/onejudge/src/provider.rs:680-708 | ten tokens spent on a verdict that did not complete, and a decision that carries none |
| Reask.FailureLosesAll | crates/onejudge/src/provider.rs:994-998 | ten tokens spent and reported by an attempt, and a failure after it that carries none |
| Streams.ReadStream | crates/onejudge/src/stream.rs:75-120 | the outcome, the events delivered and the tool events collected are those of the one way the stream ends |
| Streams.EndsUnique | crates/onejudge/src/stream.rs:11-20 | a stream ends in one way and at one place only, so there is a report exactly when the whole of it is in the grammar and the observer broke on no event |
| Streams.ReadEof | crates/onejudge/src/stream.rs:130-150 | nothing but blank lines may follow the report, and the first thing that does is the error |
| CriterionRules.RefusalOf | crates/onejudge/src/note.rs:889-949 | a text is accepted exactly when it has none of the refused shapes, and a refusal names one that is there |
| CriterionRules.TryFrom | crates/onejudge/src/note.rs:200-213 | what is accepted is the trimmed text |
| CriterionRules.RoundTrip | crates/onejudge/src/note.rs:194-213 | an accepted criterion's own text is accepted and gives it back unchanged |
| CriterionRules.SequenceFinds | crates/onejudge/src/note.rs:961-966 | a phrase is found exactly when the words say it |
| CriterionRules.FirstIs | crates/onejudge/src/note.rs:961-966 | and then where it first stands |
| CriterionRules.Deferral | crates/onejudge/src/note.rs:970-1000 | found exactly when some lead-in is followed by some deferring word, or the bare phrase stands; what is named is said |
| CriterionRules.VersionLiteral | crates/onejudge/src/note.rs:1006-1043 | the least start of a version shape and where the literal there ends, or none anywhere |
| CriterionRules.VersionFrom | crates/onejudge/src/note.rs:1008-1041 | a literal is read at a place exactly when one of the three shapes stands there, and ends with the longest runs of that shape, a full release's with its suffix |
| CriterionRules.PastComparatorIs | crates/onejudge/src/note.rs:1029-1037 | a compared number stands past the comparator, the `=` that may double it and all space after that, and nowhere else |
| CriterionRules.DottedFinds | crates/onejudge/src/note.rs:1051-1070 | the greedy scan finds dotted digit runs exactly when there are some, and then the longest |
| CriterionRules.DottedLongest | crates/onejudge/src/note.rs:1051-1070 | no dotted runs from there reach farther |
| CriterionRules.Dotted | crates/onejudge/src/note.rs:1051-1070 | the loop is that scan |
| CriterionRules.Suffix | crates/onejudge/src/note.rs:1073-1082 | a suffix is consumed exactly after its three openers, to its end, in bounds |
| CriterionRules.CodeSpanInvocation | crates/onejudge/src/note.rs:1087-1113 | a binary is found exactly when it is spelled, as a word with space after it, anywhere past a backtick |
| CriterionRules.InvokesIsOwnRule | crates/onejudge/src/note.rs:1085-1086 | what is found is a backtick and then text without one that has the binary spelled in it, on every text |
| CriterionRules.InvokesWhere | crates/onejudge/src/note.rs:1084-1113 | a binary is found exactly when it is not only spelled before any backtick, and always when spelled inside a span |
| CriterionRules.SpanRule | crates/onejudge/src/note.rs:1084-1113 | over any list of binaries the refusal is the span rule's exactly when one is spelled inside a span or none past a backtick, and it never refuses less |
| CriterionRules.BetweenSpans | crates/onejudge/src/note.rs:1084-1113 | a word between two spans and inside none is found too |
| Publishing.FollowRun | crates/onejudge/src/cli/watch.rs:208-271 | the loop, over any in-order transport: what it hands on is the start of one run's records, and each ending has its reason: a code only from the first record that ended the run, replaced only when nothing more could be read and another run was the session's, and a read's failure only when none was |
| Publishing.HandOn | crates/onejudge/src/cli/watch.rs:251-257 | a batch is handed on record by record up to and with the first that ends the run |
| Publishing.Publisher.Start | crates/onejudge/src/cli/watch.rs:136-176 | the session is this run's, and of all logs only the previous run's is gone |
| Publishing.Publisher.Publish | crates/onejudge/src/cli/watch.rs:183-194 | nothing is appended after the first append that failed, so the log is the start of what the run had to publish, or the end of that once the log has been removed |
| Publishing.Publisher.StaysValid | crates/onejudge/src/cli/watch.rs:165-176 | a later run's start leaves an earlier publisher sound: all it may take is that run's log |
| Follow.HandsOnOneRun | crates/onejudge/src/cli/watch.rs:208-271 | in every interleaving with any publishers, what is handed on are records of one run in the order it published them, none twice; it has a gap exactly when some record of it was published after a removal that dropped earlier ones, and so never where a removed log is not made anew or this one was not removed |
| Follow.EndsAsItShould | crates/onejudge/src/cli/watch.rs:236-263 | a code comes only from the first record that ended the run, and a run is reported replaced only when it was, for good |
| Follow.FollowsOneRun | crates/onejudge/src/cli/watch.rs:223-232 | the run followed never changes and nothing handed on is taken back |
| Follow.RemovedIsReplaced | crates/onejudge/src/cli/watch.rs:136-176 | a log is removed only once its run has been replaced for good |
| Follow.GapAfterRemoval | crates/onejudge/src/cli/watch.rs:165-194 | a run of a transport that makes a removed log anew, in which a follower hands on a second record without the first |
| ReleaseTargets.Validate | crates/onejudge-repo/src/lib.rs:312-430 | the single pass over maps accepts exactly the documents that meet every condition field by field and pair by pair, and a refusal names an entry of which it is so |
| ReleaseTargets.ReadTargets | crates/onejudge-repo/src/lib.rs:333-389 | the pass over targets, and where each identifier is declared |
| ReleaseTargets.ReadCovers | crates/onejudge-repo/src/lib.rs:366-388 | covered identifiers are valid, not the target's own, and covered once; one refused as covered twice is covered by the target named |
| ReleaseTargets.CrossCheck | crates/onejudge-repo/src/lib.rs:390-405 | no covered identifier is declared by any target |
| ReleaseTargets.ReadRetired | crates/onejudge-repo/src/lib.rs:407-430 | retired identifiers are valid, distinct and not published |
| ReleaseTargets.RegistryIdIs | crates/onejudge-repo/src/lib.rs:184-219 | an accepted identifier is one registry, exactly one colon and one served name |
| ReleaseTargets.RepositoryPathIs | crates/onejudge-repo/src/lib.rs:280-308 | a path is accepted exactly when it is spelled relative and climbs at no component |
| Telemetries.Aggregate | crates/onejudge/src/telemetry.rs:299-371 | the remainder is wall time less the true sum of the parties' totals, never negative, despite saturating adds; each party's totals are those of exactly the records of its role, each signal there only when every one reports it, and its first-token time the first reported; sessions and attribution are those of the records |
| Telemetries.Join | crates/onejudge/src/telemetry.rs:321-361 | one link and one attribution for each record that has one, in order, each under its record's place among those of its role |
| Telemetries.TurnNamesOne | crates/onejudge/src/telemetry.rs:321-338 | a role and a turn index name one record |
| Telemetries.JoinIsOneRecord | crates/onejudge/src/telemetry.rs:319-361 | a session and an attribution with the same role and turn are of one invocation |
| Telemetries.StrictSumIs | crates/onejudge/src/telemetry.rs:263-268 | a sum is there exactly when every record reports, and then it is the true sum |
| Telemetries.Summarize | crates/onejudge/src/telemetry.rs:270-297 | a party's totals, and its sessions each once in the order first seen |
| Telemetries.RemainderIsTrue | crates/onejudge/src/telemetry.rs:313-317 | saturating loses nothing a 64-bit wall clock could tell |
| Text.TrimmedTwice | crates/onejudge/src/note.rs:203-212 | trimming twice is trimming once |
| Text.TrimmedOuter | crates/onejudge/src/note.rs:203-212 | trimming takes away the whitespace around a text, all of it and nothing else |
| Text.WordsAreRuns | crates/onejudge/src/engine.rs:125-131 | the words of a text are its maximal alphanumeric runs, each once and in order |
| Text.NormalizeTells | crates/onejudge/src/engine.rs:125-131 | two replies reduce alike exactly when their lowered words agree |
| Text.LoweredTells | crates/onejudge/src/engine.rs:128 | lowering forgets the case of letters and nothing else |

## Left out

- Characters beyond ASCII: letter, digit, case and space tests are on ASCII, and a length in
  bytes is a length in characters.
- Prompt wording, the wording of blocks, headers and settled reasons past what the loop reads of
  them, and JSON itself: a line's JSON is any function of the line.
- Integer widths: the no-op count, token sums and turn indices are unbounded; only the
  saturating adds of the telemetry remainder are bounded.
- Scores and costs are reals: no rounding and no NaN.
- Subprocesses, sockets, clocks, worktree evidence, artifacts and session names: providers are
  functions of what they are asked, and stamps are not observed.
- The message bus itself: taking removes one matching queued note, a release returns it or lets
  it expire, a close refuses what is queued and all that follows, and a redirect is confirmed or
  has no effect.
- Answers to senders within the imperative loop: they are in the machine of `NoteDelivery`,
  whose steps the loop's methods follow.
- What a close tells a late sender: the machine refuses it, and the reason is text made from the
  run's ending.
- A second conversation on one engine: each run here has its own, since `delivered` is not
  cleared between runs.
- More than one follower at once: a reader changes nothing but itself.
- `Usage::add` in place: an account is a value, and `Usages.Plus` is what it becomes.
- Publishing.FollowRun: waiting is bounded by a look at which some run has started and one past
  which the transport reads no more, since a follower of a run that never ends waits for ever.
- Panel.JudgeAcross: how a number is written is any function of it.
- A panel's construction: that labels are well formed and distinct is taken of the list it is
  given.
- Assessments across a panel, the legacy user, telemetry and control of a panel: the same loops
  with fewer cases.
- `supervisor_block` and `Criteria::rendered`: filters and text; the criteria they render are
  `Notes.Compose`.
- Parsing the release declaration's TOML and its unknown keys: `Validate` starts from the parsed
  document.
- The stable hash and the slug of a session's name: the queue a run is given is taken as unique.
- `split.rs`, `cli/provider.rs`, `llmlint.rs`, `spawn.rs`, `history_name.rs`, `control.rs`,
  `error.rs`: forwarding, or decided by reading one branch.
