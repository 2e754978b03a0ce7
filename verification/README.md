# gummi, modelled and proved

A Dafny model of six parts of gummi, each module beside the source file it
models, with what that file promises proved of it: for every log, every
diff, every interleaving.

- **Card-run accounting** (`Spans`, `CardLog`, `Passes`, `SpendFiling`,
  `Tallies`, `MoneySplit`, `CardClock`, `CardReport`): interval algebra over
  spans that may be open, the passes of a card, its spend filed on them in two
  phases, and the clock and money that come out.  Time is nanoseconds since
  the zero instant, zero being Go's zero time, which is also an open end;
  credits are reals.  The main results partition the card's life exactly and
  its money up to a crumb a row, with what is counted twice as an exact term.
- **The opencode session** (`OpencodeTurns`, `OpencodeOutcomes`,
  `OpencodeExec`, `OpencodeText`, `OpencodeParts`, `OpencodeMessages`): every
  locked region is one atomic step of a state machine, the classes refine its
  steps, and the results hold over every run.  A turn ends idle under an exact
  condition on what happened to it, and a part's text, cut under the lock and
  emitted after it, is delivered exactly once under another.
- **Spend ledgers** (`ClaudeUsage`, `ClaudeLedger`, `CopilotLedger`): live
  estimates settled against a provider's cumulative figures, for every order
  of events.
- **Diffs** (`DiffParse`, `DiffLines`, `DiffWriting`, `DiffRoundTrip`,
  `DiffFileAt`, `DiffAnchor`): the forgiving scan over any lines, the round
  trip of a written diff and whose paths it loses, and the anchors that find a
  line again.
- **Config keys** (`ConfigKey`): editing one top-level key of a YAML file as
  text, as a lens.
- **The session socket and attachment links** (`McpClient`, `AttachmentLinks`).

`Basics` and `Decimal` are shared vocabulary.

Hypotheses that recur: a log in time order (`NonDecreasing`), events with a
time (`Timed`), and credits and tokens that are not negative (`NonNegative`).

Where the code and its comments differ, the model follows the code.  Each
difference has an input that shows it and, where a promise fails, the exact
condition under which it holds:

- `internal/cardrun/report.go:173-190` says a row goes to one pass; its exact phase does not
  look whether a key is taken, so two passes of one stage and role with one
  start both file it (`SpendFiling.EqualStartsFileTwice`,
  `SpendFiling.FiledOnce`).
- `internal/cardrun/report.go:314-319` sums the split back to the card's counter; credits
  reconstructed from an exit that no unkeyed row can net come on top, and
  those of rows filed twice (`CardReport.ShortRowsCountTwice`,
  `CardReport.CountedOnceIff`).
- `internal/cardrun/spans.go:51-73` says a question's hold ends with its pass; an exit without
  a time leaves it open (`CardLog.AsksOutliveDecisionsWithoutTimes`,
  `CardLog.AskWithinIff`).
- `internal/cardrun/report.go:485-488` floors the waiting time because sessions may overlap;
  the passes of an ordered log never do, so the floor is dead
  (`CardClock.CardClock`).
- `internal/agent/opencode_v2.go:101-106` says a terminal event before an execution started does
  not end it; one marked started by an earlier execution's late start, or by
  settling, is ended by it (`OpencodeExec.LateStartEndsTheNext`,
  `OpencodeExec.EarlySettleLetsALateEndIn`, `OpencodeExec.TerminalEndsAnother`).
- `internal/agent/opencode_v2.go:136-174` settles the execution it captured, but lets go of
  its lock between the check and the act
  (`OpencodeExec.SlowSettleEndsTheNext`, `OpencodeExec.SettlingEndsAnother`).
- `internal/agent/opencode_v2.go:799-805` has the history relay whatever of a part the turn did
  not; an end the reopened stream brings after that relays it again, the
  history's slice can go out before a delta cut before it, and lengths cannot
  tell a gap inside the deltas (`OpencodeText.LateEndRepeats`,
  `OpencodeText.HistoryOvertakes`, `OpencodeText.ExactlyOnceIff`).
- `internal/config/name.go:62-71` speaks of the key's lines; with a key given twice only the
  last is edited, and removing it leaves the other (`ConfigKey.RemovedIsThere`,
  `ConfigKey.RemovedIsGone`).
- `internal/diffannot/parse.go:166-167` says the lines below the header correct a path it blurs;
  nothing corrects the old path of a file that was only changed, or the path
  of one deleted (`DiffRoundTrip.BlurredChange`, `DiffRoundTrip.LegibleIff`).
- `internal/diffannot/diffannot.go:96-103` reads the nearest `+++` line, which an added line of a
  hunk can look like (`DiffFileAt.AddedLineMovesAway`, `DiffFileAt.AgreesIff`).

## Model

| member | source | states |
|---|---|---|
| Spans.SortInPlace | internal/cardrun/spans.go:239 | the caller's slice ends up sorted by start, holding the same spans |
| Spans.UnionSpans | internal/cardrun/spans.go:235-256 | covers exactly the instants of its input and, when the spans are not empty, is sorted with gaps between neighbours; an open span swallows everything after it |
| Spans.AbsorbInto | internal/cardrun/spans.go:240-254 | one span merged into the last one or put after it, the last span extended where it stands |
| Spans.MergeSortedMeaning | internal/cardrun/spans.go:235-256 | the merging pass loses and adds no instant of a sorted list and separates what it leaves |
| Spans.CanonicalIsUnique | internal/cardrun/spans.go:235-256 | two sorted, separated lists that cover the same instants are the same list |
| Spans.UnionIsCanonicalForm | internal/cardrun/spans.go:235-256 | two lists of non-empty spans have equal unions if and only if they cover the same instants, open spans included |
| Spans.UnionIgnoresSortOrder | internal/cardrun/spans.go:239 | the sort is not stable, and the union does not depend on how it broke ties |
| Spans.UnionOfCanonical | internal/cardrun/spans.go:235-256 | merging what is already merged changes nothing |
| Spans.ClampSpans | internal/cardrun/spans.go:261-276 | covers exactly the instants of its input inside the window, and no open or empty span is left |
| Spans.ClampKeepsCanonical | internal/cardrun/spans.go:261-276 | clamping a union keeps its spans sorted and separated |
| Spans.UnionDuration | internal/cardrun/spans.go:280-286 | counts each instant its spans cover once, however they overlap |
| Spans.TotalLengthCounts | internal/cardrun/spans.go:280-286 | separated spans add up to the number of instants they cover |
| Spans.WorkingTime | internal/cardrun/spans.go:80-91 | is exactly the number of instants of the interval inside no ask, zero for an interval that runs backwards |
| Spans.WorkingTimeFloorIsDead | internal/cardrun/spans.go:86-90 | the floor at zero is never reached |
| Spans.WorkingTimeNeverGrows | internal/cardrun/spans.go:75-91 | one more ask never adds working time |
| Spans.UncoveredSplit | internal/cardrun/spans.go:75-91 | working time adds up over any split of the interval |
| Spans.WorkingSpans | internal/cardrun/spans.go:98-116 | the drawn stretches are sorted, separated, and cover exactly the instants of the interval inside no ask |
| Spans.WorkingSpansSumToWorkingTime | internal/cardrun/spans.go:93-116 | the drawn stretches sum to the working time |
| CardLog.AnsweredAt | internal/cardrun/spans.go:119-131 | each decision answered maps to the time of its earliest answer |
| CardLog.AbandonedAt | internal/cardrun/spans.go:166-186 | an unanswered decision ends at the first later event that ends it: a move of the card or, for a question, its pass's own end |
| CardLog.CollectSpan | internal/cardrun/spans.go:134-156 | one opened decision gives one span from its opening to its end, none when it closed no later than it opened |
| CardLog.DecisionEndIs | internal/cardrun/spans.go:160-186 | an answered decision ends at its earliest answer; an unanswered one at the first later event that files the card elsewhere, carries it out by a gate or, for a question, enters or leaves a stage, and stays open while there is none |
| CardLog.DecisionSpans | internal/cardrun/spans.go:118-158 | a canonical list that covers an instant exactly when some decision of the kind asked for stands open at it |
| CardLog.DecisionSpansMeaning | internal/cardrun/spans.go:38-49 | the same of the specification: covered if and only if a decision is open |
| CardLog.AskWithinIff | internal/cardrun/spans.go:51-73 | a question holds its pass only while it is an open decision if and only if it was answered, its decision never closes, or the end of its hold carries a time no later than the decision's or than its own |
| CardLog.OrderedLogsHoldNoLonger | internal/cardrun/spans.go:51-73 | on an ordered log of timed events that is so of every question |
| CardLog.AsksAreDecisions | internal/cardrun/spans.go:51-73 | on every ordered log AskSpans covers only instants DecisionSpans covers |
| CardLog.AsksOutliveDecisionsWithoutTimes | internal/cardrun/spans.go:166-186 | a log with a zero time where that fails, so the times are needed |
| CardLog.WaitSpans | internal/cardrun/spans.go:193-199 | covers exactly the instants of the window at which a decision is open, and sums to their number |
| CardLog.WaitTime | internal/cardrun/spans.go:204-209 | is the number of instants of the window at which a decision is open |
| CardLog.WaitTimeIsPlainSum | internal/cardrun/spans.go:201-209 | the second merge finds nothing to merge: the total is the plain sum of the drawn spans |
| CardLog.WaitTimeAddsUp | internal/cardrun/spans.go:204-209 | adjacent windows neither share nor lose waiting time |
| Passes.WalkPasses | internal/cardrun/report.go:119-167 | each stage entry opens a pass that ends at the next entry or exit, inferred when no exit was written |
| Passes.PassesOfLog | internal/cardrun/report.go:119-167 | one pass for each stage entry, in order and no other, with the entry's stage, role, flavour and time, ended by the first boundary after it, with what an exit says it spent |
| Passes.PassesInOrder | internal/cardrun/report.go:119-167 | on an ordered log the passes follow each other without overlap |
| Passes.SettledPasses | internal/cardrun/report.go:119-167 | later events never change a pass that met its boundary |
| Passes.MarkRedone | internal/cardrun/report.go:291-309 | a pass is marked repeated if and only if an earlier one had its stage, role and flavour, and reproved when a rebase came between |
| SpendFiling.GroupByKey | internal/cardrun/report.go:196-201 | every keyed row is listed once under its key, in the rollup's order |
| SpendFiling.File | internal/cardrun/report.go:203-221 | a pass takes exactly the rows of the key that share its stage and role, and claims those and no others |
| SpendFiling.FileOwnKey | internal/cardrun/report.go:223-231 | a pass whose start keys a row is filed under it, any other is left alone |
| SpendFiling.FileExact | internal/cardrun/report.go:222-232 | the first phase files exactly the passes that are keyed by their own start |
| SpendFiling.UnclaimedKeys | internal/cardrun/report.go:234-257 | per slot, the keys no pass's start took, as KeysAreCandidates and KeysInOrder describe them |
| SpendFiling.StableOrderSorts | internal/cardrun/report.go:239-245 | rows are walked by last sample, ties in the rollup's order |
| SpendFiling.StableOrderListsAll | internal/cardrun/report.go:239-245 | that order lists every row |
| SpendFiling.KeysOfMeaning | internal/cardrun/report.go:234-257 | the keys left to the fallback are distinct, name rows, and are no pass's own start |
| SpendFiling.KeysAreCandidates | internal/cardrun/report.go:247-256 | the keys left to the fallback in a slot are exactly those some row of the slot carries and no pass's start took |
| SpendFiling.KeysInOrder | internal/cardrun/report.go:239-256 | of two of them the earlier is the one whose first row in the slot was sampled first, ties in the rollup's order |
| SpendFiling.FiledInTurn | internal/cardrun/report.go:258-279 | the n-th pass of a slot that its start did not key is filed under the candidate with n others before it, and under none when there are no more than n |
| SpendFiling.FileByOrder | internal/cardrun/report.go:263-278 | the next pass without a key of its own takes the next unclaimed key of its slot, or is reconstructed from its exit figure when it has one |
| SpendFiling.FileRest | internal/cardrun/report.go:258-279 | the second phase leaves every pass settled and marks exactly the rows filed on some pass |
| SpendFiling.AttachSpend | internal/cardrun/report.go:191-281 | both phases together: every pass as specified, and a row marked claimed if and only if it was filed on one |
| SpendFiling.OwnKeyWins | internal/cardrun/report.go:173-176 | a row keyed by a pass's own start goes to that pass |
| SpendFiling.FiledTwiceIff | internal/cardrun/report.go:222-232 | a row is filed on two passes if and only if they are of one stage and role and share the start that keys it |
| SpendFiling.FiledOnce | internal/cardrun/report.go:173-281 | no row is filed twice if and only if no two passes of one stage and role share a start that keys one of its rows; with distinct starts none do |
| SpendFiling.FiledRowsAreKeyed | internal/cardrun/report.go:186-190 | a row is only filed on a pass of its own stage and role, and never one without a session key |
| SpendFiling.FilingConservesSpend | internal/cardrun/report.go:203-221 | the measured passes hold exactly the credits and the tokens of the claimed rows, and once more those of the rows filed again |
| SpendFiling.TwinMarksAreAgain | internal/cardrun/report.go:203-232 | the rows filed again are those a pass shares with an earlier one of its stage, role and start |
| SpendFiling.SettledSpend | internal/cardrun/report.go:264-278 | a pass is either measured by its rows or reconstructed with none |
| SpendFiling.EqualStartsFileTwice | internal/cardrun/report.go:222-232 | a log with one stage entered twice at one instant: both passes take the row, and its credits count twice |
| Tallies.Buckets | internal/cardrun/report.go:443-458 | lists each share once, largest first with ties by name, and sums to the shares |
| Tallies.BucketsAreUnique | internal/cardrun/report.go:443-458 | the list does not depend on the order a map is walked in |
| Tallies.LexLessIff | internal/cardrun/report.go:453-458 | ties go by byte order: at the first place where two names differ the lesser has the lesser byte, or has ended |
| Tallies.SumAdd | internal/cardrun/report.go:320-393 | adding to one share adds as much to the sum |
| MoneySplit.SplitPasses | internal/cardrun/report.go:340-356 | first passes, corrections and reproofs are summed apart, rework is the last two, and reconstructed credits are held per stage and role |
| MoneySplit.ChargeRow | internal/cardrun/report.go:361-369 | an unclaimed row is charged for what is left once the reconstructed passes of its slot are netted |
| MoneySplit.NetRowConserves | internal/cardrun/report.go:361-369 | what a row nets and what it is charged for are its credits, neither below zero |
| MoneySplit.NetRowBalance | internal/cardrun/report.go:361-369 | each row moves one balance, never below zero |
| MoneySplit.ChargeRows | internal/cardrun/report.go:357-374 | all charges together are the unclaimed rows less what was netted, short of a crumb a row |
| MoneySplit.LeftIsUnnetted | internal/cardrun/report.go:361-369 | the balances left are what no unkeyed row of the slot could net |
| MoneySplit.UnnettedIff | internal/cardrun/report.go:311-319 | nothing is left unnetted if and only if, per stage and role, the reconstructed credits find as many in unkeyed rows |
| MoneySplit.Unrecorded | internal/cardrun/report.go:425-439 | the counter's excess over the rows is charged to the decomposition as far as one accounts for it and the rest as unrecorded, each unless it is a crumb |
| MoneySplit.TallyRows | internal/cardrun/report.go:325-335 | the shares by stage, by role and by model hold exactly the names rows carry, each the sum of its rows, and sum to the same total |
| MoneySplit.TallyCharges | internal/cardrun/report.go:381-388 | a role has a share if and only if a charge above zero has that role, and it is the sum of those charges; Elsewhere is the sum of all |
| MoneySplit.BucketsByRole | internal/cardrun/report.go:381-389 | ElsewhereBy has one bucket for exactly each role with a charge above zero, holding the sum of those charges |
| MoneySplit.RowChargesAre | internal/cardrun/report.go:357-374 | the charges are those of the unclaimed rows in order: each with its row's fields and tokens, the credits its slot's reconstructed passes leave it, an estimate no larger than that if netted, and listed unless a crumb that was netted or used no tokens |
| MoneySplit.Itemize | internal/cardrun/report.go:375-391 | each breakdown has one bucket for exactly each name a row or an unrecorded charge goes by, holding their sum |
| MoneySplit.SplitMoney | internal/cardrun/report.go:320-393 | the whole money value: rework is corrected plus reproved, the three breakdowns share one total, ElsewhereBy is the charges by role, and each charge is a row's or the counter's excess |
| CardClock.MeasureLife | internal/cardrun/report.go:464-481 | the life runs from the first start to the last end, and agent time counts each closed pass's instants in no ask |
| CardClock.TickPass | internal/cardrun/report.go:466-481 | one more pass in order adds its own time and no one else's |
| CardClock.WaitingHoldsEveryAsk | internal/cardrun/report.go:489-510 | the time left over is at least the time blocked on asks inside the life |
| CardClock.MeasureClock | internal/cardrun/report.go:462-515 | Agent, OnYou and Idle are not negative and sum to Elapsed, and the floor on Waiting is dead, for passes in order |
| CardClock.ToFirstGate | internal/cardrun/report.go:511-515 | the first gate event after the start is the one that counts |
| CardClock.CardClock | internal/cardrun/report.go:460-530 | for every log in time order the clock partitions the card's life, and OnYou is WaitTime when every decision is an answered ask |
| CardClock.AnsweredAsksAreAllDecisions | internal/cardrun/spans.go:38-73 | when every decision is an answered ask the two derivations give one list |
| CardReport.Sessions | internal/cardrun/report.go:119-167 | the passes with their spend filed and their repeats marked |
| CardReport.MoneyIsConserved | internal/cardrun/report.go:312-393 | for every log and rollup FirstPass, Rework and Elsewhere come to the larger of the counter and the rows and what is counted again, short of at most a crumb times one more than the rows |
| CardReport.RefiledIff | internal/cardrun/report.go:203-232 | filing counts no credits twice if and only if the rows two passes share hold none |
| CardReport.CountedOnceIff | internal/cardrun/report.go:311-319 | nothing is counted again if and only if reconstructed credits find unkeyed rows to net them and rows filed twice hold no credits |
| CardReport.ShortRowsCountTwice | internal/cardrun/report.go:311-319 | a log and a rollup whose figures exceed both meters by more than the crumbs |
| CardReport.CardMoney | internal/cardrun/report.go:312-393 | the same for the money computed from any log and rollup |
| CardReport.NothingUnnettedWithoutReconstruction | internal/cardrun/report.go:311-319 | with no reconstructed pass the extra term is zero |
| CardReport.LaterEntriesStartApart | internal/cardrun/report.go:119-136 | stage entries at strictly later times start their passes at distinct times |
| OpencodeTurns.Session.Send | internal/agent/opencode.go:479-502 | refuses a closed or busy session, else the turn in flight is a new one |
| OpencodeTurns.Session.EndTurn | internal/agent/opencode.go:770-781 | only the first caller ends a turn; it takes the stop and clears what was in flight |
| OpencodeTurns.Session.FinishRunTurn | internal/agent/opencode.go:540-597 | the turn's own goroutine always comes to the end of its turn |
| OpencodeTurns.Session.LoseStream | internal/agent/opencode.go:1174-1177 | the bus reader reads the turn in flight when its stream is lost |
| OpencodeTurns.Session.ServerDied | internal/agent/opencode.go:1178-1180 | and fails the turn it read, to no effect when that one has ended since |
| OpencodeTurns.Session.DecideFinal | internal/agent/opencode.go:785-818 | from what endTurn read, idle or error, and a clean idle records that the session works |
| OpencodeTurns.Session.EmitFinal | internal/agent/opencode.go:820-825 | one event for the turn, dropped only once the session closed |
| OpencodeTurns.Session.FinishDecide | internal/agent/opencode.go:785-818 | the goroutine settles what it read, and no one else's reading |
| OpencodeTurns.Session.FinishEmit | internal/agent/opencode.go:785-825 | and emits it, and is done |
| OpencodeTurns.Session.BusDecide | internal/agent/opencode.go:785-818 | the bus reader settles what it read, on its own |
| OpencodeTurns.Session.BusEmit | internal/agent/opencode.go:785-825 | and emits it, and reads on |
| OpencodeTurns.Session.Stop | internal/agent/opencode.go:883-917 | a stop is set only on the turn or compaction in flight |
| OpencodeTurns.Session.Shut | internal/agent/opencode.go:949-983 | closing refuses later sends |
| OpencodeTurns.Session.StartCompaction | internal/agent/opencode_compact.go:13-37 | a compaction is refused where a send would be, and holds the session busy |
| OpencodeTurns.Session.FinishCompaction | internal/agent/opencode_compact.go:39-67 | the end of a compaction reads its own stop and clears it |
| OpencodeTurns.OneInFlight | internal/agent/opencode.go:470-502 | in every interleaving a turn and a compaction are never both in flight, and a stop stands only over one of them |
| OpencodeTurns.AcceptedIff | internal/agent/opencode.go:479-502 | in every run a message is accepted if and only if the session was not closed, every turn has ended and no compaction runs, and so is a compaction of a session ready for one |
| OpencodeTurns.ClosedRefuses | internal/agent/opencode.go:949-983 | once the session closed no turn is accepted and no compaction begins, whatever else goes on |
| OpencodeTurns.NoStaleStop | internal/agent/opencode.go:883-917 | no stop reaches a later turn or compaction |
| OpencodeTurns.OneThreadEnds | internal/agent/opencode.go:770-781 | in every interleaving at most one thread gets past endTurn's check for a turn, and none once its event is out |
| OpencodeTurns.ReadingStays | internal/agent/opencode.go:770-818 | what a goroutine past the check read stays as it read it until its own next step |
| OpencodeTurns.BusReadingStays | internal/agent/opencode.go:770-818 | and so does what the bus reader read |
| OpencodeTurns.EndedOnce | internal/agent/opencode.go:760-818 | each accepted turn is given at most one final event, exactly one once it ended and no thread holds it while the session is open, and has been ended once its goroutine returned |
| OpencodeTurns.StoppedTurnsEndIdle | internal/agent/opencode.go:770-818 | a turn Interrupt reached ends idle, whichever thread ends it |
| OpencodeTurns.AbortIsTheTurnsOwn | internal/agent/opencode.go:770-818 | what either thread that ends a turn takes for a stop is a stop of that turn |
| OpencodeTurns.CancelledTurnsEndIdle | internal/agent/opencode.go:540-597 | a POST cut short by a cancel ends its turn idle, not in error |
| OpencodeTurns.PostedAtMostTwice | internal/agent/opencode.go:540-597 | a turn is posted again at most once, after its lost session is dropped |
| OpencodeOutcomes.EndsIdleIff | internal/agent/opencode.go:770-818 | in every interleaving a turn's final event is idle if and only if the session was closed when it ended, or it was stopped, or its end was no failure, no error was reported and something was relayed |
| OpencodeOutcomes.FailuresEndInError | internal/agent/opencode.go:785-800 | so a refused POST or a lost stream ends an unstopped turn of an open session in error, whatever it had relayed |
| OpencodeOutcomes.HadIdleIff | internal/agent/opencode.go:827-837 | the session is known to work if and only if some turn came to a clean idle |
| OpencodeOutcomes.RetriedIff | internal/agent/opencode.go:540-597 | a first POST is sent again exactly when the conversation it resumed was lost, or gave nothing back, and no turn had worked yet |
| OpencodeExec.Executions.Begin | internal/agent/opencode_v2.go:181-187 | a new execution becomes the current one |
| OpencodeExec.Executions.Drop | internal/agent/opencode_v2.go:190-196 | only the current execution is dropped |
| OpencodeExec.Executions.EndExecution | internal/agent/opencode_v2.go:538-555 | ends the current execution if it started and did not end, and says whether it did |
| OpencodeExec.Executions.OnBusEvent | internal/agent/opencode_v2.go:380-405 | a start marks the current execution, a terminal event ends it |
| OpencodeExec.Executions.MarkSettled | internal/agent/opencode_v2.go:136-174 | settling marks its execution started and reports whether it is the current one |
| OpencodeExec.ClosedOnceAfterStart | internal/agent/opencode_v2.go:107-115 | the done channel is closed at most once, and never before the execution was marked started |
| OpencodeExec.CurrentIsLastBegun | internal/agent/opencode_v2.go:181-196 | in every run the current execution is the last one begun, until it is dropped itself |
| OpencodeExec.DispatchEndsItsOwn | internal/agent/opencode_v2.go:380-405 | in every run, whatever the bus lost, an execution not marked started before its own start was dispatched is ended by no terminal event but its own |
| OpencodeExec.TerminalEndsAnother | internal/agent/opencode_v2.go:101-106 | a terminal event ends another execution if and only if that one is current, unended and was marked so early |
| OpencodeExec.EarlyIff | internal/agent/opencode_v2.go:136-174 | a step marks one early if and only if it is an earlier execution's late start or a settling, and finds it not started |
| OpencodeExec.CalmEarlyIff | internal/agent/opencode_v2.go:136-174 | when every start was dispatched before the next execution began, only such a settling does |
| OpencodeExec.LateStartEndsTheNext | internal/agent/opencode_v2.go:380-405 | a run in which a late start and end pass for the successor's |
| OpencodeExec.EarlySettleLetsALateEndIn | internal/agent/opencode_v2.go:166-174 | a calm run in which a settling lets a late end pass for its execution's own |
| OpencodeExec.SettlingEndsItsOwn | internal/agent/opencode_v2.go:136-174 | settling ends the execution it checked if and only if that is still current, started and unended |
| OpencodeExec.SettlingEndsAnother | internal/agent/opencode_v2.go:136-174 | and another one if and only if that one is |
| OpencodeExec.SlowSettleEndsTheNext | internal/agent/opencode_v2.go:136-174 | a run, calm otherwise, in which it does end the next |
| OpencodeText.Relay.BeginTurn | internal/agent/opencode.go:494-498 | a turn starts with nothing relayed and the lengths the session kept |
| OpencodeText.Relay.NoteText | internal/agent/opencode_v2.go:792-797 | the turn's relayed length of the part becomes the larger of what it was and n, no other changes, none falls |
| OpencodeText.Relay.OnDelta | internal/agent/opencode_v2.go:424-432 | a delta is counted, and cut for the dispatcher to emit, in a turn |
| OpencodeText.Relay.OnEnded | internal/agent/opencode_v2.go:443-455 | a part's end cuts what its deltas left out |
| OpencodeText.Relay.BusEmit | internal/agent/opencode_v2.go:433-435 | the dispatcher emits what it cut, after the lock |
| OpencodeText.Relay.ReconcilePart | internal/agent/opencode_v2.go:823-830 | the turn's goroutine cuts what the turn never relayed of a part |
| OpencodeText.Relay.TurnEmit | internal/agent/opencode_v2.go:831 | and emits it, after the lock |
| OpencodeText.Relay.ReconcileText | internal/agent/opencode_v2.go:806-834 | reads the whole history part by part, as the rows below on the history tell |
| OpencodeText.PartKeyInjective | internal/agent/opencode_v2.go:347-355 | distinct kind, message and ordinal never share a key, even when message ids hold colons |
| OpencodeText.HistoryKeysDistinct | internal/agent/opencode_v2.go:806-834 | the history's parts get distinct keys by counting ordinals per kind |
| OpencodeText.OrdinalCounts | internal/agent/opencode_v2.go:347-355 | the ordinal of a part is the number of parts of its kind before it in its message |
| OpencodeText.BusKeysDiffer | internal/agent/opencode_v2.go:347-355 | so keyed as the bus keys them, no two parts of the history share a key |
| OpencodeText.ReadIsContent | internal/agent/opencode_v2.go:814-823 | every part the history has read is a text or a thought of an assistant message, under the key the bus gives it |
| OpencodeText.ContentIsRead | internal/agent/opencode_v2.go:814-823 | every text and every thought of every assistant message is read so |
| OpencodeText.HistoryReadsOnce | internal/agent/opencode_v2.go:814-831 | and no part twice |
| OpencodeText.HistoryRelaysTheRest | internal/agent/opencode_v2.go:823-831 | each adds what the turn had not relayed of it under that key |
| OpencodeText.HistoryLeavesTheRest | internal/agent/opencode_v2.go:806-834 | and nothing is added under any other key |
| OpencodeText.HistoryMends | internal/agent/opencode_v2.go:799-805 | a part the turn had relayed whole gains no byte; one it had nothing or a prefix of is out whole |
| OpencodeText.HistoryAfterRun | internal/agent/opencode_v2.go:799-834 | after any run, the history adds of each part what lies past all its turn knew to be out, told by the events alone |
| OpencodeText.HeardIs | internal/agent/opencode_v2.go:419-458 | in every run what was heard of a part, what came early and whether anything came late are told by the events alone, without the session's lengths |
| OpencodeText.ExactlyOnceByEvents | internal/agent/opencode_v2.go:419-458 | so told, a part heard whole that nothing overtook is relayed exactly if and only if nothing came late and its deltas carried a prefix |
| OpencodeText.NeverTwice | internal/agent/opencode_v2.go:419-458 | at every moment of every run, while nothing of a part came late or was overtaken and its deltas carried a prefix, what is relayed of it is a prefix of its text |
| OpencodeText.NeverTwiceIff | internal/agent/opencode_v2.go:419-458 | with no emission under way, only then, but for an overtaken part that comes out right |
| OpencodeText.ExactlyOnceIff | internal/agent/opencode_v2.go:806-834 | a part heard whole is relayed exactly, over every interleaving of the dispatcher and the turns' goroutines and over any turns, if and only if nothing came late and its deltas carried a prefix, or the overtaken arrangement is its text |
| OpencodeText.OvertakenIff | internal/agent/opencode_v2.go:806-834 | and that is so, for a prefix, if and only if the delta and the slice that overtook it may trade places |
| OpencodeText.NoneLost | internal/agent/opencode_v2.go:799-805 | whatever comes late or overtakes, no byte of a part heard whole is lost, and none is relayed twice if and only if nothing came late |
| OpencodeText.ExactWithoutHistory | internal/agent/opencode_v2.go:419-458 | a part no history had is, once it ended, relayed exactly if and only if its deltas carried a prefix of it, over however many turns |
| OpencodeText.HistoryOvertakes | internal/agent/opencode_v2.go:806-834 | a run in which the history's slice goes out before a delta cut before it |
| OpencodeText.ExactWhenDeltasArePrefix | internal/agent/opencode_v2.go:419-458 | a part is relayed exactly if and only if the deltas that arrived, one by one and then the end, join to a prefix of it |
| OpencodeText.LateEndRepeats | internal/agent/opencode_v2.go:441-458 | an end dispatched after the history reconciled its part relays it again |
| OpencodeParts.PartRelay.OnWhole | internal/agent/opencode.go:1748-1761 | only the new suffix of a part sent whole is relayed, all of it when the part shrank |
| OpencodeParts.PartRelay.OnDelta | internal/agent/opencode.go:1470-1486 | a delta of an announced part is relayed and counted |
| OpencodeParts.WholeCompletesThePart | internal/agent/opencode.go:1748-1761 | a whole part completes what was relayed if and only if it extends it |
| OpencodeParts.WholeAdds | internal/agent/opencode.go:1748-1761 | a part reported whole adds its text past what was relayed, all of it again when it is shorter |
| OpencodeParts.DeltaIsRelayedIff | internal/agent/opencode.go:1470-1486 | a delta is relayed, as it is, if and only if its part was announced open and not reported whole since |
| OpencodeParts.LengthsAreRelayed | internal/agent/opencode.go:1470-1486 | the lengths kept are the lengths relayed |
| OpencodeParts.EachWholeIsRelayedOnce | internal/agent/opencode.go:1748-1761 | repeating a report of a part relays nothing more |
| OpencodeMessages.Turn.Flush | internal/agent/opencode.go:1519-1526 | a blank accumulator gives no message, any other one trimmed message, and it is reset |
| OpencodeMessages.Turn.OnText | internal/agent/opencode.go:1505-1513 | text is streamed and accumulated |
| OpencodeMessages.Turn.OnReasoning | internal/agent/opencode.go:1505-1513 | a thought closes the prose before it |
| OpencodeMessages.Turn.AnnounceCall | internal/agent/opencode.go:1721-1734 | true the first time only |
| OpencodeMessages.Turn.CalledBefore | internal/agent/opencode.go:1736-1748 | true once for an announced call, never for an empty id |
| OpencodeMessages.Turn.OnToolRunning | internal/agent/opencode.go:1630-1638 | a running call is announced once, after the prose before it |
| OpencodeMessages.Turn.OnToolDone | internal/agent/opencode.go:1639-1646 | a finished call adds its announcement only when it was not announced |
| OpencodeMessages.Turn.End | internal/agent/opencode.go:782-784 | the turn's trailing prose is its last message |
| OpencodeMessages.MessagesAreStretches | internal/agent/opencode.go:1626-1699 | the messages are exactly the trimmed, non-blank stretches of streamed text between thoughts and tool calls, in order |
| OpencodeMessages.StretchesPartitionTheText | internal/agent/opencode.go:1683-1699 | no streamed byte is in two stretches or in none |
| OpencodeMessages.TurnMessagesAreStretches | internal/agent/opencode.go:770-818 | the same over a whole turn |
| OpencodeMessages.StreamIsBubbled | internal/agent/opencode.go:1505-1526 | in the stream itself: right before each thought and each tool call stands the prose since the last one as one trimmed message, none when it is blank, and no message stands anywhere else |
| OpencodeMessages.StreamIsAdded | internal/agent/opencode.go:1626-1699 | messages aside, the stream is every event's delta, call and result in order, a call announced unless it is pending, a result with how it ended |
| OpencodeMessages.OpenIsPending | internal/agent/opencode.go:1721-1748 | a call is pending if and only if it was seen running and not finished since |
| OpencodeMessages.TrimIs | internal/agent/opencode.go:1519-1526 | trimming takes the space off both ends and nothing else |
| OpencodeMessages.OneCallOneResult | internal/agent/opencode.go:1721-1748 | a call seen running any number of times and then finished once gives one call and one result |
| ClaudeUsage.UsageByKey | internal/agent/claudemodelid.go:51-65 | each key's usage is the sum over the model spellings that share it, its context window the largest of theirs |
| ClaudeUsage.FoldIsUnique | internal/agent/claudemodelid.go:51-65 | the fold does not depend on the order the report is walked in |
| ClaudeUsage.FoldTotals | internal/agent/claudemodelid.go:51-65 | the fold adds up to the report it was made of |
| ClaudeUsage.DatedSpellingSharesKey | internal/agent/claudemodelid.go:34-47 | a model's dated and undated spellings share a key |
| ClaudeLedger.Meter.OnMessageStart | internal/agent/claudecode.go:899-901 | a request's model is the one its deltas are booked to |
| ClaudeLedger.Meter.OnMessageDelta | internal/agent/claudecode.go:902-945 | a delta books an estimate at the current rate under the request's model |
| ClaudeLedger.Meter.PriorOf | internal/agent/claudecode.go:1166-1184 | the part of a first cumulative cost this process did not spend |
| ClaudeLedger.Meter.BaselineResumed | internal/agent/claudecode.go:1166-1184 | a resumed process starts from what was settled before it |
| ClaudeLedger.Meter.SettleModels | internal/agent/claudecode.go:1088-1119 | each model is settled against its cumulative cost, the main one last |
| ClaudeLedger.Meter.OnResult | internal/agent/claudecode.go:1081-1126 | a result folds its usage, seeds the baseline once, settles every model and sets the rate |
| ClaudeLedger.ResultBalancesIff | internal/agent/claudecode.go:1081-1126 | a result keeps the books balanced if and only if it names every model with an outstanding estimate |
| ClaudeLedger.ResultBooksExactly | internal/agent/claudecode.go:1081-1126 | each model it names has then booked exactly a hundred times its cost since the baseline |
| ClaudeLedger.SettleAllBooks | internal/agent/claudecode.go:1102-1119 | settling touches only the models named |
| ClaudeLedger.SettleAllEmits | internal/agent/claudecode.go:1102-1119 | a model is settled aloud if and only if the report names it and there is something to correct or an estimate to take the place of |
| ClaudeLedger.DeltaBooks | internal/agent/claudecode.go:902-945 | in every run a delta is booked to its request's model, or the session's own, at a hundred times the last report's dollars a token, with cache writes as input and cache reads apart, and before any report as tokens alone |
| ClaudeLedger.FirstReportBooks | internal/agent/claudecode.go:1166-1184 | the first report a resumed process gets books of each model its cumulative cost times the part its own tokens are of all it counts, and nothing of one that counts none |
| ClaudeLedger.RunKeepsLedger | internal/agent/claudecode.go:902-1126 | over any such lines, booked credits equal a hundred times cost less baseline, plus outstanding estimates, after every line |
| ClaudeLedger.BookedWithinCost | internal/agent/claudecode.go:1166-1184 | a settled model has booked between nothing and its whole cost |
| ClaudeLedger.ResumedRunBooksWithinCost | internal/agent/claudecode.go:1166-1184 | the same at every result of a run with costs that never fall |
| CopilotLedger.Session.AddSettledUsage | internal/agent/copilot.go:347-358 | what is emitted for a model is added to its settled figure, field by field |
| CopilotLedger.Session.StashMessageUsage | internal/agent/copilot.go:389-403 | a metered call's message is not stashed |
| CopilotLedger.Session.MarkUsageMetered | internal/agent/copilot.go:407-415 | a usage event takes its call out of the stash |
| CopilotLedger.Session.TakePendingUsage | internal/agent/copilot.go:420-430 | the stash is handed over whole and reset |
| CopilotLedger.Session.SettleFigures | internal/agent/copilot.go:441-495 | each model is brought to the figure read, its difference emitted |
| CopilotLedger.Session.SettleFlushed | internal/agent/copilot.go:441-495 | a fallback adds the stash it flushes, any of those in flight, to the settled figures |
| CopilotLedger.SourcesAgree | internal/agent/copilot.go:614-647 | a call both sources report alike gives one amount if and only if its input count holds its cache reads |
| CopilotLedger.DetailsAgree | internal/agent/copilot.go:361-383 | so does a report that gives the counts apart, cache writes with the input |
| CopilotLedger.UnbilledAgree | internal/agent/copilot.go:614-623 | with no billed figure the event goes by its cost and the cumulative entry by nothing, and they agree if and only if that cost is nothing and the input holds its cache reads |
| CopilotLedger.SettledIsEmitted | internal/agent/copilot.go:347-495 | in every interleaving the settled figure is, in every field, the sum emitted and on its way out |
| CopilotLedger.SettleReachesTheFigures | internal/agent/copilot.go:441-495 | a successful settle leaves each model at the cumulative figure it read, whatever fallbacks came before |
| CopilotLedger.MeteredCallsAreNotFlushed | internal/agent/copilot.go:389-430 | a metered call is never in what the fallback flushes |
| CopilotLedger.MeteredStaysOut | internal/agent/copilot.go:389-430 | and stays out until the next reset |
| CopilotLedger.StashHoldsTheLatest | internal/agent/copilot.go:389-430 | in every interleaving the stash holds of each call the latest count its messages gave since the last settle or flush, and none of a call that got its usage event |
| DiffParse.Parse | internal/diffannot/parse.go:63-164 | the loop gives the files of the scan, with every open hunk and file flushed at the end |
| DiffParse.TakeLine | internal/diffannot/parse.go:83-152 | one line moves the open file, the open hunk and the two line numbers |
| DiffParse.ReadStarts | internal/diffannot/parse.go:197-212 | the two starts of a hunk header, read up to its closing marks |
| DiffParse.SettleFiles | internal/diffannot/parse.go:154-162 | an added or deleted file, and one whose paths agree, keeps no old path |
| DiffLines.HunkLinesPointBack | internal/diffannot/parse.go:46-56 | for any lines, each hunk line points back at its source, indices strictly increase over the whole result, and the lines listed are exactly the body lines below a hunk header inside a file |
| DiffLines.ListedIff | internal/diffannot/parse.go:96-124 | for any lines, one is listed if and only if it is blank or starts with a space, a plus or a minus and a hunk header inside a file is above it with only such lines and marks between; a blank one as context with no text, any other as its operator and its text |
| DiffLines.LinesAreNumbered | internal/diffannot/parse.go:96-121 | for any lines, Old and New number consecutively from the header, and a side a line is not on reads zero |
| DiffLines.CountsAreOfLines | internal/diffannot/parse.go:112-121 | for any lines, Add and Del are the numbers of added and removed lines listed |
| DiffWriting.HeaderIsRead | internal/diffannot/parse.go:197-218 | a hunk header as git writes it gives back its two starts |
| DiffWriting.PlusPath | internal/diffannot/parse.go:177-195 | a side line gives back its path, with the tab git ends a name with a space by |
| DiffWriting.QuotedPath | internal/diffannot/parse.go:177-195 | a side line in quotes gives the path its quoting stands for |
| DiffWriting.GitPaths | internal/diffannot/parse.go:166-175 | the header line is cut at the last mark between two paths, the new path's own when it holds one |
| DiffWriting.GitPathsIff | internal/diffannot/parse.go:166-175 | so it gives both paths back if and only if the new one does not hold the mark |
| DiffRoundTrip.WrittenParses | internal/diffannot/parse.go:58-164 | every written diff, with its index and similarity lines, its marks for a missing end of line and blank lines that lost their operator, parses to its files, hunks, lines, numbers and places, under the paths its lines give |
| DiffRoundTrip.LegibleIff | internal/diffannot/parse.go:122-152 | those are the paths written if and only if the new one does not hold the mark, or the file was renamed, copied, or added with text |
| DiffRoundTrip.WrittenParsesBack | internal/diffannot/parse.go:58-164 | a written diff parses back to what was written, statuses, counts, hunks, texts, numbers and places, the marks and notes passed over, if and only if that is so of every file |
| DiffRoundTrip.BlurredPathStays | internal/diffannot/parse.go:166-175 | the others: a changed file keeps a false old path, a deleted one is listed under the end of its path |
| DiffRoundTrip.BlurredChange | internal/diffannot/parse.go:166-175 | a change to "x b/y" reads as coming from "x b/y b/x" |
| DiffFileAt.FileAt | internal/diffannot/diffannot.go:104-119 | the path in force at a line |
| DiffFileAt.NameInSection | internal/diffannot/diffannot.go:96-119 | at a line of a written hunk, the parsed path of its file as the hunk's lines above have renamed it |
| DiffFileAt.AgreesIff | internal/diffannot/diffannot.go:96-119 | FileAt agrees with the parsed path on every hunk line of a file if and only if no hunk line reads as a +++ header naming another path |
| DiffFileAt.AddedHeaderMovesAway | internal/diffannot/diffannot.go:96-119 | any written hunk that adds such a line: listed under its file, named after the other path |
| DiffFileAt.AddedLineMovesAway | internal/diffannot/diffannot.go:96-119 | a diff of notes.md that adds the line "++ other" |
| DiffFileAt.FileAtAgreesWithParse | internal/diffannot/diffannot.go:96-119 | with no hunk line starting with the +++ mark, FileAt agrees with the parse on every line it lists |
| DiffAnchor.Anchor | internal/diffannot/diffannot.go:42-55 | the hash of the five payloads around a line, none for a line outside the diff |
| DiffAnchor.SameAnchorIff | internal/diffannot/diffannot.go:24-55 | two lines share an anchor if and only if they and the two lines on each side read alike, markers aside |
| DiffAnchor.AroundReads | internal/diffannot/diffannot.go:24-52 | the five lines are the two above, the line and the two below, each past its marker, empty past an end of the diff |
| DiffAnchor.MarkersDoNotCount | internal/diffannot/diffannot.go:24-36 | diffs that differ in their markers alone give a line one anchor |
| DiffAnchor.ClosedIsInjective | internal/diffannot/diffannot.go:46-52 | the text that is hashed tells its five slots apart |
| DiffAnchor.Locate | internal/diffannot/diffannot.go:59-69 | the first line with the wanted anchor |
| DiffAnchor.LocatedIsLowest | internal/diffannot/diffannot.go:57-69 | the lowest such line, and -1 if and only if there is none or nothing is wanted |
| DiffAnchor.LocateAll | internal/diffannot/diffannot.go:71-94 | equals Locate for every wanted anchor, whatever the hash |
| ConfigKey.SetKey | internal/config/name.go:72-147 | writes the edited lines, leaves a file alone when an absent key is removed, refuses a top level that is no mapping |
| ConfigKey.FindSlot | internal/config/name.go:110-127 | the key's lines run from its own to the next key, less the blank lines and comments above that |
| ConfigKey.FindFirstPlace | internal/config/name.go:110-131 | a first key goes above the comments of the first key, or those that end a mapping without one |
| ConfigKey.FirstPlaceIs | internal/config/name.go:128-131 | the line above a new first key is no unindented comment, and all lines from there to the old first key are |
| ConfigKey.NewKeyLands | internal/config/name.go:132-141 | a key the file lacks is put in whole at one place and moves no line |
| ConfigKey.KeyIsReplaced | internal/config/name.go:112-127 | a key the file has is replaced where it stands: from its line down to the last that is no comment or blank before the next key |
| ConfigKey.WriteThenRead | internal/config/name.go:62-71 | the key then reads as the rendered block and every other line is where it was, in order |
| ConfigKey.ReadThenWrite | internal/config/name.go:62-71 | writing what is there changes nothing |
| ConfigKey.LastWriteWins | internal/config/name.go:132-141 | of two writes the last wins line for line |
| ConfigKey.AddThenRemove | internal/config/name.go:132-141 | adding an absent key and removing it restores the lines, for both insert positions |
| ConfigKey.OthersKept | internal/config/name.go:66-71 | every other key's lines, and which keys there are, stay as they were |
| ConfigKey.RemovedIsGone | internal/config/name.go:112-127 | a removed key is gone if and only if the file had it at most once |
| ConfigKey.RemovedIsThere | internal/config/name.go:112-127 | a file that gives a key twice still has it after removal |
| McpClient.SocketClient.Open | cmd/gummi/mcp.go:129-130 | each request takes the next id |
| McpClient.SocketClient.List | cmd/gummi/mcp.go:135-138 | and is listed under it before it is written |
| McpClient.SocketClient.Remove | cmd/gummi/mcp.go:145-150 | a request that gave up takes its entry back |
| McpClient.SocketClient.Take | cmd/gummi/mcp.go:112-118 | the reader looks a response's id up and takes the entry in one locked step |
| McpClient.SocketClient.Send | cmd/gummi/mcp.go:119-124 | its send finds room: the frame is in the caller's channel |
| McpClient.SocketClient.Await | cmd/gummi/mcp.go:152-163 | a caller returns a frame with its own id, or its context's end |
| McpClient.OwnReplyOnce | cmd/gummi/mcp.go:101-164 | in every interleaving a request returns only a frame carrying its own id, the one frame ever taken for it |
| McpClient.NothingIsThrownAway | cmd/gummi/mcp.go:119-124 | the default branch of the reader's send is dead |
| McpClient.TakenRepliesArrive | cmd/gummi/mcp.go:112-124 | a frame taken for a waiting call is in its channel or about to be |
| McpClient.EndedStays | cmd/gummi/mcp.go:145-163 | a request that ended stays as it ended, whatever is read later |
| McpClient.LateReplyReachesNobody | cmd/gummi/mcp.go:112-124 | a reply after cancellation, a failed write or an answer reaches nobody, while the id counter has not wrapped |
| McpClient.RoutedToItsCall | cmd/gummi/mcp.go:102-126 | an idle reader takes a frame for a call in flight if and only if it carries that call's id and is the first to |
| McpClient.IdsAgree | cmd/gummi/mcp.go:129-130 | two requests share an id if and only if the 64-bit counter wrapped between them |
| McpClient.WrappedCallTakesTheEntry | cmd/gummi/mcp.go:135-138 | past a wrap, and only then, a request takes another's entry |
| AttachmentLinks.MatchIsPattern | internal/attachment/attachment.go:62-65 | the matcher finds at a place exactly what the pattern accepts from there, and there is only one way to |
| AttachmentLinks.MatchesInOrder | internal/attachment/attachment.go:254-255 | matches are disjoint and in document order |
| AttachmentLinks.MatchesMissNone | internal/attachment/attachment.go:254-255 | every place where the pattern matches is inside one of them |
| AttachmentLinks.ScanRefs | internal/attachment/attachment.go:250-267 | lists the ids the matches name, first occurrences only |
| AttachmentLinks.FirstOnesListsOnce | internal/attachment/attachment.go:250-267 | each id once, in the order they first appear, and all of them |
| AttachmentLinks.WrittenLinkIsRead | internal/attachment/attachment.go:234-267 | a link written for a known type is read back whatever text is around it, even text that opens a link of its own |
| AttachmentLinks.LinkShows | internal/attachment/attachment.go:241-248 | a link shows the name the image was uploaded under, or its file when that is missing or would break the alt text, and leads to the file, its id with the extension of its type |
| AttachmentLinks.OneFileOneImage | internal/attachment/attachment.go:234-248 | two links lead to one file if and only if they are of one image and one type |
| AttachmentLinks.ReadAnywhereIff | internal/attachment/attachment.go:234-267 | a link is read back from every text that holds it if and only if its id is one and its type is known |
| AttachmentLinks.UnknownTypeIsNotRead | internal/attachment/attachment.go:241-248 | a link for an unknown type names nothing |

## Left out

- Turns, tool counts, verdicts, context peaks and the model name of a pass, and the card's hands, judgment, envelope and ratios: tallies that move no other figure.
- ToVerified of the clock: a second scan for one event kind beside ToFirstGate.
- The pass key joined with NUL bytes in markRedone and attachSpend is a record, so a name that holds a NUL is told apart where the code would not.
- SpendFiling.KeyOf: renders the nanoseconds of any time; the range in which UnixNano is defined is not modelled.
- Floating-point rounding: credits and costs are reals, so what a rounding error would move across the crumb is not modelled.
- The sort of rows and spans is modelled by its result, a sorted permutation that is stable where the code asks for it.
- JSON and YAML decoding, file and socket I/O, HTTP, child processes, clocks and randomness: decoded events, classed lines, outcomes and figures are inputs.
- ClaudeLedger.Meter.SettleOrder: the helper models are settled in any order with the session's own last, where the code sorts their names.
- OpencodeTurns.Session.DecideFinal: what the turn reported and whether it relayed anything are read in one step with the idle flag, and a full event channel is not modelled; a closed session may drop the event at any time.
- OpencodeText.Relay.BusEmit: a slice and the prose it adds to the turn's message go out in one step, and a full event channel is not modelled.
- Liveness: that a bus reconnects, a server answers or a turn ends in time; a timer is a step that may come at any moment.
- Opencode permissions, forms, child sessions, step usage, and the 1.x message bookkeeping beside its text parts.
- A `length` step's error relayed in mid-turn ends no turn and is not counted.
- Unquoting a C-quoted path is a parameter of the diff modules; a written diff needs paths that take no quotes.
- Diff text is modelled by characters, where the code counts bytes; every mark it looks for is one byte.
- Lines, which splits a diff, and the loss of a final newline: the lines are the input.
- A config file's missing final newline is added by the code; the model's lines all end in one.
- How the YAML decoder places keys, and flow mappings on one line: each line comes classed as a key's own, an unindented comment, blank or other, and rendering a value is a parameter.
- The name check, the workflow setting and the atomic write of a config file.
- Sniffing, storing, sizing and looking up attachments; an id is any 64 hexadecimal digits.
- Marshalling of request parameters and responses: a frame is its id and its body, and a request refused before it is written is one step.
