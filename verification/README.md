# Gnoracle: a verified model

Gnoracle is a price and event oracle on gno.land. Providers run an off-chain
agent that fetches samples, aggregates them and submits one integer per round;
a community bot announces chain events and cranks rounds; a command line tool
keeps the salts of sealed dispute votes; and two permanent realms, the core and
the DAO, hold stakes, bonds, credits and fees. This project models the parts of
that system whose correctness is not visible in any single function and proves
what they keep over every input and every run.

| file | models |
|---|---|
| `Basics`, `Decimal`, `Strings`, `Totals` | int64 arithmetic, decimal texts, byte strings, sums over records |
| `Median`, `Value`, `Format`, `Drift` | samples to a value, value to an integer, integer to text, the sanity band over many rounds |
| `Blocks`, `Watcher`, `Bot` (module `BotScan`), `BotState` | the bot's cursor over blocks, its marks and its weekly pruning |
| `CatchUp`, `Schedule`, `Paging` | the adaptive batch, the round schedule and the chain's own list of due rounds, the paged views |
| `AgentState`, `Agent`, `AgentRuns`, `AgentOrder` | the provider agent's tick, and runs with errors, crashes, restarts, seatings and schedule changes |
| `Commitment`, `VoteKeeper` | the commitment message and the two-file salt protocol |
| `JsonPath` | the path splitter and the walk through a JSON tree |
| `Books` (module `CoreBooks`), `CoreCalls`, `CoreRuns`, `CoreLedger` | the core realm's ledger: every mutator that moves value or drops a record, and runs of them |
| `Disputes` | the bonds of disputes and the routing of an outcome |
| `DaoLedger`, `DaoRuns` | the ugnot side of the DAO's books, and runs of its calls |
| `AuthSpec`, `Governance` | authority descriptions, the timelocked transfer and the freeze |

## How it is modelled

Programs that change state are classes whose methods are proved against
functions on values (`AfterTick`, `Scanned`, `AfterCommit`, `Routed`, the
functions `After`, ...); the theorems about runs are lemmas about those
functions, over sequences of arbitrary steps. What the programs learn from
outside (views, transaction results, clocks, fetched values, write errors,
gas) is an arbitrary parameter of each step. A panic of a realm is a method
that reports false; the chain reverts such a call.

Three results differ from what the documentation says:

* The vote keeper's comments promise that a failed change never loses the salt
  that is on chain. `VoteKeeper.AlwaysHeldExactly` gives the exact condition
  over whole runs, and two lemmas concrete losses: the tool takes every
  transaction error for "not committed" (cmd/gnoracle/main.go:708-711), and
  it empties the pending file of an interrupted commit before it writes a new
  one (cmd/gnoracle/main.go:703-706).
* The registry bounds each forfeiture share but not their sum
  (core/params.gno:73-74). `Disputes.SharesFitExactly` shows that a sum of at
  most 10000 bps is exactly what keeps a dispute from taking other disputes'
  bonds.
* A batch maximum that is no power of two can be overshot
  (agent/agent.go:360-362); `CatchUp.BatchStaysBounded` gives the true bound.

Assumptions a reader should know:

* A tick is one step: its transaction executes under the slot and schedule its
  view showed, and no other runner changes the shared state file in between,
  although the runners are goroutines (agent/agent.go:60-72). The file's writes
  themselves are serialised by the state's lock.
* For rounds to increase, what shows a feed under one start shows one schedule,
  at times that do not go back, with no other start between
  (`AgentOrder.Timely`). Seatings are steps of the run: the chain refuses a
  round before the seat owes (`AgentRuns.Admits`).
* For the drift bound the views are quiet (`Drift.Quiet`): the feed is numeric,
  without override, and after the first submission of a schedule no submission
  sees a newer public value. The bound also needs the memory: each later
  submission finds a value of the schedule remembered (`Drift.Remembering`).
  `Drift.MemoryExactly` shows that this is exactly what is needed,
  `Drift.ForgottenFirstDrifts` a run that lacks it, and
  `Drift.CarefulRunRemembers` where it always holds. Values are unbounded
  integers there.
* A vote transaction executes in the ballot phase and round its view showed.
* Scan runs start from a positive cursor and heads do not fall below it; a
  cursor of zero and a shorter chain are modelled in `BotScan.Bot.PlaceCursor`
  and left out of the run theorems.
* One voter per home directory, as the vote file's name does not hold the
  voter; the choice is already upper-cased; the hash is an arbitrary function,
  and the theorems about lost openings assume that it has no collisions and
  that salts are fresh. A file cut off in writing reads as no record.
* The schedule's times stay within int64.
* The coins of the core and the DAO together stay within int64. Bookings are
  modelled in int64 arithmetic; `CoreRuns.CallExact` says exactly when one
  leaves the books unsound, `CoreRuns.FundedFits` that attached coins never do.
* The upgradeable proxy is not part of this model: it is assumed to admit the
  callers of its authority (a key by address, a realm by path), to hand over
  for an admitted caller while not frozen, and to stay frozen. A second freeze
  is modelled as accepted without effect.

## Model

| member | source | states |
|---|---|---|
| Value.Aggregate | agent/value.go:27-71 | read off the samples: an error exactly when too few answered or no label is strictly ahead; otherwise an answer with at most half of the answers (rounded down, without itself) below it and more at most it, or the label with strictly more votes than any other |
| Value.AggregateDecides | agent/value.go:27-71 | the median of the collected numbers and the plurality of the collected labels are what the samples decide by counting them |
| Value.AggregateNumbers | agent/value.go:34-46 | the collect, sort and pick-the-middle path returns a lower median (by counts of smaller and equal values), or the shortfall |
| Value.AggregateLabels | agent/value.go:47-70 | the counting path returns the strict plurality, or the shortfall, or the tie |
| Value.CountLabels | agent/value.go:48-57 | the counts are the multiplicities of the answered labels |
| Value.MostVoted | agent/value.go:58-67 | visiting the counts in any order finds a most voted label and whether another has as many |
| Value.SortSlice | agent/value.go:44 | the library sort: an ascending permutation, in place |
| Value.AggregateIgnoresOrder | agent/value.go:30-71 | any permutation of the sources and any order of the map loop give the same answer |
| Value.AggregateFaultTolerance | agent/value.go:34-46 | with at most (n-1)/2 arbitrary answers and the others in [lo, hi], the aggregate is in [lo, hi] |
| Median.SortedMiddleIsMedian | agent/value.go:44-46 | the element at (n-1)/2 of the sorted values is the lower median defined by counts alone |
| Median.MedianUnique | agent/value.go:46 | two lower medians of the same values are the same number |
| Median.FaultTolerance | agent/value.go:34-46 | a lower median cannot be moved out of [lo, hi] by fewer than half of the values |
| Median.CountsOfImage | agent/value.go:34-46 | an order-preserving image of the values keeps the median |
| Value.ScaleToInt | agent/value.go:75-97 | the integer nearest to the scaled value, a tie going away from zero; refused exactly when there is no value or that integer leaves int64 |
| Value.OnlyNearest | agent/value.go:84-93 | one integer and no other is nearest |
| Value.RoundIsNearest | agent/value.go:84-93 | the quotient of the doubled numerator is the nearest integer, a tie going away from zero |
| Value.RoundUnique | agent/value.go:84-93 | only one integer is nearest in that sense |
| Value.NearestMonotone | agent/value.go:84-93 | rounding never swaps two values |
| Value.ScaledMonotone | agent/value.go:77-97 | scaling and rounding is monotone |
| Value.RoundingCommutesWithMedian | agent/value.go:34-97 | when all samples fit, the scaled median is the lower median of the samples' nearest integers, it is the nearest integer to the median, and it fits |
| Format.PrintAndReadBack | agent/value.go:99-114 | the printed value reads back as itself at the same decimals if and only if it is not the smallest int64 at positive decimals |
| Format.ReadBackPointed | agent/value.go:103-113 | for every other value the text denotes exactly v / 10^decimals |
| Format.ReadBackWhole | agent/value.go:101-102 | without decimals the text denotes v |
| Format.SmallestDoesNotReadBack | agent/value.go:104-107 | the smallest int64 prints two signs, which no decimal reader accepts |
| Format.TextIsPlain | agent/value.go:101-113 | character by character: a sign for negative values, the whole part without leading zeros, a point, and the rest in exactly as many digits as there are decimals |
| Drift.BandStep | agent/value.go:120-131 | a value inside the band is within bps of the reference from both sides and, below 100%, has its sign |
| Drift.BandExactly | agent/value.go:120-131 | the band around a reference above or below zero is the interval from bps below it to bps above it, and around zero it is zero alone |
| Drift.SubmissionFollows | agent/agent.go:400-446 | a submission checked against a remembered own value is in the band of the accepted submission that value came from |
| Drift.MemoryExactly | agent/agent.go:400-446 | when no public value leads, every value an accepted tick can send is in the band of an earlier submission of the schedule if and only if the agent remembers a value of it; without one it sends any value it fetches |
| Drift.CarefulRunRemembers | agent/agent.go:228-431 | a value is remembered at every submission after the first over every run on one chain and schedule whose saves succeed and whose transactions never land with an error, restarts included |
| Drift.ForgottenFirstDrifts | agent/agent.go:415-431 | a concrete run: a first submission of 1 that landed with an error is forgotten, and 1000000 follows it under a band of one percent |
| Drift.RunIsChained | agent/agent.go:161-446 | over every run with quiet views in which each submission after the first finds a remembered value: every accepted value but the first of a schedule is in the band of some earlier one |
| Drift.DriftAbove | agent/agent.go:161-446 | so over every such run a value with r submissions before it is at most (1 + bps/10000)^r times the first, in exact integers |
| Drift.DriftBelow | agent/agent.go:161-446 | and below 100% at least (1 - bps/10000)^r times the first, with its sign |
| Drift.CarefulDrift | agent/agent.go:161-446 | both bounds over every run with quiet views on one chain and schedule whose saves succeed and whose transactions never land with an error, with nothing assumed of the memory |
| BotState.State.Once | bot/state.go:75-84 | grants exactly the unmarked keys and marks them |
| BotState.State.Due | bot/state.go:86-96 | grants exactly when the key was never attempted or its interval has passed, and stamps granted keys only |
| BotState.State.Prune | bot/state.go:50-59 | both loops over the marks keep exactly what is at most seven days old |
| BotState.State.Save | bot/state.go:46-73 | pruned marks stay in memory, and the file is replaced when written |
| BotState.PrunedDueAgrees | bot/state.go:46-96 | for intervals up to a week and a second, every answer is the one a store that never forgets would give |
| BotState.LongerIntervalIsForgotten | bot/state.go:50-59 | for every longer interval some history is cut short by the pruning, so that bound is exact |
| BotState.AttemptsSpaced | bot/state.go:86-96 | two granted attempts on a key are at least the interval apart |
| BotState.OncesSpaced | bot/state.go:75-84 | two grants of a mark are more than a week apart |
| Blocks.BlockOrdered | internal/gnochain/rpc.go:130-176 | a block yields an event if and only if one of its successful transactions emitted it as a realm event of a watched package with a selected type; each once, in transaction and event order |
| BotScan.Bot.Fetch | internal/gnochain/rpc.go:144-176 | the loops over transactions and raw events collect exactly the realm events of watched packages of the successful transactions |
| Blocks.KeyInjective | bot/watcher.go:42-44 | height, transaction and event index in the mark identify the place of an event |
| BotScan.Bot.Scan | bot/watcher.go:13-54 | from a cursor on the chain the scan passes the heights up to the head, the per-tick limit or the first block that does not load; if nothing above the cursor is marked it announces exactly the selected events on chain at those heights |
| BotScan.Bot.ScanTo | bot/watcher.go:31-54 | the loop stops at the first block that does not load and has then passed exactly the ones before |
| BotScan.Bot.PostBlock | bot/watcher.go:37-51 | the loop over a block posts the selected events that carry no mark |
| BotScan.Bot.PlaceCursor | bot/watcher.go:19-30 | a cursor of zero goes before the configured start, or before the head when that is not on the chain; one above the head goes before the head; any other stays |
| BotScan.ShownIsSound | bot/watcher.go:13-54 | the run theorems below apply to every configuration and every chain |
| Watcher.ScanAnnouncesRange | bot/watcher.go:13-54 | from a clean cursor a scan appends exactly the events of the blocks it passes |
| Watcher.AnnouncedOnceInOrder | bot/watcher.go:13-54 | over every run without a restart the log is exactly the selected events of the heights passed, in order, once each |
| Watcher.NothingMissed | bot/watcher.go:13-54 | over every run with restarts from the last save anywhere, no event of a height passed is missing |
| Watcher.SavedNeverRepeats | bot/state.go:46-73 | what is announced after a save lies above the saved cursor, so only events since the save can repeat |
| Watcher.RepeatsAreCrashes | bot/watcher.go:13-54 | over every run with restarts from the last save anywhere, an event is announced at most once more than the bot crashed |
| Watcher.RangeDistinct | internal/gnochain/rpc.go:130-176 | a range of blocks lists no event twice |
| BotScan.EveryBotAnnounces | bot/watcher.go:13-54 | for every configuration and chain and every run with restarts: every selected event on chain between the first cursor and the last is announced; without restarts the log grows by exactly those, each once, in the order of the chain |
| CatchUp.FeedRunner.Crank | agent/agent.go:325-364 | the retry loop halves while out of gas and above one, doubles after a full success below the maximum, and remembers the batch |
| CatchUp.Bot.CrankFinalize | bot/cranker.go:68-101 | the bot's loop keeps the same discipline per feed |
| CatchUp.CrankedExactly | agent/agent.go:342-364 | a call starts at the remembered batch, or at the maximum without one; its k-th attempt asks for the 2^k-th part of that, and it goes on exactly while that runs out of gas and is more than one; it leaves twice what a full success below the maximum sent, and otherwise what was sent |
| CatchUp.BatchStaysBounded | agent/agent.go:342-364 | the batch stays between 1 and max(M, 2M-2) whatever the chain answers; doubling can pass a maximum that is no power of two |
| CatchUp.RetriedBatchFits | agent/agent.go:342-364 | with a gas capacity c, a call that halved ends with a batch of at most c and at least half of c |
| CatchUp.HalvingSettles | agent/agent.go:342-364 | after a halving the remembered batch is at most twice the capacity |
| CatchUp.AtMostOneRetryLater | agent/agent.go:342-364 | once any call had to halve, every later call retries at most once |
| CatchUp.GrowsBack | agent/agent.go:355-362 | while every call finalises all it asks for, the batch doubles with each until it has reached the maximum |
| Schedule.CurrentExactly | internal/gnochain/schedule.go:16-33 | the current round is r exactly when OpenAt(r) <= now < OpenAt(r+1) |
| Schedule.OpenIsCurrent | internal/gnochain/schedule.go:35-41 | an open round is the current one, so at most one is open |
| Schedule.ClosedMonotone | internal/gnochain/schedule.go:43 | closedness is monotone in time and downward closed in rounds |
| Schedule.CrankPassesExactly | bot/cranker.go:59-67 | the crank guard passes exactly when the next unfinalised round exists and closed at least the delay ago |
| Schedule.Finalisable | gno.land/p/clockwork/gnoracle/rounds/v0/rounds.gno:120-147 | the chain's loop lists rounds beyond the last finalised one whose submit window has passed, in order, and leaves none out unless the limit is reached |
| Schedule.CrankAgreesWithChain | agent/agent.go:314-323 | the off-chain guard at no delay passes exactly when the chain has a round to finalise, the same one |
| Schedule.CurrentMonotone | internal/gnochain/schedule.go:16-25 | the current round never goes back |
| Paging.AllFeeds | internal/gnochain/views.go:479-492 | over a growing list the loop ends and returns a prefix of the final list that covers everything present at the start |
| Paging.AllDisputes | internal/gnochain/views.go:524-537 | the same for the dispute pages, whose ids count from one and whose total decides |
| Paging.Subscribers | internal/gnochain/views.go:595-614 | a standing list served with a more flag is returned whole |
| Paging.StandingListIsWhole | internal/gnochain/views.go:479-537 | a list that does not grow is returned whole: every item once, in order |
| Paging.SlotOf | internal/gnochain/views.go:93-101 | the first slot the address holds, or -1 exactly when it holds none |
| AgentState.State.Update | agent/state.go:63-72 | changes one feed's record by the given function and no other |
| AgentState.State.Snapshot | agent/state.go:74-82 | a copy of the feed's record, or the empty one |
| AgentState.State.ForChain | agent/state.go:84-95 | forgets everything exactly when another chain was recorded, and records the current one |
| AgentState.State.Save | agent/state.go:97-116 | the file becomes the memory when written and stays otherwise |
| AgentState.State.Start | agent/state.go:34-50 | a start restores the file's feeds on the same chain and nothing on another |
| Agent.FeedRunner.Tick | agent/agent.go:161-306 | a tick has exactly the effect of the stepwise function AfterTick on memory, file, chain log and runner fields |
| AgentRuns.TickSendsExactly | agent/agent.go:161-446 | a tick adds a submission to round r exactly if all the agent's rules hold: feed served, seat and obligation known, the jitter past and the timeout and two seconds left before startAt + r*interval + submitWindow, round not remembered and not on chain, value near enough to the reference, transaction landed |
| AgentRuns.InTimeIsCurrent | agent/agent.go:246-252 | in time for a round means that it is the current one, inside the window, and open |
| AgentRuns.TickRemembers | agent/agent.go:425-428 | a submission known to have landed is remembered with its round and value, and saved if the file is written |
| AgentRuns.TickLearns | agent/agent.go:258-260 | a submission found on chain is remembered with its round |
| AgentRuns.TickKeeps | agent/agent.go:216-225 | whatever else happens a record is kept, or emptied under a new schedule start |
| AgentRuns.TickObliges | agent/agent.go:206-215 | the obligation is read once per slot, and again after a transaction that came too early |
| AgentRuns.TickClaimsExactly | agent/agent.go:282-304 | the claim time moves exactly when the cadence has passed and the claim went through |
| Agent.FeedRunner.Submit | agent/agent.go:367-431 | a submission passes the sanity check, is recorded when committed, and otherwise leaves the memory as it was |
| AgentRuns.LastRoundGrows | agent/agent.go:228-256 | under one schedule start a remembered round is never forgotten or lowered |
| AgentRuns.SubmitsBeyond | agent/agent.go:228-275 | a tick submits only beyond the remembered round |
| AgentRuns.TickKeepsGood | agent/agent.go:216-275 | every tick keeps: one submission per schedule start, round and slot, and nothing remembered that is not on chain |
| AgentRuns.NeverSubmitsTwice | agent/agent.go:161-306 | over every run of ticks, errors, crashes, restarts, chain, slot and schedule changes: at most one accepted submission per feed, schedule start, round and slot, and memory and file hold only what is on their chain |
| AgentRuns.NewSeatOwesLater | gno.land/r/clockwork/gnoracle/core/impl/v1/providers.gno:49-64 | any round current before a provider is seated precedes the first round it then owes |
| AgentOrder.RoundsStrictlyIncrease | agent/agent.go:161-306 | over every run of ticks, restarts and seatings, the accepted submissions of a feed under one schedule have strictly increasing rounds, each current at some tick: the chain refuses rounds before the seat owes, and a new seat owes from beyond every round served from other slots |
| AgentOrder.NeverTwiceInARound | gno.land/r/clockwork/gnoracle/core/impl/v1/rounds.gno:24-36 | so over every run a provider is accepted at most once per feed, schedule start and round, whatever slots it held |
| AgentOrder.AllSentInTime | agent/agent.go:246-275 | over every run each accepted submission was sent by a tick with startAt + r*interval + jitter <= now and now + timeout + 2 < startAt + r*interval + submitWindow, so to an open round, under all the agent's other rules |
| AgentOrder.SendsWhenItMay | agent/agent.go:246-275 | and in every run a tick that may send to a round its seat owes does, if the transaction lands |
| AgentOrder.RestartKeepsExactly | agent/state.go:34-50 | a restart on the same chain keeps what is remembered of a feed if and only if the file holds it |
| AgentOrder.SavedRunHolds | agent/state.go:97-116 | over every run whose saves succeed the file holds everything remembered at all times |
| AgentOrder.RoundsIncrease | agent/agent.go:228-275 | while the schedule start stands, across ticks and restarts whose file holds the feed, the remembered round grows and every submission is beyond it |
| AgentOrder.SavedRoundsIncrease | agent/agent.go:228-275 | so it does across all restarts of a run whose saves succeed |
| AgentOrder.UnsavedRoundIsForgotten | agent/state.go:97-116 | after one failed save a restart forgets the round, although the chain holds the submission |
| Commitment.MessageInjective | internal/gnochain/commitment.go:20-34 | equal messages have equal dispute, round, choice, salt and voter, for any salt at all |
| Commitment.ToolAndChainAgree | gno.land/p/clockwork/gnoracle/tally/v0/tally.gno:125-137 | the tool hashes the text that the chain hashes |
| VoteKeeper.InterruptedCommitIsPending | cmd/gnoracle/main.go:697-713 | a commit stopped between transaction and rename leaves the opening in the pending file |
| VoteKeeper.LandedErrorLosesVote | cmd/gnoracle/main.go:708-711 | a transaction that lands although an error is reported leaves a commitment that no file opens |
| VoteKeeper.PhasesMoveOn | cmd/gnoracle/main.go:675-677 | time does not lead from the reveal phase back to the commit phase |
| VoteKeeper.Cli.Commit | cmd/gnoracle/main.go:653-713 | accepted exactly for a valid choice before the commit deadline; the choice made before keeps its commitment, any other gets one over the text the chain hashes; chain and both files for every way the writing and the transaction can end |
| VoteKeeper.Cli.Reveal | cmd/gnoracle/main.go:715-759 | sends exactly the saved choice and salt, exactly in the reveal phase for the recorded voter; the record may be lost in its rewriting, whose error is ignored |
| VoteKeeper.HonestStepKeepsExact | cmd/gnoracle/main.go:653-759 | a commit that ends in success or a clean failure, and a reveal that ends in any way, keep the record of every unrevealed ballot the opening of the chain |
| VoteKeeper.RecordAlwaysOpensChain | cmd/gnoracle/main.go:653-759 | over every run of such steps the saved record of a ballot still to be revealed opens, by the text the chain hashes, exactly the commitment on chain |
| VoteKeeper.HeldExactly | cmd/gnoracle/main.go:685-713 | for every way a commit can end, some file still opens the commitment on chain if and only if the commit is not one of the losing kinds |
| VoteKeeper.GenuineKept | cmd/gnoracle/main.go:696-704 | every step keeps every saved or pending record the opening of its own commitment |
| VoteKeeper.AlwaysHeldExactly | cmd/gnoracle/main.go:653-759 | over every run from empty files, with fresh salts and any fates, the opening is held at all times if and only if no step was a losing commit |
| VoteKeeper.FullDiskLosesVote | cmd/gnoracle/main.go:703-706 | after an interrupted commit, a changed choice whose pending file is emptied and cannot be written leaves no opening |
| JsonPath.SplitPathSteps | agent/adapters.go:185-208 | the nested loops compute the steps of the path |
| JsonPath.CutClosed | agent/adapters.go:190-204 | a name before an index, if any, and the text in the brackets are a step each, and the part goes on after them |
| JsonPath.CutUnclosed | agent/adapters.go:190-202 | an index whose bracket is not closed, or comes after a stray closing one, takes all that is left of its part |
| JsonPath.SplitInvertsRender | agent/adapters.go:185-208 | splitting a printed step list returns the steps |
| JsonPath.ExtractJSONPath | agent/adapters.go:145-183 | the descending loop computes the walk along the steps, with its error cases |
| JsonPath.WalkFollowsSteps | agent/adapters.go:155-175 | the walk along the step texts reaches the value at the steps |
| JsonPath.WalkExactly | agent/adapters.go:155-175 | the walk passes from child to child and fails at the first step under which the value reached has none, with the error of that case |
| JsonPath.ExtractInvertsRender | agent/adapters.go:145-208 | extraction along the printed path of any value gives a number's or string's text, true or false, or reports a null or a container |
| CoreBooks.NoCategoryNegative | gno.land/r/clockwork/gnoracle/core/money.gno:9-24 | no category is negative, and no single record exceeds its category |
| CoreBooks.CoveredPayoutIsFunded | gno.land/r/clockwork/gnoracle/core/money.gno:65-81 | a payout covered by a category is covered by the balance, so the balance check of a send never fails |
| CoreBooks.InflowGuardExact | gno.land/r/clockwork/gnoracle/core/state.gno:492-504 | the booking guard lets exactly covered amounts through, unless the sum leaves int64, when it passes with nothing behind it |
| CoreBooks.AttachedCoinsPass | gno.land/r/clockwork/gnoracle/core/state.gno:492-504 | coins attached to the call always pass the guard and never reach that overflow |
| CoreRuns.CallExact | gno.land/r/clockwork/gnoracle/core/state.gno:489-504 | any call of the realm on sound books leaves them sound if and only if what it books fits int64, and then every coin that arrived and was not booked is surplus |
| CoreRuns.SoundExactly | gno.land/r/clockwork/gnoracle/core/money.gno:9-36 | over every run of calls from empty books, the books are sound throughout if and only if no booking leaves int64 |
| CoreRuns.SurplusGrows | gno.land/r/clockwork/gnoracle/core/money.gno:9-14 | between any two moments of such a run the surplus grows by at least what arrived and was not booked |
| CoreRuns.FundedFits | gno.land/r/clockwork/gnoracle/core/state.gno:489-504 | calls that never book more than has arrived never leave int64 |
| CoreRuns.RunStaysSolvent | gno.land/r/clockwork/gnoracle/core/money.gno:9-36 | over every run of calls that book what arrived, from empty books: each category is the sum of its records, none is negative, they never exceed the balance, and the surplus covers what arrived and was not booked |
| CoreBooks.CutAddsUp | gno.land/r/clockwork/gnoracle/core/state.gno:1283-1333 | tip, equal shares and dust add up to the round's pool, and the dust is less than one more unit each |
| CoreBooks.RoundPaidSettles | gno.land/r/clockwork/gnoracle/core/state.gno:1283-1333 | a round's payout keeps the books matched and covered |
| CoreBooks.RoundPaidExactly | gno.land/r/clockwork/gnoracle/core/state.gno:1283-1333 | what a round takes from pool and carry, and what of it goes to cranker, providers and carry, in exact floors |
| CoreBooks.AllEarnEverywhere | gno.land/r/clockwork/gnoracle/core/state.gno:1319-1323 | each provider's rewards grow by one share for every time it is listed, and no other record changes |
| CoreRuns.PayoutsDrip | gno.land/r/clockwork/gnoracle/core/state.gno:1283-1333 | over every run, k payouts of a recurring feed lower its pool by exactly Min(k*drip, pool) while nothing else touches its pool and drip |
| CoreBooks.MissSlashedSettles | gno.land/r/clockwork/gnoracle/core/state.gno:1350-1386 | a miss slash keeps the books matched and covered, and its alerter is always funded |
| CoreBooks.DisputeSlashedSettles | gno.land/r/clockwork/gnoracle/core/state.gno:1518-1581 | a dispute slash keeps the books matched and covered |
| CoreBooks.SplitPaidMatched | gno.land/r/clockwork/gnoracle/core/state.gno:1165-1173 | the two parts of a subscription payment add up to it |
| Basics.MulBpsExact | gno.land/r/clockwork/gnoracle/core/state.gno:1679-1683 | the two-step share is the exact floor of a*bps/10000, never more than a |
| CoreLedger.Core.FeesPay | gno.land/r/clockwork/gnoracle/core/money.gno:83-97 | paid exactly when positive, within the per-call cap and covered by the pending fees; no other failure is possible |
| CoreLedger.Core.ForwardFees | gno.land/r/clockwork/gnoracle/core/money.gno:99-113 | the DAO receives exactly the pending fees; nothing happens without a DAO |
| CoreLedger.Core.FundVoters | gno.land/r/clockwork/gnoracle/core/hooks.gno:68-91 | bonds move to the DAO and are booked there as rewards; refused exactly without cover, DAO or ballot |
| CoreLedger.Core.Send | gno.land/r/clockwork/gnoracle/core/money.gno:65-81 | pays exactly amounts between one and the balance |
| CoreLedger.Core.Inflow | gno.land/r/clockwork/gnoracle/core/state.gno:492-504 | the booking guard, in int64 arithmetic |
| CoreLedger.Core.NewProvider | gno.land/r/clockwork/gnoracle/core/state.gno:829-845 | books a stake in int64 arithmetic, with the whole new books |
| CoreLedger.Core.ProviderAddStake | gno.land/r/clockwork/gnoracle/core/state.gno:855-865 | books an added stake |
| CoreLedger.Core.ProviderStartUnbond | gno.land/r/clockwork/gnoracle/core/state.gno:912-926 | moves the whole stake to unbonding |
| CoreLedger.Core.ProviderPayUnbonded | gno.land/r/clockwork/gnoracle/core/state.gno:928-945 | pays exactly the unbonded stake, once, and cannot fail for want of coins |
| CoreLedger.Core.ProviderSetStatus | gno.land/r/clockwork/gnoracle/core/state.gno:867-876 | changes a status and no amount |
| CoreLedger.Core.ProviderDelete | gno.land/r/clockwork/gnoracle/core/state.gno:963-971 | drops a record exactly when nothing is owed to it |
| CoreLedger.Core.FeedSetDrip | gno.land/r/clockwork/gnoracle/core/state.gno:622-629 | changes a drip and no amount |
| CoreLedger.Core.FeedDelete | gno.land/r/clockwork/gnoracle/core/state.gno:725-748 | drops a record exactly when it holds nothing and its index entries are gone |
| CoreLedger.Core.RewardPay | gno.land/r/clockwork/gnoracle/core/state.gno:1335-1348 | pays exactly the accrued rewards |
| CoreLedger.Core.RewardForfeit | gno.land/r/clockwork/gnoracle/core/state.gno:947-961 | moves them to the fees |
| CoreLedger.Core.MissSlash | gno.land/r/clockwork/gnoracle/core/state.gno:1350-1386 | takes stake first, then unbonding stake, pays the alerter and carries the rest; accepted exactly when there is nothing to take or provider and feed exist |
| CoreLedger.Core.SlashProvider | gno.land/r/clockwork/gnoracle/core/state.gno:1518-1581 | takes the share of stake and unbonding stake into the bonds and ejects at the major tier |
| CoreLedger.Core.CreditDeposit | gno.land/r/clockwork/gnoracle/core/state.gno:1030-1045 | books a prepaid balance |
| CoreLedger.Core.CreditWithdraw | gno.land/r/clockwork/gnoracle/core/state.gno:1047-1058 | pays exactly covered withdrawals |
| CoreLedger.Core.SponsorPay | gno.land/r/clockwork/gnoracle/core/state.gno:1072-1088 | splits a booked payment between pool and fees |
| CoreLedger.Core.SubscribeFromCredit | gno.land/r/clockwork/gnoracle/core/state.gno:1104-1116 | the same out of a prepaid balance |
| CoreLedger.Core.SplitSubscription | gno.land/r/clockwork/gnoracle/core/state.gno:1165-1173 | the split adds exactly the amount to the categories |
| CoreLedger.Core.NewFeed | gno.land/r/clockwork/gnoracle/core/state.gno:536-550 | books a request with its deposit in escrow |
| CoreLedger.Core.CreditSpendOnFeed | gno.land/r/clockwork/gnoracle/core/state.gno:1251-1270 | escrows deposit and funding out of a realm's credit |
| CoreLedger.Core.FeedActivate | gno.land/r/clockwork/gnoracle/core/state.gno:570-593 | releases the prepayment: a one-off's pool, a recurring feed's split |
| CoreLedger.Core.PayProposer | gno.land/r/clockwork/gnoracle/core/state.gno:1220-1237 | a payment to a proposer as coins, or as credit to a realm |
| CoreLedger.Core.DepositRefund | gno.land/r/clockwork/gnoracle/core/state.gno:1189-1202 | returns deposit and prepayment |
| CoreLedger.Core.DepositToFees | gno.land/r/clockwork/gnoracle/core/state.gno:1204-1218 | keeps the deposit and returns the prepayment |
| CoreLedger.Core.FeedPoolRetire | gno.land/r/clockwork/gnoracle/core/state.gno:1239-1281 | returns a feed's remaining funds, or keeps them as fees |
| CoreLedger.Core.RoundPayout | gno.land/r/clockwork/gnoracle/core/state.gno:1283-1333 | accepted exactly with nothing to pay or with known providers; takes Min(drip, pool) of a recurring feed, a one-off's whole pool, and the carry; the cranker gets the floor of its share, each eligible provider the same part of the rest once per listing, and what does not divide is carried |
| CoreLedger.Core.BountyIn | gno.land/r/clockwork/gnoracle/core/state.gno:1177-1187 | books coins into a pool |
| CoreLedger.Core.BondIn | gno.land/r/clockwork/gnoracle/core/state.gno:1390-1441 | books a bond |
| CoreLedger.Core.BondRelease | gno.land/r/clockwork/gnoracle/core/state.gno:1466-1479 | pays out of the bonds exactly when covered |
| CoreLedger.Core.BondToPool | gno.land/r/clockwork/gnoracle/core/state.gno:1481-1493 | moves bonds to a feed's carry |
| CoreLedger.Core.BondToFees | gno.land/r/clockwork/gnoracle/core/state.gno:1495-1506 | moves bonds to the fees |
| CoreLedger.Core.BondToVoters | gno.land/r/clockwork/gnoracle/core/state.gno:1508-1516 | sends bonds to the DAO, which books them |
| Disputes.Court.NewDispute | gno.land/r/clockwork/gnoracle/core/state.gno:1389-1406 | a bond is booked with its dispute; the bonds stay the sum of what unresolved disputes hold |
| Disputes.Court.Decide | gno.land/r/clockwork/gnoracle/core/state.gno:1416-1427 | the first outcome is recorded; no bond moves |
| Disputes.Court.Appeal | gno.land/r/clockwork/gnoracle/core/impl/v1/disputes.gno:97-121 | only a decided dispute takes an appeal bond, which adds to what it holds |
| Disputes.Court.Roll | gno.land/r/clockwork/gnoracle/core/state.gno:1443-1450 | a rolled ballot moves no bond |
| Disputes.Court.Apply | gno.land/r/clockwork/gnoracle/core/impl/v1/disputes.gno:123-254 | accepted only for a stored, undecided-until-now dispute on a known feed and round with a known outcome and a ready house, and whenever the shares add up to at most the whole exactly then (never "bond accounting short"); carry, voters and fees gain exactly their floors of bond, slashes and lost appeal; every coin that leaves goes to the voters or a release; slashes exactly the refuted seats, and leaves the bonds the sum of the other disputes' bonds |
| Disputes.Court.SlashSeats | gno.land/r/clockwork/gnoracle/core/impl/v1/disputes.gno:199-232 | the loop over the slots slashes each refuted seat once, with escalation, and adds up what was taken |
| Disputes.RoutingConserves | gno.land/r/clockwork/gnoracle/core/impl/v1/disputes.gno:161-254 | fees, voters, carry and payments together gain exactly the bonds and slashes routed; disputer and appellant receive exactly what they are owed and nobody else anything; the bonds shrink by the dispute's own bonds if and only if the two floored shares fit the amount shared |
| Disputes.RoutedExactly | gno.land/r/clockwork/gnoracle/core/impl/v1/disputes.gno:161-254 | for each outcome, what the feed's carry, the voters and the fees gain: an upheld bond's winnerBps share, the votersBps share of bond or slashes and half of what is consumed, and the rest, in exact floors |
| Disputes.EachRefutedPays | gno.land/r/clockwork/gnoracle/core/impl/v1/disputes.gno:199-232 | every refuted seat costs its provider exactly the floor of the tier's share of stake and unbonding stake, stake first, escalated and ejected by the rules |
| Disputes.SharesFitExactly | gno.land/r/clockwork/gnoracle/core/params.gno:72-74 | the shares fit every amount above any floor if and only if they add up to at most 10000 bps, which the registry does not enforce |
| Disputes.OverSplitTakesForeignBonds | gno.land/r/clockwork/gnoracle/core/impl/v1/disputes.gno:187-193 | one permitted change of each default makes an upheld bond of 2500 gnot, the least, leave the bonds 500 gnot below what the other disputes hold |
| Disputes.OnlyRefutedSeatsPay | gno.land/r/clockwork/gnoracle/core/impl/v1/disputes.gno:199-215 | no provider changes unless it holds a seat that submitted a value the dispute refuted |
| Disputes.AllSlashedSettles | gno.land/r/clockwork/gnoracle/core/impl/v1/disputes.gno:199-232 | what leaves stakes and unbonding stakes is what the bonds gain; books sound, surplus unchanged |
| AuthSpec.ParsePaths | gno.land/p/clockwork/gnoracle/authspec/v0/authspec.gno:103-119 | the list is what its fields name without outer space and empty ones; refused exactly for a name that is no realm path, or for naming none |
| AuthSpec.ListExactly | gno.land/p/clockwork/gnoracle/authspec/v0/authspec.gno:103-119 | the same of the path list inside every description |
| AuthSpec.ParseExactly | gno.land/p/clockwork/gnoracle/authspec/v0/authspec.gno:22-119 | a text parses to an authority if and only if, without outer space, it is that kind, a colon, a valid key where there is one, a bar where there are both, and a list naming those realm paths |
| AuthSpec.TextAgreesWithAuthority | gno.land/p/clockwork/gnoracle/authspec/v0/authspec.gno:20-92 | for every text that parses, the kind and realms read off the text are those of the authority it parses to |
| AuthSpec.ParsedPathsAreRealms | gno.land/p/clockwork/gnoracle/authspec/v0/authspec.gno:103-119 | granted paths are realm paths, so the empty path of a user is never granted |
| AuthSpec.ParseInvertsText | gno.land/p/clockwork/gnoracle/authspec/v0/authspec.gno:1-10 | a description in the documented form parses to what it describes |
| Governance.Realm.constructor | gno.land/r/clockwork/gnoracle/core/core.gno:45-50 | the realm starts under the bootstrap key, unfrozen, with nothing pending |
| Governance.Realm.ProposeAuthority | gno.land/r/clockwork/gnoracle/core/core.gno:396-413 | accepted exactly from the authority for a parsable description that is a key or includes the DAO; ready a timelock later |
| Governance.Realm.ExecuteAuthority | gno.land/r/clockwork/gnoracle/core/core.gno:415-435 | accepted exactly from the authority for a ready transfer while not frozen; installs what was proposed and clears it |
| Governance.Realm.CancelAuthority | gno.land/r/clockwork/gnoracle/core/core.gno:452-461 | accepted exactly from the authority while something is pending |
| Governance.Realm.FreezeRealm | gno.land/r/clockwork/gnoracle/core/core.gno:372-383 | accepted exactly from a realms-only authority |
| Governance.Realm.IsAuthority | gno.land/r/clockwork/gnoracle/core/core.gno:437-450 | true exactly for the key in force and the package addresses of the realms in force, although it reads them off two places |
| Governance.AuthSpecAgrees | gno.land/p/clockwork/gnoracle/authspec/v0/authspec.gno:20-92 | the run theorems below apply to this text format, whatever counts as an address |
| Governance.AdmittedIsRecognised | gno.land/r/clockwork/gnoracle/core/core.gno:437-450 | whoever the proxy admits is recognised by its address |
| Governance.AfterGoverned | gno.land/r/clockwork/gnoracle/core/core.gno:372-461 | every call keeps: kept text and proxy agree, realm authorities include the DAO, a frozen one is realms only |
| Governance.AlwaysGoverned | gno.land/r/clockwork/gnoracle/core/core.gno:396-413 | over every run, unless a single key governs, the DAO is admitted |
| Governance.FrozenForGood | gno.land/r/clockwork/gnoracle/core/core.gno:372-383 | once frozen, the authority is realms only, includes the DAO and never changes |
| Governance.TransferWasProposed | gno.land/r/clockwork/gnoracle/core/core.gno:376-461 | every change of authority was proposed at least the timelock earlier under the same authority that executes it, with no other accepted proposal, cancellation or transfer between, and installs exactly the proposed description |
| Governance.TransfersSpaced | gno.land/r/clockwork/gnoracle/core/core.gno:385-435 | two transfers are at least the timelock apart, and so is the first from the start of the run |
| DaoLedger.Dao.SendUgnot | gno.land/r/clockwork/gnoracle/dao/money.gno:49-68 | pays exactly positive amounts that the balance holds and that are attributed, and lowers the attribution |
| DaoLedger.Dao.FeesSync | gno.land/r/clockwork/gnoracle/dao/state.gno:507-524 | attributes exactly what arrived; the stakers' part is the exact floor while the product fits int64, and never more than what arrived |
| DaoLedger.Dao.NewProposal | gno.land/r/clockwork/gnoracle/dao/state.gno:559-574 | a deposit is booked exactly when the guard passes in int64 arithmetic, that is when the coins are there or the sum leaves int64, with the whole new books |
| DaoLedger.Dao.BallotFund | gno.land/r/clockwork/gnoracle/dao/state.gno:756-778 | coins for voters are booked exactly when the same guard passes |
| DaoLedger.Dao.ProposalDepositRefund | gno.land/r/clockwork/gnoracle/dao/state.gno:616-627 | returns a proposal's deposit, once, and leaves the treasury as it was |
| DaoLedger.Dao.ProposalDepositForfeit | gno.land/r/clockwork/gnoracle/dao/state.gno:629-635 | keeps a proposal's deposit in the treasury, once |
| DaoLedger.Dao.MemberPayRewards | gno.land/r/clockwork/gnoracle/dao/state.gno:431-462 | pays a member's rewards and leaves the treasury as it was |
| DaoLedger.Dao.MemberPayFees | gno.land/r/clockwork/gnoracle/dao/state.gno:494-505 | pays a staker's fees and leaves the treasury as it was |
| DaoLedger.Dao.TreasurySendUgnot | gno.land/r/clockwork/gnoracle/dao/state.gno:639-646 | spends at most the treasury |
| DaoLedger.Dao.KourtRedeem | gno.land/r/clockwork/gnoracle/dao/money.gno:240-260 | the proceeds are the treasury's, earlier arrivals are attributed first, and attribution ends equal to the balance; refused exactly for amounts that are not positive and shares the accumulator refuses |
| DaoRuns.CallExact | gno.land/r/clockwork/gnoracle/dao/state.gno:431-646 | after any call on sound books what is attributed is covered by the balance if and only if what the call books fits int64, and then the books are sound and the treasury has lost at most what the call spent of it |
| DaoRuns.CoveredExactly | gno.land/r/clockwork/gnoracle/dao/state.gno:431-646 | over every run of calls from empty books: what is attributed stays covered by the balance and leaves no negative treasury if and only if no booking leaves int64, and then the deposits are the sum of the proposals' throughout |
| DaoRuns.TreasuryKept | gno.land/r/clockwork/gnoracle/dao/state.gno:526-646 | between any two moments of such a run the treasury has lost at most its own spending |
| DaoRuns.RunStaysCovered | gno.land/r/clockwork/gnoracle/dao/state.gno:559-778 | runs whose bookings take coins that are there and not attributed never leave int64 |
| DaoLedger.StakersShareBounds | gno.land/r/clockwork/gnoracle/dao/state.gno:507-524 | the stakers' share in wrapping arithmetic never exceeds what arrived |
| Totals.TotalUpdate | gno.land/r/clockwork/gnoracle/core/money.gno:9-14 | changing one record changes a category by the difference of the two values |

## Left out

- Disputes.Court.Apply: a refused routing leaves the transfers made before the refusal, where the chain reverts the whole call; the contract promises sound books and nothing of the bonds in that case. Whether a seat agrees with the established value (tolerance test) and its count of earlier minor slashes are inputs, and the round's own status changes are not modelled. Acceptance is exact when the two shares cover; with other parameters a call may also be refused for bonds that fall short.
- Disputes.Court.Decide: tier, coherent weight and decision time are not modelled.
- Disputes.Court.Appeal: the appeal window and the bond multiple are not modelled; any bond that arrived is accepted.
- Disputes.Court.NewDispute: promises the accounts only for bonds within int64, as the core's booking does.
- CoreLedger.Core.NewFeed: the id is fresh by requirement, as the source's sequence provides it; the specification and its validation are not modelled.
- CoreLedger.Core.ProviderSetStatus: the slot and the jailing time are not modelled.
- CoreLedger.Core.FeedDelete: the batch of 256 index entries per call is one flag.
- CoreLedger.Core.SubscribeFromCredit: the subscription record is not modelled.
- CoreLedger.Core.RoundPayout: the earned and paid-out statistics are not modelled.
- CoreLedger.Core.MissSlash: the provider's slash counters are not modelled.
- CoreLedger.Core.SlashProvider: epoch counters, total slashed and the cleared slot are not modelled.
- CoreLedger.Core.SponsorPay: the sponsorship and subscription records are not modelled.
- CoreLedger.Core.Receive: coins sent by the core to its own or the DAO's address through an ordinary payment are not followed beyond the core's balance.
- Value.SortSlice: the library sort is known by its contract only; the body is a stand-in.
- DaoLedger.Dao.FeesSync: the per-member fee accumulator behind the stakers' share is only its sign test; the fee, reward and deposit categories are unbounded integers.
- DaoLedger.Dao.NewProposal: of the proposal only proposer and deposit are modelled; the id is fresh by requirement, as the source's sequence provides it.
- DaoLedger.Dao.BallotFund: the ballot record is not modelled; the share booked when a ballot is resolved is booked the same way and always zero in this release.
- DaoLedger.Dao.MemberPayRewards: the PYTH payment and the member record are not modelled, so what is pending is an argument.
- DaoLedger.Dao.MemberPayFees: the member's fee accumulator is not modelled, so its claim is an argument.
- Drift.MemoryExactly: values are unbounded integers; within int64 the earlier bands can cover every value there is, and then nothing out of band is left to send.
- AgentOrder.RoundsStrictlyIncrease: leaving a seat is no step of the runs, as the chain then only refuses more; a chain created anew under the same id is not covered.
- AgentRuns.NeverSubmitsTwice: two agents sharing one key are outside the runs.
- Agent.FeedRunner.Tick: the crank step, alerts, warnings, reminders and the journal are left out of the tick; the crank is CatchUp.FeedRunner.Crank.
- Agent.FeedRunner.Submit: fetching, aggregation, bounds and scaling before the sanity check are one input; the value pipeline is the Value module.
- CatchUp.FeedRunner.Crank: the backoff, the re-read of the feed and the readiness test before the loop are not part of it; the readiness test is in Schedule.
- CatchUp.Bot.CrankFinalize: the retry loop of one feed; the readiness test around it is in Schedule.
- Paging.Subscribers: a list that changes between two pages is not covered, as the source makes no promise for it.
- Watcher.NothingMissed: the time a scan takes is one instant, and posting always succeeds, as the source ignores its result.
- JsonPath.ExtractJSONPath: JSON decoding is library code; a tree is the input, and an index too long for an int is not distinguished.
- Value.ScaleToInt: big.Rat's normal form is not modelled; rationals are compared by cross-multiplication.
- Fetching, RPC, signing, Telegram, files beyond their contents, TOML, SHA-256, bech32 and floating point: I/O and library code.
- Round aggregation and tiers on chain, jailing and epochs, member settlement, the ballot tally, the parameter registry's rate limit, the court mirror realm: other state machines than the ones above.
- MinSources, OptionIndex, the readiness of dispute cranks, entry points that only forward, and Render pages: they would add easy members.
- Release candidates, rollback and the history of the proxy: its package is not part of the repository.
