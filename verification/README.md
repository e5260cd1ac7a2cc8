# Verified model of the RegimeX trading core

A Dafny 4.11 project that models the parts of RegimeX where a mistake costs money and proves what they promise.
`dafny verify dfyconfig.toml` checks all of it.

## What is modelled

**The MT5 execution-intent protocol.** A signal owns one `Position` row and one `ExecutionIntent` row.

- `ExecutionModel` holds the rows, the status sets, the transition table and the single writes.
- `Protocol` is the interleaving model. Every worker activity (an execution attempt, a recovery iteration, a legacy
  adoption, a sweep iteration, a close, a stop change, a stop reconciliation) is a process with a program counter. One
  step is one database read, one database write or one broker call, and what a process read may be stale when it
  writes. A run is any sequence of starts, steps and crashes.
- `Capacity`, `Agreement`, `FailClosed`, `SingleSend`, `Matches` and `Targets` prove what holds over all runs.
  `CapacityLimit`, `Contradictions`, `Resubmission`, `Overlap` and `SweepRaces` prove exactly from which tables some run
  breaks a promise; `Races` builds the runs in which a stale read does.
- `Attempts`, `Execution` and `Upkeep` say what an activity does from start to end when nothing interferes.
- `Integrity` is the same protocol as a class that updates the two tables in place, one helper per method. `Helpers`
  says what each helper does to the two rows of its signal and proves that its small steps, run alone, add up to that.
  `Recovery`, `Expiry` and `CloseRuntime` are the loops built on the class; `Iterations` proves that one iteration of
  the pass or the sweep, taken in small steps, is the iteration those loops perform.

**The indicator library**, over the reals. Each indicator is specified as a function of the prefix that ends at an
index (`SmaLast`, `MacdLast`, `AdxLast`, ...), each loop is a method proved to be `Causal`, that is, to store that
function of its own prefix at every index, and the numeric laws are proved about the functions. `Series` holds the
shared notions, with `MovingAverages`, `Wilder`, `Candles`, `AverageDirectional`, `Trend`, `Bands`, `Channels` and
`Ranks` on top. `RelativeStrength`, `Directional` and `Calibration` say what the values mean: which way they point, and
what they read on a straight line, in a steady trend and on a chart that goes nowhere.

**Smaller state machines.** `Environment` is the DEMO / LIVE switch with arm and disarm, as writes with a crash after
any of them. `RefreshTokens` is rotation in families. `Simulator` and `Drawdown` are the research simulator and its
summary.

## Where the code and its promises part

Each of these is a theorem below, with the exact condition.

- The capacity limit holds in every interleaving except for legacy adoption: that update is unguarded, so of two
  overlapping passes the second revives a row that was opened and closed in between, without a reservation. A user
  within the limit can get past it exactly when one of the user's pending orders has no intent row and stands at the
  broker (`TerminalLeftExactlyByRevival`, `LimitExceededExactly`).
- Attempts that do not overlap fill a signal at most once. They send it at most once unless an order for it is refused
  for its stops, in which case the caller resubmits once (`SentAtMostOnce`, `SecondSendExactly`).
- The duplicate gate is a read, the caller ignores what marking SUBMITTED found, and the adapter looks the signal up
  before its order, so attempts that overlap can fill twice, exactly for a signal with no rows yet or with a still
  resumable pair (`DoubleFillExactlyWhenSendable`).
- Fail-closed marks the intent REJECTED even when its guarded position update matched no row. Without such a miss a
  REJECTED intent never stands over an OPEN position (`RejectedMeansGone`, `MissContradictsExactly`); some run makes it
  stand there exactly for a signal with no rows yet or with a still resumable pair (`RejectedOverOpenExactly`).
- The sweep selects only CREATED, unsubmitted intents, but its rejection re-reads the state alone, so it can reject one
  that was submitted meanwhile, exactly for a signal with no rows yet or with a linked pair that is still resumable
  (`ExpiresLateExactly`).
- A recovery iteration that saw RECOVERED marks PERSISTED whether or not the position could be opened. As one piece the
  iteration is sound (`PassKeepsRowsSound`, `PersistedWithAtomicPasses`), and so is every run in which it does not find
  the position REJECTED at its guarded open (`PersistedMeansOpened`). Some run puts PERSISTED over a REJECTED position
  exactly for a signal with no rows yet or with a linked pair that is still resumable (`LateMarkExactly`).
- One CREATED intent without a positive take-profit makes the startup pass throw and leaves the later intents of the
  list untreated (`RecoverUnresolved`). Such a row has to come from elsewhere: the only caller of the create helper
  returns before it when the proposal has no take-profit (`apps/worker/src/cfd/mt5CfdRuntime.ts:758-765`), and a
  recomputation without one fails the pair closed (lines 1195 and 1800 there). From tables without such a row, runs
  whose orders all have a positive take-profit never make the pass throw (`PassNeverThrows`).
- The startup pass counts a CREATED intent as failed closed whatever the helper released; slots are given back exactly
  for the orders that were still waiting (`PassConservesSlots`).
- A rotation stores the new refresh token before it revokes the old one, so a crash in between leaves two live tokens
  in the family, and every further interruption one more (`LiveTokensCounted`).

Both loops also handle a broker match for an intent that is still CREATED, which they would count as recovered although
no transition leads from CREATED to RECOVERED, BROKER_CONFIRMED or PERSISTED. That branch is defensive: marking SUBMITTED
precedes every order, so no run reaches it (`MatchMeansSubmitted`, `SweepNeverAdopts`, and for the rows taken by
themselves `AdoptionPersistsExactlyUnlessCreated` and `SweepAdoptionLeavesCreated`).

A run starts without a running worker, from any tables in which a PENDING position has its intent's parameters and no
ticket, PERSISTED stands only over an opened or closed position, a CREATED intent carries no submission mark, and a
signal the broker filled has one fill, a position, and no intent that is still CREATED.

Assumptions: signals, users, families and hashes are strings compared by equality; a signal's idempotency key is the
signal; the broker reports a position for a signal only if one of its orders filled (it may fail to report one), and
reports an acceptance only with a fill behind it; an order refused for its stops did not fill; random session families
are unused when drawn.

## Model

| member | source | states |
|---|---|---|
| Capacity.CapacityNeverExceeded | apps/worker/src/cfd/mt5ExecutionIntegrity.ts:225-317 | In every interleaving of attempts, recovery, sweep, close and stop changes, with a crash after any read or write, a user's consumed slots never exceed the larger of the limit and what was consumed at the start, plus the number of stale legacy adoptions of the run |
| Capacity.OnlyCreateRaises | apps/worker/src/cfd/mt5ExecutionIntegrity.ts:225-317 | A step that raises a user's count is the insert of the locked create transaction, or an unguarded legacy adoption |
| Capacity.SlotConservation | apps/worker/src/cfd/mt5ExecutionIntegrity.ts:631-679 | Over any run a signal's slot is its initial value plus creations and revivals minus released=true and applied=true results |
| Capacity.ConsumedConservation | apps/worker/src/cfd/mt5ExecutionIntegrity.ts:761-815 | Over any run the user's consumed count is the initial count plus creations and revivals minus releases and closes |
| Capacity.CreatedAtMostOnce | apps/worker/src/cfd/mt5ExecutionIntegrity.ts:318-420 | However many create calls race, a signal's pair of rows is created at most once in a run |
| Capacity.ReleasedAtMostOnce | apps/worker/src/cfd/mt5ExecutionIntegrity.ts:761-815 | Releases and closes of one signal's slot number at most one more than its revivals, whatever was read before them |
| Capacity.TerminalLeftExactlyByRevival | apps/worker/src/cfd/mt5ExecutionRecovery.ts:197-208 | A step changes a CLOSED or REJECTED status if and only if it is the unguarded legacy-adoption write on that position |
| Capacity.TerminalAbsorbing | apps/worker/src/cfd/mt5ExecutionIntegrity.ts:974-999 | CLOSED and REJECTED keep their status, whatever the origin of the position, through every run without a legacy-adoption write on it, even when the writer's read was stale |
| CapacityLimit.LimitExceededExactly | apps/worker/src/cfd/mt5ExecutionRecovery.ts:165-208 | Some run whose attempts all get at most the limit takes a user who is within it past it if and only if one of the user's PENDING engine positions has no intent and stands at the broker |
| CapacityLimit.StaleAdoptionExceedsTheLimit | apps/worker/src/cfd/mt5ExecutionRecovery.ts:197-208 | From any tables with such a position and for any limit the user is within, the run: two overlapping legacy adoptions read it, one opens it, it is closed, new reservations use up the limit, and the second adoption lands |
| Agreement.FrozenWhilePending | apps/worker/src/cfd/mt5ExecutionIntegrity.ts:448-526 | In every interleaving a PENDING position's volume, stop and take-profit equal what its intent requested, and it has no broker ticket |
| Agreement.PersistedNeverWaiting | apps/worker/src/cfd/mt5ExecutionIntegrity.ts:567-587 | In every interleaving a PERSISTED intent's position is not PENDING or OPEN_REQUESTED |
| Agreement.CreateReturnsThePair | apps/worker/src/cfd/mt5ExecutionIntegrity.ts:318-420 | A create call that goes on to submit, as creator, as a repeat or as loser of a race, does so over both rows of its signal |
| Agreement.BrokenExactlyByLateMark | apps/worker/src/cfd/mt5ExecutionRecovery.ts:97-109 | A step puts PERSISTED over a position that was never opened if and only if it is a recovery iteration's unconditional last mark landing on a REJECTED position |
| Agreement.PersistedMeansOpened | apps/worker/src/cfd/mt5ExecutionIntegrity.ts:974-1022 | In every run in which no recovery iteration finds the position REJECTED at its guarded open, a PERSISTED intent's position is OPEN, CLOSE_REQUESTED or CLOSED |
| Contradictions.LateMarkExactly | apps/worker/src/cfd/mt5ExecutionRecovery.ts:97-109 | Some run puts PERSISTED over a position that was never opened if and only if the signal has no rows yet or its linked pair is PENDING over a CREATED, unsubmitted intent |
| Races.LateMarkOverRejectedHappens | apps/worker/src/cfd/mt5ExecutionRecovery.ts:97-109 | From any linked resumable pair the run: an attempt's order fills and its reply is lost, one recovery iteration marks RECOVERED and crashes, the next reads PENDING, a sweep iteration rejects the position, and the late mark puts PERSISTED over it |
| Races.FailClosedRejectsAnOpenedIntent | apps/worker/src/cfd/mt5ExecutionIntegrity.ts:631-679 | From any linked resumable pair some run of one attempt and one sweep iteration ends with a REJECTED intent over an OPEN position, although fail-closed is meant to leave an opened pair alone |
| FailClosed.RejectedMeansGone | apps/worker/src/cfd/mt5ExecutionIntegrity.ts:631-679 | In every run in which the guarded update of fail-closed never finds the position OPEN, a REJECTED intent's position is REJECTED, CLOSED or CLOSE_REQUESTED, if it was so at the start |
| Contradictions.RejectedOverOpenExactly | apps/worker/src/cfd/mt5ExecutionIntegrity.ts:631-679 | From rows that agree, some run leaves a REJECTED intent over an OPEN position if and only if the signal has no rows yet or its pair is PENDING over a CREATED, unsubmitted intent |
| FailClosed.MissContradictsExactly | apps/worker/src/cfd/mt5ExecutionIntegrity.ts:652-679 | A guarded update that finds the position OPEN, if nothing interrupts the helper, leaves a REJECTED intent over it if and only if the transition table allows the rejection |
| FailClosed.MarkContradicts | apps/worker/src/cfd/mt5ExecutionIntegrity.ts:589-629 | Under any interleaving the rejecting mark contradicts the position if and only if the position is OPEN when the mark is written |
| SingleSend.AtMostOneOrderFills | apps/worker/src/cfd/mt5CfdRuntime.ts:1615-2058 | With attempts serialised per signal, crashes anywhere and the other activities mixed in, a signal's orders fill at most once and are sent at most twice |
| SingleSend.OnlyAttemptsSend | apps/worker/src/cfd/mt5CfdRuntime.ts:779-824 | However attempts overlap, recovery, sweep, close, modify and reconcile activities never send: every order comes from a live attempt on its signal |
| Attempts.FillIsRecorded | apps/worker/src/cfd/mt5CfdRuntime.ts:1623-1684 | An attempt told of a fill, by the acceptance, by the adapter's lookup before the order, by the lookup after an unclear reply or a refusal, or by the lookup at a blocked gate, ends, run alone, with the position OPEN on the fill's ticket and volume and with its intent PERSISTED if and only if that was neither CREATED nor REJECTED; it sends nothing more |
| Attempts.FailureIsClosed | apps/worker/src/cfd/mt5CfdRuntime.ts:1685-1741 | An attempt that fails a check, or whose order is refused for good with no position at the broker, ends, run alone, with its waiting position REJECTED, with it any CREATED, SUBMITTED or AMBIGUOUS intent, and nothing sent; a position that no longer waits stays with its intent |
| Attempts.StopsAreRetried | apps/worker/src/cfd/mt5CfdRuntime.ts:1685-1744 | A refused order without a position at the broker goes back to recompute its stops if and only if it was the first and refused for its stops |
| Attempts.UnclearIsLeft | apps/worker/src/cfd/mt5CfdRuntime.ts:1631-1677 | After an unclear reply without a match the position keeps waiting and a SUBMITTED intent is AMBIGUOUS |
| Execution.FreshAttemptExecutes | apps/worker/src/cfd/mt5CfdRuntime.ts:779-2082 | On a signal without rows, with a free slot and every check passing, an attempt run alone sends one order and ends with the position OPEN on the fill and its intent PERSISTED, with the recomputed parameters and its own creation time, the lock given back and no other row touched |
| Execution.ResumedAttemptExecutes | apps/worker/src/cfd/mt5CfdRuntime.ts:965-1056 | On a waiting, unsubmitted pair an attempt run alone does the same with the frozen parameters and the old creation time, whatever the limit |
| Execution.FullUserIsBlocked | apps/worker/src/cfd/mt5ExecutionIntegrity.ts:225-317 | Without a free slot an attempt on a signal without rows ends with everything as it was, its lock given back |
| Execution.PairIsTaken | apps/worker/src/cfd/mt5ExecutionIntegrity.ts:318-420 | A create transaction that finds the pair, before its insert or by the insert's conflict, goes on to submit it as it is, one that conflicts with a lone row fails; no row changes and the lock is given back |
| Execution.SettledSignalIsBlocked | apps/worker/src/cfd/mt5ExecutionIntegrity.ts:1096-1118 | An OPEN position, or an intent over a position that is missing or not PENDING, stops an attempt at its gate with everything as it was |
| Execution.UnmatchedSignalIsBlocked | apps/worker/src/cfd/mt5CfdRuntime.ts:779-824 | So does a PENDING position whose intent is past resuming when the broker reports no position for it |
| Resubmission.SentAtMostOnce | apps/worker/src/cfd/mt5CfdRuntime.ts:1615-1695 | Serialised attempts send a signal at most once in every run in which no order for that signal is refused for its stops |
| Resubmission.SecondSendExactly | packages/trading-engine/src/broker/mt5/executionIntegrity.ts:62-105 | Some run with serialised attempts sends a signal twice if and only if it has no rows yet or its pair is PENDING over a CREATED, unsubmitted intent; with the row above, every such run contains a refusal for stops |
| Overlap.DoubleFillExactlyWhenSendable | apps/worker/src/cfd/mt5ExecutionIntegrity.ts:1096-1118 | Some run with overlapping attempts fills a signal twice, each attempt having looked it up at the broker before its order, if and only if the signal has no rows yet or its pair is PENDING over a CREATED, unsubmitted intent |
| Overlap.ShutRun | apps/worker/src/cfd/mt5ExecutionIntegrity.ts:422-446 | However attempts overlap, a signal whose pair is not resumable is never sent again |
| Overlap.LoneRun | apps/worker/src/cfd/mt5ExecutionIntegrity.ts:318-420 | However attempts overlap, a signal with only one of its two rows is never sent |
| Helpers.MarkAlone | apps/worker/src/cfd/mt5ExecutionIntegrity.ts:422-446 | The small steps of a mark helper, run alone, take exactly the transitions the table allows and skip the others |
| Helpers.FailClosedAlone | apps/worker/src/cfd/mt5ExecutionIntegrity.ts:631-679 | The small steps of fail-closed, run alone, equal its effect on the two rows in one piece |
| Helpers.PersistAlone | apps/worker/src/cfd/mt5ExecutionIntegrity.ts:894-1023 | The small steps of persisting a broker result, run alone, equal its effect on the two rows in one piece |
| Helpers.TryRecoverAlone | apps/worker/src/cfd/mt5ExecutionIntegrity.ts:1025-1094 | The small steps of recovering from the broker, run alone, equal its effect on the two rows in one piece |
| Integrity.Store.CreatePending | apps/worker/src/cfd/mt5ExecutionIntegrity.ts:216-420 | Inserts the PENDING and CREATED pair exactly when neither row exists and the limit allows it, returns an existing pair unchanged, reports a block otherwise, and throws exactly on a lone row; the count it leaves is within the limit when it grew |
| Integrity.Store.Mark | apps/worker/src/cfd/mt5ExecutionIntegrity.ts:528-625 | Takes a transition the table allows, skips any other, and touches no other signal |
| Integrity.Store.Refresh | apps/worker/src/cfd/mt5ExecutionIntegrity.ts:448-526 | Rewrites the order parameters of both rows or of neither |
| Integrity.Store.FailClosed | apps/worker/src/cfd/mt5ExecutionIntegrity.ts:631-679 | Reports released exactly when the position was PENDING or OPEN_REQUESTED, and then rejects position and intent |
| Integrity.Store.CloseIfCloseable | apps/worker/src/cfd/mt5ExecutionIntegrity.ts:761-815 | Reports applied exactly when the position was in a closeable status, and then closes it |
| Integrity.Store.PersistOpen | apps/worker/src/cfd/mt5ExecutionIntegrity.ts:894-1023 | Opens an openable position from the fill and moves its intent through BROKER_CONFIRMED to PERSISTED as the table allows; leaves any other pair unchanged |
| Integrity.Store.TryRecover | apps/worker/src/cfd/mt5ExecutionIntegrity.ts:1025-1094 | Adopts exactly when the broker holds a match, marking RECOVERED and persisting the fill |
| Integrity.Store.ResolveCreated | apps/worker/src/cfd/mt5ExecutionIntegrity.ts:823-892 | Fails an expired pair closed; otherwise throws exactly without a positive take-profit, awaits resumption exactly with safe stops, and fails the pair closed without them |
| Recovery.RecoverOne | apps/worker/src/cfd/mt5ExecutionRecovery.ts:38-161 | One iteration of the startup pass: how it ends and the two rows it leaves, by the rows it found and the broker's answers |
| Recovery.RecoverUnresolved | apps/worker/src/cfd/mt5ExecutionRecovery.ts:38-161 | The whole pass: each listed signal is treated once from its old rows, no other row changes, each of the four counters is the number of listed signals its name describes, by their old rows and the broker's answers, and it throws exactly when a CREATED intent without a positive take-profit must be resolved, having treated only those before it |
| Recovery.PassOutcomes | apps/worker/src/cfd/mt5ExecutionRecovery.ts:38-161 | An iteration rejects a position if and only if it waited under a never-submitted intent that is over four hours old or unsafe and has no match at the broker, and opens one, on the match's ticket and volume, if and only if the broker holds a match for it |
| Matches.MatchMeansSubmitted | apps/worker/src/cfd/mt5CfdRuntime.ts:1615-1622 | After every run, however attempts overlap, an intent for which the broker can report a position is no longer CREATED |
| Matches.PassResolves | apps/worker/src/cfd/mt5ExecutionRecovery.ts:38-161 | After a pass over the tables of any run, every examined position that is REJECTED, before or because of the pass, has a REJECTED intent, and every one that is OPEN with a ticket has a PERSISTED intent |
| Matches.SweepNeverAdopts | apps/worker/src/cfd/mt5CreatedIntentExpiry.ts:95-180 | A sweep over the tables of any run adopts nothing: every selected linked intent with a waiting position the broker can be asked about expires |
| Targets.PassNeverThrows | apps/worker/src/cfd/mt5CfdRuntime.ts:758-765 | If every order is created and recomputed with a positive take-profit, as the caller makes sure, no pass over the tables of any run throws |
| Recovery.PassKeepsRowsSound | apps/worker/src/cfd/mt5ExecutionRecovery.ts:38-161 | An uninterrupted iteration never leaves PERSISTED over an unopened position, takes no slot and never reopens a terminal position |
| Iterations.PassAlone | apps/worker/src/cfd/mt5ExecutionRecovery.ts:38-161 | The small steps of one recovery iteration, run alone, leave the rows the loop's specification says, for every answer of the broker |
| Iterations.SweepAlone | apps/worker/src/cfd/mt5CreatedIntentExpiry.ts:60-180 | The small steps of one sweep iteration, run alone, leave the rows the loop's specification says, for every answer of the broker |
| Iterations.PersistedWithAtomicPasses | apps/worker/src/cfd/mt5ExecutionRecovery.ts:58-109 | With each recovery iteration one step, crashes allowed inside it and everything else interleaved freely, a PERSISTED intent's position is OPEN, CLOSE_REQUESTED or CLOSED for the rest of every run |
| Recovery.PassConservesSlots | apps/worker/src/cfd/mt5ExecutionRecovery.ts:38-161 | A whole pass keeps every PERSISTED intent over an opened or closed position, and the user's consumed count drops by exactly the waiting orders it fails closed |
| Recovery.AdoptionPersistsExactlyUnlessCreated | apps/worker/src/cfd/mt5ExecutionRecovery.ts:87-109 | On a pair of rows taken by itself, an adoption counted as recovered leaves the position OPEN, and its intent PERSISTED if and only if the intent was not CREATED; by Matches.MatchMeansSubmitted no run meets a CREATED one |
| Recovery.PassConverges | apps/worker/src/cfd/mt5ExecutionRecovery.ts:38-161 | Against unchanged broker answers a third pass over any pair changes nothing |
| Recovery.AdoptLegacy | apps/worker/src/cfd/mt5ExecutionRecovery.ts:163-224 | The second loop opens exactly the pending intentless positions the broker holds a match for, counts them, and leaves the consumed count unchanged |
| Recovery.LegacyOutcome | apps/worker/src/cfd/mt5ExecutionRecovery.ts:163-224 | The second loop opens a row on the match's ticket and volume if and only if it is a PENDING engine position without an intent and the broker was asked and holds a match; any other row stays |
| Upkeep.AdoptionAlone | apps/worker/src/cfd/mt5ExecutionRecovery.ts:163-224 | The small steps of a legacy adoption, run alone, open the position on the match's ticket and volume if and only if it is a PENDING engine position without an intent that the broker reports, and change nothing otherwise |
| Upkeep.ModifyAlone | apps/worker/src/cfd/mt5ModifyRuntime.ts:20-72 | A stop change, run alone, sets the levels the broker accepted if and only if the position is OPEN with a ticket, keeps the stored take-profit when none is given, and touches nothing else |
| Upkeep.ReconcileAlone | apps/worker/src/cfd/mt5CfdRuntime.ts:2411-2428 | A reconciliation sets the broker's levels if and only if the position holds a ticket and is not CLOSED or REJECTED, and touches nothing else |
| Expiry.SweepOne | apps/worker/src/cfd/mt5CreatedIntentExpiry.ts:60-180 | One sweep iteration: how it ends and the two rows it leaves |
| Expiry.ExpireStale | apps/worker/src/cfd/mt5CreatedIntentExpiry.ts:34-180 | The whole sweep: each selected signal is treated once from its old rows, no other row changes, and examined = expired + recovered + skipped with each counter the number of its turns |
| Expiry.SweepCountsEffects | apps/worker/src/cfd/mt5CreatedIntentExpiry.ts:60-180 | A selected intent is counted expired if and only if it ends REJECTED, recovered if and only if the sweep opened its position, and skipped if and only if neither row changed |
| Expiry.ExpiresExactly | apps/worker/src/cfd/mt5CreatedIntentExpiry.ts:60-180 | A selected intent, more than four hours old, ends REJECTED if and only if it is linked and its position is CLOSED, REJECTED, or waiting without a match at a broker that could be asked |
| SweepRaces.ExpiresLateExactly | apps/worker/src/cfd/mt5CreatedIntentExpiry.ts:29-34 | Some run lets a sweep iteration reject an intent that is no longer CREATED and unsubmitted if and only if the signal has no rows yet or its linked pair is PENDING over a CREATED, unsubmitted intent |
| Expiry.RejectedOnlyAfterLookup | apps/worker/src/cfd/mt5CreatedIntentExpiry.ts:95-180 | A stale intent's position becomes REJECTED if and only if it was waiting and the broker was asked and holds no match, and OPEN if and only if it was waiting and the broker holds one |
| Expiry.SweepConservesSlots | apps/worker/src/cfd/mt5CreatedIntentExpiry.ts:152-180 | A whole sweep lowers the user's consumed count by exactly the waiting orders it expires |
| Expiry.SweepAdoptionLeavesCreated | apps/worker/src/cfd/mt5CreatedIntentExpiry.ts:118-150 | On a pair of rows taken by itself, an adopted intent is counted recovered but stays CREATED over its OPEN position, later sweeps skip it and the next startup pass persists it; by Matches.SweepNeverAdopts no run takes this branch |
| Expiry.SweepAgreesWithPass | apps/worker/src/cfd/mt5CreatedIntentExpiry.ts:34-180 | On an expired waiting intent the broker can be asked about, the sweep and the startup pass leave the same rows |
| CloseRuntime.CloseLocal | apps/worker/src/cfd/mt5CloseRuntime.ts:58-149 | The answer for every combination of row, ownership and broker reply, and that the row changes only after the broker confirmed |
| CloseRuntime.BrokerAskedExactly | apps/worker/src/cfd/mt5CloseRuntime.ts:58-98 | The broker is asked if and only if the position exists, is not CLOSED, has a ticket and belongs to the engine; the reply then says whether it agreed, and otherwise which of the four is missing |
| CloseRuntime.CloseAlone | apps/worker/src/cfd/mt5CloseRuntime.ts:58-98 | The small steps of a close, run alone, leave the row that closing one position says |
| CloseRuntime.SaysClosedIsRight | apps/worker/src/cfd/mt5CloseRuntime.ts:67-98 | After every run a reply says closed if and only if it leaves the local row CLOSED: a REJECTED row with a broker ticket never arises |
| CloseRuntime.EmergencyClose | apps/worker/src/cfd/mt5CloseRuntime.ts:151-239 | Exactly the local records of the planned ids the broker agreed to close become CLOSED; an id is on the failed list exactly when the broker failed or no record exists, on the closed list exactly when its guarded close applied, and on neither when another activity closed the record first |
| CloseRuntime.FiledExactly | apps/worker/src/cfd/mt5CloseRuntime.ts:151-239 | On the lists of an emergency close an id failed if and only if the broker did not agree or there is no local record, and is closed if and only if both are there and no other close came first |
| CloseRuntime.ClosedExactly | apps/worker/src/cfd/mt5CloseRuntime.ts:151-239 | A position with a broker ticket is newly CLOSED by an emergency close if and only if it is the user's, its id is on the plan, the broker agreed and it was OPEN, PENDING or OPEN_REQUESTED; any other is as it was |
| Series.NoLookAhead | packages/indicators/src/types.ts:9-13 | For any function of prefixes, a series computed causally on a prefix equals the prefix of the series computed on everything: later inputs never change earlier outputs |
| MovingAverages.Sma | packages/indicators/src/series.ts:8-18 | Throws exactly for a period below one; the running sum yields the mean of the last period values at every index, null before |
| Calibration.SmaOfLine | packages/indicators/src/series.ts:8-18 | On a straight line the sma lags the price by exactly (period - 1) / 2 bars |
| MovingAverages.EmaSeries | packages/indicators/src/series.ts:21-41 | Throws exactly for a period below one; each output is the seeded recurrence over its own prefix |
| MovingAverages.EmaIsSmooth | packages/indicators/src/series.ts:21-41 | The ema of a prefix is the mean of its first period values smoothed by the later ones |
| MovingAverages.EmaWithin | packages/indicators/src/series.ts:21-41 | The ema lies between any bounds of the values seen so far |
| MovingAverages.EmaAffine | packages/indicators/src/series.ts:21-41 | The ema of a*x + b is a times the ema of x plus b |
| Calibration.EmaOfLine | packages/indicators/src/series.ts:21-41 | On a straight line the ema lags the price by exactly (period - 1) / 2 bars, from its first value on |
| MovingAverages.Macd | packages/indicators/src/series.ts:113-140 | Each output, after compacting, smoothing and re-aligning the line, is the macd point of its own prefix; throws for a period below one |
| MovingAverages.MacdOfBoth | packages/indicators/src/types.ts:9-13 | Computing the macd on a prefix gives the prefix of the macd on everything |
| MovingAverages.MacdLineAt | packages/indicators/src/series.ts:121-125 | Index k of the compacted line is the difference of the two emas of the prefix that ends k bars after both are defined |
| Calibration.PointReads | packages/indicators/src/series.ts:128-137 | A macd point is the difference of the two emas of its prefix, the ema of the line they draw, and the first less the second |
| Calibration.MacdOfLine | packages/indicators/src/series.ts:113-140 | On a straight line macd and signal are both the difference of the two lags, and the histogram is zero |
| Calibration.LagsCompare | packages/indicators/src/series.ts:113-140 | That difference is positive, for a fast period below the slow one, if and only if the line rises |
| Wilder.WilderIsSmooth | packages/indicators/src/candles.ts:18-36 | Wilder's average of a prefix is the mean of its first n values smoothed with weight 1/n by the later ones |
| Wilder.WilderWithin | packages/indicators/src/candles.ts:18-36 | Wilder's average lies between any bounds of the values seen so far |
| Wilder.Rsi | packages/indicators/src/series.ts:44-66 | Throws exactly for a period below one; the accumulators that add shares during the warm-up yield, at every index, the rsi of the Wilder averages of the prefix's gains and losses, null before |
| RelativeStrength.NetMove | packages/indicators/src/series.ts:51-57 | The gains less the losses of a series are how far it moved from its first value to its last |
| RelativeStrength.FirstRsi | packages/indicators/src/series.ts:44-66 | The first defined rsi is above 50 if and only if the price rose over the period or never fell in it |
| RelativeStrength.RsiHundredExactly | packages/indicators/src/series.ts:57-62 | From a period of two on, the rsi is 100 if and only if no value so far fell below the one before it |
| RelativeStrength.RsiZeroExactly | packages/indicators/src/series.ts:57-62 | It is 0 if and only if no value so far rose above the one before it and some value fell |
| Wilder.RunningIsWilder | packages/indicators/src/series.ts:53-63 | From the first full period on, the loop's accumulator equals Wilder's average of all moves so far |
| Wilder.RsiIsShare | packages/indicators/src/series.ts:57-62 | The value is 100 g / (g + l) whenever something moved |
| Wilder.RsiWithin | packages/indicators/src/series.ts:44-66 | The rsi lies between 0 and 100 |
| Wilder.RsiMirror | packages/indicators/src/series.ts:44-66 | The rsi of a series and of its negation add up to 100 unless both averages are zero, and then both are 100 |
| Candles.Atr | packages/indicators/src/candles.ts:18-36 | Each output is Wilder's average of the true ranges of its own prefix; null before the period is full and for every index when the period is below one |
| Candles.TrueRangeIsSpan | packages/indicators/src/candles.ts:9-15 | The true range of a bar is the width of the smallest interval holding the bar and the previous close, if there is one |
| Candles.AtrWithin | packages/indicators/src/candles.ts:18-36 | The atr lies between any bounds of the true ranges seen so far |
| AverageDirectional.Adx | packages/indicators/src/candles.ts:48-107 | Each output of the three loops is the Wilder average of the dx values of its own prefix, on the bars that have a dx; for a period below one every output is null |
| AverageDirectional.AdxOfBoth | packages/indicators/src/types.ts:9-13 | Computing the adx on a prefix gives the prefix of the adx on everything |
| AverageDirectional.MovesWithinTrueRange | packages/indicators/src/candles.ts:58-63 | With low <= close <= high the two directional movements of a bar together are at most its true range |
| AverageDirectional.IndicatorsWithinHundred | packages/indicators/src/candles.ts:81-83 | With ordered candles both directional indicators together are between 0 and 100 |
| AverageDirectional.AdxWithin | packages/indicators/src/candles.ts:47-107 | The adx lies between 0 and 100, whatever the candles |
| AverageDirectional.AdxWarmUp | packages/indicators/src/candles.ts:47-107 | No index before 2 * period - 1 has an adx |
| AverageDirectional.AdxStartsExactly | packages/indicators/src/candles.ts:64-85 | When every bar after the first has a positive true range, an index has an adx if and only if it is at least 2 * period - 1 |
| AverageDirectional.AdxMirror | packages/indicators/src/candles.ts:47-107 | Turning the chart upside down leaves the adx unchanged |
| Directional.MovesAreReaches | packages/indicators/src/candles.ts:54-60 | Of a bar's reaches above and below the previous bar's range exactly the larger one counts as a movement, and neither when they are equal |
| Directional.SumsAreWilder | packages/indicators/src/candles.ts:64-80 | The three decaying sums of the loop are the period times Wilder's averages of the true ranges and the two movements |
| Directional.DxIsImbalance | packages/indicators/src/candles.ts:81-85 | The dx is the difference of the two smoothed movements in percent of their sum, whatever the true range, and zero when there is no movement |
| Directional.SteadyTrendReadsHundred | packages/indicators/src/candles.ts:47-107 | A chart in which every bar has a higher high and no lower low has an adx of 100 from index 2 * period - 1 on |
| Directional.InsideBarsReadZero | packages/indicators/src/candles.ts:47-107 | A chart in which every bar stays within the range of the one before has an adx of 0 wherever it has one |
| Trend.TrendSlope | packages/indicators/src/series.ts:204-226 | Each output is the fit over the last period values of its own prefix, null for periods below two |
| Trend.DenomClosedForm | packages/indicators/src/series.ts:218-220 | The denominator is p^2 (p^2 - 1) / 12: zero for a window of at most one value, positive beyond |
| Trend.LeastSquares | packages/indicators/src/series.ts:221 | No line has a smaller squared error over the window than the one with the computed slope, and no other line attains it |
| Calibration.TrendOfLine | packages/indicators/src/series.ts:204-226 | On a straight line the output is the line's step divided by the window's mean, so with a positive mean it has the step's sign |
| Trend.NullExactlyAtZeroMean | packages/indicators/src/series.ts:220-223 | Within the defined range the output is null if and only if the period is one or the window's sum is zero |
| Trend.SlopeUnitFree | packages/indicators/src/series.ts:199-203 | Multiplying every price by a nonzero constant leaves the output unchanged: it is comparable across price levels |
| Bands.RollingStdDev | packages/indicators/src/series.ts:69-80 | Each output is the root of the population variance of the last period values of its own prefix, not a number for period zero and the root of zero below |
| Bands.VarianceZeroExactlyFlat | packages/indicators/src/series.ts:75-77 | The variance is never negative, and zero if and only if every value of the window is its mean |
| Bands.VarianceIsMeanSquare | packages/indicators/src/series.ts:73-77 | The variance is the mean of the squares less the square of the mean |
| Bands.BollingerBands | packages/indicators/src/series.ts:90-105 | Throws exactly for a period below one; each output is the band of its own prefix |
| Bands.BandsSymmetric | packages/indicators/src/series.ts:101-103 | The middle is the window's mean, the bands are symmetric about it and in order, and their squared distance is the squared multiplier times the variance |
| Bands.BandsCollapseExactly | packages/indicators/src/series.ts:101-103 | The two bands coincide if and only if the window is flat |
| Bands.BandWidth | packages/indicators/src/series.ts:98-104 | There is a band if and only if the window is full and its mean is not zero, and its width times the middle is the distance of the walls |
| Channels.HighestHigh | packages/indicators/src/series.ts:153-161 | Each output is the largest of the period values before its index, minus infinity for a period below one |
| Channels.LowestLow | packages/indicators/src/series.ts:164-172 | Each output is the smallest of the period values before its index, infinity for a period below one |
| Channels.DonchianChannel | packages/indicators/src/series.ts:184-197 | Each output is the channel of the previous highs and lows, null where either column has no value |
| Channels.BreakoutIsGenuine | packages/indicators/src/series.ts:180-183 | A close is above the upper wall if and only if it is above every one of the previous period highs |
| Channels.BreakdownIsGenuine | packages/indicators/src/series.ts:180-183 | A close is below the lower wall if and only if it is below every one of the previous period lows |
| Channels.ChannelOrdered | packages/indicators/src/series.ts:191-196 | With lows at most highs the channel is lower <= middle <= upper, the middle as far from one wall as from the other |
| Ranks.PercentileRank | packages/indicators/src/series.ts:257-268 | Each output is the rank of the current value within the last period values of its own prefix, zero for a period below one |
| Ranks.RankExtremes | packages/indicators/src/series.ts:253-256 | The rank is within 0 and 100, zero if and only if the current value is a minimum of its window and 100 if and only if it exceeds all the others |
| Ranks.RankIsShare | packages/indicators/src/series.ts:257-268 | The rank is the percentage, among the other values of the window, of those below the current one |
| Ranks.RollingMedian | packages/indicators/src/series.ts:271-280 | Each output is the middle of the sorted last period values of its own prefix, not a number for a period below one |
| Ranks.SortPermutes | packages/indicators/src/series.ts:274 | Sorting the window keeps its values |
| Ranks.MedianBalances | packages/indicators/src/series.ts:275-277 | At most half of the window lies below the rolling median and at most half above it |
| Ranks.MedianIsHalfway | packages/indicators/src/series.ts:271-280 | The rolling median is halfway between the lower and the upper middle value of its window, which are equal for an odd period |
| Environment.Account.SwitchTo | apps/api/src/services/tradingEnvironment.ts:241-352 | The row after every write of a switch, for every starting row and every finding, and when the call succeeds |
| Environment.Account.ArmLive | apps/api/src/services/liveTradingArm.ts:221-300 | The row after every write of an arm call; it succeeds exactly when its preflight does, and leaves the engine armed exactly if it did or was armed before |
| Environment.ArmArms | apps/api/src/services/liveTradingArm.ts:221-300 | A completed arm call leaves the engine armed if and only if its preflight passed or it was armed before, and changes nothing else of an existing engine or of the environment |
| Environment.Account.DisarmLive | apps/api/src/services/liveTradingArm.ts:302-348 | The row after every write of a disarm call, which ends with an engine that is not armed |
| Environment.DisarmDisarms | apps/api/src/services/liveTradingArm.ts:302-348 | A completed disarm leaves the engine in place and not armed, with its configurations and the environment as they were |
| Environment.DisarmHolds | apps/api/src/services/liveTradingArm.ts:302-348 | In every serial run with crashes, live trading is armed after a completed disarm only if an arm call that passed its preflight ran after it |
| Environment.SwitchesExactly | apps/api/src/services/tradingEnvironment.ts:241-352 | A completed switch changes the environment if and only if it names the other one, the server supports it, no intent is unresolved, and the terminal is connected to an account of that kind |
| Environment.SwitchReleases | apps/api/src/services/tradingEnvironment.ts:241-352 | An accepted switch that runs to its end leaves submissions released whatever crash came before, on the target if its checks pass and on the environment it found otherwise, and does nothing where the account already is |
| Environment.ChangeDisarms | apps/api/src/services/tradingEnvironment.ts:317-349 | In every serial run with a crash after any write, the write that changes the active environment leaves live trading disarmed, nothing active set to resume and submissions open, and they were blocked until it |
| Environment.ArmNeverInherited | apps/api/src/services/tradingEnvironment.ts:317-327 | Whenever live trading is armed after an environment change, an arm call that passed its preflight ran after that change |
| Environment.LiveReadinessEarned | apps/api/src/services/tradingEnvironment.ts:205-211 | From an account on DEMO, live readiness means some write switched to LIVE, none switched since, and an arm call passed after it |
| Environment.OnlySwitchUnblocks | apps/api/src/services/tradingEnvironment.ts:267-274 | After a crashed switch, submissions stay blocked until a later switch finishes, whatever arms and disarms run in between |
| Environment.BlockedThroughout | apps/api/src/services/tradingEnvironment.ts:267-349 | Submissions are blocked after every write of a switch but its last, which alone may change the environment |
| Environment.CompletedSwitch | apps/api/src/services/tradingEnvironment.ts:305-349 | A completed switch whose gate fails only undoes its own block; one whose gate passes ends on the target, unblocked, disarmed and with nothing active set to resume, from any row a crash may have left |
| RefreshTokens.TokenStore.StartSession | apps/api/src/routes/auth.ts:18-33 | Stores one live token in its own family, or refuses a repeated hash |
| RefreshTokens.TokenStore.RefreshSession | apps/api/src/routes/auth.ts:72-102 | Answers unknown, reused, expired and repeated hashes in that order, revokes the family on reuse, and otherwise issues and then retires |
| RefreshTokens.TokenStore.LogoutSession | apps/api/src/routes/auth.ts:104-118 | Revokes the family of a known token of the caller and nothing else |
| RefreshTokens.ExchangedExactly | apps/api/src/routes/auth.ts:72-102 | A live token is exchanged if and only if it is not past its expiry and the drawn hash is new, and refused as expired if and only if it is past it |
| RefreshTokens.IssuedIsStored | apps/api/src/routes/auth.ts:18-102 | A new session's token and the one a rotation hands out is stored live with the expiry drawn for it, for the right user and family, and a rotation retires exactly the presented token to it |
| RefreshTokens.OthersChangeNothing | apps/api/src/routes/auth.ts:72-118 | A request refused for any reason but reuse, and a logout with someone else's or an unknown token, change nothing |
| RefreshTokens.FamiliesStayChains | apps/api/src/routes/auth.ts:72-102 | In every serial run of register, login, refresh and logout, every token of a family but the newest is revoked, belongs to the same user and points to the next one, and the newest points nowhere |
| RefreshTokens.OneLive | apps/api/src/routes/auth.ts:94-100 | In such a store two unrevoked tokens of one family are the same token |
| RefreshTokens.DeadForever | apps/api/src/routes/auth.ts:82-89 | A family without a live token never gains one, through any run |
| RefreshTokens.Kills | apps/api/src/routes/auth.ts:82-115 | Presenting a revoked token, or its owner's logout, leaves the family without a live token |
| RefreshTokens.ReplayKillsFamily | apps/api/src/routes/auth.ts:82-100 | Whatever happens after a token was exchanged, presenting it again is answered as reuse and leaves its family without a live token |
| RefreshTokens.LiveTokensCounted | apps/api/src/routes/auth.ts:72-118 | In every serial run in which a rotation may crash between its two writes, a family has no live token or exactly one more than the rotations interrupted on it |
| RefreshTokens.DeadThroughCrashes | apps/api/src/routes/auth.ts:82-100 | A family without a live token never gains one through such runs either |
| RefreshTokens.InterruptedRotationLeavesTwo | apps/api/src/routes/auth.ts:94-99 | Between the two writes of a rotation of a chained family it has exactly two live tokens, after the second exactly one |
| Simulator.Simulate | apps/worker/scripts/investigateSep21SqueezeLosses.ts:176-271 | The loop records exactly the trades of the bar-by-bar state machine |
| Simulator.TradesLawful | apps/worker/scripts/investigateSep21SqueezeLosses.ts:176-271 | For any candles and any strategy, every trade entered under the entry rules given the trades before it, and left at the first later bar that meets an exit condition, at that bar's first condition, stop before target |
| Simulator.ExitReasons | apps/worker/scripts/investigateSep21SqueezeLosses.ts:184-203 | Every recorded trade left at its stop if and only if the exit bar's low reached it, at its target if and only if the low did not and the high did, and otherwise at the close |
| Simulator.HeldBars | apps/worker/scripts/investigateSep21SqueezeLosses.ts:184-199 | On every bar between entry and exit the low stayed above the stop, the high below the target, and the close was not back inside the channel within five bars of the entry; an invalidated trade's exit bar did close back inside |
| Simulator.EntryTerms | apps/worker/scripts/investigateSep21SqueezeLosses.ts:226-268 | Every trade entered at the close of a tradable bar after the first eighty, when the strategy bought given the bars since the previous entry, on the levels proposed and the channel standing there |
| Simulator.TradesDisjoint | apps/worker/scripts/investigateSep21SqueezeLosses.ts:181-224 | Each trade's entry lies before its exit and its exit before every later entry |
| Simulator.NoEntryNearFailure | apps/worker/scripts/investigateSep21SqueezeLosses.ts:239-247 | With a positive lookback no trade enters within the lookback and price tolerance of an earlier failed entry |
| Simulator.NoEntryMissed | apps/worker/scripts/investigateSep21SqueezeLosses.ts:226-268 | A bar after the warm-up that neither a trade nor the final open position covers did not meet the entry rules |
| Simulator.WhyNotEntered | apps/worker/scripts/investigateSep21SqueezeLosses.ts:226-268 | An uncovered bar after the first eighty was not tradable, or the strategy did not buy, or nothing was proposed, or a failed trade that closed before it lay within the lookback and price tolerance |
| Drawdown.MaxDrawdown | apps/worker/scripts/investigateSep21SqueezeLosses.ts:291-298 | The one-pass loop returns the largest fall of equity between any two moments, the start included |
| Drawdown.Summarize | apps/worker/scripts/investigateSep21SqueezeLosses.ts:274-312 | Wins and losses add up to the trades, the drawdown is the largest fall, and the averages are those of the two groups, null when empty |
| Drawdown.WinsAndLosses | apps/worker/scripts/investigateSep21SqueezeLosses.ts:288-290 | Every result is in exactly one of the two groups, the wins are the positive ones, and the groups' sums add up to the net result |
| Drawdown.MeanIsAverage | apps/worker/scripts/investigateSep21SqueezeLosses.ts:302-311 | An average times the size of its group is the group's sum, and there is one unless the group is empty |

## Left out

- Prisma, Redis, queues, HTTP, mailboxes, telemetry, logging and notifications: reads and writes of the tables are single atomic steps, and a transaction is one step or holds the advisory lock.
- The MT5 bridge server and its mailbox.
- The broker adapter beyond its request checks, its lookup by comment and its order, which are separate steps: opens remembered or in flight inside one adapter instance are not modelled, since attempts in different workers do not share it; a remembered result reads as a successful lookup and a duplicate in flight as a refusal.
- The signal row's status, timestamps, tickets stored on intents, metadata, position events and price fields of positions.
- Strategy evaluation, stop adaptation, stop-safety checks, quotes and risk sizing in the runtime: each is an arbitrary outcome of the step that consults it.
- Paper and demo API routes that write positions, and the direct broker-demo close and reconcile routes.
- Deletion of rows: no activity of the protocol deletes one.
- SingleSend.AtMostOneOrderFills: attempts are serialised per signal; what overlapping attempts can do is stated by Overlap.DoubleFillExactlyWhenSendable.
- Recovery.RecoverUnresolved: the rows are read and written by one pass at a time; interleavings of an iteration are covered by Protocol, with one iteration per process, and Iterations ties the two.
- Expiry.ExpireStale: the broker answers one view per signal for the whole sweep, and quote failures are one flag.
- CloseRuntime.EmergencyClose: the selection of owned broker positions is a given list of distinct ids, tickets are unique over the local rows, and the only interference is another close of a record between its broker call and its guarded update.
- Floating point, decimal columns and display rounding: values are reals and the square root is a function with the defining property of one.
- Elements that a negative period stores at negative indexes, which are not part of the array.
- Periods that are not integers.
- Ranks.RollingMedian: the library sort is an insertion sort; only that it sorts and keeps the values is used.
- rateOfChange, recentReturn, the consecutive counters, atrPercent, wick and body sizes and distanceFromEma: one expression per index, they would only add easy members.
- Environment.Account.SwitchTo: the state row exists from the start with its defaults, policy rows and event rows are not written, the engine-stop request is not modelled, and calls run one after another.
- Writers of a configuration's resume flag other than the switch, and the worker session that reads the environment row.
- RefreshTokens.TokenStore.RefreshSession: handlers run one after another and may crash between writes; concurrent refreshes of one token, password hashing, access tokens and the account checks of register and login are not modelled.
- Simulator.Simulate: time stamps and the fields a trade copies from the features for display are not recorded; the strategy sees the bar index and the bars since the last signal, standing for the candles and features up to that bar.
- Regime classification, the squeeze strategy and the stop proposal: arbitrary functions of the bar.
- Command-line parsing, report formatting, configuration schemas, encryption and the mobile application.
