# Verified model of the equity-plan engine

The engine keeps a company's equity plan: share lots, option pools, grants that
vest by calendar, exercise requests, taxes, documents that employees
acknowledge, and the import of a whole company bundle. Most state is held twice,
as a column an endpoint overwrites and as a fold over an append-only event
ledger, and the design promises that the two agree although events may be dated
in any order. The Dafny modules here model that logic and prove it.

| module | what it models |
|---|---|
| `Ledger` | the event table: numbering per aggregate, the two time cuts, the canonical order |
| `BaseFold` | the projectors that start from a base and add up changes, over any payload |
| `ShareLedger`, `PoolLedger`, `Pauses`, `AssignedState` | the projectors: share lots, option pools, vesting schedules, employee status and trustee deposits |
| `Snapshot` | the as-of cap table: two queries, grouping, missing history |
| `Buyback` | issuing lots and adjusting them, over every sequential run |
| `Interleaving` | concurrent buyback executions as interleaved transactions |
| `Calendar`, `Vesting` | dates, month shifting, completed months, cliff, rounding, leavers, the trustee's lock |
| `Notifications`, `Dashboard` | the binary search, the forward scan and the forward curve that rely on vesting being monotone |
| `Plan` | pools, grants, pauses, status changes and terminations, over every run |
| `Exercise` | submitting and reviewing exercise requests, over every run |
| `Settlement` | options exercised and options returned, seen together |
| `Tax` | the progressive loop and the choice of rule pack |
| `Documents` | versions, the status machine, lazy expiry and the freeze trigger |
| `Import` | dry run and commit of a bundle over the table registry |
| `SharedIds` | what an import does to another company's pool through an id both use |

Code that computes is a function; code that updates rows or runs a loop is a
method or a class proved against such a function, and the promises are lemmas
about that function, over all inputs or all runs. A refused request leaves the
tables as they were, because every endpoint raises before its commit. The one
exception is a document request: loading the document commits its expiry, and a
refusal that follows keeps it.

Conventions: rows are named by their position (UUIDs in the source); shares,
options and money are integer hundredths, the precision the engine rounds to;
days are day numbers outside `Calendar`, which proves that comparing dates is
comparing day numbers; a run is a list of requests and clock ticks; the business
clock never goes backwards within a run.

## What the code does not do

These are places where a promise made in the code's comments or documentation
holds only under a condition. The code is modelled as it is; the condition is
proved exact, and a run from empty tables, from given ones or from any state
shows it failing.

- A pool's column and fold drift apart when a grant or a return is dated before
  the pool's `established_date`: `create_grant` never compares the two dates and
  the fold skips what sorts before the base (`Plan.FoldAgreesIff`,
  `Plan.GrantKeepsAgreementIff`, `Plan.ReturnKeepsAgreementIff`; the run is
  `Plan.EarlyGrantIsLost`). The comment at `backend/app/services/ledger.py:29-36`
  relies on an epoch-dated base, which only the backfill writes.
- A pause that ends before the schedule starts is counted by the column and
  skipped by the fold (`Pauses.FoldAgreesIff`, `Pauses.PauseShowsIff`,
  `Pauses.EarlyPauseIsLost`).
- Status changes and deposit confirmations overwrite the column at once, while
  the fold shows the latest-dated one (`AssignedState.AssignmentShowsIff`,
  `AssignedState.ColumnShowsIff`, `AssignedState.BackdatedIsHidden`).
- The refusal text says that only pending requests can be reviewed. A rejection
  skips that check, so it can overturn an approval, and the tax record stays
  (`Exercise.RejectionOverturnsApproval`, from any state).
- The second of two concurrent buybacks is refused only if it read its sequence
  number from the snapshot it projected from. `append_event` reads the number
  again, and if the other execution commits in between, the first delta is lost
  from the column (`Interleaving.CommitAgreesIff`, `Interleaving.LateNumberRun`).
  The no-lost-update theorem states the hypothesis the comment at
  `backend/app/api/cap_table.py:294-300` needs. Besides, `append_event` flushes,
  so the unique violation is raised outside the handler that would turn it into
  a 409; in the model both are a rolled-back execution.
- Re-activating a leaver allows a second return of the same grant
  (`Plan.SecondReturnIff`, `Plan.ComingBackReturnsTwice`,
  `Plan.SecondReturnRun`).
- A leaving day may lie before options were exercised. Approved and returned
  options together stay within the grant exactly when no more was approved than
  had vested on the leaving day (`Settlement.WithinTotalIff`,
  `Settlement.BackdatedLeaverExceedsIff`, `Settlement.ExceedingRun`).
- A grant can be full before its cliff and last month have both passed, by
  rounding: exactly when the cliff does not cover the schedule and the last month
  is worth less than half a hundredth, or half of one with an even total
  (`Vesting.FullDateExactIff`, `Vesting.RoundedUpBeforeFullDate`).
- A past lot value can be negative: the endpoint compares a buyback with today's
  value only. It stays nonnegative exactly when the lot held as much on every day
  since the buyback took effect (`Buyback.PastStaysNonNegativeIff`,
  `Buyback.PastsNonNegativeIff`, `Buyback.MixedPastRun`).
- Publishing a future rule pack never changes an amount, but it can change the
  reason given for having none (`Tax.FuturePackIff`).
- A past report calls a pool dated after the report's day "missing" and the
  whole report partial (`Snapshot.PoolKnownIff`).
- An import looks an event's aggregate up only in the table the event names,
  while histories are read by id alone. Another company's history is left alone
  exactly when no new event carries its id (`Import.HistoryUnchangedIff`); for a
  pool that takes a row of the target with the pool's own id
  (`Import.OtherPoolReachedOnlyBySharedId`). The pool's row never changes, so row
  and history still agree exactly when the new events change nothing after the
  pool's base (`SharedIds.OtherPoolAgreesIff`). They can be parted from any
  database (`SharedIds.SharedIdPartsThem`); the run is `SharedIds.SharedIdRun`.
- A report reads the events of a lot by id and by name, a receipt by id alone.
  They read the same list exactly when no event of the lot up to the day is stored
  under another name, which `append_event` never does and an import can
  (`Snapshot.GroupedIsEventsForIff`), and show the same number of shares exactly
  when the deltas under other names add up to zero (`Snapshot.StraysTellApart`,
  `Buyback.ReceiptMatchesReportIff`, `Buyback.ReceiptAndReportDiffer`).

## Model

| member | source | states |
|---|---|---|
| `Ledger.SumOfPermutation` | backend/app/services/ledger.py:220-257 | the order of events does not change what their deltas add up to |
| `Ledger.SortIsOrderBy` | backend/app/services/ledger.py:135 | the ordered list holds exactly the selected rows, in (effective date, sequence number) order |
| `Ledger.OrderIsDetermined` | backend/app/services/ledger.py:135 | rows with distinct keys have only one such order, so the database has no choice |
| `Ledger.SelectSort` | backend/app/services/cap_table.py:65-78 | sorting all lots' events at once and picking one lot is sorting that lot's events |
| `Ledger.EventsForMembers` | backend/app/services/ledger.py:130-135 | an event is returned exactly when it belongs to the aggregate and lies inside both time cuts |
| `Ledger.PastViewsAreStable` | backend/app/services/ledger.py:116-135 | a new event leaves a view alone if and only if it belongs elsewhere, is effective after the as-of day or was recorded after the knowledge instant |
| `Ledger.ViewsAreStableIff` | backend/app/services/ledger.py:116-135 | many new events leave a view alone if and only if none of them is of its aggregate and inside its cuts |
| `Ledger.OwnViewIff` | backend/app/services/cap_table.py:65-76 | reading by id and name is reading by id alone if and only if no event of the id inside the cuts is stored under another name |
| `Ledger.NextSeqCounts` | backend/app/services/ledger.py:47-53 | MAX plus one is the number of the aggregate's events plus one |
| `Ledger.NumberTaken` | backend/app/models.py:460 | a sequence number is taken if and only if it lies in 1..n |
| `Ledger.AppendNumbers` | backend/app/services/ledger.py:76-90 | appending keeps every aggregate's numbers 1..n and touches one aggregate's history only |
| `Ledger.EventTable.AppendEvent` | backend/app/services/ledger.py:56-90 | the table gains exactly one row, numbered next for its aggregate, and stays numbered |
| `ShareLedger.ProjectShareIssuance` | backend/app/services/ledger.py:243-257 | the two-variable loop computes the fold |
| `ShareLedger.FoldWithOneBase` | backend/app/services/ledger.py:220-257 | with one base the fold is the base plus every delta, wherever the base sorts, and nothing stays pending |
| `ShareLedger.ProjectionIgnoresOrder` | backend/app/services/ledger.py:220-257 | with at most one base every permutation of the events projects to the same lot |
| `ShareLedger.TwoBasesDependOnOrder` | backend/app/services/ledger.py:247-251 | with two bases the order matters: the later one discards the other |
| `ShareLedger.LotValue` | backend/app/services/ledger.py:270-285 | a read of a lot on or after its issue day is its issued shares plus the deltas effective by then |
| `ShareLedger.ColumnIsFold` | backend/app/api/cap_table.py:269-285 | a column that holds issue plus deltas equals the projection over everything and as of any day from today on |
| `ShareLedger.PastValuesShrink` | backend/app/services/buyback.py:129-133 | with buybacks only, past values never rise with the day and never fall below today's |
| `BaseFold.FoldAfterBase` | backend/app/services/ledger.py:154-206 | a projector that skips changes before its base counts exactly those that sort after it, whatever their numbers |
| `BaseFold.FoldSinceBase` | backend/app/services/ledger.py:154-206 | with the base numbered first, exactly those dated on or after it |
| `BaseFold.ProjectionAsOf` | backend/app/services/ledger.py:270-285 | as of any day such a projection is unknown before its base and counts exactly the changes dated from the base up to that day |
| `BaseFold.ChangeAsOf` | backend/app/services/ledger.py:270-285 | one more change moves it on exactly the days from its date on, if that is not before the base |
| `BaseFold.ChangeShows` | backend/app/services/ledger.py:270-285 | one more change shows in the whole projection if and only if it is dated on or after the base |
| `PoolLedger.ProjectOptionPool` | backend/app/services/ledger.py:154-168 | the loop computes the fold |
| `PoolLedger.FoldIsTally` | backend/app/services/ledger.py:154-168 | the fold moves both sides of its base, in opposite directions, by the net of the changes it counts |
| `PoolLedger.FoldSize` | backend/app/services/ledger.py:158-161 | the fold is known if and only if a base is in view, and its size is the base's |
| `Snapshot.PoolKnownIff` | backend/app/services/cap_table.py:120-139 | a past report knows a pool's size if and only if its base is dated by then |
| `Snapshot.PoolSizeIs` | backend/app/services/cap_table.py:115-139 | past, present and future reports show the size of a pool's base from the base's day on, when the row has it |
| `Snapshot.TodaysFullyDiluted` | backend/app/services/cap_table.py:119-146 | from today on fully diluted is outstanding plus the sizes stored in the company's pool rows, and each pool line is its row's size |
| `Snapshot.GroupedIsOwn` | backend/app/services/cap_table.py:63-78 | grouping the one globally sorted query gives each counted lot its own events under the lots' name, in order |
| `Snapshot.GroupedIsEventsForIff` | backend/app/services/cap_table.py:63-78 | that is what `events_for` returns if and only if no event of the lot up to the day is stored under another name |
| `Snapshot.StraysTellApart` | backend/app/services/ledger.py:130-135 | with one base under the lots' name, a reader by id and a report see the same lot but for the deltas under other names |
| `Snapshot.GroupByLot` | backend/app/services/cap_table.py:77-78 | the grouping loop gives every lot exactly its own events, in order |
| `Snapshot.IssuedSide` | backend/app/services/cap_table.py:57-106 | the running total, the per-(holder, class) dictionary and the unknown keys are the naive per-lot sums, and the dictionary adds up to the total |
| `Snapshot.PoolSide` | backend/app/services/cap_table.py:115-144 | the pool total, exactly the pools without history, and one line for each of the company's pools with its size |
| `Snapshot.ReportIsAccurate` | backend/app/services/cap_table.py:80-146 | the tallied numbers meet every promise of a report |
| `Snapshot.ComputeCapTableSnapshot` | backend/app/services/cap_table.py:22-175 | outstanding and fully diluted are the naive replay; partial if and only if something lacks history; one line per key, None exactly when unknown, and one per pool; the parts of the authorized total are right and known exactly for a positive one; when nothing is missing the lines sum to outstanding |
| `Snapshot.TotalAfterAdjustment` | backend/app/services/buyback.py:135-171 | an adjustment moves every total counted on or after its day by its delta and no other |
| `Buyback.IssueKeeps` | backend/app/api/cap_table.py:142-198 | an issuance keeps numbering, columns and histories in agreement |
| `Buyback.LotBeforeIsColumn` | backend/app/services/buyback.py:116-127 | the lot's fold as of today is the stored column |
| `Buyback.OutstandingIsColumns` | backend/app/services/cap_table.py:57-106 | from today on the replayed total is what the columns of the lots issued by then add up to, and once all are issued it is the total the cap is checked against |
| `Buyback.IssuedIff` | backend/app/api/cap_table.py:142-198 | an issuance goes through if and only if holder and class are the company's, the shares are positive and the cap is kept; then one row and one event are stored |
| `Buyback.ExecuteKeeps` | backend/app/api/cap_table.py:239-302 | an accepted execution keeps every lot's column the sum of its events and nonnegative |
| `Buyback.RunKeeps` | backend/app/api/cap_table.py:142-302 | so does every run of issuances, executions and clock ticks |
| `Buyback.ColumnAlwaysProjects` | backend/app/api/cap_table.py:173-189 | on every run, whatever the effective dates, each column equals the projection over all events and as of today, and is nonnegative |
| `Buyback.BoughtBackLotShrinks` | backend/app/services/buyback.py:129-133 | on every run a lot that was only bought back is nonnegative on every past day and nonincreasing from its issue on |
| `Buyback.HeldAfter` | backend/app/services/buyback.py:116-127 | an adjustment moves its lot on exactly the days from its own on, and no other lot |
| `Buyback.PastStaysNonNegativeIff` | backend/app/services/buyback.py:129-133 | after an accepted adjustment a nonnegative past stays so if and only if the lot held as much on every day since it took effect |
| `Buyback.PastsNonNegativeIff` | backend/app/services/buyback.py:129-133 | over every run no past is ever negative if and only if each accepted adjustment was so covered when it was made |
| `Buyback.MixedPastRun` | backend/app/api/cap_table.py:142-302 | a run from an empty book whose every step is accepted and after which a past value is negative |
| `Buyback.CapAlwaysHolds` | backend/app/services/buyback.py:158-171 | no sequential run takes a company's issued total above its authorized total |
| `Buyback.AcceptedIff` | backend/app/services/buyback.py:64-171 | an execution goes through if and only if the listed conditions on the stored column, dates, cap and token hold |
| `Buyback.RefusalTells` | backend/app/services/buyback.py:64-171 | a refusal names a condition that fails, with the right number |
| `Buyback.PreviewIsReport` | backend/app/services/buyback.py:113-231 | a preview shows the lot's column and, before and after, the numbers and the one line of today's report |
| `Buyback.AcceptedMovesReports` | backend/app/services/buyback.py:147-207 | every report of the company moves by exactly the delta from the effective day on; earlier ones and other companies' never do |
| `Buyback.IssueMovesReports` | backend/app/api/cap_table.py:173-189 | an issuance, however backdated, adds its shares to every report from its issue day on and to no other |
| `Buyback.ReceiptIsFreshSnapshot` | backend/app/services/buyback.py:175-231 | the receipt's arithmetic equals a fresh report after the write, for the company, the holding and the lot |
| `Buyback.ReceiptMatchesReportIff` | backend/app/services/buyback.py:116-127 | on any book the lot a receipt shows is the lot a fresh report shows if and only if the deltas under other names add up to zero; the column follows the receipt |
| `Buyback.ReceiptAndReportDiffer` | backend/app/services/buyback.py:175-207 | a receipt whose lot holds 500 and whose holder, with no other lot, holds 800 |
| `Buyback.CapTableApi.constructor` | backend/app/api/cap_table.py:142-198 | an empty table satisfies the invariant |
| `Buyback.CapTableApi.CreateShareIssuance` | backend/app/api/cap_table.py:142-198 | row and base event are written together, or nothing is |
| `Buyback.CapTableApi.PreviewBuyback` | backend/app/api/cap_table.py:225-235 | a preview writes nothing, and executing it at once with its token is accepted with the same numbers |
| `Buyback.CapTableApi.ExecuteBuyback` | backend/app/api/cap_table.py:239-302 | column and event are written together, or nothing is |
| `Interleaving.FreeIsNext` | backend/app/services/ledger.py:47-53 | a number an open execution holds is free if and only if it is the next one |
| `Interleaving.CommitDrift` | backend/app/api/cap_table.py:269-302 | after any commit the column is off by exactly what others committed after the projection was read |
| `Interleaving.NextSound` | backend/app/api/cap_table.py:238-309 | each step of each interleaving keeps every lot's committed numbers 1..n |
| `Interleaving.MovesSound` | backend/app/api/cap_table.py:238-309 | so does every interleaving, however the numbers were read |
| `Interleaving.NoLostUpdate` | backend/app/api/cap_table.py:294-309 | with one snapshot per execution, in every interleaving each column is the issued shares plus every committed delta, nonnegative, numbers 1..n |
| `Interleaving.OneWinnerPerToken` | backend/app/api/cap_table.py:261-267 | of two executions holding the same token at most one commits |
| `Interleaving.CommitAgreesIff` | backend/app/api/cap_table.py:269-302 | a committed execution leaves its column in agreement if and only if what others committed since its projection adds up to zero |
| `Interleaving.LateNumberLosesUpdate` | backend/app/services/ledger.py:84 | of two executions projected from the same events, the one that takes its number after the other committed is accepted and the other's delta is missing |
| `Interleaving.LateNumberRun` | backend/app/services/ledger.py:84 | from any book, two acceptable requests on one lot run so that both commit and the first delta is lost |
| `Interleaving.LateRunOutcome` | backend/app/api/cap_table.py:294-309 | the same run leaves only the first commit when numbers come from the projection's snapshot, and both commits, the second one number later, when the number is read again |
| `AssignedState.ProjectAssigned` | backend/app/services/ledger.py:171-194 | both loops, over whatever value is assigned, compute the fold |
| `AssignedState.FoldIsLast` | backend/app/services/ledger.py:171-194 | once there is a base, the fold is the last event's value |
| `AssignedState.ValueStores` | backend/app/api/employees.py:223-232 | a new row and a new assignment store the value and one event each |
| `AssignedState.AssignmentShowsIff` | backend/app/api/employees.py:223-232 | the fold shows a new assignment if and only if it is dated on or after all earlier ones or repeats the latest-dated value |
| `AssignedState.ColumnShowsIff` | backend/app/services/ledger.py:171-194 | on every run the fold gives the stored value if and only if the latest-dated event carries it |
| `AssignedState.BackdatedIsHidden` | backend/app/api/employees.py:223-232 | a run from an empty table after which column and fold differ |
| `Calendar.NextDayIsOneMore` | backend/app/services/engine.py:39 | the next calendar day has the next day number, across months, years and leap years |
| `Calendar.OrdinalIsMonotone` | backend/app/services/notifications.py:163 | comparing dates is comparing day numbers, and day numbers tell dates apart |
| `Calendar.AddDaysAdds` | backend/app/services/engine.py:63 | adding days adds to the day number, for negative counts too |
| `Calendar.OrdinalRoundTrip` | backend/app/services/notifications.py:163-170 | a date survives the trip through its day number |
| `Calendar.MonthLengths` | backend/app/services/engine.py:30-34 | months alternate between 31 and 30 days, afresh from August, and February takes what the year leaves |
| `Calendar.CycleOfYears` | backend/app/services/engine.py:30-34 | the calendar repeats every 400 years of 146097 days, from day 1 on |
| `Calendar.ShiftMeaning` | backend/app/services/engine.py:21-39 | a shift lands in the target month on the anchor's day, or on its last day, or one day after that, as the policy says |
| `Calendar.ShiftGrowsWithMonths` | backend/app/services/engine.py:21-39 | one more month is strictly later under both policies |
| `Calendar.ShiftGrowsWithAnchor` | backend/app/services/engine.py:21-39 | a later anchor never lands earlier under both policies |
| `Calendar.ShiftIsLater` | backend/app/services/engine.py:21-39 | shifting by at least a month is strictly later than the anchor |
| `Vesting.RoundDivIsNearest` | backend/app/services/engine.py:76 | rounding to hundredths takes the nearest value, half to even |
| `Vesting.CompletedMonthsIff` | backend/app/services/engine.py:95-108 | n months are completed if and only if the target is on or after the anchor shifted by n months |
| `Vesting.CompletedMonthsMonotone` | backend/app/services/engine.py:95-108 | later targets and earlier anchors complete at least as many months |
| `Vesting.VestedBounds` | backend/app/services/engine.py:52-76 | vested options lie between zero and the grant's total |
| `Vesting.VestedMonotone` | backend/app/services/engine.py:52-76 | vested options never fall with the day and never rise with paused days |
| `Vesting.CliffCountsItsMonths` | backend/app/services/engine.py:65-72 | on the cliff day at least the cliff's months are counted |
| `Vesting.VestedIs` | backend/app/services/engine.py:52-76 | from dates alone: with the start moved by the paused days, nothing before the cliff, everything from the last month on, and between them the completed months' share to the nearest hundredth, half to even |
| `Vesting.PausesDelay` | backend/app/services/engine.py:63 | paused days are worth a start that much later, for the vested amount, the full date and the full day |
| `Vesting.RoundsUpIff` | backend/app/services/engine.py:76 | the share of all but some months rounds to the whole grant if and only if those months are worth less than half a hundredth, or half of one with an even total |
| `Vesting.ForgivenIff` | backend/app/services/engine.py:76 | how many months rounding forgives, in closed form |
| `Vesting.FullyVestedIff` | backend/app/services/engine.py:52-76 | any grant on any schedule is full if and only if its full day, rounding included, has come |
| `Vesting.FullDateExactIff` | backend/app/services/engine.py:52-76 | a grant is full exactly from when both cliff and last month have passed, if and only if the cliff covers the schedule or the last month does not round away |
| `Vesting.RoundedUpBeforeFullDate` | backend/app/services/engine.py:72-76 | otherwise it is full on a named earlier day |
| `Vesting.VestedOnMonotone` | backend/app/services/engine.py:79-92 | the same bounds and monotonicity with the cutoff at the leaving day |
| `Vesting.VestedOnIs` | backend/app/services/engine.py:79-95 | someone terminated or deceased vests until the leaving day and not after; everybody else vests on |
| `Vesting.FullyVestedOnIff` | backend/app/services/notifications.py:57-62 | a leaver's grant is full if and only if its full date is by the cutoff |
| `Vesting.HoldingEndCoversBoth` | backend/app/services/engine.py:111-147 | the trustee's lock ends no earlier than 24 months from either the grant or the deposit date, and after both |
| `Vesting.HoldingEndIs` | backend/app/services/engine.py:111-147 | the lock ends when the later of the two 24-month periods ends, rolling forward over a missing day, and is unknown exactly without a deposit |
| `Notifications.FirstFullDay` | backend/app/services/notifications.py:163-170 | the binary search ends on the least full day from the schedule's start, which is the later of the start and the full day for any schedule and leaver |
| `Notifications.FullUpToToday` | backend/app/services/notifications.py:155-170 | between start and today a grant that is full today is full exactly from that day on |
| `Notifications.SearchFindsFullDateIff` | backend/app/services/notifications.py:162-170 | with pauses and cliff nonnegative the answer is the later of cliff and last month if and only if the last month does not round away |
| `Notifications.FullyVestedUnexercised` | backend/app/services/notifications.py:155-180 | the rule answers if and only if the grant is full, unrequested and full for at least the lead time, and then with its first full day |
| `Notifications.VestingEventNear` | backend/app/services/notifications.py:101-119 | the forward scan answers with the least day of its window on which vesting grows, and with None if and only if it does not grow there |
| `Dashboard.CumulativeGrows` | backend/app/services/reports.py:559-567 | any set of grants only ever vests more, up to what was granted |
| `Dashboard.CumulativeAdds` | backend/app/services/reports.py:559-567 | the curve adds up over the grants, however they are split |
| `Dashboard.CumulativeOfOne` | backend/app/services/reports.py:559-567 | one grant counts for what its holder has vested, and for nothing without a schedule |
| `Dashboard.GridIncreases` | backend/app/services/reports.py:534-538 | the grid is the first of consecutive months, strictly increasing |
| `Dashboard.ForwardCurve` | backend/app/services/reports.py:556-568 | the curve has 37 increasing dates with nondecreasing values bounded by the total granted; exactly the grants without a schedule are reported degraded |
| `Plan.GrantAcceptedIff` | backend/app/api/grants.py:88-126 | a grant is accepted if and only if its holder has completed 18 years by its date, the pool is the company's and has enough left |
| `Plan.GrantStores` | backend/app/api/grants.py:128-190 | a grant stores its row with an unpaused schedule, moves its options between the pool's columns and appends one event |
| `Plan.GrantRefusalTells` | backend/app/api/grants.py:88-126 | a refusal names what stood in the way, and of someone under age the first date on which 18 years are complete |
| `Plan.PoolCreatedIff` | backend/app/api/grants.py:39-75 | a pool is created if and only if its size is positive and its class the company's, with all of it unallocated |
| `Plan.ApplyKeeps` | backend/app/api/grants.py:53-264 | each step keeps each pool's columns adding up and equal to what its grants hold |
| `Plan.PoolsAlwaysBalance` | backend/app/api/grants.py:53-264 | on every run, pauses included, allocated plus unallocated is the size, unallocated is nonnegative, and allocated is the pool's grants less what they returned |
| `Plan.ReturnsAllOrNothing` | backend/app/api/employees.py:194-206 | a return goes through if and only if every grant of the leaver has a schedule |
| `Plan.StatusAcceptedIff` | backend/app/api/employees.py:173-239 | a status change goes through if and only if the employee, the dates and, for a returning termination, all schedules are in order |
| `Plan.StatusRefusalTells` | backend/app/api/employees.py:173-223 | a refused status change names what stood in the way |
| `Plan.StatusStores` | backend/app/api/employees.py:182-239 | what a status change stores: the job, and for a returning termination of somebody still there what each pool gets back; nothing else |
| `Plan.DeletedIff` | backend/app/api/employees.py:113-165 | deleting an employee with grants is a termination without a return |
| `Plan.GivenBackIs` | backend/app/api/employees.py:190-213 | the amount answered is what all of the leaver's grants had not vested |
| `Plan.ReturnStores` | backend/app/api/employees.py:207-213 | a return appends one event, dated on the leaving day |
| `Plan.PauseDelaysGrant` | backend/app/api/grants.py:251-253 | a recorded pause is worth a start that much later, on that grant alone |
| `Plan.ReturnsExactly` | backend/app/api/employees.py:194-221 | each of the leaver's grants, and no other, is returned once more, by exactly what had not vested |
| `Plan.SecondReturnIff` | backend/app/api/employees.py:184-194 | a termination returns some grant a second time if and only if that grant was returned before |
| `Plan.ComingBackReturnsTwice` | backend/app/api/employees.py:184-225 | from any plan, leaving, coming back and leaving again returns every grant of the employee twice |
| `Plan.SecondReturnRun` | backend/app/api/employees.py:184-225 | such a run from an empty plan |
| `Plan.NoDoubleReturn` | backend/app/api/employees.py:184-223 | on every run without a re-activation each grant is returned at most once and each allocated column stays within 0 and the pool's size |
| `Plan.PoolAsOf` | backend/app/services/ledger.py:154-168 | as of any day a pool's projection is unknown before its base and counts exactly the changes dated from the base up to that day |
| `Plan.NewPoolAsOf` | backend/app/api/grants.py:53-68 | a new pool is known from its established day on, all of it unallocated |
| `Plan.GrantMovesPoolAsOf` | backend/app/api/grants.py:141-181 | a grant moves the projection by its options on exactly the days from its date on, if that is not before the pool |
| `Plan.ReturnMovesPoolAsOf` | backend/app/api/employees.py:207-221 | a return moves it back by what had not vested on exactly the days from the leaving day on, likewise |
| `Plan.FoldAgreesIff` | backend/app/services/ledger.py:154-168 | a pool's fold equals its columns if and only if the changes dated before its base cancel out |
| `Plan.TimelyPoolsAgree` | backend/app/services/ledger.py:154-168 | a pool whose changes are all dated on or after its base agrees, whatever their order |
| `Plan.GrantKeepsAgreementIff` | backend/app/api/grants.py:141-181 | a grant keeps an agreeing pool in agreement if and only if it is dated on or after the pool |
| `Plan.EarlyGrantIsLost` | backend/app/api/grants.py:141-181 | a run from an empty plan after which the columns count a grant and the fold does not |
| `Plan.ReturnKeepsAgreementIff` | backend/app/api/employees.py:207-221 | a return does if and only if it is dated on or after the pool or is empty |
| `Plan.PlanApi.constructor` | backend/app/api/grants.py:38-75 | an empty plan satisfies the invariants |
| `Plan.PlanApi.AddPool` | backend/app/api/grants.py:38-75 | row and base event are written together, or nothing is |
| `Plan.PlanApi.AddGrant` | backend/app/api/grants.py:84-206 | grant, schedule, both columns and the pool's event are written together, or nothing is |
| `Plan.PlanApi.ReturnUnvested` | backend/app/api/employees.py:194-221 | the loop over several pools returns the stated amounts, or restores every pool and event |
| `Plan.PlanApi.UpdateEmployeeStatus` | backend/app/api/employees.py:172-239 | the new state and the amount given back, or nothing written |
| `Pauses.ProjectVestingSchedule` | backend/app/services/ledger.py:197-206 | the loop computes the fold |
| `Pauses.FoldIsTally` | backend/app/services/ledger.py:197-206 | the fold adds to its base's paused days the pauses it counts |
| `Pauses.RecordedTidy` | backend/app/api/grants.py:233-264 | recording a pause that clashes with none keeps all pauses proper and disjoint |
| `Pauses.PausesStayDisjoint` | backend/app/api/grants.py:233-264 | on every run recorded pauses are pairwise disjoint half-open intervals and the column is the base plus their days |
| `Pauses.DistinctDays` | backend/app/api/grants.py:251-253 | disjoint pauses cover as many distinct days as their lengths add up to |
| `Pauses.PausedIsDaysCovered` | backend/app/api/grants.py:251-253 | the paused total less its start value is the number of distinct calendar days on leave |
| `Pauses.FoldAgreesIff` | backend/app/services/ledger.py:197-206 | the fold equals the column if and only if every pause ends on or after the schedule's start |
| `Pauses.PauseShowsIff` | backend/app/api/grants.py:251-264 | recording moves the column by the pause's days, and the fold too if and only if the pause ends on or after the start |
| `Pauses.EarlyPauseIsLost` | backend/app/api/grants.py:251-264 | a run from an empty table after which column and fold differ |
| `Pauses.PauseAcceptedIff` | backend/app/api/grants.py:219-249 | a pause is recorded if and only if the grant is the company's and has a schedule and the pause is nonempty and overlaps none; a refusal names an overlapping one |
| `Pauses.RefusalTells` | backend/app/api/grants.py:219-249 | any other refusal names what stood in the way |
| `Pauses.PauseStores` | backend/app/api/grants.py:251-266 | recording stores the days in the column and one event dated on the pause's end |
| `Pauses.ScheduleStores` | backend/app/api/grants.py:146-187 | a new schedule is stored unpaused, with its base event on its start |
| `Pauses.OverlapIff` | backend/app/api/grants.py:245 | two nonempty pauses overlap if and only if they share a day |
| `Pauses.PauseApi.AttachSchedule` | backend/app/api/grants.py:146-186 | a new schedule starts with its base event and no pause |
| `Pauses.PauseApi.RecordVestingPause` | backend/app/api/grants.py:209-273 | column and event are written together, or the first failing check is answered and nothing is |
| `Exercise.ProjectExerciseRequest` | backend/app/services/ledger.py:209-217 | the loop computes the fold |
| `Exercise.RunSound` | backend/app/api/exercise_requests.py:137-402 | on every run of submissions, reviews, pauses, departures and deposits the invariant holds |
| `Exercise.NeverOvercommitted` | backend/app/api/exercise_requests.py:370-380 | pending plus approved options on a grant never exceed its total |
| `Exercise.ApprovedOnceTaxedOnce` | backend/app/api/exercise_requests.py:188-215 | no request is approved twice, it has one tax record if it ever was approved and none otherwise, and its fold equals its stored status |
| `Exercise.ApprovedIff` | backend/app/api/exercise_requests.py:149-185 | an approval goes through if and only if the approver is entitled, it is pending and taxable, fits what has vested beside what is approved, and a trustee's lock is over |
| `Exercise.DecisionStores` | backend/app/api/exercise_requests.py:188-215 | a decision stores the status, exactly one event and, for an approval only, a tax row with the computed amount |
| `Exercise.RejectedIff` | backend/app/api/exercise_requests.py:225-270 | a rejection goes through, whatever the status, if and only if an administrator of the grant's company or its trustee asks; it frees the request's options and touches no tax row |
| `Exercise.ReviewRefusalTells` | backend/app/api/exercise_requests.py:149-185 | a refused review names what stood in the way, with the right amounts |
| `Exercise.ApprovalIsSafe` | backend/app/api/exercise_requests.py:159-172 | an approval keeps the grant's approved total within what has vested that day |
| `Exercise.SubmittedIff` | backend/app/api/exercise_requests.py:347-380 | a submission goes through if and only if the grant is the employee's, the leaver's window is open and it fits what has vested beside everything asked for |
| `Exercise.SubmissionStores` | backend/app/api/exercise_requests.py:384-400 | a submission stores one pending request and its one event |
| `Exercise.SubmitRefusalTells` | backend/app/api/exercise_requests.py:348-382 | a refused submission names what stood in the way, with the right amounts |
| `Exercise.RejectionOverturnsApproval` | backend/app/api/exercise_requests.py:236-240 | an approved request stops being approved if and only if someone entitled rejects it; its tax record stays |
| `Settlement.WithinTotalIff` | backend/app/api/employees.py:184-223 | after a returning termination approved plus returned options stay within the grant if and only if no more was approved than had vested on the leaving day |
| `Settlement.LeavingTodayIsWithin` | backend/app/api/exercise_requests.py:159-172 | leaving on the day of an approval always stays within the grant |
| `Settlement.AskedIff` | backend/app/api/exercise_requests.py:347-380 | of an untouched grant exactly the positive amounts up to what has vested may be asked for |
| `Settlement.AskedIsApproved` | backend/app/api/exercise_requests.py:149-185 | whatever was asked for of an untouched grant may be approved at once, and is then all that is approved |
| `Settlement.BackdatedLeaverExceedsIff` | backend/app/api/employees.py:190-223 | exercising part of an untouched grant and leaving as of an earlier day takes more than the grant if and only if the part exceeds what had vested by that day |
| `Settlement.ExceedingRun` | backend/app/api/employees.py:190-223 | a run from an empty plan: 100 of 400 options are exercised, and 400 are returned |
| `Exercise.ExerciseApi.constructor` | backend/app/api/exercise_requests.py:347-402 | with no requests the invariant holds |
| `Exercise.ExerciseApi.CreateExerciseRequest` | backend/app/api/exercise_requests.py:347-402 | request and event are written together, or nothing is |
| `Exercise.ExerciseApi.ReviewExerciseRequest` | backend/app/api/exercise_requests.py:225-270 | on both review paths status, tax record and event are written together, or nothing is |
| `Tax.Progressive` | backend/app/services/tax_engine.py:124-132 | the early-exit loop computes the recursive early-exit sum |
| `Tax.LoopIsSliceTax` | backend/app/services/tax_engine.py:124-132 | for contiguous brackets it is the sum over all brackets of what the part of the gain inside each is charged |
| `Tax.WholeGainTaxed` | backend/app/services/tax_engine.py:127-130 | exactly the whole gain is taxed |
| `Tax.TaxMonotoneAndBounded` | backend/app/services/tax_engine.py:110-132 | more gain never means less tax, and the tax is between zero and the top rate times the gain |
| `Tax.TaxLine` | backend/app/services/tax_engine.py:110-132 | with rates that never fall, the tax lies below the line of the bracket the gain ends in and grows at least as fast beyond it |
| `Tax.EffectiveRateGrows` | backend/app/services/tax_engine.py:135 | with rates that never fall, the unrounded effective rate never falls as the gain grows |
| `Tax.LatestIsLatest` | backend/app/services/tax_engine.py:67-76 | the chosen rule pack applies and no applicable one starts later; none if and only if none applies |
| `Tax.LatestIsDetermined` | backend/app/services/tax_engine.py:67-76 | with unique (country, type, start) the storage order does not matter |
| `Tax.AssessedBy` | backend/app/services/tax_engine.py:53-138 | the pack that started last decides: its brackets, or its flat rate as one open bracket, or the reason it cannot |
| `Tax.NothingAssessed` | backend/app/services/tax_engine.py:78-88 | with no pack started the reason says whether the track was ever modelled |
| `Tax.FuturePackIff` | backend/app/services/tax_engine.py:65-96 | publishing a rule pack that starts later leaves the outcome alone if and only if the track was known before; otherwise only the reason changes |
| `Documents.LazyIsEager` | backend/app/services/document_status.py:31-53 | a request on the lazily expiring system gets the answer of one that expires on time, and the stored rows differ only by expiries not looked at yet |
| `Documents.LazyRunIsEagerRun` | backend/app/api/documents.py:39-108 | the same for every answer of every run |
| `Documents.SentExpiresIff` | backend/app/services/document_status.py:61-89 | a sent document left alone shows as expired if and only if strictly more than its window has passed; the company's window for the template goes before its general one, and that before thirty days |
| `Documents.ActedIff` | backend/app/services/document_status.py:92-129 | an action goes through if and only if the user may open the document, the version is current, and it is a draft to be sent or a sent one within its deadline |
| `Documents.ActStores` | backend/app/api/documents.py:88-108 | an action that goes through stores and shows the status asked for, the time it was sent or acknowledged, the deadline of a sent one, and nothing else |
| `Documents.RefusalTells` | backend/app/services/document_status.py:92-129 | a refused action names what stood in the way, with the status as of now |
| `Documents.ListShows` | backend/app/services/document_status.py:31-53 | a list shows each document as stored, but a sent one past its deadline as expired |
| `Documents.GeneratedIff` | backend/app/api/documents.py:127-161 | a document is generated if and only if the template is known, the grant is the company's and rendering succeeds |
| `Documents.GeneratedDraft` | backend/app/api/documents.py:163-178 | generating stores and shows a draft of the grant's owner, marked latest, and changes nothing else but a mark |
| `Documents.StatusMovesForward` | backend/app/services/document_status.py:20-53 | a request moves a document one step along the status machine or not at all, and expires it only after its deadline |
| `Documents.FinalStaysFinal` | backend/app/services/document_status.py:23-28 | on every run what was acknowledged, declined or expired stays so |
| `Documents.AcknowledgedIsFrozen` | migrations/versions/2026_08_09_1400-c8d5e2f0a1b4_document_acknowledgment_deadline.py:36-53 | no request trips the freeze trigger; an acknowledged row changes only in being the latest, and only when replaced |
| `Documents.AcknowledgedStaysFrozen` | migrations/versions/2026_08_09_1400-c8d5e2f0a1b4_document_acknowledgment_deadline.py:36-53 | on every run every frozen column of an acknowledged row is kept |
| `Documents.GeneratedVersioned` | backend/app/api/documents.py:142-172 | generating keeps each key's versions counted and exactly its last one marked latest |
| `Documents.VersionsOverRuns` | backend/app/api/documents.py:142-172 | on every run each (grant, template) has versions 1..n in order of generation with exactly the last marked latest |
| `Documents.LatestIsHighest` | backend/app/api/documents.py:144-150 | versions of a key differ, and the one marked latest is the highest |
| `Documents.DocumentStore.ExpireDue` | backend/app/services/document_status.py:31-53 | exactly the due documents of the list expire, and nothing else changes |
| `Documents.DocumentStore.Transition` | backend/app/api/documents.py:78-108 | load, check access, sweep, check, write and answer as the step function says; a refusal keeps the sweep |
| `Documents.DocumentStore.GenerateDocument` | backend/app/api/documents.py:142-178 | a new latest version, or the first failing check and nothing written |
| `Import.RegistryIsTopological` | backend/app/services/company_scope.py:192-257 | every foreign key of the registry names an earlier table, and ownership runs through required keys |
| `Import.ScopeGrows` | backend/app/services/company_scope.py:72-107 | adding rows never takes a row out of a company's scope |
| `Import.CleanScan` | backend/app/services/import_.py:245-273 | a table without errors adds exactly its keys to what was seen, none twice |
| `Import.CleanScanTables` | backend/app/services/import_.py:238-274 | each row was classified against the tables before it and the rows above it |
| `Import.CleanRow` | backend/app/services/import_.py:245-273 | what a row's status says about its key and its references |
| `Import.CleanBundleIff` | backend/app/services/import_.py:238-274 | the single pass finds no error if and only if every row is acceptable, wherever in the bundle its references are |
| `Import.ValidIff` | backend/app/services/import_.py:422-446 | a dry run is valid if and only if every row is acceptable, every event has its aggregate and corrects nothing below it, and every rate and bracket has its rule pack |
| `Import.RowsLand` | backend/app/services/import_.py:553-575 | every row of a clean bundle is in the target's scope once its table is written |
| `Import.ReferenceLands` | backend/app/services/import_.py:553-575 | every reference names a row of the target once the tables before are written |
| `Import.OneCompany` | backend/app/services/company_scope.py:72-107 | no row is in two companies' scopes |
| `Import.OtherScopeUnchanged` | backend/app/services/company_scope.py:72-107 | another company's scope is the same after the write |
| `Import.ClosedAtEveryPrefix` | backend/app/services/import_.py:553-575 | at every prefix of the table order the rows about to be written refer only to rows of the target already present |
| `Import.CommittedRowsAreKnown` | backend/app/services/import_.py:685-720 | after a commit every row of the bundle and everything it refers to is in the target's recomputed scope |
| `Import.CleanEventsLand` | backend/app/services/import_.py:344-385 | after a clean scan every (aggregate, number) pair of the bundle is stored or about to be |
| `Import.EventAggregateLands` | backend/app/services/import_.py:361-370 | the aggregate of every imported event belongs to the target |
| `Import.CommittedIff` | backend/app/services/import_.py:685-720 | a commit goes through if and only if the bundle is valid and brings nothing new or meets the constraints, and else leaves the database alone |
| `Import.OthersUntouched` | backend/app/services/import_.py:666-682 | no row outside the target changes, the pool recompute moves only the balances of the target's pools, and all new rows are the target's |
| `Import.NewRowStored` | backend/app/services/import_.py:501-509 | a new row is stored as it came but for its company, which is the target, and the user columns that cannot travel |
| `Import.OtherRowsStored` | backend/app/services/import_.py:578-663 | every tax and audit row of the bundle is stored, new events without their actors, preferences and dismissals not at all |
| `SharedIds.PoolsAreSettled` | backend/app/services/import_.py:666-682 | after a commit every pool that was there, whoever owns it, stores the two amounts of its whole history if the bundle brought it an event, and else what it stored; its size never changes |
| `SharedIds.NewPoolsAreSettled` | backend/app/services/import_.py:666-682 | so does every pool the bundle brings |
| `SharedIds.SettledAgreesIff` | backend/app/services/import_.py:666-682 | a pool so settled agrees with its history if and only if the history has its size |
| `Import.HistoryUnchangedIff` | backend/app/services/import_.py:624-647 | a commit leaves what `events_for` returns for an id alone if and only if no new event of the bundle carries that id within the cuts |
| `Import.OtherPoolReachedOnlyBySharedId` | backend/app/services/import_.py:359-370 | a new event reaches another company's pool only if the target has a row with the pool's id in another ledger table |
| `SharedIds.OtherPoolAgreesIff` | backend/app/services/import_.py:666-682 | another company's pool row never changes, and agrees with its history after a commit that brings it no base if and only if the new events with its id change nothing after its base |
| `SharedIds.SharedIdCommits` | backend/app/services/import_.py:685-720 | one row with the pool's id in another ledger table and one event of that table are committed into any database that has neither |
| `SharedIds.SharedIdPartsThem` | backend/app/services/import_.py:359-370 | after such a commit the pool's history has moved by the event's amount, its row has not, and they disagree |
| `SharedIds.SharedIdRun` | backend/app/services/import_.py:359-370 | on the registry: company 1 imports an employee 7, and company 0's pool 7 stores (0, 1000) and folds to (400, 600) |
| `Import.SecondDryRun` | backend/app/services/import_.py:422-446 | after a successful commit a second dry run of the bundle is valid and finds nothing new |
| `Import.NothingNewWritesNothing` | backend/app/services/import_.py:685-720 | a commit that finds nothing new leaves the database as it is |
| `Import.SecondCommitIsNoOp` | backend/app/services/import_.py:685-720 | a second commit of the same bundle is accepted, writes nothing and changes nothing |
| `Import.ValidateRows` | backend/app/services/import_.py:245-273 | the row loop computes the scan |
| `Import.ValidateNormalTables` | backend/app/services/import_.py:238-274 | the table loop computes the scan of all tables |
| `Import.ValidateLedgerEvents` | backend/app/services/import_.py:344-385 | the event loop computes its scan |
| `Import.WriteNewRows` | backend/app/services/import_.py:561-572 | the inserts of one table |
| `Import.WriteNormalTables` | backend/app/services/import_.py:553-575 | the inserts of all tables in registry order |
| `Import.Importer.constructor` | backend/app/services/company_scope.py:192-257 | the service runs on the registry, which is topological |
| `Import.Importer.Preview` | backend/app/services/import_.py:422-446 | a dry run writes nothing and reports every row's status |
| `Import.Importer.CommitBundle` | backend/app/services/import_.py:685-720 | all or nothing: an invalid bundle or a failed constraint leaves the database alone, and after success the same bundle has nothing new |

## Left out

- Binary floating point: quantities are exact, and `Tax` uses exact reals before
  the amount is rounded to cents.
- Years outside 1..9999: Python's `date` raises there; the calendar goes on.
- HTTP, roles, authentication, the ownership index (`record_ownership`), the
  audit log and the warning texts of reports.
- Hard deletion of employees without grants.
- Buyback.CapAlwaysHolds: sequential runs only, because the unique constraint covers one lot and not the company's total.
- Interleaving.NoLostUpdate: needs one snapshot per execution; `Interleaving.LateNumberRun` shows why.
- Plan.NoDoubleReturn: runs without a re-activation; `Plan.SecondReturnIff` shows why.
- Plan.TimelyPoolsAgree: pools whose base is dated first; `Plan.FoldAgreesIff` is the exact condition.
- Import.SecondCommitIsNoOp: bundles whose rows all carry their primary key, because a row without one gets a fresh key each time.
- Import.Importer.CommitBundle: constraints the proofs do not need are one flag that may fail any commit.
- The contents of imported tax, audit and notification rows, which are matched
  by key alone, and the size, depth and row limits of an import file.
- Import leaves the columns other than company, references, user columns and
  pool balances as one opaque text, and does not model JSON decoding.
- Documents.LazyIsEager: one instant per request; the code reads the clock up to three times.
- Document lists filtered by status: they filter on the stored status before the
  sweep.
- Overlap between pauses in `Plan`: its pause step is one that `Pauses` accepted.
- The stock price and gain behind a tax record: `Exercise` takes the tax amount,
  or its absence, as an input.
- The notification rules for the trustee's lock, the exercise window and slow
  reviews, and the reports other than the dashboard's forward curve.
- Runs start from tables that satisfy the stated invariant, as empty ones do;
  rows that an import or a seed script brought in need not.
- `Import` reads the payloads of pool events only; the book of
  `Buyback.ReceiptAndReportDiffer` already holds the share event an import left.
- Time zones: days and instants are numbers.
