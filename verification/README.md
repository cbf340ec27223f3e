# Verified models of the trading workbench

Machine-checked models of the parts of the workbench where many updates, threads
or frames meet: the replay engine, the live order book, the live session, its
locks and loss stop, the listed-symbols artifacts, the chart and the crash
budget. Code that changes state in place is a class whose methods are proved
equal to a step on values; the laws are then proved about those steps over all
inputs, runs and reachable states. `dafny verify dfyconfig.toml` checks it all.

| files | models |
|---|---|
| `CrashBudget` | the supervisor's sliding-window restart limiter |
| `LiveOrders`, `OrderHistory`, `OrderFills`, `OrderSeeding` | the UI's live order book: merging reports, what each row shows of its history, seeding from venue snapshots, reconciling |
| `ReplayReducer`, `ReducerHistory`, `ReplayMerge`, `ReplayWindows`, `ReplayShown` | the event reducer, the merge of several bar providers, the bounded windows it fills, and the bars they show |
| `ReplayControl`, `ReplayPositions` | the control state machine, and the read positions under it |
| `ReplayRewind`, `ReplayEngine` | snapshot and restore, and the engine object itself |
| `VenueSession` | login, logout and execution mode |
| `LockDiscipline` | handler threads, the live loop and the loss worker over their locks |
| `DailyLoss` | rails, equity baselines and the post-trade loss stop |
| `CalendarDates`, `ListedSymbols` | dates as text and the artifact cache keyed by them |
| `ChartView`, `ChartAutoscale`, `ChartFrames` | coordinate maps and zoom, autoscale, and the chart systems frame by frame |
| `PriceAxis`, `TimeAxis` | label steps and label placement |
| `Wrappers`, `Positions`, `RealArithmetic` | options and results; positions in a list; inequalities about products and quotients |

## What the proofs found

Each item is a law the code does not keep everywhere, with the exact condition
or a concrete state proved in the member named.

- Seeding the same snapshot twice duplicates rows that carry neither a client
  nor a venue id (`OrderSeeding.SeedTwiceIff`).
- From any book, fills do not depend on delivery order for events, for seeds with
  a client id and for modifies of ids the book holds. They do for seeds known by
  venue id only, for full replacements, and for modifies of other ids
  (`OrderFills.CommutesIffMergeable`).
- A working row the venue reported without a client id is flagged unknown right
  after being seeded (`OrderSeeding.ReconcileAfterSeed`).
- The comment at `python/engine/reducer.py:69` ties the shared price to the
  primary instrument; the code leaves it at the last due provider in load order.
  It is the primary's close exactly when that provider's close agrees
  (`ReplayWindows.PriceMatchesPrimaryIff` for one advance, `ReplayWindows.PricedForIff` for a
  run; an instance where it does not is `ReplayWindows.PriceLeavesPrimary`).
- A load whose first bar the data models reject raises but keeps hold of its
  provider, so the next load succeeds with it unread, whatever it asks for
  (`ReplayPositions.RejectedLoadSticks`).
- A snapshot taken right after priming does not round-trip: the primed bar has
  no open time (`ReplayRewind.RewindAfterPriming`).
- Outside PAUSED the run gate is cleared exactly when the legacy start or stop was
  called while paused and nothing has set the gate since
  (`ReplayControl.GateLostIff`).
- `SetExecutionMode` assigns the mode before it checks for a runner. Only the
  session's consistency makes a failed request harmless
  (`VenueSession.FailedModeKeepsModeIff`). A logout or a failed
  replacement of a dead session leaves a live mode in place without a session, and
  nothing else does (`VenueSession.OrphanedHistory`).
- A start of the live components that times out may come through later. It then
  stands without a venue until the next login or logout, or takes over a live
  session with an adapter that never logged in (`VenueSession.StrayHistory`,
  `VenueSession.RunnerChangesIff`, `VenueSession.LateStartTakesOver`).
- End dates such as `2024-1-5` are accepted but compared as text, so they are
  clamped to the last day when they should not be
  (`ListedSymbols.ResolvesRightlyIff`).
- The autoscale guard compares absolute differences, so for very large spreads
  it can leave a scale in place that does not fit: when is in
  `ChartAutoscale.CloseFitsIff`, a run of two frames in
  `ChartFrames.StaleScaleMisfits`.

The 64-label cap of the time axis could hide multiples on a view with a longer
window (`TimeAxis.LabelsCoverWindowIff`), but never does on the charts this
program spawns (`TimeAxis.ReachableLabelsCover`).

## Assumptions

- `f32` and `f64` are reals and times are integers; replay bar times are whole
  nanoseconds and milliseconds their truncation.
- Handlers run one at a time where session state is concerned, and a start that
  timed out comes through between two of them.
- Venue names reach the login model in upper case, as the handler makes them.
- Run ids are never reused for the at-most-once loss stop; the general bound
  does not need this.
- The catalog behind the listed symbols does not change between requests, and
  its first day is not after its last.
- Programs in the lock model are what the handlers and callbacks do to the two
  backend locks, the run registry's lock and the live loop. The registry's lock
  is released before any other wait, as in `python/engine/live/run_registry.py`; so
  are the order facade's, the event bus's and the secret vault's own locks, which
  are not modelled.

## Model

| member | source | states |
|---|---|---|
| `CrashBudget.Budget.RecordAndAllowsRestart` | src/backend_supervisor.rs:113-118 | Pruning in place and pushing grants a restart exactly when the whole crash log, filtered to the window, is below the maximum. |
| `CrashBudget.RecentOfRecent` | src/backend_supervisor.rs:113-118 | Pruning early loses no entry that a later pruning would have kept. |
| `CrashBudget.RecentIs` | src/backend_supervisor.rs:113-118 | What pruning keeps, in order, are exactly the crashes less than one window old. |
| `CrashBudget.StoredIsRecent` | src/backend_supervisor.rs:113-118 | For non-decreasing crash times the stored vector is the complete log since the last reset, filtered to the window at the latest crash. |
| `CrashBudget.RestartsPerWindow` | src/backend_supervisor.rs:113-118 | Any granted restarts lying less than one window apart number at most `max - 1`. |
| `CrashBudget.RefusedIff` | src/backend_supervisor.rs:113-118 | A restart is refused if and only if the earlier crashes of the whole log less than one window old, and this one, number at least `max`. |
| `LiveOrders.OrderBook.UpsertFull` | src/trading.rs:1020-1031 | Replaces the first row with the order's client id, or inserts in front and cuts the book to 64 rows. |
| `LiveOrders.OrderBook.ApplyEvent` | src/trading.rs:1044-1086 | An event changes the book exactly as one delivery of the merge: monotone fill, non-empty tags win, unknown ids inserted. |
| `LiveOrders.OrderBook.ApplyModify` | src/trading.rs:1129-1162 | A modify merges into the first row with its client id, and changes nothing when there is none. |
| `LiveOrders.OrderBook.SeedWorking` | src/trading.rs:1171-1225 | A seed fills gaps in the row its key finds, never regresses a fill or a terminal status, and inserts otherwise. |
| `LiveOrders.OrderBook.SeedAll` | src/backend_sync.rs:608-616 | Seeding a snapshot is the run of its rows, in order. |
| `LiveOrders.FindUnique` | src/trading.rs:1055-1061 | The row an update goes to is the first match and nothing else satisfies that description. |
| `LiveOrders.RunKeepsBook` | src/trading.rs:1015-1225 | After any sequence of updates of every kind, non-empty client ids are unique and the book has at most 64 rows. |
| `OrderFills.MergeFill` | src/trading.rs:994-999 | Every merge either keeps a row's fill or moves it to the reported one, never to a smaller quantity. |
| `OrderHistory.RowsReadHistory` | src/trading.rs:994-1225 | Over any interleaving of events, modifies, seeds, full replacements and evictions the book is the newest 64 rows, newest first, and every field of every row is read off what the row has heard since it entered: the last status reported, but for seeds after a terminal one; the quantity and price it started with or a modify last set, with gaps filled by the first seed that can; the last non-empty tags, the first non-empty symbol and side; the largest fill with the average price of the last report attaining it. |
| `OrderHistory.ReachesFirstNamed` | src/trading.rs:1055-1061 | An update changes the first row it names and no other, whatever its kind. |
| `OrderHistory.InsertsInFront` | src/trading.rs:1063-1086 | One that names no row becomes a new row in front, with the fields it reports, the oldest of 64 making room; a modify that names none is dropped. |
| `OrderHistory.MergedTerms` | src/trading.rs:1129-1225 | What each kind of update makes of a row's status, quantity and price: a reported status replaces the old one unless a seed finds FILLED, CANCELED, REJECTED, EXPIRED or DENIED. |
| `OrderHistory.SeedsKeepTerminal` | src/trading.rs:1188-1190 | No run of seeds moves any row of any book off a terminal status. |
| `OrderHistory.SeedRefreshesStatus` | src/trading.rs:1188-1190 | The row a seed reaches takes the seed's status unless its own is terminal. |
| `OrderFills.RowOfIsOnly` | src/trading.rs:1055-1061 | With unique client ids, as every reachable book has, the row updates go to is the only row with that id. |
| `OrderFills.RunFills` | src/trading.rs:1044-1225 | From any starting book and any updates that name a row by client id, with room for the new ids, every id ends with one row that its updates go to, at the maximal fill reported for that id, and nothing is evicted. |
| `OrderFills.FillConfluence` | src/trading.rs:1044-1225 | From any starting book, two delivery orders of the same such updates agree on every id and every filled quantity, and on average prices where equal quantities carry equal prices. |
| `OrderFills.CommutesIffMergeable` | src/trading.rs:1044-1225 | From any book with room for two more rows, an update commutes with every event, as far as fills go, if and only if it is an event, a seed with a client id or a modify of an id the book holds: the exact limit of order-insensitivity, with a witness event for every other update. |
| `OrderSeeding.MergeSnapshot` | python/engine/_backend_impl.py:2265-2269 | For any two lists the answer is the facade rows followed by exactly the venue rows whose venue id no facade row carries, in order; where each list names an order once, so does the answer. |
| `OrderSeeding.NewVenueRowsShape` | python/engine/_backend_impl.py:2265-2269 | Exactly the venue rows with an unknown venue id are kept, in a list that still has distinct venue ids: the shape the seeding law asks for. |
| `OrderSeeding.KeptInOrder` | python/engine/_backend_impl.py:2265-2269 | The venue rows kept are, in order, those without a venue id and those whose id no facade row carries. |
| `OrderSeeding.MergeRound` | src/trading.rs:1171-1225 | A row hit by a facade row and then by a venue row has settled: the same two seeds again change nothing. |
| `OrderSeeding.FindAfterPut` | src/trading.rs:1171-1225 | Seeding one row moves no other key's first match, except by one place when it inserts. |
| `OrderSeeding.SeedTwiceIff` | src/trading.rs:1171-1225 | For a snapshot as built above and any book that stays within the cap, seeding twice equals seeding once if and only if every venue-only row carries a venue id. |
| `OrderSeeding.KeylessGrows` | src/trading.rs:1171-1225 | Seeding rows one of which has neither id always lengthens the book (before the cap), however often they were seeded. |
| `OrderSeeding.ReconcileUnknownOrders` | src/trading.rs:1494-1516 | The filter over the id set reports exactly the orphans of the book: its non-terminal rows whose client id is not a non-empty id of the list. |
| `OrderSeeding.OrphansInBookOrder` | src/trading.rs:1494-1516 | The report has one entry for each orphan position, in book order, and no other. |
| `OrderSeeding.ReconcileAfterSeed` | src/trading.rs:1494-1551 | Reconciling right after seeding flags exactly the non-terminal rows whose client id is empty or not in the snapshot; working rows the snapshot does not mention survive seeding and are flagged. |
| `OrderSeeding.OrderPanel.Apply` | src/backend_sync.rs:509-616 | Each order arm changes the book by the messages it stands for, and the reconcile arm changes nothing but the list of flagged orders. |
| `ReplayReducer.ReducerState.ApplyEvent` | python/engine/reducer.py:50-119 | The in-place update with append and pop equals the reduction: stale events leave the state alone, tagged and untagged events touch disjoint windows. |
| `ReplayReducer.FoldStale` | python/engine/reducer.py:50-68 | Any number of stale events leave no trace. |
| `ReplayReducer.PushLastN` | python/engine/reducer.py:69-119 | Append and drop-oldest keeps exactly a suffix of the unbounded log, for every capacity including 0 on a primed window. |
| `ReducerHistory.ReducerReads` | python/engine/reducer.py:50-119 | From any state and over any events, clock, shared price, bar fields, global windows and every instrument's close and window are read off the live events. The point of a bar update stands under its open time or else its time, with its open, high and low where positive and its close where not. |
| `ReducerHistory.ClockIsLatest` | python/engine/reducer.py:50-68 | The clock is the latest time heard of, from the start or from some event. |
| `ReplayMerge.AdvanceGroup` | python/engine/core.py:358-406 | An advance that reads anything reads, in provider order, all and only the providers whose next bar carries the least pending time. |
| `ReplayMerge.ExhaustedIff` | python/engine/core.py:358-406 | The exhausted flag an advance leaves is set if and only if no provider has an unread bar. |
| `ReplayMerge.MergeTerminates` | python/engine/core.py:358-406 | Each advance with anything unread lowers the number of unread bars, so that as many advances as there are unread bars read everything and leave the exhausted flag set. |
| `ReplayMerge.AdvanceLogs` | python/engine/core.py:385-405 | One advance that reads logs the clock at the least pending time, then the due providers' bars in provider order, each field its own; the primary's untagged update comes just before its tagged one. |
| `ReplayMerge.LogIsComplete` | python/engine/core.py:358-406 | After any number of advances the updates logged under an instrument's own id are exactly its bars read since, once each and in order, whatever the order of bars inside the providers. |
| `ReplayMerge.UntaggedIsPrimary` | python/engine/core.py:385-405 | Beside them the log holds one untagged update for each bar the primary has read, in order, and no other. |
| `ReplayMerge.MergeComplete` | python/engine/core.py:358-406 | Advancing to the end logs every unread bar of every instrument exactly once, in order. |
| `ReplayMerge.AdvanceKeepsTracks` | python/engine/replay.py:73-88 | Advancing changes no bar list and no id, and moves read positions forward only. |
| `ReplayMerge.ClockNeverGoesBack` | python/engine/core.py:358-406 | With time-ordered providers the clock events that any number of advances log are non-decreasing, whatever the log held before. |
| `ReplayMerge.OneTimestampPerAdvance` | python/engine/core.py:358-406 | With strictly ordered providers an effective advance consumes exactly one timestamp: every bar read carries it and every bar left is later. |
| `ReplayWindows.LoadRefines` | python/engine/core.py:226-235 | A fresh load already shows the one primed bar in the windows the refinement speaks of. |
| `ReplayWindows.GroupRefines` | python/engine/core.py:385-405 | One group keeps the relation between windows and unbounded logs for every instrument at once. |
| `ReplayWindows.WindowsAreSuffixes` | python/engine/core.py:117-137 | After any number of advances each instrument's window is the last `max_history_len` of its consumed bars at or after the primed time; the global points are the primary's window and `history` its closes, despite the double emission. |
| `ReplayShown.WindowsShowBars` | python/engine/core.py:117-137 | After any advances from a load over accepted bars each instrument's window holds, place by place, the last bars it has read, with their own open, high, low, close, volume and time; the global window and fields are the primary's. |
| `ReplayShown.AloneShowsBars` | python/engine/core.py:407-419 | The same for a single provider, with its position, price and clock. |
| `ReplayShown.AloneLogs` | python/engine/core.py:407-419 | The single-provider path logs a clock event and an update for each bar it reads, in order, and is exhausted exactly at the end. |
| `ReplayShown.FieldsFollow` | python/engine/core.py:358-406 | After any advances from a load, accepted bars or not, the bar fields and the open time are those of the last bar the primary read. |
| `ReplayWindows.PriceIsLastDue` | python/engine/reducer.py:69-78 | The shared price after a live group is the close of the last due provider in load order, not the primary's. |
| `ReplayWindows.PriceMatchesPrimaryIff` | python/engine/reducer.py:69-78 | In every state of the refinement: after the next group the shared price is the primary's close if and only if the last due provider's next close equals the primary's next one, or its present one when it is not due; a stale group leaves that as it was. |
| `ReplayWindows.PricedForIff` | python/engine/core.py:358-406 | Over a whole run after a load the shared price stays the primary's close if and only if the last due provider agreed at every advance. |
| `ReplayWindows.PriceLeavesPrimary` | python/engine/reducer.py:69-78 | A load and one advance over bars the data models accept, two instruments due at once: the shared price is the other one's close while the primary keeps its own. |
| `ReplayRewind.RestoredIff` | python/engine/core.py:520-572 | Restoring a snapshot gives back the state it was taken of, or the visible part of it, if and only if nothing it drops or fills in was in use. |
| `ReplayShown.RestoreFillsIn` | python/engine/core.py:520-572 | What a snapshot leaves out is filled in: bar prices by its price, the open time by its time, points one second apart up to its time. |
| `ReplayRewind.RewindReplays` | python/engine/core.py:483-572 | Advance `k` times, restore, advance `k` times: the visible state, index and exhausted flag are those after the first `k` advances. |
| `ReplayRewind.RewindIff` | python/engine/core.py:483-572 | That holds for every `k` if and only if the snapshotted state uses nothing a snapshot drops. |
| `ReplayRewind.RewindAfterPriming` | python/engine/core.py:407-419 | For positive, ordered bars a snapshot taken `j` advances after priming replays faithfully for every `k` if and only if at least one bar beyond the primed one has been read. |
| `ReplayControl.ControlIsConsistent` | python/engine/core.py:284-356 | Over any call sequence, snapshots included, the engine runs exactly in RUNNING and PAUSED has its gate cleared; without the legacy start and stop a cleared gate means PAUSED. |
| `ReplayControl.StateIsLastEntered` | python/engine/core.py:139-356 | Over any call sequence the session is in the state the last call that was let through enters, each call's own conditions written out. |
| `ReplayControl.PauseThenResume` | python/engine/core.py:293-311 | A pause clears running and the gate; a resume then gives the controls back. |
| `ReplayControl.StopThenLoad` | python/engine/core.py:313-333 | After a stop a load succeeds with the providers still held; after a forced stop only if it builds its own. |
| `ReplayControl.GateBrokenIff` | python/engine/core.py:139-149 | In a consistent session whose gate is cleared exactly in PAUSED, a call breaks that tie if and only if it is the legacy start or stop made while paused. |
| `ReplayControl.GateLostIff` | python/engine/core.py:284-356 | Over any run, outside PAUSED the gate is cleared if and only if a legacy call was made while paused and no call since has set the gate; once lost it stays cleared until then. |
| `ReplayControl.LegacyLeavesGateCleared` | python/engine/core.py:139-149 | The shortest such runs: load, start, pause, then either legacy call. |
| `ReplayPositions.ReadMoves` | python/engine/core.py:358-406 | Reading moves every position forward by at most one bar, changes no id and no bars, and moves something exactly when anything is unread. |
| `ReplayPositions.RestorePutsPrimary` | python/engine/core.py:520-572 | An accepted restore puts the primary at the index if that lies within its bars, and moves no other provider. |
| `ReplayPositions.RunSound` | python/engine/core.py:151-356 | Over any calls the controls stay consistent, positions stay inside their bars, and a session counts as loaded exactly while it holds providers. |
| `ReplayPositions.PositionsMoveIff` | python/engine/core.py:284-572 | After any call sequence the next call changes a read position if and only if it advances in RUNNING or steps in LOADED or PAUSED with something unread, loads into an empty engine, drops the providers, or restores another position; in the first two cases it reads one group. |
| `ReplayPositions.ForceStopLoadsAfresh` | python/engine/core.py:323-333 | A forced stop and a later successful load leave exactly the providers that load built, whatever was held before and whatever ignored calls lie between. |
| `ReplayPositions.RejectedLoadSticks` | python/engine/core.py:117-137 | A load whose first bar the data models reject leaves its provider held, so the next load succeeds with that provider whatever it asks for. |
| `ReplayEngine.BarProvider.PopNextTick` | python/engine/replay.py:79-85 | Returns the next bar and moves the position by one, or nothing at the end. |
| `ReplayEngine.BarProvider.SetCurrentIndex` | python/engine/replay.py:94-98 | Moves the read position to a value within the bar list and ignores any other value. |
| `ReplayEngine.SortByTime` | python/engine/core.py:370-385 | A stable sort: ordered by time, and at each time the same providers in the same order as given. |
| `ReplayEngine.DataEngine.Start` | python/engine/core.py:139-143 | The legacy start enters RUNNING and leaves the gate as it was. |
| `ReplayEngine.DataEngine.Stop` | python/engine/core.py:145-149 | The legacy stop enters IDLE and leaves the gate as it was. |
| `ReplayEngine.DataEngine.StartEngine` | python/engine/core.py:284-291 | Succeeds from LOADED only and moves no read position. |
| `ReplayEngine.DataEngine.PauseReplay` | python/engine/core.py:293-301 | Succeeds from RUNNING only, clears the gate, and moves no read position. |
| `ReplayEngine.DataEngine.ResumeReplay` | python/engine/core.py:303-311 | Succeeds from PAUSED only, sets the gate, and moves no read position. |
| `ReplayEngine.DataEngine.StopReplay` | python/engine/core.py:313-321 | Succeeds from RUNNING or PAUSED only and keeps the providers and their positions. |
| `ReplayEngine.DataEngine.ForceStopReplay` | python/engine/core.py:323-333 | From any state ends in IDLE without providers and with the gate set: the step the force-stop law is about. |
| `ReplayEngine.DataEngine.PrimeProviderLocked` | python/engine/core.py:117-137 | Reads exactly the first bar and takes hold of the provider; then shows the bar in every window and field, or raises with the old state kept exactly when the data models reject it. |
| `ReplayEngine.DataEngine.LoadReplayData` | python/engine/core.py:151-279 | From IDLE: a provider already held is kept and the load succeeds unread; otherwise the stored bars, or fetched ones where an id has none, are built and primed. Refused without touching anything when some id has no bars; raised, with the provider held and nothing shown, when the first bar is rejected. |
| `ReplayEngine.KeysInOrder` | python/engine/core.py:151-279 | Providers are built for the requested ids in the order of their first occurrences, each once. |
| `ReplayEngine.BuildOutcomes` | python/engine/core.py:151-279 | When nothing can be built, for the catalog and the direct sources alike; a rejected first bar is one before the epoch's first millisecond or with a non-positive price, and a built one is neither. |
| `ReplayEngine.DataEngine.AdvanceMulti` | python/engine/core.py:358-406 | Peek, stable sort and pop loop over provider objects equal one abstract advance of the merge, log and windows included. |
| `ReplayEngine.DataEngine.AdvanceAlone` | python/engine/core.py:407-419 | The single-provider branch equals one abstract single advance. |
| `ReplayEngine.DataEngine.AdvanceTick` | python/engine/core.py:345-356 | Moves controls and read positions by the advance step of the position law; in a session not RUNNING nothing at all changes, in RUNNING it is one abstract advance. |
| `ReplayEngine.DataEngine.StepReplay` | python/engine/core.py:425-435 | From PAUSED or LOADED reads one tick and stays in that state; refused otherwise with nothing read. |
| `ReplayEngine.DataEngine.ForgetInstrument` | python/engine/core.py:442-448 | Removes one instrument's close and window and nothing else. |
| `ReplayEngine.DataEngine.TakeSnapshot` | python/engine/core.py:483-518 | Records the visible state and the primary's read position, or fails exactly where the state model rejects the price or time. |
| `ReplayEngine.DataEngine.RestoreSnapshot` | python/engine/core.py:520-572 | Refuses a snapshot of another mode or source without touching anything; otherwise restores the reducer and repositions the primary's provider only. |
| `ReplayEngine.LoadedIsJustLoaded` | python/engine/core.py:151-279 | The state a multi-instrument load leaves is the one the window refinement starts from. |
| `VenueSession.VenueStateMachine.TransitionTo` | python/engine/live/state_machine.py:38-47 | Moves along an allowed edge and refuses any other target, staying where it was; every transition the handlers request is allowed. |
| `VenueSession.Transitions` | python/engine/live/state_machine.py:21-31 | The allowed edges of the venue, one by one. |
| `VenueSession.ModeManager.SetExecutionMode` | python/engine/mode_manager.py:13-24 | Accepts a live mode if and only if the venue is CONNECTED or SUBSCRIBED, and assigns the mode exactly when it accepts. |
| `VenueSession.LiveBackend.StartLiveComponents` | python/engine/_backend_impl.py:410-509 | Sets runner, bridge and facade of one adapter together, unless they exist or the start fails or times out before that. |
| `VenueSession.LiveBackend.CompleteLateStart` | python/engine/_backend_impl.py:410-446 | A start that timed out earlier sets its own adapter's components, whatever is in place, and leaves venue and mode alone. |
| `VenueSession.LiveBackend.TeardownLiveComponents` | python/engine/_backend_impl.py:593-634 | Ends with no component and the venue DISCONNECTED, or does nothing when there was none. |
| `VenueSession.LiveBackend.TryLogin` | python/engine/_backend_impl.py:1635-1724 | One attempt, on components already in place if there are any, reports its own failure code, asks for a retry only for a missing display in a debug build, and on success is live with its adapter. |
| `VenueSession.LiveBackend.Fail` | python/engine/_backend_impl.py:1617-1633 | From whatever a failed attempt left, ends DISCONNECTED with no component. |
| `VenueSession.LiveBackend.VenueLogin` | python/engine/_backend_impl.py:1546-1742 | The whole handler, retries, dead-session recovery and components of a late start included, is one step whose outcome `LoginByInputs` reads off the inputs; a venue caught AUTHENTICATING is refused. |
| `VenueSession.LoginByInputs` | python/engine/_backend_impl.py:1546-1742 | After any history: a login without supported credentials, a known venue, a factory and a matching configuration changes nothing and fails; one on a working live session changes nothing and succeeds; any other ends live on the adapter of its deciding attempt, or with everything down. |
| `VenueSession.RefusedIff` | python/engine/_backend_impl.py:1546-1586 | Each of the five refusals is the answer, whatever the environment does, if and only if its own condition is the first to hold; VENUE_MISMATCH exactly for a known venue other than the configured one. |
| `VenueSession.FailureCodes` | python/engine/_backend_impl.py:1635-1724 | The code of a failed attempt, by what failed first: start, prompt or login. |
| `VenueSession.ModeByInputs` | python/engine/_backend_impl.py:1744-1804 | After any history each answer to a mode request has its exact condition, an accepted one assigns the mode and nothing else changes; a logout keeps the mode alone. |
| `VenueSession.LiveBackend.VenueLogout` | python/engine/_backend_impl.py:1744-1752 | Ends DISCONNECTED with no component, mode untouched. |
| `VenueSession.LiveBackend.SetExecutionMode` | python/engine/_backend_impl.py:1754-1804 | Assigns the mode before it looks for a runner; each refusal has its own code. |
| `VenueSession.SessionConsistent` | python/engine/_backend_impl.py:1588-1752 | Between any two requests or late starts a live venue has a runner, bridge and facade are that runner's, and the venue is never left AUTHENTICATING; without late starts a runner also means a live venue. |
| `VenueSession.StrayHistory` | python/engine/_backend_impl.py:410-509 | After any history components stand without a live venue if and only if a late start put them there and no logout or unrefused login came since. |
| `VenueSession.RunnerChangesIff` | python/engine/_backend_impl.py:410-509 | While the venue stays live its runner changes if and only if a late start of another adapter comes through or a login replaces a dead session with another adapter. |
| `VenueSession.LateStartTakesOver` | python/engine/_backend_impl.py:495-509 | A login whose start times out, a successful login, then the first start coming through: the live session runs on the adapter that never logged in. |
| `VenueSession.LoginSettles` | python/engine/_backend_impl.py:1588-1742 | After any history, a login that is neither refused nor a no-op ends live if and only if it reports success, with an adapter of its own attempts or the one a late start left in place. |
| `VenueSession.FailedModeKeepsMode` | python/engine/_backend_impl.py:1774-1804 | After any history a failed mode request changes nothing, and the missing-runner refusal never occurs. |
| `VenueSession.FailedModeKeepsModeIff` | python/engine/_backend_impl.py:1774-1804 | In an arbitrary state, failed requests keep the mode for every request if and only if the state is not a live venue without a runner (given an adapter factory). |
| `VenueSession.OrphanedIff` | python/engine/_backend_impl.py:1546-1752 | One request takes the session away from under a live mode if and only if it logs out, or replaces a dead session and the outcome of its last attempt is a failure. |
| `VenueSession.OneRequest` | python/engine/_backend_impl.py:1546-1804 | From any session between handlers: the venue is live afterwards exactly if it was and the request did not end it, or the request began it; the mode is live exactly if entered, or live before and not put back to Replay. |
| `VenueSession.OrphanedHistory` | python/engine/_backend_impl.py:1546-1804 | After any history a live mode is left without a session if and only if a live mode was accepted with no Replay request since, and after it a session ended by logout or failed replacement with none begun since. |
| `VenueSession.LiveModeOutlivesLogout` | python/engine/_backend_impl.py:1744-1752 | Log in, choose LiveAuto, log out: the mode is still LiveAuto while DISCONNECTED. |
| `LockDiscipline.HandlerDisciplined` | python/engine/_backend_impl.py:2597-2642 | Start and control handlers, and the loss worker, only ever wait upwards in the order strategy lock, live loop, rails lock, registry lock. |
| `LockDiscipline.EvaluateLossDisciplined` | python/engine/_backend_impl.py:2474-2520 | The account callback does too, including the worker it spawns, and never waits for the loop itself. |
| `LockDiscipline.RequestDisciplined` | python/engine/_backend_impl.py:1657-1692 | Requests that call the live loop or look runs up while holding neither backend lock keep the discipline, however many steps they take. |
| `LockDiscipline.HandlerActs` | python/engine/_backend_impl.py:2597-2642 | A handler takes the strategy lock, does its lookups and round trips in order, gives the lock back, and only then takes the rails lock. |
| `LockDiscipline.RequestActs` | python/engine/_backend_impl.py:2474-2520 | A request is its lookups and round trips in order; on the loop an account snapshot holds the rails lock around one lookup and starts the worker after releasing it. |
| `LockDiscipline.LocksMove` | python/engine/_backend_impl.py:320-333 | Whoever steps, a lock passes only from nobody to the agent whose next act takes it, and from its holder to nobody. |
| `LockDiscipline.ThreadsMove` | python/engine/_backend_impl.py:320-325 | A thread does its acts in order and waits from a round trip until the loop answers it. |
| `LockDiscipline.QueueMoves` | python/engine/_backend_impl.py:320-325 | The loop serves round trips and callbacks first come, first served, and answers when the body is done. |
| `LockDiscipline.KeepsInv` | python/engine/_backend_impl.py:320-333 | Every step of every thread and of the loop keeps the discipline, with any number of threads and callbacks. |
| `LockDiscipline.OnlyStrategyAcrossRoundTrips` | python/engine/_backend_impl.py:320-333 | In every reachable state a thread waiting for the loop holds at most the strategy lock, and the loop neither holds nor wants that lock. |
| `LockDiscipline.WaitingClimbs` | python/engine/_backend_impl.py:2474-2520 | Whoever is waited for wants something of strictly higher rank. |
| `LockDiscipline.NoDeadlockCycle` | python/engine/_backend_impl.py:2474-2642 | In every reachable state no chain of waiting returns to its start, and no chain has more than five members. |
| `LockDiscipline.Progress` | python/engine/_backend_impl.py:2474-2642 | Unless everything has finished, some thread or the loop can step. |
| `LockDiscipline.EverythingFinishes` | python/engine/_backend_impl.py:2474-2642 | Without new arrivals every schedule is bounded by the work left, and one that can go no further has finished every thread, callback and round trip with all locks free. |
| `LockDiscipline.BackendNeverDeadlocks` | python/engine/_backend_impl.py:320-333 | However starts, controls, logins, orders and other requests, account snapshots, lookups and loss stops arrive and interleave, something can step until all is done. |
| `LockDiscipline.StrategyLockOnTheLoopDeadlocks` | python/engine/_backend_impl.py:320-325 | A callback that takes the strategy lock reaches a state where nothing can step: the warning beside the lock is necessary. |
| `DailyLoss.LossStop.EquityFromSnapshot` | python/engine/_backend_impl.py:2464-2472 | The loop computes cash plus the unrealized result of every position. |
| `DailyLoss.SumSplits` | python/engine/_backend_impl.py:2464-2472 | The sum over the positions is additive, whatever the order of the additions. |
| `DailyLoss.LossStop.RecordRails` | python/engine/_backend_impl.py:2614-2616 | Stores the run's cap and forgets any baseline under its id. |
| `DailyLoss.LossStop.ReleaseRunRailsLocked` | python/engine/_backend_impl.py:2431-2438 | Removes rails and baseline together. |
| `DailyLoss.LossStop.EvaluatePostTradeLoss` | python/engine/_backend_impl.py:2474-2510 | Judges the first active run only: its first snapshot becomes the baseline, a breach releases its rails and names it for the stop, anything else changes nothing. |
| `DailyLoss.BaselinesHaveRails` | python/engine/_backend_impl.py:2431-2438 | Over any interleaving, runs with a baseline are runs with rails. |
| `DailyLoss.StopsBoundedByStarts` | python/engine/_backend_impl.py:2499-2503 | Over any interleaving a run is stopped at most as often as its rails were recorded. |
| `DailyLoss.StoppedAtMostOnce` | python/engine/_backend_impl.py:2499-2503 | With ids never reused, at most once. |
| `DailyLoss.TablesReadHistory` | python/engine/_backend_impl.py:2474-2510 | The tables say exactly what the history says: rails for runs recorded, not ended and not yet in breach since; as baseline the equity of the first snapshot judged after the recording. |
| `DailyLoss.StopsExactly` | python/engine/_backend_impl.py:2474-2510 | A snapshot stops a run if and only if the run is the first active one, rails with a positive cap were recorded and not released since, and cash and unrealized results are now, for the first time, more than the cap below those of the first snapshot judged since. |
| `CalendarDates.LessTransitive` | python/engine/_backend_impl.py:1350-1358 | Text comparison of dates is transitive. |
| `CalendarDates.LessIs` | python/engine/_backend_impl.py:1350-1358 | One text is before another exactly when it is at the first place they differ. |
| `CalendarDates.DigitsOrder` | python/engine/_backend_impl.py:1350-1358 | In a fixed number of digits, text order is number order. |
| `CalendarDates.ParseFormat` | python/engine/_backend_impl.py:1322-1330 | Round trip: the zero-padded form of every calendar date is accepted and read back as that date. |
| `CalendarDates.FormatOrder` | python/engine/_backend_impl.py:1350-1358 | On zero-padded dates text order is calendar order, and equal text is the same day. |
| `CalendarDates.ParsedShape` | python/engine/_backend_impl.py:1322-1330 | An accepted date deviates from the padded form only by a one-character month or day or a blank before the day. |
| `CalendarDates.ParseIff` | python/engine/_backend_impl.py:1322-1330 | A text is accepted as a date if and only if it writes that date: a full year, a month of one or two digits, a day of one or two digits or one after a blank. |
| `ListedSymbols.PaddedResolvesRightly` | python/engine/_backend_impl.py:1350-1358 | For padded dates clamping to the last day and detecting days before the first follow the calendar, for every catalog. |
| `ListedSymbols.ResolvesRightlyIff` | python/engine/_backend_impl.py:1322-1358 | An accepted date resolves as the calendar asks against every catalog if and only if it is written zero-padded. |
| `ListedSymbols.SortedSetSorts` | python/engine/_backend_impl.py:1401 | The listed ids are strictly ascending and are exactly the scanned ones. |
| `ListedSymbols.ResolveIdempotent` | python/engine/_backend_impl.py:1350-1358 | A resolved date resolves to itself, so an artifact written under it answers later requests for it. |
| `ListedSymbols.AnswerForResolved` | python/engine/_backend_impl.py:1336-1381 | Asking again for the date that was answered gives the same answer. |
| `ListedSymbols.AnswerByCalendar` | python/engine/_backend_impl.py:1307-1413 | For a padded date the answer is empty before the catalog's first day and otherwise the listed ids under the earlier of the date and the last day. |
| `ListedSymbols.AnsweredIds` | python/engine/_backend_impl.py:1350-1413 | For a padded date: nothing before the first day, otherwise ids in strictly ascending text order that are exactly the scanned ones, under the date or the last day if that is earlier. |
| `ListedSymbols.AnsweredLastDay` | python/engine/_backend_impl.py:1315-1321 | An empty date is answered with exactly the scanned ids under the catalog's last day. |
| `ListedSymbols.AnsweredElse` | python/engine/_backend_impl.py:1307-1381 | Invalid dates, a missing catalog and one without dates each have their own answer. |
| `ListedSymbols.Handler.ListAllListedSymbols` | python/engine/_backend_impl.py:1307-1413 | Whatever was asked before and whichever reads and writes failed, the answer is the one without artifacts; a successful write records exactly the answer, and nothing else is written. |
| `ChartView.PriceRoundTrip` | src/ui/chart_viewstate.rs:193-203 | Price and row maps are inverse both ways. |
| `ChartView.TimeRoundTrip` | src/ui/chart_viewstate.rs:206-217 | A time mapped to its column and back is the same millisecond, rounding included. |
| `ChartView.ColumnRoundTrip` | src/ui/chart_viewstate.rs:206-217 | A column mapped to a time and back is off by at most half a millisecond's width. |
| `ChartView.IntervalToXIncreases` | src/ui/chart_viewstate.rs:206-210 | Later times lie further right and equal stretches are equally wide. |
| `ChartView.PriceToYIncreases` | src/ui/chart_viewstate.rs:193-198 | Higher prices lie higher and equal differences are equally tall. |
| `ChartView.Placement` | src/ui/chart_viewstate.rs:147-210 | The base price lies a tenth of the height above the middle and one tick one cell higher; the latest candle 8 pixels from the right and the next one cell on. |
| `ChartView.ZoomAnchors` | src/ui/chart_interaction.rs:171-185 | A zoom keeps the price and the rounded time under the cursor, for every wheel amount, clamped or not and with non-positive factors. |
| `ChartView.ZoomInRange` | src/ui/chart_interaction.rs:171-185 | After one zoom both cell sizes are in their clamp ranges and autoscale is off. |
| `ChartView.ZoomSizes` | src/ui/chart_interaction.rs:171-185 | Both cell sizes are multiplied by one plus a thirtieth of the wheel amount and cut to 1 to 50 pixels, or to 0.001 to 2000 pixels per unit of price; nothing else but pan and autoscale changes. |
| `ChartView.ZoomDirection` | src/ui/chart_interaction.rs:171-185 | From sizes in range, scrolling up never shrinks a cell, scrolling down never grows one, and a width off its bound really changes. |
| `ChartView.ZoomNeverDrifts` | src/ui/chart_interaction.rs:171-185 | Over any sequence of wheel amounts at a fixed cursor neither the price nor the time under it ever changes. |
| `ChartView.ZoomScalesRows` | src/ui/chart_interaction.rs:171-185 | Where the height clamp does not fire, vertical distances from the cursor are multiplied by one plus a thirtieth of the wheel amount. |
| `ChartView.ZoomScalesColumns` | src/ui/chart_interaction.rs:171-185 | Where the width clamp does not fire, horizontal distances are. |
| `ChartView.PanMoves` | src/ui/chart_interaction.rs:101-103 | A drag moves every price and time by the same pixels, and dragging back restores the view but for autoscale. |
| `ChartView.ChartViewState.OnDrag` | src/ui/chart_interaction.rs:101-103 | The pan observer's effect on the component is the pan above. |
| `ChartView.ChartViewState.ResetView` | src/ui/chart_viewstate.rs:183-188 | Clears pan, scaling and time zoom, turns autoscale on, and leaves the price scale for the next frame. |
| `ChartView.ResetPlaces` | src/ui/chart_viewstate.rs:183-188 | After a reset the latest candle and the base price are at their places again, whatever was panned and zoomed. |
| `ChartView.ChartViewState.ApplyCursorZoom` | src/ui/chart_interaction.rs:171-185 | The in-place zoom is the zoom above. |
| `ChartAutoscale.VisibleCandleSlice` | src/ui/chart_viewstate.rs:249-268 | The search from both ends returns the slice between the first candle not left and the last not right of the area. |
| `ChartAutoscale.VisibleSliceExact` | src/ui/chart_viewstate.rs:249-268 | For candles in time order that slice holds exactly the visible candles. |
| `ChartAutoscale.VisibleIff` | src/ui/chart_viewstate.rs:249-268 | The slice is one stretch of the bars; a bar is in it if and only if its column is no further than one candle outside the area. |
| `ChartAutoscale.ComputeAutoscale` | src/ui/chart_viewstate.rs:297-327 | The loop finds the extremes of the visible candles; the result centres them and gives the padded range the whole main area. |
| `ChartAutoscale.TargetScale` | src/ui/chart_viewstate.rs:297-327 | The scale asked for centres the lowest low and highest high, and puts a range a fifth taller, or two units taller when flat, exactly on the lower and upper edge of the main area. |
| `ChartAutoscale.AutoscaleIgnoresScale` | src/ui/chart_viewstate.rs:297-327 | The scale asked for does not depend on the scale in place. |
| `ChartAutoscale.AutoscaleFits` | src/ui/chart_viewstate.rs:297-327 | With the scale asked for, every visible high and low lies inside the main area and never in the volume area. |
| `ChartAutoscale.CloseFitsIff` | src/ui/chart_viewstate.rs:395-417 | Every scale the epsilon guard may leave in place fits if and only if an explicit inequality on the spread of the visible prices holds. |
| `ChartAutoscale.OrdinarySpreads` | src/ui/chart_viewstate.rs:395-417 | On a default chart it holds for flat prices and for spreads from 0.0001 to 1,000,000. |
| `ChartFrames.ChartWorld.ChartDataTick` | src/ui/chart_viewstate.rs:352-376 | Writes signature and right edge only for unseen data of a changed map, and requests autoscale only if it is on. |
| `ChartFrames.ChartWorld.ChartInteractionTick` | src/ui/chart_viewstate.rs:380-389 | Consumes the change flag and requests autoscale if it is on; never writes the view. |
| `ChartFrames.ChartWorld.ChartAutoscaleApply` | src/ui/chart_viewstate.rs:395-417 | Answers a waiting request once, writing each field only when it moves by more than the tolerance. |
| `ChartFrames.TicksTakeNews` | src/ui/chart_viewstate.rs:352-376 | In either order the ticks take in the signature and the last bar's time of unseen data of a changed map, count those writes, and change nothing else. |
| `ChartFrames.TicksAsk` | src/ui/chart_viewstate.rs:352-389 | They ask for autoscale if and only if it is on and the view was written or there is unseen data. |
| `ChartFrames.AnswerIs` | src/ui/chart_viewstate.rs:395-417 | An answered request gives each field its target unless it is there to within single precision's epsilon, and counts a write for each field given. |
| `ChartFrames.RescaleCloses` | src/ui/chart_viewstate.rs:395-417 | After applying, the scale is within tolerance of the one that would be asked for again. |
| `ChartFrames.FrameSettles` | src/ui/mod.rs:239-249 | One frame settles any state, whichever of the two ticks runs first. |
| `ChartFrames.Quiescence` | src/ui/chart_viewstate.rs:352-417 | From any chart state with fixed data and no input, in any order of the ticks per frame, nothing writes the view after the first frame and nothing requests autoscale after the second. |
| `ChartFrames.ReachableUnmoved` | src/ui/chart_interaction.rs:101-185 | Over any drags, zooms, resets, data and frames, autoscale on means no pan, scaling 1 and the default cell width. |
| `ChartFrames.ReachableShape` | src/ui/chart_viewstate.rs:117-133 | Every reachable chart keeps the area, the one-minute basis and the scaling it was spawned with, and a cell width within the clamps. |
| `ChartFrames.AnsweredRequestFits` | src/ui/chart_viewstate.rs:352-417 | In every reachable state, the frame that answers a request leaves all visible candles inside the main area wherever the guard's inequality holds. |
| `ChartFrames.StaleScaleMisfits` | src/ui/chart_viewstate.rs:395-417 | Two frames of one spawned chart, ticks in any order: the second requests autoscale, the guard keeps the first frame's scale, and the visible bar lies outside the main area. |
| `PriceAxis.Magnitude` | src/ui/chart_axes.rs:64-68 | Every positive range has a power of ten at or below it and less than ten times smaller. |
| `PriceAxis.MagnitudeUnique` | src/ui/chart_axes.rs:64-68 | And only one, so the base of the step is well defined. |
| `PriceAxis.StepFitsLabels` | src/ui/chart_axes.rs:64-77 | For every range and slot count the range holds at most n steps for n of two or more, and less than two for one. |
| `PriceAxis.StepIsRound` | src/ui/chart_axes.rs:64-77 | The step is the smallest of a tenth, a fifth, a half, one and two of the range's power of ten with which the slots cover the range; when none does, the range over the slots but at most five of that power. |
| `PriceAxis.RoundedHighestIsLeast` | src/ui/chart_axes.rs:79-80 | The rounded top is the least multiple of the step at or above the highest price. |
| `PriceAxis.PriceLabels` | src/ui/chart_axes.rs:224-248 | Both loops end and draw the multiples of the step in the range from the top down, up to 64 of them. |
| `PriceAxis.LabelCount` | src/ui/chart_axes.rs:209-248 | At most one label more than slots. |
| `PriceAxis.LabelsAreMultiples` | src/ui/chart_axes.rs:224-248 | Every label is a multiple of the step within the range, one step below the one before. |
| `PriceAxis.LabelsComplete` | src/ui/chart_axes.rs:224-248 | With up to 63 slots no multiple in the range is missing. |
| `PriceAxis.LabelsDoNotCrowd` | src/ui/chart_axes.rs:209-248 | On the screen neighbouring labels are at least 33 pixels apart, or more than half the main area when it has one slot. |
| `PriceAxis.DrawPriceAxis` | src/ui/chart_axes.rs:204-248 | The system draws nothing when the main area spans no price to speak of, and otherwise each label at its own row. |
| `PriceAxis.LabelsOnScreen` | src/ui/chart_axes.rs:204-248 | Every label lies inside the main area and never in the volume area. |
| `TimeAxis.TablesCoarsening` | src/ui/chart_axes.rs:84-147 | Every step table is non-empty, positive and strictly descending, the truncated ones included. |
| `TimeAxis.TableFor` | src/ui/chart_axes.rs:84-147 | The step table of every basis, in minutes. |
| `TimeAxis.CalcOptimalTimeStep` | src/ui/chart_axes.rs:150-178 | The loop picks the coarsest entry giving the wanted number of whole steps, else the finest not above the window, else the coarsest; the start is rounded down for negative times too. |
| `TimeAxis.TimeStepUnique` | src/ui/chart_axes.rs:150-178 | That description fits one entry only. |
| `TimeAxis.StepChosen` | src/ui/chart_axes.rs:150-178 | The step is the coarsest that fits the wanted number of times into the window, else the finest not above the window, else the coarsest. |
| `TimeAxis.RoundedEarliestIsGreatest` | src/ui/chart_axes.rs:172-177 | The rounded start is the greatest multiple of the step not above the earliest time. |
| `TimeAxis.TimeLabels` | src/ui/chart_axes.rs:279-323 | The walk looks at the multiples in the window, at most 64, and draws greedily with the spacing. |
| `TimeAxis.LabelsAreRight` | src/ui/chart_axes.rs:279-323 | Labels are multiples of the step inside the window and the area, at their own column, and pairwise at least 44 pixels apart. |
| `TimeAxis.WalkAccounts` | src/ui/chart_axes.rs:279-323 | No multiple looked at is left out unless it is off the area, cannot be formatted or follows a drawn label too closely. |
| `TimeAxis.UnseenAccountedIff` | src/ui/chart_axes.rs:279-323 | A multiple the walk never looked at has its reason if and only if it is not one that lies in the area, can be formatted and is 44 pixels past every label drawn. |
| `TimeAxis.LabelsCoverWindowIff` | src/ui/chart_axes.rs:279-323 | For an arbitrary view every multiple in the window has a label or a reason if and only if none 64 steps or more from its start could still be drawn after the last label. |
| `TimeAxis.WindowEdges` | src/ui/chart_viewstate.rs:238-244 | The window runs from the area's left edge to its right edge, each to half a millisecond's width. |
| `TimeAxis.DrawTimeAxis` | src/ui/chart_axes.rs:262-323 | The system draws nothing on an empty window, and otherwise the labels of the step chosen for it. |
| `TimeAxis.WindowLength` | src/ui/chart_viewstate.rs:117-133 | A chart of the spawned shape never shows more than 310 minutes. |
| `TimeAxis.FewSteps` | src/ui/chart_axes.rs:150-178 | In a window that long the chosen step leaves at most 31 multiples. |
| `TimeAxis.ReachableLabelsCover` | src/ui/chart_axes.rs:262-323 | On every reachable chart each multiple of the chosen step in the window has a label or a reason not to: the cap never cuts the walk short. |

## Left out

- OrderFills.FillConfluence: excludes full replacements, seeds without a client id and modifies of ids not yet held, because the law fails for them, as `CommutesIffMergeable` shows; and runs that overflow the 64 rows, where which row is evicted depends on the order.
- OrderFills.RunFills: the same exclusions.
- OrderFills.CommutesIffMergeable: books with 63 or 64 rows, where an insertion may evict another row, are not covered.
- ReplayRewind.RewindAfterPriming: single-provider path; a restore repositions one provider only, so there is no such law for several instruments.
- ReplayEngine.DataEngine.RestoreSnapshot: repositions the primary's provider only, as the code does; the other providers keep reading where they were.
- ReplayEngine.DataEngine.LoadReplayData: what the catalog holds before and after a fetch are parameters; the precision check that raises before any provider is built, writing the catalog, and reading and parsing files are not part of this model.
- VenueSession.LiveBackend.CompleteLateStart: a start may come through at any time between two requests, and its adapter is not tied to an earlier attempt; the laws hold all the more when it is.
- VenueSession.LiveBackend.VenueLogin: covers the sessions the handlers leave between requests and a venue caught AUTHENTICATING; half-built sessions and the states RECONNECTING and ERROR, which no handler enters, are not covered.
- LockDiscipline.EverythingFinishes: time limits on round trips are not modelled; without them waiting is only longer.
- ListedSymbols.Handler.ListAllListedSymbols: the artifact store starts empty and the catalog is fixed; non-ASCII digits in dates, JSON and file-system detail are not modelled, an unusable artifact counts as a failed read.
- ChartFrames.ReachableShape: charts are spawned as the program spawns them, with the default view.
- ChartFrames.Quiescence: one chart; the signature of the bars is a given number, so two different bar lists may share one as they may in the program.
- ChartAutoscale.AutoscaleFits: bars whose high is below their low are not covered.
- PriceAxis.LabelsComplete: 64 slots or more, far above any main area, are not covered because of the 64-label cap.
- Rounding, overflow, infinities and NaN of floating point; the axis and autoscale branches that skip non-finite values.
- The random-walk static mode and wall-clock stamping of the engine: their values are parameters of `AdvanceOneLocked`.
- Rejection of non-positive bars by the engine's data models in the middle of a reduction.
- Clear-on-toggle suppression of stale live errors, optional components missing altogether, and the reverse transitions a reconnecting venue would make: nothing in the handlers reaches SUBSCRIBED or RECONNECTING.
- The pre-trade rails, the strategy state machine, the run registry's history and the adapters: the loss stop and the locks take what they need of them as parameters.
- Two venue rows of one answer with the same venue id: the venue is taken to list an order once.
- UI entities, rendering, themes, double-click timing, transports, serialization, credentials.
- Order filters, id shortening, label texts and wire-string maps: true but easy.
