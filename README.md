# Rail-traffic dashboard: advisory engine, demo simulator, control handlers and map cache

This project is a Dafny model of the parts of the rail-traffic-control dashboard that carry
real logic, with proofs of the properties the code promises.

- **Advisory engine** (`lib/aiLogic.ts`, module `AiLogic`):
  - classifies each track as free, soon-occupied or occupied from the trains near its endpoints;
  - reports one overlap conflict per multiply occupied track;
  - advises holding the second train of each conflict;
  - builds the per-train schedule suggestion of `optimizeTrainTraffic`.
- **Demo simulator** (`backend/app/simulator.py`, class `Simulator.DemoSimulator`): a single object
  that holds the trains, tracks, bounded audit log, supervisor tickets and active recommendation,
  and updates them in place.
  - One round of `_tick` moves each running train by the movement rule, marks the tracks and may
    produce a recommendation.
  - The proximity checks, the recommendation workflow, the ticket decisions, the two random
    events and `log_audit` are methods with frame conditions.
- **Control handlers** (`backend/app/main.py`, module `Control`): `control_train`, `trigger_event`,
  `request_supervisor`, `approvals_pending` and `audit`. HTTP is stripped away; each handler is an
  in-place update of the shared simulator object, or a read of it.
- **Realtime cache reducer** (`components/train-map.tsx`, module `TrainCache`): the updater that applies
  one INSERT, UPDATE or DELETE change event to the cached list of train records.

Shared modules:
- `Geometry`: points and squared distances. Every `sqrt(d) < r` test with `r > 0` is stated as `d < r * r`.
- `Seqs`: the order-preserving filter, and Python's `s[k:]` slice with its negative-index rules.
- `Decimal`: decimal rendering of naturals, for `f"T{n}"` and template-literal ids, with injectivity.
- `Wrappers`: `Option`.

## How the model is built

- **Dictionaries.** Python dictionaries keep insertion order. `trains`, `tracks` and `pending_tickets`
  are therefore sequences of records with distinct keys. The simulator's invariant `Valid()` states
  three things:
  - the train ids are `T1 .. Tn` in order;
  - every train's route index is inside its route, and its speed, maximum speed and delay are
    non-negative;
  - ticket ids are distinct and the audit log holds at most 1000 entries.
- **Clocks and ids.** `time.time()`, `uuid.uuid4()` and `Date.now()` are parameters (`now`, `recId`,
  `ticketId`). The random choices of `_generate_events` are parameters of `RandomDelay` and
  `RandomSpeedChange`.
- **Loops.** Each loop of the source is a Dafny loop proved against a specification function.
  - `TrackHits`, `AllHitsUpTo`, `RowUpTo`/`PairsUpTo`, `ConflictsFor` and `RecommendationsFor`
    are built from the end of the list, so a loop's prefix is a call on fewer elements.
  - `MoveFrom` runs the movement loop from index `i` on. Its loop invariant states that the rest of
    the loop yields the same final state.
  - The properties the source promises are lemmas about those functions.
- **Behaviour of the code worth knowing.** The model follows the code as written in each of these
  places:
  - `approve_ticket` decides a ticket in any status, including one already decided;
  - control commands take effect at once, not at the next tick;
  - `audit` with `limit = 0` returns the whole log, because `-0 == 0`;
  - a negative limit drops that many of the oldest entries;
  - a train's status takes only the values `running`, `stopped` and `emergency_stop`.

## Model

| member | source | states |
|---|---|---|
| AiLogic.TrainsOnTrack | lib/aiLogic.ts:37-43 | a train is listed exactly when it is in the list and strictly within 0.5 of an endpoint; the list is no longer than the input |
| AiLogic.ApproachingTrains | lib/aiLogic.ts:51-58 | a train is in the result exactly when it is in the list, does not occupy the track and is strictly within 1.0 of an endpoint |
| AiLogic.ClassifyStatus | lib/aiLogic.ts:45-61 | a track is soon-occupied exactly when one train occupies it and some train that does not occupy it is within 1.0; it is occupied exactly when several trains occupy it, or one does and no other train is within 1.0 |
| AiLogic.CheckTrackStatus | lib/aiLogic.ts:35-64 | the result has the tracks' length and order; each track keeps its id and endpoints and only its status is recomputed |
| AiLogic.StatusFree | lib/aiLogic.ts:37-49 | a track is free if and only if no train is strictly within 0.5 of either endpoint |
| AiLogic.StatusOccupiedWhenShared | lib/aiLogic.ts:47-48 | two train entries near the track make it occupied, whatever train is approaching |
| AiLogic.StatusSingleOccupant | lib/aiLogic.ts:49-61 | with exactly one occupying train, the track is soon-occupied if and only if some non-occupying train is within 1.0; it is never free |
| AiLogic.StatusIsLocal | lib/aiLogic.ts:36-64 | two tracks with the same endpoints, in any two track lists, get the same status: a status depends only on that track and the trains |
| AiLogic.DetectConflicts | lib/aiLogic.ts:138-161 | the loop pushing conflicts computes exactly `ConflictsFor`, track by track in order |
| AiLogic.ConflictsCharacterized | lib/aiLogic.ts:141-157 | a conflict is reported if and only if it is the overlap conflict of a track with more than one near train; there are at most as many conflicts as tracks |
| AiLogic.ConflictShape | lib/aiLogic.ts:149-156 | every conflict has type overlap and severity high, a block equal to a track id, and an id `C-<track>-<now>`; it lists at least two ids, those of the near trains in input order, all of them input train ids |
| AiLogic.AtMostOneConflictPerTrack | lib/aiLogic.ts:141-158 | with distinct track ids, no two conflicts name the same block |
| AiLogic.ConflictImpliesOccupied | lib/aiLogic.ts:142-149 | the track a reported conflict names is classified occupied by `checkTrackStatus`, because both use the same near test |
| AiLogic.HoldSecond | lib/aiLogic.ts:169-176 | the advisory has id `R-` plus the conflict id, action Hold, the conflict's second train, and the conflict's severity as priority; its reason names the block and the first train |
| AiLogic.GenerateRecommendations | lib/aiLogic.ts:163-181 | the loop pushing advisories computes exactly `RecommendationsFor`, conflict by conflict |
| AiLogic.RecommendationsPerConflict | lib/aiLogic.ts:166-178 | each overlap conflict with more than one train gets exactly one Hold advisory, in conflict order; every other conflict gets none |
| AiLogic.DetectedConflictsAllAdvised | lib/aiLogic.ts:73-74 | detection followed by advice gives one Hold advisory for each detected conflict, in the same order |
| AiLogic.SpeedOrDefault | lib/aiLogic.ts:81 | `speed \|\| 60`: a missing speed and a speed of 0 both read as 60; any other speed is kept |
| AiLogic.EntryFor | lib/aiLogic.ts:77-103 | a train is held at speed 0 exactly when some conflict naming it has severity high; it proceeds at its current speed exactly when no conflict names it; otherwise its speed drops to max(20, speed * 0.7); the delay is 2 minutes per conflict, and the conflict and advisory counts are the train's own |
| AiLogic.Schedule | lib/aiLogic.ts:77-104 | one entry per train, in train order, each given by `EntryFor` |
| AiLogic.OptimizeTrainTraffic | lib/aiLogic.ts:68-111 | the conflicts come from detection, the advisories from those conflicts, and the schedule from both |
| AiLogic.ScheduleAfterDetection | lib/aiLogic.ts:84-92 | on detected conflicts, which are all high severity, no train is asked to reduce speed; a train is held exactly when it is listed on a multiply occupied track |
| Simulator.SequentialIdsAreDistinct | backend/app/simulator.py:17-36 | the train ids `T1 .. Tn` are pairwise distinct, as the keys of a dictionary are |
| Simulator.NextIdx | backend/app/simulator.py:91 | the next index `min(len(route) - 1, idx + 1)` is a valid route index, equal to idx or idx + 1 |
| Simulator.MovedTrain | backend/app/simulator.py:95-109 | a blocked train keeps its index, its speed becomes max(10, speed * 0.5) and its delay grows by 1; a free train takes the next index, its speed becomes min(max speed, speed + 5) and its delay max(0, delay - 0.5); either way the train stays well formed and keeps its other fields |
| Simulator.TrackHits | backend/app/simulator.py:253-264 | a hit is listed exactly when some train among those scanned is another running train within 0.05 of the position, with its squared distance and severity |
| Simulator.TrackConflictsShape | backend/app/simulator.py:254-263 | a hit never names the queried train; it names a running train of the list with its squared distance below 0.05²; its severity is high if and only if that distance is below 0.02² |
| Simulator.TrackConflictsEmptyIff | backend/app/simulator.py:254-264 | the check finds nothing if and only if no other running train is within 0.05 of the position |
| Simulator.AllHitsNonEmptyIff | backend/app/simulator.py:281-285 | the hits gathered from the first n trains are non-empty if and only if one of those trains is running and another running train is within 0.05 of it |
| Simulator.AllConflictsNonEmptyIff | backend/app/simulator.py:279-286 | `_detect_all_conflicts` finds something if and only if two running trains with different ids are within 0.05 of each other |
| Simulator.PositionsOf | backend/app/simulator.py:72-79 | one position per train, in dictionary order, with the train's id, label, route, current point, speed and `secX` |
| Simulator.MakePair | backend/app/simulator.py:182-189 | the conflict names the two trains in index order and carries the squared distance between their positions; its severity is high if and only if that squared distance is below 0.05² |
| Simulator.RowUpToMembers | backend/app/simulator.py:177-189 | the inner loop for train i lists exactly the close pairs (i, m) with i < m among the trains scanned |
| Simulator.PairsUpToMembers | backend/app/simulator.py:176-189 | the first n rounds of the outer loop list exactly the close pairs (i, m) with i < n and i < m |
| Simulator.RowUnique | backend/app/simulator.py:177-189 | with distinct ids, the inner loop lists no unordered pair twice |
| Simulator.PairsUnique | backend/app/simulator.py:176-189 | with distinct ids, the outer loop lists no unordered pair twice |
| Simulator.PairConflictsCharacterized | backend/app/simulator.py:171-191 | `_detect_conflicts` reports exactly the pairs at indices i < j closer than 0.1; with distinct ids each unordered pair appears at most once |
| Simulator.FirstConflictIsFirstPair | backend/app/simulator.py:146 | the first conflict listed is that of the first close pair in the nested loop's order: no close pair (i', j') has i' < i, or i' = i and j' < j |
| Simulator.RecommendationHoldsClosePair | backend/app/simulator.py:144-169 | the recommendation is a hold (8.2 minutes saved) if and only if two trains are closer than 0.1; it then holds the later train of the first close pair in loop order and lets the earlier one pass; otherwise it is the spacing advice. It is always suggested, with the given id, time and conflict count |
| Simulator.MarkedTrack | backend/app/simulator.py:269-277 | a track touched by the position is occupied by the train; any other is free with no occupant; its id, endpoints, capacity and speed limit are kept |
| Simulator.MarkTracks | backend/app/simulator.py:268-277 | every track, in order, is overwritten as by `MarkedTrack` |
| Simulator.MarkTracksOverwrites | backend/app/simulator.py:266-277 | two updates in a row leave exactly what the second leaves alone |
| Simulator.LogAppend | backend/app/simulator.py:349-352 | the log grows to min(old length + 1, 1000) and its last entry is the new one; below the bound nothing is lost, at the bound the oldest entry is dropped |
| Simulator.MoveStep | backend/app/simulator.py:88-112 | the loop body changes only train i and keeps its identity and every status; a non-running train changes nothing; a running one marks the tracks from its position before it moves; the log stays bounded |
| Simulator.MoveStepRule | backend/app/simulator.py:90-112 | a running train is blocked exactly when another running train is within 0.05 of its next route point, and it moves by `MovedTrain`; the tracks are marked from its position before the move; a blocked train appends a `conflict_detected` entry with its hits and `speed_reduced`, and a free train logs nothing |
| Simulator.MoveFrom | backend/app/simulator.py:87-112 | the trains stay well formed and keep their number |
| Simulator.MoveFromEffect | backend/app/simulator.py:87-112 | each running train moves exactly once, by one of the two rules; a train that is not running is left untouched; no identity field changes; the log stays bounded |
| Simulator.TickTracksShowLastRunning | backend/app/simulator.py:87-112 | after the movement loop the tracks show only the last running train, at its position before it moved; with no running train they are untouched |
| Simulator.TicketIndex | backend/app/simulator.py:208 | a found index holds a ticket with the id; no index means no ticket has it |
| Simulator.PutTicket | backend/app/simulator.py:196 | storing a ticket keeps ticket ids distinct, and the lookup then finds it; a new id is appended; an existing id is replaced in place; the other tickets are kept |
| Simulator.DemoSimulator.constructor | backend/app/simulator.py:15-50 | three trains `T1..T3`, all running at index 0 with no delay; five free tracks; an empty log; no tickets; no active recommendation |
| Simulator.DemoSimulator.LogAudit | backend/app/simulator.py:349-352 | the log becomes `LogAppend` of the entry; nothing else changes |
| Simulator.DemoSimulator.GetPositions | backend/app/simulator.py:72-79 | returns `PositionsOf` the trains |
| Simulator.DemoSimulator.CheckTrackConflicts | backend/app/simulator.py:251-264 | returns `TrackConflicts`, characterized by `TrackConflictsShape` and `TrackConflictsEmptyIff` |
| Simulator.DemoSimulator.DetectAllConflicts | backend/app/simulator.py:279-286 | returns `AllConflicts`, characterized by `AllConflictsNonEmptyIff` |
| Simulator.DemoSimulator.DetectConflicts | backend/app/simulator.py:171-191 | the nested loop returns `PairConflicts`, characterized by `PairConflictsCharacterized` |
| Simulator.DemoSimulator.UpdateTrackStatus | backend/app/simulator.py:266-277 | the tracks become `MarkTracks` of the position; nothing else changes |
| Simulator.DemoSimulator.GenerateRecommendation | backend/app/simulator.py:136-169 | returns `RecommendationFrom` the current pair conflicts and logs it; only the log changes |
| Simulator.DemoSimulator.MoveTrain | backend/app/simulator.py:88-112 | the trains, tracks and log become `MoveStep` of the old ones |
| Simulator.DemoSimulator.MoveAll | backend/app/simulator.py:87-112 | the trains, tracks and log become `MoveFrom` the old state; the invariant is kept |
| Simulator.DemoSimulator.Tick | backend/app/simulator.py:81-123 | after moving, a recommendation is generated, stored and logged if and only if a track conflict remains and none is active; otherwise only the movement shows |
| Simulator.DemoSimulator.RequestApproval | backend/app/simulator.py:193-198 | a pending ticket with no comment is stored under the given id and logged |
| Simulator.DemoSimulator.AcceptRecommendation | backend/app/simulator.py:200-205 | the active recommendation is marked accepted and logged only when its id matches; otherwise the result is not-found and nothing changes |
| Simulator.DemoSimulator.ApproveTicket | backend/app/simulator.py:207-214 | an unknown id gives None and changes nothing; a known ticket is approved or rejected with the comment, replaced in place and logged, whatever its prior status |
| Simulator.DemoSimulator.RandomDelay | backend/app/simulator.py:320-328 | only the chosen train's delay grows by the chosen minutes, and the event is logged |
| Simulator.DemoSimulator.RandomSpeedChange | backend/app/simulator.py:330-340 | only the chosen train's speed changes, to max(20, min(max speed, speed + change)), and the event is logged |
| Seqs.PyTail | backend/app/main.py:93 | `s[-limit:]`: the last `limit` entries for 0 < limit ≤ length; everything for limit 0 or a larger limit; everything after the first `-limit` for a negative limit |
| Decimal.PrefixedNatInjective | backend/app/main.py:147 | ids `T{a}` and `T{b}` are equal only when a equals b |
| Control.TrainIndex | backend/app/main.py:113-116 | a found index holds the train with the id; no index means no train has it |
| Control.ControlledTrain | backend/app/main.py:116-127 | "speed" clamps the value into [0, max speed]; "stop" sets stopped and speed 0; "start" sets running and keeps the speed; any other action changes nothing; id, label, kind, route, index, maximum speed, priority and delay are always kept |
| Control.ControlIdempotent | backend/app/main.py:118-127 | repeating a control command changes the train no further |
| Control.ControlEntry | backend/app/main.py:118-127 | a log entry is written if and only if the action is speed, stop or start |
| Control.ControlTrain | backend/app/main.py:110-129 | an unknown id, or a speed command without a value (which raises in the source), changes nothing; otherwise exactly that train becomes `ControlledTrain` and the action is logged |
| Control.ApplyControl | backend/app/main.py:116-129 | the train at the index becomes `ControlledTrain`, the action's entry is logged, and nothing else changes |
| Control.NewTrain | backend/app/main.py:147-153 | the added train has id `T{n+1}`, index 0 and status running, and is well formed |
| Control.NewTrainIdFresh | backend/app/main.py:147-148 | when the ids are `T1..Tn`, `T{n+1}` is fresh, and appending keeps the ids sequential |
| Control.EmergencyStopped | backend/app/main.py:159-161 | every train gets status emergency stop and speed 0, and keeps its other fields |
| Control.EmergencyStopFreezesTick | backend/app/main.py:157-163 | after an emergency stop, a tick moves no train, marks no track and logs nothing, and no conflict is detected |
| Control.NothingRunningIsStill | backend/app/simulator.py:88 | with no running train, the movement loop changes nothing |
| Control.AddTrain | backend/app/main.py:145-155 | the train `NewTrain` is appended with a fresh id and logged; nothing else changes |
| Control.StopAllTrains | backend/app/main.py:157-163 | the loop gives every train emergency stop and speed 0, and the stop is logged |
| Control.TriggerEvent | backend/app/main.py:142-165 | add_train appends `NewTrain` with a fresh id and logs it; emergency_stop stops every train and logs it; any other event type changes nothing |
| Control.ApprovalsPending | backend/app/main.py:77-79 | a ticket is listed if and only if it is stored and pending |
| Control.RequestedTicketIsPending | backend/app/main.py:79 | a ticket filed under a fresh id joins the end of the pending list |
| Control.DecidedTicketLeavesPending | backend/app/main.py:79 | once decided, a ticket no longer appears among the pending ones |
| Control.NewestEntryOnEveryPage | backend/app/main.py:91-93 | after logging, every page with a positive limit ends with the new entry and holds at most `limit` entries; the default page is the newest 50 |
| Control.RequestSupervisor | backend/app/main.py:70-75 | a pending ticket for the active recommendation is filed and logged only when its id matches; otherwise the result is not-found and nothing is filed |
| TrainCache.InsertRow | components/train-map.tsx:42-45 | an id already cached leaves the list unchanged; otherwise the row is appended after the old list; either way the id is then cached |
| TrainCache.UpdateRow | components/train-map.tsx:46-48 | the length is kept; every row with the id is replaced; every other row is kept in place |
| TrainCache.DeleteRows | components/train-map.tsx:49-51 | no row with the id remains; a row survives if and only if it was cached with a different id; the list does not grow (order: `DeleteKeepsOrder`) |
| TrainCache.ApplyChange | components/train-map.tsx:40-53 | an undefined cache stays undefined; a defined one stays defined; an unknown event type changes nothing |
| TrainCache.InsertIdempotent | components/train-map.tsx:42-45 | delivering an INSERT twice equals delivering it once |
| TrainCache.UpdateIdempotent | components/train-map.tsx:46-48 | applying an UPDATE twice equals applying it once |
| TrainCache.UpdateAbsentIsNoOp | components/train-map.tsx:46-48 | an UPDATE for an id that is not cached changes nothing |
| TrainCache.DeleteAbsentIsNoOp | components/train-map.tsx:49-51 | a DELETE for an id that is not cached changes nothing |
| TrainCache.InsertThenDeleteRestores | components/train-map.tsx:42-51 | inserting a fresh row and then deleting it restores the cache exactly |
| TrainCache.DeleteKeepsOrder | components/train-map.tsx:49-51 | deleting from a concatenation deletes from each part, so survivors keep their order |

## Left out

- **Concurrency and broadcasting.** The asyncio loops and their sleeps are not modelled, nor are
  `broadcast`, `ClientWrapper`, client registration or the WebSocket endpoint. `Tick` is one round
  of `_tick`, without its broadcasts.
- **Metrics.** `kpis`, `_update_metrics`, `system_metrics` and `calculateSystemMetrics` are built on
  rounding and float division and have no contract worth stating.
- **`_generate_events`.** The random choice of event, train and amount, and the broadcast event, are
  not modelled. The choices are parameters of `RandomDelay` and `RandomSpeedChange`.
  - The "new_train" and "maintenance" events do nothing in the source.
- **Clocks and ids.** `time.time()`, `uuid.uuid4()` and `Date.now()` are parameters. Nothing states
  that a uuid is fresh; `PutTicket` states what happens under an existing id.
- **Clock reads.** In the source the clock is read afresh at each call; the model reads it once per
  operation.
  - `detectConflicts` calls `Date.now()` for each pushed conflict. In the model all conflicts of one
    call share a single `now`.
  - `time.time()` is read separately for a recommendation's or ticket's `created_at` and for each
    `log_audit` entry, including every entry of one tick. In the model these share the one `now` of
    the operation, so, for example, a ticket's `createdAt` equals its log entry's timestamp.
- **Aliasing.** The model uses value semantics.
  - In the source, a stored ticket's payload is the very dictionary of the active recommendation,
    and audit entries hold the very ticket and recommendation dictionaries. A later in-place change,
    such as accepting the recommendation or deciding the ticket, therefore also shows through
    those older references. The model does not capture this.
  - `checkTrackStatus` excludes occupying trains with `includes`; in the model, which has no object
    identity, this is membership by value.
- **Floating point.** IEEE floating point and `sqrt` are not modelled: reals, and distances
  compared on squares. JavaScript's `||` also replaces NaN with 60; NaN does not exist in the model.
- **Distance fields.** `ProximityHit.distSq` and `PairConflict.distSq` hold the squared distance,
  where the source's `distance` field holds the distance itself. These values are also what the
  model writes into the audit log (`conflict_detected`).
- **Record fields not modelled.** The `passengers` and `cargo` fields of the simulator's trains are
  not modelled, because nothing reads them. On the map, a train record holds only the fields the
  reducer compares or carries.
- **Dead branch.** The "Adjust speed" branch of `generate_recommendation` cannot be taken: every
  pair conflict names two trains. `RecommendationFrom` has no such branch and its comment says why.
- **Overwriting in `add_train`.** The source could overwrite an existing key. Under the invariant
  that ids are `T1 .. Tn`, it cannot (`NewTrainIdFresh`), so the model always appends.
- **Other endpoints.** The network interfaces are not modelled:
  - JWT login, health, model version, the read-only listing endpoints and the websocket;
  - `simulate`, which only logs `simulate_called` (`LogAudit` covers that call), and `optimize`,
    which is a direct call of `GenerateRecommendation`;
  - Supabase access and the realtime subscription around the map reducer;
  - `lib/fetcher.ts` and the `hooks/use-sim-ws.ts` WebSocket hook.
- **Presentation.** All React and Leaflet rendering, the pages and the static mock arrays are left out.
- **Python exceptions.** `ControlTrain`: a speed command without a value raises a server error
  in the source; it is modelled as the result `ControlFailed` with no change.
- **JSON shapes.** `AuditPage` has no contract of its own. Its slice rules are those of `Seqs.PyTail`,
  and `NewestEntryOnEveryPage` states what a page holds after logging.
