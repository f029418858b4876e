/**
 * The control handlers of the backend (backend/app/main.py), stripped of HTTP: each
 * reads or updates the one shared `DemoSimulator` in place. Request bodies become
 * parameters; a missing JSON `value` is `None`.
 */
module Control {
  import opened Wrappers
  import opened Geometry
  import opened Seqs
  import opened Decimal
  import opened Simulator

  /** The replies of `control_train`. `ControlFailed` is the server error raised when the
      "speed" action comes without a value (`min(max_speed, None)` fails before any change). */
  datatype ControlResult = ControlOk(train: SimTrain) | TrainNotFound | ControlFailed

  /** The replies of `trigger_event`. */
  datatype EventResult = TrainAdded(added: SimTrain) | AllStopped | UnknownEvent

  /** The replies of `request_supervisor`. */
  datatype SupervisorResult = TicketCreated(ticket: Ticket) | SupervisorNotFound

  // ---------------------------------------------------------------------------
  // control_train

  /** `sim.trains[trainId]`: the index of the train with the id, if any. */
  function TrainIndex(ts: seq<SimTrain>, id: string): (r: Option<nat>)
    ensures r.Some? ==> r.value < |ts| && ts[r.value].id == id
    ensures r.None? ==> forall k :: 0 <= k < |ts| ==> ts[k].id != id
    decreases |ts|
  {
    if ts == [] then None
    else if ts[|ts| - 1].id == id then Some(|ts| - 1)
    else TrainIndex(ts[..|ts| - 1], id)
  }

  /** A request that fails before touching the train. */
  predicate ControlFails(action: string, value: Option<real>) {
    action == "speed" && value.None?
  }

  /** The train after a successful `control_train`: "speed" clamps the value into
      [0, max speed], "stop" stops the train at speed 0, "start" sets it running at the
      speed it has, and any other action leaves it as it is. */
  function ControlledTrain(t: SimTrain, action: string, value: Option<real>): (r: SimTrain)
    requires TrainOk(t) && !ControlFails(action, value)
    ensures TrainOk(r)
    ensures r.id == t.id && r.route == t.route && r.idx == t.idx && r.maxSpeed == t.maxSpeed && r.delay == t.delay
    ensures r.trainLabel == t.trainLabel && r.kind == t.kind && r.priority == t.priority
    ensures action == "speed" ==> r.status == t.status && 0.0 <= r.speed <= t.maxSpeed
                                  && (0.0 <= value.value <= t.maxSpeed ==> r.speed == value.value)
                                  && (value.value < 0.0 ==> r.speed == 0.0)
                                  && (t.maxSpeed < value.value ==> r.speed == t.maxSpeed)
    ensures action == "stop" ==> r.status == Stopped && r.speed == 0.0
    ensures action == "start" ==> r.status == Running && r.speed == t.speed
    ensures action != "speed" && action != "stop" && action != "start" ==> r == t
  {
    if action == "speed" then t.(speed := MaxReal(0.0, MinReal(t.maxSpeed, value.value)))
    else if action == "stop" then t.(status := Stopped, speed := 0.0)
    else if action == "start" then t.(status := Running)
    else t
  }

  /** Repeating a control request has no further effect on the train. */
  lemma ControlIdempotent(t: SimTrain, action: string, value: Option<real>)
    requires TrainOk(t) && !ControlFails(action, value)
    ensures ControlledTrain(ControlledTrain(t, action, value), action, value) == ControlledTrain(t, action, value)
  {
  }

  /** The audit entry a successful control request writes, if any. */
  function ControlEntry(trainId: string, action: string, value: Option<real>, now: real): (e: Option<AuditEntry>)
    requires !ControlFails(action, value)
    ensures e.Some? <==> action == "speed" || action == "stop" || action == "start"
  {
    if action == "speed" then Some(AuditEntry(now, "train_speed_changed", TrainSpeedChanged(trainId, value.value)))
    else if action == "stop" then Some(AuditEntry(now, "train_stopped", TrainRef(trainId)))
    else if action == "start" then Some(AuditEntry(now, "train_started", TrainRef(trainId)))
    else None
  }

  /** `control_train`: an unknown train id or a speed request without a value changes
      nothing; otherwise exactly that train is updated and the action is logged. */
  method ControlTrain(sim: DemoSimulator, trainId: string, action: string, value: Option<real>, now: real)
    returns (result: ControlResult)
    requires sim.Valid()
    modifies sim
    ensures sim.Valid()
    ensures TrainIndex(old(sim.trains), trainId).None? ==>
              result == TrainNotFound && sim.trains == old(sim.trains) && sim.audit == old(sim.audit)
    ensures TrainIndex(old(sim.trains), trainId).Some? && ControlFails(action, value) ==>
              result == ControlFailed && sim.trains == old(sim.trains) && sim.audit == old(sim.audit)
    ensures TrainIndex(old(sim.trains), trainId).Some? && !ControlFails(action, value) ==>
              (var k := TrainIndex(old(sim.trains), trainId).value;
               var t := ControlledTrain(old(sim.trains)[k], action, value);
               result == ControlOk(t) && sim.trains == old(sim.trains)[k := t]
               && sim.audit == match ControlEntry(trainId, action, value, now)
                               case None => old(sim.audit)
                               case Some(e) => LogAppend(old(sim.audit), e))
    ensures sim.tracks == old(sim.tracks) && sim.pendingTickets == old(sim.pendingTickets)
    ensures sim.activeRecommendation == old(sim.activeRecommendation)
  {
    var found := TrainIndex(sim.trains, trainId);
    if found.None? {
      return TrainNotFound;
    }
    if action == "speed" && value.None? {
      return ControlFailed;
    }
    var train := ApplyControl(sim, found.value, trainId, action, value, now);
    return ControlOk(train);
  }

  /** The successful part of `control_train`, on the train at index `k`. */
  method ApplyControl(sim: DemoSimulator, k: nat, trainId: string, action: string, value: Option<real>, now: real)
    returns (train: SimTrain)
    requires sim.Valid() && k < |sim.trains| && !ControlFails(action, value)
    modifies sim
    ensures sim.Valid()
    ensures train == ControlledTrain(old(sim.trains)[k], action, value)
    ensures sim.trains == old(sim.trains)[k := train]
    ensures sim.audit == match ControlEntry(trainId, action, value, now)
                         case None => old(sim.audit)
                         case Some(e) => LogAppend(old(sim.audit), e)
    ensures sim.tracks == old(sim.tracks) && sim.pendingTickets == old(sim.pendingTickets)
    ensures sim.activeRecommendation == old(sim.activeRecommendation)
  {
    train := sim.trains[k];
    if action == "speed" {
      train := train.(speed := MaxReal(0.0, MinReal(train.maxSpeed, value.value)));
    } else if action == "stop" {
      train := train.(status := Stopped, speed := 0.0);
    } else if action == "start" {
      train := train.(status := Running);
    }
    ReplaceTrainKeepsInvariants(sim.trains, k, train);
    sim.trains := sim.trains[k := train];
    assert sim.Valid();
    if action == "speed" {
      sim.LogAudit(now, "train_speed_changed", TrainSpeedChanged(trainId, value.value));
    } else if action == "stop" {
      sim.LogAudit(now, "train_stopped", TrainRef(trainId));
    } else if action == "start" {
      sim.LogAudit(now, "train_started", TrainRef(trainId));
    }
  }

  // ---------------------------------------------------------------------------
  // trigger_event

  /** `f"T{n}"`. */
  function TrainId(n: nat): string {
    "T" + NatToString(n)
  }

  /** The train "add_train" inserts when the simulator holds `count` trains. */
  function NewTrain(count: nat): (t: SimTrain)
    ensures TrainOk(t) && t.id == TrainId(count + 1) && t.idx == 0 && t.status == Running
  {
    var id := TrainId(count + 1);
    SimTrain(id, "Train " + id, "passenger", [Point(20.0, 74.0), Point(20.0, 74.5), Point(20.0, 75.0)],
             0, 40.0, 70.0, "medium", Running, 0.0)
  }

  /** With the ids "T1" .. "Tn", the id "T{n+1}" is fresh, and appending the new train keeps
      the ids sequential. */
  lemma NewTrainIdFresh(ts: seq<SimTrain>)
    requires SequentialIds(ts)
    ensures forall k :: 0 <= k < |ts| ==> ts[k].id != TrainId(|ts| + 1)
    ensures SequentialIds(ts + [NewTrain(|ts|)])
  {
    forall k | 0 <= k < |ts|
      ensures ts[k].id != TrainId(|ts| + 1)
    {
      if ts[k].id == TrainId(|ts| + 1) {
        PrefixedNatInjective("T", k + 1, |ts| + 1);
      }
    }
  }

  /** Every train stopped by "emergency_stop": status emergency stop and speed 0. */
  function EmergencyStopped(ts: seq<SimTrain>): (r: seq<SimTrain>)
    ensures |r| == |ts|
    ensures forall k :: 0 <= k < |ts| ==>
              r[k] == ts[k].(status := EmergencyStop, speed := 0.0)
  {
    seq(|ts|, k requires 0 <= k < |ts| => ts[k].(status := EmergencyStop, speed := 0.0))
  }

  /** After an emergency stop no train is running, so a tick moves nothing, marks no
      track, logs nothing and finds no conflict. */
  lemma EmergencyStopFreezesTick(ts: seq<SimTrain>, tracks: seq<SimTrack>, audit: seq<AuditEntry>, now: real)
    requires TrainsOk(ts)
    ensures TrainsOk(EmergencyStopped(ts))
    ensures var w := World(EmergencyStopped(ts), tracks, audit);
            MoveFrom(w, 0, now) == w && AllConflicts(w.trains) == []
  {
    var stopped := EmergencyStopped(ts);
    var w := World(stopped, tracks, audit);
    assert TrainsOk(stopped);
    NothingRunningIsStill(w, 0, now);
    AllConflictsNonEmptyIff(stopped);
  }

  lemma {:induction false} NothingRunningIsStill(w: World, i: nat, now: real)
    requires i <= |w.trains| && TrainsOk(w.trains)
    requires forall k :: 0 <= k < |w.trains| ==> w.trains[k].status != Running
    ensures MoveFrom(w, i, now) == w
    decreases |w.trains| - i
  {
    if i < |w.trains| {
      NothingRunningIsStill(w, i + 1, now);
    }
  }

  /** `trigger_event`: "add_train" appends train "T{n+1}"; "emergency_stop" stops every
      train; any other event type changes nothing. */
  method TriggerEvent(sim: DemoSimulator, eventType: string, now: real) returns (result: EventResult)
    requires sim.Valid()
    modifies sim
    ensures sim.Valid()
    ensures eventType == "add_train" ==>
              var t := NewTrain(|old(sim.trains)|);
              result == TrainAdded(t) && sim.trains == old(sim.trains) + [t]
              && (forall k :: 0 <= k < |old(sim.trains)| ==> old(sim.trains)[k].id != t.id)
              && sim.audit == LogAppend(old(sim.audit), AuditEntry(now, "train_added", TrainRef(t.id)))
    ensures eventType == "emergency_stop" ==>
              result == AllStopped && sim.trains == EmergencyStopped(old(sim.trains))
              && sim.audit == LogAppend(old(sim.audit), AuditEntry(now, "emergency_stop", EmergencyReason("manual_trigger")))
    ensures eventType != "add_train" && eventType != "emergency_stop" ==>
              result == UnknownEvent && sim.trains == old(sim.trains) && sim.audit == old(sim.audit)
    ensures sim.tracks == old(sim.tracks) && sim.pendingTickets == old(sim.pendingTickets)
    ensures sim.activeRecommendation == old(sim.activeRecommendation)
  {
    if eventType == "add_train" {
      var t := AddTrain(sim, now);
      return TrainAdded(t);
    } else if eventType == "emergency_stop" {
      StopAllTrains(sim, now);
      return AllStopped;
    }
    return UnknownEvent;
  }

  /** The "add_train" branch of `trigger_event`. */
  method AddTrain(sim: DemoSimulator, now: real) returns (t: SimTrain)
    requires sim.Valid()
    modifies sim
    ensures sim.Valid()
    ensures t == NewTrain(|old(sim.trains)|) && sim.trains == old(sim.trains) + [t]
    ensures forall k :: 0 <= k < |old(sim.trains)| ==> old(sim.trains)[k].id != t.id
    ensures sim.audit == LogAppend(old(sim.audit), AuditEntry(now, "train_added", TrainRef(t.id)))
    ensures sim.tracks == old(sim.tracks) && sim.pendingTickets == old(sim.pendingTickets)
    ensures sim.activeRecommendation == old(sim.activeRecommendation)
  {
    t := NewTrain(|sim.trains|);
    NewTrainIdFresh(sim.trains);
    sim.trains := sim.trains + [t];
    assert sim.Valid();
    sim.LogAudit(now, "train_added", TrainRef(t.id));
  }

  /** The "emergency_stop" branch of `trigger_event`: a loop over every train. */
  method StopAllTrains(sim: DemoSimulator, now: real)
    requires sim.Valid()
    modifies sim
    ensures sim.Valid()
    ensures sim.trains == EmergencyStopped(old(sim.trains))
    ensures sim.audit == LogAppend(old(sim.audit), AuditEntry(now, "emergency_stop", EmergencyReason("manual_trigger")))
    ensures sim.tracks == old(sim.tracks) && sim.pendingTickets == old(sim.pendingTickets)
    ensures sim.activeRecommendation == old(sim.activeRecommendation)
  {
    for k := 0 to |sim.trains|
      invariant |sim.trains| == |old(sim.trains)|
      invariant forall m :: 0 <= m < k ==> sim.trains[m] == old(sim.trains)[m].(status := EmergencyStop, speed := 0.0)
      invariant forall m :: k <= m < |sim.trains| ==> sim.trains[m] == old(sim.trains)[m]
      invariant sim.audit == old(sim.audit) && sim.tracks == old(sim.tracks)
      invariant sim.pendingTickets == old(sim.pendingTickets)
      invariant sim.activeRecommendation == old(sim.activeRecommendation)
    {
      sim.trains := sim.trains[k := sim.trains[k].(status := EmergencyStop, speed := 0.0)];
    }
    assert sim.trains == EmergencyStopped(old(sim.trains));
    assert sim.Valid();
    sim.LogAudit(now, "emergency_stop", EmergencyReason("manual_trigger"));
  }

  // ---------------------------------------------------------------------------
  // approvals_pending, audit and request_supervisor

  /** `approvals_pending`: the tickets still pending, in insertion order. */
  function ApprovalsPending(tickets: seq<Ticket>): (r: seq<Ticket>)
    ensures |r| <= |tickets|
    ensures forall t :: t in r <==> t in tickets && t.status == Pending
  {
    Filter(tickets, (t: Ticket) => t.status == Pending)
  }

  /** A ticket filed under a fresh id joins the end of the pending list. */
  lemma RequestedTicketIsPending(tickets: seq<Ticket>, t: Ticket)
    requires DistinctTicketIds(tickets) && TicketIndex(tickets, t.ticketId).None? && t.status == Pending
    ensures ApprovalsPending(PutTicket(tickets, t)) == ApprovalsPending(tickets) + [t]
  {
    var p := (x: Ticket) => x.status == Pending;
    FilterAppend(tickets, [t], p);
    assert Filter([t], p) == [t] by {
      assert [t][1..] == [];
    }
  }

  /** Once decided, a ticket leaves the pending list. */
  lemma DecidedTicketLeavesPending(tickets: seq<Ticket>, k: nat, decided: Ticket)
    requires DistinctTicketIds(tickets) && k < |tickets|
    requires decided.ticketId == tickets[k].ticketId && decided.status != Pending
    ensures forall x :: x in ApprovalsPending(tickets[k := decided]) ==> x.ticketId != decided.ticketId
  {
    var after := tickets[k := decided];
    forall x | x in ApprovalsPending(after)
      ensures x.ticketId != decided.ticketId
    {
      var m :| 0 <= m < |after| && after[m] == x;
      if m != k {
        assert after[m] == tickets[m];
      }
    }
  }

  /** `audit`: `sim.audit[-limit:]`, with the slice rules of `PyTail`. */
  function AuditPage(log: seq<AuditEntry>, limit: int): seq<AuditEntry> {
    PyTail(log, limit)
  }

  /** Right after an entry is logged, every page with a positive limit ends with it, holds
      at most `limit` entries, and the default page of 50 holds the newest 50 in order. */
  lemma NewestEntryOnEveryPage(log: seq<AuditEntry>, e: AuditEntry, limit: int)
    requires 0 < limit
    ensures var page := AuditPage(LogAppend(log, e), limit);
            1 <= |page| <= limit && page[|page| - 1] == e
    ensures var after := LogAppend(log, e);
            50 <= |after| ==> AuditPage(after, 50) == after[|after| - 50..]
  {
    var after := LogAppend(log, e);
    var page := AuditPage(after, limit);
    if limit <= |after| {
      assert page == after[|after| - limit..];
      assert page[|page| - 1] == after[|after| - 1];
    }
  }

  /** `request_supervisor`: file the active recommendation for approval when the id is
      its id; otherwise answer "not found" and file nothing. */
  method RequestSupervisor(sim: DemoSimulator, recId: string, ticketId: string, now: real)
    returns (result: SupervisorResult)
    requires sim.Valid()
    modifies sim
    ensures sim.Valid()
    ensures old(sim.activeRecommendation).Some? && old(sim.activeRecommendation).value.id == recId ==>
              var t := Ticket(ticketId, old(sim.activeRecommendation).value, Pending, now, None);
              result == TicketCreated(t) && sim.pendingTickets == PutTicket(old(sim.pendingTickets), t)
              && sim.audit == LogAppend(old(sim.audit), AuditEntry(now, "approval_requested", ApprovalRequested(t)))
    ensures !(old(sim.activeRecommendation).Some? && old(sim.activeRecommendation).value.id == recId) ==>
              result == SupervisorNotFound && sim.pendingTickets == old(sim.pendingTickets)
              && sim.audit == old(sim.audit)
    ensures sim.trains == old(sim.trains) && sim.tracks == old(sim.tracks)
    ensures sim.activeRecommendation == old(sim.activeRecommendation)
  {
    if sim.activeRecommendation.Some? && sim.activeRecommendation.value.id == recId {
      var ticket := sim.RequestApproval(ticketId, sim.activeRecommendation.value, now);
      return TicketCreated(ticket);
    }
    return SupervisorNotFound;
  }
}
