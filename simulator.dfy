/**
 * The backend's demo simulator (backend/app/simulator.py): a single object that
 * holds the trains, the tracks, the bounded audit log, the supervisor tickets and
 * the active recommendation, and updates them in place.
 *
 * Python dictionaries keep insertion order, so each one becomes a sequence of
 * records with distinct keys. `time.time()` and `uuid.uuid4()` become the
 * parameters `now` and the ids passed in. Distances compare squares.
 */
module Simulator {
  import opened Wrappers
  import opened Geometry
  import opened Seqs
  import opened Decimal

  /** The audit log keeps only this many most recent entries. */
  const MAX_AUDIT: nat := 1000
  /** `_check_track_conflicts`: another train this close to a position is a conflict ... */
  const HIT_RADIUS: real := 0.05
  /** ... of severity high when it is this close. */
  const HIT_HIGH_RADIUS: real := 0.02
  /** `_detect_conflicts`: two trains this close form a conflict ... */
  const PAIR_RADIUS: real := 0.1
  /** ... of severity high when they are this close. */
  const PAIR_HIGH_RADIUS: real := 0.05
  /** `_update_track_status`: a position this close to a track endpoint occupies the track. */
  const OCCUPY_RADIUS: real := 0.1
  /** Floor of a speed halved because of a conflict. */
  const MIN_CONFLICT_SPEED: real := 10.0
  /** Speed gained by a train that moves freely. */
  const SPEED_STEP: real := 5.0
  /** Minutes of delay recovered by a train that moves freely. */
  const DELAY_RECOVERY: real := 0.5
  /** Floor of a randomly adjusted speed. */
  const MIN_RANDOM_SPEED: real := 20.0

  function MaxReal(a: real, b: real): real { if a >= b then a else b }
  function MinReal(a: real, b: real): real { if a <= b then a else b }

  // ---------------------------------------------------------------------------
  // Data model

  datatype TrainStatus = Running | Stopped | EmergencyStop

  datatype SimTrain = SimTrain(id: string, trainLabel: string, kind: string, route: seq<Point>, idx: nat,
                               speed: real, maxSpeed: real, priority: string,
                               status: TrainStatus, delay: real)

  datatype Occupancy = TrackFree | TrackOccupied

  datatype SimTrack = SimTrack(id: string, from: Point, to: Point, status: Occupancy,
                               capacity: nat, speedLimit: real, occupiedBy: Option<string>)

  datatype Severity = Medium | High

  /** An entry of `_check_track_conflicts`: another train near a position. */
  datatype ProximityHit = ProximityHit(train: string, distSq: real, severity: Severity)

  /** An entry of `_detect_conflicts`: two trains close to each other. */
  datatype PairConflict = PairConflict(first: string, second: string, distSq: real, severity: Severity)

  /** An entry of `get_positions`. */
  datatype Position = Position(id: string, trainLabel: string, route: seq<Point>, position: Point,
                               speed: real, nextSection: string)

  datatype RecStatus = Suggested | Accepted

  datatype SimRecommendation = SimRecommendation(id: string, summary: string, timeSavedMin: real,
                                                 createdAt: real, status: RecStatus,
                                                 confidence: real, conflictsDetected: nat)

  datatype TicketStatus = Pending | Approved | Rejected

  datatype Ticket = Ticket(ticketId: string, payload: SimRecommendation, status: TicketStatus,
                           createdAt: real, comment: Option<string>)

  /** The payloads the core writes into the audit log. */
  datatype AuditPayload =
    | ConflictDetected(blockedTrain: string, hits: seq<ProximityHit>, response: string)
    | RecommendationGenerated(rec: SimRecommendation)
    | ApprovalRequested(requested: Ticket)
    | RecommendationAccepted(recId: string, acceptedBy: string)
    | TicketDecided(decided: Ticket)
    | RandomDelayApplied(delayedTrain: string, delayMinutes: int, reason: string)
    | SpeedAdjusted(adjustedTrain: string, newSpeed: real, change: int)
    | TrainSpeedChanged(speedTrain: string, requestedSpeed: real)
    | TrainRef(train: string)
    | EmergencyReason(reason: string)

  datatype AuditEntry = AuditEntry(ts: real, action: string, payload: AuditPayload)

  datatype AcceptOutcome = AcceptedOk | RecNotFound

  // ---------------------------------------------------------------------------
  // Trains

  /** What every train satisfies: a current route index inside its route, and
      non-negative speed, maximum speed and delay. */
  predicate TrainOk(t: SimTrain) {
    t.idx < |t.route| && 0.0 <= t.speed && 0.0 <= t.maxSpeed && 0.0 <= t.delay
  }

  predicate TrainsOk(ts: seq<SimTrain>) {
    forall k :: 0 <= k < |ts| ==> TrainOk(ts[k])
  }

  /** The train dictionary's keys are "T1" .. "Tn" in insertion order. */
  predicate SequentialIds(ts: seq<SimTrain>) {
    forall k :: 0 <= k < |ts| ==> ts[k].id == "T" + NatToString(k + 1)
  }

  predicate DistinctTrainIds(ts: seq<SimTrain>) {
    forall i, j :: 0 <= i < |ts| && 0 <= j < |ts| && i != j ==> ts[i].id != ts[j].id
  }

  lemma SequentialIdsAreDistinct(ts: seq<SimTrain>)
    requires SequentialIds(ts)
    ensures DistinctTrainIds(ts)
  {
    forall i, j | 0 <= i < |ts| && 0 <= j < |ts| && i != j
      ensures ts[i].id != ts[j].id
    {
      if ts[i].id == ts[j].id {
        PrefixedNatInjective("T", i + 1, j + 1);
      }
    }
  }

  /** Replacing one train by a well-formed record with the same id keeps the invariants. */
  lemma ReplaceTrainKeepsInvariants(ts: seq<SimTrain>, k: nat, t: SimTrain)
    requires TrainsOk(ts) && SequentialIds(ts) && k < |ts| && TrainOk(t) && t.id == ts[k].id
    ensures TrainsOk(ts[k := t]) && SequentialIds(ts[k := t])
  {
  }

  /** Two train records that differ at most in position, speed and delay. */
  predicate SameTrain(a: SimTrain, b: SimTrain) {
    a.id == b.id && a.trainLabel == b.trainLabel && a.kind == b.kind && a.route == b.route
    && a.maxSpeed == b.maxSpeed && a.priority == b.priority && a.status == b.status
  }

  /** `route[idx]`. */
  function Pos(t: SimTrain): Point
    requires t.idx < |t.route|
  {
    t.route[t.idx]
  }

  /** `min(len(route) - 1, idx + 1)`. */
  function NextIdx(t: SimTrain): (n: nat)
    requires t.idx < |t.route|
    ensures n < |t.route| && (n == t.idx || n == t.idx + 1)
  {
    if t.idx + 1 < |t.route| then t.idx + 1 else |t.route| - 1
  }

  /** The movement rule of one tick for a running train: with a conflict ahead its
      speed is halved (but not below 10) and it loses a minute, staying where it is;
      otherwise it moves one route point on (stopping at the last), speeds up by 5
      (but not past its maximum) and recovers half a minute of delay (but not below 0). */
  function MovedTrain(t: SimTrain, blocked: bool): (r: SimTrain)
    requires TrainOk(t)
    ensures TrainOk(r) && SameTrain(t, r)
    ensures blocked ==> r.idx == t.idx && r.speed == MaxReal(MIN_CONFLICT_SPEED, t.speed * 0.5)
                        && r.delay == t.delay + 1.0
    ensures !blocked ==> r.idx == NextIdx(t) && r.speed == MinReal(t.maxSpeed, t.speed + SPEED_STEP)
                         && r.delay == MaxReal(0.0, t.delay - DELAY_RECOVERY)
    ensures !blocked ==> r.delay <= t.delay && r.speed <= t.maxSpeed
  {
    if blocked then t.(speed := MaxReal(MIN_CONFLICT_SPEED, t.speed * 0.5), delay := t.delay + 1.0)
    else t.(idx := NextIdx(t), speed := MinReal(t.maxSpeed, t.speed + SPEED_STEP),
            delay := MaxReal(0.0, t.delay - DELAY_RECOVERY))
  }

  // ---------------------------------------------------------------------------
  // _check_track_conflicts and _detect_all_conflicts

  /** `other` counts against a train with id `trainId` heading for `p`. */
  predicate IsHit(other: SimTrain, trainId: string, p: Point)
    requires TrainOk(other)
  {
    other.id != trainId && other.status == Running && WithinRadius(p, Pos(other), HIT_RADIUS)
  }

  function HitOf(other: SimTrain, p: Point): ProximityHit
    requires TrainOk(other)
  {
    var d := DistSq(p, Pos(other));
    ProximityHit(other.id, d, if d < HIT_HIGH_RADIUS * HIT_HIGH_RADIUS then High else Medium)
  }

  /** The hits among the first `n` trains, in dictionary order. */
  function TrackHits(ts: seq<SimTrain>, trainId: string, p: Point, n: nat): (r: seq<ProximityHit>)
    requires TrainsOk(ts) && n <= |ts|
    ensures forall h :: h in r <==> exists k :: 0 <= k < n && IsHit(ts[k], trainId, p) && h == HitOf(ts[k], p)
    decreases n
  {
    if n == 0 then []
    else TrackHits(ts, trainId, p, n - 1) + (if IsHit(ts[n - 1], trainId, p) then [HitOf(ts[n - 1], p)] else [])
  }

  /** What `_check_track_conflicts(trainId, p)` returns. */
  function TrackConflicts(ts: seq<SimTrain>, trainId: string, p: Point): seq<ProximityHit>
    requires TrainsOk(ts)
  {
    TrackHits(ts, trainId, p, |ts|)
  }

  /** The hits never name the queried train and name only running trains; severity is
      high exactly below the inner radius. */
  lemma TrackConflictsShape(ts: seq<SimTrain>, trainId: string, p: Point, h: ProximityHit)
    requires TrainsOk(ts) && h in TrackConflicts(ts, trainId, p)
    ensures h.train != trainId
    ensures exists k :: 0 <= k < |ts| && ts[k].id == h.train && ts[k].status == Running
                        && h.distSq == DistSq(p, Pos(ts[k])) && h.distSq < HIT_RADIUS * HIT_RADIUS
    ensures h.severity == High <==> h.distSq < HIT_HIGH_RADIUS * HIT_HIGH_RADIUS
  {
  }

  /** A position has a conflict exactly when another running train is within the radius. */
  lemma TrackConflictsEmptyIff(ts: seq<SimTrain>, trainId: string, p: Point)
    requires TrainsOk(ts)
    ensures TrackConflicts(ts, trainId, p) == [] <==>
              forall k :: 0 <= k < |ts| ==> !IsHit(ts[k], trainId, p)
  {
    var r := TrackConflicts(ts, trainId, p);
    if r != [] {
      assert r[0] in r;
    }
    if exists k :: 0 <= k < |ts| && IsHit(ts[k], trainId, p) {
      var k :| 0 <= k < |ts| && IsHit(ts[k], trainId, p);
      assert HitOf(ts[k], p) in r;
    }
  }

  /** The hits of the running trains among the first `n`, each at its current position. */
  function AllHitsUpTo(ts: seq<SimTrain>, n: nat): seq<ProximityHit>
    requires TrainsOk(ts) && n <= |ts|
    decreases n
  {
    if n == 0 then []
    else AllHitsUpTo(ts, n - 1)
         + (if ts[n - 1].status == Running then TrackConflicts(ts, ts[n - 1].id, Pos(ts[n - 1])) else [])
  }

  /** What `_detect_all_conflicts` returns. */
  function AllConflicts(ts: seq<SimTrain>): seq<ProximityHit>
    requires TrainsOk(ts)
  {
    AllHitsUpTo(ts, |ts|)
  }

  /** Two running trains with different ids are within the conflict radius of each other. */
  predicate CloseRunningPair(ts: seq<SimTrain>, i: nat, j: nat)
    requires TrainsOk(ts) && i < |ts| && j < |ts|
  {
    ts[i].status == Running && ts[j].status == Running && ts[i].id != ts[j].id
    && WithinRadius(Pos(ts[i]), Pos(ts[j]), HIT_RADIUS)
  }

  /** The system-wide check finds something exactly when two running trains are too close. */
  lemma {:induction false} AllHitsNonEmptyIff(ts: seq<SimTrain>, n: nat)
    requires TrainsOk(ts) && n <= |ts|
    ensures AllHitsUpTo(ts, n) != [] <==>
              exists i, j :: 0 <= i < n && 0 <= j < |ts| && CloseRunningPair(ts, i, j)
    decreases n
  {
    if n > 0 {
      AllHitsNonEmptyIff(ts, n - 1);
      var t := ts[n - 1];
      if t.status == Running {
        TrackConflictsEmptyIff(ts, t.id, Pos(t));
        if TrackConflicts(ts, t.id, Pos(t)) != [] {
          var j :| 0 <= j < |ts| && IsHit(ts[j], t.id, Pos(t));
          assert CloseRunningPair(ts, n - 1, j);
        }
      }
    }
  }

  lemma AllConflictsNonEmptyIff(ts: seq<SimTrain>)
    requires TrainsOk(ts)
    ensures AllConflicts(ts) != [] <==>
              exists i, j :: 0 <= i < |ts| && 0 <= j < |ts| && CloseRunningPair(ts, i, j)
  {
    AllHitsNonEmptyIff(ts, |ts|);
  }

  // ---------------------------------------------------------------------------
  // get_positions and _detect_conflicts

  function PositionOf(t: SimTrain): Position
    requires TrainOk(t)
  {
    Position(t.id, t.trainLabel, t.route, Pos(t), t.speed, "secX")
  }

  /** What `get_positions` returns, in dictionary order. */
  function PositionsOf(ts: seq<SimTrain>): (r: seq<Position>)
    requires TrainsOk(ts)
    ensures |r| == |ts| && forall k :: 0 <= k < |ts| ==> r[k] == PositionOf(ts[k])
  {
    seq(|ts|, k requires 0 <= k < |ts| => PositionOf(ts[k]))
  }

  predicate ClosePair(ps: seq<Position>, i: nat, j: nat)
    requires i < |ps| && j < |ps|
  {
    WithinRadius(ps[i].position, ps[j].position, PAIR_RADIUS)
  }

  function MakePair(ps: seq<Position>, i: nat, j: nat): (c: PairConflict)
    requires i < |ps| && j < |ps|
    ensures c.first == ps[i].id && c.second == ps[j].id
    ensures c.distSq == DistSq(ps[i].position, ps[j].position)
    ensures c.severity == High <==> c.distSq < PAIR_HIGH_RADIUS * PAIR_HIGH_RADIUS
  {
    var d := DistSq(ps[i].position, ps[j].position);
    PairConflict(ps[i].id, ps[j].id, d, if d < PAIR_HIGH_RADIUS * PAIR_HIGH_RADIUS then High else Medium)
  }

  /** The conflicts of train `i` with trains `i+1 .. j-1`, in order. */
  function RowUpTo(ps: seq<Position>, i: nat, j: nat): seq<PairConflict>
    requires i < |ps| && j <= |ps|
    decreases j
  {
    if j <= i + 1 then []
    else RowUpTo(ps, i, j - 1) + (if ClosePair(ps, i, j - 1) then [MakePair(ps, i, j - 1)] else [])
  }

  /** The conflicts found by the outer loop's first `n` rounds. */
  function PairsUpTo(ps: seq<Position>, n: nat): seq<PairConflict>
    requires n <= |ps|
    decreases n
  {
    if n == 0 then [] else PairsUpTo(ps, n - 1) + RowUpTo(ps, n - 1, |ps|)
  }

  lemma {:induction false} RowUpToMembers(ps: seq<Position>, i: nat, j: nat)
    requires i < |ps| && j <= |ps|
    ensures forall c :: c in RowUpTo(ps, i, j) <==>
              exists m :: i < m < j && ClosePair(ps, i, m) && c == MakePair(ps, i, m)
    decreases j
  {
    if j > i + 1 {
      RowUpToMembers(ps, i, j - 1);
    }
  }

  lemma {:induction false} PairsUpToMembers(ps: seq<Position>, n: nat)
    requires n <= |ps|
    ensures forall c :: c in PairsUpTo(ps, n) <==>
              exists i, m :: 0 <= i < n && i < m < |ps| && ClosePair(ps, i, m) && c == MakePair(ps, i, m)
    decreases n
  {
    if n > 0 {
      PairsUpToMembers(ps, n - 1);
      RowUpToMembers(ps, n - 1, |ps|);
    }
  }

  /** What `_detect_conflicts(ps)` returns. */
  function PairConflicts(ps: seq<Position>): seq<PairConflict> {
    PairsUpTo(ps, |ps|)
  }

  predicate DistinctPositionIds(ps: seq<Position>) {
    forall i, j :: 0 <= i < |ps| && 0 <= j < |ps| && i != j ==> ps[i].id != ps[j].id
  }

  /** Two conflict entries about the same unordered pair of trains. */
  predicate SamePair(x: PairConflict, y: PairConflict) {
    (x.first == y.first && x.second == y.second) || (x.first == y.second && x.second == y.first)
  }

  /** No unordered pair of trains is listed twice. */
  predicate NoRepeatedPair(r: seq<PairConflict>) {
    forall a, b :: 0 <= a < b < |r| ==> !SamePair(r[a], r[b])
  }

  lemma {:induction false} RowUnique(ps: seq<Position>, i: nat, j: nat)
    requires DistinctPositionIds(ps) && i < |ps| && j <= |ps|
    ensures NoRepeatedPair(RowUpTo(ps, i, j))
    decreases j
  {
    if j > i + 1 {
      RowUnique(ps, i, j - 1);
      RowUpToMembers(ps, i, j - 1);
      var prev := RowUpTo(ps, i, j - 1);
      var r := RowUpTo(ps, i, j);
      forall a, b | 0 <= a < b < |r|
        ensures !SamePair(r[a], r[b])
      {
        if b >= |prev| {
          assert r[b] == MakePair(ps, i, j - 1);
          assert r[a] == prev[a] && prev[a] in prev;
          var m :| i < m < j - 1 && ClosePair(ps, i, m) && prev[a] == MakePair(ps, i, m);
          assert ps[m].id != ps[j - 1].id && ps[i].id != ps[j - 1].id;
        } else {
          assert r[a] == prev[a] && r[b] == prev[b];
          assert !SamePair(prev[a], prev[b]);
        }
      }
    }
  }

  lemma {:induction false} PairsUnique(ps: seq<Position>, n: nat)
    requires DistinctPositionIds(ps) && n <= |ps|
    ensures NoRepeatedPair(PairsUpTo(ps, n))
    decreases n
  {
    if n > 0 {
      PairsUnique(ps, n - 1);
      RowUnique(ps, n - 1, |ps|);
      PairsUpToMembers(ps, n - 1);
      RowUpToMembers(ps, n - 1, |ps|);
      var prev := PairsUpTo(ps, n - 1);
      var row := RowUpTo(ps, n - 1, |ps|);
      var r := PairsUpTo(ps, n);
      assert r == prev + row;
      forall a, b | 0 <= a < b < |r|
        ensures !SamePair(r[a], r[b])
      {
        if a >= |prev| {
          assert r[a] == row[a - |prev|] && r[b] == row[b - |prev|];
          assert !SamePair(row[a - |prev|], row[b - |prev|]);
        } else if b >= |prev| {
          assert r[a] == prev[a] && prev[a] in prev;
          assert r[b] == row[b - |prev|] && row[b - |prev|] in row;
          var i, m :| 0 <= i < n - 1 && i < m < |ps| && ClosePair(ps, i, m) && prev[a] == MakePair(ps, i, m);
          var m' :| n - 1 < m' < |ps| && ClosePair(ps, n - 1, m') && r[b] == MakePair(ps, n - 1, m');
          assert ps[i].id != ps[n - 1].id && ps[i].id != ps[m'].id;
        } else {
          assert r[a] == prev[a] && r[b] == prev[b];
          assert !SamePair(prev[a], prev[b]);
        }
      }
    }
  }

  /** (i, j) is the first close pair in the order the nested loop visits pairs. */
  predicate FirstClosePair(ps: seq<Position>, i: int, j: int) {
    0 <= i < j < |ps| && ClosePair(ps, i, j)
    && forall i', j' :: 0 <= i' < j' < |ps| && ClosePair(ps, i', j') ==> i < i' || (i == i' && j <= j')
  }

  /** m is the close partner of train i of least index. */
  predicate LeastPartner(ps: seq<Position>, i: int, m: int) {
    0 <= i < m < |ps| && ClosePair(ps, i, m) && forall m' :: i < m' < m ==> !ClosePair(ps, i, m')
  }

  lemma LeastPartnerIsLeast(ps: seq<Position>, i: int, m: int, m': int)
    requires LeastPartner(ps, i, m) && i < m' < |ps| && ClosePair(ps, i, m')
    ensures m <= m'
  {
  }

  /** (i, m) is the first close pair, in loop order, whose first member is among the first n trains. */
  predicate FirstPairBefore(ps: seq<Position>, n: int, i: int, m: int) {
    0 <= i < n && i < m < |ps| && ClosePair(ps, i, m)
    && forall i', m' :: 0 <= i' < m' < |ps| && i' < n && ClosePair(ps, i', m') ==> i < i' || (i == i' && m <= m')
  }

  /** An empty inner loop prefix means train i has no close partner below j. */
  lemma RowEmptyNoPartner(ps: seq<Position>, i: nat, j: nat)
    requires i < |ps| && j <= |ps|
    ensures RowUpTo(ps, i, j) == [] ==> forall m :: i < m < j ==> !ClosePair(ps, i, m)
  {
    RowUpToMembers(ps, i, j);
    forall m | i < m < j && ClosePair(ps, i, m)
      ensures MakePair(ps, i, m) in RowUpTo(ps, i, j)
    {
    }
  }

  /** An empty outer loop prefix means no close pair starts among the first n trains. */
  lemma PairsEmptyNoPair(ps: seq<Position>, n: nat)
    requires n <= |ps|
    ensures PairsUpTo(ps, n) == [] ==> forall i, m :: 0 <= i < m < |ps| && i < n ==> !ClosePair(ps, i, m)
  {
    PairsUpToMembers(ps, n);
    forall i, m | 0 <= i < m < |ps| && i < n && ClosePair(ps, i, m)
      ensures MakePair(ps, i, m) in PairsUpTo(ps, n)
    {
    }
  }

  /** The first entry of the inner loop for train i is its close partner of least index. */
  lemma {:induction false} RowFirst(ps: seq<Position>, i: nat, j: nat)
    requires i < |ps| && j <= |ps| && RowUpTo(ps, i, j) != []
    ensures exists m :: m < j && LeastPartner(ps, i, m) && RowUpTo(ps, i, j)[0] == MakePair(ps, i, m)
    decreases j
  {
    var prev := RowUpTo(ps, i, j - 1);
    if prev != [] {
      RowFirst(ps, i, j - 1);
      var m :| m < j - 1 && LeastPartner(ps, i, m) && prev[0] == MakePair(ps, i, m);
      assert RowUpTo(ps, i, j)[0] == prev[0];
    } else {
      RowEmptyNoPartner(ps, i, j - 1);
      assert RowUpTo(ps, i, j) == [MakePair(ps, i, j - 1)];
      assert LeastPartner(ps, i, j - 1);
    }
  }

  /** The first entry after the outer loop's first n rounds is the first close pair whose
      first member is among the first n trains. */
  lemma {:induction false} PairsFirst(ps: seq<Position>, n: nat)
    requires n <= |ps| && PairsUpTo(ps, n) != []
    ensures exists i, m :: FirstPairBefore(ps, n, i, m) && PairsUpTo(ps, n)[0] == MakePair(ps, i, m)
    decreases n
  {
    var last := n - 1;
    var prev := PairsUpTo(ps, last);
    var row := RowUpTo(ps, last, |ps|);
    assert PairsUpTo(ps, n) == prev + row;
    if prev != [] {
      PairsFirst(ps, last);
      var i, m :| FirstPairBefore(ps, last, i, m) && prev[0] == MakePair(ps, i, m);
      forall i', m' | 0 <= i' < m' < |ps| && i' < n && ClosePair(ps, i', m')
        ensures i < i' || (i == i' && m <= m')
      {
        if i' < last {
          assert 0 <= i' < m' < |ps| && i' < last && ClosePair(ps, i', m');
        }
      }
      assert PairsUpTo(ps, n)[0] == prev[0];
    } else {
      PairsEmptyNoPair(ps, last);
      RowFirst(ps, last, |ps|);
      var m :| LeastPartner(ps, last, m) && row[0] == MakePair(ps, last, m);
      forall i', m' | 0 <= i' < m' < |ps| && i' < n && ClosePair(ps, i', m')
        ensures last < i' || (last == i' && m <= m')
      {
        LeastPartnerIsLeast(ps, last, m, m');
      }
      assert FirstPairBefore(ps, n, last, m);
      assert PairsUpTo(ps, n)[0] == row[0];
    }
  }

  /** `_detect_conflicts` lists first the first close pair in the loop's order. */
  lemma FirstConflictIsFirstPair(ps: seq<Position>)
    requires PairConflicts(ps) != []
    ensures exists i, j :: FirstClosePair(ps, i, j) && PairConflicts(ps)[0] == MakePair(ps, i, j)
  {
    PairsFirst(ps, |ps|);
    var i, j :| FirstPairBefore(ps, |ps|, i, j) && PairsUpTo(ps, |ps|)[0] == MakePair(ps, i, j);
    assert FirstClosePair(ps, i, j);
  }

  /** `_detect_conflicts` reports exactly the close pairs at indices i < j, and, when the
      train ids are distinct, each unordered pair at most once. */
  lemma PairConflictsCharacterized(ps: seq<Position>)
    ensures forall c :: c in PairConflicts(ps) <==>
              exists i, j :: 0 <= i < j < |ps| && ClosePair(ps, i, j) && c == MakePair(ps, i, j)
    ensures DistinctPositionIds(ps) ==> NoRepeatedPair(PairConflicts(ps))
  {
    PairsUpToMembers(ps, |ps|);
    if DistinctPositionIds(ps) {
      PairsUnique(ps, |ps|);
      assert PairConflicts(ps) == PairsUpTo(ps, |ps|);
    }
  }

  // ---------------------------------------------------------------------------
  // generate_recommendation

  const SPACING_SUMMARY: string := "Optimize train spacing for improved throughput"
  const HOLD_TIME_SAVED: real := 8.2
  const SPACING_TIME_SAVED: real := 4.5
  const CONFIDENCE: real := 0.87

  function HoldSummary(c: PairConflict): string {
    "Hold " + c.second + "; allow " + c.first + " to pass via primary route"
  }

  /** The recommendation built from the conflict list: hold the later train of the first
      close pair, or, with no conflict, a general spacing advice. Every pair conflict names
      two trains, so the source's single-train branch cannot be taken. */
  function RecommendationFrom(conflicts: seq<PairConflict>, recId: string, now: real): SimRecommendation {
    if |conflicts| > 0 then
      SimRecommendation(recId, HoldSummary(conflicts[0]), HOLD_TIME_SAVED, now, Suggested, CONFIDENCE, |conflicts|)
    else
      SimRecommendation(recId, SPACING_SUMMARY, SPACING_TIME_SAVED, now, Suggested, CONFIDENCE, 0)
  }

  /** A "hold" recommendation is made exactly when two trains are close, and then it holds
      the later-listed train of the first close pair in loop order and lets the earlier one pass. */
  lemma RecommendationHoldsClosePair(ps: seq<Position>, recId: string, now: real)
    ensures var rec := RecommendationFrom(PairConflicts(ps), recId, now);
            rec.id == recId && rec.createdAt == now && rec.status == Suggested
            && rec.conflictsDetected == |PairConflicts(ps)|
            && ((exists i, j :: 0 <= i < j < |ps| && ClosePair(ps, i, j)) <==> rec.timeSavedMin == HOLD_TIME_SAVED)
            && ((exists i, j :: 0 <= i < j < |ps| && ClosePair(ps, i, j)) ==>
                  exists i, j :: FirstClosePair(ps, i, j)
                                 && rec.summary == "Hold " + ps[j].id + "; allow " + ps[i].id + " to pass via primary route")
            && (!(exists i, j :: 0 <= i < j < |ps| && ClosePair(ps, i, j)) ==> rec.summary == SPACING_SUMMARY)
  {
    var cs := PairConflicts(ps);
    PairConflictsCharacterized(ps);
    if cs != [] {
      FirstConflictIsFirstPair(ps);
      var i, j :| FirstClosePair(ps, i, j) && cs[0] == MakePair(ps, i, j);
    }
    if exists i, j :: 0 <= i < j < |ps| && ClosePair(ps, i, j) {
      var i, j :| 0 <= i < j < |ps| && ClosePair(ps, i, j);
      assert MakePair(ps, i, j) in cs;
    }
  }

  // ---------------------------------------------------------------------------
  // _update_track_status

  predicate TouchesTrack(track: SimTrack, p: Point) {
    WithinRadius(p, track.from, OCCUPY_RADIUS) || WithinRadius(p, track.to, OCCUPY_RADIUS)
  }

  /** A track after `_update_track_status(trainId, p)`. */
  function MarkedTrack(track: SimTrack, trainId: string, p: Point): (r: SimTrack)
    ensures r.id == track.id && r.from == track.from && r.to == track.to
            && r.capacity == track.capacity && r.speedLimit == track.speedLimit
    ensures TouchesTrack(track, p) ==> r.status == TrackOccupied && r.occupiedBy == Some(trainId)
    ensures !TouchesTrack(track, p) ==> r.status == TrackFree && r.occupiedBy == None
  {
    if TouchesTrack(track, p) then track.(status := TrackOccupied, occupiedBy := Some(trainId))
    else track.(status := TrackFree, occupiedBy := None)
  }

  /** Every track is overwritten: occupied by the train when the position touches one of
      its endpoints, free otherwise. */
  function MarkTracks(tracks: seq<SimTrack>, trainId: string, p: Point): (r: seq<SimTrack>)
    ensures |r| == |tracks| && forall k :: 0 <= k < |tracks| ==> r[k] == MarkedTrack(tracks[k], trainId, p)
  {
    seq(|tracks|, k requires 0 <= k < |tracks| => MarkedTrack(tracks[k], trainId, p))
  }

  /** Each update erases the previous one: only the last call's train and position show. */
  lemma MarkTracksOverwrites(tracks: seq<SimTrack>, a: string, p: Point, b: string, q: Point)
    ensures MarkTracks(MarkTracks(tracks, a, p), b, q) == MarkTracks(tracks, b, q)
  {
    var once := MarkTracks(tracks, a, p);
    assert forall k :: 0 <= k < |tracks| ==> MarkedTrack(once[k], b, q) == MarkedTrack(tracks[k], b, q);
  }

  // ---------------------------------------------------------------------------
  // log_audit

  /** The log after `log_audit`: append, then keep the last `MAX_AUDIT` entries. */
  function LogAppend(log: seq<AuditEntry>, e: AuditEntry): (r: seq<AuditEntry>)
    ensures |r| == (if |log| + 1 <= MAX_AUDIT then |log| + 1 else MAX_AUDIT)
    ensures r[|r| - 1] == e
    ensures |log| + 1 <= MAX_AUDIT ==> r == log + [e]
    ensures |log| + 1 > MAX_AUDIT ==> r == (log + [e])[|log| + 1 - MAX_AUDIT..]
  {
    PyTail(log + [e], MAX_AUDIT)
  }

  // ---------------------------------------------------------------------------
  // One tick of train movement

  /** The state a tick's movement loop reads and writes. */
  datatype World = World(trains: seq<SimTrain>, tracks: seq<SimTrack>, audit: seq<AuditEntry>)

  /** The body of the movement loop for train `i`, against the state left by trains 0 .. i-1. */
  function MoveStep(w: World, i: nat, now: real): (r: World)
    requires i < |w.trains| && TrainsOk(w.trains)
    ensures |r.trains| == |w.trains| && TrainsOk(r.trains)
    ensures forall k :: 0 <= k < |w.trains| && k != i ==> r.trains[k] == w.trains[k]
    ensures SameTrain(w.trains[i], r.trains[i])
    ensures forall k :: 0 <= k < |w.trains| ==> r.trains[k].status == w.trains[k].status
    ensures w.trains[i].status != Running ==> r == w
    ensures w.trains[i].status == Running ==> r.tracks == MarkTracks(w.tracks, w.trains[i].id, Pos(w.trains[i]))
    ensures |w.audit| <= MAX_AUDIT ==> |r.audit| <= MAX_AUDIT
  {
    var t := w.trains[i];
    if t.status != Running then w
    else
      var hits := TrackConflicts(w.trains, t.id, t.route[NextIdx(t)]);
      var audit := if hits != [] then LogAppend(w.audit, AuditEntry(now, "conflict_detected",
                                                         ConflictDetected(t.id, hits, "speed_reduced")))
                   else w.audit;
      World(w.trains[i := MovedTrain(t, hits != [])], MarkTracks(w.tracks, t.id, Pos(t)), audit)
  }

  /** A running train is held back exactly when another running train is within the
      conflict radius of its next route point; only then is a conflict logged, with the hits. */
  lemma MoveStepRule(w: World, i: nat, now: real)
    requires i < |w.trains| && TrainsOk(w.trains) && w.trains[i].status == Running
    ensures var t := w.trains[i];
            var blocked := exists k :: 0 <= k < |w.trains| && IsHit(w.trains[k], t.id, t.route[NextIdx(t)]);
            MoveStep(w, i, now).trains[i] == MovedTrain(t, blocked)
            && MoveStep(w, i, now).tracks == MarkTracks(w.tracks, t.id, Pos(t))
            && MoveStep(w, i, now).audit ==
                 if blocked then LogAppend(w.audit, AuditEntry(now, "conflict_detected",
                                   ConflictDetected(t.id, TrackConflicts(w.trains, t.id, t.route[NextIdx(t)]), "speed_reduced")))
                 else w.audit
  {
    var t := w.trains[i];
    TrackConflictsEmptyIff(w.trains, t.id, t.route[NextIdx(t)]);
  }

  /** The movement loop from train `i` on. */
  function MoveFrom(w: World, i: nat, now: real): (r: World)
    requires i <= |w.trains| && TrainsOk(w.trains)
    ensures |r.trains| == |w.trains| && TrainsOk(r.trains)
    decreases |w.trains| - i
  {
    if i == |w.trains| then w else MoveFrom(MoveStep(w, i, now), i + 1, now)
  }

  /** Each running train at or after `i` moves exactly once, by one of the two rules; no
      other train and no other field of a train changes, and the log stays bounded. */
  lemma {:induction false} MoveFromEffect(w: World, i: nat, now: real)
    requires i <= |w.trains| && TrainsOk(w.trains)
    ensures var r := MoveFrom(w, i, now);
            (forall k :: 0 <= k < |w.trains| ==> SameTrain(w.trains[k], r.trains[k]))
            && (forall k :: 0 <= k < i ==> r.trains[k] == w.trains[k])
            && (forall k :: i <= k < |w.trains| ==>
                  if w.trains[k].status == Running
                  then r.trains[k] == MovedTrain(w.trains[k], true) || r.trains[k] == MovedTrain(w.trains[k], false)
                  else r.trains[k] == w.trains[k])
            && (|w.audit| <= MAX_AUDIT ==> |r.audit| <= MAX_AUDIT)
    decreases |w.trains| - i
  {
    if i < |w.trains| {
      MoveFromEffect(MoveStep(w, i, now), i + 1, now);
    }
  }

  /** The largest index at or after `i` of a running train, if any. */
  function LastRunningFrom(ts: seq<SimTrain>, i: nat): (r: Option<nat>)
    ensures r.Some? ==> i <= r.value < |ts| && ts[r.value].status == Running
                        && forall k :: r.value < k < |ts| ==> ts[k].status != Running
    ensures r.None? ==> forall k :: i <= k < |ts| ==> ts[k].status != Running
    decreases |ts| - i
  {
    if i >= |ts| then None
    else match LastRunningFrom(ts, i + 1)
      case Some(k) => Some(k)
      case None => if ts[i].status == Running then Some(i) else None
  }

  lemma {:induction false} LastRunningFromSameStatus(a: seq<SimTrain>, b: seq<SimTrain>, i: nat)
    requires |a| == |b| && forall k :: 0 <= k < |a| ==> a[k].status == b[k].status
    ensures LastRunningFrom(a, i) == LastRunningFrom(b, i)
    decreases |a| - i
  {
    if i < |a| {
      LastRunningFromSameStatus(a, b, i + 1);
    }
  }

  /** The tracks as the last running train at or after `i` leaves them, from its position
      before it moves; the tracks themselves when no train from `i` on is running. */
  function ShownTracks(w: World, i: nat): seq<SimTrack>
    requires TrainsOk(w.trains)
  {
    match LastRunningFrom(w.trains, i)
    case None => w.tracks
    case Some(k) => MarkTracks(w.tracks, w.trains[k].id, Pos(w.trains[k]))
  }

  lemma ShownTracksAfterStep(w: World, i: nat, now: real)
    requires i < |w.trains| && TrainsOk(w.trains)
    ensures ShownTracks(MoveStep(w, i, now), i + 1) == ShownTracks(w, i)
  {
    var w' := MoveStep(w, i, now);
    var t := w.trains[i];
    LastRunningFromSameStatus(w.trains, w'.trains, i + 1);
    match LastRunningFrom(w.trains, i + 1)
    case Some(k) => {
      assert w'.trains[k] == w.trains[k];
      if t.status == Running {
        MarkTracksOverwrites(w.tracks, t.id, Pos(t), w.trains[k].id, Pos(w.trains[k]));
      }
    }
    case None => {
    }
  }

  /** Because each `_update_track_status` call overwrites every track, after the movement
      loop the tracks show only the last running train, at the position it had before it
      moved; with no running train they are untouched. */
  lemma {:induction false} TickTracksShowLastRunning(w: World, i: nat, now: real)
    requires i <= |w.trains| && TrainsOk(w.trains)
    ensures MoveFrom(w, i, now).tracks == ShownTracks(w, i)
    decreases |w.trains| - i
  {
    if i < |w.trains| {
      TickTracksShowLastRunning(MoveStep(w, i, now), i + 1, now);
      ShownTracksAfterStep(w, i, now);
    }
  }

  // ---------------------------------------------------------------------------
  // Tickets

  function TicketIndex(ts: seq<Ticket>, id: string): (r: Option<nat>)
    ensures r.Some? ==> r.value < |ts| && ts[r.value].ticketId == id
    ensures r.None? ==> forall k :: 0 <= k < |ts| ==> ts[k].ticketId != id
    decreases |ts|
  {
    if ts == [] then None
    else if ts[|ts| - 1].ticketId == id then Some(|ts| - 1)
    else TicketIndex(ts[..|ts| - 1], id)
  }

  predicate DistinctTicketIds(ts: seq<Ticket>) {
    forall i, j :: 0 <= i < |ts| && 0 <= j < |ts| && i != j ==> ts[i].ticketId != ts[j].ticketId
  }

  /** With distinct ids, the lookup finds the one ticket that has the id. */
  lemma TicketIndexFinds(ts: seq<Ticket>, id: string, k: nat)
    requires DistinctTicketIds(ts) && k < |ts| && ts[k].ticketId == id
    ensures TicketIndex(ts, id) == Some(k)
  {
  }

  /** `pending_tickets[t.ticketId] = t`: replace in place under an existing key, append otherwise. */
  function PutTicket(ts: seq<Ticket>, t: Ticket): (r: seq<Ticket>)
    requires DistinctTicketIds(ts)
    ensures |ts| <= |r| && DistinctTicketIds(r)
    ensures TicketIndex(r, t.ticketId).Some? && r[TicketIndex(r, t.ticketId).value] == t
    ensures forall k :: 0 <= k < |ts| && ts[k].ticketId != t.ticketId ==> r[k] == ts[k]
    ensures TicketIndex(ts, t.ticketId).None? ==> r == ts + [t]
    ensures TicketIndex(ts, t.ticketId).Some? ==> |r| == |ts|
  {
    match TicketIndex(ts, t.ticketId)
    case Some(k) =>
      var r := ts[k := t];
      TicketIndexFinds(r, t.ticketId, k);
      r
    case None =>
      var r := ts + [t];
      TicketIndexFinds(r, t.ticketId, |ts|);
      r
  }

  // ---------------------------------------------------------------------------
  // The simulator object

  class DemoSimulator {
    var trains: seq<SimTrain>
    var tracks: seq<SimTrack>
    var audit: seq<AuditEntry>
    var pendingTickets: seq<Ticket>
    var activeRecommendation: Option<SimRecommendation>

    ghost predicate Valid()
      reads this
    {
      TrainsOk(trains) && SequentialIds(trains) && DistinctTicketIds(pendingTickets) && |audit| <= MAX_AUDIT
    }

    /** The initial three trains and five tracks; the background tasks are not modelled. */
    constructor ()
      ensures Valid()
      ensures |trains| == 3 && |tracks| == 5 && audit == [] && pendingTickets == []
      ensures activeRecommendation == None
      ensures forall k :: 0 <= k < |trains| ==>
                trains[k].status == Running && trains[k].idx == 0 && trains[k].delay == 0.0
      ensures forall k :: 0 <= k < |tracks| ==> tracks[k].status == TrackFree && tracks[k].occupiedBy == None
    {
      trains := [
        SimTrain("T1", "Express 101", "passenger",
                 [Point(20.0, 74.5), Point(20.0, 75.0), Point(20.0, 75.5), Point(20.0, 76.0)],
                 0, 60.0, 80.0, "high", Running, 0.0),
        SimTrain("T2", "Freight 202", "freight",
                 [Point(19.8, 75.5), Point(20.0, 75.0), Point(20.2, 74.5), Point(20.4, 74.0)],
                 0, 50.0, 60.0, "medium", Running, 0.0),
        SimTrain("T3", "Local 303", "passenger",
                 [Point(20.1, 74.0), Point(20.0, 74.5), Point(20.0, 75.0), Point(20.0, 75.5)],
                 0, 45.0, 70.0, "low", Running, 0.0)
      ];
      tracks := [
        SimTrack("B1", Point(20.0, 74.5), Point(20.0, 75.0), TrackFree, 1, 80.0, None),
        SimTrack("B2", Point(20.0, 75.0), Point(20.0, 75.5), TrackFree, 1, 80.0, None),
        SimTrack("B3", Point(20.0, 75.5), Point(20.0, 76.0), TrackFree, 1, 80.0, None),
        SimTrack("B4", Point(19.8, 75.5), Point(20.0, 75.0), TrackFree, 1, 60.0, None),
        SimTrack("B5", Point(20.0, 75.0), Point(20.2, 74.5), TrackFree, 1, 60.0, None)
      ];
      audit := [];
      pendingTickets := [];
      activeRecommendation := None;
      assert NatToString(1) == "1" && NatToString(2) == "2" && NatToString(3) == "3";
    }

    /** `log_audit`: append the entry and keep the last 1000. */
    method LogAudit(ts: real, action: string, payload: AuditPayload)
      modifies this
      ensures audit == LogAppend(old(audit), AuditEntry(ts, action, payload))
      ensures trains == old(trains) && tracks == old(tracks)
      ensures pendingTickets == old(pendingTickets) && activeRecommendation == old(activeRecommendation)
    {
      var entry := AuditEntry(ts, action, payload);
      var extended := audit + [entry];
      audit := PyTail(extended, MAX_AUDIT);
      assert audit == LogAppend(old(audit), entry);
    }

    /** `get_positions`. */
    method GetPositions() returns (out: seq<Position>)
      requires TrainsOk(trains)
      ensures out == PositionsOf(trains)
    {
      out := [];
      for k := 0 to |trains|
        invariant out == PositionsOf(trains)[..k]
      {
        var v := trains[k];
        out := out + [Position(v.id, v.trainLabel, v.route, v.route[v.idx], v.speed, "secX")];
      }
    }

    /** `_check_track_conflicts`: the running trains other than `trainId` near `position`. */
    method CheckTrackConflicts(trainId: string, position: Point) returns (conflicts: seq<ProximityHit>)
      requires TrainsOk(trains)
      ensures conflicts == TrackConflicts(trains, trainId, position)
    {
      conflicts := [];
      for k := 0 to |trains|
        invariant conflicts == TrackHits(trains, trainId, position, k)
      {
        var other := trains[k];
        if other.id != trainId && other.status == Running {
          var otherPos := other.route[other.idx];
          var distance := DistSq(position, otherPos);
          if distance < HIT_RADIUS * HIT_RADIUS {
            conflicts := conflicts + [ProximityHit(other.id, distance,
                                        if distance < HIT_HIGH_RADIUS * HIT_HIGH_RADIUS then High else Medium)];
          }
        }
      }
    }

    /** `_detect_all_conflicts`: the track conflicts of every running train at its position. */
    method DetectAllConflicts() returns (all: seq<ProximityHit>)
      requires TrainsOk(trains)
      ensures all == AllConflicts(trains)
    {
      all := [];
      for k := 0 to |trains|
        invariant all == AllHitsUpTo(trains, k)
      {
        var train := trains[k];
        if train.status == Running {
          var conflicts := CheckTrackConflicts(train.id, train.route[train.idx]);
          all := all + conflicts;
        }
      }
    }

    /** `_detect_conflicts`: every pair i < j of positions closer than 0.1. */
    method DetectConflicts(positions: seq<Position>) returns (conflicts: seq<PairConflict>)
      ensures conflicts == PairConflicts(positions)
    {
      conflicts := [];
      for i := 0 to |positions|
        invariant conflicts == PairsUpTo(positions, i)
      {
        ghost var before := conflicts;
        for j := i + 1 to |positions|
          invariant conflicts == before + RowUpTo(positions, i, j)
        {
          var pos1, pos2 := positions[i].position, positions[j].position;
          var distance := DistSq(pos1, pos2);
          ghost var row := RowUpTo(positions, i, j);
          assert RowUpTo(positions, i, j + 1)
                 == row + (if ClosePair(positions, i, j) then [MakePair(positions, i, j)] else []);
          if distance < PAIR_RADIUS * PAIR_RADIUS {
            conflicts := conflicts + [PairConflict(positions[i].id, positions[j].id, distance,
                                        if distance < PAIR_HIGH_RADIUS * PAIR_HIGH_RADIUS then High else Medium)];
            assert conflicts == before + (row + [MakePair(positions, i, j)]);
          }
        }
        assert PairsUpTo(positions, i + 1) == before + RowUpTo(positions, i, |positions|);
      }
    }

    /** `_update_track_status`: overwrite every track's occupancy from one train's position. */
    method UpdateTrackStatus(trainId: string, position: Point)
      modifies this
      ensures tracks == MarkTracks(old(tracks), trainId, position)
      ensures trains == old(trains) && audit == old(audit)
      ensures pendingTickets == old(pendingTickets) && activeRecommendation == old(activeRecommendation)
    {
      for k := 0 to |tracks|
        invariant |tracks| == |old(tracks)|
        invariant forall m :: 0 <= m < k ==> tracks[m] == MarkedTrack(old(tracks)[m], trainId, position)
        invariant forall m :: k <= m < |tracks| ==> tracks[m] == old(tracks)[m]
        invariant trains == old(trains) && audit == old(audit)
        invariant pendingTickets == old(pendingTickets) && activeRecommendation == old(activeRecommendation)
      {
        var track := tracks[k];
        if DistSq(position, track.from) < OCCUPY_RADIUS * OCCUPY_RADIUS
           || DistSq(position, track.to) < OCCUPY_RADIUS * OCCUPY_RADIUS {
          tracks := tracks[k := track.(status := TrackOccupied, occupiedBy := Some(trainId))];
        } else {
          tracks := tracks[k := track.(status := TrackFree, occupiedBy := None)];
        }
      }
    }

    /** `generate_recommendation`: look at the current positions and propose one action. */
    method GenerateRecommendation(recId: string, now: real) returns (rec: SimRecommendation)
      requires Valid()
      modifies this
      ensures Valid()
      ensures rec == RecommendationFrom(PairConflicts(PositionsOf(trains)), recId, now)
      ensures audit == LogAppend(old(audit), AuditEntry(now, "recommendation_generated", RecommendationGenerated(rec)))
      ensures trains == old(trains) && tracks == old(tracks)
      ensures pendingTickets == old(pendingTickets) && activeRecommendation == old(activeRecommendation)
    {
      var positions := GetPositions();
      var conflicts := DetectConflicts(positions);
      var summary: string;
      var timeSaved: real;
      if |conflicts| > 0 {
        var conflict := conflicts[0];
        summary := "Hold " + conflict.second + "; allow " + conflict.first + " to pass via primary route";
        timeSaved := HOLD_TIME_SAVED;
      } else {
        summary := SPACING_SUMMARY;
        timeSaved := SPACING_TIME_SAVED;
      }
      rec := SimRecommendation(recId, summary, timeSaved, now, Suggested, CONFIDENCE, |conflicts|);
      LogAudit(now, "recommendation_generated", RecommendationGenerated(rec));
    }

    /** The body of `_tick`'s movement loop for the train at index `i`: check the next route
        point for conflicts, apply the movement rule, and mark the tracks from the position
        the train had before it moved. */
    method MoveTrain(i: nat, now: real)
      requires i < |trains| && TrainsOk(trains)
      modifies this
      ensures World(trains, tracks, audit) == MoveStep(World(old(trains), old(tracks), old(audit)), i, now)
      ensures pendingTickets == old(pendingTickets) && activeRecommendation == old(activeRecommendation)
    {
      ghost var w := World(trains, tracks, audit);
      var train := trains[i];
      if train.status == Running {
        var currentPos := train.route[train.idx];
        var nextIdx := if train.idx + 1 < |train.route| then train.idx + 1 else |train.route| - 1;
        var nextPos := train.route[nextIdx];
        var conflicts := CheckTrackConflicts(train.id, nextPos);
        assert nextIdx == NextIdx(train);
        ghost var moved := MovedTrain(train, conflicts != []);
        if |conflicts| > 0 {
          trains := trains[i := train.(speed := MaxReal(MIN_CONFLICT_SPEED, train.speed * 0.5),
                                       delay := train.delay + 1.0)];
          assert trains == w.trains[i := moved];
          LogAudit(now, "conflict_detected", ConflictDetected(train.id, conflicts, "speed_reduced"));
        } else {
          trains := trains[i := train.(idx := nextIdx, speed := MinReal(train.maxSpeed, train.speed + SPEED_STEP),
                                       delay := MaxReal(0.0, train.delay - DELAY_RECOVERY))];
          assert trains == w.trains[i := moved];
        }
        UpdateTrackStatus(train.id, currentPos);
        assert tracks == MarkTracks(w.tracks, train.id, Pos(train));
        assert audit == if conflicts != [] then LogAppend(w.audit, AuditEntry(now, "conflict_detected",
                                                            ConflictDetected(train.id, conflicts, "speed_reduced")))
                        else w.audit;
        assert World(trains, tracks, audit) == MoveStep(w, i, now);
      }
    }

    /** `_tick`'s movement loop: every train in dictionary order. */
    method MoveAll(now: real)
      requires Valid()
      modifies this
      ensures Valid()
      ensures World(trains, tracks, audit) == MoveFrom(World(old(trains), old(tracks), old(audit)), 0, now)
      ensures pendingTickets == old(pendingTickets) && activeRecommendation == old(activeRecommendation)
    {
      ghost var start := World(trains, tracks, audit);
      var i := 0;
      while i < |trains|
        invariant 0 <= i <= |trains| == |start.trains|
        invariant TrainsOk(trains) && SequentialIds(trains) && |audit| <= MAX_AUDIT
        invariant MoveFrom(World(trains, tracks, audit), i, now) == MoveFrom(start, 0, now)
        invariant pendingTickets == old(pendingTickets) && activeRecommendation == old(activeRecommendation)
        decreases |trains| - i
      {
        MoveTrain(i, now);
        i := i + 1;
      }
    }

    /** One round of `_tick`: move every running train in dictionary order, then, if any
        conflict remains and no recommendation is active, generate and store one. */
    method Tick(now: real, recId: string)
      requires Valid()
      modifies this
      ensures Valid()
      ensures var moved := MoveFrom(World(old(trains), old(tracks), old(audit)), 0, now);
              trains == moved.trains && tracks == moved.tracks
              && pendingTickets == old(pendingTickets)
              && if AllConflicts(moved.trains) != [] && old(activeRecommendation) == None then
                   var rec := RecommendationFrom(PairConflicts(PositionsOf(moved.trains)), recId, now);
                   activeRecommendation == Some(rec)
                   && audit == LogAppend(moved.audit, AuditEntry(now, "recommendation_generated",
                                                                 RecommendationGenerated(rec)))
                 else activeRecommendation == old(activeRecommendation) && audit == moved.audit
    {
      MoveAll(now);
      var all := DetectAllConflicts();
      if |all| > 0 && activeRecommendation.None? {
        var rec := GenerateRecommendation(recId, now);
        activeRecommendation := Some(rec);
      }
    }

    /** `request_approval`: file a pending ticket under the given fresh id. */
    method RequestApproval(ticketId: string, payload: SimRecommendation, now: real) returns (ticket: Ticket)
      requires Valid()
      modifies this
      ensures Valid()
      ensures ticket == Ticket(ticketId, payload, Pending, now, None)
      ensures pendingTickets == PutTicket(old(pendingTickets), ticket)
      ensures audit == LogAppend(old(audit), AuditEntry(now, "approval_requested", ApprovalRequested(ticket)))
      ensures trains == old(trains) && tracks == old(tracks) && activeRecommendation == old(activeRecommendation)
    {
      ticket := Ticket(ticketId, payload, Pending, now, None);
      pendingTickets := PutTicket(pendingTickets, ticket);
      LogAudit(now, "approval_requested", ApprovalRequested(ticket));
    }

    /** `accept_recommendation`: mark the active recommendation accepted, if the id is its id. */
    method AcceptRecommendation(recId: string, user: string, now: real) returns (outcome: AcceptOutcome)
      requires Valid()
      modifies this
      ensures Valid()
      ensures old(activeRecommendation).Some? && old(activeRecommendation).value.id == recId ==>
                outcome == AcceptedOk
                && activeRecommendation == Some(old(activeRecommendation).value.(status := Accepted))
                && audit == LogAppend(old(audit), AuditEntry(now, "recommendation_accepted",
                                                             RecommendationAccepted(recId, user)))
      ensures !(old(activeRecommendation).Some? && old(activeRecommendation).value.id == recId) ==>
                outcome == RecNotFound && activeRecommendation == old(activeRecommendation) && audit == old(audit)
      ensures trains == old(trains) && tracks == old(tracks) && pendingTickets == old(pendingTickets)
    {
      if activeRecommendation.Some? && activeRecommendation.value.id == recId {
        activeRecommendation := Some(activeRecommendation.value.(status := Accepted));
        LogAudit(now, "recommendation_accepted", RecommendationAccepted(recId, user));
        return AcceptedOk;
      }
      return RecNotFound;
    }

    /** `approve_ticket`: decide a known ticket, whatever its current status; an unknown id
        gives `None` and changes nothing. */
    method ApproveTicket(ticketId: string, approved: bool, comment: string, now: real) returns (result: Option<Ticket>)
      requires Valid()
      modifies this
      ensures Valid()
      ensures TicketIndex(old(pendingTickets), ticketId).None? ==>
                result == None && pendingTickets == old(pendingTickets) && audit == old(audit)
      ensures TicketIndex(old(pendingTickets), ticketId).Some? ==>
                (var k := TicketIndex(old(pendingTickets), ticketId).value;
                 var decided := old(pendingTickets)[k].(status := if approved then Approved else Rejected,
                                                        comment := Some(comment));
                 result == Some(decided) && pendingTickets == old(pendingTickets)[k := decided]
                 && audit == LogAppend(old(audit), AuditEntry(now, if approved then "ticket_approved" else "ticket_rejected",
                                                              TicketDecided(decided))))
      ensures trains == old(trains) && tracks == old(tracks) && activeRecommendation == old(activeRecommendation)
    {
      var found := TicketIndex(pendingTickets, ticketId);
      if found.None? {
        return None;
      }
      var k := found.value;
      var t := pendingTickets[k].(status := if approved then Approved else Rejected, comment := Some(comment));
      pendingTickets := pendingTickets[k := t];
      LogAudit(now, if approved then "ticket_approved" else "ticket_rejected", TicketDecided(t));
      return Some(t);
    }

    /** The "delay" event of `_generate_events`, with the random train and minutes as parameters. */
    method RandomDelay(k: nat, delayMinutes: int, now: real)
      requires Valid() && k < |trains| && 2 <= delayMinutes <= 10
      modifies this
      ensures Valid()
      ensures trains == old(trains)[k := old(trains)[k].(delay := old(trains)[k].delay + delayMinutes as real)]
      ensures audit == LogAppend(old(audit), AuditEntry(now, "random_delay",
                                 RandomDelayApplied(old(trains)[k].id, delayMinutes, "operational_delay")))
      ensures tracks == old(tracks) && pendingTickets == old(pendingTickets)
      ensures activeRecommendation == old(activeRecommendation)
    {
      var train := trains[k];
      ReplaceTrainKeepsInvariants(trains, k, train.(delay := train.delay + delayMinutes as real));
      trains := trains[k := train.(delay := train.delay + delayMinutes as real)];
      assert Valid();
      LogAudit(now, "random_delay", RandomDelayApplied(train.id, delayMinutes, "operational_delay"));
    }

    /** The "speed_change" event of `_generate_events`: the speed moves by the random change,
        clamped to at most the train's maximum and then to at least 20. */
    method RandomSpeedChange(k: nat, change: int, now: real)
      requires Valid() && k < |trains| && -10 <= change <= 10
      modifies this
      ensures Valid()
      ensures var t := old(trains)[k];
              var s := MaxReal(MIN_RANDOM_SPEED, MinReal(t.maxSpeed, t.speed + change as real));
              trains == old(trains)[k := t.(speed := s)]
              && audit == LogAppend(old(audit), AuditEntry(now, "speed_adjustment", SpeedAdjusted(t.id, s, change)))
      ensures tracks == old(tracks) && pendingTickets == old(pendingTickets)
      ensures activeRecommendation == old(activeRecommendation)
    {
      var train := trains[k];
      var newSpeed := MaxReal(MIN_RANDOM_SPEED, MinReal(train.maxSpeed, train.speed + change as real));
      ReplaceTrainKeepsInvariants(trains, k, train.(speed := newSpeed));
      trains := trains[k := train.(speed := newSpeed)];
      assert Valid();
      LogAudit(now, "speed_adjustment", SpeedAdjusted(train.id, newSpeed, change));
    }
  }
}
