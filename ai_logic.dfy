/**
 * The dashboard's rule-based advisory engine (lib/aiLogic.ts): per-track occupancy
 * classification, overlap-conflict detection, "hold the second train" advisories
 * and the per-train schedule suggestion.
 *
 * Distances are plane Euclidean on raw coordinates and are compared on squares.
 * `Date.now()` is the parameter `now`, a count of milliseconds.
 */
module AiLogic {
  import opened Wrappers
  import opened Geometry
  import opened Seqs
  import opened Decimal

  /** Radius of the band in which a train occupies a track endpoint. */
  const NEAR: real := 0.5
  /** Radius of the wider band in which a train is approaching a track endpoint. */
  const APPROACH: real := 1.0
  /** Speed assumed for a train whose speed is missing or zero (`train.speed || 60`). */
  const DEFAULT_SPEED: real := 60.0
  /** Floor of a reduced speed. */
  const MIN_REDUCED_SPEED: real := 20.0
  /** Factor applied to a train's speed when it is asked to slow down. */
  const REDUCTION_FACTOR: real := 0.7
  /** Estimated minutes of delay per conflict a train is involved in. */
  const DELAY_PER_CONFLICT: nat := 2

  datatype Train = Train(id: string, name: string, source: string, destination: string,
                         lat: real, lng: real, speed: Option<real>, direction: Option<real>)

  datatype TrackStatus = Free | Occupied | SoonOccupied

  datatype Track = Track(id: string, from: Point, to: Point, status: TrackStatus)

  datatype ConflictType = Overlap | Collision | SpeedConflict

  datatype Severity = Low | Medium | High

  datatype Conflict = Conflict(id: string, block: string, trains: seq<string>,
                               kind: ConflictType, severity: Severity)

  datatype Action = Hold | Reroute | SpeedAdjust | PriorityChange

  datatype Recommendation = Recommendation(id: string, action: Action, train: string,
                                           reason: string, priority: Severity)

  function Location(t: Train): Point {
    Point(t.lat, t.lng)
  }

  /** The train is strictly within `radius` of one of the track's endpoints. */
  predicate CloseToTrack(t: Train, track: Track, radius: real)
    requires radius > 0.0
  {
    WithinRadius(Location(t), track.from, radius) || WithinRadius(Location(t), track.to, radius)
  }

  predicate Near(t: Train, track: Track) {
    CloseToTrack(t, track, NEAR)
  }

  predicate Approaching(t: Train, track: Track) {
    CloseToTrack(t, track, APPROACH)
  }

  /** The trains occupying the track, in input order. */
  function TrainsOnTrack(trains: seq<Train>, track: Track): (r: seq<Train>)
    ensures |r| <= |trains|
    ensures forall t :: t in r <==> t in trains && Near(t, track)
  {
    Filter(trains, t => Near(t, track))
  }

  /** The trains that are approaching the track without occupying it, in input order. */
  function ApproachingTrains(trains: seq<Train>, track: Track): (r: seq<Train>)
    ensures forall t :: t in r <==> t in trains && !Near(t, track) && Approaching(t, track)
  {
    var onTrack := TrainsOnTrack(trains, track);
    Filter(trains, t => t !in onTrack && Approaching(t, track))
  }

  /** The status `checkTrackStatus` gives one track: soon-occupied exactly when one train
      occupies it and some other train approaches it; occupied exactly when several trains
      occupy it, or one does and no other approaches. */
  function ClassifyStatus(trains: seq<Train>, track: Track): (r: TrackStatus)
    ensures r == SoonOccupied <==>
              |TrainsOnTrack(trains, track)| == 1 && exists t :: t in trains && !Near(t, track) && Approaching(t, track)
    ensures r == Occupied <==>
              |TrainsOnTrack(trains, track)| > 1
              || (|TrainsOnTrack(trains, track)| == 1
                  && forall t :: t in trains && !Near(t, track) ==> !Approaching(t, track))
  {
    var onTrack := TrainsOnTrack(trains, track);
    var approaching := ApproachingTrains(trains, track);
    assert |approaching| > 0 ==> approaching[0] in approaching;
    if |onTrack| > 1 then Occupied
    else if |onTrack| == 1 then
      (if |approaching| > 0 then SoonOccupied else Occupied)
    else Free
  }

  /** `checkTrackStatus`: every track keeps its identity and endpoints, in order, and
      gets the status computed from that track alone and the full train list. */
  function CheckTrackStatus(trains: seq<Train>, tracks: seq<Track>): (r: seq<Track>)
    ensures |r| == |tracks|
    ensures forall k :: 0 <= k < |tracks| ==>
              r[k].id == tracks[k].id && r[k].from == tracks[k].from && r[k].to == tracks[k].to
              && r[k].status == ClassifyStatus(trains, tracks[k])
  {
    if tracks == [] then []
    else [tracks[0].(status := ClassifyStatus(trains, tracks[0]))] + CheckTrackStatus(trains, tracks[1..])
  }

  /** A track is free exactly when no train is near either endpoint. */
  lemma StatusFree(trains: seq<Train>, track: Track)
    ensures ClassifyStatus(trains, track) == Free <==> forall t :: t in trains ==> !Near(t, track)
  {
    var onTrack := TrainsOnTrack(trains, track);
    if onTrack != [] {
      assert onTrack[0] in onTrack;
    }
  }

  /** Two train entries near the track make it occupied, whatever else is around. */
  lemma StatusOccupiedWhenShared(trains: seq<Train>, track: Track, i: nat, j: nat)
    requires i < j < |trains| && Near(trains[i], track) && Near(trains[j], track)
    ensures ClassifyStatus(trains, track) == Occupied
  {
    FilterTwo(trains, t => Near(t, track), i, j);
  }

  /** With exactly one occupying train, the track is soon-occupied exactly when some
      train that does not occupy it is within the approach band. */
  lemma StatusSingleOccupant(trains: seq<Train>, track: Track)
    requires |TrainsOnTrack(trains, track)| == 1
    ensures ClassifyStatus(trains, track) == SoonOccupied <==>
              exists t :: t in trains && !Near(t, track) && Approaching(t, track)
    ensures ClassifyStatus(trains, track) != Free
  {
    var approaching := ApproachingTrains(trains, track);
    if approaching != [] {
      assert approaching[0] in approaching;
    }
  }

  /** Locality: a track's status depends on its own endpoints and the train list only. */
  lemma StatusIsLocal(trains: seq<Train>, tracks1: seq<Track>, tracks2: seq<Track>, i: nat, j: nat)
    requires i < |tracks1| && j < |tracks2|
    requires tracks1[i].from == tracks2[j].from && tracks1[i].to == tracks2[j].to
    ensures CheckTrackStatus(trains, tracks1)[i].status == CheckTrackStatus(trains, tracks2)[j].status
  {
    var t1, t2 := tracks1[i], tracks2[j];
    assert forall t :: Near(t, t1) == Near(t, t2);
    assert forall t :: Approaching(t, t1) == Approaching(t, t2);
    assert TrainsOnTrack(trains, t1) == TrainsOnTrack(trains, t2) by {
      FilterSameTest(trains, t => Near(t, t1), t => Near(t, t2));
    }
    assert ApproachingTrains(trains, t1) == ApproachingTrains(trains, t2) by {
      var on := TrainsOnTrack(trains, t1);
      FilterSameTest(trains, t => t !in on && Approaching(t, t1), t => t !in on && Approaching(t, t2));
    }
  }

  /** Filtering with two tests that agree everywhere gives the same result. */
  lemma {:induction false} FilterSameTest(s: seq<Train>, p: Train -> bool, q: Train -> bool)
    requires forall t :: p(t) == q(t)
    ensures Filter(s, p) == Filter(s, q)
  {
    if s != [] {
      FilterSameTest(s[1..], p, q);
    }
  }

  // ---------------------------------------------------------------------------
  // detectConflicts

  /** The ids of a list of trains, in order. */
  function Ids(trains: seq<Train>): (r: seq<string>)
    ensures |r| == |trains|
    ensures forall k :: 0 <= k < |trains| ==> r[k] == trains[k].id
  {
    seq(|trains|, k requires 0 <= k < |trains| => trains[k].id)
  }

  /** The conflict reported for a track with more than one occupying train. */
  function OverlapConflict(trains: seq<Train>, track: Track, now: nat): Conflict {
    Conflict("C-" + track.id + "-" + NatToString(now), track.id,
             Ids(TrainsOnTrack(trains, track)), Overlap, High)
  }

  /** What `detectConflicts` pushes for one track: nothing, or one overlap conflict. */
  function ConflictAt(trains: seq<Train>, track: Track, now: nat): seq<Conflict> {
    if |TrainsOnTrack(trains, track)| > 1 then [OverlapConflict(trains, track, now)] else []
  }

  /** The conflicts `detectConflicts` returns, track by track in order. */
  function ConflictsFor(trains: seq<Train>, tracks: seq<Track>, now: nat): seq<Conflict>
    decreases |tracks|
  {
    if tracks == [] then []
    else ConflictsFor(trains, tracks[..|tracks| - 1], now) + ConflictAt(trains, tracks[|tracks| - 1], now)
  }

  /** `detectConflicts`: walks the tracks and pushes one conflict per multiply occupied track. */
  method DetectConflicts(trains: seq<Train>, tracks: seq<Track>, now: nat) returns (conflicts: seq<Conflict>)
    ensures conflicts == ConflictsFor(trains, tracks, now)
  {
    conflicts := [];
    for k := 0 to |tracks|
      invariant conflicts == ConflictsFor(trains, tracks[..k], now)
    {
      var onTrack := TrainsOnTrack(trains, tracks[k]);
      if |onTrack| > 1 {
        conflicts := conflicts + [Conflict("C-" + tracks[k].id + "-" + NatToString(now), tracks[k].id,
                                           Ids(onTrack), Overlap, High)];
      }
      assert tracks[..k + 1][..k] == tracks[..k];
    }
    assert tracks[..|tracks|] == tracks;
  }

  /** A conflict is reported exactly for the tracks with more than one occupying train. */
  lemma {:induction false} ConflictsCharacterized(trains: seq<Train>, tracks: seq<Track>, now: nat)
    ensures |ConflictsFor(trains, tracks, now)| <= |tracks|
    ensures forall c :: c in ConflictsFor(trains, tracks, now) <==>
              exists k :: 0 <= k < |tracks| && |TrainsOnTrack(trains, tracks[k])| > 1
                          && c == OverlapConflict(trains, tracks[k], now)
    decreases |tracks|
  {
    if tracks != [] {
      var n := |tracks| - 1;
      var init := tracks[..n];
      ConflictsCharacterized(trains, init, now);
      forall c | c in ConflictsFor(trains, tracks, now)
        ensures exists k :: 0 <= k < |tracks| && |TrainsOnTrack(trains, tracks[k])| > 1
                            && c == OverlapConflict(trains, tracks[k], now)
      {
        if c in ConflictsFor(trains, init, now) {
          var k :| 0 <= k < |init| && |TrainsOnTrack(trains, init[k])| > 1 && c == OverlapConflict(trains, init[k], now);
          assert init[k] == tracks[k];
        } else {
          assert c in ConflictAt(trains, tracks[n], now);
        }
      }
      forall k | 0 <= k < |tracks| && |TrainsOnTrack(trains, tracks[k])| > 1
        ensures OverlapConflict(trains, tracks[k], now) in ConflictsFor(trains, tracks, now)
      {
        if k < n {
          assert init[k] == tracks[k];
        }
      }
    }
  }

  /** The shape of every reported conflict: an overlap of severity high on a track of
      the input, listing at least two train ids, all of them ids of input trains. */
  lemma ConflictShape(trains: seq<Train>, tracks: seq<Track>, now: nat, c: Conflict)
    requires c in ConflictsFor(trains, tracks, now)
    ensures c.kind == Overlap && c.severity == High && |c.trains| >= 2
    ensures exists k :: 0 <= k < |tracks| && c.block == tracks[k].id
                        && c.trains == Ids(TrainsOnTrack(trains, tracks[k]))
                        && c.id == "C-" + tracks[k].id + "-" + NatToString(now)
    ensures forall id :: id in c.trains ==> exists t :: t in trains && t.id == id
  {
    ConflictsCharacterized(trains, tracks, now);
    var k :| 0 <= k < |tracks| && |TrainsOnTrack(trains, tracks[k])| > 1 && c == OverlapConflict(trains, tracks[k], now);
    var onTrack := TrainsOnTrack(trains, tracks[k]);
    forall id | id in c.trains
      ensures exists t :: t in trains && t.id == id
    {
      var m :| 0 <= m < |c.trains| && c.trains[m] == id;
      assert onTrack[m] in onTrack;
    }
  }

  /** With distinct track ids, no two reported conflicts concern the same track. */
  lemma {:induction false} AtMostOneConflictPerTrack(trains: seq<Train>, tracks: seq<Track>, now: nat)
    requires forall i, j :: 0 <= i < j < |tracks| ==> tracks[i].id != tracks[j].id
    ensures var cs := ConflictsFor(trains, tracks, now);
            forall a, b :: 0 <= a < b < |cs| ==> cs[a].block != cs[b].block
    decreases |tracks|
  {
    if tracks != [] {
      var n := |tracks| - 1;
      var init := tracks[..n];
      var prev := ConflictsFor(trains, init, now);
      var cs := ConflictsFor(trains, tracks, now);
      AtMostOneConflictPerTrack(trains, init, now);
      ConflictsCharacterized(trains, init, now);
      forall a, b | 0 <= a < b < |cs|
        ensures cs[a].block != cs[b].block
      {
        if b >= |prev| {
          assert cs[b] in ConflictAt(trains, tracks[n], now);
          assert cs[a] == prev[a] && prev[a] in prev;
          var k :| 0 <= k < |init| && |TrainsOnTrack(trains, init[k])| > 1 && prev[a] == OverlapConflict(trains, init[k], now);
          assert init[k] == tracks[k];
        } else {
          assert cs[a] == prev[a] && cs[b] == prev[b];
        }
      }
    }
  }

  /** Consistency with the classifier: the track a conflict names is occupied. */
  lemma ConflictImpliesOccupied(trains: seq<Train>, tracks: seq<Track>, now: nat, c: Conflict)
    requires c in ConflictsFor(trains, tracks, now)
    ensures exists k :: 0 <= k < |tracks| && tracks[k].id == c.block
                        && CheckTrackStatus(trains, tracks)[k].status == Occupied
  {
    ConflictsCharacterized(trains, tracks, now);
    var k :| 0 <= k < |tracks| && |TrainsOnTrack(trains, tracks[k])| > 1 && c == OverlapConflict(trains, tracks[k], now);
    assert CheckTrackStatus(trains, tracks)[k].status == ClassifyStatus(trains, tracks[k]);
  }

  // ---------------------------------------------------------------------------
  // generateRecommendations

  /** The conflicts `generateRecommendations` acts on. */
  predicate Actionable(c: Conflict) {
    c.kind == Overlap && |c.trains| > 1
  }

  /** The advisory for an actionable conflict: hold its second train. */
  function HoldSecond(c: Conflict): (r: Recommendation)
    requires |c.trains| > 1
    ensures r.id == "R-" + c.id && r.action == Hold && r.train == c.trains[1] && r.priority == c.severity
    ensures |r.reason| == |"Block "| + |c.block| + |" occupied by "| + |c.trains[0]|
    ensures r.reason[6..6 + |c.block|] == c.block
    ensures r.reason[|r.reason| - |c.trains[0]|..] == c.trains[0]
  {
    Recommendation("R-" + c.id, Hold, c.trains[1], "Block " + c.block + " occupied by " + c.trains[0], c.severity)
  }

  /** The recommendations `generateRecommendations` returns, conflict by conflict in order. */
  function RecommendationsFor(conflicts: seq<Conflict>): seq<Recommendation>
    decreases |conflicts|
  {
    if conflicts == [] then []
    else
      var last := conflicts[|conflicts| - 1];
      RecommendationsFor(conflicts[..|conflicts| - 1]) + (if Actionable(last) then [HoldSecond(last)] else [])
  }

  /** `generateRecommendations`: one "Hold" advisory per overlap conflict with more than one train.
      The train list is accepted and, as in the source, not consulted. */
  method GenerateRecommendations(conflicts: seq<Conflict>, trains: seq<Train>) returns (recs: seq<Recommendation>)
    ensures recs == RecommendationsFor(conflicts)
  {
    recs := [];
    for k := 0 to |conflicts|
      invariant recs == RecommendationsFor(conflicts[..k])
    {
      var c := conflicts[k];
      if c.kind == Overlap && |c.trains| > 1 {
        var toHold := c.trains[1];
        recs := recs + [Recommendation("R-" + c.id, Hold, toHold,
                                       "Block " + c.block + " occupied by " + c.trains[0], c.severity)];
      }
      assert conflicts[..k + 1][..k] == conflicts[..k];
    }
    assert conflicts[..|conflicts|] == conflicts;
  }

  /** Exactly one advisory per actionable conflict, in conflict order, and none for the rest. */
  lemma {:induction false} RecommendationsPerConflict(conflicts: seq<Conflict>)
    ensures var acted := Filter(conflicts, Actionable);
            var recs := RecommendationsFor(conflicts);
            |recs| == |acted| && forall i :: 0 <= i < |acted| ==> recs[i] == HoldSecond(acted[i])
    decreases |conflicts|
  {
    if conflicts != [] {
      var n := |conflicts| - 1;
      var init, last := conflicts[..n], conflicts[n];
      assert conflicts == init + [last];
      FilterAppend(init, [last], Actionable);
      RecommendationsPerConflict(init);
    }
  }

  /** Detection followed by advice: every detected conflict yields exactly one advisory,
      holding the second occupying train of that track. */
  lemma DetectedConflictsAllAdvised(trains: seq<Train>, tracks: seq<Track>, now: nat)
    ensures var cs := ConflictsFor(trains, tracks, now);
            var recs := RecommendationsFor(cs);
            |recs| == |cs| && forall i :: 0 <= i < |cs| ==> |cs[i].trains| > 1 && recs[i] == HoldSecond(cs[i])
  {
    var cs := ConflictsFor(trains, tracks, now);
    forall i | 0 <= i < |cs|
      ensures Actionable(cs[i])
    {
      assert cs[i] in cs;
      ConflictShape(trains, tracks, now, cs[i]);
    }
    FilterKeepsAll(cs, Actionable);
    RecommendationsPerConflict(cs);
  }

  // ---------------------------------------------------------------------------
  // optimizeTrainTraffic: the schedule

  datatype SuggestedAction = Proceed | ReduceSpeed | HoldTrain

  datatype ScheduleEntry = ScheduleEntry(trainId: string, currentSpeed: real, optimizedSpeed: real,
                                         suggestedAction: SuggestedAction, conflicts: nat,
                                         recommendations: nat, estimatedDelay: nat)

  /** JavaScript's `train.speed || 60`: an undefined speed and a speed of 0 both read as 60. */
  function SpeedOrDefault(speed: Option<real>): (s: real)
    ensures speed == None ==> s == DEFAULT_SPEED
    ensures speed.Some? && speed.value != 0.0 ==> s == speed.value
    ensures speed == Some(0.0) ==> s == DEFAULT_SPEED
  {
    match speed
    case None => DEFAULT_SPEED
    case Some(v) => if v == 0.0 then DEFAULT_SPEED else v
  }

  function ConflictsOfTrain(id: string, conflicts: seq<Conflict>): seq<Conflict> {
    Filter(conflicts, (c: Conflict) => id in c.trains)
  }

  /** The schedule entry for one train. */
  function EntryFor(t: Train, conflicts: seq<Conflict>, recs: seq<Recommendation>): (e: ScheduleEntry)
    ensures e.trainId == t.id && e.currentSpeed == SpeedOrDefault(t.speed)
    ensures e.suggestedAction == HoldTrain <==>
              exists c :: c in conflicts && t.id in c.trains && c.severity == High
    ensures e.suggestedAction == Proceed <==> forall c :: c in conflicts ==> t.id !in c.trains
    ensures e.suggestedAction == HoldTrain ==> e.optimizedSpeed == 0.0
    ensures e.suggestedAction == ReduceSpeed ==>
              e.optimizedSpeed >= MIN_REDUCED_SPEED
              && (e.optimizedSpeed == MIN_REDUCED_SPEED || e.optimizedSpeed == e.currentSpeed * REDUCTION_FACTOR)
              && e.optimizedSpeed >= e.currentSpeed * REDUCTION_FACTOR
    ensures e.suggestedAction == Proceed ==> e.optimizedSpeed == e.currentSpeed
    ensures e.conflicts == |ConflictsOfTrain(t.id, conflicts)|
    ensures e.estimatedDelay == DELAY_PER_CONFLICT * e.conflicts
    ensures e.recommendations == |Filter(recs, (r: Recommendation) => r.train == t.id)|
  {
    var mine := ConflictsOfTrain(t.id, conflicts);
    var current := SpeedOrDefault(t.speed);
    var high := Filter(mine, (c: Conflict) => c.severity == High);
    var action := if |mine| == 0 then Proceed else if |high| > 0 then HoldTrain else ReduceSpeed;
    var reduced := current * REDUCTION_FACTOR;
    var speed := if action == Proceed then current
                 else if action == HoldTrain then 0.0
                 else if reduced > MIN_REDUCED_SPEED then reduced else MIN_REDUCED_SPEED;
    assert |mine| > 0 ==> mine[0] in mine;
    assert |high| > 0 ==> high[0] in high;
    ScheduleEntry(t.id, current, speed, action, |mine|,
                  |Filter(recs, (r: Recommendation) => r.train == t.id)|, DELAY_PER_CONFLICT * |mine|)
  }

  /** The `optimizedSchedule` of `optimizeTrainTraffic`: one entry per train, in train order. */
  function Schedule(trains: seq<Train>, conflicts: seq<Conflict>, recs: seq<Recommendation>): (r: seq<ScheduleEntry>)
    ensures |r| == |trains|
    ensures forall k :: 0 <= k < |trains| ==> r[k] == EntryFor(trains[k], conflicts, recs)
  {
    seq(|trains|, k requires 0 <= k < |trains| => EntryFor(trains[k], conflicts, recs))
  }

  /** `optimizeTrainTraffic`: detect, advise, then schedule. */
  method OptimizeTrainTraffic(trains: seq<Train>, tracks: seq<Track>, now: nat)
    returns (conflicts: seq<Conflict>, recs: seq<Recommendation>, schedule: seq<ScheduleEntry>)
    ensures conflicts == ConflictsFor(trains, tracks, now)
    ensures recs == RecommendationsFor(conflicts)
    ensures schedule == Schedule(trains, conflicts, recs)
  {
    conflicts := DetectConflicts(trains, tracks, now);
    recs := GenerateRecommendations(conflicts, trains);
    schedule := Schedule(trains, conflicts, recs);
  }

  /** Every detected conflict is of severity high, so the schedule produced from them never
      asks a train to reduce speed: a train is held exactly when its id is listed on a
      multiply occupied track, and otherwise proceeds. */
  lemma ScheduleAfterDetection(trains: seq<Train>, tracks: seq<Track>, now: nat, k: nat)
    requires k < |trains|
    ensures var cs := ConflictsFor(trains, tracks, now);
            var e := Schedule(trains, cs, RecommendationsFor(cs))[k];
            e.suggestedAction != ReduceSpeed
            && (e.suggestedAction == HoldTrain <==>
                  exists j :: 0 <= j < |tracks| && |TrainsOnTrack(trains, tracks[j])| > 1
                              && trains[k].id in Ids(TrainsOnTrack(trains, tracks[j])))
  {
    var cs := ConflictsFor(trains, tracks, now);
    var id := trains[k].id;
    ConflictsCharacterized(trains, tracks, now);
    var e := EntryFor(trains[k], cs, RecommendationsFor(cs));
    if e.suggestedAction != Proceed {
      var c :| c in cs && id in c.trains;
      ConflictShape(trains, tracks, now, c);
    }
    if exists j :: 0 <= j < |tracks| && |TrainsOnTrack(trains, tracks[j])| > 1
                   && id in Ids(TrainsOnTrack(trains, tracks[j])) {
      var j :| 0 <= j < |tracks| && |TrainsOnTrack(trains, tracks[j])| > 1
               && id in Ids(TrainsOnTrack(trains, tracks[j]));
      assert OverlapConflict(trains, tracks[j], now) in cs;
    }
  }
}
