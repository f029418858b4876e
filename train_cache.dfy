/**
 * The realtime cache reducer of the train map (components/train-map.tsx): the
 * updater handed to `mutate` applies one database change event to the cached list
 * of train records, keyed by `train_id`. It never modifies the list it is given.
 */
module TrainCache {
  import opened Wrappers
  import opened Seqs

  datatype TrainRecord = TrainRecord(trainId: int, trainName: string, currentLat: real,
                                     currentLng: real, status: string)

  /** A change event: INSERT and UPDATE carry the new row, DELETE the old row;
      `OtherEvent` stands for every event type other than those three. */
  datatype ChangeEvent =
    | Insert(newRow: TrainRecord)
    | Update(newRow: TrainRecord)
    | Delete(oldRow: TrainRecord)
    | OtherEvent

  /** `current.some(t => t.train_id === id)`. */
  predicate HasId(current: seq<TrainRecord>, id: int) {
    exists k :: 0 <= k < |current| && current[k].trainId == id
  }

  /** INSERT: append the row unless a row with its id is already cached. */
  function InsertRow(current: seq<TrainRecord>, row: TrainRecord): (r: seq<TrainRecord>)
    ensures HasId(r, row.trainId)
    ensures HasId(current, row.trainId) ==> r == current
    ensures !HasId(current, row.trainId) ==> |r| == |current| + 1 && r[..|current|] == current && r[|current|] == row
  {
    if HasId(current, row.trainId) then current
    else
      var r := current + [row];
      assert r[|current|] == row;
      r
  }

  /** UPDATE: replace every row whose id matches, in place. */
  function UpdateRow(current: seq<TrainRecord>, row: TrainRecord): (r: seq<TrainRecord>)
    ensures |r| == |current|
    ensures forall k :: 0 <= k < |current| && current[k].trainId == row.trainId ==> r[k] == row
    ensures forall k :: 0 <= k < |current| && current[k].trainId != row.trainId ==> r[k] == current[k]
  {
    seq(|current|, k requires 0 <= k < |current| =>
          if current[k].trainId == row.trainId then row else current[k])
  }

  /** The filter test of DELETE: `t => t.train_id !== id`. */
  function OtherId(id: int): TrainRecord -> bool {
    (t: TrainRecord) => t.trainId != id
  }

  /** DELETE: drop every row with the id, keeping the others in order. */
  function DeleteRows(current: seq<TrainRecord>, id: int): (r: seq<TrainRecord>)
    ensures |r| <= |current| && !HasId(r, id)
    ensures forall x :: x in r <==> x in current && x.trainId != id
  {
    var kept := Filter(current, OtherId(id));
    assert forall k :: 0 <= k < |kept| ==> kept[k] in kept;
    kept
  }

  /** The updater: an undefined cache stays undefined; otherwise the event is applied. */
  function ApplyChange(current: Option<seq<TrainRecord>>, ev: ChangeEvent): (r: Option<seq<TrainRecord>>)
    ensures current == None ==> r == None
    ensures current.Some? ==> r.Some?
    ensures ev.OtherEvent? ==> r == current
  {
    match current
    case None => None
    case Some(rows) =>
      match ev
      case Insert(row) => Some(InsertRow(rows, row))
      case Update(row) => Some(UpdateRow(rows, row))
      case Delete(row) => Some(DeleteRows(rows, row.trainId))
      case OtherEvent => Some(rows)
  }

  /** Delivering the same INSERT twice has the effect of delivering it once. */
  lemma InsertIdempotent(current: Option<seq<TrainRecord>>, row: TrainRecord)
    ensures ApplyChange(ApplyChange(current, Insert(row)), Insert(row)) == ApplyChange(current, Insert(row))
  {
  }

  /** Delivering the same UPDATE twice has the effect of delivering it once. */
  lemma UpdateIdempotent(rows: seq<TrainRecord>, row: TrainRecord)
    ensures UpdateRow(UpdateRow(rows, row), row) == UpdateRow(rows, row)
  {
  }

  /** An UPDATE for an id that is not cached changes nothing. */
  lemma UpdateAbsentIsNoOp(rows: seq<TrainRecord>, row: TrainRecord)
    requires !HasId(rows, row.trainId)
    ensures UpdateRow(rows, row) == rows
  {
  }

  /** A DELETE for an id that is not cached changes nothing. */
  lemma DeleteAbsentIsNoOp(rows: seq<TrainRecord>, id: int)
    requires !HasId(rows, id)
    ensures DeleteRows(rows, id) == rows
  {
    FilterKeepsAll(rows, OtherId(id));
  }

  /** Inserting a fresh row and then deleting it restores the cache exactly. */
  lemma InsertThenDeleteRestores(rows: seq<TrainRecord>, row: TrainRecord)
    requires !HasId(rows, row.trainId)
    ensures ApplyChange(ApplyChange(Some(rows), Insert(row)), Delete(row)) == Some(rows)
  {
    var p := OtherId(row.trainId);
    assert !p(row);
    assert Filter([row], p) == [] by {
      assert [row][1..] == [];
    }
    FilterAppend(rows, [row], p);
    FilterKeepsAll(rows, p);
    assert DeleteRows(rows + [row], row.trainId) == Filter(rows, p) + Filter([row], p) == rows;
    assert ApplyChange(Some(rows), Insert(row)) == Some(rows + [row]);
  }

  /** DELETE keeps the surviving rows in their original order: deleting from a
      concatenation deletes from each part. */
  lemma DeleteKeepsOrder(front: seq<TrainRecord>, back: seq<TrainRecord>, id: int)
    ensures DeleteRows(front + back, id) == DeleteRows(front, id) + DeleteRows(back, id)
  {
    FilterAppend(front, back, OtherId(id));
  }
}
