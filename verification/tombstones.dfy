/** "No compare-and-set or tombstones needed": applying operations in assigned order
    with plain overwrite and delete agrees with the textbook last-write-wins merge,
    which keeps tombstones and may see the operations in any order, any number of times. */
module Tombstones {
  import opened Protocol
  import opened Sequencer

  datatype Stamped = Stamped(sn: nat, op: Op)

  function Stamp(log: seq<Op>): (r: seq<Stamped>)
    ensures |r| == |log| && forall k :: 0 <= k < |log| ==> r[k] == Stamped(k + 1, log[k])
  {
    seq(|log|, k requires 0 <= k < |log| => Stamped(k + 1, log[k]))
  }

  /** Compare-and-set on the sequence number; a delete stays behind as a tombstone. */
  function Merge(m: map<ShapeId, Stamped>, e: Stamped): map<ShapeId, Stamped> {
    if e.op.id in m && e.sn <= m[e.op.id].sn then m else m[e.op.id := e]
  }

  function MergeAll(es: seq<Stamped>): map<ShapeId, Stamped> {
    if es == [] then map[] else Merge(MergeAll(es[..|es| - 1]), es[|es| - 1])
  }

  function Visible(m: map<ShapeId, Stamped>): map<ShapeId, Stored> {
    map id | id in m && m[id].op.Put? :: Stored(m[id].sn, m[id].op.shape)
  }

  /** The merge holds, for each shape it has seen, an operation with the largest
      sequence number seen for that shape. */
  lemma {:induction false} MergeKeepsNewest(es: seq<Stamped>, id: ShapeId)
    ensures id in MergeAll(es) ==> MergeAll(es)[id] in es && MergeAll(es)[id].op.id == id
    ensures forall e :: e in es && e.op.id == id ==> id in MergeAll(es) && e.sn <= MergeAll(es)[id].sn
  {
    if es == [] {
    } else {
      var before := es[..|es| - 1];
      MergeKeepsNewest(before, id);
      assert es == before + [es[|es| - 1]];
    }
  }

  /** What the merge holds for a shape is its last write in the log, if there is one. */
  lemma MergeHoldsLastWrite(log: seq<Op>, es: seq<Stamped>, id: ShapeId)
    requires forall e :: e in es <==> e in Stamp(log)
    ensures id in MergeAll(es) <==> LastWrite(log, id) >= 0
    ensures id in MergeAll(es) ==> MergeAll(es)[id] == Stamp(log)[LastWrite(log, id)]
  {
    var m, k := MergeAll(es), LastWrite(log, id);
    MergeKeepsNewest(es, id);
    if k >= 0 {
      assert Stamp(log)[k] in es;
    }
    if id in m {
      HeldWriteIsLast(log, m[id], id);
    }
  }

  lemma HeldWriteIsLast(log: seq<Op>, e: Stamped, id: ShapeId)
    requires e in Stamp(log) && e.op.id == id
    ensures LastWrite(log, id) >= 0 && e.sn <= LastWrite(log, id) + 1
    ensures e.sn == LastWrite(log, id) + 1 ==> e == Stamp(log)[LastWrite(log, id)]
  {
    var j :| 0 <= j < |log| && e == Stamp(log)[j];
    LastWriteIsMax(log, id, j);
  }

  /** Main result: any delivery `es` of exactly the operations of `log`, permuted and
      duplicated at will, makes the same shapes visible as the sequencer's store. */
  lemma NoTombstonesNeeded(log: seq<Op>, es: seq<Stamped>)
    requires forall e :: e in es <==> e in Stamp(log)
    ensures Visible(MergeAll(es)) == Replay(log).shapes
  {
    var m := MergeAll(es);
    forall id
      ensures id in Visible(m) <==> id in Replay(log).shapes
      ensures id in Visible(m) ==> Visible(m)[id] == Replay(log).shapes[id]
    {
      ReplayAt(log, id);
      MergeHoldsLastWrite(log, es, id);
    }
  }
}
