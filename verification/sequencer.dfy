/** The abstract sequencer behind every broker: a board is a counter and a map of
    shapes, and its whole behaviour is a fold over the log of operations. */
module Sequencer {
  import opened Protocol

  datatype Op = Put(id: ShapeId, shape: Blob) | Del(id: ShapeId)

  datatype Stored = Stored(sn: nat, shape: Blob)

  datatype Board = Board(sn: nat, shapes: map<ShapeId, Stored>)

  const EMPTY: Board := Board(0, map[])

  /** Assign the next sequence number and overwrite or remove the shape. */
  function Apply(b: Board, op: Op): Board {
    var n := b.sn + 1;
    match op
    case Put(id, shape) => Board(n, b.shapes[id := Stored(n, shape)])
    case Del(id) => Board(n, b.shapes - {id})
  }

  function Replay(log: seq<Op>): Board {
    if log == [] then EMPTY else Apply(Replay(log[..|log| - 1]), log[|log| - 1])
  }

  /** The last log position that writes `id`, or -1. */
  function LastWrite(log: seq<Op>, id: ShapeId): (r: int)
    ensures -1 <= r < |log|
    ensures r >= 0 ==> log[r].id == id
    ensures forall k :: r < k < |log| ==> log[k].id != id
  {
    if log == [] then -1
    else if log[|log| - 1].id == id then |log| - 1
    else LastWrite(log[..|log| - 1], id)
  }

  /** Sequence numbers are contiguous, and each stored sequence number is the last
      log position that writes its shape. */
  lemma {:induction false} ReplayAt(log: seq<Op>, id: ShapeId)
    ensures Replay(log).sn == |log|
    ensures id in Replay(log).shapes <==> LastWrite(log, id) >= 0 && log[LastWrite(log, id)].Put?
    ensures id in Replay(log).shapes ==>
              Replay(log).shapes[id] == Stored(LastWrite(log, id) + 1, log[LastWrite(log, id)].shape)
  {
    if log == [] {
    } else {
      ReplayAt(log[..|log| - 1], id);
    }
  }

  lemma ReplaySeq(log: seq<Op>)
    ensures Replay(log).sn == |log|
  {
    ReplayAt(log, "");
  }

  lemma ReplayExtend(log: seq<Op>, op: Op)
    ensures Replay(log + [op]) == Apply(Replay(log), op)
  {
    assert (log + [op])[..|log|] == log;
  }

  /** The last write within a prefix: later operations on other shapes do not move it. */
  lemma LastWriteIsMax(log: seq<Op>, id: ShapeId, k: nat)
    requires k < |log| && log[k].id == id
    ensures k <= LastWrite(log, id)
  {
  }

  lemma LastWritePrefix(log: seq<Op>, n: nat, id: ShapeId)
    requires n <= |log|
    ensures LastWrite(log[..n], id) <= LastWrite(log, id)
    ensures LastWrite(log, id) < n ==> LastWrite(log[..n], id) == LastWrite(log, id)
  {
    var k := LastWrite(log[..n], id);
    var m := LastWrite(log, id);
    if k >= 0 {
      assert log[k].id == id;
      LastWriteIsMax(log, id, k);
    }
    if 0 <= m < n {
      assert log[..n][m].id == id;
      LastWriteIsMax(log[..n], id, m);
    }
  }

  // ---- Well-formed boards and canonical snapshots ----

  /** What every reachable board satisfies: stored sequence numbers lie between 1 and
      the counter and no two shapes share one. */
  ghost predicate WellFormed(b: Board) {
    && (forall id :: id in b.shapes ==> 1 <= b.shapes[id].sn <= b.sn)
    && (forall id, id' :: id in b.shapes && id' in b.shapes && id != id' ==> b.shapes[id].sn != b.shapes[id'].sn)
  }

  lemma ApplyKeepsWellFormed(b: Board, op: Op)
    requires WellFormed(b)
    ensures WellFormed(Apply(b, op))
  {
  }

  lemma {:induction false} ReplayWellFormed(log: seq<Op>)
    ensures WellFormed(Replay(log))
  {
    if log == [] {
    } else {
      ReplayWellFormed(log[..|log| - 1]);
      ApplyKeepsWellFormed(Replay(log[..|log| - 1]), log[|log| - 1]);
    }
  }

  ghost predicate Increasing(xs: seq<SnapshotShape>) {
    forall i, j :: 0 <= i < j < |xs| ==> xs[i].sn < xs[j].sn
  }

  /** `xs` lists exactly the entries of `shapes`. */
  ghost predicate Lists(xs: seq<SnapshotShape>, shapes: map<ShapeId, Stored>) {
    && (forall x :: x in xs ==> x.id in shapes && shapes[x.id] == Stored(x.sn, x.shape))
    && (forall id :: id in shapes ==> SnapshotShape(shapes[id].sn, id, shapes[id].shape) in xs)
  }

  ghost predicate IsSnapshot(snap: Snapshot, b: Board) {
    snap.sn == b.sn && Increasing(snap.shapes) && Lists(snap.shapes, b.shapes)
  }

  lemma {:induction false} IncreasingUnique(xs: seq<SnapshotShape>, ys: seq<SnapshotShape>)
    requires Increasing(xs) && Increasing(ys)
    requires forall x :: x in xs <==> x in ys
    ensures xs == ys
  {
    assert ys != [] ==> ys[0] in xs;
    if xs == [] {
    } else {
      assert xs[0] in ys;
      assert ys[0] in xs;
      assert xs[0] == ys[0];
      forall x
        ensures x in xs[1..] <==> x in ys[1..]
      {
        assert x in xs <==> x == xs[0] || x in xs[1..];
        assert x in ys <==> x == ys[0] || x in ys[1..];
        assert x in xs[1..] ==> x != xs[0];
        assert x in ys[1..] ==> x != ys[0];
      }
      IncreasingUnique(xs[1..], ys[1..]);
      assert xs == [xs[0]] + xs[1..] && ys == [ys[0]] + ys[1..];
    }
  }

  /** A board has at most one snapshot, whatever order its map is iterated in. */
  lemma SnapshotUnique(s: Snapshot, t: Snapshot, b: Board)
    requires IsSnapshot(s, b) && IsSnapshot(t, b)
    ensures s == t
  {
    forall x
      ensures x in s.shapes <==> x in t.shapes
    {
      assert x in s.shapes ==> x.id in b.shapes && x == SnapshotShape(b.shapes[x.id].sn, x.id, b.shapes[x.id].shape);
      assert x in t.shapes ==> x.id in b.shapes && x == SnapshotShape(b.shapes[x.id].sn, x.id, b.shapes[x.id].shape);
    }
    IncreasingUnique(s.shapes, t.shapes);
  }

  /** The map a hydration loop builds: a later entry overwrites an earlier one. */
  function Load(xs: seq<SnapshotShape>): map<ShapeId, Stored> {
    if xs == [] then map[]
    else var x := xs[|xs| - 1];
      Load(xs[..|xs| - 1])[x.id := Stored(x.sn, x.shape)]
  }

  lemma {:induction false} LoadEntries(xs: seq<SnapshotShape>, id: ShapeId)
    ensures id in Load(xs) <==> exists i :: 0 <= i < |xs| && xs[i].id == id
    ensures id in Load(xs) ==> SnapshotShape(Load(xs)[id].sn, id, Load(xs)[id].shape) in xs
  {
    if xs == [] {
    } else {
      var ys := xs[..|xs| - 1];
      LoadEntries(ys, id);
      if xs[|xs| - 1].id != id && id in Load(xs) {
        assert SnapshotShape(Load(xs)[id].sn, id, Load(xs)[id].shape) in ys;
      }
      if i :| 0 <= i < |xs| && xs[i].id == id {
        assert i < |ys| ==> ys[i].id == id;
      }
      if i :| 0 <= i < |ys| && ys[i].id == id {
        assert xs[i].id == id;
      }
    }
  }

  /** Hydrating a board's own snapshot rebuilds the board. */
  lemma LoadSnapshotRoundTrip(s: Snapshot, b: Board)
    requires IsSnapshot(s, b)
    ensures Load(s.shapes) == b.shapes
  {
    forall id
      ensures id in Load(s.shapes) <==> id in b.shapes
      ensures id in b.shapes ==> Load(s.shapes)[id] == b.shapes[id]
    {
      LoadEntries(s.shapes, id);
      if id in b.shapes {
        var x := SnapshotShape(b.shapes[id].sn, id, b.shapes[id].shape);
        assert x in s.shapes;
        var i :| 0 <= i < |s.shapes| && s.shapes[i] == x;
      }
    }
  }

  /** A snapshot list as `Snapshot` may return it, stated without naming a board. */
  ghost predicate WellFormedSnapshot(s: Snapshot) {
    && Increasing(s.shapes)
    && (forall x :: x in s.shapes ==> 1 <= x.sn <= s.sn)
    && (forall x, y :: x in s.shapes && y in s.shapes && x.id == y.id ==> x == y)
  }

  lemma WellFormedSnapshotsAreSnapshots(s: Snapshot)
    requires WellFormedSnapshot(s)
    ensures IsSnapshot(s, Board(s.sn, Load(s.shapes)))
    ensures WellFormed(Board(s.sn, Load(s.shapes)))
  {
    forall id
      ensures id in Load(s.shapes) ==> SnapshotShape(Load(s.shapes)[id].sn, id, Load(s.shapes)[id].shape) in s.shapes
    {
      LoadEntries(s.shapes, id);
    }
    forall x | x in s.shapes
      ensures x.id in Load(s.shapes) && Load(s.shapes)[x.id] == Stored(x.sn, x.shape)
    {
      LoadEntries(s.shapes, x.id);
      var i :| 0 <= i < |s.shapes| && s.shapes[i] == x;
    }
    forall id, id' | id in Load(s.shapes) && id' in Load(s.shapes) && id != id'
      ensures Load(s.shapes)[id].sn != Load(s.shapes)[id'].sn
    {
      var x := SnapshotShape(Load(s.shapes)[id].sn, id, Load(s.shapes)[id].shape);
      var y := SnapshotShape(Load(s.shapes)[id'].sn, id', Load(s.shapes)[id'].shape);
      var i :| 0 <= i < |s.shapes| && s.shapes[i] == x;
      var j :| 0 <= j < |s.shapes| && s.shapes[j] == y;
      assert i != j;
    }
  }

  /** Every snapshot of a reachable board is one. */
  lemma SnapshotsAreWellFormed(s: Snapshot, b: Board)
    requires WellFormed(b) && IsSnapshot(s, b)
    ensures WellFormedSnapshot(s)
  {
  }
}
