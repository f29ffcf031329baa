/** Building the list inside a snapshot: a map is ranged over in an unspecified order and
    the collected entries are sorted by sequence number. */
module SnapshotList {
  import opened Protocol
  import opened Sequencer

  ghost predicate DistinctIds(xs: seq<SnapshotShape>) {
    forall i, j :: 0 <= i < j < |xs| ==> xs[i].id != xs[j].id
  }

  ghost predicate Sorted(xs: seq<SnapshotShape>) {
    forall i, j :: 0 <= i < j < |xs| ==> xs[i].sn <= xs[j].sn
  }

  /** `xs` is a sorted arrangement of the entries of `shapes`, each listed once. */
  ghost predicate Arranges(xs: seq<SnapshotShape>, shapes: map<ShapeId, Stored>) {
    Sorted(xs) && DistinctIds(xs) && Lists(xs, shapes)
  }

  /** Place `x` behind every entry that is not larger. */
  method Insert(xs: seq<SnapshotShape>, x: SnapshotShape) returns (ys: seq<SnapshotShape>)
    requires Sorted(xs) && DistinctIds(xs) && forall y :: y in xs ==> y.id != x.id
    ensures Sorted(ys) && DistinctIds(ys)
    ensures forall y :: y in ys <==> y == x || y in xs
  {
    var p := |xs|;
    while p > 0 && xs[p - 1].sn > x.sn
      invariant 0 <= p <= |xs|
      invariant forall i :: p <= i < |xs| ==> x.sn < xs[i].sn
    {
      p := p - 1;
    }
    ys := xs[..p] + [x] + xs[p..];
    InsertedInOrder(xs, x, p);
    InsertedMembers(xs, x, p);
  }

  lemma InsertedMembers(xs: seq<SnapshotShape>, x: SnapshotShape, p: nat)
    requires p <= |xs|
    ensures forall y :: y in xs[..p] + [x] + xs[p..] <==> y == x || y in xs
  {
    assert xs == xs[..p] + xs[p..];
  }

  lemma InsertedInOrder(xs: seq<SnapshotShape>, x: SnapshotShape, p: nat)
    requires p <= |xs| && Sorted(xs) && DistinctIds(xs) && forall y :: y in xs ==> y.id != x.id
    requires p > 0 ==> xs[p - 1].sn <= x.sn
    requires forall i :: p <= i < |xs| ==> x.sn < xs[i].sn
    ensures Sorted(xs[..p] + [x] + xs[p..]) && DistinctIds(xs[..p] + [x] + xs[p..])
  {
    var ys := xs[..p] + [x] + xs[p..];
    forall i, j | 0 <= i < j < |ys|
      ensures ys[i].sn <= ys[j].sn && ys[i].id != ys[j].id
    {
      var a, b := if i < p then i else i - 1, if j < p then j else j - 1;
      assert i != p ==> ys[i] == xs[a] && xs[a] in xs;
      assert j != p ==> ys[j] == xs[b] && xs[b] in xs;
    }
  }

  /** The sort of the collected entries. */
  method SortBySn(xs: seq<SnapshotShape>) returns (ys: seq<SnapshotShape>)
    requires DistinctIds(xs)
    ensures Sorted(ys) && DistinctIds(ys)
    ensures forall y :: y in ys <==> y in xs
  {
    ys := [];
    for i := 0 to |xs|
      invariant Sorted(ys) && DistinctIds(ys)
      invariant forall y :: y in ys <==> y in xs[..i]
    {
      assert forall y :: y in xs[..i + 1] <==> y == xs[i] || y in xs[..i];
      ys := Insert(ys, xs[i]);
    }
  }

  /** The loop that loads a snapshot's entries into an empty map. */
  method Fill(xs: seq<SnapshotShape>) returns (shapes: map<ShapeId, Stored>)
    ensures shapes == Load(xs)
  {
    shapes := map[];
    for i := 0 to |xs|
      invariant shapes == Load(xs[..i])
    {
      shapes := shapes[xs[i].id := Stored(xs[i].sn, xs[i].shape)];
      assert xs[..i + 1][..i] == xs[..i];
    }
    assert xs[..|xs|] == xs;
  }

  /** Range over the map in any order, then sort. */
  method Collect(shapes: map<ShapeId, Stored>) returns (xs: seq<SnapshotShape>)
    ensures Arranges(xs, shapes)
  {
    xs := [];
    var todo := shapes.Keys;
    while todo != {}
      invariant todo <= shapes.Keys
      invariant DistinctIds(xs)
      invariant forall x :: x in xs ==> x.id in shapes.Keys - todo && shapes[x.id] == Stored(x.sn, x.shape)
      invariant forall id :: id in shapes.Keys - todo ==> SnapshotShape(shapes[id].sn, id, shapes[id].shape) in xs
      decreases |todo|
    {
      var id :| id in todo;
      todo := todo - {id};
      xs := xs + [SnapshotShape(shapes[id].sn, id, shapes[id].shape)];
    }
    xs := SortBySn(xs);
  }

  /** Where an entry belongs in a sorted list. */
  lemma {:induction false} SlotExists(xs: seq<SnapshotShape>, sn: nat) returns (p: nat)
    requires Sorted(xs)
    ensures p <= |xs| && (p > 0 ==> xs[p - 1].sn <= sn)
    ensures forall i :: p <= i < |xs| ==> sn < xs[i].sn
  {
    if xs == [] || xs[|xs| - 1].sn <= sn {
      p := |xs|;
    } else {
      p := SlotExists(xs[..|xs| - 1], sn);
    }
  }

  /** Every board has a snapshot to give. */
  lemma {:induction false} ArrangementExists(shapes: map<ShapeId, Stored>) returns (xs: seq<SnapshotShape>)
    ensures Arranges(xs, shapes)
    decreases |shapes|
  {
    if shapes == map[] {
      xs := [];
    } else {
      var id :| id in shapes;
      assert shapes.Keys == (shapes - {id}).Keys + {id};
      var ys := ArrangementExists(shapes - {id});
      xs := ArrangementExtends(ys, shapes, id);
    }
  }

  lemma ArrangementExtends(ys: seq<SnapshotShape>, shapes: map<ShapeId, Stored>, id: ShapeId)
    returns (xs: seq<SnapshotShape>)
    requires id in shapes && Arranges(ys, shapes - {id})
    ensures Arranges(xs, shapes)
  {
    var x := SnapshotShape(shapes[id].sn, id, shapes[id].shape);
    var p := SlotExists(ys, x.sn);
    InsertedInOrder(ys, x, p);
    InsertedMembers(ys, x, p);
    xs := ys[..p] + [x] + ys[p..];
    forall i | i in shapes
      ensures SnapshotShape(shapes[i].sn, i, shapes[i].shape) in xs
    {
      assert i == id || i in shapes - {id};
    }
  }

  /** With distinct sequence numbers the sorted arrangement is the board's one snapshot. */
  lemma ArrangedIsSnapshot(xs: seq<SnapshotShape>, b: Board)
    requires WellFormed(b) && Arranges(xs, b.shapes)
    ensures IsSnapshot(Snapshot(b.sn, xs), b)
  {
    forall i, j | 0 <= i < j < |xs|
      ensures xs[i].sn < xs[j].sn
    {
      assert xs[i] in xs && xs[j] in xs;
      assert xs[i].id != xs[j].id;
    }
  }

  lemma SnapshotIsArranged(s: Snapshot, b: Board)
    requires IsSnapshot(s, b)
    ensures Arranges(s.shapes, b.shapes)
  {
    forall i, j | 0 <= i < j < |s.shapes|
      ensures s.shapes[i].id != s.shapes[j].id
    {
      assert s.shapes[i] in s.shapes && s.shapes[j] in s.shapes;
    }
  }
}
