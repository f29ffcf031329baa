/** The Redis snapshot is two reads, the hash and then the counter
    (internal/broker/redis.go): what it returns when other calls run in between. */
module TornSnapshots {
  import opened Protocol
  import opened Sequencer
  import opened SnapshotList
  import opened MemoryBroker
  import opened SnapshotStore
  import opened Decimal
  import opened RedisBroker

  lemma {:induction false} CounterGrows(m: Boards, b: BoardId, cs: seq<Call>)
    ensures Get(m, b).sn <= Get(RunAll(m, cs), b).sn
  {
    if cs == [] {
    } else {
      CounterGrows(m, b, cs[..|cs| - 1]);
    }
  }

  /** Calls interleaved between reading the hash and reading the counter: the shapes are
      the exact state of the first moment, the number that of the second. The counter
      never goes back, so every listed shape is numbered at most the returned number, and
      hydrating an empty board from the torn snapshot gives a well-formed board. */
  lemma TornSnapshot(k: Keyspace, m: Boards, b: BoardId, between: seq<Call>, snap: Snapshot)
    requires Related(k, m) && WellFormed(Get(m, b)) && AllAdmissible(m, between)
    requires Arranges(snap.shapes, Decode(HashAt(k, ShapesKey(b))))
    requires Counter(RedisRunAll(k, between), b) == Some(snap.sn)
    ensures IsSnapshot(Snapshot(Get(m, b).sn, snap.shapes), Get(m, b))
    ensures Get(m, b).sn <= snap.sn == Get(RunAll(m, between), b).sn
    ensures forall x :: x in snap.shapes ==> x.sn <= snap.sn
    ensures WellFormed(Board(snap.sn, Load(snap.shapes)))
  {
    var cur := Get(m, b);
    assert RelatedBoard(k, b, cur);
    DecodeEncode(cur.shapes);
    ArrangedIsSnapshot(snap.shapes, cur);
    LoadSnapshotRoundTrip(Snapshot(cur.sn, snap.shapes), cur);
    RunRefines(k, m, between);
    var last := Get(RunAll(m, between), b);
    assert RelatedBoard(RedisRunAll(k, between), b, last);
    PrintParses(last.sn);
    CounterGrows(m, b, between);
  }

  // ---- When a torn snapshot is exact ----

  /** The call puts a shape under `id`: a create or update, or a hydration that loads and
      lists it. */
  ghost predicate Writes(m: Boards, c: Call, b: BoardId, id: ShapeId) {
    && c.board == b
    && match c
       case ApplyShape(_, op) => op.Put? && op.id == id
       case Hydrate(_, snap) => !HasState(Get(m, b)) && exists i :: 0 <= i < |snap.shapes| && snap.shapes[i].id == id
       case ReadSnapshot(_) => false
  }

  predicate Removes(c: Call, b: BoardId, id: ShapeId) {
    c == ApplyShape(b, Del(id))
  }

  ghost predicate WritesAt(m: Boards, cs: seq<Call>, i: nat, b: BoardId, id: ShapeId)
    requires i < |cs|
  {
    Writes(RunAll(m, cs[..i]), cs[i], b, id)
  }

  ghost predicate NeverTouched(m: Boards, cs: seq<Call>, b: BoardId, id: ShapeId) {
    forall i: nat :: i < |cs| ==> !WritesAt(m, cs, i, b, id) && !Removes(cs[i], b, id)
  }

  /** The shape was deleted, and not written afterwards. */
  ghost predicate RemovedLast(m: Boards, cs: seq<Call>, b: BoardId, id: ShapeId) {
    exists i: nat :: i < |cs| && Removes(cs[i], b, id) && forall j: nat :: i < j < |cs| ==> !WritesAt(m, cs, j, b, id)
  }

  /** Nothing touched the shape between the two reads, or it was absent before them and
      every write to it was deleted again. */
  ghost predicate Undisturbed(m: Boards, cs: seq<Call>, b: BoardId, id: ShapeId) {
    NeverTouched(m, cs, b, id) || (id !in Get(m, b).shapes && RemovedLast(m, cs, b, id))
  }

  lemma WritesAtPrefix(m: Boards, cs: seq<Call>, c: Call, b: BoardId, id: ShapeId)
    ensures forall i: nat :: i < |cs| ==> (WritesAt(m, cs + [c], i, b, id) <==> WritesAt(m, cs, i, b, id))
    ensures WritesAt(m, cs + [c], |cs|, b, id) <==> Writes(RunAll(m, cs), c, b, id)
  {
    forall i: nat | i < |cs|
      ensures WritesAt(m, cs + [c], i, b, id) <==> WritesAt(m, cs, i, b, id)
    {
      assert (cs + [c])[..i] == cs[..i];
    }
    assert (cs + [c])[..|cs|] == cs;
  }

  lemma NeverTouchedStep(m: Boards, cs: seq<Call>, c: Call, b: BoardId, id: ShapeId)
    ensures NeverTouched(m, cs + [c], b, id)
            <==> NeverTouched(m, cs, b, id) && !Writes(RunAll(m, cs), c, b, id) && !Removes(c, b, id)
  {
    var all := cs + [c];
    WritesAtPrefix(m, cs, c, b, id);
    assert all[|cs|] == c;
    if NeverTouched(m, all, b, id) {
      forall i: nat | i < |cs|
        ensures !WritesAt(m, cs, i, b, id) && !Removes(cs[i], b, id)
      {
        assert !WritesAt(m, all, i, b, id) && !Removes(all[i], b, id);
      }
    }
  }

  lemma RemovedLastStep(m: Boards, cs: seq<Call>, c: Call, b: BoardId, id: ShapeId)
    ensures RemovedLast(m, cs + [c], b, id)
            <==> !Writes(RunAll(m, cs), c, b, id) && (Removes(c, b, id) || RemovedLast(m, cs, b, id))
  {
    var all, n := cs + [c], |cs|;
    WritesAtPrefix(m, cs, c, b, id);
    assert all[n] == c;
    if RemovedLast(m, all, b, id) {
      var i: nat :| i < |all| && Removes(all[i], b, id)
                    && forall j: nat :: i < j < |all| ==> !WritesAt(m, all, j, b, id);
      if i < n {
        assert !WritesAt(m, all, n, b, id);
        assert Removes(cs[i], b, id);
        assert forall j: nat :: i < j < n && WritesAt(m, cs, j, b, id) ==> WritesAt(m, all, j, b, id);
      }
    }
    if RemovedLast(m, cs, b, id) && !Writes(RunAll(m, cs), c, b, id) {
      var i: nat :| i < n && Removes(cs[i], b, id) && forall j: nat :: i < j < n ==> !WritesAt(m, cs, j, b, id);
      assert Removes(all[i], b, id);
    }
  }

  ghost predicate Kept(before: Board, after: Board, id: ShapeId) {
    (id in before.shapes <==> id in after.shapes) && (id in before.shapes ==> before.shapes[id] == after.shapes[id])
  }

  /** One more call, seen from one shape. */
  lemma KeptStep(m: Boards, cs: seq<Call>, c: Call, b: BoardId, id: ShapeId)
    requires WellFormed(Get(m, b))
    ensures var mid, last := Get(RunAll(m, cs), b), Get(Next(RunAll(m, cs), c), b);
      Kept(Get(m, b), last, id)
      <==> if Writes(RunAll(m, cs), c, b, id) then false
           else if Removes(c, b, id) then id !in Get(m, b).shapes
           else Kept(Get(m, b), mid, id)
  {
    CounterGrows(m, b, cs);
    if c.Hydrate? {
      LoadEntries(c.snap.shapes, id);
    }
  }

  lemma {:induction false} KeptIffUndisturbed(m: Boards, cs: seq<Call>, b: BoardId, id: ShapeId)
    requires WellFormed(Get(m, b))
    ensures Kept(Get(m, b), Get(RunAll(m, cs), b), id) <==> Undisturbed(m, cs, b, id)
  {
    if cs == [] {
    } else {
      var before, c := cs[..|cs| - 1], cs[|cs| - 1];
      assert cs == before + [c];
      KeptIffUndisturbed(m, before, b, id);
      KeptStep(m, before, c, b, id);
      NeverTouchedStep(m, before, c, b, id);
      RemovedLastStep(m, before, c, b, id);
    }
  }

  /** Main result: the two-read snapshot is a snapshot of the board, at the moment its
      number was read, if and only if no shape was disturbed in between. */
  lemma TornSnapshotExactIff(k: Keyspace, m: Boards, b: BoardId, between: seq<Call>, snap: Snapshot)
    requires Related(k, m) && WellFormed(Get(m, b)) && AllAdmissible(m, between)
    requires Arranges(snap.shapes, Decode(HashAt(k, ShapesKey(b))))
    requires Counter(RedisRunAll(k, between), b) == Some(snap.sn)
    ensures IsSnapshot(snap, Get(RunAll(m, between), b)) <==> forall id :: Undisturbed(m, between, b, id)
  {
    TornSnapshot(k, m, b, between, snap);
    var first, last := Get(m, b), Get(RunAll(m, between), b);
    SnapshotStillExact(snap, first, last);
    forall id
      ensures Kept(first, last, id) <==> Undisturbed(m, between, b, id)
    {
      KeptIffUndisturbed(m, between, b, id);
    }
  }

  lemma SnapshotStillExact(snap: Snapshot, first: Board, last: Board)
    requires IsSnapshot(Snapshot(first.sn, snap.shapes), first) && snap.sn == last.sn
    ensures IsSnapshot(snap, last) <==> forall id :: Kept(first, last, id)
  {
    if IsSnapshot(snap, last) {
      forall id
        ensures Kept(first, last, id)
      {
        assert id in first.shapes ==> SnapshotShape(first.shapes[id].sn, id, first.shapes[id].shape) in snap.shapes;
        assert id in last.shapes ==> SnapshotShape(last.shapes[id].sn, id, last.shapes[id].shape) in snap.shapes;
      }
    }
    if forall id :: Kept(first, last, id) {
      forall x | x in snap.shapes
        ensures x.id in last.shapes && last.shapes[x.id] == Stored(x.sn, x.shape)
      {
        assert Kept(first, last, x.id);
      }
      forall id | id in last.shapes
        ensures SnapshotShape(last.shapes[id].sn, id, last.shapes[id].shape) in snap.shapes
      {
        assert Kept(first, last, id);
      }
    }
  }

  /** What a reader could check: if the counter is the same before and after, and nobody
      hydrated the board with number 0, the snapshot is exact. */
  lemma UnmovedCounterIsExact(k: Keyspace, m: Boards, b: BoardId, between: seq<Call>, snap: Snapshot)
    requires Related(k, m) && WellFormed(Get(m, b)) && AllAdmissible(m, between)
    requires Arranges(snap.shapes, Decode(HashAt(k, ShapesKey(b))))
    requires Counter(k, b) == Counter(RedisRunAll(k, between), b) == Some(snap.sn)
    requires forall c :: c in between && c.Hydrate? && c.board == b ==> c.snap.sn > 0
    ensures IsSnapshot(snap, Get(RunAll(m, between), b))
  {
    TornSnapshot(k, m, b, between, snap);
    assert RelatedBoard(k, b, Get(m, b));
    PrintParses(Get(m, b).sn);
    UnmovedCounterIsStill(m, b, between);
  }

  lemma {:induction false} UnmovedCounterIsStill(m: Boards, b: BoardId, cs: seq<Call>)
    requires forall c :: c in cs && c.Hydrate? && c.board == b ==> c.snap.sn > 0
    requires Get(RunAll(m, cs), b).sn == Get(m, b).sn
    ensures Get(RunAll(m, cs), b) == Get(m, b)
  {
    if cs == [] {
    } else {
      var before, c := cs[..|cs| - 1], cs[|cs| - 1];
      CounterGrows(m, b, before);
      assert c in cs;
      assert Get(RunAll(m, before), b).sn == Get(m, b).sn;
      UnmovedCounterIsStill(m, b, before);
    }
  }

  // ---- What torn saves leave of durability ----

  /** A saver's read of one board: the hash after `first` calls, the counter after
      `second`. */
  datatype TornRead = TornRead(first: nat, second: nat, snap: Snapshot)

  ghost predicate ReadDuring(k: Keyspace, cs: seq<Call>, b: BoardId, r: TornRead) {
    && r.first <= r.second <= |cs|
    && Arranges(r.snap.shapes, Decode(HashAt(RedisRunAll(k, cs[..r.first]), ShapesKey(b))))
    && Counter(RedisRunAll(k, cs[..r.second]), b) == Some(r.snap.sn)
  }

  lemma {:induction false} RunInTwo(k: Keyspace, m: Boards, cs: seq<Call>, i: nat, j: nat)
    requires i <= j <= |cs|
    ensures RunAll(m, cs[..j]) == RunAll(RunAll(m, cs[..i]), cs[i..j])
    ensures RedisRunAll(k, cs[..j]) == RedisRunAll(RedisRunAll(k, cs[..i]), cs[i..j])
    decreases j
  {
    if i < j {
      RunInTwo(k, m, cs, i, j - 1);
      assert cs[..j][..j - 1] == cs[..j - 1] && cs[i..j][..j - 1 - i] == cs[i..j - 1];
    } else {
      assert cs[i..j] == [];
    }
  }

  lemma AdmissibleAt(m: Boards, cs: seq<Call>, i: nat, j: nat, n: nat)
    requires i + n < j <= |cs| && Admissible(RunAll(m, cs[..i + n]), cs[i + n])
    ensures Admissible(RunAll(RunAll(m, cs[..i]), cs[i..j][..n]), cs[i..j][n])
  {
    assert cs[i..j][..n] == cs[i..i + n];
    RunInTwo(Keyspace(map[], map[]), m, cs, i, i + n);
  }

  lemma AdmissibleBetween(m: Boards, cs: seq<Call>, i: nat, j: nat)
    requires AllAdmissible(m, cs) && i <= j <= |cs|
    ensures AllAdmissible(RunAll(m, cs[..i]), cs[i..j])
  {
    forall n | 0 <= n < j - i
      ensures Admissible(RunAll(RunAll(m, cs[..i]), cs[i..j][..n]), cs[i..j][n])
    {
      AdmissibleAt(m, cs, i, j, n);
    }
  }

  /** What hydrating an empty board from the snapshot gives. */
  function Reloaded(snap: Snapshot): Board { Board(snap.sn, Load(snap.shapes)) }

  /** The shape is as the board had it when the counter was read if and only if nothing
      disturbed it between the two reads. */
  ghost predicate ExactWhereUndisturbed(m: Boards, cs: seq<Call>, b: BoardId, r: TornRead) {
    r.first <= r.second <= |cs|
    && forall id ::
      Kept(Reloaded(r.snap), Get(RunAll(m, cs[..r.second]), b), id)
      <==> Undisturbed(RunAll(m, cs[..r.first]), cs[r.first..r.second], b, id)
  }

  lemma TornReadExactIff(k: Keyspace, m: Boards, cs: seq<Call>, b: BoardId, r: TornRead)
    requires Related(k, m) && AllAdmissible(m, cs) && ReadDuring(k, cs, b, r)
    requires WellFormed(Get(RunAll(m, cs[..r.first]), b))
    ensures ExactWhereUndisturbed(m, cs, b, r) && WellFormed(Reloaded(r.snap))
    ensures r.snap.sn == Get(RunAll(m, cs[..r.second]), b).sn <= Get(RunAll(m, cs), b).sn
  {
    var m1, between := RunAll(m, cs[..r.first]), cs[r.first..r.second];
    AdmissiblePrefix(m, cs, r.first);
    RunRefines(k, m, cs[..r.first]);
    AdmissibleBetween(m, cs, r.first, r.second);
    RunInTwo(k, m, cs, r.first, r.second);
    TornSnapshot(RedisRunAll(k, cs[..r.first]), m1, b, between, r.snap);
    LoadSnapshotRoundTrip(Snapshot(Get(m1, b).sn, r.snap.shapes), Get(m1, b));
    forall id
      ensures Kept(Get(m1, b), Get(RunAll(m1, between), b), id) <==> Undisturbed(m1, between, b, id)
    {
      KeptIffUndisturbed(m1, between, b, id);
    }
    RunInTwo(k, m, cs, r.second, |cs|);
    assert cs[..|cs|] == cs;
    CounterGrows(RunAll(m, cs[..r.second]), b, cs[r.second..]);
  }

  function SnapsOf(taken: seq<TornRead>): (saves: seq<Snapshot>)
    ensures |saves| == |taken| && forall i :: 0 <= i < |taken| ==> saves[i] == taken[i].snap
  {
    seq(|taken|, i requires 0 <= i < |taken| => taken[i].snap)
  }

  /** Main result: with any number of savers whose reads are torn, over a whole run and in
      any order of saving, the numbers are as durable as with atomic reads: the stored one
      is the highest offered, never falls and never passes the counter. The shapes are not:
      the stored snapshot agrees with the board, as it was when the counter was read, on
      exactly the shapes that nothing disturbed between its two reads. */
  lemma TornSavesIff(k: Keyspace, m: Boards, cs: seq<Call>, b: BoardId, taken: seq<TornRead>)
    requires Related(k, m) && AllAdmissible(m, cs)
    requires forall r :: r in taken ==> ReadDuring(k, cs, b, r) && WellFormed(Get(RunAll(m, cs[..r.first]), b))
    ensures var store := SnapshotStore.SaveAll(map[], b, SnapsOf(taken));
      && (forall r :: r in taken ==> r.snap.sn <= StoredSn(store, b))
      && StoredSn(store, b) <= Get(RunAll(m, cs), b).sn
      && (forall n: nat :: n <= |taken| ==>
            StoredSn(SnapshotStore.SaveAll(map[], b, SnapsOf(taken[..n])), b) <= StoredSn(store, b))
      && (taken != [] ==> exists r :: r in taken && Find(store, b) == Some(r.snap)
                                      && WellFormed(Reloaded(r.snap)) && ExactWhereUndisturbed(m, cs, b, r))
  {
    var store := SnapshotStore.SaveAll(map[], b, SnapsOf(taken));
    SavesKeepNewest(map[], b, SnapsOf(taken));
    forall r | r in taken
      ensures r.snap.sn <= StoredSn(store, b)
    {
      assert r.snap in SnapsOf(taken);
    }
    forall n: nat | n <= |taken|
      ensures StoredSn(SnapshotStore.SaveAll(map[], b, SnapsOf(taken[..n])), b) <= StoredSn(store, b)
    {
      SavesNeverFall(b, taken, n);
    }
    if taken != [] {
      var i :| 0 <= i < |taken| && SnapsOf(taken)[i] == store[b];
      assert taken[i] in taken;
      TornReadExactIff(k, m, cs, b, taken[i]);
    }
  }

  lemma {:induction false} SavesNeverFall(b: BoardId, taken: seq<TornRead>, n: nat)
    requires n <= |taken|
    ensures StoredSn(SnapshotStore.SaveAll(map[], b, SnapsOf(taken[..n])), b)
            <= StoredSn(SnapshotStore.SaveAll(map[], b, SnapsOf(taken)), b)
    decreases |taken|
  {
    if n == |taken| {
      assert taken[..n] == taken;
    } else {
      var before := taken[..|taken| - 1];
      SavesNeverFall(b, before, n);
      assert before[..n] == taken[..n] && SnapsOf(before) == SnapsOf(taken)[..|taken| - 1];
    }
  }

  // ---- What a torn snapshot can cost ----

  /** A saver that reads the hash of a cold board, and its counter after the board was
      hydrated from the stored snapshot `s`, holds `s`'s number without its shapes. The
      store's guard lets it overwrite `s`: harmless if and only if `s` was empty. */
  lemma TornSaveErasesDurable(b: BoardId, s: Snapshot)
    requires 1 <= s.sn < TWO_64 && forall x :: x in s.shapes ==> x.sn < TWO_64
    ensures var k := Keyspace(map[], map[]);
      var c := Hydrate(b, s);
      && Admissible(map[], c)
      && Arranges([], Decode(HashAt(k, ShapesKey(b))))
      && Counter(RedisRunAll(k, [c]), b) == Some(s.sn)
      && (SnapshotStore.Save(map[b := s], b, Snapshot(s.sn, []))[b] == s <==> s.shapes == [])
  {
    var k := Keyspace(map[], map[]);
    var c := Hydrate(b, s);
    assert [c][..0] == [];
    assert RedisRunAll(k, [c]) == RedisNext(k, c);
    PrintParses(s.sn);
  }

  /** An operation that lands between the two reads is counted but not listed, so a restart
      that hydrates from such a snapshot has lost it for good. */
  lemma TornSnapshotLosesOperation(b: BoardId, id: ShapeId, blob: Blob)
    ensures var k := Keyspace(map[], map[]);
      var c := ApplyShape(b, Put(id, blob));
      && Arranges([], Decode(HashAt(k, ShapesKey(b))))
      && Counter(RedisRunAll(k, [c]), b) == Some(1)
      && !IsSnapshot(Snapshot(1, []), Get(RunAll(map[], [c]), b))
  {
    var k := Keyspace(map[], map[]);
    var c := ApplyShape(b, Put(id, blob));
    assert [c][..0] == [];
    assert RedisRunAll(k, [c]) == RedisNext(k, c);
    assert RunAll(map[], [c]) == Next(map[], c);
    PrintParses(1);
    assert id in Get(Next(map[], c), b).shapes;
  }
}
