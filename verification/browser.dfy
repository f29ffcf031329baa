/** The browser's side of last-write-wins (web/src/App.tsx): a map of shapes that is
    replaced by a snapshot, merged with live operations, and written optimistically. */
module Browser {
  import opened Protocol
  import opened Sequencer
  import opened SnapshotList

  /** What `handleMessage` can be given. Cursor and presence messages never touch the
      shape map; a missing envelope sequence number reads as 0. */
  datatype Envelope =
    | SnapshotMsg(snap: Snapshot)
    | ShapePut(sn: nat, id: ShapeId, shape: Option<Blob>)
    | ShapeDelete(sn: nat, id: ShapeId)
    | OtherMsg

  type Shapes = map<ShapeId, Stored>

  /** The shape map after one message. */
  function Receive(m: Shapes, env: Envelope): Shapes {
    match env
    case SnapshotMsg(snap) => Load(snap.shapes)
    case ShapePut(sn, id, shape) =>
      if shape.Some? && (id !in m || sn >= m[id].sn) then m[id := Stored(sn, shape.value)] else m
    case ShapeDelete(_, id) => m - {id}
    case OtherMsg => m
  }

  /** The component's mutable state that matters to reconciliation. */
  class App {
    var shapes: Shapes

    constructor ()
      ensures shapes == map[]
    {
      shapes := map[];
    }

    method HandleMessage(env: Envelope)
      modifies this
      ensures shapes == Receive(old(shapes), env)
    {
      match env
      case SnapshotMsg(snap) =>
        shapes := Fill(snap.shapes);
      case ShapePut(sn, id, shape) =>
        if shape.Some? && (id !in shapes || sn >= shapes[id].sn) {
          shapes := shapes[id := Stored(sn, shape.value)];
        }
      case ShapeDelete(_, id) =>
        shapes := shapes - {id};
      case OtherMsg =>
    }

    /** Draw locally with sequence number 0: any write to the shape that arrives later,
        whatever its number, takes its place, and no other shape is affected. */
    method OnPointerUp(id: ShapeId, shape: Blob)
      modifies this
      ensures shapes == old(shapes)[id := Stored(0, shape)]
      ensures forall sn, echo :: Receive(shapes, ShapePut(sn, id, Some(echo))) == old(shapes)[id := Stored(sn, echo)]
    {
      shapes := shapes[id := Stored(0, shape)];
    }
  }

  // ---- Runs: a snapshot, then any mix of deliveries and local drawing ----

  // A create or update whose body is falsy in the browser is ignored there. Which texts
  // denote such bodies (null, "", 0, -0.0 and so on) is the parameter `falsy` throughout.

  /** The message published for the operation at log position `k`. */
  ghost function Wire(falsy: iset<Blob>, log: seq<Op>, k: nat): Envelope
    requires k < |log|
  {
    match log[k]
    case Put(id, shape) => ShapePut(k + 1, id, if shape in falsy then None else Some(shape))
    case Del(id) => ShapeDelete(k + 1, id)
  }

  /** An operation delivered, a local drawing, or any message that is about neither shapes
      nor a snapshot: a cursor, a presence change, a roster. */
  datatype Event = Deliver(k: int) | Draw(id: ShapeId, shape: Blob) | Unrelated

  /** Deliveries name log positions; they may be lost, repeated and reordered freely. */
  ghost predicate Legal(log: seq<Op>, evs: seq<Event>) {
    forall e :: e in evs && e.Deliver? ==> 0 <= e.k < |log|
  }

  /** A write whose body the browser does not ignore. */
  ghost predicate Carries(falsy: iset<Blob>, op: Op) { op.Put? && op.shape !in falsy }

  ghost predicate AllCarryShapes(falsy: iset<Blob>, log: seq<Op>) {
    forall k :: 0 <= k < |log| && log[k].Put? ==> Carries(falsy, log[k])
  }

  ghost function Run(falsy: iset<Blob>, m: Shapes, log: seq<Op>, evs: seq<Event>): Shapes
    requires Legal(log, evs)
  {
    if evs == [] then m
    else
      var before := Run(falsy, m, log, evs[..|evs| - 1]);
      match evs[|evs| - 1]
      case Deliver(k) => Receive(before, Wire(falsy, log, k))
      case Draw(id, shape) => before[id := Stored(0, shape)]
      case Unrelated => Receive(before, OtherMsg)
  }

  predicate Deletes(log: seq<Op>, e: Event, id: ShapeId) {
    e.Deliver? && 0 <= e.k < |log| && log[e.k] == Del(id)
  }

  ghost predicate Writes(falsy: iset<Blob>, log: seq<Op>, e: Event, id: ShapeId) {
    if e.Deliver? then 0 <= e.k < |log| && log[e.k].id == id && Carries(falsy, log[e.k])
    else e.Draw? && e.id == id
  }

  /** Events after which the client has forgotten every sequence number for `id`. */
  ghost predicate Resets(log: seq<Op>, e: Event, id: ShapeId) {
    Deletes(log, e, id) || (e.Draw? && e.id == id)
  }

  predicate WrittenLast(log: seq<Op>, id: ShapeId) {
    LastWrite(log, id) >= 0 && log[LastWrite(log, id)].Put?
  }

  /** The last operation on `id` was accepted, and nothing reset `id` afterwards. */
  ghost predicate HoldsNewest(falsy: iset<Blob>, log: seq<Op>, n: nat, evs: seq<Event>, id: ShapeId)
    requires WrittenLast(log, id)
  {
    var newest := LastWrite(log, id);
    || (Carries(falsy, log[newest])
        && exists p :: 0 <= p < |evs| && evs[p] == Deliver(newest)
                       && forall q :: p < q < |evs| ==> !Resets(log, evs[q], id))
    || (newest < n && forall q :: 0 <= q < |evs| ==> !Resets(log, evs[q], id))
  }

  /** `id` was deleted and not written again, or was neither in the snapshot nor written. */
  ghost predicate Gone(falsy: iset<Blob>, log: seq<Op>, n: nat, evs: seq<Event>, id: ShapeId)
    requires n <= |log|
  {
    || (exists p :: 0 <= p < |evs| && Deletes(log, evs[p], id)
                    && forall q :: p < q < |evs| ==> !Writes(falsy, log, evs[q], id))
    || (!WrittenLast(log[..n], id) && forall q :: 0 <= q < |evs| ==> !Writes(falsy, log, evs[q], id))
  }

  /** The order in which a client must see the operations on one shape. */
  ghost predicate Settled(falsy: iset<Blob>, log: seq<Op>, n: nat, evs: seq<Event>, id: ShapeId)
    requires n <= |log|
  {
    if WrittenLast(log, id) then HoldsNewest(falsy, log, n, evs, id) else Gone(falsy, log, n, evs, id)
  }

  lemma HoldsNewestStep(falsy: iset<Blob>, log: seq<Op>, n: nat, evs: seq<Event>, e: Event, id: ShapeId)
    requires WrittenLast(log, id)
    ensures HoldsNewest(falsy, log, n, evs + [e], id)
            <==> (e == Deliver(LastWrite(log, id)) && Carries(falsy, log[LastWrite(log, id)]))
                 || (HoldsNewest(falsy, log, n, evs, id) && !Resets(log, e, id))
  {
    var all := evs + [e];
    var newest := LastWrite(log, id);
    assert forall q :: 0 <= q < |evs| ==> all[q] == evs[q];
    assert all[|evs|] == e;
    if e == Deliver(newest) && Carries(falsy, log[newest]) {
      assert HoldsNewest(falsy, log, n, all, id);
    } else if HoldsNewest(falsy, log, n, all, id) {
      assert !Resets(log, all[|evs|], id);
      assert forall q :: 0 <= q < |evs| && !Resets(log, all[q], id) ==> !Resets(log, evs[q], id);
    }
  }

  lemma GoneStep(falsy: iset<Blob>, log: seq<Op>, n: nat, evs: seq<Event>, e: Event, id: ShapeId)
    requires n <= |log|
    ensures Gone(falsy, log, n, evs + [e], id)
            <==> Deletes(log, e, id) || (Gone(falsy, log, n, evs, id) && !Writes(falsy, log, e, id))
  {
    var all := evs + [e];
    assert forall q :: 0 <= q < |evs| ==> all[q] == evs[q];
    assert all[|evs|] == e;
    if Deletes(log, e, id) {
      assert Gone(falsy, log, n, all, id);
    } else if Gone(falsy, log, n, all, id) {
      assert !Writes(falsy, log, all[|evs|], id);
      assert forall q :: 0 <= q < |evs| && !Writes(falsy, log, all[q], id) ==> !Writes(falsy, log, evs[q], id);
    }
  }

  /** Everything a client holds about a shape is an entry of the log, never newer than
      the log's last one, or its own drawing with sequence number 0. */
  lemma {:induction false} ClientEntryIsTrue(falsy: iset<Blob>, log: seq<Op>, n: nat, evs: seq<Event>, id: ShapeId)
    requires n <= |log| && Legal(log, evs)
    ensures var m := Run(falsy, Replay(log[..n]).shapes, log, evs);
      id in m && m[id].sn > 0 ==>
        m[id].sn <= LastWrite(log, id) + 1 && log[m[id].sn - 1] == Put(id, m[id].shape)
  {
    if evs == [] {
      ReplayAt(log[..n], id);
      LastWritePrefix(log, n, id);
    } else {
      var before, e := evs[..|evs| - 1], evs[|evs| - 1];
      ClientEntryIsTrue(falsy, log, n, before, id);
      if e.Deliver? && log[e.k].id == id {
        LastWriteIsMax(log, id, e.k);
      }
    }
  }

  lemma {:induction false} ClientHoldsNewest(falsy: iset<Blob>, log: seq<Op>, n: nat, evs: seq<Event>, id: ShapeId)
    requires n <= |log| && Legal(log, evs) && WrittenLast(log, id)
    ensures var m := Run(falsy, Replay(log[..n]).shapes, log, evs);
      HoldsNewest(falsy, log, n, evs, id) <==> id in m && m[id].sn == LastWrite(log, id) + 1
  {
    if evs == [] {
      ReplayAt(log[..n], id);
      LastWritePrefix(log, n, id);
    } else {
      var before, e := evs[..|evs| - 1], evs[|evs| - 1];
      assert evs == before + [e];
      ClientHoldsNewest(falsy, log, n, before, id);
      ClientEntryIsTrue(falsy, log, n, before, id);
      HoldsNewestStep(falsy, log, n, before, e, id);
      if e.Deliver? && log[e.k].id == id {
        LastWriteIsMax(log, id, e.k);
      }
    }
  }

  lemma {:induction false} ClientGone(falsy: iset<Blob>, log: seq<Op>, n: nat, evs: seq<Event>, id: ShapeId)
    requires n <= |log| && Legal(log, evs)
    ensures id !in Run(falsy, Replay(log[..n]).shapes, log, evs) <==> Gone(falsy, log, n, evs, id)
  {
    if evs == [] {
      ReplayAt(log[..n], id);
    } else {
      var before, e := evs[..|evs| - 1], evs[|evs| - 1];
      assert evs == before + [e];
      ClientGone(falsy, log, n, before, id);
      GoneStep(falsy, log, n, before, e, id);
    }
  }

  /** The echo of a drawn shape replaces the optimistic entry for good: once a write to
      the shape has been accepted and neither a delete nor another drawing of it follows,
      the client holds a numbered entry at least as new as that write. */
  lemma {:induction false} EchoReplacesDrawing(falsy: iset<Blob>, m: Shapes, log: seq<Op>, evs: seq<Event>,
                                               id: ShapeId, p: nat)
    requires Legal(log, evs) && p < |evs| && evs[p].Deliver? && log[evs[p].k].id == id
    requires Carries(falsy, log[evs[p].k])
    requires forall q :: p < q < |evs| ==> !Resets(log, evs[q], id)
    ensures id in Run(falsy, m, log, evs) && Run(falsy, m, log, evs)[id].sn > evs[p].k
  {
    if p < |evs| - 1 {
      EchoReplacesDrawing(falsy, m, log, evs[..|evs| - 1], id, p);
    }
  }

  /** Main result: after a snapshot taken at log position `n` and any deliveries and
      local drawing, the client holds exactly the broker's map if and only if every
      shape settled. */
  lemma ConvergesIffSettled(falsy: iset<Blob>, m0: Shapes, snap: Snapshot, log: seq<Op>, n: nat, evs: seq<Event>)
    requires n <= |log| && Legal(log, evs)
    requires IsSnapshot(snap, Replay(log[..n]))
    ensures Run(falsy, Receive(m0, SnapshotMsg(snap)), log, evs) == Replay(log).shapes
            <==> forall id :: Settled(falsy, log, n, evs, id)
  {
    LoadSnapshotRoundTrip(snap, Replay(log[..n]));
    var m := Run(falsy, Replay(log[..n]).shapes, log, evs);
    forall id
      ensures Settled(falsy, log, n, evs, id) <==> AgreeAt(m, Replay(log).shapes, id)
    {
      ClientEntryIsTrue(falsy, log, n, evs, id);
      if WrittenLast(log, id) {
        ClientHoldsNewest(falsy, log, n, evs, id);
      }
      ClientGone(falsy, log, n, evs, id);
      ReplayAt(log, id);
    }
    if forall id :: Settled(falsy, log, n, evs, id) {
      var r := Replay(log).shapes;
      forall id
        ensures id in m <==> id in r
        ensures id in m ==> m[id] == r[id]
      {
        assert Settled(falsy, log, n, evs, id);
      }
      assert m == r;
    }
    if m == Replay(log).shapes {
      forall id
        ensures Settled(falsy, log, n, evs, id)
      {
        assert AgreeAt(m, Replay(log).shapes, id);
      }
    }
  }

  ghost predicate AgreeAt(m: Shapes, m': Shapes, id: ShapeId) {
    (id in m <==> id in m') && (id in m ==> m[id] == m'[id])
  }

  ghost predicate Touches(falsy: iset<Blob>, log: seq<Op>, e: Event, id: ShapeId) {
    Deletes(log, e, id) || Writes(falsy, log, e, id)
  }

  /** The design's promise: a client that receives, for every shape changed after its
      snapshot, that shape's last operation, and receives it after everything else it
      sees on that shape (its own optimistic drawing included), ends with exactly the
      broker's map. */
  lemma Convergence(falsy: iset<Blob>, m0: Shapes, snap: Snapshot, log: seq<Op>, n: nat, evs: seq<Event>)
    requires n <= |log| && Legal(log, evs) && AllCarryShapes(falsy, log)
    requires IsSnapshot(snap, Replay(log[..n]))
    requires forall id :: LastWrite(log, id) >= n ==> Deliver(LastWrite(log, id)) in evs
    requires forall id, q :: 0 <= q < |evs| && Touches(falsy, log, evs[q], id) ==>
               exists p :: q <= p < |evs| && LastWrite(log, id) >= 0 && evs[p] == Deliver(LastWrite(log, id))
    ensures Run(falsy, Receive(m0, SnapshotMsg(snap)), log, evs) == Replay(log).shapes
  {
    forall id
      ensures Settled(falsy, log, n, evs, id)
    {
      LastWritePrefix(log, n, id);
      LastTouch(falsy, log, n, evs, id);
    }
    ConvergesIffSettled(falsy, m0, snap, log, n, evs);
  }

  /** The shape's last operation is the last event that touches it. */
  lemma SettledByLast(falsy: iset<Blob>, log: seq<Op>, n: nat, evs: seq<Event>, id: ShapeId, p: nat)
    requires n <= |log| && AllCarryShapes(falsy, log) && LastWrite(log, id) >= 0
    requires p < |evs| && evs[p] == Deliver(LastWrite(log, id))
    requires forall q :: p < q < |evs| ==> !Touches(falsy, log, evs[q], id)
    ensures Settled(falsy, log, n, evs, id)
  {
    if WrittenLast(log, id) {
      assert forall q :: p < q < |evs| && Resets(log, evs[q], id) ==> Touches(falsy, log, evs[q], id);
    } else {
      assert Deletes(log, evs[p], id);
    }
  }

  /** Nothing touches the shape, and nothing changed it since the snapshot. */
  lemma SettledUntouched(falsy: iset<Blob>, log: seq<Op>, n: nat, evs: seq<Event>, id: ShapeId)
    requires n <= |log| && LastWrite(log, id) < n
    requires forall q :: 0 <= q < |evs| ==> !Touches(falsy, log, evs[q], id)
    ensures Settled(falsy, log, n, evs, id)
  {
    LastWritePrefix(log, n, id);
    assert forall q :: 0 <= q < |evs| && Resets(log, evs[q], id) ==> Touches(falsy, log, evs[q], id);
  }

  lemma LastTouch(falsy: iset<Blob>, log: seq<Op>, n: nat, evs: seq<Event>, id: ShapeId)
    requires n <= |log| && AllCarryShapes(falsy, log)
    requires LastWrite(log, id) >= n ==> Deliver(LastWrite(log, id)) in evs
    requires forall q :: 0 <= q < |evs| && Touches(falsy, log, evs[q], id) ==>
               exists p :: q <= p < |evs| && LastWrite(log, id) >= 0 && evs[p] == Deliver(LastWrite(log, id))
    ensures Settled(falsy, log, n, evs, id)
  {
    var newest := LastWrite(log, id);
    assert newest >= 0 ==> Touches(falsy, log, Deliver(newest), id);
    if q :| 0 <= q < |evs| && Touches(falsy, log, evs[q], id) {
      var p := FinalTouch(falsy, log, evs, id, q);
      var r :| p <= r < |evs| && newest >= 0 && evs[r] == Deliver(newest);
      SettledByLast(falsy, log, n, evs, id, r);
    } else {
      SettledUntouched(falsy, log, n, evs, id);
    }
  }

  lemma {:induction false} FinalTouch(falsy: iset<Blob>, log: seq<Op>, evs: seq<Event>, id: ShapeId, q: nat)
    returns (p: nat)
    requires q < |evs| && Touches(falsy, log, evs[q], id)
    ensures q <= p < |evs| && Touches(falsy, log, evs[p], id)
    ensures forall t :: p < t < |evs| ==> !Touches(falsy, log, evs[t], id)
    decreases |evs| - q
  {
    if t :| q < t < |evs| && Touches(falsy, log, evs[t], id) {
      p := FinalTouch(falsy, log, evs, id, t);
    } else {
      p := q;
    }
  }

  /** Without deletes the merge is insensitive to order: it is enough that every shape
      changed after the snapshot has its last operation delivered at some point. */
  lemma OrderInsensitiveWithoutDeletes(falsy: iset<Blob>, m0: Shapes, snap: Snapshot, log: seq<Op>, n: nat,
                                       evs: seq<Event>)
    requires n <= |log| && Legal(log, evs) && AllCarryShapes(falsy, log)
    requires IsSnapshot(snap, Replay(log[..n]))
    requires forall k :: 0 <= k < |log| ==> log[k].Put?
    requires forall e :: e in evs ==> !e.Draw?
    requires forall id :: LastWrite(log, id) >= n ==> Deliver(LastWrite(log, id)) in evs
    ensures Run(falsy, Receive(m0, SnapshotMsg(snap)), log, evs) == Replay(log).shapes
  {
    forall id
      ensures Settled(falsy, log, n, evs, id)
    {
      LastWritePrefix(log, n, id);
      var newest := LastWrite(log, id);
      if newest >= n {
        var p :| 0 <= p < |evs| && evs[p] == Deliver(newest);
      } else if newest < 0 {
        forall q | 0 <= q < |evs|
          ensures !Writes(falsy, log, evs[q], id)
        {
          assert evs[q] in evs;
        }
      }
    }
    ConvergesIffSettled(falsy, m0, snap, log, n, evs);
  }

  // ---- A contiguous stretch of the log, in order ----

  /** Every operation from position `a` to before `b`, once and in order. */
  function Deliveries(a: nat, b: nat): (evs: seq<Event>)
    requires a <= b
    ensures |evs| == b - a && forall i :: 0 <= i < |evs| ==> evs[i] == Deliver(a + i)
  {
    seq(b - a, i requires 0 <= i < b - a => Deliver(a + i))
  }

  /** The events without the unrelated ones. */
  function Relevant(evs: seq<Event>): seq<Event> {
    if evs == [] then []
    else Relevant(evs[..|evs| - 1]) + (if evs[|evs| - 1].Unrelated? then [] else [evs[|evs| - 1]])
  }

  /** Cursors, presence and rosters, wherever they arrive, leave the shapes alone. */
  lemma {:induction false} UnrelatedIsIgnored(falsy: iset<Blob>, m: Shapes, log: seq<Op>, evs: seq<Event>)
    requires Legal(log, evs)
    ensures Legal(log, Relevant(evs)) && Run(falsy, m, log, evs) == Run(falsy, m, log, Relevant(evs))
  {
    if evs != [] {
      var before, e := evs[..|evs| - 1], evs[|evs| - 1];
      UnrelatedIsIgnored(falsy, m, log, before);
      if e.Unrelated? {
        assert Relevant(evs) == Relevant(before);
      } else {
        assert Relevant(evs)[..|Relevant(before)|] == Relevant(before);
      }
    }
  }

  lemma {:induction false} AllRelevant(evs: seq<Event>)
    requires forall e :: e in evs ==> !e.Unrelated?
    ensures Relevant(evs) == evs
  {
    if evs != [] {
      AllRelevant(evs[..|evs| - 1]);
    }
  }

  ghost predicate DeletedWithin(log: seq<Op>, a: nat, b: int, id: ShapeId)
    requires b <= |log|
  {
    exists k :: a <= k < b && log[k] == Del(id)
  }

  /** What a client that loaded the snapshot at `n` needs of a shape when it then gets all
      of the log from `a` on: nothing, if the last operation comes with the stretch and
      carries its body, or came with the snapshot and the stretch leaves the shape alone.
      Of what falls in between, `n <= k < a`, only the deletion of a shape that the
      snapshot does not list may go missing. */
  ghost predicate Caught(falsy: iset<Blob>, log: seq<Op>, n: nat, a: nat, id: ShapeId)
    requires n <= |log|
  {
    var newest := LastWrite(log, id);
    if !WrittenLast(log, id) then newest < n || newest >= a || !WrittenLast(log[..n], id)
    else if newest >= a && Carries(falsy, log[newest]) then true
    else newest < n && !DeletedWithin(log, a, newest, id)
  }

  /** The deliveries that touch the shape are those of its operations. */
  lemma StretchTouches(falsy: iset<Blob>, log: seq<Op>, a: nat, id: ShapeId)
    requires a <= |log|
    ensures var evs := Deliveries(a, |log|);
      forall q :: 0 <= q < |evs| && (Resets(log, evs[q], id) || Writes(falsy, log, evs[q], id)) ==>
        a + q <= LastWrite(log, id)
  {
    var evs := Deliveries(a, |log|);
    forall q | 0 <= q < |evs| && (Resets(log, evs[q], id) || Writes(falsy, log, evs[q], id))
      ensures a + q <= LastWrite(log, id)
    {
      LastWriteIsMax(log, id, a + q);
    }
  }

  lemma StretchHoldsNewest(falsy: iset<Blob>, log: seq<Op>, n: nat, a: nat, id: ShapeId)
    requires n <= |log| && a <= |log| && WrittenLast(log, id)
    ensures HoldsNewest(falsy, log, n, Deliveries(a, |log|), id) <==> Caught(falsy, log, n, a, id)
  {
    var evs, newest := Deliveries(a, |log|), LastWrite(log, id);
    StretchTouches(falsy, log, a, id);
    if newest >= a {
      assert evs[newest - a] == Deliver(newest);
    }
    if k :| a <= k < newest && log[k] == Del(id) {
      assert Resets(log, evs[k - a], id);
    }
  }

  lemma StretchGone(falsy: iset<Blob>, log: seq<Op>, n: nat, a: nat, id: ShapeId)
    requires n <= |log| && a <= |log| && !WrittenLast(log, id)
    ensures Gone(falsy, log, n, Deliveries(a, |log|), id) <==> Caught(falsy, log, n, a, id)
  {
    var evs, newest := Deliveries(a, |log|), LastWrite(log, id);
    StretchTouches(falsy, log, a, id);
    LastWritePrefix(log, n, id);
    if newest >= a {
      assert Deletes(log, evs[newest - a], id);
    }
  }

  /** Main result: a client that loads the snapshot taken at `n` and then receives the log
      from `a` to its end, contiguously and in order, among any other messages, agrees with
      the broker if and only if every shape is caught: always, when `a <= n` and writes
      carry their bodies. */
  lemma ContiguousConvergesIff(falsy: iset<Blob>, m0: Shapes, snap: Snapshot, log: seq<Op>, n: nat, a: nat,
                               evs: seq<Event>)
    requires n <= |log| && a <= |log| && IsSnapshot(snap, Replay(log[..n]))
    requires Legal(log, evs) && Relevant(evs) == Deliveries(a, |log|)
    ensures Run(falsy, Receive(m0, SnapshotMsg(snap)), log, evs) == Replay(log).shapes
            <==> forall id :: Caught(falsy, log, n, a, id)
  {
    UnrelatedIsIgnored(falsy, Receive(m0, SnapshotMsg(snap)), log, evs);
    ConvergesIffSettled(falsy, m0, snap, log, n, Deliveries(a, |log|));
    forall id
      ensures Settled(falsy, log, n, Deliveries(a, |log|), id) <==> Caught(falsy, log, n, a, id)
    {
      if WrittenLast(log, id) {
        StretchHoldsNewest(falsy, log, n, a, id);
      } else {
        StretchGone(falsy, log, n, a, id);
      }
    }
  }

  lemma AllCaught(falsy: iset<Blob>, log: seq<Op>, n: nat, a: nat, id: ShapeId)
    requires a <= n <= |log| && AllCarryShapes(falsy, log)
    ensures Caught(falsy, log, n, a, id)
  {
    if DeletedWithin(log, a, LastWrite(log, id), id) {
      assert LastWrite(log, id) >= a;
    }
  }

  /** A create or update without a body is stored by the broker and ignored by every
      client: some delivery makes a client that loaded an earlier snapshot agree with the
      broker if and only if no such write is the last operation of a shape since then. */
  lemma SomeDeliveryConvergesIff(falsy: iset<Blob>, m0: Shapes, snap: Snapshot, log: seq<Op>, n: nat)
    requires n <= |log| && IsSnapshot(snap, Replay(log[..n]))
    ensures (exists evs :: Legal(log, evs)
                           && Run(falsy, Receive(m0, SnapshotMsg(snap)), log, evs) == Replay(log).shapes)
            <==> forall id :: WrittenLast(log, id) && LastWrite(log, id) >= n ==>
                   Carries(falsy, log[LastWrite(log, id)])
  {
    AllRelevant(Deliveries(n, |log|));
    ContiguousConvergesIff(falsy, m0, snap, log, n, n, Deliveries(n, |log|));
    forall id
      ensures Caught(falsy, log, n, n, id)
              <==> (WrittenLast(log, id) && LastWrite(log, id) >= n ==> Carries(falsy, log[LastWrite(log, id)]))
    {
    }
    if evs :| Legal(log, evs) && Run(falsy, Receive(m0, SnapshotMsg(snap)), log, evs) == Replay(log).shapes {
      ConvergesIffSettled(falsy, m0, snap, log, n, evs);
      forall id | WrittenLast(log, id) && LastWrite(log, id) >= n
        ensures Carries(falsy, log[LastWrite(log, id)])
      {
        assert Settled(falsy, log, n, evs, id);
      }
    }
  }

  /** A delete carries no guard: when an older write arrives after it, the shape comes
      back, although every operation was delivered exactly once. */
  lemma StaleWriteResurrects(falsy: iset<Blob>, a: Blob)
    requires a !in falsy
    ensures var log := [Put("s", a), Del("s")];
      && Legal(log, [Deliver(1), Deliver(0)])
      && Run(falsy, map[], log, [Deliver(0), Deliver(1)]) == Replay(log).shapes
      && Run(falsy, map[], log, [Deliver(1), Deliver(0)]) != Replay(log).shapes
  {
    var log := [Put("s", a), Del("s")];
    var late := [Deliver(1), Deliver(0)];
    assert late[..1] == [Deliver(1)];
    assert late[..1][..0] == [];
    assert Legal(log, late[..1]) && Legal(log, late[..1][..0]);
    assert Run(falsy, map[], log, late[..1]) == map[];
    assert "s" in Run(falsy, map[], log, late);
    var inOrder := [Deliver(0), Deliver(1)];
    assert inOrder[..1] == [Deliver(0)];
    assert Run(falsy, map[], log, inOrder[..1]) == map["s" := Stored(1, a)];
    assert Run(falsy, map[], log, inOrder) == map[];
    ReplayAt(log, "s");
    assert log[..1] == [Put("s", a)] && log[..1][..0] == [];
    assert Replay(log[..1]) == Board(1, map["s" := Stored(1, a)]);
    assert Replay(log) == Board(2, map[]);
  }
}
