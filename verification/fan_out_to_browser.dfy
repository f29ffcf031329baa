/** From a board's fan-out to a browser's shape map: what the queue of one client
    carried, and what that makes of the snapshot it was handed
    (internal/hub/board.go, internal/hub/client.go, web/src/App.tsx). */
module FanOutToBrowser {
  import opened Protocol
  import opened Sequencer
  import opened MemoryBroker
  import opened System
  import opened BoardActor
  import Browser
  import Reconciliation

  /** Which message bodies are shape operations, by their positions in the board's log;
      any other body is a presence change or does not concern the shapes. */
  type Frames = map<Blob, nat>

  /** The log positions that a list of messages names, in order. */
  function Positions(frames: Frames, msgs: seq<Msg>): seq<nat> {
    if msgs == [] then []
    else
      var last := msgs[|msgs| - 1];
      Positions(frames, msgs[..|msgs| - 1]) + (if last.body in frames then [frames[last.body]] else [])
  }

  lemma {:induction false} PositionsConcat(frames: Frames, xs: seq<Msg>, ys: seq<Msg>)
    ensures Positions(frames, xs + ys) == Positions(frames, xs) + Positions(frames, ys)
    decreases |ys|
  {
    if ys == [] {
      assert xs + ys == xs;
    } else {
      PositionsConcat(frames, xs, ys[..|ys| - 1]);
      assert (xs + ys)[..|xs + ys| - 1] == xs + ys[..|ys| - 1];
    }
  }

  /** `a, a + 1, ..., b - 1`. */
  function Stretch(a: nat, b: nat): (ks: seq<nat>)
    requires a <= b
    ensures |ks| == b - a && forall i :: 0 <= i < |ks| ==> ks[i] == a + i
  {
    seq(b - a, i requires 0 <= i < b - a => a + i)
  }

  lemma StretchTail(xs: seq<nat>, ys: seq<nat>, a: nat, b: nat)
    requires a <= b && xs + ys == Stretch(a, b)
    ensures a + |xs| <= b && ys == Stretch(a + |xs|, b)
  {
    assert forall i :: 0 <= i < |ys| ==> ys[i] == (xs + ys)[|xs| + i];
    assert |xs + ys| == b - a;
  }

  /** What the browser makes of a queue item once it has the snapshot: an operation is a
      delivery; cursors, presence and the roster do not concern the shapes. */
  function EventOf(frames: Frames, x: Item): Browser.Event {
    if x.Relayed? && x.msg.Reliable? && x.msg.body in frames then Browser.Deliver(frames[x.msg.body])
    else Browser.Unrelated
  }

  function EventsOf(frames: Frames, items: seq<Item>): (evs: seq<Browser.Event>)
    ensures |evs| == |items| && forall i :: 0 <= i < |items| ==> evs[i] == EventOf(frames, items[i])
  {
    seq(|items|, i requires 0 <= i < |items| => EventOf(frames, items[i]))
  }

  function Delivered(ks: seq<nat>): (evs: seq<Browser.Event>)
    ensures |evs| == |ks| && forall i :: 0 <= i < |ks| ==> evs[i] == Browser.Deliver(ks[i])
  {
    seq(|ks|, i requires 0 <= i < |ks| => Browser.Deliver(ks[i]))
  }

  /** The log positions that a queue item stands for: one or none. */
  function PositionsOf(frames: Frames, x: Item): seq<nat> {
    if x.Relayed? && x.msg.Reliable? && x.msg.body in frames then [frames[x.msg.body]] else []
  }

  lemma PositionsOfLast(frames: Frames, items: seq<Item>, x: Item)
    ensures Positions(frames, ReliableOf(items + [x]))
            == Positions(frames, ReliableOf(items)) + PositionsOf(frames, x)
  {
    ReliableOfAppend(items, x);
    if x.Relayed? && x.msg.Reliable? {
      PositionsConcat(frames, ReliableOf(items), [x.msg]);
      assert [x.msg][..0] == [];
    } else {
      assert ReliableOf(items + [x]) == ReliableOf(items);
    }
  }

  lemma EventsOfLast(frames: Frames, items: seq<Item>, x: Item)
    ensures Browser.Relevant(EventsOf(frames, items + [x]))
            == Browser.Relevant(EventsOf(frames, items)) + Delivered(PositionsOf(frames, x))
  {
    var evs := EventsOf(frames, items + [x]);
    assert evs[..|evs| - 1] == EventsOf(frames, items);
  }

  lemma DeliveredConcat(xs: seq<nat>, ys: seq<nat>)
    ensures Delivered(xs + ys) == Delivered(xs) + Delivered(ys)
  {
  }

  lemma RelevantLast(frames: Frames, items: seq<Item>, x: Item)
    requires Browser.Relevant(EventsOf(frames, items)) == Delivered(Positions(frames, ReliableOf(items)))
    ensures Browser.Relevant(EventsOf(frames, items + [x]))
            == Delivered(Positions(frames, ReliableOf(items + [x])))
  {
    PositionsOfLast(frames, items, x);
    EventsOfLast(frames, items, x);
    DeliveredConcat(Positions(frames, ReliableOf(items)), PositionsOf(frames, x));
  }

  /** Those events that concern the shapes are the operations, in the queue's order. */
  lemma {:induction false} RelevantEvents(frames: Frames, items: seq<Item>)
    ensures Browser.Relevant(EventsOf(frames, items)) == Delivered(Positions(frames, ReliableOf(items)))
  {
    if items != [] {
      var before, x := items[..|items| - 1], items[|items| - 1];
      RelevantEvents(frames, before);
      RelevantLast(frames, before, x);
      assert items == before + [x];
    }
  }

  /** A present client whose write pump has caught up has been written all it is owed. */
  lemma CaughtUp(board: BoardActor.Board, k: Client)
    requires board.Valid() && k in board.everyone && k.present && k.pumping && k.send == []
    ensures k.joinedAt <= |board.stream| && ReliableOf(k.written) == NonCursor(board.stream[k.joinedAt..])
  {
    board.NeverSkips(k);
    assert board.ClientOk(k);
    assert k.written == k.enqueued;
    assert board.stream[k.joinedAt..|board.stream|] == board.stream[k.joinedAt..];
  }

  lemma SplitAtSnapshot(frames: Frames, before: seq<Item>, body: Blob, after: seq<Item>)
    ensures Positions(frames, ReliableOf(before + [Personal(body)] + after))
            == Positions(frames, ReliableOf(before)) + Positions(frames, ReliableOf(after))
  {
    ReliableConcat(before + [Personal(body)], after);
    ReliableOfAppend(before, Personal(body));
    assert ReliableOf(before + [Personal(body)]) == ReliableOf(before);
    PositionsConcat(frames, ReliableOf(before), ReliableOf(after));
  }

  lemma DeliveredStretch(a: nat, b: nat)
    requires a <= b
    ensures Delivered(Stretch(a, b)) == Browser.Deliveries(a, b)
  {
  }

  /** Where in the log the browser goes on once it has loaded its snapshot. */
  function ResumesAt(frames: Frames, from: nat, before: seq<Item>): nat {
    from + |Positions(frames, ReliableOf(before))|
  }

  /** What follows the snapshot item is the rest of the stretch. */
  lemma AfterSnapshot(frames: Frames, before: seq<Item>, body: Blob, after: seq<Item>, from: nat, end: nat)
    requires from <= end
    requires Positions(frames, ReliableOf(before + [Personal(body)] + after)) == Stretch(from, end)
    ensures var a := ResumesAt(frames, from, before);
      a <= end && Browser.Relevant(EventsOf(frames, after)) == Browser.Deliveries(a, end)
  {
    RelevantEvents(frames, after);
    SplitAtSnapshot(frames, before, body, after);
    StretchTail(Positions(frames, ReliableOf(before)), Positions(frames, ReliableOf(after)), from, end);
    DeliveredStretch(ResumesAt(frames, from, before), end);
  }

  lemma {:induction false} InRelevant(evs: seq<Browser.Event>, e: Browser.Event)
    requires e in evs && !e.Unrelated?
    ensures e in Browser.Relevant(evs)
  {
    if e != evs[|evs| - 1] {
      InRelevant(evs[..|evs| - 1], e);
    }
  }

  lemma LegalEvents(frames: Frames, items: seq<Item>, log: seq<Op>, a: nat)
    requires a <= |log| && Browser.Relevant(EventsOf(frames, items)) == Browser.Deliveries(a, |log|)
    ensures Browser.Legal(log, EventsOf(frames, items))
  {
    forall e | e in EventsOf(frames, items) && e.Deliver?
      ensures 0 <= e.k < |log|
    {
      InRelevant(EventsOf(frames, items), e);
    }
  }

  lemma QueueConvergesIff(frames: Frames, before: seq<Item>, body: Blob, after: seq<Item>, from: nat,
                          falsy: iset<Blob>, m0: Browser.Shapes, snap: Snapshot, log: seq<Op>, n: nat)
    requires from <= |log| && n <= |log| && IsSnapshot(snap, Replay(log[..n]))
    requires Positions(frames, ReliableOf(before + [Personal(body)] + after)) == Stretch(from, |log|)
    ensures Browser.Legal(log, EventsOf(frames, after))
    ensures Browser.Run(falsy, Browser.Receive(m0, Browser.SnapshotMsg(snap)), log, EventsOf(frames, after))
              == Replay(log).shapes
            <==> forall id :: Browser.Caught(falsy, log, n, ResumesAt(frames, from, before), id)
  {
    AfterSnapshot(frames, before, body, after, from, |log|);
    LegalEvents(frames, after, log, ResumesAt(frames, from, before));
    Browser.ContiguousConvergesIff(falsy, m0, snap, log, n, ResumesAt(frames, from, before), EventsOf(frames, after));
  }

  /** Main result: a client that is still a member and whose write pump has caught up, on a
      board whose stream since it joined carried the operations from `from` to the end of
      the log, in order, holds the broker's map if and only if every shape is caught.
      Operations queued before the snapshot are wiped out when the browser loads it: they
      are missing if the snapshot, taken at `n`, is older than its place in the queue. */
  lemma MemberConvergesIff(board: BoardActor.Board, k: Client, frames: Frames, from: nat,
                           before: seq<Item>, body: Blob, after: seq<Item>,
                           falsy: iset<Blob>, m0: Browser.Shapes, snap: Snapshot, log: seq<Op>, n: nat)
    requires board.Valid() && k in board.everyone && k.present && k.pumping && k.send == []
    requires k.written == before + [Personal(body)] + after
    requires k.joinedAt <= |board.stream| && from <= |log|
    requires Positions(frames, NonCursor(board.stream[k.joinedAt..])) == Stretch(from, |log|)
    requires n <= |log| && IsSnapshot(snap, Replay(log[..n]))
    ensures Browser.Legal(log, EventsOf(frames, after))
    ensures Browser.Run(falsy, Browser.Receive(m0, Browser.SnapshotMsg(snap)), log, EventsOf(frames, after))
              == Replay(log).shapes
            <==> forall id :: Browser.Caught(falsy, log, n, ResumesAt(frames, from, before), id)
  {
    CaughtUp(board, k);
    QueueConvergesIff(frames, before, body, after, from, falsy, m0, snap, log, n);
  }

  /** Nothing is missing when the snapshot is no older than its place in the stream and
      writes carry their bodies. */
  lemma MemberConverges(board: BoardActor.Board, k: Client, frames: Frames, from: nat,
                        before: seq<Item>, body: Blob, after: seq<Item>,
                        falsy: iset<Blob>, m0: Browser.Shapes, snap: Snapshot, log: seq<Op>, n: nat)
    requires board.Valid() && k in board.everyone && k.present && k.pumping && k.send == []
    requires k.written == before + [Personal(body)] + after
    requires k.joinedAt <= |board.stream| && from <= |log|
    requires Positions(frames, NonCursor(board.stream[k.joinedAt..])) == Stretch(from, |log|)
    requires n <= |log| && IsSnapshot(snap, Replay(log[..n]))
    requires ResumesAt(frames, from, before) <= n && Browser.AllCarryShapes(falsy, log)
    ensures Browser.Legal(log, EventsOf(frames, after))
    ensures Browser.Run(falsy, Browser.Receive(m0, Browser.SnapshotMsg(snap)), log, EventsOf(frames, after))
              == Replay(log).shapes
  {
    MemberConvergesIff(board, k, frames, from, before, body, after, falsy, m0, snap, log, n);
    forall id
      ensures Browser.Caught(falsy, log, n, ResumesAt(frames, from, before), id)
    {
      Browser.AllCaught(falsy, log, n, ResumesAt(frames, from, before), id);
    }
  }

  /** The same in the running system: the snapshot is the one that session `c` hands over,
      and the log is the broker's history in any later state `t` in which `c` is connected. */
  lemma ConnectedMemberConvergesIff(s: State, c: Sid, run: seq<Step>, t: State,
                                    board: BoardActor.Board, k: Client, frames: Frames, from: nat,
                                    before: seq<Item>, body: Blob, after: seq<Item>,
                                    falsy: iset<Blob>, m0: Browser.Shapes)
    requires Reachable(s) && Reconciliation.HandsSnapshot(s, c) && Reaches(s, run, t)
    requires c < |t.sessions| && !t.sessions[c].pc.Returned?
    requires board.Valid() && k in board.everyone && k.present && k.pumping && k.send == []
    requires k.written == before + [Personal(body)] + after
    requires k.joinedAt <= |board.stream| && from <= |Hist(t, s.sessions[c].id)|
    requires Positions(frames, NonCursor(board.stream[k.joinedAt..])) == Stretch(from, |Hist(t, s.sessions[c].id)|)
    ensures var snap := s.sessions[c].pc.snap;
      var id := s.sessions[c].id;
      && snap.sn <= |Hist(t, id)| && Browser.Legal(Hist(t, id), EventsOf(frames, after))
      && (Browser.Run(falsy, Browser.Receive(m0, Browser.SnapshotMsg(snap)), Hist(t, id), EventsOf(frames, after))
            == Get(t.broker, id).shapes
          <==> forall shape :: Browser.Caught(falsy, Hist(t, id), snap.sn, ResumesAt(frames, from, before), shape))
  {
    var snap := s.sessions[c].pc.snap;
    var id := s.sessions[c].id;
    Reconciliation.SnapshotOfPrefix(s, c, run, t);
    MemberConvergesIff(board, k, frames, from, before, body, after, falsy, m0, snap, Hist(t, id), snap.sn);
  }

  /** Which can happen: an operation sequenced after the snapshot was read, and relayed
      before the snapshot was queued, never shows. */
  lemma OvertakenSnapshotMisses(id: ShapeId, blob: Blob, frame: Blob, body: Blob,
                                falsy: iset<Blob>, m0: Browser.Shapes)
    ensures var log := [Put(id, blob)];
      var before := [Relayed(Reliable(frame))];
      && IsSnapshot(Snapshot(0, []), Replay(log[..0]))
      && Positions(map[frame := 0], ReliableOf(before + [Personal(body)] + [])) == Stretch(0, |log|)
      && EventsOf(map[frame := 0], []) == []
      && Browser.Run(falsy, Browser.Receive(m0, Browser.SnapshotMsg(Snapshot(0, []))), log, []) != Replay(log).shapes
  {
    var log := [Put(id, blob)];
    var before := [Relayed(Reliable(frame))];
    assert log[..0] == [];
    assert ReliableOf(before) == [Reliable(frame)] by {
      assert before[..0] == [];
    }
    SplitAtSnapshot(map[frame := 0], before, body, []);
    ReplayAt(log, id);
    assert id in Replay(log).shapes;
  }
}
