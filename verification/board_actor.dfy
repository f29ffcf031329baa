/** The board goroutine's fan-out (internal/hub/board.go): bounded queues, reliable
    delivery that kicks instead of skipping, best-effort cursors, idempotent detach. */
module BoardActor {
  import opened Protocol

  /** A broker message as `dispatch` classifies it: a cursor, or anything else, including
      a frame that does not parse. */
  datatype Msg = Cursor(origin: ClientId, body: Blob) | Reliable(body: Blob)

  /** A queued message: relayed from the broker, or personal (snapshot, roster). */
  datatype Item = Relayed(msg: Msg) | Personal(body: Blob)

  /** The reliable messages of a stream, in order. */
  function NonCursor(ms: seq<Msg>): seq<Msg> {
    if ms == [] then []
    else NonCursor(ms[..|ms| - 1]) + (if ms[|ms| - 1].Reliable? then [ms[|ms| - 1]] else [])
  }

  /** The reliable broker messages among queued items, in order. */
  function ReliableOf(items: seq<Item>): seq<Msg> {
    if items == [] then []
    else
      var x := items[|items| - 1];
      ReliableOf(items[..|items| - 1]) + (if x.Relayed? && x.msg.Reliable? then [x.msg] else [])
  }

  lemma ReliableOfAppend(items: seq<Item>, x: Item)
    ensures ReliableOf(items + [x]) == ReliableOf(items) + (if x.Relayed? && x.msg.Reliable? then [x.msg] else [])
  {
    assert (items + [x])[..|items|] == items;
  }

  lemma NonCursorAppend(stream: seq<Msg>, from: nat, m: Msg)
    requires from <= |stream|
    ensures NonCursor((stream + [m])[from..]) == NonCursor(stream[from..]) + (if m.Reliable? then [m] else [])
  {
    assert (stream + [m])[from..] == stream[from..] + [m];
    assert (stream[from..] + [m])[..|stream[from..]|] == stream[from..];
  }

  lemma CursorOwesNothing(stream: seq<Msg>, from: nat)
    requires from < |stream| && stream[|stream| - 1].Cursor?
    ensures NonCursor(stream[from..|stream|]) == NonCursor(stream[from..|stream| - 1])
  {
    var before := stream[..|stream| - 1];
    assert stream == before + [stream[|stream| - 1]];
    NonCursorAppend(before, from, stream[|stream| - 1]);
    assert before[from..] == stream[from..|stream| - 1];
    assert stream[from..] == stream[from..|stream|];
  }

  /** Still a member, or how it stopped being one. */
  datatype Fate = Staying | Kicked | Left | Drained

  class Client {
    const id: ClientId
    const capacity: nat       // sendBuffer
    var send: seq<Item>       // the bounded queue
    var present: bool         // owned by the board goroutine
    var sendCloses: nat
    var connClosed: bool
    var pumping: bool         // the write pump is running

    ghost var enqueued: seq<Item>  // everything ever put in the queue
    ghost var taken: seq<Item>     // everything the write pump took out
    ghost var written: seq<Item>   // everything that reached the socket
    ghost var joinedAt: nat        // stream positions this client is owed
    ghost var leftAt: nat
    ghost var fate: Fate

    constructor (id: ClientId, capacity: nat)
      ensures this.id == id && this.capacity == capacity && Idle()
    {
      this.id, this.capacity := id, capacity;
      send, present, sendCloses, connClosed, pumping := [], false, 0, false, true;
      enqueued, taken, written, joinedAt, leftAt, fate := [], [], [], 0, 0, Staying;
    }

    ghost predicate Idle()
      reads this
    {
      !present && sendCloses == 0 && send == enqueued == taken == written == [] && fate == Staying
    }

    /** FIFO, bounded; what was written is a prefix of what was enqueued, and all of what
        was taken while the pump runs. */
    ghost predicate QueueOk()
      reads this
    {
      |send| <= capacity && enqueued == taken + send && written <= taken && (pumping ==> written == taken)
    }

    /** The reliable broker messages enqueued are exactly those of the stream from the
        join up to `end`: contiguous, none skipped, none repeated. */
    ghost predicate Covers(stream: seq<Msg>, end: nat)
      reads this
    {
      joinedAt <= end <= |stream| && ReliableOf(enqueued) == NonCursor(stream[joinedAt..end])
    }

    /** The state of a client that has joined a board with this stream. */
    ghost predicate Ok(stream: seq<Msg>)
      reads this
    {
      && QueueOk()
      && (present <==> fate == Staying)
      && (present ==> sendCloses == 0 && Covers(stream, |stream|))
      && (!present ==> sendCloses == 1 && Covers(stream, leftAt))
    }

    predicate HasRoom()
      reads this`send
    {
      |send| < capacity
    }

    /** Exactly one item went to the end of the queue. */
    ghost predicate Gains(send0: seq<Item>, enqueued0: seq<Item>, item: Item)
      reads this
    {
      send == send0 + [item] && enqueued == enqueued0 + [item]
    }

    /** Nothing went to the queue. */
    ghost predicate Keeps(send0: seq<Item>, enqueued0: seq<Item>)
      reads this
    {
      send == send0 && enqueued == enqueued0
    }

    /** Closed for good, and without the item. */
    ghost predicate Dropped(send0: seq<Item>, enqueued0: seq<Item>)
      reads this
    {
      Keeps(send0, enqueued0) && connClosed && sendCloses == 1
    }

    /** Removed just now, its queue closed exactly once. */
    ghost predicate Closed(end: nat, why: Fate)
      reads this
    {
      !present && sendCloses == 1 && leftAt == end && fate == why
    }

    /** One turn of the write pump: take the next message and try to write it. A closed,
        empty queue or a failed write ends the pump. */
    method PumpOnce(writes: bool)
      requires QueueOk() && pumping
      modifies this`send, this`taken, this`written, this`pumping
      ensures QueueOk()
      ensures written == old(written) + (if old(send) != [] && writes then [old(send)[0]] else [])
      ensures pumping == (if old(send) == [] then sendCloses == 0 else writes)
      ensures send == if old(send) == [] then [] else old(send)[1..]
    {
      if send == [] {
        pumping := sendCloses == 0;
        return;
      }
      var data := send[0];
      send := send[1..];
      taken := taken + [data];
      if writes {
        written := written + [data];
      } else {
        pumping := false;
      }
    }
  }

  class Board {
    var clients: set<Client>
    var byID: map<ClientId, Client>
    var delivered: nat              // MessagesDelivered
    var kicked: nat                 // ClientKicked

    ghost var stream: seq<Msg>      // every broker message dispatched so far
    ghost var everyone: set<Client> // every client that ever joined
    ghost var joined: seq<Client>   // the same, in the order of joining
    ghost var kicks: set<Client>    // those that were kicked

    constructor ()
      ensures Valid() && clients == everyone == {} && joined == [] && stream == [] && delivered == kicked == 0
    {
      clients, byID, delivered, kicked := {}, map[], 0, 0;
      stream, everyone, joined, kicks := [], {}, [], {};
    }

    /** Fan-out set and id index agree. */
    ghost predicate Structure()
      reads this`clients, this`byID, this`everyone, this`kicks, this`kicked
    {
      && clients <= everyone && kicks <= everyone && kicked == |kicks|
      && (forall c :: c in clients ==> c.id in byID && byID[c.id] == c)
      && (forall id :: id in byID ==> byID[id] in clients && byID[id].id == id)
    }

    ghost predicate ClientOk(c: Client)
      reads this`stream, this`clients, this`kicks, c
    {
      c.Ok(stream) && (c.present <==> c in clients) && (c.fate == Fate.Kicked <==> c in kicks)
    }

    /** Sets, queues and histories agree. */
    ghost predicate InOrder()
      reads this`clients, this`byID, this`everyone, this`kicks, this`kicked, this`stream, everyone
    {
      Structure() && forall c :: c in everyone ==> ClientOk(c)
    }

    /** Everyone who ever joined is on the list once, and what was delivered in total is
        what was ever put in their queues. */
    ghost predicate Tally()
      reads this`delivered, this`everyone, this`joined, joined`enqueued
    {
      && (forall c :: c in everyone ==> c in joined) && (forall c :: c in joined ==> c in everyone) && Distinct(joined)
      && delivered == TotalEnqueued(joined)
    }

    ghost predicate Valid()
      reads this`clients, this`byID, this`everyone, this`kicks, this`kicked, this`stream, everyone
      reads this`delivered, this`joined, joined`enqueued
    {
      InOrder() && Tally()
    }

    /** Exactly the clients in `got` gained one item each, and each was counted. */
    twostate lemma TallyBy(new got: set<Client>)
      requires old(Tally()) && unchanged(this`everyone, this`joined) && got <= everyone
      requires forall c :: c in everyone ==> |c.enqueued| == old(|c.enqueued|) + (if c in got then 1 else 0)
      requires delivered == old(delivered) + |got|
      ensures Tally()
    {
      TotalGains(joined, got);
    }

    /** The code of join, without the list of everyone. */
    method Enter(c: Client)
      requires InOrder() && c.Idle() && c.pumping && c !in everyone && c.id !in byID
      modifies this`clients, this`byID, this`everyone, c`present, c`joinedAt
      ensures InOrder()
      ensures clients == old(clients) + {c} && everyone == old(everyone) + {c}
      ensures c.present && c.joinedAt == |stream|
    {
      clients := clients + {c};
      byID := byID[c.id := c];
      c.present := true;
      c.joinedAt := |stream|;
      everyone := everyone + {c};
      assert stream[c.joinedAt..|stream|] == [];
      OthersOk(c);
    }

    method Join(c: Client)
      requires Valid() && c.Idle() && c.pumping && c !in everyone && c.id !in byID
      modifies this`clients, this`byID, this`everyone, this`joined, c`present, c`joinedAt
      ensures Valid() && joined == old(joined) + [c]
      ensures clients == old(clients) + {c} && everyone == old(everyone) + {c}
      ensures c.present && c.joinedAt == |stream|
    {
      Enter(c);
      joined := joined + [c];
      TallyJoin(c);
    }

    twostate lemma TallyJoin(c: Client)
      requires old(Tally()) && c !in old(everyone) && c.enqueued == [] && unchanged(this`delivered)
      requires everyone == old(everyone) + {c} && joined == old(joined) + [c]
      requires forall d :: d in old(everyone) ==> unchanged(d`enqueued)
      ensures Tally()
    {
      TotalJoin(old(joined), c);
      TotalGains(old(joined), {});
    }

    /** Remove a client and close its queue: at most once, whoever asks. Its segment of
        the stream ends at `end`. */
    method Detach(c: Client, closeConn: bool, ghost end: nat, ghost why: Fate)
      requires c.present ==> c.sendCloses == 0
      modifies this`clients, this`byID, c`present, c`sendCloses, c`connClosed, c`leftAt, c`fate
      ensures old(c.present) ==> clients == old(clients) - {c} && byID == old(byID) - {c.id}
      ensures old(c.present) ==> c.Closed(end, why) && c.connClosed == (old(c.connClosed) || closeConn)
      ensures !old(c.present) ==> clients == old(clients) && byID == old(byID) && unchanged(c)
    {
      if !c.present {
        return;
      }
      c.present := false;
      clients := clients - {c};
      byID := byID - {c.id};
      c.sendCloses := c.sendCloses + 1;
      c.leftAt, c.fate := end, why;
      if closeConn {
        c.connClosed := true;
      }
    }

    method Leave(c: Client)
      requires InOrder() && c in everyone
      modifies this`clients, this`byID, c`present, c`sendCloses, c`connClosed, c`leftAt, c`fate
      ensures InOrder() && clients == old(clients) - {c}
      ensures if old(c.present) then c.Closed(|stream|, Left) && c.connClosed == old(c.connClosed) else unchanged(c)
    {
      assert ClientOk(c);
      Detach(c, false, |stream|, Left);
      if old(c.present) {
        DepartedOk(c, |stream|, Left);
        OthersOk(c);
      }
    }

    /** The unregister case: idempotent, and the connection is left to its owner. */
    method Unregister(c: Client)
      requires Valid() && c in everyone
      modifies this`clients, this`byID, c`present, c`sendCloses, c`connClosed, c`leftAt, c`fate
      ensures Valid() && clients == old(clients) - {c}
      ensures if old(c.present) then c.Closed(|stream|, Left) && c.connClosed == old(c.connClosed) else unchanged(c)
    {
      Leave(c);
    }

    /** The select with a default arm: queue the item if there is room for it. Sending on
        a closed channel would panic, so the queue must be open. */
    method Offer(c: Client, item: Item) returns (sent: bool)
      requires c.sendCloses == 0
      modifies c`send, c`enqueued
      ensures sent == old(c.HasRoom())
      ensures if sent then c.Gains(old(c.send), old(c.enqueued), item) else c.Keeps(old(c.send), old(c.enqueued))
    {
      sent := |c.send| < c.capacity;
      if sent {
        c.send := c.send + [item];
        c.enqueued := c.enqueued + [item];
      }
    }

    /** Count a kick and remove the client; its segment ends at `end`. */
    method Kick(c: Client, ghost end: nat)
      requires Structure() && c in clients && c !in kicks && c.present && c.sendCloses == 0
      modifies this`clients, this`byID, this`kicked, this`kicks
      modifies c`present, c`sendCloses, c`connClosed, c`leftAt, c`fate
      ensures Structure() && clients == old(clients) - {c} && kicks == old(kicks) + {c} && kicked == old(kicked) + 1
      ensures c.Closed(end, Fate.Kicked) && c.connClosed
    {
      kicked := kicked + 1;
      kicks := kicks + {c};
      Detach(c, true, end, Fate.Kicked);
    }

    /** Kick a client that has the whole stream so far. */
    method KickOne(c: Client)
      requires InOrder() && c in clients
      modifies this`clients, this`byID, this`kicked, this`kicks
      modifies c`present, c`sendCloses, c`connClosed, c`leftAt, c`fate
      ensures InOrder() && clients == old(clients) - {c} && kicked == old(kicked) + 1
      ensures !c.present && c.connClosed
    {
      assert ClientOk(c);
      Kick(c, |stream|);
      DepartedOk(c, |stream|, Fate.Kicked);
      OthersOk(c);
    }

    /** A personal message is not part of the broker's stream. */
    twostate lemma PersonalKeeps(c: Client, new data: Blob)
      requires old(ClientOk(c)) && c.present
      requires c.Gains(old(c.send), old(c.enqueued), Personal(data)) && |c.send| <= c.capacity
      requires unchanged(this`clients, this`kicks, this`stream)
      requires unchanged(c`present, c`sendCloses, c`taken, c`written, c`pumping, c`joinedAt, c`leftAt, c`fate)
      ensures ClientOk(c)
    {
      ReliableOfAppend(old(c.enqueued), Personal(data));
    }

    /** A personal message for one client: queued, or the client is kicked. */
    method TryPush(c: Client, data: Blob) returns (ok: bool)
      requires InOrder() && c in clients
      modifies this`clients, this`byID, this`delivered, this`kicked, this`kicks, c
      ensures InOrder() && ok == old(c.HasRoom())
      ensures if ok then c.Gains(old(c.send), old(c.enqueued), Personal(data))
              else c.Keeps(old(c.send), old(c.enqueued))
      ensures ok ==> clients == old(clients) && delivered == old(delivered) + 1 && kicked == old(kicked)
      ensures !ok ==> !c.present && c.connClosed && clients == old(clients) - {c}
      ensures !ok ==> delivered == old(delivered) && kicked == old(kicked) + 1
    {
      assert ClientOk(c);
      ok := Offer(c, Personal(data));
      if ok {
        delivered := delivered + 1;
        PersonalKeeps(c, data);
        OthersOk(c);
      } else {
        KickOne(c);
      }
    }

    /** The same, with every delivered message accounted for. */
    method Push(c: Client, data: Blob) returns (ok: bool)
      requires Valid() && c in clients
      modifies this`clients, this`byID, this`delivered, this`kicked, this`kicks, c
      ensures Valid() && ok == old(c.HasRoom())
      ensures ok ==>
        c.send == old(c.send) + [Personal(data)] && clients == old(clients) && delivered == old(delivered) + 1
      ensures !ok ==> !c.present && c.connClosed && c.send == old(c.send) && clients == old(clients) - {c}
      ensures kicked == old(kicked) + (if ok then 0 else 1)
    {
      ok := TryPush(c, data);
      TallyBy(if ok then {c} else {});
    }

    twostate predicate Untouched(d: Client)
      reads this, d
    {
      unchanged(d) && (d in clients <==> d in old(clients)) && (d in kicks <==> d in old(kicks))
    }

    /** Nothing but `c` and its membership changed. */
    twostate lemma OthersOk(c: Client)
      requires old(InOrder()) && Structure() && unchanged(this`stream)
      requires ClientOk(c) && forall d :: d in everyone <==> d in old(everyone) || d == c
      requires forall d :: d in old(everyone) && d != c ==> Untouched(d)
      ensures InOrder()
    {
      forall d | d in everyone
        ensures ClientOk(d)
      {
        if d != c {
          assert old(ClientOk(d));
        }
      }
    }

    /** The direct case of the loop: ignored once the client is gone. */
    method Direct(c: Client, data: Blob)
      requires Valid() && c in everyone
      modifies this`clients, this`byID, this`delivered, this`kicked, this`kicks, c
      ensures Valid()
      ensures !old(c.present) ==> unchanged(c) && unchanged(this)
      ensures old(c.present && c.HasRoom()) ==> c.send == old(c.send) + [Personal(data)] && clients == old(clients)
      ensures old(c.present && !c.HasRoom()) ==> c.connClosed && clients == old(clients) - {c}
    {
      if c.present {
        var _ := Push(c, data);
      }
    }

    // ---- Dispatching a broker message ----

    /** `c` has everything but the latest message, if it is still owed that. */
    ghost predicate OneBehind(c: Client)
      reads this`stream, this`clients, this`kicks, c
    {
      && stream != [] && c.QueueOk()
      && (c.present <==> c in clients) && (c.fate == Fate.Kicked <==> c in kicks) && (c.present <==> c.fate == Staying)
      && (c.present ==> c.sendCloses == 0 && c.Covers(stream, |stream| - 1))
      && (!c.present ==> c.Ok(stream))
    }

    ghost method Receive(m: Msg)
      requires InOrder()
      modifies this`stream
      ensures Structure() && stream == old(stream) + [m]
      ensures forall c :: c in everyone ==> OneBehind(c)
    {
      ghost var before := stream;
      stream := stream + [m];
      forall c | c in everyone
        ensures OneBehind(c)
      {
        assert old(ClientOk(c));
        Extended(c, before, m);
      }
    }

    lemma Extended(c: Client, before: seq<Msg>, m: Msg)
      ensures forall end: nat :: c.joinedAt <= end <= |before| ==>
        (before + [m])[c.joinedAt..end] == before[c.joinedAt..end]
    {
    }

    ghost function WithRoom(): set<Client>
      reads this`clients, clients`send
    {
      set c | c in clients && c.HasRoom()
    }

    /** The delivery loop over the fan-out set, in any order: nobody is removed while it
        runs; the clients whose queue was full are collected. */
    method SendToAll(item: Item) returns (slow: set<Client>, ghost got: set<Client>)
      requires forall c :: c in clients ==> c.sendCloses == 0
      modifies this`delivered, clients`send, clients`enqueued
      ensures forall c :: c in got <==> c in old(WithRoom())
      ensures forall c :: c in slow <==> c in clients && c !in got
      ensures forall c :: c in clients ==>
        if c in got then c.Gains(old(c.send), old(c.enqueued), item) else c.Keeps(old(c.send), old(c.enqueued))
      ensures delivered == old(delivered) + |got|
    {
      got := WithRoom();
      var n := 0;
      slow := {};
      var todo := clients;
      while todo != {}
        invariant todo <= clients && delivered == old(delivered)
        invariant n + |slow| + |todo| == |clients|
        invariant forall c :: c in slow <==> c in clients && c !in todo && c !in got
        invariant forall c :: c in clients ==>
          if c in todo || c !in got then c.Keeps(old(c.send), old(c.enqueued))
          else c.Gains(old(c.send), old(c.enqueued), item)
        decreases |todo|
      {
        var c :| c in todo;
        var sent := Offer(c, item);
        todo := todo - {c};
        if sent {
          n := n + 1;
        } else {
          slow := slow + {c};
        }
      }
      TwoParts(clients, slow, got);
      delivered := delivered + n;
    }

    /** The kicks, after the loop: each collected client is removed and closed. */
    method KickAll(slow: set<Client>, ghost end: nat)
      requires Structure() && slow <= clients
      requires forall c :: c in slow ==> c !in kicks && c.present && c.sendCloses == 0
      modifies this`clients, this`byID, this`kicked, this`kicks
      modifies slow`present, slow`sendCloses, slow`connClosed, slow`leftAt, slow`fate
      ensures Structure() && kicked == old(kicked) + |slow|
      ensures forall c :: c in clients <==> c in old(clients) && c !in slow
      ensures forall c :: c in kicks <==> c in old(kicks) || c in slow
      ensures forall c :: c in slow ==> c.Closed(end, Fate.Kicked) && c.connClosed
    {
      var todo := slow;
      while todo != {}
        invariant todo <= slow && Structure()
        invariant kicked + |todo| == old(kicked) + |slow|
        invariant forall c :: c in clients <==> c in old(clients) && (c in slow ==> c in todo)
        invariant forall c :: c in kicks <==> c in old(kicks) || (c in slow && c !in todo)
        invariant forall c :: c in slow ==>
          if c in todo then unchanged(c) else c.Closed(end, Fate.Kicked) && c.connClosed
        decreases |todo|
      {
        var c :| c in todo;
        Kick(c, end);
        todo := todo - {c};
      }
    }

    /** A client removed with its segment ending at `end` is in order. */
    twostate lemma DepartedOk(c: Client, new end: nat, new why: Fate)
      requires old(c.QueueOk() && c.Covers(stream, end)) && c.Closed(end, why) && why != Staying
      requires unchanged(this`stream)
      requires unchanged(c`send, c`enqueued, c`taken, c`written, c`pumping, c`joinedAt)
      ensures c.Ok(stream)
    {
    }

    /** The queue took the message and nothing else happened to the client. */
    twostate predicate Served(c: Client, m: Msg)
      reads c
    {
      && c.Gains(old(c.send), old(c.enqueued), Relayed(m)) && |c.send| <= c.capacity
      && unchanged(c`present, c`sendCloses, c`taken, c`written, c`pumping, c`joinedAt, c`leftAt, c`fate)
    }

    /** The client was kicked without receiving the message. */
    twostate predicate Ejected(c: Client, end: nat)
      reads c
    {
      && c.Closed(end, Fate.Kicked) && c.connClosed
      && unchanged(c`send, c`enqueued, c`taken, c`written, c`pumping, c`joinedAt)
    }

    /** A client that got the latest reliable message has the whole stream again. */
    twostate lemma CaughtUp(c: Client, new m: Msg)
      requires old(OneBehind(c)) && c.present && m.Reliable? && stream != [] && stream[|stream| - 1] == m
      requires Served(c, m)
      requires unchanged(this`stream) && (c in clients <==> c in old(clients)) && (c in kicks <==> c in old(kicks))
      ensures ClientOk(c)
    {
      ReliableOfAppend(old(c.enqueued), Relayed(m));
      var before := stream[..|stream| - 1];
      assert stream == before + [m];
      NonCursorAppend(before, c.joinedAt, m);
      assert before[c.joinedAt..] == stream[c.joinedAt..|stream| - 1];
      assert stream[c.joinedAt..] == stream[c.joinedAt..|stream|];
    }

    /** The first loop: everyone with room is up to date, the rest is one message behind. */
    method ServeAll(m: Msg) returns (slow: set<Client>, ghost got: set<Client>)
      requires Structure() && m.Reliable? && stream != [] && stream[|stream| - 1] == m
      requires forall c :: c in everyone ==> OneBehind(c)
      modifies this`delivered, clients`send, clients`enqueued
      ensures Structure() && forall c :: c in everyone ==> Halfway(c, slow)
      ensures forall c :: c in got <==> c in old(WithRoom())
      ensures forall c :: c in slow <==> c in clients && c !in got
      ensures forall c :: c in clients ==>
        if c in got then c.Gains(old(c.send), old(c.enqueued), Relayed(m)) else c.Keeps(old(c.send), old(c.enqueued))
      ensures delivered == old(delivered) + |got|
    {
      slow, got := SendToAll(Relayed(m));
      AllServedOk(m, slow);
    }

    ghost predicate Halfway(c: Client, slow: set<Client>)
      reads this`stream, this`clients, this`kicks, c
    {
      if c in slow then OneBehind(c) && c.present else ClientOk(c)
    }

    twostate lemma AllServedOk(m: Msg, new slow: set<Client>)
      requires unchanged(this`stream, this`everyone, this`clients, this`kicks)
      requires m.Reliable? && stream != [] && stream[|stream| - 1] == m && slow <= clients <= everyone
      requires forall c :: c in everyone ==> old(OneBehind(c))
      requires forall c :: c in everyone && (c in slow || c !in clients) ==> unchanged(c)
      requires forall c :: c in clients && c !in slow ==> Served(c, m)
      ensures forall c :: c in everyone ==> Halfway(c, slow)
    {
      forall c | c in everyone
        ensures Halfway(c, slow)
      {
        assert old(OneBehind(c));
        if c in clients && c !in slow {
          CaughtUp(c, m);
        }
      }
    }

    /** The second loop: those left behind are out, at the message they missed. */
    method KickSlow(slow: set<Client>)
      requires Structure() && stream != [] && slow <= clients && forall c :: c in everyone ==> Halfway(c, slow)
      modifies this`clients, this`byID, this`kicked, this`kicks
      modifies slow`present, slow`sendCloses, slow`connClosed, slow`leftAt, slow`fate
      ensures InOrder() && kicked == old(kicked) + |slow|
      ensures forall c :: c in clients <==> c in old(clients) && c !in slow
      ensures forall c :: c in slow ==> c.connClosed && c.sendCloses == 1
      ensures forall c :: c in everyone ==> c.Keeps(old(c.send), old(c.enqueued))
    {
      assert forall c :: c in slow ==> Halfway(c, slow);
      KickAll(slow, |stream| - 1);
      AllKickedOk(slow);
    }

    twostate lemma AllKickedOk(slow: set<Client>)
      requires unchanged(this`stream, this`everyone) && stream != [] && slow <= old(clients) <= everyone
      requires forall c :: c in everyone ==> old(Halfway(c, slow))
      requires forall c :: c in clients <==> c in old(clients) && c !in slow
      requires forall c :: c in kicks <==> c in old(kicks) || c in slow
      requires forall c :: c in slow ==> Ejected(c, |stream| - 1)
      requires forall c :: c in everyone && c !in slow ==> unchanged(c)
      ensures forall c :: c in everyone ==> ClientOk(c)
    {
      forall c | c in everyone
        ensures ClientOk(c)
      {
        assert old(Halfway(c, slow));
        if c in slow {
          DepartedOk(c, |stream| - 1, Fate.Kicked);
        }
      }
    }

    /** Both loops, for a message just received, with everyone in order again afterwards. */
    method RelayReliable(m: Msg) returns (ghost slow: set<Client>, ghost got: set<Client>)
      requires Structure() && m.Reliable? && stream != [] && stream[|stream| - 1] == m
      requires forall c :: c in everyone ==> OneBehind(c)
      modifies this`clients, this`byID, this`delivered, this`kicked, this`kicks, clients
      ensures InOrder() && forall c :: c in clients <==> c in got
      ensures forall c :: c in got <==> c in old(WithRoom())
      ensures forall c :: c in slow <==> c in old(clients) && c !in got
      ensures forall c :: c in got ==> c.Gains(old(c.send), old(c.enqueued), Relayed(m))
      ensures forall c :: c in slow ==> c.Dropped(old(c.send), old(c.enqueued))
      ensures delivered == old(delivered) + |got| && kicked == old(kicked) + |slow|
    {
      var behind;
      behind, got := ServeAll(m);
      KickSlow(behind);
      slow := behind;
    }

    method ReceiveReliable(m: Msg) returns (ghost slow: set<Client>, ghost got: set<Client>)
      requires InOrder() && m.Reliable?
      modifies this`clients, this`byID, this`delivered, this`kicked, this`kicks, this`stream, clients
      ensures InOrder() && stream == old(stream) + [m] && forall c :: c in clients <==> c in got
      ensures forall c :: c in got <==> c in old(WithRoom())
      ensures forall c :: c in slow <==> c in old(clients) && c !in got
      ensures forall c :: c in got ==> c.Gains(old(c.send), old(c.enqueued), Relayed(m))
      ensures forall c :: c in slow ==> c.Dropped(old(c.send), old(c.enqueued))
      ensures delivered == old(delivered) + |got| && kicked == old(kicked) + |slow|
    {
      Receive(m);
      slow, got := RelayReliable(m);
    }

    /** Reliable delivery: every client with room gains exactly the message, every other
        one is removed, closed and counted, whatever the iteration order. */
    method DeliverReliable(m: Msg)
      requires Valid() && m.Reliable?
      modifies this`clients, this`byID, this`delivered, this`kicked, this`kicks, this`stream, clients
      ensures Valid() && stream == old(stream) + [m]
      ensures clients == old(WithRoom())
      ensures forall c :: c in clients ==> c.Gains(old(c.send), old(c.enqueued), Relayed(m))
      ensures forall c :: c in old(clients) && c !in clients ==> c.Dropped(old(c.send), old(c.enqueued))
      ensures delivered == old(delivered) + |clients|
      ensures kicked + |clients| == old(kicked) + |old(clients)|
    {
      ghost var slow, got := ReceiveReliable(m);
      TallyBy(got);
      TwoParts(old(clients), slow, got);
      assert clients == got == old(WithRoom());
    }

    // ---- Cursors ----

    /** Best-effort delivery: a full queue loses the cursor, nobody is removed, and the
        local origin is skipped. */
    method DeliverBestEffort(m: Msg, exclude: Client?) returns (ghost got: set<Client>)
      requires forall c :: c in clients ==> c.sendCloses == 0
      modifies this`delivered, clients`send, clients`enqueued
      ensures forall c :: c in got <==> c in old(WithRoom()) && c != exclude
      ensures forall c :: c in clients ==>
        if c in got then c.Gains(old(c.send), old(c.enqueued), Relayed(m)) else c.Keeps(old(c.send), old(c.enqueued))
      ensures delivered == old(delivered) + |got|
    {
      ghost var room := WithRoom();
      got := {};
      var n := 0;
      var todo := clients;
      while todo != {}
        invariant todo <= clients && delivered == old(delivered) && n == |got|
        invariant forall c :: c in got <==> c in room && c !in todo && c != exclude
        invariant forall c :: c in clients ==>
          if c in got then c.Gains(old(c.send), old(c.enqueued), Relayed(m)) else c.Keeps(old(c.send), old(c.enqueued))
        decreases |todo|
      {
        var c :| c in todo;
        todo := todo - {c};
        if c != exclude {
          var sent := Offer(c, Relayed(m));
          if sent {
            got := got + {c};
            n := n + 1;
          }
        }
      }
      delivered := delivered + n;
    }

    /** The queue took the message or did not; nothing else happened to the client. */
    twostate predicate Offered(c: Client, m: Msg)
      reads c
    {
      && (unchanged(c) || (c.Gains(old(c.send), old(c.enqueued), Relayed(m)) && |c.send| <= c.capacity))
      && unchanged(c`present, c`sendCloses, c`taken, c`written, c`pumping, c`joinedAt, c`leftAt, c`fate)
    }

    twostate lemma AllOfferedOk(m: Msg)
      requires m.Cursor? && stream != [] && stream[|stream| - 1] == m
      requires unchanged(this`stream, this`clients, this`kicks, this`everyone)
      requires forall c :: c in everyone ==> old(OneBehind(c)) && Offered(c, m)
      ensures forall c :: c in everyone ==> ClientOk(c)
    {
      forall c | c in everyone
        ensures ClientOk(c)
      {
        CursorKeeps(c, m);
      }
    }

    /** A cursor, queued or not, adds nothing to what a client is owed. */
    twostate lemma CursorKeeps(c: Client, new m: Msg)
      requires old(OneBehind(c)) && m.Cursor? && stream != [] && stream[|stream| - 1] == m
      requires unchanged(this`stream, this`clients, this`kicks) && Offered(c, m)
      ensures ClientOk(c)
    {
      ReliableOfAppend(old(c.enqueued), Relayed(m));
      if c.present {
        CursorOwesNothing(stream, c.joinedAt);
      }
    }

    method OfferCursor(m: Msg, exclude: Client?) returns (ghost got: set<Client>)
      requires Structure() && forall c :: c in clients ==> c.sendCloses == 0
      modifies this`delivered, clients`send, clients`enqueued
      ensures Structure() && forall c :: c in everyone ==> Offered(c, m)
      ensures forall c :: c in got <==> c in old(WithRoom()) && c != exclude
      ensures forall c :: c in clients ==>
        if c in got then c.Gains(old(c.send), old(c.enqueued), Relayed(m)) else c.Keeps(old(c.send), old(c.enqueued))
      ensures delivered == old(delivered) + |got|
    {
      got := DeliverBestEffort(m, exclude);
    }

    method RelayCursor(m: Msg, exclude: Client?) returns (ghost got: set<Client>)
      requires Structure() && m.Cursor? && stream != [] && stream[|stream| - 1] == m
      requires forall c :: c in everyone ==> OneBehind(c)
      modifies this`delivered, clients`send, clients`enqueued
      ensures InOrder()
      ensures forall c :: c in got <==> c in old(WithRoom()) && c != exclude
      ensures forall c :: c in clients ==>
        if c in got then c.Gains(old(c.send), old(c.enqueued), Relayed(m)) else c.Keeps(old(c.send), old(c.enqueued))
      ensures delivered == old(delivered) + |got|
    {
      got := OfferCursor(m, exclude);
      AllOfferedOk(m);
    }

    method ReceiveCursor(m: Msg) returns (ghost got: set<Client>)
      requires InOrder() && m.Cursor?
      modifies this`delivered, this`stream, clients`send, clients`enqueued
      ensures InOrder() && stream == old(stream) + [m]
      ensures forall c :: c in got <==> c in old(WithRoom()) && c.id != m.origin
      ensures forall c :: c in clients ==>
        if c in got then c.Gains(old(c.send), old(c.enqueued), Relayed(m)) else c.Keeps(old(c.send), old(c.enqueued))
      ensures delivered == old(delivered) + |got|
    {
      Receive(m);
      var origin: Client? := if m.origin in byID then byID[m.origin] else null;
      assert forall c :: c in clients ==> (c == origin <==> c.id == m.origin);
      got := RelayCursor(m, origin);
    }

    // ---- The loop's cases as a whole ----

    /** The cursor case: nobody is removed, and the origin, if it is here, gets nothing. */
    method DispatchCursor(m: Msg)
      requires Valid() && m.Cursor?
      modifies this`delivered, this`stream, clients`send, clients`enqueued
      ensures Valid() && stream == old(stream) + [m]
      ensures forall c :: c in clients && c.id == m.origin ==> c.Keeps(old(c.send), old(c.enqueued))
      ensures forall c :: c in old(WithRoom()) && c.id != m.origin ==> c.Gains(old(c.send), old(c.enqueued), Relayed(m))
    {
      ghost var got := ReceiveCursor(m);
      TallyBy(got);
    }

    /** Route a broker message: a cursor best-effort and not to its local origin,
        everything else reliably to all. */
    method Dispatch(m: Msg)
      requires Valid()
      modifies this`clients, this`byID, this`delivered, this`kicked, this`kicks, this`stream, clients
      ensures Valid() && stream == old(stream) + [m]
      ensures m.Reliable? ==> clients == old(WithRoom()) && kicked + |clients| == old(kicked) + |old(clients)|
      ensures m.Cursor? ==> clients == old(clients) && kicked == old(kicked)
      ensures m.Cursor? ==> forall c :: c in clients && c.id == m.origin ==> unchanged(c)
      ensures forall c :: c in old(WithRoom()) && (m.Reliable? || c.id != m.origin) ==>
                c.Gains(old(c.send), old(c.enqueued), Relayed(m))
    {
      if m.Reliable? {
        DeliverReliable(m);
      } else {
        DispatchCursor(m);
      }
    }

    /** The drain loop: remove and close whoever is left. */
    method CloseAll()
      requires Structure() && forall c :: c in clients ==> c.present && c.sendCloses == 0
      modifies this`clients, this`byID
      modifies clients`present, clients`sendCloses, clients`connClosed, clients`leftAt, clients`fate
      ensures Structure() && clients == {}
      ensures forall c :: c in old(clients) ==> c.Closed(|stream|, Drained) && c.connClosed
    {
      ghost var members := clients;
      while clients != {}
        invariant clients <= members && Structure()
        invariant forall c :: c in clients ==> unchanged(c)
        invariant forall c :: c in members && c !in clients ==> c.Closed(|stream|, Drained) && c.connClosed
        decreases |clients|
      {
        var c :| c in clients;
        Detach(c, true, |stream|, Drained);
      }
    }

    method Drain()
      requires InOrder()
      modifies this`clients, this`byID
      modifies clients`present, clients`sendCloses, clients`connClosed, clients`leftAt, clients`fate
      ensures InOrder() && clients == {} && byID == map[]
      ensures forall c :: c in old(clients) ==> c.Closed(|stream|, Drained) && c.connClosed
    {
      assert forall c :: c in clients ==> ClientOk(c);
      CloseAll();
      AllDrainedOk(old(clients));
      assert byID == map[];
    }

    /** The quit case: every remaining client is removed and closed, its connection too. */
    method Shutdown()
      requires Valid()
      modifies this`clients, this`byID
      modifies clients`present, clients`sendCloses, clients`connClosed, clients`leftAt, clients`fate
      ensures Valid() && clients == {} && byID == map[]
      ensures forall c :: c in old(clients) ==> c.Closed(|stream|, Drained) && c.connClosed
    {
      Drain();
    }

    twostate lemma AllDrainedOk(members: set<Client>)
      requires old(InOrder()) && members == old(clients) && clients == {}
      requires unchanged(this`stream, this`everyone, this`kicks)
      requires forall c :: c in everyone && c !in members ==> unchanged(c)
      requires forall c :: c in members ==>
        c.Closed(|stream|, Drained) && unchanged(c`send, c`enqueued, c`taken, c`written, c`pumping, c`joinedAt)
      ensures forall c :: c in everyone ==> ClientOk(c)
    {
      forall c | c in everyone
        ensures ClientOk(c)
      {
        assert old(ClientOk(c));
        if c in members {
          DepartedOk(c, |stream|, Drained);
        }
      }
    }

    // ---- What every reachable board guarantees ----

    /** Kick, never skip: whatever reached a client's socket, its reliable broker messages
        are a prefix of the board's own sequence from the moment it joined, and while it
        is a member nothing it is owed is missing from its queue history. */
    lemma NeverSkips(c: Client)
      requires Valid() && c in everyone
      ensures var end := if c.present then |stream| else c.leftAt;
        && c.joinedAt <= end <= |stream|
        && ReliableOf(c.enqueued) == NonCursor(stream[c.joinedAt..end])
        && ReliableOf(c.written) <= NonCursor(stream[c.joinedAt..end])
    {
      assert ClientOk(c);
      assert c.written <= c.enqueued;
      ReliablePrefix(c.enqueued, |c.written|);
      assert c.enqueued[..|c.written|] == c.written;
    }

    ghost function Those(why: Fate): set<Client>
      reads this`everyone, everyone
    {
      set c | c in everyone && c.fate == why
    }

    /** Conservation, over the whole life of a board: everyone who joined is a member, was
        kicked, unregistered or was drained; and the messages counted as delivered are
        all those ever put in a queue, each once. */
    lemma Census()
      requires Valid()
      ensures |joined| == |clients| + kicked + |Those(Left)| + |Those(Drained)|
      ensures delivered == TotalEnqueued(joined)
    {
      forall c
        ensures c in everyone <==> c in clients || c in kicks || c in Those(Left) || c in Those(Drained)
        ensures c in clients ==> c !in kicks && c !in Those(Left) && c !in Those(Drained)
        ensures c in kicks ==> c !in Those(Left) && c !in Those(Drained)
      {
        if c in everyone {
          assert ClientOk(c);
        }
      }
      FourParts(everyone, clients, kicks, Those(Left), Those(Drained));
      DistinctSize(joined, everyone);
    }

    /** A turn of a client's write pump is none of the board's business. */
    method Pump(c: Client, writes: bool)
      requires Valid() && c in everyone && c.pumping
      modifies c`send, c`taken, c`written, c`pumping
      ensures Valid()
      ensures c.written == old(c.written) + (if old(c.send) != [] && writes then [old(c.send)[0]] else [])
      ensures c.pumping == (if old(c.send) == [] then c.sendCloses == 0 else writes)
    {
      assert ClientOk(c);
      c.PumpOnce(writes);
      OthersOk(c);
    }
  }

  // ---- Counting clients and messages ----

  ghost predicate Distinct(cs: seq<Client>) {
    forall i, j :: 0 <= i < j < |cs| ==> cs[i] != cs[j]
  }

  ghost function TotalEnqueued(cs: seq<Client>): nat
    reads cs`enqueued
  {
    if cs == [] then 0 else TotalEnqueued(cs[..|cs| - 1]) + |cs[|cs| - 1].enqueued|
  }

  lemma TotalJoin(cs: seq<Client>, c: Client)
    ensures TotalEnqueued(cs + [c]) == TotalEnqueued(cs) + |c.enqueued|
  {
    assert (cs + [c])[..|cs|] == cs;
  }

  twostate lemma {:induction false} TotalGains(cs: seq<Client>, new got: set<Client>)
    requires Distinct(cs) && forall c :: c in got ==> c in cs
    requires forall c :: c in cs ==> |c.enqueued| == old(|c.enqueued|) + (if c in got then 1 else 0)
    ensures TotalEnqueued(cs) == old(TotalEnqueued(cs)) + |got|
  {
    if cs == [] {
      assert got == {};
    } else {
      var last := cs[|cs| - 1];
      TotalGains(cs[..|cs| - 1], got - {last});
    }
  }

  lemma TwoParts(all: set<Client>, a: set<Client>, b: set<Client>)
    requires forall x :: x in b ==> x in all
    requires forall x :: x in a <==> x in all && x !in b
    ensures |all| == |a| + |b|
  {
    assert all == a + b;
  }

  lemma FourParts(all: set<Client>, a: set<Client>, b: set<Client>, c: set<Client>, d: set<Client>)
    requires forall x :: x in all <==> x in a || x in b || x in c || x in d
    requires a !! b && (a + b) !! c && (a + b + c) !! d
    ensures |all| == |a| + |b| + |c| + |d|
  {
    assert all == a + b + c + d;
  }

  lemma {:induction false} DistinctSize(cs: seq<Client>, all: set<Client>)
    requires Distinct(cs) && forall c :: c in all <==> c in cs
    ensures |all| == |cs|
  {
    if cs == [] {
      assert all == {};
    } else {
      DistinctSize(cs[..|cs| - 1], all - {cs[|cs| - 1]});
    }
  }

  lemma NonCursorOne(m: Msg)
    ensures NonCursor([m]) == if m.Reliable? then [m] else []
  {
    assert [m][..0] == [];
  }

  /** What clients are owed is picked message by message, in order. */
  lemma {:induction false} NonCursorConcat(xs: seq<Msg>, ys: seq<Msg>)
    ensures NonCursor(xs + ys) == NonCursor(xs) + NonCursor(ys)
    decreases |ys|
  {
    if ys == [] {
      assert xs + ys == xs;
    } else {
      NonCursorConcat(xs, ys[..|ys| - 1]);
      assert (xs + ys)[..|xs + ys| - 1] == xs + ys[..|ys| - 1];
    }
  }

  lemma {:induction false} ReliableConcat(xs: seq<Item>, ys: seq<Item>)
    ensures ReliableOf(xs + ys) == ReliableOf(xs) + ReliableOf(ys)
    decreases |ys|
  {
    if ys == [] {
      assert xs + ys == xs;
    } else {
      ReliableConcat(xs, ys[..|ys| - 1]);
      assert (xs + ys)[..|xs + ys| - 1] == xs + ys[..|ys| - 1];
    }
  }

  lemma {:induction false} ReliablePrefix(items: seq<Item>, n: nat)
    requires n <= |items|
    ensures ReliableOf(items[..n]) <= ReliableOf(items)
  {
    if n == |items| {
      assert items[..n] == items;
    } else {
      ReliablePrefix(items[..|items| - 1], n);
      assert items[..|items| - 1][..n] == items[..n];
    }
  }
}
