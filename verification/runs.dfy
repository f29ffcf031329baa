/** What holds in every reachable state and along every run of the whole system. */
module Runs {
  import opened Protocol
  import opened Sequencer
  import opened MemoryBroker
  import opened SnapshotStore
  import opened System
  import opened Registry
  import opened Counting
  import opened Lifecycle
  import opened Channels
  import opened Accounting
  import opened Durability
  import opened Checkpointing

  ghost predicate Inv(s: State) {
    RegistryInv(s) && ChannelInv(s) && AccountInv(s) && DataInv(s) && CoverInv(s)
  }

  lemma InitialInv()
    ensures Inv(INITIAL)
  {
    assert forall id :: StoredOk(INITIAL, id);
  }

  lemma StepKeepsInv(s: State, a: Step)
    requires Inv(s) && Can(s, a)
    ensures Inv(Do(s, a))
  {
    RegistryKept(s, a);
    ChannelsKept(s, a);
    AccountsKept(s, a);
    DataKept(s, a);
    CoverKept(s, a);
  }

  lemma {:induction false} RunKeepsInv(s: State, run: seq<Step>, t: State)
    requires Inv(s) && Reaches(s, run, t)
    ensures Inv(t)
    decreases |run|
  {
    if run != [] {
      StepKeepsInv(s, run[0]);
      RunKeepsInv(Do(s, run[0]), run[1..], t);
    }
  }

  lemma ReachableInv(s: State)
    requires Reachable(s)
    ensures Inv(s)
  {
    InitialInv();
    var run :| Reaches(INITIAL, run, s);
    RunKeepsInv(INITIAL, run, s);
  }

  // ---- Lifecycle ----

  /** The keep-open count of a registered board is exactly the number of its admitted,
      unreleased sessions, at least one; and while a hub is open the board of every such
      session is the registered one and has not been asked to stop, so no registration
      ever targets a stopping board. */
  lemma KeepOpenIsExact(s: State)
    requires Reachable(s)
    ensures forall k :: k in s.reg ==>
      s.reg[k].count == Count(s.sessions, HoldersOf(s.reg[k].board)) >= 1
    ensures forall c :: 0 <= c < |s.sessions| && Holding(s.sessions[c].pc) && s.sessions[c].hub !in s.shut ==>
      var key := (s.sessions[c].hub, s.sessions[c].id);
      && key in s.reg && s.reg[key].board == s.sessions[c].board < |s.boards|
      && s.boards[s.sessions[c].board].quitRequests == 0
      && !AfterQuit(s.boards[s.sessions[c].board].phase)
  {
    ReachableInv(s);
  }

  /** In an open hub a release always finds its own board registered; in a closing hub
      it never finds the id at all. Either way `e.board != b` cannot happen. */
  lemma ReleaseFindsOwnBoard(s: State, c: Sid)
    requires Reachable(s) && CanSession(s, c, ReleaseEntry)
    ensures var key := (s.sessions[c].hub, s.sessions[c].id);
      && (key in s.reg <==> s.sessions[c].hub !in s.shut)
      && (key in s.reg ==> s.reg[key].board == s.sessions[c].board)
  {
    ReachableInv(s);
  }

  /** The gauge is started minus finished boards, so never negative, and each hub's wait
      group counts its unreturned sessions. */
  lemma GaugesAreExact(s: State, h: HubId)
    requires Reachable(s)
    ensures s.gauge == OpenBoards(s.boards) >= 0
    ensures Inflight(s, h) == Count(s.sessions, ActiveIn(h))
  {
    ReachableInv(s);
  }

  // ---- Channels ----

  /** No send channel is closed twice, none is closed while its client is in the fan-out
      set, and a board's quit is requested at most once, by exactly one of its last
      release and its hub's shutdown. */
  lemma ChannelSafety(s: State, c: Sid)
    requires Reachable(s) && c < |s.sessions|
    ensures var x := s.sessions[c];
      && x.board < |s.boards|
      && (x.present <==> c in s.boards[x.board].clients)
      && (x.present <==> !x.pc.Admitted? && x.sendCloses == 0)
      && x.sendCloses <= 1
      && (x.sendCloses == 1 ==> x.connClosed)
      && s.boards[x.board].quitRequests <= 1
      && (s.boards[x.board].quitRequests == 1 ==> s.boards[x.board].lastLeft != ToldByShutdown(s, x.board))
  {
    ReachableInv(s);
    assert PresentOn(s, c, s.sessions[c].board) <==> s.sessions[c].present;
  }

  /** When a board is done its fan-out set is empty, and every client that ever
      registered with it has had its queue closed once and its connection closed. */
  lemma DoneBoardsAreDrained(s: State, r: Ref, c: Sid)
    requires Reachable(s) && r < |s.boards| && s.boards[r].phase.Done?
    ensures c !in s.boards[r].clients
    ensures c < |s.sessions| && s.sessions[c].board == r && !s.sessions[c].pc.Admitted? ==>
              s.sessions[c].sendCloses == 1 && s.sessions[c].connClosed
  {
    ReachableInv(s);
    assert c in s.boards[r].clients <==> PresentOn(s, c, r);
  }

  // ---- Roster ----

  /** The roster is exact across hubs, and empty once every session has returned. */
  lemma RosterIsExact(s: State, id: BoardId)
    requires Reachable(s)
    ensures forall c: Sid :: c in Roster(s, id) <==> OnRoster(s, c, id)
    ensures (forall c :: 0 <= c < |s.sessions| ==> s.sessions[c].pc.Returned?) ==> Roster(s, id) == {}
  {
    ReachableInv(s);
    if forall c :: 0 <= c < |s.sessions| ==> s.sessions[c].pc.Returned? {
      assert forall c: Sid :: !OnRoster(s, c, id);
    }
  }

  // ---- Hydration ----

  /** No hydration, early or late, discards an operation: a broker that holds any is left
      alone, an empty one gets exactly the snapshot's. */
  lemma HydrationKeepsOperations(s: State, r: Ref)
    requires Reachable(s) && CanBoard(s, r, HydrateFound)
    ensures var id := s.boards[r].id;
      var t := DoBoard(s, r, HydrateFound);
      && Hist(s, id) <= Hist(t, id) && Get(t.broker, id) == Replay(Hist(t, id))
      && (Hist(s, id) != [] ==> Hist(t, id) == Hist(s, id) && Loads(t, id) == Loads(s, id))
      && (Hist(s, id) == [] ==> Hist(t, id) == s.boards[r].phase.log)
      && Loads(t, id) <= 1
  {
    ReachableInv(s);
    HydrateHist(s, r);
    HydrateKeepsLoads(s, r);
    BrokerNumber(s, s.boards[r].id);
  }

  // ---- Last leave ----

  /** When a board that its last client left is done, the store covers every sequence
      number ever assigned to any of its sessions. */
  lemma LastLeaveCheckpoint(s: State, c: Sid)
    requires Reachable(s) && c < |s.sessions|
    ensures s.sessions[c].board < |s.boards|
    ensures s.boards[s.sessions[c].board].lastLeft && s.boards[s.sessions[c].board].phase.Done? ==>
              s.sessions[c].lastSn <= StoredSn(s.store, s.sessions[c].id)
  {
    ReachableInv(s);
    assert Covered(s, s.sessions[c], s.boards[s.sessions[c].board]);
  }

  // ---- Shutdown ----

  ghost predicate ReturnedNil(s: State, h: HubId) {
    h in s.shut && s.shut[h].verdict.Drained?
  }

  lemma HubStepKeepsVerdict(s: State, g: HubId, step: HubStep, h: HubId)
    requires CanHub(s, g, step) && h in s.shut && ShutdownOk(s, h) && s.shut[h].verdict.Drained?
    ensures h in DoHub(s, g, step).shut && DoHub(s, g, step).shut[h] == s.shut[h]
  {
  }

  lemma StepKeepsReturnedNil(s: State, a: Step, h: HubId)
    requires Inv(s) && Can(s, a) && ReturnedNil(s, h)
    ensures ReturnedNil(Do(s, a), h) && Do(s, a).shut[h] == s.shut[h]
  {
    assert ShutdownOk(s, h);
    match a
    case ByHub(g, step) => HubStepKeepsVerdict(s, g, step, h);
    case _ =>
  }

  lemma {:induction false} RunKeepsReturnedNil(s: State, run: seq<Step>, t: State, h: HubId)
    requires Inv(s) && Reaches(s, run, t) && ReturnedNil(s, h)
    ensures ReturnedNil(t, h) && t.shut[h] == s.shut[h]
    decreases |run|
  {
    if run != [] {
      StepKeepsReturnedNil(s, run[0], h);
      StepKeepsInv(s, run[0]);
      RunKeepsReturnedNil(Do(s, run[0]), run[1..], t, h);
    }
  }

  /** Main result: once a shutdown returns nil, then in that state and ever after its hub
      admits nobody, has no registered board and no session in flight, and every board it
      captured is done, empty, with the connection of every one of its clients closed. */
  lemma ShutdownIsSound(s: State, run: seq<Step>, t: State, h: HubId)
    requires Reachable(s) && ReturnedNil(s, h) && Reaches(s, run, t)
    ensures forall id :: !Can(t, ByHub(h, AdmitSession(id))) && (h, id) !in t.reg
    ensures forall c :: 0 <= c < |t.sessions| && t.sessions[c].hub == h ==>
              t.sessions[c].pc.Returned? && t.sessions[c].connClosed
    ensures forall i :: 0 <= i < |s.shut[h].captured| ==>
      var r := s.shut[h].captured[i];
      r < |t.boards| && t.boards[r].phase.Done? && t.boards[r].clients == {}
  {
    ReachableInv(s);
    RunKeepsReturnedNil(s, run, t, h);
    RunKeepsInv(s, run, t);
    ReturnedNilIsGone(t, h);
  }

  lemma ReturnedNilIsGone(t: State, h: HubId)
    requires Inv(t) && ReturnedNil(t, h)
    ensures forall id :: !Can(t, ByHub(h, AdmitSession(id))) && (h, id) !in t.reg
    ensures forall c :: 0 <= c < |t.sessions| && t.sessions[c].hub == h ==>
              t.sessions[c].pc.Returned? && t.sessions[c].connClosed
    ensures forall i :: 0 <= i < |t.shut[h].captured| ==>
      var r := t.shut[h].captured[i];
      r < |t.boards| && t.boards[r].phase.Done? && t.boards[r].clients == {}
  {
    assert ShutdownOk(t, h);
    DrainedSessions(t, h);
    DrainedBoards(t, h);
  }

  lemma DrainedBoards(t: State, h: HubId)
    requires ChannelInv(t) && ReturnedNil(t, h) && ShutdownOk(t, h)
    ensures forall i :: 0 <= i < |t.shut[h].captured| ==>
      var r := t.shut[h].captured[i];
      r < |t.boards| && t.boards[r].phase.Done? && t.boards[r].clients == {}
  {
    forall i | 0 <= i < |t.shut[h].captured|
      ensures t.boards[t.shut[h].captured[i]].clients == {}
    {
      var r := t.shut[h].captured[i];
      forall c: Sid
        ensures c !in t.boards[r].clients
      {
        assert c in t.boards[r].clients <==> PresentOn(t, c, r);
      }
    }
  }

  lemma DrainedSessions(t: State, h: HubId)
    requires AccountInv(t) && ChannelInv(t) && ReturnedNil(t, h)
    ensures forall c :: 0 <= c < |t.sessions| && t.sessions[c].hub == h ==>
              t.sessions[c].pc.Returned? && t.sessions[c].connClosed
  {
    assert Inflight(t, h) == Count(t.sessions, ActiveIn(h));
    forall c | 0 <= c < |t.sessions| && t.sessions[c].hub == h
      ensures t.sessions[c].pc.Returned?
    {
      if !t.sessions[c].pc.Returned? {
        CountCovers(t.sessions, c, ActiveIn(h));
      }
    }
  }
}
