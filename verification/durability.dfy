/** Broker, store and every snapshot in flight between them, each against the log of the
    operations it stands for (internal/hub/persistence.go, internal/hub/board.go). This
    holds in every reachable state, whatever is saved and restarted when. */
module Durability {
  import opened Protocol
  import opened Sequencer
  import opened SnapshotList
  import opened MemoryBroker
  import opened SnapshotStore
  import opened System
  import opened Registry

  /** The broker's state is the replay of its history. */
  ghost predicate BrokerOk(s: State) {
    forall id :: Get(s.broker, id) == Replay(Hist(s, id))
  }

  /** The stored snapshot is that of the durable log; a board never saved has none. */
  ghost predicate StoredOk(s: State, id: BoardId) {
    if id in s.store then IsSnapshot(s.store[id], Replay(DurableLog(s, id))) else DurableLog(s, id) == []
  }

  ghost predicate StoreOk(s: State) {
    forall id :: StoredOk(s, id)
  }

  ghost predicate SaversOk(s: State) {
    forall p :: p in s.savers ==> IsSnapshot(p.snap, Replay(p.log))
  }

  /** What a board's goroutine carries between two calls. */
  ghost predicate PhaseOk(p: Phase) {
    && (p.Saving? ==> IsSnapshot(p.snap, Replay(p.log)))
    && (p.Hydrating? && p.found.Some? ==> IsSnapshot(p.found.value, Replay(p.log)))
    && (p.Hydrating? && p.found.None? ==> p.log == [])
  }

  ghost predicate PhasesOk(s: State) {
    forall r :: 0 <= r < |s.boards| ==> PhaseOk(s.boards[r].phase)
  }

  /** At most one hydration has brought any operations since the last restart, and the
      broker's history begins with them. */
  ghost predicate LoadsOk(s: State) {
    forall id ::
      && Loads(s, id) <= 1 && (Loads(s, id) == 0 <==> LoadedLog(s, id) == [])
      && LoadedLog(s, id) <= Hist(s, id)
  }

  ghost predicate DataInv(s: State) {
    BrokerOk(s) && StoreOk(s) && SaversOk(s) && PhasesOk(s) && LoadsOk(s)
  }

  // ---- Numbers ----

  lemma SnapshotNumber(snap: Snapshot, log: seq<Op>)
    requires IsSnapshot(snap, Replay(log))
    ensures snap.sn == |log|
  {
    ReplaySeq(log);
  }

  /** The durable number is the length of the durable log. */
  lemma StoredNumber(s: State, id: BoardId)
    requires StoredOk(s, id)
    ensures StoredSn(s.store, id) == |DurableLog(s, id)|
  {
    if id in s.store {
      SnapshotNumber(s.store[id], DurableLog(s, id));
    }
  }

  lemma BrokerNumber(s: State, id: BoardId)
    requires BrokerOk(s)
    ensures Get(s.broker, id).sn == |Hist(s, id)|
    ensures HasState(Get(s.broker, id)) <==> Hist(s, id) != []
  {
    ReplaySeq(Hist(s, id));
  }

  /** A reply of the broker is the snapshot of its whole history. */
  lemma ReplyIsSnapshot(s: State, id: BoardId, snap: Snapshot)
    requires BrokerOk(s) && Replies(s.broker, ReadSnapshot(id), Contents(snap))
    ensures IsSnapshot(snap, Replay(Hist(s, id))) && snap.sn == |Hist(s, id)|
  {
    ReplayWellFormed(Hist(s, id));
    ArrangedIsSnapshot(snap.shapes, Get(s.broker, id));
    SnapshotNumber(snap, Hist(s, id));
  }

  // ---- Steps that leave the data alone ----

  ghost predicate SameData(s: State, t: State) {
    && t.broker == s.broker && t.hist == s.hist && t.store == s.store && t.durable == s.durable
    && t.loaded == s.loaded && t.loads == s.loads
  }

  lemma SameDataKeeps(s: State, t: State)
    requires DataInv(s) && SameData(s, t) && SaversOk(t) && PhasesOk(t)
    ensures DataInv(t)
  {
    forall id
      ensures Hist(t, id) == Hist(s, id) && DurableLog(t, id) == DurableLog(s, id)
      ensures LoadedLog(t, id) == LoadedLog(s, id) && Loads(t, id) == Loads(s, id)
      ensures StoredOk(t, id)
    {
      assert StoredOk(s, id);
    }
  }

  ghost predicate SamePhases(s: State, t: State) {
    && |t.boards| >= |s.boards|
    && (forall r :: 0 <= r < |s.boards| ==> t.boards[r].phase == s.boards[r].phase)
    && (forall r :: |s.boards| <= r < |t.boards| ==> t.boards[r].phase.Loading?)
  }

  lemma OtherStepSameData(s: State, c: Sid, step: SessionStep)
    requires CanSession(s, c, step) && !step.ApplyOp?
    ensures SameData(s, DoSession(s, c, step)) && SamePhases(s, DoSession(s, c, step))
    ensures DoSession(s, c, step).savers == s.savers
  {
  }

  lemma HubStepSameData(s: State, h: HubId, step: HubStep)
    requires CanHub(s, h, step)
    ensures SameData(s, DoHub(s, h, step)) && SamePhases(s, DoHub(s, h, step))
    ensures DoHub(s, h, step).savers == s.savers
  {
  }

  // ---- Sequencing an operation ----

  lemma AssignHist(s: State, c: Sid)
    requires CanSession(s, c, ApplyOp)
    ensures var t := DoSession(s, c, ApplyOp);
      var x := s.sessions[c];
      && Hist(t, x.id) == Hist(s, x.id) + [x.pc.op]
      && Get(t.broker, x.id) == Apply(Get(s.broker, x.id), x.pc.op)
      && t.sessions[c].lastSn == Get(s.broker, x.id).sn + 1
      && (forall id :: id != x.id ==> Hist(t, id) == Hist(s, id) && Get(t.broker, id) == Get(s.broker, id))
  {
  }

  lemma AssignSameStore(s: State, c: Sid)
    requires CanSession(s, c, ApplyOp)
    ensures var t := DoSession(s, c, ApplyOp);
      && t.store == s.store && t.durable == s.durable && t.loaded == s.loaded && t.loads == s.loads
      && t.savers == s.savers && SamePhases(s, t)
  {
  }

  /** The operation is appended to the history, and numbered by its place there. */
  lemma AssignData(s: State, c: Sid)
    requires BrokerOk(s) && CanSession(s, c, ApplyOp)
    ensures var t := DoSession(s, c, ApplyOp);
      var x := s.sessions[c];
      && Hist(t, x.id) == Hist(s, x.id) + [x.pc.op]
      && (forall id :: id != x.id ==> Hist(t, id) == Hist(s, id))
      && t.sessions[c].lastSn == |Hist(t, x.id)|
    ensures BrokerOk(DoSession(s, c, ApplyOp))
  {
    var x := s.sessions[c];
    AssignHist(s, c);
    ReplayExtend(Hist(s, x.id), x.pc.op);
    BrokerNumber(s, x.id);
  }

  lemma AssignKeepsData(s: State, c: Sid)
    requires DataInv(s) && CanSession(s, c, ApplyOp)
    ensures DataInv(DoSession(s, c, ApplyOp))
  {
    var t := DoSession(s, c, ApplyOp);
    AssignData(s, c);
    AssignSameStore(s, c);
    forall id
      ensures DurableLog(t, id) == DurableLog(s, id) && StoredOk(t, id)
      ensures LoadedLog(t, id) == LoadedLog(s, id) && Loads(t, id) == Loads(s, id) && LoadedLog(t, id) <= Hist(t, id)
    {
      assert StoredOk(s, id);
    }
  }

  // ---- Hydration ----

  lemma HydrateRefused(s: State, r: Ref)
    requires CanBoard(s, r, HydrateFound) && !LoadsNow(s, s.boards[r], HydrateFound)
    ensures var t := DoBoard(s, r, HydrateFound);
      t.hist == s.hist && t.broker == s.broker && t.loaded == s.loaded && t.loads == s.loads
  {
  }

  lemma HydrateLoads(s: State, r: Ref)
    requires CanBoard(s, r, HydrateFound) && LoadsNow(s, s.boards[r], HydrateFound)
    ensures var t := DoBoard(s, r, HydrateFound);
      var id := s.boards[r].id;
      var snap := s.boards[r].phase.found.value;
      && Hist(t, id) == s.boards[r].phase.log && Get(t.broker, id) == Board(snap.sn, Load(snap.shapes))
      && (forall other :: other != id ==>
            Hist(t, other) == Hist(s, other) && Get(t.broker, other) == Get(s.broker, other))
  {
  }

  /** A hydration never discards an operation: it loads into an empty broker or not at all. */
  lemma HydrateHist(s: State, r: Ref)
    requires BrokerOk(s) && PhasesOk(s) && CanBoard(s, r, HydrateFound)
    ensures var t := DoBoard(s, r, HydrateFound);
      var id := s.boards[r].id;
      && Hist(t, id) == (if Hist(s, id) == [] then s.boards[r].phase.log else Hist(s, id))
      && Get(t.broker, id) == Replay(Hist(t, id))
      && (forall other :: other != id ==>
            Hist(t, other) == Hist(s, other) && Get(t.broker, other) == Get(s.broker, other))
  {
    var b := s.boards[r];
    assert PhaseOk(b.phase);
    BrokerNumber(s, b.id);
    if LoadsNow(s, b, HydrateFound) {
      HydrateLoads(s, r);
      SnapshotNumber(b.phase.found.value, b.phase.log);
      LoadSnapshotRoundTrip(b.phase.found.value, Replay(b.phase.log));
    } else {
      HydrateRefused(s, r);
    }
  }

  lemma HydrateKeepsLoads(s: State, r: Ref)
    requires DataInv(s) && CanBoard(s, r, HydrateFound)
    ensures LoadsOk(DoBoard(s, r, HydrateFound))
  {
    var t := DoBoard(s, r, HydrateFound);
    HydrateHist(s, r);
    BrokerNumber(s, s.boards[r].id);
    forall id
      ensures Loads(t, id) <= 1 && (Loads(t, id) == 0 <==> LoadedLog(t, id) == []) && LoadedLog(t, id) <= Hist(t, id)
    {
      assert LoadedLog(s, id) <= Hist(s, id);
    }
  }

  lemma HydrateSameStore(s: State, r: Ref)
    requires CanBoard(s, r, HydrateFound)
    ensures var t := DoBoard(s, r, HydrateFound);
      && t.store == s.store && t.durable == s.durable && t.savers == s.savers && |t.boards| == |s.boards|
      && t.boards[r].phase == Running && (forall q :: 0 <= q < |s.boards| && q != r ==> t.boards[q] == s.boards[q])
  {
  }

  lemma HydrateKeepsData(s: State, r: Ref)
    requires DataInv(s) && CanBoard(s, r, HydrateFound)
    ensures DataInv(DoBoard(s, r, HydrateFound))
  {
    var t := DoBoard(s, r, HydrateFound);
    HydrateHist(s, r);
    HydrateKeepsLoads(s, r);
    HydrateSameStore(s, r);
    forall id
      ensures StoredOk(t, id)
    {
      assert StoredOk(s, id);
    }
  }

  // ---- Saves ----

  lemma SaveKeepsStore(s: State, t: State, id: BoardId, snap: Snapshot, log: seq<Op>)
    requires StoreOk(s) && IsSnapshot(snap, Replay(log))
    requires t.store == Save(s.store, id, snap) && t.durable == DurableAfterSave(s, id, snap, log)
    ensures StoreOk(t)
    ensures DurableLog(t, id) == if |log| < |DurableLog(s, id)| then DurableLog(s, id) else log
    ensures forall other :: other != id ==> DurableLog(t, other) == DurableLog(s, other)
  {
    assert StoredOk(s, id);
    StoredNumber(s, id);
    SnapshotNumber(snap, log);
    forall other
      ensures StoredOk(t, other)
    {
      assert StoredOk(s, other);
    }
  }

  lemma SaveKeepsData(s: State, t: State, id: BoardId, snap: Snapshot, log: seq<Op>)
    requires DataInv(s) && IsSnapshot(snap, Replay(log)) && SaversOk(t) && PhasesOk(t)
    requires t.store == Save(s.store, id, snap) && t.durable == DurableAfterSave(s, id, snap, log)
    requires t.broker == s.broker && t.hist == s.hist && t.loaded == s.loaded && t.loads == s.loads
    ensures DataInv(t)
  {
    SaveKeepsStore(s, t, id, snap, log);
    forall i
      ensures Hist(t, i) == Hist(s, i) && LoadedLog(t, i) == LoadedLog(s, i) && Loads(t, i) == Loads(s, i)
    {
    }
  }

  // ---- Every step ----

  lemma LoadedPhaseOk(s: State, id: BoardId)
    requires StoreOk(s)
    ensures PhaseOk(Hydrating(Find(s.store, id), DurableLog(s, id)))
  {
    assert StoredOk(s, id);
  }

  lemma BoardPhasesOk(s: State, r: Ref, step: BoardStep)
    requires DataInv(s) && CanBoard(s, r, step)
    ensures PhasesOk(DoBoard(s, r, step))
  {
    LoadedPhaseOk(s, s.boards[r].id);
    if step.ReadFinal? {
      ReplyIsSnapshot(s, s.boards[r].id, step.snap);
    }
  }

  lemma PlainBoardSameData(s: State, r: Ref, step: BoardStep)
    requires CanBoard(s, r, step) && !step.HydrateFound? && !step.WriteFinal?
    ensures SameData(s, DoBoard(s, r, step)) && DoBoard(s, r, step).savers == s.savers
  {
  }

  lemma BoardStepsKeepData(s: State, r: Ref, step: BoardStep)
    requires DataInv(s) && CanBoard(s, r, step)
    ensures DataInv(DoBoard(s, r, step))
  {
    var t := DoBoard(s, r, step);
    BoardPhasesOk(s, r, step);
    if step.HydrateFound? {
      HydrateKeepsData(s, r);
    } else if step.WriteFinal? {
      assert PhaseOk(s.boards[r].phase);
      SaveKeepsData(s, t, s.boards[r].id, s.boards[r].phase.snap, s.boards[r].phase.log);
    } else {
      PlainBoardSameData(s, r, step);
      SameDataKeeps(s, t);
    }
  }

  lemma SessionStepsKeepData(s: State, c: Sid, step: SessionStep)
    requires DataInv(s) && CanSession(s, c, step)
    ensures DataInv(DoSession(s, c, step))
  {
    if step.ApplyOp? {
      AssignKeepsData(s, c);
    } else {
      OtherStepSameData(s, c, step);
      SameDataKeeps(s, DoSession(s, c, step));
    }
  }

  lemma PeriodicKeepsData(s: State, a: Step)
    requires DataInv(s) && Can(s, a) && (a.ReadPeriodic? || a.WritePeriodic?)
    ensures DataInv(Do(s, a))
  {
    if a.ReadPeriodic? {
      ReplyIsSnapshot(s, a.id, a.snap);
      SameDataKeeps(s, Do(s, a));
    } else {
      SaveKeepsData(s, Do(s, a), a.p.id, a.p.snap, a.p.log);
    }
  }

  /** After a restart the broker is empty; the store and the saves in flight are as before. */
  lemma RestartKeepsData(s: State)
    requires DataInv(s)
    ensures DataInv(RestartBroker(s))
  {
    var t := RestartBroker(s);
    forall id
      ensures Hist(t, id) == [] && LoadedLog(t, id) == [] && Loads(t, id) == 0
      ensures Get(t.broker, id) == Replay([])
      ensures StoredOk(t, id)
    {
      assert StoredOk(s, id);
    }
  }

  lemma DataKept(s: State, a: Step)
    requires DataInv(s) && Can(s, a)
    ensures DataInv(Do(s, a))
  {
    match a
    case BySession(c, step) => SessionStepsKeepData(s, c, step);
    case ByBoard(r, step) => BoardStepsKeepData(s, r, step);
    case ByHub(h, step) =>
      HubStepSameData(s, h, step);
      SameDataKeeps(s, Do(s, a));
    case Restart => RestartKeepsData(s);
    case _ => PeriodicKeepsData(s, a);
  }

  // ---- A broker's history only grows, until it restarts ----

  lemma SessionStepGrowsHist(s: State, c: Sid, step: SessionStep, id: BoardId)
    requires CanSession(s, c, step)
    ensures Hist(s, id) <= Hist(DoSession(s, c, step), id)
  {
    if step.ApplyOp? {
      AssignHist(s, c);
    } else {
      OtherStepSameData(s, c, step);
    }
  }

  lemma BoardStepGrowsHist(s: State, r: Ref, step: BoardStep, id: BoardId)
    requires BrokerOk(s) && PhasesOk(s) && CanBoard(s, r, step)
    ensures Hist(s, id) <= Hist(DoBoard(s, r, step), id)
  {
    if step.HydrateFound? {
      HydrateHist(s, r);
    } else if !step.WriteFinal? {
      PlainBoardSameData(s, r, step);
    }
  }

  lemma StepGrowsHist(s: State, a: Step, id: BoardId)
    requires BrokerOk(s) && PhasesOk(s) && Can(s, a) && !a.Restart?
    ensures Hist(s, id) <= Hist(Do(s, a), id)
  {
    match a
    case BySession(c, step) => SessionStepGrowsHist(s, c, step, id);
    case ByBoard(r, step) => BoardStepGrowsHist(s, r, step, id);
    case ByHub(h, step) => HubStepSameData(s, h, step);
    case _ =>
  }
}
