/** How the durable log and the broker's history stay in step as long as no save that was
    overtaken by a restart lands where it does harm. */
module Alignment {
  import opened Protocol
  import opened Sequencer
  import opened MemoryBroker
  import opened SnapshotStore
  import opened System
  import opened Registry
  import opened Lifecycle
  import opened Durability

  /** The broker's history extends everything durable. */
  ghost predicate Ready(s: State, id: BoardId) {
    DurableLog(s, id) <= Hist(s, id)
  }

  /** Someone can still join the board's incarnation `r`: it is registered, or a session is
      about to join. */
  ghost predicate Open(s: State, r: Ref) {
    || (exists k :: k in s.reg && s.reg[k].board == r)
    || (exists c :: 0 <= c < |s.sessions| && s.sessions[c].board == r && s.sessions[c].pc.Admitted?)
  }

  /** The session can still have an operation sequenced. */
  predicate MayDraw(x: Session) {
    || x.pc.Applying?
    || (!x.connClosed
        && (x.pc.Registered? || x.pc.Announced? || HandsOver(x.pc) || x.pc.OnboardingRoster? || x.pc.Reading?
            || x.pc.Publishing?))
  }

  ghost predicate BoardInStep(s: State, r: Ref)
    requires r < |s.boards|
  {
    var id := s.boards[r].id;
    var p := s.boards[r].phase;
    && (p.Running? && Open(s, r) ==> Ready(s, id))
    && (p.Hydrating? && Hist(s, id) == [] ==> p.log == DurableLog(s, id) || (p.log == [] && !Open(s, r)))
    && (p.Saving? ==> p.log <= Hist(s, id))
  }

  ghost predicate BoardsInStep(s: State) {
    forall r :: 0 <= r < |s.boards| ==> BoardInStep(s, r)
  }

  ghost predicate SessionsInStep(s: State) {
    forall c :: 0 <= c < |s.sessions| && MayDraw(s.sessions[c]) ==> Ready(s, s.sessions[c].id)
  }

  /** A broker with state is ready, and so is one that any session can draw on, now or
      after joining a running board; a hydration about to load an empty broker holds
      exactly what is durable, or is for a board that nobody can join. */
  ghost predicate InStep(s: State) {
    && (forall id :: Hist(s, id) == [] || Ready(s, id))
    && BoardsInStep(s) && SessionsInStep(s)
  }

  /** Nothing was sequenced or loaded since the last restart, and nothing can be by a
      session or a board that has already asked the store. */
  ghost predicate Unopened(s: State, id: BoardId) {
    && Hist(s, id) == []
    && (forall r :: 0 <= r < |s.boards| && s.boards[r].id == id ==>
          && (s.boards[r].phase.Running? ==> !Open(s, r))
          && (s.boards[r].phase.Hydrating? ==> s.boards[r].phase.log == [] && !Open(s, r)))
    && (forall c :: 0 <= c < |s.sessions| && s.sessions[c].id == id ==> !MayDraw(s.sessions[c]))
  }

  /** A save that does no harm when it lands: the store holds a higher number, or this very
      snapshot; or it is a point of the broker's present history; or it extends what is
      durable and nobody can draw on the board before it is loaded again. */
  ghost predicate Harmless(s: State, p: InHand) {
    || |p.log| < |DurableLog(s, p.id)| || p.log == DurableLog(s, p.id)
    || p.log <= Hist(s, p.id)
    || (DurableLog(s, p.id) <= p.log && Unopened(s, p.id))
  }

  // ---- What keeps everything in step ----

  /** Nobody gained a way to draw on a board that was there before. */
  ghost predicate NoNewcomers(s: State, t: State) {
    && |t.sessions| >= |s.sessions| && |t.boards| >= |s.boards|
    && (forall c :: 0 <= c < |s.sessions| ==>
          t.sessions[c].id == s.sessions[c].id && (MayDraw(t.sessions[c]) ==> MayDraw(s.sessions[c])))
    && (forall c :: |s.sessions| <= c < |t.sessions| ==> !MayDraw(t.sessions[c]))
    && (forall r :: 0 <= r < |s.boards| ==> t.boards[r].id == s.boards[r].id && (Open(t, r) ==> Open(s, r)))
  }

  /** The broker's history grew, and what is durable at most followed it. */
  ghost predicate LogMoves(s: State, t: State, id: BoardId) {
    && Hist(s, id) <= Hist(t, id)
    && (Ready(s, id) ==> Ready(t, id)) && (Hist(t, id) == [] || Ready(t, id))
    && (Hist(t, id) == [] ==> DurableLog(t, id) == DurableLog(s, id))
  }

  ghost predicate LogsMove(s: State, t: State) {
    forall id :: LogMoves(s, t, id)
  }

  /** A board is where it was, is new, or is in step by itself. */
  ghost predicate BoardsMove(s: State, t: State) {
    && (forall r :: 0 <= r < |s.boards| && r < |t.boards| ==>
          t.boards[r].phase == s.boards[r].phase || BoardInStep(t, r))
    && (forall r :: |s.boards| <= r < |t.boards| ==> t.boards[r].phase.Loading?)
  }

  lemma BoardMoveKeeps(s: State, t: State, r: Ref)
    requires BoardsInStep(s) && NoNewcomers(s, t) && BoardsMove(s, t) && r < |t.boards|
    requires LogMoves(s, t, t.boards[r].id)
    ensures BoardInStep(t, r)
  {
    if r < |s.boards| {
      assert BoardInStep(s, r);
    }
  }

  lemma MoveKeeps(s: State, t: State)
    requires InStep(s) && NoNewcomers(s, t) && LogsMove(s, t) && BoardsMove(s, t)
    ensures InStep(t)
  {
    forall id
      ensures (Ready(s, id) ==> Ready(t, id)) && (Hist(t, id) == [] || Ready(t, id))
    {
      assert LogMoves(s, t, id);
    }
    forall r | 0 <= r < |t.boards|
      ensures BoardInStep(t, r)
    {
      assert LogMoves(s, t, t.boards[r].id);
      BoardMoveKeeps(s, t, r);
    }
  }

  lemma SameLogsMove(s: State, t: State)
    requires InStep(s) && t.hist == s.hist && t.durable == s.durable
    ensures LogsMove(s, t)
  {
    forall id
      ensures LogMoves(s, t, id)
    {
      assert Hist(s, id) == [] || Ready(s, id);
    }
  }

  // ---- Sessions ----

  lemma SessionNewcomers(s: State, c: Sid, step: SessionStep)
    requires CanSession(s, c, step) && !step.Register?
    ensures NoNewcomers(s, DoSession(s, c, step))
  {
  }

  lemma RegisterKeeps(s: State, c: Sid)
    requires InStep(s) && Linked(s) && CanSession(s, c, Register)
    ensures InStep(DoSession(s, c, Register))
  {
    var t := DoSession(s, c, Register);
    assert BoardInStep(s, s.sessions[c].board) && Open(s, s.sessions[c].board);
    forall id
      ensures Hist(t, id) == Hist(s, id) && DurableLog(t, id) == DurableLog(s, id)
      ensures Hist(t, id) == [] || Ready(t, id)
    {
      assert Hist(s, id) == [] || Ready(s, id);
    }
    forall r | 0 <= r < |t.boards|
      ensures BoardInStep(t, r)
    {
      assert BoardInStep(s, r) && (Open(t, r) ==> Open(s, r));
    }
  }

  lemma ApplyMoves(s: State, c: Sid)
    requires InStep(s) && BrokerOk(s) && CanSession(s, c, ApplyOp)
    ensures LogsMove(s, DoSession(s, c, ApplyOp))
  {
    AssignData(s, c);
    AssignSameStore(s, c);
    forall id
      ensures LogMoves(s, DoSession(s, c, ApplyOp), id)
    {
      assert Ready(s, s.sessions[c].id) && (Hist(s, id) == [] || Ready(s, id));
    }
  }

  lemma SessionSameDurable(s: State, c: Sid, step: SessionStep)
    requires CanSession(s, c, step)
    ensures DoSession(s, c, step).durable == s.durable && BoardsMove(s, DoSession(s, c, step))
  {
  }

  lemma SessionStepsKeepStep(s: State, c: Sid, step: SessionStep)
    requires InStep(s) && BrokerOk(s) && Linked(s) && CanSession(s, c, step)
    ensures InStep(DoSession(s, c, step))
  {
    if step.Register? {
      RegisterKeeps(s, c);
    } else {
      SessionNewcomers(s, c, step);
      SessionSameDurable(s, c, step);
      if step.ApplyOp? {
        ApplyMoves(s, c);
      } else {
        OtherStepSameData(s, c, step);
        SameLogsMove(s, DoSession(s, c, step));
      }
      MoveKeeps(s, DoSession(s, c, step));
    }
  }

  // ---- Hubs ----

  lemma HubNewcomers(s: State, h: HubId, step: HubStep)
    requires CanHub(s, h, step)
    ensures NoNewcomers(s, DoHub(s, h, step)) && BoardsMove(s, DoHub(s, h, step))
  {
  }

  lemma HubStepsKeepStep(s: State, h: HubId, step: HubStep)
    requires InStep(s) && CanHub(s, h, step)
    ensures InStep(DoHub(s, h, step))
  {
    HubNewcomers(s, h, step);
    HubStepSameData(s, h, step);
    SameLogsMove(s, DoHub(s, h, step));
    MoveKeeps(s, DoHub(s, h, step));
  }

  // ---- Boards ----

  lemma BoardNewcomers(s: State, r: Ref, step: BoardStep)
    requires CanBoard(s, r, step)
    ensures NoNewcomers(s, DoBoard(s, r, step))
  {
  }

  lemma HydrateMoves(s: State, r: Ref)
    requires InStep(s) && BrokerOk(s) && PhasesOk(s) && CanBoard(s, r, HydrateFound)
    ensures LogsMove(s, DoBoard(s, r, HydrateFound))
  {
    HydrateHist(s, r);
    HydrateSameStore(s, r);
    assert BoardInStep(s, r);
    forall id
      ensures LogMoves(s, DoBoard(s, r, HydrateFound), id)
    {
      assert Hist(s, id) == [] || Ready(s, id);
    }
  }

  lemma HydrateKeeps(s: State, r: Ref)
    requires InStep(s) && BrokerOk(s) && PhasesOk(s) && CanBoard(s, r, HydrateFound)
    ensures InStep(DoBoard(s, r, HydrateFound))
  {
    var t := DoBoard(s, r, HydrateFound);
    HydrateMoves(s, r);
    HydrateHist(s, r);
    HydrateSameStore(s, r);
    BoardNewcomers(s, r, HydrateFound);
    assert BoardInStep(s, r) && LogMoves(s, t, s.boards[r].id);
    MoveKeeps(s, t);
  }

  lemma PlainBoardStepKeeps(s: State, r: Ref, step: BoardStep)
    requires InStep(s) && CanBoard(s, r, step) && !step.HydrateFound? && !step.WriteFinal?
    ensures InStep(DoBoard(s, r, step))
  {
    var t := DoBoard(s, r, step);
    PlainBoardSameData(s, r, step);
    SameLogsMove(s, t);
    BoardNewcomers(s, r, step);
    assert BoardInStep(s, r) && LogMoves(s, t, s.boards[r].id);
    MoveKeeps(s, t);
  }

  // ---- Saves ----

  /** What is durable advanced within the broker's history. */
  ghost predicate Advances(s: State, t: State, id: BoardId) {
    && t.hist == s.hist && DurableLog(s, id) <= DurableLog(t, id)
    && (DurableLog(t, id) == DurableLog(s, id) || Ready(t, id))
    && (forall other :: other != id ==> DurableLog(t, other) == DurableLog(s, other))
  }

  lemma AdvanceMoves(s: State, t: State, id: BoardId)
    requires InStep(s) && Advances(s, t, id)
    ensures LogsMove(s, t)
  {
    forall i
      ensures LogMoves(s, t, i)
    {
      assert Hist(s, i) == [] || Ready(s, i);
    }
  }

  lemma Comparable(a: seq<Op>, b: seq<Op>, c: seq<Op>)
    requires a <= c && b <= c && |a| <= |b|
    ensures a <= b
  {
  }

  /** A save of the present history, or one the store refuses or already holds. */
  lemma SaveAdvances(s: State, t: State, id: BoardId, snap: Snapshot, log: seq<Op>)
    requires StoreOk(s) && IsSnapshot(snap, Replay(log)) && (Hist(s, id) == [] || Ready(s, id))
    requires |log| < |DurableLog(s, id)| || log == DurableLog(s, id) || log <= Hist(s, id)
    requires t.hist == s.hist
    requires t.store == Save(s.store, id, snap) && t.durable == DurableAfterSave(s, id, snap, log)
    ensures Advances(s, t, id)
  {
    SaveKeepsStore(s, t, id, snap, log);
    if log <= Hist(s, id) && |log| >= |DurableLog(s, id)| && Ready(s, id) {
      Comparable(DurableLog(s, id), log, Hist(s, id));
    }
  }

  lemma WriteFinalAdvances(s: State, r: Ref)
    requires InStep(s) && StoreOk(s) && PhasesOk(s) && CanBoard(s, r, WriteFinal)
    ensures Advances(s, DoBoard(s, r, WriteFinal), s.boards[r].id)
  {
    var b := s.boards[r];
    assert PhaseOk(b.phase) && BoardInStep(s, r);
    SaveAdvances(s, DoBoard(s, r, WriteFinal), b.id, b.phase.snap, b.phase.log);
  }

  lemma WriteFinalKeeps(s: State, r: Ref)
    requires InStep(s) && StoreOk(s) && PhasesOk(s) && CanBoard(s, r, WriteFinal)
    ensures InStep(DoBoard(s, r, WriteFinal))
  {
    var t := DoBoard(s, r, WriteFinal);
    WriteFinalAdvances(s, r);
    AdvanceMoves(s, t, s.boards[r].id);
    BoardNewcomers(s, r, WriteFinal);
    MoveKeeps(s, t);
  }

  lemma BoardStepsKeepStep(s: State, r: Ref, step: BoardStep)
    requires InStep(s) && DataInv(s) && CanBoard(s, r, step)
    ensures InStep(DoBoard(s, r, step))
  {
    if step.HydrateFound? {
      HydrateKeeps(s, r);
    } else if step.WriteFinal? {
      WriteFinalKeeps(s, r);
    } else {
      PlainBoardStepKeeps(s, r, step);
    }
  }

  lemma CurrentSaveAdvances(s: State, p: InHand)
    requires InStep(s) && StoreOk(s) && IsSnapshot(p.snap, Replay(p.log))
    requires |p.log| < |DurableLog(s, p.id)| || p.log == DurableLog(s, p.id) || p.log <= Hist(s, p.id)
    ensures Advances(s, LandSave(s, p), p.id)
  {
    assert Hist(s, p.id) == [] || Ready(s, p.id);
    SaveAdvances(s, LandSave(s, p), p.id, p.snap, p.log);
  }

  /** An overtaken save landing before anyone can draw without loading it. */
  lemma EarlySaveKeeps(s: State, p: InHand)
    requires InStep(s) && StoreOk(s) && IsSnapshot(p.snap, Replay(p.log))
    requires DurableLog(s, p.id) <= p.log && Unopened(s, p.id)
    ensures InStep(LandSave(s, p)) && DurableLog(LandSave(s, p), p.id) == p.log
  {
    var t := LandSave(s, p);
    SaveKeepsStore(s, t, p.id, p.snap, p.log);
    forall id
      ensures Hist(t, id) == Hist(s, id)
      ensures id != p.id && Ready(s, id) ==> Ready(t, id)
    {
    }
    forall q | 0 <= q < |t.boards|
      ensures BoardInStep(t, q)
    {
      assert BoardInStep(s, q) && (Open(t, q) ==> Open(s, q));
    }
  }

  lemma HarmlessSaveKeeps(s: State, p: InHand)
    requires InStep(s) && StoreOk(s) && SaversOk(s) && p in s.savers && Harmless(s, p)
    ensures InStep(LandSave(s, p))
  {
    if DurableLog(s, p.id) <= p.log && Unopened(s, p.id) {
      EarlySaveKeeps(s, p);
    } else {
      CurrentSaveAdvances(s, p);
      AdvanceMoves(s, LandSave(s, p), p.id);
      MoveKeeps(s, LandSave(s, p));
    }
  }

  // ---- Every step ----

  /** Every step except a harmful landing. */
  ghost predicate Sound(s: State, a: Step) {
    a.WritePeriodic? ==> Harmless(s, a.p)
  }

  lemma RestartInStep(s: State)
    requires Idle(s)
    ensures InStep(RestartBroker(s))
  {
  }

  lemma ReadKeepsStep(s: State, a: Step)
    requires InStep(s) && a.ReadPeriodic? && Can(s, a)
    ensures InStep(Do(s, a))
  {
    SameLogsMove(s, Do(s, a));
    MoveKeeps(s, Do(s, a));
  }

  lemma StepKept(s: State, a: Step)
    requires InStep(s) && DataInv(s) && Linked(s) && Can(s, a) && Sound(s, a)
    ensures InStep(Do(s, a))
  {
    match a
    case BySession(c, step) => SessionStepsKeepStep(s, c, step);
    case ByBoard(r, step) => BoardStepsKeepStep(s, r, step);
    case ByHub(h, step) => HubStepsKeepStep(s, h, step);
    case ReadPeriodic(_, _) => ReadKeepsStep(s, a);
    case WritePeriodic(p) => HarmlessSaveKeeps(s, p);
    case Restart => RestartInStep(s);
  }

  // ---- What is durable only grows ----

  /** In step, no step that is sound takes anything away from the durable logs. */
  lemma StepGrows(s: State, a: Step, id: BoardId)
    requires InStep(s) && DataInv(s) && Can(s, a) && Sound(s, a)
    ensures DurableLog(s, id) <= DurableLog(Do(s, a), id)
  {
    match a
    case BySession(c, step) => SessionSameDurable(s, c, step);
    case ByBoard(r, step) => BoardStepGrows(s, r, step, id);
    case ByHub(h, step) => HubStepSameData(s, h, step);
    case WritePeriodic(p) => SaveGrows(s, p, id);
    case _ =>
  }

  lemma BoardStepGrows(s: State, r: Ref, step: BoardStep, id: BoardId)
    requires InStep(s) && DataInv(s) && CanBoard(s, r, step)
    ensures DurableLog(s, id) <= DurableLog(DoBoard(s, r, step), id)
  {
    if step.HydrateFound? {
      HydrateSameStore(s, r);
    } else if step.WriteFinal? {
      WriteFinalAdvances(s, r);
    } else {
      PlainBoardSameData(s, r, step);
    }
  }

  lemma SaveGrows(s: State, p: InHand, id: BoardId)
    requires InStep(s) && StoreOk(s) && SaversOk(s) && p in s.savers && Harmless(s, p)
    ensures DurableLog(s, id) <= DurableLog(LandSave(s, p), id)
  {
    if DurableLog(s, p.id) <= p.log && Unopened(s, p.id) {
      SaveKeepsStore(s, LandSave(s, p), p.id, p.snap, p.log);
    } else {
      CurrentSaveAdvances(s, p);
    }
  }
}
