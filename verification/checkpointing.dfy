/** The final save of a board whose last client left covers everything its sessions were
    ever told was sequenced. */
module Checkpointing {
  import opened Protocol
  import opened SnapshotStore
  import opened System
  import opened Registry
  import opened Counting
  import opened Lifecycle
  import opened Durability

  /** Up to the final read the broker covers a session's operations, then the snapshot in
      hand does, then the store; the last two only if the last release stopped the board. */
  ghost predicate Covered(s: State, x: Session, b: Actor) {
    && (!b.phase.Saving? && !b.phase.Stopped? && !b.phase.Done? ==> x.lastSn <= |Hist(s, x.id)|)
    && (b.lastLeft && b.phase.Saving? ==> x.lastSn <= b.phase.snap.sn)
    && (b.lastLeft && (b.phase.Stopped? || b.phase.Done?) ==> x.lastSn <= StoredSn(s.store, x.id))
  }

  ghost predicate CoverInv(s: State) {
    forall c :: 0 <= c < |s.sessions| ==>
      s.sessions[c].board < |s.boards| && Covered(s, s.sessions[c], s.boards[s.sessions[c].board])
  }

  /** Nothing a session relies on went away: sequenced and stored numbers only grow. */
  ghost predicate CoverStep(s: State, t: State) {
    && |t.sessions| >= |s.sessions| && |t.boards| >= |s.boards|
    && (forall c :: 0 <= c < |s.sessions| ==>
          && t.sessions[c].id == s.sessions[c].id && t.sessions[c].board == s.sessions[c].board
          && t.sessions[c].lastSn == s.sessions[c].lastSn)
    && (forall c :: |s.sessions| <= c < |t.sessions| ==> t.sessions[c].lastSn == 0 && t.sessions[c].board < |t.boards|)
    && (forall r :: 0 <= r < |s.boards| ==>
          && t.boards[r].phase == s.boards[r].phase
          && (t.boards[r].lastLeft ==> s.boards[r].lastLeft || !AfterQuit(s.boards[r].phase)))
    && (forall id :: |Hist(t, id)| >= |Hist(s, id)| && StoredSn(t.store, id) >= StoredSn(s.store, id))
  }

  lemma CoverStepKeeps(s: State, t: State)
    requires CoverInv(s) && CoverStep(s, t)
    ensures CoverInv(t)
  {
  }

  ghost predicate SameLog(s: State, t: State) {
    t.hist == s.hist && t.store == s.store
  }

  lemma SameLogNumbers(s: State, t: State)
    requires SameLog(s, t)
    ensures forall id :: |Hist(t, id)| == |Hist(s, id)| && StoredSn(t.store, id) == StoredSn(s.store, id)
  {
  }

  /** A board that its last client leaves has not taken its quit yet. */
  lemma OtherStepCover(s: State, c: Sid, step: SessionStep)
    requires Counted(s) && QuitOnce(s) && CanSession(s, c, step) && !step.ApplyOp?
    ensures CoverStep(s, DoSession(s, c, step))
  {
    SameLogNumbers(s, DoSession(s, c, step));
  }

  /** A session that still sequences operations holds its board open, so the board was
      not left by its last client. */
  lemma AssignKeepsCover(s: State, c: Sid)
    requires CoverInv(s) && BrokerOk(s) && QuitOnce(s) && CanSession(s, c, ApplyOp)
    ensures CoverInv(DoSession(s, c, ApplyOp))
  {
    var t := DoSession(s, c, ApplyOp);
    AssignData(s, c);
    CountCovers(s.sessions, c, HoldersOf(s.sessions[c].board));
    forall d | 0 <= d < |t.sessions|
      ensures Covered(t, t.sessions[d], t.boards[t.sessions[d].board])
    {
      assert Covered(s, s.sessions[d], s.boards[s.sessions[d].board]);
    }
  }

  lemma SessionStepsKeepCover(s: State, c: Sid, step: SessionStep)
    requires CoverInv(s) && DataInv(s) && RegistryInv(s) && CanSession(s, c, step)
    ensures CoverInv(DoSession(s, c, step))
  {
    if step.ApplyOp? {
      AssignKeepsCover(s, c);
    } else {
      OtherStepCover(s, c, step);
      CoverStepKeeps(s, DoSession(s, c, step));
    }
  }

  /** One board advanced and covers its sessions in the new phase. */
  ghost predicate CoverPhase(s: State, t: State, r: Ref)
    requires r < |s.boards|
  {
    && |t.sessions| == |s.sessions| && |t.boards| == |s.boards|
    && (forall c :: 0 <= c < |s.sessions| ==>
          && t.sessions[c].id == s.sessions[c].id && t.sessions[c].board == s.sessions[c].board
          && t.sessions[c].lastSn == s.sessions[c].lastSn)
    && (forall q :: 0 <= q < |s.boards| && q != r ==> t.boards[q] == s.boards[q])
    && (forall id :: |Hist(t, id)| >= |Hist(s, id)| && StoredSn(t.store, id) >= StoredSn(s.store, id))
    && (forall c :: 0 <= c < |s.sessions| && s.sessions[c].board == r && Covered(s, s.sessions[c], s.boards[r]) ==>
          Covered(t, t.sessions[c], t.boards[r]))
  }

  lemma CoverPhaseKeeps(s: State, t: State, r: Ref)
    requires CoverInv(s) && r < |s.boards| && CoverPhase(s, t, r)
    ensures CoverInv(t)
  {
    forall c | 0 <= c < |t.sessions|
      ensures t.sessions[c].board < |t.boards| && Covered(t, t.sessions[c], t.boards[t.sessions[c].board])
    {
      assert Covered(s, s.sessions[c], s.boards[s.sessions[c].board]);
    }
  }

  lemma SameLogCover(s: State, r: Ref, step: BoardStep)
    requires CanBoard(s, r, step) && !step.ReadFinal? && !step.WriteFinal? && !step.HydrateFound?
    ensures CoverPhase(s, DoBoard(s, r, step), r)
  {
    SameLogNumbers(s, DoBoard(s, r, step));
  }

  lemma HydrateCover(s: State, r: Ref)
    requires BrokerOk(s) && PhasesOk(s) && CanBoard(s, r, HydrateFound)
    ensures CoverPhase(s, DoBoard(s, r, HydrateFound), r)
  {
    HydrateHist(s, r);
    HydrateSameStore(s, r);
  }

  /** The final read sees the whole history. */
  lemma ReadFinalCover(s: State, r: Ref, snap: Snapshot)
    requires BrokerOk(s) && Linked(s) && CanBoard(s, r, ReadFinal(snap))
    ensures CoverPhase(s, DoBoard(s, r, ReadFinal(snap)), r)
  {
    SameLogNumbers(s, DoBoard(s, r, ReadFinal(snap)));
    ReplyIsSnapshot(s, s.boards[r].id, snap);
  }

  lemma WriteFinalCover(s: State, r: Ref)
    requires Linked(s) && CanBoard(s, r, WriteFinal)
    ensures CoverPhase(s, DoBoard(s, r, WriteFinal), r)
  {
    var t := DoBoard(s, r, WriteFinal);
    assert forall id :: Hist(t, id) == Hist(s, id);
  }

  lemma BoardStepsKeepCover(s: State, r: Ref, step: BoardStep)
    requires CoverInv(s) && DataInv(s) && Linked(s) && CanBoard(s, r, step)
    ensures CoverInv(DoBoard(s, r, step))
  {
    match step {
      case HydrateFound => HydrateCover(s, r);
      case ReadFinal(snap) => ReadFinalCover(s, r, snap);
      case WriteFinal => WriteFinalCover(s, r);
      case _ => SameLogCover(s, r, step);
    }
    CoverPhaseKeeps(s, DoBoard(s, r, step), r);
  }

  lemma AdmitCover(s: State, h: HubId, id: BoardId)
    requires Counted(s) && CanHub(s, h, AdmitSession(id))
    ensures CoverStep(s, AdmitOne(s, h, id))
  {
    AdmitKeepsOldBoards(s, h, id);
    SameLogNumbers(s, AdmitOne(s, h, id));
  }

  lemma ShutdownCover(s: State, h: HubId, step: HubStep)
    requires CanHub(s, h, step) && !step.AdmitSession?
    ensures CoverStep(s, DoHub(s, h, step))
  {
    SameLogNumbers(s, DoHub(s, h, step));
  }

  lemma RestartKeepsCover(s: State)
    requires CoverInv(s) && Idle(s)
    ensures CoverInv(RestartBroker(s))
  {
    var t := RestartBroker(s);
    forall c | 0 <= c < |t.sessions|
      ensures Covered(t, t.sessions[c], t.boards[t.sessions[c].board])
    {
      assert Covered(s, s.sessions[c], s.boards[s.sessions[c].board]);
    }
  }

  lemma PeriodicCover(s: State, a: Step)
    requires Can(s, a) && (a.ReadPeriodic? || a.WritePeriodic?)
    ensures CoverStep(s, Do(s, a))
  {
    assert forall id :: Hist(Do(s, a), id) == Hist(s, id);
  }

  lemma CoverKept(s: State, a: Step)
    requires CoverInv(s) && DataInv(s) && RegistryInv(s) && Can(s, a)
    ensures CoverInv(Do(s, a))
  {
    match a
    case BySession(c, step) => SessionStepsKeepCover(s, c, step);
    case ByBoard(r, step) => BoardStepsKeepCover(s, r, step);
    case ByHub(h, step) =>
      if step.AdmitSession? {
        AdmitCover(s, h, step.id);
      } else {
        ShutdownCover(s, h, step);
      }
      CoverStepKeeps(s, Do(s, a));
    case Restart => RestartKeepsCover(s);
    case _ =>
      PeriodicCover(s, a);
      CoverStepKeeps(s, Do(s, a));
  }
}
