/** What the final snapshot of a stopping board covers, decided at the moment it is read
    (internal/hub/board.go, internal/hub/client.go). */
module FinalCheckpoint {
  import opened Protocol
  import opened MemoryBroker
  import opened SnapshotStore
  import opened System
  import opened Registry
  import opened Lifecycle
  import opened Durability
  import opened Checkpointing
  import opened Alignment
  import opened Runs
  import opened SoundRuns
  import opened Drain

  /** A session of `r` is inside `applyShapeOp`, before the broker call. */
  predicate ApplyingOn(s: State, r: Ref, c: Sid) {
    c < |s.sessions| && s.sessions[c].board == r && s.sessions[c].pc.Applying?
  }

  /** The store covers every number assigned to any session of `r`. */
  ghost predicate AllStored(s: State, r: Ref) {
    forall c :: 0 <= c < |s.sessions| && s.sessions[c].board == r ==>
      s.sessions[c].lastSn <= StoredSn(s.store, s.sessions[c].id)
  }

  /** A snapshot numbered `n` or more is on its way to the store or has arrived there. */
  ghost predicate Committed(s: State, r: Ref, n: nat) {
    && r < |s.boards|
    && match s.boards[r].phase
       case Saving(snap, _) => n <= snap.sn
       case Stopped => n <= StoredSn(s.store, s.boards[r].id)
       case Done => n <= StoredSn(s.store, s.boards[r].id)
       case _ => false
  }

  /** No session of `r` was ever assigned more than `n`, nor is about to be. */
  ghost predicate Bounded(s: State, r: Ref, n: nat) {
    forall c :: 0 <= c < |s.sessions| && s.sessions[c].board == r ==>
      s.sessions[c].lastSn <= n && !s.sessions[c].pc.Applying?
  }

  lemma SessionStepCommitted(s: State, d: Sid, step: SessionStep, r: Ref, n: nat)
    requires Committed(s, r, n) && CanSession(s, d, step)
    ensures Committed(DoSession(s, d, step), r, n)
  {
  }

  lemma BoardStepCommitted(s: State, q: Ref, step: BoardStep, r: Ref, n: nat)
    requires Committed(s, r, n) && CanBoard(s, q, step)
    ensures Committed(DoBoard(s, q, step), r, n)
  {
  }

  lemma HubStepCommitted(s: State, h: HubId, step: HubStep, r: Ref, n: nat)
    requires Counted(s) && Committed(s, r, n) && CanHub(s, h, step)
    ensures Committed(DoHub(s, h, step), r, n)
  {
    if step.AdmitSession? {
      AdmitKeepsOldBoards(s, h, step.id);
    }
  }

  lemma SaveCommitted(s: State, p: InHand, r: Ref, n: nat)
    requires Committed(s, r, n)
    ensures Committed(LandSave(s, p), r, n)
  {
  }

  lemma StepKeepsCommitted(s: State, a: Step, r: Ref, n: nat)
    requires Counted(s) && Committed(s, r, n) && Can(s, a)
    ensures Committed(Do(s, a), r, n)
  {
    match a
    case BySession(d, step) => SessionStepCommitted(s, d, step, r, n);
    case ByBoard(q, step) => BoardStepCommitted(s, q, step, r, n);
    case ByHub(h, step) => HubStepCommitted(s, h, step, r, n);
    case WritePeriodic(p) => SaveCommitted(s, p, r, n);
    case _ =>
  }

  lemma SessionStepBounded(s: State, d: Sid, step: SessionStep, r: Ref, n: nat)
    requires Bounded(s, r, n) && CanSession(s, d, step)
    requires s.sessions[d].board == r ==> !step.ReadOp?
    ensures Bounded(DoSession(s, d, step), r, n)
  {
  }

  lemma BoardStepBounded(s: State, q: Ref, step: BoardStep, r: Ref, n: nat)
    requires Bounded(s, r, n) && CanBoard(s, q, step)
    ensures Bounded(DoBoard(s, q, step), r, n)
  {
  }

  lemma HubStepBounded(s: State, h: HubId, step: HubStep, r: Ref, n: nat)
    requires Bounded(s, r, n) && CanHub(s, h, step)
    ensures Bounded(DoHub(s, h, step), r, n)
  {
  }

  lemma StepKeepsBounded(s: State, a: Step, r: Ref, n: nat)
    requires Bounded(s, r, n) && Can(s, a) && !ReadsFrame(s, a, r)
    ensures Bounded(Do(s, a), r, n)
  {
    match a
    case BySession(d, step) => SessionStepBounded(s, d, step, r, n);
    case ByBoard(q, step) => BoardStepBounded(s, q, step, r, n);
    case ByHub(h, step) => HubStepBounded(s, h, step, r, n);
    case _ =>
  }

  /** After the final read only a session caught inside `applyShapeOp` could be assigned
      another number: the drain has closed every connection. */
  lemma {:induction false} CommitIsFinal(s: State, run: seq<Step>, t: State, r: Ref, n: nat)
    requires Inv(s) && Committed(s, r, n) && Bounded(s, r, n) && Reaches(s, run, t)
    ensures Committed(t, r, n) && Bounded(t, r, n)
    decreases |run|
  {
    if run != [] {
      StepKeepsCommitted(s, run[0], r, n);
      NoFramesAfterQuit(s, run[0], r);
      StepKeepsBounded(s, run[0], r, n);
      StepKeepsInv(s, run[0]);
      CommitIsFinal(Do(s, run[0]), run[1..], t, r, n);
    }
  }

  /** The final read itself: it sees every number assigned so far. */
  lemma FinalReadSeesAll(s: State, r: Ref, snap: Snapshot)
    requires Linked(s) && BrokerOk(s) && CoverInv(s) && CanBoard(s, r, ReadFinal(snap))
    ensures snap.sn == |Hist(s, s.boards[r].id)|
    ensures forall c :: 0 <= c < |s.sessions| && s.sessions[c].board == r ==>
              s.sessions[c].id == s.boards[r].id && s.sessions[c].lastSn <= snap.sn
  {
    ReplyIsSnapshot(s, s.boards[r].id, snap);
    forall c | 0 <= c < |s.sessions| && s.sessions[c].board == r
      ensures s.sessions[c].lastSn <= |Hist(s, s.boards[r].id)|
    {
      assert Covered(s, s.sessions[c], s.boards[r]);
    }
  }

  lemma QuietReadCovers(s: State, r: Ref, snap: Snapshot, run: seq<Step>, t: State)
    requires Reachable(s) && CanBoard(s, r, ReadFinal(snap)) && forall c :: !ApplyingOn(s, r, c)
    requires Reaches(DoBoard(s, r, ReadFinal(snap)), run, t) && r < |t.boards| && t.boards[r].phase.Done?
    ensures AllStored(t, r)
  {
    ReachableInv(s);
    var u := DoBoard(s, r, ReadFinal(snap));
    FinalReadSeesAll(s, r, snap);
    StepKeepsInv(s, ByBoard(r, ReadFinal(snap)));
    ReadIsBounded(s, r, snap);
    CommitIsFinal(u, run, t, r, snap.sn);
    RunKeepsInv(u, run, t);
  }

  lemma ReadIsBounded(s: State, r: Ref, snap: Snapshot)
    requires CanBoard(s, r, ReadFinal(snap)) && forall c :: !ApplyingOn(s, r, c)
    requires forall c :: 0 <= c < |s.sessions| && s.sessions[c].board == r ==> s.sessions[c].lastSn <= snap.sn
    ensures Bounded(DoBoard(s, r, ReadFinal(snap)), r, snap.sn)
    ensures Committed(DoBoard(s, r, ReadFinal(snap)), r, snap.sn)
  {
    forall c | 0 <= c < |s.sessions| && s.sessions[c].board == r
      ensures !s.sessions[c].pc.Applying?
    {
      assert !ApplyingOn(s, r, c);
    }
  }

  /** The run in which the operation arrives after the read. */
  lemma LateOperationMissed(s: State, r: Ref, snap: Snapshot, c: Sid) returns (run: seq<Step>, t: State)
    requires SoundlyReachable(s) && CanBoard(s, r, ReadFinal(snap)) && ApplyingOn(s, r, c)
    ensures Reaches(DoBoard(s, r, ReadFinal(snap)), run, t)
    ensures r < |t.boards| && t.boards[r].phase.Done? && !AllStored(t, r)
  {
    SoundlyReachableGood(s);
    FinalReadSeesAll(s, r, snap);
    StoredWithinHistory(s, r, c);
    BrokerNumber(s, s.sessions[c].id);
    run, t := LateRun(s, r, snap, c);
  }

  lemma LateRun(s: State, r: Ref, snap: Snapshot, c: Sid) returns (run: seq<Step>, t: State)
    requires CanBoard(s, r, ReadFinal(snap)) && ApplyingOn(s, r, c) && s.sessions[c].id == s.boards[r].id
    requires StoredSn(s.store, s.boards[r].id) <= snap.sn == Get(s.broker, s.boards[r].id).sn
    ensures Reaches(DoBoard(s, r, ReadFinal(snap)), run, t)
    ensures r < |t.boards| && t.boards[r].phase.Done? && !AllStored(t, r)
  {
    var u0 := DoBoard(s, r, ReadFinal(snap));
    LateApply(s, r, snap, c);
    var u1 := DoSession(u0, c, ApplyOp);
    LateSave(u1, r, snap, c);
    var u2 := DoBoard(u1, r, WriteFinal);
    t := DoBoard(u2, r, CloseDone);
    run := [BySession(c, ApplyOp), ByBoard(r, WriteFinal), ByBoard(r, CloseDone)];
    ThreeSteps(u0, run, u1, u2, t);
  }

  lemma LateApply(s: State, r: Ref, snap: Snapshot, c: Sid)
    requires CanBoard(s, r, ReadFinal(snap)) && ApplyingOn(s, r, c) && snap.sn == Get(s.broker, s.sessions[c].id).sn
    ensures var u := DoBoard(s, r, ReadFinal(snap));
      CanSession(u, c, ApplyOp)
    ensures var v := DoSession(DoBoard(s, r, ReadFinal(snap)), c, ApplyOp);
      && r < |v.boards| && v.boards[r].phase.Saving? && v.boards[r].phase.snap == snap
      && v.boards[r].id == s.boards[r].id && v.store == s.store
      && c < |v.sessions| && v.sessions[c].board == r && v.sessions[c].id == s.sessions[c].id
      && v.sessions[c].lastSn > snap.sn
  {
  }

  lemma LateSave(u: State, r: Ref, snap: Snapshot, c: Sid)
    requires r < |u.boards| && u.boards[r].phase.Saving? && u.boards[r].phase.snap == snap
    requires StoredSn(u.store, u.boards[r].id) <= snap.sn
    requires c < |u.sessions| && u.sessions[c].board == r && u.sessions[c].id == u.boards[r].id
    requires u.sessions[c].lastSn > snap.sn
    ensures var v := DoBoard(u, r, WriteFinal);
      var t := DoBoard(v, r, CloseDone);
      && CanBoard(u, r, WriteFinal) && CanBoard(v, r, CloseDone)
      && r < |t.boards| && t.boards[r].phase.Done? && !AllStored(t, r)
  {
    var v := DoBoard(u, r, WriteFinal);
    var t := DoBoard(v, r, CloseDone);
    assert StoredSn(t.store, u.boards[r].id) == snap.sn;
    assert t.sessions[c].lastSn > StoredSn(t.store, t.sessions[c].id);
  }

  /** A board on which an operation is being sequenced is loaded, so the store is not ahead. */
  lemma StoredWithinHistory(s: State, r: Ref, c: Sid)
    requires InStep(s) && StoreOk(s) && r < |s.boards| && ApplyingOn(s, r, c) && s.sessions[c].id == s.boards[r].id
    ensures StoredSn(s.store, s.boards[r].id) <= |Hist(s, s.boards[r].id)|
  {
    assert Ready(s, s.sessions[c].id);
    DurableState(s, s.boards[r].id);
  }

  lemma ThreeSteps(s: State, run: seq<Step>, u: State, v: State, t: State)
    requires |run| == 3 && Can(s, run[0]) && u == Do(s, run[0])
    requires Can(u, run[1]) && v == Do(u, run[1]) && Can(v, run[2]) && t == Do(v, run[2])
    ensures Reaches(s, run, t)
  {
    assert run[1..][0] == run[1] && run[1..][1..] == run[2..];
    assert run[2..][0] == run[2] && run[2..][1..] == [];
    assert Reaches(t, [], t);
    assert Reaches(v, run[2..], t);
    assert Reaches(u, run[1..], t);
  }

  /** However the system goes on from `u`, once the board is done everything is stored. */
  ghost predicate AlwaysStored(u: State, r: Ref) {
    forall run, t :: Finishes(u, run, t, r) ==> AllStored(t, r)
  }

  ghost predicate Finishes(u: State, run: seq<Step>, t: State, r: Ref) {
    Reaches(u, run, t) && r < |t.boards| && t.boards[r].phase.Done?
  }

  /** Main result: when a stopping board reads its final snapshot, every continuation that
      gets the board done leaves the store covering every number ever assigned to its
      sessions if and only if no session is inside `applyShapeOp` at that moment. */
  lemma FinalReadCoversIff(s: State, r: Ref, snap: Snapshot)
    requires SoundlyReachable(s) && CanBoard(s, r, ReadFinal(snap))
    ensures AlwaysStored(DoBoard(s, r, ReadFinal(snap)), r) <==> forall c :: !ApplyingOn(s, r, c)
  {
    SoundlyReachableGood(s);
    var u := DoBoard(s, r, ReadFinal(snap));
    if c :| ApplyingOn(s, r, c) {
      var run, t := LateOperationMissed(s, r, snap, c);
      assert Finishes(u, run, t, r) && !AllStored(t, r);
    } else {
      forall run, t | Finishes(u, run, t, r)
        ensures AllStored(t, r)
      {
        QuietReadCovers(s, r, snap, run, t);
      }
    }
  }
}
