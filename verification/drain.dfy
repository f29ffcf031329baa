/** Teardown makes progress: a stopping board drains in finitely many of its own steps,
    and one of them is enabled until everything that registered with it is gone. */
module Drain {
  import opened Protocol
  import opened Sequencer
  import opened SnapshotList
  import opened MemoryBroker
  import opened System
  import opened Registry
  import opened Counting
  import opened Lifecycle
  import opened Channels
  import opened Runs

  /** How many own steps a session still has ahead of it, at most. */
  function Rank(pc: Pc): nat {
    match pc
    case Admitted => 12
    case Registered => 11
    case Announced => 10
    case HoldingSnapshot(_) => 9
    case OnboardingRoster => 8
    case HoldingRoster(_) => 7
    case Applying(_) => 8
    case Publishing => 7
    case Reading => 6
    case Stopping => 5
    case Leaving => 4
    case Releasing => 3
    case ClosingQuit => 2
    case Unregistering => 2
    case Finishing => 1
    case Returned => 0
  }

  function PhaseRank(p: Phase): nat {
    match p
    case Loading => 6
    case Hydrating(_, _) => 5
    case Running => 4
    case Checkpoint => 3
    case Saving(_, _) => 2
    case Stopped => 1
    case Done => 0
  }

  function RankOn(x: Session, r: Ref): nat { if x.board == r then Rank(x.pc) else 0 }

  function TotalRank(ss: seq<Session>, r: Ref): nat {
    if ss == [] then 0 else TotalRank(ss[..|ss| - 1], r) + RankOn(ss[|ss| - 1], r)
  }

  function Measure(s: State, r: Ref): nat
    requires r < |s.boards|
  {
    TotalRank(s.sessions, r) + PhaseRank(s.boards[r].phase)
  }

  lemma TotalRankAppend(ss: seq<Session>, x: Session, r: Ref)
    ensures TotalRank(ss + [x], r) == TotalRank(ss, r) + RankOn(x, r)
  {
    assert (ss + [x])[..|ss|] == ss;
  }

  lemma {:induction false} TotalRankUpdate(ss: seq<Session>, c: nat, x: Session, r: Ref)
    requires c < |ss|
    ensures TotalRank(ss[c := x], r) == TotalRank(ss, r) - RankOn(ss[c], r) + RankOn(x, r)
  {
    var n := |ss| - 1;
    if c == n {
      assert ss[c := x][..n] == ss[..n];
    } else {
      TotalRankUpdate(ss[..n], c, x, r);
      assert ss[c := x][..n] == ss[..n][c := x];
    }
  }

  lemma {:induction false} TotalRankPointwise(ss: seq<Session>, ts: seq<Session>, r: Ref)
    requires |ss| == |ts|
    requires forall c :: 0 <= c < |ss| ==> RankOn(ss[c], r) == RankOn(ts[c], r)
    ensures TotalRank(ss, r) == TotalRank(ts, r)
  {
    if ss != [] {
      TotalRankPointwise(ss[..|ss| - 1], ts[..|ts| - 1], r);
    }
  }

  /** Steps taken by the board's goroutine or by one of its sessions. */
  predicate OwnStep(s: State, a: Step, r: Ref) {
    match a
    case BySession(c, _) => c < |s.sessions| && s.sessions[c].board == r
    case ByBoard(q, _) => q == r
    case _ => false
  }

  /** Steps that only the outside world can bring about: a frame from the browser, a
      message from the broker that finds a full queue, a lost connection or request. */
  predicate External(s: State, a: Step) {
    match a
    case BySession(c, step) =>
      step.ReadOp? || step == GiveUp(true) || (step.StopReading? && c < |s.sessions| && !s.sessions[c].connClosed)
    case ByBoard(_, step) => step.Kick?
    case _ => false
  }

  predicate Internal(s: State, a: Step, r: Ref) {
    OwnStep(s, a, r) && !External(s, a)
  }

  ghost predicate StopRequested(s: State, r: Ref) {
    r < |s.boards| && s.boards[r].quitRequests >= 1
  }

  // ---- Own steps use up the measure ----

  ghost predicate SessionAdvances(s: State, t: State, c: Sid)
    requires c < |s.sessions|
  {
    && |t.boards| == |s.boards| && |t.sessions| == |s.sessions|
    && t.sessions == s.sessions[c := t.sessions[c]]
    && t.sessions[c].board == s.sessions[c].board
    && (forall q :: 0 <= q < |s.boards| ==> t.boards[q].phase == s.boards[q].phase)
    && Rank(t.sessions[c].pc) < Rank(s.sessions[c].pc)
  }

  lemma SessionStepAdvances(s: State, c: Sid, step: SessionStep)
    requires CanSession(s, c, step) && !step.ReadOp?
    ensures SessionAdvances(s, DoSession(s, c, step), c)
  {
  }

  lemma SessionStepMeasure(s: State, c: Sid, step: SessionStep, r: Ref)
    requires CanSession(s, c, step) && !step.ReadOp? && r < |s.boards|
    ensures r < |DoSession(s, c, step).boards|
    ensures s.sessions[c].board == r ==> Measure(DoSession(s, c, step), r) < Measure(s, r)
    ensures s.sessions[c].board != r ==> Measure(DoSession(s, c, step), r) == Measure(s, r)
  {
    var t := DoSession(s, c, step);
    SessionStepAdvances(s, c, step);
    TotalRankUpdate(s.sessions, c, t.sessions[c], r);
  }

  /** A frame from the browser costs two steps, but only to its own board. */
  lemma ReadOpMeasure(s: State, c: Sid, op: Op, r: Ref)
    requires CanSession(s, c, ReadOp(op)) && r < |s.boards| && s.sessions[c].board != r
    ensures Measure(DoSession(s, c, ReadOp(op)), r) == Measure(s, r)
  {
    TotalRankUpdate(s.sessions, c, s.sessions[c].(pc := Applying(op)), r);
  }

  ghost predicate PhaseAdvances(s: State, t: State, q: Ref, step: BoardStep)
    requires q < |s.boards|
  {
    && q < |t.boards|
    && (step.Kick? ==> t.boards[q].phase == s.boards[q].phase)
    && (!step.Kick? ==> PhaseRank(t.boards[q].phase) < PhaseRank(s.boards[q].phase))
  }

  lemma BoardPhaseRank(s: State, q: Ref, step: BoardStep)
    requires CanBoard(s, q, step)
    ensures PhaseAdvances(s, DoBoard(s, q, step), q, step)
  {
  }

  lemma BoardStepMeasure(s: State, q: Ref, step: BoardStep, r: Ref)
    requires CanBoard(s, q, step) && r < |s.boards|
    ensures r < |DoBoard(s, q, step).boards|
    ensures q == r && !step.Kick? ==> Measure(DoBoard(s, q, step), r) < Measure(s, r)
    ensures q != r || step.Kick? ==> Measure(DoBoard(s, q, step), r) == Measure(s, r)
  {
    var t := DoBoard(s, q, step);
    BoardStepShape(s, q, step);
    BoardPhaseRank(s, q, step);
    TotalRankPointwise(s.sessions, t.sessions, r);
  }

  /** A board that was asked to stop is out of the registry, so nobody new is admitted
      to it. */
  lemma HubStepMeasure(s: State, h: HubId, step: HubStep, r: Ref)
    requires Counted(s) && StopRequested(s, r) && CanHub(s, h, step)
    ensures r < |DoHub(s, h, step).boards| && Measure(DoHub(s, h, step), r) == Measure(s, r)
  {
    if step.AdmitSession? {
      var t := AdmitOne(s, h, step.id);
      AdmitKeepsOldBoards(s, h, step.id);
      TotalRankAppend(s.sessions, t.sessions[|s.sessions|], r);
    }
  }

  /** Reading a frame is the one own step that does not use up the measure, and no
      session of a board that has taken its quit can still do it. */
  predicate ReadsFrame(s: State, a: Step, r: Ref) {
    a.BySession? && a.session.ReadOp? && OwnStep(s, a, r)
  }

  lemma NoFramesAfterQuit(s: State, a: Step, r: Ref)
    requires Inv(s) && r < |s.boards| && AfterQuit(s.boards[r].phase) && Can(s, a)
    ensures !ReadsFrame(s, a, r)
  {
    if a.BySession? && a.c < |s.sessions| {
      assert SessionOk(s.sessions[a.c], s.boards[s.sessions[a.c].board].phase);
    }
  }

  /** Every internal step of a stopping board strictly decreases its measure, and apart
      from frames still being read no step of anyone increases it. */
  lemma StepMeasure(s: State, a: Step, r: Ref)
    requires Inv(s) && StopRequested(s, r) && Can(s, a) && !ReadsFrame(s, a, r)
    ensures r < |Do(s, a).boards|
    ensures Measure(Do(s, a), r) <= Measure(s, r)
    ensures Internal(s, a, r) ==> Measure(Do(s, a), r) < Measure(s, r)
  {
    match a
    case BySession(c, step) =>
      if step.ReadOp? {
        ReadOpMeasure(s, c, step.op, r);
      } else {
        SessionStepMeasure(s, c, step, r);
      }
    case ByBoard(q, step) => BoardStepMeasure(s, q, step, r);
    case ByHub(h, step) => HubStepMeasure(s, h, step, r);
    case _ =>
  }

  // ---- Until drained, some own step is enabled ----

  lemma SnapshotReplyExists(s: State, id: BoardId) returns (snap: Snapshot)
    ensures Replies(s.broker, ReadSnapshot(id), Contents(snap))
  {
    var xs := ArrangementExists(Get(s.broker, id).shapes);
    snap := Snapshot(Get(s.broker, id).sn, xs);
  }

  /** Done, and everyone who registered has returned. */
  ghost predicate FullyDrained(s: State, r: Ref)
    requires r < |s.boards|
  {
    && s.boards[r].phase.Done?
    && (forall c :: 0 <= c < |s.sessions| && s.sessions[c].board == r ==>
          s.sessions[c].pc.Returned? || s.sessions[c].pc.Admitted?)
  }

  lemma BoardCanAdvance(s: State, r: Ref) returns (a: Step)
    requires Inv(s) && StopRequested(s, r) && !s.boards[r].phase.Done?
    ensures Can(s, a) && Internal(s, a, r) && a.ByBoard?
  {
    var snap := SnapshotReplyExists(s, s.boards[r].id);
    var step := match s.boards[r].phase
      case Loading => LoadStored
      case Hydrating(_, _) => HydrateFound
      case Running => TakeQuit
      case Checkpoint => ReadFinal(snap)
      case Saving(_, _) => WriteFinal
      case _ => CloseDone;
    a := ByBoard(r, step);
  }

  lemma SessionCanAdvance(s: State, r: Ref, c: Sid) returns (a: Step)
    requires Inv(s) && r < |s.boards| && s.boards[r].phase.Done?
    requires c < |s.sessions| && s.sessions[c].board == r
    requires !s.sessions[c].pc.Returned? && !s.sessions[c].pc.Admitted?
    ensures Can(s, a) && Internal(s, a, r)
  {
    assert SessionOk(s.sessions[c], s.boards[r].phase);
    var snap := SnapshotReplyExists(s, s.sessions[c].id);
    var step := match s.sessions[c].pc
      case Registered => SetPresence
      case Announced => FetchSnapshot(snap)
      case HoldingSnapshot(_) => GiveUp(false)
      case OnboardingRoster => FetchRoster
      case HoldingRoster(_) => GiveUp(false)
      case Applying(_) => ApplyOp
      case Publishing => PublishOp
      case Reading => StopReading
      case Stopping => JoinWriter
      case Leaving => RemovePresence
      case Releasing => ReleaseEntry
      case ClosingQuit => RequestQuit
      case Unregistering => BoardGone
      case _ => Return;
    a := BySession(c, step);
  }

  lemma NothingLeftWhenDrained(s: State, r: Ref, a: Step)
    requires r < |s.boards| && FullyDrained(s, r) && Can(s, a)
    ensures !Internal(s, a, r)
  {
  }

  /** Main result: a board that was asked to stop has an internal step enabled if and
      only if it is not fully drained. This includes a session whose release was not the
      last and who is still trying to unregister. */
  lemma ProgressIffNotDrained(s: State, r: Ref)
    requires Reachable(s) && StopRequested(s, r)
    ensures (exists a :: Can(s, a) && Internal(s, a, r)) <==> !FullyDrained(s, r)
  {
    ReachableInv(s);
    if FullyDrained(s, r) {
      forall a | Can(s, a)
        ensures !Internal(s, a, r)
      {
        NothingLeftWhenDrained(s, r, a);
      }
    } else if !s.boards[r].phase.Done? {
      var a := BoardCanAdvance(s, r);
    } else {
      var c :| 0 <= c < |s.sessions| && s.sessions[c].board == r
               && !s.sessions[c].pc.Returned? && !s.sessions[c].pc.Admitted?;
      var a := SessionCanAdvance(s, r, c);
    }
  }

  // ---- Over whole runs ----

  /** How many internal steps of board `r` a run takes. */
  ghost function InternalSteps(s: State, run: seq<Step>, r: Ref): nat
    decreases |run|
  {
    if run == [] || !Can(s, run[0]) then 0
    else (if Internal(s, run[0], r) then 1 else 0) + InternalSteps(Do(s, run[0]), run[1..], r)
  }

  /** Sessions never move a board's phase, nor another session's place. */
  lemma SessionStepFrame(s: State, c: Sid, step: SessionStep)
    requires CanSession(s, c, step)
    ensures var t := DoSession(s, c, step);
      && |t.boards| == |s.boards| && |t.sessions| == |s.sessions|
      && (forall q :: 0 <= q < |s.boards| ==> t.boards[q].phase == s.boards[q].phase)
      && (forall d :: 0 <= d < |s.sessions| && d != c ==> t.sessions[d] == s.sessions[d])
  {
  }

  lemma HubStepFrame(s: State, h: HubId, step: HubStep)
    requires Counted(s) && CanHub(s, h, step)
    ensures var t := DoHub(s, h, step);
      && |t.boards| >= |s.boards| && |t.sessions| >= |s.sessions|
      && (forall q :: 0 <= q < |s.boards| ==> t.boards[q].phase == s.boards[q].phase)
      && (forall d :: 0 <= d < |s.sessions| ==> t.sessions[d] == s.sessions[d])
  {
    if step.AdmitSession? {
      AdmitKeepsOldBoards(s, h, step.id);
    }
  }

  lemma QuitIsForever(s: State, a: Step, r: Ref)
    requires Counted(s) && r < |s.boards| && AfterQuit(s.boards[r].phase) && Can(s, a)
    ensures r < |Do(s, a).boards| && AfterQuit(Do(s, a).boards[r].phase)
  {
    match a
    case BySession(c, step) => SessionStepFrame(s, c, step);
    case ByBoard(q, step) => BoardQuitForever(s, q, step, r);
    case ByHub(h, step) => HubStepFrame(s, h, step);
    case _ =>
  }

  lemma BoardQuitForever(s: State, q: Ref, step: BoardStep, r: Ref)
    requires CanBoard(s, q, step) && r < |s.boards| && AfterQuit(s.boards[r].phase)
    ensures r < |DoBoard(s, q, step).boards| && AfterQuit(DoBoard(s, q, step).boards[r].phase)
  {
    BoardStepShape(s, q, step);
    if q == r {
      QuitPhaseForever(s, q, step);
    }
  }

  lemma QuitPhaseForever(s: State, q: Ref, step: BoardStep)
    requires CanBoard(s, q, step) && AfterQuit(s.boards[q].phase)
    ensures q < |DoBoard(s, q, step).boards| && AfterQuit(DoBoard(s, q, step).boards[q].phase)
  {
  }

  /** Main result: once a board has taken its quit, any run whatsoever, fair or not,
      contains at most as many internal steps of that board as its measure said. */
  lemma {:induction false} DrainIsBounded(s: State, run: seq<Step>, t: State, r: Ref)
    requires Inv(s) && r < |s.boards| && AfterQuit(s.boards[r].phase) && Reaches(s, run, t)
    ensures r < |t.boards| && InternalSteps(s, run, r) + Measure(t, r) <= Measure(s, r)
    decreases |run|
  {
    if run != [] {
      var a := run[0];
      NoFramesAfterQuit(s, a, r);
      StepMeasure(s, a, r);
      QuitIsForever(s, a, r);
      StepKeepsInv(s, a);
      DrainIsBounded(Do(s, a), run[1..], t, r);
    }
  }

  // ---- The one way to be left behind ----

  /** A session that was admitted but did not register before its board took its quit
      blocks for ever, and its hub's shutdown can never return nil. */
  lemma {:induction false} LateRegistrationBlocksForever(s: State, run: seq<Step>, t: State, c: Sid)
    requires Inv(s) && c < |s.sessions| && s.sessions[c].pc.Admitted?
    requires s.sessions[c].board < |s.boards| && AfterQuit(s.boards[s.sessions[c].board].phase)
    requires Reaches(s, run, t)
    ensures c < |t.sessions| && t.sessions[c].pc.Admitted? && !ReturnedNil(t, s.sessions[c].hub)
    decreases |run|
  {
    var h := s.sessions[c].hub;
    if run == [] {
      CountCovers(s.sessions, c, ActiveIn(h));
      assert Inflight(s, h) == Count(s.sessions, ActiveIn(h));
    } else {
      StuckStep(s, run[0], c);
      QuitIsForever(s, run[0], s.sessions[c].board);
      StepKeepsInv(s, run[0]);
      LateRegistrationBlocksForever(Do(s, run[0]), run[1..], t, c);
    }
  }

  lemma StuckStep(s: State, a: Step, c: Sid)
    requires Counted(s) && c < |s.sessions| && s.sessions[c].pc.Admitted? && Can(s, a)
    requires s.sessions[c].board < |s.boards| && AfterQuit(s.boards[s.sessions[c].board].phase)
    ensures c < |Do(s, a).sessions|
    ensures Do(s, a).sessions[c].pc.Admitted?
    ensures Do(s, a).sessions[c].board == s.sessions[c].board && Do(s, a).sessions[c].hub == s.sessions[c].hub
  {
    match a
    case BySession(d, step) =>
      assert d != c;
      SessionStepFrame(s, d, step);
    case ByBoard(q, step) => BoardStepShape(s, q, step);
    case ByHub(h, step) => HubStepFrame(s, h, step);
    case _ =>
  }
}
