/** Exactly when a session can still return, and exactly when a pending shutdown can still
    return nil (internal/hub/hub.go, internal/hub/client.go). */
module ShutdownProgress {
  import opened System
  import opened Registry
  import opened Counting
  import opened Lifecycle
  import opened Channels
  import opened Accounting
  import opened Runs
  import opened Drain

  function AllRank(ss: seq<Session>): nat {
    if ss == [] then 0 else AllRank(ss[..|ss| - 1]) + Rank(ss[|ss| - 1].pc)
  }

  function AllPhases(bs: seq<Actor>): nat {
    if bs == [] then 0 else AllPhases(bs[..|bs| - 1]) + PhaseRank(bs[|bs| - 1].phase)
  }

  lemma {:induction false} AllRankUpdate(ss: seq<Session>, c: nat, x: Session)
    requires c < |ss|
    ensures AllRank(ss[c := x]) == AllRank(ss) - Rank(ss[c].pc) + Rank(x.pc)
  {
    var n := |ss| - 1;
    if c == n {
      assert ss[c := x][..n] == ss[..n];
    } else {
      AllRankUpdate(ss[..n], c, x);
      assert ss[c := x][..n] == ss[..n][c := x];
    }
  }

  lemma {:induction false} AllRankPointwise(ss: seq<Session>, ts: seq<Session>)
    requires |ss| == |ts| && forall c :: 0 <= c < |ss| ==> ss[c].pc == ts[c].pc
    ensures AllRank(ss) == AllRank(ts)
  {
    if ss != [] {
      AllRankPointwise(ss[..|ss| - 1], ts[..|ts| - 1]);
    }
  }

  lemma {:induction false} AllPhasesUpdate(bs: seq<Actor>, r: nat, b: Actor)
    requires r < |bs|
    ensures AllPhases(bs[r := b]) == AllPhases(bs) - PhaseRank(bs[r].phase) + PhaseRank(b.phase)
  {
    var n := |bs| - 1;
    if r == n {
      assert bs[r := b][..n] == bs[..n];
    } else {
      AllPhasesUpdate(bs[..n], r, b);
      assert bs[r := b][..n] == bs[..n][r := b];
    }
  }

  lemma {:induction false} AllPhasesPointwise(bs: seq<Actor>, cs: seq<Actor>)
    requires |bs| == |cs| && forall r :: 0 <= r < |bs| ==> bs[r].phase == cs[r].phase
    ensures AllPhases(bs) == AllPhases(cs)
  {
    if bs != [] {
      AllPhasesPointwise(bs[..|bs| - 1], cs[..|cs| - 1]);
    }
  }

  function Work(s: State): nat { AllRank(s.sessions) + AllPhases(s.boards) }

  lemma SessionStepWorks(s: State, c: Sid, step: SessionStep)
    requires CanSession(s, c, step) && !step.ReadOp?
    ensures Work(DoSession(s, c, step)) < Work(s)
  {
    var t := DoSession(s, c, step);
    SessionStepAdvances(s, c, step);
    AllRankUpdate(s.sessions, c, t.sessions[c]);
    AllPhasesPointwise(s.boards, t.boards);
  }

  lemma BoardStepWorks(s: State, r: Ref, step: BoardStep)
    requires CanBoard(s, r, step) && !step.Kick?
    ensures Work(DoBoard(s, r, step)) < Work(s)
  {
    var t := DoBoard(s, r, step);
    BoardPhaseRank(s, r, step);
    AllRankPointwise(s.sessions, t.sessions);
    AllPhasesUpdate(s.boards, r, t.boards[r]);
  }

  // ---- Stranded sessions ----

  /** Admitted, but its board took the quit before it could register. */
  ghost predicate Stranded(s: State, c: Sid) {
    && c < |s.sessions| && s.sessions[c].pc.Admitted?
    && s.sessions[c].board < |s.boards| && AfterQuit(s.boards[s.sessions[c].board].phase)
  }

  ghost predicate NoneStranded(s: State, h: HubId) {
    forall c :: 0 <= c < |s.sessions| && s.sessions[c].hub == h ==> !Stranded(s, c)
  }

  ghost predicate AllRegistered(s: State, h: HubId) {
    forall c :: 0 <= c < |s.sessions| && s.sessions[c].hub == h ==> !s.sessions[c].pc.Admitted?
  }

  lemma SessionStepStrandsNobody(s: State, c: Sid, step: SessionStep, d: Sid)
    requires CanSession(s, c, step) && d < |s.sessions| && !Stranded(s, d)
    ensures d < |DoSession(s, c, step).sessions| && !Stranded(DoSession(s, c, step), d)
    ensures DoSession(s, c, step).sessions[d].hub == s.sessions[d].hub
    ensures |DoSession(s, c, step).sessions| == |s.sessions|
  {
  }

  /** Only a board that takes its quit can strand anyone. */
  lemma BoardStepStrandsNobody(s: State, r: Ref, step: BoardStep, d: Sid)
    requires CanBoard(s, r, step) && d < |s.sessions| && !Stranded(s, d)
    requires step.TakeQuit? ==> !s.sessions[d].pc.Admitted?
    ensures d < |DoBoard(s, r, step).sessions| && !Stranded(DoBoard(s, r, step), d)
    ensures DoBoard(s, r, step).sessions[d].hub == s.sessions[d].hub
    ensures |DoBoard(s, r, step).sessions| == |s.sessions|
  {
  }

  // ---- One step for one session ----

  /** A step of the session or of its board that brings the session closer to its return. */
  ghost predicate Helps(s: State, a: Step, c: Sid) {
    && Can(s, a)
    && match a
       case BySession(d, step) => d == c && !step.ReadOp?
       case ByBoard(r, step) => c < |s.sessions| && r == s.sessions[c].board && !step.Kick? && !step.TakeQuit?
       case _ => false
  }

  lemma AdmittedHelp(s: State, c: Sid) returns (a: Step)
    requires Linked(s) && c < |s.sessions| && s.sessions[c].pc.Admitted? && !Stranded(s, c)
    ensures Helps(s, a, c)
  {
    var r := s.sessions[c].board;
    a := match s.boards[r].phase
      case Loading => ByBoard(r, LoadStored)
      case Hydrating(_, _) => ByBoard(r, HydrateFound)
      case _ => BySession(c, Register);
  }

  lemma UnregisteringHelp(s: State, c: Sid) returns (a: Step)
    requires Linked(s) && SessionsOk(s) && c < |s.sessions| && s.sessions[c].pc.Unregistering?
    ensures Helps(s, a, c)
  {
    var r := s.sessions[c].board;
    assert SessionOk(s.sessions[c], s.boards[r].phase);
    var snap := SnapshotReplyExists(s, s.boards[r].id);
    a := match s.boards[r].phase
      case Running => BySession(c, Unregister)
      case Checkpoint => ByBoard(r, ReadFinal(snap))
      case Saving(_, _) => ByBoard(r, WriteFinal)
      case Stopped => ByBoard(r, CloseDone)
      case _ => BySession(c, BoardGone);
  }

  lemma RegisteredHelp(s: State, c: Sid) returns (a: Step)
    requires Linked(s) && SessionsOk(s) && c < |s.sessions|
    requires !s.sessions[c].pc.Admitted? && !s.sessions[c].pc.Returned?
    ensures Helps(s, a, c)
  {
    if s.sessions[c].pc.Unregistering? {
      a := UnregisteringHelp(s, c);
      return;
    }
    var snap := SnapshotReplyExists(s, s.sessions[c].id);
    var step := match s.sessions[c].pc
      case Registered => SetPresence
      case Announced => FetchSnapshot(snap)
      case HoldingSnapshot(_) => GiveUp(true)
      case OnboardingRoster => FetchRoster
      case HoldingRoster(_) => GiveUp(true)
      case Applying(_) => ApplyOp
      case Publishing => PublishOp
      case Reading => StopReading
      case Stopping => JoinWriter
      case Leaving => RemovePresence
      case Releasing => ReleaseEntry
      case ClosingQuit => RequestQuit
      case _ => Return;
    a := BySession(c, step);
  }

  lemma SomeHelp(s: State, c: Sid) returns (a: Step)
    requires Linked(s) && SessionsOk(s) && c < |s.sessions| && !s.sessions[c].pc.Returned? && !Stranded(s, c)
    ensures Helps(s, a, c)
  {
    if s.sessions[c].pc.Admitted? {
      a := AdmittedHelp(s, c);
    } else {
      a := RegisteredHelp(s, c);
    }
  }

  /** Helping one session strands no other, moves no shutdown and uses up work. */
  lemma HelpWorks(s: State, a: Step, c: Sid)
    requires Helps(s, a, c)
    ensures Work(Do(s, a)) < Work(s) && Do(s, a).shut == s.shut
    ensures |Do(s, a).sessions| == |s.sessions|
    ensures forall d :: 0 <= d < |s.sessions| && !Stranded(s, d) ==>
              !Stranded(Do(s, a), d) && Do(s, a).sessions[d].hub == s.sessions[d].hub
  {
    match a
    case BySession(_, step) =>
      SessionStepWorks(s, c, step);
      forall d | 0 <= d < |s.sessions| && !Stranded(s, d)
        ensures d < |Do(s, a).sessions| && !Stranded(Do(s, a), d) && Do(s, a).sessions[d].hub == s.sessions[d].hub
      {
        SessionStepStrandsNobody(s, c, step, d);
      }
    case ByBoard(r, step) =>
      BoardStepWorks(s, r, step);
      forall d | 0 <= d < |s.sessions| && !Stranded(s, d)
        ensures d < |Do(s, a).sessions| && !Stranded(Do(s, a), d) && Do(s, a).sessions[d].hub == s.sessions[d].hub
      {
        BoardStepStrandsNobody(s, r, step, d);
      }
  }

  // ---- A single session ----

  lemma SessionCanReturn(s: State, c: Sid) returns (run: seq<Step>, t: State)
    requires Inv(s) && c < |s.sessions| && !Stranded(s, c)
    ensures Reaches(s, run, t) && c < |t.sessions| && t.sessions[c].pc.Returned?
    decreases Work(s)
  {
    if s.sessions[c].pc.Returned? {
      run, t := [], s;
    } else {
      var a := SomeHelp(s, c);
      HelpWorks(s, a, c);
      StepKeepsInv(s, a);
      var rest;
      rest, t := SessionCanReturn(Do(s, a), c);
      run := [a] + rest;
      Prepend(s, a, rest, t);
    }
  }

  lemma Prepend(s: State, a: Step, rest: seq<Step>, t: State)
    requires Can(s, a) && Reaches(Do(s, a), rest, t)
    ensures Reaches(s, [a] + rest, t)
  {
    assert ([a] + rest)[1..] == rest;
  }

  ghost predicate MayReturn(s: State, c: Sid) {
    exists run, t :: Reaches(s, run, t) && c < |t.sessions| && t.sessions[c].pc.Returned?
  }

  /** Main result: in any reachable state a session can still return if and only if it is
      not stranded: admitted, with its board past its quit. */
  lemma SessionReturnsIff(s: State, c: Sid)
    requires Reachable(s) && c < |s.sessions|
    ensures MayReturn(s, c) <==> !Stranded(s, c)
  {
    ReachableInv(s);
    if Stranded(s, c) {
      forall run, t | Reaches(s, run, t)
        ensures c < |t.sessions| && !t.sessions[c].pc.Returned?
      {
        LateRegistrationBlocksForever(s, run, t, c);
      }
    } else {
      var run, t := SessionCanReturn(s, c);
    }
  }

  // ---- A whole shutdown ----

  ghost predicate PendingShutdown(s: State, h: HubId) {
    h in s.shut && s.shut[h].verdict.Pending? && ShutdownOk(s, h)
  }

  function Remaining(d: Shutdown): int { 2 * |d.captured| - d.told - d.awaited }

  /** One step closer to the end, with nobody stranded on the way. */
  ghost predicate Advances(s: State, t: State, h: HubId)
    requires h in s.shut
  {
    && h in t.shut && t.shut[h].verdict.Pending? && NoneStranded(t, h)
    && Work(t) + Remaining(t.shut[h]) < Work(s) + Remaining(s.shut[h])
  }

  lemma HelpAdvances(s: State, a: Step, c: Sid, h: HubId)
    requires Helps(s, a, c) && PendingShutdown(s, h) && NoneStranded(s, h)
    ensures Advances(s, Do(s, a), h)
  {
    HelpWorks(s, a, c);
    HelpKeepsHubs(s, a, c);
    forall d | 0 <= d < |Do(s, a).sessions| && Do(s, a).sessions[d].hub == h
      ensures !Stranded(Do(s, a), d)
    {
      assert s.sessions[d].hub == h;
    }
  }

  lemma HelpKeepsHubs(s: State, a: Step, c: Sid)
    requires Helps(s, a, c)
    ensures |Do(s, a).sessions| == |s.sessions|
    ensures forall d :: 0 <= d < |s.sessions| ==> Do(s, a).sessions[d].hub == s.sessions[d].hub
  {
  }

  lemma BoardAdvances(s: State, r: Ref, step: BoardStep, h: HubId)
    requires CanBoard(s, r, step) && !step.Kick? && PendingShutdown(s, h) && AllRegistered(s, h)
    ensures Advances(s, DoBoard(s, r, step), h)
  {
    BoardStepWorks(s, r, step);
    assert forall d :: 0 <= d < |s.sessions| ==> DoBoard(s, r, step).sessions[d].pc == s.sessions[d].pc;
  }

  lemma HubAdvances(s: State, h: HubId, step: HubStep)
    requires CanHub(s, h, step) && (step.QuitNext? || step.AwaitBoard?)
    requires PendingShutdown(s, h) && NoneStranded(s, h)
    ensures Advances(s, DoHub(s, h, step), h)
  {
    var t := DoHub(s, h, step);
    AllPhasesPointwise(s.boards, t.boards);
    forall d | 0 <= d < |t.sessions| && t.sessions[d].hub == h
      ensures !Stranded(t, d)
    {
      assert !Stranded(s, d);
    }
  }

  /** While sessions wait to register, the next step is theirs; then the boards are told,
      awaited one by one and driven to their end; then the remaining sessions. */
  lemma ShutdownStep(s: State, h: HubId) returns (a: Step)
    requires Inv(s) && PendingShutdown(s, h) && NoneStranded(s, h) && !CanHub(s, h, AwaitSessions)
    ensures Can(s, a) && Advances(s, Do(s, a), h)
  {
    var d := s.shut[h];
    if !AllRegistered(s, h) {
      var c :| 0 <= c < |s.sessions| && s.sessions[c].hub == h && s.sessions[c].pc.Admitted?;
      a := AdmittedHelp(s, c);
      HelpAdvances(s, a, c, h);
    } else if d.told < |d.captured| {
      a := ByHub(h, QuitNext);
      HubAdvances(s, h, QuitNext);
    } else if d.awaited < |d.captured| {
      a := AwaitStep(s, h);
    } else {
      var c := SomebodyLeft(s, h);
      a := RegisteredHelp(s, c);
      HelpAdvances(s, a, c, h);
    }
  }

  lemma AwaitStep(s: State, h: HubId) returns (a: Step)
    requires Inv(s) && PendingShutdown(s, h) && AllRegistered(s, h)
    requires s.shut[h].told == |s.shut[h].captured| && s.shut[h].awaited < |s.shut[h].captured|
    ensures Can(s, a) && Advances(s, Do(s, a), h)
  {
    var r := s.shut[h].captured[s.shut[h].awaited];
    if s.boards[r].phase.Done? {
      a := ByHub(h, AwaitBoard);
      HubAdvances(s, h, AwaitBoard);
    } else {
      a := BoardCanAdvance(s, r);
      BoardAdvances(s, r, a.board, h);
    }
  }

  /** The wait group is not at zero, so somebody has not returned. */
  lemma SomebodyLeft(s: State, h: HubId) returns (c: Sid)
    requires WaitGroups(s) && Inflight(s, h) != 0
    ensures c < |s.sessions| && s.sessions[c].hub == h && !s.sessions[c].pc.Returned?
  {
    if forall d :: 0 <= d < |s.sessions| ==> !Selected(s.sessions[d], ActiveIn(h)) {
      CountNone(s.sessions, ActiveIn(h));
    }
    c :| c < |s.sessions| && Selected(s.sessions[c], ActiveIn(h));
  }

  lemma ShutdownCanReturn(s: State, h: HubId) returns (run: seq<Step>, t: State)
    requires Inv(s) && h in s.shut && s.shut[h].verdict.Pending? && NoneStranded(s, h)
    ensures Reaches(s, run, t) && ReturnedNil(t, h)
    decreases Work(s) + Remaining(s.shut[h])
  {
    assert ShutdownOk(s, h);
    var a, rest;
    if CanHub(s, h, AwaitSessions) {
      a, rest := ByHub(h, AwaitSessions), [];
      t := Do(s, a);
      assert Reaches(t, [], t);
    } else {
      a := ShutdownStep(s, h);
      StepKeepsInv(s, a);
      rest, t := ShutdownCanReturn(Do(s, a), h);
    }
    run := [a] + rest;
    Prepend(s, a, rest, t);
  }

  ghost predicate MayReturnNil(s: State, h: HubId) {
    exists run, t :: Reaches(s, run, t) && ReturnedNil(t, h)
  }

  /** Main result: a pending shutdown can still return nil if and only if no session of its
      hub is stranded. */
  lemma ShutdownReturnsIff(s: State, h: HubId)
    requires Reachable(s) && h in s.shut && s.shut[h].verdict.Pending?
    ensures MayReturnNil(s, h) <==> NoneStranded(s, h)
  {
    ReachableInv(s);
    if NoneStranded(s, h) {
      var run, t := ShutdownCanReturn(s, h);
    } else {
      var c :| 0 <= c < |s.sessions| && s.sessions[c].hub == h && Stranded(s, c);
      forall run, t | Reaches(s, run, t)
        ensures !ReturnedNil(t, h)
      {
        LateRegistrationBlocksForever(s, run, t, c);
      }
    }
  }
}
