/** No board of a hub is ever forgotten: until it stops it is registered, or its last
    client is stopping it, or a shutdown has captured it (internal/hub/hub.go). */
module Coverage {
  import opened Protocol
  import opened System
  import opened Registry
  import opened Lifecycle

  ghost predicate Registered(s: State, r: Ref)
    requires r < |s.boards|
  {
    var key := (s.boards[r].hub, s.boards[r].id);
    key in s.reg && s.reg[key].board == r
  }

  ghost predicate Captured(s: State, r: Ref)
    requires r < |s.boards|
  {
    s.boards[r].hub in s.shut && r in s.shut[s.boards[r].hub].captured
  }

  ghost predicate Tracked(s: State, r: Ref)
    requires r < |s.boards|
  {
    Registered(s, r) || s.boards[r].lastLeft || Captured(s, r)
  }

  predicate Closes(s: State, c: Sid, r: Ref) {
    c < |s.sessions| && s.sessions[c].board == r && s.sessions[c].pc.ClosingQuit?
  }

  /** Whoever left a board last has told it to quit, or is about to. */
  ghost predicate Told(s: State, r: Ref)
    requires r < |s.boards|
  {
    s.boards[r].lastLeft ==> s.boards[r].quitRequests > 0 || exists c: Sid :: Closes(s, c, r)
  }

  ghost predicate CoverageInv(s: State) {
    forall r :: 0 <= r < |s.boards| ==> Tracked(s, r) && Told(s, r)
  }

  // ---- Sessions ----

  /** The registry may lose a board only to its last release. */
  ghost predicate Yields(s: State, t: State) {
    && t.shut == s.shut && |t.boards| == |s.boards|
    && (forall r :: 0 <= r < |s.boards| ==>
          && t.boards[r].hub == s.boards[r].hub && t.boards[r].id == s.boards[r].id
          && (s.boards[r].lastLeft ==> t.boards[r].lastLeft)
          && (Registered(s, r) ==> Registered(t, r) || t.boards[r].lastLeft))
  }

  lemma SessionStepYields(s: State, c: Sid, step: SessionStep)
    requires CanSession(s, c, step)
    ensures Yields(s, DoSession(s, c, step))
  {
  }

  lemma SessionStepTells(s: State, c: Sid, step: SessionStep, r: Ref)
    requires CanSession(s, c, step) && r < |s.boards| && Told(s, r)
    ensures Told(DoSession(s, c, step), r)
  {
    var t := DoSession(s, c, step);
    if d: Sid :| Closes(s, d, r) {
      assert d != c ==> Closes(t, d, r);
    }
    if step.ReleaseEntry? && s.sessions[c].board == r && t.boards[r].lastLeft && !s.boards[r].lastLeft {
      assert Closes(t, c, r);
    }
  }

  lemma SessionStepsKeepCoverage(s: State, c: Sid, step: SessionStep)
    requires CoverageInv(s) && CanSession(s, c, step)
    ensures CoverageInv(DoSession(s, c, step))
  {
    var t := DoSession(s, c, step);
    SessionStepYields(s, c, step);
    forall r | 0 <= r < |t.boards|
      ensures Tracked(t, r) && Told(t, r)
    {
      assert Tracked(s, r) && Told(s, r);
      SessionStepTells(s, c, step, r);
    }
  }

  // ---- Boards and hubs ----

  /** Nothing that coverage depends on moved, for the boards there were. */
  ghost predicate CoverageFrame(s: State, t: State) {
    && |t.boards| >= |s.boards| && |t.sessions| >= |s.sessions|
    && (forall r :: 0 <= r < |s.boards| ==>
          && t.boards[r].lastLeft == s.boards[r].lastLeft && t.boards[r].quitRequests >= s.boards[r].quitRequests
          && (Tracked(s, r) ==> Tracked(t, r)))
    && (forall c :: 0 <= c < |s.sessions| ==>
          t.sessions[c].board == s.sessions[c].board && t.sessions[c].pc == s.sessions[c].pc)
  }

  lemma FrameKeepsCoverage(s: State, t: State)
    requires CoverageInv(s) && CoverageFrame(s, t)
    requires forall r :: |s.boards| <= r < |t.boards| ==> Tracked(t, r) && !t.boards[r].lastLeft
    ensures CoverageInv(t)
  {
    forall r | 0 <= r < |t.boards|
      ensures Tracked(t, r) && Told(t, r)
    {
      if r < |s.boards| {
        assert Tracked(s, r) && Told(s, r);
        if c: Sid :| Closes(s, c, r) {
          assert Closes(t, c, r);
        }
      }
    }
  }

  lemma BoardStepFrame(s: State, r: Ref, step: BoardStep)
    requires CanBoard(s, r, step)
    ensures CoverageFrame(s, DoBoard(s, r, step)) && |DoBoard(s, r, step).boards| == |s.boards|
  {
    BoardStepShape(s, r, step);
  }

  lemma AdmitFrame(s: State, h: HubId, id: BoardId)
    requires Counted(s) && CanHub(s, h, AdmitSession(id))
    ensures CoverageFrame(s, AdmitOne(s, h, id))
    ensures forall r :: |s.boards| <= r < |AdmitOne(s, h, id).boards| ==>
      Tracked(AdmitOne(s, h, id), r) && !AdmitOne(s, h, id).boards[r].lastLeft
  {
    AdmitKeepsOldBoards(s, h, id);
  }

  /** Every registered board of the hub is captured. */
  lemma BeginShutdownFrame(s: State, h: HubId, captured: seq<Ref>)
    requires CanHub(s, h, BeginShutdown(captured))
    ensures CoverageFrame(s, DoHub(s, h, BeginShutdown(captured)))
  {
    var t := DoHub(s, h, BeginShutdown(captured));
    forall r | 0 <= r < |s.boards| && Tracked(s, r)
      ensures Tracked(t, r)
    {
      var key := (s.boards[r].hub, s.boards[r].id);
      if Registered(s, r) && key.0 == h {
        assert key in OwnEntries(s.reg, h) && OwnEntries(s.reg, h)[key].board == r;
      }
    }
  }

  lemma OtherHubStepFrame(s: State, h: HubId, step: HubStep)
    requires CanHub(s, h, step) && !step.AdmitSession? && !step.BeginShutdown?
    ensures CoverageFrame(s, DoHub(s, h, step)) && |DoHub(s, h, step).boards| == |s.boards|
  {
  }

  lemma HubStepsKeepCoverage(s: State, h: HubId, step: HubStep)
    requires CoverageInv(s) && Counted(s) && CanHub(s, h, step)
    ensures CoverageInv(DoHub(s, h, step))
  {
    if step.AdmitSession? {
      AdmitFrame(s, h, step.id);
    } else if step.BeginShutdown? {
      BeginShutdownFrame(s, h, step.captured);
    } else {
      OtherHubStepFrame(s, h, step);
    }
    FrameKeepsCoverage(s, DoHub(s, h, step));
  }

  lemma CoverageKept(s: State, a: Step)
    requires CoverageInv(s) && Counted(s) && Can(s, a)
    ensures CoverageInv(Do(s, a))
  {
    match a
    case BySession(c, step) => SessionStepsKeepCoverage(s, c, step);
    case ByBoard(r, step) =>
      BoardStepFrame(s, r, step);
      FrameKeepsCoverage(s, Do(s, a));
    case ByHub(h, step) => HubStepsKeepCoverage(s, h, step);
    case _ => FrameKeepsCoverage(s, Do(s, a));
  }
}
