/** Leaving: whoever is through its release has left the fan-out set, unless the whole
    board is stopping (internal/hub/hub.go, internal/hub/board.go). */
module Departures {
  import opened System
  import opened Registry
  import opened Lifecycle
  import opened Channels

  predicate Through(pc: Pc) { pc.Finishing? || pc.Returned? }

  /** A board that its last client left, or that belongs to a closing hub, stops. */
  ghost predicate Stops(s: State, r: Ref)
    requires r < |s.boards|
  {
    s.boards[r].lastLeft || s.boards[r].hub in s.shut
  }

  ghost predicate Departed(s: State, c: Sid)
    requires c < |s.sessions| && s.sessions[c].board < |s.boards|
  {
    Through(s.sessions[c].pc) && s.sessions[c].present ==> Stops(s, s.sessions[c].board)
  }

  ghost predicate DepartureInv(s: State) {
    forall c :: 0 <= c < |s.sessions| ==> s.sessions[c].board < |s.boards| && Departed(s, c)
  }

  /** Nobody came back, and no board that stops went on. */
  ghost predicate DepartureFrame(s: State, t: State) {
    && |t.sessions| >= |s.sessions| && |t.boards| >= |s.boards|
    && (forall r :: 0 <= r < |s.boards| && Stops(s, r) ==> Stops(t, r))
    && (forall c :: 0 <= c < |s.sessions| ==>
          && t.sessions[c].board == s.sessions[c].board && t.sessions[c].pc == s.sessions[c].pc
          && (t.sessions[c].present ==> s.sessions[c].present))
    && (forall c :: |s.sessions| <= c < |t.sessions| ==>
          t.sessions[c].board < |t.boards| && !Through(t.sessions[c].pc))
  }

  lemma FrameKeepsDepartures(s: State, t: State)
    requires DepartureInv(s) && DepartureFrame(s, t)
    ensures DepartureInv(t)
  {
    forall c | 0 <= c < |t.sessions|
      ensures t.sessions[c].board < |t.boards| && Departed(t, c)
    {
      if c < |s.sessions| {
        assert Departed(s, c);
      }
    }
  }

  lemma SessionStepKeepsStops(s: State, c: Sid, step: SessionStep, r: Ref)
    requires CanSession(s, c, step) && r < |s.boards| && Stops(s, r)
    ensures Stops(DoSession(s, c, step), r)
  {
  }

  /** The step of one leaver: last out, not last, or released after the shutdown began. */
  lemma SessionStepDeparts(s: State, c: Sid, step: SessionStep)
    requires Linked(s) && Anchored(s) && SoleCloser(s) && SessionsOk(s) && CanSession(s, c, step) && Departed(s, c)
    ensures Departed(DoSession(s, c, step), c)
  {
    assert SessionOk(s.sessions[c], s.boards[s.sessions[c].board].phase);
  }

  lemma SessionStepsKeepDepartures(s: State, c: Sid, step: SessionStep)
    requires DepartureInv(s) && Linked(s) && Anchored(s) && SoleCloser(s) && SessionsOk(s) && CanSession(s, c, step)
    ensures DepartureInv(DoSession(s, c, step))
  {
    var t := DoSession(s, c, step);
    SessionStepDeparts(s, c, step);
    forall d | 0 <= d < |t.sessions|
      ensures t.sessions[d].board < |t.boards| && Departed(t, d)
    {
      assert Departed(s, d);
      if Stops(s, s.sessions[d].board) {
        SessionStepKeepsStops(s, c, step, s.sessions[d].board);
      }
    }
  }

  lemma BoardStepFrame(s: State, r: Ref, step: BoardStep)
    requires CanBoard(s, r, step)
    ensures DepartureFrame(s, DoBoard(s, r, step))
  {
  }

  lemma HubStepFrame(s: State, h: HubId, step: HubStep)
    requires Counted(s) && CanHub(s, h, step)
    ensures DepartureFrame(s, DoHub(s, h, step))
  {
    if step.AdmitSession? {
      AdmitKeepsOldBoards(s, h, step.id);
    }
  }

  lemma DeparturesKept(s: State, a: Step)
    requires DepartureInv(s) && RegistryInv(s) && SessionsOk(s) && Can(s, a)
    ensures DepartureInv(Do(s, a))
  {
    match a
    case BySession(c, step) => SessionStepsKeepDepartures(s, c, step);
    case ByBoard(r, step) =>
      BoardStepFrame(s, r, step);
      FrameKeepsDepartures(s, Do(s, a));
    case ByHub(h, step) =>
      HubStepFrame(s, h, step);
      FrameKeepsDepartures(s, Do(s, a));
    case _ => FrameKeepsDepartures(s, Do(s, a));
  }
}
