/** A browser joined to the running system: what its shape map ends up as, in terms of
    the operations the whole system sequenced (internal/hub/client.go, web/src/App.tsx). */
module Reconciliation {
  import opened Protocol
  import opened Sequencer
  import opened MemoryBroker
  import opened System
  import opened Registry
  import opened Lifecycle
  import opened Durability
  import opened Runs
  import opened Handovers
  import opened Conduct
  import opened Drain
  import Browser

  lemma ReturnedForever(s: State, a: Step, c: Sid)
    requires Counted(s) && Can(s, a) && c < |s.sessions| && s.sessions[c].pc.Returned?
    ensures c < |Do(s, a).sessions| && Do(s, a).sessions[c].pc.Returned?
  {
    match a
    case BySession(d, step) =>
      assert d != c;
      SessionStepFrame(s, d, step);
    case ByBoard(r, step) => BoardStepShape(s, r, step);
    case ByHub(h, step) => HubStepFrame(s, h, step);
    case _ =>
  }

  lemma {:induction false} ReturnedForGood(s: State, run: seq<Step>, t: State, c: Sid)
    requires Inv(s) && Reaches(s, run, t) && c < |s.sessions| && s.sessions[c].pc.Returned?
    ensures c < |t.sessions| && t.sessions[c].pc.Returned?
    decreases |run|
  {
    if run != [] {
      ReturnedForever(s, run[0], c);
      StepKeepsInv(s, run[0]);
      ReturnedForGood(Do(s, run[0]), run[1..], t, c);
    }
  }

  /** What a connection keeps while it lasts: its board id, and a history that only grows. */
  ghost predicate Extends(s: State, t: State, c: Sid)
    requires c < |s.sessions|
  {
    && c < |t.sessions| && t.sessions[c].id == s.sessions[c].id
    && (t.sessions[c].pc.Admitted? ==> s.sessions[c].pc.Admitted?)
    && Hist(s, s.sessions[c].id) <= Hist(t, s.sessions[c].id)
  }

  lemma SessionStepExtends(s: State, d: Sid, step: SessionStep, c: Sid)
    requires CanSession(s, d, step) && c < |s.sessions|
    ensures Extends(s, DoSession(s, d, step), c)
  {
    SessionStepGrowsHist(s, d, step, s.sessions[c].id);
  }

  lemma BoardStepExtends(s: State, r: Ref, step: BoardStep, c: Sid)
    requires BrokerOk(s) && PhasesOk(s) && CanBoard(s, r, step) && c < |s.sessions|
    ensures Extends(s, DoBoard(s, r, step), c)
  {
    BoardStepShape(s, r, step);
    BoardStepGrowsHist(s, r, step, s.sessions[c].id);
  }

  lemma HubStepExtends(s: State, h: HubId, step: HubStep, c: Sid)
    requires Counted(s) && CanHub(s, h, step) && c < |s.sessions|
    ensures Extends(s, DoHub(s, h, step), c)
  {
    HubStepFrame(s, h, step);
    HubStepSameData(s, h, step);
  }

  /** The broker is not restarted while anyone is connected. */
  lemma StepExtends(s: State, a: Step, c: Sid)
    requires BrokerOk(s) && PhasesOk(s) && Counted(s) && Can(s, a)
    requires c < |s.sessions| && !s.sessions[c].pc.Returned?
    ensures Extends(s, Do(s, a), c)
  {
    match a
    case BySession(d, step) => SessionStepExtends(s, d, step, c);
    case ByBoard(r, step) => BoardStepExtends(s, r, step, c);
    case ByHub(h, step) => HubStepExtends(s, h, step, c);
    case _ =>
  }

  lemma {:induction false} RunExtends(s: State, run: seq<Step>, t: State, c: Sid)
    requires Inv(s) && Reaches(s, run, t) && c < |s.sessions|
    requires c < |t.sessions| && !t.sessions[c].pc.Returned?
    ensures Extends(s, t, c)
    decreases |run|
  {
    if run != [] {
      if s.sessions[c].pc.Returned? {
        ReturnedForGood(s, run, t, c);
        assert false;
      }
      StepExtends(s, run[0], c);
      StepKeepsInv(s, run[0]);
      RunExtends(Do(s, run[0]), run[1..], t, c);
    }
  }

  /** A connection about to hand its snapshot to its board. */
  ghost predicate HandsSnapshot(s: State, c: Sid) {
    CanSession(s, c, Deliver(true)) && s.sessions[c].pc.HoldingSnapshot?
  }

  /** What it hands over is a snapshot of a prefix of the history it sees later. */
  lemma SnapshotOfPrefix(s: State, c: Sid, run: seq<Step>, t: State)
    requires Reachable(s) && HandsSnapshot(s, c) && Reaches(s, run, t)
    requires c < |t.sessions| && !t.sessions[c].pc.Returned?
    ensures var id := s.sessions[c].id;
      && IsPast(s.sessions[c].pc.snap, Hist(t, id)) && Get(t.broker, id) == Replay(Hist(t, id))
  {
    ReachableInv(s);
    HandsOverThePast(s, c, true);
    RunKeepsInv(s, run, t);
    RunExtends(s, run, t, c);
    PastStays(s.sessions[c].pc.snap, Hist(s, s.sessions[c].id), Hist(t, s.sessions[c].id));
  }

  /** Main result: take a connection of any reachable state that hands its snapshot to its
      board, and any later state in which it has not returned, however many hubs, sessions,
      kicks, drains and saves came in between. Its browser, having loaded that snapshot and
      received any lossy, repeated, reordered selection of the operations sequenced so far,
      among any other messages, holds exactly the broker's map if and only if every shape
      settled. */
  lemma JoinedClientConverges(s: State, c: Sid, run: seq<Step>, t: State,
                              falsy: iset<Blob>, m0: Browser.Shapes, evs: seq<Browser.Event>)
    requires Reachable(s) && HandsSnapshot(s, c) && Reaches(s, run, t)
    requires c < |t.sessions| && !t.sessions[c].pc.Returned?
    requires Browser.Legal(Hist(t, s.sessions[c].id), evs)
    ensures var snap := s.sessions[c].pc.snap;
      var id := s.sessions[c].id;
      var log := Hist(t, id);
      && snap.sn <= |log|
      && (Browser.Run(falsy, Browser.Receive(m0, Browser.SnapshotMsg(snap)), log, evs) == Get(t.broker, id).shapes
          <==> forall shape :: Browser.Settled(falsy, log, snap.sn, evs, shape))
  {
    var snap := s.sessions[c].pc.snap;
    SnapshotOfPrefix(s, c, run, t);
    Browser.ConvergesIffSettled(falsy, m0, snap, Hist(t, s.sessions[c].id), snap.sn, evs);
  }
}
