/** Every operation that is ever sequenced, loaded or saved names a shape
    (internal/hub/client.go). */
module Naming {
  import opened Sequencer
  import opened System
  import opened Registry
  import opened Durability

  /** Every operation names a shape. */
  predicate Named(ops: seq<Op>) { forall i :: 0 <= i < |ops| ==> ops[i].id != "" }

  predicate PhaseNamed(p: Phase) {
    && (p.Hydrating? ==> Named(p.log))
    && (p.Saving? ==> Named(p.log))
  }

  ghost predicate LogsNamed(s: State) {
    forall id :: Named(Hist(s, id)) && Named(DurableLog(s, id))
  }

  ghost predicate CarriersNamed(s: State) {
    && (forall c :: 0 <= c < |s.sessions| && s.sessions[c].pc.Applying? ==> s.sessions[c].pc.op.id != "")
    && (forall r :: 0 <= r < |s.boards| ==> PhaseNamed(s.boards[r].phase))
    && (forall p :: p in s.savers ==> Named(p.log))
  }

  ghost predicate NamingInv(s: State) { LogsNamed(s) && CarriersNamed(s) }

  lemma SessionStepsKeepNames(s: State, c: Sid, step: SessionStep)
    requires NamingInv(s) && CanSession(s, c, step)
    ensures NamingInv(DoSession(s, c, step))
  {
    var t := DoSession(s, c, step);
    forall id
      ensures Named(Hist(t, id)) && Named(DurableLog(t, id))
    {
      assert Named(Hist(s, id)) && Named(DurableLog(s, id));
    }
  }

  lemma BoardStepsKeepNames(s: State, r: Ref, step: BoardStep)
    requires NamingInv(s) && CanBoard(s, r, step)
    ensures NamingInv(DoBoard(s, r, step))
  {
    var t := DoBoard(s, r, step);
    assert PhaseNamed(s.boards[r].phase) && Named(Hist(s, s.boards[r].id)) && Named(DurableLog(s, s.boards[r].id));
    forall id
      ensures Named(Hist(t, id)) && Named(DurableLog(t, id))
    {
      assert Named(Hist(s, id)) && Named(DurableLog(s, id));
    }
  }

  lemma HubStepsKeepNames(s: State, h: HubId, step: HubStep)
    requires NamingInv(s) && CanHub(s, h, step)
    ensures NamingInv(DoHub(s, h, step))
  {
    var t := DoHub(s, h, step);
    HubStepSameData(s, h, step);
    forall id
      ensures Named(Hist(t, id)) && Named(DurableLog(t, id))
    {
      assert Named(Hist(s, id)) && Named(DurableLog(s, id));
    }
  }

  lemma OtherStepsKeepNames(s: State, a: Step)
    requires NamingInv(s) && Can(s, a) && (a.ReadPeriodic? || a.WritePeriodic? || a.Restart?)
    ensures NamingInv(Do(s, a))
  {
    var t := Do(s, a);
    forall id
      ensures Named(Hist(t, id)) && Named(DurableLog(t, id))
    {
      assert Named(Hist(s, id)) && Named(DurableLog(s, id));
    }
    assert a.ReadPeriodic? ==> Named(Hist(s, a.id));
  }

  lemma NamesKept(s: State, a: Step)
    requires NamingInv(s) && Can(s, a)
    ensures NamingInv(Do(s, a))
  {
    match a
    case BySession(c, step) => SessionStepsKeepNames(s, c, step);
    case ByBoard(r, step) => BoardStepsKeepNames(s, r, step);
    case ByHub(h, step) => HubStepsKeepNames(s, h, step);
    case _ => OtherStepsKeepNames(s, a);
  }

  /** No board can hold a shape without a name. */
  lemma NamedReplay(log: seq<Op>)
    requires Named(log)
    ensures "" !in Replay(log).shapes
  {
    ReplayAt(log, "");
  }
}
