/** The whole running system as a state machine: any number of hubs sharing one broker
    and one store, any number of boards (including several incarnations of one id) and
    any number of connections, each a program counter inside `Serve`
    (internal/hub/hub.go, board.go, client.go, persistence.go).

    A step is one atomic effect of one goroutine: a critical section, a rendezvous on an
    unbuffered channel, one broker or store call. Timeouts, dropped connections and slow
    clients are steps that may happen at any time. */
module System {
  import opened Protocol
  import opened Sequencer
  import opened MemoryBroker
  import opened SnapshotStore
  import opened Registry

  type HubId = nat
  type Sid = nat

  /** Where a connection is inside `Serve`. */
  datatype Pc =
    | Admitted                        // holds a keep-open count; blocked on `register <- c`
    | Registered                      // in the board's fan-out set
    | Announced                       // in the broker's roster
    | HoldingSnapshot(snap: Snapshot) // about to hand its snapshot to the board
    | OnboardingRoster
    | HoldingRoster(seen: set<Sid>)   // about to hand its roster to the board
    | Reading                         // in the read pump
    | Applying(op: Op)
    | Publishing
    | Stopping                        // read pump returned, connection closed
    | Leaving                         // both pumps gone
    | Releasing
    | ClosingQuit                     // last out: about to close the board's quit
    | Unregistering                   // not last: `unregister <- c` or `<-done`
    | Finishing
    | Returned

  datatype Session = Session(
    hub: HubId, id: BoardId, board: Ref, pc: Pc,
    present: bool,      // owned by the board goroutine
    sendCloses: nat,    // how often its send channel has been closed
    connClosed: bool,
    lastSn: nat)        // highest sequence number it was ever assigned

  /** Where a board's goroutine is inside `run`. A snapshot in hand comes with the log of
      the operations that it summarises; logs are for stating properties only. */
  datatype Phase =
    | Loading
    | Hydrating(found: Option<Snapshot>, log: seq<Op>)
    | Running
    | Checkpoint             // clients drained, about to read the final snapshot
    | Saving(snap: Snapshot, log: seq<Op>)
    | Stopped                // saved, about to report and close `done`
    | Done

  datatype Actor = Actor(
    hub: HubId, id: BoardId, phase: Phase,
    quitRequests: nat,  // calls of closeQuit
    clients: set<Sid>,
    lastLeft: bool)     // its last release removed it from the registry

  datatype Verdict = Pending | Drained | TimedOut

  /** A hub's shutdown: the captured boards, how many have been told to quit, how many
      have been seen done. */
  datatype Shutdown = Shutdown(captured: seq<Ref>, told: nat, awaited: nat, verdict: Verdict)

  /** A periodic save between its read and its write, with the log it was read from. */
  datatype InHand = InHand(id: BoardId, snap: Snapshot, log: seq<Op>)

  type Key = (HubId, BoardId)

  datatype State = State(
    sessions: seq<Session>,
    boards: seq<Actor>,
    reg: map<Key, Entry>,
    shut: map<HubId, Shutdown>,           // a hub is closing iff it is a key here
    inflight: map<HubId, nat>,            // WaitGroup counters
    gauge: int,                           // BoardOpened minus BoardClosed
    broker: Boards,
    roster: map<BoardId, set<Sid>>,
    store: Snaps,
    savers: multiset<InHand>,
    // history, for stating properties only
    hist: map<BoardId, seq<Op>>,          // the operations behind the broker's present state
    durable: map<BoardId, seq<Op>>,       // those behind the stored snapshot
    loaded: map<BoardId, seq<Op>>,        // those a hydration brought since the last restart
    loads: map<BoardId, nat>)             // how many hydrations brought any

  const INITIAL: State :=
    State([], [], map[], map[], map[], 0, map[], map[], map[], multiset{}, map[], map[], map[], map[])

  function Inflight(s: State, h: HubId): nat { if h in s.inflight then s.inflight[h] else 0 }
  function Roster(s: State, id: BoardId): set<Sid> { if id in s.roster then s.roster[id] else {} }
  function Hist(s: State, id: BoardId): seq<Op> { if id in s.hist then s.hist[id] else [] }
  function DurableLog(s: State, id: BoardId): seq<Op> { if id in s.durable then s.durable[id] else [] }
  function LoadedLog(s: State, id: BoardId): seq<Op> { if id in s.loaded then s.loaded[id] else [] }
  function Loads(s: State, id: BoardId): nat { if id in s.loads then s.loads[id] else 0 }

  datatype SessionStep =
    | Register | SetPresence | FetchSnapshot(snap: Snapshot) | FetchRoster
    | Deliver(room: bool) | GiveUp(cancelled: bool)
    | ReadOp(op: Op) | ApplyOp | PublishOp
    | StopReading | JoinWriter | RemovePresence
    | ReleaseEntry | RequestQuit | Unregister | BoardGone | Return

  datatype BoardStep =
    | LoadStored | HydrateFound | Kick(c: Sid) | TakeQuit
    | ReadFinal(snap: Snapshot) | WriteFinal | CloseDone

  datatype HubStep =
    | AdmitSession(id: BoardId)
    | BeginShutdown(captured: seq<Ref>) | QuitNext | AwaitBoard | AwaitSessions | Timeout

  datatype Step =
    | BySession(c: Sid, session: SessionStep)
    | ByBoard(r: Ref, board: BoardStep)
    | ByHub(h: HubId, hub: HubStep)
    | ReadPeriodic(id: BoardId, snap: Snapshot)
    | WritePeriodic(p: InHand)
    | Restart

  // ---- Sessions ----

  predicate HandsOver(pc: Pc) { pc.HoldingSnapshot? || pc.HoldingRoster? }

  function AfterHandover(pc: Pc): Pc { if pc.HoldingSnapshot? then OnboardingRoster else Reading }

  ghost predicate CanSession(s: State, c: Sid, step: SessionStep) {
    && c < |s.sessions| && s.sessions[c].board < |s.boards|
    && var x := s.sessions[c];
       var phase := s.boards[x.board].phase;
       match step
       case Register => x.pc.Admitted? && phase.Running?
       case SetPresence => x.pc.Registered?
       case FetchSnapshot(snap) => x.pc.Announced? && Replies(s.broker, ReadSnapshot(x.id), Contents(snap))
       case FetchRoster => x.pc.OnboardingRoster?
       case Deliver(_) => HandsOver(x.pc) && phase.Running?
       case GiveUp(cancelled) => HandsOver(x.pc) && (cancelled || phase.Done?)
       case ReadOp(op) => x.pc.Reading? && !x.connClosed && op.id != ""
       case ApplyOp => x.pc.Applying?
       case PublishOp => x.pc.Publishing?
       case StopReading => x.pc.Reading?
       case JoinWriter => x.pc.Stopping?
       case RemovePresence => x.pc.Leaving?
       case ReleaseEntry => x.pc.Releasing?
       case RequestQuit => x.pc.ClosingQuit?
       case Unregister => x.pc.Unregistering? && phase.Running?
       case BoardGone => x.pc.Unregistering? && phase.Done?
       case Return => x.pc.Finishing?
  }

  /** Idempotent removal from the fan-out set: the present flag decides. */
  function Detached(x: Session, closeConn: bool): Session {
    if !x.present then x
    else x.(present := false, sendCloses := x.sendCloses + 1, connClosed := x.connClosed || closeConn)
  }

  function KeyOf(x: Session): Key { (x.hub, x.id) }

  function OutcomeOf(s: State, x: Session): Outcome { ReleaseOutcome(s.reg, KeyOf(x), x.board) }

  /** The last one out closes the board's quit; anyone else unregisters. */
  function AfterRelease(o: Outcome): (pc: Pc)
    ensures pc.ClosingQuit? || pc.Unregistering? || pc.Finishing?
  {
    match o
    case Unknown => Finishing
    case LastLeft => ClosingQuit
    case Remaining => Unregistering
  }

  /** What a session step does to the session itself. */
  function SessionAfter(s: State, x: Session, step: SessionStep): (y: Session)
    ensures y.hub == x.hub && y.id == x.id && y.board == x.board && !y.pc.Admitted?
    ensures !step.ApplyOp? ==> y.lastSn == x.lastSn
  {
    match step
    case Register => x.(present := true, pc := Registered)
    case SetPresence => x.(pc := Announced)
    case FetchSnapshot(snap) => x.(pc := HoldingSnapshot(snap))
    case FetchRoster => x.(pc := HoldingRoster(Roster(s, x.id)))
    // a direct message is ignored if the client is gone and a kick if its queue is full
    case Deliver(room) => (if room then x else Detached(x, true)).(pc := AfterHandover(x.pc))
    case GiveUp(_) => x.(pc := AfterHandover(x.pc))
    case ReadOp(op) => x.(pc := Applying(op))
    case ApplyOp => x.(pc := Publishing, lastSn := Get(s.broker, x.id).sn + 1)
    case PublishOp => x.(pc := Reading)
    case StopReading => x.(pc := Stopping, connClosed := true)
    case JoinWriter => x.(pc := Leaving)
    case RemovePresence => x.(pc := Releasing)
    case ReleaseEntry => x.(pc := AfterRelease(OutcomeOf(s, x)))
    case RequestQuit => x.(pc := Finishing)
    case Unregister => Detached(x, false).(pc := Finishing)
    case BoardGone => x.(pc := Finishing)
    case Return => x.(pc := Returned)
  }

  /** What it does to the session's board. */
  function ActorAfter(s: State, c: Sid, x: Session, b: Actor, step: SessionStep): (d: Actor)
    ensures d.hub == b.hub && d.id == b.id && d.phase == b.phase
    ensures !step.RequestQuit? ==> d.quitRequests == b.quitRequests
    ensures !step.ReleaseEntry? ==> d.lastLeft == b.lastLeft
  {
    match step
    case Register => b.(clients := b.clients + {c})
    case Deliver(room) => if room || !x.present then b else b.(clients := b.clients - {c})
    case Unregister => if !x.present then b else b.(clients := b.clients - {c})
    case ReleaseEntry => if OutcomeOf(s, x).LastLeft? then b.(lastLeft := true) else b
    case RequestQuit => b.(quitRequests := b.quitRequests + 1)
    case _ => b
  }

  function RegAfter(s: State, x: Session, step: SessionStep): map<Key, Entry> {
    if step.ReleaseEntry? then Release(s.reg, KeyOf(x), x.board) else s.reg
  }

  function InflightAfter(s: State, x: Session, step: SessionStep): map<HubId, nat> {
    if step.Return? then s.inflight[x.hub := if Inflight(s, x.hub) > 0 then Inflight(s, x.hub) - 1 else 0]
    else s.inflight
  }

  function RosterAfter(s: State, c: Sid, x: Session, step: SessionStep): map<BoardId, set<Sid>> {
    match step
    case SetPresence => s.roster[x.id := Roster(s, x.id) + {c}]
    case RemovePresence => s.roster[x.id := Roster(s, x.id) - {c}]
    case _ => s.roster
  }

  function BrokerAfter(s: State, x: Session, step: SessionStep): Boards {
    if step.ApplyOp? && x.pc.Applying? then Next(s.broker, ApplyShape(x.id, x.pc.op)) else s.broker
  }

  function HistAfter(s: State, x: Session, step: SessionStep): map<BoardId, seq<Op>> {
    if step.ApplyOp? && x.pc.Applying? then s.hist[x.id := Hist(s, x.id) + [x.pc.op]] else s.hist
  }

  function DoSession(s: State, c: Sid, step: SessionStep): State
    requires c < |s.sessions| && s.sessions[c].board < |s.boards|
  {
    var x := s.sessions[c];
    var r := x.board;
    State(
      s.sessions[c := SessionAfter(s, x, step)], s.boards[r := ActorAfter(s, c, x, s.boards[r], step)],
      RegAfter(s, x, step), s.shut, InflightAfter(s, x, step), s.gauge,
      BrokerAfter(s, x, step), RosterAfter(s, c, x, step), s.store, s.savers,
      HistAfter(s, x, step), s.durable, s.loaded, s.loads)
  }

  // ---- Boards ----

  ghost predicate CanBoard(s: State, r: Ref, step: BoardStep) {
    && r < |s.boards|
    && var b := s.boards[r];
       match step
       case LoadStored => b.phase.Loading?
       case HydrateFound => b.phase.Hydrating?
       case Kick(c) => b.phase.Running? && c in b.clients && c < |s.sessions| && s.sessions[c].board == r
       case TakeQuit => b.phase.Running? && b.quitRequests > 0
       case ReadFinal(snap) => b.phase.Checkpoint? && Replies(s.broker, ReadSnapshot(b.id), Contents(snap))
       case WriteFinal => b.phase.Saving?
       case CloseDone => b.phase.Stopped?
  }

  /** What a board step does to the sessions: a kick removes one client, the drain all. */
  function SessionsAfter(s: State, r: Ref, step: BoardStep): (ss: seq<Session>)
    requires r < |s.boards|
    ensures |ss| == |s.sessions|
    ensures forall c :: 0 <= c < |ss| ==>
      && ss[c].hub == s.sessions[c].hub && ss[c].id == s.sessions[c].id && ss[c].board == s.sessions[c].board
      && ss[c].pc == s.sessions[c].pc && ss[c].lastSn == s.sessions[c].lastSn
  {
    match step
    case Kick(c) => if c < |s.sessions| then s.sessions[c := Detached(s.sessions[c], true)] else s.sessions
    case TakeQuit =>
      seq(|s.sessions|, c requires 0 <= c < |s.sessions| =>
        if c in s.boards[r].clients then Detached(s.sessions[c], true) else s.sessions[c])
    case _ => s.sessions
  }

  function PhaseAfter(s: State, b: Actor, step: BoardStep): Phase {
    match step
    case LoadStored => Hydrating(Find(s.store, b.id), DurableLog(s, b.id))
    case HydrateFound => Running
    case Kick(_) => b.phase
    case TakeQuit => Checkpoint
    case ReadFinal(snap) => Saving(snap, Hist(s, b.id))
    case WriteFinal => Stopped
    case CloseDone => Done
  }

  function ClientsAfter(b: Actor, step: BoardStep): set<Sid> {
    match step
    case Kick(c) => b.clients - {c}
    case TakeQuit => {}
    case _ => b.clients
  }

  /** The hydration call, if the store had a snapshot. */
  function Hydrates(b: Actor, step: BoardStep): bool {
    step.HydrateFound? && b.phase.Hydrating? && b.phase.found.Some?
  }

  function BrokerAfterBoard(s: State, b: Actor, step: BoardStep): Boards {
    if Hydrates(b, step) then Next(s.broker, Hydrate(b.id, b.phase.found.value)) else s.broker
  }

  /** It loads into a broker without state. */
  function LoadsNow(s: State, b: Actor, step: BoardStep): bool {
    Hydrates(b, step) && !HasState(Get(s.broker, b.id))
  }

  function HistAfterBoard(s: State, b: Actor, step: BoardStep): map<BoardId, seq<Op>> {
    if LoadsNow(s, b, step) then s.hist[b.id := b.phase.log] else s.hist
  }

  function LoadedAfter(s: State, b: Actor, step: BoardStep): map<BoardId, seq<Op>> {
    if LoadsNow(s, b, step) then s.loaded[b.id := b.phase.log] else s.loaded
  }

  function LoadsAfter(s: State, b: Actor, step: BoardStep): map<BoardId, nat> {
    if LoadsNow(s, b, step) && b.phase.log != [] then s.loads[b.id := Loads(s, b.id) + 1] else s.loads
  }

  /** The durable logs after a save, under the store's own guard. */
  function DurableAfterSave(s: State, id: BoardId, snap: Snapshot, log: seq<Op>): map<BoardId, seq<Op>> {
    if id in s.store && snap.sn < s.store[id].sn then s.durable else s.durable[id := log]
  }

  function DurableAfter(s: State, b: Actor, step: BoardStep): map<BoardId, seq<Op>> {
    if step.WriteFinal? && b.phase.Saving? then DurableAfterSave(s, b.id, b.phase.snap, b.phase.log) else s.durable
  }

  function StoreAfter(s: State, b: Actor, step: BoardStep): Snaps {
    if step.WriteFinal? && b.phase.Saving? then Save(s.store, b.id, b.phase.snap) else s.store
  }

  function DoBoard(s: State, r: Ref, step: BoardStep): State
    requires r < |s.boards|
  {
    var b := s.boards[r];
    State(
      SessionsAfter(s, r, step), s.boards[r := b.(phase := PhaseAfter(s, b, step), clients := ClientsAfter(b, step))],
      s.reg, s.shut, s.inflight, if step.CloseDone? then s.gauge - 1 else s.gauge,
      BrokerAfterBoard(s, b, step), s.roster, StoreAfter(s, b, step), s.savers,
      HistAfterBoard(s, b, step), DurableAfter(s, b, step), LoadedAfter(s, b, step), LoadsAfter(s, b, step))
  }

  // ---- Hubs ----

  /** The part of the registry that belongs to one hub, by board id. */
  function OwnEntries(reg: map<Key, Entry>, h: HubId): map<Key, Entry> {
    map k | k in reg && k.0 == h :: reg[k]
  }

  function OtherEntries(reg: map<Key, Entry>, h: HubId): map<Key, Entry> {
    map k | k in reg && k.0 != h :: reg[k]
  }

  ghost predicate CanHub(s: State, h: HubId, step: HubStep) {
    match step
    case AdmitSession(_) => h !in s.shut
    case BeginShutdown(captured) => h !in s.shut && Enumerates(captured, OwnEntries(s.reg, h))
    case QuitNext =>
      && h in s.shut && s.shut[h].told < |s.shut[h].captured|
      && s.shut[h].captured[s.shut[h].told] < |s.boards|
    case AwaitBoard =>
      && h in s.shut && s.shut[h].verdict.Pending? && s.shut[h].told == |s.shut[h].captured|
      && s.shut[h].awaited < |s.shut[h].captured|
      && s.shut[h].captured[s.shut[h].awaited] < |s.boards|
      && s.boards[s.shut[h].captured[s.shut[h].awaited]].phase.Done?
    case AwaitSessions =>
      && h in s.shut && s.shut[h].verdict.Pending? && s.shut[h].told == |s.shut[h].captured|
      && s.shut[h].awaited == |s.shut[h].captured| && Inflight(s, h) == 0
    case Timeout =>
      h in s.shut && s.shut[h].verdict.Pending? && s.shut[h].told == |s.shut[h].captured|
  }

  function AdmitOne(s: State, h: HubId, id: BoardId): State {
    var key := (h, id);
    var isNew := key !in s.reg;
    var reg := Admit(s.reg, key, |s.boards|);
    s.(reg := reg,
       boards := if isNew then s.boards + [Actor(h, id, Loading, 0, {}, false)] else s.boards,
       gauge := if isNew then s.gauge + 1 else s.gauge,
       inflight := s.inflight[h := Inflight(s, h) + 1],
       sessions := s.sessions + [Session(h, id, reg[key].board, Admitted, false, 0, false, 0)])
  }

  function AskQuit(bs: seq<Actor>, r: Ref): seq<Actor>
    requires r < |bs|
  {
    bs[r := bs[r].(quitRequests := bs[r].quitRequests + 1)]
  }

  function DoHub(s: State, h: HubId, step: HubStep): State
    requires step.QuitNext? || step.AwaitBoard? || step.AwaitSessions? || step.Timeout? ==> h in s.shut
    requires step.QuitNext? ==> s.shut[h].told < |s.shut[h].captured| && s.shut[h].captured[s.shut[h].told] < |s.boards|
  {
    match step
    case AdmitSession(id) => AdmitOne(s, h, id)
    case BeginShutdown(captured) =>
      s.(shut := s.shut[h := Shutdown(captured, 0, 0, Pending)], reg := OtherEntries(s.reg, h))
    case QuitNext =>
      var d := s.shut[h];
      s.(boards := AskQuit(s.boards, d.captured[d.told]), shut := s.shut[h := d.(told := d.told + 1)])
    case AwaitBoard => s.(shut := s.shut[h := s.shut[h].(awaited := s.shut[h].awaited + 1)])
    case AwaitSessions => s.(shut := s.shut[h := s.shut[h].(verdict := Drained)])
    case Timeout => s.(shut := s.shut[h := s.shut[h].(verdict := TimedOut)])
  }

  // ---- The whole ----

  /** Nobody uses the broker. */
  ghost predicate Idle(s: State) {
    && (forall c :: 0 <= c < |s.sessions| ==> s.sessions[c].pc.Returned?)
    && (forall r :: 0 <= r < |s.boards| ==> s.boards[r].phase.Done?)
  }

  /** The shared broker loses everything it holds; periodic saves may be in flight. */
  function RestartBroker(s: State): State {
    s.(broker := map[], roster := map[], hist := map[], loaded := map[], loads := map[])
  }

  function LandSave(s: State, p: InHand): State {
    s.(savers := s.savers - multiset{p}, store := Save(s.store, p.id, p.snap),
       durable := DurableAfterSave(s, p.id, p.snap, p.log))
  }

  ghost predicate Can(s: State, a: Step) {
    match a
    case BySession(c, step) => CanSession(s, c, step)
    case ByBoard(r, step) => CanBoard(s, r, step) && (step.Kick? ==> r < |s.boards|)
    case ByHub(h, step) => CanHub(s, h, step)
    case ReadPeriodic(id, snap) => Replies(s.broker, ReadSnapshot(id), Contents(snap))
    case WritePeriodic(p) => p in s.savers
    case Restart => Idle(s)
  }

  ghost function Do(s: State, a: Step): State
    requires Can(s, a)
  {
    match a
    case BySession(c, step) => DoSession(s, c, step)
    case ByBoard(r, step) => DoBoard(s, r, step)
    case ByHub(h, step) => DoHub(s, h, step)
    case ReadPeriodic(id, snap) => s.(savers := s.savers + multiset{InHand(id, snap, Hist(s, id))})
    case WritePeriodic(p) => LandSave(s, p)
    case Restart => RestartBroker(s)
  }

  /** `t` is reached from `s` by the steps `run`, in order. */
  ghost predicate Reaches(s: State, run: seq<Step>, t: State)
    decreases |run|
  {
    if run == [] then s == t
    else Can(s, run[0]) && Reaches(Do(s, run[0]), run[1..], t)
  }

  ghost predicate Reachable(t: State) {
    exists run :: Reaches(INITIAL, run, t)
  }
}
