/** The hub's registry of live boards (internal/hub/hub.go): keep-open counts under one
    mutex. The functions are the critical sections over plain values; `Hub` is the same
    code updating its fields. */
module Registry {
  import opened Protocol

  /** A board incarnation: reopening an id after teardown creates a new one. */
  type Ref = nat

  datatype Entry = Entry(board: Ref, count: int)

  /** What a release tells its caller to do next. */
  datatype Outcome = Unknown | LastLeft | Remaining

  /** Admission: join the registered board, or register the fresh one. */
  function Admit<K>(reg: map<K, Entry>, k: K, newBoard: Ref): map<K, Entry> {
    if k in reg then reg[k := Entry(reg[k].board, reg[k].count + 1)] else reg[k := Entry(newBoard, 1)]
  }

  function ReleaseOutcome<K>(reg: map<K, Entry>, k: K, b: Ref): Outcome {
    if k !in reg || reg[k].board != b then Unknown
    else if reg[k].count - 1 == 0 then LastLeft
    else Remaining
  }

  function Release<K>(reg: map<K, Entry>, k: K, b: Ref): map<K, Entry> {
    match ReleaseOutcome(reg, k, b)
    case Unknown => reg
    case LastLeft => reg - {k}
    case Remaining => reg[k := Entry(b, reg[k].count - 1)]
  }

  /** Every board a shutdown must stop, each listed once. */
  ghost predicate Enumerates<K>(refs: seq<Ref>, reg: map<K, Entry>) {
    && (forall r :: r in refs <==> exists k :: k in reg && reg[k].board == r)
    && (forall i, j :: 0 <= i < j < |refs| ==> refs[i] != refs[j])
  }

  /** Distinct ids are registered to distinct boards. */
  ghost predicate Injective<K>(reg: map<K, Entry>) {
    forall k, k' :: k in reg && k' in reg && reg[k].board == reg[k'].board ==> k == k'
  }

  class Hub {
    var boards: map<BoardId, Entry>
    var closing: bool
    var sessions: nat // in-flight Serve calls
    var created: nat  // boards ever created; the next one gets this reference

    ghost predicate Valid()
      reads this
    {
      && (forall id :: id in boards ==> boards[id].board < created && boards[id].count >= 1)
      && Injective(boards)
      && (closing ==> boards == map[])
    }

    constructor ()
      ensures Valid() && boards == map[] && !closing && sessions == 0
    {
      boards, closing, sessions, created := map[], false, 0, 0;
    }

    /** One critical section: reject, or count the session in and hand out its board. */
    method BeginSession(id: BoardId) returns (board: Option<Ref>)
      requires Valid()
      modifies this
      ensures Valid() && closing == old(closing)
      ensures closing ==> board == None && unchanged(this)
      ensures !closing ==> boards == Admit(old(boards), id, old(created)) && board == Some(boards[id].board)
      ensures !closing ==> sessions == old(sessions) + 1
    {
      if closing {
        return None;
      }
      sessions := sessions + 1;
      var e: Entry;
      if id in boards {
        e := boards[id];
      } else {
        e := Entry(created, 0);
        created := created + 1;
      }
      e := e.(count := e.count + 1);
      boards := boards[id := e];
      board := Some(e.board);
    }

    /** The critical section of a release; the caller then stops or leaves the board. */
    method ReleaseEntry(id: BoardId, b: Ref) returns (o: Outcome)
      requires Valid()
      modifies this`boards
      ensures Valid()
      ensures o == ReleaseOutcome(old(boards), id, b) && boards == Release(old(boards), id, b)
    {
      if id !in boards || boards[id].board != b {
        return Unknown;
      }
      var e := boards[id];
      e := e.(count := e.count - 1);
      if e.count == 0 {
        boards := boards - {id};
        o := LastLeft;
      } else {
        boards := boards[id := e];
        o := Remaining;
      }
    }

    /** The critical section of a shutdown: close the door and take every board. */
    method BeginShutdown() returns (first: bool, captured: seq<Ref>)
      requires Valid()
      modifies this
      ensures Valid() && closing && first == !old(closing)
      ensures first ==> boards == map[] && Enumerates(captured, old(boards))
      ensures !first ==> captured == [] && unchanged(this)
      ensures sessions == old(sessions) && created == old(created)
    {
      captured := [];
      if closing {
        return false, captured;
      }
      closing := true;
      var todo := boards.Keys;
      while todo != {}
        invariant todo <= boards.Keys && boards == old(boards) && Injective(boards)
        invariant closing && sessions == old(sessions) && created == old(created)
        invariant forall r :: r in captured <==> exists k :: k in boards && k !in todo && boards[k].board == r
        invariant forall i, j :: 0 <= i < j < |captured| ==> captured[i] != captured[j]
        decreases |todo|
      {
        var id :| id in todo;
        assert boards[id].board !in captured;
        todo := todo - {id};
        captured := captured + [boards[id].board];
      }
      boards := map[];
      first := true;
    }
  }
}
