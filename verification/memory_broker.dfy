/** The in-process broker (internal/broker/memory.go): maps mutated under one lock, so
    every method below is one atomic step. */
module MemoryBroker {
  import opened Protocol
  import opened Sequencer
  import opened SnapshotList

  /** Roster entries are encoded presences; one that does not decode is skipped. */
  datatype Presence = Presence(clientId: ClientId, name: string, color: string)
  datatype Encoded = Decodes(p: Presence) | Garbage

  datatype MemBoard = MemBoard(state: Board, presence: map<ClientId, Encoded>)

  const NEW_BOARD: MemBoard := MemBoard(EMPTY, map[])

  // ---- The broker contract, over plain values ----

  type Boards = map<BoardId, Board>

  function Get(m: Boards, id: BoardId): Board {
    if id in m then m[id] else EMPTY
  }

  datatype Call =
    | ApplyShape(board: BoardId, op: Op)
    | Hydrate(board: BoardId, snap: Snapshot)
    | ReadSnapshot(board: BoardId)

  datatype Reply = Assigned(sn: nat) | Loaded(ok: bool) | Contents(snap: Snapshot) | Failed

  predicate HasState(b: Board) {
    b.sn != 0 || |b.shapes| > 0
  }

  function Next(m: Boards, c: Call): Boards {
    match c
    case ApplyShape(id, op) => m[id := Apply(Get(m, id), op)]
    case Hydrate(id, snap) => if HasState(Get(m, id)) then m else m[id := Board(snap.sn, Load(snap.shapes))]
    case ReadSnapshot(_) => m
  }

  ghost predicate Replies(m: Boards, c: Call, r: Reply) {
    match c
    case ApplyShape(id, _) => r == Assigned(Get(m, id).sn + 1)
    case Hydrate(id, _) => r == Loaded(!HasState(Get(m, id)))
    case ReadSnapshot(id) => r.Contents? && r.snap.sn == Get(m, id).sn && Arranges(r.snap.shapes, Get(m, id).shapes)
  }

  function RunAll(m: Boards, cs: seq<Call>): Boards {
    if cs == [] then m else Next(RunAll(m, cs[..|cs| - 1]), cs[|cs| - 1])
  }

  ghost predicate SameBoards(m: Boards, m': Boards) {
    forall id :: Get(m, id) == Get(m', id)
  }

  /** The operations a call sequence sequenced on one board. */
  function OpsOf(cs: seq<Call>, id: BoardId): seq<Op> {
    if cs == [] then []
    else
      var c := cs[|cs| - 1];
      OpsOf(cs[..|cs| - 1], id) + (if c.ApplyShape? && c.board == id then [c.op] else [])
  }

  /** Without hydration every board is the replay of its own operations, and each call is
      assigned the next number of its board: contiguous, from 1. */
  lemma {:induction false} BoardsAreReplays(cs: seq<Call>, id: BoardId)
    requires forall c :: c in cs ==> !c.Hydrate?
    ensures Get(RunAll(map[], cs), id) == Replay(OpsOf(cs, id))
    ensures forall r, op :: Replies(RunAll(map[], cs), ApplyShape(id, op), r) <==> r == Assigned(|OpsOf(cs, id)| + 1)
  {
    ReplaySeq(OpsOf(cs, id));
    if cs != [] {
      BoardsAreReplays(cs[..|cs| - 1], id);
      var c := cs[|cs| - 1];
      assert c in cs;
      if c.ApplyShape? && c.board == id {
        ReplayExtend(OpsOf(cs[..|cs| - 1], id), c.op);
      } else {
        assert OpsOf(cs, id) == OpsOf(cs[..|cs| - 1], id);
      }
    }
  }

  // ---- Lexicographic order on client ids, as the roster is sorted ----

  predicate Less(a: ClientId, b: ClientId) {
    b != [] && (a == [] || a[0] < b[0] || (a[0] == b[0] && Less(a[1..], b[1..])))
  }

  /** Ascending, as strings compare: at the first difference, or by being a proper prefix. */
  ghost predicate FirstDifference(a: ClientId, b: ClientId, k: nat) {
    k <= |a| && k < |b| && a[..k] == b[..k] && (k == |a| || a[k] < b[k])
  }

  lemma FirstDifferenceOfTails(a: ClientId, b: ClientId, k: nat)
    requires a != [] && b != [] && a[0] == b[0]
    ensures FirstDifference(a[1..], b[1..], k) <==> FirstDifference(a, b, k + 1)
  {
    if k <= |a[1..]| && k < |b[1..]| {
      assert a[..k + 1] == [a[0]] + a[1..][..k] && b[..k + 1] == [b[0]] + b[1..][..k];
      assert a[..k + 1][1..] == a[1..][..k] && b[..k + 1][1..] == b[1..][..k];
    }
  }

  lemma {:induction false} LessIff(a: ClientId, b: ClientId)
    ensures Less(a, b) <==> exists k: nat :: FirstDifference(a, b, k)
  {
    if a != [] && b != [] && a[0] == b[0] {
      LessIff(a[1..], b[1..]);
      if k: nat :| FirstDifference(a[1..], b[1..], k) {
        FirstDifferenceOfTails(a, b, k);
      }
      if k: nat :| FirstDifference(a, b, k) {
        FirstDifferenceOfTails(a, b, k - 1);
      }
    } else {
      assert Less(a, b) ==> FirstDifference(a, b, 0);
      if k: nat :| FirstDifference(a, b, k) && k > 0 {
        assert a[..k][0] == b[..k][0];
      }
    }
  }

  lemma {:induction false} LessTransitive(a: ClientId, b: ClientId, c: ClientId)
    requires Less(a, b) && Less(b, c)
    ensures Less(a, c)
  {
    if a != [] && a[0] == b[0] && b[0] == c[0] {
      LessTransitive(a[1..], b[1..], c[1..]);
    }
  }

  lemma {:induction false} LessTotal(a: ClientId, b: ClientId)
    ensures !(Less(a, b) && Less(b, a))
    ensures Less(a, b) || Less(b, a) || a == b
  {
    if a != [] && b != [] && a[0] == b[0] {
      LessTotal(a[1..], b[1..]);
      if a[1..] == b[1..] {
        assert a == [a[0]] + a[1..] && b == [b[0]] + b[1..];
      }
    }
  }

  lemma NotLessTransitive(a: ClientId, b: ClientId, c: ClientId)
    requires !Less(b, a) && !Less(c, b)
    ensures !Less(c, a)
  {
    LessTotal(a, b);
    LessTotal(b, c);
    LessTotal(a, c);
    if Less(a, b) && Less(b, c) {
      LessTransitive(a, b, c);
    }
  }

  ghost predicate ById(ps: seq<Presence>) {
    forall i, j :: 0 <= i < j < |ps| ==> !Less(ps[j].clientId, ps[i].clientId)
  }

  ghost predicate StrictlyById(ps: seq<Presence>) {
    forall i, j :: 0 <= i < j < |ps| ==> Less(ps[i].clientId, ps[j].clientId)
  }

  /** Entry by entry, `ps` is what is stored under the distinct `keys`. */
  ghost predicate StoredUnder(ps: seq<Presence>, keys: seq<ClientId>, roster: map<ClientId, Encoded>) {
    && |ps| == |keys|
    && (forall i, j :: 0 <= i < j < |keys| ==> keys[i] != keys[j])
    && (forall i :: 0 <= i < |keys| ==> keys[i] in roster && roster[keys[i]] == Decodes(ps[i]))
  }

  ghost predicate CoversRoster(keys: seq<ClientId>, roster: map<ClientId, Encoded>) {
    forall id :: id in roster && roster[id].Decodes? ==> id in keys
  }

  /** `ps` lists every decodable entry exactly once, in id order. */
  ghost predicate ListsEntries(ps: seq<Presence>, roster: map<ClientId, Encoded>) {
    ById(ps) && exists keys :: StoredUnder(ps, keys, roster) && CoversRoster(keys, roster)
  }

  /** Every decodable entry is stored under its own client id. */
  ghost predicate Keyed(roster: map<ClientId, Encoded>) {
    forall id :: id in roster && roster[id].Decodes? ==> roster[id].p.clientId == id
  }

  /** `ps` lists the decodable roster entries, strictly ordered by id. */
  ghost predicate ListsRoster(ps: seq<Presence>, roster: map<ClientId, Encoded>) {
    && StrictlyById(ps)
    && (forall p :: p in ps <==> p.clientId in roster && roster[p.clientId] == Decodes(p))
  }

  /** Where every participant is stored under its own id, nobody is listed twice. */
  lemma KeyedListsRoster(ps: seq<Presence>, roster: map<ClientId, Encoded>)
    requires ListsEntries(ps, roster) && Keyed(roster)
    ensures ListsRoster(ps, roster)
  {
    var keys :| StoredUnder(ps, keys, roster) && CoversRoster(keys, roster);
    forall i | 0 <= i < |ps|
      ensures ps[i].clientId == keys[i]
    {
      assert roster[keys[i]] == Decodes(ps[i]);
    }
    forall i, j | 0 <= i < j < |ps|
      ensures Less(ps[i].clientId, ps[j].clientId)
    {
      LessTotal(ps[i].clientId, ps[j].clientId);
    }
    forall p: Presence | p.clientId in roster && roster[p.clientId] == Decodes(p)
      ensures p in ps
    {
      var i :| 0 <= i < |keys| && keys[i] == p.clientId;
      assert ps[i] == p;
    }
  }

  method InsertById(ps: seq<Presence>, p: Presence) returns (k: nat, qs: seq<Presence>)
    requires ById(ps)
    ensures k <= |ps| && qs == ps[..k] + [p] + ps[k..] && ById(qs)
  {
    k := |ps|;
    while k > 0 && Less(p.clientId, ps[k - 1].clientId)
      invariant k <= |ps|
      invariant forall i :: k <= i < |ps| ==> Less(p.clientId, ps[i].clientId)
    {
      k := k - 1;
    }
    if k > 0 {
      forall i | 0 <= i < k - 1
        ensures !Less(p.clientId, ps[i].clientId)
      {
        NotLessTransitive(ps[i].clientId, ps[k - 1].clientId, p.clientId);
      }
    }
    InsertedById(ps, k, p);
    qs := ps[..k] + [p] + ps[k..];
  }

  lemma InsertedById(ps: seq<Presence>, k: nat, p: Presence)
    requires ById(ps) && k <= |ps|
    requires forall i :: 0 <= i < k ==> !Less(p.clientId, ps[i].clientId)
    requires forall i :: k <= i < |ps| ==> Less(p.clientId, ps[i].clientId)
    ensures ById(ps[..k] + [p] + ps[k..])
  {
    forall i | k <= i < |ps|
      ensures !Less(ps[i].clientId, p.clientId)
    {
      LessTotal(p.clientId, ps[i].clientId);
    }
  }

  lemma InsertedUnder(ps: seq<Presence>, keys: seq<ClientId>, roster: map<ClientId, Encoded>, k: nat, id: ClientId)
    requires StoredUnder(ps, keys, roster) && k <= |ps|
    requires id !in keys && id in roster && roster[id].Decodes?
    ensures StoredUnder(ps[..k] + [roster[id].p] + ps[k..], keys[..k] + [id] + keys[k..], roster)
    ensures forall x :: x in keys[..k] + [id] + keys[k..] <==> x == id || x in keys
  {
    assert keys == keys[..k] + keys[k..];
  }

  /** Decode the roster in any order, then sort by id. */
  method DecodeRoster(roster: map<ClientId, Encoded>) returns (out: seq<Presence>)
    ensures ListsEntries(out, roster)
    ensures Keyed(roster) ==> ListsRoster(out, roster)
  {
    out := [];
    ghost var keys: seq<ClientId> := [];
    var todo := roster.Keys;
    while todo != {}
      invariant todo <= roster.Keys
      invariant ById(out) && StoredUnder(out, keys, roster)
      invariant forall id :: id in keys ==> id !in todo
      invariant forall id :: id in roster && id !in todo && roster[id].Decodes? ==> id in keys
      decreases |todo|
    {
      var id :| id in todo;
      todo := todo - {id};
      match roster[id]
      case Decodes(p) =>
        var k, longer := InsertById(out, p);
        InsertedUnder(out, keys, roster, k, id);
        out := longer;
        keys := keys[..k] + [id] + keys[k..];
      case Garbage =>
    }
    assert CoversRoster(keys, roster);
    if Keyed(roster) {
      KeyedListsRoster(out, roster);
    }
  }

  class Memory {
    var boards: map<BoardId, MemBoard>

    ghost function View(): Boards
      reads this
    {
      map id | id in boards :: boards[id].state
    }

    ghost function Roster(id: BoardId): map<ClientId, Encoded>
      reads this
    {
      if id in boards then boards[id].presence else map[]
    }

    constructor ()
      ensures boards == map[]
    {
      boards := map[];
    }

    /** The board's state, created on first use. */
    method Touch(id: BoardId) returns (b: MemBoard)
      modifies this
      ensures id in boards && boards[id] == b
      ensures boards == old(boards)[id := b]
      ensures b == if id in old(boards) then old(boards)[id] else NEW_BOARD
    {
      if id !in boards {
        boards := boards[id := NEW_BOARD];
      }
      b := boards[id];
    }

    method ApplyShape(boardID: BoardId, shapeID: ShapeId, shape: Blob, del: bool) returns (sn: nat)
      modifies this
      ensures var c := Call.ApplyShape(boardID, if del then Del(shapeID) else Put(shapeID, shape));
        SameBoards(View(), Next(old(View()), c)) && Replies(old(View()), c, Assigned(sn))
      ensures forall id :: Roster(id) == old(Roster(id))
    {
      var b := Touch(boardID);
      sn := b.state.sn + 1;
      var shapes := if del then b.state.shapes - {shapeID} else b.state.shapes[shapeID := Stored(sn, shape)];
      boards := boards[boardID := b.(state := Board(sn, shapes))];
    }

    method Snapshot(boardID: BoardId) returns (snap: Snapshot)
      modifies this
      ensures SameBoards(View(), old(View())) && Replies(old(View()), ReadSnapshot(boardID), Contents(snap))
      ensures forall id :: Roster(id) == old(Roster(id))
    {
      var b := Touch(boardID);
      var shapes := Collect(b.state.shapes);
      snap := Protocol.Snapshot.Snapshot(b.state.sn, shapes);
    }

    method Hydrate(boardID: BoardId, snap: Snapshot) returns (loaded: bool)
      modifies this
      ensures var c := Call.Hydrate(boardID, snap);
        SameBoards(View(), Next(old(View()), c)) && Replies(old(View()), c, Loaded(loaded))
      ensures forall id :: Roster(id) == old(Roster(id))
    {
      var b := Touch(boardID);
      if b.state.sn != 0 || |b.state.shapes| > 0 {
        return false;
      }
      var shapes := Fill(snap.shapes);
      boards := boards[boardID := b.(state := Board(snap.sn, shapes))];
      loaded := true;
    }

    method SetPresence(boardID: BoardId, clientID: ClientId, presence: Encoded)
      modifies this
      ensures SameBoards(View(), old(View()))
      ensures forall id ::
        Roster(id) == if id == boardID then old(Roster(id))[clientID := presence] else old(Roster(id))
      ensures old(Keyed(Roster(boardID))) && (presence.Decodes? ==> presence.p.clientId == clientID) ==>
        Keyed(Roster(boardID))
    {
      var b := Touch(boardID);
      boards := boards[boardID := b.(presence := b.presence[clientID := presence])];
    }

    method RemovePresence(boardID: BoardId, clientID: ClientId)
      modifies this
      ensures SameBoards(View(), old(View()))
      ensures forall id :: Roster(id) == if id == boardID then old(Roster(id)) - {clientID} else old(Roster(id))
      ensures old(Keyed(Roster(boardID))) ==> Keyed(Roster(boardID))
    {
      var b := Touch(boardID);
      boards := boards[boardID := b.(presence := b.presence - {clientID})];
    }

    method RosterOf(boardID: BoardId) returns (roster: map<ClientId, Encoded>)
      modifies this
      ensures SameBoards(View(), old(View())) && forall id :: Roster(id) == old(Roster(id))
      ensures roster == old(Roster(boardID))
    {
      var b := Touch(boardID);
      roster := b.presence;
    }

    method Presence(boardID: BoardId) returns (out: seq<Presence>)
      modifies this
      ensures SameBoards(View(), old(View())) && forall id :: Roster(id) == old(Roster(id))
      ensures ListsEntries(out, old(Roster(boardID)))
      ensures Keyed(old(Roster(boardID))) ==> ListsRoster(out, old(Roster(boardID)))
    {
      var roster := RosterOf(boardID);
      out := DecodeRoster(roster);
    }
  }

  /** The onboarding roster message: everyone on the board except the client itself. */
  method OthersOf(roster: seq<Presence>, self: ClientId) returns (others: seq<Presence>)
    ensures StrictlyById(roster) ==> StrictlyById(others)
    ensures forall p :: p in others <==> p in roster && p.clientId != self
  {
    others := [];
    for i := 0 to |roster|
      invariant StrictlyById(roster) ==> StrictlyById(others)
      invariant forall p :: p in others <==> p in roster[..i] && p.clientId != self
    {
      if roster[i].clientId != self {
        forall k | 0 <= k < |others| && StrictlyById(roster)
          ensures Less(others[k].clientId, roster[i].clientId)
        {
          assert others[k] in others;
          var j :| 0 <= j < i && roster[j] == others[k];
        }
        others := others + [roster[i]];
      }
      assert roster[..i + 1] == roster[..i] + [roster[i]];
    }
    assert roster[..|roster|] == roster;
  }
}
