/** The durable store (internal/store/memory.go; the same guard is the WHERE clause of
    internal/store/postgres.go). */
module SnapshotStore {
  import opened Protocol

  type Snaps = map<BoardId, Snapshot>

  /** A save never replaces a snapshot with a higher sequence number. */
  function Save(snaps: Snaps, id: BoardId, snap: Snapshot): Snaps {
    if id in snaps && snap.sn < snaps[id].sn then snaps else snaps[id := snap]
  }

  function Find(snaps: Snaps, id: BoardId): Option<Snapshot> {
    if id in snaps then Some(snaps[id]) else None
  }

  /** The durable sequence number; a board never saved counts as 0. */
  function StoredSn(snaps: Snaps, id: BoardId): nat {
    if id in snaps then snaps[id].sn else 0
  }

  class MemoryStore {
    var snaps: Snaps

    constructor ()
      ensures snaps == map[]
    {
      snaps := map[];
    }

    method LoadSnapshot(boardID: BoardId) returns (snap: Option<Snapshot>)
      ensures snap == Find(snaps, boardID)
    {
      snap := if boardID in snaps then Some(snaps[boardID]) else None;
    }

    method SaveSnapshot(boardID: BoardId, snap: Snapshot)
      modifies this
      ensures snaps == Save(old(snaps), boardID, snap)
      ensures var n := old(StoredSn(snaps, boardID)); StoredSn(snaps, boardID) == if n < snap.sn then snap.sn else n
      ensures forall id :: id != boardID ==> Find(snaps, id) == old(Find(snaps, id))
    {
      if boardID in snaps && snap.sn < snaps[boardID].sn {
        return;
      }
      snaps := snaps[boardID := snap];
    }
  }

  // ---- Any number of savers ----

  /** The saves of one board, in the order in which they reach the store. */
  function SaveAll(snaps: Snaps, id: BoardId, saves: seq<Snapshot>): Snaps {
    if saves == [] then snaps else Save(SaveAll(snaps, id, saves[..|saves| - 1]), id, saves[|saves| - 1])
  }

  /** The store ends up with one of the newest snapshots offered, and loads give that one
      back; the numbers it held before are never undercut. */
  lemma {:induction false} SavesKeepNewest(snaps: Snaps, id: BoardId, saves: seq<Snapshot>)
    ensures StoredSn(snaps, id) <= StoredSn(SaveAll(snaps, id, saves), id)
    ensures forall s :: s in saves ==> s.sn <= StoredSn(SaveAll(snaps, id, saves), id)
    ensures match Find(SaveAll(snaps, id, saves), id)
            case Some(s) => s in saves || Find(snaps, id) == Some(s)
            case None => saves == [] && Find(snaps, id) == None
    ensures forall other :: other != id ==> Find(SaveAll(snaps, id, saves), other) == Find(snaps, other)
  {
    if saves != [] {
      SavesKeepNewest(snaps, id, saves[..|saves| - 1]);
    }
  }

  /** Racing savers: as long as equal numbers mean equal snapshots, the order in which the
      saves arrive, and how often, does not matter. */
  lemma SaveOrderIsIrrelevant(snaps: Snaps, id: BoardId, saves: seq<Snapshot>, others: seq<Snapshot>)
    requires forall s :: s in saves <==> s in others
    requires forall s, t :: s in saves && t in saves && s.sn == t.sn ==> s == t
    requires id in snaps ==> forall s :: s in saves && s.sn == snaps[id].sn ==> s == snaps[id]
    ensures Find(SaveAll(snaps, id, saves), id) == Find(SaveAll(snaps, id, others), id)
  {
    SavesKeepNewest(snaps, id, saves);
    SavesKeepNewest(snaps, id, others);
    assert others != [] ==> others[0] in saves;
    assert saves != [] ==> saves[0] in others;
  }
}
