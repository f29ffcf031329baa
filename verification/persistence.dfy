/** The coordinator between broker and store (internal/hub/persistence.go), as code over
    the two in-process components. Each method is two atomic steps; what may happen
    between them is the subject of `Durability` and `Runs`. */
module PersistenceCoordinator {
  import opened Protocol
  import opened Sequencer
  import opened SnapshotList
  import opened MemoryBroker
  import opened SnapshotStore

  class Persistence {
    const broker: Memory
    const store: MemoryStore

    constructor (broker: Memory, store: MemoryStore)
      ensures this.broker == broker && this.store == store
    {
      this.broker, this.store := broker, store;
    }

    /** Load the durable snapshot, if there is one, into a broker without state. */
    method Hydrate(boardID: BoardId)
      modifies broker
      ensures boardID in store.snaps ==>
        SameBoards(broker.View(), Next(old(broker.View()), Call.Hydrate(boardID, store.snaps[boardID])))
      ensures boardID !in store.snaps ==> broker.View() == old(broker.View())
      ensures forall id :: broker.Roster(id) == old(broker.Roster(id))
    {
      var found := store.LoadSnapshot(boardID);
      match found
      case None =>
      case Some(snap) =>
        var _ := broker.Hydrate(boardID, snap);
    }

    /** Read the board's snapshot and save it; afterwards the store is at least as recent
        as the broker was. */
    method Save(boardID: BoardId)
      modifies broker, store
      ensures exists snap :: Replies(old(broker.View()), ReadSnapshot(boardID), Contents(snap))
                             && store.snaps == SnapshotStore.Save(old(store.snaps), boardID, snap)
      ensures SameBoards(broker.View(), old(broker.View()))
      ensures StoredSn(store.snaps, boardID) >= Get(old(broker.View()), boardID).sn
    {
      var snap := broker.Snapshot(boardID);
      store.SaveSnapshot(boardID, snap);
    }
  }

  /** Hydrating an empty broker from any snapshot of a reachable board rebuilds it. */
  lemma HydrateRebuilds(id: BoardId, b: Board, r: Reply, m: Boards)
    requires WellFormed(b) && Get(m, id) == b && Replies(m, ReadSnapshot(id), r)
    ensures Get(Next(map[], Hydrate(id, r.snap)), id) == b
  {
    ArrangedIsSnapshot(r.snap.shapes, b);
    LoadSnapshotRoundTrip(r.snap, b);
  }

  /** A board hydrated from a well-formed snapshot gives back that snapshot and no other. */
  lemma SnapshotAfterHydrate(id: BoardId, snap: Snapshot, r: Reply)
    requires WellFormedSnapshot(snap)
    ensures Replies(Next(map[], Hydrate(id, snap)), ReadSnapshot(id), r) <==> r == Contents(snap)
  {
    WellFormedSnapshotsAreSnapshots(snap);
    var b := Board(snap.sn, Load(snap.shapes));
    assert Get(Next(map[], Hydrate(id, snap)), id) == b;
    SnapshotIsArranged(snap, b);
    if Replies(Next(map[], Hydrate(id, snap)), ReadSnapshot(id), r) {
      ArrangedIsSnapshot(r.snap.shapes, b);
      SnapshotUnique(snap, r.snap, b);
    }
  }

  /** So a board's own snapshot, hydrated into an empty broker, is exactly what the next
      reader gets. */
  lemma SnapshotSurvivesRestart(id: BoardId, b: Board, snap: Snapshot, r: Reply)
    requires WellFormed(b) && IsSnapshot(snap, b)
    ensures Replies(Next(map[], Hydrate(id, snap)), ReadSnapshot(id), r) <==> r == Contents(snap)
  {
    SnapshotsAreWellFormed(snap, b);
    SnapshotAfterHydrate(id, snap, r);
  }
}
