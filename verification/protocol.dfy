/** The wire-level values shared by every component (internal/protocol/protocol.go).
    JSON encoding is abstracted away: a blob is the opaque shape body. Sequence numbers
    are called `sn` throughout. */
module Protocol {

  datatype Option<+T> = None | Some(value: T)

  type BoardId = string
  type ClientId = string
  type ShapeId = string
  type Blob = string

  /** One shape's current state within a snapshot. */
  datatype SnapshotShape = SnapshotShape(sn: nat, id: ShapeId, shape: Blob)

  /** The whole board as it is sent to a joining client and saved to the store. */
  datatype Snapshot = Snapshot(sn: nat, shapes: seq<SnapshotShape>)
}
