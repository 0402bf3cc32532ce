/**
 * Value types shared by the discovery engine and both command layers. The
 * definitions these stand for live in the client's `types` module, which is
 * not part of this model; only the shape the core files rely on is kept.
 */
module Types {

  import opened Wrappers

  newtype u16 = x: int | 0 <= x < 0x1_0000
  newtype u32 = x: int | 0 <= x < 0x1_0000_0000
  newtype u64 = x: int | 0 <= x < 0x1_0000_0000_0000_0000
  newtype i32 = x: int | -0x8000_0000 <= x < 0x8000_0000
  newtype i64 = x: int | -0x8000_0000_0000_0000 <= x < 0x8000_0000_0000_0000

  const U64_MAX: u64 := 0xFFFF_FFFF_FFFF_FFFF

  /** A position in the transaction log: commit and prepare offsets. */
  datatype Position = Position(commit: int, prepare: int)

  /** `Position::start()`: the first position of the log. */
  function PositionStart(): Position { Position(0, 0) }

  /** `Position::end()`: the sentinel for "end of the log". */
  function PositionEnd(): Position { Position(-1, -1) }

  datatype ReadDirection = Forward | Backward

  /** Optimistic-concurrency expectation attached to a write or a delete. */
  datatype ExpectedVersion = Any | StreamExists | NoStream | Exact(version: u64)

  datatype Credentials = Credentials(login: seq<bv8>, password: seq<bv8>)

  /** Whether the server should resolve link events. */
  datatype LinkTos = ResolveLink | NoResolution {
    /** `raw_resolve_lnk_tos`: the flag sent on the wire. */
    predicate Raw() { ResolveLink? }
  }

  datatype Uuid = Uuid(bytes: seq<bv8>)

  /** The nil UUID (all zero bytes). */
  function NilUuid(): Uuid { Uuid(seq(16, _ => 0 as bv8)) }

  /** The payload of an event: JSON text or opaque bytes. */
  datatype Payload = Json(text: seq<bv8>) | Binary(bytes: seq<bv8>) {
    predicate IsJson() { Json? }
  }

  /** An event proposed for writing. */
  datatype EventData = EventData(
    eventType: string,
    payload: Payload,
    id: Option<Uuid>,
    customMetadata: Option<Payload>)
}
