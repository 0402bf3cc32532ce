/**
 * The command builders of the TCP client: each command is a record of its
 * parameters, and every builder method returns the record with one setting
 * changed. The channel, the settings reference and `execute` are not part
 * of this model; what is kept is which request a chain of builder calls
 * produces and how the metadata commands map their answers.
 */
module TcpCommands {

  import opened Wrappers
  import opened Types
  import opened TcpMetadata

  /* ---------------------------------------------------------------- WriteEvents */

  datatype WriteEvents = WriteEvents(
    stream: string,
    events: seq<EventData>,
    requireMaster: bool,
    version: ExpectedVersion,
    creds: Option<Credentials>)

  /** `WriteEvents::new`: no events, master not required, any version, no credentials. */
  function NewWriteEvents(stream: string): (w: WriteEvents)
    ensures w.stream == stream && w.events == []
    ensures !w.requireMaster && w.version == Any && w.creds == None
  {
    WriteEvents(stream, [], false, Any, None)
  }

  /** `set_events`: replaces the events added so far. */
  function SetEvents(w: WriteEvents, events: seq<EventData>): WriteEvents {
    w.(events := events)
  }

  /** `push_event`: one more event, at the end. */
  function PushEvent(w: WriteEvents, event: EventData): WriteEvents {
    w.(events := w.events + [event])
  }

  /** `append_events`: the given events, at the end, in order. */
  function AppendEvents(w: WriteEvents, events: seq<EventData>): WriteEvents {
    w.(events := w.events + events)
  }

  function WriteRequireMaster(w: WriteEvents, requireMaster: bool): WriteEvents {
    w.(requireMaster := requireMaster)
  }

  function WriteExpectedVersion(w: WriteEvents, version: ExpectedVersion): WriteEvents {
    w.(version := version)
  }

  function WriteCredentials(w: WriteEvents, creds: Credentials): WriteEvents {
    w.(creds := Some(creds))
  }

  /** Pushing the events one at a time, first to last. */
  function PushAll(w: WriteEvents, events: seq<EventData>): WriteEvents
    decreases |events|
  {
    if events == [] then w else PushEvent(PushAll(w, events[..|events| - 1]), events[|events| - 1])
  }

  /** Extending with a list is the same as pushing its events one by one, in order. */
  lemma {:induction false} AppendIsRepeatedPush(w: WriteEvents, events: seq<EventData>)
    ensures AppendEvents(w, events) == PushAll(w, events)
    decreases |events|
  {
    if events != [] {
      var init := events[..|events| - 1];
      AppendIsRepeatedPush(w, init);
      assert events == init + [events[|events| - 1]];
      assert w.events + events == (w.events + init) + [events[|events| - 1]];
    }
  }

  /** Events only ever grow at the end, and each builder touches only its own field. */
  lemma PushKeepsSettings(w: WriteEvents, event: EventData)
    ensures var p := PushEvent(w, event);
      && p.events[..|w.events|] == w.events && p.events[|w.events|] == event && |p.events| == |w.events| + 1
      && p.stream == w.stream && p.requireMaster == w.requireMaster && p.version == w.version && p.creds == w.creds
  {
  }

  /** `set_events` forgets whatever was pushed before it. */
  lemma SetEventsDiscardsEarlier(w: WriteEvents, pushed: seq<EventData>, events: seq<EventData>)
    ensures SetEvents(AppendEvents(w, pushed), events) == SetEvents(w, events)
  {
  }

  /* ---------------------------------------------------------------- ReadEvent */

  datatype ReadEvent = ReadEvent(
    stream: string,
    eventNumber: i64,
    resolveLinkTos: bool,
    requireMaster: bool,
    creds: Option<Credentials>)

  /** `ReadEvent::new`: links not resolved, master not required, no credentials. */
  function NewReadEvent(stream: string, eventNumber: i64): (r: ReadEvent)
    ensures r.stream == stream && r.eventNumber == eventNumber
    ensures !r.resolveLinkTos && !r.requireMaster && r.creds == None
  {
    ReadEvent(stream, eventNumber, false, false, None)
  }

  function ReadEventResolveLinkTos(r: ReadEvent, tos: LinkTos): ReadEvent {
    r.(resolveLinkTos := tos.Raw())
  }

  function ReadEventRequireMaster(r: ReadEvent, requireMaster: bool): ReadEvent {
    r.(requireMaster := requireMaster)
  }

  function ReadEventCredentials(r: ReadEvent, creds: Credentials): ReadEvent {
    r.(creds := Some(creds))
  }

  /* ---------------------------------------------------------------- metadata commands */

  /** The metadata stream of a stream: its name prefixed with `$$`. */
  function MetadataStreamName(stream: string): (name: string)
    ensures |name| == |stream| + 2 && name[..2] == "$$" && name[2..] == stream
  {
    "$$" + stream
  }

  /** Different streams have different metadata streams. */
  lemma MetadataStreamNameInjective(a: string, b: string)
    ensures MetadataStreamName(a) == MetadataStreamName(b) ==> a == b
  {
    if MetadataStreamName(a) == MetadataStreamName(b) {
      assert a == MetadataStreamName(a)[2..];
    }
  }

  datatype WriteStreamMetadata<D, J> = WriteStreamMetadata(metadata: StreamMetadata<D, J>, inner: WriteEvents)

  /** `WriteStreamMetadata::new`: a write to the metadata stream, otherwise with the write defaults. */
  function NewWriteStreamMetadata<D, J>(stream: string, metadata: StreamMetadata<D, J>): (w: WriteStreamMetadata<D, J>)
    ensures w.metadata == metadata
    ensures w.inner == NewWriteEvents(MetadataStreamName(stream))
  {
    WriteStreamMetadata(metadata, NewWriteEvents("$$" + stream))
  }

  function WriteMetadataRequireMaster<D, J>(w: WriteStreamMetadata<D, J>, value: bool): WriteStreamMetadata<D, J> {
    w.(inner := WriteRequireMaster(w.inner, value))
  }

  function WriteMetadataExpectedVersion<D, J>(w: WriteStreamMetadata<D, J>, value: ExpectedVersion): WriteStreamMetadata<D, J> {
    w.(inner := WriteExpectedVersion(w.inner, value))
  }

  function WriteMetadataCredentials<D, J>(w: WriteStreamMetadata<D, J>, value: Credentials): WriteStreamMetadata<D, J> {
    w.(inner := WriteCredentials(w.inner, value))
  }

  /** The event type under which metadata is written. */
  const MetadataEventType: string := "$metadata"

  /**
   * The write that `WriteStreamMetadata::execute` sends: the inner write with
   * one `$metadata` event holding the wire form of the metadata. `toSpan` is
   * the duration conversion and `encode` the JSON encoding of the wire form.
   */
  function MetadataWrite<D, T, J>(toSpan: D -> T, encode: StreamMetadataInternal<T, J> -> seq<bv8>,
                                  w: WriteStreamMetadata<D, J>): (r: WriteEvents)
    ensures r.stream == w.inner.stream && r.version == w.inner.version
    ensures r.requireMaster == w.inner.requireMaster && r.creds == w.inner.creds
    ensures r.events == w.inner.events + [EventData(MetadataEventType, Json(encode(FromMetadata(toSpan, w.metadata))), None, None)]
  {
    PushEvent(w.inner, EventData(MetadataEventType, Json(encode(FromMetadata(toSpan, w.metadata))), None, None))
  }

  /** A freshly built metadata write sends exactly one event, to `$$stream`. */
  lemma MetadataWriteTargetsMetadataStream<D, T, J>(toSpan: D -> T, encode: StreamMetadataInternal<T, J> -> seq<bv8>,
                                                    stream: string, metadata: StreamMetadata<D, J>)
    ensures var r := MetadataWrite(toSpan, encode, NewWriteStreamMetadata(stream, metadata));
      && r.stream == MetadataStreamName(stream) && |r.events| == 1 && r.events[0].eventType == MetadataEventType
      && r.version == Any
  {
  }

  datatype ReadStreamMetadata = ReadStreamMetadata(stream: string, inner: ReadEvent)

  /** `ReadStreamMetadata::new`: a read of the last event (number -1) of the metadata stream. */
  function NewReadStreamMetadata(stream: string): (r: ReadStreamMetadata)
    ensures r.stream == stream
    ensures r.inner == NewReadEvent(MetadataStreamName(stream), -1)
  {
    ReadStreamMetadata(stream, NewReadEvent("$$" + stream, -1))
  }

  function ReadMetadataRequireMaster(r: ReadStreamMetadata, value: bool): ReadStreamMetadata {
    r.(inner := ReadEventRequireMaster(r.inner, value))
  }

  function ReadMetadataCredentials(r: ReadStreamMetadata, value: Credentials): ReadStreamMetadata {
    r.(inner := ReadEventCredentials(r.inner, value))
  }

  /** `ReadEventStatus`, with the event of a success already decoded into the metadata wire form. */
  datatype ReadEventStatus<T, J> =
    | ReadSuccess(eventNumber: i64, decoded: StreamMetadataInternal<T, J>)
    | ReadNotFound
    | ReadNoStream
    | ReadDeleted

  datatype VersionedMetadata<D, J> = VersionedMetadata(stream: string, version: i64, metadata: StreamMetadata<D, J>)

  datatype StreamMetadataResult<D, J> =
    | MetadataSuccess(versioned: VersionedMetadata<D, J>)
    | MetadataNotFound(stream: string)
    | MetadataDeleted(stream: string)
  {
    function Stream(): string {
      match this
      case MetadataSuccess(v) => v.stream
      case MetadataNotFound(s) => s
      case MetadataDeleted(s) => s
    }
  }

  /** How `ReadStreamMetadata::execute` maps the answer to the read of the metadata stream. */
  function MetadataResult<D, T, J>(fromSpan: T -> D, r: ReadStreamMetadata, status: ReadEventStatus<T, J>)
    : (res: StreamMetadataResult<D, J>)
    ensures res.Stream() == r.stream
    ensures res.MetadataSuccess? <==> status.ReadSuccess?
    ensures res.MetadataNotFound? <==> status.ReadNotFound? || status.ReadNoStream?
    ensures res.MetadataDeleted? <==> status.ReadDeleted?
    ensures status.ReadSuccess? ==>
      res.versioned.version == status.eventNumber && res.versioned.metadata == BuildMetadata(fromSpan, status.decoded)
  {
    match status
    case ReadSuccess(eventNumber, decoded) =>
      MetadataSuccess(VersionedMetadata(r.stream, eventNumber, BuildMetadata(fromSpan, decoded)))
    case ReadNotFound => MetadataNotFound(r.stream)
    case ReadNoStream => MetadataNotFound(r.stream)
    case ReadDeleted => MetadataDeleted(r.stream)
  }

  /**
   * Metadata read back after a write comes back with the same counts, ACL and
   * custom properties, whatever the durations' conversions do, and entirely
   * when those conversions undo each other.
   */
  lemma MetadataReadsBack<D, T, J>(toSpan: D -> T, fromSpan: T -> D, stream: string, eventNumber: i64,
                                   metadata: StreamMetadata<D, J>)
    ensures var res := MetadataResult(fromSpan, NewReadStreamMetadata(stream),
                                      ReadSuccess(eventNumber, FromMetadata(toSpan, metadata)));
      && res.MetadataSuccess?
      && res.versioned.stream == stream
      && res.versioned.metadata.maxCount == metadata.maxCount
      && res.versioned.metadata.truncateBefore == metadata.truncateBefore
      && res.versioned.metadata.acl == metadata.acl
      && res.versioned.metadata.customProperties == metadata.customProperties
      && ((forall d :: fromSpan(toSpan(d)) == d) ==> res.versioned.metadata == metadata)
  {
    MetadataRoundTrip(toSpan, fromSpan, metadata);
  }

  /* ---------------------------------------------------------------- ReadStreamEvents */

  datatype ReadStreamEvents = ReadStreamEvents(
    stream: string,
    maxCount: i32,
    start: i64,
    requireMaster: bool,
    resolveLinkTos: bool,
    direction: ReadDirection,
    creds: Option<Credentials>)

  const DefaultMaxCount: i32 := 500

  /** `ReadStreamEvents::new`: batches of 500, from event 0, forward. */
  function NewReadStreamEvents(stream: string): (r: ReadStreamEvents)
    ensures r.stream == stream && r.maxCount == DefaultMaxCount && r.start == 0 && r.direction == Forward
    ensures !r.requireMaster && !r.resolveLinkTos && r.creds == None
  {
    ReadStreamEvents(stream, 500, 0, false, false, Forward, None)
  }

  function StreamSetDirection(r: ReadStreamEvents, direction: ReadDirection): ReadStreamEvents {
    r.(direction := direction)
  }

  function StreamForward(r: ReadStreamEvents): ReadStreamEvents { StreamSetDirection(r, Forward) }

  function StreamBackward(r: ReadStreamEvents): ReadStreamEvents { StreamSetDirection(r, Backward) }

  function StreamCredentials(r: ReadStreamEvents, creds: Credentials): ReadStreamEvents {
    r.(creds := Some(creds))
  }

  function StreamMaxCount(r: ReadStreamEvents, maxCount: i32): ReadStreamEvents {
    r.(maxCount := maxCount)
  }

  function StreamStartFrom(r: ReadStreamEvents, start: i64): ReadStreamEvents {
    r.(start := start)
  }

  function StreamStartFromBeginning(r: ReadStreamEvents): ReadStreamEvents {
    r.(start := 0, direction := Forward)
  }

  function StreamStartFromEndOfStream(r: ReadStreamEvents): ReadStreamEvents {
    r.(start := -1, direction := Backward)
  }

  function StreamRequireMaster(r: ReadStreamEvents, requireMaster: bool): ReadStreamEvents {
    r.(requireMaster := requireMaster)
  }

  function StreamResolveLinkTos(r: ReadStreamEvents, tos: LinkTos): ReadStreamEvents {
    r.(resolveLinkTos := tos.Raw())
  }

  /**
   * The start helpers are a start position plus a direction; reading from the
   * beginning is what a new command does anyway.
   */
  lemma StreamStartHelpers(r: ReadStreamEvents, stream: string)
    ensures StreamStartFromBeginning(r) == StreamForward(StreamStartFrom(r, 0))
    ensures StreamStartFromEndOfStream(r) == StreamBackward(StreamStartFrom(r, -1))
    ensures StreamStartFromBeginning(NewReadStreamEvents(stream)) == NewReadStreamEvents(stream)
  {
  }

  /** `LinkTos::from_bool`. */
  function LinkTosFromBool(b: bool): (tos: LinkTos)
    ensures tos.Raw() == b
  {
    if b then ResolveLink else NoResolution
  }

  /**
   * The request `FetchRegularStream::fetch` sends for the page at `pos`: a new
   * command carrying the iterated command's link, batch-size, master and
   * direction settings (`IterParams`), starting at `pos`.
   */
  function FetchStreamPage(r: ReadStreamEvents, pos: i64): ReadStreamEvents {
    StreamSetDirection(
      StreamRequireMaster(
        StreamMaxCount(
          StreamStartFrom(
            StreamResolveLinkTos(NewReadStreamEvents(r.stream), LinkTosFromBool(r.resolveLinkTos)),
            pos),
          r.maxCount),
        r.requireMaster),
      r.direction)
  }

  /** Every page request is the iterated command moved to `pos`, except that it carries no credentials. */
  lemma FetchStreamPageIsMovedCommand(r: ReadStreamEvents, pos: i64)
    ensures FetchStreamPage(r, pos) == r.(start := pos, creds := None)
  {
  }

  /* ---------------------------------------------------------------- ReadAllEvents */

  datatype ReadAllEvents = ReadAllEvents(
    maxCount: i32,
    start: Position,
    requireMaster: bool,
    resolveLinkTos: bool,
    direction: ReadDirection,
    creds: Option<Credentials>)

  /** `ReadAllEvents::new`: batches of 500, from the start of the log, forward. */
  function NewReadAllEvents(): (r: ReadAllEvents)
    ensures r.maxCount == DefaultMaxCount && r.start == PositionStart() && r.direction == Forward
    ensures !r.requireMaster && !r.resolveLinkTos && r.creds == None
  {
    ReadAllEvents(500, PositionStart(), false, false, Forward, None)
  }

  function AllSetDirection(r: ReadAllEvents, direction: ReadDirection): ReadAllEvents {
    r.(direction := direction)
  }

  function AllForward(r: ReadAllEvents): ReadAllEvents { AllSetDirection(r, Forward) }

  function AllBackward(r: ReadAllEvents): ReadAllEvents { AllSetDirection(r, Backward) }

  function AllCredentials(r: ReadAllEvents, creds: Credentials): ReadAllEvents {
    r.(creds := Some(creds))
  }

  function AllMaxCount(r: ReadAllEvents, maxCount: i32): ReadAllEvents {
    r.(maxCount := maxCount)
  }

  function AllStartFrom(r: ReadAllEvents, start: Position): ReadAllEvents {
    r.(start := start)
  }

  function AllStartFromBeginning(r: ReadAllEvents): ReadAllEvents {
    r.(start := PositionStart(), direction := Forward)
  }

  function AllStartFromEndOfStream(r: ReadAllEvents): ReadAllEvents {
    r.(start := PositionEnd(), direction := Backward)
  }

  function AllRequireMaster(r: ReadAllEvents, requireMaster: bool): ReadAllEvents {
    r.(requireMaster := requireMaster)
  }

  function AllResolveLinkTos(r: ReadAllEvents, tos: LinkTos): ReadAllEvents {
    r.(resolveLinkTos := tos.Raw())
  }

  lemma AllStartHelpers(r: ReadAllEvents)
    ensures AllStartFromBeginning(r) == AllForward(AllStartFrom(r, PositionStart()))
    ensures AllStartFromEndOfStream(r) == AllBackward(AllStartFrom(r, PositionEnd()))
    ensures AllStartFromBeginning(NewReadAllEvents()) == NewReadAllEvents()
  {
  }

  /** The request `FetchAllStream::fetch` sends for the page at `pos`. */
  function FetchAllPage(r: ReadAllEvents, pos: Position): ReadAllEvents {
    AllSetDirection(
      AllRequireMaster(
        AllMaxCount(
          AllStartFrom(AllResolveLinkTos(NewReadAllEvents(), LinkTosFromBool(r.resolveLinkTos)), pos),
          r.maxCount),
        r.requireMaster),
      r.direction)
  }

  lemma FetchAllPageIsMovedCommand(r: ReadAllEvents, pos: Position)
    ensures FetchAllPage(r, pos) == r.(start := pos, creds := None)
  {
  }

  /* ---------------------------------------------------------------- DeleteStream */

  datatype DeleteStream = DeleteStream(
    stream: string,
    requireMaster: bool,
    version: ExpectedVersion,
    creds: Option<Credentials>,
    hardDelete: bool)

  /** `DeleteStream::new`: a soft delete at any version. */
  function NewDeleteStream(stream: string): (d: DeleteStream)
    ensures d.stream == stream && !d.hardDelete && d.version == Any
    ensures !d.requireMaster && d.creds == None
  {
    DeleteStream(stream, false, Any, None, false)
  }

  function DeleteRequireMaster(d: DeleteStream, requireMaster: bool): DeleteStream {
    d.(requireMaster := requireMaster)
  }

  function DeleteExpectedVersion(d: DeleteStream, version: ExpectedVersion): DeleteStream {
    d.(version := version)
  }

  function DeleteCredentials(d: DeleteStream, creds: Credentials): DeleteStream {
    d.(creds := Some(creds))
  }

  function SoftDelete(d: DeleteStream): DeleteStream {
    d.(hardDelete := false)
  }

  function HardDelete(d: DeleteStream): DeleteStream {
    d.(hardDelete := true)
  }

  /** The last of `soft_delete`/`hard_delete` wins, and soft is the default. */
  lemma DeleteModeLastWins(d: DeleteStream, stream: string)
    ensures SoftDelete(HardDelete(d)) == SoftDelete(d)
    ensures HardDelete(SoftDelete(d)) == HardDelete(d)
    ensures SoftDelete(NewDeleteStream(stream)) == NewDeleteStream(stream)
  {
  }
}
