/**
 * The gRPC command layer: how builder settings become protobuf request
 * fields, and how response fields become the client's result values.
 * Requests are kept as the records the generated protobuf types describe;
 * sending them, and the streams of responses, are not part of this model.
 *
 * A response field that the code unwraps, or a metadata value it panics on,
 * is modelled as an explicit failure outcome rather than as a precondition.
 */
module GrpcCommands {

  import opened Wrappers
  import opened Types

  /* ---------------------------------------------------------------- expected versions */

  /** `ExpectedStreamRevision`, the same oneof in append, delete and tombstone options. */
  datatype ExpectedStreamRevision = RevisionAny | RevisionStreamExists | RevisionNoStream | Revision(rev: u64)

  /** `convert_expected_version`, used by appends. */
  function ConvertExpectedVersion(version: ExpectedVersion): (r: ExpectedStreamRevision)
    ensures r.RevisionAny? <==> version.Any?
    ensures r.RevisionStreamExists? <==> version.StreamExists?
    ensures r.RevisionNoStream? <==> version.NoStream?
    ensures r.Revision? <==> version.Exact?
    ensures r.Revision? ==> r.rev == version.version
  {
    match version
    case Any => RevisionAny
    case StreamExists => RevisionStreamExists
    case NoStream => RevisionNoStream
    case Exact(v) => Revision(v)
  }

  /** The expected version a revision option stands for. */
  function VersionOfRevision(r: ExpectedStreamRevision): ExpectedVersion {
    match r
    case RevisionAny => Any
    case RevisionStreamExists => StreamExists
    case RevisionNoStream => NoStream
    case Revision(v) => ExpectedVersion.Exact(v)
  }

  /** The conversion loses nothing and reaches every option. */
  lemma ConvertExpectedVersionBijective(version: ExpectedVersion, r: ExpectedStreamRevision)
    ensures VersionOfRevision(ConvertExpectedVersion(version)) == version
    ensures ConvertExpectedVersion(VersionOfRevision(r)) == r
  {
  }

  /** The expected revision of a hard delete (`TombstoneReq`). */
  function TombstoneExpectedRevision(version: ExpectedVersion): ExpectedStreamRevision {
    match version
    case Any => RevisionAny
    case NoStream => RevisionNoStream
    case StreamExists => RevisionStreamExists
    case Exact(rev) => Revision(rev)
  }

  /** The expected revision of a soft delete (`DeleteReq`). */
  function DeleteExpectedRevision(version: ExpectedVersion): ExpectedStreamRevision {
    match version
    case Any => RevisionAny
    case NoStream => RevisionNoStream
    case StreamExists => RevisionStreamExists
    case Exact(rev) => Revision(rev)
  }

  /** Deletes and tombstones send the same expectation an append would. */
  lemma DeletesConvertLikeAppends(version: ExpectedVersion)
    ensures TombstoneExpectedRevision(version) == ConvertExpectedVersion(version)
    ensures DeleteExpectedRevision(version) == ConvertExpectedVersion(version)
  {
  }

  /* ---------------------------------------------------------------- enum encodings */

  /** `SystemConsumerStrategy`. */
  datatype SystemConsumerStrategy = DispatchToSingle | RoundRobin | Pinned

  /** The `named_consumer_strategy` field of the create and update settings. */
  function NamedConsumerStrategy(s: SystemConsumerStrategy): (code: i32)
    ensures 0 <= code <= 2
  {
    match s
    case DispatchToSingle => 0
    case RoundRobin => 1
    case Pinned => 2
  }

  /** The generated `ConsumerStrategy` enumeration, with its `#[repr(i32)]` values. */
  datatype ProtoConsumerStrategy = ProtoDispatchToSingle | ProtoRoundRobin | ProtoPinned {
    function Value(): i32 {
      match this
      case ProtoDispatchToSingle => 0
      case ProtoRoundRobin => 1
      case ProtoPinned => 2
    }
  }

  /** `ConsumerStrategy::from_i32`: the variant with that value, if any. */
  function ConsumerStrategyFromI32(code: i32): (r: Option<ProtoConsumerStrategy>)
    ensures r.Some? ==> r.value.Value() == code
    ensures r.None? ==> forall p: ProtoConsumerStrategy :: p.Value() != code
  {
    if code == 0 then Some(ProtoDispatchToSingle)
    else if code == 1 then Some(ProtoRoundRobin)
    else if code == 2 then Some(ProtoPinned)
    else None
  }

  /** The client's encoding names the generated variant of the same name, and different strategies get different codes. */
  lemma ConsumerStrategyAgrees(s: SystemConsumerStrategy, t: SystemConsumerStrategy)
    ensures ConsumerStrategyFromI32(NamedConsumerStrategy(s)) ==
      Some(match s case DispatchToSingle => ProtoDispatchToSingle case RoundRobin => ProtoRoundRobin case Pinned => ProtoPinned)
    ensures NamedConsumerStrategy(s) == NamedConsumerStrategy(t) ==> s == t
  {
  }

  /** `NakAction`. */
  datatype NakAction = NakUnknown | NakPark | NakRetry | NakSkip | NakStop

  /** The `action` field of a `Nack`. */
  function NakActionCode(action: NakAction): (code: i32)
    ensures 0 <= code <= 4
  {
    match action
    case NakUnknown => 0
    case NakPark => 1
    case NakRetry => 2
    case NakSkip => 3
    case NakStop => 4
  }

  /** The generated `nack::Action` enumeration, with its `#[repr(i32)]` values. */
  datatype ProtoNackAction = ActionUnknown | ActionPark | ActionRetry | ActionSkip | ActionStop {
    function Value(): i32 {
      match this
      case ActionUnknown => 0
      case ActionPark => 1
      case ActionRetry => 2
      case ActionSkip => 3
      case ActionStop => 4
    }
  }

  /** `nack::Action::from_i32`. */
  function NackActionFromI32(code: i32): (r: Option<ProtoNackAction>)
    ensures r.Some? ==> r.value.Value() == code
    ensures r.None? ==> forall p: ProtoNackAction :: p.Value() != code
  {
    if code == 0 then Some(ActionUnknown)
    else if code == 1 then Some(ActionPark)
    else if code == 2 then Some(ActionRetry)
    else if code == 3 then Some(ActionSkip)
    else if code == 4 then Some(ActionStop)
    else None
  }

  lemma NakActionAgrees(a: NakAction, b: NakAction)
    ensures NackActionFromI32(NakActionCode(a)) ==
      Some(match a
           case NakUnknown => ActionUnknown case NakPark => ActionPark case NakRetry => ActionRetry
           case NakSkip => ActionSkip case NakStop => ActionStop)
    ensures NakActionCode(a) == NakActionCode(b) ==> a == b
  {
  }

  /** `ReadDirection` on the wire. */
  function DirectionCode(direction: ReadDirection): (code: i32)
    ensures code == 0 <==> direction == Forward
    ensures code == 1 <==> direction == Backward
  {
    match direction
    case Forward => 0
    case Backward => 1
  }

  /* ---------------------------------------------------------------- FilterConf */

  datatype FilterConf = FilterConf(basedOnStream: bool, max: Option<u32>, regex: Option<string>, prefixes: seq<string>)

  /** `based_on_stream_name`: no window size, no regex, no prefixes. */
  function BasedOnStreamName(): (f: FilterConf)
    ensures f.basedOnStream && f.max == None && f.regex == None && f.prefixes == []
  {
    FilterConf(true, None, None, [])
  }

  /** `based_on_event_type`: the stream-name filter with the other target. */
  function BasedOnEventType(): FilterConf {
    BasedOnStreamName().(basedOnStream := false)
  }

  function FilterMax(f: FilterConf, max: u32): FilterConf {
    f.(max := Some(max))
  }

  function FilterRegex(f: FilterConf, regex: string): FilterConf {
    f.(regex := Some(regex))
  }

  function AddPrefix(f: FilterConf, prefix: string): FilterConf {
    f.(prefixes := f.prefixes + [prefix])
  }

  /** The two starting points differ only in what they filter on. */
  lemma FilterStartingPoints()
    ensures BasedOnEventType() == BasedOnStreamName().(basedOnStream := false)
    ensures !BasedOnEventType().basedOnStream && BasedOnEventType().prefixes == []
  {
  }

  /** Adding prefixes one at a time keeps them in the order they were added. */
  function AddPrefixes(f: FilterConf, prefixes: seq<string>): FilterConf
    decreases |prefixes|
  {
    if prefixes == [] then f else AddPrefix(AddPrefixes(f, prefixes[..|prefixes| - 1]), prefixes[|prefixes| - 1])
  }

  lemma {:induction false} AddPrefixesInOrder(f: FilterConf, prefixes: seq<string>)
    ensures AddPrefixes(f, prefixes) == f.(prefixes := f.prefixes + prefixes)
    decreases |prefixes|
  {
    if prefixes != [] {
      var init := prefixes[..|prefixes| - 1];
      AddPrefixesInOrder(f, init);
      assert prefixes == init + [prefixes[|prefixes| - 1]];
      assert f.prefixes + prefixes == (f.prefixes + init) + [prefixes[|prefixes| - 1]];
    }
  }

  datatype Window = WindowMax(max: u32) | WindowCount
  datatype Expression = Expression(regex: string, prefix: seq<string>)
  datatype Filter = StreamIdentifier(expr: Expression) | EventType(expr: Expression)
  datatype FilterOptions = FilterOptions(filter: Option<Filter>, window: Option<Window>, checkpointIntervalMultiplier: u32)

  /** `into_proto`. */
  function IntoProto(f: FilterConf): (o: FilterOptions)
    ensures o.filter.Some? && o.window.Some?
    ensures o.window.value.WindowMax? <==> f.max.Some?
    ensures f.max.Some? ==> o.window.value.max == f.max.value
    ensures o.filter.value.StreamIdentifier? <==> f.basedOnStream
    ensures o.filter.value.expr.regex == (if f.regex.Some? then f.regex.value else "")
    ensures o.filter.value.expr.prefix == f.prefixes
    ensures o.checkpointIntervalMultiplier == 1
  {
    var window := match f.max case Some(max) => WindowMax(max) case None => WindowCount;
    var expr := Expression(if f.regex.Some? then f.regex.value else "", f.prefixes);
    var filter := if f.basedOnStream then StreamIdentifier(expr) else EventType(expr);
    FilterOptions(Some(filter), Some(window), 1)
  }

  /** Reading a filter back from its options: nothing but an empty regex is lost. */
  function ConfOfProto(o: FilterOptions): FilterConf
    requires o.filter.Some? && o.window.Some?
  {
    var expr := o.filter.value.expr;
    FilterConf(o.filter.value.StreamIdentifier?,
               match o.window.value case WindowMax(m) => Some(m) case WindowCount => None,
               if expr.regex == "" then None else Some(expr.regex),
               expr.prefix)
  }

  lemma IntoProtoRoundTrip(f: FilterConf)
    requires f.regex != Some("")
    ensures ConfOfProto(IntoProto(f)) == f
  {
  }

  /** An unset regex and an empty one produce the same options. */
  lemma EmptyRegexIsUnset(f: FilterConf)
    ensures IntoProto(FilterRegex(f, "")) == IntoProto(f.(regex := None))
  {
  }

  /* ---------------------------------------------------------------- appends */

  datatype GrpcWriteEvents = GrpcWriteEvents(stream: string, version: ExpectedVersion, creds: Option<Credentials>)

  /** `WriteEvents::new`: any version, the connection's default credentials. */
  function NewGrpcWriteEvents(stream: string, creds: Option<Credentials>): (w: GrpcWriteEvents)
    ensures w.stream == stream && w.version == Any && w.creds == creds
  {
    GrpcWriteEvents(stream, Any, creds)
  }

  function GrpcWriteExpectedVersion(w: GrpcWriteEvents, version: ExpectedVersion): GrpcWriteEvents {
    w.(version := version)
  }

  function GrpcWriteCredentials(w: GrpcWriteEvents, creds: Credentials): GrpcWriteEvents {
    w.(creds := Some(creds))
  }

  const TypeKey: string := "type"
  const ContentTypeKey: string := "content-type"
  const IsJsonKey: string := "is-json"
  const JsonContentType: string := "application/json"
  const BinaryContentType: string := "application/octet-stream"

  /** `ProposedMessage`: what one event of an append looks like on the wire. */
  datatype ProposedMessage = ProposedMessage(id: Uuid, metadata: map<string, string>, customMetadata: seq<bv8>, data: seq<bv8>)

  datatype AppendReq = AppendOptions(stream: string, expected: ExpectedStreamRevision) | Proposed(message: ProposedMessage)

  function PayloadBytes(p: Payload): seq<bv8> {
    match p
    case Json(text) => text
    case Binary(bytes) => bytes
  }

  /**
   * `convert_event_data`. `freshId` is the random id `Uuid::new_v4` would
   * give an event that has none.
   */
  function ConvertEventData(event: EventData, freshId: Uuid): (m: ProposedMessage)
    ensures m.id == (if event.id.Some? then event.id.value else freshId)
    ensures m.metadata.Keys == {TypeKey, ContentTypeKey}
    ensures m.metadata[TypeKey] == event.eventType
    ensures m.metadata[ContentTypeKey] == JsonContentType <==> event.payload.IsJson()
    ensures m.metadata[ContentTypeKey] == BinaryContentType <==> !event.payload.IsJson()
    ensures m.customMetadata == (if event.customMetadata.Some? then PayloadBytes(event.customMetadata.value) else [])
    ensures m.data == PayloadBytes(event.payload)
  {
    var id := if event.id.Some? then event.id.value else freshId;
    var contentType := if event.payload.IsJson() then JsonContentType else BinaryContentType;
    var custom := match event.customMetadata case Some(p) => PayloadBytes(p) case None => [];
    ProposedMessage(id, map[TypeKey := event.eventType, ContentTypeKey := contentType], custom, PayloadBytes(event.payload))
  }

  /** The messages of an append: the options header, then each event, in order. */
  function AppendRequests(w: GrpcWriteEvents, events: seq<EventData>, freshIds: nat -> Uuid): (reqs: seq<AppendReq>)
    ensures |reqs| == |events| + 1
    ensures reqs[0] == AppendOptions(w.stream, ConvertExpectedVersion(w.version))
    ensures forall i :: 0 <= i < |events| ==> reqs[i + 1] == Proposed(ConvertEventData(events[i], freshIds(i)))
  {
    [AppendOptions(w.stream, ConvertExpectedVersion(w.version))]
      + seq(|events|, i requires 0 <= i < |events| => Proposed(ConvertEventData(events[i], freshIds(i))))
  }

  datatype CurrentRevisionOption = CurrentRevisionIs(rev: u64) | CurrentNoStream
  datatype PositionOption = PositionIs(commitPosition: u64, preparePosition: u64) | NoPosition
  datatype ExpectedRevisionOption = ExpectedRevisionIs(rev: u64) | ExpectedAny | ExpectedStreamExists

  datatype AppendResult =
    | AppendSuccess(currentRevision: Option<CurrentRevisionOption>, position: Option<PositionOption>)
    | AppendWrongExpectedVersion(current: Option<CurrentRevisionOption>, expected: Option<ExpectedRevisionOption>)

  datatype WriteResult = WriteResult(nextExpectedVersion: u64, position: Position)

  /** `CurrentRevision` and `ExpectedRevision` as reported to the caller. */
  datatype CurrentRevision = Current(rev: u64) | CurrentIsNoStream
  datatype ExpectedRevision = Expected(rev: u64) | ExpectedIsAny | ExpectedIsStreamExists
  datatype WrongExpectedVersion = WrongExpectedVersion(current: CurrentRevision, expected: ExpectedRevision)

  /** What `send` returns for an append response; an absent field it unwraps is `Malformed`. */
  datatype AppendOutcome = Written(result: WriteResult) | WrongVersion(error: WrongExpectedVersion) | Malformed

  /** The mapping of an append response. */
  function AppendResponse(result: Option<AppendResult>): (r: AppendOutcome)
    ensures r.Written? <==>
      result.Some? && result.value.AppendSuccess? && result.value.currentRevision.Some? && result.value.position.Some?
    ensures r.WrongVersion? <==>
      result.Some? && result.value.AppendWrongExpectedVersion? && result.value.current.Some? && result.value.expected.Some?
    ensures r.Written? ==>
      && (r.result.nextExpectedVersion ==
            match result.value.currentRevision.value case CurrentRevisionIs(rev) => rev case CurrentNoStream => 0)
      && (r.result.position ==
            match result.value.position.value
            case PositionIs(c, p) => Position(c as int, p as int)
            case NoPosition => PositionStart())
    ensures r.WrongVersion? ==>
      && (r.error.current.Current? <==> result.value.current.value.CurrentRevisionIs?)
      && (r.error.current.Current? ==> r.error.current.rev == result.value.current.value.rev)
      && (r.error.expected.Expected? <==> result.value.expected.value.ExpectedRevisionIs?)
      && (r.error.expected.ExpectedIsAny? <==> result.value.expected.value.ExpectedAny?)
      && (r.error.expected.Expected? ==> r.error.expected.rev == result.value.expected.value.rev)
  {
    match result
    case None => Malformed
    case Some(AppendSuccess(current, position)) =>
      if current.None? || position.None? then Malformed
      else
        var next := match current.value case CurrentRevisionIs(rev) => rev case CurrentNoStream => 0;
        var pos := match position.value
                   case PositionIs(c, p) => Position(c as int, p as int)
                   case NoPosition => PositionStart();
        Written(WriteResult(next, pos))
    case Some(AppendWrongExpectedVersion(current, expected)) =>
      if current.None? || expected.None? then Malformed
      else
        var cur := match current.value case CurrentRevisionIs(rev) => Current(rev) case CurrentNoStream => CurrentIsNoStream;
        var exp := match expected.value
                   case ExpectedRevisionIs(rev) => Expected(rev)
                   case ExpectedAny => ExpectedIsAny
                   case ExpectedStreamExists => ExpectedIsStreamExists;
        WrongVersion(WrongExpectedVersion(cur, exp))
  }

  /**
   * A write that did not create the stream still succeeds at version 0, and a
   * missing log position reads as the start of the log: revision 0 at the start
   * of the log and "no stream, no position" give the same result.
   */
  lemma AppendDefaultsCollide()
    ensures AppendResponse(Some(AppendSuccess(Some(CurrentNoStream), Some(NoPosition))))
         == AppendResponse(Some(AppendSuccess(Some(CurrentRevisionIs(0)), Some(PositionIs(0, 0)))))
  {
  }

  /* ---------------------------------------------------------------- reads */

  /** `Revision`: where a read starts. */
  datatype ReadFrom<T> = FromStart | FromEnd | FromExact(at: T)

  datatype GrpcReadStreamEvents = GrpcReadStreamEvents(
    stream: string,
    revision: ReadFrom<u64>,
    resolveLinkTos: bool,
    direction: ReadDirection,
    creds: Option<Credentials>)

  /** `ReadStreamEvents::new`: from the start, forward, links unresolved. */
  function NewGrpcReadStreamEvents(stream: string, creds: Option<Credentials>): (r: GrpcReadStreamEvents)
    ensures r.stream == stream && r.revision == FromStart && r.direction == Forward
    ensures !r.resolveLinkTos && r.creds == creds
  {
    GrpcReadStreamEvents(stream, FromStart, false, Forward, creds)
  }

  function GrpcStreamSetDirection(r: GrpcReadStreamEvents, direction: ReadDirection): GrpcReadStreamEvents {
    r.(direction := direction)
  }

  function GrpcStreamForward(r: GrpcReadStreamEvents): GrpcReadStreamEvents { GrpcStreamSetDirection(r, Forward) }

  function GrpcStreamBackward(r: GrpcReadStreamEvents): GrpcReadStreamEvents { GrpcStreamSetDirection(r, Backward) }

  function GrpcStreamCredentials(r: GrpcReadStreamEvents, creds: Credentials): GrpcReadStreamEvents {
    r.(creds := Some(creds))
  }

  function GrpcStreamSetCredentials(r: GrpcReadStreamEvents, creds: Option<Credentials>): GrpcReadStreamEvents {
    r.(creds := creds)
  }

  function GrpcStreamStartFrom(r: GrpcReadStreamEvents, start: u64): GrpcReadStreamEvents {
    r.(revision := FromExact(start))
  }

  function GrpcStreamStartFromBeginning(r: GrpcReadStreamEvents): GrpcReadStreamEvents {
    r.(revision := FromStart, direction := Forward)
  }

  function GrpcStreamStartFromEndOfStream(r: GrpcReadStreamEvents): GrpcReadStreamEvents {
    r.(revision := FromEnd, direction := Backward)
  }

  function GrpcStreamResolveLinkTos(r: GrpcReadStreamEvents, tos: LinkTos): GrpcReadStreamEvents {
    r.(resolveLinkTos := tos.Raw())
  }

  lemma GrpcStreamStartHelpers(r: GrpcReadStreamEvents, stream: string, creds: Option<Credentials>)
    ensures GrpcStreamStartFromBeginning(r) == GrpcStreamForward(r.(revision := FromStart))
    ensures GrpcStreamStartFromEndOfStream(r) == GrpcStreamBackward(r.(revision := FromEnd))
    ensures GrpcStreamStartFromBeginning(NewGrpcReadStreamEvents(stream, creds)) == NewGrpcReadStreamEvents(stream, creds)
  {
  }

  /** The position options of a read: a stream at a revision, or `$all` at a log position. */
  datatype StreamOption =
    | StreamAt(stream: string, revision: ReadFrom<u64>)
    | AllAt(position: ReadFrom<Position>)

  /** `read_req::Options`; no filter and string UUIDs in every read modelled here. */
  datatype ReadOptions = ReadOptions(streamOption: StreamOption, resolveLinks: bool, count: u64, readDirection: i32)

  /** The request `ReadStreamEvents::execute(count)` sends. */
  function StreamReadRequest(r: GrpcReadStreamEvents, count: u64): (o: ReadOptions)
    ensures o.streamOption == StreamAt(r.stream, r.revision)
    ensures o.resolveLinks == r.resolveLinkTos && o.count == count
    ensures o.readDirection == DirectionCode(r.direction)
  {
    ReadOptions(StreamAt(r.stream, r.revision), r.resolveLinkTos, count, if r.direction == Forward then 0 else 1)
  }

  /** `read_through`: the whole stream, as many events as a `u64` can count. */
  function StreamReadThrough(r: GrpcReadStreamEvents): (o: ReadOptions)
    ensures o.count == U64_MAX
    ensures o.streamOption == StreamAt(r.stream, r.revision)
    ensures o.resolveLinks == r.resolveLinkTos && o.readDirection == DirectionCode(r.direction)
  {
    StreamReadRequest(r, U64_MAX)
  }

  /** Reading from the end goes backward from the stream's end, whatever the command said before. */
  lemma ReadFromEndRequest(r: GrpcReadStreamEvents, n: u64, count: u64)
    ensures var o := StreamReadRequest(GrpcStreamStartFromEndOfStream(r), count);
      o.streamOption.revision == FromEnd && o.readDirection == 1
    ensures var o := StreamReadRequest(GrpcStreamStartFrom(r, n), count);
      o.streamOption.revision == FromExact(n) && o.count == count
  {
  }

  datatype GrpcReadAllEvents = GrpcReadAllEvents(
    revision: ReadFrom<Position>,
    resolveLinkTos: bool,
    direction: ReadDirection,
    creds: Option<Credentials>)

  function NewGrpcReadAllEvents(creds: Option<Credentials>): (r: GrpcReadAllEvents)
    ensures r.revision == FromStart && r.direction == Forward && !r.resolveLinkTos && r.creds == creds
  {
    GrpcReadAllEvents(FromStart, false, Forward, creds)
  }

  function GrpcAllSetDirection(r: GrpcReadAllEvents, direction: ReadDirection): GrpcReadAllEvents {
    r.(direction := direction)
  }

  function GrpcAllForward(r: GrpcReadAllEvents): GrpcReadAllEvents { GrpcAllSetDirection(r, Forward) }

  function GrpcAllBackward(r: GrpcReadAllEvents): GrpcReadAllEvents { GrpcAllSetDirection(r, Backward) }

  function GrpcAllCredentials(r: GrpcReadAllEvents, creds: Credentials): GrpcReadAllEvents {
    r.(creds := Some(creds))
  }

  function GrpcAllStartFrom(r: GrpcReadAllEvents, start: Position): GrpcReadAllEvents {
    r.(revision := FromExact(start))
  }

  function GrpcAllStartFromBeginning(r: GrpcReadAllEvents): GrpcReadAllEvents {
    r.(revision := FromStart, direction := Forward)
  }

  function GrpcAllStartFromEndOfStream(r: GrpcReadAllEvents): GrpcReadAllEvents {
    r.(revision := FromEnd, direction := Backward)
  }

  function GrpcAllResolveLinkTos(r: GrpcReadAllEvents, tos: LinkTos): GrpcReadAllEvents {
    r.(resolveLinkTos := tos.Raw())
  }

  lemma GrpcAllStartHelpers(r: GrpcReadAllEvents, creds: Option<Credentials>)
    ensures GrpcAllStartFromBeginning(r) == GrpcAllForward(r.(revision := FromStart))
    ensures GrpcAllStartFromEndOfStream(r) == GrpcAllBackward(r.(revision := FromEnd))
    ensures GrpcAllStartFromBeginning(NewGrpcReadAllEvents(creds)) == NewGrpcReadAllEvents(creds)
  {
  }

  /** The request `ReadAllEvents::execute(count)` sends. */
  function AllReadRequest(r: GrpcReadAllEvents, count: u64): (o: ReadOptions)
    ensures o.streamOption == AllAt(r.revision)
    ensures o.resolveLinks == r.resolveLinkTos && o.count == count
    ensures o.readDirection == DirectionCode(r.direction)
  {
    ReadOptions(AllAt(r.revision), r.resolveLinkTos, count, if r.direction == Forward then 0 else 1)
  }

  /** `read_through` on `$all`: the whole log, as many events as a `u64` can count. */
  function AllReadThrough(r: GrpcReadAllEvents): (o: ReadOptions)
    ensures o.count == U64_MAX
    ensures o.streamOption == AllAt(r.revision)
    ensures o.resolveLinks == r.resolveLinkTos && o.readDirection == DirectionCode(r.direction)
  {
    AllReadRequest(r, U64_MAX)
  }

  /* ---------------------------------------------------------------- received events */

  /** `ReadEvent.position`: the commit position of the event in `$all`, if the server sent one. */
  datatype ReadEventPosition = CommitPosition(pos: u64) | NoCommitPosition

  /** The `commit_position` of a resolved event. */
  function CommitPositionOf(position: Option<ReadEventPosition>): (r: Option<u64>)
    ensures r.Some? <==> position.Some? && position.value.CommitPosition?
    ensures r.Some? ==> r.value == position.value.pos
  {
    match position
    case Some(CommitPosition(pos)) => Some(pos)
    case Some(NoCommitPosition) => None
    case None => None
  }

  /** A received `RecordedEvent`, its id and stream name already decoded. */
  datatype ProtoRecordedEvent = ProtoRecordedEvent(
    id: Uuid,
    streamName: string,
    streamRevision: u64,
    commitPosition: u64,
    preparePosition: u64,
    metadata: map<string, string>,
    customMetadata: seq<bv8>,
    data: seq<bv8>)

  datatype RecordedEvent = RecordedEvent(
    id: Uuid,
    streamId: string,
    revision: u64,
    position: Position,
    eventType: string,
    isJson: bool,
    metadata: seq<bv8>,
    data: seq<bv8>)

  /** The panic of an `is-json` value that is neither true nor false. */
  datatype Panic = UnknownIsJson(value: string)

  const NoEventType: string := "<no-event-type-provided>"

  /** The event type a metadata map carries. */
  function EventTypeOf(metadata: map<string, string>): string {
    if TypeKey in metadata then metadata[TypeKey] else NoEventType
  }

  function AsciiLower(c: char): char {
    if 'A' <= c <= 'Z' then (c as int + 32) as char else c
  }

  /**
   * Lower-casing, on the letters that matter: a string lower-cases to `"true"`
   * or `"false"` only if its characters are those letters in either case.
   */
  function Lowercase(s: string): (r: string)
    ensures |r| == |s|
    ensures forall i :: 0 <= i < |s| ==> r[i] == AsciiLower(s[i])
  {
    if s == [] then [] else [AsciiLower(s[0])] + Lowercase(s[1..])
  }

  /** What the `is-json` metadata says: absent is false; otherwise true or false in any case, or a panic. */
  function IsJsonOf(metadata: map<string, string>): Result<bool, Panic> {
    if IsJsonKey !in metadata then Success(false)
    else
      var value := Lowercase(metadata[IsJsonKey]);
      if value == "true" then Success(true)
      else if value == "false" then Success(false)
      else Failure(UnknownIsJson(value))
  }

  /**
   * `convert_proto_recorded_event` (and its persistent-subscription twin):
   * take `type` and `is-json` out of the metadata map and build the event.
   */
  method ConvertRecordedEvent(event: ProtoRecordedEvent) returns (r: Result<RecordedEvent, Panic>)
    ensures r.Success? <==> IsJsonOf(event.metadata).Success?
    ensures r.Failure? ==> r == Failure(IsJsonOf(event.metadata).error)
    ensures r.Success? ==>
      && r.value.eventType == EventTypeOf(event.metadata)
      && r.value.isJson == IsJsonOf(event.metadata).value
      && r.value.position == Position(event.commitPosition as int, event.preparePosition as int)
      && r.value.id == event.id && r.value.streamId == event.streamName && r.value.revision == event.streamRevision
      && r.value.metadata == event.customMetadata && r.value.data == event.data
  {
    var metadata := event.metadata;
    var eventType;
    if TypeKey in metadata {
      eventType := metadata[TypeKey];
      metadata := metadata - {TypeKey};
    } else {
      eventType := NoEventType;
    }
    assert IsJsonKey in metadata <==> IsJsonKey in event.metadata;
    var isJson;
    if IsJsonKey in metadata {
      var value := Lowercase(metadata[IsJsonKey]);
      metadata := metadata - {IsJsonKey};
      if value == "true" {
        isJson := true;
      } else if value == "false" {
        isJson := false;
      } else {
        return Failure(UnknownIsJson(value));
      }
    } else {
      isJson := false;
    }
    var position := Position(event.commitPosition as int, event.preparePosition as int);
    r := Success(RecordedEvent(event.id, event.streamName, event.streamRevision, position, eventType, isJson,
                               event.customMetadata, event.data));
  }

  /** `is-json` is read case-insensitively: lower-casing the value first changes nothing. */
  lemma IsJsonIgnoresCase(metadata: map<string, string>)
    requires IsJsonKey in metadata
    ensures IsJsonOf(metadata) == IsJsonOf(metadata[IsJsonKey := Lowercase(metadata[IsJsonKey])])
  {
    var value := metadata[IsJsonKey];
    assert Lowercase(Lowercase(value)) == Lowercase(value);
  }

  /** Examples: upper and mixed case are accepted, other words panic, and no key means false. */
  lemma IsJsonExamples()
    ensures IsJsonOf(map[IsJsonKey := "TRUE"]) == Success(true)
    ensures IsJsonOf(map[IsJsonKey := "False"]) == Success(false)
    ensures IsJsonOf(map[IsJsonKey := "yes"]).Failure?
    ensures IsJsonOf(map[]) == Success(false)
  {
    assert Lowercase("TRUE") == "true";
    assert Lowercase("False") == "false";
    assert Lowercase("yes") == "yes";
  }

  /** A value `is-json` accepts has the length of "true" or "false". */
  lemma IsJsonAcceptedLength(metadata: map<string, string>)
    requires IsJsonKey in metadata && IsJsonOf(metadata).Success?
    ensures |metadata[IsJsonKey]| == 4 || |metadata[IsJsonKey]| == 5
  {
  }

  /** The event type an append writes under `type` is the one a read extracts. */
  lemma EventTypeRoundTrip(event: EventData, freshId: Uuid)
    ensures EventTypeOf(ConvertEventData(event, freshId).metadata) == event.eventType
  {
  }

  /* ---------------------------------------------------------------- deletes */

  datatype GrpcDeleteStream = GrpcDeleteStream(stream: string, version: ExpectedVersion, creds: Option<Credentials>, hardDelete: bool)

  function NewGrpcDeleteStream(stream: string, creds: Option<Credentials>): (d: GrpcDeleteStream)
    ensures d.stream == stream && d.version == Any && d.creds == creds && !d.hardDelete
  {
    GrpcDeleteStream(stream, Any, creds, false)
  }

  function GrpcDeleteExpectedVersion(d: GrpcDeleteStream, version: ExpectedVersion): GrpcDeleteStream {
    d.(version := version)
  }

  function GrpcDeleteCredentials(d: GrpcDeleteStream, creds: Credentials): GrpcDeleteStream {
    d.(creds := Some(creds))
  }

  function GrpcSoftDelete(d: GrpcDeleteStream): GrpcDeleteStream {
    d.(hardDelete := false)
  }

  function GrpcHardDelete(d: GrpcDeleteStream): GrpcDeleteStream {
    d.(hardDelete := true)
  }

  datatype DeleteReq = TombstoneReq(stream: string, expected: ExpectedStreamRevision) | SoftDeleteReq(stream: string, expected: ExpectedStreamRevision)

  /** The request `DeleteStream::execute` sends: a tombstone for a hard delete, a delete otherwise. */
  function DeleteRequest(d: GrpcDeleteStream): (req: DeleteReq)
    ensures req.TombstoneReq? <==> d.hardDelete
    ensures req.stream == d.stream && req.expected == ConvertExpectedVersion(d.version)
  {
    if d.hardDelete then TombstoneReq(d.stream, TombstoneExpectedRevision(d.version))
    else SoftDeleteReq(d.stream, DeleteExpectedRevision(d.version))
  }

  /** The position a delete or tombstone response reports. */
  function DeletePosition(position: Option<PositionOption>): (r: Option<Position>)
    ensures r.Some? <==> position.Some? && position.value.PositionIs?
    ensures r.Some? ==> r.value == Position(position.value.commitPosition as int, position.value.preparePosition as int)
  {
    match position
    case Some(PositionIs(c, p)) => Some(Position(c as int, p as int))
    case Some(NoPosition) => None
    case None => None
  }
}
