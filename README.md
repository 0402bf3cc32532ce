# EventStoreDB Rust client: cluster discovery and command mapping, in Dafny

This project models three parts of the Rust client for EventStoreDB and proves
properties of the model.

**Cluster discovery** (`src/discovery/cluster.rs`). A background task answers
each "connect me" request with exactly one message: `Establish(endpoint)` or
`ConnectionClosed(nil, NotFound)`. For each request it runs up to
`max_discover_attempts` attempts. Each attempt does the following:

- It takes the cached gossip member list. If there is one, it drops the member
  that just failed and ranks the rest: non-managers first, managers last, each
  bucket shuffled.
- Without a cache it uses the configured seeds or a DNS lookup, shuffled.
- It asks each candidate's gossip endpoint for the member list, in order.
- It validates every record of a batch and keeps the batch only if all of them
  convert.
- It picks a node with `determine_best_node`, which is a filter and a `min_by`
  fold.
- On success it caches the batch.

Modules:

- `ClusterMembers`: gossip records and their validation.
- `NodeSelection`: node choice per preference.
- `CandidateRanking`: the `Candidates` buckets and the old-gossip ranking.
- `Discovery`: the scan and the retry loop, as the class `DiscoveryLoop`.

Time, HTTP, DNS and randomness are parameters:

- **Gossip** is an oracle from (call number, seed) to a member list or an I/O
  error.
- **DNS** is an oracle from the lookup number to an optional list of IPs.
- **`SmallRng`** is a fixed but arbitrary stream of `u32` draws with a read
  position.
- **Shuffles** are arbitrary permutations.
- **`parse_socket_addr`** is an arbitrary partial function on `"ip:port"`
  strings.
- **The outbound channel** is a sequence of sent messages.
- **The 500 ms back-off** is a counter.

**The TCP command layer** (`src/internal/commands.rs`). It has three parts:

- **`TcpMetadata`** covers stream metadata: the `Roles` serde encoding (a single
  role is written as a bare string), the ACL and metadata wire records, and
  their conversions. Serialisation is modelled at the level of serde's data
  model.
- **`TcpCommands`** covers the command builders, the `$$stream` naming of
  metadata streams, and how metadata reads are mapped.
- **`TcpFetcher`** covers the paging state machine `Fetcher::poll` as a class.
  The answers of request futures come from an oracle.

**The gRPC command layer** (`src/commands.rs`), in the module `GrpcCommands`,
covers:

- the encodings of expected versions, consumer strategies, nack actions and
  read directions, checked against the generated enums in
  `src/event_store/client/persistent.rs`;
- `FilterConf` and `into_proto`;
- the request records the read, append and delete builders produce;
- how append, read and delete responses are mapped;
- how `type` and `is-json` are taken out of a received event's metadata.

Three behaviours of the code are worth stating plainly, and the model keeps all of them:

- The cache is emptied by `previous_candidates.take()` at the start of every
  attempt (cluster.rs:35). It is set again only when a node is found
  (cluster.rs:74). A failed attempt therefore leaves no cache for the next one,
  and the next attempt falls back to seeds or DNS.
- The Follower comparator (cluster.rs:434-444) is modelled literally. The result
  is the first eligible member if it is a Master. Otherwise it is the last
  eligible Slave, and if there is none, the first eligible member. Under
  Follower a Slave can therefore beat a non-Master.
- The preference is hard-coded to `Random` (cluster.rs:22).

## Model

| member | source | states |
|---|---|---|
| ClusterMembers.FromMemberInfo | src/discovery/cluster.rs:275-332 | A record converts iff all six addresses parse. A secure port below 1 gives no secure address; otherwise the secure address is the same side's TCP IP with the secure port. A failure is `InvalidData`. State and liveness are copied unchanged. |
| ClusterMembers.ValidateBatch | src/discovery/cluster.rs:50-57 | A batch is accepted iff every record converts. The result keeps the order and length, and each element is that record's conversion. |
| ClusterMembers.OneBadRecordRejectsBatch | src/discovery/cluster.rs:50-57 | One malformed record anywhere rejects the whole batch. |
| NodeSelection.Eligibles | src/discovery/cluster.rs:409-419 | The filtered members are exactly the members that are alive and not Manager, ShuttingDown or Shutdown. |
| NodeSelection.EligiblesCount | src/discovery/cluster.rs:409-419 | Each eligible member is kept as often as it occurs in the input, and no other member is kept. |
| NodeSelection.EligiblesAppend | src/discovery/cluster.rs:409-419 | The filter keeps input order: filtering a concatenation is the concatenation of the filtered parts. |
| NodeSelection.DetermineBestNode | src/discovery/cluster.rs:404-467 | No node iff no member is eligible. Otherwise some eligible member's external TCP and external secure TCP addresses are the endpoints. Only Random advances the generator. |
| NodeSelection.FoldPicksFromList | src/discovery/cluster.rs:422-452 | The `min_by` fold returns one of the members it was given. |
| NodeSelection.FoldKeepsRng | src/discovery/cluster.rs:422-452 | The Leader and Follower folds draw nothing from the generator. Any fold only moves the generator forward along its fixed draws. |
| NodeSelection.BestNodeAdvances | src/discovery/cluster.rs:404-467 | The node selector only moves the generator forward along its fixed draws. |
| NodeSelection.LeaderFold | src/discovery/cluster.rs:422-432 | The Leader fold returns the first Master, or the first member if there is none. |
| NodeSelection.FollowerFold | src/discovery/cluster.rs:434-444 | The Follower fold returns the first member if it is a Master. Otherwise it returns the last Slave, or the first member if there is none. |
| NodeSelection.RandomFold | src/discovery/cluster.rs:446-452 | The Random fold draws exactly once per challenger. A challenger replaces the pick exactly when its draw is even, so the result is the challenger with the last even draw, or the first member. |
| NodeSelection.LeaderPicksFirstMaster | src/discovery/cluster.rs:422-432 | With Leader preference the chosen node is the first eligible Master, else the first eligible member. The generator is unchanged. |
| NodeSelection.FollowerPicksLastSlave | src/discovery/cluster.rs:434-444 | With Follower preference the chosen node is the first eligible member if it is a Master. Otherwise it is the last eligible Slave, else the first eligible member. |
| NodeSelection.RandomPicksLastEvenDraw | src/discovery/cluster.rs:446-452 | With Random preference the generator advances by one less than the number of eligible members. The chosen node is the last eligible member whose draw is even, or the first one if none is. |
| NodeSelection.BestNodeIsPick | src/discovery/cluster.rs:457-467 | The endpoints are those of the member the fold picks from the eligible members. |
| CandidateRanking.NonManagers | src/discovery/cluster.rs:352-358 | The `nodes` bucket holds no Manager. |
| CandidateRanking.Managers | src/discovery/cluster.rs:352-358 | The `managers` bucket holds only Managers. |
| CandidateRanking.BucketsPartition | src/discovery/cluster.rs:352-358 | Together the two buckets hold each member exactly once, as a multiset. |
| CandidateRanking.SeedsOf | src/discovery/cluster.rs:367-374 | Each member's seed is its external HTTP address, in member order. |
| CandidateRanking.Candidates.constructor | src/discovery/cluster.rs:345-350 | Both buckets start empty. |
| CandidateRanking.Candidates.Push | src/discovery/cluster.rs:352-358 | A Manager is appended to `managers` and any other member to `nodes`. The other bucket is unchanged. |
| CandidateRanking.Candidates.Shuffle | src/discovery/cluster.rs:360-365 | Each bucket becomes a permutation of itself. |
| CandidateRanking.Candidates.GossipSeeds | src/discovery/cluster.rs:367-374 | The seeds of the nodes come first, then the seeds of the managers. |
| CandidateRanking.ArrangeGossipCandidates | src/discovery/cluster.rs:180-189 | There is one seed per candidate. The seeds come from a permutation of the input. Its first part permutes the non-managers and its second part permutes the managers. |
| CandidateRanking.ShuffledBuckets | src/discovery/cluster.rs:180-189 | Shuffled buckets, nodes first, are a permutation of the input. They split at the number of non-managers, with no manager before the split and only managers after it. |
| CandidateRanking.Survivors | src/discovery/cluster.rs:168-175 | With no failed endpoint every member survives. With one, a member survives iff its external TCP address differs from the failed address. Each survivor appears as often as in the cached list. |
| CandidateRanking.AwayFrom | src/discovery/cluster.rs:168-175 | The members kept are exactly those whose external TCP address is not the failed one, each as often as in the input. |
| CandidateRanking.SurvivorsAppend | src/discovery/cluster.rs:168-175 | The filter keeps the cached order: filtering a concatenation is the concatenation of the filtered parts. |
| CandidateRanking.CandidatesFromOldGossip | src/discovery/cluster.rs:164-178 | With no failed endpoint there is one seed per cached member. With one, no seed comes from a member at the failed address. No seed from a Manager comes before a seed from a non-Manager. |
| Discovery.SeedsFromIps | src/discovery/cluster.rs:151-154 | There is one seed per IP, in order, each at the gossip port. |
| Discovery.CollectSeeds | src/discovery/cluster.rs:151-154 | The lookup loop pushes exactly the seeds `SeedsFromIps` describes. |
| Discovery.ScanOutcome | src/discovery/cluster.rs:47-84 | A node is found iff the cache is set. Without a node every candidate was asked. Only Random moves the generator, and only forward along its draws. |
| Discovery.ScanCache | src/discovery/cluster.rs:58-79 | The cache a scan leaves is the validated, non-empty batch of the last candidate asked, and no later candidate is asked. |
| Discovery.ScanNodeEligible | src/discovery/cluster.rs:68-79 | A node found by the scan comes with a cache and is an eligible member of that batch. |
| Discovery.ScanWithoutAnswers | src/discovery/cluster.rs:58-67 | If every candidate's batch fails, the scan finds nothing, asks them all and leaves no cache. |
| Discovery.ScanSkips | src/discovery/cluster.rs:58-67 | A failed or empty batch moves the scan on to the next candidate. |
| Discovery.ScanSelects | src/discovery/cluster.rs:68-79 | A non-empty batch with an eligible member stops the scan and becomes the cache. |
| Discovery.DiscoveryLoop.constructor | src/discovery/cluster.rs:16-25 | The task starts with Random preference, no cache, nothing sent and a fresh generator. |
| Discovery.DiscoveryLoop.CandidatesFromDns | src/discovery/cluster.rs:139-162 | Static seeds or a DNS answer give a permutation of the candidates. A DNS failure gives none and draws nothing. |
| Discovery.DiscoveryLoop.RankCandidates | src/discovery/cluster.rs:35-46 | The cache is always emptied. A cached list is ranked like `candidates_from_old_gossip`; otherwise the candidates come from seeds or DNS, and a DNS error gives none. |
| Discovery.DiscoveryLoop.ScanCandidates | src/discovery/cluster.rs:47-84 | The loop over the candidates computes exactly the scan's outcome, generator, call count and cache. |
| Discovery.DiscoveryLoop.AskCandidate | src/discovery/cluster.rs:49-80 | One pass asks one candidate and counts one gossip request. A node caches that batch and ends the scan with exactly the scan's result. Otherwise the cache is unchanged and the scan continues with the rest. |
| Discovery.DiscoveryLoop.Attempt | src/discovery/cluster.rs:27-85 | One attempt empties the cache, ranks the candidates and scans them. Nothing is sent. |
| Discovery.DiscoveryLoop.HandleRequest | src/discovery/cluster.rs:87-135 | At most `max_discover_attempts` attempts run, with one delay after each failed attempt. If all fail, exactly one `ConnectionClosed(nil, NotFound)` with the attempt count is sent. On success exactly one `Establish` is sent, carrying the TCP endpoint, or in secure mode the secure endpoint. A missing secure endpoint panics and sends nothing. With no attempts allowed nothing but the message changes. After a request where every attempt failed, the cache is empty. Gossip and DNS counters only grow, and the generator only moves forward. A node found is the last attempt's scan result, and that scan's cache, generator and call count are the new state. |
| Discovery.DiscoveryLoop.Run | src/discovery/cluster.rs:87-137 | Each request adds exactly one message, either an `Establish` or the exhaustion message, until a panic stops the task. |
| TcpMetadata.RolesFromString | src/internal/commands.rs:323-325 | A single name becomes a one-role list. |
| TcpMetadata.RolesEmptyIsDefault | src/internal/commands.rs:312-321 | A role list is empty iff it is the default, absent list. |
| TcpMetadata.Serialize | src/internal/commands.rs:276-301 | The element loop writes exactly the encoding: none for no list, a bare string for exactly one role, and otherwise a sequence in order (the empty list included). |
| TcpMetadata.DecodedItems | src/internal/commands.rs:345-360 | A sequence decodes iff every element is a string, to those strings in order. Otherwise the result is a string-expected error. |
| TcpMetadata.VisitSeq | src/internal/commands.rs:345-360 | The `next_element` loop returns exactly the decoded role list, or the element's error. |
| TcpMetadata.Deserialize | src/internal/commands.rs:303-367 | `deserialize_any` maps none to no list, a string to one role and a sequence through `visit_seq`. Anything else is rejected with the visitor's expectation. |
| TcpMetadata.RolesRoundTrip | src/internal/commands.rs:276-367 | Deserialising a serialised role list gives it back. |
| TcpMetadata.SingleRoleEncodings | src/internal/commands.rs:337-360 | A bare string and a one-element sequence decode to the same role list. |
| TcpMetadata.AclConversionsInverse | src/internal/commands.rs:388-407 | `build_acl` undoes `from_acl`, and `from_acl` undoes `build_acl`. |
| TcpMetadata.AclEmptyIsDefault | src/internal/commands.rs:409-415 | An ACL is empty, and skipped on serialisation, iff all five role lists are absent, which is the default. |
| TcpMetadata.SerializeAcl | src/internal/commands.rs:370-386 | `$r`, `$w`, `$d`, `$mr` and `$mw` are written exactly when their role list is not empty, and no other key is written. |
| TcpMetadata.AclRoundTrip | src/internal/commands.rs:370-386 | Deserialising a serialised ACL gives it back; skipped fields default to absent. |
| TcpMetadata.AclDocumentExample | src/internal/commands.rs:1939-1968 | `{"$w": "greg", "$r": ["greg", "john"]}` decodes to a one-role write list, a two-role read list and nothing else. |
| TcpMetadata.MetadataRoundTrip | src/internal/commands.rs:249-270 | `build_metadata(from_metadata(m))` keeps the max count, the truncate-before, the ACL and the custom properties. The durations come back exactly when the timespan conversions undo each other. |
| TcpCommands.NewWriteEvents | src/internal/commands.rs:47-60 | A new write has no events, does not require master, expects any version and has no credentials. |
| TcpCommands.AppendIsRepeatedPush | src/internal/commands.rs:70-85 | Extending with a list equals pushing its events one at a time, in order. |
| TcpCommands.PushKeepsSettings | src/internal/commands.rs:70-74 | `push_event` keeps the earlier events, adds the new one last and changes no other setting. |
| TcpCommands.SetEventsDiscardsEarlier | src/internal/commands.rs:65-67 | `set_events` replaces whatever was added before it. |
| TcpCommands.NewReadEvent | src/internal/commands.rs:145-166 | A new single-event read targets the given stream and event number, resolves no links, does not require master and has no credentials. |
| TcpCommands.MetadataStreamName | src/internal/commands.rs:436 | A metadata stream is named `$$` followed by the stream name. |
| TcpCommands.MetadataStreamNameInjective | src/internal/commands.rs:487 | Different streams have different metadata streams. |
| TcpCommands.NewWriteStreamMetadata | src/internal/commands.rs:425-439 | A metadata write is a default write to the stream's metadata stream. |
| TcpCommands.MetadataWrite | src/internal/commands.rs:464-469 | Executing a metadata write appends one `$metadata` JSON event that holds the wire form of the metadata. The other settings are unchanged. |
| TcpCommands.MetadataWriteTargetsMetadataStream | src/internal/commands.rs:425-469 | A new metadata write sends exactly one `$metadata` event to `$$stream` and expects any version. |
| TcpCommands.NewReadStreamMetadata | src/internal/commands.rs:479-496 | A metadata read reads event number -1 of `$$stream` and reports under the plain stream name. |
| TcpCommands.MetadataResult | src/internal/commands.rs:512-541 | Success maps to versioned metadata with the event number and the rebuilt metadata. NotFound and NoStream map to NotFound; Deleted maps to Deleted. Every result names the plain stream. |
| TcpCommands.MetadataReadsBack | src/internal/commands.rs:464-541 | Metadata that was written and then read back keeps its counts, ACL and custom properties. |
| TcpCommands.NewReadStreamEvents | src/internal/commands.rs:732-753 | A new stream read uses batches of 500, starts at event 0, reads forward, resolves no links, does not require master and has no credentials. |
| TcpCommands.StreamStartHelpers | src/internal/commands.rs:755-811 | Starting from the beginning equals start 0 then forward. Starting from the end equals start -1 then backward. A new read already starts from the beginning. |
| TcpCommands.LinkTosFromBool | src/internal/commands.rs:872 | Converting the flag back to a link setting gives the same flag on the wire. |
| TcpCommands.FetchStreamPageIsMovedCommand | src/internal/commands.rs:1003-1028 | Each page request is the iterated command moved to the page position, without credentials. |
| TcpCommands.NewReadAllEvents | src/internal/commands.rs:1070-1083 | A new `$all` read uses batches of 500, starts at `Position::start()` and reads forward. |
| TcpCommands.AllStartHelpers | src/internal/commands.rs:1113-1141 | Starting from the beginning equals `Position::start()` then forward. Starting from the end equals `Position::end()` then backward. |
| TcpCommands.FetchAllPageIsMovedCommand | src/internal/commands.rs:1031-1050 | Each `$all` page request is the iterated command moved to the page position, without credentials. |
| TcpCommands.NewDeleteStream | src/internal/commands.rs:1243-1256 | A new delete is soft and expects any version. |
| TcpCommands.DeleteModeLastWins | src/internal/commands.rs:1288-1303 | The last of `soft_delete` and `hard_delete` decides, and soft is the default. |
| TcpFetcher.Interpret | src/internal/commands.rs:937-984 | An Error, AccessDenied or StreamDeleted read error fails the stream, and so does a failed request future. Any other read error or the end of the stream ends it. A page yields its events and stores where to continue. Not ready keeps the request in flight. |
| TcpFetcher.ReadErrorsKeepTheirCause | src/internal/commands.rs:941-956 | Each failing read error becomes the operation error of the same kind, with its message or stream. |
| TcpFetcher.PollWaitsOnce | src/internal/commands.rs:920-986 | A poll that is not at the end waits on exactly one answer, for the request in flight, at `pos` or at the next page. A new request is recorded, and `Next(Some(p))` moves `pos` to `p`. |
| TcpFetcher.PagesFollowEachOther | src/internal/commands.rs:928-935 | After a page whose next position is `p`, the next poll requests `p`. After a last page the next poll ends the stream without a request. |
| TcpFetcher.FirstPollRequestsStart | src/internal/commands.rs:883-887 | A new fetcher's first poll requests the command's start position. |
| TcpFetcher.Fetcher.constructor | src/internal/commands.rs:883-887 | A fetcher starts at the start position and needs a fetch. |
| TcpFetcher.Fetcher.Poll | src/internal/commands.rs:920-986 | The polling loop's result and its new position, state, poll count and request log are exactly those of the state machine `Step`. |
| GrpcCommands.ConvertExpectedVersion | src/commands.rs:23-30 | Any, StreamExists, NoStream and Exact(v) map, variant for variant, to Any, StreamExists, NoStream and Revision(v). |
| GrpcCommands.ConvertExpectedVersionBijective | src/commands.rs:23-30 | The conversion is a bijection with an explicit inverse. |
| GrpcCommands.DeletesConvertLikeAppends | src/commands.rs:944-999 | Tombstones and deletes send the same expectation an append does. |
| GrpcCommands.NamedConsumerStrategy | src/commands.rs:215-219 | The consumer strategy code is in 0..2. |
| GrpcCommands.ConsumerStrategyFromI32 | src/event_store/client/persistent.rs:212-216 | Decoding a code gives the generated variant with that value, or nothing if no variant has it. |
| GrpcCommands.ConsumerStrategyAgrees | src/commands.rs:249-253 | DispatchToSingle, RoundRobin and Pinned encode to the generated variants of the same name, and distinct strategies get distinct codes. |
| GrpcCommands.NakActionCode | src/commands.rs:1728-1734 | The nack action code is in 0..4. |
| GrpcCommands.NackActionFromI32 | src/event_store/client/persistent.rs:59-65 | Decoding a code gives the generated action with that value, or nothing. |
| GrpcCommands.NakActionAgrees | src/commands.rs:1728-1734 | Unknown, Park, Retry, Skip and Stop encode to the generated actions of the same name, and distinct actions get distinct codes. |
| GrpcCommands.DirectionCode | src/commands.rs:625-628 | Forward is 0 and Backward is 1, both ways. |
| GrpcCommands.BasedOnStreamName | src/commands.rs:337-344 | A stream-name filter has no window size, no regex and no prefixes. |
| GrpcCommands.FilterStartingPoints | src/commands.rs:346-351 | The event-type filter equals the stream-name filter except that it does not filter on streams. |
| GrpcCommands.AddPrefixesInOrder | src/commands.rs:367-370 | Adding prefixes one at a time appends them in order. |
| GrpcCommands.IntoProto | src/commands.rs:373-398 | The window is Max(m) iff a max m was set, else Count. The filter targets stream names iff based on streams. The regex defaults to "" and the prefixes keep their order. The checkpoint multiplier is 1. |
| GrpcCommands.IntoProtoRoundTrip | src/commands.rs:373-398 | A filter with no empty regex can be read back from its options unchanged. |
| GrpcCommands.EmptyRegexIsUnset | src/commands.rs:384-387 | An empty regex and no regex give the same options. |
| GrpcCommands.NewGrpcWriteEvents | src/commands.rs:410-421 | A new append expects any version. |
| GrpcCommands.ConvertEventData | src/commands.rs:80-111 | The event id is kept, or a fresh one is used. The metadata is exactly `type` set to the event type and `content-type` set to application/json iff the payload is JSON, else application/octet-stream. Custom metadata and data are the payload bytes. |
| GrpcCommands.AppendRequests | src/commands.rs:452-462 | An append sends the options header, with the converted expected version, followed by each event in order. |
| GrpcCommands.AppendResponse | src/commands.rs:473-514 | A current revision maps to itself and NoStream to 0. A position maps to itself and NoPosition to `Position::start()`. Wrong-expected-version options map variant for variant. An absent field the code unwraps is malformed. |
| GrpcCommands.AppendDefaultsCollide | src/commands.rs:478-490 | "No stream, no position" and "revision 0 at the start of the log" give the same write result. |
| GrpcCommands.NewGrpcReadStreamEvents | src/commands.rs:532-545 | A new stream read starts at the start, reads forward and resolves no links. |
| GrpcCommands.GrpcStreamStartHelpers | src/commands.rs:586-602 | Starting from the beginning equals Start then forward. Starting from the end equals End then backward. A new read already starts from the beginning. |
| GrpcCommands.StreamReadRequest | src/commands.rs:618-654 | A read request carries the stream, the start revision, the link flag, the count and the direction code. |
| GrpcCommands.StreamReadThrough | src/commands.rs:691-695 | `read_through` asks for `u64::MAX` events of the command's stream, from its start revision, with its link flag and direction code. |
| GrpcCommands.ReadFromEndRequest | src/commands.rs:577-602 | Reading from the end requests End with direction 1. `start_from(n)` requests revision Exact(n), whatever the count. |
| GrpcCommands.NewGrpcReadAllEvents | src/commands.rs:708-716 | A new `$all` read starts at the start and reads forward. |
| GrpcCommands.GrpcAllStartHelpers | src/commands.rs:743-772 | The `$all` start helpers are a start plus a direction. |
| GrpcCommands.AllReadRequest | src/commands.rs:788-833 | An `$all` read request carries the start, the link flag, the count and the direction code. |
| GrpcCommands.AllReadThrough | src/commands.rs:865-869 | Reading `$all` through asks for `u64::MAX` events from the command's start position, with its link flag and direction code. |
| GrpcCommands.CommitPositionOf | src/commands.rs:280-295 | The commit position is present iff the server sent `CommitPosition(p)`, and it is then `p`. |
| GrpcCommands.Lowercase | src/commands.rs:135 | Lower-casing keeps the length and lower-cases each letter. |
| GrpcCommands.ConvertRecordedEvent | src/commands.rs:113-159 | The event type is the `type` metadata, or `<no-event-type-provided>`. `is-json` is true or false in any letter case, false when absent, and any other value panics. The position is (commit, prepare), and the other fields are copied. |
| GrpcCommands.IsJsonIgnoresCase | src/commands.rs:134-142 | For any metadata with an `is-json` value, lower-casing that value first gives the same result. |
| GrpcCommands.IsJsonExamples | src/commands.rs:134-142 | "TRUE" reads as true and "False" as false, "yes" panics, and an absent key reads as false. |
| GrpcCommands.IsJsonAcceptedLength | src/commands.rs:134-142 | An accepted `is-json` value has four or five characters. |
| GrpcCommands.EventTypeRoundTrip | src/commands.rs:96-128 | The event type an append writes under `type` is the one a read extracts. |
| GrpcCommands.NewGrpcDeleteStream | src/commands.rs:884-896 | A new delete is soft and expects any version. |
| GrpcCommands.DeleteRequest | src/commands.rs:938-1039 | A hard delete sends a tombstone and a soft delete a delete, both with the converted expected version. |
| GrpcCommands.DeletePosition | src/commands.rs:965-986 | A delete reports a position iff the response has one. |

## Left out

- HTTP gossip (`get_gossip_from`) and its JSON decoding, the DNS SRV lookup, the `tokio` timer and the `mpsc` channels. These are I/O; they are oracles, a delay counter and a message sequence.
- The shuffles of `thread_rng` and `SmallRng`. They are arbitrary permutations, and the DNS shuffle advances the generator by an arbitrary amount. Which permutation the real generators produce is not modelled.
- `parse_socket_addr`, which is the standard library's address parser. It is an arbitrary partial function on `"ip:port"` strings.
- Discovery.DiscoveryLoop.CandidatesFromDns: the DNS oracle sees only the lookup number, not the domain name.
- Discovery.DiscoveryLoop.HandleRequest: the attempt counter is an unbounded integer; `usize` overflow is not modelled.
- Logging (`info!`, `warn!`, `error!`) and the error texts, except the exhaustion message.
- All `execute` and `send` bodies, `single_value_future`, the `.wait().unwrap()` calls, `SubscriptionRead` and `SubscriptionWrite`. These are futures, channels and gRPC calls; only the requests they would send and the mapping of their answers are modelled.
- `src/internal/connection.rs`, which is threads and TCP sockets.
- `src/event_store/client/persistent.rs`, except for the values of its two enumerations. It is generated message types and client stubs.
- `raw_uuid_to_uuid`, `to_proto_uuid`, the base64 Basic-auth header and the UUID/base64 encoding of ack and nack ids. These belong to foreign crates. Received events carry their id and stream name already decoded.
- The persistent-subscription settings conversions other than the consumer strategy, including the `as_millis() as i32` casts.
- `Timespan`/`Duration` conversions and `serde_json::Value` custom properties. These are type parameters and conversion functions.
- The JSON text of metadata events. The `$metadata` event's body is an abstract encoding of the wire record, and decoding it on a read is assumed to succeed, as the code's `unwrap` does.
- `EventData::json` is assumed to give an event with no id and no custom metadata.
- `$maxCount`, `$maxAge`, `$tb` and `$cacheControl` are not serialised field by field; only the ACL object's fields are.
- TcpMetadata.Deserialize: serde_json hands a JSON `null` to `visit_unit`, which `RolesVisitor` does not implement. Only the serde-level "none" value is modelled, and `null` falls under the rejected "other" values.
- TcpMetadata.DeserializeAcl: the order in which serde reports errors of several bad fields, and duplicate-key errors, are not modelled. The model checks the fields in declaration order.
- TcpFetcher: the variants of `ReadStreamError` other than `Error`, `AccessDenied` and `StreamDeleted` are one `NonBlocking` case, because they are defined in a file that is not part of this model.
- GrpcCommands.Lowercase: only ASCII letters are lower-cased. No other character lower-cases to a letter of "true" or "false", so acceptance is the same, but the panic message of a rejected non-ASCII value can differ.
- GrpcCommands.ConvertRecordedEvent: the panics of a missing id or stream identifier and of non-UTF-8 stream names are not modelled. The `is-json` panic is a failure result.
- GrpcCommands.AppendResponse: the `unwrap` panics on absent response fields are a `Malformed` result.
- Transactions, subscriptions (catch-up, volatile and persistent) and persistent-subscription management commands, which are outside the modelled core.
