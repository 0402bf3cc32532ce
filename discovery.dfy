/**
 * The DiscoveryLoop: for each discovery request, run up to
 * `max_discover_attempts` attempts; each attempt ranks candidate seeds (from
 * the cached member list when there is one, otherwise from the configured
 * seeds or a DNS lookup), asks them for gossip in order, and stops at the
 * first batch that validates and yields a node. Every request ends with
 * exactly one message to the connection supervisor.
 *
 * The network is replaced by oracles: `gossip` answers the n-th gossip
 * request made to a seed, `dns` answers the n-th SRV lookup. The 500 ms
 * back-off is counted in `delays`; the outbound channel is the sequence
 * `sent`, to which sends append (their results are ignored by the source).
 */
module Discovery {

  import opened Wrappers
  import opened Types
  import opened ClusterMembers
  import opened NodeSelection
  import opened CandidateRanking

  /** Where seeds come from: a fixed list, or an SRV lookup of a domain name. */
  datatype SeedKind = Seeds(seeds: seq<GossipSeed>) | Dns(domainName: string)

  datatype ClusterSettings = ClusterSettings(kind: SeedKind, gossipPort: u16, maxDiscoverAttempts: nat)

  /** Messages to the connection supervisor. */
  datatype Msg = Establish(endpoint: Endpoint) | ConnectionClosed(id: Uuid, error: IoError)

  /** The answer to the n-th gossip request, sent to the given seed. */
  type GossipOracle = (nat, GossipSeed) -> Result<seq<MemberInfo>, IoError>

  /** The IP addresses of the n-th SRV lookup, or `None` when the lookup fails. */
  type DnsOracle = nat -> Option<seq<string>>

  /** The error text when every attempt failed. */
  function FailureMessage(maxAttempts: nat): string {
    "Failed to discover candidate in " + Decimal(maxAttempts) + " attempts"
  }

  /** The message sent when every attempt failed. */
  function Exhausted(maxAttempts: nat): Msg {
    ConnectionClosed(NilUuid(), IoError(NotFound, FailureMessage(maxAttempts)))
  }

  /** One seed per resolved IP, on the configured gossip port, in lookup order. */
  function SeedsFromIps(ips: seq<string>, port: u16): (r: seq<GossipSeed>)
    ensures |r| == |ips|
    ensures forall i :: 0 <= i < |ips| ==> r[i] == GossipSeed(SocketAddr(ips[i], port))
  {
    if ips == [] then [] else [GossipSeed(SocketAddr(ips[0], port))] + SeedsFromIps(ips[1..], port)
  }

  /** The seed list before shuffling: the configured seeds, or the n-th lookup's; `None` on a lookup error. */
  function Resolve(settings: ClusterSettings, dns: DnsOracle, lookups: nat): Option<seq<GossipSeed>> {
    match settings.kind
    case Seeds(seeds) => Some(seeds)
    case Dns(_) =>
      match dns(lookups)
      case None => None
      case Some(ips) => Some(SeedsFromIps(ips, settings.gossipPort))
  }

  /** What a candidate contributes: its gossip answer, validated as a batch. */
  function Batch(parse: AddrParser, gossip: GossipOracle, call: nat, seed: GossipSeed): Result<seq<Member>, IoError> {
    var infos :- gossip(call, seed);
    ValidateBatch(parse, infos)
  }

  /** What each candidate contributes, by gossip request number and seed. */
  type BatchOracle = (nat, GossipSeed) -> Result<seq<Member>, IoError>

  function Batches(parse: AddrParser, gossip: GossipOracle): BatchOracle {
    (call: nat, seed: GossipSeed) => Batch(parse, gossip, call, seed)
  }

  /** The state the candidate scan leaves behind. */
  datatype ScanResult = ScanResult(outcome: Option<NodeEndpoints>, rng: Rng, calls: nat, cache: Option<seq<Member>>)

  /**
   * The candidate scan: a candidate whose gossip fails, whose batch does not
   * validate or is empty is skipped; otherwise the node selector runs, and a
   * node ends the scan and becomes the cache.
   */
  function Scan(batch: BatchOracle, preference: NodePreference, rng: Rng, calls: nat,
                candidates: seq<GossipSeed>): ScanResult
    decreases |candidates|
  {
    if candidates == [] then ScanResult(None, rng, calls, None)
    else
      match batch(calls, candidates[0])
      case Failure(_) => Scan(batch, preference, rng, calls + 1, candidates[1..])
      case Success(members) =>
        if members == [] then Scan(batch, preference, rng, calls + 1, candidates[1..])
        else
          var (node, next) := DetermineBestNode(rng, preference, members);
          if node.Some? then ScanResult(node, next, calls + 1, Some(members))
          else Scan(batch, preference, next, calls + 1, candidates[1..])
  }

  /**
   * What a scan establishes: a node comes with a cache and vice versa, a scan
   * without a node asks every candidate, and only Random moves the generator,
   * forward along its draws.
   */
  lemma {:induction false} ScanOutcome(batch: BatchOracle, preference: NodePreference, rng: Rng,
                                       calls: nat, candidates: seq<GossipSeed>)
    ensures var r := Scan(batch, preference, rng, calls, candidates);
      && (r.outcome.Some? <==> r.cache.Some?)
      && calls <= r.calls <= calls + |candidates|
      && (r.outcome.None? ==> r.calls == calls + |candidates|)
      && (r.cache.Some? ==> calls < r.calls)
      && (preference != Random ==> r.rng == rng)
      && rng.Reaches(r.rng)
    decreases |candidates|
  {
    if candidates != [] {
      var rest := candidates[1..];
      match batch(calls, candidates[0])
      case Failure(_) =>
        ScanOutcome(batch, preference, rng, calls + 1, rest);
      case Success(members) =>
        if members == [] {
          ScanOutcome(batch, preference, rng, calls + 1, rest);
        } else {
          var (node, next) := DetermineBestNode(rng, preference, members);
          BestNodeAdvances(rng, preference, members);
          if node.None? {
            ScanOutcome(batch, preference, next, calls + 1, rest);
          }
        }
    }
  }

  /** The cache a scan leaves is the non-empty validated batch of the last candidate it asked. */
  lemma {:induction false} ScanCache(batch: BatchOracle, preference: NodePreference, rng: Rng,
                                     calls: nat, candidates: seq<GossipSeed>)
    ensures var r := Scan(batch, preference, rng, calls, candidates);
      r.cache.Some? ==>
        var k := r.calls - 1 - calls;
        && 0 <= k < |candidates|
        && batch(calls + k, candidates[k]) == Success(r.cache.value)
        && r.cache.value != []
    decreases |candidates|, 1
  {
    if candidates != [] {
      var answer := batch(calls, candidates[0]);
      if answer.Failure? || answer.value == [] {
        ScanSkips(batch, preference, rng, calls, candidates);
        ScanCacheRest(batch, preference, rng, calls, candidates);
      } else {
        var best := DetermineBestNode(rng, preference, answer.value);
        ScanSelects(batch, preference, rng, calls, candidates);
        if best.0.None? {
          ScanCacheRest(batch, preference, best.1, calls, candidates);
        }
      }
    }
  }

  /** `ScanCache` for the scan of the remaining candidates, restated for the whole list. */
  lemma {:induction false} ScanCacheRest(batch: BatchOracle, preference: NodePreference, rng: Rng,
                                         calls: nat, candidates: seq<GossipSeed>)
    requires candidates != []
    ensures var r := Scan(batch, preference, rng, calls + 1, candidates[1..]);
      r.cache.Some? ==>
        var k := r.calls - 1 - calls;
        && 1 <= k < |candidates|
        && batch(calls + k, candidates[k]) == Success(r.cache.value)
        && r.cache.value != []
    decreases |candidates|, 0
  {
    var rest := candidates[1..];
    var r := Scan(batch, preference, rng, calls + 1, rest);
    ScanCache(batch, preference, rng, calls + 1, rest);
    if r.cache.Some? {
      var j := r.calls - 1 - (calls + 1);
      assert rest[j] == candidates[j + 1];
    }
  }

  /** The node a scan finds is an eligible member of the batch it caches. */
  lemma {:induction false} ScanNodeEligible(batch: BatchOracle, preference: NodePreference, rng: Rng,
                                            calls: nat, candidates: seq<GossipSeed>)
    ensures var r := Scan(batch, preference, rng, calls, candidates);
      r.outcome.Some? ==>
        && r.cache.Some?
        && exists i :: 0 <= i < |r.cache.value| && Eligible(r.cache.value[i])
                       && r.outcome.value.tcpEndpoint == Endpoint(r.cache.value[i].externalTcp)
    decreases |candidates|
  {
    if candidates != [] {
      var rest := candidates[1..];
      match batch(calls, candidates[0])
      case Failure(_) =>
        ScanNodeEligible(batch, preference, rng, calls + 1, rest);
      case Success(members) =>
        if members == [] {
          ScanNodeEligible(batch, preference, rng, calls + 1, rest);
        } else {
          var (node, next) := DetermineBestNode(rng, preference, members);
          if node.None? {
            ScanNodeEligible(batch, preference, next, calls + 1, rest);
          }
        }
    }
  }

  /** When no candidate answers with a usable batch, every candidate is asked and nothing changes. */
  lemma {:induction false} ScanWithoutAnswers(batch: BatchOracle, preference: NodePreference,
                                              rng: Rng, calls: nat, candidates: seq<GossipSeed>)
    requires forall k :: 0 <= k < |candidates| ==>
      batch(calls + k, candidates[k]).Failure? || batch(calls + k, candidates[k]).value == []
    ensures Scan(batch, preference, rng, calls, candidates) == ScanResult(None, rng, calls + |candidates|, None)
    decreases |candidates|
  {
    if candidates != [] {
      forall k | 0 <= k < |candidates| - 1
        ensures batch((calls + 1) + k, candidates[1..][k]).Failure?
                || batch((calls + 1) + k, candidates[1..][k]).value == []
      {
        assert (calls + 1) + k == calls + (k + 1);
      }
      assert batch(calls + 0, candidates[0]).Failure?
             || batch(calls + 0, candidates[0]).value == [];
      ScanWithoutAnswers(batch, preference, rng, calls + 1, candidates[1..]);
    }
  }

  /** A candidate without a usable batch is skipped. */
  lemma ScanSkips(batch: BatchOracle, preference: NodePreference, rng: Rng, calls: nat,
                  candidates: seq<GossipSeed>)
    requires candidates != []
    requires batch(calls, candidates[0]).Failure? || batch(calls, candidates[0]).value == []
    ensures Scan(batch, preference, rng, calls, candidates)
            == Scan(batch, preference, rng, calls + 1, candidates[1..])
  {
  }

  /** A candidate with a usable batch runs the node selector; a node ends the scan. */
  lemma ScanSelects(batch: BatchOracle, preference: NodePreference, rng: Rng, calls: nat,
                    candidates: seq<GossipSeed>)
    requires candidates != []
    requires batch(calls, candidates[0]).Success? && batch(calls, candidates[0]).value != []
    ensures var members := batch(calls, candidates[0]).value;
      var best := DetermineBestNode(rng, preference, members);
      Scan(batch, preference, rng, calls, candidates)
        == if best.0.Some? then ScanResult(best.0, best.1, calls + 1, Some(members))
           else Scan(batch, preference, best.1, calls + 1, candidates[1..])
  {
  }

  /** The discovery task: its configuration, its oracles and the state it owns. */
  class DiscoveryLoop {
    const settings: ClusterSettings
    const secureMode: bool
    const preference: NodePreference
    const parse: AddrParser
    const gossip: GossipOracle
    const dns: DnsOracle
    /** The gossip answer of each request, validated: `Batches(parse, gossip)`. */
    const batches: BatchOracle

    /** `previous_candidates`: the member list of the last successful scan, if still held. */
    var previousCandidates: Option<seq<Member>>
    var rng: Rng
    /** Gossip requests and SRV lookups made so far: where the oracles are read. */
    var gossipCalls: nat
    var dnsLookups: nat
    /** 500 ms back-offs taken so far. */
    var delays: nat
    /** Messages sent to the connection supervisor, oldest first. */
    var sent: seq<Msg>
    /** Set when the task panicked (secure mode without a secure endpoint). */
    var panicked: bool

    /** The start of `discover`: preference Random, no cache, a generator seeded from entropy. */
    constructor (settings: ClusterSettings, secureMode: bool, parse: AddrParser, gossip: GossipOracle,
                 dns: DnsOracle, entropy: Rng)
      ensures this.settings == settings && this.secureMode == secureMode
      ensures this.parse == parse && this.gossip == gossip && this.dns == dns
      ensures batches == Batches(parse, gossip)
      ensures preference == Random && previousCandidates == None && rng == entropy
      ensures gossipCalls == 0 && dnsLookups == 0 && delays == 0 && sent == [] && !panicked
    {
      this.settings := settings;
      this.secureMode := secureMode;
      this.preference := Random;
      this.parse := parse;
      this.gossip := gossip;
      this.dns := dns;
      this.batches := Batches(parse, gossip);
      previousCandidates := None;
      rng := entropy;
      gossipCalls := 0;
      dnsLookups := 0;
      delays := 0;
      sent := [];
      panicked := false;
    }

    /**
     * `candidates_from_dns`: the configured seeds or the lookup's, shuffled
     * with the task's generator; `None` when the lookup fails, in which case
     * the generator is not touched.
     */
    method CandidatesFromDns() returns (r: Option<seq<GossipSeed>>)
      modifies this
      ensures var resolved := Resolve(settings, dns, old(dnsLookups));
        && (r.Some? <==> resolved.Some?)
        && (r.Some? ==> multiset(r.value) == multiset(resolved.value))
      ensures dnsLookups == old(dnsLookups) + (if settings.kind.Dns? then 1 else 0)
      ensures r.None? ==> rng == old(rng)
      ensures rng.draws == old(rng.draws) && old(rng.pos) <= rng.pos
      ensures previousCandidates == old(previousCandidates) && gossipCalls == old(gossipCalls)
      ensures delays == old(delays) && sent == old(sent) && panicked == old(panicked)
    {
      var src: seq<GossipSeed>;
      match settings.kind {
        case Seeds(seeds) =>
          src := seeds;
        case Dns(_) =>
          var lookup := dns(dnsLookups);
          dnsLookups := dnsLookups + 1;
          if lookup.None? {
            return None;
          }
          src := CollectSeeds(lookup.value, settings.gossipPort);
      }
      var shuffled :| multiset(shuffled) == multiset(src);
      var used: nat :| true;
      rng := rng.(pos := rng.pos + used);
      r := Some(shuffled);
    }

    /**
     * The first half of the inner `discover`: take the cache and rank the
     * candidates from it, or resolve fresh seeds when there is none.
     */
    method RankCandidates(failed: Option<Endpoint>) returns (seeds: seq<GossipSeed>, ghost arranged: seq<Member>)
      modifies this
      ensures previousCandidates == None
      ensures old(previousCandidates).Some? ==>
        && rng == old(rng) && dnsLookups == old(dnsLookups)
        && seeds == SeedsOf(arranged)
        && multiset(arranged) == multiset(Survivors(failed, old(previousCandidates).value))
        && (forall i, j :: 0 <= i < j < |arranged| && IsManager(arranged[i]) ==> IsManager(arranged[j]))
      ensures old(previousCandidates).None? ==>
        var resolved := Resolve(settings, dns, old(dnsLookups));
        && dnsLookups == old(dnsLookups) + (if settings.kind.Dns? then 1 else 0)
        && rng.draws == old(rng.draws) && old(rng.pos) <= rng.pos
        && (resolved.None? ==> seeds == [] && rng == old(rng))
        && (resolved.Some? ==> multiset(seeds) == multiset(resolved.value))
      ensures gossipCalls == old(gossipCalls) && delays == old(delays) && sent == old(sent) && panicked == old(panicked)
    {
      var cached := previousCandidates;
      previousCandidates := None;
      match cached {
        case Some(oldCandidates) =>
          seeds, arranged := CandidatesFromOldGossip(failed, oldCandidates);
        case None =>
          var resolved := CandidatesFromDns();
          seeds := if resolved.Some? then resolved.value else [];
          arranged := [];
      }
    }

    /**
     * The second half of the inner `discover`: ask each candidate in turn,
     * stop at the first that yields a node, and cache its batch.
     */
    method ScanCandidates(seeds: seq<GossipSeed>) returns (outcome: Option<NodeEndpoints>)
      modifies this
      ensures var r := Scan(batches, preference, old(rng), old(gossipCalls), seeds);
        && outcome == r.outcome && rng == r.rng && gossipCalls == r.calls
        && previousCandidates == (if r.cache.Some? then r.cache else old(previousCandidates))
      ensures dnsLookups == old(dnsLookups) && delays == old(delays) && sent == old(sent) && panicked == old(panicked)
    {
      ghost var target := Scan(batches, preference, rng, gossipCalls, seeds);
      outcome := None;
      var i := 0;
      while i < |seeds|
        invariant 0 <= i <= |seeds|
        invariant outcome.None? && previousCandidates == old(previousCandidates)
        invariant Scan(batches, preference, rng, gossipCalls, seeds[i..]) == target
        invariant dnsLookups == old(dnsLookups) && delays == old(delays) && sent == old(sent) && panicked == old(panicked)
      {
        assert seeds[i..][0] == seeds[i] && seeds[i..][1..] == seeds[i + 1..];
        outcome := AskCandidate(seeds[i..]);
        if outcome.Some? {
          return;
        }
        i := i + 1;
      }
      assert seeds[i..] == [];
    }

    /**
     * One pass of the scan loop: ask the first candidate, validate its batch
     * and, when it has members, run the node selector on them; a node makes
     * the batch the cache.
     */
    method AskCandidate(candidates: seq<GossipSeed>) returns (outcome: Option<NodeEndpoints>)
      requires candidates != []
      modifies this
      ensures gossipCalls == old(gossipCalls) + 1
      ensures outcome.Some? ==>
        && previousCandidates.Some?
        && Scan(batches, preference, old(rng), old(gossipCalls), candidates)
           == ScanResult(outcome, rng, gossipCalls, previousCandidates)
      ensures outcome.None? ==>
        && previousCandidates == old(previousCandidates)
        && Scan(batches, preference, old(rng), old(gossipCalls), candidates)
           == Scan(batches, preference, rng, gossipCalls, candidates[1..])
      ensures dnsLookups == old(dnsLookups) && delays == old(delays) && sent == old(sent) && panicked == old(panicked)
    {
      var calls, current := gossipCalls, rng;
      var result := batches(calls, candidates[0]);
      gossipCalls := calls + 1;
      if result.Success? && result.value != [] {
        var members := result.value;
        var best := DetermineBestNode(current, preference, members);
        ScanSelects(batches, preference, current, calls, candidates);
        outcome, rng := best.0, best.1;
        if outcome.Some? {
          previousCandidates := Some(members);
        }
      } else {
        ScanSkips(batches, preference, current, calls, candidates);
        outcome := None;
      }
    }

    /**
     * The inner `discover`: take the cache, rank the candidates, and scan
     * them. The ghost results name the candidate order and the generator the
     * scan started from.
     */
    method Attempt(failed: Option<Endpoint>)
      returns (outcome: Option<NodeEndpoints>, ghost candidates: seq<GossipSeed>, ghost arranged: seq<Member>,
               ghost scanFrom: Rng)
      modifies this
      ensures old(previousCandidates).Some? ==>
        && scanFrom == old(rng) && dnsLookups == old(dnsLookups)
        && candidates == SeedsOf(arranged)
        && multiset(arranged) == multiset(Survivors(failed, old(previousCandidates).value))
        && (forall i, j :: 0 <= i < j < |arranged| && IsManager(arranged[i]) ==> IsManager(arranged[j]))
      ensures old(previousCandidates).None? ==>
        var resolved := Resolve(settings, dns, old(dnsLookups));
        && dnsLookups == old(dnsLookups) + (if settings.kind.Dns? then 1 else 0)
        && scanFrom.draws == old(rng.draws) && old(rng.pos) <= scanFrom.pos
        && (resolved.None? ==> candidates == [] && scanFrom == old(rng))
        && (resolved.Some? ==> multiset(candidates) == multiset(resolved.value))
      ensures var r := Scan(batches, preference, scanFrom, old(gossipCalls), candidates);
        && outcome == r.outcome && rng == r.rng && gossipCalls == r.calls && previousCandidates == r.cache
      ensures delays == old(delays) && sent == old(sent) && panicked == old(panicked)
    {
      var seeds;
      seeds, arranged := RankCandidates(failed);
      candidates := seeds;
      scanFrom := rng;
      outcome := ScanCandidates(seeds);
    }

    /**
     * One request: attempts until one yields a node or `max_discover_attempts`
     * have failed, with a back-off after each failed attempt, then exactly one
     * message (or, in secure mode without a secure endpoint, a panic and none).
     * The ghost results name the candidates, generator and gossip request
     * number the last attempt's scan started from.
     */
    method HandleRequest(failed: Option<Endpoint>)
      returns (attempts: nat, node: Option<NodeEndpoints>, ghost seeds: seq<GossipSeed>, ghost scanFrom: Rng,
               ghost calls0: nat)
      requires !panicked
      modifies this
      ensures attempts <= settings.maxDiscoverAttempts
      ensures old(gossipCalls) <= gossipCalls && old(dnsLookups) <= dnsLookups
      ensures old(rng).Reaches(rng)
      ensures settings.maxDiscoverAttempts == 0 ==>
        && node.None? && previousCandidates == old(previousCandidates)
        && rng == old(rng) && gossipCalls == old(gossipCalls) && dnsLookups == old(dnsLookups)
      ensures node.None? && 1 <= settings.maxDiscoverAttempts ==> previousCandidates == None
      ensures node.Some? ==>
        && old(gossipCalls) <= calls0
        && Scan(batches, preference, scanFrom, calls0, seeds) == ScanResult(node, rng, gossipCalls, previousCandidates)
      ensures node.None? ==>
        && attempts == settings.maxDiscoverAttempts
        && delays == old(delays) + attempts
        && !panicked
        && sent == old(sent) + [Exhausted(settings.maxDiscoverAttempts)]
      ensures node.Some? ==>
        && 1 <= attempts
        && delays == old(delays) + attempts - 1
        && previousCandidates.Some?
        && (exists i :: 0 <= i < |previousCandidates.value| && Eligible(previousCandidates.value[i])
                        && node.value.tcpEndpoint == Endpoint(previousCandidates.value[i].externalTcp))
      ensures node.Some? && !secureMode ==> !panicked && sent == old(sent) + [Establish(node.value.tcpEndpoint)]
      ensures node.Some? && secureMode ==>
        && (panicked <==> node.value.secureTcpEndpoint.None?)
        && (panicked ==> sent == old(sent))
        && (!panicked ==> sent == old(sent) + [Establish(node.value.secureTcpEndpoint.value)])
    {
      var att := 1;
      node := None;
      seeds, scanFrom, calls0 := [], rng, gossipCalls;
      while true
        invariant 1 <= att <= settings.maxDiscoverAttempts + 1
        invariant node.None? && !panicked && sent == old(sent)
        invariant delays == old(delays) + att - 1
        invariant old(gossipCalls) <= gossipCalls && old(dnsLookups) <= dnsLookups
        invariant old(rng).Reaches(rng)
        invariant att == 1 ==>
          && previousCandidates == old(previousCandidates)
          && rng == old(rng) && gossipCalls == old(gossipCalls) && dnsLookups == old(dnsLookups)
        invariant 1 < att ==> previousCandidates == None
        decreases settings.maxDiscoverAttempts + 1 - att
      {
        if att > settings.maxDiscoverAttempts {
          sent := sent + [Exhausted(settings.maxDiscoverAttempts)];
          attempts := att - 1;
          return;
        }
        var outcome;
        calls0 := gossipCalls;
        ghost var arranged;
        outcome, seeds, arranged, scanFrom := Attempt(failed);
        ScanOutcome(batches, preference, scanFrom, calls0, seeds);
        if outcome.Some? {
          ScanCache(batches, preference, scanFrom, calls0, seeds);
          ScanNodeEligible(batches, preference, scanFrom, calls0, seeds);
          node := outcome;
          attempts := att;
          if secureMode {
            if outcome.value.secureTcpEndpoint.None? {
              panicked := true;
              return;
            }
            sent := sent + [Establish(outcome.value.secureTcpEndpoint.value)];
          } else {
            sent := sent + [Establish(outcome.value.tcpEndpoint)];
          }
          return;
        }
        delays := delays + 1;
        att := att + 1;
      }
    }

    /** The request loop: each request is handled in turn until the channel ends or the task panics. */
    method Run(requests: seq<Option<Endpoint>>) returns (handled: nat)
      requires !panicked
      modifies this
      ensures handled <= |requests|
      ensures !panicked ==> handled == |requests| && |sent| == |old(sent)| + handled
      ensures panicked ==> 1 <= handled && |sent| == |old(sent)| + handled - 1
      ensures sent[..|old(sent)|] == old(sent)
      ensures forall i :: |old(sent)| <= i < |sent| ==> sent[i].Establish? || sent[i] == Exhausted(settings.maxDiscoverAttempts)
    {
      handled := 0;
      while handled < |requests| && !panicked
        invariant handled <= |requests|
        invariant |old(sent)| <= |sent| && sent[..|old(sent)|] == old(sent)
        invariant !panicked ==> |sent| == |old(sent)| + handled
        invariant panicked ==> 1 <= handled && |sent| == |old(sent)| + handled - 1
        invariant forall i :: |old(sent)| <= i < |sent| ==> sent[i].Establish? || sent[i] == Exhausted(settings.maxDiscoverAttempts)
      {
        var attempts, node, seeds, scanFrom, calls0 := HandleRequest(requests[handled]);
        handled := handled + 1;
      }
    }
  }

  /** The loop over the lookup's IPs, pushing one seed per IP. */
  method CollectSeeds(ips: seq<string>, port: u16) returns (seeds: seq<GossipSeed>)
    ensures seeds == SeedsFromIps(ips, port)
  {
    seeds := [];
    for i := 0 to |ips|
      invariant seeds == SeedsFromIps(ips[..i], port)
    {
      assert ips[..i + 1] == ips[..i] + [ips[i]];
      SeedsFromIpsAppend(ips[..i], ips[i], port);
      seeds := seeds + [GossipSeed(SocketAddr(ips[i], port))];
    }
    assert ips[..|ips|] == ips;
  }

  lemma {:induction false} SeedsFromIpsAppend(ips: seq<string>, ip: string, port: u16)
    ensures SeedsFromIps(ips + [ip], port) == SeedsFromIps(ips, port) + [GossipSeed(SocketAddr(ip, port))]
  {
    var lhs := SeedsFromIps(ips + [ip], port);
    var rhs := SeedsFromIps(ips, port) + [GossipSeed(SocketAddr(ip, port))];
    assert |lhs| == |rhs|;
    forall i | 0 <= i < |lhs| ensures lhs[i] == rhs[i] {
      if i < |ips| {
        assert (ips + [ip])[i] == ips[i];
      }
    }
  }
}
