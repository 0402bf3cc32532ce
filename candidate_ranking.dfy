/**
 * The CandidateRanker for a cached member list: drop the member that just
 * failed, bucket the rest into ordinary nodes and managers, shuffle each
 * bucket, and query the nodes' gossip addresses before the managers'.
 *
 * The shuffles use `thread_rng`; they are modelled as arbitrary permutations.
 */
module CandidateRanking {

  import opened Wrappers
  import opened ClusterMembers
  import opened NodeSelection

  /** `types::GossipSeed`, built with `GossipSeed::from_socket_addr`. */
  datatype GossipSeed = GossipSeed(addr: SocketAddr)

  predicate IsManager(m: Member) {
    m.state == Manager
  }

  /** The members that go to the `nodes` bucket, in order. */
  function NonManagers(s: seq<Member>): (r: seq<Member>)
    ensures forall i :: 0 <= i < |r| ==> !IsManager(r[i])
  {
    if s == [] then []
    else NonManagers(s[..|s| - 1]) + (if IsManager(s[|s| - 1]) then [] else [s[|s| - 1]])
  }

  /** The members that go to the `managers` bucket, in order. */
  function Managers(s: seq<Member>): (r: seq<Member>)
    ensures forall i :: 0 <= i < |r| ==> IsManager(r[i])
  {
    if s == [] then []
    else Managers(s[..|s| - 1]) + (if IsManager(s[|s| - 1]) then [s[|s| - 1]] else [])
  }

  /** The two buckets split the members: together they hold each member exactly once. */
  lemma {:induction false} BucketsPartition(s: seq<Member>)
    ensures multiset(NonManagers(s)) + multiset(Managers(s)) == multiset(s)
    ensures |NonManagers(s)| + |Managers(s)| == |s|
  {
    if s != [] {
      var init, last := s[..|s| - 1], s[|s| - 1];
      BucketsPartition(init);
      assert s == init + [last];
      assert multiset(s) == multiset(init) + multiset{last};
      if IsManager(last) {
        assert Managers(s) == Managers(init) + [last];
        assert NonManagers(s) == NonManagers(init);
      } else {
        assert NonManagers(s) == NonManagers(init) + [last];
        assert Managers(s) == Managers(init);
      }
    }
  }

  /** The seed of each member: its external HTTP address. */
  function SeedsOf(members: seq<Member>): (r: seq<GossipSeed>)
    ensures |r| == |members|
    ensures forall i :: 0 <= i < |members| ==> r[i] == GossipSeed(members[i].externalHttp)
  {
    if members == [] then [] else [GossipSeed(members[0].externalHttp)] + SeedsOf(members[1..])
  }

  /** The two buckets a member list is arranged into. */
  class Candidates {
    var nodes: seq<Member>
    var managers: seq<Member>

    /** `Candidates::new`: both buckets empty. */
    constructor ()
      ensures nodes == [] && managers == []
    {
      nodes := [];
      managers := [];
    }

    /** `Candidates::push`: a Manager joins `managers`, anything else `nodes`. */
    method Push(member: Member)
      modifies this
      ensures IsManager(member) ==> managers == old(managers) + [member] && nodes == old(nodes)
      ensures !IsManager(member) ==> nodes == old(nodes) + [member] && managers == old(managers)
    {
      if member.state == Manager {
        managers := managers + [member];
      } else {
        nodes := nodes + [member];
      }
    }

    /** `Candidates::shuffle`: each bucket is permuted in place, independently. */
    method Shuffle()
      modifies this
      ensures multiset(nodes) == multiset(old(nodes))
      ensures multiset(managers) == multiset(old(managers))
    {
      var shuffledNodes :| multiset(shuffledNodes) == multiset(nodes);
      var shuffledManagers :| multiset(shuffledManagers) == multiset(managers);
      nodes := shuffledNodes;
      managers := shuffledManagers;
    }

    /** `Candidates::gossip_seeds`: the nodes, then the managers, each as its HTTP gossip seed. */
    method GossipSeeds() returns (seeds: seq<GossipSeed>)
      ensures |seeds| == |nodes| + |managers|
      ensures forall i :: 0 <= i < |nodes| ==> seeds[i] == GossipSeed(nodes[i].externalHttp)
      ensures forall i :: 0 <= i < |managers| ==> seeds[|nodes| + i] == GossipSeed(managers[i].externalHttp)
    {
      var all := nodes + managers;
      seeds := SeedsOf(all);
      assert forall i :: 0 <= i < |managers| ==> all[|nodes| + i] == managers[i];
    }
  }

  /**
   * `arrange_gossip_candidates`. The ghost `arranged` is the member order
   * behind the seeds: a permutation of the non-managers followed by a
   * permutation of the managers.
   */
  method ArrangeGossipCandidates(candidates: seq<Member>) returns (seeds: seq<GossipSeed>, ghost arranged: seq<Member>)
    ensures |seeds| == |candidates|
    ensures seeds == SeedsOf(arranged)
    ensures multiset(arranged) == multiset(candidates)
    ensures var k := |NonManagers(candidates)|;
      && k <= |arranged|
      && multiset(arranged[..k]) == multiset(NonManagers(candidates))
      && multiset(arranged[k..]) == multiset(Managers(candidates))
      && (forall i :: 0 <= i < k ==> !IsManager(arranged[i]))
      && (forall i :: k <= i < |arranged| ==> IsManager(arranged[i]))
  {
    var buckets := new Candidates();
    for i := 0 to |candidates|
      invariant buckets.nodes == NonManagers(candidates[..i])
      invariant buckets.managers == Managers(candidates[..i])
    {
      assert candidates[..i + 1][..i] == candidates[..i];
      buckets.Push(candidates[i]);
    }
    assert candidates[..|candidates|] == candidates;
    buckets.Shuffle();
    seeds := buckets.GossipSeeds();
    arranged := buckets.nodes + buckets.managers;
    ShuffledBuckets(candidates, buckets.nodes, buckets.managers);
    assert seeds == SeedsOf(arranged);
    assert |arranged| == |multiset(arranged)| == |multiset(candidates)|;
  }

  /** Shuffled buckets, nodes first: the split point and the side each member lands on. */
  lemma ShuffledBuckets(candidates: seq<Member>, nodes: seq<Member>, managers: seq<Member>)
    requires multiset(nodes) == multiset(NonManagers(candidates))
    requires multiset(managers) == multiset(Managers(candidates))
    ensures var arranged, k := nodes + managers, |NonManagers(candidates)|;
      && multiset(arranged) == multiset(candidates)
      && k == |nodes| <= |arranged|
      && arranged[..k] == nodes
      && arranged[k..] == managers
      && (forall i :: 0 <= i < k ==> !IsManager(arranged[i]))
      && (forall i :: k <= i < |arranged| ==> IsManager(arranged[i]))
  {
    BucketsPartition(candidates);
    var arranged := nodes + managers;
    assert |nodes| == |multiset(nodes)| == |NonManagers(candidates)|;
    assert arranged[..|nodes|] == nodes;
    assert arranged[|nodes|..] == managers;
    SameMembers(nodes, NonManagers(candidates), false);
    SameMembers(managers, Managers(candidates), true);
  }

  /** A permutation of a list whose members all are (or all are not) managers is one too. */
  lemma SameMembers(s: seq<Member>, t: seq<Member>, manager: bool)
    requires multiset(s) == multiset(t)
    requires forall i :: 0 <= i < |t| ==> IsManager(t[i]) == manager
    ensures forall i :: 0 <= i < |s| ==> IsManager(s[i]) == manager
  {
    forall i | 0 <= i < |s|
      ensures IsManager(s[i]) == manager
    {
      assert s[i] in multiset(t);
    }
  }

  /** The cached members still worth asking: all of them, or those not at the failed endpoint. */
  function Survivors(failed: Option<Endpoint>, members: seq<Member>): (r: seq<Member>)
    ensures failed.None? ==> r == members
    ensures failed.Some? ==> forall m :: m in r <==> m in members && m.externalTcp != failed.value.addr
    ensures failed.Some? ==>
      forall m :: multiset(r)[m] == if m.externalTcp != failed.value.addr then multiset(members)[m] else 0
    ensures |r| <= |members|
  {
    match failed
    case None => members
    case Some(endpoint) => AwayFrom(endpoint.addr, members)
  }

  /** The `filter` of `candidates_from_old_gossip`: the members whose TCP address is not `addr`, in order. */
  function AwayFrom(addr: SocketAddr, members: seq<Member>): (r: seq<Member>)
    ensures forall m :: m in r <==> m in members && m.externalTcp != addr
    ensures forall m {:trigger multiset(r)[m]} :: multiset(r)[m] == if m.externalTcp != addr then multiset(members)[m] else 0
    ensures |r| <= |members|
  {
    if members == [] then []
    else
      assert members == [members[0]] + members[1..];
      (if members[0].externalTcp != addr then [members[0]] else []) + AwayFrom(addr, members[1..])
  }

  /** The filter keeps the cached order: filtering a concatenation filters each part. */
  lemma {:induction false} SurvivorsAppend(failed: Option<Endpoint>, a: seq<Member>, b: seq<Member>)
    ensures Survivors(failed, a + b) == Survivors(failed, a) + Survivors(failed, b)
  {
    if failed.Some? {
      AwayFromAppend(failed.value.addr, a, b);
    }
  }

  lemma {:induction false} AwayFromAppend(addr: SocketAddr, a: seq<Member>, b: seq<Member>)
    ensures AwayFrom(addr, a + b) == AwayFrom(addr, a) + AwayFrom(addr, b)
    decreases |a|
  {
    if a == [] {
      assert a + b == b;
    } else {
      assert (a + b)[0] == a[0] && (a + b)[1..] == a[1..] + b;
      AwayFromAppend(addr, a[1..], b);
    }
  }

  /** `candidates_from_old_gossip`: rank the survivors of the cached member list. */
  method CandidatesFromOldGossip(failed: Option<Endpoint>, old_candidates: seq<Member>)
    returns (seeds: seq<GossipSeed>, ghost arranged: seq<Member>)
    ensures seeds == SeedsOf(arranged)
    ensures multiset(arranged) == multiset(Survivors(failed, old_candidates))
    ensures failed.None? ==> |seeds| == |old_candidates|
    ensures failed.Some? ==> forall i :: 0 <= i < |arranged| ==> arranged[i].externalTcp != failed.value.addr
    ensures forall i, j :: 0 <= i < j < |arranged| && IsManager(arranged[i]) ==> IsManager(arranged[j])
  {
    var survivors := Survivors(failed, old_candidates);
    seeds, arranged := ArrangeGossipCandidates(survivors);
    forall i | 0 <= i < |arranged|
      ensures arranged[i] in survivors
    {
      assert arranged[i] in multiset(arranged);
    }
    assert |arranged| == |multiset(arranged)| == |survivors|;
    BucketsPartition(survivors);
  }
}
