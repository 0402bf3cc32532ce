/**
 * The NodeSelector (`determine_best_node`): keep the members that are alive
 * and in an allowed state, then pick one with `Iterator::min_by` under the
 * configured preference. `min_by` folds from the first element, keeping the
 * current pick when the comparator answers `Less` or `Equal` and taking the
 * challenger on `Greater`.
 *
 * The client's `SmallRng` is modelled as an arbitrary, fixed stream of 32-bit
 * draws together with the number of draws already taken.
 */
module NodeSelection {

  import opened Wrappers
  import opened Types
  import opened ClusterMembers

  datatype NodePreference = Leader | Follower | Random

  /** A random generator: the draws it will produce, and how many it has produced. */
  datatype Rng = Rng(draws: nat -> u32, pos: nat) {
    /** `next_u32`: the next draw, and the generator one draw further on. */
    function NextU32(): (u32, Rng) {
      (draws(pos), this.(pos := pos + 1))
    }

    /** `later` is this generator after some number of draws. */
    ghost predicate Reaches(later: Rng) {
      later.draws == draws && pos <= later.pos
    }

    /** Whether the draw `k` places ahead of the current position is even. */
    predicate EvenAhead(k: nat) {
      draws(pos + k) % 2 == 0
    }
  }

  datatype Ordering = Less | Equal | Greater

  /** `types::Endpoint`, built with `Endpoint::from_addr`. */
  datatype Endpoint = Endpoint(addr: SocketAddr)

  /** The discovery result: the TCP endpoint and, when announced, the secure one. */
  datatype NodeEndpoints = NodeEndpoints(tcpEndpoint: Endpoint, secureTcpEndpoint: Option<Endpoint>)

  /** `allowed_states`: every state except Manager, ShuttingDown and Shutdown. */
  predicate AllowedState(state: VNodeState) {
    match state
    case Manager | ShuttingDown | Shutdown => false
    case _ => true
  }

  predicate Eligible(m: Member) {
    m.isAlive && AllowedState(m.state)
  }

  /** The two `filter` calls, in order: alive, then an allowed state. */
  function Eligibles(members: seq<Member>): (r: seq<Member>)
    ensures |r| <= |members|
    ensures forall m :: m in r <==> m in members && Eligible(m)
  {
    if members == [] then []
    else if Eligible(members[0]) then [members[0]] + Eligibles(members[1..])
    else Eligibles(members[1..])
  }

  /** The filter keeps every eligible member as often as it occurs, and no other. */
  lemma {:induction false} EligiblesCount(members: seq<Member>)
    ensures forall m :: multiset(Eligibles(members))[m] == if Eligible(m) then multiset(members)[m] else 0
  {
    if members != [] {
      assert members == [members[0]] + members[1..];
      EligiblesCount(members[1..]);
    }
  }

  /** The filter keeps the input order: filtering a concatenation filters each part. */
  lemma {:induction false} EligiblesAppend(a: seq<Member>, b: seq<Member>)
    ensures Eligibles(a + b) == Eligibles(a) + Eligibles(b)
    decreases |a|
  {
    if a == [] {
      assert a + b == b;
    } else {
      assert (a + b)[0] == a[0] && (a + b)[1..] == a[1..] + b;
      EligiblesAppend(a[1..], b);
    }
  }

  predicate HasState(s: seq<Member>, state: VNodeState) {
    exists i :: 0 <= i < |s| && s[i].state == state
  }

  /** Index of the first member in the given state. */
  function FirstWith(s: seq<Member>, state: VNodeState): (i: nat)
    requires HasState(s, state)
    ensures i < |s| && s[i].state == state
    ensures forall j :: 0 <= j < i ==> s[j].state != state
  {
    if s[0].state == state then 0
    else
      assert HasState(s[1..], state) by {
        var k :| 0 <= k < |s| && s[k].state == state;
        assert s[1..][k - 1].state == state;
      }
      1 + FirstWith(s[1..], state)
  }

  /** Index of the last member in the given state. */
  function LastWith(s: seq<Member>, state: VNodeState): (i: nat)
    requires HasState(s, state)
    ensures i < |s| && s[i].state == state
    ensures forall j :: i < j < |s| ==> s[j].state != state
  {
    if s[|s| - 1].state == state then |s| - 1
    else
      assert HasState(s[..|s| - 1], state) by {
        var k :| 0 <= k < |s| && s[k].state == state;
        assert s[..|s| - 1][k].state == state;
      }
      LastWith(s[..|s| - 1], state)
  }

  /** The Leader comparator: a Master current pick wins, else a Master challenger wins. */
  function LeaderCompare(a: Member, b: Member): Ordering {
    if a.state == Master then Less
    else if b.state == Master then Greater
    else Equal
  }

  /** The Follower comparator, as written: a Master current pick wins, else a Slave challenger wins. */
  function FollowerCompare(a: Member, b: Member): Ordering {
    if a.state == Master then Less
    else if b.state == Slave then Greater
    else Equal
  }

  /** The Random comparator: one fresh draw; the challenger wins on an even draw. */
  function RandomCompare(draw: u32): Ordering {
    if draw % 2 == 0 then Greater else Less
  }

  /** One comparator call: only Random advances the generator. */
  function Compare(preference: NodePreference, rng: Rng, a: Member, b: Member): (Ordering, Rng) {
    match preference
    case Leader => (LeaderCompare(a, b), rng)
    case Follower => (FollowerCompare(a, b), rng)
    case Random =>
      var (draw, next) := rng.NextU32();
      (RandomCompare(draw), next)
  }

  /** `std::cmp::min_by`: the challenger only on `Greater`. */
  function MinBy(current: Member, challenger: Member, ord: Ordering): Member {
    if ord == Greater then challenger else current
  }

  /** The `min_by` fold from a current pick over the remaining members. */
  function Fold(preference: NodePreference, rng: Rng, current: Member, rest: seq<Member>): (Member, Rng)
    decreases |rest|
  {
    if rest == [] then (current, rng)
    else
      var (ord, next) := Compare(preference, rng, current, rest[0]);
      Fold(preference, next, MinBy(current, rest[0], ord), rest[1..])
  }

  /** The member `min_by` returns over a filtered list, and the generator afterwards. */
  function Pick(preference: NodePreference, rng: Rng, eligible: seq<Member>): (Option<Member>, Rng) {
    if eligible == [] then (None, rng)
    else
      var (winner, next) := Fold(preference, rng, eligible[0], eligible[1..]);
      (Some(winner), next)
  }

  function EndpointsOf(m: Member): NodeEndpoints {
    NodeEndpoints(
      Endpoint(m.externalTcp),
      if m.externalSecureTcp.Some? then Some(Endpoint(m.externalSecureTcp.value)) else None)
  }

  /** `determine_best_node`: the endpoints of the picked member, and the generator afterwards. */
  function DetermineBestNode(rng: Rng, preference: NodePreference, members: seq<Member>): (r: (Option<NodeEndpoints>, Rng))
    ensures r.0.None? <==> forall i :: 0 <= i < |members| ==> !Eligible(members[i])
    ensures r.0.Some? ==> exists i :: 0 <= i < |members| && Eligible(members[i])
                                       && r.0.value.tcpEndpoint == Endpoint(members[i].externalTcp)
                                       && r.0.value.secureTcpEndpoint == EndpointsOf(members[i]).secureTcpEndpoint
    ensures preference != Random ==> r.1 == rng
  {
    var eligible := Eligibles(members);
    assert eligible == [] <==> forall i :: 0 <= i < |members| ==> !Eligible(members[i]) by {
      if eligible != [] {
        assert eligible[0] in members;
      }
    }
    match Pick(preference, rng, eligible)
    case (None, next) => (None, next)
    case (Some(winner), next) =>
      FoldKeepsRng(preference, rng, eligible[0], eligible[1..]);
      FoldPicksFromList(preference, rng, eligible[0], eligible[1..]);
      assert winner in eligible by {
        assert eligible == [eligible[0]] + eligible[1..];
      }
      assert winner in members;
      (Some(EndpointsOf(winner)), next)
  }

  /** The fold returns the starting pick or one of the remaining members. */
  lemma {:induction false} FoldPicksFromList(preference: NodePreference, rng: Rng, current: Member, rest: seq<Member>)
    ensures Fold(preference, rng, current, rest).0 in [current] + rest
    decreases |rest|
  {
    if rest != [] {
      var (ord, next) := Compare(preference, rng, current, rest[0]);
      FoldPicksFromList(preference, next, MinBy(current, rest[0], ord), rest[1..]);
    }
  }

  /** Leader and Follower never touch the generator; any fold only moves it forward along its draws. */
  lemma {:induction false} FoldKeepsRng(preference: NodePreference, rng: Rng, current: Member, rest: seq<Member>)
    ensures preference != Random ==> Fold(preference, rng, current, rest).1 == rng
    ensures rng.Reaches(Fold(preference, rng, current, rest).1)
    decreases |rest|
  {
    if rest != [] {
      var (ord, next) := Compare(preference, rng, current, rest[0]);
      FoldKeepsRng(preference, next, MinBy(current, rest[0], ord), rest[1..]);
    }
  }

  /** Leader fold: a Master pick stays; otherwise the first Master challenger is taken, if any. */
  lemma {:induction false} LeaderFold(rng: Rng, current: Member, rest: seq<Member>)
    ensures Fold(Leader, rng, current, rest).0 ==
      if current.state == Master || !HasState(rest, Master) then current else rest[FirstWith(rest, Master)]
    decreases |rest|
  {
    if rest != [] {
      var picked := MinBy(current, rest[0], LeaderCompare(current, rest[0]));
      LeaderFold(rng, picked, rest[1..]);
      if current.state != Master && rest[0].state != Master {
        assert HasState(rest, Master) ==> HasState(rest[1..], Master) && FirstWith(rest, Master) == 1 + FirstWith(rest[1..], Master);
        assert HasState(rest[1..], Master) ==> HasState(rest, Master) by {
          if HasState(rest[1..], Master) {
            var k :| 0 <= k < |rest[1..]| && rest[1..][k].state == Master;
            assert rest[k + 1].state == Master;
          }
        }
      }
    }
  }

  /** Follower fold: a Master pick stays; otherwise the last Slave challenger is taken, if any. */
  lemma {:induction false} FollowerFold(rng: Rng, current: Member, rest: seq<Member>)
    ensures Fold(Follower, rng, current, rest).0 ==
      if current.state == Master || !HasState(rest, Slave) then current else rest[LastWith(rest, Slave)]
    decreases |rest|
  {
    if rest != [] {
      var picked := MinBy(current, rest[0], FollowerCompare(current, rest[0]));
      FollowerFold(rng, picked, rest[1..]);
      if current.state != Master {
        if HasState(rest[1..], Slave) {
          LastWithShift(rest, Slave);
        } else if rest[0].state == Slave {
          LastWithHead(rest, Slave);
        } else {
          NoStateShift(rest, Slave);
        }
      }
    }
  }

  /** The last index in a state is the one after which no member is in that state. */
  lemma LastWithIs(s: seq<Member>, state: VNodeState, i: nat)
    requires i < |s| && s[i].state == state
    requires forall j :: i < j < |s| ==> s[j].state != state
    ensures HasState(s, state) && LastWith(s, state) == i
  {
  }

  lemma LastWithShift(s: seq<Member>, state: VNodeState)
    requires |s| > 0 && HasState(s[1..], state)
    ensures HasState(s, state) && LastWith(s, state) == 1 + LastWith(s[1..], state)
  {
    var k := LastWith(s[1..], state);
    assert s[k + 1] == s[1..][k];
    forall j | k + 1 < j < |s|
      ensures s[j].state != state
    {
      assert s[j] == s[1..][j - 1];
    }
    LastWithIs(s, state, k + 1);
  }

  lemma LastWithHead(s: seq<Member>, state: VNodeState)
    requires |s| > 0 && s[0].state == state && !HasState(s[1..], state)
    ensures HasState(s, state) && LastWith(s, state) == 0
  {
    forall j | 0 < j < |s|
      ensures s[j].state != state
    {
      assert s[j] == s[1..][j - 1];
    }
    LastWithIs(s, state, 0);
  }

  lemma NoStateShift(s: seq<Member>, state: VNodeState)
    requires |s| > 0 && s[0].state != state
    ensures HasState(s, state) <==> HasState(s[1..], state)
  {
    if HasState(s, state) {
      var k :| 0 <= k < |s| && s[k].state == state;
      assert s[1..][k - 1] == s[k];
    }
    if HasState(s[1..], state) {
      var k :| 0 <= k < |s[1..]| && s[1..][k].state == state;
      assert s[k + 1] == s[1..][k];
    }
  }

  /**
   * Random fold: one draw per challenger; the pick is the last challenger whose
   * draw was even, or the starting pick when every draw was odd.
   */
  lemma {:induction false} RandomFold(rng: Rng, current: Member, rest: seq<Member>)
    ensures Fold(Random, rng, current, rest).1 == rng.(pos := rng.pos + |rest|)
    ensures (forall j :: 0 <= j < |rest| ==> !rng.EvenAhead(j)) ==> Fold(Random, rng, current, rest).0 == current
    ensures forall j :: 0 <= j < |rest| && rng.EvenAhead(j) && (forall k :: j < k < |rest| ==> !rng.EvenAhead(k)) ==>
              Fold(Random, rng, current, rest).0 == rest[j]
    decreases |rest|
  {
    if rest != [] {
      var (draw, next) := rng.NextU32();
      var picked := MinBy(current, rest[0], RandomCompare(draw));
      RandomFold(next, picked, rest[1..]);
      forall k | 0 <= k < |rest| - 1
        ensures next.EvenAhead(k) == rng.EvenAhead(k + 1)
      {
        assert next.pos + k == rng.pos + (k + 1);
      }
      assert rng.EvenAhead(0) == (draw % 2 == 0);
    }
  }

  /** Preference Leader: the first eligible Master, or the first eligible member when there is none. */
  lemma LeaderPicksFirstMaster(rng: Rng, members: seq<Member>)
    requires Eligibles(members) != []
    ensures var e := Eligibles(members);
      Pick(Leader, rng, e) == (Some(if HasState(e, Master) then e[FirstWith(e, Master)] else e[0]), rng)
  {
    var e := Eligibles(members);
    LeaderFold(rng, e[0], e[1..]);
    FoldKeepsRng(Leader, rng, e[0], e[1..]);
    if e[0].state != Master {
      assert HasState(e, Master) <==> HasState(e[1..], Master) by {
        if HasState(e, Master) {
          var k :| 0 <= k < |e| && e[k].state == Master;
          assert e[1..][k - 1].state == Master;
        }
        if HasState(e[1..], Master) {
          var k :| 0 <= k < |e[1..]| && e[1..][k].state == Master;
          assert e[k + 1].state == Master;
        }
      }
    }
  }

  /**
   * Preference Follower, as written: the first eligible member when it is a
   * Master; otherwise the last eligible Slave, or the first eligible member
   * when there is none.
   */
  lemma FollowerPicksLastSlave(rng: Rng, members: seq<Member>)
    requires Eligibles(members) != []
    ensures var e := Eligibles(members);
      Pick(Follower, rng, e) ==
        (Some(if e[0].state != Master && HasState(e, Slave) then e[LastWith(e, Slave)] else e[0]), rng)
  {
    var e := Eligibles(members);
    FollowerFold(rng, e[0], e[1..]);
    FoldKeepsRng(Follower, rng, e[0], e[1..]);
    if e[0].state != Master {
      if HasState(e[1..], Slave) {
        LastWithShift(e, Slave);
      } else if e[0].state == Slave {
        LastWithHead(e, Slave);
      } else {
        NoStateShift(e, Slave);
      }
    }
  }

  /**
   * Preference Random: exactly one draw per eligible member after the first,
   * and the pick is the last challenger whose draw was even (the first member
   * when none was). Challenger `c` is eligible member `c + 1` and is compared
   * with draw `c`.
   */
  lemma RandomPicksLastEvenDraw(rng: Rng, members: seq<Member>)
    requires Eligibles(members) != []
    ensures var e := Eligibles(members);
      && Pick(Random, rng, e).1 == rng.(pos := rng.pos + |e| - 1)
      && ((forall c :: 0 <= c < |e| - 1 ==> !rng.EvenAhead(c)) ==> Pick(Random, rng, e).0 == Some(e[0]))
      && (forall c :: 0 <= c < |e| - 1 && rng.EvenAhead(c) && (forall k :: c < k < |e| - 1 ==> !rng.EvenAhead(k)) ==>
            Pick(Random, rng, e).0 == Some(e[c + 1]))
  {
    var e := Eligibles(members);
    RandomFold(rng, e[0], e[1..]);
  }

  /** No eligible member means no endpoint; the endpoints are those of the picked member. */
  lemma BestNodeIsPick(rng: Rng, preference: NodePreference, members: seq<Member>)
    ensures var (picked, next) := Pick(preference, rng, Eligibles(members));
      && DetermineBestNode(rng, preference, members).1 == next
      && (picked.None? <==> DetermineBestNode(rng, preference, members).0.None?)
      && (picked.Some? ==> DetermineBestNode(rng, preference, members).0 == Some(EndpointsOf(picked.value)))
  {
  }

  /** The selector only moves the generator forward along its draws. */
  lemma BestNodeAdvances(rng: Rng, preference: NodePreference, members: seq<Member>)
    ensures rng.Reaches(DetermineBestNode(rng, preference, members).1)
  {
    var e := Eligibles(members);
    BestNodeIsPick(rng, preference, members);
    if e != [] {
      FoldKeepsRng(preference, rng, e[0], e[1..]);
    }
  }
}
