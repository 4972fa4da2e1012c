/** Cluster membership and the quorum test (raft/config.go). */
module Config {

  datatype Option<+T> = None | Some(value: T)

  /** Node names are only ever compared, so they are plain numbers here. */
  type NodeId = nat

  /** Steady state uses `newPeers` only; during joint consensus both sides are populated. */
  datatype ClusterConfig = ClusterConfig(
    oldPeers: map<NodeId, string>, newPeers: map<NodeId, string>,
    oldHTTP: map<NodeId, string>, newHTTP: map<NodeId, string>,
    joint: bool)

  datatype ConfigChange = ConfigChange(node: NodeId, grpcAddr: string, httpAddr: string, remove: bool)

  predicate ContainsNode(c: ClusterConfig, id: NodeId) {
    id in c.newPeers || (c.joint && id in c.oldPeers)
  }

  /** The ids replication and elections talk to: both sides of the configuration, without `self`. */
  function PeerIds(c: ClusterConfig, self: NodeId): set<NodeId> {
    (c.newPeers.Keys + (if c.joint then c.oldPeers.Keys else {})) - {self}
  }

  /** One side of the quorum test.  A `self` found among the peers is counted a second time,
      in the tally and in the total alike. */
  predicate Passes(peers: set<NodeId>, self: NodeId, voters: set<NodeId>) {
    var again := if self in peers then 1 else 0;
    var againVotes := if self in peers && self in voters then 1 else 0;
    |voters * peers| + againVotes >= (|peers| + again) / 2 + 1
  }

  predicate HasMajority(c: ClusterConfig, self: NodeId, voters: set<NodeId>) {
    && Passes(c.newPeers.Keys, self, voters)
    && (c.joint ==> Passes(c.oldPeers.Keys, self, voters))
  }

  /** At least half of the members, rounded up: what the test amounts to for a voting member. */
  predicate AtLeastHalf(members: set<NodeId>, voters: set<NodeId>) {
    2 * |voters * members| >= |members|
  }

  /** How many of `peers` have to vote, without the second count: half of them if the caller is one and
      votes itself, more than half of them and itself if it is one and does not, more than half if it is
      not one of them. */
  predicate Enough(peers: set<NodeId>, self: NodeId, voters: set<NodeId>) {
    if self !in peers then 2 * |voters * peers| > |peers|
    else if self in voters then 2 * |voters * peers| >= |peers|
    else 2 * |voters * peers| > |peers| + 1
  }

  // ---------------------------------------------------------------- the loops

  /** Counts the peers that voted, one map key at a time. */
  method CountVotes(peers: map<NodeId, string>, voters: set<NodeId>) returns (count: nat)
    ensures count == |voters * peers.Keys|
  {
    var todo := peers.Keys;
    count := 0;
    ghost var counted: set<NodeId> := {};
    while todo != {}
      invariant todo <= peers.Keys
      invariant count == |counted|
      invariant counted == voters * (peers.Keys - todo)
      decreases todo
    {
      var id :| id in todo;
      if id in voters {
        count := count + 1;
        counted := counted + {id};
      }
      todo := todo - {id};
    }
    assert counted == voters * peers.Keys;
  }

  method ComputeMajority(c: ClusterConfig, self: NodeId, voters: set<NodeId>) returns (ok: bool)
    ensures ok == HasMajority(c, self, voters)
    ensures ok <==> Enough(c.newPeers.Keys, self, voters) && (c.joint ==> Enough(c.oldPeers.Keys, self, voters))
  {
    MajorityExactly(c, self, voters);
    var newCount := CountVotes(c.newPeers, voters);
    var newTotal := |c.newPeers|;
    if self in c.newPeers {
      if self in voters {
        newCount := newCount + 1;
      }
      newTotal := newTotal + 1;
    }
    if newCount < newTotal / 2 + 1 {
      return false;
    }
    if !c.joint {
      return true;
    }
    var oldCount := CountVotes(c.oldPeers, voters);
    var oldTotal := |c.oldPeers|;
    if self in c.oldPeers {
      if self in voters {
        oldCount := oldCount + 1;
      }
      oldTotal := oldTotal + 1;
    }
    return oldCount >= oldTotal / 2 + 1;
  }

  /** Addresses of every node but `self`; during a change, the new side's address wins. */
  method AllNodeGRPC(c: ClusterConfig, self: NodeId) returns (result: map<NodeId, string>)
    ensures result.Keys == PeerIds(c, self)
    ensures forall id :: id in result ==>
      result[id] == (if id in c.newPeers then c.newPeers[id] else if id in c.oldPeers then c.oldPeers[id] else "")
  {
    result := map[];
    var todo := c.newPeers.Keys;
    while todo != {}
      invariant todo <= c.newPeers.Keys
      invariant result.Keys == c.newPeers.Keys - todo - {self}
      invariant forall id :: id in result ==> result[id] == c.newPeers[id]
      decreases todo
    {
      var id :| id in todo;
      if id != self {
        result := result[id := c.newPeers[id]];
      }
      todo := todo - {id};
    }
    if c.joint {
      todo := c.oldPeers.Keys;
      while todo != {}
        invariant todo <= c.oldPeers.Keys
        invariant result.Keys == c.newPeers.Keys + (c.oldPeers.Keys - todo) - {self}
        invariant forall id :: id in result ==>
          result[id] == (if id in c.newPeers then c.newPeers[id] else c.oldPeers[id])
        decreases todo
      {
        var id :| id in todo;
        if id != self && id !in result {
          result := result[id := c.oldPeers[id]];
        }
        todo := todo - {id};
      }
    }
  }

  // ------------------------------------------------- the threshold, exactly

  /** What one side of the test accepts, in each of the three positions of the caller. */
  lemma PassesExactly(peers: set<NodeId>, self: NodeId, voters: set<NodeId>)
    ensures self in peers && self in voters ==> (Passes(peers, self, voters) <==> AtLeastHalf(peers, voters))
    ensures self in peers && self !in voters ==> (Passes(peers, self, voters) <==> 2 * |voters * peers| > |peers| + 1)
    ensures self !in peers ==> (Passes(peers, self, voters) <==> 2 * |voters * peers| > |peers|)
    ensures Passes(peers, self, voters) <==> Enough(peers, self, voters)
  {
  }

  /** The whole test, exactly: enough of the members voted, and during a change enough of those on each
      side, with the caller's position looked at on each side by itself. */
  lemma MajorityExactly(c: ClusterConfig, self: NodeId, voters: set<NodeId>)
    ensures HasMajority(c, self, voters) <==>
      Enough(c.newPeers.Keys, self, voters) && (c.joint ==> Enough(c.oldPeers.Keys, self, voters))
    ensures self in voters && self in c.newPeers && !c.joint ==>
      (HasMajority(c, self, voters) <==> 2 * |voters * c.newPeers.Keys| >= |c.newPeers|)
    ensures self in voters && c.joint && self in c.newPeers && self in c.oldPeers ==>
      (HasMajority(c, self, voters) <==>
       2 * |voters * c.newPeers.Keys| >= |c.newPeers| && 2 * |voters * c.oldPeers.Keys| >= |c.oldPeers|)
    ensures self in voters && c.joint && self !in c.newPeers && self in c.oldPeers ==>
      (HasMajority(c, self, voters) <==>
       2 * |voters * c.newPeers.Keys| > |c.newPeers| && 2 * |voters * c.oldPeers.Keys| >= |c.oldPeers|)
  {
    PassesExactly(c.newPeers.Keys, self, voters);
    PassesExactly(c.oldPeers.Keys, self, voters);
  }

  lemma PassesIsAtLeastHalf(peers: set<NodeId>, self: NodeId, voters: set<NodeId>)
    requires Passes(peers, self, voters)
    ensures AtLeastHalf(peers, voters)
  {
  }

  lemma SizeOfUnion(a: set<NodeId>, b: set<NodeId>)
    requires a !! b
    ensures |a + b| == |a| + |b|
  {
  }

  /** Two halves of an odd membership overlap. */
  lemma HalvesOverlap(members: set<NodeId>, v: set<NodeId>, w: set<NodeId>)
    requires |members| % 2 == 1
    requires AtLeastHalf(members, v) && AtLeastHalf(members, w)
    ensures v * w * members != {}
  {
    var a, b := v * members, w * members;
    if a !! b {
      SizeOfUnion(a, b);
      SubsetSize(a + b, members);
    } else {
      var x :| x in a && x in b;
      assert x in v * w * members;
    }
  }

  lemma {:induction false} SubsetSize(a: set<NodeId>, b: set<NodeId>)
    requires a <= b
    ensures |a| <= |b|
  {
    if a != {} {
      var x :| x in a;
      SubsetSize(a - {x}, b - {x});
    }
  }

  /** Any set has a subset of each smaller size that still contains a chosen element. */
  lemma {:induction false} SubsetOfSize(s: set<NodeId>, x: NodeId, n: nat) returns (t: set<NodeId>)
    requires x in s && 1 <= n <= |s|
    ensures x in t && t <= s && |t| == n
    decreases |s|
  {
    if n == |s| {
      t := s;
    } else {
      assert s == {x} + (s - {x});
      var y :| y in s - {x};
      t := SubsetOfSize(s - {y}, x, n);
    }
  }

  ghost predicate QuorumsAlwaysMeet(members: set<NodeId>) {
    forall a, b, v: set<NodeId>, w: set<NodeId> ::
      a in members && b in members && a in v && b in w && Passes(members, a, v) && Passes(members, b, w)
      ==> v * w * members != {}
  }

  /** The quorum test is safe for exactly the odd memberships: with an even one, each half passes. */
  lemma QuorumsMeetIffOdd(members: set<NodeId>)
    requires members != {}
    ensures QuorumsAlwaysMeet(members) <==> |members| % 2 == 1
  {
    if |members| % 2 == 1 {
      forall a, b, v: set<NodeId>, w: set<NodeId> |
        a in members && b in members && a in v && b in w && Passes(members, a, v) && Passes(members, b, w)
        ensures v * w * members != {}
      {
        HalvesOverlap(members, v, w);
      }
    } else {
      var a, b, v, w := SplitBrain(members);
      assert v * w * members == {};
    }
  }

  /** Every even membership splits into two disjoint sets that both pass. */
  lemma SplitBrain(members: set<NodeId>) returns (a: NodeId, b: NodeId, v: set<NodeId>, w: set<NodeId>)
    requires members != {} && |members| % 2 == 0
    ensures a in v && b in w && v <= members && w <= members && v !! w
    ensures Passes(members, a, v) && Passes(members, b, w)
  {
    a :| a in members;
    v := SubsetOfSize(members, a, |members| / 2);
    w := members - v;
    SizeOfUnion(v, w);
    assert v + w == members;
    b :| b in w;
    assert v * members == v && w * members == w;
  }

  /** A joint quorum meets every quorum of whichever side has an odd size, for voting callers and
      for a leader that is leaving the cluster. */
  lemma JointQuorumMeetsOddSide(c: ClusterConfig, a: NodeId, v: set<NodeId>, b: NodeId, w: set<NodeId>)
    requires c.joint && HasMajority(c, a, v)
    ensures |c.oldPeers.Keys| % 2 == 1 && Passes(c.oldPeers.Keys, b, w) ==> v * w * c.oldPeers.Keys != {}
    ensures |c.newPeers.Keys| % 2 == 1 && Passes(c.newPeers.Keys, b, w) ==> v * w * c.newPeers.Keys != {}
  {
    if |c.oldPeers.Keys| % 2 == 1 && Passes(c.oldPeers.Keys, b, w) {
      HalvesOverlap(c.oldPeers.Keys, v, w);
    }
    if |c.newPeers.Keys| % 2 == 1 && Passes(c.newPeers.Keys, b, w) {
      HalvesOverlap(c.newPeers.Keys, v, w);
    }
  }

  // -------------------------------------------------- building configurations

  function FromPeers(grpc: map<NodeId, string>, http: map<NodeId, string>, self: NodeId): (c: ClusterConfig)
    ensures !c.joint && self in c.newPeers && c.newPeers.Keys == grpc.Keys + {self}
    ensures PeerIds(c, self) == grpc.Keys - {self}
  {
    ClusterConfig(map[], grpc[self := "localhost:self"], map[], http[self := "localhost:self"], false)
  }

  datatype Built = Joint(config: ClusterConfig) | Refused

  function BuildJoint(current: ClusterConfig, self: NodeId, change: ConfigChange): Built {
    if current.joint then Refused
    else if change.remove then
      if change.node !in current.newPeers && change.node != self then Refused
      else Joint(ClusterConfig(current.newPeers, current.newPeers - {change.node},
                               current.newHTTP, current.newHTTP - {change.node}, true))
    else if change.node in current.newPeers || change.node == self then Refused
    else Joint(ClusterConfig(current.newPeers, current.newPeers[change.node := change.grpcAddr],
                             current.newHTTP, current.newHTTP[change.node := change.httpAddr], true))
  }

  function BuildFinal(joint: ClusterConfig): ClusterConfig {
    ClusterConfig(map[], joint.newPeers, map[], joint.newHTTP, false)
  }

  // --------------------------------------------------- what a change comes to

  /** `after` is `before` with the asked node in, under the asked address, or out; nothing else differs. */
  ghost predicate Changed(before: map<NodeId, string>, after: map<NodeId, string>, node: NodeId, addr: string, remove: bool) {
    && (if remove then node !in after else node in after && after[node] == addr)
    && forall id :: id != node ==> (id in after <==> id in before) && (id in before ==> id in after && after[id] == before[id])
  }

  /** `joint` keeps what was in force on its old side, and has on its new side what the change asks for. */
  ghost predicate Opens(joint: ClusterConfig, current: ClusterConfig, change: ConfigChange) {
    && joint.joint && joint.oldPeers == current.newPeers && joint.oldHTTP == current.newHTTP
    && Changed(current.newPeers, joint.newPeers, change.node, change.grpcAddr, change.remove)
    && Changed(current.newHTTP, joint.newHTTP, change.node, change.httpAddr, change.remove)
  }

  /** `final` is the new side of `joint`, alone. */
  predicate Completes(final: ClusterConfig, joint: ClusterConfig) {
    && !final.joint && final.oldPeers == map[] && final.oldHTTP == map[]
    && final.newPeers == joint.newPeers && final.newHTTP == joint.newHTTP
  }

  /** A change is refused exactly while another is under way, when it adds a member or the caller, and
      when it removes a node that is neither. */
  lemma ChangeIsRefusedIff(current: ClusterConfig, self: NodeId, change: ConfigChange)
    ensures BuildJoint(current, self, change).Refused? <==>
      || current.joint
      || (change.node in current.newPeers && !change.remove)
      || (change.node == self && !change.remove)
      || (change.node !in current.newPeers && change.node != self && change.remove)
  {
  }

  /** An accepted change, once completed, leaves exactly the asked node in or out, for every address too. */
  lemma ChangeTakesEffect(current: ClusterConfig, self: NodeId, change: ConfigChange)
    requires BuildJoint(current, self, change).Joint?
    ensures var joint := BuildJoint(current, self, change).config;
      && Opens(joint, current, change) && Completes(BuildFinal(joint), joint)
      && Changed(current.newPeers, BuildFinal(joint).newPeers, change.node, change.grpcAddr, change.remove)
      && (ContainsNode(BuildFinal(joint), change.node) <==> !change.remove)
    ensures forall id :: ContainsNode(BuildJoint(current, self, change).config, id) <==>
      id in current.newPeers || (id == change.node && !change.remove)
  {
  }
}
