/** A fixed cluster: servers, the messages they sent, and the steps they can take.

    Messages are never removed, so delivery may be delayed, repeated, reordered or never happen.
    Each handler is one step, as the node's lock makes it. */
module Cluster {
  import opened Config
  import opened Log
  import opened Wal
  import opened Election
  import opened ServerSpec

  datatype Packet =
    | VoteAsk(src: NodeId, dst: NodeId, ask: VoteRequest)
    | VoteReply(src: NodeId, dst: NodeId, vote: VoteResponse)
    | AppendAsk(src: NodeId, dst: NodeId, batch: AppendRequest)
    | AppendReply(src: NodeId, dst: NodeId, ack: AppendResponse)

  datatype Net = Net(servers: map<NodeId, Server>, packets: set<Packet>)

  datatype Event =
    | Timeout(i: NodeId)                       // a pre-vote succeeded, or could have
    | Deliver(i: NodeId, p: Packet)
    | Replicate(i: NodeId, peer: NodeId)
    | Probe(i: NodeId, peer: NodeId)           // the heartbeat of a linearizable read
    | Client(i: NodeId, request: nat, cmd: Command)
    | Reboot(i: NodeId)                        // crash and restart from disk

  predicate Possible(net: Net, e: Event) {
    e.i in net.servers &&
    var s := net.servers[e.i];
    match e
    case Timeout(i) => s.role != Leader && !s.isJoining
    case Deliver(i, p) => p in net.packets && p.dst == i
    case Replicate(i, peer) => CanReplicate(s, peer)
    case Probe(i, peer) => s.role == Leader && peer in Peers(s)
    case Client(i, _, _) => true
    case Reboot(i) => true
  }

  function VoteAsks(s: Server): set<Packet> {
    set p | p in Peers(s) :: VoteAsk(s.id, p, VoteRequest(s.term, s.id, LastLogIndex(s), LastLogTerm(s)))
  }

  /** The state a packet leaves its receiver in, and the reply. */
  function Receive(s: Server, p: Packet): (Server, set<Packet>) {
    match p
    case VoteAsk(src, dst, ask) =>
      var (s', r) := ProcessRequestVote(s, ask);
      (s', {VoteReply(dst, src, r)})
    case VoteReply(src, _, vote) => (ProcessRequestVoteResponse(s, src, vote), {})
    case AppendAsk(src, dst, batch) =>
      var (s', r) := ProcessAppendEntries(s, batch);
      (s', {AppendReply(dst, src, r)})
    case AppendReply(src, _, ack) => (ProcessAppendEntriesResponse(s, src, ack), {})
  }

  /** The new state of the acting server, and what it sends. */
  function React(s: Server, e: Event): (Server, set<Packet>) {
    match e
    case Timeout(_) =>
      var s' := TransitionToCandidate(s);
      (s', VoteAsks(s'))
    case Deliver(_, p) => Receive(s, p)
    case Replicate(i, peer) => (s, if CanReplicate(s, peer) then {AppendAsk(i, peer, ReplicateTo(s, peer))} else {})
    case Probe(i, peer) => (s, {AppendAsk(i, peer, ReadProbe(s))})
    case Client(_, request, cmd) => (HandleClientCommand(s, request, cmd), {})
    case Reboot(_) => (LoadState(s.id, s.config, s.threshold, s.disk, s.wal), {})
  }

  function Step(net: Net, e: Event): Net
    requires Possible(net, e)
  {
    var (s', sent) := React(net.servers[e.i], e);
    Net(net.servers[e.i := s'], net.packets + sent)
  }

  /** A steady configuration over exactly the cluster's members. */
  predicate Steady(c: ClusterConfig, members: set<NodeId>) {
    !c.joint && c.newPeers.Keys == members
  }

  /** A server that has never run, with its own addresses for the same members. */
  predicate NeverRan(net: Net, members: set<NodeId>, i: NodeId) {
    && i in net.servers
    && Steady(net.servers[i].config, members)
    && net.servers[i] == Fresh(i, net.servers[i].config, net.servers[i].threshold)
  }

  ghost predicate Initial(net: Net, members: set<NodeId>) {
    && net.packets == {}
    && net.servers.Keys == members
    && forall i {:trigger NeverRan(net, members, i)} :: i in members ==> NeverRan(net, members, i)
  }

  /** The journal names the current term and holds every retained entry. */
  predicate CleanCrash(s: Server) {
    Replay(s.wal).term == s.term && Replay(s.wal).entries == s.log
  }

  /** Restarts only happen when nothing but the role and the commit index is lost. */
  predicate Safe(net: Net, e: Event) {
    e.Reboot? && e.i in net.servers ==> CleanCrash(net.servers[e.i])
  }

  /** A run of a fixed cluster of odd size: `nets[k + 1]` is `nets[k]` after `events[k]`. */
  ghost predicate Run(members: set<NodeId>, nets: seq<Net>, events: seq<Event>) {
    && |members| % 2 == 1
    && |nets| == |events| + 1 && Initial(nets[0], members)
    && forall k {:trigger events[k]} :: 0 <= k < |events| ==>
         Possible(nets[k], events[k]) && nets[k + 1] == Step(nets[k], events[k])
  }

  ghost predicate SafeRun(members: set<NodeId>, nets: seq<Net>, events: seq<Event>) {
    && Run(members, nets, events)
    && forall k {:trigger events[k]} :: 0 <= k < |events| ==> Safe(nets[k], events[k])
  }

  // ------------------------------------------------ what applying leaves alone

  /** No entry changes the membership. */
  predicate NoChange(log: seq<Entry>) {
    forall k {:trigger log[k]} :: 0 <= k < |log| ==> !log[k].payload.Change?
  }

  lemma NoChangeApplyNext(s: Server)
    requires NoChange(s.log) && s.lastApplied < s.commitIndex
    ensures ApplyNext(s) == s.(lastApplied := s.lastApplied + 1, store := ApplyNext(s).store)
  {
  }

  lemma {:induction false} NoChangeApplyAll(s: Server)
    requires NoChange(s.log)
    ensures ApplyAll(s) == s.(lastApplied := ApplyAll(s).lastApplied, store := ApplyAll(s).store)
    decreases if s.lastApplied < s.commitIndex then s.commitIndex - s.lastApplied else 0
  {
    if s.lastApplied < s.commitIndex {
      NoChangeApplyNext(s);
      NoChangeApplyAll(ApplyNext(s));
    }
  }

  /** Without configuration entries, applying can only compact: roles, votes, peers and the
      commit index stay, and the journal is either kept or replaced by the current vote. */
  lemma NoChangeApplyLogs(s: Server)
    requires NoChange(s.log)
    ensures var s' := ApplyLogs(s);
      && s'.id == s.id && s'.role == s.role && s'.term == s.term && s'.votedFor == s.votedFor && s'.votes == s.votes
      && s'.commitIndex == s.commitIndex && s'.config == s.config && s'.isJoining == s.isJoining
      && s'.nextIndex == s.nextIndex && s'.matchIndex == s.matchIndex
      && (|| (s'.wal == s.wal && s'.log == s.log && s'.disk == s.disk)
          || (s'.wal == [State(s.term, s.votedFor)] && s'.disk.Some? && s'.disk.value.config == Some(s.config)))
  {
    NoChangeApplyAll(s);
  }

  lemma {:induction false} RetainedQuiet(s: Server, from: nat)
    requires NoChange(s.log)
    ensures NoChange(Retained(s, from))
    decreases LastLogIndex(s) + 1 - from
  {
    if from <= LastLogIndex(s) {
      RetainedQuiet(s, from + 1);
    }
  }

  lemma AppliedLog(s: Server)
    requires NoChange(s.log)
    ensures NoChange(ApplyLogs(s).log)
  {
    NoChangeApplyAll(s);
    RetainedQuiet(ApplyAll(s), ApplyAll(s).commitIndex + 1);
  }
}
