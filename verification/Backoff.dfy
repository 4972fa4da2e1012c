/** Back-off: how a leader finds the point where a follower's log starts to differ. */
module Backoff {
  import opened Config
  import opened Log
  import opened Wal
  import opened KeyValue
  import opened Election
  import opened Replication
  import opened ReplicationProof
  import opened ServerSpec
  import opened Compaction
  import opened Cluster
  import opened Simulation
  import opened HandlerSim
  import opened Safety
  import opened Theorems
  import opened LogTheorems
  import Replies

  /** One undisturbed round: a batch to the follower and its answer back. */
  function Round(leader: Server, follower: Server): (Server, Server, bool) {
    if !CanReplicate(leader, follower.id) then (leader, follower, false)
    else
      var (follower', ack) := ProcessAppendEntries(follower, ReplicateTo(leader, follower.id));
      (ProcessAppendEntriesResponse(leader, follower.id, ack), follower', ack.success)
  }

  function Rounds(leader: Server, follower: Server, n: nat): (Server, Server)
    decreases n
  {
    if n == 0 then (leader, follower)
    else
      var (leader', follower', _) := Round(leader, follower);
      Rounds(leader', follower', n - 1)
  }

  /** A leader that has compacted nothing, and a follower of its cluster, both where a run can take
      them. */
  ghost predicate Pair(w: World, leader: Server, follower: Server) {
    && WorldInv(w) && NodeSim(w, leader.id, leader) && NodeSim(w, follower.id, follower)
    && leader.id != follower.id && follower.id in w.race.members
    && leader.role == Leader && follower.term <= leader.term && leader.lastIncludedIndex == 0
  }

  /** The follower's log is the leader's, and the leader knows it. */
  ghost predicate CaughtUp(leader: Server, follower: Server) {
    && LastLogIndex(follower) == LastLogIndex(leader) && SameUpTo(leader, follower, LastLogIndex(leader))
    && follower.id in leader.matchIndex && leader.matchIndex[follower.id] == LastLogIndex(leader)
    && follower.id in leader.nextIndex && leader.nextIndex[follower.id] == LastLogIndex(leader) + 1
  }

  lemma PairBooks(w: World, leader: Server, follower: Server)
    requires Pair(w, leader, follower)
    ensures follower.id in Peers(leader) && CanReplicate(leader, follower.id)
    ensures 1 <= leader.nextIndex[follower.id] <= LastLogIndex(leader) + 1
    ensures follower.id in w.logs && leader.id in w.logs && leader.term >= follower.term
  {
    hide WorldInv, Fold, Replay;
    SoundBooks(w, leader.id, leader);
  }

  /** The follower's part of a round. */
  lemma FollowerRound(w: World, leader: Server, follower: Server) returns (w': World)
    requires Pair(w, leader, follower) && CanReplicate(leader, follower.id)
    ensures var req := ReplicateTo(leader, follower.id);
      var (follower', ack) := ProcessAppendEntries(follower, req);
      && Steps(w, w', follower.id) && NodeSim(w', follower.id, follower') && NodeSim(w', leader.id, leader)
      && PacketOk(w', AppendReply(follower.id, leader.id, ack))
      && (ack.success ==> req.prevLogIndex + |req.entries| <= ack.matchIndex)
  {
    hide WorldInv, NodeSim, Steps, ProcessAppendEntries, ReplicateTo;
    var req := ReplicateTo(leader, follower.id);
    ReplicateSim(w, leader.id, leader, follower.id);
    RequestOf(leader, follower.id);
    w' := CurrentBatchSim(w, follower.id, follower, req);
    OtherStays(w, w', follower.id, leader.id, leader);
  }

  lemma RequestOf(leader: Server, peer: NodeId)
    requires CanReplicate(leader, peer)
    ensures var req := ReplicateTo(leader, peer);
      && req.term == leader.term && req.leader == leader.id && req.prevLogIndex == leader.nextIndex[peer] - 1
      && req.leaderCommit == leader.commitIndex
  {
  }

  lemma OtherStays(w: World, w': World, i: NodeId, j: NodeId, s: Server)
    requires Steps(w, w', i) && j != i && NodeSim(w, j, s)
    ensures NodeSim(w', j, s)
  {
    hide WorldInv, Fold, Replay;
    assert j in w.logs;
    assert Untouched(w, w', j);
    OthersSim(w, w', i, j, s);
  }

  /** The batch of a leader that has compacted nothing runs to the end of its log. */
  lemma BatchReachesEnd(w: World, leader: Server, peer: NodeId)
    requires NodeSim(w, leader.id, leader) && CanReplicate(leader, peer) && leader.nextIndex[peer] <= LastLogIndex(leader) + 1
    ensures var req := ReplicateTo(leader, peer);
      req.prevLogIndex + |req.entries| == LastLogIndex(leader)
  {
    hide Fold, Replay;
    var full := w.logs[leader.id];
    IndicesAgree(leader, full);
    RetainedAgrees(leader, full, leader.nextIndex[peer]);
  }

  /** Where the next batch starts after a rejection: one entry earlier, or right after the end of the
      follower's log if that is earlier still, never skipping an entry both could hold. */
  function NextTry(next: int, last: nat): int {
    if next - 1 > last then last + 1 else next - 1
  }

  /** What a rejection says: either the follower's log is shorter, or the entry before is refused. */
  lemma RejectionLowers(leader: Server, follower: Server)
    requires CanReplicate(leader, follower.id) && follower.term <= leader.term && leader.role == Leader
    requires var ack := ProcessAppendEntries(follower, ReplicateTo(leader, follower.id)).1; !ack.success
    requires leader.nextIndex[follower.id] > 1
    ensures var req := ReplicateTo(leader, follower.id);
      var (follower', ack) := ProcessAppendEntries(follower, req);
      var leader' := ProcessAppendEntriesResponse(leader, follower.id, ack);
      && follower' == AdoptLeader(follower, leader.term, leader.id) && ack.term == leader.term
      && leader' == leader.(nextIndex := leader'.nextIndex) && follower.id in leader'.nextIndex
      && 1 <= leader'.nextIndex[follower.id] < leader.nextIndex[follower.id]
      && leader'.nextIndex[follower.id] == NextTry(leader.nextIndex[follower.id], LastLogIndex(follower))
  {
    hide MergeEntries, AdvanceFollower, AdvanceLeader, EntryTerm, Retained;
    AdoptedShape(follower, leader.term, leader.id);
  }

  /** Nothing precedes the first entry, so a batch from the start is never rejected. */
  lemma StartIsAccepted(w: World, leader: Server, follower: Server)
    requires Pair(w, leader, follower) && CanReplicate(leader, follower.id) && leader.nextIndex[follower.id] == 1
    ensures ProcessAppendEntries(follower, ReplicateTo(leader, follower.id)).1.success
  {
    if follower.lastIncludedIndex == 0 {
      NothingBeforeFirst(w, follower.id, follower);
    }
    hide WorldInv, NodeSim, ProcessAppendEntries, ReplicateTo;
    NothingBeforeFirst(w, leader.id, leader);
    StartPasses(leader, follower);
  }

  lemma NothingBeforeFirst(w: World, i: NodeId, s: Server)
    requires NodeSim(w, i, s) && s.lastIncludedIndex == 0
    ensures s.lastIncludedTerm == 0
  {
    hide Fold, Replay;
  }

  lemma AdoptedMark(s: Server, term: nat, leader: NodeId)
    ensures var s1 := AdoptLeader(s, term, leader);
      s1.lastIncludedIndex == s.lastIncludedIndex && s1.lastIncludedTerm == s.lastIncludedTerm
  {
  }

  lemma StartPasses(leader: Server, follower: Server)
    requires CanReplicate(leader, follower.id) && leader.nextIndex[follower.id] == 1 && follower.term <= leader.term
    requires leader.lastIncludedIndex == 0 && leader.lastIncludedTerm == 0
    requires follower.lastIncludedIndex == 0 ==> follower.lastIncludedTerm == 0
    ensures ProcessAppendEntries(follower, ReplicateTo(leader, follower.id)).1.success
  {
    hide MergeEntries, AdvanceFollower, Retained, AdoptLeader;
    AdoptedMark(follower, leader.term, leader.id);
    assert GetEntry(leader, 0) == Some(Entry(0, 0, Noop));
  }

  /** After an accepted round the two logs are the same, entry for entry. */
  lemma AcceptedMeansEqual(w: World, leader: Server, follower: Server)
    requires Pair(w, leader, follower) && CanReplicate(leader, follower.id)
    requires leader.nextIndex[follower.id] <= LastLogIndex(leader) + 1
    requires ProcessAppendEntries(follower, ReplicateTo(leader, follower.id)).1.success
    ensures var (follower', ack) := ProcessAppendEntries(follower, ReplicateTo(leader, follower.id));
      && ack.term == leader.term && ack.matchIndex == LastLogIndex(leader) == LastLogIndex(follower')
      && SameUpTo(leader, follower', LastLogIndex(leader))
  {
    var _ := AcceptedInWorld(w, leader, follower);
  }

  lemma AcceptedInWorld(w: World, leader: Server, follower: Server) returns (w': World)
    requires Pair(w, leader, follower) && CanReplicate(leader, follower.id)
    requires leader.nextIndex[follower.id] <= LastLogIndex(leader) + 1
    requires ProcessAppendEntries(follower, ReplicateTo(leader, follower.id)).1.success
    ensures var (follower', ack) := ProcessAppendEntries(follower, ReplicateTo(leader, follower.id));
      && ack.term == leader.term && ack.matchIndex == LastLogIndex(leader) == LastLogIndex(follower')
      && SameUpTo(leader, follower', LastLogIndex(leader))
      && WorldInv(w') && NodeSim(w', leader.id, leader) && NodeSim(w', follower.id, follower')
      && PacketOk(w', AppendReply(follower.id, leader.id, ack))
      && leader.id in w'.logs && follower.id in w'.logs && w'.logs[follower.id] == w'.logs[leader.id]
      && |w'.logs[leader.id]| == LastLogIndex(leader)
  {
    hide WorldInv, NodeSim, Steps, ProcessAppendEntries, ReplicateTo, LastLogIndex, GetEntry, SameUpTo;
    var (follower', ack) := ProcessAppendEntries(follower, ReplicateTo(leader, follower.id));
    RequestOf(leader, follower.id);
    BatchReachesEnd(w, leader, follower.id);
    w' := FollowerRound(w, leader, follower);
    AckOf(w', follower.id, leader.id, ack);
    AcceptedTerm(w, follower.id, follower, ReplicateTo(leader, follower.id));
    AcceptedIndex(follower, ReplicateTo(leader, follower.id));
    StepsInv(w, w', follower.id);
    FollowerIsPrefix(w', follower.id, follower', leader.term);
    LeaderReign(w', leader.id, leader);
    AppliedOf(w', follower.id, follower');
    var n := LastLogIndex(leader);
    assert w'.logs[follower.id] == w'.logs[leader.id];
    assert Agree(w'.logs[leader.id], w'.logs[follower.id], n);
    SameFromAgree(w', leader.id, leader, w', follower.id, follower', n);
  }

  /** A batch that is taken carries the leader's commit index: the follower applies all of it at once. */
  lemma FollowerHears(w: World, leader: Server, follower: Server)
    requires Pair(w, leader, follower) && CanReplicate(leader, follower.id)
    requires leader.nextIndex[follower.id] <= LastLogIndex(leader) + 1
    requires ProcessAppendEntries(follower, ReplicateTo(leader, follower.id)).1.success
    ensures var follower' := ProcessAppendEntries(follower, ReplicateTo(leader, follower.id)).0;
      follower'.lastApplied == follower'.commitIndex == Replies.Max(follower.commitIndex, leader.commitIndex)
  {
    hide WorldInv, NodeSim, Steps, ProcessAppendEntries, ReplicateTo, LastLogIndex, SameUpTo, PacketOk;
    var req := ReplicateTo(leader, follower.id);
    RequestOf(leader, follower.id);
    AcceptedMeansEqual(w, leader, follower);
    CommitIsHeld(w, leader.id, leader);
    BatchFits(w, leader, follower);
    HoldsLog(w, follower.id, follower);
    Replies.BatchIsTaken(follower, w.logs[follower.id], req);
  }

  lemma HoldsLog(w: World, i: NodeId, s: Server)
    requires NodeSim(w, i, s)
    ensures i in w.logs && Compacted(s, w.logs[i]) && s.lastApplied == s.commitIndex
  {
  }

  lemma CommitIsHeld(w: World, i: NodeId, s: Server)
    requires NodeSim(w, i, s)
    ensures s.commitIndex <= LastLogIndex(s)
  {
    hide Fold, Replay;
    IndicesAgree(s, w.logs[i]);
  }

  /** What a leader sends continues the follower's committed prefix. */
  lemma BatchFits(w: World, leader: Server, follower: Server)
    requires Pair(w, leader, follower) && CanReplicate(leader, follower.id)
    ensures var req := ReplicateTo(leader, follower.id);
      && follower.id in w.logs && Numbered(req.entries, req.prevLogIndex)
      && Respects(req.entries, w.logs[follower.id], follower.commitIndex)
      && (follower.role == Leader ==> follower.term < req.term)
  {
    hide WorldInv, NodeSim, ReplicateTo, Steps;
    var req := ReplicateTo(leader, follower.id);
    RequestOf(leader, follower.id);
    ReplicateSim(w, leader.id, leader, follower.id);
    FitsBatch(w, follower.id, follower, req);
  }

  lemma FitsBatch(w: World, i: NodeId, s: Server, req: AppendRequest)
    requires WorldInv(w) && NodeSim(w, i, s) && s.term <= req.term && BatchOk(w, req) && req.leader != i
    ensures i in w.logs && Numbered(req.entries, req.prevLogIndex)
    ensures Respects(req.entries, w.logs[i], s.commitIndex) && (s.role == Leader ==> s.term < req.term)
  {
    hide WorldInv, Fold, Replay, AdoptLeader;
    if s.role == Leader {
      LeaderHasNoLeader(w, i, s, req);
    }
    var w1 := AdoptSim(w, i, s, req.term, req.leader);
    AdoptedShape(s, req.term, req.leader);
    FollowerAgrees(w1, i, AdoptLeader(s, req.term, req.leader));
    BatchRespects(w.logs[i], w.reigns[req.term], req.prevLogIndex, req.prevLogIndex + |req.entries|, s.commitIndex);
  }

  lemma StepsInv(w: World, w': World, i: NodeId)
    requires Steps(w, w', i)
    ensures WorldInv(w')
  {
  }

  lemma AckOf(w: World, p: NodeId, l: NodeId, ack: AppendResponse)
    requires PacketOk(w, AppendReply(p, l, ack)) && ack.success
    ensures (p, ack.term) in w.acked && ack.matchIndex <= w.acked[(p, ack.term)]
  {
  }

  lemma AcceptedIndex(s: Server, req: AppendRequest)
    requires ProcessAppendEntries(s, req).1.success
    ensures ProcessAppendEntries(s, req).1.matchIndex == LastLogIndex(ProcessAppendEntries(s, req).0)
  {
    hide MergeEntries, AdvanceFollower, AdoptLeader, LastLogIndex;
  }

  /** Committing and compacting leave a leader's books alone. */
  lemma {:induction false} AdvanceKeepsBooks(s: Server, n: nat, last: nat)
    requires NoChange(s.log)
    ensures var s' := AdvanceLeader(s, n, last); s'.nextIndex == s.nextIndex && s'.matchIndex == s.matchIndex
    decreases last + 1 - n
  {
    hide CheckCommitMajority, EntryTerm, ApplyLogs;
    if n <= last {
      if EntryTerm(s, n) == s.term && CheckCommitMajority(s, n) {
        NoChangeApplyLogs(s.(commitIndex := n));
        AppliedLog(s.(commitIndex := n));
        AdvanceKeepsBooks(ApplyLogs(s.(commitIndex := n)), n + 1, last);
      } else {
        AdvanceKeepsBooks(s, n + 1, last);
      }
    }
  }

  lemma LeaderTakesSuccess(w: World, leader: Server, peer: NodeId, ack: AppendResponse)
    requires NodeSim(w, leader.id, leader) && leader.role == Leader && ack.success && ack.term == leader.term
    ensures var leader' := ProcessAppendEntriesResponse(leader, peer, ack);
      && peer in leader'.matchIndex && leader'.matchIndex[peer] == ack.matchIndex
      && peer in leader'.nextIndex && leader'.nextIndex[peer] == ack.matchIndex + 1
  {
    hide Fold, Replay, AdvanceLeader;
    NoChangeSuffix(w.logs[leader.id], leader.lastIncludedIndex);
    var s1 := leader.(matchIndex := leader.matchIndex[peer := ack.matchIndex], nextIndex := leader.nextIndex[peer := ack.matchIndex + 1]);
    AdvanceKeepsBooks(s1, s1.commitIndex + 1, LastLogIndex(s1));
  }

  lemma SuccessfulRound(w: World, leader: Server, follower: Server)
    requires Pair(w, leader, follower) && CanReplicate(leader, follower.id)
    requires leader.nextIndex[follower.id] <= LastLogIndex(leader) + 1
    requires ProcessAppendEntries(follower, ReplicateTo(leader, follower.id)).1.success
    ensures var (leader', follower', ok) := Round(leader, follower);
      && ok && CaughtUp(leader', follower') && LastLogIndex(leader') == LastLogIndex(leader)
      && SameUpTo(leader, follower', LastLogIndex(leader)) && follower'.id == follower.id
      && follower'.lastApplied == follower'.commitIndex == Replies.Max(follower.commitIndex, leader.commitIndex)
  {
    hide WorldInv, NodeSim, Steps, PacketOk, ProcessAppendEntries, ReplicateTo, GetEntry, SameUpTo, LastLogIndex,
      ProcessAppendEntriesResponse;
    var (follower', ack) := ProcessAppendEntries(follower, ReplicateTo(leader, follower.id));
    FollowerHears(w, leader, follower);
    var w' := AcceptedInWorld(w, leader, follower);
    LeaderTakesSuccess(w, leader, follower.id, ack);
    var leader' := ProcessAppendEntriesResponse(leader, follower.id, ack);
    var w2 := AckSim(w', leader.id, leader, AppendReply(follower.id, leader.id, ack));
    OtherStays(w', w2, leader.id, follower.id, follower');
    AppliedOf(w2, leader.id, leader');
    var n := LastLogIndex(leader);
    assert Agree(w2.logs[leader.id], w2.logs[follower.id], n);
    SameFromAgree(w2, leader.id, leader', w2, follower.id, follower', n);
    NameOf(w, follower.id, follower);
    NameOf(w', follower.id, follower');
  }

  lemma NameOf(w: World, i: NodeId, s: Server)
    requires NodeSim(w, i, s)
    ensures s.id == i
  {
  }

  lemma RejectedRound(w: World, leader: Server, follower: Server) returns (w': World)
    requires Pair(w, leader, follower) && CanReplicate(leader, follower.id)
    requires !ProcessAppendEntries(follower, ReplicateTo(leader, follower.id)).1.success
    ensures var (leader', follower', ok) := Round(leader, follower);
      && !ok && Pair(w', leader', follower') && leader' == leader.(nextIndex := leader'.nextIndex)
      && follower'.id == follower.id && leader'.id == leader.id && follower'.commitIndex == follower.commitIndex
      && leader'.nextIndex[follower.id] < leader.nextIndex[follower.id]
      && leader'.nextIndex[follower.id] == NextTry(leader.nextIndex[follower.id], LastLogIndex(follower))
  {
    hide WorldInv, NodeSim, Steps, ProcessAppendEntries, ReplicateTo, LastLogIndex;
    PairBooks(w, leader, follower);
    if leader.nextIndex[follower.id] == 1 {
      StartIsAccepted(w, leader, follower);
    }
    RejectionLowers(leader, follower);
    w' := FollowerRound(w, leader, follower);
    var (follower', ack) := ProcessAppendEntries(follower, ReplicateTo(leader, follower.id));
    var leader' := ProcessAppendEntriesResponse(leader, follower.id, ack);
    StepsInv(w, w', follower.id);
    var w2 := AckSim(w', leader.id, leader, AppendReply(follower.id, leader.id, ack));
    AdoptedShape(follower, leader.term, leader.id);
    NameOf(w, follower.id, follower);
    NameOf(w', follower.id, follower');
    StepsInv(w', w2, leader.id);
    OtherStays(w', w2, leader.id, follower.id, follower');
    SameMembers(w, w', follower.id);
    SameMembers(w', w2, leader.id);
    w' := w2;
  }

  lemma SameMembers(w: World, w': World, i: NodeId)
    requires Steps(w, w', i)
    ensures w'.race.members == w.race.members
  {
    hide WorldInv;
  }

  lemma {:induction false} ConvergesFrom(w: World, leader: Server, follower: Server) returns (n: nat)
    requires Pair(w, leader, follower)
    ensures follower.id in leader.nextIndex && 1 <= n <= leader.nextIndex[follower.id]
    ensures var (leader', follower') := Rounds(leader, follower, n);
      && CaughtUp(leader', follower') && LastLogIndex(leader') == LastLogIndex(leader)
      && follower'.lastApplied == Replies.Max(follower.commitIndex, leader.commitIndex)
    decreases if follower.id in leader.nextIndex then leader.nextIndex[follower.id] else 0
  {
    hide WorldInv, NodeSim, ProcessAppendEntries, ReplicateTo, ProcessAppendEntriesResponse, CaughtUp, LastLogIndex;
    PairBooks(w, leader, follower);
    if ProcessAppendEntries(follower, ReplicateTo(leader, follower.id)).1.success {
      SuccessfulRound(w, leader, follower);
      n := 1;
      OneRound(leader, follower);
    } else {
      var w' := RejectedRound(w, leader, follower);
      var (leader', follower', _) := Round(leader, follower);
      PairBooks(w', leader', follower');
      var m := ConvergesFrom(w', leader', follower');
      n := m + 1;
      SameEnd(leader, leader');
    }
  }

  lemma SameEnd(s: Server, s': Server)
    requires s'.log == s.log && s'.lastIncludedIndex == s.lastIncludedIndex
    ensures LastLogIndex(s') == LastLogIndex(s)
  {
  }

  /** Back-off converges.  In any run, take a leader that has compacted nothing and any other member that
      is not ahead of its term, and let them exchange batches and answers undisturbed: every rejected
      round strictly lowers `nextIndex`, so after at most its first value in rounds one is accepted, and
      the follower's log then equals the leader's, and it has applied all that either had committed. */
  lemma BackoffConverges(members: set<NodeId>, nets: seq<Net>, events: seq<Event>, a: nat, i: NodeId, p: NodeId) returns (n: nat)
    requires SafeRun(members, nets, events) && a < |nets| && i in members && p in members && i != p
    requires i in nets[a].servers && p in nets[a].servers
    requires nets[a].servers[i].role == Leader && nets[a].servers[i].lastIncludedIndex == 0
    requires nets[a].servers[p].term <= nets[a].servers[i].term
    ensures p in nets[a].servers[i].nextIndex && 1 <= n <= nets[a].servers[i].nextIndex[p]
    ensures var (leader', follower') := Rounds(nets[a].servers[i], nets[a].servers[p], n);
      && CaughtUp(leader', follower') && LastLogIndex(leader') == LastLogIndex(nets[a].servers[i])
      && follower'.lastApplied == Replies.Max(nets[a].servers[p].commitIndex, nets[a].servers[i].commitIndex)
  {
    hide SafeRun, WorldInv, NodeSim, Sim, CaughtUp, Rounds, LastLogIndex;
    var ws := RunSim(members, nets, events);
    At(members, nets, events, ws, a, i);
    At(members, nets, events, ws, a, p);
    NameOf(ws[a], i, nets[a].servers[i]);
    NameOf(ws[a], p, nets[a].servers[p]);
    n := ConvergesFrom(ws[a], nets[a].servers[i], nets[a].servers[p]);
  }

  lemma OneRound(leader: Server, follower: Server)
    ensures Rounds(leader, follower, 1) == (Round(leader, follower).0, Round(leader, follower).1)
  {
    hide Round;
    var (leader', follower', _) := Round(leader, follower);
    assert Rounds(leader', follower', 0) == (leader', follower');
  }

  lemma ServersAreMembers(w: World, net: Net, i: NodeId)
    requires Sim(w, net) && i in net.servers
    ensures i in w.race.members
  {
  }

  /** In any run, every batch and every heartbeat of a read continues an entry of its sender's log, runs to
      the end of it, and carries its sender's commit index. */
  lemma BatchesRunToTheEnd(members: set<NodeId>, nets: seq<Net>, events: seq<Event>, k: nat, p: Packet) returns (full: seq<Entry>)
    requires SafeRun(members, nets, events) && k < |events| && |nets| == |events| + 1 && Possible(nets[k], events[k])
    requires p in React(nets[k].servers[events[k].i], events[k]).1 && p.AppendAsk?
    ensures var s, req := nets[k].servers[events[k].i], p.batch;
      && Compacted(s, full) && s.role == Leader && req.term == s.term && req.leader == p.src == s.id && p.dst in Peers(s)
      && req.leaderCommit == s.commitIndex && req.prevLogIndex <= |full|
      && req.prevLogTerm == TermAt(full, req.prevLogIndex) && req.entries == full[req.prevLogIndex..]
  {
    hide SafeRun, WorldInv, NodeSim, Sim, Fold, Replay;
    var ws := RunSim(members, nets, events);
    var i := events[k].i;
    ServersAreMembers(ws[k], nets[k], i);
    TracksMembers(members, nets, events, ws, k);
    At(members, nets, events, ws, k, i);
    var s := nets[k].servers[i];
    HoldsLog(ws[k], i, s);
    full := ws[k].logs[i];
    NameOf(ws[k], i, s);
    SoundBooks(ws[k], i, s);
    IndicesAgree(s, full);
    Replies.SentBatch(nets[k], events[k], p, full);
  }
}
