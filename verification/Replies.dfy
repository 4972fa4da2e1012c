/** What a node answers, exactly, and what the answer does to whoever asked: on the steps of the cluster,
    and in terms of whole logs. */
module Replies {
  import opened Config
  import opened Log
  import opened Wal
  import opened KeyValue
  import opened Election
  import opened ServerSpec
  import opened Compaction
  import opened Cluster
  import HandlerSim
  import Journal
  import Membership

  function TermOf(p: Packet): nat {
    match p
    case VoteAsk(_, _, ask) => ask.term
    case VoteReply(_, _, vote) => vote.term
    case AppendAsk(_, _, batch) => batch.term
    case AppendReply(_, _, ack) => ack.term
  }

  predicate IsReply(p: Packet) {
    p.VoteReply? || p.AppendReply?
  }

  function Max(a: nat, b: nat): nat {
    if a < b then b else a
  }

  // ----------------------------------------------------------------- the terms

  lemma BatchTerms(s: Server, req: AppendRequest)
    ensures var (s', r) := ProcessAppendEntries(s, req);
      && r.term == s'.term == Max(s.term, req.term)
      && (req.term > s.term ==> s'.role != Leader)
      && (req.term < s.term ==> s' == s && !r.success)
  {
    hide MergeEntries, ApplyLogs, Refusals, EntryTerm;
    if req.term >= s.term {
      var s1 := AdoptLeader(s, req.term, req.leader);
      HandlerSim.MergeCommit(s1, req.entries);
      var s2 := Journal.Raised(MergeEntries(s1, req.entries), req.leaderCommit);
      ApplyKeepsTerm(s2);
      Membership.ApplyLogsLeads(s2);
    }
  }

  lemma {:induction false} AdvanceTerms(s: Server, n: nat, last: nat)
    ensures AdvanceLeader(s, n, last).term == s.term
    decreases last + 1 - n
  {
    hide ApplyLogs, CheckCommitMajority, EntryTerm;
    if n <= last {
      ApplyKeepsTerm(s.(commitIndex := n));
      if EntryTerm(s, n) == s.term && CheckCommitMajority(s, n) {
        AdvanceTerms(ApplyLogs(s.(commitIndex := n)), n + 1, last);
      } else {
        AdvanceTerms(s, n + 1, last);
      }
    }
  }

  lemma AckTerms(s: Server, peer: NodeId, ack: AppendResponse)
    ensures var s' := ProcessAppendEntriesResponse(s, peer, ack);
      s'.term == Max(s.term, ack.term) && (ack.term > s.term ==> s'.role == Follower)
  {
    hide AdvanceLeader, Refusals;
    var s1 := s.(matchIndex := s.matchIndex[peer := ack.matchIndex], nextIndex := s.nextIndex[peer := ack.matchIndex + 1]);
    AdvanceTerms(s1, s1.commitIndex + 1, LastLogIndex(s1));
  }

  /** Whatever a step sends carries the sender's term after the step, and a reply names its sender and
      goes back to whoever asked. */
  lemma SentCarriesTerm(net: Net, e: Event, p: Packet)
    requires Possible(net, e) && p in React(net.servers[e.i], e).1
    ensures TermOf(p) == Step(net, e).servers[e.i].term
    ensures IsReply(p) ==> e.Deliver? && p.src == e.i && p.dst == e.p.src
  {
    hide ProcessAppendEntries, ProcessAppendEntriesResponse, TransitionToLeader, Refusals;
    var s := net.servers[e.i];
    match e
    case Timeout(_) =>
    case Deliver(_, q) =>
      if q.AppendAsk? {
        BatchTerms(s, q.batch);
      }
    case Replicate(_, _) =>
    case Probe(_, _) =>
    case Client(_, _, _) =>
    case Reboot(_) =>
  }

  /** A node is never behind a message it took in, and follows any that is ahead of it; only a request
      for a vote from outside its configuration leaves it alone. */
  lemma DeliveryRaisesTerm(net: Net, i: NodeId, p: Packet)
    requires Possible(net, Deliver(i, p))
    ensures var s, s' := net.servers[i], Step(net, Deliver(i, p)).servers[i];
      if p.VoteAsk? && !ContainsNode(s.config, p.ask.candidate) then s' == s
      else s'.term == Max(s.term, TermOf(p)) && (TermOf(p) > s.term ==> s'.role != Leader)
  {
    hide ProcessAppendEntries, ProcessAppendEntriesResponse, TransitionToLeader, Refusals, HasMajority;
    var s := net.servers[i];
    match p
    case VoteAsk(_, _, ask) =>
    case VoteReply(_, _, vote) =>
      VoteTerms(s, p.src, vote);
    case AppendAsk(_, _, batch) => BatchTerms(s, batch);
    case AppendReply(src, _, ack) => AckTerms(s, src, ack);
  }

  lemma VoteTerms(s: Server, peer: NodeId, vote: VoteResponse)
    ensures var s' := ProcessRequestVoteResponse(s, peer, vote);
      s'.term == Max(s.term, vote.term) && (vote.term > s.term ==> s'.role == Follower)
  {
    hide Refusals, SetAll;
  }

  // --------------------------------------------------------- a deposed leader

  /** The refusal a node sends to a leader or candidate of an earlier term. */
  function StaleReply(p: Packet, term: nat): Packet
    requires p.VoteAsk? || p.AppendAsk?
  {
    if p.VoteAsk? then VoteReply(p.dst, p.src, VoteResponse(term, false))
    else AppendReply(p.dst, p.src, AppendResponse(term, false, 0))
  }

  /** A request of an earlier term is refused with the newer term, and changes nothing. */
  lemma StaleIsRefused(net: Net, j: NodeId, p: Packet)
    requires Possible(net, Deliver(j, p)) && (p.VoteAsk? || p.AppendAsk?) && TermOf(p) < net.servers[j].term
    ensures StaleReply(p, net.servers[j].term) in Step(net, Deliver(j, p)).packets
    ensures Step(net, Deliver(j, p)).servers == net.servers
  {
    assert Step(net, Deliver(j, p)).servers == net.servers[j := net.servers[j]];
  }

  /** So a deposed leader learns it.  In any run, once a stale batch or vote request was delivered and the
      reply to it too, its sender is in the newer term or beyond, and leads no earlier one. */
  lemma DeposedLeaderLearns(members: set<NodeId>, nets: seq<Net>, events: seq<Event>, a: nat, b: nat, j: NodeId, p: Packet)
    requires Run(members, nets, events) && |nets| == |events| + 1 && a < b < |events|
    requires events[a] == Deliver(j, p) && j in nets[a].servers && (p.VoteAsk? || p.AppendAsk?) && TermOf(p) < nets[a].servers[j].term
    requires events[b] == Deliver(p.src, StaleReply(p, nets[a].servers[j].term))
    ensures StaleReply(p, nets[a].servers[j].term) in nets[a + 1].packets
    ensures p.src in nets[b].servers && p.src in nets[b + 1].servers
    ensures var t, before, after := nets[a].servers[j].term, nets[b].servers[p.src], nets[b + 1].servers[p.src];
      && t <= after.term && (before.term < t ==> after.term == t && after.role != Leader)
      && !(after.role == Leader && after.term <= TermOf(p))
  {
    hide Step, Possible, Initial;
    assert Possible(nets[a], events[a]) && nets[a + 1] == Step(nets[a], events[a]);
    assert Possible(nets[b], events[b]) && nets[b + 1] == Step(nets[b], events[b]);
    StaleIsRefused(nets[a], j, p);
    ActorIsThere(nets[b], events[b]);
    DeliveryRaisesTerm(nets[b], p.src, StaleReply(p, nets[a].servers[j].term));
  }

  lemma ActorIsThere(net: Net, e: Event)
    requires Possible(net, e)
    ensures e.i in net.servers && e.i in Step(net, e).servers
  {
  }

  // --------------------------------------------------------------------- votes

  /** A vote is granted exactly when the request is not stale, the candidate is a member, the vote of that
      term is free or already the candidate's, and the candidate's log is at least as up to date as the
      voter's whole log. */
  lemma VoteIsGrantedIff(s: Server, full: seq<Entry>, req: VoteRequest)
    requires Compacted(s, full)
    ensures ProcessRequestVote(s, req).1.granted <==>
      && req.term >= s.term && ContainsNode(s.config, req.candidate)
      && (req.term > s.term || s.votedFor == None || s.votedFor == Some(req.candidate))
      && (req.lastLogTerm > LastTerm(full) || (req.lastLogTerm == LastTerm(full) && req.lastLogIndex >= |full|))
  {
    hide Fold;
    IndicesAgree(s, full);
  }

  /** A granted vote is remembered, on disk too: asked again the node grants it again, and it refuses
      everybody else for the rest of that term. */
  lemma VoteIsKept(s: Server, req: VoteRequest, other: VoteRequest)
    requires ProcessRequestVote(s, req).1.granted
    ensures var s' := ProcessRequestVote(s, req).0;
      && s'.term == req.term && s'.votedFor == Some(req.candidate)
      && Replay(s'.wal).term == req.term && Replay(s'.wal).vote == Some(req.candidate)
      && ProcessRequestVote(s', req).1.granted
      && (other.term == req.term && other.candidate != req.candidate ==> !ProcessRequestVote(s', other).1.granted)
  {
    hide Replay, Refusals;
    var s1 := if req.term > s.term then TransitionToFollower(s, req.term) else s;
    ReplayOfState(s1.wal, s1.term, Some(req.candidate));
  }

  /** Standing asks every peer for its vote, with the end of the whole log. */
  lemma AsksEveryPeer(s: Server, full: seq<Entry>, peer: NodeId)
    requires Compacted(s, full) && peer in Peers(s)
    ensures VoteAsk(s.id, peer, VoteRequest(s.term + 1, s.id, |full|, LastTerm(full))) in React(s, Timeout(s.id)).1
  {
    hide Fold;
    var s' := TransitionToCandidate(s);
    assert peer in Peers(Standing(s));
    IndicesAgree(s', full);
  }

  /** Counting a vote wins exactly when enough members, on each side during a change, have granted theirs. */
  lemma WinsIff(s: Server, peer: NodeId, vote: VoteResponse)
    requires s.role == Candidate && vote.term <= s.term
    ensures var s' := ProcessRequestVoteResponse(s, peer, vote);
      var votes := if vote.term == s.term && vote.granted then s.votes + {peer} else s.votes;
      && s'.votes == votes && s'.term == s.term && s'.votedFor == s.votedFor
      && (s'.role == Leader <==>
            && vote.term == s.term && vote.granted && Enough(s.config.newPeers.Keys, s.id, votes)
            && (s.config.joint ==> Enough(s.config.oldPeers.Keys, s.id, votes)))
  {
    MajorityExactly(s.config, s.id, s.votes + {peer});
    hide HasMajority, Enough, SetAll;
  }

  // ------------------------------------------------------------------- batches

  /** A batch is taken exactly when it is not stale and the entry before it is in the log with the
      leader's term, or already folded away; a refusal points just below the first index that can differ. */
  lemma BatchIsTakenIff(s: Server, full: seq<Entry>, req: AppendRequest)
    requires Compacted(s, full)
    ensures var r := ProcessAppendEntries(s, req).1;
      && (r.success <==>
            && req.term >= s.term && req.prevLogIndex <= |full|
            && (req.prevLogIndex < s.lastIncludedIndex || TermAt(full, req.prevLogIndex) == req.prevLogTerm))
      && (!r.success && req.term >= s.term ==>
            r.matchIndex == if req.prevLogIndex > |full| then |full| else req.prevLogIndex - 1)
  {
    hide Fold, MergeEntries, AdvanceFollower, Refusals;
    if req.term >= s.term {
      var s1 := AdoptLeader(s, req.term, req.leader);
      assert Compacted(s1, full);
      IndicesAgree(s1, full);
      EntriesAgree(s1, full, req.prevLogIndex);
    }
  }

  /** What a follower holds, commits and applies after a batch it takes, exactly. */
  lemma BatchIsTaken(s: Server, full: seq<Entry>, req: AppendRequest)
    requires Compacted(s, full) && s.lastApplied == s.commitIndex && (s.role == Leader ==> s.term < req.term)
    requires ProcessAppendEntries(s, req).1.success
    requires Numbered(req.entries, req.prevLogIndex) && Respects(req.entries, full, s.commitIndex)
    ensures var (s', r) := ProcessAppendEntries(s, req);
      var full' := Merge(full, req.entries);
      && Compacted(s', full') && r.matchIndex == |full'|
      && s'.lastApplied == s'.commitIndex
      && s'.commitIndex == Max(s.commitIndex, if req.leaderCommit < |full'| then req.leaderCommit else |full'|)
      && s'.votedFor == Some(req.leader)
  {
    hide Fold, MergeEntries, ApplyLogs, Merge, Refusals;
    BatchIsTakenIff(s, full, req);
    var s1 := AdoptLeader(s, req.term, req.leader);
    assert Compacted(s1, full) && s1.lastApplied == s1.commitIndex;
    Takes(s1, full, req);
  }

  lemma Takes(s: Server, full: seq<Entry>, req: AppendRequest)
    requires Compacted(s, full) && s.lastApplied == s.commitIndex && s.role != Leader && req.prevLogIndex <= |full|
    requires Numbered(req.entries, req.prevLogIndex) && Respects(req.entries, full, s.commitIndex)
    ensures var s' := AdvanceFollower(MergeEntries(s, req.entries), req.leaderCommit);
      var full' := Merge(full, req.entries);
      && Compacted(s', full') && LastLogIndex(s') == |full'| && s'.lastApplied == s'.commitIndex
      && s'.commitIndex == Max(s.commitIndex, if req.leaderCommit < |full'| then req.leaderCommit else |full'|)
      && s'.votedFor == s.votedFor
  {
    hide Fold, MergeEntries, ApplyLogs, Merge;
    MergeEntriesCompacted(s, full, req.entries, req.prevLogIndex);
    HandlerSim.MergeCommit(s, req.entries);
    var s2, full' := MergeEntries(s, req.entries), Merge(full, req.entries);
    IndicesAgree(s2, full');
    var s3 := Journal.Raised(s2, req.leaderCommit);
    if req.leaderCommit > s2.commitIndex {
      CommitWithin(s2, full');
      var same := ApplyLogsCompacted(s3, full');
      IndicesAgree(ApplyLogs(s3), full');
      AppliedVote(s3);
    }
  }

  lemma AppliedVote(s: Server)
    requires s.role != Leader
    ensures ApplyLogs(s).votedFor == s.votedFor
  {
    AllAppliedVote(s);
  }

  lemma {:induction false} AllAppliedVote(s: Server)
    requires s.role != Leader
    ensures ApplyAll(s).votedFor == s.votedFor
    decreases if s.lastApplied < s.commitIndex then s.commitIndex - s.lastApplied else 0
  {
    if s.lastApplied < s.commitIndex {
      Membership.ApplyNextLeads(s);
      assert ApplyNext(s).votedFor == s.votedFor;
      hide ApplyNext;
      AllAppliedVote(ApplyNext(s));
    }
  }

  // ------------------------------------------------------- what a leader sends

  /** Every batch and every heartbeat of a read comes from a leader, continues an entry of its log, runs to
      the end of that log, and carries the leader's commit index. */
  lemma SentBatch(net: Net, e: Event, p: Packet, full: seq<Entry>)
    requires Possible(net, e) && p in React(net.servers[e.i], e).1 && p.AppendAsk?
    requires Compacted(net.servers[e.i], full)
    requires e.Replicate? ==> net.servers[e.i].nextIndex[e.peer] <= |full| + 1
    ensures var s, req := net.servers[e.i], p.batch;
      && s.role == Leader && p.src == e.i && p.dst in Peers(s)
      && req.leaderCommit == s.commitIndex && req.prevLogIndex <= |full|
      && req.prevLogTerm == TermAt(full, req.prevLogIndex) && req.entries == full[req.prevLogIndex..]
  {
    hide Fold;
    var s := net.servers[e.i];
    IndicesAgree(s, full);
    if e.Replicate? {
      RetainedAgrees(s, full, s.nextIndex[e.peer]);
      EntriesAgree(s, full, s.nextIndex[e.peer] - 1);
    }
  }

  // --------------------------------------------------------- standing and following

  /** Standing votes for itself in the next term, on disk before anybody is asked, and leads at once only
      if there is nobody to ask. */
  lemma StandsForItself(s: Server)
    ensures var s' := TransitionToCandidate(s);
      && s'.term == s.term + 1 && s'.votedFor == Some(s.id) && s'.votes == {s.id}
      && Replay(s'.wal).term == s'.term && Replay(s'.wal).vote == Some(s.id)
      && s'.role == (if Peers(s) == {} then Leader else Candidate)
  {
    hide Replay, SetAll;
    var s1 := Standing(s);
    ReplayOfState(s.wal, s1.term, Some(s.id));
    ReplayOfAppend(s1.wal, Entry(LastLogIndex(s1) + 1, s1.term, Noop));
  }

  lemma ReplayOfAppend(wal: seq<Record>, e: Entry)
    ensures Replay(wal + [Append(e)]).term == Replay(wal).term && Replay(wal + [Append(e)]).vote == Replay(wal).vote
  {
    assert (wal + [Append(e)])[..|wal|] == wal;
  }

  lemma {:induction false} AllAppliedRole(s: Server)
    ensures ApplyAll(s).role == s.role || ApplyAll(s).role == Follower
    decreases if s.lastApplied < s.commitIndex then s.commitIndex - s.lastApplied else 0
  {
    if s.lastApplied < s.commitIndex {
      ApplyNextLeaves(s);
      hide ApplyNext, Refusals;
      AllAppliedRole(ApplyNext(s));
    }
  }

  /** A node that hears from a current leader no longer stands for election, whether it takes the batch or
      not. */
  lemma BatchEndsCandidacy(s: Server, req: AppendRequest)
    requires req.term >= s.term
    ensures ProcessAppendEntries(s, req).0.role != Candidate
  {
    hide MergeEntries, Retained, Refusals, EntryTerm, Due, Waiting, ApplyAll;
    var s1 := AdoptLeader(s, req.term, req.leader);
    HandlerSim.MergeCommit(s1, req.entries);
    AllAppliedRole(Journal.Raised(MergeEntries(s1, req.entries), req.leaderCommit));
  }

  lemma RestoreKeepsBallot(s: Server, snap: Snapshot)
    ensures var s' := RestoreSnapshot(s, snap); s'.term == s.term && s'.role == s.role && s'.votedFor == s.votedFor
  {
    hide Retained;
  }

  /** Chunks carry terms as batches do: a stale one changes nothing, a newer one is followed, and the term a
      node answers with is its own after the chunk. */
  lemma ChunkTerms(s: Server, chunk: SnapshotRequest, decode: seq<byte> -> Option<Snapshot>)
    ensures var s' := ProcessInstallSnapshot(s, chunk, decode);
      && s'.term == Max(s.term, chunk.term) && (chunk.term > s.term ==> s'.role != Leader)
      && (if chunk.term < s.term then s' == s else s'.role != Candidate && s'.votedFor == Some(chunk.leader))
  {
    hide RestoreSnapshot, Refusals, Collected;
    if chunk.term >= s.term {
      var s1 := AdoptLeader(s, chunk.term, chunk.leader);
      var s2 := s1.(snapshotBuf := Collected(s1.snapshotBuf, chunk.offset, chunk.data));
      assert s2.term == chunk.term && s2.role != Candidate && s2.votedFor == Some(chunk.leader);
      assert chunk.term > s.term ==> s2.role != Leader;
      hide AdoptLeader;
      var whole := decode(s2.snapshotBuf);
      if whole.Some? {
        RestoreKeepsBallot(s2, whole.value);
      }
    }
  }

  /** An answer to a snapshot deposes whoever is behind it, and counts only for a leader of its term. */
  lemma SnapshotAnswerTerms(s: Server, peer: NodeId, term: nat)
    ensures var s' := ProcessInstallSnapshotResponse(s, peer, term);
      && s'.term == Max(s.term, term) && (term > s.term ==> s'.role == Follower && s'.votedFor == None)
      && (term <= s.term && (term < s.term || s.role != Leader) ==> s' == s)
  {
    hide Refusals;
  }
}
