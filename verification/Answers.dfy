/** A success means that the entry is committed, over whole runs and across compactions. */
module Answers {
  import opened Config
  import opened Log
  import opened Wal
  import opened KeyValue
  import opened Election
  import opened ServerSpec
  import opened Compaction
  import opened HandlerSim
  import opened Cluster
  import opened Journal

  /** An accepted request whose entry is committed, in the term it was accepted in. */
  ghost predicate Backed(ps: seq<Proposal>, id: nat, commitIndex: nat, full: seq<Entry>) {
    exists p :: p in ps && BackedBy(p, id, commitIndex, full)
  }

  predicate BackedBy(p: Proposal, id: nat, commitIndex: nat, full: seq<Entry>) {
    p.id == id && 1 <= p.index <= commitIndex <= |full| && TermAt(full, p.index) == p.term
  }

  /** From `s` to `s'` every new success is backed by a request of `ps`, and the queue stays in `ps`. */
  ghost predicate Honest(s: Server, s': Server, ps: seq<Proposal>, full: seq<Entry>) {
    && s.answers <= s'.answers
    && (forall p :: p in s'.proposals ==> p in ps)
    && forall k {:trigger s'.answers[k]} :: |s.answers| <= k < |s'.answers| && s'.answers[k].ok ==>
         Backed(ps, s'.answers[k].id, s'.commitIndex, full)
  }

  ghost predicate Accepted(ps: seq<Proposal>) {
    forall p :: p in ps ==> p.term >= 1 && p.index >= 1
  }

  /** A node at rest that holds `full`; only a follower can still be in term 0. */
  ghost predicate Holds(s: Server, full: seq<Entry>, ps: seq<Proposal>) {
    && Compacted(s, full) && s.lastApplied == s.commitIndex && (s.role != Follower ==> s.term >= 1)
    && Accepted(ps) && forall p :: p in s.proposals ==> p in ps
  }

  lemma BackedLater(ps: seq<Proposal>, id: nat, k: nat, full: seq<Entry>, k': nat, full': seq<Entry>)
    requires Backed(ps, id, k, full) && k <= k' <= |full'| && Agree(full, full', k)
    ensures Backed(ps, id, k', full')
  {
    var p :| p in ps && BackedBy(p, id, k, full);
    AgreeAt(full, full', k, p.index - 1);
    assert BackedBy(p, id, k', full');
  }

  lemma HonestChain(s: Server, s1: Server, s2: Server, ps: seq<Proposal>, full1: seq<Entry>, full2: seq<Entry>)
    requires Honest(s, s1, ps, full1) && Honest(s1, s2, ps, full2)
    requires s1.commitIndex <= s2.commitIndex <= |full2| && Agree(full1, full2, s1.commitIndex)
    ensures Honest(s, s2, ps, full2)
  {
    forall k {:trigger s2.answers[k]} | |s.answers| <= k < |s2.answers| && s2.answers[k].ok
      ensures Backed(ps, s2.answers[k].id, s2.commitIndex, full2)
    {
      if k < |s1.answers| {
        assert s2.answers[k] == s1.answers[k];
        BackedLater(ps, s1.answers[k].id, s1.commitIndex, full1, s2.commitIndex, full2);
      }
    }
  }

  // ------------------------------------------------------ completing the queue

  lemma {:induction false} DueIsBacked(s: Server, ps: seq<Proposal>, full: seq<Entry>, k: nat)
    requires Compacted(s, full) && Accepted(ps) && k < |Due(s, ps)| && Due(s, ps)[k].ok
    ensures Backed(ps, Due(s, ps)[k].id, s.commitIndex, full)
    decreases |ps|
  {
    var p, rest := ps[0], ps[1..];
    var head := if p.index <= s.commitIndex then [Answer(p.id, p.term == EntryTerm(s, p.index))] else [];
    assert Due(s, ps) == head + Due(s, rest);
    if k < |head| {
      EntriesAgree(s, full, p.index);
      assert BackedBy(p, p.id, s.commitIndex, full);
    } else {
      assert Due(s, ps)[k] == Due(s, rest)[k - |head|];
      assert Accepted(rest);
      DueIsBacked(s, rest, full, k - |head|);
      var q :| q in rest && BackedBy(q, Due(s, ps)[k].id, s.commitIndex, full);
      assert q in ps;
    }
  }

  lemma {:induction false} WaitingIsQueued(s: Server, ps: seq<Proposal>)
    ensures forall p :: p in Waiting(s, ps) ==> p in ps
    decreases |ps|
  {
    if ps != [] {
      WaitingIsQueued(s, ps[1..]);
    }
  }

  lemma CompletingIsHonest(s: Server, full: seq<Entry>, ps: seq<Proposal>)
    requires Holds(s, full, ps)
    ensures Honest(s, CompleteProposals(s), ps, full)
  {
    hide Compacted, Due, Waiting;
    var due := Due(s, s.proposals);
    var s' := CompleteProposals(s);
    WaitingIsQueued(s, s.proposals);
    forall k {:trigger s'.answers[k]} | |s.answers| <= k < |s'.answers| && s'.answers[k].ok
      ensures Backed(ps, s'.answers[k].id, s'.commitIndex, full)
    {
      assert s'.answers[k] == due[k - |s.answers|];
      DueIsBacked(s, s.proposals, full, k - |s.answers|);
      var q :| q in s.proposals && BackedBy(q, s'.answers[k].id, s.commitIndex, full);
      assert q in ps;
    }
  }

  /** Nothing was answered, or the whole queue was refused. */
  predicate Quiet(s: Server, s': Server) {
    || (s'.proposals == s.proposals && s'.answers == s.answers)
    || (s'.proposals == [] && s'.answers == s.answers + Refusals(s.proposals))
  }

  lemma QuietIsHonest(s: Server, s': Server, ps: seq<Proposal>, full: seq<Entry>)
    requires Quiet(s, s') && forall p :: p in s.proposals ==> p in ps
    ensures Honest(s, s', ps, full)
  {
  }

  lemma {:induction false} ApplyAllIsHonest(s: Server, full: seq<Entry>, ps: seq<Proposal>) returns (full': seq<Entry>)
    requires Compacted(s, full) && forall p :: p in s.proposals ==> p in ps
    ensures Compacted(ApplyAll(s), full') && full <= full'
    ensures ApplyAll(s).lastApplied == ApplyAll(s).commitIndex == s.commitIndex && ApplyAll(s).term == s.term
    ensures ApplyAll(s).role == s.role || ApplyAll(s).role == Follower
    ensures Honest(s, ApplyAll(s), ps, full') && forall p :: p in ApplyAll(s).proposals ==> p in ps
    ensures NoChange(full) ==> full' == full
    decreases s.commitIndex - s.lastApplied
  {
    hide ApplyNext, Fold, Refusals, Compacted;
    full' := full;
    Bounds(s, full);
    if s.lastApplied < s.commitIndex {
      var mid := ApplyNextCompacted(s, full);
      ApplyNextLeaves(s);
      ApplyNextRole(s);
      QuietIsHonest(s, ApplyNext(s), ps, mid);
      full' := ApplyAllIsHonest(ApplyNext(s), mid, ps);
      Bounds(ApplyAll(s), full');
      Bounds(ApplyNext(s), mid);
      AgreePrefix(mid, full', s.commitIndex);
      HonestChain(s, ApplyNext(s), ApplyAll(s), ps, mid, full');
    } else {
      QuietIsHonest(s, s, ps, full);
    }
  }

  lemma Bounds(s: Server, full: seq<Entry>)
    requires Compacted(s, full)
    ensures s.lastIncludedIndex <= s.lastApplied <= s.commitIndex <= |full| && LastLogIndex(s) == |full|
  {
    IndicesAgree(s, full);
  }

  lemma ApplyNextRole(s: Server)
    requires s.lastApplied < s.commitIndex
    ensures ApplyNext(s).role == s.role || ApplyNext(s).role == Follower
  {
  }

  /** One call of `applyLogs`, compaction included. */
  lemma ApplyIsHonest(s: Server, full: seq<Entry>, ps: seq<Proposal>) returns (full': seq<Entry>)
    requires Compacted(s, full) && (s.role != Follower ==> s.term >= 1)
    requires Accepted(ps) && forall p :: p in s.proposals ==> p in ps
    ensures Holds(ApplyLogs(s), full', ps) && full <= full' && ApplyLogs(s).commitIndex == s.commitIndex
    ensures Honest(s, ApplyLogs(s), ps, full') && ApplyLogs(s).term == s.term
    ensures NoChange(full) ==> full' == full
  {
    full' := ApplyAllIsHonest(s, full, ps);
    var s1 := ApplyAll(s);
    var s2 := Compact(s1);
    hide Fold, Retained, Due, Waiting, ApplyAll, Honest;
    TakeSnapshotCompacted(s1, full');
    assert Compacted(s2, full');
    QuietIsHonest(s1, s2, ps, full');
    CompletingIsHonest(s2, full', ps);
    assert SameLog(s2, CompleteProposals(s2));
    WaitingIsQueued(s2, s2.proposals);
    AgreePrefix(full', full', s.commitIndex);
    HonestChain(s, s1, s2, ps, full', full');
    HonestChain(s, s2, CompleteProposals(s2), ps, full', full');
  }

  // --------------------------------------------------------- handler by handler

  /** The node moves from `s` to `s'` honestly, keeping everything it committed. */
  ghost predicate Proceeds(s: Server, full: seq<Entry>, s': Server, full': seq<Entry>, ps: seq<Proposal>) {
    && Holds(s', full', ps) && Honest(s, s', ps, full')
    && s.commitIndex <= s'.commitIndex && Agree(full, full', s.commitIndex)
  }

  lemma ProceedsChain(s: Server, full: seq<Entry>, s1: Server, full1: seq<Entry>, s2: Server, full2: seq<Entry>, ps: seq<Proposal>)
    requires Proceeds(s, full, s1, full1, ps) && Proceeds(s1, full1, s2, full2, ps)
    ensures Proceeds(s, full, s2, full2, ps)
  {
    hide Honest;
    Bounds(s2, full2);
    HonestChain(s, s1, s2, ps, full1, full2);
    AgreeLess(full1, full2, s1.commitIndex, s.commitIndex);
    AgreeTrans(full, full1, full2, s.commitIndex);
  }

  /** Steps that leave the log alone. */
  lemma QuietProceeds(s: Server, full: seq<Entry>, s': Server, ps: seq<Proposal>)
    requires Holds(s, full, ps) && SameStorage(s, s') && Quiet(s, s') && (s'.role != Follower ==> s'.term >= 1)
    ensures Proceeds(s, full, s', full, ps)
  {
    QuietIsHonest(s, s', ps, full);
    hide Fold, Honest;
  }

  lemma AppendProceeds(s: Server, full: seq<Entry>, s': Server, e: Entry, ps: seq<Proposal>)
    requires Holds(s, full, ps) && e.index == LastLogIndex(s) + 1 && s'.log == s.log + [e]
    requires s'.lastIncludedIndex == s.lastIncludedIndex && s'.lastIncludedTerm == s.lastIncludedTerm
    requires s'.lastApplied == s.lastApplied && s'.commitIndex == s.commitIndex && s'.store == s.store
    requires s'.answers == s.answers && (s'.role != Follower ==> s'.term >= 1) && forall p :: p in s'.proposals ==> p in ps
    ensures Proceeds(s, full, s', full + [e], ps)
  {
    hide Fold;
    Bounds(s, full);
    AppendKeepsCompacted(s, full, e, s');
    AgreePrefix(full, full + [e], s.commitIndex);
  }

  lemma LeadProceeds(s: Server, full: seq<Entry>, ps: seq<Proposal>) returns (full': seq<Entry>)
    requires Holds(s, full, ps)
    ensures Proceeds(s, full, TransitionToLeader(s), full', ps)
  {
    hide SetAll, PeerIds;
    full' := full;
    if s.role == Candidate {
      var e := Entry(LastLogIndex(s) + 1, s.term, Noop);
      full' := full + [e];
      AppendProceeds(s, full, TransitionToLeader(s), e, ps);
    } else {
      QuietProceeds(s, full, s, ps);
    }
  }

  lemma StandProceeds(s: Server, full: seq<Entry>, ps: seq<Proposal>) returns (full': seq<Entry>)
    requires Holds(s, full, ps)
    ensures Proceeds(s, full, TransitionToCandidate(s), full', ps)
  {
    hide TransitionToLeader, PeerIds, Proceeds;
    var s1 := Standing(s);
    QuietProceeds(s, full, s1, ps);
    full' := full;
    if Peers(s1) == {} {
      HoldsOf(s, full, s1, full, ps);
      full' := LeadProceeds(s1, full, ps);
      ProceedsChain(s, full, s1, full, TransitionToLeader(s1), full', ps);
    }
  }

  lemma HoldsOf(s: Server, full: seq<Entry>, s': Server, full': seq<Entry>, ps: seq<Proposal>)
    requires Proceeds(s, full, s', full', ps)
    ensures Holds(s', full', ps)
  {
  }

  lemma FollowProceeds(s: Server, full: seq<Entry>, term: nat, ps: seq<Proposal>)
    requires Holds(s, full, ps)
    ensures Proceeds(s, full, TransitionToFollower(s, term), full, ps)
  {
    hide Proceeds, Refusals;
    QuietProceeds(s, full, TransitionToFollower(s, term), ps);
  }

  lemma VoteProceeds(s: Server, full: seq<Entry>, peer: NodeId, vote: VoteResponse, ps: seq<Proposal>) returns (full': seq<Entry>)
    requires Holds(s, full, ps)
    ensures Proceeds(s, full, ProcessRequestVoteResponse(s, peer, vote), full', ps)
  {
    hide TransitionToLeader, HasMajority, Proceeds, TransitionToFollower;
    full' := full;
    if vote.term > s.term {
      FollowProceeds(s, full, vote.term, ps);
    } else if s.role == Candidate && vote.term == s.term && vote.granted {
      var s1 := s.(votes := s.votes + {peer});
      QuietProceeds(s, full, s1, ps);
      if HasMajority(s1.config, s1.id, s1.votes) {
        HoldsOf(s, full, s1, full, ps);
        full' := LeadProceeds(s1, full, ps);
        ProceedsChain(s, full, s1, full, TransitionToLeader(s1), full', ps);
      }
    } else {
      QuietProceeds(s, full, s, ps);
    }
  }

  lemma RaiseProceeds(s: Server, full: seq<Entry>, n: nat, ps: seq<Proposal>) returns (full': seq<Entry>)
    requires Holds(s, full, ps) && s.commitIndex <= n <= |full|
    ensures Proceeds(s, full, ApplyLogs(s.(commitIndex := n)), full', ps) && full <= full'
    ensures ApplyLogs(s.(commitIndex := n)).commitIndex == n
    ensures NoChange(full) ==> full' == full
  {
    hide ApplyLogs, Fold;
    full' := ApplyIsHonest(s.(commitIndex := n), full, ps);
    AgreePrefix(full, full', s.commitIndex);
  }

  lemma AdoptProceeds(s: Server, full: seq<Entry>, term: nat, leader: NodeId, ps: seq<Proposal>)
    requires Holds(s, full, ps) && s.term <= term
    ensures Proceeds(s, full, AdoptLeader(s, term, leader), full, ps)
  {
    hide Proceeds, Refusals, Holds, TransitionToFollower;
    var s1 := if term > s.term then TransitionToFollower(s, term) else s;
    SelfProceeds(s, full, ps);
    FollowProceeds(s, full, term, ps);
    HoldsOf(s, full, s1, full, ps);
    SelfProceeds(s1, full, ps);
    FollowProceeds(s1, full, term, ps);
    var s2 := if s1.role == Candidate then TransitionToFollower(s1, term) else s1;
    HoldsOf(s1, full, s2, full, ps);
    RoleTerm(s2, full, ps);
    QuietProceeds(s2, full, s2.(votedFor := Some(leader)), ps);
    ProceedsChain(s, full, s1, full, s2, full, ps);
    ProceedsChain(s, full, s2, full, s2.(votedFor := Some(leader)), full, ps);
  }

  lemma SelfProceeds(s: Server, full: seq<Entry>, ps: seq<Proposal>)
    requires Holds(s, full, ps)
    ensures Proceeds(s, full, s, full, ps)
  {
    QuietProceeds(s, full, s, ps);
  }

  lemma RoleTerm(s: Server, full: seq<Entry>, ps: seq<Proposal>)
    requires Holds(s, full, ps)
    ensures s.role != Follower ==> s.term >= 1
  {
  }

  lemma MergeProceeds(s: Server, full: seq<Entry>, batch: seq<Entry>, prev: nat, ps: seq<Proposal>) returns (full': seq<Entry>)
    requires Holds(s, full, ps) && NotAgainst(s, batch) && Numbered(batch, prev) && prev <= |full|
    ensures Proceeds(s, full, MergeEntries(s, batch), full', ps)
  {
    hide Fold, MergeEntries;
    full' := MergeHeld(s, full, batch, prev);
  }

  lemma BatchProceeds(s: Server, full: seq<Entry>, req: AppendRequest, ps: seq<Proposal>) returns (full': seq<Entry>)
    requires Holds(s, full, ps) && Numbered(req.entries, req.prevLogIndex) && NotAgainst(s, req.entries)
    ensures Proceeds(s, full, ProcessAppendEntries(s, req).0, full', ps)
  {
    hide Proceeds, Holds, AdoptLeader, MergeEntries, ApplyLogs;
    full' := full;
    SelfProceeds(s, full, ps);
    if req.term >= s.term {
      var s1 := AdoptLeader(s, req.term, req.leader);
      AdoptProceeds(s, full, req.term, req.leader, ps);
      HoldsOf(s, full, s1, full, ps);
      AdoptKeepsLog(s, req.term, req.leader);
      SameNotAgainst(s, s1, req.entries);
      if Matches(s1, req) {
        HeldBounds(s1, full, ps);
        full' := MergeProceeds(s1, full, req.entries, req.prevLogIndex, ps);
        var s2 := MergeEntries(s1, req.entries);
        ProceedsChain(s, full, s1, full, s2, full', ps);
        HoldsOf(s, full, s2, full', ps);
        HeldBounds(s2, full', ps);
        if req.leaderCommit > s2.commitIndex {
          var n := Raised(s2, req.leaderCommit).commitIndex;
          var merged := full';
          full' := RaiseProceeds(s2, merged, n, ps);
          ProceedsChain(s, full, s2, merged, ApplyLogs(s2.(commitIndex := n)), full', ps);
        }
      }
    }
  }

  lemma AdoptKeepsLog(s: Server, term: nat, leader: NodeId)
    ensures SameStorage(s, AdoptLeader(s, term, leader))
  {
    hide Refusals;
  }

  /** Chunks that do not complete a snapshot. */
  lemma ChunkProceeds(s: Server, full: seq<Entry>, chunk: SnapshotRequest, whole: Option<Snapshot>, ps: seq<Proposal>)
    requires Holds(s, full, ps) && !(chunk.done && whole.Some?)
    ensures Proceeds(s, full, ProcessInstallSnapshot(s, chunk, _ => whole), full, ps)
  {
    hide Proceeds, Holds, AdoptLeader, Collected;
    SelfProceeds(s, full, ps);
    if chunk.term >= s.term {
      var s1 := AdoptLeader(s, chunk.term, chunk.leader);
      var s2 := ProcessInstallSnapshot(s, chunk, _ => whole);
      AdoptProceeds(s, full, chunk.term, chunk.leader, ps);
      HoldsOf(s, full, s1, full, ps);
      RoleTerm(s1, full, ps);
      QuietProceeds(s1, full, s2, ps);
      ProceedsChain(s, full, s1, full, s2, full, ps);
    }
  }

  lemma HeldBounds(s: Server, full: seq<Entry>, ps: seq<Proposal>)
    requires Holds(s, full, ps)
    ensures s.commitIndex <= |full| && LastLogIndex(s) == |full|
  {
    Bounds(s, full);
  }

  lemma {:induction false} AdvanceProceeds(s: Server, full: seq<Entry>, n: nat, last: nat, ps: seq<Proposal>) returns (full': seq<Entry>)
    requires Holds(s, full, ps) && s.commitIndex < n && last <= |full|
    ensures Proceeds(s, full, AdvanceLeader(s, n, last), full', ps)
    ensures NoChange(full) ==> full' == full
    decreases last + 1 - n
  {
    hide Proceeds, Holds, ApplyLogs, CheckCommitMajority, EntryTerm;
    full' := full;
    if n > last {
      SelfProceeds(s, full, ps);
    } else if EntryTerm(s, n) == s.term && CheckCommitMajority(s, n) {
      var mid := RaiseProceeds(s, full, n, ps);
      var s1 := ApplyLogs(s.(commitIndex := n));
      HoldsOf(s, full, s1, mid, ps);
      full' := AdvanceProceeds(s1, mid, n + 1, last, ps);
      ProceedsChain(s, full, s1, mid, AdvanceLeader(s1, n + 1, last), full', ps);
    } else {
      full' := AdvanceProceeds(s, full, n + 1, last, ps);
    }
  }

  lemma AckProceeds(s: Server, full: seq<Entry>, peer: NodeId, ack: AppendResponse, ps: seq<Proposal>) returns (full': seq<Entry>)
    requires Holds(s, full, ps)
    ensures Proceeds(s, full, ProcessAppendEntriesResponse(s, peer, ack), full', ps)
    ensures NoChange(full) ==> full' == full
  {
    hide Proceeds, Holds, AdvanceLeader, TransitionToFollower;
    full' := full;
    RoleTerm(s, full, ps);
    if ack.term > s.term {
      FollowProceeds(s, full, ack.term, ps);
    } else if s.role == Leader && ack.term == s.term && ack.success {
      var s1 := s.(matchIndex := s.matchIndex[peer := ack.matchIndex], nextIndex := s.nextIndex[peer := ack.matchIndex + 1]);
      PeersProceed(s, full, s1, ps);
      HoldsOf(s, full, s1, full, ps);
      HeldBounds(s1, full, ps);
      full' := AdvanceProceeds(s1, full, s1.commitIndex + 1, LastLogIndex(s1), ps);
      ProceedsChain(s, full, s1, full, AdvanceLeader(s1, s1.commitIndex + 1, LastLogIndex(s1)), full', ps);
    } else {
      PeersProceed(s, full, ProcessAppendEntriesResponse(s, peer, ack), ps);
    }
  }

  lemma PeersProceed(s: Server, full: seq<Entry>, s': Server, ps: seq<Proposal>)
    requires Holds(s, full, ps) && s' == s.(matchIndex := s'.matchIndex, nextIndex := s'.nextIndex)
    ensures Proceeds(s, full, s', full, ps)
  {
    hide Fold;
    QuietIsHonest(s, s', ps, full);
  }

  /** The request an input adds to the queue, if the node accepts it. */
  function Joined(s: Server, input: Input): seq<Proposal> {
    match input
    case Command(id, _) => if s.role == Leader then [Proposal(LastLogIndex(s) + 1, s.term, id)] else []
    case Reconfigure(id, change) =>
      if s.role == Leader && !s.pendingConfig && BuildJoint(s.config, s.id, change).Joint? then
        [Proposal(LastLogIndex(s) + 1, s.term, id)]
      else []
    case _ => []
  }

  lemma RefuseProceeds(s: Server, full: seq<Entry>, id: nat, ps: seq<Proposal>)
    requires Holds(s, full, ps)
    ensures Proceeds(s, full, s.(answers := s.answers + [Answer(id, false)]), full, ps)
  {
    hide Fold;
  }

  lemma CommandProceeds(s: Server, full: seq<Entry>, id: nat, cmd: Log.Command, ps: seq<Proposal>) returns (full': seq<Entry>)
    requires Holds(s, full, ps) && forall p :: p in Joined(s, Input.Command(id, cmd)) ==> p in ps
    ensures Proceeds(s, full, HandleClientCommand(s, id, cmd), full', ps)
    ensures NoChange(full) ==> full' == if s.role == Leader then full + [Entry(|full| + 1, s.term, Op(cmd))] else full
  {
    hide Proceeds, ApplyLogs, CheckCommitMajority, Fold;
    full' := full;
    if s.role != Leader {
      RefuseProceeds(s, full, id, ps);
    } else {
      var e := Entry(LastLogIndex(s) + 1, s.term, Op(cmd));
      var s1 := Proposed(s, id, cmd);
      assert Proposal(e.index, e.term, id) in Joined(s, Input.Command(id, cmd));
      AppendProceeds(s, full, s1, e, ps);
      HeldBounds(s, full, ps);
      full' := full + [e];
      HoldsOf(s, full, s1, full', ps);
      if Peers(s1) == {} && CheckCommitMajority(s1, e.index) {
        var grown := full';
        full' := RaiseProceeds(s1, grown, e.index, ps);
        ProceedsChain(s, full, s1, grown, ApplyLogs(s1.(commitIndex := e.index)), full', ps);
      }
    }
  }

  lemma ReconfigureProceeds(s: Server, full: seq<Entry>, id: nat, change: ConfigChange, ps: seq<Proposal>) returns (full': seq<Entry>)
    requires Holds(s, full, ps) && forall p :: p in Joined(s, Reconfigure(id, change)) ==> p in ps
    ensures Proceeds(s, full, HandleConfigChange(s, id, change), full', ps)
  {
    hide Proceeds, SetAll, BuildJoint, Fold;
    full' := full;
    if s.role != Leader || s.pendingConfig || BuildJoint(s.config, s.id, change).Refused? {
      RefuseProceeds(s, full, id, ps);
    } else {
      var e := Entry(LastLogIndex(s) + 1, s.term, Change(BuildJoint(s.config, s.id, change).config));
      assert Proposal(e.index, e.term, id) in Joined(s, Reconfigure(id, change));
      full' := full + [e];
      AppendProceeds(s, full, HandleConfigChange(s, id, change), e, ps);
    }
  }

  lemma HandleProceeds(s: Server, full: seq<Entry>, input: Input, ps: seq<Proposal>) returns (full': seq<Entry>)
    requires Holds(s, full, ps) && Sensible(s, input) && !Installs(input)
    requires forall p :: p in Joined(s, input) ==> p in ps
    ensures Proceeds(s, full, Handle(s, input), full', ps)
  {
    hide Proceeds, Holds, ApplyLogs, ProcessInstallSnapshot;
    full' := full;
    SelfProceeds(s, full, ps);
    match input
    case Stand =>
      if s.role != Leader {
        full' := StandProceeds(s, full, ps);
      }
    case AskedToVote(ask) => AskProceeds(s, full, ask, ps);
    case VoteCame(peer, vote) => full' := VoteProceeds(s, full, peer, vote, ps);
    case BatchCame(batch) => full' := BatchProceeds(s, full, batch, ps);
    case AckCame(peer, ack) => full' := AckProceeds(s, full, peer, ack, ps);
    case Command(id, cmd) => full' := CommandProceeds(s, full, id, cmd, ps);
    case Reconfigure(id, change) => full' := ReconfigureProceeds(s, full, id, change, ps);
    case SnapshotCame(chunk, whole) => ChunkProceeds(s, full, chunk, whole, ps);
    case SnapshotAcked(peer, term) =>
      RoleTerm(s, full, ps);
      if term > s.term {
        FollowProceeds(s, full, term, ps);
      } else {
        PeersProceed(s, full, ProcessInstallSnapshotResponse(s, peer, term), ps);
      }
  }

  /** The input completes a snapshot. */
  predicate Installs(input: Input) {
    input.SnapshotCame? && input.chunk.done && input.whole.Some?
  }

  lemma AskProceeds(s: Server, full: seq<Entry>, ask: VoteRequest, ps: seq<Proposal>)
    requires Holds(s, full, ps)
    ensures Proceeds(s, full, ProcessRequestVote(s, ask).0, full, ps)
  {
    hide ProcessRequestVote, Proceeds, Refusals, Fold;
    AskLeaves(s, ask);
    QuietProceeds(s, full, ProcessRequestVote(s, ask).0, ps);
  }

  // -------------------------------------------------------------- whole runs

  function AllJoined(s: Server, inputs: seq<Input>): seq<Proposal>
    decreases |inputs|
  {
    if inputs == [] then [] else Joined(s, inputs[0]) + AllJoined(Handle(s, inputs[0]), inputs[1..])
  }

  lemma {:induction false} RunProceeds(s: Server, full: seq<Entry>, inputs: seq<Input>, ps: seq<Proposal>) returns (full': seq<Entry>)
    requires Holds(s, full, ps) && AllSensible(s, inputs) && forall k {:trigger inputs[k]} :: 0 <= k < |inputs| ==> !Installs(inputs[k])
    requires forall p :: p in AllJoined(s, inputs) ==> p in ps
    ensures Proceeds(s, full, HandleAll(s, inputs), full', ps)
    decreases |inputs|
  {
    hide Handle, Holds, Honest, Sensible, Installs;
    full' := full;
    if inputs == [] {
      SelfProceeds(s, full, ps);
    } else {
      var mid := HandleProceeds(s, full, inputs[0], ps);
      var s1 := Handle(s, inputs[0]);
      full' := RunProceeds(s1, mid, inputs[1..], ps);
      ProceedsChain(s, full, s1, mid, HandleAll(s1, inputs[1..]), full', ps);
    }
  }

  lemma {:induction false} JoinedIsAccepted(s: Server, inputs: seq<Input>)
    requires s.role != Follower ==> s.term >= 1
    ensures Accepted(AllJoined(s, inputs))
    decreases |inputs|
  {
    if inputs != [] {
      hide Handle;
      HandleTerm(s, inputs[0]);
      JoinedIsAccepted(Handle(s, inputs[0]), inputs[1..]);
    }
  }

  /** Only followers are in term 0. */
  predicate Termed(s: Server) {
    s.role != Follower ==> s.term >= 1
  }

  lemma HandleTerm(s: Server, input: Input)
    requires Termed(s)
    ensures Termed(Handle(s, input))
  {
    hide ApplyLogs, ProcessRequestVote, ProcessAppendEntries, ProcessAppendEntriesResponse, ProcessInstallSnapshot, SetAll, BuildJoint, HasMajority, PeerIds,
      CheckCommitMajority, LastLogIndex;
    match input
    case Stand =>
    case AskedToVote(ask) => AskLeaves(s, ask);
    case VoteCame(_, _) =>
    case BatchCame(batch) => BatchTerm(s, batch);
    case AckCame(peer, ack) => AckTerm(s, peer, ack);
    case Command(id, cmd) => ApplyTerm(Proposed(s, id, cmd).(commitIndex := LastLogIndex(s) + 1));
    case Reconfigure(_, _) =>
    case SnapshotCame(chunk, whole) => ChunkTerm(s, chunk, whole);
    case SnapshotAcked(_, _) =>
  }

  lemma ChunkTerm(s: Server, chunk: SnapshotRequest, whole: Option<Snapshot>)
    requires Termed(s)
    ensures Termed(ProcessInstallSnapshot(s, chunk, _ => whole))
  {
    hide Collected, Retained, Refusals;
  }

  lemma {:induction false} ApplyAllTerm(s: Server)
    requires Termed(s)
    ensures Termed(ApplyAll(s)) && ApplyAll(s).term == s.term
    decreases if s.lastApplied < s.commitIndex then s.commitIndex - s.lastApplied else 0
  {
    if s.lastApplied < s.commitIndex {
      ApplyNextLeaves(s);
      ApplyNextRole(s);
      hide ApplyNext;
      ApplyAllTerm(ApplyNext(s));
    }
  }

  lemma ApplyTerm(s: Server)
    requires Termed(s)
    ensures Termed(ApplyLogs(s)) && ApplyLogs(s).term == s.term
  {
    ApplyAllTerm(s);
  }

  lemma BatchTerm(s: Server, req: AppendRequest)
    requires Termed(s)
    ensures Termed(ProcessAppendEntries(s, req).0)
  {
    hide ApplyLogs, MergeEntries;
    if req.term >= s.term {
      var s1 := AdoptLeader(s, req.term, req.leader);
      MergeCommit(s1, req.entries);
      var s2 := MergeEntries(s1, req.entries);
      ApplyTerm(s2.(commitIndex := if req.leaderCommit > LastLogIndex(s2) then LastLogIndex(s2) else req.leaderCommit));
    }
  }

  lemma AckTerm(s: Server, peer: NodeId, ack: AppendResponse)
    requires Termed(s)
    ensures Termed(ProcessAppendEntriesResponse(s, peer, ack))
  {
    hide AdvanceLeader;
    if s.role == Leader && ack.term == s.term && ack.success {
      var s1 := s.(matchIndex := s.matchIndex[peer := ack.matchIndex], nextIndex := s.nextIndex[peer := ack.matchIndex + 1]);
      AdvanceTerm(s1, s1.commitIndex + 1, LastLogIndex(s1));
    }
  }

  lemma {:induction false} AdvanceTerm(s: Server, n: nat, last: nat)
    requires Termed(s)
    ensures Termed(AdvanceLeader(s, n, last))
    decreases last + 1 - n
  {
    hide ApplyLogs, CheckCommitMajority, EntryTerm;
    if n <= last {
      ApplyTerm(s.(commitIndex := n));
      if EntryTerm(s, n) == s.term && CheckCommitMajority(s, n) {
        AdvanceTerm(ApplyLogs(s.(commitIndex := n)), n + 1, last);
      } else {
        AdvanceTerm(s, n + 1, last);
      }
    }
  }

  /** And it stays committed.  After any inputs that complete no snapshot, compactions included, every
      request that was answered success along the way is one the node accepted, its index is committed,
      and the entry there carries the term it was accepted in. */
  lemma SuccessStaysCommitted(s: Server, full: seq<Entry>, inputs: seq<Input>) returns (full': seq<Entry>)
    requires Compacted(s, full) && s.lastApplied == s.commitIndex && Termed(s) && s.proposals == []
    requires AllSensible(s, inputs) && forall k {:trigger inputs[k]} :: 0 <= k < |inputs| ==> !Installs(inputs[k])
    ensures var s' := HandleAll(s, inputs);
      && Compacted(s', full') && Agree(full, full', s.commitIndex) && s.answers <= s'.answers
      && forall k {:trigger s'.answers[k]} :: |s.answers| <= k < |s'.answers| && s'.answers[k].ok ==>
           Backed(AllJoined(s, inputs), s'.answers[k].id, s'.commitIndex, full')
  {
    JoinedIsAccepted(s, inputs);
    var ps := AllJoined(s, inputs);
    assert Holds(s, full, ps);
    hide AllJoined, HandleAll, AllSensible, Installs;
    full' := RunProceeds(s, full, inputs, ps);
  }

  // ----------------------------------------------------------- across snapshots

  /** The log after one input: what was committed stays, unless a snapshot takes its place. */
  ghost predicate Follows(s: Server, full: seq<Entry>, input: Input, full': seq<Entry>) {
    if Installs(input) && input.chunk.term >= s.term then
      exists theirs :: Describes(input.whole.value, theirs) && full' == Spliced(full, theirs, input.whole.value.index)
    else Agree(full, full', s.commitIndex)
  }

  /** `logs` are the unbounded logs of the node before the inputs and after each of them, and every new
      success of a step is for a request of `ps` whose entry is committed in the log after that step. */
  ghost predicate Traced(s: Server, inputs: seq<Input>, logs: seq<seq<Entry>>, ps: seq<Proposal>)
    decreases |inputs|
  {
    && |logs| == |inputs| + 1 && Compacted(s, logs[0])
    && (inputs != [] ==>
          var s' := Handle(s, inputs[0]);
          Follows(s, logs[0], inputs[0], logs[1]) && Honest(s, s', ps, logs[1]) && Traced(s', inputs[1..], logs[1..], ps))
  }

  lemma AdoptIsQuiet(s: Server, term: nat, leader: NodeId)
    ensures Quiet(s, AdoptLeader(s, term, leader))
  {
    assert Refusals([]) == [];
    var refused := s.answers + Refusals(s.proposals);
    assert refused + [] == refused;
  }

  /** A snapshot that is installed answers nobody with success. */
  lemma InstallIsHonest(s: Server, full: seq<Entry>, chunk: SnapshotRequest, whole: Snapshot, ps: seq<Proposal>)
    returns (full': seq<Entry>)
    requires Holds(s, full, ps) && Sensible(s, SnapshotCame(chunk, Some(whole))) && chunk.done && chunk.term >= s.term
    ensures var s' := ProcessInstallSnapshot(s, chunk, _ => Some(whole));
      Holds(s', full', ps) && Honest(s, s', ps, full') && Follows(s, full, SnapshotCame(chunk, Some(whole)), full')
  {
    hide Fold, Refusals, Collected, Proceeds, AdoptLeader, Retained;
    var theirs :| Describes(whole, theirs);
    full' := Spliced(full, theirs, whole.index);
    var s1 := AdoptLeader(s, chunk.term, chunk.leader);
    AdoptProceeds(s, full, chunk.term, chunk.leader, ps);
    HoldsOf(s, full, s1, full, ps);
    AdoptKeepsLog(s, chunk.term, chunk.leader);
    AdoptIsQuiet(s, chunk.term, chunk.leader);
    var s2 := s1.(snapshotBuf := Collected(s1.snapshotBuf, chunk.offset, chunk.data));
    RestoreSnapshotCompactedIff(s2, full, whole, theirs);
    var s' := RestoreSnapshot(s2, whole).(snapshotBuf := []);
    assert SameLog(RestoreSnapshot(s2, whole), s');
    QuietIsHonest(s, s', ps, full');
  }

  lemma StepIsHonest(s: Server, full: seq<Entry>, input: Input, ps: seq<Proposal>) returns (full': seq<Entry>)
    requires Holds(s, full, ps) && Sensible(s, input) && forall p :: p in Joined(s, input) ==> p in ps
    ensures Holds(Handle(s, input), full', ps) && Honest(s, Handle(s, input), ps, full') && Follows(s, full, input, full')
  {
    hide Holds, Honest, Sensible;
    if Installs(input) {
      if input.chunk.term >= s.term {
        full' := InstallIsHonest(s, full, input.chunk, input.whole.value, ps);
      } else {
        full' := full;
        SelfProceeds(s, full, ps);
      }
    } else {
      hide Handle;
      full' := HandleProceeds(s, full, input, ps);
    }
  }

  lemma {:induction false} RunIsTraced(s: Server, full: seq<Entry>, inputs: seq<Input>, ps: seq<Proposal>) returns (logs: seq<seq<Entry>>)
    requires Holds(s, full, ps) && AllSensible(s, inputs) && forall p :: p in AllJoined(s, inputs) ==> p in ps
    ensures logs != [] && logs[0] == full && Traced(s, inputs, logs, ps)
    decreases |inputs|
  {
    hide Handle, Honest, Sensible, Follows, Joined;
    logs := [full];
    HoldsLog(s, full, ps);
    if inputs != [] {
      var mid := StepIsHonest(s, full, inputs[0], ps);
      var rest := RunIsTraced(Handle(s, inputs[0]), mid, inputs[1..], ps);
      logs := [full] + rest;
      assert logs[1..] == rest;
    }
  }

  lemma HoldsLog(s: Server, full: seq<Entry>, ps: seq<Proposal>)
    requires Holds(s, full, ps)
    ensures Compacted(s, full)
  {
  }

  /** A success means committed.  Over any inputs, compactions and snapshots included, every request that
      is answered success is one the node accepted, and when it is answered its index is committed and
      the entry there carries the term it was accepted in. */
  lemma SuccessMeansCommitted(s: Server, full: seq<Entry>, inputs: seq<Input>) returns (logs: seq<seq<Entry>>)
    requires Compacted(s, full) && s.lastApplied == s.commitIndex && Termed(s) && s.proposals == []
    requires AllSensible(s, inputs)
    ensures logs != [] && logs[0] == full && Traced(s, inputs, logs, AllJoined(s, inputs))
  {
    JoinedIsAccepted(s, inputs);
    var ps := AllJoined(s, inputs);
    assert Holds(s, full, ps);
    hide AllJoined, AllSensible, Traced, Compacted;
    logs := RunIsTraced(s, full, inputs, ps);
  }
}
