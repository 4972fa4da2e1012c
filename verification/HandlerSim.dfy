/** Handler by handler: what a server does is what its node in `Replication` may do. */
module HandlerSim {
  import opened Config
  import opened Log
  import opened Wal
  import opened KeyValue
  import opened Election
  import opened Replication
  import opened ReplicationProof
  import opened ServerSpec
  import opened Compaction
  import opened Cluster
  import opened Simulation

  /** The ballot may change; log, store, configuration and peer indices do not. */
  ghost predicate SameStorage(s: Server, s': Server) {
    && s'.id == s.id && s'.config == s.config && s'.disk == s.disk
    && s'.log == s.log && s'.lastIncludedIndex == s.lastIncludedIndex && s'.lastIncludedTerm == s.lastIncludedTerm
    && s'.commitIndex == s.commitIndex && s'.lastApplied == s.lastApplied && s'.store == s.store
    && s'.matchIndex == s.matchIndex && s'.nextIndex == s.nextIndex
  }

  lemma BallotChange(w: World, w': World, i: NodeId, s: Server, s': Server)
    requires Behind(w, i, s) && SameStorage(s, s')
    requires w'.logs == w.logs && w'.commits == w.commits && w'.acked == w.acked && w'.race.members == w.race.members
    requires i in w'.race.ballots && BallotOf(s') == w'.race.ballots[i]
    requires s'.role == Leader ==> s.role == Leader && s'.term == s.term
    ensures Behind(w', i, s')
  {
    hide Fold, Replay;
    assert LastLogIndex(s') == LastLogIndex(s) && Peers(s') == Peers(s);
  }

  lemma BumpSim(w: World, i: NodeId, s: Server, term: nat) returns (w': World)
    requires WorldInv(w) && Behind(w, i, s) && s.term < term
    ensures Steps(w, w', i) && Behind(w', i, TransitionToFollower(s, term)) && w' == w.(race := w'.race)
  {
    hide WorldInv, Steps, Fold, Replay;
    var a := Shuffle(Bump(i, term));
    w' := Next(w, a);
    ActSteps(w, a);
    BallotChange(w, w', i, s, TransitionToFollower(s, term));
  }

  lemma FollowedBallot(s: Server, leader: NodeId)
    ensures var s' := AdoptLeader(s, s.term, leader);
      && SameStorage(s, s') && s'.term == s.term && s'.role == (if s.role == Candidate then Follower else s.role)
      && BallotOf(s') == NextBallot(BallotOf(s), Follow(s.id, leader))
  {
    hide Replay;
  }

  /** Adopting the leader of the current term. */
  lemma FollowSim(w: World, i: NodeId, s: Server, leader: NodeId) returns (w': World)
    requires WorldInv(w) && Behind(w, i, s)
    requires s.term in w.race.won && w.race.won[s.term].leader == leader
    ensures Steps(w, w', i) && Behind(w', i, AdoptLeader(s, s.term, leader)) && w' == w.(race := w'.race)
  {
    hide WorldInv, Steps, Fold, Replay, AdoptLeader;
    var a := Shuffle(Follow(i, leader));
    w' := Next(w, a);
    ActSteps(w, a);
    FollowedBallot(s, leader);
    BallotChange(w, w', i, s, AdoptLeader(s, s.term, leader));
  }

  lemma AdoptSim(w: World, i: NodeId, s: Server, term: nat, leader: NodeId) returns (w': World)
    requires WorldInv(w) && Behind(w, i, s) && s.term <= term
    requires term in w.race.won && w.race.won[term].leader == leader
    ensures Steps(w, w', i) && Behind(w', i, AdoptLeader(s, term, leader)) && w' == w.(race := w'.race)
  {
    hide WorldInv, Fold, Replay;
    if s.term < term {
      var w1 := BumpSim(w, i, s, term);
      var s1 := TransitionToFollower(s, term);
      assert term in w1.race.won;
      w' := FollowSim(w1, i, s1, leader);
      StepsTransitive(w, w1, w', i);
      assert AdoptLeader(s1, term, leader) == AdoptLeader(s, term, leader);
    } else {
      w' := FollowSim(w, i, s, leader);
    }
  }

  lemma SaveSim(w: World, i: NodeId, s: Server, s': Server) returns (w': World)
    requires WorldInv(w) && Behind(w, i, s)
    requires BallotOf(s') == NextBallot(BallotOf(s), Save(i))
    ensures Steps(w, w', i) && w' == w.(race := w'.race)
    ensures i in w'.race.ballots && w'.race.ballots[i] == BallotOf(s') && w'.race.members == w.race.members
  {
    hide WorldInv, Steps, Fold, Replay;
    var a := Shuffle(Save(i));
    w' := Next(w, a);
    ActSteps(w, a);
  }

  // ------------------------------------------------------------------ voting

  lemma GrantSim(w: World, i: NodeId, s: Server, c: NodeId) returns (w': World)
    requires WorldInv(w) && Behind(w, i, s) && s.term >= 1
    requires s.votedFor == None || s.votedFor == Some(c)
    requires (s.term, c) in w.stood && LogOk(s, |w.stood[(s.term, c)]|, LastTerm(w.stood[(s.term, c)]))
    ensures var s' := s.(votedFor := Some(c), wal := s.wal + [State(s.term, Some(c))]);
      Steps(w, w', i) && Behind(w', i, s') && Vote(s.term, i, c) in w'.race.grants
  {
    hide WorldInv, Steps, Fold, Replay;
    IndicesAgree(s, w.logs[i]);
    var a := Support(i, c);
    w' := Next(w, a);
    ActSteps(w, a);
    ReplayOfState(s.wal, s.term, Some(c));
    BallotChange(w, w', i, s, s.(votedFor := Some(c), wal := s.wal + [State(s.term, Some(c))]));
  }

  /** The vote check and the answer, once the terms agree. */
  lemma AnswerSim(w: World, i: NodeId, s: Server, ask: VoteRequest) returns (w': World)
    requires WorldInv(w) && NodeSim(w, i, s) && ask.term == s.term >= 1
    requires (ask.term, ask.candidate) in w.stood
    requires ask.lastLogIndex == |w.stood[(ask.term, ask.candidate)]|
    requires ask.lastLogTerm == LastTerm(w.stood[(ask.term, ask.candidate)])
    ensures var (s', r) := ProcessRequestVote(s, ask);
      Steps(w, w', i) && NodeSim(w', i, s') && (r.granted ==> Vote(r.term, i, ask.candidate) in w'.race.grants)
  {
    hide WorldInv, Fold, Replay;
    w' := w;
    NoSteps(w, i);
    if ContainsNode(s.config, ask.candidate) && (s.votedFor == None || s.votedFor == Some(ask.candidate))
       && LogOk(s, ask.lastLogIndex, ask.lastLogTerm) {
      w' := GrantSim(w, i, s, ask.candidate);
    }
  }

  lemma VoteAskSim(w: World, i: NodeId, s: Server, p: Packet) returns (w': World)
    requires WorldInv(w) && NodeSim(w, i, s) && p.VoteAsk? && p.dst == i && PacketOk(w, p)
    ensures var (s', sent) := Receive(s, p);
      Steps(w, w', i) && NodeSim(w', i, s') && forall q {:trigger PacketOk(w', q)} :: q in sent ==> PacketOk(w', q)
  {
    hide WorldInv, Fold, Replay;
    var ask := p.ask;
    if ask.term < s.term || !ContainsNode(s.config, ask.candidate) {
      w' := w;
      NoSteps(w, i);
    } else if ask.term > s.term {
      var w1 := BumpSim(w, i, s, ask.term);
      var s1 := TransitionToFollower(s, ask.term);
      w' := AnswerSim(w1, i, s1, ask);
      StepsTransitive(w, w1, w', i);
      assert ProcessRequestVote(s1, ask) == ProcessRequestVote(s, ask);
    } else {
      w' := AnswerSim(w, i, s, ask);
    }
  }

  // --------------------------------------------------------------- elections

  /** A leader's own append: the log and the journal grow by one entry. */
  lemma OwnAppend(w: World, w': World, i: NodeId, s: Server, s': Server, e: Entry)
    requires Behind(w, i, s) && e.index == |w.logs[i]| + 1 && !e.payload.Change?
    requires s'.id == s.id && s'.config == s.config && s'.disk == s.disk
    requires s'.lastIncludedIndex == s.lastIncludedIndex && s'.lastIncludedTerm == s.lastIncludedTerm
    requires s'.commitIndex == s.commitIndex && s'.lastApplied == s.lastApplied && s'.store == s.store
    requires s'.log == s.log + [e] && s'.term == s.term && s'.votedFor == s.votedFor && s'.votes == s.votes
    requires Replay(s'.wal).term == Replay(s.wal).term && Replay(s'.wal).vote == Replay(s.wal).vote
    requires w'.race.members == w.race.members && i in w'.logs && w'.logs[i] == w.logs[i] + [e]
    requires i in w'.commits && w'.commits[i] == w.commits[i]
    requires i in w'.race.ballots && w'.race.ballots[i] == w.race.ballots[i].(role := s'.role)
    requires BooksSound(w', i, s')
    ensures Behind(w', i, s')
  {
    hide Fold, Replay, BooksSound;
    var full := w.logs[i];
    AppendKeepsCompacted(s, full, e, s');
    assert full[..s.lastIncludedIndex] == (full + [e])[..s.lastIncludedIndex];
  }

  lemma WonLog(w: World, w': World, i: NodeId, s: Server)
    requires NodeSim(w, i, s) && s.role == Candidate && w'.race.members == w.race.members
    requires i in w'.logs && w'.logs[i] == w.logs[i] + [Entry(|w.logs[i]| + 1, s.term, Noop)]
    requires i in w'.commits && w'.commits[i] == w.commits[i]
    requires i in w'.race.ballots && w'.race.ballots[i] == w.race.ballots[i].(role := Leader)
    requires (i, s.term) in w'.acked
    ensures NodeSim(w', i, TransitionToLeader(s))
  {
    hide Fold, Replay;
    IndicesAgree(s, w.logs[i]);
    var noop := Entry(|w.logs[i]| + 1, s.term, Noop);
    ReplayOfLog(s.wal, Append(noop));
    WinBooks(w, w', i, s);
    OwnAppend(w, w', i, s, TransitionToLeader(s), noop);
  }

  /** A node that just won appends its no-op and resets its books. */
  lemma WinSim(w: World, i: NodeId, s: Server) returns (w': World)
    requires WorldInv(w) && NodeSim(w, i, s) && s.role == Candidate
    requires AtLeastHalf(w.race.members, s.votes)
    ensures Steps(w, w', i) && NodeSim(w', i, TransitionToLeader(s))
  {
    hide WorldInv, Steps, Fold, Replay;
    var a := Win(i);
    w' := Next(w, a);
    ActSteps(w, a);
    WonLog(w, w', i, s);
  }

  lemma WinBooks(w: World, w': World, i: NodeId, s: Server)
    requires Behind(w, i, s) && s.role == Candidate
    requires (i, s.term) in w'.acked
    ensures BooksSound(w', i, TransitionToLeader(s))
  {
    hide Fold, Replay;
    var s' := TransitionToLeader(s);
    IndicesAgree(s, w.logs[i]);
    forall p {:trigger s'.matchIndex[p]} | p in s'.matchIndex ensures s'.matchIndex[p] <= 0 {
      assert p in Peers(s);
    }
    forall p {:trigger s'.nextIndex[p]} | p in s'.nextIndex
      ensures 1 <= s'.nextIndex[p] <= LastLogIndex(s') + 1
    {
      assert p in Peers(s);
    }
  }

  lemma CountSim(w: World, i: NodeId, s: Server, voter: NodeId) returns (w': World)
    requires WorldInv(w) && NodeSim(w, i, s) && s.role == Candidate
    requires Vote(s.term, voter, i) in w.race.grants
    ensures Steps(w, w', i) && NodeSim(w', i, s.(votes := s.votes + {voter}))
  {
    hide WorldInv, Steps, Fold, Replay;
    var a := Shuffle(Count(i, voter));
    w' := Next(w, a);
    ActSteps(w, a);
    BallotChange(w, w', i, s, s.(votes := s.votes + {voter}));
  }

  lemma VoteReplySim(w: World, i: NodeId, s: Server, p: Packet) returns (w': World)
    requires WorldInv(w) && NodeSim(w, i, s) && p.VoteReply? && p.dst == i && PacketOk(w, p)
    ensures Steps(w, w', i) && NodeSim(w', i, ProcessRequestVoteResponse(s, p.src, p.vote))
  {
    hide WorldInv, Fold, Replay;
    var vote := p.vote;
    w' := w;
    NoSteps(w, i);
    if vote.term > s.term {
      w' := BumpSim(w, i, s, vote.term);
    } else if s.role == Candidate && vote.term == s.term && vote.granted {
      w' := CountSim(w, i, s, p.src);
      var s1 := s.(votes := s.votes + {p.src});
      if HasMajority(s1.config, i, s1.votes) {
        PassesIsAtLeastHalf(w.race.members, i, s1.votes);
        var w1 := w';
        w' := WinSim(w1, i, s1);
        StepsTransitive(w, w1, w', i);
      }
    }
  }

  lemma StandAllowed(w: World, i: NodeId, s: Server)
    requires NodeSim(w, i, s) && s.role != Leader
    ensures Allowed(w, Stand(i))
  {
    hide Fold, Replay;
  }

  lemma StandSim(w: World, i: NodeId, s: Server) returns (w': World)
    requires WorldInv(w) && NodeSim(w, i, s) && s.role != Leader
    ensures Steps(w, w', i) && NodeSim(w', i, Standing(s))
    ensures (s.term + 1, i) in w'.stood && w'.stood[(s.term + 1, i)] == w.logs[i] && w'.logs == w.logs
  {
    hide WorldInv, Steps, Fold, Replay, Next, Allowed, Compacted, DiskMatches, BooksSound;
    var a := Stand(i);
    StandAllowed(w, i, s);
    w' := Next(w, a);
    ActSteps(w, a);
    ReplayOfState(s.wal, s.term + 1, Some(i));
    StoodBallot(w, i);
    BallotChange(w, w', i, s, Standing(s));
  }

  lemma StoodBallot(w: World, i: NodeId)
    requires Allowed(w, Stand(i))
    ensures var w', b := Next(w, Stand(i)), w.race.ballots[i];
      && w' == w.(race := w'.race, stood := w.stood[(b.term + 1, i) := w.logs[i]], voteLogs := w'.voteLogs)
      && w'.race.members == w.race.members && i in w'.race.ballots
      && w'.race.ballots[i] == Ballot(Candidate, b.term + 1, Some(i), {i}, b.term + 1, Some(i))
  {
  }

  lemma LeaderPeers(s: Server)
    ensures Peers(TransitionToLeader(s)) == Peers(s)
  {
  }

  lemma AloneIsHalf(w: World, i: NodeId, s: Server)
    requires NodeSim(w, i, s) && Peers(s) == {}
    ensures AtLeastHalf(w.race.members, {i})
  {
    hide Fold, Replay;
    assert w.race.members == {i};
  }

  lemma TimeoutSim(w: World, i: NodeId, s: Server) returns (w': World)
    requires WorldInv(w) && NodeSim(w, i, s) && s.role != Leader
    ensures var s' := TransitionToCandidate(s);
      Steps(w, w', i) && NodeSim(w', i, s')
      && forall q {:trigger PacketOk(w', q)} :: q in VoteAsks(s') ==> PacketOk(w', q)
  {
    hide WorldInv, Fold, Replay, Grows, DiskMatches, BooksSound, TransitionToLeader;
    w' := StandSim(w, i, s);
    var s1 := Standing(s);
    if Peers(s1) == {} {
      AloneIsHalf(w', i, s1);
      var w1 := w';
      w' := WinSim(w1, i, s1);
      StepsTransitive(w, w1, w', i);
      LeaderPeers(s1);
      assert VoteAsks(TransitionToCandidate(s)) == {};
    } else {
      IndicesAgree(s1, w.logs[i]);
    }
  }

  // ---------------------------------------------------------------- applying

  lemma NoChangeSuffix(full: seq<Entry>, k: nat)
    requires NoChange(full) && k <= |full|
    ensures NoChange(full[k..])
  {
  }

  lemma ApplyKeepsBooks(w: World, i: NodeId, s: Server, s': Server)
    requires BooksSound(w, i, s) && LastLogIndex(s') == LastLogIndex(s)
    requires s'.id == s.id && s'.role == s.role && s'.term == s.term && s'.config == s.config
    requires s'.nextIndex == s.nextIndex && s'.matchIndex == s.matchIndex
    ensures BooksSound(w, i, s')
  {
  }

  lemma AppliedState(s: Server, full: seq<Entry>)
    requires Compacted(s, full) && NoChange(full) && DiskMatches(s, full)
    ensures var s' := ApplyLogs(s);
      Compacted(s', full) && DiskMatches(s', full) && s'.lastApplied == s'.commitIndex == s.commitIndex
  {
    hide Fold;
    NoChangeSuffix(full, s.lastIncludedIndex);
    NoChangeApplyAll(s);
    var full' := ApplyLogsCompacted(s, full);
    var again := ApplyAllCompacted(s, full);
    CompactKeepsDisk(ApplyAll(s), full);
  }

  lemma AppliedBallot(s: Server)
    requires NoChange(s.log)
    ensures BallotOf(ApplyLogs(s)) == BallotOf(s) || BallotOf(ApplyLogs(s)) == NextBallot(BallotOf(s), Save(s.id))
  {
    hide ApplyLogs, Replay;
    NoChangeApplyLogs(s);
    ReplayOfStateAlone(s.term, s.votedFor);
  }

  lemma AppliedIsSim(w: World, w': World, i: NodeId, s: Server)
    requires Behind(w, i, s) && w' == w.(race := w'.race) && w'.race.members == w.race.members
    requires i in w'.race.ballots && w'.race.ballots[i] == BallotOf(ApplyLogs(s))
    ensures NodeSim(w', i, ApplyLogs(s))
    ensures LastLogIndex(ApplyLogs(s)) == LastLogIndex(s) && ApplyLogs(s).role == s.role && ApplyLogs(s).term == s.term
  {
    hide Fold, Replay;
    AppliedState(s, w.logs[i]);
    NoChangeSuffix(w.logs[i], s.lastIncludedIndex);
    NoChangeApplyLogs(s);
    IndicesAgree(s, w.logs[i]);
    var s' := ApplyLogs(s);
    hide ApplyLogs;
    IndicesAgree(s', w.logs[i]);
    ApplyKeepsBooks(w, i, s, s');
  }

  /** Applying, completing proposals and compacting are invisible to the protocol, except that
      compaction journals the current term and vote. */
  lemma ApplySim(w: World, i: NodeId, s: Server) returns (w': World)
    requires WorldInv(w) && Behind(w, i, s)
    ensures Steps(w, w', i) && NodeSim(w', i, ApplyLogs(s)) && w' == w.(race := w'.race)
    ensures LastLogIndex(ApplyLogs(s)) == LastLogIndex(s) && ApplyLogs(s).role == s.role && ApplyLogs(s).term == s.term
  {
    hide WorldInv, Fold, Replay, ApplyLogs;
    NoChangeSuffix(w.logs[i], s.lastIncludedIndex);
    AppliedBallot(s);
    if BallotOf(ApplyLogs(s)) == BallotOf(s) {
      w' := w;
      NoSteps(w, i);
    } else {
      w' := SaveSim(w, i, s, ApplyLogs(s));
    }
    AppliedIsSim(w, w', i, s);
  }

  // ------------------------------------------------------------------ batches

  /** Merging touches the journal's entries, never its vote. */
  lemma {:induction false} MergeKeepsVote(s: Server, batch: seq<Entry>)
    ensures Replay(MergeEntries(s, batch).wal).term == Replay(s.wal).term
    ensures Replay(MergeEntries(s, batch).wal).vote == Replay(s.wal).vote
    decreases |batch|
  {
    hide Replay;
    if batch != [] {
      var e := batch[0];
      ReplayOfLog(s.wal, Append(e));
      ReplayOfLog(s.wal, Truncate(e.index));
      ReplayOfLog(s.wal + [Truncate(e.index)], Append(e));
      MergeKeepsVote(MergeOne(s, e), batch[1..]);
    }
  }

  lemma {:induction false} MergeNoChange(log: seq<Entry>, batch: seq<Entry>)
    requires NoChange(log) && NoChange(batch)
    ensures NoChange(Merge(log, batch))
    decreases |batch|
  {
    if batch != [] {
      assert NoChange(MergedOne(log, batch[0]));
      assert NoChange(batch[1..]);
      MergeNoChange(MergedOne(log, batch[0]), batch[1..]);
    }
  }

  /** A batch of the current leader never contradicts what the follower committed. */
  lemma BatchRespects(full: seq<Entry>, theirs: seq<Entry>, prev: nat, upto: nat, k: nat)
    requires Agree(full, theirs, k) && prev <= upto <= |theirs| && Numbered(theirs, 0)
    ensures Respects(theirs[prev..upto], full, k) && Numbered(theirs[prev..upto], prev)
  {
    var batch := theirs[prev..upto];
    forall j {:trigger batch[j]} | 0 <= j < |batch|
      ensures batch[j].index == prev + j + 1
      ensures batch[j].index <= k ==> full[batch[j].index - 1].term == batch[j].term
    {
      assert batch[j] == theirs[prev + j];
      if prev + j < k {
        AgreeAt(full, theirs, k, prev + j);
      }
    }
  }

  /** The state of a follower after a batch, its commit index already raised. */
  lemma AcceptedIsBehind(w: World, w': World, i: NodeId, s: Server, prev: nat, upto: nat, commit: nat)
    requires NodeSim(w, i, s) && s.role != Leader && s.term in w.reigns && Numbered(w.reigns[s.term], 0)
    requires prev <= upto <= |w.reigns[s.term]| && prev <= |w.logs[i]|
    requires Agree(w.logs[i], w.reigns[s.term], s.commitIndex) && NoChange(w.reigns[s.term][prev..upto])
    requires var log' := Merge(w.logs[i], w.reigns[s.term][prev..upto]);
      && Agree(log', w.reigns[s.term], s.commitIndex) && s.commitIndex <= commit <= |log'|
      && i in w'.logs && w'.logs[i] == log' && i in w'.commits && w'.commits[i] == commit
    requires w'.race == w.race
    ensures Behind(w', i, MergeEntries(s, w.reigns[s.term][prev..upto]).(commitIndex := commit))
  {
    hide Fold, Replay, MergeEntries, Merge;
    var full, theirs := w.logs[i], w.reigns[s.term];
    var batch := theirs[prev..upto];
    var log' := Merge(full, batch);
    BatchRespects(full, theirs, prev, upto, s.commitIndex);
    MergeEntriesCompacted(s, full, batch, prev);
    MergeKeepsVote(s, batch);
    MergeNoChange(full, batch);
    AgreeTrans(full, theirs, log', s.commitIndex);
    AgreeLess(full, log', s.commitIndex, s.lastIncludedIndex);
  }

  /** The follower's own check on the entry before the batch is the protocol's, even when that
      entry has been compacted away and the check is skipped. */
  lemma AcceptAllowed(w: World, i: NodeId, s: Server, req: AppendRequest)
    requires NodeSim(w, i, s) && s.role == Follower && s.term == req.term
    requires BatchOk(w, req) && req.leader != i
    requires Agree(w.logs[i], w.reigns[s.term], s.commitIndex)
    requires req.prevLogIndex <= LastLogIndex(s)
    requires req.prevLogIndex >= s.lastIncludedIndex ==> EntryTerm(s, req.prevLogIndex) == req.prevLogTerm
    ensures Allowed(w, Accept(i, req.prevLogIndex, req.prevLogIndex + |req.entries|, req.leaderCommit))
    ensures req.prevLogIndex <= |w.logs[i]|
  {
    hide Fold, Replay;
    var full, theirs, prev := w.logs[i], w.reigns[s.term], req.prevLogIndex;
    IndicesAgree(s, full);
    EntriesAgree(s, full, prev);
    if 0 < prev < s.lastIncludedIndex {
      AgreeAt(full, theirs, s.commitIndex, prev - 1);
    }
  }

  lemma AcceptNext(w: World, i: NodeId, prev: nat, upto: nat, lc: nat)
    requires Allowed(w, Accept(i, prev, upto, lc))
    ensures var w' := Next(w, Accept(i, prev, upto, lc));
      var log' := Merge(w.logs[i], w.reigns[w.race.ballots[i].term][prev..upto]);
      && w'.race == w.race && i in w'.logs && w'.logs[i] == log'
      && i in w'.commits && w'.commits[i] == (if lc > w.commits[i] then Min(lc, |log'|) else w.commits[i])
      && (i, w.race.ballots[i].term) in w'.acked && w'.acked[(i, w.race.ballots[i].term)] == |log'|
  {
    hide Merge;
  }

  lemma AcceptSim(w: World, i: NodeId, s: Server, req: AppendRequest) returns (w': World)
    requires WorldInv(w) && NodeSim(w, i, s) && s.role == Follower && s.term == req.term
    requires BatchOk(w, req) && req.leader != i
    requires req.prevLogIndex <= LastLogIndex(s)
    requires req.prevLogIndex >= s.lastIncludedIndex ==> EntryTerm(s, req.prevLogIndex) == req.prevLogTerm
    ensures var s' := AdvanceFollower(MergeEntries(s, req.entries), req.leaderCommit);
      && Steps(w, w', i) && NodeSim(w', i, s') && s'.term == s.term
      && (i, s.term) in w'.acked && LastLogIndex(s') == w'.acked[(i, s.term)]
      && req.prevLogIndex + |req.entries| <= LastLogIndex(s')
  {
    hide WorldInv, Fold, Replay, MergeEntries, Merge, ApplyLogs, Steps, Allowed, Next, AdvanceFollower,
      Compacted, DiskMatches, BooksSound, EntryTerm, Covered, Agree;
    var k := s.commitIndex;
    var prev, upto, lc := req.prevLogIndex, req.prevLogIndex + |req.entries|, req.leaderCommit;
    FollowerAgrees(w, i, s);
    AcceptAllowed(w, i, s, req);
    var w1 := Next(w, Accept(i, prev, upto, lc));
    ActSteps(w, Accept(i, prev, upto, lc));
    AcceptNext(w, i, prev, upto, lc);
    AcceptYieldsPrefix(w, i, prev, upto, lc, k);
    var s2 := MergeEntries(s, req.entries);
    AcceptedIsBehind(w, w1, i, s, prev, upto, w1.commits[i]);
    MergeCommit(s, req.entries);
    IndicesAgree(s2.(commitIndex := w1.commits[i]), w1.logs[i]);
    w' := FinishAccept(w, w1, i, s, s2, w1.commits[i], lc);
  }

  lemma {:induction false} MergeCommit(s: Server, batch: seq<Entry>)
    ensures MergeEntries(s, batch) == s.(log := MergeEntries(s, batch).log, wal := MergeEntries(s, batch).wal)
    decreases |batch|
  {
    if batch != [] {
      MergeOneChanges(s, batch[0]);
      MergeCommit(MergeOne(s, batch[0]), batch[1..]);
    }
  }

  /** A follower that raised its commit index applies; one that did not is done. */
  lemma FinishAccept(w: World, w1: World, i: NodeId, s: Server, s2: Server, commit: nat, lc: nat) returns (w': World)
    requires Steps(w, w1, i) && Behind(w1, i, s2.(commitIndex := commit))
    requires s2.lastApplied == s2.commitIndex && LastLogIndex(s2) == |w1.logs[i]|
    requires commit == if lc > s2.commitIndex then Min(lc, |w1.logs[i]|) else s2.commitIndex
    requires (i, s2.term) in w1.acked && w1.acked[(i, s2.term)] == |w1.logs[i]|
    ensures var s' := AdvanceFollower(s2, lc);
      && Steps(w, w', i) && NodeSim(w', i, s') && s'.term == s2.term
      && (i, s2.term) in w'.acked && LastLogIndex(s') == w'.acked[(i, s2.term)] == |w1.logs[i]|
  {
    hide WorldInv, Fold, Replay, ApplyLogs;
    var s3 := s2.(commitIndex := commit);
    if lc > s2.commitIndex {
      w' := ApplySim(w1, i, s3);
      StepsTransitive(w, w1, w', i);
    } else {
      w' := w1;
      assert s3 == s2;
    }
  }

  /** A node never disagrees with the leader of its term about what it committed. */
  lemma FollowerAgrees(w: World, i: NodeId, s: Server)
    requires WorldInv(w) && NodeSim(w, i, s) && s.term in w.reigns
    ensures Agree(w.logs[i], w.reigns[s.term], s.commitIndex) && Numbered(w.reigns[s.term], 0)
  {
    assert CommitSound(w, i) && ReignSound(w, s.term);
    assert Histories(w) && Memory(w);
    hide WorldInv, Histories, Memory, Fold, Replay;
    ReignHoldsCovered(w, w.logs[i], w.commits[i], s.term, s.term);
  }

  lemma AdoptedShape(s: Server, term: nat, leader: NodeId)
    requires s.term <= term
    ensures var s1 := AdoptLeader(s, term, leader);
      && s1.term == term && s1.role != Candidate && (s1.role == Leader ==> s.role == Leader && s.term == term)
      && s1.lastApplied == s.lastApplied && s1.commitIndex == s.commitIndex
  {
  }

  /** Nobody else sends batches in a leader's own term. */
  lemma LeaderHasNoLeader(w: World, i: NodeId, s: Server, req: AppendRequest)
    requires WorldInv(w) && NodeSim(w, i, s) && BatchOk(w, req) && req.leader != i && s.role == Leader
    ensures s.term != req.term
  {
    hide Fold, Replay, Memory;
    assert LeaderElected(w.race, i);
  }

  lemma BatchAnswer(w: World, i: NodeId, s: Server, req: AppendRequest) returns (w': World)
    requires WorldInv(w) && NodeSim(w, i, s) && s.role == Follower && s.term == req.term
    requires s.votedFor == Some(req.leader) && BatchOk(w, req) && req.leader != i
    ensures var (s', r) := ProcessAppendEntries(s, req);
      Steps(w, w', i) && NodeSim(w', i, s') && PacketOk(w', AppendReply(i, req.leader, r))
      && (r.success ==> req.prevLogIndex + |req.entries| <= r.matchIndex)
  {
    hide WorldInv, Fold, Replay, MergeEntries, AdvanceFollower;
    assert AdoptLeader(s, req.term, req.leader) == s;
    IndicesAgree(s, w.logs[i]);
    if req.prevLogIndex > LastLogIndex(s)
       || (req.prevLogIndex >= s.lastIncludedIndex && EntryTerm(s, req.prevLogIndex) != req.prevLogTerm) {
      w' := w;
      NoSteps(w, i);
    } else {
      w' := AcceptSim(w, i, s, req);
    }
  }

  /** Adopting the leader first changes nothing about how a batch is handled. */
  lemma AdoptTwice(s: Server, req: AppendRequest)
    requires s.term <= req.term
    ensures ProcessAppendEntries(AdoptLeader(s, req.term, req.leader), req) == ProcessAppendEntries(s, req)
    ensures AdoptLeader(s, req.term, req.leader).votedFor == Some(req.leader)
  {
    hide MergeEntries, AdvanceFollower;
    var s1 := AdoptLeader(s, req.term, req.leader);
    assert s1.term == req.term && s1.role != Candidate;
    assert AdoptLeader(s1, req.term, req.leader) == s1;
  }

  lemma CurrentBatchSim(w: World, i: NodeId, s: Server, req: AppendRequest) returns (w': World)
    requires WorldInv(w) && NodeSim(w, i, s) && s.term <= req.term && BatchOk(w, req) && req.leader != i
    ensures var (s', r) := ProcessAppendEntries(s, req);
      Steps(w, w', i) && NodeSim(w', i, s') && PacketOk(w', AppendReply(i, req.leader, r))
      && (r.success ==> req.prevLogIndex + |req.entries| <= r.matchIndex)
  {
    hide WorldInv, Fold, Replay, BatchOk, AdoptLeader, ProcessAppendEntries, PacketOk;
    if s.role == Leader {
      LeaderHasNoLeader(w, i, s, req);
    }
    BatchLeader(w, req);
    var w1 := AdoptSim(w, i, s, req.term, req.leader);
    AdoptedShape(s, req.term, req.leader);
    AdoptTwice(s, req);
    BatchGrows(w, w1, req);
    w' := BatchAnswer(w1, i, AdoptLeader(s, req.term, req.leader), req);
    StepsTransitive(w, w1, w', i);
  }

  lemma AppendAskSim(w: World, i: NodeId, s: Server, p: Packet) returns (w': World)
    requires WorldInv(w) && NodeSim(w, i, s) && p.AppendAsk? && p.dst == i && PacketOk(w, p)
    ensures var (s', sent) := Receive(s, p);
      Steps(w, w', i) && NodeSim(w', i, s') && forall q {:trigger PacketOk(w', q)} :: q in sent ==> PacketOk(w', q)
  {
    hide WorldInv, Fold, Replay, MergeEntries, AdvanceFollower, BatchOk, AdoptLeader;
    if p.batch.term < s.term {
      w' := w;
      NoSteps(w, i);
    } else {
      w' := CurrentBatchSim(w, i, s, p.batch);
    }
  }

  lemma BatchLeader(w: World, req: AppendRequest)
    requires BatchOk(w, req)
    ensures req.term in w.race.won && w.race.won[req.term].leader == req.leader
  {
  }

  // --------------------------------------------------------- the leader's part

  lemma ChooseNext(w: World, i: NodeId, n: nat, quorum: set<NodeId>)
    requires Allowed(w, Choose(i, n, quorum)) && n > w.commits[i]
    ensures var w' := Next(w, Choose(i, n, quorum));
      && w' == w.(commits := w'.commits, chosen := w'.chosen) && i in w'.commits && w'.commits[i] == n
  {
  }

  /** A leader's log is its term's log, all of it acknowledged by itself. */
  lemma LeaderHolds(w: World, i: NodeId, s: Server)
    requires WorldInv(w) && Behind(w, i, s) && s.role == Leader
    ensures s.term in w.reigns && w.reigns[s.term] == w.logs[i] && LastLogIndex(s) == |w.logs[i]|
    ensures (i, s.term) in w.acked && w.acked[(i, s.term)] == |w.logs[i]|
  {
    hide Fold, Replay, Histories, Memory;
    assert NodeSound(w, i);
    IndicesAgree(s, w.logs[i]);
  }

  /** The quorum a leader counts for index `n` really acknowledged it. */
  lemma QuorumAcked(w: World, i: NodeId, s: Server, n: nat)
    requires WorldInv(w) && Behind(w, i, s) && s.role == Leader
    requires 1 <= n <= LastLogIndex(s) && s.lastIncludedIndex < n && EntryTerm(s, n) == s.term && CheckCommitMajority(s, n)
    ensures Allowed(w, Choose(i, n, {i} + set p | p in s.matchIndex && s.matchIndex[p] >= n))
  {
    hide WorldInv, Fold, Replay, Compacted, DiskMatches, BooksSound;
    LeaderHolds(w, i, s);
    EntriesAgree(s, w.logs[i], n);
    PassesIsAtLeastHalf(s.config.newPeers.Keys, i, {i} + set p | p in s.matchIndex && s.matchIndex[p] >= n);
    CountedAcks(w, i, s, n);
  }

  lemma CountedAcks(w: World, i: NodeId, s: Server, n: nat)
    requires BooksSound(w, i, s) && s.role == Leader && n >= 1
    requires (i, s.term) in w.acked && w.acked[(i, s.term)] >= n
    ensures forall p :: p in {i} + (set p | p in s.matchIndex && s.matchIndex[p] >= n) ==>
      (p, s.term) in w.acked && w.acked[(p, s.term)] >= n
  {
    forall p | p in {i} + (set p | p in s.matchIndex && s.matchIndex[p] >= n)
      ensures (p, s.term) in w.acked && w.acked[(p, s.term)] >= n
    {
      if p != i {
        assert s.matchIndex[p] >= n;
      }
    }
  }

  lemma ChosenIsBehind(w: World, w': World, i: NodeId, s: Server, n: nat)
    requires NodeSim(w, i, s) && s.commitIndex < n <= LastLogIndex(s)
    requires w' == w.(commits := w'.commits, chosen := w'.chosen) && i in w'.commits && w'.commits[i] == n
    ensures Behind(w', i, s.(commitIndex := n)) && LastLogIndex(s.(commitIndex := n)) == LastLogIndex(s)
  {
    hide Fold, Replay;
    IndicesAgree(s, w.logs[i]);
  }

  lemma ChooseSim(w: World, i: NodeId, s: Server, n: nat) returns (w': World)
    requires WorldInv(w) && NodeSim(w, i, s) && s.role == Leader
    requires s.commitIndex < n <= LastLogIndex(s) && EntryTerm(s, n) == s.term && CheckCommitMajority(s, n)
    ensures var s' := ApplyLogs(s.(commitIndex := n));
      Steps(w, w', i) && NodeSim(w', i, s') && s'.role == Leader && s'.term == s.term && s'.commitIndex == n
      && LastLogIndex(s') == LastLogIndex(s) && w'.acked == w.acked && w'.logs == w.logs
  {
    hide WorldInv, Fold, Replay, ApplyLogs, Allowed, Next, CheckCommitMajority, EntryTerm, BooksSound, Compacted;
    var quorum := {i} + set p | p in s.matchIndex && s.matchIndex[p] >= n;
    CompactedBelow(w, i, s);
    QuorumAcked(w, i, s, n);
    var w1 := Next(w, Choose(i, n, quorum));
    ActSteps(w, Choose(i, n, quorum));
    ChooseNext(w, i, n, quorum);
    ChosenIsBehind(w, w1, i, s, n);
    w' := ApplySim(w1, i, s.(commitIndex := n));
    StepsTransitive(w, w1, w', i);
  }

  lemma CompactedBelow(w: World, i: NodeId, s: Server)
    requires NodeSim(w, i, s)
    ensures s.lastIncludedIndex <= s.commitIndex
  {
  }

  /** The leader's commit loop is a series of choices. */
  lemma {:induction false} AdvanceSim(w: World, i: NodeId, s: Server, n: nat, last: nat) returns (w': World)
    requires WorldInv(w) && NodeSim(w, i, s) && s.role == Leader
    requires s.commitIndex < n && last == LastLogIndex(s)
    ensures Steps(w, w', i) && NodeSim(w', i, AdvanceLeader(s, n, last)) && w'.logs == w.logs
    decreases last + 1 - n
  {
    hide WorldInv, Fold, Replay, ApplyLogs, CheckCommitMajority, EntryTerm, NodeSim;
    if n > last {
      w' := w;
      NoSteps(w, i);
    } else if EntryTerm(s, n) == s.term && CheckCommitMajority(s, n) {
      var w1 := ChooseSim(w, i, s, n);
      w' := AdvanceSim(w1, i, ApplyLogs(s.(commitIndex := n)), n + 1, last);
      StepsTransitive(w, w1, w', i);
    } else {
      w' := AdvanceSim(w, i, s, n + 1, last);
    }
  }

  lemma AckSim(w: World, i: NodeId, s: Server, p: Packet) returns (w': World)
    requires WorldInv(w) && NodeSim(w, i, s) && p.AppendReply? && p.dst == i && PacketOk(w, p)
    ensures Steps(w, w', i) && NodeSim(w', i, ProcessAppendEntriesResponse(s, p.src, p.ack)) && w'.logs == w.logs
  {
    hide WorldInv, Fold, Replay, AdvanceLeader, Steps, Behind, LastLogIndex;
    var ack := p.ack;
    w' := w;
    NoSteps(w, i);
    if ack.term > s.term {
      w' := BumpSim(w, i, s, ack.term);
    } else if s.role == Leader && ack.term == s.term {
      AckBooks(w, i, s, p);
      if ack.success {
        var s1 := s.(matchIndex := s.matchIndex[p.src := ack.matchIndex], nextIndex := s.nextIndex[p.src := ack.matchIndex + 1]);
        w' := AdvanceSim(w, i, s1, s1.commitIndex + 1, LastLogIndex(s1));
      }
    }
  }

  lemma AckBooks(w: World, i: NodeId, s: Server, p: Packet)
    requires WorldInv(w) && NodeSim(w, i, s) && s.role == Leader
    requires p.AppendReply? && p.dst == i && PacketOk(w, p) && p.ack.term == s.term
    ensures p.ack.success ==> NodeSim(w, i,
      s.(matchIndex := s.matchIndex[p.src := p.ack.matchIndex], nextIndex := s.nextIndex[p.src := p.ack.matchIndex + 1]))
    ensures !p.ack.success ==> NodeSim(w, i,
      s.(nextIndex := s.nextIndex[p.src := if p.ack.matchIndex + 1 < 1 then 1 else p.ack.matchIndex + 1]))
  {
    hide WorldInv, Fold, Replay, NodeSim, BooksSound, Compacted;
    SoundBooks(w, i, s);
    LeaderIsNode(w, i, s);
    var m := p.ack.matchIndex;
    if p.ack.success {
      AckWithinReign(w, p.src, s.term);
      AckBooksSound(w, i, s, p.src, m);
      NewBooks(w, i, s, s.(matchIndex := s.matchIndex[p.src := m], nextIndex := s.nextIndex[p.src := m + 1]));
    } else {
      NackBooksSound(w, i, s, p.src, m);
      NewBooks(w, i, s, s.(nextIndex := s.nextIndex[p.src := if m + 1 < 1 then 1 else m + 1]));
    }
  }

  lemma LeaderIsNode(w: World, i: NodeId, s: Server)
    requires WorldInv(w) && NodeSim(w, i, s) && s.role == Leader
    ensures s.term in w.reigns && LastLogIndex(s) == |w.reigns[s.term]|
  {
    hide WorldInv, Fold, Replay;
    LeaderHolds(w, i, s);
  }

  lemma SoundBooks(w: World, i: NodeId, s: Server)
    requires NodeSim(w, i, s)
    ensures BooksSound(w, i, s) && Peers(s) == w.race.members - {i}
  {
    hide Fold, Replay;
  }

  lemma NewBooks(w: World, i: NodeId, s: Server, s': Server)
    requires NodeSim(w, i, s) && BooksSound(w, i, s')
    requires s' == s.(matchIndex := s'.matchIndex, nextIndex := s'.nextIndex)
    ensures NodeSim(w, i, s')
  {
    hide Fold, Replay, BooksSound;
  }

  lemma AckWithinReign(w: World, p: NodeId, t: nat)
    requires WorldInv(w) && (p, t) in w.acked
    ensures t in w.reigns && w.acked[(p, t)] <= |w.reigns[t]|
  {
    AcksAreSound(w, p, t);
  }

  lemma AckBooksSound(w: World, i: NodeId, s: Server, peer: NodeId, m: int)
    requires BooksSound(w, i, s) && peer in Peers(s) && 0 <= m <= LastLogIndex(s)
    requires (peer, s.term) in w.acked && m <= w.acked[(peer, s.term)]
    ensures BooksSound(w, i, s.(matchIndex := s.matchIndex[peer := m], nextIndex := s.nextIndex[peer := m + 1]))
  {
  }

  lemma NackBooksSound(w: World, i: NodeId, s: Server, peer: NodeId, m: int)
    requires BooksSound(w, i, s) && peer in Peers(s) && m <= LastLogIndex(s)
    ensures BooksSound(w, i, s.(nextIndex := s.nextIndex[peer := if m + 1 < 1 then 1 else m + 1]))
  {
  }

  lemma ProposeBooks(w: World, w': World, i: NodeId, s: Server, s': Server)
    requires BooksSound(w, i, s) && LastLogIndex(s') == LastLogIndex(s) + 1 && s.role == Leader
    requires s'.id == s.id && s'.role == s.role && s'.term == s.term && s'.config == s.config
    requires s'.nextIndex == s.nextIndex && s'.matchIndex == s.matchIndex
    requires Grows(w, w')
    ensures BooksSound(w', i, s')
  {
    forall p {:trigger s'.matchIndex[p]} | p in s'.matchIndex
      ensures s'.matchIndex[p] <= 0 || ((p, s'.term) in w'.acked && s'.matchIndex[p] <= w'.acked[(p, s'.term)])
    {
      if s.matchIndex[p] > 0 {
        assert (p, s.term) in w'.acked;
      }
    }
  }

  function Proposed(s: Server, id: nat, cmd: Command): Server {
    var e := Entry(LastLogIndex(s) + 1, s.term, Op(cmd));
    s.(log := s.log + [e], wal := s.wal + [Append(e)], proposals := s.proposals + [Proposal(e.index, e.term, id)])
  }

  lemma ProposeNext(w: World, i: NodeId, payload: Payload)
    requires Allowed(w, Propose(i, payload))
    ensures var w', e := Next(w, Propose(i, payload)), Entry(|w.logs[i]| + 1, w.race.ballots[i].term, payload);
      && w'.race == w.race && w'.commits == w.commits && i in w'.logs && w'.logs[i] == w.logs[i] + [e]
  {
  }

  lemma ProposeAllowed(w: World, i: NodeId, s: Server, payload: Payload)
    requires NodeSim(w, i, s) && s.role == Leader && !payload.Change?
    ensures Allowed(w, Propose(i, payload))
  {
    hide Fold, Replay;
  }

  lemma ProposeSim(w: World, i: NodeId, s: Server, id: nat, cmd: Command) returns (w': World)
    requires WorldInv(w) && NodeSim(w, i, s) && s.role == Leader
    ensures Steps(w, w', i) && NodeSim(w', i, Proposed(s, id, cmd)) && i in w.logs && i in w'.logs
    ensures w'.logs[i] == w.logs[i] + [Entry(|w.logs[i]| + 1, s.term, Op(cmd))]
  {
    hide WorldInv, Fold, Replay, Next, Allowed, Grows, Compacted, DiskMatches, BooksSound;
    var a := Propose(i, Op(cmd));
    ProposeAllowed(w, i, s, Op(cmd));
    w' := Next(w, a);
    ActSteps(w, a);
    ProposeNext(w, i, Op(cmd));
    IndicesAgree(s, w.logs[i]);
    var e := Entry(LastLogIndex(s) + 1, s.term, Op(cmd));
    ReplayOfLog(s.wal, Append(e));
    ProposeBooks(w, w', i, s, Proposed(s, id, cmd));
    OwnAppend(w, w', i, s, Proposed(s, id, cmd), e);
  }

  lemma ClientSim(w: World, i: NodeId, s: Server, id: nat, cmd: Command) returns (w': World)
    requires WorldInv(w) && NodeSim(w, i, s)
    ensures Steps(w, w', i) && NodeSim(w', i, HandleClientCommand(s, id, cmd)) && i in w.logs && i in w'.logs
    ensures s.role == Leader ==> w'.logs[i] == w.logs[i] + [Entry(|w.logs[i]| + 1, s.term, Op(cmd))]
  {
    hide WorldInv, Fold, Replay, ApplyLogs, CheckCommitMajority;
    if s.role != Leader {
      w' := w;
      NoSteps(w, i);
      BallotChange(w, w, i, s, s.(answers := s.answers + [Answer(id, false)]));
    } else {
      w' := ProposeSim(w, i, s, id, cmd);
      var s1 := Proposed(s, id, cmd);
      IndicesAgree(s, w.logs[i]);
      var n := LastLogIndex(s) + 1;
      if Peers(s1) == {} && CheckCommitMajority(s1, n) {
        LastEntry(w', i, s1);
        var w1 := w';
        w' := ChooseSim(w1, i, s1, n);
        StepsTransitive(w, w1, w', i);
      }
    }
  }

  lemma LastEntry(w: World, i: NodeId, s: Server)
    requires NodeSim(w, i, s) && s.log != []
    ensures EntryTerm(s, LastLogIndex(s)) == s.log[|s.log| - 1].term
    ensures s.commitIndex <= LastLogIndex(s)
  {
    hide Fold, Replay;
    IndicesAgree(s, w.logs[i]);
    EntriesAgree(s, w.logs[i], |w.logs[i]|);
  }

  lemma LeaderFacts(w: World, i: NodeId)
    requires WorldInv(w) && i in w.race.ballots && w.race.ballots[i].role == Leader
    ensures LeaderElected(w.race, i) && CommitSound(w, i)
    ensures w.race.ballots[i].term in w.reigns && ReignSound(w, w.race.ballots[i].term)
  {
    assert NodeSound(w, i);
  }

  /** A batch from a leader runs from an entry it still holds to the end of its log. */
  lemma BatchSim(w: World, i: NodeId, s: Server, req: AppendRequest)
    requires WorldInv(w) && NodeSim(w, i, s) && s.role == Leader
    requires req.term == s.term && req.leader == i && req.leaderCommit == s.commitIndex
    requires s.lastIncludedIndex <= req.prevLogIndex <= LastLogIndex(s)
    requires req.prevLogTerm == EntryTerm(s, req.prevLogIndex) && req.entries == w.logs[i][req.prevLogIndex..]
    ensures BatchOk(w, req)
  {
    hide WorldInv, Behind, EntryTerm, LastLogIndex, ReignSound, Covered;
    LeaderHolds(w, i, s);
    LeaderView(w, i, s, req.prevLogIndex);
    LeaderFacts(w, i);
    ReignEnds(w, s.term);
    NoChangeSuffix(w.logs[i], req.prevLogIndex);
  }

  /** What a leader reads off its own log is what the protocol says of it. */
  lemma LeaderView(w: World, i: NodeId, s: Server, k: nat)
    requires NodeSim(w, i, s) && s.lastIncludedIndex <= k <= LastLogIndex(s)
    ensures i in w.logs && i in w.race.ballots && i in w.commits && NoChange(w.logs[i]) && k <= |w.logs[i]|
    ensures EntryTerm(s, k) == TermAt(w.logs[i], k)
    ensures w.race.ballots[i].role == s.role && w.race.ballots[i].term == s.term && w.commits[i] == s.commitIndex
  {
    hide Fold, Replay, BooksSound;
    IndicesAgree(s, w.logs[i]);
    EntriesAgree(s, w.logs[i], k);
  }

  lemma ReignEnds(w: World, t: nat)
    requires ReignSound(w, t)
    ensures t in w.race.won && TermAt(w.reigns[t], |w.reigns[t]|) == t
  {
  }

  lemma ReplicateSim(w: World, i: NodeId, s: Server, peer: NodeId)
    requires WorldInv(w) && NodeSim(w, i, s) && CanReplicate(s, peer)
    ensures PacketOk(w, AppendAsk(i, peer, ReplicateTo(s, peer)))
  {
    hide WorldInv, Fold, Replay;
    IndicesAgree(s, w.logs[i]);
    RetainedAgrees(s, w.logs[i], s.nextIndex[peer]);
    BatchSim(w, i, s, ReplicateTo(s, peer));
  }

  lemma ProbeSim(w: World, i: NodeId, s: Server, peer: NodeId)
    requires WorldInv(w) && NodeSim(w, i, s) && s.role == Leader && peer in Peers(s)
    ensures PacketOk(w, AppendAsk(i, peer, ReadProbe(s)))
  {
    hide WorldInv, Fold, Replay;
    var full := w.logs[i];
    IndicesAgree(s, full);
    EntriesAgree(s, full, |full|);
    assert full[|full|..] == [];
    BatchSim(w, i, s, ReadProbe(s));
  }

  // ------------------------------------------------------------------ restarts

  lemma {:induction false} AfterNumbered(entries: seq<Entry>, base: nat)
    requires Numbered(entries, base)
    ensures After(entries, base) == entries
  {
    if entries != [] {
      assert entries[0].index == base + 1;
      assert forall k {:trigger entries[1..][k]} :: 0 <= k < |entries| - 1 ==> entries[1..][k] == entries[k + 1];
      AfterAbove(entries[1..], base);
    }
  }

  lemma {:induction false} AfterAbove(entries: seq<Entry>, base: nat)
    requires forall k {:trigger entries[k]} :: 0 <= k < |entries| ==> entries[k].index > base
    ensures After(entries, base) == entries
  {
    if entries != [] {
      assert forall k {:trigger entries[1..][k]} :: 0 <= k < |entries| - 1 ==> entries[1..][k] == entries[k + 1];
      AfterAbove(entries[1..], base);
    }
  }

  /** A clean restart reads its log back, and counts as applied what its snapshot covers. */
  function Reloaded(s: Server): Server {
    Recovered(s.id, s.config, s.threshold, s.disk, s.wal, Replay(s.wal))
  }

  lemma ReloadedLog(s: Server, full: seq<Entry>)
    requires Compacted(s, full) && DiskMatches(s, full) && Journalled(s)
    ensures var r := Reloaded(s);
      && r.log == s.log && r.lastIncludedIndex == r.lastApplied == r.commitIndex == s.lastIncludedIndex
      && r.lastIncludedTerm == s.lastIncludedTerm && r.store == Fold(full[..s.lastIncludedIndex])
      && r.term == Replay(s.wal).term
  {
    hide Replay;
    IndicesAgree(s, full);
    AfterNumbered(s.log, s.lastIncludedIndex);
    assert Fold(full[..0]) == EmptyStore();
  }

  /** The role, the votes and what was believed of the peers are lost; the ballot is what the journal holds. */
  lemma ReloadedRest(s: Server)
    ensures var r := Reloaded(s);
      && r.id == s.id && r.role == Follower && r.disk == s.disk && r.wal == s.wal && r.matchIndex == map[] && r.nextIndex == map[]
      && BallotOf(r) == NextBallot(BallotOf(s), Crash(s.id))
      && r.config == (if s.disk.Some? && s.disk.value.config.Some? then s.disk.value.config.value else s.config)
  {
    hide Replay, After;
  }

  lemma ReloadedIsBehind(w: World, w': World, i: NodeId, s: Server)
    requires NodeSim(w, i, s) && Journalled(s) && w' == w.(race := w'.race, commits := w'.commits) && w'.race.members == w.race.members
    requires i in w'.commits && w'.commits[i] == s.lastIncludedIndex
    requires i in w'.race.ballots && w'.race.ballots[i] == NextBallot(BallotOf(s), Crash(i))
    ensures Behind(w', i, Reloaded(s))
  {
    hide Replay, Fold, Reloaded, NextBallot;
    ReloadedLog(s, w.logs[i]);
    ReloadedRest(s);
  }

  lemma RestartAllowed(w: World, i: NodeId, s: Server)
    requires NodeSim(w, i, s) && CleanCrash(s)
    ensures Allowed(w, Restart(i, s.lastIncludedIndex))
  {
    hide WorldInv, Fold, Replay;
  }

  lemma RestartNext(w: World, i: NodeId, k: nat)
    requires Allowed(w, Restart(i, k))
    ensures var w' := Next(w, Restart(i, k));
      && w' == w.(race := w'.race, commits := w'.commits) && w'.race.members == w.race.members
      && i in w'.commits && w'.commits[i] == k
      && i in w'.race.ballots && w'.race.ballots[i] == NextBallot(w.race.ballots[i], Crash(i))
  {
  }
  /** Reading back a journal that lost nothing but the role. */
  lemma ReloadSim(w: World, i: NodeId, s: Server) returns (w': World)
    requires WorldInv(w) && NodeSim(w, i, s) && CleanCrash(s)
    ensures WorldInv(w') && Steps(w, w', i) && Behind(w', i, Reloaded(s))
  {
    hide WorldInv, Fold, Replay, Reloaded, Next, Allowed, NextBallot, Compacted, DiskMatches, BooksSound, NoChange;
    var a := Restart(i, s.lastIncludedIndex);
    RestartAllowed(w, i, s);
    w' := Next(w, a);
    ActSteps(w, a);
    RestartNext(w, i, s.lastIncludedIndex);
    ReloadedIsBehind(w, w', i, s);
  }

  /** Restarting: what was read back, and then what it applies. */
  lemma RebootSim(w: World, i: NodeId, s: Server) returns (w': World)
    requires WorldInv(w) && NodeSim(w, i, s) && CleanCrash(s)
    ensures Steps(w, w', i) && NodeSim(w', i, LoadState(s.id, s.config, s.threshold, s.disk, s.wal))
  {
    hide WorldInv, Steps, NodeSim, Behind, ApplyLogs, CleanCrash;
    var w1 := ReloadSim(w, i, s);
    w' := ApplySim(w1, i, Reloaded(s));
    StepsTransitive(w, w1, w', i);
  }
}
