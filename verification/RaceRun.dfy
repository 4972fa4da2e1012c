/** Election safety with crashes: every step of a cluster, restarts from any journal included, is a
    few moves of `Election`.

    Unlike `Simulation` this says nothing about logs, so it needs nothing from them: a restart may
    lose a term that was never journalled, or log entries that compaction dropped from the journal. */
module RaceRun {
  import opened Config
  import opened Log
  import opened Wal
  import opened Election
  import opened ServerSpec
  import opened Cluster
  import opened Simulation

  /** No journalled entry changes the membership. */
  predicate QuietJournal(wal: seq<Record>) {
    forall k {:trigger wal[k]} :: 0 <= k < |wal| && wal[k].Append? ==> !wal[k].entry.payload.Change?
  }

  ghost predicate NodeRuns(r: Race, i: NodeId, s: Server) {
    && i in r.members && i in r.ballots && s.id == i && BallotOf(s) == r.ballots[i]
    && Steady(s.config, r.members) && NoChange(s.log) && QuietJournal(s.wal)
    && (s.disk.Some? && s.disk.value.config.Some? ==> Steady(s.disk.value.config.value, r.members))
  }

  ghost predicate PacketRuns(r: Race, p: Packet) {
    p.src in r.members &&
    match p
    case VoteAsk(src, _, ask) => ask.candidate == src && ask.term >= 1
    case VoteReply(src, dst, vote) => vote.granted ==> Vote(vote.term, src, dst) in r.grants
    case AppendAsk(src, _, batch) =>
      && batch.leader == src && LeaderOf(r, batch.term, src) && NoChange(batch.entries)
    case AppendReply(_, _, _) => true
  }

  ghost predicate Races(r: Race, net: Net) {
    && OddRace(r) && net.servers.Keys == r.members
    && (forall i {:trigger NodeRuns(r, i, net.servers[i])} :: i in net.servers ==> NodeRuns(r, i, net.servers[i]))
    && (forall p {:trigger PacketRuns(r, p)} :: p in net.packets ==> PacketRuns(r, p))
  }

  ghost predicate OddRace(r: Race) {
    RaceInv(r) && |r.members| % 2 == 1
  }

  predicate SameBallot(r: Race, r': Race, j: NodeId) {
    j in r.ballots && j in r'.ballots && r'.ballots[j] == r.ballots[j]
  }

  /** A few moves of node `i`. */
  ghost predicate Moved(r: Race, r': Race, i: NodeId) {
    && OddRace(r') && Extends(r, r')
    && forall j {:trigger SameBallot(r, r', j)} :: j in r.ballots && j != i ==> SameBallot(r, r', j)
  }

  lemma NoMove(r: Race, i: NodeId)
    requires OddRace(r)
    ensures Moved(r, r, i)
  {
  }

  lemma MovedTransitive(r0: Race, r1: Race, r2: Race, i: NodeId)
    requires Moved(r0, r1, i) && Moved(r1, r2, i)
    ensures Moved(r0, r2, i)
  {
    hide OddRace, RaceInv;
    forall j | j in r0.ballots && j != i ensures SameBallot(r0, r2, j) {
      assert SameBallot(r0, r1, j) && SameBallot(r1, r2, j);
    }
  }

  lemma MoveMoves(r: Race, m: Move)
    requires OddRace(r) && Enabled(r, m)
    ensures Moved(r, Apply(r, m), m.i)
  {
    MoveKeepsInv(r, m);
    MoveExtends(r, m);
  }

  /** A term that is newly won is won by node `i`, which leads it in its new state. */
  predicate Crowned(r: Race, r': Race, i: NodeId, s': Server) {
    forall t :: t in r'.won ==> t in r.won || (r'.won[t].leader == i && s'.role == Leader && s'.term == t)
  }

  /** One move of node `i` explains a change of its server that leaves the entries alone. */
  lemma MoveServer(r: Race, m: Move, s: Server, s': Server) returns (r': Race)
    requires OddRace(r) && NodeRuns(r, m.i, s) && Enabled(r, m)
    requires s'.id == s.id && s'.config == s.config && BallotOf(s') == NextBallot(BallotOf(s), m)
    requires NoChange(s'.log) && QuietJournal(s'.wal)
    requires s'.disk == s.disk || (s'.disk.Some? && s'.disk.value.config == Some(s.config))
    ensures r' == Apply(r, m) && Moved(r, r', m.i) && NodeRuns(r', m.i, s')
  {
    hide OddRace, RaceInv, Replay;
    r' := Apply(r, m);
    MoveMoves(r, m);
  }

  /** The server changes without a move. */
  lemma StillRuns(r: Race, i: NodeId, s: Server, s': Server)
    requires NodeRuns(r, i, s) && s'.id == s.id && s'.config == s.config && BallotOf(s') == BallotOf(s)
    requires NoChange(s'.log) && QuietJournal(s'.wal)
    requires s'.disk == s.disk || (s'.disk.Some? && s'.disk.value.config == Some(s.config))
    ensures NodeRuns(r, i, s')
  {
    hide Replay;
  }

  lemma BumpRuns(r: Race, i: NodeId, s: Server, term: nat) returns (r': Race)
    requires OddRace(r) && NodeRuns(r, i, s) && s.term < term
    ensures Moved(r, r', i) && NodeRuns(r', i, TransitionToFollower(s, term)) && r'.won == r.won
  {
    hide OddRace, RaceInv, Replay;
    r' := MoveServer(r, Bump(i, term), s, TransitionToFollower(s, term));
  }

  lemma AdoptRuns(r: Race, i: NodeId, s: Server, term: nat, leader: NodeId) returns (r': Race)
    requires OddRace(r) && NodeRuns(r, i, s) && s.term <= term && LeaderOf(r, term, leader)
    ensures Moved(r, r', i) && NodeRuns(r', i, AdoptLeader(s, term, leader)) && r'.won == r.won
  {
    hide OddRace, RaceInv, Replay;
    if s.term < term {
      var r1 := BumpRuns(r, i, s, term);
      var s1 := TransitionToFollower(s, term);
      r' := MoveServer(r1, Follow(i, leader), s1, AdoptLeader(s1, term, leader));
      MovedTransitive(r, r1, r', i);
      assert AdoptLeader(s1, term, leader) == AdoptLeader(s, term, leader);
    } else {
      r' := MoveServer(r, Follow(i, leader), s, AdoptLeader(s, term, leader));
    }
  }

  // ------------------------------------------------------------------ voting

  lemma AnswerRuns(r: Race, i: NodeId, s: Server, ask: VoteRequest) returns (r': Race)
    requires OddRace(r) && NodeRuns(r, i, s) && ask.term == s.term >= 1
    ensures var (s', vote) := ProcessRequestVote(s, ask);
      && Moved(r, r', i) && NodeRuns(r', i, s') && r'.won == r.won
      && (vote.granted ==> Vote(vote.term, i, ask.candidate) in r'.grants)
  {
    hide OddRace, RaceInv, Replay;
    var (s', vote) := ProcessRequestVote(s, ask);
    if vote.granted {
      ReplayOfState(s.wal, s.term, Some(ask.candidate));
      r' := MoveServer(r, Grant(i, ask.candidate), s, s');
    } else {
      r' := r;
      NoMove(r, i);
    }
  }

  lemma VoteAskRuns(r: Race, i: NodeId, s: Server, p: Packet) returns (r': Race)
    requires OddRace(r) && NodeRuns(r, i, s) && p.VoteAsk? && p.dst == i && PacketRuns(r, p)
    ensures var (s', sent) := Receive(s, p);
      Moved(r, r', i) && NodeRuns(r', i, s') && r'.won == r.won && forall q {:trigger PacketRuns(r', q)} :: q in sent ==> PacketRuns(r', q)
  {
    hide OddRace, RaceInv, Replay;
    var ask := p.ask;
    if ask.term < s.term || !ContainsNode(s.config, ask.candidate) {
      r' := r;
      NoMove(r, i);
    } else if ask.term > s.term {
      var r1 := BumpRuns(r, i, s, ask.term);
      var s1 := TransitionToFollower(s, ask.term);
      r' := AnswerRuns(r1, i, s1, ask);
      MovedTransitive(r, r1, r', i);
      assert ProcessRequestVote(s1, ask) == ProcessRequestVote(s, ask);
    } else {
      r' := AnswerRuns(r, i, s, ask);
    }
  }

  // --------------------------------------------------------------- elections

  lemma WinRuns(r: Race, i: NodeId, s: Server) returns (r': Race)
    requires OddRace(r) && NodeRuns(r, i, s) && s.role == Candidate && AtLeastHalf(r.members, s.votes)
    ensures Moved(r, r', i) && NodeRuns(r', i, TransitionToLeader(s)) && Crowned(r, r', i, TransitionToLeader(s))
  {
    hide OddRace, RaceInv, Replay;
    ReplayOfLog(s.wal, Append(Entry(LastLogIndex(s) + 1, s.term, Noop)));
    r' := MoveServer(r, Elect(i), s, TransitionToLeader(s));
  }

  lemma VoteReplyRuns(r: Race, i: NodeId, s: Server, p: Packet) returns (r': Race)
    requires OddRace(r) && NodeRuns(r, i, s) && p.VoteReply? && p.dst == i && PacketRuns(r, p)
    ensures var s' := ProcessRequestVoteResponse(s, p.src, p.vote);
      Moved(r, r', i) && NodeRuns(r', i, s') && Crowned(r, r', i, s')
  {
    hide OddRace, RaceInv, Replay;
    var vote := p.vote;
    r' := r;
    NoMove(r, i);
    if vote.term > s.term {
      r' := BumpRuns(r, i, s, vote.term);
    } else if s.role == Candidate && vote.term == s.term && vote.granted {
      var s1 := s.(votes := s.votes + {p.src});
      r' := MoveServer(r, Count(i, p.src), s, s1);
      if HasMajority(s1.config, i, s1.votes) {
        PassesIsAtLeastHalf(r.members, i, s1.votes);
        var r1 := r';
        r' := WinRuns(r1, i, s1);
        MovedTransitive(r, r1, r', i);
      }
    }
  }

  lemma TimeoutRuns(r: Race, i: NodeId, s: Server) returns (r': Race)
    requires OddRace(r) && NodeRuns(r, i, s) && s.role != Leader
    ensures var s' := TransitionToCandidate(s);
      Moved(r, r', i) && NodeRuns(r', i, s') && Crowned(r, r', i, s')
      && forall q {:trigger PacketRuns(r', q)} :: q in VoteAsks(s') ==> PacketRuns(r', q)
  {
    hide OddRace, RaceInv, Replay;
    ReplayOfState(s.wal, s.term + 1, Some(i));
    var s1 := Standing(s);
    r' := MoveServer(r, Campaign(i), s, s1);
    if Peers(s1) == {} {
      assert r.members == {i};
      var r1 := r';
      r' := WinRuns(r1, i, s1);
      MovedTransitive(r, r1, r', i);
      assert VoteAsks(TransitionToCandidate(s)) == {};
    }
  }

  // --------------------------------------------------- batches and applying

  lemma ApplyRuns(r: Race, i: NodeId, s: Server) returns (r': Race)
    requires OddRace(r) && NodeRuns(r, i, s)
    ensures Moved(r, r', i) && NodeRuns(r', i, ApplyLogs(s)) && r'.won == r.won
  {
    hide OddRace, RaceInv, Replay, ApplyLogs;
    NoChangeApplyLogs(s);
    ReplayOfStateAlone(s.term, s.votedFor);
    AppliedLog(s);
    if ApplyLogs(s).wal == s.wal {
      StillRuns(r, i, s, ApplyLogs(s));
      r' := r;
      NoMove(r, i);
    } else {
      r' := MoveServer(r, Save(i), s, ApplyLogs(s));
    }
  }

  lemma MergeOneRuns(r: Race, i: NodeId, s: Server, e: Entry)
    requires NodeRuns(r, i, s) && !e.payload.Change?
    ensures NodeRuns(r, i, MergeOne(s, e))
  {
    hide Replay;
    ReplayOfLog(s.wal, Append(e));
    ReplayOfLog(s.wal, Truncate(e.index));
    ReplayOfLog(s.wal + [Truncate(e.index)], Append(e));
    StillRuns(r, i, s, MergeOne(s, e));
  }

  lemma {:induction false} MergeRuns(r: Race, i: NodeId, s: Server, batch: seq<Entry>)
    requires NodeRuns(r, i, s) && NoChange(batch)
    ensures NodeRuns(r, i, MergeEntries(s, batch))
    decreases |batch|
  {
    hide NodeRuns, MergeOne;
    if batch != [] {
      assert !batch[0].payload.Change?;
      MergeOneRuns(r, i, s, batch[0]);
      assert NoChange(batch[1..]);
      MergeRuns(r, i, MergeOne(s, batch[0]), batch[1..]);
    }
  }

  lemma AppendAskRuns(r: Race, i: NodeId, s: Server, p: Packet) returns (r': Race)
    requires OddRace(r) && NodeRuns(r, i, s) && p.AppendAsk? && p.dst == i && PacketRuns(r, p)
    ensures var (s', sent) := Receive(s, p);
      Moved(r, r', i) && NodeRuns(r', i, s') && r'.won == r.won && forall q {:trigger PacketRuns(r', q)} :: q in sent ==> PacketRuns(r', q)
  {
    hide OddRace, RaceInv, Replay, ApplyLogs, MergeEntries, AdoptLeader;
    var req := p.batch;
    if req.term < s.term {
      r' := r;
      NoMove(r, i);
    } else {
      r' := AdoptRuns(r, i, s, req.term, req.leader);
      var s1 := AdoptLeader(s, req.term, req.leader);
      if req.prevLogIndex <= LastLogIndex(s1)
         && !(req.prevLogIndex >= s1.lastIncludedIndex && EntryTerm(s1, req.prevLogIndex) != req.prevLogTerm) {
        var s2 := MergeEntries(s1, req.entries);
        MergeRuns(r', i, s1, req.entries);
        if req.leaderCommit > s2.commitIndex {
          var s3 := s2.(commitIndex := if req.leaderCommit > LastLogIndex(s2) then LastLogIndex(s2) else req.leaderCommit);
          StillRuns(r', i, s2, s3);
          var r1 := r';
          r' := ApplyRuns(r1, i, s3);
          MovedTransitive(r, r1, r', i);
        }
      }
    }
  }

  lemma {:induction false} AdvanceRuns(r: Race, i: NodeId, s: Server, n: nat, last: nat) returns (r': Race)
    requires OddRace(r) && NodeRuns(r, i, s)
    ensures Moved(r, r', i) && NodeRuns(r', i, AdvanceLeader(s, n, last)) && r'.won == r.won
    decreases last + 1 - n
  {
    hide OddRace, RaceInv, Replay, ApplyLogs, CheckCommitMajority, EntryTerm;
    if n > last {
      r' := r;
      NoMove(r, i);
    } else if EntryTerm(s, n) == s.term && CheckCommitMajority(s, n) {
      StillRuns(r, i, s, s.(commitIndex := n));
      var r1 := ApplyRuns(r, i, s.(commitIndex := n));
      r' := AdvanceRuns(r1, i, ApplyLogs(s.(commitIndex := n)), n + 1, last);
      MovedTransitive(r, r1, r', i);
    } else {
      r' := AdvanceRuns(r, i, s, n + 1, last);
    }
  }

  lemma AckRuns(r: Race, i: NodeId, s: Server, p: Packet) returns (r': Race)
    requires OddRace(r) && NodeRuns(r, i, s) && p.AppendReply? && p.dst == i
    ensures Moved(r, r', i) && NodeRuns(r', i, ProcessAppendEntriesResponse(s, p.src, p.ack)) && r'.won == r.won
  {
    hide OddRace, RaceInv, Replay, AdvanceLeader;
    var ack := p.ack;
    r' := r;
    NoMove(r, i);
    if ack.term > s.term {
      r' := BumpRuns(r, i, s, ack.term);
    } else if s.role == Leader && ack.term == s.term && ack.success {
      var s1 := s.(matchIndex := s.matchIndex[p.src := ack.matchIndex], nextIndex := s.nextIndex[p.src := ack.matchIndex + 1]);
      StillRuns(r, i, s, s1);
      r' := AdvanceRuns(r, i, s1, s1.commitIndex + 1, LastLogIndex(s1));
    } else {
      StillRuns(r, i, s, ProcessAppendEntriesResponse(s, p.src, p.ack));
    }
  }

  // ----------------------------------------------------- clients and restarts

  lemma ClientRuns(r: Race, i: NodeId, s: Server, id: nat, cmd: Command) returns (r': Race)
    requires OddRace(r) && NodeRuns(r, i, s)
    ensures Moved(r, r', i) && NodeRuns(r', i, HandleClientCommand(s, id, cmd)) && r'.won == r.won
  {
    hide OddRace, RaceInv, Replay, ApplyLogs, CheckCommitMajority;
    r' := r;
    NoMove(r, i);
    if s.role != Leader {
      StillRuns(r, i, s, s.(answers := s.answers + [Answer(id, false)]));
    } else {
      var e := Entry(LastLogIndex(s) + 1, s.term, Op(cmd));
      var s1 := s.(log := s.log + [e], wal := s.wal + [Append(e)],
                   proposals := s.proposals + [Proposal(e.index, e.term, id)]);
      ReplayOfLog(s.wal, Append(e));
      StillRuns(r, i, s, s1);
      if Peers(s1) == {} && CheckCommitMajority(s1, e.index) {
        StillRuns(r, i, s1, s1.(commitIndex := e.index));
        r' := ApplyRuns(r, i, s1.(commitIndex := e.index));
      }
    }
  }

  lemma {:induction false} BelowQuiet(entries: seq<Entry>, index: nat)
    requires NoChange(entries)
    ensures NoChange(Below(entries, index))
  {
    if entries != [] {
      assert !entries[0].payload.Change?;
      assert forall k {:trigger entries[1..][k]} :: 0 <= k < |entries| - 1 ==> entries[1..][k] == entries[k + 1];
      BelowQuiet(entries[1..], index);
    }
  }

  lemma {:induction false} AfterQuiet(entries: seq<Entry>, index: nat)
    requires NoChange(entries)
    ensures NoChange(After(entries, index))
  {
    if entries != [] {
      assert !entries[0].payload.Change?;
      assert forall k {:trigger entries[1..][k]} :: 0 <= k < |entries| - 1 ==> entries[1..][k] == entries[k + 1];
      AfterQuiet(entries[1..], index);
    }
  }

  /** A journal without membership changes replays to a log without them, however it was cut. */
  lemma {:induction false} ReplayQuiet(wal: seq<Record>)
    requires QuietJournal(wal)
    ensures NoChange(Replay(wal).entries)
    decreases |wal|
  {
    if wal != [] {
      var rec, before := wal[|wal| - 1], wal[..|wal| - 1];
      assert forall k {:trigger before[k]} :: 0 <= k < |before| ==> before[k] == wal[k];
      ReplayQuiet(before);
      match rec
      case State(_, _) =>
      case Append(e) =>
      case Truncate(index) => BelowQuiet(Replay(before).entries, index);
    }
  }

  lemma RecoveredRuns(r: Race, i: NodeId, s: Server) returns (r': Race)
    requires OddRace(r) && NodeRuns(r, i, s)
    ensures Moved(r, r', i) && NodeRuns(r', i, Recovered(s.id, s.config, s.threshold, s.disk, s.wal, Replay(s.wal))) && r'.won == r.won
  {
    ReplayQuiet(s.wal);
    AfterQuiet(Replay(s.wal).entries, Recovered(s.id, s.config, s.threshold, s.disk, s.wal, Replay(s.wal)).lastIncludedIndex);
    hide OddRace, RaceInv, Replay, NoChange, QuietJournal;
    var a := Crash(i);
    r' := Apply(r, a);
    MoveMoves(r, a);
  }

  lemma RebootRuns(r: Race, i: NodeId, s: Server) returns (r': Race)
    requires OddRace(r) && NodeRuns(r, i, s)
    ensures Moved(r, r', i) && NodeRuns(r', i, LoadState(s.id, s.config, s.threshold, s.disk, s.wal)) && r'.won == r.won
  {
    hide RaceInv, Replay, ApplyLogs, NodeRuns, OddRace;
    var r1 := RecoveredRuns(r, i, s);
    r' := ApplyRuns(r1, i, Recovered(s.id, s.config, s.threshold, s.disk, s.wal, Replay(s.wal)));
    MovedTransitive(r, r1, r', i);
  }

  // -------------------------------------------------------------- whole runs

  lemma LeaderIsElected(r: Race, i: NodeId, s: Server)
    requires OddRace(r) && NodeRuns(r, i, s) && s.role == Leader
    ensures LeaderOf(r, s.term, i)
  {
    hide Replay;
    assert LeaderElected(r, i);
  }

  lemma DeliverRuns(r: Race, i: NodeId, s: Server, p: Packet) returns (r': Race)
    requires OddRace(r) && NodeRuns(r, i, s) && p.dst == i && PacketRuns(r, p)
    ensures var (s', sent) := Receive(s, p);
      && Moved(r, r', i) && NodeRuns(r', i, s') && Crowned(r, r', i, s')
      && forall q {:trigger PacketRuns(r', q)} :: q in sent ==> PacketRuns(r', q)
  {
    hide OddRace, RaceInv, NodeRuns, Moved, PacketRuns;
    match p
    case VoteAsk(_, _, _) => r' := VoteAskRuns(r, i, s, p);
    case VoteReply(_, _, _) => r' := VoteReplyRuns(r, i, s, p);
    case AppendAsk(_, _, _) => r' := AppendAskRuns(r, i, s, p);
    case AppendReply(_, _, _) => r' := AckRuns(r, i, s, p);
  }

  lemma LeaderSends(r: Race, i: NodeId, s: Server, peer: NodeId)
    requires OddRace(r) && NodeRuns(r, i, s) && s.role == Leader
    ensures CanReplicate(s, peer) ==> PacketRuns(r, AppendAsk(i, peer, ReplicateTo(s, peer)))
    ensures PacketRuns(r, AppendAsk(i, peer, ReadProbe(s)))
  {
    hide OddRace, RaceInv, Replay;
    LeaderIsElected(r, i, s);
    if CanReplicate(s, peer) {
      RetainedQuiet(s, s.nextIndex[peer]);
    }
  }

  lemma ReactRuns(r: Race, i: NodeId, s: Server, e: Event, net: Net) returns (r': Race)
    requires Races(r, net) && Possible(net, e) && e.i == i && s == net.servers[i]
    ensures var (s', sent) := React(s, e);
      && Moved(r, r', i) && NodeRuns(r', i, s') && Crowned(r, r', i, s')
      && forall q {:trigger PacketRuns(r', q)} :: q in sent ==> PacketRuns(r', q)
  {
    hide OddRace, RaceInv, Moved, Receive, PacketRuns;
    assert NodeRuns(r, i, net.servers[i]);
    hide NodeRuns;
    NoMove(r, i);
    match e
    case Timeout(_) => r' := TimeoutRuns(r, i, s);
    case Deliver(_, p) =>
      assert PacketRuns(r, p);
      r' := DeliverRuns(r, i, s, p);
    case Replicate(_, peer) =>
      r' := r;
      LeaderSends(r, i, s, peer);
    case Probe(_, peer) =>
      r' := r;
      LeaderSends(r, i, s, peer);
    case Client(_, id, cmd) => r' := ClientRuns(r, i, s, id, cmd);
    case Reboot(_) => r' := RebootRuns(r, i, s);
  }

  lemma OthersRun(r: Race, r': Race, i: NodeId, j: NodeId, s: Server)
    requires Moved(r, r', i) && j != i && NodeRuns(r, j, s)
    ensures NodeRuns(r', j, s)
  {
    hide OddRace, RaceInv, Replay;
    assert SameBallot(r, r', j);
  }

  lemma PacketStays(r: Race, r': Race, p: Packet)
    requires Extends(r, r') && PacketRuns(r, p)
    ensures PacketRuns(r', p)
  {
  }

  lemma StepRuns(r: Race, net: Net, e: Event) returns (r': Race)
    requires Races(r, net) && Possible(net, e)
    ensures Races(r', Step(net, e)) && Extends(r, r')
    ensures e.i in Step(net, e).servers && Crowned(r, r', e.i, Step(net, e).servers[e.i])
  {
    hide OddRace, RaceInv, React, NodeRuns, PacketRuns;
    r' := ReactRuns(r, e.i, net.servers[e.i], e, net);
    var net' := Step(net, e);
    forall j | j in net'.servers ensures NodeRuns(r', j, net'.servers[j]) {
      if j != e.i {
        assert NodeRuns(r, j, net.servers[j]);
        OthersRun(r, r', e.i, j, net.servers[j]);
      }
    }
    forall p | p in net'.packets ensures PacketRuns(r', p) {
      if p in net.packets {
        assert PacketRuns(r, p);
        PacketStays(r, r', p);
      }
    }
  }

  lemma InitialRuns(net: Net, members: set<NodeId>)
    requires |members| % 2 == 1 && Initial(net, members)
    ensures Races(Start(members), net)
  {
    StartInv(members);
    hide RaceInv, NodeRuns, Fresh, Start, Steady;
    StartMembers(members);
    forall i | i in net.servers ensures NodeRuns(Start(members), i, net.servers[i]) {
      assert NeverRan(net, members, i);
      FreshRuns(members, i, net.servers[i]);
    }
  }

  lemma StartMembers(members: set<NodeId>)
    ensures Start(members).members == members
  {
  }

  lemma FreshRuns(members: set<NodeId>, i: NodeId, s: Server)
    requires i in members && Steady(s.config, members) && s == Fresh(i, s.config, s.threshold)
    ensures NodeRuns(Start(members), i, s)
  {
    assert Replay([]) == Replayed(0, None, []);
    hide Replay;
  }

  lemma ShorterCrashRun(members: set<NodeId>, nets: seq<Net>, events: seq<Event>, n: nat)
    requires Run(members, nets, events) && n < |events|
    ensures Run(members, nets[..n + 1], events[..n])
  {
    hide Possible, Step, Initial;
    forall k {:trigger events[..n][k]} | 0 <= k < n
      ensures Possible(nets[..n + 1][k], events[..n][k])
      ensures nets[..n + 1][k + 1] == Step(nets[..n + 1][k], events[..n][k])
    {
      assert events[..n][k] == events[k];
    }
  }

  predicate LeadsAt(net: Net, i: NodeId, term: nat) {
    i in net.servers && net.servers[i].role == Leader && net.servers[i].term == term
  }

  /** Node `i` leads the term somewhere in the run. */
  ghost predicate Led(nets: seq<Net>, i: NodeId, term: nat) {
    exists b: nat {:trigger nets[b]} :: b < |nets| && LeadsAt(nets[b], i, term)
  }

  /** The races behind a run: one per state, each extending the ones before; and who won a term led it. */
  ghost predicate RacesBehind(rs: seq<Race>, nets: seq<Net>) {
    && |rs| == |nets|
    && (forall k {:trigger rs[k]} :: 0 <= k < |rs| ==> Races(rs[k], nets[k]))
    && (forall k {:trigger rs[k]} :: 0 <= k < |rs| ==> Extends(rs[k], rs[|rs| - 1]))
    && (rs != [] ==> forall t {:trigger rs[|rs| - 1].won[t]} :: t in rs[|rs| - 1].won ==> Led(nets, rs[|rs| - 1].won[t].leader, t))
  }

  lemma ExtendsTransitive(r0: Race, r1: Race, r2: Race)
    requires Extends(r0, r1) && Extends(r1, r2)
    ensures Extends(r0, r2)
  {
  }

  lemma LedLonger(nets: seq<Net>, net: Net, i: NodeId, term: nat)
    requires Led(nets, i, term)
    ensures Led(nets + [net], i, term)
  {
    var b: nat :| b < |nets| && LeadsAt(nets[b], i, term);
    assert (nets + [net])[b] == nets[b];
  }

  lemma FollowsOneMore(rs: seq<Race>, nets: seq<Net>, r: Race, net: Net, i: NodeId)
    requires RacesBehind(rs, nets) && rs != [] && Races(r, net) && Extends(rs[|rs| - 1], r)
    requires i in net.servers && Crowned(rs[|rs| - 1], r, i, net.servers[i])
    ensures RacesBehind(rs + [r], nets + [net])
  {
    hide Races;
    var rs' := rs + [r];
    forall k {:trigger rs'[k]} | 0 <= k < |rs'| ensures Extends(rs'[k], r) && Races(rs'[k], (nets + [net])[k]) {
      if k < |rs| {
        assert Extends(rs[k], rs[|rs| - 1]) && Races(rs[k], nets[k]);
        ExtendsTransitive(rs[k], rs[|rs| - 1], r);
      }
    }
    var before := rs[|rs| - 1];
    forall t {:trigger r.won[t]} | t in r.won ensures Led(nets + [net], r.won[t].leader, t) {
      if t in before.won {
        assert r.won[t] == before.won[t];
        assert Led(nets, before.won[t].leader, t);
        LedLonger(nets, net, r.won[t].leader, t);
      } else {
        assert (nets + [net])[|nets|] == net && LeadsAt(net, i, t);
      }
    }
  }

  lemma {:induction false} RunRaces(members: set<NodeId>, nets: seq<Net>, events: seq<Event>) returns (rs: seq<Race>)
    requires Run(members, nets, events)
    ensures RacesBehind(rs, nets)
    decreases |events|
  {
    hide Races, Extends, Possible, Step, Initial;
    var n := |events|;
    if n == 0 {
      InitialRuns(nets[0], members);
      rs := [Start(members)];
      ExtendsItself(rs[0]);
    } else {
      var e := events[n - 1];
      ShorterCrashRun(members, nets, events, n - 1);
      rs := RunRaces(members, nets[..n], events[..n - 1]);
      assert Races(rs[n - 1], nets[..n][n - 1]);
      var r := StepRuns(rs[n - 1], nets[n - 1], e);
      FollowsOneMore(rs, nets[..n], r, nets[n], e.i);
      rs := rs + [r];
      assert nets[..n] + [nets[n]] == nets;
    }
  }

  lemma ExtendsItself(r: Race)
    ensures Extends(r, r)
  {
  }

  lemma LeaderInRun(rs: seq<Race>, nets: seq<Net>, a: nat, i: NodeId)
    requires RacesBehind(rs, nets) && a < |nets| && i in nets[a].servers && nets[a].servers[i].role == Leader
    ensures LeaderOf(rs[|rs| - 1], nets[a].servers[i].term, i)
  {
    hide OddRace, RaceInv, NodeRuns;
    assert Races(rs[a], nets[a]) && NodeRuns(rs[a], i, nets[a].servers[i]);
    LeaderIsElected(rs[a], i, nets[a].servers[i]);
    assert Extends(rs[a], rs[|rs| - 1]);
  }

  /** Election safety: over a whole run with restarts from any journal, a term has at most one leader. */
  lemma ElectionSafety(members: set<NodeId>, nets: seq<Net>, events: seq<Event>, a: nat, i: NodeId, b: nat, j: NodeId)
    requires Run(members, nets, events) && a < |nets| && b < |nets|
    requires i in nets[a].servers && nets[a].servers[i].role == Leader
    requires j in nets[b].servers && nets[b].servers[j].role == Leader
    requires nets[a].servers[i].term == nets[b].servers[j].term
    ensures i == j
  {
    hide Run, RacesBehind;
    var rs := RunRaces(members, nets, events);
    LeaderInRun(rs, nets, a, i);
    LeaderInRun(rs, nets, b, j);
  }

  /** Over a whole run, if a node's granted votes in one term go to two candidates, then one of them is
      elected: it leads the term somewhere in the run, as the only node that ever does. */
  lemma VotesGoToOneCandidateOrTheLeader(members: set<NodeId>, nets: seq<Net>, events: seq<Event>,
                                         p: Packet, q: Packet)
    requires Run(members, nets, events)
    requires p in nets[|events|].packets && p.VoteReply? && p.vote.granted
    requires q in nets[|events|].packets && q.VoteReply? && q.vote.granted
    requires p.src == q.src && p.vote.term == q.vote.term && p.dst != q.dst
    ensures Led(nets, p.dst, p.vote.term) || Led(nets, q.dst, p.vote.term)
    ensures forall b: nat, j {:trigger LeadsAt(nets[b], j, p.vote.term)} ::
      b < |nets| && LeadsAt(nets[b], j, p.vote.term) ==> j == p.dst || j == q.dst
  {
    var rs := RunRaces(members, nets, events);
    var r := rs[|events|];
    assert Races(r, nets[|events|]);
    assert PacketRuns(r, p) && PacketRuns(r, q);
    var t := p.vote.term;
    assert SameChoice(r, Vote(t, p.src, p.dst), Vote(t, p.src, q.dst));
    assert t in r.won && (r.won[t].leader == p.dst || r.won[t].leader == q.dst);
    hide Races, Run, RaceInv, Led;
    assert Led(nets, r.won[t].leader, t);
    hide RacesBehind;
    forall b: nat, j | b < |nets| && LeadsAt(nets[b], j, t)
      ensures j == p.dst || j == q.dst
    {
      LeaderInRun(rs, nets, b, j);
    }
  }
}
