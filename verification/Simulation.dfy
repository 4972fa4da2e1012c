/** Every step of a cluster of servers, compaction included, is a few steps of `Replication`. */
module Simulation {
  import opened Config
  import opened Log
  import opened Wal
  import opened Election
  import opened Replication
  import opened ReplicationProof
  import opened ServerSpec
  import opened Compaction
  import opened Cluster

  function BallotOf(s: Server): Ballot {
    Ballot(s.role, s.term, s.votedFor, s.votes, Replay(s.wal).term, Replay(s.wal).vote)
  }

  /** A leader never believes a follower to hold more than it acknowledged. */
  ghost predicate BooksSound(w: World, i: NodeId, s: Server) {
    && s.matchIndex.Keys <= Peers(s) && s.nextIndex.Keys <= Peers(s)
    && (s.role == Leader ==>
          && s.matchIndex.Keys == Peers(s) && s.nextIndex.Keys == Peers(s)
          && (forall p {:trigger s.matchIndex[p]} :: p in s.matchIndex ==>
                s.matchIndex[p] <= 0 || ((p, s.term) in w.acked && s.matchIndex[p] <= w.acked[(p, s.term)]))
          && (forall p {:trigger s.nextIndex[p]} :: p in s.nextIndex ==> 1 <= s.nextIndex[p] <= LastLogIndex(s) + 1))
  }

  /** Server `s` is node `i`, except that it may not have applied everything it committed. */
  ghost predicate Behind(w: World, i: NodeId, s: Server) {
    && i in w.race.ballots && i in w.logs && i in w.commits && i in w.race.members
    && s.id == i && Steady(s.config, w.race.members)
    && BallotOf(s) == w.race.ballots[i]
    && Compacted(s, w.logs[i]) && s.commitIndex == w.commits[i]
    && NoChange(w.logs[i])
    && DiskMatches(s, w.logs[i])
    && (s.disk.Some? && s.disk.value.config.Some? ==> Steady(s.disk.value.config.value, w.race.members))
    && BooksSound(w, i, s)
  }

  ghost predicate NodeSim(w: World, i: NodeId, s: Server) {
    Behind(w, i, s) && s.lastApplied == s.commitIndex
  }

  ghost predicate BatchOk(w: World, req: AppendRequest) {
    && req.term in w.race.won && w.race.won[req.term].leader == req.leader && req.term in w.reigns
    && var log := w.reigns[req.term];
       var upto := req.prevLogIndex + |req.entries|;
       && upto <= |log| && req.entries == log[req.prevLogIndex..upto]
       && TermAt(log, req.prevLogIndex) == req.prevLogTerm && TermAt(log, upto) == req.term
       && req.leaderCommit <= |log| && Covered(w, log, req.leaderCommit, req.term)
       && NoChange(req.entries)
  }

  ghost predicate PacketOk(w: World, p: Packet) {
    p.src != p.dst && p.src in w.race.members &&
    match p
    case VoteAsk(src, dst, ask) =>
      && ask.candidate == src && ask.term >= 1 && (ask.term, src) in w.stood
      && ask.lastLogIndex == |w.stood[(ask.term, src)]| && ask.lastLogTerm == LastTerm(w.stood[(ask.term, src)])
    case VoteReply(src, dst, vote) => vote.granted ==> Vote(vote.term, src, dst) in w.race.grants
    case AppendAsk(src, dst, batch) => batch.leader == src && BatchOk(w, batch)
    case AppendReply(src, dst, ack) =>
      if ack.success then (src, ack.term) in w.acked && 0 <= ack.matchIndex <= w.acked[(src, ack.term)]
      else ack.matchIndex <= 0 || (ack.term in w.reigns && ack.matchIndex <= |w.reigns[ack.term]|)
  }

  ghost predicate Sim(w: World, net: Net) {
    && WorldInv(w) && net.servers.Keys == w.race.members
    && (forall i {:trigger NodeSim(w, i, net.servers[i])} :: i in net.servers ==> NodeSim(w, i, net.servers[i]))
    && (forall p {:trigger PacketOk(w, p)} :: p in net.packets ==> PacketOk(w, p))
  }

  // --------------------------------------------- what the other nodes keep

  /** A few steps of node `i`. */
  ghost predicate Steps(w: World, w': World, i: NodeId) {
    && WorldInv(w') && Grows(w, w')
    && forall j {:trigger Untouched(w, w', j)} :: j in w.logs && j != i ==> Untouched(w, w', j)
  }

  lemma NoSteps(w: World, i: NodeId)
    requires WorldInv(w)
    ensures Steps(w, w, i)
  {
    assert Shape(w);
  }

  lemma StepsTransitive(w0: World, w1: World, w2: World, i: NodeId)
    requires Steps(w0, w1, i) && Steps(w1, w2, i)
    ensures Steps(w0, w2, i)
  {
    GrowsTransitive(w0, w1, w2);
    forall j | j in w0.logs && j != i ensures Untouched(w0, w2, j) {
      assert Untouched(w0, w1, j);
      assert Untouched(w1, w2, j);
    }
  }

  lemma ActSteps(w: World, a: Act)
    requires WorldInv(w) && Allowed(w, a)
    ensures Steps(w, Next(w, a), Who(a))
  {
    StepKeepsInv(w, a);
    forall j | j in w.logs && j != Who(a) ensures Untouched(w, Next(w, a), j) {
      OthersUntouched(w, a, j);
    }
  }

  lemma OthersSim(w: World, w': World, i: NodeId, j: NodeId, s: Server)
    requires Grows(w, w') && Untouched(w, w', j) && NodeSim(w, j, s)
    ensures NodeSim(w', j, s)
  {
    forall p {:trigger s.matchIndex[p]} | p in s.matchIndex && s.role == Leader
      ensures s.matchIndex[p] <= 0 || ((p, s.term) in w'.acked && s.matchIndex[p] <= w'.acked[(p, s.term)])
    {
      if s.matchIndex[p] > 0 {
        assert (p, s.term) in w'.acked;
      }
    }
  }

  lemma BatchGrows(w: World, w': World, req: AppendRequest)
    requires Grows(w, w') && BatchOk(w, req)
    ensures BatchOk(w', req)
  {
    var log, log' := w.reigns[req.term], w'.reigns[req.term];
    CoveredGrows(w, w', log, log', req.leaderCommit, req.term, req.term);
    assert req.term in w'.race.won;
  }

  lemma PacketGrows(w: World, w': World, p: Packet)
    requires Grows(w, w') && PacketOk(w, p)
    ensures PacketOk(w', p)
  {
    match p
    case VoteAsk(src, _, ask) => assert (ask.term, src) in w'.stood;
    case VoteReply(_, _, _) =>
    case AppendAsk(_, _, batch) => BatchGrows(w, w', batch);
    case AppendReply(src, _, ack) =>
      if ack.success {
        assert (src, ack.term) in w'.acked;
      } else if ack.matchIndex > 0 {
        assert ack.term in w'.reigns;
      }
  }
}
