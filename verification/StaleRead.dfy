/** Why a linearizable read needs its premise: a run of three servers in which a new leader serves a
    read that misses a write already answered with success.

    After the opening, server 1 wins term 2 with the vote of server 2, which has the write but does not
    know that it is committed; neither does server 1, so the commit index it samples is 0.  Server 2
    confirms its leadership, and the read is served. */
module StaleRead {
  import opened Config
  import opened Log
  import opened Wal
  import opened Election
  import opened ServerSpec
  import opened Cluster
  import opened ReadIndex
  import opened ThreeServers

  const SECOND: Entry := Entry(3, 2, Noop)

  // ----------------------------------------------------------------- the states

  /** Server 1 stands for term 2, and leads it. */
  function Candidacy(): Server {
    Idle(1).(role := Candidate, term := 2, votedFor := Some(1), votes := {1}, log := [FIRST, WRITE],
             wal := [State(1, Some(0)), Append(FIRST), Append(WRITE), State(2, Some(1))])
  }

  function NewLeader(): Server {
    Idle(1).(role := Leader, term := 2, votedFor := Some(1), votes := {1, 2}, connected := {0, 2},
             nextIndex := map[0 := 3, 2 := 3], matchIndex := map[0 := 0, 2 := 0], log := [FIRST, WRITE, SECOND],
             wal := [State(1, Some(0)), Append(FIRST), Append(WRITE), State(2, Some(1)), Append(SECOND)])
  }

  /** Server 2 takes the new leader's no-op. */
  function Confirmer(): Server {
    Idle(2).(term := 2, votedFor := Some(1), log := [FIRST, WRITE, SECOND],
             wal := [Append(FIRST), Append(WRITE), State(2, Some(1)), Append(SECOND)])
  }

  function Last(): Packet { AppendAsk(1, 2, AppendRequest(2, 1, 2, 1, [SECOND], 0)) }
  function Confirm(): Packet { AppendAsk(1, 2, AppendRequest(2, 1, 3, 2, [], 0)) }

  // ----------------------------------------------------------- handler by handler

  lemma OneStands()
    ensures Takes(One(2), Timeout(1), Candidacy(), Some(AskTwo()))
  {
    Peers3(Candidacy());
    assert Standing(One(2)) == Candidacy();
    assert 2 in Peers(Candidacy());
  }

  lemma OneWins()
    ensures Takes(Candidacy(), Deliver(1, YesTwo()), NewLeader(), None)
  {
    hide HasMajority, TransitionToLeader;
    Wins(Candidacy(), 2);
    OneLeads();
  }

  lemma OneLeads()
    ensures TransitionToLeader(Candidacy().(votes := {1, 2})) == NewLeader()
  {
    var s := Candidacy().(votes := {1, 2});
    Peers3(s);
    assert Peers(s) == {0, 2};
    assert SetAll(map[], {0, 2}, 3) == map[0 := 3, 2 := 3];
    assert SetAll(map[], {0, 2}, 0) == map[0 := 0, 2 := 0];
  }

  lemma OneSends()
    ensures Takes(NewLeader(), Replicate(1, 2), NewLeader(), Some(Last()))
  {
    Peers3(NewLeader());
    assert Retained(NewLeader(), 4) == [];
    assert Retained(NewLeader(), 3) == [SECOND];
  }

  lemma TwoTakesLast()
    ensures Takes(Voter(), Deliver(2, Last()), Confirmer(), None)
  {
    Adopted(Voter(), 2, 1);
    assert MergeOne(Voter(), SECOND) == Confirmer();
    assert [SECOND][1..] == [];
    assert MergeEntries(Confirmer(), []) == Confirmer();
    assert MergeEntries(Voter(), [SECOND]) == Confirmer();
  }

  lemma OneProbes()
    ensures Takes(NewLeader(), Probe(1, 2), NewLeader(), Some(Confirm()))
  {
    Peers3(NewLeader());
  }

  lemma TwoConfirms()
    ensures Takes(Confirmer(), Deliver(2, Confirm()), Confirmer(), None)
    ensures ProcessAppendEntries(Confirmer(), Confirm().batch).1.success
  {
    Adopted(Confirmer(), 2, 1);
    assert MergeEntries(Confirmer(), []) == Confirmer();
  }

  // --------------------------------------------------------------------- the run

  lemma SecondElection() returns (nets: seq<Net>, events: seq<Event>)
    ensures At(nets, events, Zero(4), NewLeader(), Voter()) && |events| == 12 && NoReboot(events)
    ensures IsAt(nets, 9, Zero(4), One(2), Two(1))
  {
    hide At, Takes, Sent, Zero, One, Two, Candidacy, NewLeader, Voter;
    nets, events := Opening();
    AtEnd(nets, events, Zero(4), One(2), Two(1));
    OneStands();
    nets, events := Does(nets, events, Zero(4), One(2), Two(1), Timeout(1), One(2), Candidacy(), Some(AskTwo()));
    TwoVotes();
    nets, events := Does(nets, events, Zero(4), Candidacy(), Two(1), Deliver(2, AskTwo()), Two(1), Voter(), Some(YesTwo()));
    OneWins();
    nets, events := Does(nets, events, Zero(4), Candidacy(), Voter(), Deliver(1, YesTwo()), Candidacy(), NewLeader(), None);
  }

  lemma NewLeaderIsHeard() returns (nets: seq<Net>, events: seq<Event>)
    ensures At(nets, events, Zero(4), NewLeader(), Confirmer()) && |events| == 14 && NoReboot(events)
    ensures IsAt(nets, 9, Zero(4), One(2), Two(1)) && IsAt(nets, 12, Zero(4), NewLeader(), Voter())
  {
    hide At, Takes, Sent, Zero, One, Two, NewLeader, Voter, Confirmer;
    nets, events := SecondElection();
    AtEnd(nets, events, Zero(4), NewLeader(), Voter());
    OneSends();
    nets, events := Does(nets, events, Zero(4), NewLeader(), Voter(), Replicate(1, 2), NewLeader(), NewLeader(), Some(Last()));
    TwoTakesLast();
    nets, events := Does(nets, events, Zero(4), NewLeader(), Voter(), Deliver(2, Last()), Voter(), Confirmer(), None);
  }

  lemma ReadRun() returns (nets: seq<Net>, events: seq<Event>)
    ensures SafeRun(THREE, nets, events) && |nets| == 17 && |events| == 16 && events[15] == Deliver(2, Confirm())
    ensures IsAt(nets, 9, Zero(4), One(2), Two(1)) && IsAt(nets, 12, Zero(4), NewLeader(), Voter())
    ensures IsAt(nets, 14, Zero(4), NewLeader(), Confirmer()) && IsAt(nets, 15, Zero(4), NewLeader(), Confirmer())
    ensures IsAt(nets, 16, Zero(4), NewLeader(), Confirmer())
  {
    hide At, Takes, Sent, Zero, One, Two, NewLeader, Voter, Confirmer, Confirm, SafeRun;
    nets, events := NewLeaderIsHeard();
    AtEnd(nets, events, Zero(4), NewLeader(), Confirmer());
    OneProbes();
    nets, events := Does(nets, events, Zero(4), NewLeader(), Confirmer(), Probe(1, 2), NewLeader(), NewLeader(), Some(Confirm()));
    AtEnd(nets, events, Zero(4), NewLeader(), Confirmer());
    TwoConfirms();
    nets, events := Does(nets, events, Zero(4), NewLeader(), Confirmer(), Deliver(2, Confirm()), Confirmer(), Confirmer(), None);
    AtEnd(nets, events, Zero(4), NewLeader(), Confirmer());
    NoRebootIsSafe(nets, events, Zero(4), NewLeader(), Confirmer());
  }

  // -------------------------------------------------------------------- the read

  lemma OldLeader()
    ensures var s := Zero(4);
      s.commitIndex == 2 && s.answers == [Answer(7, true)] && s.store.kv == map["x" := "new"]
  {
  }

  lemma KnowsNothing()
    ensures var s := NewLeader();
      s.role == Leader && s.term == 2 && s.config == Three() && s.commitIndex == s.lastApplied == 0 && s.store.kv == map[]
    ensures !NothingOlderWaits(NewLeader())
  {
    assert GetEntry(NewLeader(), 1) == Some(FIRST);
  }

  lemma IsConfirmed(net: Net, e: Event)
    requires 2 in net.servers && net.servers[2] == Confirmer() && e == Deliver(2, Confirm())
    ensures ConfirmedBy(net, e, 2, 2)
  {
    hide ProcessAppendEntries, Confirmer;
    TwoConfirms();
  }

  /** A leader of term 2 that nothing happens to while server 2 confirms it. */
  lemma ServesRead(nets: seq<Net>, events: seq<Event>, s: Server)
    requires |nets| == 17 && |events| == 16
    requires forall k {:trigger nets[k]} :: k == 12 || k == 14 || k == 16 ==> 1 in nets[k].servers && nets[k].servers[1] == s
    requires s.role == Leader && s.term == 2 && s.config == Three() && s.commitIndex <= s.lastApplied
    requires ConfirmedBy(nets[15], events[15], 2, 2)
    ensures Served(nets, events, 1, Read(12, 14, 16, 16, {1, 2}))
  {
    hide ConfirmedBy, HasMajority, Three;
    TwoOfThree(1, 2);
    assert Confirms(nets, events, 14, 16, 2, 2);
    assert 1 in nets[12].servers && 1 in nets[14].servers && 1 in nets[16].servers;
  }

  /** A read that the code serves, and that misses a write it has answered: server 0 committed entry 2
      and told its client so before server 1 sampled, confirmed and read. */
  lemma ReadsCanBeStale() returns (members: set<NodeId>, nets: seq<Net>, events: seq<Event>, i: NodeId, rd: Read, b: nat, j: NodeId)
    ensures SafeRun(members, nets, events) && |nets| == |events| + 1
    ensures i in members && j in members && Served(nets, events, i, rd) && b <= rd.sample
    ensures i in nets[rd.sample].servers && !NothingOlderWaits(nets[rd.sample].servers[i])
    ensures j in nets[b].servers && i in nets[rd.finish].servers
    ensures nets[b].servers[j].commitIndex > nets[rd.finish].servers[i].lastApplied
    ensures nets[b].servers[j].answers == [Answer(7, true)] && nets[b].servers[j].store.kv == map["x" := "new"]
    ensures nets[rd.finish].servers[i].store.kv == map[]
  {
    hide SafeRun, Served, NothingOlderWaits, Zero, One, Two, NewLeader, Voter, Confirmer, ConfirmedBy;
    members, i, rd, b, j := THREE, 1, Read(12, 14, 16, 16, {1, 2}), 9, 0;
    nets, events := ReadRun();
    OldLeader();
    KnowsNothing();
    IsConfirmed(nets[15], events[15]);
    ServesRead(nets, events, NewLeader());
  }
}
