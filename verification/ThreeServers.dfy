/** Runs of three servers, written as programs: each step is a step of `Cluster`, and the state it leads
    to is proved.  The opening is shared: server 0 wins term 1, takes a write and commits it. */
module ThreeServers {
  import opened Config
  import opened Log
  import opened Wal
  import opened KeyValue
  import opened Election
  import opened ServerSpec
  import opened Cluster

  const THREE: set<NodeId> := {0, 1, 2}

  function Three(): ClusterConfig {
    ClusterConfig(map[], map[0 := "a", 1 := "b", 2 := "c"], map[], map[], false)
  }

  function PutX(): Command {
    Command("PUT", "x", "new", "", 0)
  }

  const FIRST: Entry := Entry(1, 1, Noop)
  const WRITE: Entry := Entry(2, 1, Op(PutX()))

  // ----------------------------------------------------------------- the states

  /** Only server 1 compacts, at the smallest threshold. */
  function Idle(i: NodeId): Server {
    Fresh(i, Three(), if i == 1 then 1 else 0)
  }

  /** Server 0: stands, wins term 1, takes the write, commits it. */
  function Zero(stage: nat): Server {
    if stage == 0 then Idle(0)
    else if stage == 1 then
      Idle(0).(role := Candidate, term := 1, votedFor := Some(0), votes := {0}, wal := [State(1, Some(0))])
    else if stage == 2 then
      Idle(0).(role := Leader, term := 1, votedFor := Some(0), votes := {0, 1}, connected := {1, 2},
               nextIndex := map[1 := 1, 2 := 1], matchIndex := map[1 := 0, 2 := 0],
               log := [FIRST], wal := [State(1, Some(0)), Append(FIRST)])
    else if stage == 3 then
      Idle(0).(role := Leader, term := 1, votedFor := Some(0), votes := {0, 1}, connected := {1, 2},
               nextIndex := map[1 := 1, 2 := 1], matchIndex := map[1 := 0, 2 := 0], proposals := [Proposal(2, 1, 7)],
               log := [FIRST, WRITE], wal := [State(1, Some(0)), Append(FIRST), Append(WRITE)])
    else
      Idle(0).(role := Leader, term := 1, votedFor := Some(0), votes := {0, 1}, connected := {1, 2},
               nextIndex := map[1 := 3, 2 := 1], matchIndex := map[1 := 2, 2 := 0], answers := [Answer(7, true)],
               commitIndex := 2, lastApplied := 2, store := Store(map["x" := "new"], map[]),
               log := [FIRST, WRITE], wal := [State(1, Some(0)), Append(FIRST), Append(WRITE)])
  }

  /** Server 1: votes for server 0, takes both entries. */
  function One(stage: nat): Server {
    if stage == 0 then Idle(1)
    else if stage == 1 then Idle(1).(term := 1, votedFor := Some(0), wal := [State(1, Some(0))])
    else
      Idle(1).(term := 1, votedFor := Some(0), log := [FIRST, WRITE],
               wal := [State(1, Some(0)), Append(FIRST), Append(WRITE)])
  }

  /** Server 2: takes both entries. */
  function Two(stage: nat): Server {
    if stage == 0 then Idle(2)
    else Idle(2).(term := 1, votedFor := Some(0), log := [FIRST, WRITE], wal := [Append(FIRST), Append(WRITE)])
  }

  /** Server 2, having voted for server 1 in term 2. */
  function Voter(): Server {
    Idle(2).(term := 2, votedFor := Some(1), log := [FIRST, WRITE],
             wal := [Append(FIRST), Append(WRITE), State(2, Some(1))])
  }

  // --------------------------------------------------------------- the messages

  function AskOne(): Packet { VoteAsk(0, 1, VoteRequest(1, 0, 0, 0)) }
  function YesOne(): Packet { VoteReply(1, 0, VoteResponse(1, true)) }
  function Both(peer: NodeId): Packet { AppendAsk(0, peer, AppendRequest(1, 0, 0, 0, [FIRST, WRITE], 0)) }
  function TookBoth(peer: NodeId): Packet { AppendReply(peer, 0, AppendResponse(1, true, 2)) }
  function AskTwo(): Packet { VoteAsk(1, 2, VoteRequest(2, 1, 2, 1)) }
  function YesTwo(): Packet { VoteReply(2, 1, VoteResponse(2, true)) }

  // ----------------------------------------------------------- handler by handler

  function Inbox(e: Event): set<Packet> {
    if e.Deliver? then {e.p} else {}
  }

  /** Server `s` can take step `e`, to become `s'` and send at least `out`. */
  predicate Takes(s: Server, e: Event, s': Server, out: Option<Packet>) {
    && Possible(Net(map[s.id := s], Inbox(e)), e) && e.i == s.id
    && React(s, e).0 == s' && (out.Some? ==> out.value in React(s, e).1)
  }

  lemma Peers3(s: Server)
    requires s.config == Three() && s.id < 3
    ensures Peers(s) == THREE - {s.id}
  {
  }

  lemma TwoOfThree(i: NodeId, j: NodeId)
    requires i < 3 && j < 3 && i != j
    ensures HasMajority(Three(), i, {i, j})
  {
    assert Three().newPeers.Keys == THREE;
    assert {i, j} * THREE == {i, j};
  }

  /** With an empty queue, stepping down refuses nobody. */
  lemma Demoted(s: Server, term: nat)
    requires s.proposals == []
    ensures TransitionToFollower(s, term) == s.(role := Follower, term := term, votedFor := None)
  {
    assert Refusals([]) == [];
    assert s.answers + [] == s.answers;
  }

  lemma Adopted(s: Server, term: nat, leader: NodeId)
    requires s.proposals == [] && s.role == Follower && s.term <= term
    ensures AdoptLeader(s, term, leader) == s.(term := term, votedFor := Some(leader))
  {
    Demoted(s, term);
  }

  /** A follower of three votes in a new term for a candidate whose log is up to date. */
  lemma Votes(s: Server, ask: VoteRequest)
    requires s.config == Three() && ask.candidate < 3 && ask.term > s.term && s.role == Follower && s.proposals == []
    requires LogOk(s, ask.lastLogIndex, ask.lastLogTerm)
    ensures ProcessRequestVote(s, ask) ==
      (s.(term := ask.term, votedFor := Some(ask.candidate), wal := s.wal + [State(ask.term, Some(ask.candidate))]),
       VoteResponse(ask.term, true))
  {
    Demoted(s, ask.term);
  }

  lemma ZeroStands()
    ensures Takes(Zero(0), Timeout(0), Zero(1), Some(AskOne()))
  {
    Peers3(Zero(1));
    assert Standing(Zero(0)) == Zero(1);
    assert 1 in Peers(Zero(1));
  }

  lemma OneVotes()
    ensures Takes(One(0), Deliver(1, AskOne()), One(1), Some(YesOne()))
  {
    hide ProcessRequestVote;
    Votes(One(0), AskOne().ask);
    assert One(0).wal + [State(1, Some(0))] == One(1).wal;
  }

  /** Two votes of three, and the candidate leads. */
  lemma Wins(s: Server, peer: NodeId)
    requires s.config == Three() && s.id < 3 && peer < 3 && s.id != peer && s.role == Candidate && s.votes == {s.id}
    ensures ProcessRequestVoteResponse(s, peer, VoteResponse(s.term, true)) == TransitionToLeader(s.(votes := {s.id, peer}))
  {
    TwoOfThree(s.id, peer);
    assert {s.id} + {peer} == {s.id, peer};
  }

  lemma ZeroWins()
    ensures Takes(Zero(1), Deliver(0, YesOne()), Zero(2), None)
  {
    hide HasMajority, TransitionToLeader;
    Wins(Zero(1), 1);
    ZeroLeads();
  }

  lemma ZeroLeads()
    ensures TransitionToLeader(Zero(1).(votes := {0, 1})) == Zero(2)
  {
    var s := Zero(1).(votes := {0, 1});
    Peers3(s);
    assert Peers(s) == {1, 2};
    assert SetAll(map[], {1, 2}, 1) == map[1 := 1, 2 := 1];
    assert SetAll(map[], {1, 2}, 0) == map[1 := 0, 2 := 0];
  }

  lemma ZeroTakesWrite()
    ensures Takes(Zero(2), Client(0, 7, PutX()), Zero(3), None)
  {
    var s := Zero(2);
    Peers3(s);
    assert 1 in Peers(s) && LastLogIndex(s) == 1;
    assert s.log + [WRITE] == Zero(3).log && s.wal + [Append(WRITE)] == Zero(3).wal;
    assert s.proposals + [Proposal(2, 1, 7)] == Zero(3).proposals;
  }

  lemma HeldBoth(s: Server)
    requires s.log == [FIRST, WRITE] && s.lastIncludedIndex == 0
    ensures Retained(s, 1) == [FIRST, WRITE] && LastLogIndex(s) == 2
  {
    assert Retained(s, 3) == [];
    assert Retained(s, 2) == [WRITE];
  }

  lemma ZeroSends(peer: NodeId)
    requires peer == 1 || peer == 2
    ensures Takes(Zero(3), Replicate(0, peer), Zero(3), Some(Both(peer)))
  {
    Peers3(Zero(3));
    HeldBoth(Zero(3));
  }

  lemma MergedBoth(s: Server)
    requires s.log == [] && s.lastIncludedIndex == 0
    ensures MergeEntries(s, [FIRST, WRITE]) == s.(log := [FIRST, WRITE], wal := s.wal + [Append(FIRST)] + [Append(WRITE)])
  {
    var s1 := s.(log := [FIRST], wal := s.wal + [Append(FIRST)]);
    assert MergeOne(s, FIRST) == s1;
    var s2 := s.(log := [FIRST, WRITE], wal := s.wal + [Append(FIRST)] + [Append(WRITE)]);
    assert MergeOne(s1, WRITE) == s2;
    assert [FIRST, WRITE][1..] == [WRITE] && [WRITE][1..] == [];
    assert MergeEntries(s2, []) == s2;
    assert MergeEntries(s1, [WRITE]) == s2;
  }

  /** A follower with an empty log takes both entries of term 1. */
  lemma TakesBoth(s: Server, peer: NodeId)
    requires s.log == [] && s.lastIncludedIndex == 0 && s.lastIncludedTerm == 0
    requires s.role == Follower && s.term <= 1 && s.proposals == []
    ensures ProcessAppendEntries(s, Both(peer).batch) ==
      (s.(term := 1, votedFor := Some(0), log := [FIRST, WRITE], wal := s.wal + [Append(FIRST)] + [Append(WRITE)]),
       AppendResponse(1, true, 2))
  {
    hide MergeEntries, AdoptLeader;
    Adopted(s, 1, 0);
    MergedBoth(s.(term := 1, votedFor := Some(0)));
  }

  lemma OneTakesBoth()
    ensures Takes(One(1), Deliver(1, Both(1)), One(2), Some(TookBoth(1)))
  {
    hide ProcessAppendEntries;
    TakesBoth(One(1), 1);
    assert One(1).wal + [Append(FIRST)] + [Append(WRITE)] == One(2).wal;
  }

  lemma TwoTakesBoth()
    ensures Takes(Two(0), Deliver(2, Both(2)), Two(1), None)
  {
    hide ProcessAppendEntries;
    TakesBoth(Two(0), 2);
    assert Two(0).wal + [Append(FIRST)] + [Append(WRITE)] == Two(1).wal;
  }

  /** What server 0 believes after the acknowledgement, and before it commits. */
  function Counted(): Server {
    Zero(3).(matchIndex := map[1 := 2, 2 := 0], nextIndex := map[1 := 3, 2 := 1])
  }

  lemma BothCounted(s: Server, n: nat)
    requires 1 <= n <= 2 && s.config == Three() && s.id == 0 && s.matchIndex == map[1 := 2, 2 := 0]
    ensures CheckCommitMajority(s, n)
  {
    assert {s.id} + (set p | p in s.matchIndex && s.matchIndex[p] >= n) == {0, 1};
    TwoOfThree(0, 1);
  }

  lemma OneApplied(s: Server, s1: Server)
    requires s.lastApplied + 1 == s.commitIndex && ApplyNext(s) == s1
    ensures ApplyAll(s) == s1
  {
    assert ApplyAll(s1) == s1;
  }

  /** Applying the last commit of a queue with one request, when nothing is compacted. */
  lemma OnlyProposal(s: Server)
    requires |s.proposals| == 1 && s.threshold == 0
    ensures var p := s.proposals[0];
      CompleteProposals(Compact(s)) ==
        if p.index <= s.commitIndex then s.(answers := s.answers + [Answer(p.id, p.term == EntryTerm(s, p.index))], proposals := [])
        else s
  {
    var p := s.proposals[0];
    assert s.proposals == [p] && [p][1..] == [];
    assert Due(s, []) == [] && Waiting(s, []) == [];
    assert s.answers + [] == s.answers;
  }

  /** Committing a no-op that nobody waits for. */
  lemma NoopCommits(s: Server)
    requires |s.proposals| == 1 && s.proposals[0].index > s.commitIndex && s.threshold == 0
    requires s.lastApplied + 1 == s.commitIndex && GetEntry(s, s.commitIndex) == Some(FIRST)
    ensures ApplyLogs(s) == s.(lastApplied := s.commitIndex)
  {
    var s1 := s.(lastApplied := s.commitIndex);
    assert GetEntry(s1, s.commitIndex) == Some(FIRST);
    OneApplied(s, s1);
    OnlyProposal(s1);
  }

  lemma FirstCommits()
    ensures ApplyLogs(Counted().(commitIndex := 1)) == Counted().(commitIndex := 1, lastApplied := 1)
  {
    hide ApplyLogs;
    NoopCommits(Counted().(commitIndex := 1));
  }

  lemma WriteCommits()
    ensures ApplyLogs(Counted().(commitIndex := 2, lastApplied := 1)) == Zero(4)
  {
    var s := Counted().(commitIndex := 2, lastApplied := 1);
    assert GetEntry(s, 2) == Some(WRITE);
    var s1 := s.(lastApplied := 2, store := Store(map["x" := "new"], map[]));
    assert ApplyCommand(EmptyStore(), PutX()) == s1.store;
    OneApplied(s, s1);
    assert GetEntry(s1, 2) == Some(WRITE);
    OnlyProposal(s1);
  }

  lemma BothCommit()
    ensures AdvanceLeader(Counted(), 1, 2) == Zero(4)
  {
    hide ApplyLogs, CheckCommitMajority;
    var s := Counted();
    var s1 := s.(commitIndex := 1, lastApplied := 1);
    BothCounted(s, 1);
    BothCounted(s1, 2);
    FirstCommits();
    WriteCommits();
    assert EntryTerm(s, 1) == 1 && EntryTerm(s1, 2) == 1;
    assert AdvanceLeader(Zero(4), 3, 2) == Zero(4);
    assert AdvanceLeader(s1, 2, 2) == Zero(4);
  }

  lemma ZeroCommits()
    ensures Takes(Zero(3), Deliver(0, TookBoth(1)), Zero(4), None)
  {
    hide AdvanceLeader;
    BothCommit();
    assert Zero(3).matchIndex[1 := 2] == Counted().matchIndex && Zero(3).nextIndex[1 := 3] == Counted().nextIndex;
  }

  lemma TwoVotes()
    ensures Takes(Two(1), Deliver(2, AskTwo()), Voter(), Some(YesTwo()))
  {
    hide ProcessRequestVote;
    Votes(Two(1), AskTwo().ask);
    assert Two(1).wal + [State(2, Some(1))] == Voter().wal;
  }

  // --------------------------------------------------------------------- the run

  /** A run so far, and the three servers it has led to. */
  ghost predicate At(nets: seq<Net>, events: seq<Event>, z: Server, o: Server, t: Server) {
    && |nets| == |events| + 1 && Run(THREE, nets, events)
    && nets[|events|].servers == map[0 := z, 1 := o, 2 := t]
  }

  predicate Sent(nets: seq<Net>, p: Packet) {
    nets != [] && p in nets[|nets| - 1].packets
  }

  ghost predicate IsAt(nets: seq<Net>, k: nat, z: Server, o: Server, t: Server) {
    k < |nets| && nets[k].servers == map[0 := z, 1 := o, 2 := t]
  }

  /** One more step: what was sent stays sent. */
  ghost predicate Longer(nets: seq<Net>, events: seq<Event>, nets': seq<Net>, events': seq<Event>, e: Event) {
    && |nets'| == |nets| + 1 && nets' == nets + [nets'[|nets|]] && events' == events + [e]
    && forall p {:trigger Sent(nets', p)} {:trigger Sent(nets, p)} :: Sent(nets, p) ==> Sent(nets', p)
  }

  lemma RunGrows(nets: seq<Net>, events: seq<Event>, e: Event)
    requires |nets| == |events| + 1 && Run(THREE, nets, events) && Possible(nets[|events|], e)
    ensures Run(THREE, nets + [Step(nets[|events|], e)], events + [e])
  {
    hide Possible, Step, Initial;
    var nets', events' := nets + [Step(nets[|events|], e)], events + [e];
    forall k {:trigger events'[k]} | 0 <= k < |events'|
      ensures Possible(nets'[k], events'[k]) && nets'[k + 1] == Step(nets'[k], events'[k])
    {
      if k < |events| {
        assert events'[k] == events[k] && nets'[k] == nets[k] && nets'[k + 1] == nets[k + 1];
      }
    }
  }

  lemma Does(nets: seq<Net>, events: seq<Event>, z: Server, o: Server, t: Server, e: Event, s: Server, s': Server,
             out: Option<Packet>)
    returns (nets': seq<Net>, events': seq<Event>)
    requires At(nets, events, z, o, t) && e.i < 3 && s == (if e.i == 0 then z else if e.i == 1 then o else t)
    requires Takes(s, e, s', out) && (e.Deliver? ==> Sent(nets, e.p))
    ensures At(nets', events', if e.i == 0 then s' else z, if e.i == 1 then s' else o, if e.i == 2 then s' else t)
    ensures Longer(nets, events, nets', events', e) && (out.Some? ==> Sent(nets', out.value))
  {
    hide Run, React;
    var net := nets[|events|];
    assert net.servers[e.i] == s;
    assert Possible(net, e);
    RunGrows(nets, events, e);
    nets', events' := nets + [Step(net, e)], events + [e];
    assert nets'[|events'|] == Step(net, e);
  }

  lemma AtEnd(nets: seq<Net>, events: seq<Event>, z: Server, o: Server, t: Server)
    requires At(nets, events, z, o, t)
    ensures |nets| == |events| + 1 && IsAt(nets, |events|, z, o, t)
  {
  }

  lemma NoRebootIsSafe(nets: seq<Net>, events: seq<Event>, z: Server, o: Server, t: Server)
    requires At(nets, events, z, o, t) && NoReboot(events)
    ensures SafeRun(THREE, nets, events)
  {
    hide Possible, Step, Initial, CleanCrash;
  }

  lemma IdleIsFresh(i: NodeId)
    ensures var s := Idle(i); Steady(s.config, THREE) && s == Fresh(i, s.config, s.threshold)
  {
    assert Three().newPeers.Keys == THREE;
  }

  lemma IdleIsInitial(net: Net)
    requires net.packets == {} && net.servers.Keys == THREE
    requires forall i {:trigger net.servers[i]} :: i in THREE ==> net.servers[i] == Idle(i)
    ensures Initial(net, THREE)
  {
    hide Idle, Fresh, Steady;
    forall i | i in THREE ensures NeverRan(net, THREE, i) {
      IdleIsFresh(i);
    }
  }

  lemma RunOfNone(net: Net)
    requires Initial(net, THREE)
    ensures Run(THREE, [net], [])
  {
    hide Initial;
    assert |THREE| == 3;
  }

  lemma FirstStages()
    ensures Zero(0) == Idle(0) && One(0) == Idle(1) && Two(0) == Idle(2)
  {
  }

  lemma Begins() returns (nets: seq<Net>, events: seq<Event>)
    ensures At(nets, events, Zero(0), One(0), Two(0)) && events == []
  {
    hide Zero, One, Two, Idle, Run, Initial;
    FirstStages();
    var net := Net(map[0 := Idle(0), 1 := Idle(1), 2 := Idle(2)], {});
    assert net.servers.Keys == THREE;
    IdleIsInitial(net);
    RunOfNone(net);
    nets, events := [net], [];
  }

  lemma FirstElection() returns (nets: seq<Net>, events: seq<Event>)
    ensures At(nets, events, Zero(2), One(1), Two(0)) && |events| == 3 && NoReboot(events)
  {
    hide At, Takes, Sent, Zero, One, Two;
    nets, events := Begins();
    ZeroStands();
    nets, events := Does(nets, events, Zero(0), One(0), Two(0), Timeout(0), Zero(0), Zero(1), Some(AskOne()));
    OneVotes();
    nets, events := Does(nets, events, Zero(1), One(0), Two(0), Deliver(1, AskOne()), One(0), One(1), Some(YesOne()));
    ZeroWins();
    nets, events := Does(nets, events, Zero(1), One(1), Two(0), Deliver(0, YesOne()), Zero(1), Zero(2), None);
  }

  predicate NoReboot(events: seq<Event>) {
    forall k {:trigger events[k]} :: 0 <= k < |events| ==> !events[k].Reboot?
  }

  /** The opening: nine steps, after which the first write is committed and answered. */
  lemma Opening() returns (nets: seq<Net>, events: seq<Event>)
    ensures At(nets, events, Zero(4), One(2), Two(1)) && |events| == 9 && NoReboot(events)
  {
    hide At, Takes, Sent, Zero, One, Two;
    nets, events := FirstElection();
    ZeroTakesWrite();
    nets, events := Does(nets, events, Zero(2), One(1), Two(0), Client(0, 7, PutX()), Zero(2), Zero(3), None);
    ZeroSends(1);
    nets, events := Does(nets, events, Zero(3), One(1), Two(0), Replicate(0, 1), Zero(3), Zero(3), Some(Both(1)));
    ZeroSends(2);
    nets, events := Does(nets, events, Zero(3), One(1), Two(0), Replicate(0, 2), Zero(3), Zero(3), Some(Both(2)));
    OneTakesBoth();
    nets, events := Does(nets, events, Zero(3), One(1), Two(0), Deliver(1, Both(1)), One(1), One(2), Some(TookBoth(1)));
    TwoTakesBoth();
    nets, events := Does(nets, events, Zero(3), One(2), Two(0), Deliver(2, Both(2)), Two(0), Two(1), None);
    ZeroCommits();
    nets, events := Does(nets, events, Zero(3), One(2), Two(1), Deliver(0, TookBoth(1)), Zero(3), Zero(4), None);
  }
}
