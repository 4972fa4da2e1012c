/** Why restarts need a complete journal: a run of three servers in which a crash right after a
    compaction makes a committed and answered write disappear.

    After the opening, server 0 replicates a second write to server 1.  The same batch lets server 1
    commit the first write, so it compacts: the journal is reset and the second write, retained in
    memory only, is not written back.  Server 1 acknowledges it, server 0 commits it and answers its
    client.  Server 1 crashes, comes back without it, wins term 2 with the vote of server 2, and commits
    its own no-op at the same index. */
module LostSuffix {
  import opened Config
  import opened Log
  import opened Wal
  import opened KeyValue
  import opened Election
  import opened ServerSpec
  import opened Cluster
  import opened Theorems
  import opened ThreeServers

  function PutY(): Command {
    Command("PUT", "y", "kept", "", 0)
  }

  const THIRD: Entry := Entry(3, 1, Op(PutY()))
  const USURPER: Entry := Entry(3, 2, Noop)

  // ----------------------------------------------------------------- the states

  /** Server 0 takes the second write, and commits it. */
  function Writer(): Server {
    Zero(4).(log := [FIRST, WRITE, THIRD], wal := [State(1, Some(0)), Append(FIRST), Append(WRITE), Append(THIRD)],
             proposals := [Proposal(3, 1, 8)])
  }

  function Answerer(): Server {
    Writer().(matchIndex := map[1 := 3, 2 := 0], nextIndex := map[1 := 4, 2 := 1], commitIndex := 3, lastApplied := 3,
              store := Store(map["x" := "new", "y" := "kept"], map[]), proposals := [], answers := [Answer(7, true), Answer(8, true)])
  }

  function XOnly(): Store {
    Store(map["x" := "new"], map[])
  }

  function OnDisk(): Snapshot {
    Snapshot(2, 1, XOnly(), Some(Three()))
  }

  /** Server 1 has compacted: the second write is in memory only. */
  function Compacter(): Server {
    Idle(1).(term := 1, votedFor := Some(0), log := [THIRD], lastIncludedIndex := 2, lastIncludedTerm := 1,
             commitIndex := 2, lastApplied := 2, store := XOnly(), disk := Some(OnDisk()), wal := [State(1, Some(0))])
  }

  function Forgetful(): Server {
    Compacter().(log := [])
  }

  function Candidacy(): Server {
    Forgetful().(role := Candidate, term := 2, votedFor := Some(1), votes := {1}, wal := [State(1, Some(0)), State(2, Some(1))])
  }

  function NewLeader(): Server {
    Forgetful().(role := Leader, term := 2, votedFor := Some(1), votes := {1, 2}, connected := {0, 2},
                 nextIndex := map[0 := 3, 2 := 3], matchIndex := map[0 := 0, 2 := 0], log := [USURPER],
                 wal := [State(1, Some(0)), State(2, Some(1)), Append(USURPER)])
  }

  function Overwriter(): Server {
    NewLeader().(nextIndex := map[0 := 3, 2 := 4], matchIndex := map[0 := 0, 2 := 3], commitIndex := 3, lastApplied := 3)
  }

  /** Server 2 takes the new leader's no-op, and learns that the first write is committed. */
  function Supporter(): Server {
    Voter().(log := [FIRST, WRITE, USURPER], commitIndex := 2, lastApplied := 2, store := XOnly(),
             wal := [Append(FIRST), Append(WRITE), State(2, Some(1)), Append(USURPER)])
  }

  function Second(): Packet { AppendAsk(0, 1, AppendRequest(1, 0, 2, 1, [THIRD], 2)) }
  function TookSecond(): Packet { AppendReply(1, 0, AppendResponse(1, true, 3)) }
  function Usurp(): Packet { AppendAsk(1, 2, AppendRequest(2, 1, 2, 1, [USURPER], 2)) }
  function TookUsurper(): Packet { AppendReply(2, 1, AppendResponse(2, true, 3)) }

  // ----------------------------------------------------------- handler by handler

  lemma ZeroWrites()
    ensures Takes(Zero(4), Client(0, 8, PutY()), Writer(), None)
  {
    var s := Zero(4);
    Peers3(s);
    assert 1 in Peers(s) && LastLogIndex(s) == 2;
    assert s.log + [THIRD] == Writer().log && s.wal + [Append(THIRD)] == Writer().wal;
    assert s.proposals + [Proposal(3, 1, 8)] == Writer().proposals;
  }

  lemma ZeroSendsSecond()
    ensures Takes(Writer(), Replicate(0, 1), Writer(), Some(Second()))
  {
    Peers3(Writer());
    assert Retained(Writer(), 4) == [];
    assert Retained(Writer(), 3) == [THIRD];
    assert GetEntry(Writer(), 2) == Some(WRITE);
  }

  /** Applying the no-op and the first write. */
  lemma BothApplied(s: Server)
    requires s.lastIncludedIndex == 0 && |s.log| == 3 && s.log[0] == FIRST && s.log[1] == WRITE
    requires s.lastApplied == 0 && s.commitIndex == 2 && s.store == EmptyStore()
    ensures ApplyAll(s) == s.(lastApplied := 2, store := XOnly())
  {
    var s1 := s.(lastApplied := 1);
    assert GetEntry(s, 1) == Some(FIRST) && ApplyNext(s) == s1;
    assert GetEntry(s1, 2) == Some(WRITE);
    assert ApplyCommand(EmptyStore(), PutX()) == XOnly();
    assert ApplyNext(s1) == s1.(lastApplied := 2, store := XOnly());
    OneApplied(s1, s1.(lastApplied := 2, store := XOnly()));
  }

  lemma NothingDue(s: Server)
    requires s.proposals == []
    ensures CompleteProposals(s) == s
  {
    assert s.answers + [] == s.answers;
  }

  /** The batch commits the first write, and the compaction that follows resets the journal. */
  lemma OneCompacts()
    ensures var s := One(2).(log := [FIRST, WRITE, THIRD], wal := One(2).wal + [Append(THIRD)], commitIndex := 2);
      ApplyLogs(s) == Compacter()
  {
    var s := One(2).(log := [FIRST, WRITE, THIRD], wal := One(2).wal + [Append(THIRD)], commitIndex := 2);
    BothApplied(s);
    var s1 := s.(lastApplied := 2, store := XOnly());
    assert Retained(s1, 4) == [];
    assert Retained(s1, 3) == [THIRD];
    assert GetEntry(s1, 2) == Some(WRITE);
    assert TakeSnapshot(s1) == Compacter();
    hide TakeSnapshot, CompleteProposals;
    NothingDue(Compacter());
  }

  lemma OneMerges()
    ensures MergeEntries(One(2), [THIRD]) == One(2).(log := [FIRST, WRITE, THIRD], wal := One(2).wal + [Append(THIRD)])
  {
    var s := One(2).(log := [FIRST, WRITE, THIRD], wal := One(2).wal + [Append(THIRD)]);
    assert MergeOne(One(2), THIRD) == s;
    assert [THIRD][1..] == [];
    assert MergeEntries(s, []) == s;
  }

  lemma OneTakesSecond()
    ensures Takes(One(2), Deliver(1, Second()), Compacter(), Some(TookSecond()))
  {
    hide MergeEntries, ApplyLogs;
    Adopted(One(2), 1, 0);
    assert GetEntry(One(2), 2) == Some(WRITE);
    OneMerges();
    OneCompacts();
  }

  function Counted(): Server {
    Writer().(matchIndex := map[1 := 3, 2 := 0], nextIndex := map[1 := 4, 2 := 1])
  }

  lemma SecondCommits()
    ensures ApplyLogs(Counted().(commitIndex := 3)) == Answerer()
  {
    var s := Counted().(commitIndex := 3);
    assert GetEntry(s, 3) == Some(THIRD);
    var s1 := s.(lastApplied := 3, store := Answerer().store);
    assert ApplyCommand(XOnly(), PutY()) == s1.store;
    OneApplied(s, s1);
    assert GetEntry(s1, 3) == Some(THIRD);
    OnlyProposal(s1);
    assert [Answer(7, true)] + [Answer(8, true)] == [Answer(7, true), Answer(8, true)];
  }

  lemma ZeroCounts()
    ensures CheckCommitMajority(Counted(), 3) && EntryTerm(Counted(), 3) == 1
  {
    var s := Counted();
    assert {s.id} + (set p | p in s.matchIndex && s.matchIndex[p] >= 3) == {0, 1};
    TwoOfThree(0, 1);
    assert GetEntry(s, 3) == Some(THIRD);
  }

  lemma SecondIsCommitted()
    ensures AdvanceLeader(Counted(), 3, 3) == Answerer()
  {
    ZeroCounts();
    SecondCommits();
    hide ApplyLogs, CheckCommitMajority, EntryTerm;
    assert AdvanceLeader(Answerer(), 4, 3) == Answerer();
  }

  lemma ZeroAnswers()
    ensures Takes(Writer(), Deliver(0, TookSecond()), Answerer(), None)
  {
    hide AdvanceLeader;
    SecondIsCommitted();
    assert Writer().matchIndex[1 := 3] == Counted().matchIndex && Writer().nextIndex[1 := 4] == Counted().nextIndex;
  }

  /** The restart finds the snapshot and the vote, and no entry. */
  lemma OneReboots()
    ensures Takes(Compacter(), Reboot(1), Forgetful(), None) && !CleanCrash(Compacter())
  {
    var s := Compacter();
    ReplayOfStateAlone(1, Some(0));
    assert Recovered(1, Three(), 1, s.disk, s.wal, Replayed(1, Some(0), [])) == Forgetful();
    assert ApplyAll(Forgetful()) == Forgetful();
    NothingDue(Forgetful());
  }

  lemma OneStands()
    ensures Takes(Forgetful(), Timeout(1), Candidacy(), Some(AskTwo()))
  {
    Peers3(Candidacy());
    assert Standing(Forgetful()) == Candidacy();
    assert 2 in Peers(Candidacy());
  }

  lemma OneWins()
    ensures Takes(Candidacy(), Deliver(1, YesTwo()), NewLeader(), None)
  {
    hide HasMajority, TransitionToLeader;
    Wins(Candidacy(), 2);
    OneLeads();
  }

  lemma OneLeads()
    ensures TransitionToLeader(Candidacy().(votes := {1, 2})) == NewLeader()
  {
    var s := Candidacy().(votes := {1, 2});
    Peers3(s);
    assert Peers(s) == {0, 2};
    assert SetAll(map[], {0, 2}, 3) == map[0 := 3, 2 := 3];
    assert SetAll(map[], {0, 2}, 0) == map[0 := 0, 2 := 0];
  }

  lemma OneUsurps()
    ensures Takes(NewLeader(), Replicate(1, 2), NewLeader(), Some(Usurp()))
  {
    Peers3(NewLeader());
    assert Retained(NewLeader(), 4) == [];
    assert Retained(NewLeader(), 3) == [USURPER];
  }

  lemma TwoApplies()
    ensures var s := Voter().(log := [FIRST, WRITE, USURPER], wal := Supporter().wal, commitIndex := 2);
      ApplyLogs(s) == Supporter()
  {
    var s := Voter().(log := [FIRST, WRITE, USURPER], wal := Supporter().wal, commitIndex := 2);
    BothApplied(s);
    NothingDue(Supporter());
  }

  lemma TwoMerges()
    ensures MergeEntries(Voter(), [USURPER]) == Voter().(log := [FIRST, WRITE, USURPER], wal := Supporter().wal)
  {
    var s := Voter().(log := [FIRST, WRITE, USURPER], wal := Supporter().wal);
    assert MergeOne(Voter(), USURPER) == s;
    assert [USURPER][1..] == [];
    assert MergeEntries(s, []) == s;
  }

  lemma TwoSupports()
    ensures Takes(Voter(), Deliver(2, Usurp()), Supporter(), Some(TookUsurper()))
  {
    hide MergeEntries, ApplyLogs;
    Adopted(Voter(), 2, 1);
    assert GetEntry(Voter(), 2) == Some(WRITE);
    TwoMerges();
    TwoApplies();
  }

  function Backed(): Server {
    NewLeader().(nextIndex := map[0 := 3, 2 := 4], matchIndex := map[0 := 0, 2 := 3])
  }

  lemma UsurperCommits()
    ensures ApplyLogs(Backed().(commitIndex := 3)) == Overwriter()
  {
    var s := Backed().(commitIndex := 3);
    assert GetEntry(s, 3) == Some(USURPER);
    OneApplied(s, Overwriter());
    NothingDue(Overwriter());
  }

  lemma OneCounts()
    ensures CheckCommitMajority(Backed(), 3) && EntryTerm(Backed(), 3) == 2
  {
    var s := Backed();
    assert {s.id} + (set p | p in s.matchIndex && s.matchIndex[p] >= 3) == {1, 2};
    TwoOfThree(1, 2);
    assert GetEntry(s, 3) == Some(USURPER);
  }

  lemma UsurperIsCommitted()
    ensures AdvanceLeader(Backed(), 3, 3) == Overwriter()
  {
    OneCounts();
    UsurperCommits();
    hide ApplyLogs, CheckCommitMajority, EntryTerm;
    assert AdvanceLeader(Overwriter(), 4, 3) == Overwriter();
  }

  lemma OneOverwrites()
    ensures Takes(NewLeader(), Deliver(1, TookUsurper()), Overwriter(), None)
  {
    hide AdvanceLeader;
    UsurperIsCommitted();
    assert NewLeader().matchIndex[2 := 3] == Backed().matchIndex && NewLeader().nextIndex[2 := 4] == Backed().nextIndex;
  }

  // --------------------------------------------------------------------- the run

  lemma SecondWrite() returns (nets: seq<Net>, events: seq<Event>)
    ensures At(nets, events, Answerer(), Compacter(), Two(1)) && |events| == 13 && NoReboot(events)
  {
    hide At, Takes, Sent, Zero, One, Two, Writer, Answerer, Compacter;
    nets, events := Opening();
    ZeroWrites();
    nets, events := Does(nets, events, Zero(4), One(2), Two(1), Client(0, 8, PutY()), Zero(4), Writer(), None);
    ZeroSendsSecond();
    nets, events := Does(nets, events, Writer(), One(2), Two(1), Replicate(0, 1), Writer(), Writer(), Some(Second()));
    OneTakesSecond();
    nets, events := Does(nets, events, Writer(), One(2), Two(1), Deliver(1, Second()), One(2), Compacter(), Some(TookSecond()));
    ZeroAnswers();
    nets, events := Does(nets, events, Writer(), Compacter(), Two(1), Deliver(0, TookSecond()), Writer(), Answerer(), None);
  }

  /** Only the step numbered 13 restarts a node. */
  predicate OneReboot(events: seq<Event>) {
    forall k {:trigger events[k]} :: 0 <= k < |events| ==> (events[k].Reboot? <==> k == 13)
  }

  lemma AfterCrash() returns (nets: seq<Net>, events: seq<Event>)
    ensures At(nets, events, Answerer(), NewLeader(), Voter()) && |events| == 17 && OneReboot(events) && events[13].i == 1
    ensures IsAt(nets, 13, Answerer(), Compacter(), Two(1))
  {
    hide At, Takes, Sent, Two, Answerer, Compacter, Forgetful, Candidacy, NewLeader, Voter;
    nets, events := SecondWrite();
    AtEnd(nets, events, Answerer(), Compacter(), Two(1));
    OneReboots();
    nets, events := Does(nets, events, Answerer(), Compacter(), Two(1), Reboot(1), Compacter(), Forgetful(), None);
    OneStands();
    nets, events := Does(nets, events, Answerer(), Forgetful(), Two(1), Timeout(1), Forgetful(), Candidacy(), Some(AskTwo()));
    TwoVotes();
    nets, events := Does(nets, events, Answerer(), Candidacy(), Two(1), Deliver(2, AskTwo()), Two(1), Voter(), Some(YesTwo()));
    OneWins();
    nets, events := Does(nets, events, Answerer(), Candidacy(), Voter(), Deliver(1, YesTwo()), Candidacy(), NewLeader(), None);
  }

  lemma LosingRun() returns (nets: seq<Net>, events: seq<Event>)
    ensures At(nets, events, Answerer(), Overwriter(), Supporter()) && |events| == 20 && OneReboot(events) && events[13].i == 1
    ensures IsAt(nets, 13, Answerer(), Compacter(), Two(1))
  {
    hide At, Takes, Sent, Two, Answerer, Compacter, NewLeader, Voter, Overwriter, Supporter;
    nets, events := AfterCrash();
    OneUsurps();
    nets, events := Does(nets, events, Answerer(), NewLeader(), Voter(), Replicate(1, 2), NewLeader(), NewLeader(), Some(Usurp()));
    TwoSupports();
    nets, events := Does(nets, events, Answerer(), NewLeader(), Voter(), Deliver(2, Usurp()), Voter(), Supporter(), Some(TookUsurper()));
    OneOverwrites();
    nets, events := Does(nets, events, Answerer(), NewLeader(), Supporter(), Deliver(1, TookUsurper()), NewLeader(), Overwriter(), None);
  }

  lemma TheyDiffer()
    ensures !Consistent(Answerer(), Overwriter())
    ensures Answerer().lastApplied == Overwriter().lastApplied == 3 && Answer(8, true) in Answerer().answers
    ensures Answerer().store.kv == map["x" := "new", "y" := "kept"] && Overwriter().store.kv == map["x" := "new"]
  {
    assert "y" in Answerer().store.kv;
    assert "y" !in Overwriter().store.kv;
  }

  /** A crash can undo a commit.  The only restart of this run finds the journal without the suffix that
      a compaction had retained; afterwards two nodes have applied different entries at index 3, and
      the write of a client that was answered with success is gone. */
  lemma CrashesCanLoseWrites() returns (members: set<NodeId>, nets: seq<Net>, events: seq<Event>, a: nat, i: NodeId, j: NodeId)
    ensures Run(members, nets, events) && |nets| == |events| + 1 && i in members && j in members
    ensures forall k {:trigger events[k]} :: 0 <= k < |events| && events[k].Reboot? ==> k == a && events[k].i == j
    ensures a < |events| && j in nets[a].servers && !CleanCrash(nets[a].servers[j])
    ensures i in nets[|events|].servers && j in nets[|events|].servers
    ensures var s, r := nets[|events|].servers[i], nets[|events|].servers[j];
      && !Consistent(s, r) && s.lastApplied == r.lastApplied == 3
      && GetEntry(s, 3) == Some(THIRD) && GetEntry(r, 3) == Some(USURPER)
      && Answer(8, true) in s.answers && "y" in s.store.kv && "y" !in r.store.kv
  {
    hide Run, Takes, Consistent, Answerer, Overwriter, Supporter, Compacter, Two, CleanCrash;
    members, a, i, j := THREE, 13, 0, 1;
    nets, events := LosingRun();
    OneReboots();
    TheyDiffer();
    HeldThirds();
  }

  lemma HeldThirds()
    ensures GetEntry(Answerer(), 3) == Some(THIRD) && GetEntry(Overwriter(), 3) == Some(USURPER)
  {
  }
}
