/** Linearizable reads: the safe mode of `Get`, which samples the commit index, confirms leadership
    with a quorum of empty batches, waits until the sample is applied, and reads the store. */
module ReadIndex {
  import opened Config
  import opened Log
  import opened Wal
  import opened KeyValue
  import opened Election
  import opened Replication
  import opened ReplicationProof
  import opened ServerSpec
  import opened Compaction
  import opened Cluster
  import opened Simulation
  import opened HandlerSim
  import opened Safety
  import opened Theorems
  import opened LogTheorems
  import Journal
  import Membership

  /** The times of one read: the sample, the start of the quorum check, the successful wait, and
      the final look at the store. */
  datatype Read = Read(sample: nat, check: nat, wait: nat, finish: nat, acks: set<NodeId>)

  /** Node `p` accepted a batch of the leader's term between `from` and `to`. */
  ghost predicate Confirms(nets: seq<Net>, events: seq<Event>, from: nat, to: nat, p: NodeId, term: nat)
    requires |nets| == |events| + 1 && to <= |events|
  {
    exists e: nat :: from <= e < to && ConfirmedBy(nets[e], events[e], p, term)
  }

  predicate ConfirmedBy(net: Net, e: Event, p: NodeId, term: nat) {
    Accepts(net, e, p) && e.p.batch.term == term
  }

  predicate LeadsIn(net: Net, i: NodeId, term: nat) {
    i in net.servers && net.servers[i].role == Leader && net.servers[i].term == term
  }

  /** A read by node `i` that `Get` reports as served. */
  ghost predicate Served(nets: seq<Net>, events: seq<Event>, i: NodeId, rd: Read)
    requires |nets| == |events| + 1
  {
    && rd.sample <= rd.check <= rd.wait <= rd.finish < |nets|
    && i in nets[rd.sample].servers
    && var term := nets[rd.sample].servers[i].term;
    && LeadsIn(nets[rd.sample], i, term) && LeadsIn(nets[rd.check], i, term) && LeadsIn(nets[rd.finish], i, term)
    && i in rd.acks && HasMajority(nets[rd.check].servers[i].config, i, rd.acks)
    && (forall p :: p in rd.acks && p != i ==> Confirms(nets, events, rd.check, rd.wait, p, term))
    && i in nets[rd.wait].servers && nets[rd.wait].servers[i].lastApplied >= nets[rd.sample].servers[i].commitIndex
  }

  /** Entry `k` of the leader's log is of an earlier term, and not committed as far as the leader knows. */
  predicate WaitsOlder(s: Server, k: nat) {
    s.commitIndex < k <= LastLogIndex(s) && EntryTerm(s, k) < s.term
  }

  /** The entry after the commit index is of the leader's own term, or there is none: a test the
      code could make when it samples, and does not. */
  predicate NothingOlderWaits(s: Server) {
    s.commitIndex == LastLogIndex(s) || EntryTerm(s, s.commitIndex + 1) == s.term
  }

  /** The stronger test of the textbooks: the leader has committed in its own term. */
  predicate CommittedInTerm(s: Server) {
    s.commitIndex > 0 && EntryTerm(s, s.commitIndex) == s.term
  }

  // ------------------------------------------------- the three possible terms

  /** Nobody can have chosen anything in a later term: a confirming node would have acknowledged it,
      and so would have refused to confirm. */
  lemma NoLaterChoice(members: set<NodeId>, nets: seq<Net>, events: seq<Event>, ws: seq<World>,
                      i: NodeId, rd: Read, u: nat)
    requires SafeRun(members, nets, events) && Tracks(ws, nets) && i in members && Served(nets, events, i, rd)
    requires u in ws[rd.sample].chosen
    ensures u <= nets[rd.sample].servers[i].term
  {
    hide SafeRun, WorldInv, NodeSim, Sim, Grows, ConfirmedBy;
    var a, term := rd.sample, nets[rd.sample].servers[i].term;
    At(members, nets, events, ws, a, i);
    At(members, nets, events, ws, rd.check, i);
    RunShape(members, nets, events);
    var quorum := ChoiceQuorum(ws[a], u);
    SteadyAt(ws[rd.check], i, nets[rd.check].servers[i]);
    PassesIsAtLeastHalf(members, i, rd.acks);
    HalvesOverlap(members, quorum, rd.acks);
    var p :| p in quorum * rd.acks * members;
    if u > term {
      if p == i {
        AckedTerm(ws[a], ws[a], p, nets[a].servers[p], u);
      } else {
        var e: nat :| rd.check <= e < rd.wait && ConfirmedBy(nets[e], events[e], p, term);
        At(members, nets, events, ws, e, p);
        assert Grows(ws[a], ws[e]);
        AckedTerm(ws[a], ws[e], p, nets[e].servers[p], u);
        AcceptingTerm(nets[e], events[e], p, term);
      }
    }
  }

  lemma RunShape(members: set<NodeId>, nets: seq<Net>, events: seq<Event>)
    requires SafeRun(members, nets, events)
    ensures |members| % 2 == 1 && |nets| == |events| + 1
  {
  }

  lemma ChoiceQuorum(w: World, u: nat) returns (quorum: set<NodeId>)
    requires WorldInv(w) && u in w.chosen
    ensures AtLeastHalf(w.race.members, quorum) && forall p :: p in quorum ==> (p, u) in w.acked
  {
    assert ChoiceSound(w, u);
    quorum := w.chosen[u].quorum;
  }

  lemma SteadyAt(w: World, i: NodeId, s: Server)
    requires NodeSim(w, i, s)
    ensures Steady(s.config, w.race.members)
  {
    hide Fold, Replay;
  }

  /** A node that acknowledged term `u` is in `u` or beyond, then and later. */
  lemma AckedTerm(v: World, w: World, p: NodeId, s: Server, u: nat)
    requires (p, u) in v.acked && (v == w || Grows(v, w)) && WorldInv(w) && NodeSim(w, p, s)
    ensures u <= s.term
  {
    hide Fold, Replay, Histories;
    assert (p, u) in w.acked;
    assert AckSound(w, p, u);
  }

  lemma AcceptingTerm(net: Net, e: Event, p: NodeId, term: nat)
    requires ConfirmedBy(net, e, p, term)
    ensures net.servers[p].term <= term
  {
    hide MergeEntries, AdvanceFollower;
  }

  // --------------------------------------------- what waits in a leader's log

  /** A leader's log turns to its own term once, and stays there. */
  lemma OwnTermStays(w: World, i: NodeId, s: Server, j: nat, k: nat)
    requires WorldInv(w) && NodeSim(w, i, s) && s.role == Leader
    requires s.lastIncludedIndex < j <= k <= LastLogIndex(s)
    ensures EntryTerm(s, k) <= s.term && (EntryTerm(s, j) == s.term ==> EntryTerm(s, k) == s.term)
    ensures EntryTerm(s, LastLogIndex(s)) == s.term
  {
    hide Fold, Replay, WorldInv;
    LeaderReign(w, i, s);
    EntriesAgree(s, w.logs[i], j);
    EntriesAgree(s, w.logs[i], k);
    EntriesAgree(s, w.logs[i], LastLogIndex(s));
  }

  lemma EntryIn(w: World, i: NodeId, s: Server, k: nat)
    requires NodeSim(w, i, s) && i in w.logs
    ensures s.lastIncludedIndex < k <= |w.logs[i]| ==> EntryTerm(s, k) == TermAt(w.logs[i], k)
  {
    hide Fold, Replay;
    EntriesAgree(s, w.logs[i], k);
  }

  lemma NoGap(w: World, i: NodeId, s: Server)
    requires NodeSim(w, i, s)
    ensures s.lastIncludedIndex <= s.lastApplied == s.commitIndex <= LastLogIndex(s)
  {
    hide Fold, Replay;
    AppliedOf(w, i, s);
  }

  /** The test is exact: it holds when and only when no entry of an earlier term waits. */
  lemma GuardIsExact(w: World, i: NodeId, s: Server)
    requires WorldInv(w) && NodeSim(w, i, s) && s.role == Leader
    ensures NothingOlderWaits(s) <==> forall k {:trigger WaitsOlder(s, k)} :: !WaitsOlder(s, k)
  {
    hide NodeSim, WorldInv, EntryTerm, LastLogIndex;
    NoGap(w, i, s);
    if NothingOlderWaits(s) {
      forall k | s.commitIndex < k <= LastLogIndex(s) ensures !WaitsOlder(s, k) {
        OwnTermStays(w, i, s, s.commitIndex + 1, k);
      }
    } else {
      OwnTermStays(w, i, s, s.commitIndex + 1, LastLogIndex(s));
      OwnTermStays(w, i, s, s.commitIndex + 1, s.commitIndex + 1);
      assert WaitsOlder(s, s.commitIndex + 1);
    }
  }

  lemma CommittedInTermSuffices(w: World, i: NodeId, s: Server)
    requires WorldInv(w) && NodeSim(w, i, s) && s.role == Leader && CommittedInTerm(s)
    ensures NothingOlderWaits(s)
  {
    hide Fold, Replay, WorldInv;
    LeaderReign(w, i, s);
    EntriesAgree(s, w.logs[i], s.commitIndex);
    EntriesAgree(s, w.logs[i], s.commitIndex + 1);
  }

  /** Whatever was chosen up to its term lies below a leader's commit index, or waits in its log. */
  lemma ChoicesLieBelow(w: World, i: NodeId, s: Server, u: nat, c: nat)
    requires WorldInv(w) && NodeSim(w, i, s) && s.role == Leader
    requires u in w.chosen && u <= s.term && c <= w.chosen[u].index
    ensures c <= s.commitIndex || WaitsOlder(s, c)
  {
    hide Fold, Replay, WorldInv, EntryTerm, LastLogIndex;
    if u == s.term {
      OwnChoice(w, i, s);
    } else if c > s.commitIndex {
      NoGap(w, i, s);
      EarlierChoice(w, i, s, u);
      OwnTermStays(w, i, s, c, w.chosen[u].index);
      OwnTermStays(w, i, s, c, c);
    }
  }

  lemma OwnChoice(w: World, i: NodeId, s: Server)
    requires WorldInv(w) && NodeSim(w, i, s) && s.role == Leader && s.term in w.chosen
    ensures w.chosen[s.term].index <= s.commitIndex
  {
    hide Fold, Replay, Histories, Memory;
    assert i in w.logs;
    assert NodeSound(w, i);
  }

  /** A choice of an earlier term is an entry of that term in the leader's log. */
  lemma EarlierChoice(w: World, i: NodeId, s: Server, u: nat)
    requires WorldInv(w) && NodeSim(w, i, s) && s.role == Leader
    requires u in w.chosen && u < s.term
    ensures var n := w.chosen[u].index;
      n <= LastLogIndex(s) && (n > s.lastIncludedIndex ==> EntryTerm(s, n) == u)
  {
    hide Fold, Replay, WorldInv, NodeSim, EntryTerm, LastLogIndex, Histories, Memory;
    LeaderReign(w, i, s);
    OfWorld(w, u);
    ChosenReachesLaterLeaders(w, u, s.term);
    var n, log := w.chosen[u].index, w.reigns[s.term];
    AgreeAt(w.reigns[u], log, n, n - 1);
    EntryIn(w, i, s, n);
  }

  lemma OfWorld(w: World, u: nat)
    requires WorldInv(w) && u in w.chosen
    ensures Histories(w) && Memory(w) && ReignsSound(w) && ChoiceSound(w, u)
  {
  }

  lemma CommitWasChosen(v: World, w: World, j: NodeId, s: Server) returns (u: nat)
    requires WorldInv(v) && (v == w || Grows(v, w)) && NodeSim(v, j, s) && s.commitIndex > 0
    ensures u in w.chosen && s.commitIndex <= w.chosen[u].index
  {
    hide Fold, Replay, Histories, Memory;
    assert j in v.logs;
    assert CommitSound(v, j);
    u :| CoveredBy(v, v.logs[j], v.commits[j], u) && u <= v.race.ballots[j].term;
    assert u in w.chosen;
  }

  // -------------------------------------------------- a leader through its term

  lemma Settles(s: Server)
    ensures ApplyLogs(s).commitIndex == s.commitIndex && ApplyLogs(s).term == s.term
    ensures ApplyLogs(s).role == Leader ==> s.role == Leader
  {
    Membership.AppliedCommit(s);
    Membership.ApplyLogsLeads(s);
    ApplyKeepsTerm(s);
  }

  lemma {:induction false} AdvanceRaises(s: Server, n: nat, last: nat)
    requires s.commitIndex < n
    ensures AdvanceLeader(s, n, last).commitIndex >= s.commitIndex && AdvanceLeader(s, n, last).term == s.term
    ensures AdvanceLeader(s, n, last).role == Leader ==> s.role == Leader
    decreases last + 1 - n
  {
    hide ApplyLogs, CheckCommitMajority, EntryTerm;
    if n <= last {
      if EntryTerm(s, n) == s.term && CheckCommitMajority(s, n) {
        Settles(s.(commitIndex := n));
        AdvanceRaises(ApplyLogs(s.(commitIndex := n)), n + 1, last);
      } else {
        AdvanceRaises(s, n + 1, last);
      }
    }
  }

  lemma BatchLeads(s: Server, req: AppendRequest)
    ensures var s' := ProcessAppendEntries(s, req).0;
      s' == s || s'.role != Leader || (s.role == Leader && req.term == s.term)
  {
    hide MergeEntries, ApplyLogs;
    if req.term == s.term {
      var s1 := AdoptLeader(s, req.term, req.leader);
      MergeCommit(s1, req.entries);
      Membership.ApplyLogsLeads(Journal.Raised(MergeEntries(s1, req.entries), req.leaderCommit));
    } else {
      Membership.BatchEndsOrPasses(s, req);
    }
  }

  lemma AckLeads(s: Server, peer: NodeId, ack: AppendResponse)
    ensures var s' := ProcessAppendEntriesResponse(s, peer, ack);
      s'.role == Leader ==> s.role == Leader && s'.term == s.term && s'.commitIndex >= s.commitIndex
  {
    hide AdvanceLeader;
    var s1 := s.(matchIndex := s.matchIndex[peer := ack.matchIndex], nextIndex := s.nextIndex[peer := ack.matchIndex + 1]);
    AdvanceRaises(s1, s1.commitIndex + 1, LastLogIndex(s1));
  }

  lemma RebootFollows(s: Server)
    ensures LoadState(s.id, s.config, s.threshold, s.disk, s.wal).role != Leader
  {
    hide ApplyLogs, Replay, After;
    Membership.ApplyLogsLeads(Reloaded(s));
  }

  lemma ClientLeads(s: Server, request: nat, cmd: Command)
    requires s.commitIndex <= LastLogIndex(s)
    ensures var s' := HandleClientCommand(s, request, cmd);
      s'.role == Leader ==> s.role == Leader && s'.term == s.term && s'.commitIndex >= s.commitIndex
  {
    hide ApplyLogs, CheckCommitMajority;
    if s.role == Leader {
      Settles(Proposed(s, request, cmd).(commitIndex := LastLogIndex(s) + 1));
    }
  }

  /** The winner of a term is no candidate in it, and was in it before it won. */
  lemma WonBefore(w: World, i: NodeId, s: Server, t: nat)
    requires WorldInv(w) && NodeSim(w, i, s) && t in w.race.won && w.race.won[t].leader == i
    ensures t <= s.term && (s.term == t ==> s.role != Candidate)
  {
    hide Fold, Replay, Memory;
    assert RunsOnce(w.race, i) && VotesOnRecord(w.race, i);
  }

  /** Only the leader of a term is its leader after the next step, and its commit index never falls. */
  lemma LeaderBefore(w: World, net: Net, e: Event, i: NodeId, t: nat)
    requires Sim(w, net) && WorldInv(w) && Possible(net, e) && i in net.servers && NodeSim(w, i, net.servers[i])
    requires t in w.race.won && w.race.won[t].leader == i
    requires LeadsIn(Step(net, e), i, t)
    ensures LeadsIn(net, i, t) && net.servers[i].commitIndex <= Step(net, e).servers[i].commitIndex
  {
    hide WorldInv, NodeSim, Sim;
    var s := net.servers[i];
    if e.i == i {
      WonBefore(w, i, s, t);
      NoGap(w, i, s);
      LeaderBeforeHandler(w, net, e, i, t);
    }
  }

  lemma ReceiveLeads(w: World, i: NodeId, s: Server, p: Packet)
    requires WorldInv(w) && NodeSim(w, i, s) && PacketOk(w, p) && p.dst == i
    ensures var s' := Receive(s, p).0;
      s'.role == Leader ==>
        s'.term == s.term && s'.commitIndex >= s.commitIndex && (s.role == Leader || s.role == Candidate)
  {
    hide WorldInv, NodeSim, ProcessAppendEntries, ProcessAppendEntriesResponse, LastLogIndex, BatchOk, Refusals, SetAll;
    match p
    case VoteAsk(_, _, _) =>
    case VoteReply(_, _, _) =>
    case AppendAsk(_, _, batch) =>
      BatchLeads(s, batch);
      if s.role == Leader && batch.term == s.term {
        LeaderHasNoLeader(w, i, s, batch);
      }
    case AppendReply(src, _, ack) =>
      AckLeads(s, src, ack);
  }

  lemma LeaderBeforeHandler(w: World, net: Net, e: Event, i: NodeId, t: nat)
    requires Sim(w, net) && WorldInv(w) && Possible(net, e) && e.i == i && NodeSim(w, i, net.servers[i])
    requires net.servers[i].commitIndex <= LastLogIndex(net.servers[i])
    requires t <= net.servers[i].term && (net.servers[i].term == t ==> net.servers[i].role != Candidate)
    requires React(net.servers[i], e).0.role == Leader && React(net.servers[i], e).0.term == t
    ensures net.servers[i].role == Leader && net.servers[i].term == t
    ensures net.servers[i].commitIndex <= React(net.servers[i], e).0.commitIndex
  {
    hide WorldInv, NodeSim, ProcessAppendEntries, ProcessAppendEntriesResponse, HandleClientCommand, LoadState, LastLogIndex,
      Receive, PacketOk;
    var s := net.servers[i];
    match e
    case Timeout(_) =>
    case Deliver(_, p) =>
      assert PacketOk(w, p);
      ReceiveLeads(w, i, s, p);
    case Replicate(_, _) =>
    case Probe(_, _) =>
    case Client(_, request, cmd) =>
      ClientLeads(s, request, cmd);
    case Reboot(_) =>
      RebootFollows(s);
  }

  lemma WonLater(v: World, w: World, i: NodeId, s: Server)
    requires WorldInv(v) && NodeSim(v, i, s) && s.role == Leader && Grows(v, w)
    ensures s.term in w.race.won && w.race.won[s.term].leader == i
  {
    hide WorldInv, NodeSim, ReignSound;
    LeaderReign(v, i, s);
  }

  /** A leader's commit index never falls while it leads. */
  lemma {:induction false} LeaderCommitRises(members: set<NodeId>, nets: seq<Net>, events: seq<Event>, ws: seq<World>,
                                             a: nat, b: nat, i: NodeId, t: nat)
    requires SafeRun(members, nets, events) && Tracks(ws, nets) && a <= b < |nets| && i in members
    requires LeadsIn(nets[a], i, t) && LeadsIn(nets[b], i, t)
    ensures nets[a].servers[i].commitIndex <= nets[b].servers[i].commitIndex
    decreases b - a
  {
    hide SafeRun, WorldInv, NodeSim, Sim, Grows, Possible, Step;
    if a < b {
      At(members, nets, events, ws, a, i);
      At(members, nets, events, ws, b - 1, i);
      SimAt(ws, nets, b - 1, i);
      assert Grows(ws[a], ws[b - 1]);
      WonLater(ws[a], ws[b - 1], i, nets[a].servers[i]);
      RunShape(members, nets, events);
      StepOf(members, nets, events, b - 1);
      LeaderBefore(ws[b - 1], nets[b - 1], events[b - 1], i, t);
      LeaderCommitRises(members, nets, events, ws, a, b - 1, i, t);
    }
  }

  /** What waits at a later time in the same term already waited before. */
  lemma WaitedBefore(v: World, w: World, i: NodeId, s: Server, r: Server, k: nat)
    requires WorldInv(v) && WorldInv(w) && (v == w || Grows(v, w)) && NodeSim(v, i, s) && NodeSim(w, i, r)
    requires s.role == Leader && r.role == Leader && s.term == r.term && s.commitIndex <= r.commitIndex
    requires WaitsOlder(r, k)
    ensures WaitsOlder(s, k)
  {
    hide Fold, Replay, WorldInv, NodeSim, EntryTerm, LastLogIndex;
    LeaderReign(v, i, s);
    LeaderReign(w, i, r);
    EntryIn(v, i, s, k);
    EntryIn(w, i, r, k);
    NoGap(v, i, s);
    NoGap(w, i, r);
  }

  // ------------------------------------------------------------------ freshness

  /** Exactly what a served read can miss: of everything any node had committed by the sample, it has
      seen all but the entries of earlier terms that still wait in the leader's log. */
  lemma ReadMissesExactly(members: set<NodeId>, nets: seq<Net>, events: seq<Event>, i: NodeId, rd: Read, b: nat, j: NodeId)
    requires SafeRun(members, nets, events) && |nets| == |events| + 1 && i in members && Served(nets, events, i, rd)
    requires b <= rd.sample && j in members
    ensures i in nets[rd.finish].servers && j in nets[b].servers
    ensures var r, c := nets[rd.finish].servers[i], nets[b].servers[j].commitIndex;
      c <= r.lastApplied <==> !WaitsOlder(r, c)
  {
    hide SafeRun, WorldInv, NodeSim, Grows, Sim, Confirms, WaitsOlder;
    var ws := RunSim(members, nets, events);
    MissedWaits(members, nets, events, ws, i, rd, b, j);
  }

  lemma MissedWaits(members: set<NodeId>, nets: seq<Net>, events: seq<Event>, ws: seq<World>, i: NodeId, rd: Read, b: nat, j: NodeId)
    requires SafeRun(members, nets, events) && Tracks(ws, nets) && |nets| == |events| + 1
    requires i in members && Served(nets, events, i, rd) && b <= rd.sample && j in members
    ensures i in nets[rd.finish].servers && j in nets[b].servers
    ensures var r, c := nets[rd.finish].servers[i], nets[b].servers[j].commitIndex;
      c <= r.lastApplied <==> !WaitsOlder(r, c)
  {
    hide SafeRun, WorldInv, NodeSim, Grows, Sim, Confirms, LastLogIndex, EntryTerm;
    At(members, nets, events, ws, rd.finish, i);
    At(members, nets, events, ws, b, j);
    var r, c := nets[rd.finish].servers[i], nets[b].servers[j].commitIndex;
    NoGap(ws[rd.finish], i, r);
    if c > 0 {
      assert Grows(ws[b], ws[rd.sample]) && Grows(ws[rd.sample], ws[rd.finish]);
      var u := CommitWasChosen(ws[b], ws[rd.sample], j, nets[b].servers[j]);
      NoLaterChoice(members, nets, events, ws, i, rd, u);
      ChoiceGrows(ws[rd.sample], ws[rd.finish], u);
      ChoicesLieBelow(ws[rd.finish], i, r, u, c);
    }
  }

  lemma ChoiceGrows(v: World, w: World, u: nat)
    requires Grows(v, w) && u in v.chosen
    ensures u in w.chosen && v.chosen[u].index <= w.chosen[u].index
  {
  }

  /** ReadIndex freshness.  If no entry of an earlier term waited in the leader's log when it sampled
      its commit index, a served read sees every entry that any node had committed at or before the
      sample: it returns the store after a prefix of the one history that is at least that long. */
  lemma ReadsAreFresh(members: set<NodeId>, nets: seq<Net>, events: seq<Event>, i: NodeId, rd: Read)
    returns (history: seq<Entry>)
    requires SafeRun(members, nets, events) && |nets| == |events| + 1 && i in members && Served(nets, events, i, rd)
    requires NothingOlderWaits(nets[rd.sample].servers[i])
    ensures forall b, j {:trigger FollowsAt(nets, b, j, history)} :: 0 <= b <= rd.sample && j in members ==>
      && FollowsAt(nets, b, j, history)
      && nets[b].servers[j].commitIndex <= nets[rd.finish].servers[i].lastApplied
    ensures FollowsAt(nets, rd.finish, i, history)
  {
    hide SafeRun, Follows, WorldInv, NodeSim, Grows, Sim, Confirms, NothingOlderWaits, WaitsOlder;
    history := OneHistory(members, nets, events);
    var ws := RunSim(members, nets, events);
    var a := rd.sample;
    At(members, nets, events, ws, a, i);
    At(members, nets, events, ws, rd.finish, i);
    assert Grows(ws[a], ws[rd.finish]);
    var s, r := nets[a].servers[i], nets[rd.finish].servers[i];
    LeaderCommitRises(members, nets, events, ws, a, rd.finish, i, s.term);
    GuardIsExact(ws[a], i, s);
    forall b, j | 0 <= b <= a && j in members
      ensures FollowsAt(nets, b, j, history)
      ensures nets[b].servers[j].commitIndex <= r.lastApplied
    {
      assert FollowsAt(nets, b, j, history);
      MissedWaits(members, nets, events, ws, i, rd, b, j);
      var c := nets[b].servers[j].commitIndex;
      if WaitsOlder(r, c) {
        WaitedBefore(ws[a], ws[rd.finish], i, s, r, c);
      }
    }
    assert FollowsAt(nets, rd.finish, i, history);
  }
}
