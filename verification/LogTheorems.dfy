/** Log matching, leader completeness and acknowledgements of a fixed cluster, over whole runs. */
module LogTheorems {
  import opened Config
  import opened Log
  import opened Wal
  import opened KeyValue
  import opened Election
  import opened Replication
  import opened ReplicationProof
  import opened ServerSpec
  import Compaction
  import opened Cluster
  import opened Simulation
  import opened HandlerSim
  import opened Safety
  import opened Theorems

  /** Up to `n`, the two servers hold the same entries wherever both still hold one. */
  ghost predicate SameUpTo(s: Server, r: Server, n: nat) {
    forall k: nat {:trigger GetEntry(s, k)} {:trigger GetEntry(r, k)} ::
      k <= n && Held(s, k) && Held(r, k) ==> GetEntry(s, k) == GetEntry(r, k)
  }

  lemma SameFromAgree(w: World, i: NodeId, s: Server, v: World, j: NodeId, r: Server, n: nat)
    requires NodeSim(w, i, s) && NodeSim(v, j, r) && Agree(w.logs[i], v.logs[j], n)
    ensures SameUpTo(s, r, n)
  {
    AppliedOf(w, i, s);
    AppliedOf(v, j, r);
    hide NodeSim, GetEntry, LastLogIndex;
    forall k: nat | k <= n && Held(s, k) && Held(r, k) ensures GetEntry(s, k) == GetEntry(r, k) {
      AgreeAt(w.logs[i], v.logs[j], n, k - 1);
    }
  }

  /** The last of two times, where both histories can be compared. */
  lemma Meet(ws: seq<World>, nets: seq<Net>, a: nat, b: nat) returns (w: World)
    requires Tracks(ws, nets) && a < |nets| && b < |nets|
    ensures WorldInv(w) && Grows(ws[a], w) && Grows(ws[b], w)
    ensures w == ws[if a <= b then b else a]
  {
    hide WorldInv, NodeSim, Grows;
    var c := if a <= b then b else a;
    w := ws[c];
    assert Sim(ws[c], nets[c]);
    assert Grows(ws[a], ws[c]) && Grows(ws[b], ws[c]);
  }

  /** What a run shows of node `i` at time `a`. */
  lemma At(members: set<NodeId>, nets: seq<Net>, events: seq<Event>, ws: seq<World>, a: nat, i: NodeId)
    requires SafeRun(members, nets, events) && Tracks(ws, nets) && a < |nets| && i in members
    ensures ws[a].race.members == members && WorldInv(ws[a])
    ensures i in nets[a].servers && NodeSim(ws[a], i, nets[a].servers[i])
  {
    hide WorldInv, NodeSim, Sim, SafeRun;
    TracksMembers(members, nets, events, ws, a);
    SimAt(ws, nets, a, i);
  }

  // ------------------------------------------------------------ log matching

  lemma NodeLineage(w: World, i: NodeId, s: Server)
    requires WorldInv(w) && NodeSim(w, i, s)
    ensures NodeSound(w, i) && ReignsSound(w)
  {
    hide Fold, Replay, Histories, Memory;
    assert i in w.logs;
    assert Histories(w);
    ReignsOf(w);
  }

  lemma ReignsOf(w: World)
    requires WorldInv(w)
    ensures ReignsSound(w)
  {
  }

  /** Log matching.  If two logs, at any two times, hold entries with the same index and term, they
      hold the same entries everywhere below. */
  lemma LogMatching(members: set<NodeId>, nets: seq<Net>, events: seq<Event>,
                    a: nat, i: NodeId, b: nat, j: NodeId, k: nat)
    requires SafeRun(members, nets, events) && a < |nets| && b < |nets| && i in members && j in members
    requires i in nets[a].servers && j in nets[b].servers
    requires Held(nets[a].servers[i], k) && Held(nets[b].servers[j], k)
    requires EntryTerm(nets[a].servers[i], k) == EntryTerm(nets[b].servers[j], k)
    ensures SameUpTo(nets[a].servers[i], nets[b].servers[j], k)
  {
    hide SafeRun, WorldInv, NodeSim, Sim, Grows, LastLogIndex;
    var ws := RunSim(members, nets, events);
    At(members, nets, events, ws, a, i);
    At(members, nets, events, ws, b, j);
    var s, r := nets[a].servers[i], nets[b].servers[j];
    var w := Meet(ws, nets, a, b);
    NodeLineage(ws[a], i, s);
    NodeLineage(ws[b], j, r);
    LineageGrows(ws[a], w, ws[a].logs[i]);
    LineageGrows(ws[b], w, ws[b].logs[j]);
    AppliedOf(ws[a], i, s);
    AppliedOf(ws[b], j, r);
    LineagesMatch(w.reigns, ws[a].logs[i], ws[b].logs[j], k);
    SameFromAgree(ws[a], i, s, ws[b], j, r, k);
  }

  /** Terms never decrease along a log and never exceed the node's own. */
  lemma LogsAreSorted(members: set<NodeId>, nets: seq<Net>, events: seq<Event>, a: nat, i: NodeId, j: nat, k: nat)
    requires SafeRun(members, nets, events) && a < |nets| && i in members && i in nets[a].servers
    requires Held(nets[a].servers[i], j) && Held(nets[a].servers[i], k) && j <= k
    ensures EntryTerm(nets[a].servers[i], j) <= EntryTerm(nets[a].servers[i], k) <= nets[a].servers[i].term
  {
    hide SafeRun, WorldInv, Sim, Grows, Fold, Replay;
    var ws := RunSim(members, nets, events);
    At(members, nets, events, ws, a, i);
    var s := nets[a].servers[i];
    NodeLineage(ws[a], i, s);
    AppliedOf(ws[a], i, s);
    LineagesAreSorted(ws[a], ws[a].logs[i], j, k);
  }

  lemma LeaderReign(w: World, i: NodeId, s: Server)
    requires WorldInv(w) && NodeSim(w, i, s) && s.role == Leader
    ensures i in w.logs && s.term in w.reigns && w.reigns[s.term] == w.logs[i] && LastLogIndex(s) == |w.logs[i]|
    ensures ReignSound(w, s.term) && s.term in w.race.won && w.race.won[s.term].leader == i
  {
    hide Fold, Replay, Memory;
    LeaderHolds(w, i, s);
    assert LeaderElected(w.race, i);
  }

  /** A leader only appends: for as long as it leads a term, and however often it compacts, its log
      keeps every entry it had. */
  lemma LeaderOnlyAppends(members: set<NodeId>, nets: seq<Net>, events: seq<Event>, a: nat, b: nat, i: NodeId)
    requires SafeRun(members, nets, events) && a <= b < |nets| && i in members
    requires i in nets[a].servers && i in nets[b].servers
    requires nets[a].servers[i].role == Leader && nets[b].servers[i].role == Leader
    requires nets[a].servers[i].term == nets[b].servers[i].term
    ensures var s, r := nets[a].servers[i], nets[b].servers[i];
      LastLogIndex(s) <= LastLogIndex(r) && SameUpTo(s, r, LastLogIndex(s))
  {
    hide SafeRun, WorldInv, NodeSim, Sim, LastLogIndex, ReignSound;
    var ws := RunSim(members, nets, events);
    At(members, nets, events, ws, a, i);
    At(members, nets, events, ws, b, i);
    var s, r := nets[a].servers[i], nets[b].servers[i];
    LeaderReign(ws[a], i, s);
    LeaderReign(ws[b], i, r);
    assert Grows(ws[a], ws[b]);
    AgreePrefix(ws[a].logs[i], ws[b].logs[i], LastLogIndex(s));
    SameFromAgree(ws[a], i, s, ws[b], i, r, LastLogIndex(s));
  }

  // ----------------------------------------------------- leader completeness

  /** The commit rule of `processAppendEntriesResponse` at index `n`. */
  predicate CommitRule(s: Server, n: nat) {
    s.role == Leader && s.lastIncludedIndex < n <= LastLogIndex(s) && EntryTerm(s, n) == s.term && CheckCommitMajority(s, n)
  }

  ghost predicate QuorumHolds(w: World, t: nat, n: nat, quorum: set<NodeId>) {
    && t in w.reigns && 1 <= n <= |w.reigns[t]| && TermAt(w.reigns[t], n) == t
    && AtLeastHalf(w.race.members, quorum)
    && forall p :: p in quorum ==> (p, t) in w.acked && w.acked[(p, t)] >= n
  }

  lemma RuleMeansQuorum(w: World, i: NodeId, s: Server, n: nat) returns (quorum: set<NodeId>)
    requires WorldInv(w) && NodeSim(w, i, s) && CommitRule(s, n)
    ensures QuorumHolds(w, s.term, n, quorum)
  {
    hide WorldInv, Fold, Replay, CheckCommitMajority;
    LeaderHolds(w, i, s);
    QuorumAcked(w, i, s, n);
    quorum := {i} + set p | p in s.matchIndex && s.matchIndex[p] >= n;
  }

  lemma QuorumLasts(w: World, w': World, t: nat, n: nat, quorum: set<NodeId>)
    requires QuorumHolds(w, t, n, quorum) && Grows(w, w')
    ensures QuorumHolds(w', t, n, quorum)
  {
    forall p | p in quorum ensures (p, t) in w'.acked && w'.acked[(p, t)] >= n {
      assert (p, t) in w'.acked;
    }
  }

  /** The same history with one more choice on record. */
  function WithChoice(w: World, t: nat, n: nat, quorum: set<NodeId>): World {
    w.(chosen := w.chosen[t := Choice(n, quorum)])
  }

  lemma ChoiceMayBeAdded(w: World, t: nat, n: nat, quorum: set<NodeId>)
    requires WorldInv(w) && QuorumHolds(w, t, n, quorum)
    ensures Histories(WithChoice(w, t, n, quorum)) && Memory(WithChoice(w, t, n, quorum))
  {
    hide RaceInv, Memory, NodeSound, CommitSound, ReignSound, VoteSound, ChoiceSound;
    var w' := WithChoice(w, t, n, quorum);
    forall u | u in w'.reigns ensures ReignSound(w', u) {
      assert ReignSound(w, u);
      ReignIgnoresChoices(w, w', u);
    }
    forall v | v in w'.voteLogs ensures VoteSound(w', v) {
      assert VoteSound(w, v);
      VoteIgnoresChoices(w, w', v);
    }
    forall u | u in w'.chosen ensures ChoiceSound(w', u) {
      assert u != t ==> ChoiceSound(w, u);
      AddedChoiceSound(w, t, n, quorum, u);
    }
    MemoryIgnoresChoices(w, w');
  }

  lemma ReignIgnoresChoices(w: World, w': World, t: nat)
    requires ReignSound(w, t) && w' == w.(chosen := w'.chosen)
    ensures ReignSound(w', t)
  {
  }

  lemma VoteIgnoresChoices(w: World, w': World, v: Vote)
    requires VoteSound(w, v) && w' == w.(chosen := w'.chosen)
    ensures VoteSound(w', v)
  {
  }

  lemma AddedChoiceSound(w: World, t: nat, n: nat, quorum: set<NodeId>, u: nat)
    requires QuorumHolds(w, t, n, quorum)
    requires u in WithChoice(w, t, n, quorum).chosen && (u != t ==> ChoiceSound(w, u))
    ensures ChoiceSound(WithChoice(w, t, n, quorum), u)
  {
  }

  lemma MemoryIgnoresChoices(w: World, w': World)
    requires Memory(w) && w' == w.(chosen := w'.chosen)
    ensures Memory(w')
  {
    forall p, t | (p, t) in w'.acked ensures AckSound(w', p, t) {
      assert AckSound(w, p, t);
      KeptIgnoresChoices(w, w', t, w.acked[(p, t)], w.logs[p], w.race.ballots[p].term + 1);
    }
    forall v, t | v in w'.voteLogs && (v.voter, t) in w'.acked ensures VoteRemembers(w', v, t) {
      assert VoteRemembers(w, v, t);
      if t < v.term && Decisive(w, v) {
        KeptIgnoresChoices(w, w', t, w.acked[(v.voter, t)], w.voteLogs[v], v.term);
      }
    }
  }

  lemma KeptIgnoresChoices(w: World, w': World, t: nat, m: nat, log: seq<Entry>, bound: nat)
    requires AllKept(w, t, m, log, bound) && w' == w.(chosen := w'.chosen)
    ensures AllKept(w', t, m, log, bound)
  {
    forall n: nat | n <= m ensures Kept(w', t, n, log, bound) {
      assert Kept(w, t, n, log, bound);
    }
  }

  /** What a quorum of term `t` acknowledged was in every later leader's log before it won. */
  lemma QuorumReachesLaterLeaders(w: World, t: nat, n: nat, quorum: set<NodeId>, t': nat)
    requires WorldInv(w) && QuorumHolds(w, t, n, quorum) && t < t'
    requires t' in w.reigns && t' in w.race.won
    ensures var base := (t', w.race.won[t'].leader);
      base in w.stood && Agree(w.reigns[t], w.stood[base], n)
  {
    ChoiceMayBeAdded(w, t, n, quorum);
    hide WorldInv, Histories, Memory;
    ChosenReachesLaterLeaders(WithChoice(w, t, n, quorum), t, t');
  }

  /** Leader completeness.  An entry of its own term that a leader's commit rule covers is, with
      everything before it, in the log of every leader of every later term, at every time. */
  lemma LeaderCompleteness(members: set<NodeId>, nets: seq<Net>, events: seq<Event>,
                           a: nat, i: NodeId, n: nat, b: nat, j: NodeId)
    requires SafeRun(members, nets, events) && a < |nets| && b < |nets| && i in members && j in members
    requires i in nets[a].servers && j in nets[b].servers
    requires CommitRule(nets[a].servers[i], n)
    requires nets[b].servers[j].role == Leader && nets[b].servers[j].term > nets[a].servers[i].term
    ensures n <= LastLogIndex(nets[b].servers[j]) && SameUpTo(nets[a].servers[i], nets[b].servers[j], n)
  {
    hide SafeRun, WorldInv, NodeSim, Sim, QuorumHolds;
    var ws := RunSim(members, nets, events);
    At(members, nets, events, ws, a, i);
    At(members, nets, events, ws, b, j);
    var s, r := nets[a].servers[i], nets[b].servers[j];
    var quorum := RuleMeansQuorum(ws[a], i, s, n);
    LeaderReign(ws[a], i, s);
    LeaderReign(ws[b], j, r);
    var w := Meet(ws, nets, a, b);
    QuorumLasts(ws[a], w, s.term, n, quorum);
    hide LastLogIndex, CommitRule;
    QuorumReachesLaterLeaders(w, s.term, n, quorum, r.term);
    BaseOfLeader(ws[a], ws[b], w, s.term, n, r.term);
    SameFromAgree(ws[a], i, s, ws[b], j, r, n);
  }

  /** A later leader's log, seen from any world after it won, starts with the log it stood with. */
  lemma BaseOfLeader(v: World, u: World, w: World, t: nat, n: nat, t': nat)
    requires Grows(v, w) && Grows(u, w) && t in v.reigns && n <= |v.reigns[t]|
    requires t' in u.reigns && ReignSound(u, t')
    requires t' in w.race.won && (t', w.race.won[t'].leader) in w.stood
    requires t in w.reigns && Agree(w.reigns[t], w.stood[(t', w.race.won[t'].leader)], n)
    ensures Agree(v.reigns[t], u.reigns[t'], n)
  {
    var base := u.stood[(t', u.race.won[t'].leader)];
    assert w.stood[(t', w.race.won[t'].leader)] == base;
    AgreePrefix(v.reigns[t], w.reigns[t], n);
    AgreePrefix(base, u.reigns[t'], n);
    AgreeTrans(v.reigns[t], base, u.reigns[t'], n);
  }

  // -------------------------------------------------------- acknowledgements

  /** Acknowledgements are about the follower's whole log.  What a leader believes a follower to hold
      is in that follower's log, entry for entry, for as long as the follower stays in the term. */
  lemma MatchIndexIsHeld(members: set<NodeId>, nets: seq<Net>, events: seq<Event>,
                         a: nat, i: NodeId, b: nat, p: NodeId)
    requires SafeRun(members, nets, events) && a <= b < |nets| && i in members
    requires i in nets[a].servers && nets[a].servers[i].role == Leader
    requires p in nets[a].servers[i].matchIndex && nets[a].servers[i].matchIndex[p] > 0
    requires p in nets[b].servers && nets[b].servers[p].term == nets[a].servers[i].term
    ensures var s, r := nets[a].servers[i], nets[b].servers[p];
      s.matchIndex[p] <= LastLogIndex(r) && s.matchIndex[p] <= LastLogIndex(s) && SameUpTo(s, r, s.matchIndex[p])
  {
    hide WorldInv, NodeSim, Sim, Possible, Step, Safe, Fold, Replay;
    var ws := RunSim(members, nets, events);
    At(members, nets, events, ws, a, i);
    var s, r := nets[a].servers[i], nets[b].servers[p];
    SoundBooks(ws[a], i, s);
    At(members, nets, events, ws, b, p);
    var m := s.matchIndex[p];
    assert (p, s.term) in ws[a].acked && m <= ws[a].acked[(p, s.term)];
    hide SafeRun;
    LeaderReign(ws[a], i, s);
    AckWithinReign(ws[a], p, s.term);
    assert Grows(ws[a], ws[b]);
    HeldLater(ws[a], ws[b], p, r, s.term, m);
    SameFromAgree(ws[a], i, s, ws[b], p, r, m);
  }

  lemma HeldLater(v: World, w: World, p: NodeId, r: Server, t: nat, m: nat)
    requires WorldInv(w) && Grows(v, w) && NodeSim(w, p, r) && r.term == t
    requires (p, t) in v.acked && t in v.reigns && m <= v.acked[(p, t)] <= |v.reigns[t]|
    ensures Agree(v.reigns[t], w.logs[p], m) && m <= LastLogIndex(r)
  {
    hide WorldInv, Fold, Replay;
    assert (p, t) in w.acked;
    AckedIsHeld(w, p);
    AgreeLess(w.reigns[t], w.logs[p], w.acked[(p, t)], m);
    AgreePrefix(v.reigns[t], w.reigns[t], m);
    AgreeTrans(v.reigns[t], w.reigns[t], w.logs[p], m);
    AppliedOf(w, p, r);
  }

  /** The step in which node `p` answers a batch with success. */
  predicate Accepts(net: Net, e: Event, p: NodeId) {
    && e.Deliver? && e.i == p && e.p.AppendAsk? && p in net.servers
    && ProcessAppendEntries(net.servers[p], e.p.batch).1.success
  }

  lemma AcceptanceIsRecorded(w: World, net: Net, w': World, net': Net, e: Event, p: NodeId)
    requires Sim(w, net) && Possible(net, e) && net' == Step(net, e) && Accepts(net, e, p)
    requires Sim(w', net') && Grows(w, w')
    ensures var r := ProcessAppendEntries(net.servers[p], e.p.batch).1;
      && p in net'.servers && r.term == e.p.batch.term == net'.servers[p].term
      && r.matchIndex == LastLogIndex(net'.servers[p])
      && (p, r.term) in w'.acked && r.matchIndex <= w'.acked[(p, r.term)]
  {
    hide WorldInv, NodeSim, Grows, ApplyLogs, MergeEntries;
    var s := net.servers[p];
    var (s', r) := ProcessAppendEntries(s, e.p.batch);
    assert NodeSim(w, p, net.servers[p]);
    var reply := AppendReply(p, e.p.src, r);
    assert reply in net'.packets;
    assert PacketOk(w', reply);
    AcceptedTerm(w, p, s, e.p.batch);
  }

  lemma AcceptedTerm(w: World, p: NodeId, s: Server, req: AppendRequest)
    requires NodeSim(w, p, s) && ProcessAppendEntries(s, req).1.success
    ensures ProcessAppendEntries(s, req).1.term == ProcessAppendEntries(s, req).0.term == req.term
  {
    hide NodeSim, ApplyLogs, MergeEntries;
    var s1 := AdoptLeader(s, req.term, req.leader);
    var s2 := MergeEntries(s1, req.entries);
    MergeCommit(s1, req.entries);
    Compaction.ApplyKeepsTerm(s2.(commitIndex := if req.leaderCommit > LastLogIndex(s2) then LastLogIndex(s2) else req.leaderCommit));
  }

  lemma StepOf(members: set<NodeId>, nets: seq<Net>, events: seq<Event>, k: nat)
    requires SafeRun(members, nets, events) && k < |events|
    ensures k + 1 < |nets| && Possible(nets[k], events[k]) && nets[k + 1] == Step(nets[k], events[k])
  {
    hide Possible, Step, Safe, Initial;
    assert Possible(nets[k], events[k]);
  }

  /** A follower that accepted a batch of term `t` is left with a piece of that term's log. */
  lemma AcceptedPrefix(members: set<NodeId>, nets: seq<Net>, events: seq<Event>, ws: seq<World>, k: nat, p: NodeId)
    requires SafeRun(members, nets, events) && Tracks(ws, nets) && k < |events| && p in members && Accepts(nets[k], events[k], p)
    ensures var t := events[k].p.batch.term;
      && |nets| == |ws| && k + 1 < |nets| && p in nets[k].servers && p in nets[k + 1].servers
      && nets[k + 1].servers[p].term == t
      && ProcessAppendEntries(nets[k].servers[p], events[k].p.batch).1 == AppendResponse(t, true, LastLogIndex(nets[k + 1].servers[p]))
      && t in ws[k + 1].reigns && p in ws[k + 1].logs && ws[k + 1].logs[p] <= ws[k + 1].reigns[t]
      && NodeSim(ws[k + 1], p, nets[k + 1].servers[p])
  {
    hide WorldInv, NodeSim, Sim, Possible, Step, Grows, LastLogIndex, ProcessAppendEntries;
    StepOf(members, nets, events, k);
    At(members, nets, events, ws, k + 1, p);
    hide SafeRun;
    assert Sim(ws[k], nets[k]) && Sim(ws[k + 1], nets[k + 1]) && Grows(ws[k], ws[k + 1]);
    AcceptanceIsRecorded(ws[k], nets[k], ws[k + 1], nets[k + 1], events[k], p);
    FollowerIsPrefix(ws[k + 1], p, nets[k + 1].servers[p], events[k].p.batch.term);
  }

  /** Acknowledgement soundness.  When a follower answers a batch of term `t` with success, the index
      it reports is the end of its log, and that whole log is a piece of the log of the one leader of
      `t`: they never differ, and from then on the leader's is at least as long. */
  lemma AcknowledgementSoundness(members: set<NodeId>, nets: seq<Net>, events: seq<Event>,
                                 k: nat, p: NodeId, b: nat, j: NodeId)
    requires SafeRun(members, nets, events) && k < |events| && p in members && Accepts(nets[k], events[k], p)
    requires b < |nets| && j in members && j in nets[b].servers
    requires nets[b].servers[j].role == Leader && nets[b].servers[j].term == events[k].p.batch.term
    ensures k + 1 < |nets| && p in nets[k].servers && p in nets[k + 1].servers
    ensures var ack := ProcessAppendEntries(nets[k].servers[p], events[k].p.batch).1;
      ack.term == events[k].p.batch.term && ack.matchIndex == LastLogIndex(nets[k + 1].servers[p])
    ensures var s', r := nets[k + 1].servers[p], nets[b].servers[j];
      SameUpTo(s', r, LastLogIndex(s')) && (b > k ==> LastLogIndex(s') <= LastLogIndex(r))
  {
    hide SafeRun, Accepts, WorldInv, NodeSim, Sim, LastLogIndex, GetEntry, ProcessAppendEntries, SameUpTo;
    var ws := RunSim(members, nets, events);
    AcceptedPrefix(members, nets, events, ws, k, p);
    At(members, nets, events, ws, b, j);
    PrefixMeetsLeader(ws, nets, k + 1, p, b, j);
  }

  lemma PrefixMeetsLeader(ws: seq<World>, nets: seq<Net>, a: nat, p: NodeId, b: nat, j: NodeId)
    requires Tracks(ws, nets) && a < |nets| && b < |nets|
    requires p in nets[a].servers && NodeSim(ws[a], p, nets[a].servers[p]) && p in ws[a].logs
    requires j in nets[b].servers && NodeSim(ws[b], j, nets[b].servers[j]) && WorldInv(ws[b])
    requires nets[b].servers[j].role == Leader && nets[b].servers[j].term in ws[a].reigns
    requires ws[a].logs[p] <= ws[a].reigns[nets[b].servers[j].term]
    ensures var s, r := nets[a].servers[p], nets[b].servers[j];
      SameUpTo(s, r, LastLogIndex(s)) && (b >= a ==> LastLogIndex(s) <= LastLogIndex(r))
  {
    hide WorldInv, NodeSim, Sim, LastLogIndex, GetEntry, ReignSound;
    var s, r := nets[a].servers[p], nets[b].servers[j];
    LeaderReign(ws[b], j, r);
    var w := Meet(ws, nets, a, b);
    AppliedOf(ws[b], j, r);
    AppliedOf(ws[a], p, s);
    var mine, theirs := ws[a].logs[p], ws[b].logs[j];
    assert mine <= w.reigns[r.term] && theirs <= w.reigns[r.term];
    var n := if |mine| <= |theirs| then |mine| else |theirs|;
    BothPrefixes(mine, theirs, w.reigns[r.term], n);
    SameFromAgree(ws[a], p, s, ws[b], j, r, n);
    HeldBounds(s, r, n);
  }

  lemma HeldBounds(s: Server, r: Server, n: nat)
    requires SameUpTo(s, r, n) && (LastLogIndex(s) <= n || LastLogIndex(r) <= n)
    ensures SameUpTo(s, r, LastLogIndex(s))
  {
    hide LastLogIndex, GetEntry;
  }

  lemma BothPrefixes(a: seq<Entry>, b: seq<Entry>, c: seq<Entry>, n: nat)
    requires a <= c && b <= c && n <= |a| && n <= |b|
    ensures Agree(a, b, n)
  {
    AgreePrefix(a, c, n);
    AgreePrefix(b, c, n);
  }

  lemma FollowerIsPrefix(w: World, p: NodeId, s: Server, t: nat)
    requires WorldInv(w) && NodeSim(w, p, s) && s.term == t
    requires (p, t) in w.acked && LastLogIndex(s) <= w.acked[(p, t)]
    ensures t in w.reigns && p in w.logs && w.logs[p] <= w.reigns[t]
  {
    hide WorldInv, Fold, Replay;
    AckedIsHeld(w, p);
    AppliedOf(w, p, s);
    assert w.logs[p][..|w.logs[p]|] == w.logs[p];
  }
}
