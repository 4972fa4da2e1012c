/** From a client's command to its effect, over whole runs: what a success promises about the command
    that was submitted. */
module Requests {
  import opened Config
  import opened Log
  import opened Wal
  import opened KeyValue
  import opened Election
  import opened Replication
  import opened ReplicationProof
  import opened ServerSpec
  import opened Compaction
  import opened Cluster
  import opened Simulation
  import opened HandlerSim
  import opened Safety
  import opened Theorems
  import opened LogTheorems
  import Answers
  import ExactlyOnce

  // ------------------------------------------------------------- submissions

  /** The step in which node `i`, leading `term`, takes a command whose entry will have index `index`. */
  ghost predicate Takes(nets: seq<Net>, events: seq<Event>, a: nat, i: NodeId, id: nat, index: nat, term: nat) {
    && a < |events| && a < |nets| && events[a].Client? && events[a].i == i && events[a].request == id
    && i in nets[a].servers && nets[a].servers[i].role == Leader && nets[a].servers[i].term == term
    && index == LastLogIndex(nets[a].servers[i]) + 1
  }

  /** The log of the run's history at `index` is the command that was submitted, in the term it was
      submitted in. */
  ghost predicate Became(nets: seq<Net>, events: seq<Event>, a: nat, i: NodeId, id: nat, history: seq<Entry>) {
    exists index: nat, term: nat :: Takes(nets, events, a, i, id, index, term) && BecameAt(events, a, index, term, history)
  }

  predicate BecameAt(events: seq<Event>, a: nat, index: nat, term: nat, history: seq<Entry>) {
    a < |events| && events[a].Client? && 1 <= index <= |history| && history[index - 1] == Entry(index, term, Op(events[a].cmd))
  }

  /** A submitted command is in the leader's log, unchanged, right after it was taken. */
  lemma TakenIsLogged(members: set<NodeId>, nets: seq<Net>, events: seq<Event>, ws: seq<World>,
                      a: nat, i: NodeId, id: nat, index: nat, term: nat)
    requires SafeRun(members, nets, events) && Tracks(ws, nets) && i in members && |nets| == |events| + 1
    requires forall k: nat {:trigger LogsAt(ws, nets, events, k)} :: k < |events| ==> LogsAt(ws, nets, events, k)
    requires Takes(nets, events, a, i, id, index, term)
    ensures a + 1 < |ws| && i in ws[a + 1].logs && 1 <= index <= |ws[a + 1].logs[i]|
    ensures ws[a + 1].logs[i][index - 1] == Entry(index, term, Op(events[a].cmd))
  {
    hide SafeRun, Tracks, NodeSim, WorldInv, LastLogIndex;
    SameLength(ws, nets);
    At(members, nets, events, ws, a, i);
    AppliedOf(ws[a], i, nets[a].servers[i]);
    assert LogsAt(ws, nets, events, a);
  }

  lemma SameLength(ws: seq<World>, nets: seq<Net>)
    requires Tracks(ws, nets)
    ensures |ws| == |nets|
  {
  }

  /** Two nodes, at two times, whose logs carry the same term at an index have the same entry there. */
  lemma SameEntry(members: set<NodeId>, nets: seq<Net>, events: seq<Event>, ws: seq<World>,
                  a: nat, i: NodeId, b: nat, j: NodeId, k: nat)
    requires SafeRun(members, nets, events) && Tracks(ws, nets) && a < |nets| && b < |nets| && i in members && j in members
    requires |ws| == |nets| && i in ws[a].logs && j in ws[b].logs
    requires 1 <= k <= |ws[a].logs[i]| && k <= |ws[b].logs[j]| && TermAt(ws[a].logs[i], k) == TermAt(ws[b].logs[j], k)
    ensures ws[a].logs[i][k - 1] == ws[b].logs[j][k - 1]
  {
    hide SafeRun, WorldInv, NodeSim, Sim, Grows, LastLogIndex;
    At(members, nets, events, ws, a, i);
    At(members, nets, events, ws, b, j);
    var w := Meet(ws, nets, a, b);
    NodeLineage(ws[a], i, nets[a].servers[i]);
    NodeLineage(ws[b], j, nets[b].servers[j]);
    LineageGrows(ws[a], w, ws[a].logs[i]);
    LineageGrows(ws[b], w, ws[b].logs[j]);
    LineagesMatch(w.reigns, ws[a].logs[i], ws[b].logs[j], k);
    AgreeAt(ws[a].logs[i], ws[b].logs[j], k, k - 1);
  }

  /** The command is the entry.  Wherever in a run a node holds the entry of a submission, by its index and
      term, it holds exactly the command that was submitted. */
  lemma EntryIsTheCommand(members: set<NodeId>, nets: seq<Net>, events: seq<Event>,
                          a: nat, i: NodeId, id: nat, index: nat, term: nat, b: nat, j: NodeId)
    requires SafeRun(members, nets, events) && |nets| == |events| + 1 && i in members && j in members && b < |nets|
    requires Takes(nets, events, a, i, id, index, term)
    requires j in nets[b].servers && Held(nets[b].servers[j], index) && EntryTerm(nets[b].servers[j], index) == term
    ensures GetEntry(nets[b].servers[j], index) == Some(Entry(index, term, Op(events[a].cmd)))
  {
    hide SafeRun, WorldInv, NodeSim, Sim, Grows, Takes;
    var ws := RunSim(members, nets, events);
    SameLength(ws, nets);
    TakenIsLogged(members, nets, events, ws, a, i, id, index, term);
    At(members, nets, events, ws, b, j);
    AppliedOf(ws[b], j, nets[b].servers[j]);
    InLogs(ws[b], j, nets[b].servers[j]);
    SameEntry(members, nets, events, ws, a + 1, i, b, j, index);
  }

  // ----------------------------------------------------------------- answers

  ghost predicate Submitted(nets: seq<Net>, events: seq<Event>, b: nat, i: NodeId, p: Proposal) {
    exists a: nat :: a < b && Takes(nets, events, a, i, p.id, p.index, p.term)
  }

  ghost predicate InLog(w: World, i: NodeId, p: Proposal) {
    && i in w.logs && i in w.commits && 1 <= p.index <= w.commits[i] <= |w.logs[i]|
    && TermAt(w.logs[i], p.index) == p.term
  }

  /** At some time up to `b` a submission with this id was in the node's log, and committed. */
  ghost predicate WasCommitted(ws: seq<World>, nets: seq<Net>, events: seq<Event>, b: nat, i: NodeId, id: nat) {
    exists c: nat, p: Proposal :: c <= b && CommittedBy(ws, nets, events, c, i, id, p)
  }

  ghost predicate CommittedBy(ws: seq<World>, nets: seq<Net>, events: seq<Event>, c: nat, i: NodeId, id: nat, p: Proposal) {
    c < |ws| && p.id == id && Submitted(nets, events, c, i, p) && InLog(ws[c], i, p)
  }

  /** Only a leader has a queue, all of it was submitted, and every success was committed. */
  ghost predicate Honoured(ws: seq<World>, nets: seq<Net>, events: seq<Event>, b: nat, i: NodeId, s: Server) {
    && (s.role != Leader ==> s.proposals == [])
    && (forall p {:trigger p in s.proposals} :: p in s.proposals ==> Submitted(nets, events, b, i, p))
    && forall k {:trigger s.answers[k]} :: 0 <= k < |s.answers| && s.answers[k].ok ==>
         WasCommitted(ws, nets, events, b, i, s.answers[k].id)
  }

  /** Nothing new: the queue shrank, and what was answered since was refused. */
  ghost predicate Calm(s: Server, s': Server) {
    && (s'.role != Leader ==> s'.proposals == [])
    && (forall p :: p in s'.proposals ==> p in s.proposals)
    && s.answers <= s'.answers
    && forall k {:trigger s'.answers[k]} :: |s.answers| <= k < |s'.answers| ==> !s'.answers[k].ok
  }

  lemma SubmittedLater(nets: seq<Net>, events: seq<Event>, b: nat, c: nat, i: NodeId, p: Proposal)
    requires Submitted(nets, events, b, i, p) && b <= c
    ensures Submitted(nets, events, c, i, p)
  {
  }

  lemma CommittedLater(ws: seq<World>, nets: seq<Net>, events: seq<Event>, b: nat, c: nat, i: NodeId, id: nat)
    requires WasCommitted(ws, nets, events, b, i, id) && b <= c
    ensures WasCommitted(ws, nets, events, c, i, id)
  {
    var d: nat, p :| d <= b && CommittedBy(ws, nets, events, d, i, id, p);
    assert d <= c && CommittedBy(ws, nets, events, d, i, id, p);
  }

  lemma CalmIsHonoured(ws: seq<World>, nets: seq<Net>, events: seq<Event>, b: nat, i: NodeId, s: Server, s': Server)
    requires Honoured(ws, nets, events, b, i, s) && Calm(s, s')
    ensures Honoured(ws, nets, events, b + 1, i, s')
  {
    hide Submitted, WasCommitted;
    forall p | p in s'.proposals ensures Submitted(nets, events, b + 1, i, p) {
      SubmittedLater(nets, events, b, b + 1, i, p);
    }
    forall k {:trigger s'.answers[k]} | 0 <= k < |s'.answers| && s'.answers[k].ok
      ensures WasCommitted(ws, nets, events, b + 1, i, s'.answers[k].id)
    {
      assert k < |s.answers| && s'.answers[k] == s.answers[k];
      CommittedLater(ws, nets, events, b, b + 1, i, s.answers[k].id);
    }
  }

  // ---------------------------------------------------------- the calm handlers

  lemma AdoptedIsCalm(s: Server, term: nat, leader: NodeId)
    requires s.role != Leader ==> s.proposals == []
    requires s.role == Leader ==> s.term < term
    ensures var s' := AdoptLeader(s, term, leader);
      Calm(s, s') && s'.proposals == [] && s'.role != Leader
  {
    assert Refusals([]) == [];
  }

  /** With nobody waiting, applying answers nobody. */
  lemma {:induction false} ApplyAllCalm(s: Server)
    requires s.proposals == []
    ensures ApplyAll(s).proposals == [] && ApplyAll(s).answers == s.answers
    decreases if s.lastApplied < s.commitIndex then s.commitIndex - s.lastApplied else 0
  {
    if s.lastApplied < s.commitIndex {
      ApplyNextLeaves(s);
      assert Refusals([]) == [];
      hide ApplyNext;
      ApplyAllCalm(ApplyNext(s));
    }
  }

  lemma ApplyCalm(s: Server)
    requires s.proposals == []
    ensures ApplyLogs(s).proposals == [] && ApplyLogs(s).answers == s.answers
  {
    ApplyAllCalm(s);
    hide ApplyAll, Retained;
  }

  lemma BatchIsCalm(s: Server, req: AppendRequest)
    requires s.role != Leader ==> s.proposals == []
    requires s.role == Leader ==> s.term != req.term
    ensures Calm(s, ProcessAppendEntries(s, req).0)
  {
    hide MergeEntries, ApplyLogs, AdoptLeader, EntryTerm;
    if req.term >= s.term {
      AdoptedIsCalm(s, req.term, req.leader);
      var s1 := AdoptLeader(s, req.term, req.leader);
      MergeCommit(s1, req.entries);
      var s2 := MergeEntries(s1, req.entries);
      ApplyCalm(s2.(commitIndex := if req.leaderCommit > LastLogIndex(s2) then LastLogIndex(s2) else req.leaderCommit));
    }
  }

  lemma AskIsCalm(s: Server, ask: VoteRequest)
    requires s.role != Leader ==> s.proposals == []
    ensures Calm(s, ProcessRequestVote(s, ask).0)
  {
  }

  lemma VoteIsCalm(s: Server, peer: NodeId, vote: VoteResponse)
    requires s.role != Leader ==> s.proposals == []
    ensures Calm(s, ProcessRequestVoteResponse(s, peer, vote))
  {
    hide HasMajority, SetAll;
  }

  lemma RebootIsCalm(s: Server)
    ensures var s' := LoadState(s.id, s.config, s.threshold, s.disk, s.wal); s'.proposals == [] && s'.answers == []
  {
    hide Replay, After, ApplyLogs;
    ApplyCalm(Reloaded(s));
  }

  // ------------------------------------------------- the two handlers that answer

  /** Every new success of a step is for a queued or new request whose entry is committed. */
  lemma AnsweredIsHonoured(ws: seq<World>, nets: seq<Net>, events: seq<Event>, b: nat, i: NodeId, s: Server, s': Server,
                           ps: seq<Proposal>)
    requires Honoured(ws, nets, events, b, i, s) && b + 1 < |ws|
    requires forall p {:trigger p in ps} :: p in ps ==> Submitted(nets, events, b + 1, i, p)
    requires i in ws[b + 1].logs && i in ws[b + 1].commits && ws[b + 1].commits[i] == s'.commitIndex
    requires Answers.Honest(s, s', ps, ws[b + 1].logs[i]) && (s'.role != Leader ==> s'.proposals == [])
    ensures Honoured(ws, nets, events, b + 1, i, s')
  {
    hide Submitted, WasCommitted;
    forall k {:trigger s'.answers[k]} | 0 <= k < |s'.answers| && s'.answers[k].ok
      ensures WasCommitted(ws, nets, events, b + 1, i, s'.answers[k].id)
    {
      if k < |s.answers| {
        assert s'.answers[k] == s.answers[k];
        CommittedLater(ws, nets, events, b, b + 1, i, s.answers[k].id);
      } else {
        BackedIsCommitted(ws, nets, events, b + 1, i, s'.answers[k].id, ps, s'.commitIndex);
      }
    }
  }

  lemma BackedIsCommitted(ws: seq<World>, nets: seq<Net>, events: seq<Event>, c: nat, i: NodeId, id: nat, ps: seq<Proposal>, n: nat)
    requires c < |ws| && i in ws[c].logs && i in ws[c].commits && ws[c].commits[i] == n
    requires forall p {:trigger p in ps} :: p in ps ==> Submitted(nets, events, c, i, p)
    requires Answers.Backed(ps, id, n, ws[c].logs[i])
    ensures WasCommitted(ws, nets, events, c, i, id)
  {
    hide Submitted;
    var p :| p in ps && Answers.BackedBy(p, id, n, ws[c].logs[i]);
    assert CommittedBy(ws, nets, events, c, i, id, p);
  }

  /** What the answering handlers need of a node in a run. */
  lemma AtRest(w: World, i: NodeId, s: Server, ps: seq<Proposal>)
    requires WorldInv(w) && NodeSim(w, i, s) && Answers.Accepted(ps) && forall p :: p in s.proposals ==> p in ps
    ensures i in w.logs && i in w.commits && w.commits[i] == s.commitIndex && NoChange(w.logs[i])
    ensures Answers.Holds(s, w.logs[i], ps)
  {
    hide Fold, Replay, Memory;
    if s.role != Follower {
      RoleHasTerm(w, i);
    }
  }

  lemma RoleHasTerm(w: World, i: NodeId)
    requires WorldInv(w) && i in w.race.ballots && w.race.ballots[i].role != Follower
    ensures w.race.ballots[i].term >= 1
  {
    assert VotesCounted(w.race, i) && LeaderElected(w.race, i);
    if w.race.ballots[i].role == Leader {
      assert MandateSound(w.race, w.race.ballots[i].term);
    }
  }

  lemma SubmittedIsAccepted(nets: seq<Net>, events: seq<Event>, ws: seq<World>, members: set<NodeId>, b: nat, i: NodeId, p: Proposal)
    requires SafeRun(members, nets, events) && Tracks(ws, nets) && i in members && |nets| == |events| + 1
    requires Submitted(nets, events, b, i, p)
    ensures p.term >= 1 && p.index >= 1
  {
    hide SafeRun, Tracks, NodeSim, WorldInv;
    var a: nat :| a < b && Takes(nets, events, a, i, p.id, p.index, p.term);
    SameLength(ws, nets);
    At(members, nets, events, ws, a, i);
    LeaderHasTerm(ws[a], i, nets[a].servers[i]);
  }

  lemma LeaderHasTerm(w: World, i: NodeId, s: Server)
    requires WorldInv(w) && NodeSim(w, i, s) && s.role == Leader
    ensures s.term >= 1
  {
    hide Fold, Replay, WorldInv;
    RoleHasTerm(w, i);
  }

  // ------------------------------------------------------ only a leader has a queue

  predicate QueueOfLeader(s: Server) {
    s.role != Leader ==> s.proposals == []
  }

  lemma {:induction false} ApplyAllQueue(s: Server)
    requires QueueOfLeader(s)
    ensures QueueOfLeader(ApplyAll(s))
    decreases if s.lastApplied < s.commitIndex then s.commitIndex - s.lastApplied else 0
  {
    if s.lastApplied < s.commitIndex {
      ApplyNextLeaves(s);
      hide ApplyNext, Refusals;
      ApplyAllQueue(ApplyNext(s));
    }
  }

  lemma ApplyQueue(s: Server)
    requires QueueOfLeader(s)
    ensures QueueOfLeader(ApplyLogs(s))
  {
    ApplyAllQueue(s);
    hide ApplyAll, Retained;
  }

  lemma {:induction false} AdvanceQueue(s: Server, n: nat, last: nat)
    requires QueueOfLeader(s)
    ensures QueueOfLeader(AdvanceLeader(s, n, last))
    decreases last + 1 - n
  {
    hide ApplyLogs, CheckCommitMajority, EntryTerm;
    if n <= last {
      ApplyQueue(s.(commitIndex := n));
      if EntryTerm(s, n) == s.term && CheckCommitMajority(s, n) {
        AdvanceQueue(ApplyLogs(s.(commitIndex := n)), n + 1, last);
      } else {
        AdvanceQueue(s, n + 1, last);
      }
    }
  }

  lemma AckQueue(s: Server, peer: NodeId, ack: AppendResponse)
    requires QueueOfLeader(s)
    ensures QueueOfLeader(ProcessAppendEntriesResponse(s, peer, ack))
  {
    hide AdvanceLeader;
    var s1 := s.(matchIndex := s.matchIndex[peer := ack.matchIndex], nextIndex := s.nextIndex[peer := ack.matchIndex + 1]);
    AdvanceQueue(s1, s1.commitIndex + 1, LastLogIndex(s1));
  }

  lemma ClientQueue(s: Server, id: nat, cmd: Command)
    requires QueueOfLeader(s)
    ensures QueueOfLeader(HandleClientCommand(s, id, cmd))
  {
    hide ApplyLogs, CheckCommitMajority;
    if s.role == Leader {
      ApplyQueue(Proposed(s, id, cmd).(commitIndex := LastLogIndex(s) + 1));
    }
  }

  // ------------------------------------------------------------------ one step

  ghost predicate HonouredAt(ws: seq<World>, nets: seq<Net>, events: seq<Event>, b: nat, i: NodeId) {
    b < |nets| && i in nets[b].servers && Honoured(ws, nets, events, b, i, nets[b].servers[i])
  }

  /** A run, its history, and what each step logs. */
  ghost predicate Told(members: set<NodeId>, nets: seq<Net>, events: seq<Event>, ws: seq<World>) {
    && SafeRun(members, nets, events) && Tracks(ws, nets) && |nets| == |events| + 1 == |ws|
    && forall k: nat {:trigger LogsAt(ws, nets, events, k)} :: k < |events| ==> LogsAt(ws, nets, events, k)
  }

  lemma AckStep(members: set<NodeId>, nets: seq<Net>, events: seq<Event>, ws: seq<World>, b: nat, i: NodeId)
    requires Told(members, nets, events, ws) && i in members && b < |events| && HonouredAt(ws, nets, events, b, i)
    requires events[b].i == i && events[b].Deliver? && events[b].p.AppendReply?
    requires i in nets[b + 1].servers
    requires nets[b + 1].servers[i] == ProcessAppendEntriesResponse(nets[b].servers[i], events[b].p.src, events[b].p.ack)
    ensures HonouredAt(ws, nets, events, b + 1, i)
  {
    hide SafeRun, Tracks, NodeSim, WorldInv, Submitted, WasCommitted, Answers.Holds, Answers.Honest, ProcessAppendEntriesResponse,
      Answers.Accepted;
    var s, s' := nets[b].servers[i], nets[b + 1].servers[i];
    At(members, nets, events, ws, b, i);
    At(members, nets, events, ws, b + 1, i);
    QueueIsAccepted(members, nets, events, ws, b, i, s);
    AtRest(ws[b], i, s, s.proposals);
    CommitsOf(ws[b + 1], i, s');
    assert LogsAt(ws, nets, events, b);
    var full' := Answers.AckProceeds(s, ws[b].logs[i], events[b].p.src, events[b].p.ack, s.proposals);
    AckQueue(s, events[b].p.src, events[b].p.ack);
    forall p | p in s.proposals ensures Submitted(nets, events, b + 1, i, p) {
      SubmittedLater(nets, events, b, b + 1, i, p);
    }
    HonestQueue(s, s', s.proposals, full');
    AnsweredIsHonoured(ws, nets, events, b, i, s, s', s.proposals);
  }

  lemma HonestQueue(s: Server, s': Server, ps: seq<Proposal>, full: seq<Entry>)
    requires Answers.Honest(s, s', ps, full)
    ensures forall p :: p in s'.proposals ==> p in ps
  {
  }

  lemma CommitsOf(w: World, i: NodeId, s: Server)
    requires NodeSim(w, i, s)
    ensures i in w.logs && i in w.commits && w.commits[i] == s.commitIndex
  {
    hide Fold, Replay;
  }

  lemma QueueIsAccepted(members: set<NodeId>, nets: seq<Net>, events: seq<Event>, ws: seq<World>, b: nat, i: NodeId, s: Server)
    requires Told(members, nets, events, ws) && i in members && Honoured(ws, nets, events, b, i, s)
    ensures Answers.Accepted(s.proposals)
  {
    hide SafeRun, Tracks, Submitted, WasCommitted;
    forall p | p in s.proposals ensures p.term >= 1 && p.index >= 1 {
      SubmittedIsAccepted(nets, events, ws, members, b, i, p);
    }
  }

  lemma ClientStep(members: set<NodeId>, nets: seq<Net>, events: seq<Event>, ws: seq<World>, b: nat, i: NodeId)
    requires Told(members, nets, events, ws) && i in members && b < |events| && HonouredAt(ws, nets, events, b, i)
    requires events[b].i == i && events[b].Client? && nets[b].servers[i].role == Leader
    requires i in nets[b + 1].servers
    requires nets[b + 1].servers[i] == HandleClientCommand(nets[b].servers[i], events[b].request, events[b].cmd)
    ensures HonouredAt(ws, nets, events, b + 1, i)
  {
    hide SafeRun, Tracks, NodeSim, WorldInv, Submitted, WasCommitted, Answers.Holds, Answers.Honest, HandleClientCommand,
      Answers.Accepted, LastLogIndex;
    var s, s' := nets[b].servers[i], nets[b + 1].servers[i];
    var id, cmd := events[b].request, events[b].cmd;
    At(members, nets, events, ws, b, i);
    At(members, nets, events, ws, b + 1, i);
    var mine := Proposal(LastLogIndex(s) + 1, s.term, id);
    var ps := s.proposals + [mine];
    assert Takes(nets, events, b, i, id, mine.index, mine.term);
    NewIsSubmitted(nets, events, b, i, mine);
    forall p | p in ps ensures Submitted(nets, events, b + 1, i, p) {
      if p in s.proposals {
        SubmittedLater(nets, events, b, b + 1, i, p);
      }
    }
    AllAccepted(members, nets, events, ws, b + 1, i, ps);
    AtRest(ws[b], i, s, ps);
    CommitsOf(ws[b + 1], i, s');
    assert LogsAt(ws, nets, events, b);
    assert Answers.Joined(s, Answers.Journal.Input.Command(id, cmd)) == [mine];
    var full' := Answers.CommandProceeds(s, ws[b].logs[i], id, cmd, ps);
    ClientQueue(s, id, cmd);
    HonestQueue(s, s', ps, full');
    AnsweredIsHonoured(ws, nets, events, b, i, s, s', ps);
  }

  lemma NewIsSubmitted(nets: seq<Net>, events: seq<Event>, b: nat, i: NodeId, p: Proposal)
    requires Takes(nets, events, b, i, p.id, p.index, p.term)
    ensures Submitted(nets, events, b + 1, i, p)
  {
    hide Takes;
  }

  lemma AllAccepted(members: set<NodeId>, nets: seq<Net>, events: seq<Event>, ws: seq<World>, b: nat, i: NodeId, ps: seq<Proposal>)
    requires Told(members, nets, events, ws) && i in members
    requires forall p {:trigger p in ps} :: p in ps ==> Submitted(nets, events, b, i, p)
    ensures Answers.Accepted(ps)
  {
    hide SafeRun, Tracks, Submitted;
    forall p | p in ps ensures p.term >= 1 && p.index >= 1 {
      SubmittedIsAccepted(nets, events, ws, members, b, i, p);
    }
  }

  /** A batch of the leader's own term never reaches it. */
  lemma NoRivalBatch(w: World, net: Net, i: NodeId, p: Packet)
    requires Sim(w, net) && WorldInv(w) && i in net.servers && NodeSim(w, i, net.servers[i])
    requires p in net.packets && p.AppendAsk? && p.dst == i && net.servers[i].role == Leader
    ensures net.servers[i].term != p.batch.term
  {
    hide WorldInv, NodeSim;
    assert PacketOk(w, p);
    LeaderHasNoLeader(w, i, net.servers[i], p.batch);
  }

  lemma OtherStepIsCalm(w: World, net: Net, e: Event)
    requires Sim(w, net) && WorldInv(w) && Possible(net, e) && NodeSim(w, e.i, net.servers[e.i])
    requires QueueOfLeader(net.servers[e.i]) && !e.Reboot? && !(e.Deliver? && e.p.AppendReply?)
    requires e.Client? ==> net.servers[e.i].role != Leader
    ensures Calm(net.servers[e.i], React(net.servers[e.i], e).0)
  {
    hide Sim, WorldInv, NodeSim, ProcessAppendEntries, ProcessRequestVote, ProcessRequestVoteResponse, SetAll;
    var s := net.servers[e.i];
    match e
    case Timeout(_) =>
    case Deliver(_, p) =>
      if p.VoteAsk? {
        AskIsCalm(s, p.ask);
      } else if p.VoteReply? {
        VoteIsCalm(s, p.src, p.vote);
      } else {
        if s.role == Leader {
          NoRivalBatch(w, net, e.i, p);
        }
        BatchIsCalm(s, p.batch);
      }
    case Replicate(_, _) =>
    case Probe(_, _) =>
    case Client(_, _, _) =>
  }

  lemma SelfIsCalm(s: Server)
    requires QueueOfLeader(s)
    ensures Calm(s, s)
  {
  }

  lemma NothingToHonour(ws: seq<World>, nets: seq<Net>, events: seq<Event>, b: nat, i: NodeId, s: Server)
    requires s.proposals == [] && s.answers == []
    ensures Honoured(ws, nets, events, b, i, s)
  {
  }

  lemma HonouredStep(members: set<NodeId>, nets: seq<Net>, events: seq<Event>, ws: seq<World>, b: nat, i: NodeId)
    requires Told(members, nets, events, ws) && i in members && b < |events| && HonouredAt(ws, nets, events, b, i)
    ensures HonouredAt(ws, nets, events, b + 1, i)
  {
    hide SafeRun, Tracks, NodeSim, WorldInv, Sim, Submitted, WasCommitted, Possible, Calm;
    var e, s := events[b], nets[b].servers[i];
    StepOf(members, nets, events, b);
    At(members, nets, events, ws, b, i);
    At(members, nets, events, ws, b + 1, i);
    SimAt(ws, nets, b, i);
    if e.i != i {
      SelfIsCalm(s);
      CalmIsHonoured(ws, nets, events, b, i, s, nets[b + 1].servers[i]);
    } else if e.Reboot? {
      RebootIsCalm(s);
      NothingToHonour(ws, nets, events, b + 1, i, nets[b + 1].servers[i]);
    } else if e.Deliver? && e.p.AppendReply? {
      AckStep(members, nets, events, ws, b, i);
    } else if e.Client? && s.role == Leader {
      ClientStep(members, nets, events, ws, b, i);
    } else {
      OtherStepIsCalm(ws[b], nets[b], e);
      CalmIsHonoured(ws, nets, events, b, i, s, nets[b + 1].servers[i]);
    }
  }

  lemma {:induction false} RunIsHonoured(members: set<NodeId>, nets: seq<Net>, events: seq<Event>, ws: seq<World>, b: nat, i: NodeId)
    requires Told(members, nets, events, ws) && i in members && b < |nets|
    ensures HonouredAt(ws, nets, events, b, i)
    decreases b
  {
    hide SafeRun, Tracks;
    if b == 0 {
      BeginsEmpty(members, nets, events, i);
      NothingToHonour(ws, nets, events, 0, i, nets[0].servers[i]);
    } else {
      RunIsHonoured(members, nets, events, ws, b - 1, i);
      HonouredStep(members, nets, events, ws, b - 1, i);
    }
  }

  lemma BeginsEmpty(members: set<NodeId>, nets: seq<Net>, events: seq<Event>, i: NodeId)
    requires SafeRun(members, nets, events) && i in members
    ensures nets != [] && i in nets[0].servers && nets[0].servers[i].proposals == [] && nets[0].servers[i].answers == []
  {
    hide Step, Possible;
    assert NeverRan(nets[0], members, i);
  }

  // ------------------------------------------------------------- the guarantees

  /** A success is about the command.  Every run has one history, of which every node has applied a prefix,
      and whenever a node answered a request with success, the request was submitted to it while it led, and
      the history holds at the request's index exactly the command that was submitted. */
  lemma SuccessIsTheCommand(members: set<NodeId>, nets: seq<Net>, events: seq<Event>) returns (history: seq<Entry>)
    requires SafeRun(members, nets, events) && |nets| == |events| + 1
    ensures forall b, i {:trigger FollowsAt(nets, b, i, history)} :: 0 <= b < |nets| && i in members ==> FollowsAt(nets, b, i, history)
    ensures forall b: nat, i, k: nat {:trigger AnswersWell(nets, events, b, i, k, history)} ::
      b < |nets| && i in members ==> AnswersWell(nets, events, b, i, k, history)
  {
    hide SafeRun, Tracks, FollowsAt, AnswersWell;
    var ws := RunSim(members, nets, events);
    SameLength(ws, nets);
    history := HistoryOf(members, nets, events, ws);
    forall b: nat, i, k: nat | b < |nets| && i in members ensures AnswersWell(nets, events, b, i, k, history) {
      SuccessBecame(members, nets, events, ws, history, b, i, k);
    }
  }

  /** If answer `k` of node `i` at time `b` is a success, its command became part of the history. */
  ghost predicate AnswersWell(nets: seq<Net>, events: seq<Event>, b: nat, i: NodeId, k: nat, history: seq<Entry>)
    requires b < |nets|
  {
    && i in nets[b].servers
    && (k < |nets[b].servers[i].answers| && nets[b].servers[i].answers[k].ok ==>
          exists a: nat :: a < b && Became(nets, events, a, i, nets[b].servers[i].answers[k].id, history))
  }

  /** Every node's unbounded log starts with what it applied of the history. */
  ghost predicate PrefixesOf(members: set<NodeId>, nets: seq<Net>, ws: seq<World>, history: seq<Entry>)
    requires |ws| == |nets|
  {
    forall a, i {:trigger FollowsAt(nets, a, i, history)} :: 0 <= a < |nets| && i in members ==>
      FollowsAt(nets, a, i, history) && i in ws[a].logs && Agree(ws[a].logs[i], history, nets[a].servers[i].lastApplied)
  }

  lemma SuccessBecame(members: set<NodeId>, nets: seq<Net>, events: seq<Event>, ws: seq<World>, history: seq<Entry>,
                      b: nat, i: NodeId, k: nat)
    requires Told(members, nets, events, ws) && b < |nets| && i in members && PrefixesOf(members, nets, ws, history)
    ensures AnswersWell(nets, events, b, i, k, history)
  {
    hide SafeRun, Tracks, Submitted, WasCommitted, Became, PrefixesOf;
    RunIsHonoured(members, nets, events, ws, b, i);
    var s := nets[b].servers[i];
    if k < |s.answers| && s.answers[k].ok {
      assert WasCommitted(ws, nets, events, b, i, s.answers[k].id);
      var a := CommittedBecame(members, nets, events, ws, history, b, i, s.answers[k].id);
    }
  }

  lemma CommittedBecame(members: set<NodeId>, nets: seq<Net>, events: seq<Event>, ws: seq<World>, history: seq<Entry>,
                        b: nat, i: NodeId, id: nat)
    returns (a: nat)
    requires Told(members, nets, events, ws) && b < |nets| && i in members && PrefixesOf(members, nets, ws, history)
    requires WasCommitted(ws, nets, events, b, i, id)
    ensures a < b && Became(nets, events, a, i, id, history)
  {
    hide SafeRun, Tracks, NodeSim, WorldInv, Takes, FollowsAt;
    var c: nat, p :| c <= b && CommittedBy(ws, nets, events, c, i, id, p);
    a :| a < c && Takes(nets, events, a, i, p.id, p.index, p.term);
    TakesIsEvent(nets, events, a, i, p.id, p.index, p.term);
    TakenIsLogged(members, nets, events, ws, a, i, p.id, p.index, p.term);
    At(members, nets, events, ws, c, i);
    NothingBehind(ws[c], i, nets[c].servers[i]);
    SameEntry(members, nets, events, ws, a + 1, i, c, i, p.index);
    assert FollowsAt(nets, c, i, history);
    AgreeAt(ws[c].logs[i], history, nets[c].servers[i].lastApplied, p.index - 1);
    assert BecameAt(events, a, p.index, p.term, history);
  }

  lemma TakesIsEvent(nets: seq<Net>, events: seq<Event>, a: nat, i: NodeId, id: nat, index: nat, term: nat)
    requires Takes(nets, events, a, i, id, index, term)
    ensures a < |events| && events[a].Client? && index >= 1
  {
  }

  lemma NothingBehind(w: World, i: NodeId, s: Server)
    requires NodeSim(w, i, s)
    ensures i in w.commits && s.lastApplied == w.commits[i]
  {
    hide Fold, Replay;
  }

  predicate Carries(history: seq<Entry>, n: nat, cmd: Command) {
    n < |history| && history[n].payload == Op(cmd)
  }

  ghost predicate Effective(history: seq<Entry>, n: nat, cmd: Command) {
    Carries(history, n, cmd) && ExactlyOnce.TakesEffect(history, n)
  }

  /** The command is in the history, and however often it is, at most one of its entries takes effect:
      the first of them, unless the client had a later request committed before it. */
  ghost predicate TakesEffectOnce(history: seq<Entry>, cmd: Command) {
    && (exists n: nat :: Carries(history, n, cmd))
    && (forall m: nat, n: nat {:trigger Effective(history, m, cmd), Effective(history, n, cmd)} ::
          Effective(history, m, cmd) && Effective(history, n, cmd) ==> m == n)
    && (forall n: nat {:trigger Carries(history, n, cmd)} ::
          Carries(history, n, cmd) && NewestOfItsClient(history, n, cmd) ==> Effective(history, n, cmd))
  }

  /** Every write of the client before `n` has a smaller request id. */
  ghost predicate NewestOfItsClient(history: seq<Entry>, n: nat, cmd: Command)
    requires n < |history|
  {
    forall j: nat {:trigger history[j]} :: j < n && ExactlyOnce.TrackedWrite(history[j]) && history[j].payload.cmd.client == cmd.client ==>
      history[j].payload.cmd.request < cmd.request
  }

  lemma CarriedOnce(history: seq<Entry>, n: nat, cmd: Command)
    requires Carries(history, n, cmd) && IsWrite(cmd) && Tracked(cmd)
    ensures TakesEffectOnce(history, cmd)
  {
    forall m: nat, n: nat | Effective(history, m, cmd) && Effective(history, n, cmd) ensures m == n {
      ExactlyOnce.AtMostOneEffect(history, m, n);
    }
    forall n: nat | Carries(history, n, cmd) && NewestOfItsClient(history, n, cmd)
      ensures Effective(history, n, cmd)
    {
      ExactlyOnce.FirstTakesEffect(history, n);
    }
  }

  /** From end to end.  If a node answered a request with success, the run's history, whose prefixes are what
      the nodes have applied, holds the submitted command; and if that is a write that carries a client and a
      positive id, it takes effect once, however often and to whichever leaders it was submitted. */
  lemma AnsweredWriteTakesEffectOnce(members: set<NodeId>, nets: seq<Net>, events: seq<Event>, b: nat, i: NodeId, k: nat)
    returns (history: seq<Entry>, a: nat)
    requires SafeRun(members, nets, events) && |nets| == |events| + 1 && b < |nets| && i in members && i in nets[b].servers
    requires k < |nets[b].servers[i].answers| && nets[b].servers[i].answers[k].ok
    ensures forall c, j {:trigger FollowsAt(nets, c, j, history)} :: 0 <= c < |nets| && j in members ==> FollowsAt(nets, c, j, history)
    ensures a < b && a < |events| && events[a].Client? && events[a].i == i && events[a].request == nets[b].servers[i].answers[k].id
    ensures exists n: nat :: Carries(history, n, events[a].cmd)
    ensures IsWrite(events[a].cmd) && Tracked(events[a].cmd) ==> TakesEffectOnce(history, events[a].cmd)
  {
    hide SafeRun, FollowsAt, Became, TakesEffectOnce;
    history := SuccessIsTheCommand(members, nets, events);
    assert AnswersWell(nets, events, b, i, k, history);
    a :| a < b && Became(nets, events, a, i, nets[b].servers[i].answers[k].id, history);
    var n := BecameCarried(nets, events, a, i, nets[b].servers[i].answers[k].id, history);
    if IsWrite(events[a].cmd) && Tracked(events[a].cmd) {
      CarriedOnce(history, n, events[a].cmd);
    }
  }

  lemma BecameCarried(nets: seq<Net>, events: seq<Event>, a: nat, i: NodeId, id: nat, history: seq<Entry>) returns (n: nat)
    requires Became(nets, events, a, i, id, history)
    ensures a < |events| && events[a].Client? && events[a].i == i && events[a].request == id && Carries(history, n, events[a].cmd)
  {
    var index: nat, term: nat :| Takes(nets, events, a, i, id, index, term) && BecameAt(events, a, index, term, history);
    n := index - 1;
  }
}
