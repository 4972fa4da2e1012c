/** Client requests are neither lost nor answered twice. */
module Proposals {
  import opened Config
  import opened Log
  import opened Wal
  import opened KeyValue
  import opened Election
  import opened ServerSpec
  import opened HandlerSim
  import opened Journal
  import Compaction

  function Queued(ps: seq<Proposal>): multiset<nat> {
    if ps == [] then multiset{} else multiset{ps[0].id} + Queued(ps[1..])
  }

  function Answered(answers: seq<Answer>): multiset<nat> {
    if answers == [] then multiset{} else multiset{answers[0].id} + Answered(answers[1..])
  }

  /** Every request the node knows of, with how often it is queued or was answered. */
  function Ledger(s: Server): multiset<nat> {
    Queued(s.proposals) + Answered(s.answers)
  }

  lemma {:induction false} QueuedConcat(a: seq<Proposal>, b: seq<Proposal>)
    ensures Queued(a + b) == Queued(a) + Queued(b)
    decreases |a|
  {
    if a == [] {
      assert a + b == b;
    } else {
      assert (a + b)[1..] == a[1..] + b;
      QueuedConcat(a[1..], b);
    }
  }

  lemma {:induction false} AnsweredConcat(a: seq<Answer>, b: seq<Answer>)
    ensures Answered(a + b) == Answered(a) + Answered(b)
    decreases |a|
  {
    if a == [] {
      assert a + b == b;
    } else {
      assert (a + b)[1..] == a[1..] + b;
      AnsweredConcat(a[1..], b);
    }
  }

  lemma {:induction false} RefusalsAnswer(ps: seq<Proposal>)
    ensures Answered(Refusals(ps)) == Queued(ps)
    decreases |ps|
  {
    if ps != [] {
      assert Refusals(ps)[1..] == Refusals(ps[1..]);
      RefusalsAnswer(ps[1..]);
    }
  }

  /** What is due and what keeps waiting make up the queue. */
  lemma {:induction false} DueAndWaiting(s: Server, ps: seq<Proposal>)
    ensures Answered(Due(s, ps)) + Queued(Waiting(s, ps)) == Queued(ps)
    decreases |ps|
  {
    hide EntryTerm;
    if ps != [] {
      var p, rest := ps[0], ps[1..];
      DueAndWaiting(s, rest);
      var due := if p.index <= s.commitIndex then [Answer(p.id, p.term == EntryTerm(s, p.index))] else [];
      var kept := if p.index <= s.commitIndex then [] else [p];
      assert Due(s, ps) == due + Due(s, rest) && Waiting(s, ps) == kept + Waiting(s, rest);
      hide Due, Waiting;
      AnsweredConcat(due, Due(s, rest));
      QueuedConcat(kept, Waiting(s, rest));
      OneEach(p, due, kept);
    }
  }

  lemma OneEach(p: Proposal, due: seq<Answer>, kept: seq<Proposal>)
    requires (|due| == 1 && due[0].id == p.id && kept == []) || (due == [] && kept == [p])
    ensures Answered(due) + Queued(kept) == multiset{p.id}
  {
    if kept == [] {
      assert due[1..] == [];
    } else {
      assert kept[1..] == [];
    }
  }

  lemma FollowerLedger(s: Server, term: nat)
    ensures Ledger(TransitionToFollower(s, term)) == Ledger(s)
  {
    AnsweredConcat(s.answers, Refusals(s.proposals));
    RefusalsAnswer(s.proposals);
  }

  lemma ApplyNextLedger(s: Server)
    requires s.lastApplied < s.commitIndex
    ensures Ledger(ApplyNext(s)) == Ledger(s)
  {
    hide Ledger, TransitionToFollower;
    SameLedger(s, ApplyNext(s));
  }

  /** Only a committed configuration that leaves the leader out touches the queue. */
  lemma SameLedger(s: Server, s': Server)
    requires s.lastApplied < s.commitIndex && s' == ApplyNext(s)
    ensures Ledger(s') == Ledger(s)
  {
    hide Ledger, ApplyCommand, SetAll, ProposeSecondPhase;
    var s1 := s.(lastApplied := s.lastApplied + 1);
    QueueOnly(s, s1);
    match GetEntry(s1, s1.lastApplied)
    case None =>
    case Some(e) =>
      match e.payload
      case Noop =>
      case Op(cmd) => QueueOnly(s1, s');
      case Change(c) => ConfigLedger(s1, c);
  }

  lemma QueueOnly(s: Server, s': Server)
    requires s'.proposals == s.proposals && s'.answers == s.answers
    ensures Ledger(s') == Ledger(s)
  {
  }

  lemma ConfigLedger(s: Server, c: ClusterConfig)
    ensures Ledger(CommitConfig(s, c)) == Ledger(s)
  {
    hide Ledger;
    if c.joint {
      QueueOnly(s, CommitConfig(s, c));
    } else {
      var s1 := DisconnectRemoved(ApplyConfig(s, c).(pendingConfig := false, configChangeIndex := 0));
      QueueOnly(s, s1);
      FollowerLedger(s1, s1.term);
    }
  }

  lemma {:induction false} ApplyAllLedger(s: Server)
    ensures Ledger(ApplyAll(s)) == Ledger(s)
    decreases if s.lastApplied < s.commitIndex then s.commitIndex - s.lastApplied else 0
  {
    hide Ledger, ApplyNext;
    if s.lastApplied < s.commitIndex {
      ApplyNextLedger(s);
      ApplyAllLedger(ApplyNext(s));
    }
  }

  lemma ApplyLedger(s: Server)
    ensures Ledger(ApplyLogs(s)) == Ledger(s)
  {
    hide Ledger, Due, Waiting, Retained;
    ApplyAllLedger(s);
    var s1 := Compact(ApplyAll(s));
    QueueOnly(ApplyAll(s), s1);
    CompleteLedger(s1);
  }

  lemma CompleteLedger(s: Server)
    ensures Ledger(CompleteProposals(s)) == Ledger(s)
  {
    DueAndWaiting(s, s.proposals);
    AnsweredConcat(s.answers, Due(s, s.proposals));
  }

  lemma {:induction false} AdvanceLedger(s: Server, n: nat, last: nat)
    ensures Ledger(AdvanceLeader(s, n, last)) == Ledger(s)
    decreases last + 1 - n
  {
    hide Ledger, ApplyLogs, CheckCommitMajority, EntryTerm;
    if n <= last {
      if EntryTerm(s, n) == s.term && CheckCommitMajority(s, n) {
        QueueOnly(s, s.(commitIndex := n));
        ApplyLedger(s.(commitIndex := n));
        AdvanceLedger(ApplyLogs(s.(commitIndex := n)), n + 1, last);
      } else {
        AdvanceLedger(s, n + 1, last);
      }
    }
  }

  lemma ChunkLedger(s: Server, chunk: SnapshotRequest, whole: Option<Snapshot>)
    ensures Ledger(ProcessInstallSnapshot(s, chunk, _ => whole)) == Ledger(s)
  {
    hide Ledger, AdoptLeader, Retained, Collected;
    if chunk.term >= s.term {
      AdoptLedger(s, chunk.term, chunk.leader);
      QueueOnly(AdoptLeader(s, chunk.term, chunk.leader), ProcessInstallSnapshot(s, chunk, _ => whole));
    }
  }

  /** The request an input brings in, if any. */
  function Submitted(input: Input): multiset<nat> {
    match input
    case Command(id, _) => multiset{id}
    case Reconfigure(id, _) => multiset{id}
    case _ => multiset{}
  }

  lemma RefusedLedger(s: Server, id: nat)
    ensures Ledger(s.(answers := s.answers + [Answer(id, false)])) == Ledger(s) + multiset{id}
  {
    AnsweredConcat(s.answers, [Answer(id, false)]);
    assert Answered([Answer(id, false)]) == multiset{id} + Answered([]);
  }

  lemma AcceptedLedger(s: Server, s': Server, p: Proposal)
    requires s'.proposals == s.proposals + [p] && s'.answers == s.answers
    ensures Ledger(s') == Ledger(s) + multiset{p.id}
  {
    QueuedConcat(s.proposals, [p]);
    assert Queued([p]) == multiset{p.id} + Queued([]);
  }

  lemma AdoptLedger(s: Server, term: nat, leader: NodeId)
    ensures Ledger(AdoptLeader(s, term, leader)) == Ledger(s)
  {
    hide Ledger, TransitionToFollower;
    var s1 := if term > s.term then TransitionToFollower(s, term) else s;
    FollowerLedger(s, term);
    FollowerLedger(s1, term);
    var s2 := if s1.role == Candidate then TransitionToFollower(s1, term) else s1;
    QueueOnly(s2, s2.(votedFor := Some(leader)));
  }

  lemma BatchLedger(s: Server, req: AppendRequest)
    ensures Ledger(ProcessAppendEntries(s, req).0) == Ledger(s)
  {
    hide Ledger, AdoptLeader, MergeEntries, ApplyLogs;
    if req.term >= s.term {
      AdoptLedger(s, req.term, req.leader);
      var s1 := AdoptLeader(s, req.term, req.leader);
      MergeCommit(s1, req.entries);
      var s2 := MergeEntries(s1, req.entries);
      QueueOnly(s1, s2);
      var s3 := s2.(commitIndex := if req.leaderCommit > LastLogIndex(s2) then LastLogIndex(s2) else req.leaderCommit);
      QueueOnly(s2, s3);
      ApplyLedger(s3);
    }
  }

  lemma ClientLedger(s: Server, id: nat, cmd: Log.Command)
    ensures Ledger(HandleClientCommand(s, id, cmd)) == Ledger(s) + multiset{id}
  {
    hide Ledger, ApplyLogs, CheckCommitMajority;
    if s.role != Leader {
      RefusedLedger(s, id);
    } else {
      var s1 := Proposed(s, id, cmd);
      AcceptedLedger(s, s1, Proposal(LastLogIndex(s) + 1, s.term, id));
      QueueOnly(s1, s1.(commitIndex := LastLogIndex(s) + 1));
      ApplyLedger(s1.(commitIndex := LastLogIndex(s) + 1));
    }
  }

  lemma AckLedger(s: Server, peer: NodeId, ack: AppendResponse)
    ensures Ledger(ProcessAppendEntriesResponse(s, peer, ack)) == Ledger(s)
  {
    hide Ledger, AdvanceLeader, TransitionToFollower;
    FollowerLedger(s, if ack.term > s.term then ack.term else s.term);
    if ack.term <= s.term && s.role == Leader && ack.term == s.term && ack.success {
      var s1 := s.(matchIndex := s.matchIndex[peer := ack.matchIndex], nextIndex := s.nextIndex[peer := ack.matchIndex + 1]);
      QueueOnly(s, s1);
      AdvanceLedger(s1, s1.commitIndex + 1, LastLogIndex(s1));
    } else if ack.term <= s.term {
      QueueOnly(s, ProcessAppendEntriesResponse(s, peer, ack));
    }
  }

  lemma HandleLedger(s: Server, input: Input)
    ensures Ledger(Handle(s, input)) == Ledger(s) + Submitted(input)
  {
    hide Ledger, ApplyLogs, SetAll, BuildJoint, TransitionToFollower, HasMajority, ProcessInstallSnapshot;
    match input
    case Stand => QueueOnly(s, Handle(s, input));
    case AskedToVote(ask) =>
      FollowerLedger(s, ask.term);
      QueueOnly(if ask.term > s.term && ContainsNode(s.config, ask.candidate) then TransitionToFollower(s, ask.term) else s,
                Handle(s, input));
    case VoteCame(peer, vote) =>
      FollowerLedger(s, vote.term);
      if vote.term <= s.term {
        QueueOnly(s, Handle(s, input));
      }
    case BatchCame(batch) => BatchLedger(s, batch);
    case AckCame(peer, ack) => AckLedger(s, peer, ack);
    case Command(id, cmd) => ClientLedger(s, id, cmd);
    case Reconfigure(id, change) =>
      RefusedLedger(s, id);
      if s.role == Leader && !s.pendingConfig && BuildJoint(s.config, s.id, change).Joint? {
        AcceptedLedger(s, Handle(s, input), Proposal(LastLogIndex(s) + 1, s.term, id));
      }
    case SnapshotCame(chunk, whole) => ChunkLedger(s, chunk, whole);
    case SnapshotAcked(peer, term) =>
      FollowerLedger(s, term);
      if term <= s.term {
        QueueOnly(s, Handle(s, input));
      }
  }

  function AllSubmitted(inputs: seq<Input>): multiset<nat>
    decreases |inputs|
  {
    if inputs == [] then multiset{} else Submitted(inputs[0]) + AllSubmitted(inputs[1..])
  }

  /** Conservation.  After any inputs whatever, every request ever submitted is accounted for exactly
      as often as it was submitted: once in the queue or once among the answers, never both. */
  lemma {:induction false} RequestsAreConserved(s: Server, inputs: seq<Input>)
    ensures Ledger(HandleAll(s, inputs)) == Ledger(s) + AllSubmitted(inputs)
    decreases |inputs|
  {
    hide Ledger, Handle;
    if inputs != [] {
      HandleLedger(s, inputs[0]);
      RequestsAreConserved(Handle(s, inputs[0]), inputs[1..]);
    }
  }

  // ------------------------------------------------------------ nothing is owed

  /** Only a leader keeps anybody waiting. */
  predicate OnlyLeadersOwe(s: Server) {
    s.role != Leader ==> s.proposals == []
  }

  lemma {:induction false} ApplyAllOwes(s: Server)
    requires OnlyLeadersOwe(s)
    ensures OnlyLeadersOwe(ApplyAll(s))
    decreases if s.lastApplied < s.commitIndex then s.commitIndex - s.lastApplied else 0
  {
    if s.lastApplied < s.commitIndex {
      Compaction.ApplyNextLeaves(s);
      hide ApplyNext;
      ApplyAllOwes(ApplyNext(s));
    }
  }

  lemma ApplyOwes(s: Server)
    requires OnlyLeadersOwe(s)
    ensures OnlyLeadersOwe(ApplyLogs(s))
  {
    hide ApplyAll, Retained, Due;
    ApplyAllOwes(s);
  }

  lemma {:induction false} AdvanceOwes(s: Server, n: nat, last: nat)
    requires OnlyLeadersOwe(s)
    ensures OnlyLeadersOwe(AdvanceLeader(s, n, last))
    decreases last + 1 - n
  {
    hide ApplyLogs, CheckCommitMajority, EntryTerm;
    if n <= last {
      ApplyOwes(s.(commitIndex := n));
      if EntryTerm(s, n) == s.term && CheckCommitMajority(s, n) {
        AdvanceOwes(ApplyLogs(s.(commitIndex := n)), n + 1, last);
      } else {
        AdvanceOwes(s, n + 1, last);
      }
    }
  }

  lemma AdoptOwes(s: Server, term: nat, leader: NodeId)
    requires OnlyLeadersOwe(s)
    ensures OnlyLeadersOwe(AdoptLeader(s, term, leader))
  {
    hide Refusals;
  }

  lemma BatchOwes(s: Server, req: AppendRequest)
    requires OnlyLeadersOwe(s)
    ensures OnlyLeadersOwe(ProcessAppendEntries(s, req).0)
  {
    hide AdoptLeader, MergeEntries, ApplyLogs, EntryTerm;
    if req.term >= s.term {
      AdoptOwes(s, req.term, req.leader);
      var s1 := AdoptLeader(s, req.term, req.leader);
      MergeCommit(s1, req.entries);
      ApplyOwes(Raised(MergeEntries(s1, req.entries), req.leaderCommit));
    }
  }

  lemma ChunkOwes(s: Server, chunk: SnapshotRequest, whole: Option<Snapshot>)
    requires OnlyLeadersOwe(s)
    ensures OnlyLeadersOwe(ProcessInstallSnapshot(s, chunk, _ => whole))
  {
    hide AdoptLeader, Retained, Collected;
    AdoptOwes(s, chunk.term, chunk.leader);
  }

  lemma HandleOwes(s: Server, input: Input)
    requires OnlyLeadersOwe(s)
    ensures OnlyLeadersOwe(Handle(s, input))
  {
    hide ApplyLogs, AdvanceLeader, SetAll, BuildJoint, HasMajority, PeerIds, ContainsNode, LastLogIndex, LastLogTerm,
      Refusals, CheckCommitMajority, ProcessAppendEntries, ProcessInstallSnapshot;
    match input
    case Stand =>
    case AskedToVote(_) =>
    case VoteCame(_, _) =>
    case BatchCame(req) => BatchOwes(s, req);
    case AckCame(peer, ack) =>
      var s1 := Acknowledged(s, peer, ack);
      AdvanceOwes(s1, s1.commitIndex + 1, LastLogIndex(s1));
    case Command(id, cmd) =>
      if s.role == Leader {
        ApplyOwes(Proposed(s, id, cmd).(commitIndex := LastLogIndex(s) + 1));
      }
    case Reconfigure(_, _) =>
    case SnapshotCame(chunk, whole) => ChunkOwes(s, chunk, whole);
    case SnapshotAcked(_, _) =>
  }

  /** Nobody is left hanging.  After any inputs, a node that does not lead has answered every request it
      was ever sent, each as often as it was submitted. */
  lemma {:induction false} LosersAnswerEverything(s: Server, inputs: seq<Input>)
    requires OnlyLeadersOwe(s)
    ensures var s' := HandleAll(s, inputs);
      && OnlyLeadersOwe(s')
      && (s'.role != Leader ==> Answered(s'.answers) == Ledger(s) + AllSubmitted(inputs))
    decreases |inputs|
  {
    hide Handle;
    RequestsAreConserved(s, inputs);
    if inputs != [] {
      HandleOwes(s, inputs[0]);
      LosersAnswerEverything(Handle(s, inputs[0]), inputs[1..]);
    }
  }
}
