/** A leader answers every request whose entry it commits with success, and refuses none it accepted. */
module Success {
  import opened Config
  import opened Log
  import opened Wal
  import opened KeyValue
  import opened Election
  import opened ServerSpec
  import opened Compaction
  import opened HandlerSim
  import opened Journal
  import opened Membership
  import opened Answers

  // ------------------------------------------------------- the commit test

  lemma PassesMore(peers: set<NodeId>, self: NodeId, v: set<NodeId>, w: set<NodeId>)
    requires v <= w && Passes(peers, self, v)
    ensures Passes(peers, self, w)
  {
    SubsetSize(v * peers, w * peers);
  }

  /** What a majority holds includes everything before it. */
  lemma EarlierPasses(s: Server, m: nat, n: nat)
    requires CheckCommitMajority(s, n) && m <= n
    ensures CheckCommitMajority(s, m)
  {
    var v := {s.id} + set p | p in s.matchIndex && s.matchIndex[p] >= n;
    var w := {s.id} + set p | p in s.matchIndex && s.matchIndex[p] >= m;
    assert v <= w;
    PassesMore(s.config.newPeers.Keys, s.id, v, w);
    if s.config.joint {
      PassesMore(s.config.oldPeers.Keys, s.id, v, w);
    }
  }

  /** A leader without peers passes the test at every index or at none. */
  lemma AloneIsConstant(s: Server, r: Server, m: nat, n: nat)
    requires Peers(s) == {} && r.id == s.id && r.config == s.config && CheckCommitMajority(s, n)
    ensures CheckCommitMajority(r, m)
  {
    var v := {s.id} + set p | p in s.matchIndex && s.matchIndex[p] >= n;
    var w := {s.id} + set p | p in r.matchIndex && r.matchIndex[p] >= m;
    OnlySelf(s.config.newPeers.Keys, s.id, v, w);
    if s.config.joint {
      OnlySelf(s.config.oldPeers.Keys, s.id, v, w);
    }
  }

  lemma OnlySelf(peers: set<NodeId>, self: NodeId, v: set<NodeId>, w: set<NodeId>)
    requires peers <= {self} && self in v && self in w && Passes(peers, self, v)
    ensures Passes(peers, self, w)
  {
    assert v * peers == w * peers;
  }

  /** A change that leaves a leader alone takes it out of the new side, which then never passes. */
  lemma AloneAfterChange(current: ClusterConfig, self: NodeId, change: ConfigChange, voters: set<NodeId>)
    requires BuildJoint(current, self, change).Joint?
    requires PeerIds(BuildJoint(current, self, change).config, self) == {}
    ensures !HasMajority(BuildJoint(current, self, change).config, self, voters)
  {
    var c := BuildJoint(current, self, change).config;
    if change.node != self {
      ChangedIsPeer(current, self, change);
    } else {
      assert c.newPeers.Keys <= {self} && self !in c.newPeers.Keys;
      assert c.newPeers.Keys == {};
    }
  }

  /** Whoever joins or leaves is on one side of the joint configuration. */
  lemma ChangedIsPeer(current: ClusterConfig, self: NodeId, change: ConfigChange)
    requires BuildJoint(current, self, change).Joint? && change.node != self
    ensures change.node in PeerIds(BuildJoint(current, self, change).config, self)
  {
    var c := BuildJoint(current, self, change).config;
    assert change.node in (if change.remove then c.oldPeers.Keys else c.newPeers.Keys);
  }

  // ---------------------------------------------------------------- the queue

  /** The entry of a queued request is in the log above the commit index, in the leader's term. */
  predicate Awaited(s: Server, full: seq<Entry>, p: Proposal) {
    s.commitIndex < p.index <= |full| && p.term == s.term && TermAt(full, p.index) == p.term
  }

  ghost predicate AllAwaited(s: Server, full: seq<Entry>) {
    forall p {:trigger Awaited(s, full, p)} :: p in s.proposals ==> Awaited(s, full, p)
  }

  lemma AwaitedOne(s: Server, full: seq<Entry>, p: Proposal)
    requires AllAwaited(s, full) && p in s.proposals
    ensures s.commitIndex < p.index <= |full| && p.term == s.term && TermAt(full, p.index) == p.term
  {
    assert Awaited(s, full, p);
  }

  /** A leader at rest: every queued request is awaited, and if it has no peers none could commit now. */
  ghost predicate Serving(s: Server, full: seq<Entry>) {
    && Compacted(s, full) && s.lastApplied == s.commitIndex && s.role == Leader
    && AllAwaited(s, full)
    && forall p {:trigger p in s.proposals} :: p in s.proposals && Peers(s) == {} ==> !CheckCommitMajority(s, p.index)
  }

  /** From `s` to `s'`: a request of `ps` that is committed was answered success, one that is not still
      waits, and nothing was refused but the ids in `refused`. */
  ghost predicate Settled(s: Server, s': Server, ps: seq<Proposal>, refused: set<nat>) {
    && s.answers <= s'.answers
    && (forall p {:trigger p in ps} :: p in ps ==>
          if p.index <= s'.commitIndex then Answer(p.id, true) in s'.answers[|s.answers|..] else p in s'.proposals)
    && (forall p :: p in s'.proposals ==> p in ps)
    && (forall a :: a in s'.answers[|s.answers|..] && !a.ok ==> a.id in refused)
  }

  lemma SettledChain(s: Server, s1: Server, s2: Server, ps: seq<Proposal>, r1: set<nat>, r2: set<nat>)
    requires Settled(s, s1, ps, r1) && Settled(s1, s2, s1.proposals, r2) && s1.commitIndex <= s2.commitIndex
    ensures Settled(s, s2, ps, r1 + r2)
  {
    var a, b := s1.answers[|s.answers|..], s2.answers[|s1.answers|..];
    assert s2.answers[|s.answers|..] == a + b;
    forall p | p in ps
      ensures if p.index <= s2.commitIndex then Answer(p.id, true) in s2.answers[|s.answers|..] else p in s2.proposals
    {
      if p.index > s1.commitIndex {
        assert p in s1.proposals;
      }
    }
  }

  lemma SettledMore(s: Server, s1: Server, s2: Server, ps: seq<Proposal>, qs: seq<Proposal>, r: set<nat>)
    requires Settled(s1, s2, s1.proposals, r) && s1.proposals == s.proposals + qs && s1.answers == s.answers
    requires ps == s.proposals + qs
    ensures Settled(s, s2, ps, r)
  {
  }

  // ------------------------------------------------------------ one application

  lemma {:induction false} DueAtTheTop(s: Server, full: seq<Entry>, ps: seq<Proposal>)
    requires Compacted(s, full)
    requires forall p :: p in ps ==> s.commitIndex <= p.index <= |full| && TermAt(full, p.index) == p.term
    ensures forall a :: a in Due(s, ps) ==> a.ok
    ensures forall p :: p in ps ==> if p.index <= s.commitIndex then Answer(p.id, true) in Due(s, ps) else p in Waiting(s, ps)
    ensures forall p :: p in Waiting(s, ps) ==> p in ps && p.index > s.commitIndex
    decreases |ps|
  {
    hide Compacted;
    if ps != [] {
      var p, rest := ps[0], ps[1..];
      DueAtTheTop(s, full, rest);
      CommitWithin(s, full);
      if p.index <= s.commitIndex {
        EntriesAgree(s, full, p.index);
        assert Due(s, ps) == [Answer(p.id, true)] + Due(s, rest);
        assert Waiting(s, ps) == Waiting(s, rest);
      } else {
        assert Due(s, ps) == Due(s, rest);
        assert Waiting(s, ps) == [p] + Waiting(s, rest);
      }
    }
  }

  /** Applying without losing the leadership leaves the queue and the answers alone. */
  lemma {:induction false} ApplyAllServes(s: Server, full: seq<Entry>) returns (full': seq<Entry>)
    requires Compacted(s, full) && s.role == Leader
    ensures Compacted(ApplyAll(s), full') && full <= full' && ApplyAll(s).lastApplied == ApplyAll(s).commitIndex == s.commitIndex
    ensures ApplyAll(s).term == s.term && ApplyAll(s).id == s.id
    ensures ApplyAll(s).role == Leader ==> ApplyAll(s).proposals == s.proposals && ApplyAll(s).answers == s.answers
    decreases s.commitIndex - s.lastApplied
  {
    hide Compacted, ApplyNext, Refusals;
    full' := full;
    CommitWithin(s, full);
    if s.lastApplied < s.commitIndex {
      var mid := ApplyNextCompacted(s, full);
      ApplyNextLeaves(s);
      if ApplyNext(s).role == Leader {
        full' := ApplyAllServes(ApplyNext(s), mid);
      } else {
        var rest := ApplyAllCompacted(ApplyNext(s), mid);
        ApplyAllLeads(ApplyNext(s));
        ApplyAllKeepsTerm(ApplyNext(s));
        full' := rest;
      }
    }
  }

  /** One call of `applyLogs` at commit index `n`, when every queued request sits at `n` or above:
      those at `n` are answered success, compaction or not. */
  lemma ApplySettles(s: Server, full: seq<Entry>, n: nat) returns (full': seq<Entry>)
    requires Compacted(s, full) && s.lastApplied == s.commitIndex && s.role == Leader && s.commitIndex < n <= |full|
    requires AllAwaited(s, full) && forall p :: p in s.proposals ==> p.index >= n
    ensures var s' := ApplyLogs(s.(commitIndex := n));
      && full <= full' && s'.commitIndex == n && s'.term == s.term && s'.id == s.id
      && (s'.role == Leader ==>
            && Compacted(s', full') && s'.lastApplied == n
            && Settled(s, s', s.proposals, {})
            && AllAwaited(s', full'))
  {
    var s0 := s.(commitIndex := n);
    full' := ApplyAllServes(s0, full);
    var s1 := ApplyAll(s0);
    var s2 := Compact(s1);
    hide ApplyAll, AllAwaited, Settled;
    CompactedAgain(s1, full');
    hide Compacted, Compact, CompleteProposals;
    CompactKeeps(s1);
    CompleteKeeps(s2);
    if s1.role == Leader {
      forall p | p in s2.proposals ensures s2.commitIndex <= p.index <= |full'| && TermAt(full', p.index) == p.term == s.term {
        AwaitedOne(s, full, p);
      }
      CompleteSettles(s, s2, full');
    }
  }

  lemma CompactedAgain(s: Server, full: seq<Entry>)
    requires Compacted(s, full) && s.lastApplied == s.commitIndex
    ensures Compacted(Compact(s), full)
  {
    hide Fold;
    TakeSnapshotCompacted(s, full);
  }

  lemma CompactKeeps(s: Server)
    ensures var s' := Compact(s);
      && s'.role == s.role && s'.term == s.term && s'.id == s.id && s'.commitIndex == s.commitIndex && s'.lastApplied == s.lastApplied
      && s'.proposals == s.proposals && s'.answers == s.answers
  {
    hide Retained;
  }

  lemma CompleteKeeps(s: Server)
    ensures var s' := CompleteProposals(s);
      && s'.role == s.role && s'.term == s.term && s'.id == s.id && s'.commitIndex == s.commitIndex && s'.lastApplied == s.lastApplied
  {
    hide Due, Waiting;
  }

  lemma CompleteSettles(s: Server, s2: Server, full: seq<Entry>)
    requires Compacted(s2, full) && s2.lastApplied == s2.commitIndex && s2.role == Leader && s2.term == s.term
    requires s2.proposals == s.proposals && s2.answers == s.answers
    requires forall p :: p in s2.proposals ==> s2.commitIndex <= p.index <= |full| && TermAt(full, p.index) == p.term == s.term
    ensures var s' := CompleteProposals(s2);
      && Compacted(s', full) && Settled(s, s', s.proposals, {})
      && AllAwaited(s', full)
  {
    DueAtTheTop(s2, full, s2.proposals);
    var s' := CompleteProposals(s2);
    hide Due, Waiting, Fold;
    assert SameLog(s2, s');
    assert s'.answers[|s.answers|..] == Due(s2, s2.proposals);
  }

  /** Every queued request below `n` has failed the commit test, so all that can commit sit at `n` or above. */
  ghost predicate TriedBelow(s: Server, n: nat) {
    forall p {:trigger p in s.proposals} :: p in s.proposals && p.index < n ==> !CheckCommitMajority(s, p.index)
  }

  lemma AllAtOrAbove(s: Server, n: nat)
    requires TriedBelow(s, n) && CheckCommitMajority(s, n)
    ensures forall p :: p in s.proposals ==> p.index >= n
  {
    hide CheckCommitMajority;
    forall p | p in s.proposals ensures p.index >= n {
      if p.index < n {
        EarlierPasses(s, p.index, n);
      }
    }
  }

  lemma TriedOneMore(s: Server, full: seq<Entry>, n: nat)
    requires TriedBelow(s, n) && Compacted(s, full) && AllAwaited(s, full) && s.commitIndex < n <= |full|
    requires EntryTerm(s, n) != s.term || !CheckCommitMajority(s, n)
    ensures TriedBelow(s, n + 1)
  {
    hide CheckCommitMajority, EntryTerm, Compacted, AllAwaited;
    forall p | p in s.proposals && p.index < n + 1 ensures !CheckCommitMajority(s, p.index) {
      if p.index == n {
        AwaitedOne(s, full, p);
        TermInLog(s, full, n);
      }
    }
  }

  lemma TriedWhenAbove(s: Server, full: seq<Entry>, n: nat)
    requires AllAwaited(s, full) && n <= s.commitIndex + 1
    ensures TriedBelow(s, n)
  {
    hide CheckCommitMajority, AllAwaited;
    forall p | p in s.proposals ensures p.index >= n {
      AwaitedOne(s, full, p);
    }
  }

  lemma ServesAtEnd(s: Server, full: seq<Entry>, n: nat, last: nat)
    requires Compacted(s, full) && s.lastApplied == s.commitIndex && s.role == Leader && AllAwaited(s, full)
    requires TriedBelow(s, n) && last < n && forall p :: p in s.proposals ==> p.index <= last
    ensures Serving(s, full) && Settled(s, s, s.proposals, {})
  {
    hide CheckCommitMajority, AllAwaited, Compacted;
    SettledSelf(s, full);
  }

  /** The leader's commit loop: requests are committed in order, each answered when it is. */
  lemma {:induction false} AdvanceSettles(s: Server, full: seq<Entry>, n: nat, last: nat) returns (full': seq<Entry>)
    requires Compacted(s, full) && s.lastApplied == s.commitIndex && s.role == Leader && s.commitIndex < n && last <= |full|
    requires AllAwaited(s, full) && TriedBelow(s, n) && forall p :: p in s.proposals ==> p.index <= last
    ensures var s' := AdvanceLeader(s, n, last);
      s'.role == Leader ==>
        && Serving(s', full') && s'.term == s.term && s'.id == s.id && s.commitIndex <= s'.commitIndex
        && Settled(s, s', s.proposals, {}) && full <= full'
    decreases last + 1 - n
  {
    hide ApplyLogs, CheckCommitMajority, EntryTerm, Compacted, Settled, AllAwaited, TriedBelow, Serving;
    full' := full;
    if n > last {
      ServesAtEnd(s, full, n, last);
    } else if EntryTerm(s, n) == s.term && CheckCommitMajority(s, n) {
      AllAtOrAbove(s, n);
      var mid := ApplySettles(s, full, n);
      var s1 := ApplyLogs(s.(commitIndex := n));
      if s1.role == Leader {
        QueueShrinks(s, s1);
        TriedWhenAbove(s1, mid, n + 1);
        full' := AdvanceSettles(s1, mid, n + 1, last);
        var s2 := AdvanceLeader(s1, n + 1, last);
        if s2.role == Leader {
          var none: set<nat> := {};
          SettledChain(s, s1, s2, s.proposals, none, none);
          assert none + none == none;
        }
      } else {
        AdvanceLeads(s1, n + 1, last);
      }
    } else {
      TriedOneMore(s, full, n);
      full' := AdvanceSettles(s, full, n + 1, last);
    }
  }

  lemma QueueShrinks(s: Server, s1: Server)
    requires Settled(s, s1, s.proposals, {})
    ensures forall p :: p in s1.proposals ==> p in s.proposals
  {
  }

  lemma TermInLog(s: Server, full: seq<Entry>, n: nat)
    requires Compacted(s, full) && s.commitIndex < n <= |full|
    ensures EntryTerm(s, n) == TermAt(full, n)
  {
    EntriesAgree(s, full, n);
  }

  lemma SettledSelf(s: Server, full: seq<Entry>)
    requires AllAwaited(s, full)
    ensures Settled(s, s, s.proposals, {})
  {
    forall p | p in s.proposals ensures p.index > s.commitIndex {
      assert Awaited(s, full, p);
    }
  }

  // -------------------------------------------------------------- one input

  /** Requests that are turned away on arrival. */
  function TurnedAway(s: Server, input: Input): set<nat> {
    match input
    case Command(id, _) => if Joined(s, input) == [] then {id} else {}
    case Reconfigure(id, _) => if Joined(s, input) == [] then {id} else {}
    case _ => {}
  }

  /** The log, the queue and the answers stay as they are. */
  lemma QuietServes(s: Server, full: seq<Entry>, s': Server)
    requires Serving(s, full) && SameQueue(s, s') && s'.role == Leader && s'.term == s.term
    ensures Serving(s', full) && Settled(s, s', s.proposals, {})
  {
    hide Compacted, CheckCommitMajority;
    SameCompacted(s, full, s');
    forall p | p in s'.proposals ensures Awaited(s', full, p) && (Peers(s') == {} ==> !CheckCommitMajority(s', p.index)) {
      assert Awaited(s, full, p);
      if Peers(s') == {} && CheckCommitMajority(s', p.index) {
        AloneIsConstant(s', s, p.index, p.index);
      }
    }
  }

  predicate SameQueue(s: Server, s': Server) {
    && s'.id == s.id && s'.config == s.config && s'.proposals == s.proposals && s'.answers == s.answers
    && s'.log == s.log && s'.lastIncludedIndex == s.lastIncludedIndex && s'.lastIncludedTerm == s.lastIncludedTerm
    && s'.lastApplied == s.lastApplied && s'.commitIndex == s.commitIndex && s'.store == s.store
  }

  lemma SameCompacted(s: Server, full: seq<Entry>, s': Server)
    requires Compacted(s, full) && SameQueue(s, s')
    ensures Compacted(s', full)
  {
  }

  lemma AskServes(s: Server, full: seq<Entry>, ask: VoteRequest)
    requires Serving(s, full) && ProcessRequestVote(s, ask).0.role == Leader
    ensures var s' := ProcessRequestVote(s, ask).0; Serving(s', full) && Settled(s, s', s.proposals, {})
  {
    var s' := ProcessRequestVote(s, ask).0;
    assert SameQueue(s, s') && s'.term == s.term by {
      hide LogOk, ContainsNode, Serving;
    }
    hide ProcessRequestVote, Serving, Settled;
    QuietServes(s, full, s');
  }

  lemma AckServes(s: Server, full: seq<Entry>, peer: NodeId, ack: AppendResponse) returns (full': seq<Entry>)
    requires Serving(s, full)
    ensures var s' := ProcessAppendEntriesResponse(s, peer, ack);
      s'.role == Leader ==>
        Serving(s', full') && Settled(s, s', s.proposals, {}) && s.commitIndex <= s'.commitIndex && full <= full'
  {
    hide AdvanceLeader, Settled, Compacted, CheckCommitMajority, AllAwaited, TriedBelow;
    full' := full;
    if ack.term <= s.term {
      if ack.term == s.term && ack.success {
        var s1 := Acknowledged(s, peer, ack);
        SameCompacted(s, full, s1);
        EndOf(s1, full);
        SameAwaited(s, full, s1);
        TriedWhenAbove(s1, full, s1.commitIndex + 1);
        forall p | p in s1.proposals ensures p.index <= LastLogIndex(s1) {
          AwaitedOne(s1, full, p);
        }
        full' := AdvanceSettles(s1, full, s1.commitIndex + 1, LastLogIndex(s1));
        SameAnswers(s, s1, AdvanceLeader(s1, s1.commitIndex + 1, LastLogIndex(s1)));
      } else {
        QuietServes(s, full, ProcessAppendEntriesResponse(s, peer, ack));
      }
    }
  }

  lemma SameAwaited(s: Server, full: seq<Entry>, s': Server)
    requires AllAwaited(s, full) && s'.proposals == s.proposals && s'.commitIndex == s.commitIndex && s'.term == s.term
    ensures AllAwaited(s', full)
  {
    forall p | p in s'.proposals ensures Awaited(s', full, p) {
      assert Awaited(s, full, p);
    }
  }

  lemma EndOf(s: Server, full: seq<Entry>)
    requires Compacted(s, full)
    ensures LastLogIndex(s) == |full|
  {
    IndicesAgree(s, full);
  }

  lemma SameAnswers(s: Server, s1: Server, s': Server)
    requires s1.proposals == s.proposals && s1.answers == s.answers
    ensures Settled(s1, s', s1.proposals, {}) ==> Settled(s, s', s.proposals, {})
  {
  }

  /** A request joins the queue: its entry is the last of the log. */
  lemma JoinedAwaits(s: Server, full: seq<Entry>, s1: Server, e: Entry, p: Proposal)
    requires Serving(s, full) && Compacted(s1, full + [e]) && e.index == |full| + 1 && e.term == s.term
    requires p.index == e.index && p.term == e.term && s1.proposals == s.proposals + [p]
    requires s1.commitIndex == s.commitIndex && s1.term == s.term
    ensures AllAwaited(s1, full + [e])
  {
    hide Compacted, CheckCommitMajority;
    CommitWithin(s, full);
    forall q | q in s1.proposals ensures Awaited(s1, full + [e], q) {
      if q in s.proposals {
        assert Awaited(s, full, q);
      }
    }
  }

  lemma JoinedSettles(s: Server, s1: Server, full: seq<Entry>, qs: seq<Proposal>)
    requires s1.proposals == s.proposals + qs && s1.answers == s.answers
    requires AllAwaited(s1, full)
    ensures Settled(s, s1, s.proposals + qs, {})
  {
    forall p | p in s.proposals + qs ensures p.index > s1.commitIndex {
      assert Awaited(s1, full, p);
    }
  }

  lemma CommandServes(s: Server, full: seq<Entry>, id: nat, cmd: Log.Command) returns (full': seq<Entry>)
    requires Serving(s, full)
    ensures var s' := HandleClientCommand(s, id, cmd);
      s'.role == Leader ==>
        && Serving(s', full') && Settled(s, s', s.proposals + Joined(s, Input.Command(id, cmd)), {}) && s.commitIndex <= s'.commitIndex
        && full + [Entry(|full| + 1, s.term, Op(cmd))] <= full'
  {
    hide ApplyLogs, CheckCommitMajority, Compacted, Settled, AllAwaited;
    var e := Entry(LastLogIndex(s) + 1, s.term, Op(cmd));
    var p := Proposal(e.index, e.term, id);
    var s1 := Proposed(s, id, cmd);
    EndOf(s, full);
    full' := full + [e];
    AppendKeepsCompacted(s, full, e, s1);
    JoinedAwaits(s, full, s1, e, p);
    if Peers(s1) == {} && CheckCommitMajority(s1, e.index) {
      forall q | q in s1.proposals ensures q.index >= e.index {
        if q in s.proposals {
          AloneIsConstant(s1, s, q.index, e.index);
        }
      }
      var grown := full';
      CommitWithin(s, full);
      full' := ApplySettles(s1, grown, e.index);
      var s' := ApplyLogs(s1.(commitIndex := e.index));
      if s'.role == Leader {
        NothingLeft(s1, s', grown, full', e.index);
        SettledMore(s, s1, s', s.proposals + [p], [p], {});
      }
    } else {
      JoinedSettles(s, s1, full', [p]);
      forall q | q in s1.proposals && Peers(s1) == {} ensures !CheckCommitMajority(s1, q.index) {
        if q in s.proposals && CheckCommitMajority(s1, q.index) {
          AloneIsConstant(s1, s, q.index, q.index);
        }
      }
    }
  }

  lemma NothingLeft(s: Server, s': Server, full: seq<Entry>, full': seq<Entry>, n: nat)
    requires Settled(s, s', s.proposals, {}) && s'.commitIndex == n == |full|
    requires AllAwaited(s, full) && AllAwaited(s', full')
    ensures s'.proposals == []
  {
    hide AllAwaited;
    if s'.proposals != [] {
      var q := s'.proposals[0];
      AwaitedOne(s, full, q);
      AwaitedOne(s', full', q);
    }
  }

  lemma ReconfigureServes(s: Server, full: seq<Entry>, id: nat, change: ConfigChange) returns (full': seq<Entry>)
    requires Serving(s, full) && Joined(s, Reconfigure(id, change)) != []
    ensures var s' := HandleConfigChange(s, id, change);
      && Serving(s', full') && Settled(s, s', s.proposals + Joined(s, Reconfigure(id, change)), {})
      && s.commitIndex <= s'.commitIndex
      && |full'| == |full| + 1 && full <= full' && full'[|full|].index == |full| + 1 && full'[|full|].term == s.term
      && full'[|full|].payload.Change? && Opens(full'[|full|].payload.config, s.config, change)
  {
    ChangeTakesEffect(s.config, s.id, change);
    hide SetAll, BuildJoint, Compacted, Settled, HasMajority, AllAwaited;
    var s' := HandleConfigChange(s, id, change);
    var c := BuildJoint(s.config, s.id, change).config;
    var e := Entry(LastLogIndex(s) + 1, s.term, Change(c));
    var p := Proposal(e.index, e.term, id);
    EndOf(s, full);
    full' := full + [e];
    AppendKeepsCompacted(s, full, e, s');
    JoinedAwaits(s, full, s', e, p);
    JoinedSettles(s, s', full', [p]);
    if Peers(s') == {} {
      forall q | q in s'.proposals ensures !CheckCommitMajority(s', q.index) {
        AloneAfterChange(s.config, s.id, change, {s'.id} + set m | m in s'.matchIndex && s'.matchIndex[m] >= q.index);
      }
    }
  }

  lemma RefusedServes(s: Server, full: seq<Entry>, id: nat)
    requires Serving(s, full)
    ensures var s' := s.(answers := s.answers + [Answer(id, false)]); Serving(s', full) && Settled(s, s', s.proposals + [], {id})
  {
    hide Compacted, CheckCommitMajority;
    var s' := s.(answers := s.answers + [Answer(id, false)]);
    SameLogCompacted(s, full, s');
    assert s'.answers[|s.answers|..] == [Answer(id, false)];
    forall p | p in s'.proposals ensures Awaited(s', full, p) && (Peers(s') == {} ==> !CheckCommitMajority(s', p.index)) {
      assert Awaited(s, full, p);
      if Peers(s') == {} && CheckCommitMajority(s', p.index) {
        AloneIsConstant(s', s, p.index, p.index);
      }
    }
  }

  /** The entry of an accepted request is in the log, and is what was asked for: the very command, or a
      configuration that opens the very change. */
  ghost predicate Logged(s: Server, input: Input, full: seq<Entry>) {
    Joined(s, input) != [] ==>
      var k := LastLogIndex(s);
      && k < |full| && full[k].index == k + 1 && full[k].term == s.term
      && match input
         case Command(_, cmd) => full[k].payload == Op(cmd)
         case Reconfigure(_, change) => full[k].payload.Change? && Opens(full[k].payload.config, s.config, change)
         case _ => true
  }

  ghost predicate AllLogged(s: Server, inputs: seq<Input>, full: seq<Entry>)
    decreases |inputs|
  {
    inputs != [] ==> Logged(s, inputs[0], full) && AllLogged(Handle(s, inputs[0]), inputs[1..], full)
  }

  lemma LoggedStays(s: Server, input: Input, full: seq<Entry>, full': seq<Entry>)
    requires Logged(s, input, full) && full <= full'
    ensures Logged(s, input, full')
  {
  }

  lemma HandleServes(s: Server, full: seq<Entry>, input: Input) returns (full': seq<Entry>)
    requires Serving(s, full) && !Rival(s, input) && Handle(s, input).role == Leader
    ensures var s' := Handle(s, input);
      && Serving(s', full') && Settled(s, s', s.proposals + Joined(s, input), TurnedAway(s, input))
      && s.commitIndex <= s'.commitIndex
    ensures full <= full' && Logged(s, input, full')
  {
    full' := full;
    if input.Reconfigure? {
      full' := AskedServes(s, full, input.id, input.change);
    } else {
      if !input.Command? {
        NothingAsked(s, input, full);
      }
      ServedEnd(s, full);
      hide Serving, Settled, ApplyLogs, ProcessAppendEntries, ProcessAppendEntriesResponse, ProcessInstallSnapshot,
        ProcessRequestVote, ProcessRequestVoteResponse, ProcessInstallSnapshotResponse, HandleConfigChange,
        HandleClientCommand, TransitionToCandidate;
      IsLeader(s, full);
      match input
      case Stand => QuietServes(s, full, s);
      case AskedToVote(ask) =>
        AskServes(s, full, ask);
        AskKeepsCommit(s, ask);
      case VoteCame(peer, vote) =>
        LeaderIgnores(s, peer, vote);
        QuietServes(s, full, s);
      case BatchCame(_) =>
        OthersEndOrPass(s, input);
        QuietServes(s, full, s);
      case AckCame(peer, ack) => full' := AckServes(s, full, peer, ack);
      case Command(id, cmd) => full' := CommandServes(s, full, id, cmd);
      case SnapshotCame(_, _) =>
        OthersEndOrPass(s, input);
        QuietServes(s, full, s);
      case SnapshotAcked(peer, term) =>
        AnswerIsQuiet(s, peer, term);
        QuietServes(s, full, ProcessInstallSnapshotResponse(s, peer, term));
    }
  }

  lemma LeaderIgnores(s: Server, peer: NodeId, vote: VoteResponse)
    requires s.role == Leader && ProcessRequestVoteResponse(s, peer, vote).role == Leader
    ensures ProcessRequestVoteResponse(s, peer, vote) == s
  {
  }

  lemma AnswerIsQuiet(s: Server, peer: NodeId, term: nat)
    requires s.role == Leader && ProcessInstallSnapshotResponse(s, peer, term).role == Leader
    ensures var s' := ProcessInstallSnapshotResponse(s, peer, term); SameQueue(s, s') && s'.term == s.term
  {
  }

  lemma NothingAsked(s: Server, input: Input, full: seq<Entry>)
    requires !input.Command? && !input.Reconfigure?
    ensures s.proposals + Joined(s, input) == s.proposals && TurnedAway(s, input) == {} && Logged(s, input, full)
  {
    assert s.proposals + [] == s.proposals;
  }

  lemma AskedServes(s: Server, full: seq<Entry>, id: nat, change: ConfigChange) returns (full': seq<Entry>)
    requires Serving(s, full)
    ensures var s', input := HandleConfigChange(s, id, change), Reconfigure(id, change);
      && Serving(s', full') && Settled(s, s', s.proposals + Joined(s, input), TurnedAway(s, input))
      && s.commitIndex <= s'.commitIndex && full <= full' && Logged(s, input, full')
  {
    ServedEnd(s, full);
    hide Serving, Settled, SetAll, BuildJoint, CheckCommitMajority;
    full' := full;
    IsLeader(s, full);
    assert s.proposals + [] == s.proposals;
    if Joined(s, Reconfigure(id, change)) == [] {
      RefusedServes(s, full, id);
    } else {
      full' := ReconfigureServes(s, full, id, change);
    }
  }

  lemma ServedEnd(s: Server, full: seq<Entry>)
    requires Serving(s, full)
    ensures LastLogIndex(s) == |full|
  {
    EndOf(s, full);
  }

  lemma AskKeepsCommit(s: Server, ask: VoteRequest)
    ensures ProcessRequestVote(s, ask).0.commitIndex == s.commitIndex
  {
    AskLeaves(s, ask);
  }

  lemma IsLeader(s: Server, full: seq<Entry>)
    requires Serving(s, full)
    ensures s.role == Leader
  {
  }

  // -------------------------------------------------------------- whole runs

  function AllTurnedAway(s: Server, inputs: seq<Input>): set<nat>
    decreases |inputs|
  {
    if inputs == [] then {} else TurnedAway(s, inputs[0]) + AllTurnedAway(Handle(s, inputs[0]), inputs[1..])
  }

  lemma {:induction false} RunServes(s: Server, full: seq<Entry>, inputs: seq<Input>) returns (full': seq<Entry>)
    requires Serving(s, full) && Leads(s, inputs)
    ensures var s' := HandleAll(s, inputs);
      && Serving(s', full') && Settled(s, s', s.proposals + AllJoined(s, inputs), AllTurnedAway(s, inputs))
      && s.commitIndex <= s'.commitIndex
    ensures full <= full' && AllLogged(s, inputs, full')
    decreases |inputs|
  {
    hide Serving, Settled, Handle, Rival, Joined, TurnedAway, Logged;
    full' := full;
    if inputs == [] {
      assert s.proposals + [] == s.proposals;
      NoInputServes(s, full);
    } else {
      var s1, rest := Handle(s, inputs[0]), inputs[1..];
      var mid := HandleServes(s, full, inputs[0]);
      full' := RunServes(s1, mid, rest);
      LoggedStays(s, inputs[0], mid, full');
      SettledRun(s, s1, HandleAll(s1, rest), Joined(s, inputs[0]), AllJoined(s1, rest),
                 TurnedAway(s, inputs[0]), AllTurnedAway(s1, rest));
    }
  }

  lemma NoInputServes(s: Server, full: seq<Entry>)
    requires Serving(s, full)
    ensures Settled(s, s, s.proposals, {})
  {
    hide Compacted, CheckCommitMajority;
    SettledSelf(s, full);
  }

  lemma SettledRun(s: Server, s1: Server, s2: Server, qs: seq<Proposal>, rs: seq<Proposal>, r1: set<nat>, r2: set<nat>)
    requires Settled(s, s1, s.proposals + qs, r1) && Settled(s1, s2, s1.proposals + rs, r2) && s1.commitIndex <= s2.commitIndex
    ensures Settled(s, s2, s.proposals + (qs + rs), r1 + r2)
  {
    var a, b := s1.answers[|s.answers|..], s2.answers[|s1.answers|..];
    assert s2.answers[|s.answers|..] == a + b;
    forall p | p in s.proposals + (qs + rs)
      ensures if p.index <= s2.commitIndex then Answer(p.id, true) in s2.answers[|s.answers|..] else p in s2.proposals
    {
      if p in s.proposals + qs && p.index <= s1.commitIndex {
        assert Answer(p.id, true) in a;
      } else {
        assert p in s1.proposals + rs;
      }
    }
  }

  /** A leader that starts with an empty queue answers success to each request it accepts as soon as it
      has committed its entry, compactions included; the others still wait; it refuses only what it turned
      away on arrival; and the entry of each is exactly what was asked for. */
  lemma CommittedIsAnswered(s: Server, full: seq<Entry>, inputs: seq<Input>) returns (full': seq<Entry>)
    requires Compacted(s, full) && s.lastApplied == s.commitIndex && s.proposals == [] && Leads(s, inputs)
    ensures var s' := HandleAll(s, inputs);
      && s.answers <= s'.answers
      && (forall p {:trigger p in AllJoined(s, inputs)} :: p in AllJoined(s, inputs) ==>
            if p.index <= s'.commitIndex then Answer(p.id, true) in s'.answers[|s.answers|..] else p in s'.proposals)
      && forall a :: a in s'.answers[|s.answers|..] && !a.ok ==> a.id in AllTurnedAway(s, inputs)
    ensures Compacted(HandleAll(s, inputs), full') && full <= full' && AllLogged(s, inputs, full')
  {
    assert s.role == Leader;
    assert Serving(s, full);
    hide Serving, Leads, HandleAll, AllJoined, AllTurnedAway, Compacted, AllLogged;
    full' := RunServes(s, full, inputs);
    assert s.proposals + AllJoined(s, inputs) == AllJoined(s, inputs);
    ServedLog(HandleAll(s, inputs), full');
  }

  lemma ServedLog(s: Server, full: seq<Entry>)
    requires Serving(s, full)
    ensures Compacted(s, full)
  {
  }
}
