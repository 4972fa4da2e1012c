/** Membership changes during one leadership: joint and final configurations take turns, each built
    from the one before, one node at a time. */
module Membership {
  import opened Config
  import opened Log
  import opened Wal
  import opened KeyValue
  import opened Election
  import opened ServerSpec
  import opened Compaction
  import opened HandlerSim
  import opened Journal

  /** The configurations proposed in a piece of a log, in order. */
  function ConfigsIn(log: seq<Entry>): seq<ClusterConfig> {
    if log == [] then []
    else ConfigsIn(log[..|log| - 1]) + (match log[|log| - 1].payload case Change(c) => [c] case _ => [])
  }

  lemma {:induction false} ConfigsConcat(a: seq<Entry>, b: seq<Entry>)
    ensures ConfigsIn(a + b) == ConfigsIn(a) + ConfigsIn(b)
    decreases |b|
  {
    if b == [] {
      assert a + b == a;
    } else {
      var b' := b[..|b| - 1];
      assert (a + b)[..|a + b| - 1] == a + b';
      ConfigsConcat(a, b');
    }
  }

  lemma ConfigsOfOne(e: Entry)
    ensures ConfigsIn([e]) == match e.payload case Change(c) => [c] case _ => []
  {
    assert [e][..0] == [];
  }

  predicate OneMore(a: set<NodeId>, b: set<NodeId>, n: NodeId) {
    n !in a && b == a + {n}
  }

  /** One node joins or leaves; or nothing changes, when a leader outside the cluster removes itself. */
  ghost predicate OneNode(before: set<NodeId>, after: set<NodeId>, self: NodeId) {
    || (exists n :: OneMore(before, after, n))
    || (exists n :: OneMore(after, before, n))
    || (before == after && self !in before)
  }

  /** A joint configuration opens the asked change of `before`, which is a membership one node away. */
  ghost predicate Transition(before: ClusterConfig, joint: ClusterConfig, change: ConfigChange, self: NodeId) {
    Opens(joint, before, change) && OneNode(joint.oldPeers.Keys, joint.newPeers.Keys, self)
  }

  function Previous(start: ClusterConfig, cs: seq<ClusterConfig>, k: nat): ClusterConfig
    requires k <= |cs|
  {
    if k == 0 then start else cs[k - 1]
  }

  /** Joint, final, joint, final: every joint opens the next of the changes asked for, from the previous
      final (or `start`), and every final completes the joint before it. */
  ghost predicate Alternates(start: ClusterConfig, asked: seq<ConfigChange>, cs: seq<ClusterConfig>, self: NodeId) {
    |asked| == (|cs| + 1) / 2
    && forall k: nat {:trigger Turn(start, asked, cs, k, self)} :: k < |cs| ==> Turn(start, asked, cs, k, self)
  }

  ghost predicate Turn(start: ClusterConfig, asked: seq<ConfigChange>, cs: seq<ClusterConfig>, k: nat, self: NodeId)
    requires k < |cs| && |asked| == (|cs| + 1) / 2
  {
    if k % 2 == 0 then Transition(Previous(start, cs, k), cs[k], asked[k / 2], self)
    else Completes(cs[k], Previous(start, cs, k))
  }

  /** Every change the leader accepts is such a transition. */
  lemma JointIsTransition(current: ClusterConfig, self: NodeId, change: ConfigChange)
    requires BuildJoint(current, self, change).Joint?
    ensures Transition(current, BuildJoint(current, self, change).config, change, self) && !current.joint
  {
    ChangeTakesEffect(current, self, change);
    var before, after := current.newPeers.Keys, BuildJoint(current, self, change).config.newPeers.Keys;
    var n := change.node;
    if change.remove && n in before {
      assert before == after + {n};
      assert OneMore(after, before, n);
    } else if change.remove {
      assert after == before;
    } else {
      assert OneMore(before, after, n);
    }
  }

  /** A leader that started from `start` with `base` entries committed: what it proposed since
      alternates, and at most one proposal is not applied yet. */
  ghost predicate Changing(start: ClusterConfig, asked: seq<ConfigChange>, base: nat, s: Server, full: seq<Entry>) {
    && Compacted(s, full) && base <= s.lastApplied && !start.joint
    && Alternates(start, asked, ConfigsIn(full[base..]), s.id)
    && InTurn(start, ConfigsIn(full[base..]), ConfigsIn(full[s.lastApplied..]), s.config, s.pendingConfig)
  }

  /** Where a change stands: none is waiting and the last final is in force, or the last proposal
      waits and the last joint is in force. */
  predicate InTurn(start: ClusterConfig, cs: seq<ClusterConfig>, waiting: seq<ClusterConfig>,
                   config: ClusterConfig, pending: bool) {
    && (waiting == [] ==> |cs| % 2 == 0 && config == Previous(start, cs, |cs|) && !config.joint)
    && (waiting != [] ==>
          && cs != [] && waiting == [cs[|cs| - 1]] && pending
          && config == (if |cs| % 2 == 1 then cs[|cs| - 1] else cs[|cs| - 2]))
  }

  /** Nothing that matters to membership differs. */
  lemma ChangingMoves(start: ClusterConfig, asked: seq<ConfigChange>, base: nat, s: Server, full: seq<Entry>, s': Server)
    requires Changing(start, asked, base, s, full) && Compacted(s', full)
    requires s'.id == s.id && s'.config == s.config && s'.pendingConfig == s.pendingConfig && s'.lastApplied == s.lastApplied
    ensures Changing(start, asked, base, s', full)
  {
  }

  /** One more entry that is not a configuration. */
  lemma ChangingGrows(start: ClusterConfig, asked: seq<ConfigChange>, base: nat, s: Server, full: seq<Entry>, s': Server, e: Entry)
    requires Changing(start, asked, base, s, full) && Compacted(s', full + [e]) && !e.payload.Change?
    requires s'.id == s.id && s'.config == s.config && s'.pendingConfig == s.pendingConfig && s'.lastApplied == s.lastApplied
    ensures Changing(start, asked, base, s', full + [e])
  {
    hide Alternates, InTurn, ConfigsIn, Fold;
    ConfigsAfter(full, base, e);
    ConfigsAfter(full, s.lastApplied, e);
    assert ConfigsIn((full + [e])[base..]) == ConfigsIn(full[base..]);
    assert ConfigsIn((full + [e])[s.lastApplied..]) == ConfigsIn(full[s.lastApplied..]);
  }

  lemma ConfigsAfter(full: seq<Entry>, from: nat, e: Entry)
    requires from <= |full|
    ensures ConfigsIn((full + [e])[from..]) == ConfigsIn(full[from..]) + (match e.payload case Change(c) => [c] case _ => [])
  {
    assert (full + [e])[from..] == full[from..] + [e];
    ConfigsConcat(full[from..], [e]);
    ConfigsOfOne(e);
  }

  lemma ConfigsFrom(full: seq<Entry>, k: nat)
    requires k < |full|
    ensures ConfigsIn(full[k..]) == (match full[k].payload case Change(c) => [c] case _ => []) + ConfigsIn(full[k + 1..])
  {
    assert full[k..] == [full[k]] + full[k + 1..];
    ConfigsConcat([full[k]], full[k + 1..]);
    ConfigsOfOne(full[k]);
  }

  lemma JointExtends(start: ClusterConfig, asked: seq<ConfigChange>, cs: seq<ClusterConfig>, self: NodeId, c: ClusterConfig,
                     change: ConfigChange)
    requires Alternates(start, asked, cs, self) && |cs| % 2 == 0 && Transition(Previous(start, cs, |cs|), c, change, self)
    ensures Alternates(start, asked + [change], cs + [c], self)
  {
    hide Transition;
    var cs', asked' := cs + [c], asked + [change];
    forall k: nat | k < |cs'| ensures Turn(start, asked', cs', k, self) {
      if k < |cs| {
        assert Turn(start, asked, cs, k, self);
      }
    }
  }

  lemma FinalExtends(start: ClusterConfig, asked: seq<ConfigChange>, cs: seq<ClusterConfig>, self: NodeId, c: ClusterConfig)
    requires Alternates(start, asked, cs, self) && |cs| % 2 == 1 && Completes(c, Previous(start, cs, |cs|))
    ensures Alternates(start, asked, cs + [c], self)
  {
    hide Transition;
    var cs' := cs + [c];
    forall k: nat | k < |cs'| ensures Turn(start, asked, cs', k, self) {
      if k < |cs| {
        assert Turn(start, asked, cs, k, self);
      }
    }
  }

  // ------------------------------------------------------------ the two phases

  /** The last of an alternating chain is joint exactly when the chain has odd length. */
  lemma LastTurn(start: ClusterConfig, asked: seq<ConfigChange>, cs: seq<ClusterConfig>, self: NodeId)
    requires Alternates(start, asked, cs, self) && cs != []
    ensures cs[|cs| - 1].joint <==> |cs| % 2 == 1
  {
    var k := |cs| - 1;
    assert Turn(start, asked, cs, k, self);
  }

  /** Applying a configuration entry commits that configuration. */
  lemma ChangeApplies(s: Server, full: seq<Entry>, c: ClusterConfig)
    requires Compacted(s, full) && s.lastApplied < s.commitIndex && full[s.lastApplied].payload == Change(c)
    ensures var s1 := s.(lastApplied := s.lastApplied + 1);
      ApplyNext(s) == CommitConfig(s1, c) && Compacted(s1, full)
  {
    hide CommitConfig;
    var k := s.lastApplied;
    EntriesAgree(s, full, k + 1);
    FoldNext(full, k);
    assert GetEntry(s.(lastApplied := k + 1), k + 1) == Some(full[k]);
  }

  /** The one configuration that waits is the last of the chain. */
  lemma WaitingIsLast(start: ClusterConfig, asked: seq<ConfigChange>, base: nat, s: Server, full: seq<Entry>, c: ClusterConfig)
    requires Changing(start, asked, base, s, full) && s.lastApplied < |full| && full[s.lastApplied].payload == Change(c)
    ensures var cs := ConfigsIn(full[base..]);
      && cs != [] && c == cs[|cs| - 1] && (c.joint <==> |cs| % 2 == 1) && s.pendingConfig
      && ConfigsIn(full[s.lastApplied + 1..]) == []
  {
    hide Alternates, Fold;
    var cs := ConfigsIn(full[base..]);
    ConfigsFrom(full, s.lastApplied);
    var waiting := ConfigsIn(full[s.lastApplied..]);
    assert waiting[0] == c;
    assert |waiting| == 1 + |ConfigsIn(full[s.lastApplied + 1..])|;
    LastTurn(start, asked, cs, s.id);
  }

  lemma FinalProposed(start: ClusterConfig, asked: seq<ConfigChange>, base: nat, s: Server, full: seq<Entry>, s': Server, e: Entry, c: ClusterConfig)
    requires Changing(start, asked, base, s, full) && s.lastApplied < |full| && full[s.lastApplied].payload == Change(c) && c.joint
    requires Compacted(s', full + [e]) && e.payload.Change? && Completes(e.payload.config, c)
    requires s'.id == s.id && s'.config == c && s'.pendingConfig == s.pendingConfig && s'.lastApplied == s.lastApplied + 1
    ensures Changing(start, asked, base, s', full + [e])
  {
    hide ConfigsIn, Fold, Alternates, Compacted;
    WaitingIsLast(start, asked, base, s, full, c);
    CommitFits(start, asked, base, s, full);
    ConfigsAfter(full, base, e);
    ConfigsAfter(full, s.lastApplied + 1, e);
    var cs := ConfigsIn(full[base..]);
    FinalExtends(start, asked, cs, s.id, e.payload.config);
    FinalInTurn(start, cs, c, e.payload.config, s'.pendingConfig);
  }

  lemma FinalInTurn(start: ClusterConfig, cs: seq<ClusterConfig>, c: ClusterConfig, final: ClusterConfig, pending: bool)
    requires cs != [] && c == cs[|cs| - 1] && |cs| % 2 == 1 && pending
    ensures InTurn(start, cs + [final], [] + [final], c, pending)
  {
  }

  lemma JointApplied(s: Server, c: ClusterConfig)
    requires s.role == Leader && c.joint
    ensures var s', e := CommitConfig(s, c), Entry(LastLogIndex(s) + 1, s.term, Change(BuildFinal(c)));
      && s'.log == s.log + [e] && s'.config == c && s'.configChangeIndex == e.index && s'.pendingConfig == s.pendingConfig
      && s'.role == s.role && s'.id == s.id && s'.term == s.term
      && s'.lastIncludedIndex == s.lastIncludedIndex && s'.lastIncludedTerm == s.lastIncludedTerm
      && s'.lastApplied == s.lastApplied && s'.commitIndex == s.commitIndex && s'.store == s.store
  {
    hide BuildFinal;
  }

  lemma FinalCompletes(c: ClusterConfig)
    ensures Completes(BuildFinal(c), c)
  {
  }

  /** A leader that commits the joint configuration proposes the final one, at the end of its log, and
      goes on using the joint one. */
  lemma JointCommits(start: ClusterConfig, asked: seq<ConfigChange>, base: nat, s: Server, full: seq<Entry>) returns (full': seq<Entry>)
    requires Changing(start, asked, base, s, full) && s.lastApplied < s.commitIndex <= |full| && s.role == Leader
    requires full[s.lastApplied].payload.Change? && full[s.lastApplied].payload.config.joint
    ensures var c := full[s.lastApplied].payload.config;
      && |full'| == |full| + 1 && full <= full' && full'[|full|].index == |full| + 1 && full'[|full|].term == s.term
      && full'[|full|].payload.Change? && Completes(full'[|full|].payload.config, c)
      && ApplyNext(s).config == c && ApplyNext(s).configChangeIndex == |full| + 1 && ApplyNext(s).pendingConfig
    ensures Changing(start, asked, base, ApplyNext(s), full') && ApplyNext(s).role == Leader && ApplyNext(s).id == s.id
  {
    CommitFits(start, asked, base, s, full);
    var c := full[s.lastApplied].payload.config;
    ChangeApplies(s, full, c);
    WaitingIsLast(start, asked, base, s, full, c);
    hide Changing, Fold, ApplyNext, CommitConfig, Compacted, BuildFinal;
    var s1 := s.(lastApplied := s.lastApplied + 1);
    IndicesAgree(s1, full);
    JointApplied(s1, c);
    var e := Entry(|full| + 1, s.term, Change(BuildFinal(c)));
    full' := full + [e];
    FinalCompletes(c);
    AppendKeepsCompacted(s1, full, e, CommitConfig(s1, c));
    FinalProposed(start, asked, base, s, full, CommitConfig(s1, c), e, c);
  }

  lemma FinalApplied(start: ClusterConfig, asked: seq<ConfigChange>, base: nat, s: Server, full: seq<Entry>, s': Server, c: ClusterConfig)
    requires Changing(start, asked, base, s, full) && s.lastApplied < |full| && full[s.lastApplied].payload == Change(c) && !c.joint
    requires Compacted(s', full) && s'.id == s.id && s'.config == c && s'.lastApplied == s.lastApplied + 1
    ensures Changing(start, asked, base, s', full)
  {
    WaitingIsLast(start, asked, base, s, full, c);
    hide ConfigsIn, Fold, Alternates;
  }

  /** Committing the final configuration ends the change, and the leadership if it leaves the leader out. */
  lemma FinalCommits(start: ClusterConfig, asked: seq<ConfigChange>, base: nat, s: Server, full: seq<Entry>)
    requires Changing(start, asked, base, s, full) && s.lastApplied < s.commitIndex <= |full| && s.role == Leader
    requires full[s.lastApplied].payload.Change? && !full[s.lastApplied].payload.config.joint
    ensures ApplyNext(s).role == Leader ==> Changing(start, asked, base, ApplyNext(s), full)
    ensures var c := full[s.lastApplied].payload.config;
      && ApplyNext(s).config == c && !ApplyNext(s).pendingConfig && ApplyNext(s).configChangeIndex == 0
      && (ApplyNext(s).role == Leader <==> ContainsNode(c, s.id)) && ApplyNext(s).connected <= Peers(ApplyNext(s))
    ensures ApplyNext(s).id == s.id
  {
    CommitFits(start, asked, base, s, full);
    var c := full[s.lastApplied].payload.config;
    ChangeApplies(s, full, c);
    hide Changing, Fold, ApplyNext, SetAll;
    var s1 := s.(lastApplied := s.lastApplied + 1);
    SameLogCompacted(s1, full, CommitConfig(s1, c));
    FinalApplied(start, asked, base, s, full, CommitConfig(s1, c), c);
  }

  lemma SameLogCompacted(s: Server, full: seq<Entry>, s': Server)
    requires Compacted(s, full) && SameLog(s, s')
    ensures Compacted(s', full)
  {
  }

  lemma OtherCommits(start: ClusterConfig, asked: seq<ConfigChange>, base: nat, s: Server, full: seq<Entry>)
    requires Changing(start, asked, base, s, full) && s.lastApplied < s.commitIndex && !full[s.lastApplied].payload.Change?
    ensures Changing(start, asked, base, ApplyNext(s), full) && ApplyNext(s).role == s.role && ApplyNext(s).id == s.id
  {
    hide Alternates, Fold, CommitConfig, ApplyCommand, ConfigsIn, InTurn, Compacted, ApplyNext;
    var k := s.lastApplied;
    assert Compacted(s, full);
    CommitWithin(s, full);
    ConfigsFrom(full, k);
    OtherApplies(s, full);
    var same := ApplyNextCompacted(s, full);
    assert [] + ConfigsIn(full[k + 1..]) == ConfigsIn(full[k + 1..]);
  }

  lemma OtherApplies(s: Server, full: seq<Entry>)
    requires Compacted(s, full) && s.lastApplied < s.commitIndex <= |full| && !full[s.lastApplied].payload.Change?
    ensures var s' := ApplyNext(s);
      && s'.lastApplied == s.lastApplied + 1 && s'.config == s.config && s'.pendingConfig == s.pendingConfig
      && s'.role == s.role && s'.id == s.id
  {
    hide Fold, CommitConfig, ApplyCommand;
    var k := s.lastApplied;
    EntriesAgree(s, full, k + 1);
    assert GetEntry(s.(lastApplied := k + 1), k + 1) == Some(full[k]);
  }

  lemma ApplyNextChanges(start: ClusterConfig, asked: seq<ConfigChange>, base: nat, s: Server, full: seq<Entry>) returns (full': seq<Entry>)
    requires Changing(start, asked, base, s, full) && s.lastApplied < s.commitIndex && s.role == Leader
    ensures ApplyNext(s).role == Leader ==> Changing(start, asked, base, ApplyNext(s), full')
    ensures full <= full' && ApplyNext(s).id == s.id
  {
    CommitFits(start, asked, base, s, full);
    hide Changing, ApplyNext;
    full' := full;
    if !full[s.lastApplied].payload.Change? {
      OtherCommits(start, asked, base, s, full);
    } else if full[s.lastApplied].payload.config.joint {
      full' := JointCommits(start, asked, base, s, full);
    } else {
      FinalCommits(start, asked, base, s, full);
    }
  }

  lemma CommitFits(start: ClusterConfig, asked: seq<ConfigChange>, base: nat, s: Server, full: seq<Entry>)
    requires Changing(start, asked, base, s, full)
    ensures s.lastIncludedIndex <= s.lastApplied <= s.commitIndex <= |full| && LastLogIndex(s) == |full| && Compacted(s, full)
  {
    IndicesAgree(s, full);
  }

  /** Applying never makes a leader. */
  lemma {:induction false} ApplyAllLeads(s: Server)
    ensures ApplyAll(s).role == Leader ==> s.role == Leader
    ensures ApplyAll(s).id == s.id && ApplyAll(s).commitIndex == s.commitIndex
    ensures s.lastApplied <= s.commitIndex ==> ApplyAll(s).lastApplied == s.commitIndex
    decreases if s.lastApplied < s.commitIndex then s.commitIndex - s.lastApplied else 0
  {
    if s.lastApplied < s.commitIndex {
      ApplyNextLeads(s);
      hide ApplyNext;
      ApplyAllLeads(ApplyNext(s));
    }
  }

  lemma ApplyNextLeads(s: Server)
    requires s.lastApplied < s.commitIndex
    ensures ApplyNext(s).role == Leader ==> s.role == Leader
    ensures ApplyNext(s).id == s.id
  {
    hide ApplyNext;
    ApplyNextLeaves(s);
  }

  lemma {:induction false} ApplyAllChanges(start: ClusterConfig, asked: seq<ConfigChange>, base: nat, s: Server, full: seq<Entry>) returns (full': seq<Entry>)
    requires Changing(start, asked, base, s, full) && s.role == Leader
    ensures ApplyAll(s).role == Leader ==> Changing(start, asked, base, ApplyAll(s), full')
    ensures full <= full'
    decreases if s.lastApplied < s.commitIndex then s.commitIndex - s.lastApplied else 0
  {
    hide Changing, ApplyNext;
    full' := full;
    if s.lastApplied < s.commitIndex {
      full' := ApplyNextChanges(start, asked, base, s, full);
      if ApplyNext(s).role == Leader {
        full' := ApplyAllChanges(start, asked, base, ApplyNext(s), full');
      } else {
        ApplyAllLeads(ApplyNext(s));
      }
    }
  }

  lemma ApplyLogsChanges(start: ClusterConfig, asked: seq<ConfigChange>, base: nat, s: Server, full: seq<Entry>) returns (full': seq<Entry>)
    requires Changing(start, asked, base, s, full) && s.role == Leader
    ensures ApplyLogs(s).role == Leader ==> Changing(start, asked, base, ApplyLogs(s), full')
    ensures full <= full' && ApplyLogs(s).id == s.id
  {
    full' := ApplyAllChanges(start, asked, base, s, full);
    CommitFits(start, asked, base, s, full);
    ApplyAllLeads(s);
    var s1 := ApplyAll(s);
    if s1.role == Leader {
      CommitFits(start, asked, base, s1, full');
      hide Fold, Changing;
      TakeSnapshotCompacted(s1, full');
      assert Compacted(Compact(s1), full');
      assert SameLog(Compact(s1), ApplyLogs(s));
      ChangingMoves(start, asked, base, s1, full', ApplyLogs(s));
    }
  }

  lemma RaisedChanges(start: ClusterConfig, asked: seq<ConfigChange>, base: nat, s: Server, full: seq<Entry>, n: nat) returns (full': seq<Entry>)
    requires Changing(start, asked, base, s, full) && s.role == Leader && s.commitIndex <= n <= |full|
    ensures var s' := ApplyLogs(s.(commitIndex := n));
      (s'.role == Leader ==> Changing(start, asked, base, s', full')) && full <= full' && s'.commitIndex == n && s'.id == s.id
  {
    hide ApplyLogs;
    CommitFits(start, asked, base, s, full);
    ChangingMoves(start, asked, base, s, full, s.(commitIndex := n));
    full' := ApplyLogsChanges(start, asked, base, s.(commitIndex := n), full);
    AppliedCommit(s.(commitIndex := n));
  }

  lemma AppliedCommit(s: Server)
    ensures ApplyLogs(s).commitIndex == s.commitIndex
  {
    ApplyAllLeads(s);
  }

  lemma {:induction false} AdvanceLeads(s: Server, n: nat, last: nat)
    requires s.role != Leader
    ensures AdvanceLeader(s, n, last).role != Leader
    decreases last + 1 - n
  {
    hide ApplyLogs, CheckCommitMajority, EntryTerm;
    if n <= last {
      ApplyLogsLeads(s.(commitIndex := n));
      if EntryTerm(s, n) == s.term && CheckCommitMajority(s, n) {
        AdvanceLeads(ApplyLogs(s.(commitIndex := n)), n + 1, last);
      } else {
        AdvanceLeads(s, n + 1, last);
      }
    }
  }

  lemma ApplyLogsLeads(s: Server)
    ensures ApplyLogs(s).role == Leader ==> s.role == Leader
  {
    ApplyAllLeads(s);
  }

  lemma {:induction false} AdvanceChanges(start: ClusterConfig, asked: seq<ConfigChange>, base: nat, s: Server, full: seq<Entry>, n: nat, last: nat)
    returns (full': seq<Entry>)
    requires Changing(start, asked, base, s, full) && s.role == Leader && s.commitIndex < n && last <= |full|
    ensures AdvanceLeader(s, n, last).role == Leader ==> Changing(start, asked, base, AdvanceLeader(s, n, last), full')
    ensures full <= full'
    decreases last + 1 - n
  {
    hide Changing, ApplyLogs, CheckCommitMajority, EntryTerm;
    full' := full;
    if n <= last {
      if EntryTerm(s, n) == s.term && CheckCommitMajority(s, n) {
        full' := RaisedChanges(start, asked, base, s, full, n);
        var s1 := ApplyLogs(s.(commitIndex := n));
        if s1.role == Leader {
          full' := AdvanceChanges(start, asked, base, s1, full', n + 1, last);
        } else {
          AdvanceLeads(s1, n + 1, last);
        }
      } else {
        full' := AdvanceChanges(start, asked, base, s, full, n + 1, last);
      }
    }
  }

  // --------------------------------------------------------- one leader's inputs

  lemma AckChanges(start: ClusterConfig, asked: seq<ConfigChange>, base: nat, s: Server, full: seq<Entry>, peer: NodeId, ack: AppendResponse)
    returns (full': seq<Entry>)
    requires Changing(start, asked, base, s, full) && s.role == Leader
    ensures var s' := ProcessAppendEntriesResponse(s, peer, ack); s'.role == Leader ==> Changing(start, asked, base, s', full')
    ensures full <= full'
  {
    hide Changing, AdvanceLeader;
    full' := full;
    CommitFits(start, asked, base, s, full);
    if ack.term <= s.term {
      if ack.term == s.term && ack.success {
        var s1 := s.(matchIndex := s.matchIndex[peer := ack.matchIndex], nextIndex := s.nextIndex[peer := ack.matchIndex + 1]);
        ChangingMoves(start, asked, base, s, full, s1);
        full' := AdvanceChanges(start, asked, base, s1, full, s1.commitIndex + 1, LastLogIndex(s1));
      } else {
        ChangingMoves(start, asked, base, s, full, ProcessAppendEntriesResponse(s, peer, ack));
      }
    }
  }

  lemma CommandChanges(start: ClusterConfig, asked: seq<ConfigChange>, base: nat, s: Server, full: seq<Entry>, id: nat, cmd: Log.Command)
    returns (full': seq<Entry>)
    requires Changing(start, asked, base, s, full) && s.role == Leader
    ensures var s' := HandleClientCommand(s, id, cmd); s'.role == Leader ==> Changing(start, asked, base, s', full')
    ensures full <= full'
  {
    hide Changing, ApplyLogs, CheckCommitMajority;
    CommitFits(start, asked, base, s, full);
    var e := Entry(LastLogIndex(s) + 1, s.term, Op(cmd));
    var s1 := Proposed(s, id, cmd);
    full' := full + [e];
    AppendKeepsCompacted(s, full, e, s1);
    ChangingGrows(start, asked, base, s, full, s1, e);
    if Peers(s1) == {} && CheckCommitMajority(s1, e.index) {
      full' := RaisedChanges(start, asked, base, s1, full', e.index);
    }
  }

  /** The change an input opens, if the node accepts it: it leads, no change is under way, and the
      configuration allows it. */
  function Granted(s: Server, input: Input): seq<ConfigChange> {
    match input
    case Reconfigure(_, change) =>
      if s.role == Leader && !s.pendingConfig && BuildJoint(s.config, s.id, change).Joint? then [change] else []
    case _ => []
  }

  function AllGranted(s: Server, inputs: seq<Input>): seq<ConfigChange>
    decreases |inputs|
  {
    if inputs == [] then [] else Granted(s, inputs[0]) + AllGranted(Handle(s, inputs[0]), inputs[1..])
  }

  lemma ReconfigureChanges(start: ClusterConfig, asked: seq<ConfigChange>, base: nat, s: Server, full: seq<Entry>, id: nat, change: ConfigChange)
    returns (full': seq<Entry>)
    requires Changing(start, asked, base, s, full) && s.role == Leader
    ensures var s' := HandleConfigChange(s, id, change);
      s'.role == Leader ==> Changing(start, asked + Granted(s, Reconfigure(id, change)), base, s', full')
    ensures full <= full'
  {
    hide Changing, SetAll, BuildJoint, PeerIds, Refusals, Fold;
    full' := full;
    CommitFits(start, asked, base, s, full);
    var s' := HandleConfigChange(s, id, change);
    if s.pendingConfig || BuildJoint(s.config, s.id, change).Refused? {
      assert asked + [] == asked;
      ChangingMoves(start, asked, base, s, full, s');
    } else {
      var c := BuildJoint(s.config, s.id, change).config;
      JointIsTransition(s.config, s.id, change);
      var e := Entry(LastLogIndex(s) + 1, s.term, Change(c));
      full' := full + [e];
      AppendKeepsCompacted(s, full, e, s');
      NewChange(start, asked, base, s, full, s', e, c, change);
    }
  }

  /** A leader with nothing waiting proposes a joint configuration and adopts it at once. */
  lemma NewChange(start: ClusterConfig, asked: seq<ConfigChange>, base: nat, s: Server, full: seq<Entry>, s': Server, e: Entry, c: ClusterConfig,
                  change: ConfigChange)
    requires Changing(start, asked, base, s, full) && Compacted(s', full + [e]) && !s.pendingConfig
    requires e.payload == Change(c) && Transition(s.config, c, change, s.id)
    requires s'.id == s.id && s'.config == c && s'.pendingConfig && s'.lastApplied == s.lastApplied
    ensures Changing(start, asked + [change], base, s', full + [e])
  {
    hide ConfigsIn, Fold, Transition, Alternates;
    ConfigsAfter(full, base, e);
    ConfigsAfter(full, s.lastApplied, e);
    JointExtends(start, asked, ConfigsIn(full[base..]), s.id, c, change);
  }

  lemma AskChanges(start: ClusterConfig, asked: seq<ConfigChange>, base: nat, s: Server, full: seq<Entry>, ask: VoteRequest)
    requires Changing(start, asked, base, s, full) && s.role == Leader
    ensures var s' := ProcessRequestVote(s, ask).0; s'.role == Leader ==> Changing(start, asked, base, s', full)
  {
    hide Changing, ProcessRequestVote;
    AskLeaves(s, ask);
    CommitFits(start, asked, base, s, full);
    ChangingMoves(start, asked, base, s, full, ProcessRequestVote(s, ask).0);
  }

  /** A batch or a snapshot chunk of the node's own term, from someone else. */
  predicate Rival(s: Server, input: Input) {
    || (input.BatchCame? && input.batch.term == s.term)
    || (input.SnapshotCame? && input.chunk.term == s.term)
  }

  /** Whoever sends a batch or a chunk of another term either is ignored or ends the leadership. */
  lemma OthersEndOrPass(s: Server, input: Input)
    requires (input.BatchCame? || input.SnapshotCame?) && !Rival(s, input)
    ensures Handle(s, input) == s || Handle(s, input).role != Leader
  {
    if input.BatchCame? {
      BatchEndsOrPasses(s, input.batch);
    } else {
      hide RestoreSnapshot, Refusals;
      ChunkEndsOrPasses(s, input.chunk, input.whole);
    }
  }

  lemma ChunkEndsOrPasses(s: Server, chunk: SnapshotRequest, whole: Option<Snapshot>)
    requires chunk.term != s.term
    ensures var s' := ProcessInstallSnapshot(s, chunk, _ => whole); s' == s || s'.role != Leader
  {
    hide Retained, Refusals, Collected;
    if chunk.term > s.term {
      var s1 := AdoptLeader(s, chunk.term, chunk.leader);
      assert s1.role == Follower;
    }
  }

  lemma BatchEndsOrPasses(s: Server, req: AppendRequest)
    requires req.term != s.term
    ensures ProcessAppendEntries(s, req).0 == s || ProcessAppendEntries(s, req).0.role != Leader
  {
    hide MergeEntries, ApplyLogs;
    if req.term > s.term {
      var s1 := AdoptLeader(s, req.term, req.leader);
      MergeCommit(s1, req.entries);
      var s2 := MergeEntries(s1, req.entries);
      ApplyLogsLeads(Raised(s2, req.leaderCommit));
    }
  }

  /** What can happen to a leader that remains one. */
  lemma HandleChanges(start: ClusterConfig, asked: seq<ConfigChange>, base: nat, s: Server, full: seq<Entry>, input: Input) returns (full': seq<Entry>)
    requires Changing(start, asked, base, s, full) && s.role == Leader && !Rival(s, input)
    ensures Handle(s, input).role == Leader ==> Changing(start, asked + Granted(s, input), base, Handle(s, input), full')
    ensures full <= full'
  {
    assert asked + [] == asked;
    hide Changing, ApplyLogs, ProcessAppendEntries, ProcessInstallSnapshot, ProcessAppendEntriesResponse, HandleClientCommand,
      HandleConfigChange, ProcessRequestVote, HasMajority, SetAll, Refusals;
    full' := full;
    CommitFits(start, asked, base, s, full);
    match input
    case Stand =>
    case AskedToVote(ask) => AskChanges(start, asked, base, s, full, ask);
    case VoteCame(peer, vote) =>
    case BatchCame(_) => OthersEndOrPass(s, input);
    case AckCame(peer, ack) => full' := AckChanges(start, asked, base, s, full, peer, ack);
    case Command(id, cmd) => full' := CommandChanges(start, asked, base, s, full, id, cmd);
    case Reconfigure(id, change) => full' := ReconfigureChanges(start, asked, base, s, full, id, change);
    case SnapshotCame(_, _) => OthersEndOrPass(s, input);
    case SnapshotAcked(peer, term) =>
      if term <= s.term {
        ChangingMoves(start, asked, base, s, full, ProcessInstallSnapshotResponse(s, peer, term));
      }
  }

  /** The node leads throughout: no input ends its leadership, and none is a rival's of the same term,
      of whom there are none in a run. */
  predicate Leads(s: Server, inputs: seq<Input>)
    decreases |inputs|
  {
    s.role == Leader && (inputs != [] ==> !Rival(s, inputs[0]) && Leads(Handle(s, inputs[0]), inputs[1..]))
  }

  /** Membership chain.  A leader that starts from a steady configuration with no configuration
      waiting proposes joint, final, joint, final, ..., for as long as it leads: the joints open exactly
      the changes it accepted, in order, each from the final before it, and each final is the new side
      of its joint. */
  lemma {:induction false} MembershipChain(s: Server, full: seq<Entry>, inputs: seq<Input>) returns (full': seq<Entry>)
    requires Compacted(s, full) && s.lastApplied == s.commitIndex
    requires !s.config.joint && ConfigsIn(full[s.commitIndex..]) == []
    requires Leads(s, inputs)
    ensures Compacted(HandleAll(s, inputs), full') && full <= full'
    ensures Alternates(s.config, AllGranted(s, inputs), ConfigsIn(full'[s.commitIndex..]), s.id)
  {
    FirstChanging(s, full);
    full' := ChainFrom(s.config, [], s.commitIndex, s, full, inputs);
    assert [] + AllGranted(s, inputs) == AllGranted(s, inputs);
    hide Alternates, Fold;
    LeaderKeepsName(s, inputs);
  }

  /** The members after some changes, one after the other. */
  function AfterChanges(members: map<NodeId, string>, asked: seq<ConfigChange>): map<NodeId, string> {
    if asked == [] then members
    else
      var before, change := AfterChanges(members, asked[..|asked| - 1]), asked[|asked| - 1];
      if change.remove then before - {change.node} else before[change.node := change.grpcAddr]
  }

  /** The chain comes to what its changes ask for. */
  lemma {:induction false} ChainIsChanges(start: ClusterConfig, asked: seq<ConfigChange>, cs: seq<ClusterConfig>, self: NodeId)
    requires Alternates(start, asked, cs, self)
    ensures Previous(start, cs, |cs|).newPeers == AfterChanges(start.newPeers, asked)
    decreases |cs|
  {
    if cs != [] {
      var k := |cs| - 1;
      var before := cs[..k];
      var asked' := if k % 2 == 0 then asked[..|asked| - 1] else asked;
      forall j: nat | j < k ensures Turn(start, asked', before, j, self) {
        assert Turn(start, asked, cs, j, self);
        assert before[..j] == cs[..j];
      }
      ChainIsChanges(start, asked', before, self);
      assert Turn(start, asked, cs, k, self);
      assert Previous(start, before, |before|) == Previous(start, cs, k);
      if k % 2 == 0 {
        ChangedIs(Previous(start, cs, k).newPeers, cs[k].newPeers, asked[|asked| - 1]);
      }
    }
  }

  lemma ChangedIs(before: map<NodeId, string>, after: map<NodeId, string>, change: ConfigChange)
    requires Changed(before, after, change.node, change.grpcAddr, change.remove)
    ensures after == if change.remove then before - {change.node} else before[change.node := change.grpcAddr]
  {
    var expected := if change.remove then before - {change.node} else before[change.node := change.grpcAddr];
    assert forall id :: id in after <==> id in expected;
    assert after.Keys == expected.Keys;
  }

  /** So when a leader has applied every configuration it proposed, its members are those it started
      with, changed as it was asked to, each accepted change once and in order. */
  lemma ChangesTakeEffect(s: Server, full: seq<Entry>, inputs: seq<Input>) returns (full': seq<Entry>)
    requires Compacted(s, full) && s.lastApplied == s.commitIndex
    requires !s.config.joint && ConfigsIn(full[s.commitIndex..]) == []
    requires Leads(s, inputs)
    ensures var s' := HandleAll(s, inputs);
      && Compacted(s', full') && full <= full'
      && (ConfigsIn(full'[s'.lastApplied..]) == [] ==>
            !s'.config.joint && s'.config.newPeers == AfterChanges(s.config.newPeers, AllGranted(s, inputs)))
  {
    FirstChanging(s, full);
    full' := ChainFrom(s.config, [], s.commitIndex, s, full, inputs);
    var asked := AllGranted(s, inputs);
    assert [] + asked == asked;
    hide Alternates, Fold, ConfigsIn, Leads, AllGranted, AfterChanges;
    LeaderKeepsName(s, inputs);
    ChainIsChanges(s.config, asked, ConfigsIn(full'[s.commitIndex..]), s.id);
  }

  lemma FirstChanging(s: Server, full: seq<Entry>)
    requires Compacted(s, full) && s.lastApplied == s.commitIndex
    requires !s.config.joint && ConfigsIn(full[s.commitIndex..]) == []
    ensures Changing(s.config, [], s.commitIndex, s, full)
  {
  }

  lemma {:induction false} ChainFrom(start: ClusterConfig, asked: seq<ConfigChange>, base: nat, s: Server, full: seq<Entry>, inputs: seq<Input>)
    returns (full': seq<Entry>)
    requires Changing(start, asked, base, s, full) && Leads(s, inputs)
    ensures Changing(start, asked + AllGranted(s, inputs), base, HandleAll(s, inputs), full') && full <= full'
    decreases |inputs|
  {
    hide Changing, Handle;
    full' := full;
    if inputs == [] {
      assert asked + [] == asked;
    } else {
      var now := asked + Granted(s, inputs[0]);
      full' := HandleChanges(start, asked, base, s, full, inputs[0]);
      full' := ChainFrom(start, now, base, Handle(s, inputs[0]), full', inputs[1..]);
      assert now + AllGranted(Handle(s, inputs[0]), inputs[1..]) == asked + AllGranted(s, inputs);
    }
  }

  lemma {:induction false} LeaderKeepsName(s: Server, inputs: seq<Input>)
    requires Leads(s, inputs)
    ensures HandleAll(s, inputs).id == s.id
    decreases |inputs|
  {
    if inputs != [] {
      HandleKeepsName(s, inputs[0]);
      hide Handle;
      LeaderKeepsName(Handle(s, inputs[0]), inputs[1..]);
    }
  }

  lemma HandleKeepsName(s: Server, input: Input)
    requires s.role == Leader && Handle(s, input).role == Leader && !Rival(s, input)
    ensures Handle(s, input).id == s.id
  {
    hide ApplyLogs, AdvanceLeader, SetAll, BuildJoint, HasMajority, PeerIds, ContainsNode, LastLogIndex, LastLogTerm,
      ProcessAppendEntries, ProcessInstallSnapshot;
    match input
    case Stand =>
    case AskedToVote(_) =>
    case VoteCame(_, _) =>
    case BatchCame(_) => OthersEndOrPass(s, input);
    case SnapshotCame(_, _) => OthersEndOrPass(s, input);
    case SnapshotAcked(_, _) =>
    case AckCame(peer, ack) =>
      if s.role == Leader && ack.term == s.term && ack.success {
        var s1 := s.(matchIndex := s.matchIndex[peer := ack.matchIndex], nextIndex := s.nextIndex[peer := ack.matchIndex + 1]);
        AdvanceKeepsName(s1, s1.commitIndex + 1, LastLogIndex(s1));
      }
    case Command(id, cmd) => ApplyKeepsName(Proposed(s, id, cmd).(commitIndex := LastLogIndex(s) + 1));
    case Reconfigure(_, _) =>
  }

  lemma ApplyKeepsName(s: Server)
    ensures ApplyLogs(s).id == s.id
  {
    ApplyAllLeads(s);
  }

  lemma {:induction false} AdvanceKeepsName(s: Server, n: nat, last: nat)
    ensures AdvanceLeader(s, n, last).id == s.id
    decreases last + 1 - n
  {
    hide ApplyLogs, CheckCommitMajority, EntryTerm;
    if n <= last {
      ApplyKeepsName(s.(commitIndex := n));
      if EntryTerm(s, n) == s.term && CheckCommitMajority(s, n) {
        AdvanceKeepsName(ApplyLogs(s.(commitIndex := n)), n + 1, last);
      } else {
        AdvanceKeepsName(s, n + 1, last);
      }
    }
  }

  // ----------------------------------------------------------- reaching everybody

  /** What is known of a peer is known of every peer the node is connected to. */
  predicate BooksKept(s: Server) {
    s.connected <= s.nextIndex.Keys && s.connected <= s.matchIndex.Keys
  }

  /** A leader that can send to every other member of its configuration, on both sides. */
  predicate Reaches(s: Server) {
    BooksKept(s) && Peers(s) <= s.connected
  }

  /** Winning an election connects the leader to everybody, with every peer still to be probed from the
      end of the log and none believed to hold anything. */
  lemma NewLeaderReaches(s: Server)
    requires s.role == Candidate && BooksKept(s)
    ensures var s' := TransitionToLeader(s);
      && Reaches(s') && forall p :: p in Peers(s) ==> s'.nextIndex[p] == LastLogIndex(s) + 1 && s'.matchIndex[p] == 0
  {
  }

  /** An accepted change connects the leader to whoever joins, from the end of the log, and keeps what it
      knows of the others. */
  lemma ChangeReaches(s: Server, id: nat, change: ConfigChange)
    requires Reaches(s) && Granted(s, Reconfigure(id, change)) == [change]
    ensures var s' := HandleConfigChange(s, id, change);
      && Reaches(s') && Peers(s') == Peers(s) + ({change.node} - {s.id})
      && (change.node !in s.connected && change.node != s.id ==>
            s'.nextIndex[change.node] == LastLogIndex(s) + 2 && s'.matchIndex[change.node] == 0)
      && forall p :: p in s.connected ==> s'.nextIndex[p] == s.nextIndex[p] && s'.matchIndex[p] == s.matchIndex[p]
  {
    ChangeTakesEffect(s.config, s.id, change);
    hide BuildJoint;
    var c := BuildJoint(s.config, s.id, change).config;
    JointPeers(s.config, s.id, change);
  }

  lemma JointPeers(current: ClusterConfig, self: NodeId, change: ConfigChange)
    requires BuildJoint(current, self, change).Joint?
    ensures PeerIds(BuildJoint(current, self, change).config, self) == PeerIds(current, self) + ({change.node} - {self})
  {
    var c := BuildJoint(current, self, change).config;
    if change.remove && change.node != self {
      assert change.node in c.oldPeers.Keys;
    }
  }

  /** Committing the final configuration drops whoever left, with all that was known of it, and nobody else. */
  lemma FinalReaches(s: Server, c: ClusterConfig)
    requires Reaches(s) && s.role == Leader && s.config.joint && Completes(c, s.config) && ContainsNode(c, s.id)
    ensures var s' := CommitConfig(s, c);
      && Reaches(s') && s'.role == Leader && s'.connected == s.connected * Peers(s')
      && (forall p :: p in s.connected - Peers(s') ==> p !in s'.nextIndex && p !in s'.matchIndex)
      && forall p :: p in Peers(s') ==> s'.nextIndex[p] == s.nextIndex[p] && s'.matchIndex[p] == s.matchIndex[p]
  {
  }

  // --------------------------------------------------------- knowing one's place

  /** The node stays out of elections exactly while its configuration leaves it out. */
  predicate KnowsItsPlace(s: Server) {
    s.isJoining <==> !ContainsNode(s.config, s.id)
  }

  predicate SamePlace(s: Server, s': Server) {
    s'.isJoining == s.isJoining && s'.config == s.config && s'.id == s.id
  }

  lemma CommitKnows(s: Server, c: ClusterConfig)
    ensures KnowsItsPlace(CommitConfig(s, c))
  {
    hide Refusals, PeerIds, LastLogIndex, BuildFinal;
  }

  lemma {:induction false} ApplyAllKnows(s: Server)
    requires KnowsItsPlace(s)
    ensures KnowsItsPlace(ApplyAll(s))
    decreases if s.lastApplied < s.commitIndex then s.commitIndex - s.lastApplied else 0
  {
    if s.lastApplied < s.commitIndex {
      ApplyNextKnows(s);
      hide ApplyNext, KnowsItsPlace;
      ApplyAllKnows(ApplyNext(s));
    }
  }

  lemma ApplyNextKnows(s: Server)
    requires KnowsItsPlace(s) && s.lastApplied < s.commitIndex
    ensures KnowsItsPlace(ApplyNext(s))
  {
    hide CommitConfig, ApplyCommand;
    var s1 := s.(lastApplied := s.lastApplied + 1);
    var e := GetEntry(s1, s1.lastApplied);
    if e.Some? && e.value.payload.Change? {
      CommitKnows(s1, e.value.payload.config);
    }
  }

  lemma ApplyKnows(s: Server)
    requires KnowsItsPlace(s)
    ensures KnowsItsPlace(ApplyLogs(s))
  {
    ApplyAllKnows(s);
    hide ApplyAll, Retained, Due, Waiting;
    assert SamePlace(ApplyAll(s), ApplyLogs(s));
  }

  lemma {:induction false} AdvanceKnows(s: Server, n: nat, last: nat)
    requires KnowsItsPlace(s)
    ensures KnowsItsPlace(AdvanceLeader(s, n, last))
    decreases last + 1 - n
  {
    hide ApplyLogs, CheckCommitMajority, EntryTerm, ContainsNode;
    if n <= last {
      ApplyKnows(s.(commitIndex := n));
      if EntryTerm(s, n) == s.term && CheckCommitMajority(s, n) {
        AdvanceKnows(ApplyLogs(s.(commitIndex := n)), n + 1, last);
      } else {
        AdvanceKnows(s, n + 1, last);
      }
    }
  }

  lemma BatchKnows(s: Server, req: AppendRequest)
    requires KnowsItsPlace(s)
    ensures KnowsItsPlace(ProcessAppendEntries(s, req).0)
  {
    hide MergeEntries, ApplyLogs, Refusals, ContainsNode;
    if req.term >= s.term {
      var s1 := AdoptLeader(s, req.term, req.leader);
      MergeCommit(s1, req.entries);
      ApplyKnows(Raised(MergeEntries(s1, req.entries), req.leaderCommit));
    }
  }

  /** The input installs a snapshot. */
  predicate Replaces(s: Server, input: Input) {
    input.SnapshotCame? && input.chunk.term >= s.term && input.chunk.done && input.whole.Some?
  }

  /** Whatever a node handles, it goes on standing for election exactly while it is a member; only a
      snapshot changes the configuration without looking, and then this holds exactly if the node is a
      member of the snapshot's configuration when it was one of its own, and not otherwise. */
  lemma HandleKnows(s: Server, input: Input)
    requires KnowsItsPlace(s)
    ensures !Replaces(s, input) ==> KnowsItsPlace(Handle(s, input))
    ensures Replaces(s, input) && input.whole.value.config.Some? ==>
      (KnowsItsPlace(Handle(s, input)) <==>
       (ContainsNode(input.whole.value.config.value, s.id) <==> ContainsNode(s.config, s.id)))
  {
    hide ApplyLogs, AdvanceLeader, SetAll, BuildJoint, HasMajority, PeerIds, ContainsNode, LastLogIndex, LastLogTerm,
      Refusals, CheckCommitMajority, ProcessAppendEntries, ProcessInstallSnapshot, ProcessRequestVote,
      ProcessRequestVoteResponse;
    match input
    case Stand =>
    case AskedToVote(ask) => VotingKeepsPlace(s, ask, 0, VoteResponse(0, false));
    case VoteCame(peer, vote) => VotingKeepsPlace(s, VoteRequest(0, 0, 0, 0), peer, vote);
    case BatchCame(req) => BatchKnows(s, req);
    case SnapshotCame(chunk, whole) => ChunkKnows(s, chunk, whole);
    case SnapshotAcked(_, _) =>
    case AckCame(peer, ack) =>
      var s1 := Acknowledged(s, peer, ack);
      AdvanceKnows(s1, s1.commitIndex + 1, LastLogIndex(s1));
    case Command(id, cmd) =>
      ApplyKnows(Proposed(s, id, cmd).(commitIndex := LastLogIndex(s) + 1));
    case Reconfigure(_, _) =>
  }

  lemma VotingKeepsPlace(s: Server, ask: VoteRequest, peer: NodeId, vote: VoteResponse)
    ensures SamePlace(s, ProcessRequestVote(s, ask).0) && SamePlace(s, ProcessRequestVoteResponse(s, peer, vote))
  {
    hide Refusals, SetAll, HasMajority;
  }

  lemma ChunkKnows(s: Server, chunk: SnapshotRequest, whole: Option<Snapshot>)
    ensures var s' := ProcessInstallSnapshot(s, chunk, _ => whole);
      && s'.isJoining == s.isJoining && s'.id == s.id
      && s'.config == if Replaces(s, SnapshotCame(chunk, whole)) && whole.value.config.Some? then whole.value.config.value else s.config
  {
    hide RestoreSnapshot, AdoptLeader, Collected;
    AdoptKeepsPlace(s, chunk.term, chunk.leader);
    var s1 := AdoptLeader(s, chunk.term, chunk.leader);
    if whole.Some? {
      RestoreSetsConfig(s1.(snapshotBuf := Collected(s1.snapshotBuf, chunk.offset, chunk.data)), whole.value);
    }
  }

  lemma AdoptKeepsPlace(s: Server, term: nat, leader: NodeId)
    ensures SamePlace(s, AdoptLeader(s, term, leader))
  {
    hide Refusals;
  }

  lemma RestoreSetsConfig(s: Server, snap: Snapshot)
    ensures var s' := RestoreSnapshot(s, snap);
      && s'.isJoining == s.isJoining && s'.id == s.id
      && s'.config == if snap.config.Some? then snap.config.value else s.config
  {
    hide Retained;
  }
}
