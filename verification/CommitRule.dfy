/** The leader's commit rule, exactly: after an acknowledgement it has committed everything of its own
    term that enough members hold, and nothing else. */
module CommitRule {
  import opened Config
  import opened Log
  import opened Wal
  import opened KeyValue
  import opened Election
  import opened ServerSpec
  import opened Compaction
  import opened Cluster
  import opened Success
  import HandlerSim

  /** Who holds index `n`, as far as the leader knows. */
  function Holders(s: Server, n: nat): set<NodeId> {
    {s.id} + set p | p in s.matchIndex && s.matchIndex[p] >= n
  }

  /** Enough members hold index `n`: of the new side, and during a change of the old side too. */
  predicate HeldByEnough(s: Server, n: nat) {
    && Enough(s.config.newPeers.Keys, s.id, Holders(s, n))
    && (s.config.joint ==> Enough(s.config.oldPeers.Keys, s.id, Holders(s, n)))
  }

  lemma CheckIsHeld(s: Server, n: nat)
    ensures CheckCommitMajority(s, n) <==> HeldByEnough(s, n)
  {
    MajorityExactly(s.config, s.id, Holders(s, n));
  }

  /** Index `n` could be committed and is not. */
  predicate Overdue(s: Server, full: seq<Entry>, n: nat) {
    s.commitIndex < n <= |full| && TermAt(full, n) == s.term && HeldByEnough(s, n)
  }

  ghost predicate NoneOverdue(s: Server, full: seq<Entry>, upto: nat) {
    forall n: nat {:trigger Overdue(s, full, n)} :: n <= upto ==> !Overdue(s, full, n)
  }

  lemma NoneBelow(s: Server, full: seq<Entry>, n: nat)
    requires n <= s.commitIndex
    ensures NoneOverdue(s, full, n)
  {
  }

  lemma OneMoreTried(s: Server, full: seq<Entry>, n: nat)
    requires Compacted(s, full) && s.commitIndex < n <= |full| && NoneOverdue(s, full, n - 1)
    requires EntryTerm(s, n) != s.term || !CheckCommitMajority(s, n)
    ensures NoneOverdue(s, full, n)
  {
    hide Fold;
    EntriesAgree(s, full, n);
    CheckIsHeld(s, n);
    forall m: nat | m <= n ensures !Overdue(s, full, m) {
      if m < n {
        assert !Overdue(s, full, m);
      }
    }
  }

  /** One commit, and what it leaves. */
  lemma RaiseApplies(s: Server, full: seq<Entry>, n: nat) returns (full': seq<Entry>)
    requires Compacted(s, full) && s.commitIndex < n <= |full|
    ensures var s' := ApplyLogs(s.(commitIndex := n));
      && Compacted(s', full') && full <= full' && s'.lastApplied == s'.commitIndex == n && s'.term == s.term
    ensures full' != full ==> exists k :: 0 <= k < |full| && full[k].payload.Change?
  {
    hide ApplyLogs, Fold;
    full' := ApplyLogsCompacted(s.(commitIndex := n), full);
    ApplyKeepsTerm(s.(commitIndex := n));
  }

  /** The commit loop leaves nothing behind: whatever was overdue below `last` is committed, also when
      a configuration is committed on the way and changes who counts. */
  lemma {:induction false} LoopLeavesNone(s: Server, full: seq<Entry>, n: nat, last: nat) returns (full': seq<Entry>)
    requires Compacted(s, full) && s.lastApplied == s.commitIndex && s.commitIndex < n <= last + 1 && last <= |full|
    requires NoneOverdue(s, full, n - 1)
    ensures var s' := AdvanceLeader(s, n, last);
      && Compacted(s', full') && full <= full' && s'.term == s.term && s.commitIndex <= s'.commitIndex
      && s'.lastApplied == s'.commitIndex && NoneOverdue(s', full', last)
    decreases last + 1 - n
  {
    hide ApplyLogs, CheckCommitMajority, EntryTerm, Compacted, NoneOverdue;
    full' := full;
    if n <= last {
      if EntryTerm(s, n) == s.term && CheckCommitMajority(s, n) {
        var mid := RaiseApplies(s, full, n);
        var s1 := ApplyLogs(s.(commitIndex := n));
        NoneBelow(s1, mid, n);
        full' := LoopLeavesNone(s1, mid, n + 1, last);
      } else {
        OneMoreTried(s, full, n);
        full' := LoopLeavesNone(s, full, n + 1, last);
      }
    }
  }

  /** The leader's books after a success, before it commits. */
  function Credited(s: Server, peer: NodeId, ack: AppendResponse): Server {
    s.(matchIndex := s.matchIndex[peer := ack.matchIndex], nextIndex := s.nextIndex[peer := ack.matchIndex + 1])
  }

  /** After an acknowledgement no entry of the leader's term that enough members hold is left above the
      commit index, in steady times and during a change. */
  lemma NothingLeftToCommit(s: Server, full: seq<Entry>, peer: NodeId, ack: AppendResponse) returns (full': seq<Entry>)
    requires Compacted(s, full) && s.lastApplied == s.commitIndex
    requires s.role == Leader && ack.term == s.term && ack.success
    ensures var s' := ProcessAppendEntriesResponse(s, peer, ack);
      && Compacted(s', full') && full <= full' && s.commitIndex <= s'.commitIndex && s'.lastApplied == s'.commitIndex
      && forall n: nat {:trigger Overdue(s', full', n)} :: n <= |full| ==> !Overdue(s', full', n)
  {
    hide Fold, AdvanceLeader;
    var s1 := Credited(s, peer, ack);
    IndicesAgree(s1, full);
    assert Compacted(s1, full);
    NoneBelow(s1, full, s1.commitIndex);
    full' := LoopLeavesNone(s1, full, s1.commitIndex + 1, LastLogIndex(s1));
  }

  // ------------------------------------------------------------- nothing else

  /** Applying entries that change no configuration leaves the books and the configuration. */
  lemma BooksStay(s: Server)
    requires NoChange(s.log)
    ensures var s' := ApplyLogs(s);
      s'.config == s.config && s'.id == s.id && s'.matchIndex == s.matchIndex && s'.commitIndex == s.commitIndex && s'.term == s.term
    ensures NoChange(ApplyLogs(s).log)
  {
    NoChangeApplyLogs(s);
    AppliedLog(s);
  }

  lemma SameHolders(s: Server, s': Server, n: nat)
    requires s'.config == s.config && s'.id == s.id && s'.matchIndex == s.matchIndex
    ensures HeldByEnough(s', n) <==> HeldByEnough(s, n)
  {
  }

  lemma {:induction false} LoopCommitsHeld(s: Server, full: seq<Entry>, n: nat, last: nat)
    requires Compacted(s, full) && NoChange(full) && s.lastApplied == s.commitIndex && s.commitIndex < n && last <= |full|
    ensures var s' := AdvanceLeader(s, n, last);
      && s'.config == s.config && s'.id == s.id && s'.matchIndex == s.matchIndex && s'.term == s.term
      && Compacted(s', full) && s'.commitIndex <= |full|
      && (s'.commitIndex != s.commitIndex ==> TermAt(full, s'.commitIndex) == s.term && HeldByEnough(s, s'.commitIndex))
    decreases last + 1 - n
  {
    hide ApplyLogs, CheckCommitMajority, EntryTerm, Fold, HeldByEnough;
    if n <= last {
      if EntryTerm(s, n) == s.term && CheckCommitMajority(s, n) {
        var mid := RaiseApplies(s, full, n);
        var s1 := ApplyLogs(s.(commitIndex := n));
        SuffixNoChange(full, s.lastIncludedIndex);
        BooksStay(s.(commitIndex := n));
        EntriesAgree(s, full, n);
        CheckIsHeld(s, n);
        LoopCommitsHeld(s1, full, n + 1, last);
        SameHolders(s, s1, AdvanceLeader(s1, n + 1, last).commitIndex);
      } else {
        LoopCommitsHeld(s, full, n + 1, last);
      }
    }
  }

  lemma SuffixNoChange(full: seq<Entry>, k: nat)
    requires NoChange(full) && k <= |full|
    ensures NoChange(full[k..])
  {
  }

  /** In a log without configurations the new commit index is exactly the highest index, not below the
      old one, of the leader's term that enough members hold. */
  lemma CommitsExactly(s: Server, full: seq<Entry>, peer: NodeId, ack: AppendResponse)
    requires Compacted(s, full) && NoChange(full) && s.lastApplied == s.commitIndex
    requires s.role == Leader && ack.term == s.term && ack.success
    ensures var c := ProcessAppendEntriesResponse(s, peer, ack).commitIndex;
      var s1 := Credited(s, peer, ack);
      && s.commitIndex <= c <= |full|
      && (c != s.commitIndex ==> TermAt(full, c) == s.term && HeldByEnough(s1, c))
      && forall n: nat :: c < n <= |full| && TermAt(full, n) == s.term ==> !HeldByEnough(s1, n)
  {
    hide Fold, AdvanceLeader, HeldByEnough, ProcessAppendEntriesResponse, Compacted, NoChange, Overdue, Credited;
    CreditedIsLoop(s, full, peer, ack);
    var s1 := Credited(s, peer, ack);
    LoopCommitsHeld(s1, full, s1.commitIndex + 1, |full|);
    var s' := ProcessAppendEntriesResponse(s, peer, ack);
    var full' := NothingLeftToCommit(s, full, peer, ack);
    forall n: nat | s'.commitIndex < n <= |full| && TermAt(full, n) == s.term ensures !HeldByEnough(s1, n) {
      SameHolders(s1, s', n);
      assert !Overdue(s', full', n);
      if HeldByEnough(s', n) {
        StillOverdue(s', full, full', n);
      }
    }
  }

  lemma CreditedIsLoop(s: Server, full: seq<Entry>, peer: NodeId, ack: AppendResponse)
    requires Compacted(s, full) && s.role == Leader && ack.term == s.term && ack.success
    ensures var s1 := Credited(s, peer, ack);
      && Compacted(s1, full) && s1.term == s.term && s1.commitIndex == s.commitIndex && s1.lastApplied == s.lastApplied
      && ProcessAppendEntriesResponse(s, peer, ack) == AdvanceLeader(s1, s1.commitIndex + 1, |full|)
  {
    hide Fold, AdvanceLeader;
    IndicesAgree(s, full);
  }

  lemma StillOverdue(s: Server, full: seq<Entry>, full': seq<Entry>, n: nat)
    requires full <= full' && s.commitIndex < n <= |full| && TermAt(full, n) == s.term && HeldByEnough(s, n)
    ensures Overdue(s, full', n)
  {
    hide HeldByEnough;
    assert full'[n - 1] == full[n - 1];
  }

  /** A cluster of one commits and applies a command, and all before it, in the call that takes it. */
  lemma AloneCommits(s: Server, full: seq<Entry>, id: nat, cmd: Command)
    requires Compacted(s, full) && NoChange(full) && s.lastApplied == s.commitIndex
    requires s.role == Leader && !s.config.joint && s.config.newPeers.Keys == {s.id}
    ensures var s' := HandleClientCommand(s, id, cmd);
      && Compacted(s', full + [Entry(|full| + 1, s.term, Op(cmd))])
      && s'.lastApplied == s'.commitIndex == |full| + 1
  {
    hide Fold, ApplyLogs;
    IndicesAgree(s, full);
    var e := Entry(|full| + 1, s.term, Op(cmd));
    var s1 := HandlerSim.Proposed(s, id, cmd);
    AppendKeepsCompacted(s, full, e, s1);
    CheckIsHeld(s1, e.index);
    assert Holders(s1, e.index) * {s.id} == {s.id};
    assert HeldByEnough(s1, e.index);
    var full' := RaiseApplies(s1, full + [e], e.index);
    assert full' == full + [e];
  }
}
