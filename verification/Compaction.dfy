/** A compacted node is a node with an unbounded log: same answers, same store. */
module Compaction {
  import opened Config
  import opened Log
  import opened Wal
  import opened KeyValue
  import opened Election
  import opened ServerSpec

  /** `s` holds `full` with everything up to `lastIncludedIndex` folded away. */
  ghost predicate Compacted(s: Server, full: seq<Entry>) {
    && Numbered(full, 0)
    && s.lastIncludedIndex <= s.lastApplied <= s.commitIndex <= |full|
    && s.log == full[s.lastIncludedIndex..]
    && s.lastIncludedTerm == TermAt(full, s.lastIncludedIndex)
    && s.store == Fold(full[..s.lastApplied])
  }

  /** The journal replays to the log in memory. */
  predicate Journalled(s: Server) {
    Replay(s.wal).entries == s.log
  }

  lemma IndicesAgree(s: Server, full: seq<Entry>)
    requires Compacted(s, full)
    ensures LastLogIndex(s) == |full| && LastLogTerm(s) == LastTerm(full)
    ensures Numbered(s.log, s.lastIncludedIndex)
  {
    if s.log != [] {
      assert s.log[|s.log| - 1] == full[|full| - 1];
    }
  }

  /** `getEntry` answers from the unbounded log at and above the compaction point. */
  lemma EntriesAgree(s: Server, full: seq<Entry>, k: nat)
    requires Compacted(s, full)
    ensures s.lastIncludedIndex <= k <= |full| ==> EntryTerm(s, k) == TermAt(full, k)
    ensures s.lastIncludedIndex < k <= |full| ==> GetEntry(s, k) == Some(full[k - 1])
    ensures k < s.lastIncludedIndex || k > |full| ==> GetEntry(s, k) == None
  {
    if s.lastIncludedIndex < k <= |full| {
      assert s.log[k - s.lastIncludedIndex - 1] == full[k - 1];
    }
  }

  lemma {:induction false} RetainedAgrees(s: Server, full: seq<Entry>, from: nat)
    requires Compacted(s, full) && s.lastIncludedIndex < from <= |full| + 1
    ensures Retained(s, from) == full[from - 1..]
    decreases |full| + 1 - from
  {
    IndicesAgree(s, full);
    if from <= |full| {
      EntriesAgree(s, full, from);
      RetainedAgrees(s, full, from + 1);
      assert full[from - 1..] == [full[from - 1]] + full[from..];
    }
  }

  // ----------------------------------------------------------- own appends

  lemma AppendKeepsCompacted(s: Server, full: seq<Entry>, e: Entry, s': Server)
    requires Compacted(s, full) && e.index == |full| + 1
    requires s'.log == s.log + [e]
    requires s'.lastIncludedIndex == s.lastIncludedIndex && s'.lastIncludedTerm == s.lastIncludedTerm
    requires s'.lastApplied == s.lastApplied && s'.commitIndex == s.commitIndex && s'.store == s.store
    ensures Compacted(s', full + [e])
  {
    assert (full + [e])[..s.lastApplied] == full[..s.lastApplied];
  }

  lemma AppendKeepsJournalled(s: Server, full: seq<Entry>, e: Entry, s': Server)
    requires Compacted(s, full) && Journalled(s) && e.index == |full| + 1
    requires s'.log == s.log + [e] && s'.wal == s.wal + [Append(e)]
    ensures Journalled(s')
  {
    IndicesAgree(s, full);
    ReplayOfNext(s.wal, s.log, s.lastIncludedIndex, e);
  }

  // ---------------------------------------------------------------- applying

  /** Everything compaction and the journal depend on. */
  predicate SameLog(s: Server, s': Server) {
    && s'.log == s.log && s'.lastIncludedIndex == s.lastIncludedIndex && s'.lastIncludedTerm == s.lastIncludedTerm
    && s'.lastApplied == s.lastApplied && s'.commitIndex == s.commitIndex && s'.store == s.store && s'.wal == s.wal
  }

  /** What committing a configuration never touches, and what it may do to the queue. */
  ghost predicate Unaffected(s: Server, s': Server) {
    && s'.id == s.id && s'.term == s.term && s'.disk == s.disk && s'.threshold == s.threshold
    && s'.lastIncludedIndex == s.lastIncludedIndex && s'.lastIncludedTerm == s.lastIncludedTerm
    && s'.commitIndex == s.commitIndex
    && (|| (s'.role == s.role && s'.proposals == s.proposals && s'.answers == s.answers)
        || (s'.role == Follower && s'.proposals == [] && s'.answers == s.answers + Refusals(s.proposals)))
  }

  lemma CommitConfigLeaves(s: Server, c: ClusterConfig)
    ensures Unaffected(s, CommitConfig(s, c)) && CommitConfig(s, c).lastApplied == s.lastApplied
  {
    hide Refusals, PeerIds, ContainsNode, LastLogIndex, BuildFinal;
    if c.joint {
      assert CommitConfig(s, c) == ApplyConfig(if s.role == Leader then ProposeSecondPhase(s, c) else s, c);
    } else {
      var s1 := DisconnectRemoved(ApplyConfig(s, c).(pendingConfig := false, configChangeIndex := 0));
      assert Unaffected(s, s1) && s1.proposals == s.proposals && s1.answers == s.answers;
    }
  }

  lemma ApplyNextLeaves(s: Server)
    requires s.lastApplied < s.commitIndex
    ensures Unaffected(s, ApplyNext(s))
  {
    hide CommitConfig, ApplyCommand, GetEntry, Refusals;
    var s1 := s.(lastApplied := s.lastApplied + 1);
    match GetEntry(s1, s1.lastApplied)
    case None =>
    case Some(e) =>
      if e.payload.Change? {
        CommitConfigLeaves(s1, e.payload.config);
      }
  }

  lemma {:induction false} ApplyAllKeepsTerm(s: Server)
    ensures ApplyAll(s).term == s.term
    decreases if s.lastApplied < s.commitIndex then s.commitIndex - s.lastApplied else 0
  {
    if s.lastApplied < s.commitIndex {
      ApplyNextLeaves(s);
      hide ApplyNext;
      ApplyAllKeepsTerm(ApplyNext(s));
    }
  }

  lemma ApplyKeepsTerm(s: Server)
    ensures ApplyLogs(s).term == s.term
  {
    ApplyAllKeepsTerm(s);
  }

  lemma CommitConfigCompacted(s: Server, full: seq<Entry>, c: ClusterConfig) returns (full': seq<Entry>)
    requires Compacted(s, full)
    ensures Compacted(CommitConfig(s, c), full') && full <= full'
    ensures Journalled(s) ==> Journalled(CommitConfig(s, c))
    ensures full' != full ==> s.role == Leader
  {
    full' := full;
    var s' := CommitConfig(s, c);
    if c.joint && s.role == Leader {
      IndicesAgree(s, full);
      var last := Entry(|full| + 1, s.term, Change(BuildFinal(c)));
      full' := full + [last];
      AppendKeepsCompacted(s, full, last, s');
      if Journalled(s) {
        AppendKeepsJournalled(s, full, last, s');
      }
    } else {
      assert SameLog(s, s');
    }
  }

  /** Applying one entry advances the fold by one entry; only a leader that commits a joint
      configuration also extends its log. */
  lemma ApplyNextCompacted(s: Server, full: seq<Entry>) returns (full': seq<Entry>)
    requires Compacted(s, full) && s.lastApplied < s.commitIndex
    ensures Compacted(ApplyNext(s), full') && full <= full'
    ensures Journalled(s) ==> Journalled(ApplyNext(s))
    ensures full' != full ==> s.role == Leader && full[s.lastApplied].payload.Change?
  {
    hide Fold, CommitConfig, Replay;
    var k := s.lastApplied;
    EntriesAgree(s, full, k + 1);
    FoldNext(full, k);
    var s1 := s.(lastApplied := k + 1);
    assert GetEntry(s1, k + 1) == GetEntry(s, k + 1) == Some(full[k]);
    hide GetEntry, ApplyCommand;
    full' := full;
    match full[k].payload
    case Noop =>
    case Op(cmd) =>
    case Change(c) =>
      assert Compacted(s1, full);
      full' := CommitConfigCompacted(s1, full, c);
  }

  lemma {:induction false} ApplyAllCompacted(s: Server, full: seq<Entry>) returns (full': seq<Entry>)
    requires Compacted(s, full)
    ensures var s' := ApplyAll(s);
      && Compacted(s', full') && s'.lastApplied == s'.commitIndex == s.commitIndex
      && (Journalled(s) ==> Journalled(s'))
    ensures full <= full' && (full' != full ==> s.role == Leader)
    ensures full' != full ==> exists k :: s.lastApplied <= k < s.commitIndex && full[k].payload.Change?
    decreases s.commitIndex - s.lastApplied
  {
    hide Fold, ApplyNext, Journalled;
    full' := full;
    if s.lastApplied < s.commitIndex {
      var mid := ApplyNextCompacted(s, full);
      ApplyNextLeaves(s);
      full' := ApplyAllCompacted(ApplyNext(s), mid);
    }
  }

  /** Compaction drops only what is applied. */
  lemma TakeSnapshotCompacted(s: Server, full: seq<Entry>)
    requires Compacted(s, full) && s.lastApplied == s.commitIndex
    ensures Compacted(TakeSnapshot(s), full)
    ensures TakeSnapshot(s).log == full[s.commitIndex..]
  {
    IndicesAgree(s, full);
    EntriesAgree(s, full, s.commitIndex);
    RetainedAgrees(s, full, s.commitIndex + 1);
  }

  /** Resetting the journal loses the retained suffix: it still replays to the log exactly when
      nothing was retained, that is when everything held was committed. */
  lemma SnapshotJournalledIff(s: Server, full: seq<Entry>)
    requires Compacted(s, full) && s.lastApplied == s.commitIndex
    ensures Journalled(TakeSnapshot(s)) <==> s.commitIndex == LastLogIndex(s)
  {
    IndicesAgree(s, full);
    TakeSnapshotCompacted(s, full);
    assert TakeSnapshot(s).wal == [] + [State(s.term, s.votedFor)];
    ReplayOfState([], s.term, s.votedFor);
  }

  /** A disk snapshot describes the prefix that was folded away. */
  ghost predicate DiskMatches(s: Server, full: seq<Entry>) {
    match s.disk
    case None => s.lastIncludedIndex == 0
    case Some(snap) =>
      && snap.index == s.lastIncludedIndex <= |full| && snap.term == s.lastIncludedTerm
      && snap.store == Fold(full[..snap.index])
  }

  lemma ApplyLogsCompacted(s: Server, full: seq<Entry>) returns (full': seq<Entry>)
    requires Compacted(s, full)
    ensures var s' := ApplyLogs(s);
      Compacted(s', full') && s'.lastApplied == s'.commitIndex == s.commitIndex
    ensures full <= full' && (full' != full ==> s.role == Leader)
    ensures full' != full ==> exists k :: s.lastApplied <= k < s.commitIndex && full[k].payload.Change?
  {
    full' := ApplyAllCompacted(s, full);
    var s1 := ApplyAll(s);
    hide Fold;
    TakeSnapshotCompacted(s1, full');
    assert SameLog(Compact(s1), ApplyLogs(s)) && Compacted(Compact(s1), full');
  }

  /** When `applyLogs` compacts, exactly: if it is asked to and the log it is left with, counted from the
      old compaction point, is longer than the threshold; and then everything applied is folded away. */
  lemma CompactsExactly(s: Server, full: seq<Entry>) returns (full': seq<Entry>)
    requires Compacted(s, full)
    ensures var s' := ApplyLogs(s);
      && Compacted(s', full')
      && (if s.threshold > 0 && |full'| - s.lastIncludedIndex > s.threshold
          then s'.lastIncludedIndex == s'.lastApplied && s'.log == full'[s'.lastApplied..] && s'.disk.Some? && s'.disk.value.index == s'.lastApplied
          else s'.lastIncludedIndex == s.lastIncludedIndex && s'.log == full'[s.lastIncludedIndex..] && s'.disk == s.disk)
  {
    full' := ApplyAllCompacted(s, full);
    var s1 := ApplyAll(s);
    AllUnaffected(s);
    hide Fold, ApplyAll;
    IndicesAgree(s1, full');
    TakeSnapshotCompacted(s1, full');
    assert SameLog(Compact(s1), ApplyLogs(s)) && Compacted(Compact(s1), full');
  }

  lemma {:induction false} AllUnaffected(s: Server)
    ensures var s' := ApplyAll(s);
      s'.disk == s.disk && s'.threshold == s.threshold && s'.lastIncludedIndex == s.lastIncludedIndex
    decreases if s.lastApplied < s.commitIndex then s.commitIndex - s.lastApplied else 0
  {
    if s.lastApplied < s.commitIndex {
      ApplyNextLeaves(s);
      hide ApplyNext, Refusals;
      AllUnaffected(ApplyNext(s));
    }
  }

  lemma CompactKeepsDisk(s: Server, full: seq<Entry>)
    requires Compacted(s, full) && s.lastApplied == s.commitIndex && DiskMatches(s, full)
    ensures DiskMatches(Compact(s), full)
  {
    hide Fold;
    EntriesAgree(s, full, s.commitIndex);
  }

  // ----------------------------------------------------------------- batches

  /** No entry of the batch contradicts the first `k` entries of the log. */
  ghost predicate Respects(batch: seq<Entry>, full: seq<Entry>, k: nat)
    requires k <= |full|
  {
    forall j {:trigger batch[j]} :: 0 <= j < |batch| && batch[j].index <= k ==>
      batch[j].index >= 1 && full[batch[j].index - 1].term == batch[j].term
  }

  lemma ReplaceTail(s: Server, full: seq<Entry>, e: Entry)
    requires Compacted(s, full) && s.commitIndex < e.index <= |full| && full[e.index - 1].term != e.term
    ensures MergeOne(s, e).log == (full[..e.index - 1] + [e])[s.lastIncludedIndex..]
    ensures Compacted(MergeOne(s, e), full[..e.index - 1] + [e])
  {
    var k := e.index;
    IndicesAgree(s, full);
    EntriesAgree(s, full, k);
    var full' := full[..k - 1] + [e];
    assert s.log[..k - s.lastIncludedIndex - 1] == full[s.lastIncludedIndex..k - 1];
    assert full'[..s.lastApplied] == full[..s.lastApplied];
  }

  lemma ReplaceTailJournalled(s: Server, full: seq<Entry>, e: Entry)
    requires Compacted(s, full) && s.commitIndex < e.index <= |full| && full[e.index - 1].term != e.term
    requires Journalled(s)
    ensures Journalled(MergeOne(s, e))
  {
    IndicesAgree(s, full);
    EntriesAgree(s, full, e.index);
    ReplayOfConflict(s.wal, s.log, s.lastIncludedIndex, e.index - s.lastIncludedIndex - 1, e);
  }

  lemma AppendOne(s: Server, full: seq<Entry>, e: Entry)
    requires Compacted(s, full) && e.index == |full| + 1
    ensures Compacted(MergeOne(s, e), full + [e])
    ensures Journalled(s) ==> Journalled(MergeOne(s, e))
  {
    IndicesAgree(s, full);
    AppendKeepsCompacted(s, full, e, MergeOne(s, e));
    if Journalled(s) {
      AppendKeepsJournalled(s, full, e, MergeOne(s, e));
    }
  }

  /** What taking one entry does to the unbounded log. */
  function MergedOne(full: seq<Entry>, e: Entry): seq<Entry> {
    if e.index > |full| then full + [e]
    else if e.index >= 1 && full[e.index - 1].term != e.term then full[..e.index - 1] + [e]
    else full
  }

  lemma MergeOneCompacted(s: Server, full: seq<Entry>, e: Entry)
    requires Compacted(s, full) && 1 <= e.index <= |full| + 1
    requires e.index <= s.commitIndex ==> full[e.index - 1].term == e.term
    ensures Compacted(MergeOne(s, e), MergedOne(full, e))
    ensures Journalled(s) ==> Journalled(MergeOne(s, e))
  {
    hide MergeOne, Journalled, Fold;
    if e.index == |full| + 1 {
      AppendOne(s, full, e);
    } else if full[e.index - 1].term != e.term {
      ReplaceTail(s, full, e);
      if Journalled(s) {
        ReplaceTailJournalled(s, full, e);
      }
    } else {
      SameEntryStays(s, full, e);
    }
  }

  lemma SameEntryStays(s: Server, full: seq<Entry>, e: Entry)
    requires Compacted(s, full) && 1 <= e.index <= |full| && full[e.index - 1].term == e.term
    ensures MergeOne(s, e) == s
  {
    hide Fold;
    IndicesAgree(s, full);
    EntriesAgree(s, full, e.index);
  }

  lemma MergedOneRespects(full: seq<Entry>, batch: seq<Entry>, prev: nat, k: nat)
    requires k <= |full| && Respects(batch, full, k) && batch != [] && Numbered(batch, prev) && prev <= |full|
    ensures var full' := MergedOne(full, batch[0]);
      k <= |full'| && Respects(batch[1..], full', k) && Numbered(batch[1..], prev + 1) && prev + 1 <= |full'|
  {
    var e, rest := batch[0], batch[1..];
    var full' := MergedOne(full, e);
    assert e.index == prev + 1;
    forall j {:trigger rest[j]} | 0 <= j < |rest|
      ensures rest[j].index == prev + 1 + j + 1
      ensures rest[j].index <= k ==> full'[rest[j].index - 1].term == rest[j].term
    {
      assert rest[j] == batch[j + 1];
    }
  }

  lemma MergeOneChanges(s: Server, e: Entry)
    ensures MergeOne(s, e) == s.(log := MergeOne(s, e).log, wal := MergeOne(s, e).wal)
  {
  }

  /** Merging a consecutive batch that respects what is committed acts on the unbounded log. */
  lemma {:induction false} MergeEntriesCompacted(s: Server, full: seq<Entry>, batch: seq<Entry>, prev: nat)
    requires Compacted(s, full) && Respects(batch, full, s.commitIndex)
    requires prev <= |full| && Numbered(batch, prev)
    ensures Compacted(MergeEntries(s, batch), Merge(full, batch))
    ensures Journalled(s) ==> Journalled(MergeEntries(s, batch))
    ensures MergeEntries(s, batch) == s.(log := MergeEntries(s, batch).log, wal := MergeEntries(s, batch).wal)
    decreases |batch|
  {
    if batch != [] {
      var e := batch[0];
      assert e.index == prev + 1;
      MergeOneCompacted(s, full, e);
      MergeOneChanges(s, e);
      MergedOneRespects(full, batch, prev, s.commitIndex);
      MergeEntriesCompacted(MergeOne(s, e), MergedOne(full, e), batch[1..], prev + 1);
    }
  }

  /** No entry of the batch contradicts a committed entry that the node still holds. */
  ghost predicate NotAgainst(s: Server, batch: seq<Entry>) {
    forall j {:trigger batch[j]} :: 0 <= j < |batch| && s.lastIncludedIndex < batch[j].index <= s.commitIndex ==>
      EntryTerm(s, batch[j].index) == batch[j].term
  }

  lemma MergeOneNotAgainst(s: Server, full: seq<Entry>, batch: seq<Entry>, e: Entry, full': seq<Entry>)
    requires NotAgainst(s, batch) && Compacted(s, full) && Compacted(MergeOne(s, e), full')
    requires Agree(full, full', s.commitIndex)
    ensures NotAgainst(MergeOne(s, e), batch)
  {
    hide Fold, MergeOne;
    MergeOneChanges(s, e);
    var s' := MergeOne(s, e);
    forall j {:trigger batch[j]} | 0 <= j < |batch| && s'.lastIncludedIndex < batch[j].index <= s'.commitIndex
      ensures EntryTerm(s', batch[j].index) == batch[j].term
    {
      var k := batch[j].index;
      EntriesAgree(s, full, k);
      EntriesAgree(s', full', k);
      AgreeAt(full, full', s.commitIndex, k - 1);
    }
  }

  lemma MergeOneHeld(s: Server, full: seq<Entry>, e: Entry) returns (full': seq<Entry>)
    requires Compacted(s, full) && 1 <= e.index <= |full| + 1
    requires s.lastIncludedIndex < e.index <= s.commitIndex ==> EntryTerm(s, e.index) == e.term
    ensures Compacted(MergeOne(s, e), full') && Agree(full, full', s.commitIndex) && e.index <= |full'|
    ensures Journalled(s) ==> Journalled(MergeOne(s, e))
  {
    hide Fold;
    if e.index <= s.lastIncludedIndex {
      full' := full;
    } else {
      EntriesAgree(s, full, e.index);
      full' := MergedOne(full, e);
      MergeOneCompacted(s, full, e);
    }
  }

  /** A consecutive batch that contradicts nothing committed is taken without loss: what was committed
      stays, in the unbounded log and in the journal. */
  lemma {:induction false} MergeHeld(s: Server, full: seq<Entry>, batch: seq<Entry>, prev: nat) returns (full': seq<Entry>)
    requires Compacted(s, full) && NotAgainst(s, batch) && Numbered(batch, prev) && prev <= |full|
    ensures Compacted(MergeEntries(s, batch), full') && Agree(full, full', s.commitIndex)
    ensures Journalled(s) ==> Journalled(MergeEntries(s, batch))
    ensures MergeEntries(s, batch) == s.(log := MergeEntries(s, batch).log, wal := MergeEntries(s, batch).wal)
    decreases |batch|
  {
    hide Compacted, MergeOne;
    full' := full;
    CommitWithin(s, full);
    if batch != [] {
      var e, rest := batch[0], batch[1..];
      assert e.index == prev + 1;
      assert forall j {:trigger rest[j]} :: 0 <= j < |rest| ==> rest[j] == batch[j + 1];
      assert Numbered(rest, prev + 1) && NotAgainst(s, rest);
      var mid := MergeOneHeld(s, full, e);
      MergeOneChanges(s, e);
      MergeOneNotAgainst(s, full, rest, e, mid);
      full' := MergeHeld(MergeOne(s, e), mid, rest, prev + 1);
      AgreeTrans(full, mid, full', s.commitIndex);
    }
  }

  lemma CommitWithin(s: Server, full: seq<Entry>)
    requires Compacted(s, full)
    ensures s.lastIncludedIndex <= s.lastApplied <= s.commitIndex <= |full|
  {
  }

  // --------------------------------------------------------------- snapshots

  /** The unbounded log after installing a snapshot of the first `n` entries of `theirs`. */
  function Spliced(full: seq<Entry>, theirs: seq<Entry>, n: nat): seq<Entry>
    requires n <= |theirs|
  {
    theirs[..n] + (if n <= |full| then full[n..] else [])
  }

  lemma SplicedShape(full: seq<Entry>, theirs: seq<Entry>, n: nat)
    requires Numbered(full, 0) && Numbered(theirs, 0) && n <= |theirs|
    ensures var full' := Spliced(full, theirs, n);
      && Numbered(full', 0) && full'[..n] == theirs[..n] && TermAt(full', n) == TermAt(theirs, n)
      && full'[n..] == (if n <= |full| then full[n..] else [])
    ensures forall k :: n <= k <= |full| && theirs[..n] == full[..n] ==> Spliced(full, theirs, n)[..k] == full[..k]
  {
  }

  lemma RestoredLog(s: Server, full: seq<Entry>, snap: Snapshot, theirs: seq<Entry>)
    requires Compacted(s, full) && Numbered(theirs, 0) && s.lastIncludedIndex <= snap.index <= |theirs|
    ensures RestoreSnapshot(s, snap).log == Spliced(full, theirs, snap.index)[snap.index..]
  {
    hide Fold, Retained, Spliced, Numbered;
    IndicesAgree(s, full);
    SplicedShape(full, theirs, snap.index);
    if snap.index <= |full| {
      RetainedAgrees(s, full, snap.index + 1);
    } else {
      NothingRetained(s, snap.index + 1);
    }
  }

  lemma NothingRetained(s: Server, from: nat)
    requires from > LastLogIndex(s)
    ensures Retained(s, from) == []
  {
  }

  /** A snapshot from before the compaction point retains the mark of that point and what follows it. */
  lemma OldSnapshotRetains(s: Server, full: seq<Entry>, n: nat)
    requires Compacted(s, full) && n < s.lastIncludedIndex
    ensures Retained(s, n + 1) == [Entry(s.lastIncludedIndex, s.lastIncludedTerm, Noop)] + s.log
    decreases s.lastIncludedIndex - n
  {
    IndicesAgree(s, full);
    if n + 1 < s.lastIncludedIndex {
      OldSnapshotRetains(s, full, n + 1);
    } else {
      RetainedAgrees(s, full, s.lastIncludedIndex + 1);
      assert GetEntry(s, s.lastIncludedIndex) == Some(Entry(s.lastIncludedIndex, s.lastIncludedTerm, Noop));
    }
  }

  /** The retained log has no hole: the snapshot is not older than the compaction point, or it stops
      just before it and the folded entry there was itself a no-op, like the mark. */
  predicate NoHole(s: Server, full: seq<Entry>, n: nat)
    requires Compacted(s, full)
  {
    s.lastIncludedIndex <= n || (s.lastIncludedIndex == n + 1 && full[n].payload == Noop)
  }

  lemma RetainedNoHole(s: Server, full: seq<Entry>, snap: Snapshot, theirs: seq<Entry>)
    requires Compacted(s, full) && Numbered(theirs, 0) && snap.index <= |theirs|
    requires snap.index < s.lastIncludedIndex ==> theirs[..snap.index] == full[..snap.index]
    ensures RestoreSnapshot(s, snap).log == Spliced(full, theirs, snap.index)[snap.index..] <==> NoHole(s, full, snap.index)
  {
    hide Fold, Spliced, Retained;
    var n := snap.index;
    SplicedShape(full, theirs, n);
    if s.lastIncludedIndex <= n {
      RestoredLog(s, full, snap, theirs);
    } else {
      OldSnapshotRetains(s, full, n);
      assert RestoreSnapshot(s, snap).log == Retained(s, n + 1);
      hide RestoreSnapshot;
      MarkFits(s, full, n);
    }
  }

  /** The mark of the compaction point stands for the entries after `n` only if it is one of them. */
  lemma MarkFits(s: Server, full: seq<Entry>, n: nat)
    requires Compacted(s, full) && n < s.lastIncludedIndex
    ensures [Entry(s.lastIncludedIndex, s.lastIncludedTerm, Noop)] + s.log == full[n..] <==> NoHole(s, full, n)
  {
    hide Fold;
    var mark := Entry(s.lastIncludedIndex, s.lastIncludedTerm, Noop);
    if s.lastIncludedIndex == n + 1 {
      assert full[n..] == [full[n]] + full[n + 1..];
      assert full[n] == Entry(n + 1, s.lastIncludedTerm, full[n].payload);
    } else {
      assert |[mark] + s.log| < |full[n..]|;
    }
  }

  /** Installing resets the journal too, and loses whatever is retained: it replays to the log exactly
      when the snapshot covers everything held. */
  lemma RestoreJournalledIff(s: Server, full: seq<Entry>, snap: Snapshot)
    requires Compacted(s, full)
    ensures Journalled(RestoreSnapshot(s, snap)) <==> LastLogIndex(s) <= snap.index
  {
    hide Fold;
    IndicesAgree(s, full);
    ReplayOfStateAlone(s.term, s.votedFor);
    if snap.index < s.lastIncludedIndex {
      OldSnapshotRetains(s, full, snap.index);
    } else if snap.index < LastLogIndex(s) {
      RetainedAgrees(s, full, snap.index + 1);
    } else {
      NothingRetained(s, snap.index + 1);
    }
  }

  /** When the log after installing a snapshot is the spliced one, with a store to match, exactly, for
      every index.  Nothing rejects an older snapshot, and `lastApplied` never goes back: if it is older than what
      is applied, the entries in between must have changed nothing and the log must have no hole. */
  lemma RestoreSnapshotCompactedIff(s: Server, full: seq<Entry>, snap: Snapshot, theirs: seq<Entry>)
    requires Compacted(s, full) && Numbered(theirs, 0) && snap.index <= |theirs|
    requires snap.term == TermAt(theirs, snap.index) && snap.store == Fold(theirs[..snap.index])
    requires snap.index < s.lastApplied ==> theirs[..snap.index] == full[..snap.index]
    ensures Compacted(RestoreSnapshot(s, snap), Spliced(full, theirs, snap.index)) <==>
      || s.lastApplied <= snap.index
      || (NoHole(s, full, snap.index) && Fold(full[..snap.index]) == Fold(full[..s.lastApplied]))
  {
    var n := snap.index;
    SplicedShape(full, theirs, n);
    RetainedNoHole(s, full, snap, theirs);
    if n < s.lastApplied {
      assert Spliced(full, theirs, n)[..s.lastApplied] == full[..s.lastApplied];
    }
  }

  /** An older snapshot can break the log although nothing changed since: here the no-ops of three
      leaders, compacted, and a snapshot of the first. */
  lemma OldSnapshotLeavesHole() returns (s: Server, full: seq<Entry>, snap: Snapshot)
    ensures Compacted(s, full) && snap.index < s.lastIncludedIndex && snap.index <= |full|
    ensures snap.term == TermAt(full, snap.index) && snap.store == Fold(full[..snap.index]) == Fold(full[..s.lastApplied])
    ensures !Compacted(RestoreSnapshot(s, snap), Spliced(full, full, snap.index))
  {
    full := [Entry(1, 1, Noop), Entry(2, 2, Noop), Entry(3, 3, Noop)];
    s := Fresh(0, FromPeers(map[], map[], 0), 0).(
      term := 3, lastIncludedIndex := 3, lastIncludedTerm := 3, commitIndex := 3, lastApplied := 3);
    snap := Snapshot(1, 1, EmptyStore(), None);
    NoopsFoldToNothing(full[..1]);
    NoopsFoldToNothing(full);
    assert full[..3] == full;
    RestoreSnapshotCompactedIff(s, full, snap, full);
  }

  lemma {:induction false} NoopsFoldToNothing(log: seq<Entry>)
    requires forall k {:trigger log[k]} :: 0 <= k < |log| ==> log[k].payload == Noop
    ensures Fold(log) == EmptyStore()
  {
    if log != [] {
      NoopsFoldToNothing(log[..|log| - 1]);
    }
  }
}
