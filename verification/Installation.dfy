/** Installing a snapshot over a log that goes on: what `restoreSnapshot` would have to check, and what
    happens because it does not. */
module Installation {
  import opened Config
  import opened Log
  import opened Wal
  import opened KeyValue
  import opened Election
  import opened Replication
  import opened ServerSpec
  import opened Compaction
  import opened Journal
  import SnapshotTransfer
  import opened ThreeServers

  /** Log matching between two logs. */
  ghost predicate Matching(a: seq<Entry>, b: seq<Entry>) {
    forall k: nat {:trigger Agree(a, b, k)} :: k <= |a| && k <= |b| && TermAt(a, k) == TermAt(b, k) ==> Agree(a, b, k)
  }

  predicate Sorted(log: seq<Entry>) {
    forall j: nat, k: nat {:trigger TermAt(log, j), TermAt(log, k)} :: 1 <= j <= k <= |log| ==> TermAt(log, j) <= TermAt(log, k)
  }

  /** The node retains nothing after the snapshot, or holds the entry that the snapshot ends with: a
      test that the original does not make. */
  predicate Continues(s: Server, snap: Snapshot) {
    LastLogIndex(s) <= snap.index || EntryTerm(s, snap.index) == snap.term
  }

  /** The node's unbounded log is one that leaders wrote: each entry came from the leader of its term,
      together with everything before it. */
  ghost predicate Belongs(reigns: map<nat, seq<Entry>>, s: Server, full: seq<Entry>) {
    Compacted(s, full) && Lineage(reigns, full)
  }

  lemma LineagesHaveMatching(reigns: map<nat, seq<Entry>>, a: seq<Entry>, b: seq<Entry>)
    requires Lineage(reigns, a) && Lineage(reigns, b)
    ensures Matching(a, b)
  {
    forall k: nat | k <= |a| && k <= |b| && TermAt(a, k) == TermAt(b, k) ensures Agree(a, b, k) {
      LineagesMatch(reigns, a, b, k);
    }
  }

  /** The test compares one term, and decides whether the node already holds the whole of what the
      snapshot covers. */
  lemma TermDecidesPrefix(s: Server, full: seq<Entry>, snap: Snapshot, theirs: seq<Entry>)
    requires Compacted(s, full) && Describes(snap, theirs) && Matching(full, theirs)
    requires s.lastApplied <= snap.index < LastLogIndex(s)
    ensures theirs[..snap.index] == full[..snap.index] <==> EntryTerm(s, snap.index) == snap.term
  {
    hide Fold;
    var n := snap.index;
    IndicesAgree(s, full);
    EntriesAgree(s, full, n);
    if TermAt(full, n) == TermAt(theirs, n) {
      assert Agree(full, theirs, n);
    } else {
      assert full[..n][n - 1] != theirs[..n][n - 1];
    }
  }

  lemma PrefixLineage(reigns: map<nat, seq<Entry>>, log: seq<Entry>, n: nat)
    requires Lineage(reigns, log) && n <= |log|
    ensures Lineage(reigns, log[..n])
  {
    var cut := log[..n];
    forall k {:trigger cut[k]} | 0 <= k < |cut| ensures cut[k].term in reigns && Agree(cut, reigns[cut[k].term], k + 1) {
      assert cut[k] == log[k];
      assert cut[..k + 1] == log[..k + 1];
    }
  }

  /** One shared entry pins down everything before it. */
  lemma SharedEntry(reigns: map<nat, seq<Entry>>, a: seq<Entry>, b: seq<Entry>, k: nat)
    requires Lineage(reigns, a) && Lineage(reigns, b) && k < |a| && k < |b| && a[k].term == b[k].term
    ensures a[..k + 1] == b[..k + 1]
  {
    LineagesMatch(reigns, a, b, k + 1);
  }

  /** Installing over a log that already holds the snapshot's prefix leaves that log. */
  lemma InstallOverOwn(s: Server, full: seq<Entry>, snap: Snapshot, theirs: seq<Entry>)
    requires Compacted(s, full) && Describes(snap, theirs) && s.lastApplied <= snap.index
    requires snap.index <= |full| && theirs[..snap.index] == full[..snap.index]
    ensures Compacted(RestoreSnapshot(s, snap), full)
  {
    RestoreSnapshotCompactedIff(s, full, snap, theirs);
    assert Spliced(full, theirs, snap.index) == full;
  }

  /** Installing beyond the end replaces the log. */
  lemma InstallBeyondEnd(s: Server, full: seq<Entry>, snap: Snapshot, theirs: seq<Entry>)
    requires Compacted(s, full) && Describes(snap, theirs) && LastLogIndex(s) <= snap.index
    ensures Compacted(RestoreSnapshot(s, snap), theirs[..snap.index])
  {
    IndicesAgree(s, full);
    RestoreSnapshotCompactedIff(s, full, snap, theirs);
    assert Spliced(full, theirs, snap.index) == theirs[..snap.index];
  }

  lemma InstallKeepsOldLog(s: Server, full: seq<Entry>, snap: Snapshot, theirs: seq<Entry>)
    requires Compacted(s, full) && Describes(snap, theirs) && snap.index < s.lastApplied
    requires theirs[..snap.index] == full[..snap.index]
    ensures Compacted(RestoreSnapshot(s, snap), full) <==>
      NoHole(s, full, snap.index) && Fold(full[..snap.index]) == Fold(full[..s.lastApplied])
  {
    RestoreSnapshotCompactedIff(s, full, snap, theirs);
    assert Spliced(full, theirs, snap.index) == full;
  }

  /** A caller's whole test: a snapshot that is not older than what is applied must continue the log; an
      older one must leave no hole, and nothing may have changed since. */
  ghost predicate Installable(s: Server, full: seq<Entry>, snap: Snapshot)
    requires Compacted(s, full) && (snap.index < s.lastApplied ==> snap.index <= |full|)
  {
    if s.lastApplied <= snap.index then Continues(s, snap)
    else NoHole(s, full, snap.index) && Fold(full[..snap.index]) == Fold(full[..s.lastApplied])
  }

  /** The log an installable snapshot leaves: the old one if it goes on, the snapshot's otherwise. */
  lemma InstallableIsSound(reigns: map<nat, seq<Entry>>, s: Server, full: seq<Entry>, snap: Snapshot, theirs: seq<Entry>)
    returns (full': seq<Entry>)
    requires Belongs(reigns, s, full) && Describes(snap, theirs) && Lineage(reigns, theirs)
    requires snap.index < s.lastApplied ==> theirs[..snap.index] == full[..snap.index]
    requires Installable(s, full, snap)
    ensures Belongs(reigns, RestoreSnapshot(s, snap), full')
    ensures full' == if LastLogIndex(s) <= snap.index then theirs[..snap.index] else full
  {
    hide Fold, RestoreSnapshot;
    IndicesAgree(s, full);
    if LastLogIndex(s) <= snap.index {
      full' := theirs[..snap.index];
      InstallBeyondEnd(s, full, snap, theirs);
      PrefixLineage(reigns, theirs, snap.index);
    } else {
      full' := full;
      if snap.index < s.lastApplied {
        InstallKeepsOldLog(s, full, snap, theirs);
      } else {
        LineagesHaveMatching(reigns, full, theirs);
        TermDecidesPrefix(s, full, snap, theirs);
        InstallOverOwn(s, full, snap, theirs);
      }
    }
  }

  /** The first entry retained after a snapshot that does not reach the end of the log. */
  lemma FirstRetained(s: Server, full: seq<Entry>, n: nat)
    requires Compacted(s, full) && n < LastLogIndex(s)
    ensures Retained(s, n + 1) != [] && n < |full|
    ensures s.lastIncludedIndex <= n ==> Retained(s, n + 1)[0] == full[n]
    ensures s.lastIncludedIndex > n ==> Retained(s, n + 1)[0] == Entry(s.lastIncludedIndex, TermAt(full, s.lastIncludedIndex), Noop)
  {
    hide Fold;
    IndicesAgree(s, full);
    if s.lastIncludedIndex <= n {
      RetainedAgrees(s, full, n + 1);
    } else {
      OldSnapshotRetains(s, full, n);
    }
  }

  /** Whatever log the node is left with, if leaders wrote it, it is the old one. */
  lemma OnlyOldLog(reigns: map<nat, seq<Entry>>, s: Server, full: seq<Entry>, snap: Snapshot, full': seq<Entry>)
    requires Belongs(reigns, s, full) && Belongs(reigns, RestoreSnapshot(s, snap), full') && snap.index < LastLogIndex(s)
    ensures snap.index < |full| && full'[..snap.index] == full[..snap.index]
    ensures s.lastIncludedIndex <= snap.index || s.lastIncludedIndex == snap.index + 1
    ensures s.lastIncludedIndex == snap.index + 1 ==> full[snap.index].payload == Noop
    ensures full' == full
  {
    hide Fold, Lineage, GetEntry, Retained;
    var n, s' := snap.index, RestoreSnapshot(s, snap);
    FirstRetained(s, full, n);
    assert s'.log == Retained(s, n + 1) == full'[n..];
    assert full'[n] == s'.log[0] && full'[n].index == n + 1;
    SharedEntry(reigns, full, full', n);
    assert full[..n + 1][..n] == full[..n] && full'[..n + 1][..n] == full'[..n];
    assert full'[n] == full'[..n + 1][n] == full[..n + 1][n];
    if s.lastIncludedIndex <= n {
      RetainedAgrees(s, full, n + 1);
    } else {
      OldSnapshotRetains(s, full, n);
      assert full[n..] == [full[n]] + full[n + 1..];
    }
    assert full' == full'[..n] + full'[n..] && full == full[..n] + full[n..];
  }

  /** Exactly which snapshots may be installed: for one of any index, some log that leaders wrote
      describes the node afterwards if and only if the caller's test holds. */
  lemma InstallIsSoundIff(reigns: map<nat, seq<Entry>>, s: Server, full: seq<Entry>, snap: Snapshot, theirs: seq<Entry>)
    requires Belongs(reigns, s, full) && Describes(snap, theirs) && Lineage(reigns, theirs)
    requires snap.index < s.lastApplied ==> theirs[..snap.index] == full[..snap.index]
    ensures (exists full' :: Belongs(reigns, RestoreSnapshot(s, snap), full')) <==> Installable(s, full, snap)
  {
    hide Fold, RestoreSnapshot, NoHole;
    if Installable(s, full, snap) {
      var _ := InstallableIsSound(reigns, s, full, snap, theirs);
    } else {
      forall full' | Belongs(reigns, RestoreSnapshot(s, snap), full') ensures false {
        SoundIsInstallable(reigns, s, full, snap, theirs, full');
      }
    }
  }

  lemma SoundIsInstallable(reigns: map<nat, seq<Entry>>, s: Server, full: seq<Entry>, snap: Snapshot, theirs: seq<Entry>,
                           full': seq<Entry>)
    requires Belongs(reigns, s, full) && Describes(snap, theirs) && Lineage(reigns, theirs)
    requires snap.index < s.lastApplied ==> theirs[..snap.index] == full[..snap.index]
    requires Belongs(reigns, RestoreSnapshot(s, snap), full')
    ensures Installable(s, full, snap)
  {
    hide Fold;
    IndicesAgree(s, full);
    if snap.index < LastLogIndex(s) {
      OnlyOldLog(reigns, s, full, snap, full');
      EntriesAgree(s, full, snap.index);
    }
  }

  /** So an installable snapshot leaves terms in order, and log matching with every other log. */
  lemma InstallKeepsOrder(w: World, s: Server, full: seq<Entry>, snap: Snapshot, theirs: seq<Entry>, other: seq<Entry>)
    returns (full': seq<Entry>)
    requires ReignsSound(w) && Belongs(w.reigns, s, full) && Describes(snap, theirs) && Lineage(w.reigns, theirs)
    requires snap.index < s.lastApplied ==> theirs[..snap.index] == full[..snap.index]
    requires Installable(s, full, snap) && Lineage(w.reigns, other)
    ensures Compacted(RestoreSnapshot(s, snap), full') && Sorted(full') && Matching(full', other)
  {
    hide Fold, RestoreSnapshot, Installable, ReignsSound;
    full' := InstallableIsSound(w.reigns, s, full, snap, theirs);
    LineagesHaveMatching(w.reigns, full', other);
    forall j: nat, k: nat | 1 <= j <= k <= |full'| ensures TermAt(full', j) <= TermAt(full', k) {
      LineagesAreSorted(w, full', j, k);
    }
  }

  // ------------------------------------------------------------ the exchange

  lemma AdoptedIsSame(reigns: map<nat, seq<Entry>>, s: Server, full: seq<Entry>, term: nat, leader: NodeId)
    requires Belongs(reigns, s, full)
    ensures var s1 := AdoptLeader(s, term, leader);
      && Belongs(reigns, s1, full) && s1.lastApplied == s.lastApplied && s1.log == s.log
      && s1.lastIncludedIndex == s.lastIncludedIndex && s1.lastIncludedTerm == s.lastIncludedTerm
      && (s.term <= term ==> s1.term == term)
  {
    hide Lineage, Fold;
  }

  lemma SameInstallable(s: Server, r: Server, full: seq<Entry>, snap: Snapshot)
    requires Compacted(s, full) && Compacted(r, full) && (snap.index < s.lastApplied ==> snap.index <= |full|)
    requires r.lastApplied == s.lastApplied && r.log == s.log
    requires r.lastIncludedIndex == s.lastIncludedIndex && r.lastIncludedTerm == s.lastIncludedTerm
    ensures Installable(s, full, snap) <==> Installable(r, full, snap)
  {
    hide Fold;
  }

  lemma RestKept(s: Server, snap: Snapshot, full: seq<Entry>)
    ensures RestoreSnapshot(s, snap).term == s.term
    ensures var s1 := RestoreSnapshot(s, snap);
      Compacted(s1, full) ==> Compacted(s1.(snapshotBuf := []), full) && LastLogIndex(s1.(snapshotBuf := [])) == LastLogIndex(s1)
  {
    hide Fold;
  }

  lemma PrefixIsShared(reigns: map<nat, seq<Entry>>, f: Server, theirs: seq<Entry>, snap: Snapshot, full: seq<Entry>)
    requires Belongs(reigns, f, theirs) && Describes(snap, full) && Lineage(reigns, full) && Installable(f, theirs, snap)
    requires f.lastApplied <= snap.index < LastLogIndex(f)
    ensures full[..snap.index] == theirs[..snap.index]
  {
    hide Fold;
    LineagesHaveMatching(reigns, theirs, full);
    TermDecidesPrefix(f, theirs, snap, full);
  }

  lemma Shared(reigns: map<nat, seq<Entry>>, f: Server, theirs: seq<Entry>, snap: Snapshot, full: seq<Entry>, theirs': seq<Entry>)
    requires Belongs(reigns, f, theirs) && Describes(snap, full) && Lineage(reigns, full) && Installable(f, theirs, snap)
    requires snap.index < f.lastApplied ==> full[..snap.index] == theirs[..snap.index]
    requires theirs' == if LastLogIndex(f) <= snap.index then full[..snap.index] else theirs
    ensures Agree(full, theirs', snap.index)
  {
    hide Fold;
    IndicesAgree(f, theirs);
    if f.lastApplied <= snap.index < LastLogIndex(f) {
      PrefixIsShared(reigns, f, theirs, snap, full);
    }
  }

  /** The whole exchange.  A leader sends the snapshot it compacted to, chunk by chunk; the follower, if
      the snapshot may be installed, adopts the leader and installs it; and what the leader believes
      after the answer is true: the follower holds every entry up to `matchIndex`, the same as its own. */
  lemma SnapshotExchange(reigns: map<nat, seq<Entry>>, s: Server, full: seq<Entry>, f: Server, theirs: seq<Entry>,
                         data: seq<byte>, decode: seq<byte> -> Option<Snapshot>)
    returns (theirs': seq<Entry>)
    requires s.role == Leader && Belongs(reigns, s, full) && DiskMatches(s, full) && s.disk.Some? && decode(data) == s.disk
    requires Belongs(reigns, f, theirs) && f.term <= s.term
    requires s.disk.value.index < f.lastApplied ==> full[..s.disk.value.index] == theirs[..s.disk.value.index]
    requires Installable(f, theirs, s.disk.value)
    ensures var f' := SnapshotTransfer.Deliver(f, s.term, s.id, data, SnapshotTransfer.UpTo(|SnapshotTransfer.Chunks(data)|), decode);
      var s' := ProcessInstallSnapshotResponse(s, f.id, f'.term);
      && Belongs(reigns, f', theirs') && f'.term == s.term
      && s'.role == Leader && s'.term == s.term && s'.log == s.log && s'.commitIndex == s.commitIndex
      && f.id in s'.matchIndex && f.id in s'.nextIndex
      && s.lastIncludedIndex == s'.matchIndex[f.id] <= LastLogIndex(f') && Agree(full, theirs', s'.matchIndex[f.id])
      && s'.nextIndex[f.id] == s'.matchIndex[f.id] + 1
      && (forall p :: p != f.id ==> (p in s'.matchIndex <==> p in s.matchIndex) && (p in s.matchIndex ==> p in s'.matchIndex && s'.matchIndex[p] == s.matchIndex[p]))
  {
    var snap := s.disk.value;
    assert Describes(snap, full) by {
      hide Lineage, Fold;
    }
    hide Fold, AdoptLeader, RestoreSnapshot, Installable, Lineage, SnapshotTransfer.Deliver, SnapshotTransfer.Chunks;
    SnapshotTransfer.InOrderInstalls(f, s.term, s.id, data, snap, decode);
    var f1 := AdoptLeader(f, s.term, s.id);
    AdoptedIsSame(reigns, f, theirs, s.term, s.id);
    SameInstallable(f, f1, theirs, snap);
    theirs' := InstallableIsSound(reigns, f1, theirs, snap, full);
    RestKept(f1, snap, theirs');
    Shared(reigns, f1, theirs, snap, full, theirs');
    IndicesAgree(RestoreSnapshot(f1, snap), theirs');
  }

  /** The answer does not say which snapshot it is for, and the leader credits the peer with whatever it
      has compacted by then.  For a follower that the snapshot brought to its index, that is true
      exactly when the leader did not compact further in between. */
  lemma CreditIsTrueIff(r: Server, full: seq<Entry>, f: Server, theirs: seq<Entry>, snap: Snapshot, sent: seq<Entry>)
    requires r.role == Leader && Compacted(r, full) && snap.index <= r.lastIncludedIndex
    requires Compacted(f, theirs) && Describes(snap, sent) && LastLogIndex(f) <= snap.index
    ensures var f' := RestoreSnapshot(f, snap);
      var r' := ProcessInstallSnapshotResponse(r, f.id, r.term);
      && LastLogIndex(f') == snap.index && f.id in r'.matchIndex
      && (r'.matchIndex[f.id] <= LastLogIndex(f') <==> r.lastIncludedIndex == snap.index)
  {
    hide Fold;
    InstallBeyondEnd(f, theirs, snap, sent);
    IndicesAgree(RestoreSnapshot(f, snap), sent[..snap.index]);
  }

  // ------------------------------------------------------------- what it carries

  /** A snapshot carries the whole replicated state: what a node applied, its deduplication table and the
      configuration it used, to whoever installs it and to its own restart. */
  lemma SnapshotCarriesState(s: Server, full: seq<Entry>, f: Server, other: ClusterConfig)
    requires Compacted(s, full) && s.lastApplied == s.commitIndex
    ensures TakeSnapshot(s).disk.Some? && Describes(TakeSnapshot(s).disk.value, full) && DiskMatches(TakeSnapshot(s), full)
    ensures TakeSnapshot(s).disk.value.index == s.commitIndex
    ensures var f' := RestoreSnapshot(f, TakeSnapshot(s).disk.value);
      && f'.store == s.store && f'.config == s.config && f'.disk == TakeSnapshot(s).disk
      && f'.lastApplied == (if f.lastApplied <= s.lastApplied then s.lastApplied else f.lastApplied)
      && f'.commitIndex == (if f.commitIndex <= s.commitIndex then s.commitIndex else f.commitIndex)
      && f'.term == f.term && f'.votedFor == f.votedFor && f'.role == f.role
      && Replay(f'.wal).term == f.term && Replay(f'.wal).vote == f.votedFor
    ensures var t := TakeSnapshot(s);
      var r := LoadState(t.id, other, t.threshold, t.disk, t.wal);
      && r.store == s.store && r.config == s.config && r.role == Follower && r.id == s.id
      && r.lastApplied == r.commitIndex == s.commitIndex && r.term == s.term && (s.term > 0 ==> r.votedFor == s.votedFor)
  {
    hide Fold;
    TakeSnapshotCompacted(s, full);
    EntriesAgree(s, full, s.commitIndex);
    assert RestoreSnapshot(f, TakeSnapshot(s).disk.value).wal == [] + [State(f.term, f.votedFor)];
    ReplayOfState([], f.term, f.votedFor);
    Reread(TakeSnapshot(s), other);
  }

  lemma Reread(t: Server, other: ClusterConfig)
    requires t.disk.Some? && t.wal == [State(t.term, t.votedFor)] && t.disk.value.config.Some?
    ensures var r := LoadState(t.id, other, t.threshold, t.disk, t.wal);
      && r.store == t.disk.value.store && r.config == t.disk.value.config.value && r.role == Follower && r.id == t.id
      && r.lastApplied == r.commitIndex == t.disk.value.index && r.term == t.term && (t.term > 0 ==> r.votedFor == t.votedFor)
  {
    ReplayOfStateAlone(t.term, t.votedFor);
    hide Replay;
    var r := Recovered(t.id, other, t.threshold, t.disk, t.wal, Replay(t.wal));
    assert r.log == [];
    assert ApplyAll(r) == r;
  }

  // ------------------------------------------------ a snapshot that does not continue

  const PUT: Payload := Op(Log.Command("PUT", "x", "new", "", 0))

  /** Three entries of an old leader, of which the new one has only the first. */
  function OldLog(): seq<Entry> {
    [Entry(1, 1, Noop), Entry(2, 1, PUT), Entry(3, 1, PUT)]
  }

  function NewLog(): seq<Entry> {
    [Entry(1, 1, Noop), Entry(2, 2, Noop)]
  }

  /** Node 1, with what the old leader sent it. */
  function Lagging(): Server {
    Fresh(1, Three(), 0).(term := 1, votedFor := Some(2), log := OldLog())
  }

  /** Node 0, which leads term 2, has committed its log with node 2, and compacted it. */
  function Compacter(): Server {
    Fresh(0, Three(), 1).(role := Leader, term := 2, votedFor := Some(0), votes := {0, 2}, connected := {1, 2},
                                 lastIncludedIndex := 2, lastIncludedTerm := 2, commitIndex := 2, lastApplied := 2,
                                 nextIndex := map[1 := 1, 2 := 3], matchIndex := map[1 := 0, 2 := 2])
  }

  function Mark(): Snapshot {
    Snapshot(2, 2, EmptyStore(), Some(Three()))
  }

  /** The follower once the snapshot is installed: the third entry is still there. */
  function Installed(): Server {
    Lagging().(term := 2, votedFor := Some(0), disk := Some(Mark()), log := [Entry(3, 1, PUT)],
               lastIncludedIndex := 2, lastIncludedTerm := 2, commitIndex := 2, lastApplied := 2, wal := [State(2, Some(0))])
  }

  function Told(): Server {
    Compacter().(nextIndex := map[1 := 3, 2 := 3], matchIndex := map[1 := 2, 2 := 2])
  }

  function Chunk(data: seq<byte>): SnapshotRequest {
    SnapshotRequest(2, 0, 0, data, true)
  }

  lemma NoopsFold()
    ensures Fold([]) == EmptyStore() && Fold(NewLog()) == EmptyStore()
  {
    assert NewLog()[..1] == [Entry(1, 1, Noop)];
    assert [Entry(1, 1, Noop)][..0] == [];
    assert Fold([Entry(1, 1, Noop)]) == EmptyStore();
  }

  /** Both logs are what their leaders wrote, the snapshot is that of the newer one, and it does not
      continue the older. */
  lemma PremisesHold() returns (reigns: map<nat, seq<Entry>>)
    ensures Belongs(reigns, Lagging(), OldLog()) && Lineage(reigns, NewLog())
    ensures Describes(Mark(), NewLog()) && Lagging().lastApplied <= Mark().index && !Continues(Lagging(), Mark())
  {
    reigns := map[1 := OldLog(), 2 := NewLog()];
    NoopsFold();
    assert OldLog()[..0] == [] && NewLog()[..2] == NewLog() && OldLog()[0..] == OldLog();
    assert OldLog()[..1] == NewLog()[..1] == [Entry(1, 1, Noop)];
    assert GetEntry(Lagging(), 2) == Some(Entry(2, 1, PUT));
  }

  lemma KeepsSuffix(data: seq<byte>)
    ensures ProcessInstallSnapshot(Lagging(), Chunk(data), _ => Some(Mark())) == Installed()
  {
    var s := AdoptLeader(Lagging(), 2, 0).(snapshotBuf := Collected([], 0, data));
    assert Refusals([]) == [];
    assert s == Lagging().(term := 2, votedFor := Some(0), snapshotBuf := s.snapshotBuf);
    KeepsThird(s);
  }

  lemma KeepsThird(s: Server)
    requires s.log == OldLog() && s.lastIncludedIndex == 0
    ensures Retained(s, 3) == [Entry(3, 1, PUT)]
  {
    assert Retained(s, 4) == [];
    assert GetEntry(s, 3) == Some(Entry(3, 1, PUT));
  }

  lemma TellsLeader()
    ensures ProcessInstallSnapshotResponse(Compacter(), 1, 2) == Told()
  {
    assert Compacter().matchIndex[1 := 2] == Told().matchIndex;
    assert Compacter().nextIndex[1 := 3] == Told().nextIndex;
  }

  /** The follower reports the end of its log, which the leader's does not reach. */
  lemma FalseAnswer()
    ensures CanReplicate(Told(), 1) && LastLogIndex(Told()) == 2
    ensures ProcessAppendEntries(Installed(), ReplicateTo(Told(), 1)) == (Installed(), AppendResponse(2, true, 3))
  {
    assert Told().config.newPeers.Keys == {0, 1, 2};
    assert 1 in Peers(Told());
    assert Retained(Told(), 3) == [];
    assert AdoptLeader(Installed(), 2, 0) == Installed();
    assert MergeEntries(Installed(), []) == Installed();
  }

  function Written(): Server {
    Told().(log := [Entry(3, 2, PUT)], wal := [Append(Entry(3, 2, PUT))], proposals := [Proposal(3, 2, 7)])
  }

  lemma TakesWrite()
    ensures HandleClientCommand(Told(), 7, PUT.cmd) == Written()
  {
    assert Told().config.newPeers.Keys == {0, 1, 2};
    assert 1 in Peers(Told());
  }

  /** One false acknowledgement is a majority of three. */
  lemma CommitsThird()
    ensures var s := ProcessAppendEntriesResponse(Written(), 1, AppendResponse(2, true, 3));
      s.commitIndex == s.lastApplied == 3 && GetEntry(s, 3) == Some(Entry(3, 2, PUT)) && s.answers == [Answer(7, true)]
  {
    hide ApplyLogs, CheckCommitMajority;
    var s := Written().(matchIndex := Written().matchIndex[1 := 3], nextIndex := Written().nextIndex[1 := 4]);
    CountsThird(s);
    AppliesThird(s.(commitIndex := 3));
    assert EntryTerm(s, 3) == 2;
    var s1 := ApplyLogs(s.(commitIndex := 3));
    assert AdvanceLeader(s1, 4, 3) == s1;
    assert AdvanceLeader(s, 3, 3) == s1;
  }

  lemma CountsThird(s: Server)
    requires s.config == Three() && s.id == 0 && s.matchIndex == map[1 := 3, 2 := 2]
    ensures CheckCommitMajority(s, 3)
  {
    assert {s.id} + (set p | p in s.matchIndex && s.matchIndex[p] >= 3) == {0, 1};
    TwoOfThree(0, 1);
  }

  lemma AppliesThird(s: Server)
    requires s.log == [Entry(3, 2, PUT)] && s.lastIncludedIndex == s.lastApplied == 2 && s.commitIndex == 3 && s.threshold == 1
    requires s.proposals == [Proposal(3, 2, 7)] && s.answers == []
    ensures var s' := ApplyLogs(s);
      s'.commitIndex == s'.lastApplied == 3 && GetEntry(s', 3) == Some(Entry(3, 2, PUT)) && s'.answers == [Answer(7, true)]
  {
    var s1 := s.(lastApplied := 3, store := ApplyCommand(s.store, PUT.cmd));
    assert GetEntry(s, 3) == Some(Entry(3, 2, PUT));
    assert ApplyNext(s) == s1;
    assert ApplyAll(s1) == s1;
    assert ApplyAll(s) == s1;
    assert s1.proposals[1..] == [];
    assert Due(s1, []) == [];
    assert Due(s1, s1.proposals) == [Answer(7, true)];
  }

  /** What goes wrong without the test.  The follower installs the snapshot, keeps its third entry, now
      of an earlier term than the one before it, and answers the leader's next batch with a success for
      index 3, where the leader's log ends at 2.  After one client write that same answer makes the
      leader commit index 3 and report success, while the follower holds a different entry there. */
  lemma ForeignSuffixIsAcknowledged(data: seq<byte>)
    ensures var (f, l) := (ProcessInstallSnapshot(Lagging(), Chunk(data), _ => Some(Mark())),
                           ProcessInstallSnapshotResponse(Compacter(), 1, 2));
      && !Continues(Lagging(), Mark()) && EntryTerm(f, 3) < EntryTerm(f, 2)
      && CanReplicate(l, 1) && LastLogIndex(l) == 2
      && var (f', ack) := ProcessAppendEntries(f, ReplicateTo(l, 1));
         var l' := ProcessAppendEntriesResponse(HandleClientCommand(l, 7, PUT.cmd), 1, ack);
         && ack == AppendResponse(2, true, 3)
         && l'.commitIndex == l'.lastApplied == 3 && l'.answers == [Answer(7, true)]
         && GetEntry(l', 3).Some? && GetEntry(f', 3).Some? && GetEntry(l', 3).value.term != GetEntry(f', 3).value.term
  {
    var _ := PremisesHold();
    KeepsSuffix(data);
    TellsLeader();
    FalseAnswer();
    TakesWrite();
    CommitsThird();
    assert GetEntry(Installed(), 3) == Some(Entry(3, 1, PUT));
    hide ProcessInstallSnapshot, ProcessInstallSnapshotResponse, ProcessAppendEntries, ProcessAppendEntriesResponse, HandleClientCommand;
  }
}
