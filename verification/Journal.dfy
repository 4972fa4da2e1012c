/** What the journal remembers of a node: after any sequence of handled inputs, reading it back gives
    the log in memory and the last vote that was written. */
module Journal {
  import opened Config
  import opened Log
  import opened Wal
  import opened KeyValue
  import opened Election
  import opened ServerSpec
  import opened Compaction
  import opened HandlerSim

  /** Everything a node handles; `whole` is what the collected chunks of a snapshot decode to. */
  datatype Input =
    | Stand
    | AskedToVote(ask: VoteRequest)
    | VoteCame(peer: NodeId, vote: VoteResponse)
    | BatchCame(batch: AppendRequest)
    | AckCame(peer: NodeId, ack: AppendResponse)
    | Command(id: nat, cmd: Log.Command)
    | Reconfigure(id: nat, change: ConfigChange)
    | SnapshotCame(chunk: SnapshotRequest, whole: Option<Snapshot>)
    | SnapshotAcked(peer: NodeId, term: nat)

  function Handle(s: Server, input: Input): Server {
    match input
    case Stand => if s.role == Leader then s else TransitionToCandidate(s)
    case AskedToVote(ask) => ProcessRequestVote(s, ask).0
    case VoteCame(peer, vote) => ProcessRequestVoteResponse(s, peer, vote)
    case BatchCame(batch) => ProcessAppendEntries(s, batch).0
    case AckCame(peer, ack) => ProcessAppendEntriesResponse(s, peer, ack)
    case Command(id, cmd) => HandleClientCommand(s, id, cmd)
    case Reconfigure(id, change) => HandleConfigChange(s, id, change)
    case SnapshotCame(chunk, whole) => ProcessInstallSnapshot(s, chunk, _ => whole)
    case SnapshotAcked(peer, term) => ProcessInstallSnapshotResponse(s, peer, term)
  }

  /** The snapshot of some log. */
  ghost predicate Describes(snap: Snapshot, theirs: seq<Entry>) {
    && Numbered(theirs, 0) && snap.index <= |theirs|
    && snap.term == TermAt(theirs, snap.index) && snap.store == Fold(theirs[..snap.index])
  }

  /** A batch is numbered from the entry it follows and does not contradict a committed entry the node
      holds; a snapshot is that of some log, and not older than what is applied. */
  ghost predicate Sensible(s: Server, input: Input) {
    && (input.BatchCame? ==> Numbered(input.batch.entries, input.batch.prevLogIndex) && NotAgainst(s, input.batch.entries))
    && (input.SnapshotCame? && input.chunk.done && input.whole.Some? ==>
          s.lastApplied <= input.whole.value.index && exists theirs :: Describes(input.whole.value, theirs))
  }

  // ------------------------------------------------------------ clean compactions

  /** If one call of `applyLogs` compacts, it retains nothing. */
  predicate Clean(s: Server) {
    var s1 := ApplyAll(s);
    Outgrown(s1) ==> s1.commitIndex == LastLogIndex(s1)
  }

  /** So does every call in the leader's commit loop. */
  predicate CleanAdvance(s: Server, n: nat, last: nat)
    decreases last + 1 - n
  {
    n <= last ==>
      if EntryTerm(s, n) == s.term && CheckCommitMajority(s, n) then
        Clean(s.(commitIndex := n)) && CleanAdvance(ApplyLogs(s.(commitIndex := n)), n + 1, last)
      else CleanAdvance(s, n + 1, last)
  }

  predicate Matches(s: Server, req: AppendRequest) {
    && req.prevLogIndex <= LastLogIndex(s)
    && (req.prevLogIndex >= s.lastIncludedIndex ==> EntryTerm(s, req.prevLogIndex) == req.prevLogTerm)
  }

  function Raised(s: Server, leaderCommit: nat): Server {
    s.(commitIndex := if leaderCommit > LastLogIndex(s) then LastLogIndex(s) else leaderCommit)
  }

  function Acknowledged(s: Server, peer: NodeId, ack: AppendResponse): Server {
    s.(matchIndex := s.matchIndex[peer := ack.matchIndex], nextIndex := s.nextIndex[peer := ack.matchIndex + 1])
  }

  /** Whatever compaction or installation the input sets off retains nothing. */
  predicate CleanInput(s: Server, input: Input) {
    match input
    case BatchCame(req) =>
      var s1 := AdoptLeader(s, req.term, req.leader);
      var s2 := MergeEntries(s1, req.entries);
      req.term >= s.term && Matches(s1, req) && req.leaderCommit > s2.commitIndex ==> Clean(Raised(s2, req.leaderCommit))
    case AckCame(peer, ack) =>
      s.role == Leader && ack.term == s.term && ack.success ==>
        CleanAdvance(Acknowledged(s, peer, ack), s.commitIndex + 1, LastLogIndex(s))
    case Command(id, cmd) =>
      var s1 := Proposed(s, id, cmd);
      s.role == Leader && Peers(s1) == {} && CheckCommitMajority(s1, LastLogIndex(s1)) ==>
        Clean(s1.(commitIndex := LastLogIndex(s1)))
    case SnapshotCame(chunk, whole) =>
      chunk.term >= s.term && chunk.done && whole.Some? ==> LastLogIndex(s) <= whole.value.index
    case _ => true
  }

  /** The node holds `full`, has applied what it committed, and has all it retains in its journal. */
  ghost predicate Recorded(s: Server, full: seq<Entry>) {
    Compacted(s, full) && s.lastApplied == s.commitIndex && Journalled(s) && DiskMatches(s, full)
  }

  // --------------------------------------------------------- the last vote

  /** The last vote among the records, looking backwards. */
  function LastVote(wal: seq<Record>): (nat, Option<NodeId>) {
    if wal == [] then (0, None)
    else
      match wal[|wal| - 1]
      case State(term, vote) => (term, vote)
      case _ => LastVote(wal[..|wal| - 1])
  }

  lemma {:induction false} ReplayKeepsLastVote(wal: seq<Record>)
    ensures (Replay(wal).term, Replay(wal).vote) == LastVote(wal)
  {
    if wal != [] {
      ReplayKeepsLastVote(wal[..|wal| - 1]);
    }
  }

  // ------------------------------------------------------- handler by handler

  lemma SameLogRecorded(s: Server, full: seq<Entry>, s': Server)
    requires Recorded(s, full)
    requires s'.log == s.log && s'.lastIncludedIndex == s.lastIncludedIndex && s'.lastIncludedTerm == s.lastIncludedTerm
    requires s'.commitIndex == s.commitIndex && s'.lastApplied == s.lastApplied && s'.store == s.store && s'.disk == s.disk
    requires Replay(s'.wal).entries == Replay(s.wal).entries
    ensures Recorded(s', full)
  {
  }

  lemma VotedRecorded(s: Server, full: seq<Entry>, s': Server, term: nat, vote: Option<NodeId>)
    requires Recorded(s, full)
    requires s'.log == s.log && s'.lastIncludedIndex == s.lastIncludedIndex && s'.lastIncludedTerm == s.lastIncludedTerm
    requires s'.commitIndex == s.commitIndex && s'.lastApplied == s.lastApplied && s'.store == s.store && s'.disk == s.disk
    requires s'.wal == s.wal + [State(term, vote)]
    ensures Recorded(s', full)
  {
    hide Recorded, Replay;
    ReplayOfState(s.wal, term, vote);
    SameLogRecorded(s, full, s');
  }

  lemma AppendedRecorded(s: Server, full: seq<Entry>, s': Server, e: Entry)
    requires Recorded(s, full)
    requires s'.log == s.log + [e] && s'.lastIncludedIndex == s.lastIncludedIndex && s'.lastIncludedTerm == s.lastIncludedTerm
    requires s'.commitIndex == s.commitIndex && s'.lastApplied == s.lastApplied && s'.store == s.store && s'.disk == s.disk
    requires s'.wal == s.wal + [Append(e)] && e.index == LastLogIndex(s) + 1
    ensures Recorded(s', full + [e])
  {
    hide Fold, Replay;
    IndicesAgree(s, full);
    AppendKeepsCompacted(s, full, e, s');
    AppendKeepsJournalled(s, full, e, s');
    assert full[..s.lastIncludedIndex] == (full + [e])[..s.lastIncludedIndex];
  }

  lemma LedRecorded(s: Server, full: seq<Entry>) returns (full': seq<Entry>)
    requires Recorded(s, full)
    ensures Recorded(TransitionToLeader(s), full')
  {
    hide Recorded, SetAll;
    full' := full;
    if s.role == Candidate {
      var e := Entry(LastLogIndex(s) + 1, s.term, Noop);
      full' := full + [e];
      AppendedRecorded(s, full, TransitionToLeader(s), e);
    }
  }

  lemma RecordedBounds(s: Server, full: seq<Entry>)
    requires Recorded(s, full)
    ensures s.lastIncludedIndex <= s.commitIndex <= |full| && LastLogIndex(s) == |full|
  {
    IndicesAgree(s, full);
  }

  /** Applying neither loses nor invents journal entries, if it compacts cleanly or not at all. */
  lemma AppliedRecorded(s: Server, full: seq<Entry>, n: nat) returns (full': seq<Entry>)
    requires Recorded(s, full) && s.commitIndex <= n <= LastLogIndex(s) && Clean(s.(commitIndex := n))
    ensures Recorded(ApplyLogs(s.(commitIndex := n)), full') && full <= full'
    ensures ApplyLogs(s.(commitIndex := n)).commitIndex == n
  {
    hide Fold, Replay;
    IndicesAgree(s, full);
    var s1 := s.(commitIndex := n);
    full' := ApplyAllCompacted(s1, full);
    ApplyAllKeepsDisk(s1);
    var s2 := ApplyAll(s1);
    assert full[..s.lastIncludedIndex] == full'[..s.lastIncludedIndex];
    assert Recorded(s2, full');
    hide ApplyAll;
    CompactRecorded(s2, full');
    CompletedRecorded(Compact(s2), full');
  }

  lemma CompactRecorded(s: Server, full: seq<Entry>)
    requires Recorded(s, full) && (Outgrown(s) ==> s.commitIndex == LastLogIndex(s))
    ensures Recorded(Compact(s), full) && Compact(s).commitIndex == s.commitIndex
  {
    hide Fold, Replay;
    if Outgrown(s) {
      TakeSnapshotCompacted(s, full);
      SnapshotJournalledIff(s, full);
      CompactKeepsDisk(s, full);
    }
  }

  lemma CompletedRecorded(s: Server, full: seq<Entry>)
    requires Recorded(s, full)
    ensures Recorded(CompleteProposals(s), full)
  {
    hide Recorded, Due, Waiting;
    SameLogRecorded(s, full, CompleteProposals(s));
  }

  lemma {:induction false} ApplyAllKeepsDisk(s: Server)
    ensures ApplyAll(s).disk == s.disk
    ensures ApplyAll(s).lastIncludedIndex == s.lastIncludedIndex && ApplyAll(s).lastIncludedTerm == s.lastIncludedTerm
    decreases if s.lastApplied < s.commitIndex then s.commitIndex - s.lastApplied else 0
  {
    if s.lastApplied < s.commitIndex {
      ApplyNextLeaves(s);
      hide ApplyNext;
      ApplyAllKeepsDisk(ApplyNext(s));
    }
  }

  /** A vote request changes the ballot, and may journal it; nothing else but the queue. */
  lemma AskLeaves(s: Server, ask: VoteRequest)
    ensures var s' := ProcessRequestVote(s, ask).0;
      && SameStorage(s, s') && s'.threshold == s.threshold && s'.pendingConfig == s.pendingConfig
      && (s'.wal == s.wal || s'.wal == s.wal + [State(s'.term, s'.votedFor)])
      && (s'.role == s.role || s'.role == Follower) && s.term <= s'.term
      && (|| (s'.proposals == s.proposals && s'.answers == s.answers)
          || (s'.proposals == [] && s'.answers == s.answers + Refusals(s.proposals)))
  {
    hide ContainsNode, LogOk, Refusals;
    if ask.term < s.term || !ContainsNode(s.config, ask.candidate) {
    } else {
      var s1 := if ask.term > s.term then TransitionToFollower(s, ask.term) else s;
      assert SameStorage(s, s1) && s1.wal == s.wal;
    }
  }

  lemma AskRecorded(s: Server, full: seq<Entry>, ask: VoteRequest)
    requires Recorded(s, full)
    ensures Recorded(ProcessRequestVote(s, ask).0, full)
  {
    hide Recorded, Replay, ProcessRequestVote;
    AskLeaves(s, ask);
    var s' := ProcessRequestVote(s, ask).0;
    if s'.wal == s.wal {
      SameLogRecorded(s, full, s');
    } else {
      VotedRecorded(s, full, s', s'.term, s'.votedFor);
    }
  }

  lemma MergedRecorded(s: Server, full: seq<Entry>, batch: seq<Entry>, prev: nat) returns (full': seq<Entry>)
    requires Recorded(s, full) && NotAgainst(s, batch) && Numbered(batch, prev) && prev <= |full|
    ensures Recorded(MergeEntries(s, batch), full')
  {
    hide Fold, Replay;
    full' := MergeHeld(s, full, batch, prev);
    AgreeLess(full, full', s.commitIndex, s.lastIncludedIndex);
  }

  lemma BatchRecorded(s: Server, full: seq<Entry>, req: AppendRequest) returns (full': seq<Entry>)
    requires Recorded(s, full) && Sensible(s, BatchCame(req)) && CleanInput(s, BatchCame(req))
    ensures Recorded(ProcessAppendEntries(s, req).0, full')
  {
    hide Recorded, Replay, MergeEntries, Clean, ApplyLogs;
    full' := full;
    if req.term >= s.term {
      var s1 := AdoptLeader(s, req.term, req.leader);
      SameLogRecorded(s, full, s1);
      SameNotAgainst(s, s1, req.entries);
      if Matches(s1, req) {
        RecordedBounds(s1, full);
        full' := MergedRecorded(s1, full, req.entries, req.prevLogIndex);
        var s2 := MergeEntries(s1, req.entries);
        RecordedBounds(s2, full');
        if req.leaderCommit > s2.commitIndex {
          full' := AppliedRecorded(s2, full', Raised(s2, req.leaderCommit).commitIndex);
        }
      }
    }
  }

  lemma SameNotAgainst(s: Server, s': Server, batch: seq<Entry>)
    requires NotAgainst(s, batch) && s'.log == s.log && s'.commitIndex == s.commitIndex
    requires s'.lastIncludedIndex == s.lastIncludedIndex && s'.lastIncludedTerm == s.lastIncludedTerm
    ensures NotAgainst(s', batch)
  {
    forall j {:trigger batch[j]} | 0 <= j < |batch| && s'.lastIncludedIndex < batch[j].index <= s'.commitIndex
      ensures EntryTerm(s', batch[j].index) == batch[j].term
    {
      assert EntryTerm(s', batch[j].index) == EntryTerm(s, batch[j].index);
    }
  }

  lemma {:induction false} LeaderAdvancedRecorded(s: Server, full: seq<Entry>, n: nat, last: nat) returns (full': seq<Entry>)
    requires Recorded(s, full) && s.commitIndex < n && last <= |full| && CleanAdvance(s, n, last)
    ensures Recorded(AdvanceLeader(s, n, last), full')
    decreases last + 1 - n
  {
    hide Recorded, Replay, ApplyLogs, EntryTerm, CheckCommitMajority, Clean;
    full' := full;
    RecordedBounds(s, full);
    if n <= last {
      if EntryTerm(s, n) == s.term && CheckCommitMajority(s, n) {
        var mid := AppliedRecorded(s, full, n);
        full' := LeaderAdvancedRecorded(ApplyLogs(s.(commitIndex := n)), mid, n + 1, last);
      } else {
        full' := LeaderAdvancedRecorded(s, full, n + 1, last);
      }
    }
  }

  lemma AckRecorded(s: Server, full: seq<Entry>, peer: NodeId, ack: AppendResponse) returns (full': seq<Entry>)
    requires Recorded(s, full) && CleanInput(s, AckCame(peer, ack))
    ensures Recorded(ProcessAppendEntriesResponse(s, peer, ack), full')
  {
    hide Recorded, Replay, AdvanceLeader, CleanAdvance;
    full' := full;
    if ack.term > s.term {
      SameLogRecorded(s, full, TransitionToFollower(s, ack.term));
    } else if s.role == Leader && ack.term == s.term && ack.success {
      var s1 := Acknowledged(s, peer, ack);
      SameLogRecorded(s, full, s1);
      RecordedBounds(s1, full);
      full' := LeaderAdvancedRecorded(s1, full, s1.commitIndex + 1, LastLogIndex(s1));
    } else {
      SameLogRecorded(s, full, ProcessAppendEntriesResponse(s, peer, ack));
    }
  }

  lemma CommandRecorded(s: Server, full: seq<Entry>, id: nat, cmd: Log.Command) returns (full': seq<Entry>)
    requires Recorded(s, full) && CleanInput(s, Input.Command(id, cmd))
    ensures Recorded(HandleClientCommand(s, id, cmd), full')
  {
    hide Recorded, Replay, ApplyLogs, CheckCommitMajority, Clean;
    full' := full;
    if s.role != Leader {
      SameLogRecorded(s, full, s.(answers := s.answers + [Answer(id, false)]));
    } else {
      var e := Entry(LastLogIndex(s) + 1, s.term, Op(cmd));
      var s1 := Proposed(s, id, cmd);
      full' := full + [e];
      AppendedRecorded(s, full, s1, e);
      RecordedBounds(s, full);
      RecordedBounds(s1, full');
      if Peers(s1) == {} && CheckCommitMajority(s1, e.index) {
        full' := AppliedRecorded(s1, full', e.index);
      }
    }
  }

  lemma ReconfigureRecorded(s: Server, full: seq<Entry>, id: nat, change: ConfigChange) returns (full': seq<Entry>)
    requires Recorded(s, full)
    ensures Recorded(HandleConfigChange(s, id, change), full')
  {
    hide Recorded, Replay, BuildJoint, SetAll;
    full' := full;
    var s' := HandleConfigChange(s, id, change);
    if s.role != Leader || s.pendingConfig || BuildJoint(s.config, s.id, change).Refused? {
      SameLogRecorded(s, full, s');
    } else {
      var e := Entry(LastLogIndex(s) + 1, s.term, Change(BuildJoint(s.config, s.id, change).config));
      full' := full + [e];
      AppendedRecorded(s, full, s', e);
    }
  }

  lemma VoteRecorded(s: Server, full: seq<Entry>, peer: NodeId, vote: VoteResponse) returns (full': seq<Entry>)
    requires Recorded(s, full)
    ensures Recorded(ProcessRequestVoteResponse(s, peer, vote), full')
  {
    hide Recorded, Replay;
    full' := full;
    if vote.term > s.term {
      SameLogRecorded(s, full, TransitionToFollower(s, vote.term));
    } else if s.role == Candidate && vote.term == s.term && vote.granted {
      var s1 := s.(votes := s.votes + {peer});
      SameLogRecorded(s, full, s1);
      if HasMajority(s1.config, s1.id, s1.votes) {
        full' := LedRecorded(s1, full);
      }
    }
  }

  /** A snapshot that covers everything held replaces it, in memory and in the journal. */
  lemma InstalledRecorded(s: Server, full: seq<Entry>, snap: Snapshot, theirs: seq<Entry>)
    requires Recorded(s, full) && Describes(snap, theirs) && s.lastApplied <= snap.index && LastLogIndex(s) <= snap.index
    ensures Recorded(RestoreSnapshot(s, snap), theirs[..snap.index])
  {
    IndicesAgree(s, full);
    ReplayOfStateAlone(s.term, s.votedFor);
    hide Fold, Replay;
    var full' := theirs[..snap.index];
    assert full'[..snap.index] == full';
    assert Retained(s, snap.index + 1) == [];
  }

  lemma ChunkRecorded(s: Server, full: seq<Entry>, chunk: SnapshotRequest, whole: Option<Snapshot>) returns (full': seq<Entry>)
    requires Recorded(s, full) && Sensible(s, SnapshotCame(chunk, whole)) && CleanInput(s, SnapshotCame(chunk, whole))
    ensures Recorded(ProcessInstallSnapshot(s, chunk, _ => whole), full')
  {
    hide Recorded, Replay, Describes, RestoreSnapshot, Collected;
    full' := full;
    if chunk.term >= s.term {
      var s1 := AdoptLeader(s, chunk.term, chunk.leader);
      SameLogRecorded(s, full, s1);
      var s2 := s1.(snapshotBuf := Collected(s1.snapshotBuf, chunk.offset, chunk.data));
      SameLogRecorded(s1, full, s2);
      if chunk.done && whole.Some? {
        var theirs :| Describes(whole.value, theirs);
        InstalledRecorded(s2, full, whole.value, theirs);
        ShorterThan(whole.value, theirs);
        full' := theirs[..whole.value.index];
        SameLogRecorded(RestoreSnapshot(s2, whole.value), full', RestoreSnapshot(s2, whole.value).(snapshotBuf := []));
      } else {
        SameLogRecorded(s2, full, s2.(snapshotBuf := []));
      }
    }
  }

  lemma ShorterThan(snap: Snapshot, theirs: seq<Entry>)
    requires Describes(snap, theirs)
    ensures snap.index <= |theirs|
  {
  }

  lemma HandleRecorded(s: Server, full: seq<Entry>, input: Input) returns (full': seq<Entry>)
    requires Recorded(s, full) && Sensible(s, input) && CleanInput(s, input)
    ensures Recorded(Handle(s, input), full')
  {
    hide Recorded, Replay, ApplyLogs, ProcessInstallSnapshot, Sensible, CleanInput;
    full' := full;
    match input
    case Stand =>
      if s.role != Leader {
        var s1 := Standing(s);
        VotedRecorded(s, full, s1, s.term + 1, Some(s.id));
        if Peers(s1) == {} {
          full' := LedRecorded(s1, full);
        }
      }
    case AskedToVote(ask) => AskRecorded(s, full, ask);
    case VoteCame(peer, vote) => full' := VoteRecorded(s, full, peer, vote);
    case BatchCame(batch) => full' := BatchRecorded(s, full, batch);
    case AckCame(peer, ack) => full' := AckRecorded(s, full, peer, ack);
    case Command(id, cmd) => full' := CommandRecorded(s, full, id, cmd);
    case Reconfigure(id, change) => full' := ReconfigureRecorded(s, full, id, change);
    case SnapshotCame(chunk, whole) => full' := ChunkRecorded(s, full, chunk, whole);
    case SnapshotAcked(peer, term) => SameLogRecorded(s, full, Handle(s, input));
  }

  // -------------------------------------------------------------- whole runs

  function HandleAll(s: Server, inputs: seq<Input>): Server
    decreases |inputs|
  {
    if inputs == [] then s else HandleAll(Handle(s, inputs[0]), inputs[1..])
  }

  /** Every input is sensible when it arrives. */
  ghost predicate AllSensible(s: Server, inputs: seq<Input>)
    decreases |inputs|
  {
    inputs != [] ==> Sensible(s, inputs[0]) && AllSensible(Handle(s, inputs[0]), inputs[1..])
  }

  /** Every compaction on the way retains nothing. */
  predicate AllClean(s: Server, inputs: seq<Input>)
    decreases |inputs|
  {
    inputs != [] ==> CleanInput(s, inputs[0]) && AllClean(Handle(s, inputs[0]), inputs[1..])
  }

  lemma {:induction false} RunIsRecorded(s: Server, full: seq<Entry>, inputs: seq<Input>) returns (full': seq<Entry>)
    requires Recorded(s, full) && AllSensible(s, inputs) && AllClean(s, inputs)
    ensures Recorded(HandleAll(s, inputs), full')
    decreases |inputs|
  {
    hide Recorded, Sensible, CleanInput, Handle;
    full' := full;
    if inputs != [] {
      var mid := HandleRecorded(s, full, inputs[0]);
      full' := RunIsRecorded(Handle(s, inputs[0]), mid, inputs[1..]);
    }
  }

  /** Journal agreement.  From an empty journal, or any state whose journal is complete, and whatever
      the node handles next, whatever its snapshot threshold, as long as each compaction that fires
      retains nothing: reading the journal back yields exactly the log in memory and the term and vote
      that were written last, and a restart rebuilds that log, with the store of what was folded away. */
  lemma JournalAgreement(s: Server, full: seq<Entry>, inputs: seq<Input>) returns (full': seq<Entry>)
    requires Recorded(s, full) && AllSensible(s, inputs) && AllClean(s, inputs)
    ensures var s' := HandleAll(s, inputs);
      && Compacted(s', full')
      && Replay(s'.wal) == Replayed(LastVote(s'.wal).0, LastVote(s'.wal).1, s'.log)
      && var r := LoadState(s'.id, s'.config, s'.threshold, s'.disk, s'.wal);
         && r.log == s'.log && r.lastIncludedIndex == s'.lastIncludedIndex && r.term == LastVote(s'.wal).0
         && r.lastApplied == r.commitIndex == s'.lastIncludedIndex && r.store == Fold(full'[..s'.lastIncludedIndex])
  {
    full' := RunIsRecorded(s, full, inputs);
    var s' := HandleAll(s, inputs);
    hide AllSensible, AllClean, Handle, HandleAll;
    ReplayKeepsLastVote(s'.wal);
    ReloadFinds(s', full');
  }

  lemma ReloadFinds(s: Server, full: seq<Entry>)
    requires Recorded(s, full)
    ensures var r := LoadState(s.id, s.config, s.threshold, s.disk, s.wal);
      && r.log == s.log && r.lastIncludedIndex == s.lastIncludedIndex && r.term == Replay(s.wal).term
      && r.lastApplied == r.commitIndex == s.lastIncludedIndex && r.store == Fold(full[..s.lastIncludedIndex])
  {
    hide Replay;
    ReloadedLog(s, full);
    var r := Reloaded(s);
    hide Recovered;
    assert ApplyAll(r) == r;
    assert Compacted(r, full);
    TakeSnapshotCompacted(r, full);
    assert SameLog(Compact(r), CompleteProposals(Compact(r)));
  }

  /** A node that has never run is recorded. */
  lemma FreshIsRecorded(id: NodeId, config: ClusterConfig, threshold: nat)
    ensures Recorded(Fresh(id, config, threshold), [])
  {
    assert Replay([]) == Replayed(0, None, []);
    assert Fold([]) == EmptyStore();
  }

  /** A compaction leaves a node with a complete journal exactly when everything it held was committed. */
  lemma CompactedIsRecordedIff(s: Server, full: seq<Entry>)
    requires Compacted(s, full) && s.lastApplied == s.commitIndex
    ensures Recorded(TakeSnapshot(s), full) <==> s.commitIndex == LastLogIndex(s)
  {
    hide Fold, Replay;
    TakeSnapshotCompacted(s, full);
    SnapshotJournalledIff(s, full);
    EntriesAgree(s, full, s.commitIndex);
  }
}
