/** The node object of raft/raft.go: handlers that update its fields in place, each proved to do what
    its specification in `ServerSpec` says to the whole state. */
module Raft {
  import opened Config
  import opened Log
  import opened Wal
  import opened KeyValue
  import opened Election
  import opened WalFile
  import Spec = ServerSpec
  import opened ServerSpec

  function Appended(s: Server, e: Entry): Server {
    s.(log := s.log + [e], wal := s.wal + [Append(e)])
  }

  lemma SetAllNext(m: map<NodeId, int>, keys: set<NodeId>, p: NodeId, v: int)
    ensures SetAll(m, keys + {p}, v) == SetAll(m, keys, v)[p := v]
  {
  }

  class Node {
    const id: NodeId
    const wal: WAL
    const snapshotThreshold: nat

    var state: Role
    var currentTerm: nat
    var votedFor: Option<NodeId>
    var votesReceived: set<NodeId>
    var log: seq<Entry>
    var lastIncludedIndex: nat
    var lastIncludedTerm: nat
    var commitIndex: nat
    var lastApplied: nat
    var nextIndex: map<NodeId, int>
    var matchIndex: map<NodeId, int>
    var grpcPeers: set<NodeId>
    var kv: map<string, string>
    var dedupTable: map<string, int>
    var currentConfig: ClusterConfig
    var pendingConfig: bool
    var configChangeIndex: nat
    var isJoining: bool
    var proposals: seq<Proposal>
    var answers: seq<Answer>         // what was sent on the response channels
    var snapshotFile: Option<Snapshot>
    var snapshotBuf: seq<byte>

    /** The whole state of the node, its journal and its snapshot file. */
    ghost function State(): Server
      reads this, wal
    {
      Server(id, state, currentTerm, votedFor, votesReceived, log, lastIncludedIndex, lastIncludedTerm,
             commitIndex, lastApplied, nextIndex, matchIndex, grpcPeers, Store(kv, dedupTable),
             currentConfig, pendingConfig, configChangeIndex, isJoining, proposals, answers,
             wal.records, snapshotFile, snapshotThreshold, snapshotBuf)
    }

    ghost predicate Valid()
      reads this, wal
    {
      wal.Valid()
    }

    // ------------------------------------------------------ index translation

    function LastIndex(): (n: nat)
      reads this, wal
      ensures n == LastLogIndex(State())
    {
      if |log| > 0 then log[|log| - 1].index else lastIncludedIndex
    }

    function LastTerm(): (n: nat)
      reads this, wal
      ensures n == LastLogTerm(State())
    {
      if |log| > 0 then log[|log| - 1].term else lastIncludedTerm
    }

    method EntryAt(index: nat) returns (e: Option<Entry>)
      ensures e == GetEntry(State(), index)
    {
      if index == lastIncludedIndex {
        return Some(Entry(lastIncludedIndex, lastIncludedTerm, Noop));
      }
      if index < lastIncludedIndex {
        return None;
      }
      var offset := index - lastIncludedIndex - 1;
      if offset < |log| {
        return Some(log[offset]);
      }
      return None;
    }

    method TermOf(index: nat) returns (term: nat)
      ensures term == EntryTerm(State(), index)
    {
      var e := EntryAt(index);
      if e.Some? {
        return e.value.term;
      }
      return 0;
    }

    /** The entries from `from` to the end of the log. */
    method EntriesFrom(from: nat) returns (entries: seq<Entry>)
      ensures entries == Retained(State(), from)
    {
      entries := [];
      var i := from;
      var last := LastIndex();
      while i <= last
        invariant Retained(State(), from) == entries + Retained(State(), i)
        decreases (last + 1) as int - i
      {
        var e := EntryAt(i);
        if e.Some? {
          entries := entries + [e.value];
        }
        i := i + 1;
      }
    }

    // -------------------------------------------------------- role transitions

    method StepDown(term: nat)
      modifies `state, `currentTerm, `votedFor
      ensures state == Follower && currentTerm == term && votedFor == None
    {
      state := Follower;
      currentTerm := term;
      votedFor := None;
    }

    method RefuseProposals()
      modifies `answers, `proposals
      ensures answers == old(answers) + Refusals(old(proposals)) && proposals == []
    {
      var i := 0;
      while i < |proposals|
        invariant i <= |proposals|
        invariant answers == old(answers) + Refusals(proposals[..i])
        modifies `answers
      {
        assert Refusals(proposals[..i + 1]) == Refusals(proposals[..i]) + [Answer(proposals[i].id, false)];
        answers := answers + [Answer(proposals[i].id, false)];
        i := i + 1;
      }
      assert proposals[..|proposals|] == proposals;
      proposals := [];
    }

    method TransitionToFollower(term: nat)
      requires Valid()
      modifies this
      ensures Valid() && State() == Spec.TransitionToFollower(old(State()), term)
    {
      hide WAL.Valid, Refusals;
      StepDown(term);
      RefuseProposals();
    }

    method AddEntry(e: Entry)
      requires Valid()
      modifies `log, wal
      ensures Valid() && State() == Appended(old(State()), e)
    {
      hide WAL.Valid;
      log := log + [e];
      wal.AppendEntry(e);
    }

    /** Appends an entry of the current term to the log and the journal. */
    method AppendOwn(payload: Payload) returns (e: Entry)
      requires Valid()
      modifies `log, wal
      ensures Valid() && e == Entry(LastLogIndex(old(State())) + 1, old(State()).term, payload)
      ensures State() == Appended(old(State()), e)
    {
      hide WAL.Valid;
      e := Entry(LastIndex() + 1, currentTerm, payload);
      AddEntry(e);
    }

    /** Assumes that every peer is up to date, and has acknowledged nothing. */
    method FillPeers(peers: set<NodeId>, last: nat)
      modifies `nextIndex, `matchIndex
      ensures nextIndex == SetAll(old(nextIndex), peers, last + 1)
      ensures matchIndex == SetAll(old(matchIndex), peers, 0)
    {
      var todo := peers;
      assert peers - todo == {} && peers - {} == peers;
      while todo != {}
        invariant todo <= peers
        invariant nextIndex == SetAll(old(nextIndex), peers - todo, last + 1)
        invariant matchIndex == SetAll(old(matchIndex), peers - todo, 0)
        decreases todo
      {
        hide SetAll;
        var p :| p in todo;
        SetAllNext(old(nextIndex), peers - todo, p, last + 1);
        SetAllNext(old(matchIndex), peers - todo, p, 0);
        assert peers - (todo - {p}) == (peers - todo) + {p};
        nextIndex := nextIndex[p := last + 1];
        matchIndex := matchIndex[p := 0];
        todo := todo - {p};
      }
    }

    /** Connects to the peers and resets what is known of them. */
    method ResetPeers()
      requires Valid()
      modifies `grpcPeers, `nextIndex, `matchIndex
      ensures Valid()
      ensures var s := old(State());
        State() == s.(connected := s.connected + Peers(s), nextIndex := SetAll(s.nextIndex, Peers(s), LastLogIndex(s) + 1),
                      matchIndex := SetAll(s.matchIndex, Peers(s), 0))
    {
      hide WAL.Valid, SetAll, PeerIds;
      Connect();
      PresumeUpToDate();
    }

    method Connect()
      modifies `grpcPeers
      ensures grpcPeers == old(grpcPeers) + Peers(old(State()))
    {
      var peers := AllNodeGRPC(currentConfig, id);
      grpcPeers := grpcPeers + peers.Keys;
    }

    method PresumeUpToDate()
      modifies `nextIndex, `matchIndex
      ensures nextIndex == SetAll(old(nextIndex), Peers(old(State())), LastLogIndex(old(State())) + 1)
      ensures matchIndex == SetAll(old(matchIndex), Peers(old(State())), 0)
    {
      hide WAL.Valid, SetAll;
      var peers := AllNodeGRPC(currentConfig, id);
      FillPeers(peers.Keys, LastIndex());
    }

    method TransitionToLeader()
      requires Valid()
      modifies this, wal
      ensures Valid() && State() == Spec.TransitionToLeader(old(State()))
    {
      hide WAL.Valid, SetAll;
      if state != Candidate {
        return;
      }
      state := Leader;
      ResetPeers();
      var noop := AppendOwn(Noop);
    }

    method VoteForSelf()
      modifies `state, `currentTerm, `votedFor, `votesReceived
      ensures state == Candidate && currentTerm == old(currentTerm) + 1 && votedFor == Some(id) && votesReceived == {id}
    {
      state := Candidate;
      currentTerm := currentTerm + 1;
      votedFor := Some(id);
      votesReceived := {id};
    }

    method TransitionToCandidate()
      requires Valid()
      modifies this, wal
      ensures Valid() && State() == Spec.TransitionToCandidate(old(State()))
    {
      hide WAL.Valid, Spec.TransitionToLeader;
      VoteForSelf();
      wal.AppendState(currentTerm, votedFor);
      StartElection();
    }

    /** Without peers the election is already won; otherwise the vote requests go out. */
    method StartElection()
      requires Valid()
      modifies this, wal
      ensures Valid()
      ensures State() == if Peers(old(State())) == {} then Spec.TransitionToLeader(old(State())) else old(State())
    {
      var peers := AllNodeGRPC(currentConfig, id);
      if |peers| == 0 {
        TransitionToLeader();
      }
    }

    /** What any message of a current leader does first. */
    method AdoptLeader(term: nat, leader: NodeId)
      requires Valid() && currentTerm <= term
      modifies this
      ensures Valid() && State() == Spec.AdoptLeader(old(State()), term, leader)
    {
      hide WAL.Valid, Spec.TransitionToFollower;
      if term > currentTerm {
        TransitionToFollower(term);
      }
      if state == Candidate {
        TransitionToFollower(term);
      }
      votedFor := Some(leader);
    }

    // ------------------------------------------------------------------- votes

    method ProcessRequestVote(req: VoteRequest) returns (resp: VoteResponse)
      requires Valid()
      modifies this, wal
      ensures Valid() && (State(), resp) == Spec.ProcessRequestVote(old(State()), req)
    {
      if req.term < currentTerm {
        return VoteResponse(currentTerm, false);
      }
      if !ContainsNode(currentConfig, req.candidate) {
        return VoteResponse(currentTerm, false);
      }
      if req.term > currentTerm {
        TransitionToFollower(req.term);
      }
      var lastTerm, lastIndex := LastTerm(), LastIndex();
      var logOk := req.lastLogTerm > lastTerm || (req.lastLogTerm == lastTerm && req.lastLogIndex >= lastIndex);
      if (votedFor == None || votedFor == Some(req.candidate)) && logOk {
        votedFor := Some(req.candidate);
        wal.AppendState(currentTerm, votedFor);
        return VoteResponse(currentTerm, true);
      }
      return VoteResponse(currentTerm, false);
    }

    method ProcessRequestVoteResponse(peer: NodeId, resp: VoteResponse)
      requires Valid()
      modifies this, wal
      ensures Valid() && State() == Spec.ProcessRequestVoteResponse(old(State()), peer, resp)
    {
      if resp.term > currentTerm {
        TransitionToFollower(resp.term);
        return;
      }
      if state == Candidate && resp.term == currentTerm && resp.granted {
        votesReceived := votesReceived + {peer};
        var won := ComputeMajority(currentConfig, id, votesReceived);
        if won {
          TransitionToLeader();
        }
      }
    }

    // ---------------------------------------------------------------- applying

    method ApplyCommandBytes(cmd: Command)
      modifies `kv, `dedupTable
      ensures Store(kv, dedupTable) == ApplyCommand(old(Store(kv, dedupTable)), cmd)
    {
      if cmd.client != "" && cmd.request > 0 {
        if cmd.client in dedupTable && cmd.request <= dedupTable[cmd.client] {
          return;
        }
      }
      if cmd.op == "PUT" {
        kv := kv[cmd.key := cmd.val];
        if cmd.client != "" && cmd.request > 0 {
          dedupTable := dedupTable[cmd.client := cmd.request];
        }
      } else if cmd.op == "DEL" {
        kv := kv - {cmd.key};
        if cmd.client != "" && cmd.request > 0 {
          dedupTable := dedupTable[cmd.client := cmd.request];
        }
      }
    }

    method ApplyConfigEntry(config: ClusterConfig)
      requires Valid()
      modifies `currentConfig, `isJoining
      ensures Valid() && State() == ApplyConfig(old(State()), config)
    {
      currentConfig := config;
      isJoining := !ContainsNode(config, id);
    }

    method ProposeSecondPhaseConfig(joint: ClusterConfig)
      requires Valid()
      modifies this, wal
      ensures Valid() && State() == ProposeSecondPhase(old(State()), joint)
    {
      hide WAL.Valid;
      var e := AppendOwn(Change(BuildFinal(joint)));
      configChangeIndex := e.index;
    }

    method DropPeers(peers: set<NodeId>)
      modifies `grpcPeers, `nextIndex, `matchIndex
      ensures var gone := old(grpcPeers) - peers;
        grpcPeers == old(grpcPeers) - gone && nextIndex == old(nextIndex) - gone && matchIndex == old(matchIndex) - gone
    {
      var todo := grpcPeers;
      ghost var gone := grpcPeers - peers;
      while todo != {}
        invariant todo <= old(grpcPeers)
        invariant grpcPeers == old(grpcPeers) - (gone - todo)
        invariant nextIndex == old(nextIndex) - (gone - todo)
        invariant matchIndex == old(matchIndex) - (gone - todo)
        decreases todo
      {
        var p :| p in todo;
        if p !in peers {
          grpcPeers := grpcPeers - {p};
          nextIndex := nextIndex - {p};
          matchIndex := matchIndex - {p};
        }
        todo := todo - {p};
      }
    }

    method DisconnectRemovedPeers()
      requires Valid()
      modifies this
      ensures Valid() && State() == DisconnectRemoved(old(State()))
    {
      hide WAL.Valid;
      var peers := AllNodeGRPC(currentConfig, id);
      DropPeers(peers.Keys);
    }

    method CommitConfigEntry(config: ClusterConfig)
      requires Valid()
      modifies this, wal
      ensures Valid() && State() == CommitConfig(old(State()), config)
    {
      hide WAL.Valid, ProposeSecondPhase, ApplyConfig, DisconnectRemoved, Spec.TransitionToFollower, ContainsNode;
      if config.joint {
        if state == Leader {
          ProposeSecondPhaseConfig(config);
        }
        ApplyConfigEntry(config);
      } else {
        ApplyConfigEntry(config);
        pendingConfig := false;
        configChangeIndex := 0;
        DisconnectRemovedPeers();
        if state == Leader && !ContainsNode(config, id) {
          TransitionToFollower(currentTerm);
        }
      }
    }

    method ApplyEntry()
      requires Valid() && lastApplied < commitIndex
      modifies this, wal
      ensures Valid() && State() == ApplyNext(old(State()))
    {
      hide WAL.Valid, CommitConfig, ApplyCommand, GetEntry;
      lastApplied := lastApplied + 1;
      var entry := EntryAt(lastApplied);
      if entry.Some? {
        ApplyPayloadOf(entry.value);
      }
    }

    method ApplyPayloadOf(e: Entry)
      requires Valid()
      modifies this, wal
      ensures var s := old(State());
        Valid() && State() == match e.payload
          case Noop => s
          case Op(cmd) => s.(store := ApplyCommand(s.store, cmd))
          case Change(config) => CommitConfig(s, config)
    {
      hide WAL.Valid, CommitConfig, ApplyCommand;
      match e.payload {
        case Noop =>
        case Op(cmd) => ApplyCommandBytes(cmd);
        case Change(config) => CommitConfigEntry(config);
      }
    }

    method ApplyLogs()
      requires Valid()
      modifies this, wal
      ensures Valid() && State() == Spec.ApplyLogs(old(State()))
    {
      hide WAL.Valid, ApplyNext, Spec.TakeSnapshot, CompleteProposals;
      while lastApplied < commitIndex
        invariant Valid() && ApplyAll(State()) == ApplyAll(old(State()))
        decreases commitIndex - lastApplied
      {
        ApplyEntry();
      }
      if snapshotThreshold > 0 && LastIndex() - lastIncludedIndex > snapshotThreshold {
        TakeSnapshot();
      }
      CompleteDue();
    }

    /** Splits the queue at the commit index. */
    method SplitProposals() returns (sent: seq<Answer>, remaining: seq<Proposal>)
      ensures sent == Due(State(), proposals) && remaining == Waiting(State(), proposals)
    {
      sent, remaining := [], [];
      var i := 0;
      while i < |proposals|
        invariant i <= |proposals|
        invariant sent + Due(State(), proposals[i..]) == Due(State(), proposals)
        invariant remaining + Waiting(State(), proposals[i..]) == Waiting(State(), proposals)
      {
        var p := proposals[i];
        assert proposals[i..][1..] == proposals[i + 1..];
        if p.index <= commitIndex {
          var term := TermOf(p.index);
          sent := sent + [Answer(p.id, p.term == term)];
        } else {
          remaining := remaining + [p];
        }
        i := i + 1;
      }
    }

    method CompleteDue()
      requires Valid()
      modifies this
      ensures Valid() && State() == CompleteProposals(old(State()))
    {
      hide WAL.Valid, Due, Waiting;
      var sent, remaining := SplitProposals();
      answers := answers + sent;
      proposals := remaining;
    }

    // --------------------------------------------------------------- snapshots

    /** Replaces everything up to `index` by a mark. */
    method CutLog(index: nat, term: nat, rest: seq<Entry>)
      modifies `lastIncludedIndex, `lastIncludedTerm, `log
      ensures State() == old(State()).(lastIncludedIndex := index, lastIncludedTerm := term, log := rest)
    {
      lastIncludedIndex := index;
      lastIncludedTerm := term;
      log := rest;
    }

    method RestartJournal()
      requires Valid()
      modifies wal
      ensures Valid() && State() == old(State()).(wal := [Record.State(currentTerm, votedFor)])
    {
      wal.Reset();
      wal.AppendState(currentTerm, votedFor);
    }

    method TakeSnapshot()
      requires Valid()
      modifies this, wal
      ensures Valid() && State() == Spec.TakeSnapshot(old(State()))
    {
      hide WAL.Valid, Retained;
      var term := TermOf(commitIndex);
      var snap := Snapshot(commitIndex, term, Store(kv, dedupTable), Some(currentConfig));
      snapshotFile := Some(snap);
      var newLog := EntriesFrom(commitIndex + 1);
      assert newLog == Retained(old(State()), commitIndex + 1) by {
        SameRetained(State(), old(State()), commitIndex + 1);
      }
      CutLog(snap.index, snap.term, newLog);
      RestartJournal();
    }

    method LoadSnapshot(snap: Snapshot)
      modifies `kv, `dedupTable, `currentConfig
      ensures State() == old(State()).(store := snap.store, config := match snap.config case Some(c) => c case None => old(currentConfig))
    {
      kv := snap.store.kv;
      dedupTable := snap.store.seen;
      if snap.config.Some? {
        currentConfig := snap.config.value;
      }
    }

    method RaiseIndices(index: nat)
      modifies `commitIndex, `lastApplied
      ensures State() == old(State()).(
        commitIndex := if old(commitIndex) < index then index else old(commitIndex),
        lastApplied := if old(lastApplied) < index then index else old(lastApplied))
    {
      if commitIndex < index {
        commitIndex := index;
      }
      if lastApplied < index {
        lastApplied := index;
      }
    }

    method RestoreSnapshot(snap: Snapshot)
      requires Valid()
      modifies this, wal
      ensures Valid() && State() == Spec.RestoreSnapshot(old(State()), snap)
    {
      hide WAL.Valid, Retained;
      snapshotFile := Some(snap);
      LoadSnapshot(snap);
      var newLog := EntriesFrom(snap.index + 1);
      assert newLog == Retained(old(State()), snap.index + 1) by {
        SameRetained(State(), old(State()), snap.index + 1);
      }
      CutLog(snap.index, snap.term, newLog);
      RaiseIndices(snap.index);
      RestartJournal();
    }

    /** A chunk that does not continue the buffer is dropped. */
    method TakeChunk(offset: nat, data: seq<byte>)
      modifies `snapshotBuf
      ensures State() == old(State()).(snapshotBuf := Collected(old(snapshotBuf), offset, data))
    {
      if offset == 0 {
        snapshotBuf := [];
      }
      if offset == |snapshotBuf| {
        snapshotBuf := snapshotBuf + data;
      }
    }

    method ProcessInstallSnapshot(req: SnapshotRequest, decode: seq<byte> -> Option<Snapshot>) returns (term: nat)
      requires Valid()
      modifies this, wal
      ensures Valid() && State() == Spec.ProcessInstallSnapshot(old(State()), req, decode)
      ensures term == currentTerm
    {
      hide WAL.Valid, Spec.RestoreSnapshot, Spec.AdoptLeader, Collected;
      if req.term < currentTerm {
        return currentTerm;
      }
      AdoptLeader(req.term, req.leader);
      TakeChunk(req.offset, req.data);
      if req.done {
        var snap := decode(snapshotBuf);
        if snap.Some? {
          RestoreSnapshot(snap.value);
        }
        snapshotBuf := [];
      }
      return currentTerm;
    }

    method ProcessInstallSnapshotResponse(peer: NodeId, term: nat)
      requires Valid()
      modifies this
      ensures Valid() && State() == Spec.ProcessInstallSnapshotResponse(old(State()), peer, term)
    {
      if term > currentTerm {
        TransitionToFollower(term);
        return;
      }
      if state == Leader && term == currentTerm {
        matchIndex := matchIndex[peer := lastIncludedIndex];
        nextIndex := nextIndex[peer := lastIncludedIndex + 1];
      }
    }

    // ------------------------------------------------------------- replication

    method AppendBatch(entries: seq<Entry>)
      requires Valid()
      modifies `log, wal
      ensures Valid() && State() == MergeEntries(old(State()), entries)
    {
      var i := 0;
      while i < |entries|
        invariant i <= |entries| && Valid()
        invariant MergeEntries(State(), entries[i..]) == MergeEntries(old(State()), entries)
        modifies `log, wal
      {
        assert entries[i..][1..] == entries[i + 1..];
        TakeEntry(entries[i]);
        i := i + 1;
      }
    }

    method TakeEntry(e: Entry)
      requires Valid()
      modifies `log, wal
      ensures Valid() && State() == MergeOne(old(State()), e)
    {
      hide WAL.Valid;
      if e.index <= lastIncludedIndex {
        return;
      }
      if e.index <= LastIndex() {
        var existing := EntryAt(e.index);
        if existing.Some? && existing.value.term != e.term {
          CutFrom(e.index);
          AddEntry(e);
        }
      } else {
        AddEntry(e);
      }
    }

    /** Drops the entries from `index` on, and says so in the journal. */
    method CutFrom(index: nat)
      requires Valid() && lastIncludedIndex < index <= lastIncludedIndex + 1 + |log|
      modifies `log, wal
      ensures Valid()
      ensures var s := old(State());
        State() == s.(log := s.log[..index - s.lastIncludedIndex - 1], wal := s.wal + [Truncate(index)])
    {
      hide WAL.Valid;
      log := log[..index - lastIncludedIndex - 1];
      wal.AppendTruncate(index);
    }

    method AdvanceFollower(leaderCommit: nat)
      requires Valid()
      modifies this, wal
      ensures Valid() && State() == Spec.AdvanceFollower(old(State()), leaderCommit)
    {
      hide WAL.Valid, Spec.ApplyLogs;
      if leaderCommit > commitIndex {
        commitIndex := leaderCommit;
        if commitIndex > LastIndex() {
          commitIndex := LastIndex();
        }
        ApplyLogs();
      }
    }

    method ProcessAppendEntries(req: AppendRequest) returns (resp: AppendResponse)
      requires Valid()
      modifies this, wal
      ensures Valid() && (State(), resp) == Spec.ProcessAppendEntries(old(State()), req)
    {
      hide WAL.Valid, MergeEntries, Spec.AdvanceFollower, EntryTerm, Spec.AdoptLeader;
      if req.term < currentTerm {
        return AppendResponse(currentTerm, false, 0);
      }
      AdoptLeader(req.term, req.leader);
      if req.prevLogIndex > LastIndex() {
        return AppendResponse(currentTerm, false, LastIndex());
      }
      if req.prevLogIndex >= lastIncludedIndex {
        var prevTerm := TermOf(req.prevLogIndex);
        if prevTerm != req.prevLogTerm {
          return AppendResponse(currentTerm, false, req.prevLogIndex - 1);
        }
      }
      AppendBatch(req.entries);
      AdvanceFollower(req.leaderCommit);
      return AppendResponse(currentTerm, true, LastIndex());
    }

    /** Counts the peers known to hold entry `n`, and the leader itself. */
    method CheckCommitMajority(n: nat) returns (ok: bool)
      ensures ok == Spec.CheckCommitMajority(State(), n)
    {
      var voters := {id};
      var todo := matchIndex.Keys;
      while todo != {}
        invariant todo <= matchIndex.Keys
        invariant voters == {id} + set p | p in matchIndex.Keys - todo && matchIndex[p] >= n
        decreases todo
      {
        var p :| p in todo;
        if matchIndex[p] >= n {
          voters := voters + {p};
        }
        todo := todo - {p};
      }
      assert voters == {id} + set p | p in matchIndex && matchIndex[p] >= n;
      ok := ComputeMajority(currentConfig, id, voters);
    }

    method ProcessAppendEntriesResponse(peer: NodeId, resp: AppendResponse)
      requires Valid()
      modifies this, wal
      ensures Valid() && State() == Spec.ProcessAppendEntriesResponse(old(State()), peer, resp)
    {
      hide WAL.Valid, AdvanceLeader, Spec.TransitionToFollower;
      if resp.term > currentTerm {
        TransitionToFollower(resp.term);
        return;
      }
      if state == Leader && resp.term == currentTerm {
        if resp.success {
          matchIndex := matchIndex[peer := resp.matchIndex];
          nextIndex := nextIndex[peer := resp.matchIndex + 1];
          AdvanceCommit();
        } else {
          nextIndex := nextIndex[peer := resp.matchIndex + 1];
          if nextIndex[peer] < 1 {
            nextIndex := nextIndex[peer := 1];
          }
        }
      }
    }

    /** Tries the commit rule at every index above the commit index. */
    method AdvanceCommit()
      requires Valid()
      modifies this, wal
      ensures Valid() && State() == AdvanceLeader(old(State()), old(commitIndex) + 1, LastLogIndex(old(State())))
    {
      hide WAL.Valid, Spec.ApplyLogs, Spec.CheckCommitMajority, EntryTerm;
      var last := LastIndex();
      var n := commitIndex + 1;
      while n <= last
        invariant Valid()
        invariant AdvanceLeader(State(), n, last) == AdvanceLeader(old(State()), old(commitIndex) + 1, last)
        decreases last + 1 - n
      {
        var term := TermOf(n);
        if term == currentTerm {
          var ok := CheckCommitMajority(n);
          if ok {
            commitIndex := n;
            ApplyLogs();
          }
        }
        n := n + 1;
      }
    }

    /** The batch for one peer, or nothing if the peer needs a snapshot. */
    method ReplicateToPeer(peer: NodeId) returns (req: Option<AppendRequest>)
      ensures req == if CanReplicate(State(), peer) then Some(ReplicateTo(State(), peer)) else None
    {
      if state != Leader {
        return None;
      }
      var peers := AllNodeGRPC(currentConfig, id);
      if peer !in peers || peer !in nextIndex || nextIndex[peer] <= lastIncludedIndex {
        return None;
      }
      var prev := nextIndex[peer] - 1;
      var prevTerm := TermOf(prev);
      var entries := EntriesFrom(prev + 1);
      return Some(AppendRequest(currentTerm, id, prev, prevTerm, entries, commitIndex));
    }

    // ------------------------------------------------------------------ clients

    /** Queues a request until its entry is committed. */
    method Await(e: Entry, request: nat)
      modifies `proposals
      ensures State() == old(State()).(proposals := old(State()).proposals + [Proposal(e.index, e.term, request)])
    {
      proposals := proposals + [Proposal(e.index, e.term, request)];
    }

    method Refuse(request: nat)
      modifies `answers
      ensures State() == old(State()).(answers := old(State()).answers + [Answer(request, false)])
    {
      answers := answers + [Answer(request, false)];
    }

    method CommitIfAlone(n: nat)
      requires Valid()
      modifies this, wal
      ensures Valid()
      ensures var s := old(State());
        State() == if Peers(s) == {} && Spec.CheckCommitMajority(s, n) then Spec.ApplyLogs(s.(commitIndex := n)) else s
    {
      hide WAL.Valid, Spec.ApplyLogs, Spec.CheckCommitMajority;
      var peers := AllNodeGRPC(currentConfig, id);
      if |peers| == 0 {
        var ok := CheckCommitMajority(n);
        if ok {
          commitIndex := n;
          ApplyLogs();
        }
      }
    }

    method HandleClientCommand(request: nat, cmd: Command)
      requires Valid()
      modifies this, wal
      ensures Valid() && State() == Spec.HandleClientCommand(old(State()), request, cmd)
    {
      hide WAL.Valid, Spec.ApplyLogs, Spec.CheckCommitMajority, Peers;
      if state != Leader {
        Refuse(request);
        return;
      }
      var e := AppendOwn(Op(cmd));
      Await(e, request);
      CommitIfAlone(e.index);
    }

    method AddPeers(peers: set<NodeId>, last: nat)
      modifies `grpcPeers, `nextIndex, `matchIndex
      ensures grpcPeers == old(grpcPeers) + (peers - old(grpcPeers))
      ensures nextIndex == SetAll(old(nextIndex), peers - old(grpcPeers), last + 1)
      ensures matchIndex == SetAll(old(matchIndex), peers - old(grpcPeers), 0)
    {
      var todo := peers;
      ghost var added := peers - grpcPeers;
      assert added - todo == {} && added - {} == added;
      while todo != {}
        invariant todo <= peers
        invariant grpcPeers == old(grpcPeers) + (added - todo)
        invariant nextIndex == SetAll(old(nextIndex), added - todo, last + 1)
        invariant matchIndex == SetAll(old(matchIndex), added - todo, 0)
        decreases todo
      {
        hide SetAll;
        var p :| p in todo;
        if p !in grpcPeers {
          SetAllNext(old(nextIndex), added - todo, p, last + 1);
          SetAllNext(old(matchIndex), added - todo, p, 0);
          assert added - (todo - {p}) == (added - todo) + {p};
          grpcPeers := grpcPeers + {p};
          nextIndex := nextIndex[p := last + 1];
          matchIndex := matchIndex[p := 0];
        } else {
          assert added - (todo - {p}) == added - todo;
        }
        todo := todo - {p};
      }
    }

    method ConnectToNewPeers()
      requires Valid()
      modifies this
      ensures Valid() && State() == ConnectNew(old(State()))
    {
      hide WAL.Valid, SetAll;
      var peers := AllNodeGRPC(currentConfig, id);
      AddPeers(peers.Keys, LastIndex());
    }

    method MarkPending(index: nat)
      modifies `pendingConfig, `configChangeIndex
      ensures State() == old(State()).(pendingConfig := true, configChangeIndex := index)
    {
      pendingConfig := true;
      configChangeIndex := index;
    }

    method HandleConfigChange(request: nat, change: ConfigChange)
      requires Valid()
      modifies this, wal
      ensures Valid() && State() == Spec.HandleConfigChange(old(State()), request, change)
    {
      hide WAL.Valid, ConnectNew, BuildJoint, ApplyConfig;
      if state != Leader || pendingConfig {
        Refuse(request);
        return;
      }
      var built := BuildJoint(currentConfig, id, change);
      if built.Refused? {
        Refuse(request);
        return;
      }
      var e := AppendOwn(Change(built.config));
      MarkPending(e.index);
      ApplyConfigEntry(built.config);
      ConnectToNewPeers();
      Await(e, request);
    }

    // ------------------------------------------------------------------ startup

    constructor (id: NodeId, grpcPeers: map<NodeId, string>, wal: WAL, snapshotThreshold: nat, snapshotFile: Option<Snapshot>)
      requires wal.Valid()
      ensures Valid() && this.wal == wal
      ensures State() == Fresh(id, FromPeers(grpcPeers, map[], id), snapshotThreshold).(wal := wal.records, disk := snapshotFile)
    {
      this.id := id;
      this.wal := wal;
      this.snapshotThreshold := snapshotThreshold;
      this.snapshotFile := snapshotFile;
      state, currentTerm, votedFor, votesReceived := Follower, 0, None, {};
      log, lastIncludedIndex, lastIncludedTerm, commitIndex, lastApplied := [], 0, 0, 0, 0;
      nextIndex, matchIndex, this.grpcPeers := map[], map[], {};
      kv, dedupTable := map[], map[];
      currentConfig, pendingConfig, configChangeIndex, isJoining := FromPeers(grpcPeers, map[], id), false, 0, false;
      proposals, answers, snapshotBuf := [], [], [];
    }

    method LoadJournal(r: Replayed)
      requires log == []
      modifies `currentTerm, `votedFor, `log
      ensures State() == old(State()).(
        term := if r.term > 0 then r.term else old(currentTerm), votedFor := if r.term > 0 then r.vote else old(votedFor),
        log := After(r.entries, lastIncludedIndex))
    {
      if r.term > 0 {
        currentTerm := r.term;
        votedFor := r.vote;
      }
      LoadEntries(r.entries);
    }

    method LoadEntries(entries: seq<Entry>)
      requires log == []
      modifies `log
      ensures log == After(entries, lastIncludedIndex)
    {
      var kept := log;
      var i := 0;
      while i < |entries|
        invariant i <= |entries|
        invariant kept + After(entries[i..], lastIncludedIndex) == After(entries, lastIncludedIndex)
      {
        assert entries[i..][1..] == entries[i + 1..];
        if entries[i].index > lastIncludedIndex {
          kept := kept + [entries[i]];
        }
        i := i + 1;
      }
      log := kept;
    }

    /** Rebuilds the state of a new node from its snapshot file and its journal.  It fails exactly when
        the journal cannot be read; a journal whose records encode is always read. */
    method LoadState() returns (ok: bool)
      requires Valid()
      requires State() == Fresh(id, currentConfig, snapshotThreshold).(wal := wal.records, disk := snapshotFile)
      modifies this, wal
      ensures Valid() && ok == old(ReadAll(wal.codec, wal.file)).Read?
      ensures ok ==>
        State() == Spec.ApplyLogs(Recovered(id, old(currentConfig), snapshotThreshold, old(snapshotFile), old(wal.records),
                                            old(ReadAll(wal.codec, wal.file)).state))
      ensures AllEncode(wal.codec, old(wal.records)) ==>
        ok && State() == Spec.LoadState(id, old(currentConfig), snapshotThreshold, old(snapshotFile), old(wal.records))
    {
      hide WAL.Valid, Spec.ApplyLogs, After, Replay, ReadAll, AllEncode;
      if snapshotFile.Some? {
        LoadSnapshot(snapshotFile.value);
        CutLog(snapshotFile.value.index, snapshotFile.value.term, []);
        RaiseIndices(snapshotFile.value.index);
      }
      var outcome := wal.ReplayFile();
      if outcome.Failed? {
        return false;
      }
      LoadJournal(outcome.state);
      ApplyLogs();
      return true;
    }
  }
}
