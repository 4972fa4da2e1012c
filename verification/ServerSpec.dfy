/** What every handler of raft/raft.go does to a node's state.

    `Raft.dfy` proves the in-place code against these functions; `Cluster.dfy` runs them together. */
module ServerSpec {
  import opened Config
  import opened Log
  import opened Wal
  import opened KeyValue
  import opened Election

  datatype Proposal = Proposal(index: nat, term: nat, id: nat)

  /** What was sent on a request's response channel. */
  datatype Answer = Answer(id: nat, ok: bool)

  datatype Snapshot = Snapshot(index: nat, term: nat, store: Store, config: Option<ClusterConfig>)

  datatype Server = Server(
    id: NodeId,
    role: Role, term: nat, votedFor: Option<NodeId>, votes: set<NodeId>,
    log: seq<Entry>, lastIncludedIndex: nat, lastIncludedTerm: nat,
    commitIndex: nat, lastApplied: nat,
    nextIndex: map<NodeId, int>, matchIndex: map<NodeId, int>, connected: set<NodeId>,
    store: Store,
    config: ClusterConfig, pendingConfig: bool, configChangeIndex: nat, isJoining: bool,
    proposals: seq<Proposal>, answers: seq<Answer>,
    wal: seq<Record>, disk: Option<Snapshot>, threshold: nat, snapshotBuf: seq<byte>)

  datatype VoteRequest = VoteRequest(term: nat, candidate: NodeId, lastLogIndex: nat, lastLogTerm: nat)
  datatype VoteResponse = VoteResponse(term: nat, granted: bool)
  datatype AppendRequest = AppendRequest(term: nat, leader: NodeId, prevLogIndex: nat, prevLogTerm: nat,
                                         entries: seq<Entry>, leaderCommit: nat)
  datatype AppendResponse = AppendResponse(term: nat, success: bool, matchIndex: int)
  datatype SnapshotRequest = SnapshotRequest(term: nat, leader: NodeId, offset: nat, data: seq<byte>, done: bool)

  // -------------------------------------------------------- index translation

  function LastLogIndex(s: Server): nat {
    if s.log == [] then s.lastIncludedIndex else s.log[|s.log| - 1].index
  }

  function LastLogTerm(s: Server): nat {
    if s.log == [] then s.lastIncludedTerm else s.log[|s.log| - 1].term
  }

  function GetEntry(s: Server, index: nat): Option<Entry> {
    if index == s.lastIncludedIndex then Some(Entry(s.lastIncludedIndex, s.lastIncludedTerm, Noop))
    else if index < s.lastIncludedIndex then None
    else if index - s.lastIncludedIndex - 1 < |s.log| then Some(s.log[index - s.lastIncludedIndex - 1])
    else None
  }

  function EntryTerm(s: Server, index: nat): nat {
    match GetEntry(s, index)
    case Some(e) => e.term
    case None => 0
  }

  function Peers(s: Server): set<NodeId> {
    PeerIds(s.config, s.id)
  }

  // --------------------------------------------------------- role transitions

  function Refusals(ps: seq<Proposal>): seq<Answer> {
    seq(|ps|, i requires 0 <= i < |ps| => Answer(ps[i].id, false))
  }

  function TransitionToFollower(s: Server, term: nat): Server {
    s.(role := Follower, term := term, votedFor := None,
       answers := s.answers + Refusals(s.proposals), proposals := [])
  }

  /** Sets every key of `keys` to `v`. */
  function SetAll(m: map<NodeId, int>, keys: set<NodeId>, v: int): map<NodeId, int> {
    map p | p in m.Keys + keys :: if p in keys then v else m[p]
  }

  function TransitionToLeader(s: Server): Server {
    if s.role != Candidate then s
    else
      var last := LastLogIndex(s);
      var noop := Entry(last + 1, s.term, Noop);
      s.(role := Leader, connected := s.connected + Peers(s),
         nextIndex := SetAll(s.nextIndex, Peers(s), last + 1),
         matchIndex := SetAll(s.matchIndex, Peers(s), 0),
         log := s.log + [noop], wal := s.wal + [Append(noop)])
  }

  /** A candidate of the next term, with its own vote. */
  function Standing(s: Server): Server {
    s.(role := Candidate, term := s.term + 1, votedFor := Some(s.id), votes := {s.id},
       wal := s.wal + [State(s.term + 1, Some(s.id))])
  }

  function TransitionToCandidate(s: Server): Server {
    var s1 := Standing(s);
    if Peers(s1) == {} then TransitionToLeader(s1) else s1
  }

  // ------------------------------------------------------------------- votes

  predicate LogOk(s: Server, lastIndex: nat, lastTerm: nat) {
    lastTerm > LastLogTerm(s) || (lastTerm == LastLogTerm(s) && lastIndex >= LastLogIndex(s))
  }

  function ProcessRequestVote(s: Server, req: VoteRequest): (Server, VoteResponse) {
    if req.term < s.term || !ContainsNode(s.config, req.candidate) then (s, VoteResponse(s.term, false))
    else
      var s1 := if req.term > s.term then TransitionToFollower(s, req.term) else s;
      if (s1.votedFor == None || s1.votedFor == Some(req.candidate)) && LogOk(s1, req.lastLogIndex, req.lastLogTerm) then
        (s1.(votedFor := Some(req.candidate), wal := s1.wal + [State(s1.term, Some(req.candidate))]),
         VoteResponse(s1.term, true))
      else (s1, VoteResponse(s1.term, false))
  }

  function ProcessRequestVoteResponse(s: Server, peer: NodeId, resp: VoteResponse): Server {
    if resp.term > s.term then TransitionToFollower(s, resp.term)
    else if s.role == Candidate && resp.term == s.term && resp.granted then
      var s1 := s.(votes := s.votes + {peer});
      if HasMajority(s1.config, s1.id, s1.votes) then TransitionToLeader(s1) else s1
    else s
  }

  // ---------------------------------------------------------------- applying

  function ApplyConfig(s: Server, c: ClusterConfig): Server {
    s.(config := c, isJoining := !ContainsNode(c, s.id))
  }

  function ProposeSecondPhase(s: Server, joint: ClusterConfig): Server {
    var e := Entry(LastLogIndex(s) + 1, s.term, Change(BuildFinal(joint)));
    s.(log := s.log + [e], wal := s.wal + [Append(e)], configChangeIndex := e.index)
  }

  function DisconnectRemoved(s: Server): Server {
    var gone := s.connected - Peers(s);
    s.(connected := s.connected - gone, nextIndex := s.nextIndex - gone, matchIndex := s.matchIndex - gone)
  }

  function CommitConfig(s: Server, c: ClusterConfig): Server {
    if c.joint then
      ApplyConfig(if s.role == Leader then ProposeSecondPhase(s, c) else s, c)
    else
      var s1 := DisconnectRemoved(ApplyConfig(s, c).(pendingConfig := false, configChangeIndex := 0));
      if s1.role == Leader && !ContainsNode(c, s1.id) then TransitionToFollower(s1, s1.term) else s1
  }

  /** Applies the entry after `lastApplied`. */
  function ApplyNext(s: Server): (s': Server)
    requires s.lastApplied < s.commitIndex
    ensures s'.commitIndex == s.commitIndex && s'.lastApplied == s.lastApplied + 1
  {
    var s1 := s.(lastApplied := s.lastApplied + 1);
    match GetEntry(s1, s1.lastApplied)
    case None => s1
    case Some(e) =>
      match e.payload
      case Noop => s1
      case Op(cmd) => s1.(store := ApplyCommand(s1.store, cmd))
      case Change(c) => CommitConfig(s1, c)
  }

  function ApplyAll(s: Server): Server
    decreases if s.lastApplied < s.commitIndex then s.commitIndex - s.lastApplied else 0
  {
    if s.lastApplied < s.commitIndex then ApplyAll(ApplyNext(s)) else s
  }

  /** The entries from `from` to the end of the log that are still held. */
  function Retained(s: Server, from: nat): seq<Entry>
    decreases LastLogIndex(s) + 1 - from
  {
    if from > LastLogIndex(s) then []
    else
      (match GetEntry(s, from) case Some(e) => [e] case None => []) + Retained(s, from + 1)
  }

  /** What is retained depends on the log alone. */
  lemma {:induction false} SameRetained(s: Server, r: Server, from: nat)
    requires s.log == r.log && s.lastIncludedIndex == r.lastIncludedIndex && s.lastIncludedTerm == r.lastIncludedTerm
    ensures Retained(s, from) == Retained(r, from)
    decreases LastLogIndex(s) + 1 - from
  {
    if from <= LastLogIndex(s) {
      SameRetained(s, r, from + 1);
    }
  }

  function TakeSnapshot(s: Server): Server {
    var snap := Snapshot(s.commitIndex, EntryTerm(s, s.commitIndex), s.store, Some(s.config));
    s.(disk := Some(snap), log := Retained(s, s.commitIndex + 1),
       lastIncludedIndex := snap.index, lastIncludedTerm := snap.term,
       wal := [State(s.term, s.votedFor)])
  }

  /** The log has outgrown the snapshot threshold. */
  predicate Outgrown(s: Server) {
    s.threshold > 0 && LastLogIndex(s) as int - s.lastIncludedIndex > s.threshold
  }

  function Compact(s: Server): Server {
    if Outgrown(s) then TakeSnapshot(s) else s
  }

  /** Splits the queue: answers for what is committed, in queue order, and the rest. */
  function Due(s: Server, ps: seq<Proposal>): seq<Answer> {
    if ps == [] then []
    else
      (if ps[0].index <= s.commitIndex then [Answer(ps[0].id, ps[0].term == EntryTerm(s, ps[0].index))] else [])
      + Due(s, ps[1..])
  }

  function Waiting(s: Server, ps: seq<Proposal>): seq<Proposal> {
    if ps == [] then []
    else (if ps[0].index <= s.commitIndex then [] else [ps[0]]) + Waiting(s, ps[1..])
  }

  function CompleteProposals(s: Server): Server {
    s.(answers := s.answers + Due(s, s.proposals), proposals := Waiting(s, s.proposals))
  }

  function ApplyLogs(s: Server): Server {
    CompleteProposals(Compact(ApplyAll(s)))
  }

  // ------------------------------------------------------------- replication

  function MergeOne(s: Server, e: Entry): Server {
    if e.index <= s.lastIncludedIndex then s
    else if e.index <= LastLogIndex(s) then
      match GetEntry(s, e.index)
      case Some(mine) =>
        if mine.term != e.term then
          s.(log := s.log[..e.index - s.lastIncludedIndex - 1] + [e], wal := s.wal + [Truncate(e.index)] + [Append(e)])
        else s
      case None => s
    else s.(log := s.log + [e], wal := s.wal + [Append(e)])
  }

  function MergeEntries(s: Server, entries: seq<Entry>): Server
    decreases |entries|
  {
    if entries == [] then s else MergeEntries(MergeOne(s, entries[0]), entries[1..])
  }

  function AdvanceFollower(s: Server, leaderCommit: nat): Server {
    if leaderCommit > s.commitIndex then
      ApplyLogs(s.(commitIndex := if leaderCommit > LastLogIndex(s) then LastLogIndex(s) else leaderCommit))
    else s
  }

  /** The follower a current leader's message leaves behind: never a candidate, and voting for it. */
  function AdoptLeader(s: Server, term: nat, leader: NodeId): Server {
    var s1 := if term > s.term then TransitionToFollower(s, term) else s;
    var s2 := if s1.role == Candidate then TransitionToFollower(s1, term) else s1;
    s2.(votedFor := Some(leader))
  }

  function ProcessAppendEntries(s: Server, req: AppendRequest): (Server, AppendResponse) {
    if req.term < s.term then (s, AppendResponse(s.term, false, 0))
    else
      var s1 := AdoptLeader(s, req.term, req.leader);
      if req.prevLogIndex > LastLogIndex(s1) then (s1, AppendResponse(s1.term, false, LastLogIndex(s1)))
      else if req.prevLogIndex >= s1.lastIncludedIndex && EntryTerm(s1, req.prevLogIndex) != req.prevLogTerm then
        (s1, AppendResponse(s1.term, false, req.prevLogIndex - 1))
      else
        var s2 := AdvanceFollower(MergeEntries(s1, req.entries), req.leaderCommit);
        (s2, AppendResponse(s2.term, true, LastLogIndex(s2)))
  }

  predicate CheckCommitMajority(s: Server, n: nat) {
    HasMajority(s.config, s.id, {s.id} + set p | p in s.matchIndex && s.matchIndex[p] >= n)
  }

  /** The leader's commit rule, tried at every index from `n` to `last`. */
  function AdvanceLeader(s: Server, n: nat, last: nat): Server
    decreases last + 1 - n
  {
    if n > last then s
    else if EntryTerm(s, n) == s.term && CheckCommitMajority(s, n) then
      AdvanceLeader(ApplyLogs(s.(commitIndex := n)), n + 1, last)
    else AdvanceLeader(s, n + 1, last)
  }

  function ProcessAppendEntriesResponse(s: Server, peer: NodeId, resp: AppendResponse): Server {
    if resp.term > s.term then TransitionToFollower(s, resp.term)
    else if s.role == Leader && resp.term == s.term then
      if resp.success then
        var s1 := s.(matchIndex := s.matchIndex[peer := resp.matchIndex], nextIndex := s.nextIndex[peer := resp.matchIndex + 1]);
        AdvanceLeader(s1, s1.commitIndex + 1, LastLogIndex(s1))
      else s.(nextIndex := s.nextIndex[peer := if resp.matchIndex + 1 < 1 then 1 else resp.matchIndex + 1])
    else s
  }

  /** What `replicateToPeer` sends, when the peer's next entry is still in the log. */
  function Batch(s: Server, from: nat): seq<Entry> {
    Retained(s, from)
  }

  predicate CanReplicate(s: Server, peer: NodeId) {
    s.role == Leader && peer in Peers(s) && peer in s.nextIndex && s.nextIndex[peer] > s.lastIncludedIndex
  }

  function ReplicateTo(s: Server, peer: NodeId): AppendRequest
    requires CanReplicate(s, peer)
  {
    var prev := s.nextIndex[peer] - 1;
    AppendRequest(s.term, s.id, prev, EntryTerm(s, prev), Batch(s, prev + 1), s.commitIndex)
  }

  /** The empty AppendEntries that `confirmLeaderQuorum` sends for a read. */
  function ReadProbe(s: Server): AppendRequest {
    AppendRequest(s.term, s.id, LastLogIndex(s), LastLogTerm(s), [], s.commitIndex)
  }

  // ------------------------------------------------------------------ clients

  function HandleClientCommand(s: Server, id: nat, cmd: Command): Server {
    if s.role != Leader then s.(answers := s.answers + [Answer(id, false)])
    else
      var e := Entry(LastLogIndex(s) + 1, s.term, Op(cmd));
      var s1 := s.(log := s.log + [e], wal := s.wal + [Append(e)],
                   proposals := s.proposals + [Proposal(e.index, e.term, id)]);
      if Peers(s1) == {} && CheckCommitMajority(s1, e.index) then ApplyLogs(s1.(commitIndex := e.index)) else s1
  }

  function ConnectNew(s: Server): Server {
    var added := Peers(s) - s.connected;
    s.(connected := s.connected + added,
       nextIndex := SetAll(s.nextIndex, added, LastLogIndex(s) + 1),
       matchIndex := SetAll(s.matchIndex, added, 0))
  }

  function HandleConfigChange(s: Server, id: nat, change: ConfigChange): Server {
    if s.role != Leader || s.pendingConfig then s.(answers := s.answers + [Answer(id, false)])
    else
      match BuildJoint(s.config, s.id, change)
      case Refused => s.(answers := s.answers + [Answer(id, false)])
      case Joint(c) =>
        var e := Entry(LastLogIndex(s) + 1, s.term, Change(c));
        var s1 := s.(log := s.log + [e], wal := s.wal + [Append(e)], pendingConfig := true, configChangeIndex := e.index);
        var s2 := ConnectNew(ApplyConfig(s1, c));
        s2.(proposals := s2.proposals + [Proposal(e.index, e.term, id)])
  }

  // ---------------------------------------------------------------- snapshots

  function RestoreSnapshot(s: Server, snap: Snapshot): Server {
    var config := match snap.config case Some(c) => c case None => s.config;
    s.(disk := Some(snap), store := snap.store, config := config,
       log := Retained(s, snap.index + 1), lastIncludedIndex := snap.index, lastIncludedTerm := snap.term,
       commitIndex := if s.commitIndex < snap.index then snap.index else s.commitIndex,
       lastApplied := if s.lastApplied < snap.index then snap.index else s.lastApplied,
       wal := [State(s.term, s.votedFor)])
  }

  /** The buffer after a chunk: offset 0 starts over, and only a chunk that continues it is kept. */
  function Collected(buf: seq<byte>, offset: nat, data: seq<byte>): seq<byte> {
    var kept := if offset == 0 then [] else buf;
    if offset == |kept| then kept + data else kept
  }

  /** Collects a chunk; `decode` is the snapshot's JSON form. */
  function ProcessInstallSnapshot(s: Server, req: SnapshotRequest, decode: seq<byte> -> Option<Snapshot>): Server {
    if req.term < s.term then s
    else
      var s1 := AdoptLeader(s, req.term, req.leader);
      var s2 := s1.(snapshotBuf := Collected(s1.snapshotBuf, req.offset, req.data));
      if !req.done then s2
      else
        match decode(s2.snapshotBuf)
        case Some(snap) => RestoreSnapshot(s2, snap).(snapshotBuf := [])
        case None => s2.(snapshotBuf := [])
  }

  function ProcessInstallSnapshotResponse(s: Server, peer: NodeId, term: nat): Server {
    if term > s.term then TransitionToFollower(s, term)
    else if s.role == Leader && term == s.term then
      s.(matchIndex := s.matchIndex[peer := s.lastIncludedIndex], nextIndex := s.nextIndex[peer := s.lastIncludedIndex + 1])
    else s
  }

  // ------------------------------------------------------------------ startup

  function Fresh(id: NodeId, config: ClusterConfig, threshold: nat): Server {
    Server(id, Follower, 0, None, {}, [], 0, 0, 0, 0, map[], map[], {}, EmptyStore(),
           config, false, 0, false, [], [], [], None, threshold, [])
  }

  function After(entries: seq<Entry>, index: nat): seq<Entry> {
    if entries == [] then []
    else (if entries[0].index > index then [entries[0]] else []) + After(entries[1..], index)
  }

  /** What a node reads back, before it applies anything: its snapshot, if any, and its journal. */
  function Recovered(id: NodeId, config: ClusterConfig, threshold: nat, disk: Option<Snapshot>, wal: seq<Record>,
                     r: Replayed): Server {
    var s0 := Fresh(id, config, threshold).(disk := disk, wal := wal);
    var s1 := match disk
      case None => s0
      case Some(snap) =>
        s0.(store := snap.store, lastIncludedIndex := snap.index, lastIncludedTerm := snap.term,
            commitIndex := snap.index, lastApplied := snap.index,
            config := match snap.config case Some(c) => c case None => config);
    var s2 := if r.term > 0 then s1.(term := r.term, votedFor := r.vote) else s1;
    s2.(log := After(r.entries, s2.lastIncludedIndex))
  }

  /** A node started from what is on disk. */
  function LoadState(id: NodeId, config: ClusterConfig, threshold: nat, disk: Option<Snapshot>, wal: seq<Record>): Server {
    ApplyLogs(Recovered(id, config, threshold, disk, wal, Replay(wal)))
  }
}
