/** Sending a snapshot in chunks, and collecting the chunks in whatever order they arrive. */
module SnapshotTransfer {
  import opened Config
  import opened Wal
  import opened Election
  import opened ServerSpec

  const CHUNK := 65536

  datatype Chunk = Chunk(offset: nat, data: seq<byte>, done: bool)

  /** The pieces of `data` from `offset` on: each full, except possibly the last, which says so. */
  function ChunksFrom(data: seq<byte>, offset: nat): (chunks: seq<Chunk>)
    requires offset <= |data|
    ensures |chunks| >= 1
    decreases |data| - offset
  {
    if offset + CHUNK >= |data| then [Chunk(offset, data[offset..], true)]
    else [Chunk(offset, data[offset..offset + CHUNK], false)] + ChunksFrom(data, offset + CHUNK)
  }

  function Chunks(data: seq<byte>): seq<Chunk> {
    ChunksFrom(data, 0)
  }

  /** The sending loop. */
  method SendSnapshot(data: seq<byte>) returns (sent: seq<Chunk>)
    ensures sent == Chunks(data)
  {
    sent := [];
    var offset := 0;
    while true
      invariant offset <= |data|
      invariant sent + ChunksFrom(data, offset) == Chunks(data)
      decreases |data| - offset
    {
      var end := offset + CHUNK;
      var done := false;
      if end >= |data| {
        end := |data|;
        done := true;
        assert data[offset..end] == data[offset..];
      }
      ghost var before := sent;
      sent := sent + [Chunk(offset, data[offset..end], done)];
      if done {
        assert sent == before + ChunksFrom(data, offset);
        break;
      }
      assert before + ChunksFrom(data, offset) == sent + ChunksFrom(data, end);
      offset := end;
    }
  }

  // ------------------------------------------------------------ what is sent

  /** The `k`-th chunk starts where `k` full chunks end, and only the last is marked. */
  lemma {:induction false} ChunkAt(data: seq<byte>, offset: nat, k: nat)
    requires offset <= |data| && k < |ChunksFrom(data, offset)|
    ensures var c := ChunksFrom(data, offset)[k];
      && c.offset == offset + k * CHUNK <= |data|
      && c.done == (k == |ChunksFrom(data, offset)| - 1) == (c.offset + CHUNK >= |data|)
      && c.data == data[c.offset..if c.done then |data| else c.offset + CHUNK]
    decreases k
  {
    if offset + CHUNK < |data| && k > 0 {
      ChunkAt(data, offset + CHUNK, k - 1);
    }
  }

  lemma {:induction false} EnoughChunks(data: seq<byte>, offset: nat, i: nat)
    requires offset <= i < |data|
    ensures (i - offset) / CHUNK < |ChunksFrom(data, offset)|
    decreases i - offset
  {
    if offset + CHUNK < |data| && i >= offset + CHUNK {
      EnoughChunks(data, offset + CHUNK, i);
    }
  }

  predicate Carries(c: Chunk, i: nat) {
    c.offset <= i < c.offset + |c.data|
  }

  /** Every byte is in exactly one chunk, and is carried there unchanged. */
  lemma EachByteOnce(data: seq<byte>, i: nat, k: nat)
    requires i < |data| && k < |Chunks(data)|
    ensures Carries(Chunks(data)[k], i) <==> k == i / CHUNK
    ensures Carries(Chunks(data)[k], i) ==> Chunks(data)[k].data[i - Chunks(data)[k].offset] == data[i]
    ensures i / CHUNK < |Chunks(data)|
  {
    ChunkAt(data, 0, k);
    EnoughChunks(data, 0, i);
    var c := Chunks(data)[k];
    if c.done && i >= c.offset {
      ChunkAt(data, 0, i / CHUNK);
    }
  }

  // ---------------------------------------------------------- what is received

  /** The buffer after a chunk; the final one hands it over and clears it. */
  function Received(buf: seq<byte>, c: Chunk): seq<byte> {
    if c.done then [] else Collected(buf, c.offset, c.data)
  }

  /** The buffer after the chunks numbered by `picks`, in that order. */
  function ReceivedFrom(buf: seq<byte>, data: seq<byte>, picks: seq<nat>): seq<byte>
    requires forall j :: 0 <= j < |picks| ==> picks[j] < |Chunks(data)|
  {
    if picks == [] then buf
    else Received(ReceivedFrom(buf, data, picks[..|picks| - 1]), Chunks(data)[picks[|picks| - 1]])
  }

  function ReceivedAll(data: seq<byte>, picks: seq<nat>): seq<byte>
    requires forall j :: 0 <= j < |picks| ==> picks[j] < |Chunks(data)|
  {
    ReceivedFrom([], data, picks)
  }

  /** The message that carries chunk `k`. */
  function Request(term: nat, leader: NodeId, data: seq<byte>, k: nat): SnapshotRequest
    requires k < |Chunks(data)|
  {
    var c := Chunks(data)[k];
    SnapshotRequest(term, leader, c.offset, c.data, c.done)
  }

  /** The node after one leader's chunks numbered by `picks`, in that order. */
  function Deliver(s: Server, term: nat, leader: NodeId, data: seq<byte>, picks: seq<nat>, decode: seq<byte> -> Option<Snapshot>): Server
    requires forall j :: 0 <= j < |picks| ==> picks[j] < |Chunks(data)|
  {
    if picks == [] then s
    else
      ProcessInstallSnapshot(Deliver(s, term, leader, data, picks[..|picks| - 1], decode),
                             Request(term, leader, data, picks[|picks| - 1]), decode)
  }

  /** A chunk that is not the last only adopts the leader and is collected. */
  lemma Collects(s: Server, req: SnapshotRequest, decode: seq<byte> -> Option<Snapshot>)
    requires req.term >= s.term && !req.done
    ensures ProcessInstallSnapshot(s, req, decode)
      == AdoptLeader(s, req.term, req.leader).(snapshotBuf := Collected(s.snapshotBuf, req.offset, req.data))
  {
    hide Refusals;
  }

  /** The last chunk restores what the buffer decodes to, if it does, and clears the buffer. */
  lemma Completes(s: Server, req: SnapshotRequest, decode: seq<byte> -> Option<Snapshot>)
    requires req.term >= s.term && req.done
    ensures var buf := Collected(s.snapshotBuf, req.offset, req.data);
      var s1 := AdoptLeader(s, req.term, req.leader).(snapshotBuf := buf);
      ProcessInstallSnapshot(s, req, decode)
      == (match decode(buf) case Some(snap) => RestoreSnapshot(s1, snap) case None => s1).(snapshotBuf := [])
  {
    hide Refusals, RestoreSnapshot;
  }

  lemma RestoreKeepsTerm(s: Server, snap: Snapshot)
    ensures RestoreSnapshot(s, snap).term == s.term
  {
  }

  lemma AdoptedTerm(s: Server, term: nat, leader: NodeId)
    requires term >= s.term
    ensures AdoptLeader(s, term, leader).term == term && AdoptLeader(s, term, leader).snapshotBuf == s.snapshotBuf
  {
  }

  lemma HandlerReceives(s: Server, req: SnapshotRequest, decode: seq<byte> -> Option<Snapshot>)
    requires req.term >= s.term
    ensures var s' := ProcessInstallSnapshot(s, req, decode);
      s'.snapshotBuf == Received(s.snapshotBuf, Chunk(req.offset, req.data, req.done)) && s'.term == req.term
  {
    hide ProcessInstallSnapshot, RestoreSnapshot, AdoptLeader;
    AdoptedTerm(s, req.term, req.leader);
    if req.done {
      Completes(s, req, decode);
      var s1 := AdoptLeader(s, req.term, req.leader).(snapshotBuf := Collected(s.snapshotBuf, req.offset, req.data));
      if decode(s1.snapshotBuf).Some? {
        RestoreKeepsTerm(s1, decode(s1.snapshotBuf).value);
      }
    } else {
      Collects(s, req, decode);
    }
  }

  /** The handler keeps exactly this buffer, whatever is lost, repeated or out of order, and whatever
      is installed on the way. */
  lemma {:induction false} BufferIsReceived(s: Server, term: nat, leader: NodeId, data: seq<byte>, picks: seq<nat>,
                                            decode: seq<byte> -> Option<Snapshot>)
    requires forall j :: 0 <= j < |picks| ==> picks[j] < |Chunks(data)|
    requires term >= s.term
    ensures var s' := Deliver(s, term, leader, data, picks, decode);
      s'.snapshotBuf == ReceivedFrom(s.snapshotBuf, data, picks) && s'.term == (if picks == [] then s.term else term)
    decreases |picks|
  {
    hide ProcessInstallSnapshot, Received, ChunksFrom;
    if picks != [] {
      var before, c := picks[..|picks| - 1], picks[|picks| - 1];
      BufferIsReceived(s, term, leader, data, before, decode);
      HandlerReceives(Deliver(s, term, leader, data, before, decode), Request(term, leader, data, c), decode);
    }
  }

  /** The bytes before chunk `k`. */
  function Before(data: seq<byte>, k: nat): seq<byte> {
    if k * CHUNK <= |data| then data[..k * CHUNK] else data
  }

  lemma NextChunkExtends(data: seq<byte>, buf: seq<byte>, k: nat, c: nat)
    requires k < |Chunks(data)| && c < |Chunks(data)| && buf == Before(data, k)
    ensures var b := Received(buf, Chunks(data)[c]);
      b == [] || b == buf || (c == k && k + 1 < |Chunks(data)| && b == Before(data, k + 1))
      || (c == 0 && 1 < |Chunks(data)| && b == Before(data, 1))
  {
    ChunkAt(data, 0, k);
    ChunkAt(data, 0, c);
    var chunk := Chunks(data)[c];
    if !chunk.done {
      ChunkAt(data, 0, c + 1);
      if chunk.offset == 0 {
        assert c == 0;
        assert [] + chunk.data == data[..CHUNK];
      } else if chunk.offset == |buf| {
        assert c == k;
        assert buf + chunk.data == data[..chunk.offset + CHUNK];
      }
    }
  }

  /** Whatever is lost, repeated or out of order, the buffer is always the bytes before some chunk. */
  lemma {:induction false} BufferIsPrefix(data: seq<byte>, picks: seq<nat>) returns (k: nat)
    requires forall j :: 0 <= j < |picks| ==> picks[j] < |Chunks(data)|
    ensures k < |Chunks(data)| && ReceivedAll(data, picks) == Before(data, k)
    decreases |picks|
  {
    if picks == [] {
      k := 0;
      ChunkAt(data, 0, 0);
    } else {
      var before, c := picks[..|picks| - 1], picks[|picks| - 1];
      var j := BufferIsPrefix(data, before);
      NextChunkExtends(data, ReceivedAll(data, before), j, c);
      ChunkAt(data, 0, 0);
      var b := ReceivedAll(data, picks);
      k := if b == [] then 0 else if b == ReceivedAll(data, before) then j else if c == j then j + 1 else 1;
    }
  }

  /** So a node with an empty buffer never holds anything but a start of the snapshot. */
  lemma NodeHoldsPrefix(s: Server, term: nat, leader: NodeId, data: seq<byte>, picks: seq<nat>,
                        decode: seq<byte> -> Option<Snapshot>) returns (k: nat)
    requires forall j :: 0 <= j < |picks| ==> picks[j] < |Chunks(data)|
    requires term >= s.term && s.snapshotBuf == []
    ensures k < |Chunks(data)| && Deliver(s, term, leader, data, picks, decode).snapshotBuf == Before(data, k)
  {
    hide Deliver, ReceivedFrom, ChunksFrom;
    BufferIsReceived(s, term, leader, data, picks, decode);
    k := BufferIsPrefix(data, picks);
  }

  /** What the final chunk hands over is the whole snapshot exactly when it continues the buffer, and
      a proper prefix otherwise. */
  lemma WholeIffItContinues(data: seq<byte>, picks: seq<nat>)
    requires forall j :: 0 <= j < |picks| ==> picks[j] < |Chunks(data)|
    ensures var last := Chunks(data)[|Chunks(data)| - 1];
      var handed := Collected(ReceivedAll(data, picks), last.offset, last.data);
      && last.done && handed <= data
      && (handed == data <==> last.offset == 0 || |ReceivedAll(data, picks)| == last.offset)
  {
    var n := |Chunks(data)| - 1;
    var last := Chunks(data)[n];
    ChunkAt(data, 0, n);
    var k := BufferIsPrefix(data, picks);
    ChunkAt(data, 0, k);
    var buf := ReceivedAll(data, picks);
    assert buf == Before(data, k);
    if last.offset == 0 {
      assert [] + last.data == data;
    } else if |buf| == last.offset {
      assert buf + last.data == data;
    }
  }

  function UpTo(n: nat): (picks: seq<nat>) {
    seq(n, i requires 0 <= i < n => i)
  }

  /** The first chunk starts the buffer over, and each next one continues it. */
  lemma NextInOrder(buf: seq<byte>, data: seq<byte>, k: nat)
    requires k + 1 < |Chunks(data)| && (k == 0 || buf == Before(data, k))
    ensures Received(buf, Chunks(data)[k]) == Before(data, k + 1)
  {
    ChunkAt(data, 0, k);
    ChunkAt(data, 0, k + 1);
    hide Chunks;
    var c := Chunks(data)[k];
    assert Before(data, k) + c.data == Before(data, k + 1);
    if k == 0 {
      assert [] + c.data == Before(data, 1);
    }
  }

  lemma AdoptAgain(s: Server, term: nat, leader: NodeId, buf: seq<byte>)
    requires s.term <= term
    ensures var s1 := AdoptLeader(s, term, leader);
      AdoptLeader(s1.(snapshotBuf := buf), term, leader) == s1.(snapshotBuf := buf)
  {
  }

  lemma {:induction false} InOrderCollects(s: Server, term: nat, leader: NodeId, data: seq<byte>, n: nat,
                                           decode: seq<byte> -> Option<Snapshot>)
    requires 0 < n < |Chunks(data)| && s.term <= term
    ensures Deliver(s, term, leader, data, UpTo(n), decode) == AdoptLeader(s, term, leader).(snapshotBuf := Before(data, n))
    decreases n
  {
    hide ChunksFrom, Before, ProcessInstallSnapshot, AdoptLeader, Collected;
    assert UpTo(n)[..n - 1] == UpTo(n - 1) && UpTo(n)[n - 1] == n - 1;
    ChunkAt(data, 0, n - 1);
    AdoptedTerm(s, term, leader);
    var s1 := Deliver(s, term, leader, data, UpTo(n - 1), decode);
    if n > 1 {
      InOrderCollects(s, term, leader, data, n - 1, decode);
      AdoptAgain(s, term, leader, Before(data, n - 1));
    }
    Collects(s1, Request(term, leader, data, n - 1), decode);
    NextInOrder(s1.snapshotBuf, data, n - 1);
  }

  /** A snapshot whose chunks arrive in order is installed, whatever the buffer held before: the node
      adopts the sender and restores what the bytes decode to. */
  lemma InOrderInstalls(s: Server, term: nat, leader: NodeId, data: seq<byte>, snap: Snapshot, decode: seq<byte> -> Option<Snapshot>)
    requires decode(data) == Some(snap) && s.term <= term
    ensures Deliver(s, term, leader, data, UpTo(|Chunks(data)|), decode)
      == RestoreSnapshot(AdoptLeader(s, term, leader), snap).(snapshotBuf := [])
  {
    hide ChunksFrom, Before, ProcessInstallSnapshot, AdoptLeader, Collected, RestoreSnapshot;
    var n := |Chunks(data)| - 1;
    ChunkAt(data, 0, n);
    assert UpTo(n + 1)[..n] == UpTo(n) && UpTo(n + 1)[n] == n;
    AdoptedTerm(s, term, leader);
    var s1 := Deliver(s, term, leader, data, UpTo(n), decode);
    if n > 0 {
      InOrderCollects(s, term, leader, data, n, decode);
      AdoptAgain(s, term, leader, Before(data, n));
    }
    Completes(s1, Request(term, leader, data, n), decode);
    LastCompletes(s1.snapshotBuf, data);
    SameRestore(AdoptLeader(s, term, leader), snap, data);
  }

  lemma LastCompletes(buf: seq<byte>, data: seq<byte>)
    requires |Chunks(data)| == 1 || buf == Before(data, |Chunks(data)| - 1)
    ensures var last := Chunks(data)[|Chunks(data)| - 1]; Collected(buf, last.offset, last.data) == data
  {
    var n := |Chunks(data)| - 1;
    ChunkAt(data, 0, n);
    hide ChunksFrom;
    var last := Chunks(data)[n];
    if n == 0 {
      assert [] + last.data == data;
    } else {
      assert Before(data, n) + last.data == data;
    }
  }

  /** What is restored does not depend on the buffer. */
  lemma SameRestore(s: Server, snap: Snapshot, buf: seq<byte>)
    ensures RestoreSnapshot(s.(snapshotBuf := buf), snap).(snapshotBuf := []) == RestoreSnapshot(s, snap).(snapshotBuf := [])
  {
    SameRetained(s, s.(snapshotBuf := buf), snap.index + 1);
  }
}
