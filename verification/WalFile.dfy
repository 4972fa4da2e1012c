/** The journal as a file: length- and checksum-framed records, and the loop that reads them back
    (storage/wal.go). */
module WalFile {
  import opened Config
  import opened Log
  import opened Wal

  /** The record encoding and the checksum, both left abstract. */
  datatype Codec = Codec(encode: Record -> seq<byte>, decode: seq<byte> -> Option<Record>, checksum: seq<byte> -> word)

  /** The record fits a frame and decodes to itself. */
  predicate Encodes(c: Codec, rec: Record) {
    c.decode(c.encode(rec)) == Some(rec) && |c.encode(rec)| < WORD
  }

  predicate AllEncode(c: Codec, records: seq<Record>) {
    forall k {:trigger Encodes(c, records[k])} :: 0 <= k < |records| ==> Encodes(c, records[k])
  }

  /** Where a record first occurs. */
  function IndexOf(records: seq<Record>, rec: Record): (k: nat)
    ensures k <= |records| && (k < |records| ==> records[k] == rec) && (rec in records ==> k < |records|)
  {
    if records == [] || records[0] == rec then 0 else 1 + IndexOf(records[1..], rec)
  }

  /** Any journal can be encoded: here by numbering its records. */
  function Numbering(records: seq<Record>): Codec {
    Codec(rec => PutUint32(IndexOf(records, rec)),
          bytes => if |bytes| == 4 && Uint32(bytes) < |records| then Some(records[Uint32(bytes)]) else None,
          bytes => 0)
  }

  lemma SomeCodecEncodes(records: seq<Record>)
    requires |records| < WORD
    ensures AllEncode(Numbering(records), records)
  {
    hide PutUint32, Uint32, IndexOf;
    var c := Numbering(records);
    forall k | 0 <= k < |records| ensures Encodes(c, records[k]) {
      Uint32OfWord(IndexOf(records, records[k]));
      assert c.encode(records[k]) == PutUint32(IndexOf(records, records[k]));
    }
  }

  datatype Outcome = Read(state: Replayed) | Failed

  // ------------------------------------------------------------- four bytes

  /** The low 32 bits of `n`, most significant byte first. */
  function PutUint32(n: nat): (bytes: seq<byte>)
    ensures |bytes| == 4
  {
    var high := n / 256 / 256;
    [high / 256 % 256, high % 256, n / 256 % 256, n % 256]
  }

  function Uint32(bytes: seq<byte>): nat
    requires |bytes| == 4
  {
    0x100_0000 * bytes[0] as int + 0x1_0000 * bytes[1] as int + 256 * bytes[2] as int + bytes[3] as int
  }

  lemma Uint32RoundTrip(n: nat)
    ensures Uint32(PutUint32(n)) == n % WORD
  {
    var high := n / 256 / 256;
    assert high == 256 * (high / 256) + high % 256;
    assert n == WORD * (high / 256 / 256) + Uint32(PutUint32(n));
    Remainder(n, high / 256 / 256, Uint32(PutUint32(n)));
  }

  lemma Remainder(n: nat, q: nat, r: nat)
    requires n == WORD * q + r && r < WORD
    ensures n % WORD == r
  {
  }

  lemma Uint32OfWord(n: word)
    ensures Uint32(PutUint32(n)) == n
  {
    hide PutUint32, Uint32;
    Uint32RoundTrip(n);
  }

  // ------------------------------------------------------------------ frames

  function Frame(c: Codec, rec: Record): seq<byte> {
    var data := c.encode(rec);
    var length := |data| % WORD;
    PutUint32(length) + PutUint32(c.checksum(data)) + data[..length]
  }

  function Frames(c: Codec, records: seq<Record>): seq<byte> {
    if records == [] then [] else Frames(c, records[..|records| - 1]) + Frame(c, records[|records| - 1])
  }

  /** What reading the file from `pos` makes of the state so far. */
  function ReadFrom(c: Codec, file: seq<byte>, pos: nat, state: Replayed): Outcome
    requires pos <= |file|
    decreases |file| - pos
  {
    if |file| - pos < 4 then Read(state)
    else if |file| - pos < 8 then Failed
    else
      var length := Uint32(file[pos..pos + 4]);
      var crc := Uint32(file[pos + 4..pos + 8]);
      if |file| - pos - 8 < length then Failed
      else
        var data := file[pos + 8..pos + 8 + length];
        if c.checksum(data) != crc then Failed
        else
          match c.decode(data)
          case None => Failed
          case Some(rec) => ReadFrom(c, file, pos + 8 + length, ReplayOne(state, rec))
  }

  function ReadAll(c: Codec, file: seq<byte>): Outcome {
    ReadFrom(c, file, 0, Replay([]))
  }

  lemma FrameShape(c: Codec, rec: Record)
    requires Encodes(c, rec)
    ensures var f, data := Frame(c, rec), c.encode(rec);
      && |f| == 8 + |data| && Uint32(f[..4]) == |data| && Uint32(f[4..8]) == c.checksum(data) && f[8..] == data
  {
    hide PutUint32, Uint32;
    var data := c.encode(rec);
    var f := Frame(c, rec);
    Uint32OfWord(|data|);
    Uint32OfWord(c.checksum(data));
    assert f[..4] == PutUint32(|data|) && f[4..8] == PutUint32(c.checksum(data)) && f[8..] == data;
  }

  lemma Slice(s: seq<byte>, at: nat, n: nat, i: nat, j: nat)
    requires at + n <= |s| && i <= j <= n
    ensures s[at..at + n][i..j] == s[at + i..at + j]
  {
    var here := s[at..at + n];
    forall k | 0 <= k < j - i ensures here[i..j][k] == s[at + i..at + j][k] {
      assert here[i + k] == s[at + (i + k)];
    }
  }

  /** Reading one whole frame. */
  lemma ReadOne(c: Codec, file: seq<byte>, pos: nat, rec: Record, state: Replayed)
    requires Encodes(c, rec) && pos + |Frame(c, rec)| <= |file| && file[pos..pos + |Frame(c, rec)|] == Frame(c, rec)
    ensures ReadFrom(c, file, pos, state) == ReadFrom(c, file, pos + |Frame(c, rec)|, ReplayOne(state, rec))
  {
    FrameShape(c, rec);
    var f := Frame(c, rec);
    hide Frame, Uint32;
    var here := file[pos..pos + |f|];
    Slice(file, pos, |f|, 0, 4);
    Slice(file, pos, |f|, 4, 8);
    Slice(file, pos, |f|, 8, |f|);
    assert here[0..4] == f[..4] && here[8..|f|] == f[8..];
  }

  lemma {:induction false} FramesPrefix(c: Codec, records: seq<Record>, k: nat)
    requires k <= |records|
    ensures Frames(c, records[..k]) <= Frames(c, records)
    decreases |records| - k
  {
    if k == |records| {
      assert records[..k] == records;
    } else {
      FramesPrefix(c, records, k + 1);
      assert records[..k + 1][..k] == records[..k];
    }
  }

  lemma FirstEncode(c: Codec, records: seq<Record>)
    requires AllEncode(c, records) && records != []
    ensures AllEncode(c, records[..|records| - 1]) && Encodes(c, records[|records| - 1])
  {
    hide Encodes;
    var before := records[..|records| - 1];
    forall k | 0 <= k < |before| ensures Encodes(c, before[k]) {
      assert before[k] == records[k];
    }
  }

  lemma LastFrame(c: Codec, file: seq<byte>, records: seq<Record>)
    requires records != [] && Frames(c, records) <= file
    ensures var before, f := Frames(c, records[..|records| - 1]), Frame(c, records[|records| - 1]);
      && before <= file && |Frames(c, records)| == |before| + |f| <= |file|
      && file[|before|..|before| + |f|] == f
  {
    hide Frame;
    var pos := |Frames(c, records[..|records| - 1])|;
    assert file[pos..|Frames(c, records)|] == Frames(c, records)[pos..];
  }

  lemma ReadLast(c: Codec, file: seq<byte>, records: seq<Record>)
    requires records != [] && Frames(c, records) <= file && Encodes(c, records[|records| - 1])
    ensures var before := records[..|records| - 1];
      && |Frames(c, before)| <= |Frames(c, records)| <= |file|
      && ReadFrom(c, file, |Frames(c, before)|, Replay(before)) == ReadFrom(c, file, |Frames(c, records)|, Replay(records))
  {
    hide ReadFrom, Frame, Frames, Encodes, Replay, ReplayOne;
    var before, rec := records[..|records| - 1], records[|records| - 1];
    LastFrame(c, file, records);
    ReadOne(c, file, |Frames(c, before)|, rec, Replay(before));
    assert records == before + [rec];
    ReplayAppend(before, rec);
  }

  /** Reading the first `k` frames of a file that starts with them replays the first `k` records. */
  lemma {:induction false} ReadFrames(c: Codec, file: seq<byte>, records: seq<Record>)
    requires AllEncode(c, records) && Frames(c, records) <= file
    ensures ReadAll(c, file) == ReadFrom(c, file, |Frames(c, records)|, Replay(records))
    decreases |records|
  {
    hide ReadFrom, Frame, Encodes, AllEncode;
    if records != [] {
      FirstEncode(c, records);
      LastFrame(c, file, records);
      ReadFrames(c, file, records[..|records| - 1]);
      ReadLast(c, file, records);
    }
  }

  /** A journal reads back exactly what was written. */
  lemma WrittenIsRead(c: Codec, records: seq<Record>)
    requires AllEncode(c, records)
    ensures ReadAll(c, Frames(c, records)) == Read(Replay(records))
  {
    ReadFrames(c, Frames(c, records), records);
  }

  /** A damaged record is found: if, after some whole records, the bytes of the next do not match the
      checksum written before them, reading fails, whatever follows. */
  lemma DamageIsFound(c: Codec, file: seq<byte>, records: seq<Record>, sum: word, data: seq<byte>, rest: seq<byte>)
    requires AllEncode(c, records) && |data| < WORD && c.checksum(data) != sum
    requires file == Frames(c, records) + (PutUint32(|data|) + PutUint32(sum) + data) + rest
    ensures ReadAll(c, file) == Failed
  {
    hide PutUint32, Uint32, AllEncode, Frames;
    ReadFrames(c, file, records);
    var pos := |Frames(c, records)|;
    var frame := PutUint32(|data|) + PutUint32(sum) + data;
    Uint32OfWord(|data|);
    Uint32OfWord(sum);
    assert file[pos..pos + 4] == frame[..4] == PutUint32(|data|);
    assert file[pos + 4..pos + 8] == frame[4..8] == PutUint32(sum);
    assert file[pos + 8..pos + 8 + |data|] == data;
  }

  /** So does a record that matches its checksum and is none of the encoding's. */
  lemma NonsenseIsFound(c: Codec, file: seq<byte>, records: seq<Record>, data: seq<byte>, rest: seq<byte>)
    requires AllEncode(c, records) && |data| < WORD && c.decode(data) == None
    requires file == Frames(c, records) + (PutUint32(|data|) + PutUint32(c.checksum(data)) + data) + rest
    ensures ReadAll(c, file) == Failed
  {
    hide PutUint32, Uint32, AllEncode, Frames;
    ReadFrames(c, file, records);
    var pos := |Frames(c, records)|;
    var frame := PutUint32(|data|) + PutUint32(c.checksum(data)) + data;
    Uint32OfWord(|data|);
    Uint32OfWord(c.checksum(data));
    assert file[pos..pos + 4] == frame[..4] == PutUint32(|data|);
    assert file[pos + 4..pos + 8] == frame[4..8] == PutUint32(c.checksum(data));
    assert file[pos + 8..pos + 8 + |data|] == data;
  }

  /** How many whole frames the first `n` bytes hold. */
  function Whole(c: Codec, records: seq<Record>, n: nat): (k: nat)
    ensures k <= |records|
  {
    if records == [] then 0
    else if |Frames(c, records)| <= n then |records|
    else Whole(c, records[..|records| - 1], n)
  }

  lemma {:induction false} WholeBounds(c: Codec, records: seq<Record>, n: nat)
    requires n <= |Frames(c, records)|
    ensures var k := Whole(c, records, n);
      && |Frames(c, records[..k])| <= n
      && (k < |records| ==> n < |Frames(c, records[..k + 1])|)
    decreases |records|
  {
    hide Frame;
    if records != [] && n < |Frames(c, records)| {
      var before := records[..|records| - 1];
      var k := Whole(c, before, n);
      if n < |Frames(c, before)| {
        WholeBounds(c, before, n);
        assert before[..k] == records[..k];
        assert k < |before| ==> before[..k + 1] == records[..k + 1];
      } else {
        WholeIsAll(c, before, n);
        assert before[..|before|] == before;
        assert records[..|before| + 1] == records;
      }
    } else {
      assert records[..|records|] == records;
    }
  }

  lemma WholeIsAll(c: Codec, records: seq<Record>, n: nat)
    requires |Frames(c, records)| <= n
    ensures Whole(c, records, n) == |records|
  {
  }

  /** A frame cut short reads as the end of the file if not even its length survived, and as an
      error otherwise. */
  lemma CutFrame(c: Codec, file: seq<byte>, pos: nat, rec: Record, state: Replayed)
    requires Encodes(c, rec) && pos <= |file| && file[pos..] < Frame(c, rec)
    ensures ReadFrom(c, file, pos, state) == if |file| - pos < 4 then Read(state) else Failed
  {
    FrameShape(c, rec);
    if |file| - pos >= 8 {
      assert file[pos..pos + 4] == file[pos..][..4] == Frame(c, rec)[..4];
    }
  }

  /** A journal that lost its tail at any byte never reads back as something that was not written:
      it yields the whole records that remain if fewer than four bytes follow them, and otherwise
      refuses to load. */
  lemma TornJournal(c: Codec, records: seq<Record>, n: nat)
    requires AllEncode(c, records) && n <= |Frames(c, records)|
    ensures var k := Whole(c, records, n);
      && |Frames(c, records[..k])| <= n
      && ReadAll(c, Frames(c, records)[..n])
         == if n - |Frames(c, records[..k])| < 4 then Read(Replay(records[..k])) else Failed
  {
    hide ReadFrom, Frame, Encodes;
    var file := Frames(c, records)[..n];
    var k := Whole(c, records, n);
    WholeBounds(c, records, n);
    FramesPrefix(c, records, k);
    assert forall j :: 0 <= j < k ==> records[..k][j] == records[j];
    assert AllEncode(c, records[..k]);
    ReadFrames(c, file, records[..k]);
    var pos := |Frames(c, records[..k])|;
    if k < |records| {
      TailIsCut(c, records, n, k);
      CutFrame(c, file, pos, records[k], Replay(records[..k]));
    } else {
      assert records[..k] == records;
      EndOfFile(c, file, Replay(records));
    }
  }

  lemma EndOfFile(c: Codec, file: seq<byte>, state: Replayed)
    ensures ReadFrom(c, file, |file|, state) == Read(state)
  {
  }

  lemma TailIsCut(c: Codec, records: seq<Record>, n: nat, k: nat)
    requires k < |records| && n <= |Frames(c, records)|
    requires |Frames(c, records[..k])| <= n < |Frames(c, records[..k + 1])|
    ensures Frames(c, records)[..n][|Frames(c, records[..k])|..] < Frame(c, records[k])
  {
    hide Frame;
    FramesPrefix(c, records, k + 1);
    assert records[..k + 1][..k] == records[..k];
    var pos := |Frames(c, records[..k])|;
    assert Frames(c, records[..k + 1]) == Frames(c, records[..k]) + Frame(c, records[k]);
    assert Frames(c, records)[..n][pos..] == Frames(c, records[..k + 1])[pos..n];
  }

  // ------------------------------------------------------------ the file object

  /** The open journal.  `records` is what was written since the last reset. */
  class WAL {
    const codec: Codec
    var file: seq<byte>
    ghost var records: seq<Record>

    ghost predicate Valid()
      reads this
    {
      file == Frames(codec, records)
    }

    constructor (codec: Codec)
      ensures Valid() && records == [] && this.codec == codec
    {
      this.codec := codec;
      file := [];
      records := [];
    }

    method WriteRecord(rec: Record)
      requires Valid()
      modifies this
      ensures Valid() && records == old(records) + [rec]
      ensures old(file) <= file
    {
      var data := codec.encode(rec);
      var length := |data| % WORD;
      var buf := PutUint32(length) + PutUint32(codec.checksum(data)) + data[..length];
      file := file + buf;
      records := records + [rec];
      assert records[..|records| - 1] == old(records);
    }

    method AppendState(term: nat, vote: Option<NodeId>)
      requires Valid()
      modifies this
      ensures Valid() && records == old(records) + [State(term, vote)]
    {
      WriteRecord(State(term, vote));
    }

    method AppendEntry(e: Entry)
      requires Valid()
      modifies this
      ensures Valid() && records == old(records) + [Append(e)]
    {
      WriteRecord(Append(e));
    }

    method AppendTruncate(index: nat)
      requires Valid()
      modifies this
      ensures Valid() && records == old(records) + [Truncate(index)]
    {
      WriteRecord(Truncate(index));
    }

    method Reset()
      requires Valid()
      modifies this
      ensures Valid() && records == []
    {
      file := [];
      records := [];
    }

    /** Reads the file from the start. */
    method ReplayFile() returns (r: Outcome)
      ensures r == ReadAll(codec, file)
      ensures Valid() && AllEncode(codec, records) ==> r == Read(Replay(records))
    {
      hide Uint32, Frames, AllEncode;
      ghost var goal := ReadAll(codec, file);
      if Valid() && AllEncode(codec, records) {
        WrittenIsRead(codec, records);
      }
      var term, vote, entries := 0, None, [];
      var pos := 0;
      while |file| - pos >= 4
        invariant pos <= |file|
        invariant goal == ReadFrom(codec, file, pos, Replayed(term, vote, entries))
        decreases |file| - pos
      {
        if |file| - pos < 8 {
          return Failed;
        }
        var length := Uint32(file[pos..pos + 4]);
        var crc := Uint32(file[pos + 4..pos + 8]);
        if |file| - pos - 8 < length {
          return Failed;
        }
        var data := file[pos + 8..pos + 8 + length];
        if codec.checksum(data) != crc {
          return Failed;
        }
        var decoded := codec.decode(data);
        if decoded == None {
          return Failed;
        }
        match decoded.value {
          case State(t, v) =>
            term, vote := t, v;
          case Append(e) =>
            entries := PutEntry(entries, e);
          case Truncate(index) =>
            entries := DropFrom(entries, index);
        }
        pos := pos + 8 + length;
      }
      r := Read(Replayed(term, vote, entries));
    }

    /** An entry replaces the first one with its index and everything after it. */
    static method PutEntry(entries: seq<Entry>, e: Entry) returns (r: seq<Entry>)
      ensures r == entries[..Find(entries, e.index)] + [e]
    {
      var i := 0;
      while i < |entries|
        invariant i <= |entries|
        invariant forall j :: 0 <= j < i ==> entries[j].index != e.index
      {
        if entries[i].index == e.index {
          FindIs(entries, e.index, i);
          return entries[..i] + [e];
        }
        i := i + 1;
      }
      FindIs(entries, e.index, |entries|);
      assert entries[..|entries|] == entries;
      return entries + [e];
    }

    static method DropFrom(entries: seq<Entry>, index: nat) returns (r: seq<Entry>)
      ensures r == Below(entries, index)
    {
      r := [];
      var i := 0;
      while i < |entries|
        invariant i <= |entries|
        invariant Below(entries, index) == r + Below(entries[i..], index)
      {
        assert entries[i..][1..] == entries[i + 1..];
        if entries[i].index < index {
          r := r + [entries[i]];
        }
        i := i + 1;
      }
    }
  }

  lemma FindIs(entries: seq<Entry>, index: nat, k: nat)
    requires k <= |entries| && (k < |entries| ==> entries[k].index == index)
    requires forall j :: 0 <= j < k ==> entries[j].index != index
    ensures Find(entries, index) == k
  {
  }
}
