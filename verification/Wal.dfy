/** The write-ahead log as a list of records, and what replaying it yields (storage/wal.go). */
module Wal {
  import opened Config
  import opened Log

  type byte = b: nat | b < 256

  const WORD := 0x1_0000_0000

  type word = n: nat | n < WORD

  datatype Record = State(term: nat, vote: Option<NodeId>) | Append(entry: Entry) | Truncate(index: nat)

  datatype Replayed = Replayed(term: nat, vote: Option<NodeId>, entries: seq<Entry>)

  /** Position of the first entry with a given index, or the length if there is none. */
  function Find(entries: seq<Entry>, index: nat): (k: nat)
    ensures k <= |entries|
    ensures k < |entries| ==> entries[k].index == index
    ensures forall j :: 0 <= j < k ==> entries[j].index != index
  {
    if entries == [] then 0
    else if entries[0].index == index then 0
    else 1 + Find(entries[1..], index)
  }

  function Below(entries: seq<Entry>, index: nat): seq<Entry> {
    if entries == [] then []
    else (if entries[0].index < index then [entries[0]] else []) + Below(entries[1..], index)
  }

  function ReplayOne(r: Replayed, rec: Record): Replayed {
    match rec
    case State(term, vote) => r.(term := term, vote := vote)
    case Append(e) => r.(entries := r.entries[..Find(r.entries, e.index)] + [e])
    case Truncate(index) => r.(entries := Below(r.entries, index))
  }

  function Replay(records: seq<Record>): Replayed {
    if records == [] then Replayed(0, None, [])
    else ReplayOne(Replay(records[..|records| - 1]), records[|records| - 1])
  }

  lemma ReplayAppend(records: seq<Record>, rec: Record)
    ensures Replay(records + [rec]) == ReplayOne(Replay(records), rec)
  {
    assert (records + [rec])[..|records|] == records;
  }

  /** Entries numbered consecutively after `base`. */
  predicate Numbered(entries: seq<Entry>, base: nat) {
    forall k {:trigger entries[k]} :: 0 <= k < |entries| ==> entries[k].index == base + k + 1
  }

  lemma {:induction false} BelowNumbered(entries: seq<Entry>, base: nat, n: nat)
    requires Numbered(entries, base) && n <= |entries|
    ensures Below(entries, base + n + 1) == entries[..n]
  {
    if entries != [] {
      assert entries[0].index == base + 1;
      assert forall k {:trigger entries[1..][k]} :: 0 <= k < |entries| - 1 ==> entries[1..][k] == entries[k + 1];
      if n == 0 {
        BelowNone(entries, base + 1);
      } else {
        BelowNumbered(entries[1..], base + 1, n - 1);
      }
    }
  }

  lemma {:induction false} BelowNone(entries: seq<Entry>, index: nat)
    requires forall k {:trigger entries[k]} :: 0 <= k < |entries| ==> entries[k].index >= index
    ensures Below(entries, index) == []
  {
    if entries != [] {
      assert forall k {:trigger entries[1..][k]} :: 0 <= k < |entries| - 1 ==> entries[1..][k] == entries[k + 1];
      BelowNone(entries[1..], index);
    }
  }

  /** Journalling the next entry of a numbered log replays as appending it. */
  lemma ReplayOfNext(records: seq<Record>, log: seq<Entry>, base: nat, e: Entry)
    requires Replay(records).entries == log && Numbered(log, base) && e.index == base + |log| + 1
    ensures Replay(records + [Append(e)]).entries == log + [e]
  {
    ReplayAppend(records, Append(e));
    assert Find(log, e.index) == |log|;
    assert log[..|log|] == log;
  }

  /** Journalling a truncation and the entry that replaces the conflict replays as both. */
  lemma ReplayOfConflict(records: seq<Record>, log: seq<Entry>, base: nat, n: nat, e: Entry)
    requires Replay(records).entries == log && Numbered(log, base) && n <= |log| && e.index == base + n + 1
    ensures Replay(records + [Truncate(e.index)] + [Append(e)]).entries == log[..n] + [e]
  {
    ReplayAppend(records, Truncate(e.index));
    BelowNumbered(log, base, n);
    assert Numbered(log[..n], base);
    ReplayOfNext(records + [Truncate(e.index)], log[..n], base, e);
  }

  lemma ReplayOfState(records: seq<Record>, term: nat, vote: Option<NodeId>)
    ensures Replay(records + [State(term, vote)]) == Replay(records).(term := term, vote := vote)
  {
    ReplayAppend(records, State(term, vote));
  }

  lemma ReplayOfStateAlone(term: nat, vote: Option<NodeId>)
    ensures Replay([State(term, vote)]) == Replayed(term, vote, [])
  {
    assert [State(term, vote)] == [] + [State(term, vote)];
    ReplayOfState([], term, vote);
  }

  lemma ReplayOfLog(records: seq<Record>, rec: Record)
    requires !rec.State?
    ensures Replay(records + [rec]).term == Replay(records).term
    ensures Replay(records + [rec]).vote == Replay(records).vote
  {
    ReplayAppend(records, rec);
  }
}
