/** Log entries and the log comparisons every handler uses. */
module Log {
  import opened Config

  datatype Command = Command(op: string, key: string, val: string, client: string, request: int)

  /** A decoded entry: the envelope of raft/config.go.  An empty command decodes to a no-op. */
  datatype Payload = Noop | Op(cmd: Command) | Change(config: ClusterConfig)

  datatype Entry = Entry(index: nat, term: nat, payload: Payload)

  /** Term of the k-th entry of a log numbered from 1; position 0 precedes every entry. */
  function TermAt(log: seq<Entry>, k: nat): nat
    requires k <= |log|
  {
    if k == 0 then 0 else log[k - 1].term
  }

  function LastTerm(log: seq<Entry>): nat {
    TermAt(log, |log|)
  }

  /** The vote check: a later last term wins, then a longer log. */
  predicate UpToDate(lastIndex: nat, lastTerm: nat, log: seq<Entry>) {
    lastTerm > LastTerm(log) || (lastTerm == LastTerm(log) && lastIndex >= |log|)
  }

  /** What a follower's log becomes when it takes a batch: entries it has are kept, the first
      conflicting one truncates, and entries beyond the end are appended. */
  function Merge(log: seq<Entry>, batch: seq<Entry>): seq<Entry>
    decreases |batch|
  {
    if batch == [] then log
    else
      var e := batch[0];
      var log' :=
        if e.index > |log| then log + [e]
        else if e.index >= 1 && log[e.index - 1].term != e.term then log[..e.index - 1] + [e]
        else log;
      Merge(log', batch[1..])
  }

  /** Two logs share their first `n` entries. */
  predicate Agree(a: seq<Entry>, b: seq<Entry>, n: nat) {
    n <= |a| && n <= |b| && a[..n] == b[..n]
  }

  lemma AgreeLess(a: seq<Entry>, b: seq<Entry>, n: nat, m: nat)
    requires Agree(a, b, n) && m <= n
    ensures Agree(a, b, m)
  {
    assert a[..m] == a[..n][..m] == b[..n][..m] == b[..m];
  }

  lemma AgreeTrans(a: seq<Entry>, b: seq<Entry>, c: seq<Entry>, n: nat)
    requires Agree(a, b, n) && Agree(b, c, n)
    ensures Agree(a, c, n)
  {
  }

  lemma AgreeAt(a: seq<Entry>, b: seq<Entry>, n: nat, k: nat)
    requires Agree(a, b, n) && k < n
    ensures a[k] == b[k]
  {
    assert a[..n][k] == b[..n][k];
  }

  lemma AgreePrefix(a: seq<Entry>, b: seq<Entry>, n: nat)
    requires a <= b && n <= |a|
    ensures Agree(a, b, n)
  {
  }
}
