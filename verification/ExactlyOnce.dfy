/** Request deduplication: a log is applied as if every request in it had been written once. */
module ExactlyOnce {
  import opened Log
  import opened KeyValue

  /** A write that the deduplication table keeps track of. */
  predicate TrackedWrite(e: Entry) {
    e.payload.Op? && IsWrite(e.payload.cmd) && Tracked(e.payload.cmd)
  }

  /** Entry `k` already carries request `request` of `client`, or a later one. */
  predicate Covers(log: seq<Entry>, k: nat, client: string, request: int)
    requires k < |log|
  {
    TrackedWrite(log[k]) && log[k].payload.cmd.client == client && log[k].payload.cmd.request >= request
  }

  ghost predicate SeenBefore(log: seq<Entry>, client: string, request: int) {
    exists k: nat :: k < |log| && Covers(log, k, client, request)
  }

  /** The deduplication table, without running anything: a client is in it once it wrote, with the
      highest request it wrote. */
  lemma {:induction false} TableIsHighest(log: seq<Entry>, client: string, request: int)
    ensures client in Fold(log).seen && request <= Fold(log).seen[client] <==> SeenBefore(log, client, request)
    decreases |log|
  {
    if log != [] {
      var before, e := log[..|log| - 1], log[|log| - 1];
      TableIsHighest(before, client, request);
      SeenWithOneMore(log, client, request);
      if TrackedWrite(e) && e.payload.cmd.client == client {
        TableIsHighest(before, client, e.payload.cmd.request);
        HighestAbsorbs(before, client, e.payload.cmd.request, request);
      }
    }
  }

  lemma SeenWithOneMore(log: seq<Entry>, client: string, request: int)
    requires log != []
    ensures SeenBefore(log, client, request) <==>
      SeenBefore(log[..|log| - 1], client, request) || Covers(log, |log| - 1, client, request)
  {
    var before := log[..|log| - 1];
    if SeenBefore(log, client, request) && !Covers(log, |log| - 1, client, request) {
      var k: nat :| k < |log| && Covers(log, k, client, request);
      assert Covers(before, k, client, request);
    }
    if SeenBefore(before, client, request) {
      var k: nat :| k < |before| && Covers(before, k, client, request);
      assert Covers(log, k, client, request);
    }
  }

  lemma HighestAbsorbs(log: seq<Entry>, client: string, high: int, low: int)
    ensures SeenBefore(log, client, high) && low <= high ==> SeenBefore(log, client, low)
  {
    if SeenBefore(log, client, high) && low <= high {
      var k: nat :| k < |log| && Covers(log, k, client, high);
      assert Covers(log, k, client, low);
    }
  }

  /** The entry at `k` takes effect: it is a write, and no earlier entry covers its request. */
  ghost predicate TakesEffect(log: seq<Entry>, k: nat)
    requires k < |log|
  {
    && log[k].payload.Op? && IsWrite(log[k].payload.cmd)
    && var cmd := log[k].payload.cmd;
       Tracked(cmd) ==> !SeenBefore(log[..k], cmd.client, cmd.request)
  }

  /** The node skips exactly the writes that take no effect. */
  lemma SkipsExactly(log: seq<Entry>, k: nat)
    requires k < |log| && log[k].payload.Op? && IsWrite(log[k].payload.cmd)
    ensures Duplicate(Fold(log[..k]), log[k].payload.cmd) <==> !TakesEffect(log, k)
  {
    var cmd := log[k].payload.cmd;
    TableIsHighest(log[..k], cmd.client, cmd.request);
  }

  /** A client's effective requests carry strictly increasing ids. */
  lemma EffectiveIdsIncrease(log: seq<Entry>, j: nat, k: nat)
    requires j < k < |log| && TrackedWrite(log[j]) && TrackedWrite(log[k])
    requires log[j].payload.cmd.client == log[k].payload.cmd.client
    requires !Duplicate(Fold(log[..k]), log[k].payload.cmd)
    ensures log[j].payload.cmd.request < log[k].payload.cmd.request
  {
    SkipsExactly(log, k);
    assert !Covers(log[..k], j, log[k].payload.cmd.client, log[k].payload.cmd.request);
  }

  /** The store that results from performing the effective writes, in order, with no table at all. */
  ghost function Plain(log: seq<Entry>): map<string, string> {
    if log == [] then map[]
    else
      var before := Plain(log[..|log| - 1]);
      if TakesEffect(log, |log| - 1) then Write(before, log[|log| - 1].payload.cmd) else before
  }

  /** Exactly-once application: the node's store is that of the effective writes, each done once. */
  lemma {:induction false} AppliedExactlyOnce(log: seq<Entry>)
    ensures Fold(log).kv == Plain(log)
    decreases |log|
  {
    if log != [] {
      var k := |log| - 1;
      AppliedExactlyOnce(log[..k]);
      if log[k].payload.Op? && IsWrite(log[k].payload.cmd) {
        SkipsExactly(log, k);
      }
    }
  }

  // ------------------------------------------------------------- what is read

  /** The entry at `k` takes effect on `key`, and none after it does. */
  ghost predicate LastOn(log: seq<Entry>, k: nat, key: string)
    requires k < |log|
  {
    && TakesEffect(log, k) && log[k].payload.cmd.key == key
    && forall j: nat {:trigger TakesEffect(log, j)} :: k < j < |log| ==> !(TakesEffect(log, j) && log[j].payload.cmd.key == key)
  }

  ghost predicate NeverOn(log: seq<Entry>, key: string) {
    forall j: nat {:trigger TakesEffect(log, j)} :: j < |log| ==> !(TakesEffect(log, j) && log[j].payload.cmd.key == key)
  }

  lemma EffectInPrefix(log: seq<Entry>, n: nat, j: nat)
    requires j < n <= |log|
    ensures TakesEffect(log[..n], j) <==> TakesEffect(log, j)
  {
    assert log[..n][..j] == log[..j];
  }

  /** Last write wins: a key holds the value of the last effective write to it, is absent if that write
      removed it, and absent if there was none. */
  lemma {:induction false} LastWriteWins(log: seq<Entry>, key: string)
    ensures NeverOn(log, key) ==> key !in Fold(log).kv
    ensures forall k: nat {:trigger LastOn(log, k, key)} :: k < |log| && LastOn(log, k, key) ==>
      if log[k].payload.cmd.op == "PUT" then key in Fold(log).kv && Fold(log).kv[key] == log[k].payload.cmd.val
      else key !in Fold(log).kv
    decreases |log|
  {
    if log != [] {
      var n := |log| - 1;
      var before := log[..n];
      LastWriteWins(before, key);
      if log[n].payload.Op? && IsWrite(log[n].payload.cmd) {
        SkipsExactly(log, n);
      }
      assert Fold(log) == ApplyPayload(Fold(before), log[n].payload);
      forall j: nat | j < n ensures TakesEffect(before, j) <==> TakesEffect(log, j) {
        EffectInPrefix(log, n, j);
      }
      forall k: nat | k < |log| && LastOn(log, k, key)
        ensures if log[k].payload.cmd.op == "PUT" then key in Fold(log).kv && Fold(log).kv[key] == log[k].payload.cmd.val
                else key !in Fold(log).kv
      {
        if k < n {
          assert LastOn(before, k, key);
          assert !(TakesEffect(log, n) && log[n].payload.cmd.key == key);
        }
      }
      if NeverOn(log, key) {
        assert NeverOn(before, key);
        assert !(TakesEffect(log, n) && log[n].payload.cmd.key == key);
      }
    }
  }

  /** However often a client's request is committed, at most one of the entries takes effect. */
  lemma AtMostOneEffect(log: seq<Entry>, j: nat, k: nat)
    requires j < |log| && k < |log| && TrackedWrite(log[j]) && log[k].payload == log[j].payload
    requires TakesEffect(log, j) && TakesEffect(log, k)
    ensures j == k
  {
    if j < k {
      assert Covers(log[..k], j, log[j].payload.cmd.client, log[j].payload.cmd.request);
    } else if k < j {
      assert Covers(log[..j], k, log[j].payload.cmd.client, log[j].payload.cmd.request);
    }
  }

  /** A client that numbers its requests upwards has each of them take effect: the first entry that
      carries a request does, unless a later request of the client was committed before it. */
  lemma FirstTakesEffect(log: seq<Entry>, k: nat)
    requires k < |log| && TrackedWrite(log[k])
    requires forall j: nat :: j < k && TrackedWrite(log[j]) && log[j].payload.cmd.client == log[k].payload.cmd.client ==>
      log[j].payload.cmd.request < log[k].payload.cmd.request
    ensures TakesEffect(log, k)
  {
    var cmd := log[k].payload.cmd;
    forall j: nat | j < k ensures !Covers(log[..k], j, cmd.client, cmd.request) {
      assert log[..k][j] == log[j];
    }
  }

  // ---------------------------------------------------------- repeated requests

  function FoldFrom(st: Store, log: seq<Entry>): Store
    decreases |log|
  {
    if log == [] then st else FoldFrom(ApplyPayload(st, log[0].payload), log[1..])
  }

  /** A snapshot cut changes nothing: applying the rest to the store of a prefix is applying it all. */
  lemma {:induction false} FoldAcrossCut(a: seq<Entry>, b: seq<Entry>)
    ensures Fold(a + b) == FoldFrom(Fold(a), b)
    decreases |b|
  {
    if b == [] {
      assert a + b == a;
    } else {
      assert a + b == (a + [b[0]]) + b[1..];
      FoldAcrossCut(a + [b[0]], b[1..]);
      assert (a + [b[0]])[..|a|] == a;
    }
  }

  /** A tracked write leaves the store and the table alone exactly when it is a duplicate. */
  lemma UnchangedIffDuplicate(st: Store, cmd: Command)
    requires IsWrite(cmd) && Tracked(cmd)
    ensures ApplyCommand(st, cmd) == st <==> Duplicate(st, cmd)
  {
    if !Duplicate(st, cmd) {
      assert ApplyCommand(st, cmd).seen[cmd.client] == cmd.request;
    }
  }

  /** An entry with the request of `e` was committed before. */
  ghost predicate Committed(a: seq<Entry>, e: Entry) {
    exists k: nat {:trigger a[k]} :: k < |a| && a[k].payload == e.payload
  }

  /** Committing a request again, anywhere after it was first committed and on either side of a
      snapshot, changes neither the store nor the table, then or later. */
  lemma RepeatsAreHarmless(a: seq<Entry>, e: Entry, b: seq<Entry>)
    requires TrackedWrite(e) && Committed(a, e)
    ensures Fold(a + [e] + b) == Fold(a + b)
    ensures FoldFrom(Fold(a), [e] + b) == FoldFrom(Fold(a), b)
  {
    var k: nat :| k < |a| && a[k].payload == e.payload;
    var cmd := e.payload.cmd;
    assert Covers(a, k, cmd.client, cmd.request);
    TableIsHighest(a, cmd.client, cmd.request);
    assert ApplyPayload(Fold(a), e.payload) == Fold(a);
    hide Fold, ApplyPayload, SeenBefore, Covers;
    assert ([e] + b)[1..] == b;
    FoldAcrossCut(a, [e] + b);
    FoldAcrossCut(a, b);
    assert a + [e] + b == a + ([e] + b);
  }

  /** A write, not deduplicated, that sets the key of `cmd` to something `cmd` does not. */
  function Contrary(cmd: Command): Command {
    Command("PUT", cmd.key, cmd.val + "'", "", 0)
  }

  /** A request without a client or with a non-positive id is applied every time it is committed: after
      any such write and a contrary one, committing it again undoes the contrary one. */
  lemma UntrackedRepeatsAreNot(e: Entry, f: Entry)
    requires e.payload.Op? && IsWrite(e.payload.cmd) && !Tracked(e.payload.cmd)
    requires f.payload == Op(Contrary(e.payload.cmd))
    ensures Committed([e, f], e) && Fold([e, f] + [e]).kv != Fold([e, f]).kv
  {
    var cmd, a := e.payload.cmd, [e, f];
    assert a[0] == e;
    assert a[..1] == [e] && [e][..0] == [];
    assert (a + [e])[..2] == a;
    assert Fold(a).kv == Write(Fold([e]).kv, Contrary(cmd));
    assert Fold(a).kv[cmd.key] == cmd.val + "'";
    assert |cmd.val + "'"| != |cmd.val|;
    assert Fold(a + [e]).kv == Write(Fold(a).kv, cmd);
  }

  /** So repeating a write is harmless after every log that holds it if and only if it carries a client
      and a positive id. */
  lemma HarmlessIffTracked(e: Entry)
    requires e.payload.Op? && IsWrite(e.payload.cmd)
    ensures Tracked(e.payload.cmd) <==> forall a {:trigger Committed(a, e)} :: Committed(a, e) ==> Fold(a + [e]) == Fold(a)
  {
    hide Fold, Committed;
    if Tracked(e.payload.cmd) {
      forall a | Committed(a, e) ensures Fold(a + [e]) == Fold(a) {
        RepeatsAreHarmless(a, e, []);
        assert a + [e] + [] == a + [e] && a + [] == a;
      }
    } else {
      UntrackedRepeatsAreNot(e, Entry(2, 1, Op(Contrary(e.payload.cmd))));
    }
  }
}
