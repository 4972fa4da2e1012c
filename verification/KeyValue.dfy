/** The replicated key-value store and its request deduplication. */
module KeyValue {
  import opened Log

  /** `seen` is the deduplication table: the highest request id applied for a client. */
  datatype Store = Store(kv: map<string, string>, seen: map<string, int>)

  function EmptyStore(): Store {
    Store(map[], map[])
  }

  /** Only requests that carry a client and a positive id are deduplicated. */
  predicate Tracked(cmd: Command) {
    cmd.client != "" && cmd.request > 0
  }

  predicate IsWrite(cmd: Command) {
    cmd.op == "PUT" || cmd.op == "DEL"
  }

  predicate Duplicate(st: Store, cmd: Command) {
    Tracked(cmd) && cmd.client in st.seen && cmd.request <= st.seen[cmd.client]
  }

  function Write(kv: map<string, string>, cmd: Command): map<string, string> {
    if cmd.op == "PUT" then kv[cmd.key := cmd.val]
    else if cmd.op == "DEL" then kv - {cmd.key}
    else kv
  }

  function ApplyCommand(st: Store, cmd: Command): Store {
    if Duplicate(st, cmd) then st
    else
      Store(Write(st.kv, cmd),
            if IsWrite(cmd) && Tracked(cmd) then st.seen[cmd.client := cmd.request] else st.seen)
  }

  function ApplyPayload(st: Store, p: Payload): Store {
    match p
    case Op(cmd) => ApplyCommand(st, cmd)
    case _ => st
  }

  /** The store after every entry of a log, in order. */
  function Fold(log: seq<Entry>): Store {
    if log == [] then EmptyStore()
    else ApplyPayload(Fold(log[..|log| - 1]), log[|log| - 1].payload)
  }

  lemma FoldNext(log: seq<Entry>, k: nat)
    requires k < |log|
    ensures Fold(log[..k + 1]) == ApplyPayload(Fold(log[..k]), log[k].payload)
  {
    assert log[..k + 1][..k] == log[..k];
  }
}
