/** The guarantees of a fixed cluster of odd size, over whole runs and for every node and time.

    Messages may be lost, delayed, repeated and reordered; nodes may compact their logs at any
    commit, and restart whenever their journal is up to date (`SafeRun`). */
module Theorems {
  import opened Config
  import opened Log
  import opened Wal
  import opened KeyValue
  import opened Election
  import opened Replication
  import opened ReplicationProof
  import opened ServerSpec
  import opened Compaction
  import opened Cluster
  import opened Simulation
  import opened Safety

  /** The server still holds the entries that `k` numbers. */
  predicate Held(s: Server, k: nat) {
    s.lastIncludedIndex < k <= LastLogIndex(s)
  }

  // ------------------------------------------------- reading off the simulation

  lemma SimAt(ws: seq<World>, nets: seq<Net>, k: nat, i: NodeId)
    requires Tracks(ws, nets) && k < |nets| && i in ws[k].race.members
    ensures Sim(ws[k], nets[k]) && WorldInv(ws[k])
    ensures i in nets[k].servers && NodeSim(ws[k], i, nets[k].servers[i])
  {
    hide WorldInv, NodeSim, Grows;
    assert Sim(ws[k], nets[k]);
    assert NodeSim(ws[k], i, nets[k].servers[i]);
  }

  lemma TracksMembers(members: set<NodeId>, nets: seq<Net>, events: seq<Event>, ws: seq<World>, k: nat)
    requires SafeRun(members, nets, events) && Tracks(ws, nets) && k < |nets|
    ensures ws[k].race.members == members
  {
    hide WorldInv, NodeSim, Possible, Step, Safe;
    assert Sim(ws[0], nets[0]) && Grows(ws[0], ws[k]);
  }

  /** What a server has applied, as a piece of its node's unbounded log. */
  lemma AppliedOf(w: World, i: NodeId, s: Server)
    requires NodeSim(w, i, s)
    ensures s.lastApplied == w.commits[i] <= |w.logs[i]| && s.store == Fold(w.logs[i][..s.lastApplied])
    ensures forall k: nat :: Held(s, k) ==> k <= |w.logs[i]| && GetEntry(s, k) == Some(w.logs[i][k - 1])
    ensures LastLogIndex(s) == |w.logs[i]|
  {
    hide Fold, Replay;
    IndicesAgree(s, w.logs[i]);
    forall k: nat | Held(s, k) ensures k <= |w.logs[i]| && GetEntry(s, k) == Some(w.logs[i][k - 1]) {
      EntriesAgree(s, w.logs[i], k);
    }
  }

  lemma {:induction false} LargestTerm(terms: set<nat>) returns (m: nat)
    requires terms != {}
    ensures m in terms && forall t :: t in terms ==> t <= m
  {
    var t :| t in terms;
    if terms == {t} {
      m := t;
    } else {
      assert terms == {t} + (terms - {t});
      m := LargestTerm(terms - {t});
      if m < t {
        m := t;
      }
    }
  }

  // -------------------------------------------------------- state machine safety

  /** `s` has applied exactly the first entries of `history`. */
  ghost predicate Follows(s: Server, history: seq<Entry>) {
    && s.lastApplied <= |history| && s.store == Fold(history[..s.lastApplied])
    && forall k: nat {:trigger GetEntry(s, k)} :: Held(s, k) && k <= s.lastApplied ==> GetEntry(s, k) == Some(history[k - 1])
  }

  lemma CoveredInLatest(w: World, w': World, i: NodeId, s: Server, t: nat)
    requires WorldInv(w) && WorldInv(w') && Grows(w, w') && NodeSim(w, i, s)
    requires t in w'.chosen && t in w'.reigns && forall u :: u in w'.chosen ==> u <= t
    ensures Agree(w.logs[i], w'.reigns[t], s.lastApplied)
  {
    assert CommitSound(w, i) && Histories(w') && Memory(w');
    hide WorldInv, Histories, Memory, Fold, Replay;
    var log, k, bound := w.logs[i], w.commits[i], w.race.ballots[i].term;
    CoveredGrows(w, w', log, log, k, bound, bound);
    if k > 0 {
      var u: nat :| CoveredBy(w', log, k, u) && u <= bound;
      ReignHoldsChoice(w', u, log, k, t);
    }
  }

  lemma AppliedWasChosen(w: World, w': World, i: NodeId, s: Server)
    requires WorldInv(w) && Grows(w, w') && NodeSim(w, i, s) && s.lastApplied > 0
    ensures exists t :: t in w'.chosen
  {
    assert CommitSound(w, i);
    hide WorldInv, Fold, Replay;
    var u: nat :| CoveredBy(w, w.logs[i], w.commits[i], u) && u <= w.race.ballots[i].term;
    assert u in w'.chosen;
  }

  lemma FollowsFrom(w: World, i: NodeId, s: Server, history: seq<Entry>)
    requires NodeSim(w, i, s) && Agree(w.logs[i], history, s.lastApplied)
    ensures Follows(s, history)
  {
    hide Fold, Replay;
    AppliedOf(w, i, s);
    forall k: nat | Held(s, k) && k <= s.lastApplied ensures GetEntry(s, k) == Some(history[k - 1]) {
      AgreeAt(w.logs[i], history, s.lastApplied, k - 1);
    }
  }

  ghost predicate FollowsAt(nets: seq<Net>, a: nat, i: NodeId, history: seq<Entry>)
    requires a < |nets|
  {
    i in nets[a].servers && Follows(nets[a].servers[i], history)
  }

  /** State machine safety.  A whole run has one history: at every time, every node has applied a
      prefix of it, and its store is the result of exactly that prefix. */
  lemma OneHistory(members: set<NodeId>, nets: seq<Net>, events: seq<Event>) returns (history: seq<Entry>)
    requires SafeRun(members, nets, events)
    ensures forall a, i {:trigger FollowsAt(nets, a, i, history)} :: 0 <= a < |nets| && i in members ==>
      FollowsAt(nets, a, i, history)
  {
    hide Follows, SafeRun;
    var ws := RunSim(members, nets, events);
    history := HistoryOf(members, nets, events, ws);
  }

  /** And every node's unbounded log starts with what it applied of that history. */
  lemma HistoryOf(members: set<NodeId>, nets: seq<Net>, events: seq<Event>, ws: seq<World>) returns (history: seq<Entry>)
    requires SafeRun(members, nets, events) && Tracks(ws, nets)
    ensures forall a, i {:trigger FollowsAt(nets, a, i, history)} :: 0 <= a < |nets| && i in members ==>
      FollowsAt(nets, a, i, history) && i in ws[a].logs && Agree(ws[a].logs[i], history, nets[a].servers[i].lastApplied)
  {
    hide Sim, WorldInv, NodeSim, Grows, Possible, Step, Safe, Follows, Initial;
    var last := ws[|events|];
    assert Sim(last, nets[|events|]);
    history := [];
    var t := 0;
    if last.chosen.Keys != {} {
      t := LargestTerm(last.chosen.Keys);
      ChoiceInReign(last, nets[|events|], t);
      history := last.reigns[t];
    }
    forall a, i | 0 <= a < |nets| && i in members
      ensures FollowsAt(nets, a, i, history) && i in ws[a].logs && Agree(ws[a].logs[i], history, nets[a].servers[i].lastApplied)
    {
      TracksMembers(members, nets, events, ws, a);
      SimAt(ws, nets, a, i);
      SimWorld(last, nets[|events|]);
      assert Grows(ws[a], last);
      var s := nets[a].servers[i];
      InLogs(ws[a], i, s);
      if last.chosen.Keys == {} {
        if s.lastApplied > 0 {
          AppliedWasChosen(ws[a], last, i, s);
        }
      } else {
        CoveredInLatest(ws[a], last, i, s, t);
      }
      FollowsFrom(ws[a], i, s, history);
    }
  }

  lemma SimWorld(w: World, net: Net)
    requires Sim(w, net)
    ensures WorldInv(w)
  {
  }

  lemma ChoiceInReign(w: World, net: Net, t: nat)
    requires Sim(w, net) && t in w.chosen
    ensures t in w.reigns
  {
    assert ChoiceSound(w, t);
  }

  /** Two servers agree on every applied entry they still hold, and on the store. */
  ghost predicate Consistent(s: Server, r: Server) {
    && (s.lastApplied == r.lastApplied ==> s.store == r.store)
    && forall k: nat :: Held(s, k) && Held(r, k) && k <= s.lastApplied && k <= r.lastApplied ==> GetEntry(s, k) == GetEntry(r, k)
  }

  /** No two nodes ever apply different entries at the same index, and nodes that applied equally
      many entries have the same store. */
  lemma StateMachineSafety(members: set<NodeId>, nets: seq<Net>, events: seq<Event>, a: nat, i: NodeId, b: nat, j: NodeId)
    requires SafeRun(members, nets, events) && a < |nets| && b < |nets| && i in members && j in members
    ensures i in nets[a].servers && j in nets[b].servers && Consistent(nets[a].servers[i], nets[b].servers[j])
  {
    hide SafeRun, GetEntry, Fold;
    var history := OneHistory(members, nets, events);
    assert FollowsAt(nets, a, i, history) && FollowsAt(nets, b, j, history);
    var s, r := nets[a].servers[i], nets[b].servers[j];
    assert Follows(s, history) && Follows(r, history);
  }
}
