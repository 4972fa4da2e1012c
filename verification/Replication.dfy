/** Log replication over the ballots of `Election`: what a log may be, given who won which term.

    The state carries the history a proof needs: the log of each term's leader, the log every vote
    was cast with, how much of a leader's log each node has acknowledged, and what was chosen.
    Messages do not appear: a step is allowed whenever the history could justify a message for it. */
module Replication {
  import opened Config
  import opened Log
  import opened Election

  /** An entry of its own term that a leader found on at least half of the members. */
  datatype Choice = Choice(index: nat, quorum: set<NodeId>)

  datatype World = World(
    race: Race,
    logs: map<NodeId, seq<Entry>>,
    commits: map<NodeId, nat>,
    stood: map<(nat, NodeId), seq<Entry>>,   // the log a candidate stood with, by term and name
    voteLogs: map<Vote, seq<Entry>>,         // the log a vote was first cast with
    reigns: map<nat, seq<Entry>>,            // the log of the leader of a term
    acked: map<(NodeId, nat), nat>,          // how much of that log a node acknowledged in the term
    chosen: map<nat, Choice>)                // the furthest choice of each term

  datatype Act =
    | Shuffle(move: Move)                    // Bump, Count, Follow, Save: no log is involved
    | Stand(i: NodeId)
    | Support(i: NodeId, candidate: NodeId)
    | Win(i: NodeId)
    | Propose(i: NodeId, payload: Payload)
    | Accept(i: NodeId, prev: nat, upto: nat, leaderCommit: nat)
    | Choose(i: NodeId, n: nat, quorum: set<NodeId>)
    | Restart(i: NodeId, applied: nat)

  function MoveOf(a: Act): Option<Move> {
    match a
    case Shuffle(m) => Some(m)
    case Stand(i) => Some(Campaign(i))
    case Support(i, c) => Some(Grant(i, c))
    case Win(i) => Some(Elect(i))
    case Restart(i, _) => Some(Crash(i))
    case _ => None
  }

  predicate Pure(m: Move) {
    m.Bump? || m.Count? || m.Follow? || m.Save?
  }

  function Who(a: Act): NodeId {
    match a
    case Shuffle(m) => m.i
    case _ => a.i
  }

  /** The first `k` entries of `log` are covered by a choice of a term up to `bound`. */
  ghost predicate Covered(w: World, log: seq<Entry>, k: nat, bound: nat) {
    k == 0 || exists t: nat :: CoveredBy(w, log, k, t) && t <= bound
  }

  predicate CoveredBy(w: World, log: seq<Entry>, k: nat, t: nat) {
    t in w.chosen && t in w.reigns && k <= w.chosen[t].index && Agree(w.reigns[t], log, k)
  }

  ghost predicate Allowed(w: World, a: Act) {
    && Who(a) in w.race.members && Who(a) in w.race.ballots && Who(a) in w.logs && Who(a) in w.commits
    && (MoveOf(a).Some? ==> Enabled(w.race, MoveOf(a).value))
    && var b := w.race.ballots[Who(a)];
       var log := w.logs[Who(a)];
       match a
       case Shuffle(m) => Pure(m)
       case Stand(i) => true
       case Support(i, c) =>
         (b.term, c) in w.stood && UpToDate(|w.stood[(b.term, c)]|, LastTerm(w.stood[(b.term, c)]), log)
       case Win(i) => true
       case Propose(i, _) => b.role == Leader
       case Accept(i, prev, upto, lc) =>
         && b.role == Follower
         && b.term in w.race.won && b.term in w.reigns && w.race.won[b.term].leader != i
         && var theirs := w.reigns[b.term];
            && prev <= upto <= |theirs| && TermAt(theirs, upto) == b.term
            && prev <= |log| && TermAt(log, prev) == TermAt(theirs, prev)
            && Covered(w, theirs, lc, b.term)
       case Choose(i, n, quorum) =>
         && b.role == Leader
         && 1 <= n <= |log| && TermAt(log, n) == b.term
         && AtLeastHalf(w.race.members, quorum)
         && forall p :: p in quorum ==> (p, b.term) in w.acked && w.acked[(p, b.term)] >= n
       case Restart(i, k) => b.savedTerm == b.term && k <= w.commits[i]
  }

  function Min(a: nat, b: nat): nat {
    if a <= b then a else b
  }

  ghost function Next(w: World, a: Act): World
    requires Allowed(w, a)
  {
    var i := Who(a);
    var b := w.race.ballots[i];
    var log := w.logs[i];
    var race' := if MoveOf(a).Some? then Apply(w.race, MoveOf(a).value) else w.race;
    match a
    case Shuffle(m) => w.(race := race')
    case Stand(_) =>
      w.(race := race', stood := w.stood[(b.term + 1, i) := log],
         voteLogs := w.voteLogs[Vote(b.term + 1, i, i) := log])
    case Support(_, c) =>
      var v := Vote(b.term, i, c);
      w.(race := race', voteLogs := if v in w.voteLogs then w.voteLogs else w.voteLogs[v := log])
    case Win(_) =>
      var log' := log + [Entry(|log| + 1, b.term, Noop)];
      w.(race := race', logs := w.logs[i := log'], reigns := w.reigns[b.term := log'],
         acked := w.acked[(i, b.term) := |log'|])
    case Propose(_, payload) =>
      var log' := log + [Entry(|log| + 1, b.term, payload)];
      w.(logs := w.logs[i := log'], reigns := w.reigns[b.term := log'],
         acked := w.acked[(i, b.term) := |log'|])
    case Accept(_, prev, upto, lc) =>
      var log' := Merge(log, w.reigns[b.term][prev..upto]);
      w.(logs := w.logs[i := log'],
         commits := w.commits[i := if lc > w.commits[i] then Min(lc, |log'|) else w.commits[i]],
         acked := w.acked[(i, b.term) := |log'|])
    case Choose(_, n, quorum) =>
      w.(commits := w.commits[i := if n > w.commits[i] then n else w.commits[i]],
         chosen := if b.term in w.chosen && w.chosen[b.term].index >= n then w.chosen
                   else w.chosen[b.term := Choice(n, quorum)])
    case Restart(_, k) => w.(race := race', commits := w.commits[i := k])
  }

  // -------------------------------------------------------------- invariant

  ghost predicate Shape(w: World) {
    && w.race.ballots.Keys == w.race.members
    && w.logs.Keys == w.race.members && w.commits.Keys == w.race.members
    && w.reigns.Keys == w.race.won.Keys
    && w.voteLogs.Keys == w.race.grants
  }

  /** Every entry came from the leader of its term, together with everything before it. */
  ghost predicate Lineage(reigns: map<nat, seq<Entry>>, log: seq<Entry>) {
    forall k {:trigger log[k]} :: 0 <= k < |log| ==>
      log[k].term in reigns && Agree(log, reigns[log[k].term], k + 1)
  }

  ghost predicate ReignSound(w: World, t: nat) {
    && t in w.reigns && t in w.race.won
    && var log := w.reigns[t];
    var d := w.race.won[t];
    && log != [] && LastTerm(log) == t
    && (forall k {:trigger log[k]} :: 0 <= k < |log| ==> log[k].index == k + 1 && log[k].term <= t)
    && Lineage(w.reigns, log)
    && (t, d.leader) in w.stood
    && var base := w.stood[(t, d.leader)];
       && base <= log
       && forall k {:trigger log[k]} :: 0 <= k < |log| ==> (log[k].term < t <==> k < |base|)
  }

  ghost predicate ReignsSound(w: World) {
    forall t {:trigger ReignSound(w, t)} :: t in w.reigns ==> ReignSound(w, t)
  }

  ghost predicate VoteSound(w: World, v: Vote) {
    && v in w.voteLogs
    && Lineage(w.reigns, w.voteLogs[v])
    && (v.term, v.candidate) in w.stood
    && var base := w.stood[(v.term, v.candidate)];
       UpToDate(|base|, LastTerm(base), w.voteLogs[v])
  }

  /** The first `n` entries of the leader of `t` are in `log`, unless a leader in between had
      already lost them. */
  ghost predicate Kept(w: World, t: nat, n: nat, log: seq<Entry>, bound: nat) {
    t in w.reigns &&
    (|| Agree(w.reigns[t], log, n)
     || exists u: nat :: u in w.reigns && t < u < bound && !Agree(w.reigns[t], w.reigns[u], n))
  }

  ghost predicate AllKept(w: World, t: nat, m: nat, log: seq<Entry>, bound: nat) {
    forall n: nat :: n <= m ==> Kept(w, t, n, log, bound)
  }

  /** A vote that did or still can decide its term. */
  predicate Decisive(w: World, v: Vote) {
    v.term !in w.race.won || v.voter in w.race.won[v.term].voters
  }

  ghost predicate AckSound(w: World, p: NodeId, t: nat) {
    && (p, t) in w.acked
    && t in w.reigns && w.acked[(p, t)] <= |w.reigns[t]|
    && p in w.race.ballots && p in w.logs
    && t <= w.race.ballots[p].term
    && AllKept(w, t, w.acked[(p, t)], w.logs[p], w.race.ballots[p].term + 1)
  }

  ghost predicate VoteRemembers(w: World, v: Vote, t: nat)
    requires v in w.voteLogs && (v.voter, t) in w.acked
  {
    t < v.term && Decisive(w, v) ==> AllKept(w, t, w.acked[(v.voter, t)], w.voteLogs[v], v.term)
  }

  ghost predicate NodeSound(w: World, i: NodeId) {
    && i in w.race.ballots && i in w.logs && i in w.commits
    && var b, log := w.race.ballots[i], w.logs[i];
    && Lineage(w.reigns, log)
    && (forall k {:trigger log[k]} :: 0 <= k < |log| ==> log[k].term <= b.term)
    && (b.role == Candidate ==>
          && (b.term, i) in w.stood && w.stood[(b.term, i)] == log
          && forall k {:trigger log[k]} :: 0 <= k < |log| ==> log[k].term < b.term)
    && (b.role == Leader ==>
          && b.term in w.reigns && w.reigns[b.term] == log
          && (i, b.term) in w.acked && w.acked[(i, b.term)] == |log|
          && (b.term in w.chosen ==> w.chosen[b.term].index <= w.commits[i]))
  }

  ghost predicate CommitSound(w: World, i: NodeId) {
    && i in w.race.ballots && i in w.logs && i in w.commits
    && w.commits[i] <= |w.logs[i]| && Covered(w, w.logs[i], w.commits[i], w.race.ballots[i].term)
  }

  ghost predicate ChoiceSound(w: World, t: nat) {
    && t in w.chosen
    && var c := w.chosen[t];
    && t in w.reigns && 1 <= c.index <= |w.reigns[t]| && TermAt(w.reigns[t], c.index) == t
    && AtLeastHalf(w.race.members, c.quorum)
    && forall p :: p in c.quorum ==> (p, t) in w.acked && w.acked[(p, t)] >= c.index
  }

  ghost predicate Histories(w: World) {
    && |w.race.members| % 2 == 1 && RaceInv(w.race) && Shape(w)
    && ReignsSound(w)
    && (forall v {:trigger VoteSound(w, v)} :: v in w.voteLogs ==> VoteSound(w, v))
    && (forall t, c :: (t, c) in w.stood ==> Vote(t, c, c) in w.race.grants)
    && (forall t {:trigger ChoiceSound(w, t)} :: t in w.chosen ==> ChoiceSound(w, t))
  }

  ghost predicate Memory(w: World) {
    && (forall p, t {:trigger AckSound(w, p, t)} :: (p, t) in w.acked ==> AckSound(w, p, t))
    && (forall v, t {:trigger VoteRemembers(w, v, t)} :: v in w.voteLogs && (v.voter, t) in w.acked ==>
          VoteRemembers(w, v, t))
  }

  ghost predicate WorldInv(w: World) {
    && Histories(w)
    && Memory(w)
    && (forall i {:trigger NodeSound(w, i)} :: i in w.logs ==> NodeSound(w, i))
    && (forall i {:trigger CommitSound(w, i)} :: i in w.logs ==> CommitSound(w, i))
  }

  function Begin(members: set<NodeId>): World {
    World(Start(members), map i | i in members :: [], map i | i in members :: 0,
          map[], map[], map[], map[], map[])
  }

  lemma BeginInv(members: set<NodeId>)
    requires |members| % 2 == 1
    ensures WorldInv(Begin(members))
  {
    StartInv(members);
  }

  // -------------------------------------------------------------- log facts

  /** Logs with the same lineage that agree on one entry's term agree on everything up to it. */
  lemma LineagesMatch(reigns: map<nat, seq<Entry>>, a: seq<Entry>, b: seq<Entry>, k: nat)
    requires Lineage(reigns, a) && Lineage(reigns, b)
    requires k <= |a| && k <= |b| && TermAt(a, k) == TermAt(b, k)
    ensures Agree(a, b, k)
  {
    if k > 0 {
      var t := a[k - 1].term;
      assert b[k - 1].term == t;
      AgreeTrans(a, reigns[t], b, k);
    }
  }

  lemma LineagesAreSorted(w: World, log: seq<Entry>, j: nat, k: nat)
    requires ReignsSound(w) && Lineage(w.reigns, log) && 1 <= j <= k <= |log|
    ensures TermAt(log, j) <= TermAt(log, k)
  {
    var u := log[k - 1].term;
    assert ReignSound(w, u) && Agree(log, w.reigns[u], k);
    AgreeAt(log, w.reigns[u], k, j - 1);
    assert w.reigns[u][j - 1].term <= u;
  }

  /** Merging a piece of `theirs` that overlaps `log` correctly never undoes their agreement. */
  lemma {:induction false} MergeFollows(reigns: map<nat, seq<Entry>>, log: seq<Entry>, theirs: seq<Entry>,
                                        prev: nat, upto: nat, common: nat)
    requires Lineage(reigns, log) && Lineage(reigns, theirs)
    requires forall k {:trigger theirs[k]} :: 0 <= k < |theirs| ==> theirs[k].index == k + 1
    requires prev <= upto <= |theirs| && Agree(log, theirs, prev) && Agree(log, theirs, common)
    ensures var r := Merge(log, theirs[prev..upto]);
      && Agree(r, theirs, upto) && Agree(r, theirs, common)
      && (r == log || r <= theirs)
    decreases upto - prev
  {
    if prev < upto {
      var batch := theirs[prev..upto];
      var e := batch[0];
      assert e == theirs[prev];
      assert batch[1..] == theirs[prev + 1..upto];
      if prev < |log| && log[prev].term == e.term {
        LineagesMatch(reigns, log, theirs, prev + 1);
        MergeFollows(reigns, log, theirs, prev + 1, upto, common);
      } else {
        var log' := log[..prev] + [e];
        assert log' == theirs[..prev + 1];
        assert prev == |log| ==> log' == log + [e];
        if common > prev {
          AgreeAt(log, theirs, common, prev);
        }
        forall k {:trigger log'[k]} | 0 <= k < |log'|
          ensures log'[k].term in reigns && Agree(log', reigns[log'[k].term], k + 1)
        {
          assert log'[k] == theirs[k] && Agree(log', theirs, k + 1);
          AgreeTrans(log', theirs, reigns[log'[k].term], k + 1);
        }
        assert Agree(log', theirs, common);
        MergeFollows(reigns, log', theirs, prev + 1, upto, common);
      }
    }
  }

  /** A log with an entry of term `t` and none of a later term is a piece of term `t`'s log. */
  lemma NewestTermDecides(w: World, log: seq<Entry>, t: nat, upto: nat)
    requires ReignsSound(w) && Lineage(w.reigns, log)
    requires forall k {:trigger log[k]} :: 0 <= k < |log| ==> log[k].term <= t
    requires 1 <= upto <= |log| && TermAt(log, upto) == t
    ensures t in w.reigns && log <= w.reigns[t]
  {
    LineagesAreSorted(w, log, upto, |log|);
    assert log[|log| - 1].term == t;
    assert Agree(log, w.reigns[t], |log|);
    assert log[..|log|] == log;
  }

  /** After a follower of term `t` takes a batch that ends in an entry of term `t`, its whole log,
      and not only the batch, is a prefix of the leader's. */
  lemma MergeYieldsPrefix(w: World, log: seq<Entry>, t: nat, prev: nat, upto: nat, common: nat)
    requires ReignsSound(w) && t in w.reigns && Lineage(w.reigns, log)
    requires forall k {:trigger log[k]} :: 0 <= k < |log| ==> log[k].term <= t
    requires prev <= upto <= |w.reigns[t]| && t >= 1 && TermAt(w.reigns[t], upto) == t
    requires prev <= |log| && TermAt(log, prev) == TermAt(w.reigns[t], prev)
    requires Agree(log, w.reigns[t], common)
    ensures var r := Merge(log, w.reigns[t][prev..upto]);
      r <= w.reigns[t] && upto <= |r| && Agree(r, w.reigns[t], common)
  {
    var theirs := w.reigns[t];
    var r := Merge(log, theirs[prev..upto]);
    assert ReignSound(w, t);
    LineagesMatch(w.reigns, log, theirs, prev);
    MergeFollows(w.reigns, log, theirs, prev, upto, common);
    if r == log {
      AgreeAt(r, theirs, upto, upto - 1);
      NewestTermDecides(w, log, t, upto);
    }
  }

  // ----------------------------------------------------- leader completeness

  lemma LaterTermsComeLater(w: World, log: seq<Entry>, n: nat, m: nat)
    requires ReignsSound(w) && Lineage(w.reigns, log)
    requires 1 <= n <= |log| && 1 <= m <= |log| && TermAt(log, n) < TermAt(log, m)
    ensures n < m
  {
    if m <= n {
      LineagesAreSorted(w, log, m, n);
    }
  }

  /** The vote check hands a chosen prefix from the voter's log to the candidate's. */
  lemma VoteCheckCarries(w: World, t: nat, n: nat, base: seq<Entry>, theirs: seq<Entry>, bound: nat)
    requires ReignsSound(w) && t in w.reigns && 1 <= n <= |w.reigns[t]| && TermAt(w.reigns[t], n) == t
    requires Lineage(w.reigns, base) && Lineage(w.reigns, theirs)
    requires forall k {:trigger base[k]} :: 0 <= k < |base| ==> base[k].term < bound
    requires UpToDate(|base|, LastTerm(base), theirs) && Agree(w.reigns[t], theirs, n)
    requires forall u: nat :: u in w.reigns && t < u < bound ==> Agree(w.reigns[t], w.reigns[u], n)
    ensures Agree(w.reigns[t], base, n)
  {
    AgreeAt(w.reigns[t], theirs, n, n - 1);
    LineagesAreSorted(w, theirs, n, |theirs|);
    var u := LastTerm(base);
    if u == LastTerm(theirs) {
      assert base[|base| - 1].term == u && theirs[|theirs| - 1].term == u;
      AgreeLess(base, w.reigns[u], |base|, n);
      AgreeLess(theirs, w.reigns[u], |theirs|, n);
      AgreeTrans(w.reigns[t], theirs, w.reigns[u], n);
      AgreeTrans(w.reigns[t], w.reigns[u], base, n);
    } else {
      assert u > t && base[|base| - 1].term == u < bound;
      assert Agree(base, w.reigns[u], |base|) && Agree(w.reigns[t], w.reigns[u], n);
      AgreeAt(w.reigns[t], w.reigns[u], n, n - 1);
      AgreeAt(base, w.reigns[u], |base|, |base| - 1);
      assert ReignSound(w, u);
      LaterTermsComeLater(w, w.reigns[u], n, |base|);
      AgreeLess(base, w.reigns[u], |base|, n);
      AgreeTrans(w.reigns[t], w.reigns[u], base, n);
    }
  }

  /** Leader completeness: whatever a term chose is in the log of every later term's leader, and
      was there already when that leader stood. */
  lemma {:induction false} ChosenReachesLaterLeaders(w: World, t: nat, t': nat)
    requires Histories(w) && Memory(w)
    requires t in w.chosen && t in w.reigns && t' in w.reigns && t' in w.race.won && t < t'
    ensures Agree(w.reigns[t], w.reigns[t'], w.chosen[t].index)
    ensures var base := (t', w.race.won[t'].leader);
      base in w.stood && Agree(w.reigns[t], w.stood[base], w.chosen[t].index)
    decreases t'
  {
    var n, quorum := w.chosen[t].index, w.chosen[t].quorum;
    assert ChoiceSound(w, t) && ReignSound(w, t') && MandateSound(w.race, t');
    var d := w.race.won[t'];
    HalvesOverlap(w.race.members, quorum, d.voters);
    var p :| p in quorum * d.voters * w.race.members;
    var v := Vote(t', p, d.leader);
    assert v in w.race.grants && VoteSound(w, v) && VoteRemembers(w, v, t);
    var base := w.stood[(t', d.leader)];
    forall u: nat | u in w.reigns && t < u < t'
      ensures Agree(w.reigns[t], w.reigns[u], n)
    {
      ChosenReachesLaterLeaders(w, t, u);
    }
    assert Kept(w, t, n, w.voteLogs[v], t');
    BaseLineage(w, t', base);
    VoteCheckCarries(w, t, n, base, w.voteLogs[v], t');
    AgreePrefix(base, w.reigns[t'], n);
    AgreeTrans(w.reigns[t], base, w.reigns[t'], n);
  }

  lemma BaseLineage(w: World, t: nat, base: seq<Entry>)
    requires ReignSound(w, t) && base == w.stood[(t, w.race.won[t].leader)]
    ensures Lineage(w.reigns, base)
    ensures forall k {:trigger base[k]} :: 0 <= k < |base| ==> base[k].term < t
  {
    var log := w.reigns[t];
    assert ReignSound(w, t);
    forall k {:trigger base[k]} | 0 <= k < |base|
      ensures base[k].term in w.reigns && Agree(base, w.reigns[base[k].term], k + 1) && base[k].term < t
    {
      assert base[k] == log[k];
      AgreePrefix(base, log, k + 1);
      AgreeTrans(base, log, w.reigns[base[k].term], k + 1);
    }
  }

  lemma ReignHoldsChoice(w: World, u: nat, log: seq<Entry>, k: nat, t: nat)
    requires Histories(w) && Memory(w) && CoveredBy(w, log, k, u)
    requires t in w.reigns && u <= t
    ensures Agree(log, w.reigns[t], k)
  {
    if u < t {
      ChosenReachesLaterLeaders(w, u, t);
      AgreeLess(w.reigns[u], w.reigns[t], w.chosen[u].index, k);
    }
  }

  /** A leader's log holds everything covered by a choice of its own term or an earlier one. */
  lemma ReignHoldsCovered(w: World, log: seq<Entry>, k: nat, bound: nat, t: nat)
    requires Histories(w) && Memory(w) && k <= |log| && Covered(w, log, k, bound)
    requires t in w.reigns && bound <= t
    ensures Agree(log, w.reigns[t], k)
  {
    if k > 0 {
      var u: nat :| CoveredBy(w, log, k, u) && u <= bound;
      ReignHoldsChoice(w, u, log, k, t);
    }
  }

  /** What two nodes have committed never differs. */
  lemma CommittedLogsAgree(w: World, i: NodeId, j: NodeId, k: nat)
    requires Histories(w) && Memory(w) && CommitSound(w, i) && CommitSound(w, j)
    requires k <= w.commits[i] && k <= w.commits[j]
    ensures Agree(w.logs[i], w.logs[j], k)
  {
    var t, u := w.race.ballots[i].term, w.race.ballots[j].term;
    CoveredLogsAgree(w, w.logs[i], w.commits[i], t, w.logs[j], w.commits[j], u, k);
  }

  lemma CoveredLogsAgree(w: World, a: seq<Entry>, ka: nat, ta: nat, b: seq<Entry>, kb: nat, tb: nat, k: nat)
    requires Histories(w) && Memory(w)
    requires ka <= |a| && kb <= |b| && Covered(w, a, ka, ta) && Covered(w, b, kb, tb)
    requires k <= ka && k <= kb
    ensures Agree(a, b, k)
  {
    if k > 0 {
      var t: nat :| CoveredBy(w, a, ka, t) && t <= ta;
      var u: nat :| CoveredBy(w, b, kb, u) && u <= tb;
      if t <= u {
        ReignHoldsCovered(w, a, ka, t, u);
        AgreeLess(a, w.reigns[u], ka, k);
        AgreeLess(w.reigns[u], b, kb, k);
      } else {
        ReignHoldsCovered(w, b, kb, u, t);
        AgreeLess(b, w.reigns[t], kb, k);
        AgreeLess(w.reigns[t], a, ka, k);
      }
    }
  }
}
