/** Every step of `Replication` keeps its invariant, and only adds to the history. */
module ReplicationProof {
  import opened Config
  import opened Log
  import opened Election
  import opened Replication

  /** History only grows: leaders' logs are extended, votes and acknowledgements never withdrawn. */
  ghost predicate Grows(w: World, w': World) {
    && Extends(w.race, w'.race)
    && (forall t {:trigger t in w'.reigns} {:trigger w.reigns[t]} {:trigger w'.reigns[t]} ::
          t in w.reigns ==> t in w'.reigns && w.reigns[t] <= w'.reigns[t])
    && (forall k {:trigger k in w'.stood} {:trigger w.stood[k]} :: k in w.stood ==> k in w'.stood && w'.stood[k] == w.stood[k])
    && (forall v {:trigger v in w'.voteLogs} {:trigger w.voteLogs[v]} ::
          v in w.voteLogs ==> v in w'.voteLogs && w'.voteLogs[v] == w.voteLogs[v])
    && (forall k {:trigger k in w'.acked} {:trigger w.acked[k]} :: k in w.acked ==> k in w'.acked && w.acked[k] <= w'.acked[k])
    && (forall t {:trigger t in w'.chosen} {:trigger w.chosen[t]} ::
          t in w.chosen ==> t in w'.chosen && w.chosen[t].index <= w'.chosen[t].index)
  }

  lemma GrowsTransitive(w0: World, w1: World, w2: World)
    requires Grows(w0, w1) && Grows(w1, w2)
    ensures Grows(w0, w2)
  {
    forall t | t in w0.reigns ensures t in w2.reigns && w0.reigns[t] <= w2.reigns[t] {
      assert t in w1.reigns;
    }
    forall k | k in w0.acked ensures k in w2.acked && w0.acked[k] <= w2.acked[k] {
      assert k in w1.acked;
    }
    forall t | t in w0.chosen ensures t in w2.chosen && w0.chosen[t].index <= w2.chosen[t].index {
      assert t in w1.chosen;
    }
    forall k | k in w0.stood ensures k in w2.stood && w2.stood[k] == w0.stood[k] {
      assert k in w1.stood;
    }
    forall v | v in w0.voteLogs ensures v in w2.voteLogs && w2.voteLogs[v] == w0.voteLogs[v] {
      assert v in w1.voteLogs;
    }
    forall t | t in w0.race.won ensures t in w2.race.won && w2.race.won[t] == w0.race.won[t] {
      assert t in w1.race.won;
    }
  }

  lemma LineageGrows(w: World, w': World, log: seq<Entry>)
    requires Grows(w, w') && Lineage(w.reigns, log)
    ensures Lineage(w'.reigns, log)
  {
    forall k {:trigger log[k]} | 0 <= k < |log|
      ensures log[k].term in w'.reigns && Agree(log, w'.reigns[log[k].term], k + 1)
    {
      var t := log[k].term;
      AgreePrefix(w.reigns[t], w'.reigns[t], k + 1);
      AgreeTrans(log, w.reigns[t], w'.reigns[t], k + 1);
    }
  }

  /** Later leaders only add entries of their own term, so what they lack they keep lacking. */
  lemma LackGrows(w: World, w': World, t: nat, u: nat, n: nat)
    requires Grows(w, w') && ReignSound(w, t) && ReignSound(w, u) && t < u && n <= |w.reigns[t]|
    requires Agree(w'.reigns[t], w'.reigns[u], n)
    ensures Agree(w.reigns[t], w.reigns[u], n)
  {
    var a, b, a', b' := w.reigns[t], w.reigns[u], w'.reigns[t], w'.reigns[u];
    if |b| < n {
      assert a[|b| - 1].term <= t && b[|b| - 1].term == u;
      AgreeAt(a', b', n, |b| - 1);
    } else {
      AgreePrefix(a, a', n);
      AgreePrefix(b, b', n);
    }
  }

  lemma KeptGrows(w: World, w': World, t: nat, n: nat, log: seq<Entry>, log': seq<Entry>, bound: nat, bound': nat)
    requires Grows(w, w') && ReignsSound(w) && t in w.reigns && n <= |w.reigns[t]|
    requires Kept(w, t, n, log, bound) && log <= log' && bound <= bound'
    ensures Kept(w', t, n, log', bound')
  {
    if Agree(w.reigns[t], log, n) {
      AgreePrefix(w.reigns[t], w'.reigns[t], n);
      AgreePrefix(log, log', n);
    } else {
      var u: nat :| u in w.reigns && t < u < bound && !Agree(w.reigns[t], w.reigns[u], n);
      assert ReignSound(w, t) && ReignSound(w, u) && u in w'.reigns;
      if Agree(w'.reigns[t], w'.reigns[u], n) {
        LackGrows(w, w', t, u, n);
      }
    }
  }

  lemma AllKeptGrows(w: World, w': World, t: nat, m: nat, log: seq<Entry>, log': seq<Entry>, bound: nat, bound': nat)
    requires Grows(w, w') && ReignsSound(w) && t in w.reigns && m <= |w.reigns[t]|
    requires AllKept(w, t, m, log, bound) && log <= log' && bound <= bound'
    ensures AllKept(w', t, m, log', bound')
  {
    forall n: nat | n <= m ensures Kept(w', t, n, log', bound') {
      KeptGrows(w, w', t, n, log, log', bound, bound');
    }
  }

  lemma CoveredGrows(w: World, w': World, log: seq<Entry>, log': seq<Entry>, k: nat, bound: nat, bound': nat)
    requires Grows(w, w') && Covered(w, log, k, bound) && bound <= bound'
    requires k <= |log| && log <= log'
    ensures Covered(w', log', k, bound')
  {
    if k > 0 {
      var t: nat :| CoveredBy(w, log, k, t) && t <= bound;
      assert t in w'.chosen && t in w'.reigns;
      AgreePrefix(w.reigns[t], w'.reigns[t], k);
      AgreePrefix(log, log', k);
      assert CoveredBy(w', log', k, t);
    }
  }

  lemma ReignStays(w: World, w': World, t: nat)
    requires Grows(w, w') && ReignSound(w, t) && w'.reigns[t] == w.reigns[t]
    ensures ReignSound(w', t)
  {
    LineageGrows(w, w', w.reigns[t]);
    assert (t, w.race.won[t].leader) in w'.stood;
  }

  lemma VoteSoundGrows(w: World, w': World, v: Vote)
    requires Grows(w, w') && VoteSound(w, v)
    ensures VoteSound(w', v)
  {
    LineageGrows(w, w', w.voteLogs[v]);
    assert (v.term, v.candidate) in w'.stood;
  }

  lemma ChoiceStays(w: World, w': World, t: nat)
    requires Grows(w, w') && ChoiceSound(w, t) && w'.chosen[t] == w.chosen[t]
    ensures ChoiceSound(w', t)
  {
    assert t in w'.reigns && t in w'.chosen;
    forall p | p in w.chosen[t].quorum ensures (p, t) in w'.acked && w'.acked[(p, t)] >= w.chosen[t].index {
      assert (p, t) in w'.acked;
    }
  }

  /** Nothing about node `j` itself changes. */
  ghost predicate Untouched(w: World, w': World, j: NodeId) {
    && j in w.race.ballots && j in w'.race.ballots && w'.race.ballots[j] == w.race.ballots[j]
    && j in w.logs && j in w'.logs && w'.logs[j] == w.logs[j]
    && j in w.commits && j in w'.commits && w'.commits[j] == w.commits[j]
    && forall t {:trigger (j, t) in w'.acked} {:trigger w'.acked[(j, t)]} :: (j, t) in w'.acked ==> (j, t) in w.acked && w'.acked[(j, t)] == w.acked[(j, t)]
  }

  lemma UntouchedStaysSound(w: World, w': World, j: NodeId)
    requires Grows(w, w') && ReignsSound(w) && Untouched(w, w', j)
    requires NodeSound(w, j) && CommitSound(w, j)
    requires w.race.ballots[j].role == Leader ==> w'.reigns[w.race.ballots[j].term] == w.reigns[w.race.ballots[j].term]
    requires w.race.ballots[j].role == Leader && w.race.ballots[j].term in w'.chosen ==>
      w.race.ballots[j].term in w.chosen && w'.chosen[w.race.ballots[j].term] == w.chosen[w.race.ballots[j].term]
    ensures NodeSound(w', j) && CommitSound(w', j)
  {
    var b := w.race.ballots[j];
    LineageGrows(w, w', w.logs[j]);
    CoveredGrows(w, w', w.logs[j], w.logs[j], w.commits[j], b.term, b.term);
    assert b.role == Candidate ==> (b.term, j) in w'.stood;
    assert b.role == Leader ==> (j, b.term) in w'.acked;
  }

  lemma UntouchedAcks(w: World, w': World, j: NodeId, t: nat)
    requires Grows(w, w') && ReignsSound(w) && Untouched(w, w', j)
    requires (j, t) in w'.acked && AckSound(w, j, t)
    ensures AckSound(w', j, t)
  {
    AllKeptGrows(w, w', t, w.acked[(j, t)], w.logs[j], w.logs[j], w.race.ballots[j].term + 1, w.race.ballots[j].term + 1);
    assert t in w'.reigns;
  }

  // ------------------------------------------------------ one step at a time

  /** What is acknowledged in the current term is in the node's log. */
  lemma AckedIsHeld(w: World, i: NodeId)
    requires WorldInv(w) && i in w.race.ballots && (i, w.race.ballots[i].term) in w.acked
    ensures var t := w.race.ballots[i].term;
      t in w.reigns && Agree(w.reigns[t], w.logs[i], w.acked[(i, t)])
  {
    var t := w.race.ballots[i].term;
    assert AckSound(w, i, t);
    assert Kept(w, t, w.acked[(i, t)], w.logs[i], t + 1);
  }

  /** A batch from the leader leaves a follower with a prefix of the leader's log, and never
      shortens what the two already shared. */
  lemma AcceptYieldsPrefix(w: World, i: NodeId, prev: nat, upto: nat, lc: nat, common: nat)
    requires WorldInv(w) && Allowed(w, Accept(i, prev, upto, lc))
    requires Agree(w.logs[i], w.reigns[w.race.ballots[i].term], common)
    ensures var theirs := w.reigns[w.race.ballots[i].term];
      var r := Merge(w.logs[i], theirs[prev..upto]);
      r <= theirs && upto <= |r| && Agree(r, theirs, common)
  {
    assert NodeSound(w, i) && MandateSound(w.race, w.race.ballots[i].term);
    MergeYieldsPrefix(w, w.logs[i], w.race.ballots[i].term, prev, upto, common);
  }

  /** A step never shortens what its node has acknowledged. */
  lemma AcceptKeepsAcked(w: World, i: NodeId, prev: nat, upto: nat, lc: nat)
    requires WorldInv(w) && Allowed(w, Accept(i, prev, upto, lc))
    requires (i, w.race.ballots[i].term) in w.acked
    ensures w.acked[(i, w.race.ballots[i].term)] <= |Merge(w.logs[i], w.reigns[w.race.ballots[i].term][prev..upto])|
  {
    AckedIsHeld(w, i);
    AcceptYieldsPrefix(w, i, prev, upto, lc, w.acked[(i, w.race.ballots[i].term)]);
  }

  lemma AcksAreSound(w: World, p: NodeId, t: nat)
    requires WorldInv(w) && (p, t) in w.acked
    ensures AckSound(w, p, t) && ReignsSound(w)
  {
    assert AckSound(w, p, t);
  }

  lemma AcksAreOfWonTerms(w: World, p: NodeId, t: nat)
    requires WorldInv(w) && (p, t) in w.acked
    ensures t in w.reigns
  {
    assert AckSound(w, p, t);
  }

  lemma WinIsFresh(w: World, i: NodeId)
    requires WorldInv(w) && Allowed(w, Win(i))
    ensures w.race.ballots[i].term !in w.race.won && w.race.ballots[i].term !in w.reigns
    ensures forall p :: (p, w.race.ballots[i].term) !in w.acked
  {
    var t := w.race.ballots[i].term;
    TermsAreWonOnce(w.race, i);
    forall p ensures (p, t) !in w.acked {
      if (p, t) in w.acked {
        AcksAreOfWonTerms(w, p, t);
      }
    }
  }

  lemma StandIsFresh(w: World, i: NodeId)
    requires WorldInv(w) && Allowed(w, Stand(i))
    ensures (w.race.ballots[i].term + 1, i) !in w.stood
    ensures forall v :: v in w.race.grants && v.voter == i ==> v.term <= w.race.ballots[i].term
  {
    assert VotesOnRecord(w.race, i);
  }

  lemma StepExtendsRace(w: World, a: Act)
    requires WorldInv(w) && Allowed(w, a)
    ensures Extends(w.race, Next(w, a).race)
    ensures RaceInv(Next(w, a).race)
    ensures forall j :: j in w.race.ballots && j != Who(a) ==>
      j in Next(w, a).race.ballots && Next(w, a).race.ballots[j] == w.race.ballots[j]
  {
    hide Memory, RaceInv, ReignsSound, NodeSound, CommitSound, VoteSound, ChoiceSound;
    if MoveOf(a).Some? {
      MoveExtends(w.race, MoveOf(a).value);
      MoveKeepsInv(w.race, MoveOf(a).value);
    }
  }

  lemma WinGrows(w: World, i: NodeId)
    requires WorldInv(w) && Allowed(w, Win(i))
    ensures Grows(w, Next(w, Win(i)))
  {
    StepExtendsRace(w, Win(i));
    WinIsFresh(w, i);
  }

  lemma StandGrows(w: World, i: NodeId)
    requires WorldInv(w) && Allowed(w, Stand(i))
    ensures Grows(w, Next(w, Stand(i)))
  {
    hide Memory, RaceInv, ReignsSound, NodeSound, CommitSound, VoteSound, ChoiceSound, Extends;
    StepExtendsRace(w, Stand(i));
    StandIsFresh(w, i);
  }

  lemma AcceptGrows(w: World, i: NodeId, prev: nat, upto: nat, lc: nat)
    requires WorldInv(w) && Allowed(w, Accept(i, prev, upto, lc))
    ensures Grows(w, Next(w, Accept(i, prev, upto, lc)))
  {
    if (i, w.race.ballots[i].term) in w.acked {
      AcceptKeepsAcked(w, i, prev, upto, lc);
    }
  }

  lemma ProposeGrows(w: World, i: NodeId, payload: Payload)
    requires WorldInv(w) && Allowed(w, Propose(i, payload))
    ensures Grows(w, Next(w, Propose(i, payload)))
  {
    assert NodeSound(w, i);
  }

  /** Steps that only change the race, a commit index, or add a vote or a choice. */
  lemma QuietStepGrows(w: World, a: Act)
    requires WorldInv(w) && Allowed(w, a) && (a.Shuffle? || a.Restart?)
    ensures Grows(w, Next(w, a))
  {
    StepExtendsRace(w, a);
    assert Next(w, a) == w.(race := Next(w, a).race, commits := Next(w, a).commits);
  }

  lemma SupportGrows(w: World, i: NodeId, c: NodeId)
    requires WorldInv(w) && Allowed(w, Support(i, c))
    ensures Grows(w, Next(w, Support(i, c)))
  {
    StepExtendsRace(w, Support(i, c));
  }

  lemma ChooseGrows(w: World, i: NodeId, n: nat, quorum: set<NodeId>)
    requires WorldInv(w) && Allowed(w, Choose(i, n, quorum))
    ensures Grows(w, Next(w, Choose(i, n, quorum)))
  {
  }

  lemma StepGrows(w: World, a: Act)
    requires WorldInv(w) && Allowed(w, a)
    ensures Grows(w, Next(w, a))
  {
    match a
    case Stand(i) => StandGrows(w, i);
    case Win(i) => WinGrows(w, i);
    case Propose(i, payload) => ProposeGrows(w, i, payload);
    case Accept(i, prev, upto, lc) => AcceptGrows(w, i, prev, upto, lc);
    case Support(i, c) => SupportGrows(w, i, c);
    case Choose(i, n, quorum) => ChooseGrows(w, i, n, quorum);
    case _ => QuietStepGrows(w, a);
  }

  // ---------------------------------------------- leaders' logs stay sound

  lemma LongerReignSound(w: World, w': World, t: nat, e: Entry)
    requires Grows(w, w') && ReignSound(w, t) && w'.reigns[t] == w.reigns[t] + [e]
    requires e.index == |w.reigns[t]| + 1 && e.term == t
    ensures ReignSound(w', t)
  {
    var log := w.reigns[t];
    LineageGrows(w, w', log);
    LineageAppended(w'.reigns, log, e, t);
    assert (t, w.race.won[t].leader) in w'.stood && t in w'.race.won;
  }

  lemma ReignExtended(w: World, i: NodeId, payload: Payload)
    requires WorldInv(w) && Allowed(w, Propose(i, payload))
    ensures ReignSound(Next(w, Propose(i, payload)), w.race.ballots[i].term)
  {
    var t := w.race.ballots[i].term;
    assert NodeSound(w, i) && ReignSound(w, t);
    ProposeGrows(w, i, payload);
    LongerReignSound(w, Next(w, Propose(i, payload)), t, Entry(|w.logs[i]| + 1, t, payload));
  }

  lemma LineageAppended(reigns: map<nat, seq<Entry>>, log: seq<Entry>, e: Entry, t: nat)
    requires Lineage(reigns, log) && e.term == t && t in reigns && reigns[t] == log + [e]
    ensures Lineage(reigns, log + [e])
  {
    var log' := log + [e];
    forall k {:trigger log'[k]} | 0 <= k < |log'|
      ensures log'[k].term in reigns && Agree(log', reigns[log'[k].term], k + 1)
    {
      if k < |log| {
        assert log'[k] == log[k];
        AgreePrefix(log, log', k + 1);
        AgreeTrans(log', log, reigns[log[k].term], k + 1);
      }
    }
  }

  lemma NewReignSound(w: World, w': World, i: NodeId, e: Entry)
    requires Grows(w, w') && ReignsSound(w) && NodeSound(w, i) && w.race.ballots[i].role == Candidate
    requires e.index == |w.logs[i]| + 1 && e.term == w.race.ballots[i].term
    requires e.term in w'.reigns && w'.reigns[e.term] == w.logs[i] + [e]
    requires e.term in w'.race.won && w'.race.won[e.term].leader == i
    ensures ReignSound(w', e.term)
  {
    var log := w.logs[i];
    LineageGrows(w, w', log);
    LineageAppended(w'.reigns, log, e, e.term);
    LineageIndices(w, log);
    assert (e.term, i) in w'.stood;
  }

  lemma ReignFounded(w: World, i: NodeId)
    requires WorldInv(w) && Allowed(w, Win(i))
    ensures ReignSound(Next(w, Win(i)), w.race.ballots[i].term)
  {
    WinGrows(w, i);
    assert NodeSound(w, i);
    NewReignSound(w, Next(w, Win(i)), i, Entry(|w.logs[i]| + 1, w.race.ballots[i].term, Noop));
  }

  lemma LineageIndices(w: World, log: seq<Entry>)
    requires ReignsSound(w) && Lineage(w.reigns, log)
    ensures forall k {:trigger log[k]} :: 0 <= k < |log| ==> log[k].index == k + 1
  {
    forall k {:trigger log[k]} | 0 <= k < |log| ensures log[k].index == k + 1 {
      var t := log[k].term;
      assert ReignSound(w, t);
      AgreeAt(log, w.reigns[t], k + 1, k);
    }
  }

  lemma KeepsReignsSound(w: World, a: Act)
    requires WorldInv(w) && Allowed(w, a)
    ensures ReignsSound(Next(w, a))
  {
    hide Memory, RaceInv, ReignSound, VoteSound, NodeSound, CommitSound, ChoiceSound, Grows;
    var w' := Next(w, a);
    StepGrows(w, a);
    forall t | t in w'.reigns ensures ReignSound(w', t) {
      if t in w.reigns && w'.reigns[t] == w.reigns[t] {
        assert ReignSound(w, t);
        ReignStays(w, w', t);
      } else if a.Win? {
        ReignFounded(w, a.i);
      } else {
        ReignExtended(w, a.i, a.payload);
      }
    }
  }

  // ------------------------------------------------ votes and choices stay sound

  /** A vote is cast with a log of the voter's lineage, for a candidate that passed the check. */
  lemma NewVoteSound(w: World, a: Act, v: Vote)
    requires WorldInv(w) && Allowed(w, a) && v in Next(w, a).voteLogs && v !in w.voteLogs
    ensures Next(w, a).reigns == w.reigns && VoteSound(Next(w, a), v)
  {
    assert NodeSound(w, Who(a));
  }

  lemma KeepsVotesSound(w: World, a: Act)
    requires WorldInv(w) && Allowed(w, a)
    ensures forall v {:trigger VoteSound(Next(w, a), v)} :: v in Next(w, a).voteLogs ==> VoteSound(Next(w, a), v)
  {
    var w' := Next(w, a);
    forall v | v in w'.voteLogs ensures VoteSound(w', v) {
      if v in w.voteLogs {
        StepGrows(w, a);
        assert VoteSound(w, v);
        VoteSoundGrows(w, w', v);
      } else {
        NewVoteSound(w, a, v);
      }
    }
  }

  lemma KeepsStood(w: World, a: Act)
    requires WorldInv(w) && Allowed(w, a)
    ensures forall t, c :: (t, c) in Next(w, a).stood ==> Vote(t, c, c) in Next(w, a).race.grants
  {
    hide Memory, RaceInv, ReignSound, VoteSound, NodeSound, CommitSound, AckSound, VoteRemembers, ChoiceSound;
    StepExtendsRace(w, a);
  }

  lemma KeepsChoicesSound(w: World, a: Act)
    requires WorldInv(w) && Allowed(w, a)
    ensures forall t {:trigger ChoiceSound(Next(w, a), t)} :: t in Next(w, a).chosen ==> ChoiceSound(Next(w, a), t)
  {
    var w' := Next(w, a);
    StepGrows(w, a);
    assert NodeSound(w, Who(a));
    forall t | t in w'.chosen ensures ChoiceSound(w', t) {
      if t in w.chosen && w'.chosen[t] == w.chosen[t] {
        assert ChoiceSound(w, t);
        ChoiceStays(w, w', t);
      }
    }
  }

  lemma KeepsHistories(w: World, a: Act)
    requires WorldInv(w) && Allowed(w, a)
    ensures Histories(Next(w, a))
  {
    StepExtendsRace(w, a);
    KeepsReignsSound(w, a);
    KeepsVotesSound(w, a);
    KeepsStood(w, a);
    KeepsChoicesSound(w, a);
    assert NodeSound(w, Who(a));
    KeepsMembers(w, a);
    KeepsReignKeys(w, a);
    KeepsVoteKeys(w, a);
  }

  /** The race alone keeps one ballot per member and one mandate per reign. */
  lemma ApplyShape(r: Race, m: Move)
    requires r.ballots.Keys == r.members && Enabled(r, m)
    ensures Apply(r, m).ballots.Keys == r.members && Apply(r, m).members == r.members
    ensures Apply(r, m).won.Keys == r.won.Keys + (if m.Elect? then {r.ballots[m.i].term} else {})
    ensures Apply(r, m).grants == r.grants + (if m.Campaign? then {Vote(r.ballots[m.i].term + 1, m.i, m.i)}
                                              else if m.Grant? then {Vote(r.ballots[m.i].term, m.i, m.candidate)} else {})
  {
  }

  lemma KeepsMembers(w: World, a: Act)
    requires Shape(w) && Allowed(w, a)
    ensures var w' := Next(w, a);
      && w'.race.ballots.Keys == w'.race.members
      && w'.logs.Keys == w'.race.members && w'.commits.Keys == w'.race.members
  {
    if MoveOf(a).Some? {
      ApplyShape(w.race, MoveOf(a).value);
    }
  }

  lemma KeepsReignKeys(w: World, a: Act)
    requires Shape(w) && Allowed(w, a)
    requires a.Propose? ==> w.race.ballots[a.i].term in w.reigns
    ensures Next(w, a).reigns.Keys == Next(w, a).race.won.Keys
  {
    if MoveOf(a).Some? {
      ApplyShape(w.race, MoveOf(a).value);
    }
  }

  lemma KeepsVoteKeys(w: World, a: Act)
    requires Shape(w) && Allowed(w, a)
    ensures Next(w, a).voteLogs.Keys == Next(w, a).race.grants
  {
    if MoveOf(a).Some? {
      ApplyShape(w.race, MoveOf(a).value);
    }
  }

  // ------------------------------------------------ what the acting node knows

  lemma TermsOnlyRise(w: World, a: Act)
    requires WorldInv(w) && Allowed(w, a)
    ensures Who(a) in Next(w, a).race.ballots
    ensures w.race.ballots[Who(a)].term <= Next(w, a).race.ballots[Who(a)].term
  {
    hide WorldInv;
  }

  lemma LogsOnlyGrow(w: World, a: Act)
    requires WorldInv(w) && Allowed(w, a) && !a.Accept?
    ensures Who(a) in w.logs && Who(a) in Next(w, a).logs && w.logs[Who(a)] <= Next(w, a).logs[Who(a)]
  {
  }

  lemma AckStays(w: World, w': World, i: NodeId, t: nat)
    requires Grows(w, w') && ReignsSound(w) && AckSound(w, i, t)
    requires i in w'.race.ballots && w.race.ballots[i].term <= w'.race.ballots[i].term
    requires i in w'.logs && w.logs[i] <= w'.logs[i]
    requires (i, t) in w'.acked && w'.acked[(i, t)] == w.acked[(i, t)]
    ensures AckSound(w', i, t)
  {
    AllKeptGrows(w, w', t, w.acked[(i, t)], w.logs[i], w'.logs[i], w.race.ballots[i].term + 1, w'.race.ballots[i].term + 1);
    assert t in w'.reigns;
  }

  /** Any step but a batch from the leader leaves the node's old log in place. */
  lemma OwnAcksStay(w: World, a: Act, t: nat)
    requires WorldInv(w) && Allowed(w, a) && !a.Accept?
    requires (Who(a), t) in w.acked && (Who(a), t) in Next(w, a).acked
    requires Next(w, a).acked[(Who(a), t)] == w.acked[(Who(a), t)]
    ensures AckSound(Next(w, a), Who(a), t)
  {
    StepGrows(w, a);
    TermsOnlyRise(w, a);
    LogsOnlyGrow(w, a);
    AcksAreSound(w, Who(a), t);
    AckStays(w, Next(w, a), Who(a), t);
  }

  /** A node whose log is a prefix of the current leader's acknowledges just that. */
  lemma PrefixIsKept(w: World, t: nat, log: seq<Entry>)
    requires t in w.reigns && log <= w.reigns[t]
    ensures AllKept(w, t, |log|, log, t + 1)
  {
    var bound := t + 1;
    forall n: nat | n <= |log| ensures Kept(w, t, n, log, bound) {
      assert Agree(w.reigns[t], log, n);
    }
  }

  /** Taking a batch from leader `t` keeps what the log held of an earlier leader, unless `t`
      itself has lost it. */
  lemma AcceptKeeps(w: World, i: NodeId, prev: nat, upto: nat, lc: nat, u: nat)
    requires WorldInv(w) && Allowed(w, Accept(i, prev, upto, lc))
    requires (i, u) in w.acked && u < w.race.ballots[i].term
    ensures AckSound(Next(w, Accept(i, prev, upto, lc)), i, u)
  {
    hide Histories, NodeSound, CommitSound, VoteRemembers;
    var w' := Next(w, Accept(i, prev, upto, lc));
    var t := w.race.ballots[i].term;
    AcceptGrows(w, i, prev, upto, lc);
    assert AckSound(w, i, u);
    var bound := t + 1;
    forall n: nat | n <= w.acked[(i, u)] ensures Kept(w', u, n, w'.logs[i], bound) {
      assert Kept(w, u, n, w.logs[i], bound);
      if Agree(w.reigns[u], w.logs[i], n) && Agree(w.reigns[u], w.reigns[t], n) {
        AcceptYieldsPrefix(w, i, prev, upto, lc, n);
      }
    }
  }

  lemma OwnAcksSound(w: World, a: Act, t: nat)
    requires WorldInv(w) && Allowed(w, a) && (Who(a), t) in Next(w, a).acked
    ensures AckSound(Next(w, a), Who(a), t)
  {
    hide WorldInv, Grows, AllKept;
    var w', i := Next(w, a), Who(a);
    var now := w.race.ballots[i].term;
    SoundNode(w, i);
    if (a.Win? || a.Propose?) && t == now {
      StepGrows(w, a);
      PrefixIsKept(w', t, w'.logs[i]);
    } else if a.Accept? && t == now {
      AcceptYieldsPrefix(w, i, a.prev, a.upto, a.leaderCommit, 0);
      PrefixIsKept(w', t, w'.logs[i]);
    } else if a.Accept? {
      AcksAreSound(w, i, t);
      AcceptKeeps(w, i, a.prev, a.upto, a.leaderCommit, t);
    } else {
      OwnAcksStay(w, a, t);
    }
  }

  lemma NewVoteShape(w: World, a: Act, v: Vote)
    requires Allowed(w, a) && v in Next(w, a).voteLogs && v !in w.voteLogs
    ensures var w', i := Next(w, a), Who(a);
      && (a.Stand? || a.Support?) && v.voter == i && i in w.race.ballots && i in w.logs
      && w'.acked == w.acked && w'.voteLogs[v] == w.logs[i]
      && v.term == w.race.ballots[i].term + (if a.Stand? then 1 else 0)
  {
  }

  /** A vote that counts was cast before its term was won. */
  lemma NewVoteIsEarly(w: World, a: Act, v: Vote)
    requires WorldInv(w) && Allowed(w, a) && a.Support? && v in Next(w, a).voteLogs && v !in w.voteLogs
    requires Decisive(Next(w, a), v)
    ensures v.term !in w.reigns
  {
    hide Memory, ReignsSound, NodeSound, CommitSound, VoteSound, ChoiceSound;
    assert BoundToWinner(w.race, Who(a));
    assert v.term in w.race.won ==> MandateSound(w.race, v.term);
  }

  /** A new vote is cast with the node's own log, which remembers its acknowledgements. */
  lemma NewVoteRemembers(w: World, a: Act, v: Vote, t: nat)
    requires WorldInv(w) && Allowed(w, a) && v in Next(w, a).voteLogs && v !in w.voteLogs
    requires (v.voter, t) in Next(w, a).acked
    ensures VoteRemembers(Next(w, a), v, t)
  {
    hide WorldInv, Allowed, Next, Grows, AllKept, NodeSound, CommitSound;
    var w', i := Next(w, a), Who(a);
    NewVoteShape(w, a, v);
    AcksAreSound(w, i, t);
    StepGrows(w, a);
    if a.Stand? {
      AllKeptGrows(w, w', t, w.acked[(i, t)], w.logs[i], w.logs[i], v.term, v.term);
    } else if t < v.term && Decisive(w', v) {
      NewVoteIsEarly(w, a, v);
      SkipUnwonTerm(w, t, w.acked[(i, t)], w.logs[i], v.term);
      AllKeptGrows(w, w', t, w.acked[(i, t)], w.logs[i], w.logs[i], v.term, v.term);
    }
  }

  lemma SkipUnwonTerm(w: World, t: nat, m: nat, log: seq<Entry>, term: nat)
    requires AllKept(w, t, m, log, term + 1) && term !in w.reigns
    ensures AllKept(w, t, m, log, term)
  {
    var bound := term + 1;
    forall n: nat | n <= m ensures Kept(w, t, n, log, term) {
      assert Kept(w, t, n, log, bound);
    }
  }

  lemma OldVoteRemembers(w: World, w': World, v: Vote, t: nat)
    requires WorldInv(w) && Grows(w, w') && v in w.voteLogs && v in w'.voteLogs
    requires (v.voter, t) in w.acked && (v.voter, t) in w'.acked && w'.acked[(v.voter, t)] == w.acked[(v.voter, t)]
    ensures VoteRemembers(w', v, t)
  {
    assert VoteRemembers(w, v, t);
    AcksAreSound(w, v.voter, t);
    hide WorldInv, AllKept;
    if t < v.term && Decisive(w', v) {
      AllKeptGrows(w, w', t, w.acked[(v.voter, t)], w.voteLogs[v], w.voteLogs[v], v.term, v.term);
    }
  }

  /** Only the current term is acknowledged, and no vote is of a later one. */
  lemma NewAckIsLate(w: World, a: Act, v: Vote, t: nat)
    requires WorldInv(w) && Allowed(w, a) && v in w.voteLogs && (v.voter, t) in Next(w, a).acked
    requires (v.voter, t) in w.acked ==> Next(w, a).acked[(v.voter, t)] != w.acked[(v.voter, t)]
    ensures v.term <= t
  {
    hide Memory, ReignsSound, NodeSound, CommitSound, ChoiceSound;
    assert v.voter == Who(a) && VotesOnRecord(w.race, Who(a));
    assert t == w.race.ballots[Who(a)].term;
  }

  lemma KeepsVoteRemembers(w: World, a: Act, v: Vote, t: nat)
    requires WorldInv(w) && Allowed(w, a)
    requires v in Next(w, a).voteLogs && (v.voter, t) in Next(w, a).acked
    ensures VoteRemembers(Next(w, a), v, t)
  {
    hide WorldInv, Allowed, Next, Grows, AllKept;
    var w', i := Next(w, a), Who(a);
    StepGrows(w, a);
    if v !in w.voteLogs {
      NewVoteRemembers(w, a, v, t);
    } else if (v.voter, t) in w.acked && w'.acked[(v.voter, t)] == w.acked[(v.voter, t)] {
      OldVoteRemembers(w, w', v, t);
    } else {
      NewAckIsLate(w, a, v, t);
    }
  }

  lemma KeepsMemory(w: World, a: Act)
    requires WorldInv(w) && Allowed(w, a)
    ensures Memory(Next(w, a))
  {
    var w' := Next(w, a);
    forall p, t | (p, t) in w'.acked ensures AckSound(w', p, t) {
      if p == Who(a) {
        OwnAcksSound(w, a, t);
      } else {
        assert AckSound(w, p, t);
        OthersUntouched(w, a, p);
        StepGrows(w, a);
        UntouchedAcks(w, w', p, t);
      }
    }
    forall v, t | v in w'.voteLogs && (v.voter, t) in w'.acked ensures VoteRemembers(w', v, t) {
      KeepsVoteRemembers(w, a, v, t);
    }
  }

  lemma OthersUntouched(w: World, a: Act, j: NodeId)
    requires WorldInv(w) && Allowed(w, a) && j != Who(a)
    requires j in w.logs
    ensures Untouched(w, Next(w, a), j)
  {
    hide WorldInv;
    SoundNode(w, j);
    StepExtendsRace(w, a);
  }

  /** Only the leader of a term adds to the term's log or chooses in it. */
  lemma OtherTermsStay(w: World, a: Act, j: NodeId)
    requires Allowed(w, a) && j != Who(a) && j in w.race.ballots
    requires LeaderElected(w.race, j) && LeaderElected(w.race, Who(a))
    requires w.race.ballots[j].role == Leader ==> w.race.ballots[j].term in w.race.won
    requires a.Win? ==> w.race.ballots[a.i].term !in w.race.won
    requires w.race.ballots[j].role == Leader ==> w.race.ballots[j].term in w.reigns
    ensures var t := w.race.ballots[j].term;
      w.race.ballots[j].role == Leader ==>
        && Next(w, a).reigns[t] == w.reigns[t]
        && (t in Next(w, a).chosen ==> t in w.chosen && Next(w, a).chosen[t] == w.chosen[t])
  {
  }

  lemma OthersStaySound(w: World, a: Act, j: NodeId)
    requires WorldInv(w) && Allowed(w, a) && j != Who(a) && j in w.logs
    ensures NodeSound(Next(w, a), j) && CommitSound(Next(w, a), j)
  {
    hide WorldInv, Grows, NodeSound, CommitSound, Untouched;
    OthersUntouched(w, a, j);
    StepGrows(w, a);
    SoundNode(w, j);
    SoundNode(w, Who(a));
    if a.Win? {
      WinIsFresh(w, a.i);
      NothingChosenYet(w, a.i);
    }
    OtherTermsStay(w, a, j);
    UntouchedStaysSound(w, Next(w, a), j);
  }

  lemma LeaderLogSound(w: World, a: Act)
    requires WorldInv(w) && Allowed(w, a) && (a.Win? || a.Propose?)
    ensures NodeSound(Next(w, a), a.i)
  {
    hide Memory, Histories, CommitSound, RaceInv;
    assert NodeSound(w, a.i);
    if a.Win? {
      ReignFounded(w, a.i);
      NothingChosenYet(w, a.i);
    } else {
      ReignExtended(w, a.i, a.payload);
    }
  }

  lemma NothingChosenYet(w: World, i: NodeId)
    requires WorldInv(w) && Allowed(w, Win(i))
    ensures w.race.ballots[i].term !in w.chosen
  {
    WinIsFresh(w, i);
    if w.race.ballots[i].term in w.chosen {
      ChosenInReign(w, w.race.ballots[i].term);
    }
  }

  lemma ChosenInReign(w: World, t: nat)
    requires WorldInv(w) && t in w.chosen
    ensures t in w.reigns
  {
    assert ChoiceSound(w, t);
  }

  lemma SoundNode(w: World, j: NodeId)
    requires WorldInv(w) && j in w.logs
    ensures NodeSound(w, j) && CommitSound(w, j) && LeaderElected(w.race, j) && ReignsSound(w)
  {
  }

  lemma NodeStays(w: World, w': World, i: NodeId)
    requires Grows(w, w') && NodeSound(w, i) && w'.reigns == w.reigns && w'.acked == w.acked
    requires i in w'.race.ballots && i in w'.logs && i in w'.commits && w'.logs[i] == w.logs[i]
    requires w.race.ballots[i].term <= w'.race.ballots[i].term
    requires var b, b' := w.race.ballots[i], w'.race.ballots[i];
      && (b'.role == Leader ==> b.role == Leader && b'.term == b.term)
      && (b'.role == Candidate ==>
            || (b.role == Candidate && b'.term == b.term)
            || (b.term < b'.term && (b'.term, i) in w'.stood && w'.stood[(b'.term, i)] == w.logs[i]))
      && (b'.role == Leader && b'.term in w'.chosen ==> w'.chosen[b'.term].index <= w'.commits[i])
    ensures NodeSound(w', i)
  {
    LineageGrows(w, w', w.logs[i]);
    assert w.race.ballots[i].role == Candidate ==> (w.race.ballots[i].term, i) in w'.stood;
  }

  lemma SameLogSound(w: World, a: Act)
    requires WorldInv(w) && Allowed(w, a) && !a.Win? && !a.Propose? && !a.Accept?
    ensures NodeSound(Next(w, a), Who(a))
  {
    hide WorldInv, Grows;
    StepGrows(w, a);
    SoundNode(w, Who(a));
    StepBallot(w, a);
    NodeStays(w, Next(w, a), Who(a));
  }

  /** No step but an election makes a leader, and no step but standing makes a candidate. */
  lemma StepBallot(w: World, a: Act)
    requires WorldInv(w) && Allowed(w, a) && !a.Win?
    ensures var b, b' := w.race.ballots[Who(a)], Next(w, a).race.ballots[Who(a)];
      && b.term <= b'.term
      && (b'.role == Leader ==> b.role == Leader && b'.term == b.term)
      && (b'.role == Candidate && !a.Stand? ==> b.role == Candidate && b'.term == b.term)
      && (a.Stand? ==> b'.term == b.term + 1)
  {
    TermsOnlyRise(w, a);
  }

  lemma OwnNodeSound(w: World, a: Act)
    requires WorldInv(w) && Allowed(w, a)
    ensures NodeSound(Next(w, a), Who(a))
  {
    if a.Win? || a.Propose? {
      LeaderLogSound(w, a);
    } else if a.Accept? {
      AcceptedLogSound(w, a.i, a.prev, a.upto, a.leaderCommit);
    } else {
      SameLogSound(w, a);
    }
  }

  lemma AcceptedLogSound(w: World, i: NodeId, prev: nat, upto: nat, lc: nat)
    requires WorldInv(w) && Allowed(w, Accept(i, prev, upto, lc))
    ensures NodeSound(Next(w, Accept(i, prev, upto, lc)), i)
  {
    var t := w.race.ballots[i].term;
    var log' := Merge(w.logs[i], w.reigns[t][prev..upto]);
    AcceptYieldsPrefix(w, i, prev, upto, lc, 0);
    assert ReignSound(w, t);
    forall k {:trigger log'[k]} | 0 <= k < |log'|
      ensures log'[k].term in w.reigns && Agree(log', w.reigns[log'[k].term], k + 1) && log'[k].term <= t
    {
      assert log'[k] == w.reigns[t][k];
      AgreePrefix(log', w.reigns[t], k + 1);
      AgreeTrans(log', w.reigns[t], w.reigns[log'[k].term], k + 1);
    }
  }

  /** Batches never cut off what was committed, and the commit cap at the log's end is safe. */
  lemma AcceptCommitSound(w: World, i: NodeId, prev: nat, upto: nat, lc: nat)
    requires WorldInv(w) && Allowed(w, Accept(i, prev, upto, lc))
    ensures CommitSound(Next(w, Accept(i, prev, upto, lc)), i)
  {
    var w' := Next(w, Accept(i, prev, upto, lc));
    var t := w.race.ballots[i].term;
    var k := w.commits[i];
    AcceptGrows(w, i, prev, upto, lc);
    assert CommitSound(w, i) && Histories(w) && Memory(w);
    ReignHoldsCovered(w, w.logs[i], k, t, t);
    AcceptYieldsPrefix(w, i, prev, upto, lc, k);
    if lc > k {
      CoveredLess(w, w.reigns[t], lc, w'.commits[i], t);
      CoveredGrows(w, w', w.reigns[t], w.reigns[t], w'.commits[i], t, t);
      CoveredMoves(w', w.reigns[t], w'.logs[i], w'.commits[i], t);
    } else {
      AgreeTrans(w'.logs[i], w.reigns[t], w.logs[i], k);
      CoveredGrows(w, w', w.logs[i], w.logs[i], k, t, t);
      CoveredMoves(w', w.logs[i], w'.logs[i], k, t);
    }
  }

  lemma CoveredLess(w: World, log: seq<Entry>, k: nat, m: nat, bound: nat)
    requires Covered(w, log, k, bound) && m <= k
    ensures Covered(w, log, m, bound)
  {
    if m > 0 {
      var t: nat :| CoveredBy(w, log, k, t) && t <= bound;
      AgreeLess(w.reigns[t], log, k, m);
      assert CoveredBy(w, log, m, t);
    }
  }

  lemma CoveredMoves(w: World, log: seq<Entry>, log': seq<Entry>, k: nat, bound: nat)
    requires Covered(w, log, k, bound) && Agree(log', log, k)
    ensures Covered(w, log', k, bound)
  {
    if k > 0 {
      var t: nat :| CoveredBy(w, log, k, t) && t <= bound;
      AgreeTrans(w.reigns[t], log, log', k);
      assert CoveredBy(w, log', k, t);
    }
  }

  lemma OwnCommitSound(w: World, a: Act)
    requires WorldInv(w) && Allowed(w, a)
    ensures CommitSound(Next(w, a), Who(a))
  {
    var w', i := Next(w, a), Who(a);
    StepGrows(w, a);
    TermsOnlyRise(w, a);
    assert CommitSound(w, i) && NodeSound(w, i);
    if a.Accept? {
      AcceptCommitSound(w, i, a.prev, a.upto, a.leaderCommit);
    } else if a.Restart? {
      CoveredGrows(w, w', w.logs[i], w.logs[i], w.commits[i], w.race.ballots[i].term, w'.race.ballots[i].term);
      CoveredLess(w', w.logs[i], w.commits[i], a.applied, w'.race.ballots[i].term);
    } else if a.Choose? && a.n > w.commits[i] {
      var t := w.race.ballots[i].term;
      assert Agree(w'.reigns[t], w'.logs[i], a.n);
      assert CoveredBy(w', w'.logs[i], a.n, t);
    } else {
      CoveredGrows(w, w', w.logs[i], w'.logs[i], w.commits[i], w.race.ballots[i].term, w'.race.ballots[i].term);
    }
  }

  /** The invariant is inductive. */
  lemma StepKeepsInv(w: World, a: Act)
    requires WorldInv(w) && Allowed(w, a)
    ensures WorldInv(Next(w, a)) && Grows(w, Next(w, a))
  {
    var w' := Next(w, a);
    StepGrows(w, a);
    KeepsHistories(w, a);
    KeepsMemory(w, a);
    forall j | j in w'.logs ensures NodeSound(w', j) && CommitSound(w', j) {
      if j == Who(a) {
        OwnNodeSound(w, a);
        OwnCommitSound(w, a);
      } else {
        OthersStaySound(w, a, j);
      }
    }
  }
}
