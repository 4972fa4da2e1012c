/** Leader election as a race between ballots: who may still vote for whom, with crashes.

    Only the part of a node that decides elections is kept: its role, term and vote, the vote it
    last journalled, and the votes it has collected.  Logs, messages and timers are absent: a step
    is allowed whenever some log or message could allow it. */
module Election {
  import opened Config

  datatype Role = Follower | Candidate | Leader

  datatype Ballot = Ballot(role: Role, term: nat, votedFor: Option<NodeId>, votes: set<NodeId>,
                           savedTerm: nat, savedVote: Option<NodeId>)

  datatype Vote = Vote(term: nat, voter: NodeId, candidate: NodeId)

  /** How a term was won: by whom, and on whose votes. */
  datatype Mandate = Mandate(leader: NodeId, voters: set<NodeId>)

  /** `grants` and `won` are history: they are written, never consulted, by a node. */
  datatype Race = Race(members: set<NodeId>, ballots: map<NodeId, Ballot>,
                       grants: set<Vote>, won: map<nat, Mandate>)

  datatype Move =
    | Bump(i: NodeId, term: nat)        // adopt a higher term, dropping the vote; nothing is journalled
    | Campaign(i: NodeId)
    | Grant(i: NodeId, candidate: NodeId)
    | Count(i: NodeId, voter: NodeId)
    | Elect(i: NodeId)
    | Follow(i: NodeId, leader: NodeId) // an AppendEntries of the current term overwrites the vote
    | Save(i: NodeId)                   // compaction journals the current term and vote
    | Crash(i: NodeId)                  // restart from the journalled term and vote

  predicate Enabled(r: Race, m: Move) {
    m.i in r.members && m.i in r.ballots &&
    var b := r.ballots[m.i];
    match m
    case Bump(i, term) => b.term < term
    case Campaign(i) => b.role != Leader
    case Grant(i, c) => b.term >= 1 && (b.votedFor == None || b.votedFor == Some(c))
    case Count(i, p) => b.role == Candidate && Vote(b.term, p, i) in r.grants
    case Elect(i) => b.role == Candidate && AtLeastHalf(r.members, b.votes)
    case Follow(i, l) => b.term in r.won && r.won[b.term].leader == l
    case Save(i) => true
    case Crash(i) => true
  }

  function NextBallot(b: Ballot, m: Move): Ballot {
    match m
    case Bump(i, term) => b.(role := Follower, term := term, votedFor := None)
    case Campaign(i) => Ballot(Candidate, b.term + 1, Some(i), {i}, b.term + 1, Some(i))
    case Grant(i, c) => b.(votedFor := Some(c), savedTerm := b.term, savedVote := Some(c))
    case Count(i, p) => b.(votes := b.votes + {p})
    case Elect(i) => b.(role := Leader)
    case Follow(i, l) => b.(role := if b.role == Candidate then Follower else b.role, votedFor := Some(l))
    case Save(i) => b.(savedTerm := b.term, savedVote := b.votedFor)
    case Crash(i) =>
      b.(role := Follower, term := b.savedTerm, votedFor := if b.savedTerm > 0 then b.savedVote else None, votes := {})
  }

  function Apply(r: Race, m: Move): Race
    requires Enabled(r, m)
  {
    var b := r.ballots[m.i];
    Race(r.members, r.ballots[m.i := NextBallot(b, m)],
         match m
         case Campaign(i) => r.grants + {Vote(b.term + 1, i, i)}
         case Grant(i, c) => r.grants + {Vote(b.term, i, c)}
         case _ => r.grants,
         if m.Elect? then r.won[b.term := Mandate(m.i, b.votes)] else r.won)
  }

  // -------------------------------------------------------------- invariant

  predicate LeaderOf(r: Race, t: nat, c: NodeId) {
    t in r.won && r.won[t].leader == c
  }

  /** A node that voted names its candidate, or the leader elected since, in its memory and in its
      journal, for as long as they are in that term. */
  ghost predicate VotesOnRecord(r: Race, i: NodeId)
    requires i in r.ballots
  {
    var b := r.ballots[i];
    && b.savedTerm <= b.term
    && (forall v :: v in r.grants && v.voter == i ==> v.term <= b.savedTerm)
    && (forall v :: v in r.grants && v.voter == i ==>
          && (b.term == v.term ==> Names(r, b.votedFor, v))
          && (b.savedTerm == v.term ==> Names(r, b.savedVote, v)))
  }

  predicate Names(r: Race, vote: Option<NodeId>, v: Vote) {
    vote.Some? && (vote.value == v.candidate || LeaderOf(r, v.term, vote.value))
  }

  /** A node whose vote helped to win a term can only vote for that winner for the rest of it. */
  ghost predicate BoundToWinner(r: Race, i: NodeId)
    requires i in r.ballots
  {
    var b := r.ballots[i];
    forall t :: t in r.won && i in r.won[t].voters ==>
      && t <= b.savedTerm
      && (b.term == t ==> b.votedFor == Some(r.won[t].leader))
      && (b.savedTerm == t ==> b.savedVote == Some(r.won[t].leader))
  }

  ghost predicate LeaderElected(r: Race, i: NodeId)
    requires i in r.ballots
  {
    var b := r.ballots[i];
    b.role == Leader ==> b.term in r.won && r.won[b.term].leader == i
  }

  ghost predicate VotesCounted(r: Race, i: NodeId)
    requires i in r.ballots
  {
    var b := r.ballots[i];
    b.role == Candidate ==>
      && b.term >= 1
      && i in b.votes && b.votes <= r.members
      && forall p :: p in b.votes ==> Vote(b.term, p, i) in r.grants
  }

  /** A winner never stands again in the term it won. */
  ghost predicate RunsOnce(r: Race, i: NodeId)
    requires i in r.ballots
  {
    var b := r.ballots[i];
    forall t :: t in r.won && r.won[t].leader == i ==>
      t <= b.savedTerm && (b.term == t ==> b.role != Candidate)
  }

  /** A voter's votes in one term go to one candidate and, at most, to the leader already elected. */
  ghost predicate SameChoice(r: Race, v: Vote, w: Vote) {
    v.term == w.term && v.voter == w.voter && v.candidate != w.candidate ==>
      LeaderOf(r, v.term, v.candidate) || LeaderOf(r, v.term, w.candidate)
  }

  ghost predicate ForWinner(r: Race, v: Vote) {
    v.term in r.won && v.voter in r.won[v.term].voters ==> v.candidate == r.won[v.term].leader
  }

  ghost predicate VotesAgree(r: Race) {
    && (forall v, w {:trigger SameChoice(r, v, w)} :: v in r.grants && w in r.grants ==> SameChoice(r, v, w))
    && (forall v {:trigger ForWinner(r, v)} :: v in r.grants ==> v.voter in r.members && v.term >= 1 && ForWinner(r, v))
  }

  ghost predicate MandateSound(r: Race, t: nat) {
    && t in r.won
    && var d := r.won[t];
       && t >= 1
       && d.leader in r.members && d.leader in d.voters && d.voters <= r.members
       && AtLeastHalf(r.members, d.voters)
       && forall p :: p in d.voters ==> Vote(t, p, d.leader) in r.grants
  }

  ghost predicate RaceInv(r: Race) {
    && r.ballots.Keys == r.members
    && VotesAgree(r)
    && (forall t {:trigger MandateSound(r, t)} :: t in r.won ==> MandateSound(r, t))
    && (forall i {:trigger VotesOnRecord(r, i)} :: i in r.members ==> VotesOnRecord(r, i))
    && (forall i {:trigger BoundToWinner(r, i)} :: i in r.members ==> BoundToWinner(r, i))
    && (forall i {:trigger LeaderElected(r, i)} :: i in r.members ==> LeaderElected(r, i))
    && (forall i {:trigger VotesCounted(r, i)} :: i in r.members ==> VotesCounted(r, i))
    && (forall i {:trigger RunsOnce(r, i)} :: i in r.members ==> RunsOnce(r, i))
  }

  function FreshBallot(): Ballot {
    Ballot(Follower, 0, None, {}, 0, None)
  }

  function Start(members: set<NodeId>): Race {
    Race(members, map i | i in members :: FreshBallot(), {}, map[])
  }

  lemma StartInv(members: set<NodeId>)
    ensures RaceInv(Start(members))
  {
  }

  /** Two sets of votes that both carry a term were cast for the same candidate. */
  lemma WinnersShareAVoter(r: Race, t: nat, i: NodeId, votes: set<NodeId>)
    requires VotesAgree(r) && |r.members| % 2 == 1
    requires MandateSound(r, t) && AtLeastHalf(r.members, votes)
    requires forall p :: p in votes ==> Vote(t, p, i) in r.grants
    ensures r.won[t].leader == i
  {
    HalvesOverlap(r.members, votes, r.won[t].voters);
    var p :| p in votes * r.won[t].voters * r.members;
    assert ForWinner(r, Vote(t, p, i));
  }

  /** Nobody can be elected in a term that has already been won. */
  lemma TermsAreWonOnce(r: Race, i: NodeId)
    requires RaceInv(r) && |r.members| % 2 == 1
    requires Enabled(r, Elect(i))
    ensures r.ballots[i].term !in r.won
  {
    assert VotesCounted(r, i) && RunsOnce(r, i);
    if r.ballots[i].term in r.won {
      assert MandateSound(r, r.ballots[i].term);
      WinnersShareAVoter(r, r.ballots[i].term, i, r.ballots[i].votes);
    }
  }

  lemma KeepsVotesOnRecord(r: Race, m: Move, j: NodeId)
    requires RaceInv(r) && Enabled(r, m) && j in r.members
    requires m.Elect? ==> r.ballots[m.i].term !in r.won
    ensures VotesOnRecord(Apply(r, m), j)
  {
    assert VotesOnRecord(r, j) && BoundToWinner(r, j);
    forall v | v in r.grants ensures v.term >= 1 {
      assert ForWinner(r, v);
    }
  }

  lemma KeepsBoundToWinner(r: Race, m: Move, j: NodeId)
    requires RaceInv(r) && Enabled(r, m) && j in r.members
    requires m.Elect? ==> r.ballots[m.i].term !in r.won
    ensures BoundToWinner(Apply(r, m), j)
  {
    var b, b' := r.ballots[j], Apply(r, m).ballots[j];
    assert VotesOnRecord(r, j) && BoundToWinner(r, j);
    forall t | t in Apply(r, m).won && j in Apply(r, m).won[t].voters
      ensures t <= b'.savedTerm
      ensures b'.term == t ==> b'.votedFor == Some(Apply(r, m).won[t].leader)
      ensures b'.savedTerm == t ==> b'.savedVote == Some(Apply(r, m).won[t].leader)
    {
      if m.Elect? && t == r.ballots[m.i].term {
        assert VotesCounted(r, m.i);
        assert Vote(t, j, m.i) in r.grants;
      } else {
        assert t in r.won && j in r.won[t].voters && MandateSound(r, t);
      }
    }
  }

  lemma KeepsRoles(r: Race, m: Move, j: NodeId)
    requires RaceInv(r) && Enabled(r, m) && j in r.members
    requires m.Elect? ==> r.ballots[m.i].term !in r.won
    ensures LeaderElected(Apply(r, m), j)
    ensures VotesCounted(Apply(r, m), j)
  {
    assert LeaderElected(r, j) && VotesCounted(r, j);
    match m {
      case Bump(_, _) =>
      case Campaign(_) =>
      case Grant(_, _) =>
      case Count(_, p) =>
        assert j == m.i ==> ForWinner(r, Vote(r.ballots[j].term, p, j));
      case Elect(_) =>
      case Follow(_, _) =>
      case Save(_) =>
      case Crash(_) =>
    }
  }

  lemma KeepsRunsOnce(r: Race, m: Move, j: NodeId)
    requires RaceInv(r) && Enabled(r, m) && j in r.members
    requires m.Elect? ==> r.ballots[m.i].term !in r.won
    ensures RunsOnce(Apply(r, m), j)
  {
    assert RunsOnce(r, j) && VotesOnRecord(r, j) && VotesCounted(r, j);
    match m {
      case Bump(_, _) =>
      case Campaign(_) =>
      case Grant(_, _) =>
      case Count(_, _) =>
      case Elect(_) =>
      case Follow(_, _) =>
      case Save(_) =>
      case Crash(_) =>
    }
  }

  /** A node asked again in the same term can only repeat itself, until the term is won. */
  lemma NewVoteAgrees(r: Race, i: NodeId, c: NodeId, v: Vote)
    requires RaceInv(r) && Enabled(r, Grant(i, c)) && v in r.grants
    ensures SameChoice(r, v, Vote(r.ballots[i].term, i, c))
  {
    assert VotesOnRecord(r, i);
  }

  lemma KeepsVotesAgree(r: Race, m: Move)
    requires RaceInv(r) && Enabled(r, m)
    requires m.Elect? ==> r.ballots[m.i].term !in r.won
    ensures VotesAgree(Apply(r, m))
  {
    var r' := Apply(r, m);
    var i := m.i;
    assert VotesOnRecord(r, i) && BoundToWinner(r, i) && VotesCounted(r, i);
    forall v, w | v in r'.grants && w in r'.grants ensures SameChoice(r', v, w) {
      if v in r.grants && w in r.grants {
        assert SameChoice(r, v, w);
      } else if m.Grant? && v in r.grants {
        NewVoteAgrees(r, i, m.candidate, v);
      } else if m.Grant? && w in r.grants {
        NewVoteAgrees(r, i, m.candidate, w);
      }
    }
    forall v | v in r'.grants ensures v.voter in r'.members && v.term >= 1 && ForWinner(r', v) {
      if v in r.grants {
        assert ForWinner(r, v);
        if m.Elect? && v.term == r.ballots[i].term && v.voter in r.ballots[i].votes {
          assert SameChoice(r, v, Vote(v.term, v.voter, i));
        }
      }
    }
  }

  lemma KeepsMandateSound(r: Race, m: Move, t: nat)
    requires RaceInv(r) && Enabled(r, m) && t in Apply(r, m).won
    requires m.Elect? ==> r.ballots[m.i].term !in r.won
    ensures MandateSound(Apply(r, m), t)
  {
    if t in r.won {
      assert MandateSound(r, t);
    } else {
      assert VotesCounted(r, m.i);
    }
  }

  lemma KeepsMembers(r: Race, m: Move)
    requires r.ballots.Keys == r.members && Enabled(r, m)
    ensures Apply(r, m).members == r.members && Apply(r, m).ballots.Keys == r.members
  {
  }

  /** The invariant is inductive, crashes included. */
  lemma MoveKeepsInv(r: Race, m: Move)
    requires RaceInv(r) && |r.members| % 2 == 1 && Enabled(r, m)
    ensures RaceInv(Apply(r, m))
  {
    if m.Elect? {
      TermsAreWonOnce(r, m.i);
    }
    KeepsVotesAgree(r, m);
    var r' := Apply(r, m);
    KeepsMembers(r, m);
    hide Apply, VotesAgree, VotesOnRecord, BoundToWinner, LeaderElected, VotesCounted, RunsOnce, MandateSound;
    forall t | t in r'.won ensures MandateSound(r', t) { KeepsMandateSound(r, m, t); }
    forall j | j in r.members ensures VotesOnRecord(r', j) { KeepsVotesOnRecord(r, m, j); }
    forall j | j in r.members ensures BoundToWinner(r', j) { KeepsBoundToWinner(r, m, j); }
    forall j | j in r.members ensures LeaderElected(r', j) && VotesCounted(r', j) { KeepsRoles(r, m, j); }
    forall j | j in r.members ensures RunsOnce(r', j) { KeepsRunsOnce(r, m, j); }
  }

  /** A term, once won, keeps its winner; votes are never withdrawn. */
  ghost predicate Extends(r: Race, r': Race) {
    && r'.members == r.members
    && r.grants <= r'.grants
    && forall t :: t in r.won ==> t in r'.won && r'.won[t] == r.won[t]
  }

  lemma MoveExtends(r: Race, m: Move)
    requires RaceInv(r) && |r.members| % 2 == 1 && Enabled(r, m)
    ensures Extends(r, Apply(r, m))
  {
    if m.Elect? {
      TermsAreWonOnce(r, m.i);
    }
  }
}
