/**
 * Properties of the tournament state engine that relate several transitions
 * or several calls: the shape invariant every transition keeps, the bracket
 * that `next` shrinks by exactly the eliminated entry, re-voting, and restart.
 */
module CoreProperties {
  import opened Wrappers
  import opened Core

  /** The shape of a state the engine produces from a non-empty bracket: a vote
      and a winner never coexist, a vote is over exactly two entries and comes
      with the waiting entries, and a winner ends the tournament. */
  ghost predicate WellFormed(s: State)
  {
    && (s.vote.Some? ==> s.winner.None? && s.entries.Some? && |s.vote.value.pair| == 2)
    && (s.winner.Some? ==> s.vote.None? && s.entries.None?)
  }

  /** Every entry still in the tournament: the waiting entries, the pair under
      vote and the winner, counted with multiplicity. */
  ghost function Bracket(s: State): multiset<Entry>
  {
    multiset(s.entries.GetOr([]))
    + (if s.vote.Some? then multiset(s.vote.value.pair) else multiset{})
    + (if s.winner.Some? then multiset{s.winner.value} else multiset{})
  }

  /** The member of the current pair that a decisive count eliminates; none on
      a tie or without a vote. */
  function Losers(vote: Option<VoteState>): seq<Entry>
    requires vote.Some? ==> |vote.value.pair| >= 2
  {
    match vote
    case None => []
    case Some(v) =>
      if TallyOf(v, v.pair[0]) > TallyOf(v, v.pair[1]) then [v.pair[1]]
      else if TallyOf(v, v.pair[0]) < TallyOf(v, v.pair[1]) then [v.pair[0]]
      else []
  }

  /** The winners and the loser of a pair split it: each member either
      advances or is eliminated, and exactly one is eliminated when the counts
      differ. */
  lemma WinnersAndLosersSplitPair(vote: Option<VoteState>)
    requires vote.Some? ==> |vote.value.pair| == 2
    ensures multiset(GetWinners(vote)) + multiset(Losers(vote)) ==
            (if vote.Some? then multiset(vote.value.pair) else multiset{})
    ensures |Losers(vote)| == (if vote.Some? && TallyOf(vote.value, vote.value.pair[0]) != TallyOf(vote.value, vote.value.pair[1]) then 1 else 0)
  {
    if vote.Some? {
      var p := vote.value.pair;
      assert p == [p[0], p[1]];
    }
  }

  /** The application starts from an empty, well-formed state: nothing in the
      bracket, and round numbering starting from 0. */
  lemma InitialStateIsEmpty()
    ensures WellFormed(InitialState)
    ensures Bracket(InitialState) == multiset{}
    ensures CurrentRound(InitialState) == 0
    ensures InitialState.initialEntries.None?
  {
  }

  /** What `next` leaves in the bracket is exactly its pool. */
  lemma BracketOfNext(s: State, round: nat)
    requires WellFormed(s) && s.entries.Some?
    ensures Bracket(Next(s, round)) == multiset(Pool(s))
  {
  }

  /** `next` conserves the bracket except for the one entry a decisive vote
      eliminates: nothing is lost on a tie and nothing is ever invented. */
  lemma NextConservesBracket(s: State, round: nat)
    requires WellFormed(s) && s.entries.Some?
    ensures Bracket(Next(s, round)) + multiset(Losers(s.vote)) == Bracket(s)
    ensures |Bracket(Next(s, round))| == |Bracket(s)| - |Losers(s.vote)|
  {
    BracketOfNext(s, round);
    WinnersAndLosersSplitPair(s.vote);
    assert multiset(Pool(s)) == multiset(s.entries.value) + multiset(GetWinners(s.vote));
  }

  /** `next` keeps a well-formed state well-formed as long as there is
      something to pair: a vote, or a non-empty waiting list. */
  lemma NextPreservesWellFormed(s: State, round: nat)
    requires WellFormed(s) && s.entries.Some?
    requires s.vote.Some? || |s.entries.value| > 0
    ensures WellFormed(Next(s, round))
  {
  }

  /** A decisive pair shrinks the bracket by exactly one entry and a tied pair
      keeps its size, so only decisive rounds bring the tournament closer to a
      winner. */
  lemma NextShrinksOnDecisiveVote(s: State, round: nat)
    requires WellFormed(s) && s.entries.Some? && s.vote.Some?
    ensures var v := s.vote.value;
      |Bracket(Next(s, round))| ==
        |Bracket(s)| - (if TallyOf(v, v.pair[0]) != TallyOf(v, v.pair[1]) then 1 else 0)
  {
  }

  /** Voting twice for the same entry counts once: the retraction of the
      first ballot cancels the second increment. */
  lemma VoteAgainSameEntry(vs: VoteState, entry: Entry, voter: Voter)
    ensures Vote(Vote(vs, entry, voter), entry, voter) == Vote(vs, entry, voter)
  {
    var once := Vote(vs, entry, voter);
    if InPair(vs.pair, entry) {
      var twice := Vote(once, entry, voter);
      assert twice.tally.value.Keys == once.tally.value.Keys;
      assert forall e | e in once.tally.value :: twice.tally.value[e] == once.tally.value[e];
      assert twice.tally.value == once.tally.value;
    }
  }

  /** A voter who switches to another entry of the pair and back leaves every
      count and ballot as their first ballot left it; the only trace is a
      zero count kept for the entry switched away from. */
  lemma VoteSwitchAndBack(vs: VoteState, a: Entry, b: Entry, voter: Voter)
    requires InPair(vs.pair, a) && InPair(vs.pair, b)
    ensures var first, back := Vote(vs, a, voter), Vote(Vote(Vote(vs, a, voter), b, voter), a, voter);
      && back.pair == first.pair && back.round == first.round
      && back.votes == first.votes
      && (forall e :: TallyOf(back, e) == TallyOf(first, e))
      && TallyKeys(back) == TallyKeys(first) + {b}
  {
  }

  /** A vote changes only the vote record, so casting it inside a well-formed
      state keeps the state well-formed and the bracket as it was. */
  lemma VoteKeepsBracket(s: State, entry: Entry, voter: Voter)
    requires WellFormed(s) && s.vote.Some?
    ensures var t := s.(vote := Some(Vote(s.vote.value, entry, voter)));
      WellFormed(t) && Bracket(t) == Bracket(s)
  {
  }

  /** `restart` depends only on `initialEntries` and the current round: the
      waiting entries, the tally and the winner at call time are irrelevant. */
  lemma RestartIgnoresBracket(s: State, t: State)
    requires s.initialEntries.Some? && s.initialEntries == t.initialEntries
    requires CurrentRound(s) == CurrentRound(t)
    ensures Restart(s) == Restart(t)
  {
  }

  /** From a non-empty initial list, `restart` yields a well-formed state whose
      bracket is exactly the initial entries. */
  lemma RestartRebuildsBracket(s: State)
    requires s.initialEntries.Some? && |s.initialEntries.value| > 0
    ensures WellFormed(Restart(s))
    ensures Bracket(Restart(s)) == multiset(s.initialEntries.value)
  {
    var init := s.initialEntries.value;
    var r := Restart(s);
    if |init| == 1 {
      assert init == [init[0]];
    } else {
      assert init[..2] + init[2..] == init;
    }
  }

  /** Setting the entries of a state without a vote or a winner and advancing
      opens round 1 with the first two entries, the rest waiting in order. */
  lemma SetEntriesThenNext(s: State, entries: seq<Entry>)
    requires s.vote.None? && s.winner.None? && |entries| >= 2
    ensures var r := NextDefault(SetEntries(s, entries));
      && WellFormed(r)
      && r.vote == Some(VoteState(entries[..2], 1, None, None))
      && r.entries == Some(entries[2..])
      && r.initialEntries == Some(entries)
  {
    var loaded := SetEntries(s, entries);
    assert Pool(loaded) == entries;
  }
}
