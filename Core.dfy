/**
 * The tournament state engine: four pure transitions (set entries, vote,
 * next, restart) over an immutable state record, and the helpers they use.
 *
 * Immutable keyed records become datatypes whose optional keys are `Option`
 * fields; immutable lists become `seq` and immutable maps become `map`.
 * Looking a key up with a default (`getIn([...], 0)`) is spelled out by the
 * small accessor functions below.
 */
module Core {
  import opened Wrappers

  type Entry = string
  type Voter = string

  /** The record under the state's `vote` key: the pair on the ballot, the round
      number, and the optional `tally` (entry to count) and `votes` (voter to entry). */
  datatype VoteState = VoteState(
    pair: seq<Entry>,
    round: nat,
    tally: Option<map<Entry, int>>,
    votes: Option<map<Voter, Entry>>)

  /** The top-level tournament state; every key may be absent. */
  datatype State = State(
    entries: Option<seq<Entry>>,
    initialEntries: Option<seq<Entry>>,
    vote: Option<VoteState>,
    winner: Option<Entry>)

  /** The empty state the application starts from. */
  const InitialState: State := State(None, None, None, None)

  function Min(x: int, y: int): int { if x <= y then x else y }

  /** `tally[e]`, reading a missing tally or a missing key as 0. */
  function TallyOf(vs: VoteState, e: Entry): (n: int)
    ensures e !in TallyKeys(vs) ==> n == 0
    ensures e in TallyKeys(vs) ==> vs.tally.Some? && n == vs.tally.value[e]
  {
    var t := vs.tally.GetOr(map[]);
    if e in t then t[e] else 0
  }

  /** The keys present in the tally (none when the tally is absent). */
  function TallyKeys(vs: VoteState): set<Entry>
  {
    vs.tally.GetOr(map[]).Keys
  }

  /** The voter-to-entry map, reading a missing `votes` as empty. */
  function VotesOf(vs: VoteState): map<Voter, Entry>
  {
    vs.votes.GetOr(map[])
  }

  /** The entry `voter` is recorded as supporting, if any. */
  function BallotOf(vs: VoteState, voter: Voter): Option<Entry>
  {
    var m := VotesOf(vs);
    if voter in m then Some(m[voter]) else None
  }

  /** Adds `delta` to the count of `e`, creating the tally and the key (from 0)
      when they are missing. */
  function Bump(vs: VoteState, e: Entry, delta: int): (t: map<Entry, int>)
    ensures t.Keys == TallyKeys(vs) + {e}
    ensures forall x :: x in t ==> t[x] == TallyOf(vs, x) + (if x == e then delta else 0)
  {
    var t := vs.tally.GetOr(map[]);
    t[e := TallyOf(vs, e) + delta]
  }

  /** True when `entry` is one of the first two elements of `pair`. */
  predicate InPair(pair: seq<Entry>, entry: Entry)
    ensures InPair(pair, entry) <==> entry in pair[..Min(2, |pair|)]
  {
    (|pair| > 0 && pair[0] == entry) || (|pair| > 1 && pair[1] == entry)
  }

  /** Loads the candidate list into both `entries` and `initialEntries`. */
  function SetEntries(s: State, entries: seq<Entry>): (r: State)
    ensures r.entries == Some(entries) && r.initialEntries == Some(entries)
    ensures r.vote == s.vote && r.winner == s.winner
  {
    s.(entries := Some(entries), initialEntries := Some(entries))
  }

  /** Retracts `voter`'s recorded ballot, if any: the ballot is removed from
      `votes` and one is taken off the count of the entry it supported. */
  function NullifyVoting(vs: VoteState, voter: Voter): (r: VoteState)
    ensures r.pair == vs.pair && r.round == vs.round
    ensures BallotOf(vs, voter).None? ==> r == vs
    ensures BallotOf(r, voter).None?
    ensures forall x :: x != voter ==> BallotOf(r, x) == BallotOf(vs, x)
    ensures forall e :: TallyOf(r, e) == TallyOf(vs, e) - (if BallotOf(vs, voter) == Some(e) then 1 else 0)
    ensures BallotOf(vs, voter).Some? ==>
      && r.votes.Some? && r.tally.Some?
      && TallyKeys(r) == TallyKeys(vs) + {BallotOf(vs, voter).value}
  {
    match BallotOf(vs, voter)
    case None => vs
    case Some(previous) =>
      vs.(votes := Some(VotesOf(vs) - {voter}), tally := Some(Bump(vs, previous, -1)))
  }

  /** Records `voter`'s ballot by replacing the whole `votes` map with the
      single ballot: every other voter's ballot is forgotten. */
  function RecordVoting(vs: VoteState, entry: Entry, voter: Voter): (r: VoteState)
    ensures r.pair == vs.pair && r.round == vs.round && r.tally == vs.tally
    ensures BallotOf(r, voter) == Some(entry)
    ensures forall x :: x != voter ==> BallotOf(r, x).None?
  {
    vs.(votes := Some(map[voter := entry]))
  }

  /** Casts `voter`'s ballot for `entry`. A ballot for an entry outside the pair
      is ignored; otherwise the voter's previous ballot is retracted, the new
      one recorded, and the count of `entry` goes up by one. */
  function Vote(vs: VoteState, entry: Entry, voter: Voter): (r: VoteState)
    ensures !InPair(vs.pair, entry) ==> r == vs
    ensures InPair(vs.pair, entry) ==>
      && r.pair == vs.pair && r.round == vs.round
      && r.votes == Some(map[voter := entry])
      && r.tally.Some?
      && r.tally.value.Keys ==
           TallyKeys(vs) + {entry} + (if BallotOf(vs, voter).Some? then {BallotOf(vs, voter).value} else {})
    ensures InPair(vs.pair, entry) ==>
      forall e :: TallyOf(r, e) ==
        TallyOf(vs, e) + (if e == entry then 1 else 0) - (if BallotOf(vs, voter) == Some(e) then 1 else 0)
  {
    if !InPair(vs.pair, entry) then vs
    else
      var recorded := RecordVoting(NullifyVoting(vs, voter), entry, voter);
      recorded.(tally := Some(Bump(recorded, entry, 1)))
  }

  /** The entries of the current pair that advance: none without a vote, the
      one with the strictly larger count, or both (in pair order) on a tie. */
  function GetWinners(vote: Option<VoteState>): (r: seq<Entry>)
    requires vote.Some? ==> |vote.value.pair| >= 2
    ensures vote.None? ==> r == []
    ensures vote.Some? ==>
      var v, a, b := vote.value, vote.value.pair[0], vote.value.pair[1];
      && (r == [a] || r == [b] || r == [a, b])
      && (r == [a, b] <==> TallyOf(v, a) == TallyOf(v, b))
      && (a != b ==> (r == [a] <==> TallyOf(v, a) > TallyOf(v, b)))
      && (a != b ==> (r == [b] <==> TallyOf(v, b) > TallyOf(v, a)))
  {
    match vote
    case None => []
    case Some(v) =>
      var a, b := v.pair[0], v.pair[1];
      var aVotes, bVotes := TallyOf(v, a), TallyOf(v, b);
      if aVotes > bVotes then [a]
      else if aVotes < bVotes then [b]
      else [a, b]
  }

  /** The bracket pool `next` pairs from: the waiting entries with the current
      pair's winners appended at the back. */
  function Pool(s: State): (pool: seq<Entry>)
    requires s.entries.Some?
    requires s.vote.Some? ==> |s.vote.value.pair| >= 2
    ensures |pool| == |s.entries.value| + |GetWinners(s.vote)|
    ensures pool[..|s.entries.value|] == s.entries.value
    ensures pool[|s.entries.value|..] == GetWinners(s.vote)
  {
    s.entries.value + GetWinners(s.vote)
  }

  /** The round number `next` and `restart` count on from: that of the current
      vote, or 0 without one. */
  function CurrentRound(s: State): (round: nat)
    ensures s.vote.None? ==> round == 0
    ensures s.vote.Some? ==> round == s.vote.value.round
  {
    if s.vote.Some? then s.vote.value.round else 0
  }

  /** Resolves the current pair and folds its winners back into the pool; a
      pool of one entry ends the tournament, otherwise the first two entries of
      the pool become the next pair, numbered `round + 1`, with a fresh tally. */
  function Next(s: State, round: nat): (r: State)
    requires s.entries.Some?
    requires s.vote.Some? ==> |s.vote.value.pair| >= 2
    ensures r.initialEntries == s.initialEntries
    ensures |Pool(s)| == 1 ==>
      r.winner == Some(Pool(s)[0]) && r.vote.None? && r.entries.None?
    ensures |Pool(s)| != 1 ==>
      && r.winner == s.winner
      && r.vote.Some? && r.entries.Some?
      && r.vote.value.round == round + 1
      && r.vote.value.tally.None? && r.vote.value.votes.None?
      && |r.vote.value.pair| == Min(2, |Pool(s)|)
      && r.vote.value.pair + r.entries.value == Pool(s)
  {
    var pool := Pool(s);
    if |pool| == 1 then
      s.(vote := None, entries := None, winner := Some(pool[0]))
    else
      var taken := Min(2, |pool|);
      assert pool[..taken] + pool[taken..] == pool;
      s.(vote := Some(VoteState(pool[..taken], round + 1, None, None)),
         entries := Some(pool[taken..]))
  }

  /** `next` called without a round: it counts on from the current vote's round. */
  function NextDefault(s: State): (r: State)
    requires s.entries.Some?
    requires s.vote.Some? ==> |s.vote.value.pair| >= 2
    ensures r.vote.Some? ==> CurrentRound(r) == CurrentRound(s) + 1
    ensures r.initialEntries == s.initialEntries
  {
    Next(s, CurrentRound(s))
  }

  /** Starts the tournament over from `initialEntries`, discarding the pool, the
      vote and any winner, and numbering the first new pair one past the
      current round. */
  function Restart(s: State): (r: State)
    requires s.initialEntries.Some?
    ensures r.initialEntries == s.initialEntries
    ensures var init := s.initialEntries.value;
      if |init| == 1 then
        r.winner == Some(init[0]) && r.vote.None? && r.entries.None?
      else
        && r.winner.None?
        && r.vote == Some(VoteState(init[..Min(2, |init|)], CurrentRound(s) + 1, None, None))
        && r.entries == Some(init[Min(2, |init|)..])
  {
    var round := CurrentRound(s);
    var cleared := s.(entries := s.initialEntries, vote := None, winner := None);
    assert Pool(cleared) == s.initialEntries.value;
    Next(cleared, round)
  }
}
