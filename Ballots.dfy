/**
 * The bookkeeping between `tally` and `votes`. The engine keeps the tally as
 * a cache of the ballots: the count of an entry should equal the number of
 * voters whose recorded ballot supports it. Because recording a ballot
 * replaces the whole `votes` map, the engine as written forgets the other
 * voters' ballots, and a voter whose ballot was forgotten is counted twice
 * when they change their mind. `VoteKeepingBallots` records only the voter's
 * own ballot and keeps the tally exact.
 */
module Ballots {
  import opened Wrappers
  import opened Core

  /** The voters whose recorded ballot supports `e`. */
  ghost function VotersFor(vs: VoteState, e: Entry): set<Voter>
  {
    set v | v in VotesOf(vs) && VotesOf(vs)[v] == e
  }

  /** Every count is the number of recorded ballots for that entry. */
  ghost predicate TallyMatchesBallots(vs: VoteState)
  {
    forall e :: TallyOf(vs, e) == |VotersFor(vs, e)|
  }

  /** The engine's vote with `votes[voter] := entry` in place of replacing the
      whole map: the voter's previous ballot is retracted, everyone else's is
      kept. */
  function VoteKeepingBallots(vs: VoteState, entry: Entry, voter: Voter): (r: VoteState)
    ensures !InPair(vs.pair, entry) ==> r == vs
    ensures InPair(vs.pair, entry) ==>
      && r.pair == vs.pair && r.round == vs.round
      && r.tally == Vote(vs, entry, voter).tally
      && VotesOf(r) == VotesOf(vs)[voter := entry]
  {
    if !InPair(vs.pair, entry) then vs
    else
      var retracted := NullifyVoting(vs, voter);
      var recorded := retracted.(votes := Some(VotesOf(retracted)[voter := entry]));
      recorded.(tally := Some(Bump(recorded, entry, 1)))
  }

  /** Retracting a ballot takes its voter out of exactly the set of the entry
      it supported. */
  lemma RetractKeepsTallyExact(vs: VoteState, voter: Voter)
    requires TallyMatchesBallots(vs)
    ensures TallyMatchesBallots(NullifyVoting(vs, voter))
  {
    var n := NullifyVoting(vs, voter);
    match BallotOf(vs, voter)
    case None =>
    case Some(previous) =>
      forall e ensures TallyOf(n, e) == |VotersFor(n, e)| {
        assert VotesOf(n) == VotesOf(vs) - {voter};
        if e == previous {
          assert VotersFor(vs, e) == VotersFor(n, e) + {voter};
        } else {
          assert VotersFor(vs, e) == VotersFor(n, e);
        }
      }
  }

  /** Recording the ballot of a voter who has none, and counting it, keeps
      every count equal to its number of ballots. */
  lemma RecordKeepsTallyExact(n: VoteState, entry: Entry, voter: Voter)
    requires TallyMatchesBallots(n) && BallotOf(n, voter).None?
    ensures var recorded := n.(votes := Some(VotesOf(n)[voter := entry]));
      TallyMatchesBallots(recorded.(tally := Some(Bump(recorded, entry, 1))))
  {
    var recorded := n.(votes := Some(VotesOf(n)[voter := entry]));
    var r := recorded.(tally := Some(Bump(recorded, entry, 1)));
    forall e ensures TallyOf(r, e) == |VotersFor(r, e)| {
      assert TallyOf(r, e) == TallyOf(n, e) + (if e == entry then 1 else 0);
      if e == entry {
        assert VotersFor(r, e) == VotersFor(n, e) + {voter};
      } else {
        assert VotersFor(r, e) == VotersFor(n, e);
      }
    }
  }

  /** The corrected vote keeps every count equal to the number of ballots
      recorded for it. */
  lemma VoteKeepingBallotsKeepsTallyExact(vs: VoteState, entry: Entry, voter: Voter)
    requires TallyMatchesBallots(vs)
    ensures TallyMatchesBallots(VoteKeepingBallots(vs, entry, voter))
  {
    if InPair(vs.pair, entry) {
      RetractKeepsTallyExact(vs, voter);
      RecordKeepsTallyExact(NullifyVoting(vs, voter), entry, voter);
    }
  }

  lemma {:induction false} SubsetNoLarger<T>(a: set<T>, b: set<T>)
    requires a <= b
    ensures |a| <= |b|
    decreases b
  {
    if a != {} {
      var x :| x in a;
      SubsetNoLarger(a - {x}, b - {x});
    }
  }

  /** Once the tally is exact, two different entries together hold at most
      one count per voter. */
  lemma ExactTallyBoundsPair(vs: VoteState, a: Entry, b: Entry)
    requires TallyMatchesBallots(vs) && a != b
    ensures TallyOf(vs, a) + TallyOf(vs, b) <= |VotesOf(vs).Keys|
  {
    assert VotersFor(vs, a) !! VotersFor(vs, b);
    SubsetNoLarger(VotersFor(vs, a) + VotersFor(vs, b), VotesOf(vs).Keys);
    assert |VotersFor(vs, a) + VotersFor(vs, b)| == |VotersFor(vs, a)| + |VotersFor(vs, b)|;
  }

  const Fresh: VoteState := VoteState(["Trainspotting", "28 Days Later"], 1, None, None)

  /** The engine as written: voter1 votes Trainspotting, voter2 votes 28 Days
      Later, and voter1 switches to 28 Days Later. The second ballot erased the
      first from `votes`, so the switch retracts nothing: two voters end up
      with three counted ballots, and the tally no longer matches the ballots. */
  lemma AsWrittenCountsSwitchTwice()
    ensures var s1 := Vote(Fresh, "Trainspotting", "voter1");
      var s2 := Vote(s1, "28 Days Later", "voter2");
      var s3 := Vote(s2, "28 Days Later", "voter1");
      && TallyMatchesBallots(s1)
      && !TallyMatchesBallots(s2)
      && TallyOf(s3, "Trainspotting") == 1
      && TallyOf(s3, "28 Days Later") == 2
      && TallyOf(s3, "Trainspotting") + TallyOf(s3, "28 Days Later") > |VotesOf(s3).Keys|
  {
    var s1 := Vote(Fresh, "Trainspotting", "voter1");
    var s2 := Vote(s1, "28 Days Later", "voter2");
    var s3 := Vote(s2, "28 Days Later", "voter1");
    assert BallotOf(s2, "voter1") == None;
    forall e ensures TallyOf(s1, e) == |VotersFor(s1, e)| {
      if e == "Trainspotting" {
        assert VotersFor(s1, e) == {"voter1"};
      } else {
        assert VotersFor(s1, e) == {};
      }
    }
    assert VotersFor(s2, "Trainspotting") == {};
    assert |VotesOf(s3).Keys| == 1;
  }

  /** The same three ballots through the corrected vote: voter1's switch is
      retracted, leaving the count at two voters for 28 Days Later. */
  lemma CorrectedCountsSwitchOnce()
    ensures var s1 := VoteKeepingBallots(Fresh, "Trainspotting", "voter1");
      var s2 := VoteKeepingBallots(s1, "28 Days Later", "voter2");
      var s3 := VoteKeepingBallots(s2, "28 Days Later", "voter1");
      && TallyOf(s3, "Trainspotting") == 0
      && TallyOf(s3, "28 Days Later") == 2
      && TallyMatchesBallots(s3)
  {
    var s1 := VoteKeepingBallots(Fresh, "Trainspotting", "voter1");
    var s2 := VoteKeepingBallots(s1, "28 Days Later", "voter2");
    var s3 := VoteKeepingBallots(s2, "28 Days Later", "voter1");
    forall e ensures TallyOf(Fresh, e) == |VotersFor(Fresh, e)| {
      assert VotersFor(Fresh, e) == {};
    }
    VoteKeepingBallotsKeepsTallyExact(Fresh, "Trainspotting", "voter1");
    VoteKeepingBallotsKeepsTallyExact(s1, "28 Days Later", "voter2");
    VoteKeepingBallotsKeepsTallyExact(s2, "28 Days Later", "voter1");
    assert BallotOf(s2, "voter1") == Some("Trainspotting");
  }
}
