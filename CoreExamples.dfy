/**
 * The concrete cases the engine's own tests check, stated on the model.
 */
module CoreExamples {
  import opened Wrappers
  import opened Core

  const T: Entry := "Trainspotting"
  const D: Entry := "28 Days Later"
  const S: Entry := "Sunshine"
  const M: Entry := "Millions"
  const H: Entry := "127 Hours"

  /** Loading two entries into the empty state fills both lists. */
  lemma SetEntriesOnEmptyState()
    ensures SetEntries(InitialState, [T, D]) == State(Some([T, D]), Some([T, D]), None, None)
  {
  }

  /** Without a vote, `next` opens round 1 with the first two entries. */
  lemma NextTakesFirstTwo()
    ensures NextDefault(State(Some([T, D, S]), None, None, None))
         == State(Some([S]), None, Some(VoteState([T, D], 1, None, None)), None)
  {
    assert Pool(State(Some([T, D, S]), None, None, None)) == [T, D, S];
    assert [T, D, S][..2] == [T, D] && [T, D, S][2..] == [S];
  }

  /** A decisive winner goes to the back of the waiting entries. */
  lemma NextRequeuesWinner()
    ensures var v := VoteState([T, D], 1, Some(map[T := 4, D := 2]), None);
      NextDefault(State(Some([S, M, H]), None, Some(v), None))
        == State(Some([H, T]), None, Some(VoteState([S, M], 2, None, None)), None)
  {
    var v := VoteState([T, D], 1, Some(map[T := 4, D := 2]), None);
    assert GetWinners(Some(v)) == [T];
    assert Pool(State(Some([S, M, H]), None, Some(v), None)) == [S, M, H, T];
    assert [S, M, H, T][..2] == [S, M] && [S, M, H, T][2..] == [H, T];
  }

  /** Both entries of a tied pair go to the back, in pair order. */
  lemma NextRequeuesBothOnTie()
    ensures var v := VoteState([T, D], 1, Some(map[T := 3, D := 3]), None);
      NextDefault(State(Some([S, M, H]), None, Some(v), None))
        == State(Some([H, T, D]), None, Some(VoteState([S, M], 2, None, None)), None)
  {
    var v := VoteState([T, D], 1, Some(map[T := 3, D := 3]), None);
    assert GetWinners(Some(v)) == [T, D];
    assert Pool(State(Some([S, M, H]), None, Some(v), None)) == [S, M, H, T, D];
    assert [S, M, H, T, D][..2] == [S, M] && [S, M, H, T, D][2..] == [H, T, D];
  }

  /** A decisive last pair ends the tournament with its winner alone. */
  lemma NextMarksWinner()
    ensures var v := VoteState([T, D], 1, Some(map[T := 4, D := 2]), None);
      NextDefault(State(Some([]), None, Some(v), None)) == State(None, None, None, Some(T))
  {
  }

  /** Restart pairs from the initial entries and counts on from the last round. */
  lemma RestartFromInitialEntries()
    ensures Restart(State(Some([]), Some([T, D, S]), Some(VoteState([T, S], 1, None, None)), None))
         == State(Some([S]), Some([T, D, S]), Some(VoteState([T, D], 2, None, None)), None)
  {
    assert [T, D, S][..2] == [T, D] && [T, D, S][2..] == [S];
  }

  /** A first ballot creates the tally and the ballot map. */
  lemma VoteCreatesTally()
    ensures Vote(VoteState([T, D], 1, None, None), T, "voter1")
         == VoteState([T, D], 1, Some(map[T := 1]), Some(map["voter1" := T]))
  {
  }

  /** A first ballot adds to an existing tally. */
  lemma VoteAddsToTally()
    ensures Vote(VoteState([T, D], 1, Some(map[T := 3, D := 2]), Some(map[])), T, "voter1")
         == VoteState([T, D], 1, Some(map[T := 4, D := 2]), Some(map["voter1" := T]))
  {
    assert map[T := 3, D := 2][T := 4] == map[T := 4, D := 2];
  }

  /** A changed ballot moves one count from the old entry to the new one. */
  lemma VoteNullifiesPrevious()
    ensures Vote(VoteState([T, D], 1, Some(map[T := 3, D := 2]), Some(map["voter1" := D])), T, "voter1")
         == VoteState([T, D], 1, Some(map[T := 4, D := 1]), Some(map["voter1" := T]))
  {
    assert map[T := 3, D := 2][D := 1][T := 4] == map[T := 4, D := 1];
  }

  /** A ballot for an entry outside the pair changes nothing. */
  lemma VoteOutsidePairIgnored()
    ensures var v := VoteState([T, D], 0, Some(map[T := 3, D := 2]), None);
      Vote(v, M, "voter1") == v
  {
  }
}
