# Voting tournament state engine, modelled in Dafny

The engine runs a pairwise voting tournament. A list of candidate entries is
loaded with `setEntries`. `next` puts the first two entries to a vote. `vote`
records one voter's ballot for one of the two. The next `next` resolves the
pair: the entry with the strictly larger count goes to the back of the queue,
and on a tie both go, in pair order. Then either one entry is left and is the
winner, or the next two are paired under a round number one higher.
`restart` rebuilds the queue from the initial entries and keeps counting
rounds.

Every operation is a pure function from one immutable record to another. The
model follows that form: datatypes and functions, with the properties proved
as `ensures` clauses and lemmas.

- `Wrappers.dfy`: `Option`, used for each key the source's records may lack.
- `Core.dfy`: the state records (`State`, `VoteState`) and the transitions
  `SetEntries`, `Vote` (with `NullifyVoting` and `RecordVoting`),
  `GetWinners`, `Next`, `NextDefault` (`next` called without a round) and
  `Restart`.
- `CoreProperties.dfy`: the shape invariant `WellFormed`. The bracket (every
  entry still in play) and how `next` changes it. Re-voting, switching a ballot
  and back, and what `restart` depends on.
- `Ballots.dfy`: how the tally relates to the recorded ballots. It holds the
  finding below and a corrected vote that keeps the tally exact.
- `CoreExamples.dfy`: the concrete cases from `test/core_spec.js`, stated as
  lemmas.

Entries and voters are strings. `tally` and `votes` are optional maps, so an
absent map and an empty one stay distinct, as the tests require. Tally counts
are `int`: a retraction subtracts from a missing count read as 0.

Behaviour that follows the code rather than the engine's prose description:

- Voting again for the same entry leaves the state unchanged
  (`VoteAgainSameEntry`). The old ballot is retracted (minus one) before the
  new one is counted (plus one), so a repeated ballot is not worth +1 per call.
- `restart` without `initialEntries` does not collapse to an empty pool. It
  passes a missing list to `next`, which fails on it. `Restart` therefore
  requires `initialEntries`, just as `Next` requires `entries`.
- `setEntries` does not clear a previous `winner`. `WellFormed` is therefore
  kept only when entries are loaded into a state without one
  (`SetEntriesThenNext`).

## Model

| member | source | states |
|---|---|---|
| CoreProperties.InitialStateIsEmpty | src/core.js:3 | the initial state is well-formed, holds no entry in its bracket, has no initial entries and counts rounds from 0 |
| Core.TallyOf | src/core.js:29-30 | the count of an entry is its value in the tally when the key is present, and 0 when the tally or the key is missing |
| Core.InPair | src/core.js:12-15 | an entry is accepted exactly when it is among the first two elements of the pair |
| Core.CurrentRound | src/core.js:64 | the round `next` and `restart` count on from is the vote's round, or 0 without a vote |
| Core.Pool | src/core.js:37-38 | the pool holds the waiting entries in order, followed by the winners of the current pair at the back |
| Core.Bump | src/core.js:19-23 | the count of `e` becomes its old value (0 if missing) plus `delta`; the tally gains key `e` and every other key and count is unchanged |
| Core.SetEntries | src/core.js:5-9 | `entries` and `initialEntries` both become the given list; `vote` and `winner` are unchanged |
| Core.NullifyVoting | src/core.js:73-83 | without a recorded ballot the state is unchanged; otherwise the voter's ballot is gone, other voters' ballots are unchanged, only the count of the retracted entry drops by one, `votes` and `tally` are both present afterwards (`votes` possibly empty), and the tally gains the retracted entry's key |
| Core.RecordVoting | src/core.js:54-61 | afterwards the voter's ballot is `entry` and no other voter has a ballot; pair, round and tally are unchanged |
| Core.Vote | src/core.js:11-24 | an entry outside the pair leaves the vote state unchanged; otherwise pair and round are kept, `votes` is exactly `{voter: entry}`, the count of `entry` rises by one, the count of the voter's previous entry (if any) drops by one, no other count moves, and the tally keys grow by exactly those entries |
| Core.GetWinners | src/core.js:26-34 | no vote gives no winners; otherwise the result is `[a]`, `[b]` or `[a, b]`; it is both in pair order exactly when the counts (missing read as 0) are equal, and one member alone exactly when its count is strictly larger |
| Core.Next | src/core.js:36-52 | with pool = entries followed by winners: a pool of one makes that entry the winner and removes `vote` and `entries`; any other pool is split into a new pair (its first two, or fewer) and the waiting rest, under round `round + 1` with no tally or ballots, and the winner is kept; `initialEntries` never changes |
| Core.NextDefault | src/core.js:36 | without a round argument, the new vote's round is one past the current vote's round, or 1 without a vote |
| Core.Restart | src/core.js:63-71 | the result depends only on `initialEntries` and the current round: a single entry is declared the winner; otherwise the new pair is the first two initial entries, the rest wait, the round is the old round (0 without a vote) plus one, and any winner is cleared; `initialEntries` is kept |
| CoreProperties.WinnersAndLosersSplitPair | src/core.js:26-34 | the winners and the eliminated entry together are exactly the pair, as a multiset; one entry is eliminated exactly when the counts differ |
| CoreProperties.BracketOfNext | src/core.js:36-51 | the entries left in play after `next` (waiting, paired or winner) are exactly the pool |
| CoreProperties.NextConservesBracket | src/core.js:36-51 | `next` loses exactly the eliminated entry from the bracket and adds nothing |
| CoreProperties.NextPreservesWellFormed | src/core.js:36-51 | from a well-formed state with something to pair, `next` yields a state where vote and winner are never both present and a vote is over exactly two entries |
| CoreProperties.NextShrinksOnDecisiveVote | src/core.js:26-51 | a decisive pair shrinks the bracket by one entry; a tied pair keeps its size |
| CoreProperties.VoteAgainSameEntry | src/core.js:11-24 | voting twice for the same entry gives the same state as voting once |
| CoreProperties.VoteSwitchAndBack | src/core.js:11-24 | switching to the other entry and back restores every count and ballot of the first vote; the tally only keeps an extra zero key |
| CoreProperties.VoteKeepsBracket | src/reducer.js:15-17 | replacing the state's vote record by the result of a vote keeps the state well-formed and its bracket unchanged |
| CoreProperties.RestartIgnoresBracket | src/core.js:63-71 | two states with the same `initialEntries` and current round restart to the same state, whatever their queues, tallies or winners |
| CoreProperties.RestartRebuildsBracket | src/core.js:63-71 | from a non-empty initial list, `restart` yields a well-formed state whose bracket is exactly the initial entries |
| CoreProperties.SetEntriesThenNext | src/core.js:36-51 | after loading at least two entries into a state without a vote or winner, `next` opens round 1 on the first two, with the rest waiting in order |
| Ballots.VoteKeepingBallots | src/core.js:54-61 | corrected vote: same pair, round and tally as the engine's vote, but ballots become the old ballots with only this voter's ballot replaced |
| Ballots.RetractKeepsTallyExact | src/core.js:73-83 | if every count equals its number of recorded ballots, it still does after a retraction |
| Ballots.RecordKeepsTallyExact | src/core.js:54-61 | the corrected recording (only this voter's key of `votes` is set), with the ballot counted, keeps every count equal to its number of ballots when the voter had no ballot; the engine's own `recordVoting` does not (see `Ballots.AsWrittenCountsSwitchTwice`) |
| Ballots.VoteKeepingBallotsKeepsTallyExact | src/core.js:11-24 | the corrected vote keeps every count equal to the number of recorded ballots for that entry |
| Ballots.ExactTallyBoundsPair | src/core.js:11-24 | with an exact tally, the counts of two different entries add up to at most the number of voters |
| Ballots.AsWrittenCountsSwitchTwice | src/core.js:57-60 | as written: after voter1 votes T, voter2 votes D and voter1 switches to D, the counts are T 1 and D 2, three counts from two voters, and the tally stopped matching the ballots after the second vote |
| Ballots.CorrectedCountsSwitchOnce | src/core.js:57-60 | the same ballots through the corrected vote count T 0 and D 2, and the tally matches the ballots |
| CoreExamples.SetEntriesOnEmptyState | test/core_spec.js:9-27 | loading two entries into the empty state sets both lists |
| CoreExamples.NextTakesFirstTwo | test/core_spec.js:33-45 | `next` without a vote opens round 1 on the first two entries |
| CoreExamples.NextRequeuesWinner | test/core_spec.js:47-67 | a 4 to 2 winner goes to the back of the queue and round 2 opens |
| CoreExamples.NextRequeuesBothOnTie | test/core_spec.js:69-89 | both entries of a 3 to 3 tie go to the back in pair order |
| CoreExamples.NextMarksWinner | test/core_spec.js:91-107 | a decisive last pair leaves only the winner |
| CoreExamples.RestartFromInitialEntries | test/core_spec.js:113-133 | restart pairs from the initial entries under round 2 |
| CoreExamples.VoteCreatesTally | test/core_spec.js:139-155 | a first ballot creates the tally `{T: 1}` and ballots `{voter1: T}` |
| CoreExamples.VoteAddsToTally | test/core_spec.js:157-179 | a first ballot adds one to an existing count |
| CoreExamples.VoteNullifiesPrevious | test/core_spec.js:181-207 | switching from D to T gives counts T 4 and D 1 |
| CoreExamples.VoteOutsidePairIgnored | test/core_spec.js:209-220 | a ballot for an entry outside the pair changes nothing |

## Findings

| source | as written | input that shows it | evidently intended | confidence | as-written member | corrected member |
|---|---|---|---|---|---|---|
| src/core.js:57-60 | recording a ballot replaces the whole `votes` map with `{voter: entry}`, so every other voter's ballot is forgotten while its count stays | pair [Trainspotting, 28 Days Later], no tally: voter1 votes Trainspotting, voter2 votes 28 Days Later, voter1 switches to 28 Days Later; the counts end at 1 and 2 for two voters | set only this voter's key in `votes`, so that a later change of mind retracts the earlier ballot and each count equals its number of ballots | not executed; medium (the tests use one voter only, so they cannot tell the two apart) | Ballots.AsWrittenCountsSwitchTwice | Ballots.VoteKeepingBallots |

`Core.Vote` models the code as written. Every property in `CoreProperties`
is about it. The corrected variant is in `Ballots`, beside the lemma that
proves it keeps the tally exact.

## Left out

- `src/reducer.js` is not part of this model: it dispatches actions and logs to the console. `CoreProperties.VoteKeepsBracket` only states what its vote case does to the state.
- The immutable collection library is not modelled. Lists are `seq`, maps are `map`, records are datatypes, and equality is structural.
- `SetEntries` takes a `seq`. Converting an arbitrary enumerable into a list is not modelled.
- Keys of the state record other than `entries`, `initialEntries`, `vote` and `winner` are not modelled.
- `Next` requires `entries` to be present. The source fails on a missing list and does not return a state.
- `Restart` requires `initialEntries` to be present, for the same reason.
- `GetWinners` and `Next` require a present vote to pair at least two entries. With an empty pair the source appends two undefined values to the queue. With a one-entry pair `[X]` it appends `X` alone when X's count is positive, `[X, undefined]` when it is 0, and `[undefined]` when it is negative. Undefined values have no counterpart among entries.
- An empty pool is modelled as the code does it: a vote over an empty pair and no waiting entries. `NextPreservesWellFormed` and `RestartRebuildsBracket` exclude it by requiring something to pair.
- `VoteState.round` is always present. The test of an ignored ballot uses a record without a round, and the model gives it round 0, which the vote does not read.
- `NullifyVoting` drops the source's `entry` parameter, which that function never reads.
- A ballot whose recorded entry is JavaScript `null` is not modelled. The source treats it as no ballot.
