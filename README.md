# Rock-paper-scissors-plus round engine, in Dafny

This project models the round engine of a text-driven rock-paper-scissors-plus
game. The game adds a single-use "bomb" move and is played over a fixed number
of rounds. A language model classifies the player's free-text move as VALID,
INVALID or UNCLEAR, and normalises it to rock, paper, scissors, bomb or
nothing. That step happens outside the engine. The engine then does five
things:

- it picks the bot's move at random, under a hard eligibility rule for the bomb;
- it resolves the round to `user`, `bot`, `draw` or `no_contest`;
- it derives an explanation string;
- it updates the game state (round counter, scores, bomb flags, append-only history);
- it reduces the scores to a final result.

Two modules follow the two source files:

- `models.dfy`, module `Models` (models.py): the value records as datatypes
  (`Move`, `Classification`, `Winner`, `MoveInterpretation`, `RoundResult`,
  `HistoryEntry`). It also holds the mutable `GameState` class. Its fields
  are the source's counters, flags and `moveHistory: seq<HistoryEntry>`, and
  `AddRound` updates them in place. `StateInvariant` (through
  `GameState.Consistent()`) states what the engine keeps true between rounds:
  - `roundNumber == |moveHistory|`, and the i-th record carries round `i + 1`;
  - each score equals that side's number of wins in the history;
  - the bot's bomb flag says whether it bombed;
  - the bot bombed at most once, and never in round 1;
  - the user's bomb flag is set only once the user has bombed.
- `game_logic.dfy`, module `Game` (game_logic.py): these parts are pure functions:
  - `BotMove` is the bot's move generator;
  - `DetermineWinner` is the resolver;
  - `Explain` gives the cause of the outcome, and `Text` renders it as the source's exact string;
  - `AfterRound` gives the state after one round.

  The class `GameLogic` holds a `state: GameState`. Its `PlayRound` updates
  the state step by step in the source's order, and `GetFinalResult` and
  `Reset` work as in the source.

The bot's randomness is a parameter. `BotDraw(bombRoll, choice)` holds the
outcome of the random source: whether the 20% draw came up, and which of rock,
paper and scissors the uniform choice picked. `PlayRound` takes it as an
argument. `BotMoveRange` proves that any outcome of the random source gives
only allowed moves, and that every allowed move can occur.

Where the source's own comments and its code differ, the model follows the code:

- The comments at game_logic.py:28 and :33 say the bot does not bomb in the
  first 2 rounds and bombs only "after round 2". The code checks
  `round_number < 2` after the round counter has been incremented. So the bot
  may bomb in the second round played (post-increment `round_number == 2`),
  after only one completed round.
- The field descriptions at models.py:38 and :42 say that the user move is
  None and the winner is no_contest when the move was invalid or unclear.
  Resolution in fact ignores the classification. An INVALID or UNCLEAR tag
  with a move present is still scored, while the explanation reports the turn
  as wasted.

The model also keeps these behaviours of the code:

- A second VALID user bomb is not rejected. The engine sets the already-true
  flag again and scores the round like any other bomb.
- `reasoning` is accepted by `PlayRound` and unused.

## Model

| member | source | states |
|---|---|---|
| `Models.GameState.constructor` | models.py:55-60 | A new state has round number and both scores 0, both bomb flags false and an empty history, and satisfies the engine's invariant |
| `Models.GameState.AddRound` | models.py:62-69 | The history becomes the old history plus exactly one record at the end. The record holds round = the current round number, and the user move (possibly absent), bot move and winner as given. Its frame leaves every other field unchanged |
| `Models.TallyPartition` | models.py:41 | Every recorded round falls in exactly one of user/bot/draw/no_contest, so the four tallies sum to the history length |
| `Models.ScoreConservation` | game_logic.py:142-147 | On a consistent state, user score + bot score + draws + no-contests equals the round number, so user score + bot score never exceeds it |
| `Game.ValidMovesExact` | game_logic.py:18 | The move vocabulary lists exactly the four moves, each once |
| `Game.BotMove` | game_logic.py:23-37 | The bot plays bomb exactly when the round number is at least 2, it has not bombed yet and the 20% draw came up. Otherwise it plays the uniformly chosen standard move |
| `Game.BotMoveRange` | game_logic.py:28-37 | A move can be produced by some outcome of the random source exactly when it is rock, paper or scissors, or it is bomb and bomb is eligible |
| `Game.DetermineWinner` | game_logic.py:39-72 | The result is no_contest iff the user move is absent. It is draw iff the moves are equal, bomb vs bomb included. A user bomb against a different move gives user, and a bot bomb against a different user move gives bot. Between distinct standard moves, user (bot) wins iff its move beats the other's on the rock→scissors→paper→rock cycle |
| `Game.WinnerAntisymmetric` | game_logic.py:52-72 | For any two user-present moves, swapping them swaps user and bot and keeps draw; the result is never no_contest |
| `Game.Explain` | game_logic.py:74-111 | INVALID and UNCLEAR give the wasted-turn cause naming the bot move, whatever the winner. A VALID no_contest gives the no-valid-move cause, and a VALID draw names the user's move. The generic fallback is reached only when the (user, bot) pair is not in the six-entry table |
| `Game.ExplanationDescribesRound` | game_logic.py:84-111 | For every pair of moves and every tag, explaining the resolver's verdict is well defined and never the generic fallback, and it describes the round truthfully. A wasted-turn cause is given exactly for INVALID and UNCLEAR rounds, and names the bot move. Every other cause is given only for VALID rounds and states the winner and the moves it names, and a rule cause also the rule applied |
| `Game.RoundPreservesConsistency` | game_logic.py:127-153 | One round (counter +1, winner's score +1, bomb flags or-ed in, one record appended) keeps the state invariant, given that a bot bomb respects eligibility |
| `Game.GameLogic.constructor` | game_logic.py:20-21 | A new engine owns a fresh initial, consistent state |
| `Game.GameLogic.PlayRound` | game_logic.py:113-166 | The bot move is the generator's output for the post-increment round number and the old bot flag. The winner is the resolver's verdict on the given user move. The new state is `AfterRound` of the old one: round +1; exactly the winner's score +1, draw and no_contest change neither; user bomb flag set iff it was set or the move is bomb with tag VALID; bot bomb flag set iff it was set or the bot bombed; one history record appended. The invariant is preserved. The returned snapshot carries the new round number and scores, the moves, the winner and the explanation string |
| `Game.GameLogic.GetFinalResult` | game_logic.py:168-177 | user iff user score > bot score, bot iff bot score > user score, draw iff they are equal |
| `Game.GameLogic.Reset` | game_logic.py:179-181 | The engine gets a fresh state object in the initial, consistent state |
| `Game.FinalResultFromHistory` | game_logic.py:168-177 | On a consistent state the final result is user, bot or draw according to who won more rounds recorded in the history |
| `Game.ScriptedGame` | game_logic.py:185-209 | The demonstration's three rounds (rock VALID, nothing INVALID, bomb VALID) on a fresh engine are numbered 1 to 3. The bot cannot bomb in round 1. Against scissors, round 1 is a user win at 1-0 with "Rock crushes scissors. You win!". Round 2 is a no-contest with unchanged scores and the INVALID message. The bot bombs at most once over rounds 2-3. Round 3 is a user win unless the bot also bombed, which makes it a draw. The user's bomb flag ends set |

## Left out

- The 0.2 probability and the uniform choice in `generate_bot_move` are not modelled as distributions. Their outcome is the `BotDraw` argument, constrained only by eligibility.
- Exact text casing via `.upper()` and `.capitalize()` is not computed. `Text` uses the fixed upper-case move names and the fixed capitalised winner names of the fallback.
- Game.Explain: requires `Renders`, because `get_explanation` fails (`None.upper()`) for a VALID round that is not a no-contest but has no user move, when the round is a draw or the bot bombed. `PlayRound` never calls it that way (`ExplanationDescribesRound`).
- Game.GameLogic.PlayRound: derives the explanation after appending the history record instead of before. It is a pure function of the round's moves, verdict and tag, so the result is the same.
- The max-rounds gate of the callers (`round_number >= max_rounds`, api.py and main.py) is caller plumbing and not part of this model.
- api.py (HTTP endpoints, session registry), judge.py (the language-model classifier), prompts.py, response.py (display formatting) and main.py (interactive loop) are not part of this model. `MoveInterpretation` is kept only as the classifier's output type.
- Concurrency: one round per session at a time is assumed, as the engine itself has no locking.
- Pydantic validation and the dict shape of history records are not modelled. Records are the typed `HistoryEntry`.
