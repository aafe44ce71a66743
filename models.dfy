/**
  * The records of the game: moves, classification tags, round winners, the
  * classifier's output, the per-round result snapshot and the mutable
  * per-session GameState with its append-only move history.
  */
module Models {

  /** The four-move vocabulary: rock, paper, scissors and the single-use bomb. */
  datatype Move = Rock | Paper | Scissors | Bomb

  /** A value that may be absent (Python's None). */
  datatype Option<T> = None | Some(value: T)

  /** How the classifier judged the user's text. */
  datatype Classification = Valid | Invalid | Unclear

  /** The outcome category of one round ("user", "bot", "draw", "no_contest"). */
  datatype Winner = User | Bot | Draw | NoContest

  /** Output of the intent-understanding layer; only its value domains matter here. */
  datatype MoveInterpretation = MoveInterpretation(
    classification: Classification,
    interpretedMove: Option<Move>,
    reasoning: string,
    rawInput: string)

  /** The snapshot play_round returns after a round. */
  datatype RoundResult = RoundResult(
    roundNumber: nat,
    userMove: Option<Move>,
    botMove: Move,
    winner: Winner,
    explanation: string,
    userScore: nat,
    botScore: nat)

  /** One element of move_history: the dict {round, user_move, bot_move, winner}. */
  datatype HistoryEntry = HistoryEntry(
    round: nat,
    userMove: Option<Move>,
    botMove: Move,
    winner: Winner)

  /** Number of rounds in `h` whose recorded winner is `w`. */
  function Tally(h: seq<HistoryEntry>, w: Winner): nat
  {
    if h == [] then 0
    else Tally(h[..|h| - 1], w) + (if h[|h| - 1].winner == w then 1 else 0)
  }

  /** Number of rounds in `h` in which the bot played its bomb. */
  function BotBombs(h: seq<HistoryEntry>): nat
  {
    if h == [] then 0
    else BotBombs(h[..|h| - 1]) + (if h[|h| - 1].botMove == Bomb then 1 else 0)
  }

  /** Number of rounds in `h` in which the user's recorded move is bomb. */
  function UserBombs(h: seq<HistoryEntry>): nat
  {
    if h == [] then 0
    else UserBombs(h[..|h| - 1]) + (if h[|h| - 1].userMove == Some(Bomb) then 1 else 0)
  }

  /** Appending a record adds one to the tally of its winner and nothing to the others. */
  lemma TallyAppend(h: seq<HistoryEntry>, e: HistoryEntry, w: Winner)
    ensures Tally(h + [e], w) == Tally(h, w) + (if e.winner == w then 1 else 0)
  {
  }

  /** Appending a record adds one to the bot's bomb count exactly when the bot bombed in it. */
  lemma BotBombsAppend(h: seq<HistoryEntry>, e: HistoryEntry)
    ensures BotBombs(h + [e]) == BotBombs(h) + (if e.botMove == Bomb then 1 else 0)
  {
  }

  /** Appending a record adds one to the user's bomb count exactly when the user bombed in it. */
  lemma UserBombsAppend(h: seq<HistoryEntry>, e: HistoryEntry)
    ensures UserBombs(h + [e]) == UserBombs(h) + (if e.userMove == Some(Bomb) then 1 else 0)
  {
  }

  /** Every recorded round falls in exactly one of the four outcome categories. */
  lemma {:induction false} TallyPartition(h: seq<HistoryEntry>)
    ensures Tally(h, User) + Tally(h, Bot) + Tally(h, Draw) + Tally(h, NoContest) == |h|
  {
    if h != [] {
      TallyPartition(h[..|h| - 1]);
    }
  }

  /** The value of a GameState's fields at one moment. */
  datatype StateView = StateView(
    roundNumber: nat,
    userScore: nat,
    botScore: nat,
    userBombUsed: bool,
    botBombUsed: bool,
    moveHistory: seq<HistoryEntry>)

  /**
    * The invariants of a game's state between rounds: one history record per
    * round, numbered 1, 2, ...; each score is the number of rounds that side
    * won; the bot's bomb flag records whether it bombed, which happened at
    * most once and never in round 1; the user's bomb flag is only set once
    * the user has played bomb.
    */
  ghost predicate StateInvariant(v: StateView)
  {
    Numbered(v) && ScoresTallied(v) && BombsRecorded(v)
  }

  /** One history record per round, the i-th stamped with round i + 1. */
  ghost predicate Numbered(v: StateView)
  {
    v.roundNumber == |v.moveHistory| &&
    forall i :: 0 <= i < |v.moveHistory| ==> v.moveHistory[i].round == i + 1
  }

  /** Each score is the number of recorded rounds that side won. */
  ghost predicate ScoresTallied(v: StateView)
  {
    v.userScore == Tally(v.moveHistory, User) && v.botScore == Tally(v.moveHistory, Bot)
  }

  /**
    * The bot's flag says whether it bombed, which it did at most once and
    * never in round 1; the user's flag is set only once the user has bombed.
    */
  ghost predicate BombsRecorded(v: StateView)
  {
    var h := v.moveHistory;
    v.botBombUsed == (BotBombs(h) > 0) &&
    BotBombs(h) <= 1 &&
    (forall i :: 0 <= i < |h| && h[i].botMove == Bomb ==> h[i].round >= 2) &&
    (v.userBombUsed ==> UserBombs(h) > 0)
  }

  /** The mutable record of one game's progress. */
  class GameState {
    var roundNumber: nat
    var userScore: nat
    var botScore: nat
    var userBombUsed: bool
    var botBombUsed: bool
    var moveHistory: seq<HistoryEntry>

    /** A freshly started game: all counters zero, no bomb used, no history. */
    predicate IsInitial()
      reads this
    {
      roundNumber == 0 && userScore == 0 && botScore == 0 &&
      !userBombUsed && !botBombUsed && moveHistory == []
    }

    /** The current values of the fields. */
    function View(): StateView
      reads this
    {
      StateView(roundNumber, userScore, botScore, userBombUsed, botBombUsed, moveHistory)
    }

    /** The invariants the round engine maintains between rounds (see StateInvariant). */
    ghost predicate Consistent()
      reads this
    {
      StateInvariant(View())
    }

    constructor ()
      ensures IsInitial() && Consistent()
    {
      roundNumber, userScore, botScore := 0, 0, 0;
      userBombUsed, botBombUsed := false, false;
      moveHistory := [];
    }

    /** Appends one record stamped with the current round number; nothing else changes. */
    method AddRound(userMove: Option<Move>, botMove: Move, winner: Winner)
      modifies this`moveHistory
      ensures moveHistory == old(moveHistory) + [HistoryEntry(roundNumber, userMove, botMove, winner)]
    {
      moveHistory := moveHistory + [HistoryEntry(roundNumber, userMove, botMove, winner)];
    }
  }

  /** Each score, plus the draws and no-contests, accounts for every round played. */
  lemma ScoreConservation(s: GameState)
    requires s.Consistent()
    ensures s.userScore + s.botScore + Tally(s.moveHistory, Draw) + Tally(s.moveHistory, NoContest) == s.roundNumber
    ensures s.userScore + s.botScore <= s.roundNumber
  {
    TallyPartition(s.moveHistory);
  }
}
