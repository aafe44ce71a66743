/**
  * The round engine: the bot's move generator, the round resolver, the
  * explanation of each outcome, the state transition of one round and the
  * reduction of the scores to a game result.
  */
module Game {
  import opened Models

  /** The move vocabulary the engine accepts. */
  const VALID_MOVES: seq<Move> := [Rock, Paper, Scissors, Bomb]

  /** The moves the bot picks from uniformly. */
  const STANDARD_MOVES: seq<Move> := [Rock, Paper, Scissors]

  /** The vocabulary lists each of the four moves exactly once. */
  lemma ValidMovesExact()
    ensures |VALID_MOVES| == 4
    ensures forall m: Move :: m in VALID_MOVES
    ensures forall i, j :: 0 <= i < j < |VALID_MOVES| ==> VALID_MOVES[i] != VALID_MOVES[j]
  {
    forall m: Move
      ensures m in VALID_MOVES
    {
      match m
      case Rock => assert VALID_MOVES[0] == m;
      case Paper => assert VALID_MOVES[1] == m;
      case Scissors => assert VALID_MOVES[2] == m;
      case Bomb => assert VALID_MOVES[3] == m;
    }
  }

  // ---------------------------------------------------------------------
  // Bot move generator

  /**
    * The outcome of the random source for one bot move: `bombRoll` stands for
    * the 20% draw coming up, `choice` for the uniform pick among the three
    * standard moves.
    */
  datatype BotDraw = BotDraw(bombRoll: bool, choice: Move)

  /** The bot may bomb from round 2 on, and only once. */
  predicate BombEligible(roundNumber: nat, botBombUsed: bool)
  {
    roundNumber >= 2 && !botBombUsed
  }

  /** The bot's move given the state it reads and the outcome of the random source. */
  function BotMove(roundNumber: nat, botBombUsed: bool, draw: BotDraw): (m: Move)
    requires draw.choice in STANDARD_MOVES
    ensures m == Bomb <==> BombEligible(roundNumber, botBombUsed) && draw.bombRoll
    ensures m != Bomb ==> m == draw.choice
  {
    if roundNumber < 2 || botBombUsed then draw.choice
    else if draw.bombRoll then Bomb
    else draw.choice
  }

  /**
    * Some outcome of the random source yields move `m` exactly when `m` is a
    * standard move or bomb is eligible.
    */
  lemma BotMoveRange(roundNumber: nat, botBombUsed: bool, m: Move)
    ensures (exists d: BotDraw :: d.choice in STANDARD_MOVES && BotMove(roundNumber, botBombUsed, d) == m)
            <==> (m != Bomb || BombEligible(roundNumber, botBombUsed))
  {
    if m != Bomb || BombEligible(roundNumber, botBombUsed) {
      var d := if m == Bomb then BotDraw(true, Rock) else BotDraw(false, m);
      assert d.choice in STANDARD_MOVES && BotMove(roundNumber, botBombUsed, d) == m;
    }
  }

  // ---------------------------------------------------------------------
  // Round resolver

  /** The standard-move beaten by `m` (the `wins` table); bomb has no entry. */
  function Beaten(m: Move): Option<Move>
  {
    match m
    case Rock => Some(Scissors)
    case Scissors => Some(Paper)
    case Paper => Some(Rock)
    case Bomb => None
  }

  /** Position of a move on the rock, paper, scissors cycle. */
  function CyclePosition(m: Move): int
  {
    match m
    case Rock => 0
    case Paper => 1
    case Scissors => 2
    case Bomb => 3
  }

  /**
    * Reference definition of the cycle: `a` beats `b` when `a` is one step
    * after `b` around rock, paper, scissors.
    */
  predicate CycleBeats(a: Move, b: Move)
  {
    a != Bomb && b != Bomb && (CyclePosition(a) - CyclePosition(b)) % 3 == 1
  }

  /** Resolves a round; an absent user move means no valid move was classified. */
  function DetermineWinner(userMove: Option<Move>, botMove: Move): (r: Winner)
    ensures r == NoContest <==> userMove == None
    ensures r == Draw <==> userMove == Some(botMove)
    ensures userMove == Some(Bomb) && botMove != Bomb ==> r == User
    ensures botMove == Bomb && userMove.Some? && userMove.value != Bomb ==> r == Bot
    ensures userMove.Some? && userMove.value != Bomb && botMove != Bomb && userMove.value != botMove ==>
              (r == User <==> CycleBeats(userMove.value, botMove)) &&
              (r == Bot <==> CycleBeats(botMove, userMove.value))
  {
    if userMove.None? then NoContest
    else if userMove.value == botMove then Draw
    else if userMove.value == Bomb then User
    else if botMove == Bomb then Bot
    else if Beaten(userMove.value) == Some(botMove) then User
    else Bot
  }

  /** Exchanges the two players' sides of an outcome. */
  function Swap(w: Winner): Winner
  {
    match w
    case User => Bot
    case Bot => User
    case Draw => Draw
    case NoContest => NoContest
  }

  /** Swapping the two moves swaps who wins. */
  lemma WinnerAntisymmetric(u: Move, b: Move)
    ensures DetermineWinner(Some(u), b) == Swap(DetermineWinner(Some(b), u))
    ensures DetermineWinner(Some(u), b) != NoContest
  {
  }

  // ---------------------------------------------------------------------
  // Explanation

  /** The three rules of the standard cycle. */
  datatype Dominance = RockCrushesScissors | ScissorsCutsPaper | PaperCoversRock

  function Winning(d: Dominance): Move
  {
    match d
    case RockCrushesScissors => Rock
    case ScissorsCutsPaper => Scissors
    case PaperCoversRock => Paper
  }

  function Losing(d: Dominance): Move
  {
    match d
    case RockCrushesScissors => Scissors
    case ScissorsCutsPaper => Paper
    case PaperCoversRock => Rock
  }

  /** What an explanation says happened in a round. */
  datatype Cause =
    | WastedInvalid(botMove: Move)
    | WastedUnclear(botMove: Move)
    | NoValidMove
    | BothPlayed(move: Move)
    | UserBomb(destroyed: Move)
    | BotBomb(destroyed: Move)
    | Rule(rule: Dominance, userWins: bool)
    | Fallback(winner: Winner)

  /** The table of the six directional (user move, bot move) pairs. */
  function RuleFor(userMove: Option<Move>, botMove: Move): Option<Cause>
  {
    match (userMove, botMove)
    case (Some(Rock), Scissors) => Some(Rule(RockCrushesScissors, true))
    case (Some(Scissors), Paper) => Some(Rule(ScissorsCutsPaper, true))
    case (Some(Paper), Rock) => Some(Rule(PaperCoversRock, true))
    case (Some(Scissors), Rock) => Some(Rule(RockCrushesScissors, false))
    case (Some(Paper), Scissors) => Some(Rule(ScissorsCutsPaper, false))
    case (Some(Rock), Paper) => Some(Rule(PaperCoversRock, false))
    case _ => None
  }

  /**
    * The inputs for which deriving the explanation does not fail: a VALID
    * round that is not a no-contest names the user's move when it is a draw
    * or the bot bombed, so the move must then be present.
    */
  predicate Renders(userMove: Option<Move>, botMove: Move, winner: Winner, classification: Classification)
  {
    classification != Valid || winner == NoContest || userMove.Some? || (winner != Draw && botMove != Bomb)
  }

  /** The cause get_explanation reports for a round. */
  function Explain(userMove: Option<Move>, botMove: Move, winner: Winner, classification: Classification): (c: Cause)
    requires Renders(userMove, botMove, winner, classification)
    ensures classification == Invalid ==> c == WastedInvalid(botMove)
    ensures classification == Unclear ==> c == WastedUnclear(botMove)
    ensures classification == Valid && winner == NoContest ==> c == NoValidMove
    ensures classification == Valid && winner == Draw ==> c == BothPlayed(userMove.value)
    ensures c.Fallback? ==> c.winner == winner && RuleFor(userMove, botMove) == None
  {
    if classification == Invalid then WastedInvalid(botMove)
    else if classification == Unclear then WastedUnclear(botMove)
    else if winner == NoContest then NoValidMove
    else if winner == Draw then BothPlayed(userMove.value)
    else if userMove == Some(Bomb) then UserBomb(botMove)
    else if botMove == Bomb then BotBomb(userMove.value)
    else match RuleFor(userMove, botMove)
      case Some(rule) => rule
      case None => Fallback(winner)
  }

  /**
    * Reference reading of a cause: it tells the truth about the round. Only
    * an INVALID or UNCLEAR round is reported as wasted; every other cause
    * speaks of a VALID round.
    */
  predicate Describes(c: Cause, userMove: Option<Move>, botMove: Move, winner: Winner, classification: Classification)
  {
    match c
    case WastedInvalid(m) => classification == Invalid && m == botMove
    case WastedUnclear(m) => classification == Unclear && m == botMove
    case NoValidMove => classification == Valid && winner == NoContest && userMove == None
    case BothPlayed(m) => classification == Valid && winner == Draw && userMove == Some(m) && botMove == m
    case UserBomb(m) => classification == Valid && winner == User && userMove == Some(Bomb) && botMove == m
    case BotBomb(m) => classification == Valid && winner == Bot && botMove == Bomb && userMove == Some(m)
    case Rule(d, userWins) =>
      classification == Valid &&
      if userWins then winner == User && userMove == Some(Winning(d)) && botMove == Losing(d)
      else winner == Bot && userMove == Some(Losing(d)) && botMove == Winning(d)
    case Fallback(_) => false
  }

  /**
    * For every pair of moves, the explanation of the resolver's verdict is
    * well defined, never the generic fallback, and describes exactly what
    * happened: a VALID round by its verdict, both moves and the rule applied,
    * an INVALID or UNCLEAR round as wasted whatever the verdict.
    */
  lemma ExplanationDescribesRound(userMove: Option<Move>, botMove: Move, classification: Classification)
    ensures Renders(userMove, botMove, DetermineWinner(userMove, botMove), classification)
    ensures var w := DetermineWinner(userMove, botMove);
            var c := Explain(userMove, botMove, w, classification);
            !c.Fallback? &&
            Describes(c, userMove, botMove, w, classification) &&
            (classification == Invalid ==> c == WastedInvalid(botMove)) &&
            (classification == Unclear ==> c == WastedUnclear(botMove))
  {
    var w := DetermineWinner(userMove, botMove);
    if classification == Valid && userMove.Some? && userMove.value != Bomb && botMove != Bomb && userMove.value != botMove {
      match (userMove.value, botMove)
      case (Rock, Scissors) =>
      case (Scissors, Paper) =>
      case (Paper, Rock) =>
      case (Scissors, Rock) =>
      case (Paper, Scissors) =>
      case (Rock, Paper) =>
    }
  }

  /** Upper-case name of a move, as explanations print it. */
  function Upper(m: Move): string
  {
    match m
    case Rock => "ROCK"
    case Paper => "PAPER"
    case Scissors => "SCISSORS"
    case Bomb => "BOMB"
  }

  /** The explanation string of a cause. */
  function Text(c: Cause): string
  {
    match c
    case WastedInvalid(m) => "Your move was INVALID. Turn wasted. (Bot played " + Upper(m) + ")"
    case WastedUnclear(m) => "Your move was UNCLEAR. Turn wasted. (Bot played " + Upper(m) + ")"
    case NoValidMove => "No valid move played. Turn wasted."
    case BothPlayed(m) => "Both played " + Upper(m) + ". It's a draw!"
    case UserBomb(m) => "Your BOMB destroys " + Upper(m) + ". You win!"
    case BotBomb(m) => "Bot's BOMB destroys your " + Upper(m) + ". Bot wins!"
    case Rule(RockCrushesScissors, true) => "Rock crushes scissors. You win!"
    case Rule(ScissorsCutsPaper, true) => "Scissors cuts paper. You win!"
    case Rule(PaperCoversRock, true) => "Paper covers rock. You win!"
    case Rule(RockCrushesScissors, false) => "Rock crushes scissors. Bot wins!"
    case Rule(ScissorsCutsPaper, false) => "Scissors cuts paper. Bot wins!"
    case Rule(PaperCoversRock, false) => "Paper covers rock. Bot wins!"
    case Fallback(User) => "User wins!"
    case Fallback(Bot) => "Bot wins!"
    case Fallback(Draw) => "Draw wins!"
    case Fallback(NoContest) => "No_contest wins!"
  }

  // ---------------------------------------------------------------------
  // The engine

  /**
    * The state after one round in which the bot played `botMove` and the
    * round went to `winner`.
    */
  function AfterRound(v: StateView, userMove: Option<Move>, classification: Classification, botMove: Move, winner: Winner): StateView
  {
    var roundNumber := v.roundNumber + 1;
    StateView(
      roundNumber,
      v.userScore + (if winner == User then 1 else 0),
      v.botScore + (if winner == Bot then 1 else 0),
      v.userBombUsed || (userMove == Some(Bomb) && classification == Valid),
      v.botBombUsed || botMove == Bomb,
      v.moveHistory + [HistoryEntry(roundNumber, userMove, botMove, winner)])
  }

  lemma NumberedAfterRound(
    v: StateView, userMove: Option<Move>, classification: Classification, botMove: Move, winner: Winner)
    requires Numbered(v)
    ensures Numbered(AfterRound(v, userMove, classification, botMove, winner))
  {
  }

  lemma ScoresAfterRound(
    v: StateView, userMove: Option<Move>, classification: Classification, botMove: Move, winner: Winner)
    requires ScoresTallied(v)
    ensures ScoresTallied(AfterRound(v, userMove, classification, botMove, winner))
  {
    var e := HistoryEntry(v.roundNumber + 1, userMove, botMove, winner);
    TallyAppend(v.moveHistory, e, User);
    TallyAppend(v.moveHistory, e, Bot);
  }

  lemma BombsAfterRound(
    v: StateView, userMove: Option<Move>, classification: Classification, botMove: Move, winner: Winner)
    requires BombsRecorded(v) && Numbered(v)
    requires botMove == Bomb ==> BombEligible(v.roundNumber + 1, v.botBombUsed)
    ensures BombsRecorded(AfterRound(v, userMove, classification, botMove, winner))
  {
    var h := v.moveHistory;
    var e := HistoryEntry(v.roundNumber + 1, userMove, botMove, winner);
    var h' := AfterRound(v, userMove, classification, botMove, winner).moveHistory;
    assert h' == h + [e];
    BotBombsAppend(h, e);
    UserBombsAppend(h, e);
    forall i | 0 <= i < |h'| && h'[i].botMove == Bomb
      ensures h'[i].round >= 2
    {
      if i < |h| {
        assert h'[i] == h[i];
      }
    }
  }

  /**
    * One round keeps the state invariant: the round counter and the history
    * grow together, the winner's score grows with its tally, and a bot bomb
    * that respects eligibility keeps the bot to a single bomb after round 1.
    */
  lemma RoundPreservesConsistency(
    v: StateView, userMove: Option<Move>, classification: Classification, botMove: Move, winner: Winner)
    requires botMove == Bomb ==> BombEligible(v.roundNumber + 1, v.botBombUsed)
    ensures StateInvariant(v) ==> StateInvariant(AfterRound(v, userMove, classification, botMove, winner))
  {
    if StateInvariant(v) {
      NumberedAfterRound(v, userMove, classification, botMove, winner);
      ScoresAfterRound(v, userMove, classification, botMove, winner);
      BombsAfterRound(v, userMove, classification, botMove, winner);
    }
  }

  class GameLogic {
    var state: GameState

    constructor ()
      ensures fresh(state) && state.IsInitial() && state.Consistent()
    {
      state := new GameState();
    }

    /**
      * Plays one round. `draw` is the outcome of the random source the bot
      * move is generated from; `reasoning` is accepted and ignored.
      */
    method PlayRound(userMove: Option<Move>, classification: Classification, reasoning: string, draw: BotDraw)
      returns (result: RoundResult)
      requires draw.choice in STANDARD_MOVES
      modifies state
      ensures old(state.Consistent()) ==> state.Consistent()
      ensures result.botMove == BotMove(old(state.roundNumber) + 1, old(state.botBombUsed), draw)
      ensures result.winner == DetermineWinner(userMove, result.botMove)
      ensures state.View() == AfterRound(old(state.View()), userMove, classification, result.botMove, result.winner)
      ensures result == RoundResult(
                state.roundNumber, userMove, result.botMove, result.winner,
                Text(Explain(userMove, result.botMove, result.winner, classification)),
                state.userScore, state.botScore)
    {
      ghost var v0 := state.View();
      state.roundNumber := state.roundNumber + 1;

      var botMove := BotMove(state.roundNumber, state.botBombUsed, draw);

      if userMove == Some(Bomb) && classification == Valid {
        state.userBombUsed := true;
      }
      if botMove == Bomb {
        state.botBombUsed := true;
      }

      var winner := DetermineWinner(userMove, botMove);

      if winner == User {
        state.userScore := state.userScore + 1;
      } else if winner == Bot {
        state.botScore := state.botScore + 1;
      }

      state.AddRound(userMove, botMove, winner);

      assert state.View() == AfterRound(v0, userMove, classification, botMove, winner);
      RoundPreservesConsistency(v0, userMove, classification, botMove, winner);

      // The explanation depends only on this round's moves, verdict and tag,
      // so deriving it after the history update yields the same string.
      var explanation := Text(Explain(userMove, botMove, winner, classification));
      result := RoundResult(
        state.roundNumber, userMove, botMove, winner, explanation, state.userScore, state.botScore);
    }

    /** The game-level result: the strictly higher score wins, equal scores draw. */
    function GetFinalResult(): (r: Winner)
      reads this, state
      ensures r == User <==> state.userScore > state.botScore
      ensures r == Bot <==> state.botScore > state.userScore
      ensures r == Draw <==> state.userScore == state.botScore
    {
      if state.userScore > state.botScore then User
      else if state.botScore > state.userScore then Bot
      else Draw
    }

    /** Starts a new game on a fresh state. */
    method Reset()
      modifies this
      ensures fresh(state) && state.IsInitial() && state.Consistent()
    {
      state := new GameState();
    }
  }

  /** On a consistent state the final result is decided by who won more recorded rounds. */
  lemma FinalResultFromHistory(g: GameLogic)
    requires g.state.Consistent()
    ensures g.GetFinalResult() == User <==> Tally(g.state.moveHistory, User) > Tally(g.state.moveHistory, Bot)
    ensures g.GetFinalResult() == Bot <==> Tally(g.state.moveHistory, Bot) > Tally(g.state.moveHistory, User)
    ensures g.GetFinalResult() == Draw <==> Tally(g.state.moveHistory, User) == Tally(g.state.moveHistory, Bot)
  {
  }

  /**
    * The three rounds the module's own demonstration plays on a fresh game:
    * rock (VALID), no move (INVALID), bomb (VALID), against bot moves drawn
    * from `d1`, `d2`, `d3`.
    */
  method ScriptedGame(d1: BotDraw, d2: BotDraw, d3: BotDraw)
    returns (r1: RoundResult, r2: RoundResult, r3: RoundResult, userBombUsed: bool)
    requires d1.choice in STANDARD_MOVES && d2.choice in STANDARD_MOVES && d3.choice in STANDARD_MOVES
    ensures r1.roundNumber == 1 && r2.roundNumber == 2 && r3.roundNumber == 3
    ensures r1.botMove != Bomb
    ensures d1.choice == Scissors ==>
              r1.winner == User && r1.userScore == 1 && r1.botScore == 0 &&
              r1.explanation == "Rock crushes scissors. You win!"
    ensures r2.winner == NoContest && r2.userScore == r1.userScore && r2.botScore == r1.botScore
    ensures r2.explanation == "Your move was INVALID. Turn wasted. (Bot played " + Upper(r2.botMove) + ")"
    ensures r2.botMove == Bomb ==> r3.botMove != Bomb
    ensures r3.winner == (if r3.botMove == Bomb then Draw else User)
    ensures r3.userScore == r2.userScore + (if r3.botMove == Bomb then 0 else 1)
    ensures userBombUsed
  {
    var logic := new GameLogic();
    r1 := logic.PlayRound(Some(Rock), Valid, "User chose rock", d1);
    r2 := logic.PlayRound(None, Invalid, "Invalid move", d2);
    r3 := logic.PlayRound(Some(Bomb), Valid, "User plays bomb", d3);
    userBombUsed := logic.state.userBombUsed;
  }
}
