/**
 * The event loop's state as the program keeps it: one object whose fields
 * are the program's globals, updated in place by one method per kind of
 * event. Each method is proved to leave exactly the state (and show exactly
 * the message) that the functions of `EventLoop` describe, so everything
 * proved in `Properties` holds of it.
 */
module Controller {
  import opened Wrappers
  import opened ChessRules
  import opened GameState
  import opened SquareColor
  import opened Selection
  import opened ConfirmGate
  import opened Results
  import opened EventLoop

  class GameController<P> {
    const rules: Rules<P>
    var board: P
    var selectedSquare: Option<Square>
    var validMovesSquares: map<Square, Move>
    var engineSuggestion: Option<Move>
    var isBotEnabled: bool
    var isAssistantEnabled: bool
    var confirmStates: set<GatedKey>
    var gameOverNotified: bool
    var moveQueue: seq<Move>
    var suggestionQueue: seq<Move>
    var outstanding: seq<Request<P>>   // engine requests started and not yet finished

    /** The fields as one value. */
    function Model(): State<P>
      reads this
    {
      State(board, selectedSquare, validMovesSquares, engineSuggestion, isBotEnabled,
            isAssistantEnabled, confirmStates, gameOverNotified, moveQueue, suggestionQueue,
            outstanding)
    }

    constructor (rules: Rules<P>)
      ensures this.rules == rules && Model() == Initial(rules)
    {
      this.rules := rules;
      board := rules.startingPosition;
      selectedSquare := None;
      validMovesSquares := map[];
      engineSuggestion := None;
      isBotEnabled := false;
      isAssistantEnabled := false;
      confirmStates := {};
      gameOverNotified := false;
      moveQueue := [];
      suggestionQueue := [];
      outstanding := [];
    }

    method ResetSelection()
      modifies this
      ensures Model() == GameState.ResetSelection(old(Model()))
    {
      selectedSquare := None;
      validMovesSquares := map[];
    }

    /** Start a background engine request on a copy of the board. */
    method StartEngine(channel: Channel)
      modifies this
      ensures Model() == Dispatch(old(Model()), channel)
    {
      outstanding := outstanding + [Request(channel, board)];
    }

    /**
     * The game-over check of the interface refresh; `shown` is the message
     * already shown in this pass of the loop, `report` the one shown after it.
     */
    method UpdateUi(shown: Option<Report>) returns (report: Option<Report>)
      modifies this
      ensures Effect(Model(), report, false) == Refresh(rules, Effect(old(Model()), shown, false))
    {
      report := shown;
      if rules.isGameOver(board) && !gameOverNotified {
        gameOverNotified := true;
        match rules.winner(board)
        case Some(White) => report := Some(WhiteWins);
        case Some(Black) => report := Some(BlackWins(isBotEnabled));
        case None => report := Some(Draw);
      }
    }

    /** The background colour of every square, in square order. */
    method BoardColors() returns (colors: seq<Color>)
      ensures |colors| == 64
      ensures forall sq: Square :: colors[sq] == SquareColorOf(rules, Model(), sq)
    {
      colors := [];
      var r := 0;
      while r < 8
        invariant 0 <= r <= 8 && |colors| == r * 8
        invariant forall i :: 0 <= i < |colors| ==> colors[i] == SquareColorOf(rules, Model(), i)
      {
        var f := 0;
        while f < 8
          invariant 0 <= f <= 8 && |colors| == r * 8 + f
          invariant forall i :: 0 <= i < |colors| ==> colors[i] == SquareColorOf(rules, Model(), i)
        {
          colors := colors + [SquareColorOf(rules, Model(), SquareAt(f, r))];
          f := f + 1;
        }
        r := r + 1;
      }
    }

    /** Engine request number `k` finishes with `answer` (None when the engine failed). */
    method EngineFinishes(k: nat, answer: Option<Move>)
      requires k < |outstanding|
      modifies this
      ensures Model() == EngineReply(old(Model()), k, answer)
    {
      var request := outstanding[k];
      outstanding := outstanding[..k] + outstanding[k + 1..];
      if answer.Some? {
        if request.channel == MoveChannel {
          moveQueue := moveQueue + [answer.value];
        } else {
          suggestionQueue := suggestionQueue + [answer.value];
        }
      }
    }

    /** One pass of the main loop for the event `ev`; `quit` ends the loop. */
    method HandleEvent(ev: Event) returns (report: Option<Report>, quit: bool)
      modifies this
      ensures Effect(Model(), report, quit) == Step(rules, old(Model()), ev)
    {
      report, quit := None, false;
      if ev.Closed? {
        quit := true;
        return;
      }
      if ev.Gated? {
        report, quit := PressGatedKey(ev.key);
        return;
      }
      if !ev.Timeout? {
        confirmStates := {};
      }
      match ev
      case Skip => report := SkipTurn();
      case SetBoard(fen) => report := LoadFen(fen);
      case ToggleAssistant => report := SwitchAssistant();
      case Click(row, col) => report := ClickSquare(SquareAt(col, row));
      case Timeout => report := DrainQueues(None);
    }

    method PressGatedKey(k: GatedKey) returns (report: Option<Report>, quit: bool)
      modifies this
      ensures Effect(Model(), report, quit) == PressGated(rules, old(Model()), k)
    {
      report, quit := None, false;
      if k !in confirmStates {
        confirmStates := {};
        confirmStates := confirmStates + {k};
        report := UpdateUi(report);
        return;
      }
      confirmStates := {};
      if k == Exit {
        quit := true;
        return;
      }
      if k == Restart {
        board := rules.startingPosition;
        gameOverNotified := false;
      }
      if k == ToggleBot {
        isBotEnabled := !isBotEnabled;
        board := rules.startingPosition;
        gameOverNotified := false;
      }
      ResetSelection();
      report := UpdateUi(report);
      if isAssistantEnabled && !rules.isGameOver(board) && !(isBotEnabled && rules.turn(board) == Black) {
        StartEngine(SuggestionChannel);
      }
    }

    method SkipTurn() returns (report: Option<Report>)
      modifies this
      ensures Effect(Model(), report, false) == EventLoop.SkipTurn(rules, old(Model()))
    {
      board := rules.push(board, NullMove);
      ResetSelection();
      report := UpdateUi(None);
      if isBotEnabled && rules.turn(board) == Black {
        StartEngine(MoveChannel);
      } else if isAssistantEnabled {
        StartEngine(SuggestionChannel);
      }
    }

    method LoadFen(fen: Option<string>) returns (report: Option<Report>)
      modifies this
      ensures Effect(Model(), report, false) == EventLoop.LoadFen(rules, old(Model()), fen)
    {
      report := None;
      if fen.Some? && fen.value != "" {
        var parsed := rules.parseFen(fen.value);
        if parsed.Some? {
          board := parsed.value;
          ResetSelection();
          gameOverNotified := false;
          report := UpdateUi(report);
          if isBotEnabled && rules.turn(board) == Black && !rules.isGameOver(board) {
            StartEngine(MoveChannel);
          }
        }
      }
    }

    method SwitchAssistant() returns (report: Option<Report>)
      modifies this
      ensures Effect(Model(), report, false) == EventLoop.SwitchAssistant(rules, old(Model()))
    {
      isAssistantEnabled := !isAssistantEnabled;
      if isAssistantEnabled && !rules.isGameOver(board) && !(isBotEnabled && rules.turn(board) == Black) {
        StartEngine(SuggestionChannel);
      } else {
        engineSuggestion := None;
      }
      report := UpdateUi(None);
    }

    method ClickSquare(sq: Square) returns (report: Option<Report>)
      modifies this
      ensures Effect(Model(), report, false) == ClickEvent(rules, old(Model()), sq)
    {
      report := None;
      if !rules.isGameOver(board) {
        if isBotEnabled && rules.turn(board) == Black {
          return;
        }
        if selectedSquare.None? {
          SelectSquare(sq);
        } else {
          var origin := selectedSquare.value;
          if sq == origin {
            ResetSelection();
            report := UpdateUi(report);
            return;
          }
          PlayOrReject(origin, sq);
        }
        report := UpdateUi(report);
      }
      report := DrainQueues(report);
    }

    /** The first click: select a piece of the side to move with its destinations. */
    method SelectSquare(sq: Square)
      requires selectedSquare == None
      modifies this
      ensures Model() == SelectOrigin(rules, old(Model()), sq)
    {
      var piece := rules.pieceAt(board, sq);
      if piece.Some? && piece.value.color == rules.turn(board) {
        selectedSquare := Some(sq);
        validMovesSquares := DestinationMap(rules.legalMoves(board), sq);
      }
    }

    /** The second click on `sq`, away from the selected `origin`: play the move there or reject it. */
    method PlayOrReject(origin: Square, sq: Square)
      modifies this
      ensures Model() == MoveOrReject(rules, old(Model()), origin, sq)
    {
      var move := FirstMoveBetween(rules.legalMoves(board), origin, sq);
      if move.Some? {
        var m := move.value;
        if IsPawnAt(rules, board, origin) && (Rank(m.to) == 0 || Rank(m.to) == 7) {
          m := m.(promotion := Some(Queen));
        }
        board := rules.push(board, m);
        ResetSelection();
        if !rules.isGameOver(board) {
          if isBotEnabled && rules.turn(board) == Black {
            StartEngine(MoveChannel);
          } else if isAssistantEnabled {
            StartEngine(SuggestionChannel);
          }
        }
      } else {
        ResetSelection();
      }
    }

    /** The end of the loop body: at most one bot move, then at most one suggestion. */
    method DrainQueues(shown: Option<Report>) returns (report: Option<Report>)
      modifies this
      ensures Effect(Model(), report, false) == Drain(rules, Effect(old(Model()), shown, false))
    {
      report := TakeBotMove(shown);
      report := TakeSuggestion(report);
    }

    /** A waiting bot move is pushed as it is, and the suggestion is dropped. */
    method TakeBotMove(shown: Option<Report>) returns (report: Option<Report>)
      modifies this
      ensures Effect(Model(), report, false) == DrainMoveQueue(rules, Effect(old(Model()), shown, false))
    {
      report := shown;
      if moveQueue != [] {
        var botMove := moveQueue[0];
        moveQueue := moveQueue[1..];
        board := rules.push(board, botMove);
        engineSuggestion := None;
        if isAssistantEnabled && !rules.isGameOver(board) {
          StartEngine(SuggestionChannel);
        }
        report := UpdateUi(report);
      }
    }

    /** A waiting suggestion is kept only if it is legal now. */
    method TakeSuggestion(shown: Option<Report>) returns (report: Option<Report>)
      modifies this
      ensures Effect(Model(), report, false) == DrainSuggestionQueue(rules, Effect(old(Model()), shown, false))
    {
      report := shown;
      if suggestionQueue != [] {
        var newSuggestion := suggestionQueue[0];
        suggestionQueue := suggestionQueue[1..];
        if newSuggestion in rules.legalMoves(board) {
          engineSuggestion := Some(newSuggestion);
          report := UpdateUi(report);
        }
      }
    }
  }
}
