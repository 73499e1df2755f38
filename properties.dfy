/**
 * What the event loop promises, stated over `EventLoop.Step` and
 * `EventLoop.Run`: the confirmation gate, the selection state machine, the
 * requests sent after a move, the draining order and the game-over latch.
 */
module Properties {
  import opened Wrappers
  import opened ChessRules
  import opened GameState
  import opened Selection
  import opened ConfirmGate
  import opened Results
  import opened EventLoop

  // ---------------------------------------------------------------- confirmation gate

  /** A first press of a gated button arms it and runs nothing. */
  lemma FirstPressOnlyArms<P>(rules: Rules<P>, s: State<P>, k: GatedKey)
    requires k !in s.confirm
    ensures var e := Step(rules, s, Gated(k));
      !e.quit && e.state.confirm == {k} &&
      e.state.(confirm := s.confirm, gameOverNotified := s.gameOverNotified) == s
  {
  }

  /** A second press of the armed button disarms it and runs its action. */
  lemma SecondPressRunsAction<P>(rules: Rules<P>, s: State<P>, k: GatedKey)
    requires k in s.confirm
    ensures var e := Step(rules, s, Gated(k));
      e.state.confirm == {} &&
      (k == Exit ==> e.quit && e.state == s.(confirm := {})) &&
      (k != Exit ==>
        !e.quit &&
        e.state.board == rules.startingPosition &&
        e.state.botEnabled == (if k == ToggleBot then !s.botEnabled else s.botEnabled) &&
        e.state.selected == None && e.state.validMoves == map[] &&
        e.state.suggestion == s.suggestion &&
        e.state.gameOverNotified == rules.isGameOver(rules.startingPosition) &&
        e.state.assistantEnabled == s.assistantEnabled &&
        e.state.moveQueue == s.moveQueue && e.state.suggestionQueue == s.suggestionQueue &&
        // the new game asks for a suggestion exactly when the assistant is on, the
        // starting position is not over and the bot does not open it
        var bot := if k == ToggleBot then !s.botEnabled else s.botEnabled;
        var start := rules.startingPosition;
        var asks := s.assistantEnabled && !rules.isGameOver(start) && !(bot && rules.turn(start) == Black);
        e.state.outstanding == s.outstanding + (if asks then [Request(SuggestionChannel, start)] else []))
  {
  }

  /** Two presses in a row of RESTART or the bot-mode button run the action exactly once, on the second. */
  lemma DoublePressRunsOnce<P>(rules: Rules<P>, s: State<P>, k: GatedKey)
    requires k !in s.confirm && k != Exit
    ensures var e1 := Step(rules, s, Gated(k));
            var e2 := Step(rules, e1.state, Gated(k));
      e1.state.board == s.board && e1.state.botEnabled == s.botEnabled &&
      e2.state.board == rules.startingPosition &&
      e2.state.botEnabled == (if k == ToggleBot then !s.botEnabled else s.botEnabled) &&
      e2.state.confirm == {}
  {
    FirstPressOnlyArms(rules, s, k);
    SecondPressRunsAction(rules, Step(rules, s, Gated(k)).state, k);
  }

  /** Pressing a different gated button cancels the pending one and arms the new one instead. */
  lemma OtherGatedPressRearms<P>(rules: Rules<P>, s: State<P>, pending: GatedKey, k: GatedKey)
    requires s.confirm == {pending} && k != pending
    ensures var e := Step(rules, s, Gated(k));
      !e.quit && e.state.confirm == {k} &&
      e.state.board == s.board && e.state.botEnabled == s.botEnabled
  {
  }

  predicate IsUserAction(ev: Event) {
    ev.Skip? || ev.SetBoard? || ev.ToggleAssistant? || ev.Click?
  }

  /**
   * Any other user event disarms the gate, and the pending action has no
   * effect on it: the event does what it would do with nothing pending.
   */
  lemma UserActionDisarms<P>(rules: Rules<P>, s: State<P>, ev: Event)
    requires IsUserAction(ev)
    ensures Step(rules, s, ev).state.confirm == {}
    ensures Step(rules, s, ev) == Step(rules, s.(confirm := {}), ev)
  {
    assert Disarm(s) == Disarm(s.(confirm := {}));
  }

  /** A timeout keeps whatever is pending: the gate has no time limit. */
  lemma TimeoutKeepsPending<P>(rules: Rules<P>, s: State<P>)
    ensures Step(rules, s, Timeout).state.confirm == s.confirm
  {
  }

  /** One step keeps at most one button armed. */
  lemma StepConfirmAtMostOne<P>(rules: Rules<P>, s: State<P>, ev: Event)
    requires |s.confirm| <= 1
    ensures |Step(rules, s, ev).state.confirm| <= 1
  {
    match ev
    case Timeout => TimeoutKeepsPending(rules, s);
    case Closed =>
    case Gated(k) => if k !in s.confirm { FirstPressOnlyArms(rules, s, k); }
    case _ => UserActionDisarms(rules, s, ev);
  }

  /** Over a whole session at most one button is ever armed. */
  lemma {:induction false} RunConfirmAtMostOne<P>(rules: Rules<P>, s: State<P>, inputs: seq<Input>)
    requires |s.confirm| <= 1
    ensures |Run(rules, s, inputs).last.confirm| <= 1
    decreases |inputs|
  {
    if inputs != [] {
      match inputs[0]
      case EngineDone(k, answer) =>
        RunConfirmAtMostOne(rules, if k < |s.outstanding| then EngineReply(s, k, answer) else s, inputs[1..]);
      case Ev(ev) =>
        StepConfirmAtMostOne(rules, s, ev);
        if !Step(rules, s, ev).quit {
          RunConfirmAtMostOne(rules, Step(rules, s, ev).state, inputs[1..]);
        }
    }
  }

  // ---------------------------------------------------------------- selection

  /** A first click on a piece of the side to move selects it with exactly its legal destinations. */
  lemma FirstClickSelectsOwnPiece<P>(rules: Rules<P>, s: State<P>, row: Coord, col: Coord, piece: Piece)
    requires s.selected == None && !rules.isGameOver(s.board) && !IsBotTurn(rules, s)
    requires rules.pieceAt(s.board, SquareAt(col, row)) == Some(piece) && piece.color == rules.turn(s.board)
    ensures var sq, e := SquareAt(col, row), Step(rules, s, Click(row, col));
      e.state.selected == Some(sq) &&
      e.state.validMoves.Keys == (set m | m in rules.legalMoves(s.board) && m.from == sq :: m.to) &&
      (forall t :: t in e.state.validMoves ==>
         e.state.validMoves[t] in rules.legalMoves(s.board) &&
         e.state.validMoves[t].from == sq && e.state.validMoves[t].to == t)
  {
    var sq := SquareAt(col, row);
    var moves := rules.legalMoves(s.board);
    forall t | t in DestinationMap(moves, sq)
      ensures DestinationMap(moves, sq)[t] in moves
    {
      var i :| IsLastMatch(moves, i, sq, t) && moves[i] == DestinationMap(moves, sq)[t];
    }
  }

  /** A first click on an empty square or on an opponent's piece leaves nothing selected. */
  lemma FirstClickElsewhereStaysIdle<P>(rules: Rules<P>, s: State<P>, row: Coord, col: Coord)
    requires s.selected == None
    requires match rules.pieceAt(s.board, SquareAt(col, row))
             case None => true
             case Some(piece) => piece.color != rules.turn(s.board)
    ensures var e := Step(rules, s, Click(row, col));
      e.state.selected == None && e.state.validMoves == s.validMoves
  {
  }

  /** With a selection, any click (the origin, a destination, anything else) ends it. */
  lemma SecondClickEndsSelection<P>(rules: Rules<P>, s: State<P>, row: Coord, col: Coord)
    requires s.selected.Some? && !rules.isGameOver(s.board) && !IsBotTurn(rules, s)
    ensures var e := Step(rules, s, Click(row, col));
      e.state.selected == None && e.state.validMoves == map[]
  {
  }

  /** A finished game ignores board clicks: the step is a plain tick, apart from disarming the gate. */
  lemma ClickIgnoredWhenGameOver<P>(rules: Rules<P>, s: State<P>, row: Coord, col: Coord)
    requires rules.isGameOver(s.board)
    ensures Step(rules, s, Click(row, col)) == Step(rules, s.(confirm := {}), Timeout)
  {
  }

  /** On the bot's turn a board click changes nothing but the gate, and the queues wait. */
  lemma ClickIgnoredOnBotTurn<P>(rules: Rules<P>, s: State<P>, row: Coord, col: Coord)
    requires !rules.isGameOver(s.board) && IsBotTurn(rules, s)
    ensures Step(rules, s, Click(row, col)) == Effect(s.(confirm := {}), None, false)
  {
  }

  /** A second click finds a move exactly when the clicked square is one of the selection's destinations. */
  lemma {:induction false} DestinationIffMove(moves: seq<Move>, from: Square, to: Square)
    ensures to in DestinationMap(moves, from) <==> FirstMoveBetween(moves, from, to).Some?
  {
    var keys := set m | m in moves && m.from == from :: m.to;
    assert DestinationMap(moves, from).Keys == keys;
    if to in keys {
      var m :| m in moves && m.from == from && m.to == to;
      assert FirstMoveBetween(moves, from, to).Some?;
    }
    if FirstMoveBetween(moves, from, to).Some? {
      var i :| IsFirstMatch(moves, i, from, to);
      assert moves[i] in moves;
      assert to in keys;
    }
  }

  /**
   * A second click on a destination plays the first legal move to it (a pawn
   * reaching the last rank as a queen), clears the selection, keeps the
   * suggestion, and asks for the bot's move or a suggestion as the new
   * position calls for.
   */
  lemma HumanMovePlayed<P>(rules: Rules<P>, s: State<P>, origin: Square, sq: Square, m: Move)
    requires s.selected == Some(origin) && sq != origin
    requires FirstMoveBetween(rules.legalMoves(s.board), origin, sq) == Some(m)
    ensures var played := AutoQueen(m, IsPawnAt(rules, s.board, origin));
            var pushed := rules.push(s.board, played);
            var r := ClickBoard(rules, s, sq);
      m in rules.legalMoves(s.board) && m.from == origin && m.to == sq &&
      played.from == origin && played.to == sq &&
      (IsPawnAt(rules, s.board, origin) && (Rank(sq) == 0 || Rank(sq) == 7) ==>
         played.promotion == Some(Queen)) &&
      r.board == pushed && r.selected == None && r.validMoves == map[] &&
      r.suggestion == s.suggestion &&
      r.outstanding == s.outstanding +
        (if rules.isGameOver(pushed) then []
         else if s.botEnabled && rules.turn(pushed) == Black then [Request(MoveChannel, pushed)]
         else if s.assistantEnabled then [Request(SuggestionChannel, pushed)]
         else [])
  {
    var moves := rules.legalMoves(s.board);
    var i :| IsFirstMatch(moves, i, origin, sq) && moves[i] == m;
  }

  /** A second click on a square no legal move reaches only clears the selection. */
  lemma InvalidSecondClick<P>(rules: Rules<P>, s: State<P>, origin: Square, sq: Square)
    requires s.selected == Some(origin) && sq != origin
    requires sq !in DestinationMap(rules.legalMoves(s.board), origin)
    ensures ClickBoard(rules, s, sq) == s.(selected := None, validMoves := map[])
  {
    DestinationIffMove(rules.legalMoves(s.board), origin, sq);
  }

  // ---------------------------------------------------------------- other buttons

  /**
   * SKIP passes the turn with the null move, clears the selection and asks for
   * the bot's move or a suggestion; unlike a played move it does not first
   * check whether the game is over.
   */
  lemma SkipPassesTurn<P>(rules: Rules<P>, s: State<P>)
    ensures var e := Step(rules, s, Skip);
            var passed := rules.push(s.board, NullMove);
      !e.quit && e.state.confirm == {} &&
      e.state.board == passed && e.state.selected == None && e.state.validMoves == map[] &&
      e.state.suggestion == s.suggestion &&
      e.state.botEnabled == s.botEnabled && e.state.assistantEnabled == s.assistantEnabled &&
      e.state.moveQueue == s.moveQueue && e.state.suggestionQueue == s.suggestionQueue &&
      e.state.outstanding == s.outstanding +
        (if s.botEnabled && rules.turn(passed) == Black then [Request(MoveChannel, passed)]
         else if s.assistantEnabled then [Request(SuggestionChannel, passed)]
         else [])
  {
  }

  /**
   * A FEN that parses replaces the board, clears the selection and the latch
   * (the latch is set again at once only if the new position is already
   * over), and asks for the bot's move when the bot is to play; a cancelled
   * prompt or text that does not parse changes nothing but the gate.
   */
  lemma LoadFenOutcome<P>(rules: Rules<P>, s: State<P>, fen: Option<string>)
    ensures var e := Step(rules, s, SetBoard(fen));
      !e.quit && e.state.confirm == {} &&
      (!LoadsPosition(rules, fen) ==> e == Effect(s.(confirm := {}), None, false)) &&
      (LoadsPosition(rules, fen) ==>
         var p := rules.parseFen(fen.value).value;
         e.state.board == p && e.state.selected == None && e.state.validMoves == map[] &&
         e.state.gameOverNotified == rules.isGameOver(p) &&
         e.state.suggestion == s.suggestion &&
         e.state.botEnabled == s.botEnabled && e.state.assistantEnabled == s.assistantEnabled &&
         e.state.moveQueue == s.moveQueue && e.state.suggestionQueue == s.suggestionQueue &&
         e.state.outstanding == s.outstanding +
           (if s.botEnabled && rules.turn(p) == Black && !rules.isGameOver(p)
            then [Request(MoveChannel, p)] else []))
  {
  }

  /**
   * ASSISTANT flips the assistant; it asks for a suggestion when it is now on
   * and there is a move to advise on, and otherwise forgets the suggestion.
   */
  lemma AssistantSwitched<P>(rules: Rules<P>, s: State<P>)
    ensures var e := Step(rules, s, ToggleAssistant);
            var asks := !s.assistantEnabled && !rules.isGameOver(s.board) && !IsBotTurn(rules, s);
      !e.quit && e.state.confirm == {} &&
      e.state.assistantEnabled == !s.assistantEnabled && e.state.board == s.board &&
      e.state.botEnabled == s.botEnabled &&
      e.state.selected == s.selected && e.state.validMoves == s.validMoves &&
      e.state.moveQueue == s.moveQueue && e.state.suggestionQueue == s.suggestionQueue &&
      (asks ==> e.state.suggestion == s.suggestion &&
                e.state.outstanding == s.outstanding + [Request(SuggestionChannel, s.board)]) &&
      (!asks ==> e.state.suggestion == None && e.state.outstanding == s.outstanding)
  {
  }

  /** Bot mode changes only on a confirmed press of the bot-mode button. */
  lemma BotModeChangesOnlyOnToggle<P>(rules: Rules<P>, s: State<P>, ev: Event)
    ensures Step(rules, s, ev).state.botEnabled ==
      (if ev == Gated(ToggleBot) && ToggleBot in s.confirm then !s.botEnabled else s.botEnabled)
  {
  }

  /** The assistant changes only on ASSISTANT. */
  lemma AssistantChangesOnlyOnSwitch<P>(rules: Rules<P>, s: State<P>, ev: Event)
    ensures Step(rules, s, ev).state.assistantEnabled ==
      (if ev == ToggleAssistant then !s.assistantEnabled else s.assistantEnabled)
  {
  }

  // ---------------------------------------------------------------- result queues

  /**
   * With a bot move and a suggestion both waiting, the bot move is applied
   * first and the suggestion is judged against the position after it.
   */
  lemma BotMoveDrainedBeforeSuggestion<P>(rules: Rules<P>, s: State<P>)
    requires s.moveQueue != [] && s.suggestionQueue != []
    ensures var e := Drain(rules, Effect(s, None, false));
            var pushed := rules.push(s.board, s.moveQueue[0]);
            var sugg := s.suggestionQueue[0];
      e.state.board == pushed &&
      e.state.moveQueue == s.moveQueue[1..] && e.state.suggestionQueue == s.suggestionQueue[1..] &&
      e.state.suggestion == (if IsLegal(rules, pushed, sugg) then Some(sugg) else None)
  {
  }

  // ---------------------------------------------------------------- game-over latch

  /** A message is only ever shown together with a set flag. */
  predicate ReportSetsLatch<P>(e: Effect<P>) {
    e.report.Some? ==> e.state.gameOverNotified
  }

  /**
   * Measured from `before`: the flag has not gone back to false, and a message
   * was shown exactly when it went from false to true.
   */
  predicate LatchKept<P>(before: State<P>, e: Effect<P>) {
    ReportSetsLatch(e) &&
    (before.gameOverNotified ==> e.state.gameOverNotified) &&
    (e.report.Some? <==> !before.gameOverNotified && e.state.gameOverNotified)
  }

  lemma RefreshKeepsLatch<P>(rules: Rules<P>, before: State<P>, e: Effect<P>)
    ensures ReportSetsLatch(e) ==> ReportSetsLatch(Refresh(rules, e))
    ensures LatchKept(before, e) ==> LatchKept(before, Refresh(rules, e))
  {
  }

  lemma DrainKeepsLatch<P>(rules: Rules<P>, before: State<P>, e: Effect<P>)
    requires LatchKept(before, e)
    ensures LatchKept(before, Drain(rules, e))
  {
    var e1 := DrainMoveQueue(rules, e);
    if e.state.moveQueue != [] {
      var m := e.state.moveQueue[0];
      var s := e.state.(moveQueue := e.state.moveQueue[1..]);
      var s' := s.(board := rules.push(s.board, m), suggestion := None);
      var s'' := if s'.assistantEnabled && !rules.isGameOver(s'.board)
                 then Dispatch(s', SuggestionChannel) else s';
      assert e1 == Refresh(rules, e.(state := s''));
      RefreshKeepsLatch(rules, before, e.(state := s''));
    }
    assert LatchKept(before, e1);
    if e1.state.suggestionQueue != [] {
      var m := e1.state.suggestionQueue[0];
      var s := e1.state.(suggestionQueue := e1.state.suggestionQueue[1..]);
      if IsLegal(rules, s.board, m) {
        RefreshKeepsLatch(rules, before, e1.(state := s.(suggestion := Some(m))));
      }
    }
  }

  /**
   * One step and the latch: a message is shown only together with setting
   * the flag; outside a reset the flag never goes back to false, and the
   * message is shown exactly when the flag goes from false to true.
   */
  lemma StepLatch<P>(rules: Rules<P>, s: State<P>, ev: Event)
    ensures ReportSetsLatch(Step(rules, s, ev))
    ensures !IsReset(rules, s, ev) ==> LatchKept(s, Step(rules, s, ev))
  {
    match ev
    case Closed =>
    case Timeout =>
      DrainKeepsLatch(rules, s, Effect(s, None, false));
    case Gated(k) =>
      if k !in s.confirm {
        RefreshKeepsLatch(rules, s, Effect(s.(confirm := {k}), None, false));
      } else if k != Exit {
        var cleared := s.(confirm := {});
        RefreshKeepsLatch(rules, s, Effect(ResetSelection(ResetGame(rules, cleared, k)), None, false));
      }
    case Skip =>
      var d := Disarm(s);
      RefreshKeepsLatch(rules, s, Effect(ResetSelection(d.(board := rules.push(d.board, NullMove))), None, false));
    case SetBoard(fen) =>
      var d := Disarm(s);
      if LoadsPosition(rules, fen) {
        var p := rules.parseFen(fen.value).value;
        RefreshKeepsLatch(rules, s, Effect(ResetSelection(d.(board := p)).(gameOverNotified := false), None, false));
      }
    case ToggleAssistant =>
      var d := Disarm(s);
      var flipped := d.(assistantEnabled := !d.assistantEnabled);
      var s' := if flipped.assistantEnabled && !rules.isGameOver(flipped.board) && !IsBotTurn(rules, flipped)
                then Dispatch(flipped, SuggestionChannel)
                else flipped.(suggestion := None);
      RefreshKeepsLatch(rules, s, Effect(s', None, false));
    case Click(row, col) =>
      var d := Disarm(s);
      var sq := SquareAt(col, row);
      if rules.isGameOver(d.board) {
        DrainKeepsLatch(rules, s, Effect(d, None, false));
      } else if IsBotTurn(rules, d) {
      } else if d.selected == Some(sq) {
        RefreshKeepsLatch(rules, s, Effect(ResetSelection(d), None, false));
      } else {
        var c := ClickBoard(rules, d, sq);
        RefreshKeepsLatch(rules, s, Effect(c, None, false));
        DrainKeepsLatch(rules, s, RefreshState(rules, c));
      }
  }

  /**
   * Over a whole session, the end-of-game message is shown at most once per
   * game: never more often than the number of resets, plus one if the flag
   * was clear at the start.
   */
  lemma {:induction false} RunReportsAtMostOncePerGame<P>(rules: Rules<P>, s: State<P>, inputs: seq<Input>)
    ensures var t := Run(rules, s, inputs);
      t.reports + (if t.last.gameOverNotified then 0 else 1) <=
      t.resets + (if s.gameOverNotified then 0 else 1)
    decreases |inputs|
  {
    if inputs != [] {
      match inputs[0]
      case EngineDone(k, answer) =>
        var s' := if k < |s.outstanding| then EngineReply(s, k, answer) else s;
        RunReportsAtMostOncePerGame(rules, s', inputs[1..]);
      case Ev(ev) =>
        StepLatch(rules, s, ev);
        var e := Step(rules, s, ev);
        if !e.quit {
          RunReportsAtMostOncePerGame(rules, e.state, inputs[1..]);
        }
    }
  }

  /** Without a reset, a session whose flag is already set never shows the message again. */
  lemma NoReportAfterLatchWithoutReset<P>(rules: Rules<P>, s: State<P>, inputs: seq<Input>)
    requires s.gameOverNotified && Run(rules, s, inputs).resets == 0
    ensures Run(rules, s, inputs).reports == 0
  {
    RunReportsAtMostOncePerGame(rules, s, inputs);
  }
}
