/**
 * One pass of the main loop: read one event, handle it, and (on the paths
 * that do not `continue`) drain the result queues. `Run` replays a whole
 * session of events and engine completions.
 */
module EventLoop {
  import opened Wrappers
  import opened ChessRules
  import opened GameState
  import opened Selection
  import opened ConfirmGate
  import opened Results

  /** SKIP: push the null move, clear the selection, and ask for the next move or suggestion. */
  function SkipTurn<P>(rules: Rules<P>, s: State<P>): (r: Effect<P>)
    ensures r.state.confirm == s.confirm && !r.quit
  {
    var e := RefreshState(rules, ResetSelection(s.(board := rules.push(s.board, NullMove))));
    e.(state := DispatchNext(rules, e.state))
  }

  /** The FEN text parses: the new position is loaded and the latch cleared. */
  predicate LoadsPosition<P>(rules: Rules<P>, fen: Option<string>) {
    fen.Some? && fen.value != "" && rules.parseFen(fen.value).Some?
  }

  /** SET-BOARD: load the typed position; a cancelled prompt or invalid text changes nothing. */
  function LoadFen<P>(rules: Rules<P>, s: State<P>, fen: Option<string>): (r: Effect<P>)
    ensures r.state.confirm == s.confirm && !r.quit
  {
    if fen.None? || fen.value == "" then Effect(s, None, false)
    else
      match rules.parseFen(fen.value)
      case None => Effect(s, None, false)  // "invalid FEN" dialog
      case Some(p) =>
        var e := RefreshState(rules, ResetSelection(s.(board := p)).(gameOverNotified := false));
        if IsBotTurn(rules, e.state) && !rules.isGameOver(e.state.board) then
          e.(state := Dispatch(e.state, MoveChannel))
        else
          e
  }

  /** ASSISTANT: flip the assistant; ask for a suggestion, or forget the current one. */
  function SwitchAssistant<P>(rules: Rules<P>, s: State<P>): (r: Effect<P>)
    ensures r.state.confirm == s.confirm && !r.quit
  {
    var flipped := s.(assistantEnabled := !s.assistantEnabled);
    var s' := if flipped.assistantEnabled && !rules.isGameOver(flipped.board) && !IsBotTurn(rules, flipped)
              then Dispatch(flipped, SuggestionChannel)
              else flipped.(suggestion := None);
    RefreshState(rules, s')
  }

  /** A click on the board square `sq`. */
  function ClickEvent<P>(rules: Rules<P>, s: State<P>, sq: Square): (r: Effect<P>)
    ensures r.state.confirm == s.confirm && !r.quit
    ensures s.selected.Some? && !rules.isGameOver(s.board) && !IsBotTurn(rules, s) ==>
              r.state.selected == None && r.state.validMoves == map[]
  {
    if rules.isGameOver(s.board) then Drain(rules, Effect(s, None, false))
    else if IsBotTurn(rules, s) then Effect(s, None, false)
    else if s.selected == Some(sq) then RefreshState(rules, ResetSelection(s))
    else Drain(rules, RefreshState(rules, ClickBoard(rules, s, sq)))
  }

  /** One pass of the main loop for the event `ev`. */
  function Step<P>(rules: Rules<P>, s: State<P>, ev: Event): (r: Effect<P>)
    ensures r.quit <==> ev.Closed? || (ev == Gated(Exit) && Exit in s.confirm)
  {
    match ev
    case Closed => Effect(s, None, true)
    case Gated(k) => PressGated(rules, s, k)
    case Timeout => Drain(rules, Effect(s, None, false))
    case Skip => SkipTurn(rules, Disarm(s))
    case SetBoard(fen) => LoadFen(rules, Disarm(s), fen)
    case ToggleAssistant => SwitchAssistant(rules, Disarm(s))
    case Click(row, col) => ClickEvent(rules, Disarm(s), SquareAt(col, row))
  }

  /** The steps that clear the game-over latch: a confirmed RESTART or bot-mode press, a loaded FEN. */
  predicate IsReset<P>(rules: Rules<P>, s: State<P>, ev: Event) {
    match ev
    case Gated(k) => k != Exit && k in s.confirm
    case SetBoard(fen) => LoadsPosition(rules, fen)
    case _ => false
  }

  /** What can happen between two looks at the state: a window event, or an engine request finishing. */
  datatype Input = Ev(event: Event) | EngineDone(index: nat, answer: Option<Move>)

  /** The latch, the reports and the resets seen along a session. */
  datatype Trace<P> = Trace(last: State<P>, reports: nat, resets: nat, quit: bool)

  /**
   * A session: the inputs in order, until the loop stops. Only an outstanding
   * request can finish, so an `EngineDone` naming no outstanding request has
   * no effect.
   */
  function Run<P>(rules: Rules<P>, s: State<P>, inputs: seq<Input>): (t: Trace<P>)
    ensures inputs == [] ==> t == Trace(s, 0, 0, false)
    decreases |inputs|
  {
    if inputs == [] then Trace(s, 0, 0, false)
    else
      match inputs[0]
      case EngineDone(k, answer) =>
        Run(rules, if k < |s.outstanding| then EngineReply(s, k, answer) else s, inputs[1..])
      case Ev(ev) =>
        var e := Step(rules, s, ev);
        var reported := if e.report.Some? then 1 else 0;
        var reset := if IsReset(rules, s, ev) then 1 else 0;
        if e.quit then Trace(e.state, reported, reset, true)
        else
          var t := Run(rules, e.state, inputs[1..]);
          t.(reports := t.reports + reported, resets := t.resets + reset)
  }
}
