/**
 * The state the event loop owns (the globals of the program), the events it
 * reads, and the three small operations every event path shares: clearing the
 * selection, starting a background engine request, and the game-over latch of
 * the interface refresh.
 */
module GameState {
  import opened Wrappers
  import opened ChessRules

  /** The buttons whose action needs a second, confirming press. */
  datatype GatedKey = Restart | Exit | ToggleBot

  /** One result of reading the window: a timeout, a closed window, a button, or a board click. */
  datatype Event =
    | Timeout
    | Closed
    | Gated(key: GatedKey)
    | Skip
    | SetBoard(fen: Option<string>)  // the text typed in the FEN prompt; None when cancelled
    | ToggleAssistant
    | Click(row: Coord, col: Coord)   // the button at grid position (rank, file)

  /** The result queue a background engine request answers into. */
  datatype Channel = MoveChannel | SuggestionChannel

  /** A background engine request: the queue it answers into and a copy of the board. */
  datatype Request<P> = Request(channel: Channel, snapshot: P)

  /** The end-of-game message; the second player is labelled BOT when the bot plays Black. */
  datatype Report = WhiteWins | BlackWins(byBot: bool) | Draw

  datatype State<P> = State(
    board: P,
    selected: Option<Square>,
    validMoves: map<Square, Move>,
    suggestion: Option<Move>,
    botEnabled: bool,
    assistantEnabled: bool,
    confirm: set<GatedKey>,
    gameOverNotified: bool,
    moveQueue: seq<Move>,
    suggestionQueue: seq<Move>,
    outstanding: seq<Request<P>>)

  /**
   * What one step of the loop leaves behind: the new state, the end-of-game
   * message it showed (if any) and whether the loop stops.
   */
  datatype Effect<P> = Effect(state: State<P>, report: Option<Report>, quit: bool)

  /** The globals as the program starts: a fresh board, nothing selected, both modes off. */
  function Initial<P>(rules: Rules<P>): State<P> {
    State(rules.startingPosition, None, map[], None, false, false, {}, false, [], [], [])
  }

  /** It is the bot's turn: bot mode is on and Black is to move. */
  predicate IsBotTurn<P>(rules: Rules<P>, s: State<P>) {
    s.botEnabled && rules.turn(s.board) == Black
  }

  /** Selection cleared; the suggestion and everything else are kept. */
  function ResetSelection<P>(s: State<P>): (r: State<P>)
    ensures r.selected == None && r.validMoves == map[]
    ensures r.(selected := s.selected, validMoves := s.validMoves) == s
  {
    s.(selected := None, validMoves := map[])
  }

  /** A background engine request is started on a copy of the current board. */
  function Dispatch<P>(s: State<P>, channel: Channel): (r: State<P>)
    ensures |r.outstanding| == |s.outstanding| + 1
    ensures r.outstanding[|s.outstanding|] == Request(channel, s.board)
    ensures r.outstanding[..|s.outstanding|] == s.outstanding
    ensures r.(outstanding := s.outstanding) == s
  {
    s.(outstanding := s.outstanding + [Request(channel, s.board)])
  }

  /** The message for a finished game on `s.board`. */
  function ReportFor<P>(rules: Rules<P>, s: State<P>): Report {
    match rules.winner(s.board)
    case Some(White) => WhiteWins
    case Some(Black) => BlackWins(s.botEnabled)
    case None => Draw
  }

  /**
   * The game-over latch of the interface refresh: the first refresh that sees
   * a finished game sets the flag and shows the result; later refreshes show
   * nothing until the flag is cleared again.
   */
  function Refresh<P>(rules: Rules<P>, e: Effect<P>): (r: Effect<P>)
    ensures r.state.gameOverNotified == (e.state.gameOverNotified || rules.isGameOver(e.state.board))
    ensures r.state.(gameOverNotified := e.state.gameOverNotified) == e.state
    ensures r.quit == e.quit
    ensures r.report != e.report ==>
              !e.state.gameOverNotified && rules.isGameOver(e.state.board) &&
              r.report == Some(ReportFor(rules, e.state))
    ensures !e.state.gameOverNotified && rules.isGameOver(e.state.board) ==>
              r.report == Some(ReportFor(rules, e.state))
  {
    if rules.isGameOver(e.state.board) && !e.state.gameOverNotified then
      Effect(e.state.(gameOverNotified := true), Some(ReportFor(rules, e.state)), e.quit)
    else
      e
  }

  /** A refresh with nothing shown yet in this step. */
  function RefreshState<P>(rules: Rules<P>, s: State<P>): Effect<P> {
    Refresh(rules, Effect(s, None, false))
  }

  /**
   * The request started after a ply: the bot's move when the bot is now to
   * play, otherwise a suggestion when the assistant is on, otherwise none.
   */
  function NextRequest<P>(rules: Rules<P>, s: State<P>): (r: Option<Channel>)
    ensures r == Some(MoveChannel) <==> IsBotTurn(rules, s)
    ensures r == Some(SuggestionChannel) <==> !IsBotTurn(rules, s) && s.assistantEnabled
    ensures r == None <==> !IsBotTurn(rules, s) && !s.assistantEnabled
  {
    if IsBotTurn(rules, s) then Some(MoveChannel)
    else if s.assistantEnabled then Some(SuggestionChannel)
    else None
  }

  function DispatchNext<P>(rules: Rules<P>, s: State<P>): State<P> {
    match NextRequest(rules, s)
    case Some(channel) => Dispatch(s, channel)
    case None => s
  }
}
