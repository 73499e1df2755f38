/**
 * The background engine and its two result queues. A request finishes by
 * putting its move on the queue of its channel, or (on any engine failure)
 * by putting nothing. Each tick that reaches the end of the loop body takes
 * at most one move from each queue, the bot's queue first: a bot move is
 * pushed as it is and the suggestion is dropped; a suggestion is installed
 * only if it is legal on the board at that moment.
 */
module Results {
  import opened Wrappers
  import opened ChessRules
  import opened GameState

  /** Request number `k` finishes with `answer` (None when the engine failed). */
  function EngineReply<P>(s: State<P>, k: nat, answer: Option<Move>): (r: State<P>)
    requires k < |s.outstanding|
    ensures r.outstanding == s.outstanding[..k] + s.outstanding[k + 1..]
    ensures answer.None? ==> r.moveQueue == s.moveQueue && r.suggestionQueue == s.suggestionQueue
    ensures answer.Some? && s.outstanding[k].channel == MoveChannel ==>
              r.moveQueue == s.moveQueue + [answer.value] && r.suggestionQueue == s.suggestionQueue
    ensures answer.Some? && s.outstanding[k].channel == SuggestionChannel ==>
              r.suggestionQueue == s.suggestionQueue + [answer.value] && r.moveQueue == s.moveQueue
    ensures r.(outstanding := s.outstanding, moveQueue := s.moveQueue, suggestionQueue := s.suggestionQueue) == s
  {
    var rest := s.(outstanding := s.outstanding[..k] + s.outstanding[k + 1..]);
    match answer
    case None => rest
    case Some(m) =>
      match s.outstanding[k].channel
      case MoveChannel => rest.(moveQueue := rest.moveQueue + [m])
      case SuggestionChannel => rest.(suggestionQueue := rest.suggestionQueue + [m])
  }

  /** Take the bot's move, if one is waiting, and push it without checking it. */
  function DrainMoveQueue<P>(rules: Rules<P>, e: Effect<P>): (r: Effect<P>)
    ensures e.state.moveQueue == [] ==> r == e
    ensures e.state.moveQueue != [] ==>
              var s, m := e.state, e.state.moveQueue[0];
              var pushed := rules.push(s.board, m);
              r.state.moveQueue == s.moveQueue[1..] &&
              r.state.board == pushed &&
              r.state.suggestion == None &&
              r.state.outstanding ==
                s.outstanding + (if s.assistantEnabled && !rules.isGameOver(pushed)
                                 then [Request(SuggestionChannel, pushed)] else []) &&
              r.state.gameOverNotified == (s.gameOverNotified || rules.isGameOver(pushed)) &&
              r.state.(board := s.board, suggestion := s.suggestion, moveQueue := s.moveQueue,
                       outstanding := s.outstanding, gameOverNotified := s.gameOverNotified) == s
    ensures r.quit == e.quit
  {
    if e.state.moveQueue == [] then e
    else
      var m := e.state.moveQueue[0];
      var s := e.state.(moveQueue := e.state.moveQueue[1..]);
      var s' := s.(board := rules.push(s.board, m), suggestion := None);
      var s'' := if s'.assistantEnabled && !rules.isGameOver(s'.board)
                 then Dispatch(s', SuggestionChannel) else s';
      Refresh(rules, e.(state := s''))
  }

  /** Take a suggestion, if one is waiting, and keep it only if it is legal now. */
  function DrainSuggestionQueue<P>(rules: Rules<P>, e: Effect<P>): (r: Effect<P>)
    ensures e.state.suggestionQueue == [] ==> r == e
    ensures e.state.suggestionQueue != [] ==>
              var s, m := e.state, e.state.suggestionQueue[0];
              r.state.suggestionQueue == s.suggestionQueue[1..] &&
              r.state.suggestion == (if IsLegal(rules, s.board, m) then Some(m) else s.suggestion) &&
              r.state.board == s.board &&
              r.state.(suggestion := s.suggestion, suggestionQueue := s.suggestionQueue,
                       gameOverNotified := s.gameOverNotified) == s
    ensures r.quit == e.quit
  {
    if e.state.suggestionQueue == [] then e
    else
      var m := e.state.suggestionQueue[0];
      var s := e.state.(suggestionQueue := e.state.suggestionQueue[1..]);
      if IsLegal(rules, s.board, m) then Refresh(rules, e.(state := s.(suggestion := Some(m))))
      else e.(state := s)
  }

  /** The end of the loop body: the bot's queue, then the suggestion queue. Neither touches the selection, the modes or the gate. */
  function Drain<P>(rules: Rules<P>, e: Effect<P>): (r: Effect<P>)
    ensures r.state.selected == e.state.selected && r.state.validMoves == e.state.validMoves
    ensures r.state.confirm == e.state.confirm
    ensures r.state.botEnabled == e.state.botEnabled && r.state.assistantEnabled == e.state.assistantEnabled
    ensures r.quit == e.quit
  {
    DrainSuggestionQueue(rules, DrainMoveQueue(rules, e))
  }
}
