/**
 * The confirmation gate of the RESTART, EXIT and bot-mode buttons: the first
 * press only arms the button, a second press of the same button runs its
 * action, and any other user event disarms it.
 */
module ConfirmGate {
  import opened Wrappers
  import opened ChessRules
  import opened GameState

  /** Any user event other than a timeout (and other than a gated press) clears the pending set. */
  function Disarm<P>(s: State<P>): (r: State<P>)
    ensures r.confirm == {}
    ensures r.(confirm := s.confirm) == s
  {
    s.(confirm := {})
  }

  /** The action of a confirmed RESTART or bot-mode press: a fresh board and a cleared latch. */
  function ResetGame<P>(rules: Rules<P>, s: State<P>, k: GatedKey): (r: State<P>)
    requires k != Exit
    ensures r.board == rules.startingPosition && !r.gameOverNotified
    ensures r.botEnabled == (if k == ToggleBot then !s.botEnabled else s.botEnabled)
    ensures r.(board := s.board, gameOverNotified := s.gameOverNotified, botEnabled := s.botEnabled) == s
  {
    var toggled := if k == ToggleBot then s.(botEnabled := !s.botEnabled) else s;
    toggled.(board := rules.startingPosition, gameOverNotified := false)
  }

  /** A press of a gated button. */
  function PressGated<P>(rules: Rules<P>, s: State<P>, k: GatedKey): (r: Effect<P>)
    ensures r.state.confirm == if k in s.confirm then {} else {k}
    ensures r.quit <==> k == Exit && k in s.confirm
    ensures k !in s.confirm ==> r.state.board == s.board && r.state.botEnabled == s.botEnabled
    ensures k in s.confirm && k != Exit ==> r.state.board == rules.startingPosition
    ensures k in s.confirm && k != Exit ==>
      var bot := if k == ToggleBot then !s.botEnabled else s.botEnabled;
      var start := rules.startingPosition;
      var asks := s.assistantEnabled && !rules.isGameOver(start) && !(bot && rules.turn(start) == Black);
      r.state.assistantEnabled == s.assistantEnabled &&
      r.state.moveQueue == s.moveQueue && r.state.suggestionQueue == s.suggestionQueue &&
      r.state.outstanding == s.outstanding + (if asks then [Request(SuggestionChannel, start)] else [])
  {
    if k !in s.confirm then
      RefreshState(rules, s.(confirm := {k}))
    else
      var cleared := s.(confirm := {});
      if k == Exit then
        Effect(cleared, None, true)
      else
        var e := RefreshState(rules, ResetSelection(ResetGame(rules, cleared, k)));
        if e.state.assistantEnabled && !rules.isGameOver(e.state.board) && !IsBotTurn(rules, e.state) then
          e.(state := Dispatch(e.state, SuggestionChannel))
        else
          e
  }
}
