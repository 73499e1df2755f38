/**
 * The background colour of one board square, chosen by a fixed first-match
 * priority: the selected origin, a capturing destination, a special
 * (en passant or castling) destination, an endpoint of the assistant's
 * suggestion, a plain destination, and last the checkerboard colour.
 */
module SquareColor {
  import opened Wrappers
  import opened ChessRules
  import opened GameState

  datatype Color =
    | Light | Dark
    | Selected
    | ValidLight | ValidDark
    | Capture
    | Special
    | SuggestedP1 | SuggestedP2

  /** `sq` is a destination of the current selection and its move captures. */
  predicate IsCaptureDestination<P>(rules: Rules<P>, s: State<P>, sq: Square) {
    sq in s.validMoves && rules.isCapture(s.board, s.validMoves[sq])
  }

  /** `sq` is a destination of the current selection and its move is en passant or castling. */
  predicate IsSpecialDestination<P>(rules: Rules<P>, s: State<P>, sq: Square) {
    sq in s.validMoves &&
    (rules.isEnPassant(s.board, s.validMoves[sq]) || rules.isCastling(s.board, s.validMoves[sq]))
  }

  /**
   * The suggestion is on display: the assistant is on, a (non-null) suggestion
   * exists, it is legal on the current board, and it is not the bot's turn.
   */
  predicate SuggestionShown<P>(rules: Rules<P>, s: State<P>) {
    s.assistantEnabled && s.suggestion.Some? && Truthy(s.suggestion.value) &&
    IsLegal(rules, s.board, s.suggestion.value) && !IsBotTurn(rules, s)
  }

  predicate IsSuggestionEndpoint<P>(rules: Rules<P>, s: State<P>, sq: Square) {
    SuggestionShown(rules, s) && (sq == s.suggestion.value.from || sq == s.suggestion.value.to)
  }

  function SquareColorOf<P>(rules: Rules<P>, s: State<P>, sq: Square): (c: Color)
    // 1. the origin of the selection always shows as selected
    ensures c == Selected <==> s.selected == Some(sq)
    // 2. a capturing destination, unless it is the origin
    ensures c == Capture <==> s.selected != Some(sq) && IsCaptureDestination(rules, s, sq)
    // 3. a special destination that does not capture, unless it is the origin
    ensures c == Special <==>
              s.selected != Some(sq) && !IsCaptureDestination(rules, s, sq) &&
              IsSpecialDestination(rules, s, sq)
    // 4. a displayed suggestion's endpoints, below the three above, in the colour of the side to move
    ensures (c == SuggestedP1 || c == SuggestedP2) <==>
              s.selected != Some(sq) && !IsCaptureDestination(rules, s, sq) &&
              !IsSpecialDestination(rules, s, sq) && IsSuggestionEndpoint(rules, s, sq)
    ensures c == SuggestedP1 ==> rules.turn(s.board) == White
    ensures c == SuggestedP2 ==> rules.turn(s.board) == Black
    // a suggestion is only ever painted while it is legal on the current board
    ensures (c == SuggestedP1 || c == SuggestedP2) ==>
              s.suggestion.Some? && IsLegal(rules, s.board, s.suggestion.value)
    // 5. any other destination is a plain valid move
    ensures (c == ValidLight || c == ValidDark) <==>
              s.selected != Some(sq) && sq in s.validMoves &&
              !IsCaptureDestination(rules, s, sq) && !IsSpecialDestination(rules, s, sq) &&
              !IsSuggestionEndpoint(rules, s, sq)
    // 6. everything else keeps its board colour
    ensures (c == Light || c == Dark) <==>
              s.selected != Some(sq) && sq !in s.validMoves && !IsSuggestionEndpoint(rules, s, sq)
    // the light/dark variants follow the square's parity
    ensures (c == Dark || c == ValidDark) ==> IsDark(sq)
    ensures (c == Light || c == ValidLight) ==> !IsDark(sq)
  {
    var base := if IsDark(sq) then Dark else Light;
    if s.selected == Some(sq) then Selected
    else if IsCaptureDestination(rules, s, sq) then Capture
    else if IsSpecialDestination(rules, s, sq) then Special
    else if IsSuggestionEndpoint(rules, s, sq) then
      (match rules.turn(s.board)
       case White => SuggestedP1
       case Black => SuggestedP2)
    else if sq in s.validMoves then (if IsDark(sq) then ValidDark else ValidLight)
    else base
  }
}
