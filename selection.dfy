/**
 * The selection state machine of the board clicks: a first click on a piece
 * of the side to move selects it together with its legal destinations; a
 * second click deselects, plays the move to the clicked square (a pawn that
 * reaches the last rank becomes a queen) or rejects it; either way the
 * selection ends.
 */
module Selection {
  import opened Wrappers
  import opened ChessRules
  import opened GameState

  /** `moves[i]` goes from `from` to `to` and no later move does. */
  predicate IsLastMatch(moves: seq<Move>, i: int, from: Square, to: Square) {
    0 <= i < |moves| && moves[i].from == from && moves[i].to == to &&
    forall j :: i < j < |moves| ==> !(moves[j].from == from && moves[j].to == to)
  }

  /** `moves[i]` goes from `from` to `to` and no earlier move does. */
  predicate IsFirstMatch(moves: seq<Move>, i: int, from: Square, to: Square) {
    0 <= i < |moves| && moves[i].from == from && moves[i].to == to &&
    forall j :: 0 <= j < i ==> !(moves[j].from == from && moves[j].to == to)
  }

  /**
   * The destination dictionary of a selection: each destination reachable
   * from `from` maps to a move that reaches it; where several moves reach
   * the same square (the promotion choices), the later one in `moves` wins.
   */
  function DestinationMap(moves: seq<Move>, from: Square): (r: map<Square, Move>)
    ensures r.Keys == set m | m in moves && m.from == from :: m.to
    ensures forall t :: t in r ==> exists i :: IsLastMatch(moves, i, from, t) && moves[i] == r[t]
    decreases |moves|
  {
    if moves == [] then map[]
    else
      var init, last := moves[..|moves| - 1], moves[|moves| - 1];
      var rest := DestinationMap(init, from);
      var r := if last.from == from then rest[last.to := last] else rest;
      assert moves == init + [last];
      assert r.Keys == set m | m in moves && m.from == from :: m.to by {
        forall t | t in r.Keys ensures exists m :: m in moves && m.from == from && m.to == t {
          if last.from == from && t == last.to {
            assert last in moves;
          } else {
            var m :| m in init && m.from == from && m.to == t;
            assert m in moves;
          }
        }
        forall m | m in moves && m.from == from ensures m.to in r.Keys {
          if m != last {
            assert m in init;
          }
        }
      }
      assert forall t :: t in r ==> exists i :: IsLastMatch(moves, i, from, t) && moves[i] == r[t] by {
        forall t | t in r ensures exists i :: IsLastMatch(moves, i, from, t) && moves[i] == r[t] {
          if last.from == from && t == last.to {
            assert IsLastMatch(moves, |moves| - 1, from, t);
          } else {
            var i :| IsLastMatch(init, i, from, t) && init[i] == rest[t];
            assert IsLastMatch(moves, i, from, t);
          }
        }
      }
      r
  }

  /** The first move of `moves` from `from` to `to`, if there is one. */
  function FirstMoveBetween(moves: seq<Move>, from: Square, to: Square): (r: Option<Move>)
    ensures r.Some? ==> exists i :: IsFirstMatch(moves, i, from, to) && moves[i] == r.value
    ensures r.None? ==> forall m :: m in moves ==> !(m.from == from && m.to == to)
    decreases |moves|
  {
    if moves == [] then None
    else if moves[0].from == from && moves[0].to == to then Some(moves[0])
    else FirstMoveBetween(moves[1..], from, to)
  }

  /**
   * The move actually played: when the moving piece is a pawn and the
   * destination is on rank 0 or 7 the promotion is set to a queen; otherwise
   * the move is played as the library generated it.
   */
  function AutoQueen(m: Move, isPawn: bool): (r: Move)
    ensures r.from == m.from && r.to == m.to
    ensures isPawn && (Rank(m.to) == 0 || Rank(m.to) == 7) ==> r.promotion == Some(Queen)
    ensures !isPawn || (0 < Rank(m.to) < 7) ==> r == m
  {
    if isPawn && (Rank(m.to) == 0 || Rank(m.to) == 7) then m.(promotion := Some(Queen)) else m
  }

  /** The first click, with nothing selected. */
  function SelectOrigin<P>(rules: Rules<P>, s: State<P>, sq: Square): (r: State<P>)
    requires s.selected == None
    ensures r.selected == Some(sq) <==>
              rules.pieceAt(s.board, sq).Some? && rules.pieceAt(s.board, sq).value.color == rules.turn(s.board)
    ensures r.selected == Some(sq) ==> r.validMoves.Keys == set m | m in rules.legalMoves(s.board) && m.from == sq :: m.to
    ensures r.selected != Some(sq) ==> r == s
    ensures r.(selected := s.selected, validMoves := s.validMoves) == s
  {
    match rules.pieceAt(s.board, sq)
    case Some(piece) =>
      if piece.color == rules.turn(s.board) then
        s.(selected := Some(sq), validMoves := DestinationMap(rules.legalMoves(s.board), sq))
      else
        s  // a piece of the wrong side: only a notice is shown
    case None => s
  }

  /** The second click, on a square other than the selected `origin`. */
  function MoveOrReject<P>(rules: Rules<P>, s: State<P>, origin: Square, sq: Square): (r: State<P>)
    ensures r.selected == None && r.validMoves == map[] && r.suggestion == s.suggestion
    ensures FirstMoveBetween(rules.legalMoves(s.board), origin, sq).None? ==> r.board == s.board
    ensures |s.outstanding| <= |r.outstanding| <= |s.outstanding| + 1 && r.outstanding[..|s.outstanding|] == s.outstanding
  {
    match FirstMoveBetween(rules.legalMoves(s.board), origin, sq)
    case Some(m) =>
      var played := AutoQueen(m, IsPawnAt(rules, s.board, origin));
      var after := ResetSelection(s.(board := rules.push(s.board, played)));
      if !rules.isGameOver(after.board) then DispatchNext(rules, after) else after
    case None =>
      ResetSelection(s)  // an invalid move: the square flashes red
  }

  /** A board click that is neither ignored nor a click on the selected square itself. */
  function ClickBoard<P>(rules: Rules<P>, s: State<P>, sq: Square): (r: State<P>)
    requires s.selected != Some(sq)
    ensures s.selected.Some? ==> r.selected == None && r.validMoves == map[]
    ensures s.selected.None? ==> r.board == s.board && r.outstanding == s.outstanding
    ensures r.suggestion == s.suggestion && r.confirm == s.confirm && r.gameOverNotified == s.gameOverNotified
    ensures r.botEnabled == s.botEnabled && r.assistantEnabled == s.assistantEnabled
    ensures r.moveQueue == s.moveQueue && r.suggestionQueue == s.suggestionQueue
  {
    match s.selected
    case None => SelectOrigin(rules, s, sq)
    case Some(origin) => MoveOrReject(rules, s, origin, sq)
  }
}
