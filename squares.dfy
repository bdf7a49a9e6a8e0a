/** Squares, the algebraic-square reader and the move value. */
module Squares {

  import opened Wrappers
  import opened Pieces

  /** (rank, file); rank 0 is rank 1 of the board, file 0 is the a-file.
      Intermediate squares of a scan may lie off the board. */
  type Square = (int, int)

  /** `isOutOfBounds`, negated. */
  predicate InBounds(sq: Square) {
    0 <= sq.0 <= 7 && 0 <= sq.1 <= 7
  }

  /** `posChange`: the square `multiplier` steps from `oldPos` along `change`. */
  function PosChange(oldPos: Square, change: (int, int), multiplier: int): Square {
    (oldPos.0 + change.0 * multiplier, oldPos.1 + change.1 * multiplier)
  }

  // ---------------------------------------------------------------------
  // Algebraic notation

  datatype SquareError = InvalidAlgebraic

  /** `algebraicNotationToRankFile`: "<a-h><1-8>" to (rank, file). */
  function AlgebraicToRankFile(s: string): (r: Result<Square, SquareError>)
    ensures r.Ok? <==> |s| == 2 && '1' <= s[1] <= '8' && 'a' <= s[0] <= 'h'
    ensures r.Ok? ==> InBounds(r.value)
    ensures r.Ok? ==> r.value == ((s[1] - '1') as int, (s[0] - 'a') as int)
  {
    if |s| != 2 then Err(InvalidAlgebraic)
    else if !('1' <= s[1] <= '8') then Err(InvalidAlgebraic)
    else if !('a' <= s[0] <= 'h') then Err(InvalidAlgebraic)
    else Ok(((s[1] - '1') as int, (s[0] - 'a') as int))
  }

  /** The algebraic name of a square on the board. */
  function SquareName(sq: Square): (s: string)
    requires InBounds(sq)
    ensures |s| == 2 && 'a' <= s[0] <= 'h' && '1' <= s[1] <= '8'
  {
    [('a' as int + sq.1) as char, ('1' as int + sq.0) as char]
  }

  /** Reading the name of a square gives the square back. */
  lemma NameThenRead(sq: Square)
    requires InBounds(sq)
    ensures AlgebraicToRankFile(SquareName(sq)) == Ok(sq)
  {
  }

  /** A string that reads as a square is that square's name. */
  lemma ReadThenName(s: string)
    requires AlgebraicToRankFile(s).Ok?
    ensures SquareName(AlgebraicToRankFile(s).value) == s
  {
    var n := SquareName(AlgebraicToRankFile(s).value);
    assert n[0] == s[0] && n[1] == s[1];
  }

  // ---------------------------------------------------------------------
  // Moves

  datatype MoveType = Normal | Castling | EnPassant | Promotion

  /** A move value. `targetValue` is the cell value on the target before the
      move; `initialMove` marks the first move of a king or of a corner rook.
      `enPassantBefore` is not in `GameBoard.py`: it records the en-passant square
      of the position the move was generated in, so that undoing the move can
      restore it. */
  datatype Move = Move(
    original: Square,
    target: Square,
    targetValue: nat,
    kind: MoveType,
    promotion: Option<PieceKind>,
    initialMove: bool,
    enPassantBefore: Option<Square>)

  datatype MoveError = PromotionOnlyForPromotionMoves

  /** The `Move` constructor: a promotion piece is accepted only on a PROMOTION move. */
  function NewMove(original: Square, target: Square, targetValue: nat, kind: MoveType,
                   promotion: Option<PieceKind>, initialMove: bool,
                   enPassantBefore: Option<Square>): (r: Result<Move, MoveError>)
    ensures r.Err? <==> promotion.Some? && kind != Promotion
    ensures r.Ok? ==> r.value.original == original && r.value.target == target
                      && r.value.targetValue == targetValue && r.value.kind == kind
                      && r.value.promotion == promotion && r.value.initialMove == initialMove
                      && r.value.enPassantBefore == enPassantBefore
  {
    if promotion.Some? && kind != Promotion then Err(PromotionOnlyForPromotionMoves)
    else Ok(Move(original, target, targetValue, kind, promotion, initialMove, enPassantBefore))
  }
}
