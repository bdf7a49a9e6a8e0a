/** Move generation as functions on positions: the ray and step scan of
    `__moveGeneratorHelper`, the pawn moves of `__moveGeneratorPawn`, the
    castling candidates and gating of `moveGenerator`, and `generateAllMoves`.
    Every candidate except castling passes the king-safety filter, which asks
    `KingThreat` about the position after the candidate. */
module Generation {

  import opened Wrappers
  import opened Pieces
  import opened Squares
  import opened Positions
  import opened Transition
  import opened Threats

  // ---------------------------------------------------------------------
  // Ray and step scanning

  /** Knights use the knight jumps, every other piece the eight directions. */
  function Offsets(piece: nat): (offs: seq<(int, int)>)
    ensures |offs| == 8
  {
    if IsType(piece, Knight) then KnightOffsets else RayOffsets
  }

  /** Rooks skip the four diagonals; bishops stop before the four orthogonals. */
  function StartIndex(piece: nat): nat {
    if IsType(piece, Rook) then 4 else 0
  }

  function StopIndex(piece: nat): nat {
    if IsType(piece, Bishop) then 4 else 8
  }

  /** The NORMAL move from `pos` onto `sq`, recording what stands there. */
  function StepMove(P: Position, pos: Square, sq: Square, init: bool): Move {
    Move(pos, sq, Cell(P, sq), Normal, None, init, P.enPassant)
  }

  /** The scan along direction `x` from step `k` to step `repeat`: a square off
      the board or holding a piece of the side to move ends the scan; any other
      square gives a candidate, kept when it leaves the king safe; an opponent
      piece ends the scan after its capture. */
  function RayMoves(P: Position, piece: nat, pos: Square, x: nat, k: nat, repeat: nat): set<Move>
    requires x < 8
    decreases repeat + 1 - k
  {
    if k > repeat then {}
    else
      var sq := PosChange(pos, Offsets(piece)[x], k);
      if !InBounds(sq) || IsColour(Cell(P, sq), P.colourToMove) then {}
      else
        var mv := StepMove(P, pos, sq, InitialFlag(P.rights, piece, pos));
        (if !KingThreat(P, Some(mv)) then {mv} else {}) +
        (if IsColour(Cell(P, sq), FlipColour(P.colourToMove)) then {} else RayMoves(P, piece, pos, x, k + 1, repeat))
  }

  /** The scans of directions `lo` to `hi - 1`, together. */
  function DirMoves(P: Position, piece: nat, pos: Square, lo: nat, hi: nat, repeat: nat): set<Move>
    requires hi <= 8
    decreases hi
  {
    if hi <= lo then {} else DirMoves(P, piece, pos, lo, hi - 1, repeat) + RayMoves(P, piece, pos, hi - 1, 1, repeat)
  }

  /** `__moveGeneratorHelper(piece, pos, repeat)` */
  function HelperMoves(P: Position, piece: nat, pos: Square, repeat: nat): set<Move> {
    DirMoves(P, piece, pos, StartIndex(piece), StopIndex(piece), repeat)
  }

  // ---------------------------------------------------------------------
  // Pawns

  /** White push and captures, then black push and captures. */
  const PawnMoveOffsets: seq<(int, int)> := [(1, 0), (1, -1), (1, 1), (-1, 0), (-1, -1), (-1, 1)]

  function PawnStart(piece: nat): nat {
    if IsColour(piece, White) then 0 else 3
  }

  /** The promotion rank of the pawn's colour. */
  predicate OnLastRank(piece: nat, sq: Square) {
    (sq.0 == 7 && IsColour(piece, White)) || (sq.0 == 0 && IsColour(piece, Black))
  }

  /** The rank a pawn of this colour starts on. */
  predicate OnStartRank(piece: nat, sq: Square) {
    (sq.0 == 1 && IsColour(piece, White)) || (sq.0 == 6 && IsColour(piece, Black))
  }

  function PromotionMove(P: Position, pos: Square, sq: Square, p: PieceKind): Move {
    Move(pos, sq, Cell(P, sq), Promotion, Some(p), false, P.enPassant)
  }

  /** The four promotions onto `sq`: bishop, knight, rook and queen. */
  function Promotions(P: Position, pos: Square, sq: Square): set<Move> {
    {PromotionMove(P, pos, sq, Bishop), PromotionMove(P, pos, sq, Knight),
     PromotionMove(P, pos, sq, Rook), PromotionMove(P, pos, sq, Queen)}
  }

  /** A safe pawn move onto `sq`: four promotions on the last rank, one NORMAL move elsewhere. */
  function PawnLanding(P: Position, piece: nat, pos: Square, sq: Square): set<Move> {
    if KingThreat(P, Some(StepMove(P, pos, sq, false))) then {}
    else if OnLastRank(piece, sq) then Promotions(P, pos, sq)
    else {StepMove(P, pos, sq, false)}
  }

  /** The single push onto an empty square ahead and, from the start rank, the
      double push when the second square is empty too and leaves the king safe.
      A push off the board gives nothing. */
  function PawnPushes(P: Position, piece: nat, pos: Square): set<Move> {
    var change := PawnMoveOffsets[PawnStart(piece)];
    var ahead := PosChange(pos, change, 1);
    if !InBounds(ahead) || Cell(P, ahead) != 0 then {}
    else
      var two := PosChange(ahead, change, 1);
      PawnLanding(P, piece, pos, ahead) +
      (if OnStartRank(piece, pos) && Cell(P, two) == 0 && !KingThreat(P, Some(StepMove(P, pos, two, false)))
       then {StepMove(P, pos, two, false)} else {})
  }

  /** The en-passant capture onto `sq`: `sq` is empty and is the en-passant
      square, the pawn it takes is an opponent pawn, and the king stays safe. */
  function EnPassantMove(P: Position, pos: Square, sq: Square): Move {
    Move(pos, sq, 0, EnPassant, None, false, P.enPassant)
  }

  function PawnDiagonal(P: Position, piece: nat, pos: Square, j: nat): set<Move>
    requires 1 <= j <= 2
  {
    var sq := PosChange(pos, PawnMoveOffsets[PawnStart(piece) + j], 1);
    if !InBounds(sq) then {}
    else
      (if IsColour(Cell(P, sq), FlipColour(P.colourToMove)) then PawnLanding(P, piece, pos, sq) else {}) +
      (if Cell(P, sq) == 0 && P.enPassant == Some(sq)
          && Cell(P, (pos.0, sq.1)) == Encode(Pawn, FlipColour(P.colourToMove))
          && !KingThreat(P, Some(EnPassantMove(P, pos, sq)))
       then {EnPassantMove(P, pos, sq)} else {})
  }

  /** `__moveGeneratorPawn` */
  function PawnMoves(P: Position, piece: nat, pos: Square): set<Move> {
    PawnPushes(P, piece, pos) + PawnDiagonal(P, piece, pos, 1) + PawnDiagonal(P, piece, pos, 2)
  }

  // ---------------------------------------------------------------------
  // Castling

  function HomeRank(piece: nat): int {
    if IsColour(piece, White) then 0 else 7
  }

  function CastleFlag(R: Rights, piece: nat, kingSide: bool): bool {
    if IsColour(piece, White) then (if kingSide then R.wKingCastle else R.wQueenCastle)
    else (if kingSide then R.bKingCastle else R.bQueenCastle)
  }

  /** One castling side: the flag is set, the square next to the king is empty
      and a safe king step reaches it, the king's target is empty and not
      attacked, and the rook stands in its corner. */
  function CastleSide(P: Position, piece: nat, pos: Square, steps: set<Move>, kingSide: bool): set<Move> {
    var r := HomeRank(piece);
    var next := if kingSide then (r, 5) else (r, 3);
    var dest := if kingSide then (r, 6) else (r, 2);
    var ally := if IsColour(piece, White) then White else Black;
    if CastleFlag(P.rights, piece, kingSide)
       && Cell(P, next) == 0 && (exists mv :: mv in steps && mv.target == next)
       && Cell(P, dest) == 0 && !Attacked(P, dest, ally)
       && Cell(P, RookFrom(dest)) == Encode(Rook, P.colourToMove)
    then {Move(pos, dest, 0, Castling, None, true, P.enPassant)}
    else {}
  }

  /** The castling candidates of a king whose own moves are `steps`; none while in check. */
  function CastlingMoves(P: Position, piece: nat, pos: Square, steps: set<Move>): set<Move> {
    if KingThreat(P, None) then {}
    else CastleSide(P, piece, pos, steps, true) + CastleSide(P, piece, pos, steps, false)
  }

  // ---------------------------------------------------------------------
  // moveGenerator and generateAllMoves

  /** `moveGenerator(piece, pos)`: None for a piece not of the side to move,
      otherwise its moves; an unknown type is an error. */
  function Generated(P: Position, piece: nat, pos: Square): Result<Option<set<Move>>, PieceError> {
    if !IsColour(piece, P.colourToMove) then Ok(None)
    else if IsSliding(piece) then Ok(Some(HelperMoves(P, piece, pos, 8)))
    else if IsType(piece, Pawn) then Ok(Some(PawnMoves(P, piece, pos)))
    else if IsType(piece, Knight) then Ok(Some(HelperMoves(P, piece, pos, 1)))
    else if IsType(piece, King) then
      var steps := HelperMoves(P, piece, pos, 1);
      Ok(Some(steps + CastlingMoves(P, piece, pos, steps)))
    else Err(UnknownPiece)
  }

  /** The squares listed in an index. */
  function Listed(idx: Index): set<Square> {
    set t, s | t in idx && s in idx[t] :: s
  }

  /** `generateAllMoves(colour)`: every square in that colour's index, mapped
      to what `moveGenerator` gives for the piece standing there. */
  function AllMoves(P: Position, colour: Colour): map<Square, Option<set<Move>>> {
    map s | s in Listed(PiecesOf(P.store, colour)) ::
      match Generated(P, Cell(P, s), s) case Ok(r) => r case Err(_) => None
  }

  /** Some piece of the side to move has a move. */
  predicate HasMove(P: Position) {
    var all := AllMoves(P, P.colourToMove);
    exists s :: s in all && all[s].Some? && all[s].value != {}
  }

  /** The `gameState` `confirmMove` records when the side to move has no move:
      2 (white wins) when black is in check, 3 (black wins) when white is, 1 (draw) otherwise. */
  function Outcome(Q: Position): int {
    if KingThreat(Q, None) then (if Q.colourToMove == Black then 2 else 3) else 1
  }

  /** `confirmMove(m)`: make the move, then record the result if the game is over. */
  function Confirm(P: Position, m: Move): Position {
    var Q := Make(P, m);
    if HasMove(Q) then Q else Q.(gameState := Outcome(Q))
  }
}
