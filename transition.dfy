/** The state transition of the engine as functions on positions: `Make` is
    `__makeMove` and `Unmake` is `unmakeMove`, each written out branch by
    branch. Where `GameBoard.py` is broken (see README) the branch follows the
    rule it evidently intends. */
module Transition {

  import opened Wrappers
  import opened Pieces
  import opened Squares
  import opened Positions

  // ---------------------------------------------------------------------
  // Castling rights

  /** "Disabling Castling": a king move of colour `c` marks the king as moved
      and clears both of its castling flags; a rook leaving file 7 or file 0
      marks that rook as moved and clears that side's flag. */
  function DisableCastling(R: Rights, c: Colour, mover: nat, o: Square): Rights {
    if IsType(mover, King) then
      if c == White then R.(wKingMoved := true, wKingCastle := false, wQueenCastle := false)
      else R.(bKingMoved := true, bKingCastle := false, bQueenCastle := false)
    else if IsType(mover, Rook) then
      if c == White then
        if o.1 == 7 then R.(wKRookMoved := true, wKingCastle := false)
        else if o.1 == 0 then R.(wQRookMoved := true, wQueenCastle := false)
        else R
      else
        if o.1 == 7 then R.(bKRookMoved := true, bKingCastle := false)
        else if o.1 == 0 then R.(bQRookMoved := true, bQueenCastle := false)
        else R
    else R
  }

  /** The undo of DisableCastling for a move of colour `c` marked `initialMove`:
      the king or rook becomes unmoved again and each flag it cleared comes back
      unless the other piece that flag depends on has moved. */
  function RestoreCastling(R: Rights, c: Colour, mover: nat, o: Square): Rights {
    if IsType(mover, King) then
      if c == White then
        R.(wKingMoved := false,
           wKingCastle := if !R.wKRookMoved then true else R.wKingCastle,
           wQueenCastle := if !R.wQRookMoved then true else R.wQueenCastle)
      else
        R.(bKingMoved := false,
           bKingCastle := if !R.bKRookMoved then true else R.bKingCastle,
           bQueenCastle := if !R.bQRookMoved then true else R.bQueenCastle)
    else if IsType(mover, Rook) then
      if o.1 == 0 then
        if c == White then R.(wQRookMoved := false, wQueenCastle := if !R.wKingMoved then true else R.wQueenCastle)
        else R.(bQRookMoved := false, bQueenCastle := if !R.bKingMoved then true else R.bQueenCastle)
      else if o.1 == 7 then
        if c == White then R.(wKRookMoved := false, wKingCastle := if !R.wKingMoved then true else R.wKingCastle)
        else R.(bKRookMoved := false, bKingCastle := if !R.bKingMoved then true else R.bKingCastle)
      else R
    else R
  }

  /** Each castling flag is set exactly when neither the king nor the rook it
      depends on has moved. Unmake restores a flag from the moved flags, so this
      is what makes the restored flags the original ones. */
  ghost predicate RightsConsistent(R: Rights) {
    R.wKingCastle == (!R.wKingMoved && !R.wKRookMoved) &&
    R.wQueenCastle == (!R.wKingMoved && !R.wQRookMoved) &&
    R.bKingCastle == (!R.bKingMoved && !R.bKRookMoved) &&
    R.bQueenCastle == (!R.bKingMoved && !R.bQRookMoved)
  }

  /** The `initialMove` flag the generator gives a move of `piece` from `o`:
      an unmoved king, an unmoved rook on file 7 or file 0, and nothing else. */
  function InitialFlag(R: Rights, piece: nat, o: Square): bool {
    if IsType(piece, King) then
      if IsColour(piece, White) then !R.wKingMoved else !R.bKingMoved
    else if IsType(piece, Rook) then
      if IsColour(piece, White) then
        if o.1 == 7 then !R.wKRookMoved else if o.1 == 0 then !R.wQRookMoved else false
      else
        if o.1 == 7 then !R.bKRookMoved else if o.1 == 0 then !R.bQRookMoved else false
    else false
  }

  // ---------------------------------------------------------------------
  // Geometry of the special moves

  /** The rook's squares for a castling move onto `t`: file 6 is king side
      (rook 7 to 5), anything else queen side (rook 0 to 3). */
  function RookFrom(t: Square): Square {
    if t.1 == 6 then (t.0, 7) else (t.0, 0)
  }

  function RookTo(t: Square): Square {
    if t.1 == 6 then (t.0, 5) else (t.0, 3)
  }

  /** The pawn taken en passant: beside the capturing pawn's origin, on the target's file. */
  function CapturedSquare(m: Move): Square {
    (m.original.0, m.target.1)
  }

  /** The promotion piece, with Queen when it is missing (`GameBoard.py` fails there). */
  function PromotionOf(m: Move): PieceKind {
    if m.promotion.Some? then m.promotion.value else Queen
  }

  /** A pawn moving two ranks leaves the square it skipped as the en-passant
      square; every other move clears it. */
  function EnPassantAfter(P: Position, m: Move): Option<Square> {
    SkippedSquare(Cell(P, m.original), m)
  }

  /** The square a NORMAL two-rank move of the pawn `mover` skips, if it is one. */
  function SkippedSquare(mover: nat, m: Move): Option<Square> {
    if m.kind == Normal && IsType(mover, Pawn)
       && m.original.1 == m.target.1 && (m.target.0 - m.original.0 == 2 || m.original.0 - m.target.0 == 2)
    then Some(((m.original.0 + m.target.0) / 2, m.original.1))
    else None
  }

  // ---------------------------------------------------------------------
  // Make and unmake

  /** A piece of type `k` and colour `c` leaves square `s` of the index and the grid. */
  function ClearSquare(S: Store, c: Colour, k: PieceKind, s: Square): (r: Store)
    ensures Shaped(S.board) ==> Shaped(r.board)
    ensures Shaped(S.board) && InBounds(s) ==> CellOf(r.board, s) == 0
    ensures forall q :: q != s ==> CellOf(r.board, q) == CellOf(S.board, q)
  {
    Put(IndexRemove(S, c, k, s), s, 0)
  }

  /** A piece of type `k` and colour `c` with cell value `v` enters square `s`
      of the index and the grid. */
  function PlaceSquare(S: Store, c: Colour, k: PieceKind, s: Square, v: nat): (r: Store)
    ensures Shaped(S.board) ==> Shaped(r.board)
    ensures Shaped(S.board) && InBounds(s) ==> CellOf(r.board, s) == v
    ensures forall q :: q != s ==> CellOf(r.board, q) == CellOf(S.board, q)
  {
    Put(IndexAdd(S, c, k, s), s, v)
  }

  /** The building block of every branch: a `captured` piece on `t` leaves the
      opponent's index and the grid, the piece of colour `c` and type `kFrom`
      leaves `o`, and a piece of type `kTo` with cell value `placed` enters `t`.
      `GameBoard.py` does the same index and grid writes in another order per
      branch; they touch different entries, so the resulting store is the same. */
  function Relocate(S: Store, c: Colour, kFrom: PieceKind, kTo: PieceKind,
                    o: Square, t: Square, captured: nat, placed: nat): (r: Store)
    ensures Shaped(S.board) ==> Shaped(r.board)
    ensures Shaped(S.board) && InBounds(o) && InBounds(t) && o != t ==>
              CellOf(r.board, o) == 0 && CellOf(r.board, t) == placed
    ensures forall s :: s != o && s != t ==> CellOf(r.board, s) == CellOf(S.board, s)
  {
    var s1 := if captured != 0 then ClearSquare(S, FlipColour(c), KindOf(captured), t) else S;
    PlaceSquare(ClearSquare(s1, c, kFrom, o), c, kTo, t, placed)
  }

  /** The PROMOTION branch of `__makeMove` for the mover colour `c`: the pawn
      leaves the origin, a captured piece leaves the opponent's index, and the
      promoted piece of the mover's colour enters the target. */
  function MakePromotion(S: Store, c: Colour, m: Move): (r: Store)
    ensures Shaped(S.board) && InBounds(m.original) && InBounds(m.target) && m.original != m.target ==>
              CellOf(r.board, m.original) == 0 && CellOf(r.board, m.target) == Encode(PromotionOf(m), c)
              && IsType(CellOf(r.board, m.target), PromotionOf(m)) && IsColour(CellOf(r.board, m.target), c)
  {
    var promo := PromotionOf(m);
    EncodeDecode(promo, c);
    Relocate(S, c, Pawn, promo, m.original, m.target, m.targetValue, Encode(promo, c))
  }

  /** The CASTLING branch: the rook moves from its corner next to the king,
      and the king moves to the target. */
  function MakeCastling(S: Store, c: Colour, m: Move, mover: nat): Store {
    var t := m.target;
    var s1 := Relocate(S, c, Rook, Rook, RookFrom(t), RookTo(t), 0, Encode(Rook, c));
    Relocate(s1, c, King, King, m.original, t, 0, mover)
  }

  /** The branch "for any other case": the mover moves and a captured piece
      leaves the opponent's index. An en-passant capture also removes the pawn
      it takes, which `GameBoard.py` does not do. */
  function MakeOther(S: Store, c: Colour, m: Move, mover: nat): Store {
    var k := KindOf(mover);
    var s1 := Relocate(S, c, k, k, m.original, m.target, m.targetValue, mover);
    if m.kind == EnPassant then ClearSquare(s1, FlipColour(c), Pawn, CapturedSquare(m)) else s1
  }

  /** `__makeMove`. Every branch flips the side to move exactly once. */
  function Make(P: Position, m: Move): (r: Position)
    ensures r.colourToMove == FlipColour(P.colourToMove)
    ensures r.gameState == P.gameState
    ensures r.enPassant == EnPassantAfter(P, m)
  {
    var c := P.colourToMove;
    var mover := Cell(P, m.original);
    var rights := if m.kind == Promotion then P.rights else DisableCastling(P.rights, c, mover, m.original);
    var store :=
      if m.kind == Promotion then MakePromotion(P.store, c, m)
      else if m.kind == Castling then MakeCastling(P.store, c, m, mover)
      else MakeOther(P.store, c, m, mover);
    Position(store, rights, EnPassantAfter(P, m), FlipColour(c), P.gameState)
  }

  /** A captured piece, if any, comes back to the target square. */
  function RestoreCaptured(S: Store, c: Colour, m: Move): Store {
    if m.targetValue != 0 then PlaceSquare(S, FlipColour(c), KindOf(m.targetValue), m.target, m.targetValue)
    else S
  }

  /** The PROMOTION branch of `unmakeMove` for the mover colour `c`: the
      promoted piece leaves the target, a pawn of the mover's colour returns
      to the origin and a captured piece returns to the target. */
  function UnmakePromotion(S: Store, c: Colour, m: Move): Store {
    var s1 := Relocate(S, c, PromotionOf(m), Pawn, m.target, m.original, 0, Encode(Pawn, c));
    RestoreCaptured(s1, c, m)
  }

  /** The CASTLING branch of `unmakeMove`: king and rook go back. */
  function UnmakeCastling(S: Store, c: Colour, m: Move, mover: nat): Store {
    var t := m.target;
    var s1 := Relocate(S, c, King, King, t, m.original, 0, mover);
    Relocate(s1, c, Rook, Rook, RookTo(t), RookFrom(t), 0, Encode(Rook, c))
  }

  /** The remaining branch of `unmakeMove`: the mover goes back and a captured
      piece returns (for en passant, the pawn beside the target). */
  function UnmakeOther(S: Store, c: Colour, m: Move, mover: nat): Store {
    var k := KindOf(mover);
    var s1 := RestoreCaptured(Relocate(S, c, k, k, m.target, m.original, 0, mover), c, m);
    if m.kind == EnPassant then PlaceSquare(s1, FlipColour(c), Pawn, CapturedSquare(m), Encode(Pawn, FlipColour(c)))
    else s1
  }

  /** `unmakeMove`: flips the side to move back first, then undoes `m`. */
  function Unmake(P: Position, m: Move): (r: Position)
    ensures r.colourToMove == FlipColour(P.colourToMove)
    ensures r.gameState == P.gameState
    ensures r.enPassant == m.enPassantBefore
  {
    var c := FlipColour(P.colourToMove);
    var mover := Cell(P, m.target);
    var rights := if m.initialMove then RestoreCastling(P.rights, c, mover, m.original) else P.rights;
    var store :=
      if m.kind == Promotion then UnmakePromotion(P.store, c, m)
      else if m.kind == Castling then UnmakeCastling(P.store, c, m, mover)
      else UnmakeOther(P.store, c, m, mover);
    Position(store, rights, m.enPassantBefore, c, P.gameState)
  }

  // ---------------------------------------------------------------------
  // Moves that fit a position

  /** What a move produced by the generator for `P` satisfies: it moves a
      piece of the side to move onto an empty or opponent square, records the
      target value, the en-passant square and the `initialMove` flag of `P`,
      and the special kinds have their extra pieces where they belong. */
  ghost predicate Applicable(P: Position, m: Move) {
    var c := P.colourToMove;
    var mover := Cell(P, m.original);
    InBounds(m.original) && InBounds(m.target) && m.original != m.target &&
    mover != 0 && IsColour(mover, c) &&
    m.targetValue == Cell(P, m.target) &&
    (m.targetValue == 0 || IsColour(m.targetValue, FlipColour(c))) &&
    m.enPassantBefore == P.enPassant &&
    m.initialMove == InitialFlag(P.rights, mover, m.original) &&
    (m.kind == Promotion ==> IsType(mover, Pawn)) &&
    (m.kind == Castling ==>
       IsType(mover, King) && (m.target.1 == 6 || m.target.1 == 2) && m.targetValue == 0 &&
       Cell(P, RookFrom(m.target)) == Encode(Rook, c) && Cell(P, RookTo(m.target)) == 0) &&
    (m.kind == EnPassant ==>
       IsType(mover, Pawn) && m.targetValue == 0 &&
       Cell(P, CapturedSquare(m)) == Encode(Pawn, FlipColour(c)))
  }

  /** The invariants of a board: I1, well-formed cells and consistent castling flags. */
  ghost predicate Consistent(P: Position) {
    Synced(P.store) && WellFormed(P.store) && RightsConsistent(P.rights)
  }
}
