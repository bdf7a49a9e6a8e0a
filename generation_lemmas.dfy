/** What the generated moves satisfy: a ray scan reaches a square exactly when
    the squares before it are empty; every candidate fits the position, so the
    hypothetical make and unmake of the king-safety filter restore it; pawn
    promotions come in fours and double pushes start on the start rank. */
module GenerationLemmas {

  import opened Wrappers
  import opened Pieces
  import opened Squares
  import opened Positions
  import opened Transition
  import opened Threats
  import opened Generation

  /** The square `k` steps along direction `x` of the piece's offsets. */
  function RaySquare(piece: nat, pos: Square, x: nat, k: int): Square
    requires x < 8
  {
    PosChange(pos, Offsets(piece)[x], k)
  }

  /** The steps `k` to `j - 1` of the ray are on the board and empty. */
  ghost predicate PathClear(P: Position, piece: nat, pos: Square, x: nat, k: int, j: int)
    requires x < 8
  {
    forall i :: k <= i < j ==> InBounds(RaySquare(piece, pos, x, i)) && Cell(P, RaySquare(piece, pos, x, i)) == 0
  }

  /** Step `j` of the ray is a candidate: the path before it is clear and the
      square is on the board and holds no piece of the side to move. */
  ghost predicate Reaches(P: Position, piece: nat, pos: Square, x: nat, k: int, j: int)
    requires x < 8
  {
    PathClear(P, piece, pos, x, k, j) && InBounds(RaySquare(piece, pos, x, j))
    && !IsColour(Cell(P, RaySquare(piece, pos, x, j)), P.colourToMove)
  }

  /** A valid cell of neither colour is empty. */
  lemma NeitherColourIsEmpty(v: nat, c: Colour)
    requires ValidCell(v) && !IsColour(v, c) && !IsColour(v, FlipColour(c))
    ensures v == 0
  {
    if v != 0 {
      ValidCellDecode(v);
    }
  }

  /** A ray whose step `k` is not an empty square on the board reaches nothing past `k`. */
  lemma BlockedRay(P: Position, piece: nat, pos: Square, x: nat, k: int, j: int)
    requires x < 8 && k < j
    requires !(InBounds(RaySquare(piece, pos, x, k)) && Cell(P, RaySquare(piece, pos, x, k)) == 0)
    ensures !Reaches(P, piece, pos, x, k, j)
  {
  }

  /** Past an empty step `k`, reaching from `k` and from `k + 1` are the same. */
  lemma OpenRay(P: Position, piece: nat, pos: Square, x: nat, k: int, j: int)
    requires x < 8 && k < j
    requires InBounds(RaySquare(piece, pos, x, k)) && Cell(P, RaySquare(piece, pos, x, k)) == 0
    ensures Reaches(P, piece, pos, x, k, j) <==> Reaches(P, piece, pos, x, k + 1, j)
  {
  }

  /** The scan from step `k`, read as a set: a move is produced exactly when
      some step `j` up to `repeat` is reached and leaves the king safe. */
  lemma {:induction false} RayMovesIff(P: Position, piece: nat, pos: Square, x: nat, k: nat, repeat: nat, mv: Move)
    requires WellFormed(P.store) && x < 8
    ensures mv in RayMoves(P, piece, pos, x, k, repeat) <==>
            exists j :: k <= j <= repeat && Reaches(P, piece, pos, x, k, j)
                        && mv == StepMove(P, pos, RaySquare(piece, pos, x, j), InitialFlag(P.rights, piece, pos))
                        && !KingThreat(P, Some(mv))
    decreases repeat + 1 - k
  {
    var init := InitialFlag(P.rights, piece, pos);
    if k <= repeat {
      var sq := RaySquare(piece, pos, x, k);
      var c := P.colourToMove;
      if InBounds(sq) && !IsColour(Cell(P, sq), c) {
        assert Reaches(P, piece, pos, x, k, k);
        if IsColour(Cell(P, sq), FlipColour(c)) {
          EmptyHasNoColour(FlipColour(c));
          forall j | k < j <= repeat ensures !Reaches(P, piece, pos, x, k, j) {
            BlockedRay(P, piece, pos, x, k, j);
          }
        } else {
          NeitherColourIsEmpty(Cell(P, sq), c);
          RayMovesIff(P, piece, pos, x, k + 1, repeat, mv);
          forall j | k < j <= repeat ensures Reaches(P, piece, pos, x, k, j) <==> Reaches(P, piece, pos, x, k + 1, j) {
            OpenRay(P, piece, pos, x, k, j);
          }
        }
      } else {
        EmptyHasNoColour(c);
        forall j | k < j <= repeat ensures !Reaches(P, piece, pos, x, k, j) {
          BlockedRay(P, piece, pos, x, k, j);
        }
      }
    }
  }

  // ---------------------------------------------------------------------
  // Every candidate fits the position

  /** No offset is the null move, so a step of one or more leaves the square. */
  lemma RaySquareMoves(piece: nat, pos: Square, x: nat, k: int)
    requires x < 8 && k >= 1
    ensures RaySquare(piece, pos, x, k) != pos
  {
    var off := Offsets(piece)[x];
    assert off.0 != 0 || off.1 != 0;
    if off.0 != 0 {
      assert off.0 * k != 0;
    } else {
      assert off.1 * k != 0;
    }
  }

  /** A NORMAL move of a piece of the side to move onto a square without a
      piece of its own fits the position. */
  lemma StepApplicable(P: Position, piece: nat, pos: Square, sq: Square, init: bool)
    requires WellFormed(P.store) && InBounds(pos) && InBounds(sq) && pos != sq
    requires piece == Cell(P, pos) && IsColour(piece, P.colourToMove)
    requires !IsColour(Cell(P, sq), P.colourToMove)
    requires init == InitialFlag(P.rights, piece, pos)
    ensures Applicable(P, StepMove(P, pos, sq, init))
  {
    EmptyHasNoColour(P.colourToMove);
    if Cell(P, sq) != 0 {
      ValidCellDecode(Cell(P, sq));
      FlipInvolution(P.colourToMove);
    }
  }

  /** Every move of a scan fits the position. */
  lemma RayMovesApplicable(P: Position, piece: nat, pos: Square, x: nat, repeat: nat)
    requires WellFormed(P.store) && x < 8 && InBounds(pos)
    requires piece == Cell(P, pos) && IsColour(piece, P.colourToMove)
    ensures forall mv :: mv in RayMoves(P, piece, pos, x, 1, repeat) ==> Applicable(P, mv)
  {
    forall mv | mv in RayMoves(P, piece, pos, x, 1, repeat) ensures Applicable(P, mv) {
      RayMovesIff(P, piece, pos, x, 1, repeat, mv);
      var j :| 1 <= j <= repeat && Reaches(P, piece, pos, x, 1, j)
               && mv == StepMove(P, pos, RaySquare(piece, pos, x, j), InitialFlag(P.rights, piece, pos));
      RaySquareMoves(piece, pos, x, j);
      StepApplicable(P, piece, pos, RaySquare(piece, pos, x, j), InitialFlag(P.rights, piece, pos));
    }
  }

  lemma {:induction false} DirMovesApplicable(P: Position, piece: nat, pos: Square, lo: nat, hi: nat, repeat: nat)
    requires WellFormed(P.store) && hi <= 8 && InBounds(pos)
    requires piece == Cell(P, pos) && IsColour(piece, P.colourToMove)
    ensures forall mv :: mv in DirMoves(P, piece, pos, lo, hi, repeat) ==> Applicable(P, mv)
    decreases hi
  {
    if lo < hi {
      DirMovesApplicable(P, piece, pos, lo, hi - 1, repeat);
      RayMovesApplicable(P, piece, pos, hi - 1, repeat);
    }
  }

  lemma PawnLandingApplicable(P: Position, piece: nat, pos: Square, sq: Square)
    requires WellFormed(P.store) && InBounds(pos) && InBounds(sq) && pos != sq
    requires piece == Cell(P, pos) && IsColour(piece, P.colourToMove) && IsType(piece, Pawn)
    requires !IsColour(Cell(P, sq), P.colourToMove)
    ensures forall mv :: mv in PawnLanding(P, piece, pos, sq) ==> Applicable(P, mv)
  {
    StepApplicable(P, piece, pos, sq, false);
  }

  lemma PawnPushesApplicable(P: Position, piece: nat, pos: Square)
    requires WellFormed(P.store) && InBounds(pos)
    requires piece == Cell(P, pos) && IsColour(piece, P.colourToMove) && IsType(piece, Pawn)
    ensures forall mv :: mv in PawnPushes(P, piece, pos) ==> Applicable(P, mv)
  {
    EmptyHasNoColour(P.colourToMove);
    var change := PawnMoveOffsets[PawnStart(piece)];
    var ahead := PosChange(pos, change, 1);
    var two := PosChange(ahead, change, 1);
    if InBounds(ahead) && Cell(P, ahead) == 0 {
      PawnLandingApplicable(P, piece, pos, ahead);
      if OnStartRank(piece, pos) && Cell(P, two) == 0 {
        StepApplicable(P, piece, pos, two, false);
      }
    }
  }

  lemma PawnDiagonalApplicable(P: Position, piece: nat, pos: Square, j: nat)
    requires WellFormed(P.store) && InBounds(pos) && 1 <= j <= 2
    requires piece == Cell(P, pos) && IsColour(piece, P.colourToMove) && IsType(piece, Pawn)
    ensures forall mv :: mv in PawnDiagonal(P, piece, pos, j) ==> Applicable(P, mv)
  {
    var c := P.colourToMove;
    var sq := PosChange(pos, PawnMoveOffsets[PawnStart(piece) + j], 1);
    EmptyHasNoColour(c);
    if InBounds(sq) {
      if IsColour(Cell(P, sq), FlipColour(c)) {
        FlipInvolution(c);
        PawnLandingApplicable(P, piece, pos, sq);
      }
    }
  }

  /** Every pawn move fits the position. */
  lemma PawnMovesApplicable(P: Position, piece: nat, pos: Square)
    requires WellFormed(P.store) && InBounds(pos)
    requires piece == Cell(P, pos) && IsColour(piece, P.colourToMove) && IsType(piece, Pawn)
    ensures forall mv :: mv in PawnMoves(P, piece, pos) ==> Applicable(P, mv)
  {
    PawnPushesApplicable(P, piece, pos);
    PawnDiagonalApplicable(P, piece, pos, 1);
    PawnDiagonalApplicable(P, piece, pos, 2);
  }

  /** Every castling candidate fits the position. */
  lemma CastlingApplicable(P: Position, piece: nat, pos: Square, steps: set<Move>)
    requires WellFormed(P.store) && RightsConsistent(P.rights) && InBounds(pos)
    requires piece == Cell(P, pos) && IsColour(piece, P.colourToMove) && IsType(piece, King)
    ensures forall mv :: mv in CastlingMoves(P, piece, pos, steps) ==> Applicable(P, mv)
  {
    EmptyHasNoColour(P.colourToMove);
  }

  /** Every move `moveGenerator` produces for the piece on `pos` fits the position. */
  lemma GeneratedApplicable(P: Position, pos: Square)
    requires Consistent(P) && InBounds(pos)
    ensures Generated(P, Cell(P, pos), pos).Ok? && Generated(P, Cell(P, pos), pos).value.Some? ==>
            forall mv :: mv in Generated(P, Cell(P, pos), pos).value.value ==> Applicable(P, mv)
  {
    var piece := Cell(P, pos);
    if IsColour(piece, P.colourToMove) {
      if IsSliding(piece) {
        DirMovesApplicable(P, piece, pos, StartIndex(piece), StopIndex(piece), 8);
      } else if IsType(piece, Pawn) {
        PawnMovesApplicable(P, piece, pos);
      } else if IsType(piece, Knight) {
        DirMovesApplicable(P, piece, pos, StartIndex(piece), StopIndex(piece), 1);
      } else if IsType(piece, King) {
        DirMovesApplicable(P, piece, pos, StartIndex(piece), StopIndex(piece), 1);
        CastlingApplicable(P, piece, pos, HelperMoves(P, piece, pos, 1));
      }
    }
  }

  // ---------------------------------------------------------------------
  // Pawn moves

  /** The four promotions are four different moves onto the square, one for
      each of bishop, knight, rook and queen. */
  lemma PromotionsAreFour(P: Position, pos: Square, sq: Square)
    ensures |Promotions(P, pos, sq)| == 4
    ensures forall mv :: mv in Promotions(P, pos, sq) ==> mv.kind == Promotion && mv.target == sq
    ensures (set mv | mv in Promotions(P, pos, sq) :: mv.promotion) == {Some(Bishop), Some(Knight), Some(Rook), Some(Queen)}
  {
    var b, n, r, q := PromotionMove(P, pos, sq, Bishop), PromotionMove(P, pos, sq, Knight),
                      PromotionMove(P, pos, sq, Rook), PromotionMove(P, pos, sq, Queen);
    assert b != n && b != r && b != q && n != r && n != q && r != q;
    assert |{b, n, r, q}| == 4;
  }

  /** A landing gives moves onto its square only: the four promotions or
      nothing on the last rank, one NORMAL move or nothing elsewhere. */
  lemma LandingFacts(P: Position, piece: nat, pos: Square, sq: Square)
    ensures forall mv :: mv in PawnLanding(P, piece, pos, sq) ==> mv.target == sq && Tried(mv) == StepMove(P, pos, sq, false)
    ensures OnLastRank(piece, sq) ==> PawnLanding(P, piece, pos, sq) == {} || PawnLanding(P, piece, pos, sq) == Promotions(P, pos, sq)
    ensures !OnLastRank(piece, sq) ==> forall mv :: mv in PawnLanding(P, piece, pos, sq) ==> mv.kind == Normal
    ensures PawnLanding(P, piece, pos, sq) != {} ==> !KingThreat(P, Some(StepMove(P, pos, sq, false)))
  {
  }

  /** Where the pushes go: the landing ahead, or the double push from the start rank. */
  lemma PushFacts(P: Position, piece: nat, pos: Square, mv: Move)
    requires mv in PawnPushes(P, piece, pos)
    ensures var change := PawnMoveOffsets[PawnStart(piece)];
            var ahead := PosChange(pos, change, 1);
            InBounds(ahead) && Cell(P, ahead) == 0 &&
            (mv in PawnLanding(P, piece, pos, ahead) ||
             (OnStartRank(piece, pos) && mv == StepMove(P, pos, PosChange(ahead, change, 1), false)
              && !KingThreat(P, Some(mv))))
  {
  }

  /** Where a diagonal goes: a capture landing, or the en-passant capture. */
  lemma DiagonalFacts(P: Position, piece: nat, pos: Square, j: nat, mv: Move)
    requires 1 <= j <= 2 && mv in PawnDiagonal(P, piece, pos, j)
    ensures var sq := PosChange(pos, PawnMoveOffsets[PawnStart(piece) + j], 1);
            InBounds(sq) &&
            ((IsColour(Cell(P, sq), FlipColour(P.colourToMove)) && mv in PawnLanding(P, piece, pos, sq)) ||
             (mv == EnPassantMove(P, pos, sq) && !KingThreat(P, Some(mv))))
  {
  }

  /** The landing of the pawn's three candidate squares that is `t`, if any, when its condition holds. */
  function LandingOnto(P: Position, piece: nat, pos: Square, t: Square): set<Move> {
    var base := PawnStart(piece);
    var ahead := PosChange(pos, PawnMoveOffsets[base], 1);
    var d1 := PosChange(pos, PawnMoveOffsets[base + 1], 1);
    var d2 := PosChange(pos, PawnMoveOffsets[base + 2], 1);
    if t == ahead then (if InBounds(ahead) && Cell(P, ahead) == 0 then PawnLanding(P, piece, pos, t) else {})
    else if t == d1 then (if InBounds(d1) && IsColour(Cell(P, d1), FlipColour(P.colourToMove)) then PawnLanding(P, piece, pos, t) else {})
    else if t == d2 then (if InBounds(d2) && IsColour(Cell(P, d2), FlipColour(P.colourToMove)) then PawnLanding(P, piece, pos, t) else {})
    else {}
  }

  lemma LandingOntoInMoves(P: Position, piece: nat, pos: Square, t: Square)
    ensures LandingOnto(P, piece, pos, t) <= PawnMoves(P, piece, pos)
  {
  }

  lemma OntoLastRank(P: Position, piece: nat, pos: Square, t: Square, mv: Move)
    requires InBounds(pos) && OnLastRank(piece, t)
    requires mv in PawnMoves(P, piece, pos) && mv.target == t
    ensures mv.kind != Normal
    ensures mv.kind != EnPassant ==> mv in LandingOnto(P, piece, pos, t)
  {
    var base := PawnStart(piece);
    var ahead := PosChange(pos, PawnMoveOffsets[base], 1);
    var two := PosChange(ahead, PawnMoveOffsets[base], 1);
    var d1 := PosChange(pos, PawnMoveOffsets[base + 1], 1);
    var d2 := PosChange(pos, PawnMoveOffsets[base + 2], 1);
    assert OnStartRank(piece, pos) ==> two != t;
    LandingFacts(P, piece, pos, t);
    if mv in PawnPushes(P, piece, pos) {
      PushFacts(P, piece, pos, mv);
      LandingFacts(P, piece, pos, ahead);
    } else if mv in PawnDiagonal(P, piece, pos, 1) {
      DiagonalFacts(P, piece, pos, 1, mv);
      LandingFacts(P, piece, pos, d1);
    } else {
      DiagonalFacts(P, piece, pos, 2, mv);
      LandingFacts(P, piece, pos, d2);
    }
  }

  /** Pawn moves onto the promotion rank: none is a NORMAL move, and the
      promotions onto any one square are none or exactly the four. */
  lemma PawnLastRank(P: Position, piece: nat, pos: Square, t: Square)
    requires InBounds(pos) && OnLastRank(piece, t)
    ensures forall mv :: mv in PawnMoves(P, piece, pos) && mv.target == t ==> mv.kind != Normal
    ensures var proms := set mv | mv in PawnMoves(P, piece, pos) && mv.target == t && mv.kind == Promotion;
            proms == {} || proms == Promotions(P, pos, t)
  {
    var land := LandingOnto(P, piece, pos, t);
    forall mv | mv in PawnMoves(P, piece, pos) && mv.target == t
      ensures mv.kind != Normal && (mv.kind != EnPassant ==> mv in land)
    {
      OntoLastRank(P, piece, pos, t, mv);
    }
    LandingOntoInMoves(P, piece, pos, t);
    LandingFacts(P, piece, pos, t);
    var proms := set mv | mv in PawnMoves(P, piece, pos) && mv.target == t && mv.kind == Promotion;
    assert land == {} || land == Promotions(P, pos, t);
    assert proms == land;
  }

  /** A pawn moves two ranks only from its start rank, straight ahead, over an
      empty square onto an empty square. */
  lemma DoublePushOnlyFromStart(P: Position, piece: nat, pos: Square, mv: Move)
    requires InBounds(pos)
    requires mv in PawnMoves(P, piece, pos) && (mv.target.0 - pos.0 == 2 || pos.0 - mv.target.0 == 2)
    ensures var change := PawnMoveOffsets[PawnStart(piece)];
            var ahead := PosChange(pos, change, 1);
            OnStartRank(piece, pos) && Cell(P, ahead) == 0 && Cell(P, PosChange(ahead, change, 1)) == 0
            && mv == StepMove(P, pos, PosChange(ahead, change, 1), false)
  {
    var change := PawnMoveOffsets[PawnStart(piece)];
    var ahead := PosChange(pos, change, 1);
    if mv in PawnDiagonal(P, piece, pos, 1) {
      assert false;
    } else if mv in PawnDiagonal(P, piece, pos, 2) {
      assert false;
    } else if InBounds(ahead) && Cell(P, ahead) == 0 && mv in PawnLanding(P, piece, pos, ahead) {
      assert false;
    }
  }

  /** From the start rank the double push is offered whenever both squares
      ahead are empty and it leaves the king safe. */
  lemma DoublePushOffered(P: Position, piece: nat, pos: Square)
    requires InBounds(pos) && OnStartRank(piece, pos)
    ensures var change := PawnMoveOffsets[PawnStart(piece)];
            var ahead := PosChange(pos, change, 1);
            var two := PosChange(ahead, change, 1);
            Cell(P, ahead) == 0 && Cell(P, two) == 0 && !KingThreat(P, Some(StepMove(P, pos, two, false)))
            ==> StepMove(P, pos, two, false) in PawnMoves(P, piece, pos)
  {
    var change := PawnMoveOffsets[PawnStart(piece)];
    assert InBounds(PosChange(pos, change, 1));
  }

  /** A safe single push onto the empty square ahead is offered: as the four
      promotions on the last rank, as one NORMAL move elsewhere. */
  lemma PushOffered(P: Position, piece: nat, pos: Square)
    ensures var ahead := PosChange(pos, PawnMoveOffsets[PawnStart(piece)], 1);
            InBounds(ahead) && Cell(P, ahead) == 0 && !KingThreat(P, Some(StepMove(P, pos, ahead, false))) ==>
              (OnLastRank(piece, ahead) ==> Promotions(P, pos, ahead) <= PawnMoves(P, piece, pos))
              && (!OnLastRank(piece, ahead) ==> StepMove(P, pos, ahead, false) in PawnMoves(P, piece, pos))
  {
  }

  /** A safe diagonal capture of an opponent piece is offered: as the four
      promotions on the last rank, as one NORMAL move elsewhere. */
  lemma CaptureOffered(P: Position, piece: nat, pos: Square, j: nat)
    requires 1 <= j <= 2
    ensures var sq := PosChange(pos, PawnMoveOffsets[PawnStart(piece) + j], 1);
            InBounds(sq) && IsColour(Cell(P, sq), FlipColour(P.colourToMove))
            && !KingThreat(P, Some(StepMove(P, pos, sq, false))) ==>
              (OnLastRank(piece, sq) ==> Promotions(P, pos, sq) <= PawnMoves(P, piece, pos))
              && (!OnLastRank(piece, sq) ==> StepMove(P, pos, sq, false) in PawnMoves(P, piece, pos))
  {
    assert PawnDiagonal(P, piece, pos, j) <= PawnMoves(P, piece, pos);
  }

  /** A safe en-passant capture is offered when the diagonal square is empty,
      is the en-passant square and has an opponent pawn beside the capturing pawn. */
  lemma EnPassantOffered(P: Position, piece: nat, pos: Square, j: nat)
    requires 1 <= j <= 2
    ensures var sq := PosChange(pos, PawnMoveOffsets[PawnStart(piece) + j], 1);
            InBounds(sq) && Cell(P, sq) == 0 && P.enPassant == Some(sq)
            && Cell(P, (pos.0, sq.1)) == Encode(Pawn, FlipColour(P.colourToMove))
            && !KingThreat(P, Some(EnPassantMove(P, pos, sq))) ==>
              EnPassantMove(P, pos, sq) in PawnMoves(P, piece, pos)
  {
    assert PawnDiagonal(P, piece, pos, j) <= PawnMoves(P, piece, pos);
  }

  // ---------------------------------------------------------------------
  // The king-safety filter

  /** The move the king-safety filter evaluated for a candidate: a promotion
      is tried as the plain pawn move onto the same square. */
  function Tried(mv: Move): Move {
    if mv.kind == Promotion then mv.(kind := Normal, promotion := None) else mv
  }

  lemma {:induction false} DirMovesSafe(P: Position, piece: nat, pos: Square, lo: nat, hi: nat, repeat: nat)
    requires WellFormed(P.store) && hi <= 8
    ensures forall mv :: mv in DirMoves(P, piece, pos, lo, hi, repeat) ==> !KingThreat(P, Some(Tried(mv)))
    decreases hi
  {
    if lo < hi {
      DirMovesSafe(P, piece, pos, lo, hi - 1, repeat);
      forall mv | mv in RayMoves(P, piece, pos, hi - 1, 1, repeat) ensures !KingThreat(P, Some(Tried(mv))) {
        RayMovesIff(P, piece, pos, hi - 1, 1, repeat, mv);
        var j :| 1 <= j <= repeat && Reaches(P, piece, pos, hi - 1, 1, j)
                 && mv == StepMove(P, pos, RaySquare(piece, pos, hi - 1, j), InitialFlag(P.rights, piece, pos))
                 && !KingThreat(P, Some(mv));
        assert Tried(mv) == mv;
      }
      assert DirMoves(P, piece, pos, lo, hi, repeat)
             == DirMoves(P, piece, pos, lo, hi - 1, repeat) + RayMoves(P, piece, pos, hi - 1, 1, repeat);
    }
  }

  /** Every pawn move leaves the king unattacked. */
  lemma PawnMovesSafe(P: Position, piece: nat, pos: Square)
    ensures forall mv :: mv in PawnMoves(P, piece, pos) ==> !KingThreat(P, Some(Tried(mv)))
  {
    forall mv | mv in PawnMoves(P, piece, pos) ensures !KingThreat(P, Some(Tried(mv))) {
      var base := PawnStart(piece);
      if mv in PawnPushes(P, piece, pos) {
        PushFacts(P, piece, pos, mv);
        LandingFacts(P, piece, pos, PosChange(pos, PawnMoveOffsets[base], 1));
      } else if mv in PawnDiagonal(P, piece, pos, 1) {
        DiagonalFacts(P, piece, pos, 1, mv);
        LandingFacts(P, piece, pos, PosChange(pos, PawnMoveOffsets[base + 1], 1));
      } else {
        DiagonalFacts(P, piece, pos, 2, mv);
        LandingFacts(P, piece, pos, PosChange(pos, PawnMoveOffsets[base + 2], 1));
      }
    }
  }

  /** The castling candidates are castling moves only. */
  lemma CastlingMovesKind(P: Position, piece: nat, pos: Square, steps: set<Move>)
    ensures forall mv :: mv in CastlingMoves(P, piece, pos, steps) ==> mv.kind == Castling
  {
  }

  /** Every generated move except castling leaves the mover's king unattacked
      (castling is checked differently: king not in check, target not attacked). */
  lemma GeneratedSafe(P: Position, pos: Square)
    requires WellFormed(P.store)
    ensures Generated(P, Cell(P, pos), pos).Ok? && Generated(P, Cell(P, pos), pos).value.Some? ==>
            forall mv :: mv in Generated(P, Cell(P, pos), pos).value.value && mv.kind != Castling ==>
                         !KingThreat(P, Some(Tried(mv)))
  {
    var piece := Cell(P, pos);
    if IsColour(piece, P.colourToMove) {
      if IsSliding(piece) {
        DirMovesSafe(P, piece, pos, StartIndex(piece), StopIndex(piece), 8);
      } else if IsType(piece, Pawn) {
        PawnMovesSafe(P, piece, pos);
      } else if IsType(piece, Knight) {
        DirMovesSafe(P, piece, pos, StartIndex(piece), StopIndex(piece), 1);
      } else if IsType(piece, King) {
        var steps := HelperMoves(P, piece, pos, 1);
        DirMovesSafe(P, piece, pos, StartIndex(piece), StopIndex(piece), 1);
        CastlingMovesKind(P, piece, pos, steps);
        assert Generated(P, piece, pos) == Ok(Some(steps + CastlingMoves(P, piece, pos, steps)));
      }
    }
  }

  // ---------------------------------------------------------------------
  // generateAllMoves

  /** Under I1 the squares listed in the index of a colour are the squares holding a piece of that colour. */
  lemma ListedSquares(S: Store, colour: Colour, s: Square)
    requires Synced(S) && WellFormed(S)
    ensures s in Listed(PiecesOf(S, colour)) <==> InBounds(s) && CellOf(S.board, s) != 0 && IsColour(CellOf(S.board, s), colour)
  {
    var idx := PiecesOf(S, colour);
    var v := CellOf(S.board, s);
    if InBounds(s) && v != 0 && IsColour(v, colour) {
      var t := KindOf(v);
      ValidCellDecode(v);
      EncodeDecode(t, ColourOf(v));
      SyncedMembership(S, colour, t, s);
      assert s in idx[t];
    }
    if s in Listed(idx) {
      var t :| t in idx && s in idx[t];
      SyncedMembership(S, colour, t, s);
      EmptyHasNoColour(colour);
    }
  }

  /** On well-formed cells `moveGenerator` never fails, and it gives a move
      set exactly for a piece of the side to move. */
  lemma GeneratedOk(P: Position, pos: Square)
    requires WellFormed(P.store)
    ensures Generated(P, Cell(P, pos), pos).Ok?
    ensures Generated(P, Cell(P, pos), pos).value.Some? <==> IsColour(Cell(P, pos), P.colourToMove)
  {
    var v := Cell(P, pos);
    if IsColour(v, P.colourToMove) && !InBounds(pos) {
      assert v == 0;
    }
    if IsColour(v, P.colourToMove) {
      EmptyHasNoColour(P.colourToMove);
      ValidCellDecode(v);
      var t := KindOf(v);
      EncodeDecode(t, ColourOf(v));
      SlidingKinds(t, ColourOf(v));
    }
  }

  /** Under I1 `generateAllMoves(colour)` has an entry for exactly the squares
      holding a piece of that colour; for the side to move none of them is None. */
  lemma AllMovesKeys(P: Position, colour: Colour, s: Square)
    requires Synced(P.store) && WellFormed(P.store)
    ensures s in AllMoves(P, colour) <==> InBounds(s) && Cell(P, s) != 0 && IsColour(Cell(P, s), colour)
    ensures s in AllMoves(P, colour) && colour == P.colourToMove ==> AllMoves(P, colour)[s].Some?
  {
    ListedSquares(P.store, colour, s);
    GeneratedOk(P, s);
  }

  // ---------------------------------------------------------------------
  // confirmMove

  /** `moveGenerator` gives a non-empty move set for the piece on `s`. */
  predicate MovesFrom(P: Position, s: Square) {
    var g := Generated(P, Cell(P, s), s);
    g.Ok? && g.value.Some? && g.value.value != {}
  }

  /** Under I1 the side to move has a move exactly when some square of the
      board holds a piece for which `moveGenerator` finds a move. */
  lemma HasMoveIff(P: Position)
    requires Synced(P.store) && WellFormed(P.store)
    ensures HasMove(P) <==> exists s :: InBounds(s) && MovesFrom(P, s)
  {
    var all := AllMoves(P, P.colourToMove);
    if HasMove(P) {
      var s :| s in all && all[s].Some? && all[s].value != {};
      AllMovesKeys(P, P.colourToMove, s);
      GeneratedOk(P, s);
      assert InBounds(s) && MovesFrom(P, s);
    }
    if exists s :: InBounds(s) && MovesFrom(P, s) {
      var s :| InBounds(s) && MovesFrom(P, s);
      GeneratedOk(P, s);
      EmptyHasNoColour(P.colourToMove);
      AllMovesKeys(P, P.colourToMove, s);
      assert s in all && all[s].Some? && all[s].value != {};
    }
  }

  /** `confirmMove`: when the side to move after the move still has a move the
      position is the one after the move; otherwise the game ends, won by the
      side that moved (2 for white, 3 for black) when the side to move is in
      check, drawn (1) when it is not. Nothing but `gameState` differs from the
      position after the move. */
  lemma ConfirmOutcome(P: Position, m: Move)
    ensures var Q, R := Make(P, m), Confirm(P, m);
            && R.store == Q.store && R.rights == Q.rights && R.enPassant == Q.enPassant
            && R.colourToMove == FlipColour(P.colourToMove)
            && (HasMove(Q) ==> R.gameState == P.gameState)
            && (!HasMove(Q) && KingThreat(Q, None) ==> R.gameState == (if P.colourToMove == White then 2 else 3))
            && (!HasMove(Q) && !KingThreat(Q, None) ==> R.gameState == 1)
  {
    FlipInvolution(P.colourToMove);
  }

  /** `curKingThreat` is false when the side to move has no king. */
  lemma NoKingNoThreat(P: Position, mv: Option<Move>)
    requires Get(CurrentPieces(P), King) == {}
    ensures !KingThreat(P, mv)
  {
  }
}
