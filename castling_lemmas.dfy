/** What the castling candidates of `moveGenerator` promise: they are offered
    only while the king and the rook of that side have not moved and the king
    is not in check, and, for a king on its home square, the king on its
    target is not attacked once the move is made. */
module CastlingLemmas {

  import opened Wrappers
  import opened Pieces
  import opened Squares
  import opened Positions
  import opened Transition
  import opened Threats
  import opened Generation
  import opened TransitionLemmas
  import opened GenerationLemmas

  /** A castling candidate is a castling move of the king on `pos` to file 6
      or file 2 of its home rank; it exists only while the king is not in
      check, that side's flag is set, neither the king nor that side's rook
      has moved, and the target is empty and not attacked. */
  lemma CastlingOfferedOnlyUnmoved(P: Position, piece: nat, pos: Square, steps: set<Move>, mv: Move)
    requires RightsConsistent(P.rights) && IsColour(piece, P.colourToMove)
    requires mv in CastlingMoves(P, piece, pos, steps)
    ensures var side := SideOf(P.rights, P.colourToMove);
            && !KingThreat(P, None) && !side.kingMoved
            && mv.kind == Castling && mv.original == pos && mv.target.0 == HomeRank(piece)
            && (mv.target.1 == 6 || mv.target.1 == 2)
            && (mv.target.1 == 6 ==> side.kingSide && !side.kRookMoved)
            && (mv.target.1 == 2 ==> side.queenSide && !side.qRookMoved)
            && Cell(P, mv.target) == 0 && !Attacked(P, mv.target, P.colourToMove)
  {
    if P.colourToMove == White {
      assert IsColour(piece, White);
    } else {
      assert !IsColour(piece, White);
    }
  }

  /** Making a castling move that fits the position empties the king's and
      the rook's squares, puts the king on the target and the rook beside it,
      and leaves every other square as it was. */
  lemma CastlingCellsAfter(P: Position, mv: Move)
    requires WellFormed(P.store) && Applicable(P, mv) && mv.kind == Castling
    ensures var P', o, t := Make(P, mv), mv.original, mv.target;
            && Cell(P', o) == 0 && Cell(P', t) == Cell(P, o)
            && Cell(P', RookFrom(t)) == 0 && Cell(P', RookTo(t)) == Encode(Rook, P.colourToMove)
            && forall sq :: sq != o && sq != t && sq != RookFrom(t) && sq != RookTo(t) ==> Cell(P', sq) == Cell(P, sq)
  {
    var c, o, t := P.colourToMove, mv.original, mv.target;
    var mover := Cell(P, o);
    MoverFacts(P, mv);
    assert KindOf(mover) == King;
    CastlingMakeCells(P.store, c, mv, mover);
    var s1 := Relocate(P.store, c, Rook, Rook, RookFrom(t), RookTo(t), 0, Encode(Rook, c));
    var s2 := Relocate(s1, c, King, King, o, t, 0, mover);
    assert Make(P, mv).store == s2;
    forall sq | sq != o && sq != t && sq != RookFrom(t) && sq != RookTo(t)
      ensures CellOf(s2.board, sq) == CellOf(P.store.board, sq)
    {
      assert CellOf(s2.board, sq) == CellOf(s1.board, sq);
    }
  }

  /** A position with no opponent piece that `P` does not have is attacked by
      an opponent knight or pawn only where `P` is. */
  lemma NoNewKnightOrPawnAttack(P: Position, P': Position, pos: Square, ally: Colour)
    requires forall sq :: IsColour(Cell(P', sq), FlipColour(ally)) ==> Cell(P', sq) == Cell(P, sq)
    ensures KnightAttack(P', pos, ally) ==> KnightAttack(P, pos, ally)
    ensures PawnAttack(P', pos, ally) ==> PawnAttack(P, pos, ally)
  {
    var opp := FlipColour(ally);
    EncodeDecode(Knight, opp);
    EncodeDecode(Pawn, opp);
    if KnightAttack(P', pos, ally) {
      var i :| 0 <= i < 8 && KnightHit(P', pos, ally, i);
      assert KnightHit(P, pos, ally, i);
    }
    if PawnAttack(P', pos, ally) {
      var j :| 0 <= j < 2 && PawnHit(P', pos, ally, j);
      assert PawnHit(P, pos, ally, j);
    }
  }

  /** A ray scan depends only on the squares of the ray. */
  lemma {:induction false} RayHitFrame(P: Position, P': Position, pos: Square, ally: Colour, x: int, k: nat)
    requires 0 <= x < 8
    requires forall i :: k <= i <= 7 ==> Cell(P', RayStep(pos, x, i)) == Cell(P, RayStep(pos, x, i))
    ensures RayHit(P', pos, ally, x, k) == RayHit(P, pos, ally, x, k)
    decreases 8 - k
  {
    if k <= 7 {
      assert Cell(P', RayStep(pos, x, k)) == Cell(P, RayStep(pos, x, k));
      RayHitFrame(P, P', pos, ally, x, k + 1);
    }
  }

  /** Along the home rank, after castling the rook stands between the king and
      the side it came from, and its corner is empty: a rank ray from the
      king's target finds an attacker only if it found one before the move. */
  lemma RankRaysAfterCastling(P: Position, P': Position, t: Square, c: Colour, x: int)
    requires x == 5 || x == 6
    requires InBounds(t) && (t.1 == 6 || t.1 == 2)
    requires Cell(P', RookTo(t)) == Encode(Rook, c) && Cell(P', RookFrom(t)) == 0
    requires Cell(P', (t.0, 1)) == Cell(P, (t.0, 1))
    ensures RayHit(P', t, c, x, 1) ==> RayHit(P, t, c, x, 1)
  {
    EncodeDecode(Rook, c);
    EmptyHasNoColour(c);
    EmptyHasNoColour(FlipColour(c));
    if t.1 == 6 {
      if x == 6 {
        assert RayStep(t, x, 1) == RookFrom(t);
        assert !InBounds(RayStep(t, x, 2));
        assert !RayHit(P', t, c, x, 2);
      } else {
        assert RayStep(t, x, 1) == RookTo(t);
      }
    } else {
      if x == 6 {
        assert RayStep(t, x, 1) == RookTo(t);
      } else {
        assert RayStep(t, x, 1) == (t.0, 1);
        assert RayStep(t, x, 2) == RookFrom(t);
        assert !InBounds(RayStep(t, x, 3));
        assert !RayHit(P', t, c, x, 3);
        assert !RayHit(P', t, c, x, 2);
      }
    }
  }

  /** The attack on the king's target after castling, on any pair of
      positions that differ as a castling move makes them differ: no new
      opponent piece, nothing changed off the home rank, the rook beside the
      king and its corner empty. */
  lemma SafeAfterCastlingCells(P: Position, P': Position, t: Square, c: Colour)
    requires InBounds(t) && (t.1 == 6 || t.1 == 2) && !Attacked(P, t, c)
    requires Cell(P', RookTo(t)) == Encode(Rook, c) && Cell(P', RookFrom(t)) == 0
    requires Cell(P', (t.0, 1)) == Cell(P, (t.0, 1))
    requires forall sq :: sq != (t.0, 4) && sq != t && sq != RookFrom(t) && sq != RookTo(t) ==> Cell(P', sq) == Cell(P, sq)
    requires forall sq :: IsColour(Cell(P', sq), FlipColour(c)) ==> Cell(P', sq) == Cell(P, sq)
    ensures !Attacked(P', t, c)
  {
    NoNewKnightOrPawnAttack(P, P', t, c);
    forall x | 0 <= x < 8 ensures RayHit(P', t, c, x, 1) ==> RayHit(P, t, c, x, 1) {
      if x == 5 || x == 6 {
        RankRaysAfterCastling(P, P', t, c, x);
      } else {
        forall i | 1 <= i <= 7 ensures Cell(P', RayStep(t, x, i)) == Cell(P, RayStep(t, x, i)) {
          assert RayStep(t, x, i).0 != t.0;
        }
        RayHitFrame(P, P', t, c, x, 1);
      }
    }
    assert !RayAttack(P, t, c);
  }

  /** After castling the only changed squares hold nothing, the king or the
      rook of the side that castled. */
  lemma CastlingAddsNoOpponent(P: Position, mv: Move)
    requires WellFormed(P.store) && Applicable(P, mv) && mv.kind == Castling
    ensures forall sq :: IsColour(Cell(Make(P, mv), sq), FlipColour(P.colourToMove)) ==> Cell(Make(P, mv), sq) == Cell(P, sq)
  {
    var c := P.colourToMove;
    CastlingCellsAfter(P, mv);
    MoverFacts(P, mv);
    EncodeDecode(KindOf(Cell(P, mv.original)), c);
    EncodeDecode(Rook, c);
    EmptyHasNoColour(FlipColour(c));
  }

  /** A castling move from file 4 that fits the position, onto a target that
      is not attacked, leaves the king on that target not attacked. */
  lemma CastlingFromHomeSafe(P: Position, mv: Move)
    requires WellFormed(P.store) && Applicable(P, mv) && mv.kind == Castling
    requires InBounds(mv.target) && (mv.target.1 == 6 || mv.target.1 == 2)
    requires mv.original == (mv.target.0, 4)
    requires !Attacked(P, mv.target, P.colourToMove)
    ensures !Attacked(Make(P, mv), mv.target, P.colourToMove)
  {
    var P', t := Make(P, mv), mv.target;
    CastlingCellsAfter(P, mv);
    CastlingAddsNoOpponent(P, mv);
    assert Cell(P', (t.0, 1)) == Cell(P, (t.0, 1));
    SafeAfterCastlingCells(P, P', t, P.colourToMove);
  }

  /** FIDE Laws of Chess, Article 3.8: the king may not castle into check.
      For a king on its home square (file 4 of rank 0 or 7), the king standing
      on the target after a generated castling move is not attacked. */
  lemma CastlingKingSafe(P: Position, piece: nat, pos: Square, steps: set<Move>, mv: Move)
    requires WellFormed(P.store) && RightsConsistent(P.rights)
    requires piece == Cell(P, pos) && IsColour(piece, P.colourToMove) && IsType(piece, King)
    requires pos == (HomeRank(piece), 4)
    requires mv in CastlingMoves(P, piece, pos, steps)
    ensures !Attacked(Make(P, mv), mv.target, P.colourToMove)
  {
    CastlingApplicable(P, piece, pos, steps);
    CastlingOfferedOnlyUnmoved(P, piece, pos, steps, mv);
    CastlingFromHomeSafe(P, mv);
  }
}
