/** What making and unmaking a move does to a position: invariant I1 (grid
    and indexes agree) and well-formed cells are kept, and unmaking a move
    right after making it gives the position back. */
module TransitionLemmas {

  import opened Wrappers
  import opened Pieces
  import opened Squares
  import opened Positions
  import opened Transition

  /** The cell facts every branch needs: the mover and a captured piece decode
      to their types and colours. */
  lemma MoverFacts(P: Position, m: Move)
    requires WellFormed(P.store) && Applicable(P, m)
    ensures Cell(P, m.original) == Encode(KindOf(Cell(P, m.original)), P.colourToMove)
    ensures m.targetValue != 0 ==> m.targetValue == Encode(KindOf(m.targetValue), FlipColour(P.colourToMove))
  {
    var c := P.colourToMove;
    var mover := Cell(P, m.original);
    ValidCellDecode(mover);
    if m.targetValue != 0 {
      ValidCellDecode(m.targetValue);
    }
  }

  /** Removing a piece from its square in index and grid keeps I1. */
  lemma ClearSquareSynced(S: Store, c: Colour, k: PieceKind, sq: Square)
    requires Synced(S) && InBounds(sq) && CellOf(S.board, sq) == Encode(k, c)
    ensures Synced(ClearSquare(S, c, k, sq))
  {
    var S' := ClearSquare(S, c, k, sq);
    forall c': Colour, t': PieceKind, s: Square
      ensures s in Get(PiecesOf(S', c'), t')
              <==> InBounds(s) && IsType(CellOf(S'.board, s), t') && IsColour(CellOf(S'.board, s), c')
    {
      SyncedMembership(S, c', t', s);
      EncodeMatches(k, c, t', c');
      EmptyHasNoColour(c');
      assert Get(PiecesOf(S', c'), t') == if c' == c && t' == k then Get(PiecesOf(S, c'), t') - {sq} else Get(PiecesOf(S, c'), t');
    }
    SyncedFromMembership(S');
  }

  /** Putting a piece on an empty square in index and grid keeps I1. */
  lemma PlaceSquareSynced(S: Store, c: Colour, k: PieceKind, sq: Square, v: nat)
    requires Synced(S) && InBounds(sq) && CellOf(S.board, sq) == 0 && v == Encode(k, c)
    ensures Synced(PlaceSquare(S, c, k, sq, v))
  {
    var S' := PlaceSquare(S, c, k, sq, v);
    forall c': Colour, t': PieceKind, s: Square
      ensures s in Get(PiecesOf(S', c'), t')
              <==> InBounds(s) && IsType(CellOf(S'.board, s), t') && IsColour(CellOf(S'.board, s), c')
    {
      SyncedMembership(S, c', t', s);
      EncodeMatches(k, c, t', c');
      EmptyHasNoColour(c');
      assert Get(PiecesOf(S', c'), t') == if c' == c && t' == k then Get(PiecesOf(S, c'), t') + {sq} else Get(PiecesOf(S, c'), t');
    }
    SyncedFromMembership(S');
  }

  /** Moving a piece of the side `c` onto an empty or opponent square, in
      index and grid, keeps I1. */
  lemma RelocateSynced(S: Store, c: Colour, kFrom: PieceKind, kTo: PieceKind,
                       o: Square, t: Square, captured: nat, placed: nat)
    requires Synced(S)
    requires InBounds(o) && InBounds(t) && o != t
    requires CellOf(S.board, o) == Encode(kFrom, c) && placed == Encode(kTo, c)
    requires captured == CellOf(S.board, t)
    requires captured == 0 || captured == Encode(KindOf(captured), FlipColour(c))
    ensures Synced(Relocate(S, c, kFrom, kTo, o, t, captured, placed))
  {
    var s1 := if captured != 0 then ClearSquare(S, FlipColour(c), KindOf(captured), t) else S;
    if captured != 0 {
      ClearSquareSynced(S, FlipColour(c), KindOf(captured), t);
    }
    ClearSquareSynced(s1, c, kFrom, o);
    PlaceSquareSynced(ClearSquare(s1, c, kFrom, o), c, kTo, t, placed);
  }

  /** Under I1 the grid determines the indexes, so two synced stores with the
      same grid are the same store. */
  lemma SyncedUnique(S1: Store, S2: Store)
    requires Synced(S1) && Synced(S2) && S1.board == S2.board
    ensures S1 == S2
  {
    forall t ensures Get(S1.whitePieces, t) == Get(S2.whitePieces, t) {
      assert Get(PiecesOf(S1, White), t) == Get(PiecesOf(S2, White), t);
    }
    forall t ensures Get(S1.blackPieces, t) == Get(S2.blackPieces, t) {
      assert Get(PiecesOf(S1, Black), t) == Get(PiecesOf(S2, Black), t);
    }
    IndexExtensionality(S1.whitePieces, S2.whitePieces);
    IndexExtensionality(S1.blackPieces, S2.blackPieces);
  }

  // ---------------------------------------------------------------------
  // Make keeps I1

  lemma MakePromotionSynced(P: Position, m: Move)
    requires Synced(P.store) && WellFormed(P.store) && Applicable(P, m) && m.kind == Promotion
    ensures Synced(MakePromotion(P.store, P.colourToMove, m))
  {
    MoverFacts(P, m);
    RelocateSynced(P.store, P.colourToMove, Pawn, PromotionOf(m), m.original, m.target, m.targetValue,
                   Encode(PromotionOf(m), P.colourToMove));
  }

  lemma MakeCastlingSynced(P: Position, m: Move)
    requires Synced(P.store) && WellFormed(P.store) && Applicable(P, m) && m.kind == Castling
    ensures Synced(MakeCastling(P.store, P.colourToMove, m, Cell(P, m.original)))
  {
    var S, c, o, t := P.store, P.colourToMove, m.original, m.target;
    var mover := Cell(P, o);
    MoverFacts(P, m);
    EncodeMatches(King, c, Rook, c);
    var s1 := Relocate(S, c, Rook, Rook, RookFrom(t), RookTo(t), 0, Encode(Rook, c));
    RelocateSynced(S, c, Rook, Rook, RookFrom(t), RookTo(t), 0, Encode(Rook, c));
    assert CellOf(s1.board, o) == mover && CellOf(s1.board, t) == 0;
    RelocateSynced(s1, c, King, King, o, t, 0, mover);
  }

  lemma MakeOtherSynced(P: Position, m: Move)
    requires Synced(P.store) && WellFormed(P.store) && Applicable(P, m)
    requires m.kind == Normal || m.kind == EnPassant
    ensures Synced(MakeOther(P.store, P.colourToMove, m, Cell(P, m.original)))
  {
    var S, c, o, t := P.store, P.colourToMove, m.original, m.target;
    var opp := FlipColour(c);
    var mover := Cell(P, o);
    MoverFacts(P, m);
    var s1 := Relocate(S, c, KindOf(mover), KindOf(mover), o, t, m.targetValue, mover);
    RelocateSynced(S, c, KindOf(mover), KindOf(mover), o, t, m.targetValue, mover);
    if m.kind == EnPassant {
      var cs := CapturedSquare(m);
      EncodeMatches(Pawn, opp, Pawn, c);
      assert CellOf(s1.board, cs) == Encode(Pawn, opp);
      ClearSquareSynced(s1, opp, Pawn, cs);
    }
  }

  /** `__makeMove` keeps every cell empty or a piece. */
  lemma MakeWellFormed(P: Position, m: Move)
    requires WellFormed(P.store) && Applicable(P, m)
    ensures WellFormed(Make(P, m).store)
  {
    var S, c := P.store, P.colourToMove;
    var mover := Cell(P, m.original);
    var S' := Make(P, m).store;
    EncodeDecode(PromotionOf(m), c);
    EncodeDecode(Rook, c);
    forall sq | InBounds(sq) ensures ValidCell(CellOf(S'.board, sq)) {
      assert CellOf(S'.board, sq) == CellOf(S.board, sq) || CellOf(S'.board, sq) == 0
          || CellOf(S'.board, sq) == mover || CellOf(S'.board, sq) == Encode(PromotionOf(m), c)
          || CellOf(S'.board, sq) == Encode(Rook, c);
    }
  }

  /** `__makeMove` keeps I1 and well-formed cells for every move that fits the position. */
  lemma MakeSynced(P: Position, m: Move)
    requires Synced(P.store) && WellFormed(P.store) && Applicable(P, m)
    ensures Synced(Make(P, m).store) && WellFormed(Make(P, m).store)
  {
    match m.kind {
      case Promotion => MakePromotionSynced(P, m);
      case Castling => MakeCastlingSynced(P, m);
      case _ => MakeOtherSynced(P, m);
    }
    MakeWellFormed(P, m);
  }

  // ---------------------------------------------------------------------
  // Unmake undoes make

  /** The store half of undoing a normal or en-passant move. */
  lemma UndoOther(P: Position, m: Move)
    requires Synced(P.store) && WellFormed(P.store) && Applicable(P, m)
    requires m.kind == Normal || m.kind == EnPassant
    ensures var mover := Cell(P, m.original);
            UnmakeOther(MakeOther(P.store, P.colourToMove, m, mover), P.colourToMove, m, mover) == P.store
  {
    var S, c, o, t := P.store, P.colourToMove, m.original, m.target;
    var opp := FlipColour(c);
    var mover := Cell(P, o);
    var k := KindOf(mover);
    var cs := CapturedSquare(m);
    MoverFacts(P, m);
    MakeOtherSynced(P, m);
    EncodeMatches(Pawn, opp, Pawn, c);
    var q := MakeOther(S, c, m, mover);
    var u1 := Relocate(q, c, k, k, t, o, 0, mover);
    var u2 := RestoreCaptured(u1, c, m);
    var u := UnmakeOther(q, c, m, mover);
    assert CellOf(q.board, t) == mover && CellOf(q.board, o) == 0;
    RelocateSynced(q, c, k, k, t, o, 0, mover);
    if m.targetValue != 0 {
      PlaceSquareSynced(u1, opp, KindOf(m.targetValue), t, m.targetValue);
    }
    if m.kind == EnPassant {
      assert CellOf(u2.board, cs) == 0;
      PlaceSquareSynced(u2, opp, Pawn, cs, Encode(Pawn, opp));
    }
    forall sq | InBounds(sq) ensures CellOf(u.board, sq) == CellOf(S.board, sq) {
      if m.kind == EnPassant && sq == cs {
      } else if sq == o || sq == t {
      } else {
        assert CellOf(q.board, sq) == CellOf(S.board, sq);
      }
    }
    GridExtensionality(u.board, S.board);
    SyncedUnique(u, S);
  }

  /** The store half of undoing a promotion. */
  lemma UndoPromotion(P: Position, m: Move)
    requires Synced(P.store) && WellFormed(P.store) && Applicable(P, m) && m.kind == Promotion
    ensures UnmakePromotion(MakePromotion(P.store, P.colourToMove, m), P.colourToMove, m) == P.store
  {
    var S, c, o, t := P.store, P.colourToMove, m.original, m.target;
    var opp := FlipColour(c);
    var promo := PromotionOf(m);
    MoverFacts(P, m);
    MakePromotionSynced(P, m);
    var q := MakePromotion(S, c, m);
    var u1 := Relocate(q, c, promo, Pawn, t, o, 0, Encode(Pawn, c));
    var u := UnmakePromotion(q, c, m);
    assert CellOf(q.board, t) == Encode(promo, c) && CellOf(q.board, o) == 0;
    RelocateSynced(q, c, promo, Pawn, t, o, 0, Encode(Pawn, c));
    if m.targetValue != 0 {
      PlaceSquareSynced(u1, opp, KindOf(m.targetValue), t, m.targetValue);
    }
    assert Cell(P, o) == Encode(Pawn, c);
    forall sq | InBounds(sq) ensures CellOf(u.board, sq) == CellOf(S.board, sq) {
      if sq != o && sq != t {
        assert CellOf(q.board, sq) == CellOf(S.board, sq);
      }
    }
    GridExtensionality(u.board, S.board);
    SyncedUnique(u, S);
  }

  /** The store half of undoing a castling move. */
  lemma UndoCastling(P: Position, m: Move)
    requires Synced(P.store) && WellFormed(P.store) && Applicable(P, m) && m.kind == Castling
    ensures var mover := Cell(P, m.original);
            UnmakeCastling(MakeCastling(P.store, P.colourToMove, m, mover), P.colourToMove, m, mover) == P.store
  {
    var mover := Cell(P, m.original);
    MoverFacts(P, m);
    assert KindOf(mover) == King;
    CastlingRoundTrip(P.store, P.colourToMove, m, mover);
  }

  /** The castling round trip on a store whose king, rook and empty squares are in place. */
  lemma CastlingRoundTrip(S: Store, c: Colour, m: Move, mover: nat)
    requires Synced(S) && InBounds(m.original) && InBounds(m.target) && m.original != m.target
    requires m.target.1 == 6 || m.target.1 == 2
    requires mover == Encode(King, c) && CellOf(S.board, m.original) == mover
    requires CellOf(S.board, m.target) == 0
    requires CellOf(S.board, RookFrom(m.target)) == Encode(Rook, c) && CellOf(S.board, RookTo(m.target)) == 0
    ensures UnmakeCastling(MakeCastling(S, c, m, mover), c, m, mover) == S
  {
    var u := UnmakeCastling(MakeCastling(S, c, m, mover), c, m, mover);
    CastlingBoardRoundTrip(S, c, m, mover);
    CastlingRoundTripSynced(S, c, m, mover);
    SyncedUnique(u, S);
  }

  /** The grid half of the castling round trip. */
  lemma CastlingBoardRoundTrip(S: Store, c: Colour, m: Move, mover: nat)
    requires Shaped(S.board) && InBounds(m.original) && InBounds(m.target) && m.original != m.target
    requires m.target.1 == 6 || m.target.1 == 2
    requires mover == Encode(King, c) && CellOf(S.board, m.original) == mover
    requires CellOf(S.board, m.target) == 0
    requires CellOf(S.board, RookFrom(m.target)) == Encode(Rook, c) && CellOf(S.board, RookTo(m.target)) == 0
    ensures UnmakeCastling(MakeCastling(S, c, m, mover), c, m, mover).board == S.board
  {
    var o, t := m.original, m.target;
    var rook := Encode(Rook, c);
    EncodeMatches(King, c, Rook, c);
    var s1 := Relocate(S, c, Rook, Rook, RookFrom(t), RookTo(t), 0, rook);
    var q := Relocate(s1, c, King, King, o, t, 0, mover);
    var u1 := Relocate(q, c, King, King, t, o, 0, mover);
    var u := Relocate(u1, c, Rook, Rook, RookTo(t), RookFrom(t), 0, rook);
    assert u == UnmakeCastling(MakeCastling(S, c, m, mover), c, m, mover);
    forall sq | InBounds(sq) ensures CellOf(u.board, sq) == CellOf(S.board, sq) {
      if sq != o && sq != t && sq != RookFrom(t) && sq != RookTo(t) {
        assert CellOf(u1.board, sq) == CellOf(q.board, sq) == CellOf(s1.board, sq);
      }
    }
    GridExtensionality(u.board, S.board);
  }

  /** Each of the four relocations of a castling round trip keeps I1. */
  lemma CastlingRoundTripSynced(S: Store, c: Colour, m: Move, mover: nat)
    requires Synced(S) && InBounds(m.original) && InBounds(m.target) && m.original != m.target
    requires m.target.1 == 6 || m.target.1 == 2
    requires mover == Encode(King, c) && CellOf(S.board, m.original) == mover
    requires CellOf(S.board, m.target) == 0
    requires CellOf(S.board, RookFrom(m.target)) == Encode(Rook, c) && CellOf(S.board, RookTo(m.target)) == 0
    ensures Synced(UnmakeCastling(MakeCastling(S, c, m, mover), c, m, mover))
  {
    CastlingMakeHalf(S, c, m, mover);
    CastlingMakeCells(S, c, m, mover);
    CastlingUnmakeHalf(MakeCastling(S, c, m, mover), c, m, mover);
  }

  lemma CastlingMakeHalf(S: Store, c: Colour, m: Move, mover: nat)
    requires Synced(S) && InBounds(m.original) && InBounds(m.target) && m.original != m.target
    requires m.target.1 == 6 || m.target.1 == 2
    requires mover == Encode(King, c) && CellOf(S.board, m.original) == mover
    requires CellOf(S.board, m.target) == 0
    requires CellOf(S.board, RookFrom(m.target)) == Encode(Rook, c) && CellOf(S.board, RookTo(m.target)) == 0
    ensures Synced(MakeCastling(S, c, m, mover))
  {
    var o, t := m.original, m.target;
    var rook := Encode(Rook, c);
    EncodeMatches(King, c, Rook, c);
    var s1 := Relocate(S, c, Rook, Rook, RookFrom(t), RookTo(t), 0, rook);
    RelocateSynced(S, c, Rook, Rook, RookFrom(t), RookTo(t), 0, rook);
    assert CellOf(s1.board, o) == mover && CellOf(s1.board, t) == 0;
    RelocateSynced(s1, c, King, King, o, t, 0, mover);
  }

  /** Where the king and the rook stand after castling. */
  lemma CastlingMakeCells(S: Store, c: Colour, m: Move, mover: nat)
    requires Shaped(S.board) && InBounds(m.original) && InBounds(m.target) && m.original != m.target
    requires m.target.1 == 6 || m.target.1 == 2
    requires mover == Encode(King, c) && CellOf(S.board, m.original) == mover
    requires CellOf(S.board, m.target) == 0
    requires CellOf(S.board, RookFrom(m.target)) == Encode(Rook, c) && CellOf(S.board, RookTo(m.target)) == 0
    ensures var q := MakeCastling(S, c, m, mover);
            CellOf(q.board, m.target) == mover && CellOf(q.board, m.original) == 0
            && CellOf(q.board, RookTo(m.target)) == Encode(Rook, c) && CellOf(q.board, RookFrom(m.target)) == 0
    ensures m.original != RookFrom(m.target) && m.original != RookTo(m.target)
  {
    EncodeMatches(King, c, Rook, c);
    var s1 := Relocate(S, c, Rook, Rook, RookFrom(m.target), RookTo(m.target), 0, Encode(Rook, c));
    assert CellOf(s1.board, m.original) == mover && CellOf(s1.board, m.target) == 0;
  }

  lemma CastlingUnmakeHalf(q: Store, c: Colour, m: Move, mover: nat)
    requires Synced(q) && InBounds(m.original) && InBounds(m.target) && m.original != m.target
    requires m.target.1 == 6 || m.target.1 == 2
    requires mover == Encode(King, c) && CellOf(q.board, m.target) == mover && CellOf(q.board, m.original) == 0
    requires CellOf(q.board, RookTo(m.target)) == Encode(Rook, c) && CellOf(q.board, RookFrom(m.target)) == 0
    requires m.original != RookFrom(m.target) && m.original != RookTo(m.target)
    ensures Synced(UnmakeCastling(q, c, m, mover))
  {
    var o, t := m.original, m.target;
    var rook := Encode(Rook, c);
    EncodeMatches(King, c, Rook, c);
    var u1 := Relocate(q, c, King, King, t, o, 0, mover);
    RelocateSynced(q, c, King, King, t, o, 0, mover);
    assert CellOf(u1.board, RookTo(t)) == rook && CellOf(u1.board, RookFrom(t)) == 0;
    RelocateSynced(u1, c, Rook, Rook, RookTo(t), RookFrom(t), 0, rook);
  }

  /** Unmaking restores the castling and moved flags that making changed,
      provided the flags were consistent before. */
  lemma UndoRights(R: Rights, c: Colour, mover: nat, o: Square)
    requires RightsConsistent(R) && IsColour(mover, c)
    ensures var R' := DisableCastling(R, c, mover, o);
            (if InitialFlag(R, mover, o) then RestoreCastling(R', c, mover, o) else R') == R
  {
    if IsType(mover, King) {
      UndoKingRights(R, c, mover, o);
    } else if IsType(mover, Rook) {
      UndoRookRights(R, c, mover, o);
    }
  }

  lemma UndoKingRights(R: Rights, c: Colour, mover: nat, o: Square)
    requires RightsConsistent(R) && IsColour(mover, c) && IsType(mover, King)
    ensures InitialFlag(R, mover, o) == !KingMovedFlag(R, c)
    ensures var R' := DisableCastling(R, c, mover, o);
            (if InitialFlag(R, mover, o) then RestoreCastling(R', c, mover, o) else R') == R
  {
    if c == White {
      assert IsColour(mover, White);
    } else {
      assert !IsColour(mover, White);
    }
  }

  lemma UndoRookRights(R: Rights, c: Colour, mover: nat, o: Square)
    requires RightsConsistent(R) && IsColour(mover, c) && IsType(mover, Rook)
    ensures var R' := DisableCastling(R, c, mover, o);
            (if InitialFlag(R, mover, o) then RestoreCastling(R', c, mover, o) else R') == R
  {
    if c == White {
      assert IsColour(mover, White);
    } else {
      assert !IsColour(mover, White);
    }
  }

  /** Making a move keeps each castling flag equal to "neither the king nor
      that rook has moved". */
  lemma DisableKeepsConsistent(R: Rights, c: Colour, mover: nat, o: Square)
    requires RightsConsistent(R)
    ensures RightsConsistent(DisableCastling(R, c, mover, o))
  {
    if IsType(mover, King) {
    } else if IsType(mover, Rook) {
      if c == White {
        if o.1 == 7 {
          assert DisableCastling(R, c, mover, o) == R.(wKRookMoved := true, wKingCastle := false);
        } else if o.1 == 0 {
          assert DisableCastling(R, c, mover, o) == R.(wQRookMoved := true, wQueenCastle := false);
        }
      } else {
        if o.1 == 7 {
          assert DisableCastling(R, c, mover, o) == R.(bKRookMoved := true, bKingCastle := false);
        } else if o.1 == 0 {
          assert DisableCastling(R, c, mover, o) == R.(bQRookMoved := true, bQueenCastle := false);
        }
      }
    }
  }

  /** Making a move that fits a consistent position gives a consistent position. */
  lemma MakeConsistent(P: Position, m: Move)
    requires Consistent(P) && Applicable(P, m)
    ensures Consistent(Make(P, m))
  {
    MakeSynced(P, m);
    DisableKeepsConsistent(P.rights, P.colourToMove, Cell(P, m.original), m.original);
  }

  /** The moving piece is on the target after making the move. */
  lemma MoverOnTarget(P: Position, m: Move)
    requires WellFormed(P.store) && Applicable(P, m)
    ensures Cell(Make(P, m), m.target) == if m.kind == Promotion then Encode(PromotionOf(m), P.colourToMove) else Cell(P, m.original)
  {
    var S, c, o, t := P.store, P.colourToMove, m.original, m.target;
    var mover := Cell(P, o);
    if m.kind == Castling {
      var s1 := Relocate(S, c, Rook, Rook, RookFrom(t), RookTo(t), 0, Encode(Rook, c));
      assert Shaped(s1.board);
    } else if m.kind != Promotion {
      var k := KindOf(mover);
      var s1 := Relocate(S, c, k, k, o, t, m.targetValue, mover);
      assert CellOf(s1.board, t) == mover;
      if m.kind == EnPassant {
        assert CapturedSquare(m) != t by {
          EncodeMatches(Pawn, FlipColour(c), Pawn, c);
        }
      }
    }
  }

  /** The store half of unmaking after making. */
  lemma UnmakeAfterMakeStore(P: Position, m: Move)
    requires Synced(P.store) && WellFormed(P.store) && Applicable(P, m)
    ensures Unmake(Make(P, m), m).store == P.store
  {
    var c := P.colourToMove;
    var mover := Cell(P, m.original);
    var Q := Make(P, m);
    FlipInvolution(c);
    assert FlipColour(Q.colourToMove) == c;
    MoverOnTarget(P, m);
    match m.kind {
      case Promotion =>
        assert Q.store == MakePromotion(P.store, c, m);
        UndoPromotion(P, m);
      case Castling =>
        assert Q.store == MakeCastling(P.store, c, m, mover);
        UndoCastling(P, m);
      case _ =>
        assert Q.store == MakeOther(P.store, c, m, mover);
        UndoOther(P, m);
    }
  }

  /** The flag half of unmaking after making. */
  lemma UnmakeAfterMakeRights(P: Position, m: Move)
    requires WellFormed(P.store) && Applicable(P, m) && RightsConsistent(P.rights)
    ensures Unmake(Make(P, m), m).rights == P.rights
  {
    var c := P.colourToMove;
    var mover := Cell(P, m.original);
    FlipInvolution(c);
    MoverOnTarget(P, m);
    if m.kind == Promotion {
      assert !InitialFlag(P.rights, mover, m.original);
    } else {
      UndoRights(P.rights, c, mover, m.original);
    }
  }

  /** Unmaking a move right after making it gives back the position it was
      made in, for every move that fits the position. */
  lemma UnmakeAfterMake(P: Position, m: Move)
    requires Synced(P.store) && WellFormed(P.store) && Applicable(P, m) && RightsConsistent(P.rights)
    ensures Unmake(Make(P, m), m) == P
  {
    UnmakeAfterMakeStore(P, m);
    UnmakeAfterMakeRights(P, m);
    FlipInvolution(P.colourToMove);
  }

  // ---------------------------------------------------------------------
  // The flags a move changes

  function KingMovedFlag(R: Rights, c: Colour): bool {
    if c == White then R.wKingMoved else R.bKingMoved
  }

  /** The five flags of one colour: king moved, king-side rook moved,
      queen-side rook moved, king-side castling, queen-side castling. */
  datatype SideRights = SideRights(kingMoved: bool, kRookMoved: bool, qRookMoved: bool,
                                   kingSide: bool, queenSide: bool)

  function SideOf(R: Rights, c: Colour): SideRights {
    if c == White then SideRights(R.wKingMoved, R.wKRookMoved, R.wQRookMoved, R.wKingCastle, R.wQueenCastle)
    else SideRights(R.bKingMoved, R.bKRookMoved, R.bQRookMoved, R.bKingCastle, R.bQueenCastle)
  }

  /** The ten flags are the five of each colour. */
  lemma SidesDetermineRights(R1: Rights, R2: Rights)
    ensures R1 == R2 <==> SideOf(R1, White) == SideOf(R2, White) && SideOf(R1, Black) == SideOf(R2, Black)
  {
  }

  /** "Disabling Castling" in `__makeMove`: a king move marks that colour's king
      as moved and clears both of its castling flags; a rook leaving file 7 or
      file 0 marks that rook as moved and clears that side's flag; the
      mover's other flags and all five of the opponent's never change, and a
      move of any other piece, or of a rook from another file, changes no flag. */
  lemma MakeDisablesCastling(P: Position, m: Move)
    requires m.kind != Promotion
    ensures var c, mover := P.colourToMove, Cell(P, m.original);
            var before, after := SideOf(P.rights, c), SideOf(Make(P, m).rights, c);
            && (IsType(mover, King) ==>
                  after == before.(kingMoved := true, kingSide := false, queenSide := false))
            && (IsType(mover, Rook) && m.original.1 == 7 ==>
                  after == before.(kRookMoved := true, kingSide := false))
            && (IsType(mover, Rook) && m.original.1 == 0 ==>
                  after == before.(qRookMoved := true, queenSide := false))
            && (!IsType(mover, King) && !(IsType(mover, Rook) && (m.original.1 == 7 || m.original.1 == 0)) ==>
                  Make(P, m).rights == P.rights)
            && SideOf(Make(P, m).rights, FlipColour(c)) == SideOf(P.rights, FlipColour(c))
  {
  }

  /** A promotion changes no flag. */
  lemma PromotionKeepsRights(P: Position, m: Move)
    requires m.kind == Promotion
    ensures Make(P, m).rights == P.rights
  {
  }
}
