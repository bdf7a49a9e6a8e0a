/** The `Board` class: the 8 x 8 grid as an array updated in place, the two
    per-colour piece indexes, the castling and moved flags, the en-passant
    square, the side to move and the game state. Every method is proved
    against the functions on positions: `State()` is the position the fields
    hold, and each method says what it does to it. */
module GameBoard {

  import opened Wrappers
  import opened Pieces
  import opened Squares
  import opened Positions
  import opened Transition
  import opened TransitionLemmas
  import opened Threats
  import opened Generation
  import opened GenerationLemmas
  import opened Fen

  class Board {
    var board: array2<nat>
    /** The contents of `board`, as a value. */
    ghost var grid: seq<seq<nat>>
    var whitePieces: Index
    var blackPieces: Index
    /** The four castling flags and the six moved flags, under their own names
        (`rights.wKingCastle`, ..., `rights.bQRookMoved`). */
    var rights: Rights
    var enPassant: Option<Square>
    var colourToMove: Colour
    var gameState: int
    var halfMove: string
    var fullMove: string

    /** The position the fields hold. */
    ghost function State(): Position
      reads this
    {
      Position(Store(grid, whitePieces, blackPieces), rights, enPassant, colourToMove, gameState)
    }

    /** The array is 8 x 8 and holds `grid`. */
    ghost predicate Mirror()
      reads this, board
    {
      Mirrors(board, grid)
    }

    /** The board invariants: the array mirrors the grid, the indexes agree
        with the grid (I1), every cell is valid and the castling flags agree
        with the moved flags. */
    ghost predicate Valid()
      reads this, board
    {
      Mirror() && Consistent(State())
    }

    // -------------------------------------------------------------------
    // Construction

    /** `Board(initialState)` on the fields `renderFEN` read: the grid goes into
        a fresh array, the indexes are built from it, the game is running. */
    constructor (f: FenFields)
      requires Shaped(f.board) && forall sq :: ValidCell(CellOf(f.board, sq))
      ensures fresh(board) && Valid()
      ensures grid == f.board && enPassant == f.enPassant
      ensures rights == RightsFromCastling(f.castling)
      ensures colourToMove == (if f.whiteToMove then White else Black)
      ensures gameState == 0 && halfMove == f.halfMove && fullMove == f.fullMove
    {
      board := new nat[8, 8]((i, j) requires 0 <= i < 8 && 0 <= j < 8 => f.board[i][j]);
      grid := f.board;
      rights := RightsFromCastling(f.castling);
      enPassant := f.enPassant;
      colourToMove := if f.whiteToMove then White else Black;
      gameState := 0;
      halfMove := f.halfMove;
      fullMove := f.fullMove;
      whitePieces := map[];
      blackPieces := map[];
      new;
      assert WellFormed(Store(grid, whitePieces, blackPieces));
      var w, b := FindAllPiecePositions();
      whitePieces := w;
      blackPieces := b;
    }

    /** `findAllPiecePositions`: one scan of the grid, row by row, filling
        the two indexes; the indexes it returns satisfy I1 for the grid. */
    method FindAllPiecePositions() returns (white: Index, black: Index)
      requires Mirror() && WellFormed(Store(grid, whitePieces, blackPieces))
      ensures Synced(Store(grid, white, black))
    {
      white := map[Pawn := {}, Knight := {}, Bishop := {}, Rook := {}, Queen := {}, King := {}];
      black := map[Pawn := {}, Knight := {}, Bishop := {}, Rook := {}, Queen := {}, King := {}];
      forall t: PieceKind ensures t in white && t in black {
        match t
        case Pawn => case Knight => case Bishop => case Rook => case Queen => case King =>
      }
      forall t: PieceKind ensures Get(white, t) == ScannedWith(grid, t, White, 0, 0) && Get(black, t) == ScannedWith(grid, t, Black, 0, 0) {
        ScanEnds(grid, t, White);
        ScanEnds(grid, t, Black);
      }
      var rank := 0;
      while rank < 8
        invariant 0 <= rank <= 8
        invariant IndexTotal(white) && IndexTotal(black)
        invariant forall t :: Get(white, t) == ScannedWith(grid, t, White, rank, 0)
        invariant forall t :: Get(black, t) == ScannedWith(grid, t, Black, rank, 0)
      {
        var file := 0;
        while file < 8
          invariant 0 <= file <= 8
          invariant IndexTotal(white) && IndexTotal(black)
          invariant forall t :: Get(white, t) == ScannedWith(grid, t, White, rank, file)
          invariant forall t :: Get(black, t) == ScannedWith(grid, t, Black, rank, file)
        {
          var cell := board[rank, file];
          var sq := (7 - rank, file);
          assert cell == CellOf(grid, sq);
          assert ValidCell(cell);
          white, black := RecordCell(cell, sq, white, black);
          forall t: PieceKind
            ensures Get(white, t) == ScannedWith(grid, t, White, rank, file + 1)
            ensures Get(black, t) == ScannedWith(grid, t, Black, rank, file + 1)
          {
            ScanCell(grid, t, White, rank, file);
            ScanCell(grid, t, Black, rank, file);
          }
          file := file + 1;
        }
        forall t: PieceKind
          ensures Get(white, t) == ScannedWith(grid, t, White, rank + 1, 0)
          ensures Get(black, t) == ScannedWith(grid, t, Black, rank + 1, 0)
        {
          ScanRow(grid, t, White, rank);
          ScanRow(grid, t, Black, rank);
        }
        rank := rank + 1;
      }
      forall c: Colour, t: PieceKind ensures Get(PiecesOf(Store(grid, white, black), c), t) == SquaresWith(grid, t, c) {
        ScanEnds(grid, t, c);
      }
    }

    /** The body of `findAllPiecePositions`' loop: a white or black piece is
        added under its type to the index of its colour; an empty cell changes nothing. */
    method RecordCell(cell: nat, sq: Square, white: Index, black: Index) returns (white': Index, black': Index)
      requires ValidCell(cell) && IndexTotal(white) && IndexTotal(black)
      ensures IndexTotal(white') && IndexTotal(black')
      ensures forall t :: Get(white', t) == Get(white, t) + (if IsType(cell, t) && IsColour(cell, White) then {sq} else {})
      ensures forall t :: Get(black', t) == Get(black, t) + (if IsType(cell, t) && IsColour(cell, Black) then {sq} else {})
    {
      white', black' := white, black;
      match PieceColour(cell) {
        case 8 =>
          var k := KindOf(cell);
          white' := white[k := white[k] + {sq}];
        case 16 =>
          var k := KindOf(cell);
          black' := black[k := black[k] + {sq}];
        case _ =>
      }
      forall t: PieceKind
        ensures Get(white', t) == Get(white, t) + (if IsType(cell, t) && IsColour(cell, White) then {sq} else {})
        ensures Get(black', t) == Get(black, t) + (if IsType(cell, t) && IsColour(cell, Black) then {sq} else {})
      {
        CellMatches(cell, t, White);
        CellMatches(cell, t, Black);
      }
    }

    // -------------------------------------------------------------------
    // Cells and indexes

    /** `getBoardValue` */
    method GetBoardValue(sq: Square) returns (v: nat)
      requires Mirror() && InBounds(sq)
      ensures v == Cell(State(), sq)
    {
      v := board[7 - sq.0, sq.1];
    }

    /** `setBoardValue`: one cell changes, nothing else. */
    method SetBoardValue(v: nat, sq: Square)
      requires Mirror() && InBounds(sq)
      modifies this, board
      ensures halfMove == old(halfMove) && fullMove == old(fullMove)
      ensures board == old(board) && Mirror()
      ensures State() == old(State()).(store := Put(old(State()).store, sq, v))
    {
      board[7 - sq.0, sq.1] := v;
      grid := PutOn(grid, sq, v);
    }

    /** `pieces[t].add(s)` on the index of colour `c`. */
    method AddToIndex(c: Colour, t: PieceKind, s: Square)
      requires Mirror()
      modifies this
      ensures halfMove == old(halfMove) && fullMove == old(fullMove)
      ensures board == old(board) && Mirror()
      ensures State() == old(State()).(store := IndexAdd(old(State()).store, c, t, s))
    {
      if c == White {
        whitePieces := whitePieces[t := Get(whitePieces, t) + {s}];
      } else {
        blackPieces := blackPieces[t := Get(blackPieces, t) + {s}];
      }
    }

    /** `pieces[t].remove(s)` on the index of colour `c`. */
    method RemoveFromIndex(c: Colour, t: PieceKind, s: Square)
      requires Mirror()
      modifies this
      ensures halfMove == old(halfMove) && fullMove == old(fullMove)
      ensures board == old(board) && Mirror()
      ensures State() == old(State()).(store := IndexRemove(old(State()).store, c, t, s))
    {
      if c == White {
        whitePieces := whitePieces[t := Get(whitePieces, t) - {s}];
      } else {
        blackPieces := blackPieces[t := Get(blackPieces, t) - {s}];
      }
    }

    /** A piece of type `k` and colour `c` leaves `s`. */
    method Lift(c: Colour, k: PieceKind, s: Square)
      requires Mirror() && InBounds(s)
      modifies this, board
      ensures halfMove == old(halfMove) && fullMove == old(fullMove)
      ensures board == old(board) && Mirror()
      ensures State() == old(State()).(store := ClearSquare(old(State()).store, c, k, s))
    {
      RemoveFromIndex(c, k, s);
      SetBoardValue(0, s);
    }

    /** A piece of type `k` and colour `c`, with cell value `v`, enters `s`. */
    method Drop(c: Colour, k: PieceKind, s: Square, v: nat)
      requires Mirror() && InBounds(s)
      modifies this, board
      ensures halfMove == old(halfMove) && fullMove == old(fullMove)
      ensures board == old(board) && Mirror()
      ensures State() == old(State()).(store := PlaceSquare(old(State()).store, c, k, s, v))
    {
      AddToIndex(c, k, s);
      SetBoardValue(v, s);
    }

    /** A captured piece leaves `t`, the mover of type `kFrom` leaves `o`, and
        a piece of type `kTo` with value `placed` enters `t`. */
    method Shift(c: Colour, kFrom: PieceKind, kTo: PieceKind, o: Square, t: Square, captured: nat, placed: nat)
      requires Mirror() && InBounds(o) && InBounds(t)
      modifies this, board
      ensures halfMove == old(halfMove) && fullMove == old(fullMove)
      ensures board == old(board) && Mirror()
      ensures State() == old(State()).(store := Relocate(old(State()).store, c, kFrom, kTo, o, t, captured, placed))
    {
      if captured != 0 {
        Lift(FlipColour(c), KindOf(captured), t);
      }
      Lift(c, kFrom, o);
      Drop(c, kTo, t, placed);
    }

    // -------------------------------------------------------------------
    // Making and unmaking moves

    /** The PROMOTION branch of `__makeMove`. */
    method MakePromotionMove(m: Move)
      requires Mirror() && InBounds(m.original) && InBounds(m.target)
      modifies this, board
      ensures halfMove == old(halfMove) && fullMove == old(fullMove)
      ensures board == old(board) && Mirror()
      ensures State() == old(State()).(store := MakePromotion(old(State()).store, old(colourToMove), m))
    {
      var c := colourToMove;
      var promo := PromotionOf(m);
      Shift(c, Pawn, promo, m.original, m.target, m.targetValue, Encode(promo, c));
    }

    /** The CASTLING branch of `__makeMove`: first the rook, then the king. */
    method MakeCastlingMove(m: Move, mover: nat)
      requires Mirror() && InBounds(m.original) && InBounds(m.target)
      modifies this, board
      ensures halfMove == old(halfMove) && fullMove == old(fullMove)
      ensures board == old(board) && Mirror()
      ensures State() == old(State()).(store := MakeCastling(old(State()).store, old(colourToMove), m, mover))
    {
      var c, t := colourToMove, m.target;
      Shift(c, Rook, Rook, RookFrom(t), RookTo(t), 0, Encode(Rook, c));
      Shift(c, King, King, m.original, t, 0, mover);
    }

    /** The remaining branch of `__makeMove`, which also takes the pawn
        captured en passant. */
    method MakeOtherMove(m: Move, mover: nat)
      requires Mirror() && InBounds(m.original) && InBounds(m.target)
      modifies this, board
      ensures halfMove == old(halfMove) && fullMove == old(fullMove)
      ensures board == old(board) && Mirror()
      ensures State() == old(State()).(store := MakeOther(old(State()).store, old(colourToMove), m, mover))
    {
      var c := colourToMove;
      var k := KindOf(mover);
      Shift(c, k, k, m.original, m.target, m.targetValue, mover);
      if m.kind == EnPassant {
        Lift(FlipColour(c), Pawn, CapturedSquare(m));
      }
    }

    /** `__makeMove`: the position becomes `Make` of the old one, and the
        board invariants still hold. */
    method MakeMove(m: Move)
      requires Valid() && Applicable(State(), m)
      modifies this, board
      ensures halfMove == old(halfMove) && fullMove == old(fullMove)
      ensures board == old(board) && Valid()
      ensures State() == Make(old(State()), m)
    {
      ghost var P := State();
      var c := colourToMove;
      var mover := GetBoardValue(m.original);
      if m.kind == Promotion {
        MakePromotionMove(m);
      } else {
        rights := DisableCastling(rights, c, mover, m.original);
        if m.kind == Castling {
          MakeCastlingMove(m, mover);
        } else {
          MakeOtherMove(m, mover);
        }
      }
      enPassant := SkippedSquare(mover, m);
      colourToMove := FlipColour(c);
      assert State() == Make(P, m);
      MakeConsistent(P, m);
    }

    /** The PROMOTION branch of `unmakeMove` for the mover colour `c`. */
    method UnmakePromotionMove(c: Colour, m: Move)
      requires Mirror() && InBounds(m.original) && InBounds(m.target)
      modifies this, board
      ensures halfMove == old(halfMove) && fullMove == old(fullMove)
      ensures board == old(board) && Mirror()
      ensures State() == old(State()).(store := UnmakePromotion(old(State()).store, c, m))
    {
      var o, t := m.original, m.target;
      Shift(c, PromotionOf(m), Pawn, t, o, 0, Encode(Pawn, c));
      if m.targetValue != 0 {
        Drop(FlipColour(c), KindOf(m.targetValue), t, m.targetValue);
      }
    }

    /** The CASTLING branch of `unmakeMove`: first the king, then the rook. */
    method UnmakeCastlingMove(c: Colour, m: Move, mover: nat)
      requires Mirror() && InBounds(m.original) && InBounds(m.target)
      modifies this, board
      ensures halfMove == old(halfMove) && fullMove == old(fullMove)
      ensures board == old(board) && Mirror()
      ensures State() == old(State()).(store := UnmakeCastling(old(State()).store, c, m, mover))
    {
      var t := m.target;
      Shift(c, King, King, t, m.original, 0, mover);
      Shift(c, Rook, Rook, RookTo(t), RookFrom(t), 0, Encode(Rook, c));
    }

    /** The remaining branch of `unmakeMove`: the mover goes back, a captured
        piece returns, and a pawn taken en passant returns beside the target. */
    method UnmakeOtherMove(c: Colour, m: Move, mover: nat)
      requires Mirror() && InBounds(m.original) && InBounds(m.target)
      modifies this, board
      ensures halfMove == old(halfMove) && fullMove == old(fullMove)
      ensures board == old(board) && Mirror()
      ensures State() == old(State()).(store := UnmakeOther(old(State()).store, c, m, mover))
    {
      var o, t := m.original, m.target;
      var k := KindOf(mover);
      Shift(c, k, k, t, o, 0, mover);
      if m.targetValue != 0 {
        Drop(FlipColour(c), KindOf(m.targetValue), t, m.targetValue);
      }
      if m.kind == EnPassant {
        Drop(FlipColour(c), Pawn, CapturedSquare(m), Encode(Pawn, FlipColour(c)));
      }
    }

    /** `unmakeMove`: the position becomes `Unmake` of the old one. When the
        move was just made from the consistent position `before`, that
        position comes back and the board invariants hold again. */
    method UnmakeMove(m: Move, ghost before: Position)
      requires Mirror() && InBounds(m.original) && InBounds(m.target)
      modifies this, board
      ensures halfMove == old(halfMove) && fullMove == old(fullMove)
      ensures board == old(board) && Mirror()
      ensures State() == Unmake(old(State()), m)
      ensures Consistent(before) && Applicable(before, m) && old(State()) == Make(before, m) ==> State() == before && Valid()
    {
      ghost var P := State();
      UnmakeSteps(m);
      if Consistent(before) && Applicable(before, m) && P == Make(before, m) {
        UnmakeAfterMake(before, m);
      }
    }

    /** The steps of `unmakeMove`: the flags, the pieces and the en-passant square. */
    method UnmakeSteps(m: Move)
      requires Mirror() && InBounds(m.original) && InBounds(m.target)
      modifies this, board
      ensures halfMove == old(halfMove) && fullMove == old(fullMove)
      ensures board == old(board) && Mirror()
      ensures State() == Unmake(old(State()), m)
    {
      ghost var P := State();
      colourToMove := FlipColour(colourToMove);
      var c := colourToMove;
      var mover := GetBoardValue(m.target);
      assert mover == Cell(P, m.target);
      if m.initialMove {
        rights := RestoreCastling(rights, c, mover, m.original);
      }
      assert State().store == P.store;
      if m.kind == Promotion {
        UnmakePromotionMove(c, m);
      } else if m.kind == Castling {
        UnmakeCastlingMove(c, m, mover);
      } else {
        UnmakeOtherMove(c, m, mover);
      }
      enPassant := m.enPassantBefore;
      assert State() == Unmake(P, m);
    }
  
    // -------------------------------------------------------------------
    // Threats

    /** The knight part of `threatChecker`: an opponent knight a knight's jump away. */
    method KnightThreat(p: Square, ally: Colour) returns (hit: bool)
      requires Mirror()
      ensures hit == KnightAttack(State(), p, ally)
    {
      var i := 0;
      while i < 8
        invariant 0 <= i <= 8
        invariant forall j :: 0 <= j < i ==> !KnightHit(State(), p, ally, j)
      {
        var newPos := PosChange(p, KnightOffsets[i], 1);
        if InBounds(newPos) {
          var v := GetBoardValue(newPos);
          if v == Encode(Knight, FlipColour(ally)) {
            assert KnightHit(State(), p, ally, i);
            return true;
          }
        }
        i := i + 1;
      }
      return false;
    }

    /** One ray of `threatChecker`: walk outwards until the edge or a piece;
        an opponent piece that moves along this ray is a threat. */
    method RayThreat(p: Square, ally: Colour, x: nat) returns (hit: bool)
      requires Mirror() && x < 8
      ensures hit == RayHit(State(), p, ally, x, 1)
    {
      var multiplier := 1;
      while multiplier <= 7
        invariant 1 <= multiplier <= 8
        invariant RayHit(State(), p, ally, x, multiplier) == RayHit(State(), p, ally, x, 1)
        decreases 8 - multiplier
      {
        var newPos := PosChange(p, RayOffsets[x], multiplier);
        if !InBounds(newPos) {
          return false;
        }
        var newPosPiece := GetBoardValue(newPos);
        if IsColour(newPosPiece, ally) {
          return false;
        }
        if IsColour(newPosPiece, FlipColour(ally)) {
          return RayAttacker(newPosPiece, x, multiplier);
        }
        multiplier := multiplier + 1;
      }
      return false;
    }

    /** The sliding-piece and king part of `threatChecker`, over all eight directions. */
    method SlidingThreat(p: Square, ally: Colour) returns (hit: bool)
      requires Mirror()
      ensures hit == RayAttack(State(), p, ally)
    {
      var x := 0;
      while x < 8
        invariant 0 <= x <= 8
        invariant forall y :: 0 <= y < x ==> !RayHit(State(), p, ally, y, 1)
      {
        hit := RayThreat(p, ally, x);
        if hit {
          return;
        }
        x := x + 1;
      }
      return false;
    }

    /** The pawn part of `threatChecker`: an opponent pawn on one of the two
        squares from which it captures onto `p`. */
    method PawnThreat(p: Square, ally: Colour) returns (hit: bool)
      requires Mirror()
      ensures hit == PawnAttack(State(), p, ally)
    {
      var startIndex := PawnBase(ally);
      var j := 0;
      while j < 2
        invariant 0 <= j <= 2
        invariant forall i :: 0 <= i < j ==> !PawnHit(State(), p, ally, i)
      {
        var newPos := PosChange(p, PawnOffsets[startIndex + j], 1);
        if InBounds(newPos) {
          var newPosPiece := GetBoardValue(newPos);
          if newPosPiece == Encode(Pawn, FlipColour(ally)) {
            assert PawnHit(State(), p, ally, j);
            return true;
          }
        }
        j := j + 1;
      }
      return false;
    }

    /** The three scans of `threatChecker`, in its order. */
    method AttackedAt(p: Square, ally: Colour) returns (hit: bool)
      requires Mirror()
      ensures hit == Attacked(State(), p, ally)
    {
      var knight := KnightThreat(p, ally);
      if knight {
        return true;
      }
      var sliding := SlidingThreat(p, ally);
      if sliding {
        return true;
      }
      hit := PawnThreat(p, ally);
    }

    /** `threatChecker(pos, ally, move)`: is the watched square attacked, after
        the move when one is given? The move is made and unmade again, so the
        board ends as it started. */
    method ThreatChecker(pos: Square, ally: Colour, move: Option<Move>) returns (r: bool)
      requires Valid()
      requires move.Some? ==> Applicable(State(), move.value)
      modifies this, board
      ensures halfMove == old(halfMove) && fullMove == old(fullMove)
      ensures board == old(board) && Valid() && State() == old(State())
      ensures r == ThreatAfter(old(State()), pos, ally, move)
    {
      ghost var P := State();
      if move.None? {
        r := AttackedAt(pos, ally);
        return;
      }
      var m := move.value;
      var p := pos;
      var v := GetBoardValue(m.original);
      if IsType(v, King) {
        p := m.target;
      }
      assert p == WatchedSquare(P, pos, m);
      MakeMove(m);
      r := AttackedAt(p, ally);
      UnmakeMove(m, P);
    }

    /** `curKingThreat(move)`: is some king of the side to move attacked, after the move if given? */
    method CurKingThreat(move: Option<Move>) returns (r: bool)
      requires Valid()
      requires move.Some? ==> Applicable(State(), move.value)
      modifies this, board
      ensures halfMove == old(halfMove) && fullMove == old(fullMove)
      ensures board == old(board) && Valid() && State() == old(State())
      ensures r == KingThreat(old(State()), move)
    {
      ghost var P := State();
      var kings := if colourToMove == White then Get(whitePieces, King) else Get(blackPieces, King);
      ghost var all := kings;
      while kings != {}
        invariant kings <= all && all == Get(CurrentPieces(P), King)
        invariant board == old(board) && Valid() && State() == P
        invariant halfMove == old(halfMove) && fullMove == old(fullMove)
        invariant forall k :: k in all - kings ==> !ThreatAfter(P, k, P.colourToMove, move)
        decreases |kings|
      {
        var k :| k in kings;
        var threat := ThreatChecker(k, colourToMove, move);
        if threat {
          return true;
        }
        kings := kings - {k};
      }
      return false;
    }
  
    // -------------------------------------------------------------------
    // Move generation

    /** One step of the `while multiplier <= repeat` loop of
        `__moveGeneratorHelper`: the square `multiplier` steps along direction
        `x` gives a candidate when it is on the board and not held by the side
        to move, kept when it leaves the king safe; `stop` says the scan ends
        here. */
    method ScanStep(piece: nat, pos: Square, x: nat, multiplier: nat, repeat: nat, initialMove: bool)
      returns (found: set<Move>, stop: bool)
      requires Valid() && InBounds(pos) && x < 8 && 1 <= multiplier <= repeat
      requires piece == Cell(State(), pos) && IsColour(piece, colourToMove)
      requires initialMove == InitialFlag(rights, piece, pos)
      modifies this, board
      ensures halfMove == old(halfMove) && fullMove == old(fullMove)
      ensures board == old(board) && Valid() && State() == old(State())
      ensures found + (if stop then {} else RayMoves(old(State()), piece, pos, x, multiplier + 1, repeat))
              == RayMoves(old(State()), piece, pos, x, multiplier, repeat)
    {
      ghost var P := State();
      found := {};
      var newPos := PosChange(pos, Offsets(piece)[x], multiplier);
      if !InBounds(newPos) {
        return {}, true;
      }
      var v := GetBoardValue(newPos);
      if IsColour(v, colourToMove) {
        return {}, true;
      }
      var newMove := Move(pos, newPos, v, Normal, None, initialMove, enPassant);
      RaySquareMoves(piece, pos, x, multiplier);
      StepApplicable(P, piece, pos, newPos, initialMove);
      var threat := CurKingThreat(Some(newMove));
      if !threat {
        found := {newMove};
      }
      stop := IsColour(v, FlipColour(colourToMove));
    }

    /** The `while multiplier <= repeat` loop of `__moveGeneratorHelper` for direction `x`. */
    method ScanDirection(piece: nat, pos: Square, x: nat, repeat: nat, initialMove: bool) returns (found: set<Move>)
      requires Valid() && InBounds(pos) && x < 8
      requires piece == Cell(State(), pos) && IsColour(piece, colourToMove)
      requires initialMove == InitialFlag(rights, piece, pos)
      modifies this, board
      ensures halfMove == old(halfMove) && fullMove == old(fullMove)
      ensures board == old(board) && Valid() && State() == old(State())
      ensures found == RayMoves(old(State()), piece, pos, x, 1, repeat)
    {
      ghost var P := State();
      found := {};
      var multiplier := 1;
      while multiplier <= repeat
        invariant 1 <= multiplier
        invariant board == old(board) && Valid() && State() == P
        invariant halfMove == old(halfMove) && fullMove == old(fullMove)
        invariant found + RayMoves(P, piece, pos, x, multiplier, repeat) == RayMoves(P, piece, pos, x, 1, repeat)
        decreases repeat + 1 - multiplier
      {
        var step, stop := ScanStep(piece, pos, x, multiplier, repeat, initialMove);
        ghost var later := if stop then {} else RayMoves(P, piece, pos, x, multiplier + 1, repeat);
        assert found + step + later == RayMoves(P, piece, pos, x, 1, repeat);
        found := found + step;
        if stop {
          return;
        }
        multiplier := multiplier + 1;
      }
      assert RayMoves(P, piece, pos, x, multiplier, repeat) == {};
    }

    /** `__moveGeneratorHelper(piece, pos, repeat)`: the scans of the piece's directions. */
    method MoveGeneratorHelper(piece: nat, pos: Square, repeat: nat) returns (moveList: set<Move>)
      requires Valid() && InBounds(pos)
      requires piece == Cell(State(), pos) && IsColour(piece, colourToMove)
      modifies this, board
      ensures halfMove == old(halfMove) && fullMove == old(fullMove)
      ensures board == old(board) && Valid() && State() == old(State())
      ensures moveList == HelperMoves(old(State()), piece, pos, repeat)
    {
      ghost var P := State();
      var startIndex, stopIndex := StartIndex(piece), StopIndex(piece);
      var initialMove := InitialFlag(rights, piece, pos);
      moveList := {};
      var x := startIndex;
      while x < stopIndex
        invariant startIndex <= x <= stopIndex
        invariant board == old(board) && Valid() && State() == P
        invariant halfMove == old(halfMove) && fullMove == old(fullMove)
        invariant moveList == DirMoves(P, piece, pos, startIndex, x, repeat)
      {
        var dir := ScanDirection(piece, pos, x, repeat, initialMove);
        moveList := moveList + dir;
        x := x + 1;
      }
    }

    /** A pawn move onto `sq` that leaves the king safe: the four promotions on
        the last rank, one NORMAL move elsewhere. */
    method PawnLandingMoves(piece: nat, pos: Square, sq: Square) returns (moves: set<Move>)
      requires Valid() && InBounds(pos) && InBounds(sq) && pos != sq
      requires piece == Cell(State(), pos) && IsColour(piece, colourToMove) && IsType(piece, Pawn)
      requires !IsColour(Cell(State(), sq), colourToMove)
      modifies this, board
      ensures halfMove == old(halfMove) && fullMove == old(fullMove)
      ensures board == old(board) && Valid() && State() == old(State())
      ensures moves == PawnLanding(old(State()), piece, pos, sq)
    {
      ghost var P := State();
      StepApplicable(P, piece, pos, sq, false);
      var v := GetBoardValue(sq);
      var step := Move(pos, sq, v, Normal, None, false, enPassant);
      var threat := CurKingThreat(Some(step));
      moves := {};
      if !threat {
        if OnLastRank(piece, sq) {
          moves := {Move(pos, sq, v, Promotion, Some(Bishop), false, enPassant),
                    Move(pos, sq, v, Promotion, Some(Knight), false, enPassant),
                    Move(pos, sq, v, Promotion, Some(Rook), false, enPassant),
                    Move(pos, sq, v, Promotion, Some(Queen), false, enPassant)};
        } else {
          moves := {step};
        }
      }
    }

    /** The pushes of `__moveGeneratorPawn`: one square ahead onto an empty
        square, and two from the start rank. */
    method PawnPushMoves(piece: nat, pos: Square) returns (moves: set<Move>)
      requires Valid() && InBounds(pos)
      requires piece == Cell(State(), pos) && IsColour(piece, colourToMove) && IsType(piece, Pawn)
      modifies this, board
      ensures halfMove == old(halfMove) && fullMove == old(fullMove)
      ensures board == old(board) && Valid() && State() == old(State())
      ensures moves == PawnPushes(old(State()), piece, pos)
    {
      ghost var P := State();
      EmptyHasNoColour(colourToMove);
      var change := PawnMoveOffsets[PawnStart(piece)];
      var newPos := PosChange(pos, change, 1);
      moves := {};
      if !InBounds(newPos) {
        return;
      }
      var v := GetBoardValue(newPos);
      if v != 0 {
        return;
      }
      moves := PawnLandingMoves(piece, pos, newPos);
      if OnStartRank(piece, pos) {
        var newPos2 := PosChange(newPos, change, 1);
        assert InBounds(newPos2);
        var v2 := GetBoardValue(newPos2);
        if v2 == 0 {
          StepApplicable(P, piece, pos, newPos2, false);
          var double := Move(pos, newPos2, 0, Normal, None, false, enPassant);
          var threat := CurKingThreat(Some(double));
          if !threat {
            moves := moves + {double};
          }
        }
      }
    }

    /** One diagonal of `__moveGeneratorPawn`: a capture of an opponent piece,
        or the en-passant capture onto the en-passant square. */
    method PawnCaptureMoves(piece: nat, pos: Square, j: nat) returns (moves: set<Move>)
      requires Valid() && InBounds(pos) && 1 <= j <= 2
      requires piece == Cell(State(), pos) && IsColour(piece, colourToMove) && IsType(piece, Pawn)
      modifies this, board
      ensures halfMove == old(halfMove) && fullMove == old(fullMove)
      ensures board == old(board) && Valid() && State() == old(State())
      ensures moves == PawnDiagonal(old(State()), piece, pos, j)
    {
      ghost var P := State();
      var c := colourToMove;
      var newPos := PosChange(pos, PawnMoveOffsets[PawnStart(piece) + j], 1);
      moves := {};
      if !InBounds(newPos) {
        return;
      }
      var v := GetBoardValue(newPos);
      if IsColour(v, FlipColour(c)) {
        EncodeMatches(Pawn, c, Pawn, c);
        moves := PawnLandingMoves(piece, pos, newPos);
      }
      if v == 0 && enPassant == Some(newPos) {
        var captured := GetBoardValue((pos.0, newPos.1));
        if captured == Encode(Pawn, FlipColour(c)) {
          var ep := Move(pos, newPos, 0, EnPassant, None, false, enPassant);
          var threat := CurKingThreat(Some(ep));
          if !threat {
            moves := moves + {ep};
          }
        }
      }
    }

    /** `__moveGeneratorPawn`: the pushes, then the two diagonals. */
    method MoveGeneratorPawn(piece: nat, pos: Square) returns (moveList: set<Move>)
      requires Valid() && InBounds(pos)
      requires piece == Cell(State(), pos) && IsColour(piece, colourToMove) && IsType(piece, Pawn)
      modifies this, board
      ensures halfMove == old(halfMove) && fullMove == old(fullMove)
      ensures board == old(board) && Valid() && State() == old(State())
      ensures moveList == PawnMoves(old(State()), piece, pos)
    {
      moveList := PawnPushMoves(piece, pos);
      var left := PawnCaptureMoves(piece, pos, 1);
      var right := PawnCaptureMoves(piece, pos, 2);
      moveList := moveList + left + right;
    }
  
    // -------------------------------------------------------------------
    // Castling and moveGenerator

    /** One castling block of `moveGenerator`: with the flag set, look through
        the king's moves for the step next to the king; when that square and
        the target are empty, the rook is in its corner and the target is not
        attacked, add the castling move. */
    method CastleSideMoves(piece: nat, pos: Square, steps: set<Move>, kingSide: bool) returns (moves: set<Move>)
      requires Valid()
      modifies this, board
      ensures halfMove == old(halfMove) && fullMove == old(fullMove)
      ensures board == old(board) && Valid() && State() == old(State())
      ensures moves == CastleSide(old(State()), piece, pos, steps, kingSide)
    {
      ghost var P := State();
      var r := HomeRank(piece);
      var next := if kingSide then (r, 5) else (r, 3);
      var dest := if kingSide then (r, 6) else (r, 2);
      var ally := if IsColour(piece, White) then White else Black;
      ghost var allowed := Cell(P, next) == 0 && Cell(P, dest) == 0 && !Attacked(P, dest, ally)
                           && Cell(P, RookFrom(dest)) == Encode(Rook, P.colourToMove);
      moves := {};
      if !CastleFlag(rights, piece, kingSide) {
        return;
      }
      var rest := steps;
      while rest != {}
        invariant rest <= steps
        invariant board == old(board) && Valid() && State() == P
        invariant halfMove == old(halfMove) && fullMove == old(fullMove)
        invariant (exists mv :: mv in steps - rest && mv.target == next) ==> !allowed
        decreases |rest|
      {
        var move :| move in rest;
        if move.target == next {
          var open := CastleSquaresOpen(next, dest, ally);
          if open {
            return {Move(pos, dest, 0, Castling, None, true, enPassant)};
          }
        }
        rest := rest - {move};
      }
    }

    /** The square next to the king and the king's target are empty, the rook
        stands in its corner and the target is not attacked. */
    method CastleSquaresOpen(next: Square, dest: Square, ally: Colour) returns (open: bool)
      requires Valid() && InBounds(next) && InBounds(dest) && InBounds(RookFrom(dest))
      modifies this, board
      ensures halfMove == old(halfMove) && fullMove == old(fullMove)
      ensures board == old(board) && Valid() && State() == old(State())
      ensures open <==> Cell(State(), next) == 0 && Cell(State(), dest) == 0 && !Attacked(State(), dest, ally)
                        && Cell(State(), RookFrom(dest)) == Encode(Rook, colourToMove)
    {
      var nextValue := GetBoardValue(next);
      var destValue := GetBoardValue(dest);
      var rookValue := GetBoardValue(RookFrom(dest));
      open := false;
      if nextValue == 0 && destValue == 0 && rookValue == Encode(Rook, colourToMove) {
        var attacked := ThreatChecker(dest, ally, None);
        open := !attacked;
      }
    }

    /** The castling part of `moveGenerator`: nothing while the king is in
        check, otherwise the king side and the queen side. */
    method CastlingMoveList(piece: nat, pos: Square, steps: set<Move>) returns (moves: set<Move>)
      requires Valid()
      modifies this, board
      ensures halfMove == old(halfMove) && fullMove == old(fullMove)
      ensures board == old(board) && Valid() && State() == old(State())
      ensures moves == CastlingMoves(old(State()), piece, pos, steps)
    {
      var check := CurKingThreat(None);
      moves := {};
      if !check {
        var kingSide := CastleSideMoves(piece, pos, steps, true);
        var queenSide := CastleSideMoves(piece, pos, steps, false);
        moves := kingSide + queenSide;
      }
    }

    /** `moveGenerator(piece, pos)`: None for a piece the side to move does not
        own, the piece's moves otherwise, an error for an unknown piece type. */
    method MoveGenerator(piece: nat, pos: Square) returns (r: Result<Option<set<Move>>, PieceError>)
      requires Valid() && InBounds(pos) && piece == Cell(State(), pos)
      modifies this, board
      ensures halfMove == old(halfMove) && fullMove == old(fullMove)
      ensures board == old(board) && Valid() && State() == old(State())
      ensures r == Generated(old(State()), piece, pos)
    {
      if !IsColour(piece, colourToMove) {
        return Ok(None);
      }
      if IsSliding(piece) {
        var moveList := MoveGeneratorHelper(piece, pos, 8);
        return Ok(Some(moveList));
      }
      if IsType(piece, Pawn) {
        var moveList := MoveGeneratorPawn(piece, pos);
        return Ok(Some(moveList));
      } else if IsType(piece, Knight) {
        var moveList := MoveGeneratorHelper(piece, pos, 1);
        return Ok(Some(moveList));
      } else if IsType(piece, King) {
        var moveList := MoveGeneratorHelper(piece, pos, 1);
        var castles := CastlingMoveList(piece, pos, moveList);
        return Ok(Some(moveList + castles));
      } else {
        return Err(UnknownPiece);
      }
    }
  
    // -------------------------------------------------------------------
    // generateAllMoves and confirmMove

    /** One step of `generateAllMoves`: `moveGenerator` for the piece on `piecePos`. */
    method GenerateAt(piecePos: Square) returns (r: Option<set<Move>>)
      requires Valid() && InBounds(piecePos)
      modifies this, board
      ensures halfMove == old(halfMove) && fullMove == old(fullMove)
      ensures board == old(board) && Valid() && State() == old(State())
      ensures r == GeneratedAt(old(State()), piecePos)
    {
      GeneratedOk(State(), piecePos);
      var piece := GetBoardValue(piecePos);
      var g := MoveGenerator(piece, piecePos);
      r := g.value;
    }

    /** The inner loop of `generateAllMoves`: records `moveGenerator` for
        every square of `squares`. */
    method GenerateForSquares(squares: set<Square>) returns (found: map<Square, Option<set<Move>>>)
      requires Valid() && forall s :: s in squares ==> InBounds(s)
      modifies this, board
      ensures halfMove == old(halfMove) && fullMove == old(fullMove)
      ensures board == old(board) && Valid() && State() == old(State())
      ensures found.Keys == squares
      ensures forall s :: s in found ==> found[s] == GeneratedAt(old(State()), s)
    {
      ghost var P := State();
      found := map[];
      var rest := squares;
      while rest != {}
        invariant rest <= squares
        invariant board == old(board) && Valid() && State() == P
        invariant halfMove == old(halfMove) && fullMove == old(fullMove)
        invariant found.Keys == squares - rest
        invariant forall s :: s in found ==> found[s] == GeneratedAt(P, s)
        decreases |rest|
      {
        var piecePos :| piecePos in rest;
        var r := GenerateAt(piecePos);
        found := found[piecePos := r];
        rest := rest - {piecePos};
      }
    }

    /** `generateAllMoves(colour)`: for every piece type of that colour's index
        and every square under it, what `moveGenerator` gives for the piece there. */
    method GenerateAllMoves(colour: Colour) returns (moveList: map<Square, Option<set<Move>>>)
      requires Valid()
      modifies this, board
      ensures halfMove == old(halfMove) && fullMove == old(fullMove)
      ensures board == old(board) && Valid() && State() == old(State())
      ensures moveList == AllMoves(old(State()), colour)
    {
      ghost var P := State();
      var pieces := if colour == White then whitePieces else blackPieces;
      assert pieces == PiecesOf(P.store, colour);
      moveList := map[];
      var i := 0;
      while i < |PieceOrder|
        invariant 0 <= i <= |PieceOrder|
        invariant board == old(board) && Valid() && State() == P
        invariant halfMove == old(halfMove) && fullMove == old(fullMove)
        invariant moveList.Keys == ListedAmong(pieces, PieceOrder[..i])
        invariant forall s :: s in moveList ==> moveList[s] == GeneratedAt(P, s)
      {
        ListedAmongStep(pieces, PieceOrder, i);
        var squares := Get(pieces, PieceOrder[i]);
        forall s | s in squares ensures InBounds(s) {
          SyncedMembership(P.store, colour, PieceOrder[i], s);
        }
        var found := GenerateForSquares(squares);
        moveList := moveList + found;
        i := i + 1;
      }
      ListedInOrder(pieces);
      AllMovesFromEntries(P, colour, moveList);
    }

    /** The test of `confirmMove`'s loop: some entry is a non-empty move set. */
    method AnyMoves(all: map<Square, Option<set<Move>>>) returns (found: bool)
      ensures found == exists s :: s in all && all[s].Some? && all[s].value != {}
    {
      var keys := all.Keys;
      while keys != {}
        invariant keys <= all.Keys
        invariant forall s :: s in all.Keys - keys ==> !(all[s].Some? && all[s].value != {})
        decreases |keys|
      {
        var s :| s in keys;
        if all[s].Some? && all[s].value != {} {
          return true;
        }
        keys := keys - {s};
      }
      return false;
    }

    /** `confirmMove(move)`: make the move; if the side now to move has no
        move at all, record checkmate or stalemate in `gameState`. */
    method ConfirmMove(move: Move)
      requires Valid() && Applicable(State(), move)
      modifies this, board
      ensures halfMove == old(halfMove) && fullMove == old(fullMove)
      ensures board == old(board) && Valid()
      ensures State() == Confirm(old(State()), move)
    {
      ghost var P := State();
      MakeMove(move);
      ghost var Q := State();
      var all := GenerateAllMoves(colourToMove);
      var found := AnyMoves(all);
      assert found == HasMove(Q);
      if !found {
        RecordOutcome();
      }
    }

    /** The end of `confirmMove` when no move is left: checkmate (the side not to
        move wins) when the king of the side to move is attacked, a draw otherwise. */
    method RecordOutcome()
      requires Valid()
      modifies this, board
      ensures halfMove == old(halfMove) && fullMove == old(fullMove)
      ensures board == old(board) && Valid()
      ensures State() == old(State()).(gameState := Outcome(old(State())))
    {
      var check := CurKingThreat(None);
      if check {
        gameState := if colourToMove == Black then 2 else 3;
      } else {
        gameState := 1;
      }
    }
  }

  /** The flags a new board starts with. The castling flags are the letters
      of the FEN string; a moved flag is set exactly when the castling it
      guards is unavailable, so the rights are consistent from the start. */
  function RightsFromCastling(cf: CastleFlags): (r: Rights)
    ensures RightsConsistent(r)
    ensures r.wKingCastle == cf.wKing && r.bKingCastle == cf.bKing
    ensures r.wQueenCastle == cf.wQueen && r.bQueenCastle == cf.bQueen
    ensures !r.wKingMoved <==> cf.wKing || cf.wQueen
    ensures !r.bKingMoved <==> cf.bKing || cf.bQueen
  {
    Rights(cf.wKing, cf.bKing, cf.wQueen, cf.bQueen,
           !cf.wKing && !cf.wQueen, !cf.bKing && !cf.bQueen,
           !cf.wKing, !cf.wQueen, !cf.bKing, !cf.bQueen)
  }

  /** `Board(initialState)`: the board of a FEN string, the start position
      when none is given; a string `renderFEN` rejects gives its error. */
  method NewBoard(initialState: Option<string>) returns (r: Result<Board, FenError>)
    ensures var fen := if initialState.Some? then initialState.value else StartFen;
            && (r.Err? <==> ParseFen(fen).Err?)
            && (r.Err? ==> r.error == ParseFen(fen).error)
            && (r.Ok? ==> fresh(r.value) && fresh(r.value.board) && r.value.Valid()
                          && r.value.grid == ParseFen(fen).value.board
                          && r.value.rights == RightsFromCastling(ParseFen(fen).value.castling)
                          && r.value.enPassant == ParseFen(fen).value.enPassant
                          && r.value.colourToMove == (if ParseFen(fen).value.whiteToMove then White else Black)
                          && r.value.gameState == 0
                          && r.value.halfMove == ParseFen(fen).value.halfMove
                          && r.value.fullMove == ParseFen(fen).value.fullMove)
  {
    var fen := if initialState.Some? then initialState.value else StartFen;
    var parsed := RenderFen(fen);
    if parsed.Err? {
      return Err(parsed.error);
    }
    var b := new Board(parsed.value);
    return Ok(b);
  }

  /** The order in which `findAllPiecePositions` creates the index entries. */
  const PieceOrder: seq<PieceKind> := [Pawn, Knight, Bishop, Rook, Queen, King]

  /** The squares listed under the types in `kinds`. */
  ghost function ListedAmong(idx: Index, kinds: seq<PieceKind>): set<Square> {
    set t, s | t in kinds && s in Get(idx, t) :: s
  }

  /** The value `generateAllMoves` records for square `s`. */
  ghost function GeneratedAt(P: Position, s: Square): Option<set<Move>> {
    match Generated(P, Cell(P, s), s) case Ok(r) => r case Err(_) => None
  }

  lemma ListedAmongStep(idx: Index, kinds: seq<PieceKind>, i: nat)
    requires i < |kinds|
    ensures ListedAmong(idx, kinds[..i + 1]) == ListedAmong(idx, kinds[..i]) + Get(idx, kinds[i])
  {
    assert kinds[..i + 1] == kinds[..i] + [kinds[i]];
  }

  /** Every piece type is in the order, so the scan in that order lists the whole index. */
  lemma ListedInOrder(idx: Index)
    requires IndexTotal(idx)
    ensures ListedAmong(idx, PieceOrder[..|PieceOrder|]) == Listed(idx)
  {
    assert PieceOrder[..|PieceOrder|] == PieceOrder;
    forall t: PieceKind ensures t in PieceOrder {
      match t
      case Pawn => assert PieceOrder[0] == t;
      case Knight => assert PieceOrder[1] == t;
      case Bishop => assert PieceOrder[2] == t;
      case Rook => assert PieceOrder[3] == t;
      case Queen => assert PieceOrder[4] == t;
      case King => assert PieceOrder[5] == t;
    }
    forall s | s in Listed(idx) ensures s in ListedAmong(idx, PieceOrder) {
      var t :| t in idx && s in idx[t];
      assert t in PieceOrder && s in Get(idx, t);
    }
    forall s | s in ListedAmong(idx, PieceOrder) ensures s in Listed(idx) {
      var t :| t in PieceOrder && s in Get(idx, t);
      assert t in idx && s in idx[t];
    }
  }

  /** A map with an entry for each listed square, holding what `moveGenerator` gives there, is `AllMoves`. */
  lemma AllMovesFromEntries(P: Position, colour: Colour, m: map<Square, Option<set<Move>>>)
    requires m.Keys == Listed(PiecesOf(P.store, colour))
    requires forall s :: s in m ==> m[s] == GeneratedAt(P, s)
    ensures m == AllMoves(P, colour)
  {
    var all := AllMoves(P, colour);
    assert m.Keys == all.Keys;
    forall s | s in m ensures m[s] == all[s] { }
  }
}
