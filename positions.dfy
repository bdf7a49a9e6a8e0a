/** The position store as a value: the grid and the two per-colour indexes
    from piece type to squares, plus the flags of the board. The class in
    board.dfy keeps its fields equal to one of these (its abstract view). */
module Positions {

  import opened Wrappers
  import opened Pieces
  import opened Squares

  /** A per-colour index: piece type to the squares holding that type. */
  type Index = map<PieceKind, set<Square>>

  /** The grid and the two indexes. `board` is in the row order of `GameBoard.py`:
      row 0 is rank 8, so square (r, f) is `board[7 - r][f]`. */
  datatype Store = Store(board: seq<seq<nat>>, whitePieces: Index, blackPieces: Index)

  /** The four castling flags and the six "moved" flags. */
  datatype Rights = Rights(
    wKingCastle: bool, bKingCastle: bool, wQueenCastle: bool, bQueenCastle: bool,
    wKingMoved: bool, bKingMoved: bool,
    wKRookMoved: bool, wQRookMoved: bool, bKRookMoved: bool, bQRookMoved: bool)

  /** The state of a board. `gameState` is 0 while running, 1 for a draw,
      2 when white has won and 3 when black has won. */
  datatype Position = Position(
    store: Store,
    rights: Rights,
    enPassant: Option<Square>,
    colourToMove: Colour,
    gameState: int)

  /** An 8 x 8 grid. */
  predicate Shaped(b: seq<seq<nat>>) {
    |b| == 8 && forall i :: 0 <= i < 8 ==> |b[i]| == 8
  }

  /** `getBoardValue` on a grid: the value of square (r, f) is `b[7 - r][f]`;
      off the board (or on a malformed grid) it is 0. */
  function CellOf(b: seq<seq<nat>>, sq: Square): nat {
    if Shaped(b) && InBounds(sq) then b[7 - sq.0][sq.1] else 0
  }

  function Cell(P: Position, sq: Square): nat {
    CellOf(P.store.board, sq)
  }

  /** `setBoardValue` on a grid, stated by what it does to every square. */
  function PutOn(b: seq<seq<nat>>, sq: Square, v: nat): (r: seq<seq<nat>>)
    requires Shaped(b) && InBounds(sq)
    ensures Shaped(r)
    ensures CellOf(r, sq) == v
    ensures forall s :: s != sq ==> CellOf(r, s) == CellOf(b, s)
  {
    var row: seq<nat> := b[7 - sq.0][sq.1 := v];
    b[7 - sq.0 := row]
  }

  /** `setBoardValue` on a store; the indexes are left alone. */
  function Put(S: Store, sq: Square, v: nat): (r: Store)
    ensures r.whitePieces == S.whitePieces && r.blackPieces == S.blackPieces
    ensures Shaped(S.board) ==> Shaped(r.board)
    ensures Shaped(S.board) && InBounds(sq) ==> CellOf(r.board, sq) == v
    ensures forall s :: s != sq ==> CellOf(r.board, s) == CellOf(S.board, s)
  {
    if Shaped(S.board) && InBounds(sq) then S.(board := PutOn(S.board, sq, v)) else S
  }

  /** The 8 x 8 array `a` holds the grid `g`. */
  ghost predicate Mirrors(a: array2<nat>, g: seq<seq<nat>>)
    reads a
  {
    a.Length0 == 8 && a.Length1 == 8 && Shaped(g) &&
    forall i, j :: 0 <= i < 8 && 0 <= j < 8 ==> a[i, j] == g[i][j]
  }

  /** Every cell is empty or holds one of the twelve pieces. */
  ghost predicate WellFormed(S: Store) {
    Shaped(S.board) && forall sq :: InBounds(sq) ==> ValidCell(CellOf(S.board, sq))
  }

  // ---------------------------------------------------------------------
  // The per-colour indexes

  function Get(idx: Index, t: PieceKind): set<Square> {
    if t in idx then idx[t] else {}
  }

  /** The index of colour `c`. */
  function PiecesOf(S: Store, c: Colour): Index {
    if c == White then S.whitePieces else S.blackPieces
  }

  /** `getCurrentColourPieces` */
  function CurrentPieces(P: Position): Index {
    PiecesOf(P.store, P.colourToMove)
  }

  /** `getOppositeColourPieces` */
  function OppositePieces(P: Position): Index {
    PiecesOf(P.store, FlipColour(P.colourToMove))
  }

  function WithPieces(S: Store, c: Colour, idx: Index): Store {
    if c == White then S.(whitePieces := idx) else S.(blackPieces := idx)
  }

  /** `pieces[c][t].add(s)`: only entry (c, t) of the indexes gains `s`. */
  function IndexAdd(S: Store, c: Colour, t: PieceKind, s: Square): (r: Store)
    ensures r.board == S.board
    ensures forall c', t' :: Get(PiecesOf(r, c'), t')
                             == if c' == c && t' == t then Get(PiecesOf(S, c), t) + {s} else Get(PiecesOf(S, c'), t')
    ensures forall c' :: IndexTotal(PiecesOf(S, c')) ==> IndexTotal(PiecesOf(r, c'))
  {
    WithPieces(S, c, PiecesOf(S, c)[t := Get(PiecesOf(S, c), t) + {s}])
  }

  /** `pieces[c][t].remove(s)`: only entry (c, t) of the indexes loses `s`. */
  function IndexRemove(S: Store, c: Colour, t: PieceKind, s: Square): (r: Store)
    ensures r.board == S.board
    ensures forall c', t' :: Get(PiecesOf(r, c'), t')
                             == if c' == c && t' == t then Get(PiecesOf(S, c), t) - {s} else Get(PiecesOf(S, c'), t')
    ensures forall c' :: IndexTotal(PiecesOf(S, c')) ==> IndexTotal(PiecesOf(r, c'))
  {
    WithPieces(S, c, PiecesOf(S, c)[t := Get(PiecesOf(S, c), t) - {s}])
  }

  /** The squares of `b` that hold a piece of type `t` and colour `c`. */
  function SquaresWith(b: seq<seq<nat>>, t: PieceKind, c: Colour): set<Square> {
    set r, f | 0 <= r < 8 && 0 <= f < 8 && IsType(CellOf(b, (r, f)), t) && IsColour(CellOf(b, (r, f)), c) :: (r, f)
  }

  /** An index with an entry for each of the six piece types. */
  predicate IndexTotal(idx: Index) {
    forall t: PieceKind :: t in idx
  }

  /** Invariant I1: the grid and the two indexes agree. A square is in the
      index of colour c under type t exactly when its cell has colour c and
      type t. */
  ghost predicate Synced(S: Store) {
    Shaped(S.board) && IndexTotal(S.whitePieces) && IndexTotal(S.blackPieces) &&
    forall c: Colour, t: PieceKind :: Get(PiecesOf(S, c), t) == SquaresWith(S.board, t, c)
  }

  /** The squares holding type `t` and colour `c` among the cells a row-by-row
      scan of `b` has passed: the rows before `row` and the first `file` cells
      of row `row`. Row `row` of `b` is rank `7 - row`. */
  ghost function ScannedWith(b: seq<seq<nat>>, t: PieceKind, c: Colour, row: int, file: int): set<Square> {
    set r, f | 0 <= r < 8 && 0 <= f < 8 && (7 - r < row || (7 - r == row && f < file))
               && IsType(CellOf(b, (r, f)), t) && IsColour(CellOf(b, (r, f)), c) :: (r, f)
  }

  // ---------------------------------------------------------------------
  // Lemmas about the store

  /** The scan passing one more cell adds that cell if it holds (t, c). */
  lemma ScanCell(b: seq<seq<nat>>, t: PieceKind, c: Colour, row: int, file: int)
    requires 0 <= row < 8 && 0 <= file < 8
    ensures ScannedWith(b, t, c, row, file + 1)
         == ScannedWith(b, t, c, row, file)
            + (if IsType(CellOf(b, (7 - row, file)), t) && IsColour(CellOf(b, (7 - row, file)), c) then {(7 - row, file)} else {})
  {
    var sq := (7 - row, file);
    var lhs := ScannedWith(b, t, c, row, file + 1);
    var rhs := ScannedWith(b, t, c, row, file)
               + (if IsType(CellOf(b, sq), t) && IsColour(CellOf(b, sq), c) then {sq} else {});
    forall q | q in rhs ensures q in lhs {
      assert q == (q.0, q.1);
    }
    forall q | q in lhs ensures q in rhs {
      assert q == (q.0, q.1);
    }
  }

  /** A finished row is the start of the next one. */
  lemma ScanRow(b: seq<seq<nat>>, t: PieceKind, c: Colour, row: int)
    ensures ScannedWith(b, t, c, row, 8) == ScannedWith(b, t, c, row + 1, 0)
  {
  }

  /** Nothing is passed before the scan starts, and everything after the last row. */
  lemma ScanEnds(b: seq<seq<nat>>, t: PieceKind, c: Colour)
    ensures ScannedWith(b, t, c, 0, 0) == {}
    ensures ScannedWith(b, t, c, 8, 0) == SquaresWith(b, t, c)
  {
  }

  /** I1, read as membership. */
  lemma SyncedMembership(S: Store, c: Colour, t: PieceKind, s: Square)
    requires Synced(S)
    ensures s in Get(PiecesOf(S, c), t)
        <==> InBounds(s) && IsType(CellOf(S.board, s), t) && IsColour(CellOf(S.board, s), c)
  {
    assert Get(PiecesOf(S, c), t) == SquaresWith(S.board, t, c);
    if InBounds(s) && IsType(CellOf(S.board, s), t) && IsColour(CellOf(S.board, s), c) {
      assert s == (s.0, s.1);
    }
  }

  /** Writing one square changes the set of squares holding (t, c) at that square only. */
  lemma SquaresAfterPut(b: seq<seq<nat>>, s: Square, v: nat, t: PieceKind, c: Colour)
    requires Shaped(b) && InBounds(s)
    ensures SquaresWith(PutOn(b, s, v), t, c)
         == (SquaresWith(b, t, c) - {s}) + (if IsType(v, t) && IsColour(v, c) then {s} else {})
  {
    var b' := PutOn(b, s, v);
    var lhs := SquaresWith(b', t, c);
    var rhs := (SquaresWith(b, t, c) - {s}) + (if IsType(v, t) && IsColour(v, c) then {s} else {});
    forall q | q in lhs ensures q in rhs {
      if q != s { assert CellOf(b', q) == CellOf(b, q); }
    }
    forall q | q in rhs ensures q in lhs {
      if q != s { assert CellOf(b', q) == CellOf(b, q); }
      assert q == (q.0, q.1);
    }
  }

  /** I1 read square by square is I1. */
  lemma SyncedFromMembership(S: Store)
    requires Shaped(S.board) && IndexTotal(S.whitePieces) && IndexTotal(S.blackPieces)
    requires forall c: Colour, t: PieceKind, s: Square :: s in Get(PiecesOf(S, c), t)
               <==> InBounds(s) && IsType(CellOf(S.board, s), t) && IsColour(CellOf(S.board, s), c)
    ensures Synced(S)
  {
    forall c: Colour, t: PieceKind ensures Get(PiecesOf(S, c), t) == SquaresWith(S.board, t, c) {
      forall s | s in SquaresWith(S.board, t, c) ensures s in Get(PiecesOf(S, c), t) { }
      forall s | s in Get(PiecesOf(S, c), t) ensures s in SquaresWith(S.board, t, c) {
        var r, f := s.0, s.1;
        assert InBounds(s) && IsType(CellOf(S.board, s), t) && IsColour(CellOf(S.board, s), c);
        assert s == (r, f);
        assert 0 <= r < 8 && 0 <= f < 8 && IsType(CellOf(S.board, (r, f)), t) && IsColour(CellOf(S.board, (r, f)), c);
      }
    }
  }

  /** Two total indexes with the same squares for every type are equal. */
  lemma IndexExtensionality(i1: Index, i2: Index)
    requires IndexTotal(i1) && IndexTotal(i2)
    requires forall t :: Get(i1, t) == Get(i2, t)
    ensures i1 == i2
  {
    forall t | t in i1 ensures i1[t] == i2[t] {
      assert Get(i1, t) == Get(i2, t);
    }
  }

  /** Two 8 x 8 grids with the same value on every square are equal. */
  lemma GridExtensionality(b1: seq<seq<nat>>, b2: seq<seq<nat>>)
    requires Shaped(b1) && Shaped(b2)
    requires forall sq :: InBounds(sq) ==> CellOf(b1, sq) == CellOf(b2, sq)
    ensures b1 == b2
  {
    forall i | 0 <= i < 8 ensures b1[i] == b2[i] {
      forall j | 0 <= j < 8 ensures b1[i][j] == b2[i][j] {
        assert CellOf(b1, (7 - i, j)) == CellOf(b2, (7 - i, j));
      }
    }
  }
}
