/** Piece encoding of the engine: a cell value is a small non-negative integer
    whose low three bits hold the piece type and whose bits 3-4 hold the colour.
    The bit masks of `GameBoard.py` (`& 0b111`, `& 0b11000`, `>> 2`, `^ 0b11000`)
    are written here as the equivalent division and remainder on naturals. */
module Pieces {

  import opened Wrappers

  /** The two colours; their integer values are the colour bits. */
  datatype Colour = White | Black {
    function Value(): (v: int)
      ensures v == 8 || v == 16
    {
      if White? then 8 else 16
    }
  }

  /** The six piece types; their integer values are the type bits. */
  datatype PieceKind = Pawn | King | Knight | Bishop | Rook | Queen {
    function Value(): (v: int)
      ensures 1 <= v <= 6
    {
      match this
      case Pawn => 1
      case King => 2
      case Knight => 3
      case Bishop => 4
      case Rook => 5
      case Queen => 6
    }
  }

  /** `ValueError("Unknown piece")` */
  datatype PieceError = UnknownPiece

  /** The value of a piece of type `t` and colour `c`. */
  function Encode(t: PieceKind, c: Colour): (v: nat)
    ensures 9 <= v <= 22 && v != 15 && v != 16
  {
    t.Value() + c.Value()
  }

  /** `piece & 0b000111` */
  function PieceType(piece: nat): (t: nat)
    ensures t < 8
  {
    piece % 8
  }

  /** `piece & 0b011000` */
  function PieceColour(piece: nat): (c: nat)
    ensures c == 0 || c == 8 || c == 16 || c == 24
  {
    (piece / 8 % 4) * 8
  }

  /** `(piece >> 2) % 2`: the third bit, set for bishop, rook and queen. */
  predicate IsSliding(piece: nat) {
    (piece / 4) % 2 == 1
  }

  predicate IsType(piece: nat, t: PieceKind) {
    PieceType(piece) == t.Value()
  }

  predicate IsColour(piece: nat, c: Colour) {
    PieceColour(piece) == c.Value()
  }

  /** The other colour. */
  function FlipColour(c: Colour): (r: Colour)
    ensures r != c
    ensures r.Value() + c.Value() == 24
  {
    if c == Black then White else Black
  }

  /** `0b011000 ^ piece`: both colour bits toggled, everything else kept. */
  function ChangePieceColour(piece: nat): (r: nat)
    ensures PieceType(r) == PieceType(piece)
    ensures PieceColour(r) == 24 - PieceColour(piece)
    ensures r / 32 == piece / 32
  {
    (piece / 32) * 32 + (3 - piece / 8 % 4) * 8 + piece % 8
  }

  /** A cell that is empty or holds one of the twelve pieces. */
  predicate ValidCell(v: nat) {
    v == 0 || 9 <= v <= 14 || 17 <= v <= 22
  }

  /** `typeFromtInt`: the piece type named by the low bits, an error for 0 and 7. */
  function TypeFromInt(piece: nat): (r: Result<PieceKind, PieceError>)
    ensures r.Err? <==> PieceType(piece) == 0 || PieceType(piece) == 7
    ensures r.Ok? ==> r.value.Value() == PieceType(piece)
  {
    match PieceType(piece)
    case 1 => Ok(Pawn)
    case 2 => Ok(King)
    case 3 => Ok(Knight)
    case 4 => Ok(Bishop)
    case 5 => Ok(Rook)
    case 6 => Ok(Queen)
    case _ => Err(UnknownPiece)
  }

  /** The piece type of a cell, total: the type for the six known codes and Pawn
      otherwise (`GameBoard.py` raises there; every caller of KindOf in this model
      is guarded so that it only sees known codes). */
  function KindOf(piece: nat): (t: PieceKind)
    ensures TypeFromInt(piece).Ok? ==> t == TypeFromInt(piece).value
  {
    match TypeFromInt(piece)
    case Ok(k) => k
    case Err(_) => Pawn
  }

  /** The colour of a cell, total: White for colour bits 8 and Black otherwise. */
  function ColourOf(piece: nat): (c: Colour)
    ensures PieceColour(piece) == 8 ==> c == White
    ensures PieceColour(piece) == 16 ==> c == Black
  {
    if PieceColour(piece) == 8 then White else Black
  }

  // ---------------------------------------------------------------------
  // Properties of the encoding

  /** Decoding an encoded piece gives back its type and colour. */
  lemma EncodeDecode(t: PieceKind, c: Colour)
    ensures PieceType(Encode(t, c)) == t.Value()
    ensures PieceColour(Encode(t, c)) == c.Value()
    ensures TypeFromInt(Encode(t, c)) == Ok(t)
    ensures KindOf(Encode(t, c)) == t && ColourOf(Encode(t, c)) == c
    ensures IsType(Encode(t, c), t) && IsColour(Encode(t, c), c)
    ensures !IsColour(Encode(t, c), FlipColour(c))
    ensures ValidCell(Encode(t, c))
  {
    assert Encode(t, c) % 8 == t.Value();
    assert Encode(t, c) / 8 == c.Value() / 8;
  }

  /** An encoded piece answers the type and colour tests for its own type and colour only. */
  lemma EncodeMatches(t: PieceKind, c: Colour, t': PieceKind, c': Colour)
    ensures IsType(Encode(t, c), t') <==> t == t'
    ensures IsColour(Encode(t, c), c') <==> c == c'
  {
    EncodeDecode(t, c);
  }

  /** Different (type, colour) pairs have different codes. */
  lemma EncodeInjective(t1: PieceKind, c1: Colour, t2: PieceKind, c2: Colour)
    ensures Encode(t1, c1) == Encode(t2, c2) <==> t1 == t2 && c1 == c2
  {
    EncodeDecode(t1, c1);
    EncodeDecode(t2, c2);
  }

  /** Every non-empty valid cell is the code of exactly the type and colour it decodes to. */
  lemma ValidCellDecode(v: nat)
    requires ValidCell(v) && v != 0
    ensures v == Encode(KindOf(v), ColourOf(v))
    ensures IsColour(v, ColourOf(v)) && !IsColour(v, FlipColour(ColourOf(v)))
  {
    EncodeDecode(KindOf(v), ColourOf(v));
  }

  /** A valid cell answers the type and colour tests exactly for the piece it holds. */
  lemma CellMatches(v: nat, t: PieceKind, c: Colour)
    requires ValidCell(v)
    ensures IsType(v, t) && IsColour(v, c) <==> v != 0 && KindOf(v) == t && ColourOf(v) == c
  {
    if v != 0 {
      ValidCellDecode(v);
      EncodeMatches(KindOf(v), ColourOf(v), t, c);
    }
  }

  /** The empty cell has no colour. */
  lemma EmptyHasNoColour(c: Colour)
    ensures !IsColour(0, c) && !IsType(0, Pawn)
  {
  }

  /** Only bishops, rooks and queens are sliding pieces. */
  lemma SlidingKinds(t: PieceKind, c: Colour)
    ensures IsSliding(Encode(t, c)) <==> t == Bishop || t == Rook || t == Queen
  {
    assert Encode(t, c) / 4 == (c.Value() / 4) + t.Value() / 4;
  }

  /** Changing the colour of a piece keeps its type and gives it the other colour. */
  lemma ChangeColourOfPiece(t: PieceKind, c: Colour)
    ensures ChangePieceColour(Encode(t, c)) == Encode(t, FlipColour(c))
  {
    var v := Encode(t, c);
    assert v / 32 == 0 && v % 8 == t.Value() && v / 8 % 4 == c.Value() / 8;
  }

  /** Flipping the colour twice is the identity. */
  lemma FlipInvolution(c: Colour)
    ensures FlipColour(FlipColour(c)) == c
  {
  }

  /** Toggling the colour bits twice restores every value. */
  lemma ChangeColourInvolution(piece: nat)
    ensures ChangePieceColour(ChangePieceColour(piece)) == piece
  {
    var r := ChangePieceColour(piece);
    var hi, cb, lo := piece / 32, piece / 8 % 4, piece % 8;
    assert piece == hi * 32 + cb * 8 + lo;
    assert r == hi * 32 + (3 - cb) * 8 + lo;
    assert r / 32 == hi && r / 8 % 4 == 3 - cb && r % 8 == lo;
  }
}
