/** The FEN reader `renderFEN`, following the FEN rules of section 16.1 of the
    PGN Standard: the placement field has eight ranks of exactly eight squares,
    the active colour is "w" or "b", the castling field is "-" or letters from
    "KQkq", and the en-passant field is "-" or a square. The two move counters
    are kept as text and never read. */
module Fen {

  import opened Wrappers
  import opened Pieces
  import opened Squares
  import opened Positions

  datatype FenError = WrongFieldCount | InvalidPlacement | InvalidActiveColour | InvalidCastling | InvalidEnPassant

  /** White king side, black king side, white queen side, black queen side. */
  datatype CastleFlags = CastleFlags(wKing: bool, bKing: bool, wQueen: bool, bQueen: bool)

  datatype FenFields = FenFields(
    board: seq<seq<nat>>, whiteToMove: bool, castling: CastleFlags,
    enPassant: Option<Square>, halfMove: string, fullMove: string)

  const StartFen: string := "rnbqkbnr/pppppppp/8/8/8/8/PPPPPPPP/RNBQKBNR w KQkq - 0 1"

  // ---------------------------------------------------------------------
  // Fields

  /** `str.split(" ")`: the pieces between single spaces, empty ones included. */
  function Split(s: string): (parts: seq<string>)
    ensures |parts| >= 1
    decreases |s|
  {
    if |s| == 0 then [""]
    else
      var rest := Split(s[1..]);
      if s[0] == ' ' then [""] + rest else [[s[0]] + rest[0]] + rest[1..]
  }

  /** Joining with single spaces, the inverse of Split. */
  function Join(parts: seq<string>): string
    requires |parts| >= 1
    decreases |parts|
  {
    if |parts| == 1 then parts[0] else parts[0] + " " + Join(parts[1..])
  }

  /** Splitting loses nothing: joining the parts gives the string back, and no part holds a space. */
  lemma {:induction false} JoinSplit(s: string)
    ensures Join(Split(s)) == s
    ensures forall i :: 0 <= i < |Split(s)| ==> ' ' !in Split(s)[i]
    decreases |s|
  {
    if |s| > 0 {
      JoinSplit(s[1..]);
      var rest := Split(s[1..]);
      if s[0] == ' ' {
        assert Split(s) == [""] + rest;
        assert Split(s)[1..] == rest;
      } else {
        var parts := Split(s);
        assert parts == [[s[0]] + rest[0]] + rest[1..];
        if |rest| == 1 {
          assert Join(parts) == [s[0]] + rest[0];
        } else {
          assert parts[1..] == rest[1..];
          assert Join(rest) == rest[0] + " " + Join(rest[1..]);
        }
        forall i | 0 <= i < |parts| ensures ' ' !in parts[i] {
          if i == 0 {
            assert parts[0] == [s[0]] + rest[0];
          } else {
            assert parts[i] == rest[i];
          }
        }
      }
    }
  }

  // ---------------------------------------------------------------------
  // Placement

  /** The cell value of a piece letter: upper case white, lower case black. */
  function PieceFromChar(ch: char): (r: Option<nat>)
    ensures r.Some? ==> ValidCell(r.value) && r.value != 0
  {
    var kind :=
      if ch == 'p' || ch == 'P' then Some(Pawn)
      else if ch == 'n' || ch == 'N' then Some(Knight)
      else if ch == 'b' || ch == 'B' then Some(Bishop)
      else if ch == 'r' || ch == 'R' then Some(Rook)
      else if ch == 'q' || ch == 'Q' then Some(Queen)
      else if ch == 'k' || ch == 'K' then Some(King)
      else None;
    match kind
    case None => None
    case Some(t) =>
      EncodeDecode(t, White); EncodeDecode(t, Black);
      Some(Encode(t, if 'A' <= ch <= 'Z' then White else Black))
  }

  function EmptyGrid(): (b: seq<seq<nat>>)
    ensures Shaped(b) && forall sq :: ValidCell(CellOf(b, sq))
  {
    seq(8, i => seq(8, j => 0))
  }

  /** Reading the placement field from character `i` on, with `rank` the
      current rank (8 down to 1) and `file` the number of squares of it read. */
  function PlaceFrom(s: string, i: nat, rank: int, file: int, b: seq<seq<nat>>): (r: Result<seq<seq<nat>>, FenError>)
    requires i <= |s| && 1 <= rank <= 8 && 0 <= file <= 8 && Shaped(b)
    ensures r.Ok? ==> Shaped(r.value)
    ensures r.Ok? && (forall sq :: ValidCell(CellOf(b, sq))) ==> forall sq :: ValidCell(CellOf(r.value, sq))
    decreases |s| - i
  {
    if i == |s| then
      if rank == 1 && file == 8 then Ok(b) else Err(InvalidPlacement)
    else
      var ch := s[i];
      if '1' <= ch <= '8' then
        if file + (ch - '0') as int > 8 then Err(InvalidPlacement)
        else PlaceFrom(s, i + 1, rank, file + (ch - '0') as int, b)
      else if ch == '/' then
        if file != 8 || rank == 1 then Err(InvalidPlacement)
        else PlaceFrom(s, i + 1, rank - 1, 0, b)
      else match PieceFromChar(ch)
        case None => Err(InvalidPlacement)
        case Some(v) =>
          if file >= 8 then Err(InvalidPlacement)
          else PlaceFrom(s, i + 1, rank, file + 1, PutOn(b, (rank - 1, file), v))
  }

  function ParsePlacement(s: string): Result<seq<seq<nat>>, FenError> {
    PlaceFrom(s, 0, 8, 0, EmptyGrid())
  }

  /** The number of occurrences of `ch` in `s`. */
  function Occurrences(s: string, ch: char): (n: nat)
    ensures n <= |s|
  {
    if |s| == 0 then 0 else (if s[0] == ch then 1 else 0) + Occurrences(s[1..], ch)
  }

  /** Reading from character `i` on succeeds only if the rest holds one '/'
      for each rank still below the current one. */
  lemma {:induction false} PlaceFromRanks(s: string, i: nat, rank: int, file: int, b: seq<seq<nat>>)
    requires i <= |s| && 1 <= rank <= 8 && 0 <= file <= 8 && Shaped(b)
    requires PlaceFrom(s, i, rank, file, b).Ok?
    ensures Occurrences(s[i..], '/') == rank - 1
    decreases |s| - i
  {
    if i < |s| {
      assert s[i..][1..] == s[i + 1..];
      var ch := s[i];
      if '1' <= ch <= '8' {
        PlaceFromRanks(s, i + 1, rank, file + (ch - '0') as int, b);
      } else if ch == '/' {
        PlaceFromRanks(s, i + 1, rank - 1, 0, b);
      } else {
        var v := PieceFromChar(ch).value;
        PlaceFromRanks(s, i + 1, rank, file + 1, PutOn(b, (rank - 1, file), v));
      }
    }
  }

  /** An accepted placement describes all eight ranks: it has exactly seven rank separators. */
  lemma PlacementHasEightRanks(s: string)
    requires ParsePlacement(s).Ok?
    ensures Occurrences(s, '/') == 7
  {
    PlaceFromRanks(s, 0, 8, 0, EmptyGrid());
    assert s[0..] == s;
  }

  /** `n` empty squares. */
  function Blanks(n: nat): (r: seq<nat>)
    ensures |r| == n && forall k :: 0 <= k < n ==> r[k] == 0
  {
    if n == 0 then [] else [0] + Blanks(n - 1)
  }

  /** The squares one character of a placement field lists: a digit stands
      for that many empty squares, a piece letter for its piece, and anything
      else for nothing. */
  function SquaresOf(ch: char): seq<nat> {
    if '1' <= ch <= '8' then Blanks((ch - '0') as int)
    else match PieceFromChar(ch)
      case Some(v) => [v]
      case None => []
  }

  /** The squares a placement field lists, in the order it lists them (rank
      8 first, file a first within a rank). */
  function Expand(s: string): seq<nat>
    decreases |s|
  {
    if |s| == 0 then [] else SquaresOf(s[0]) + Expand(s[1..])
  }

  lemma ExpandFrom(s: string, i: nat)
    requires i < |s|
    ensures Expand(s[i..]) == SquaresOf(s[i]) + Expand(s[i + 1..])
  {
    assert s[i..][1..] == s[i + 1..];
  }

  /** The position of a square in the listing order of a placement field. */
  function ListingIndex(sq: Square): int {
    8 * (7 - sq.0) + sq.1
  }

  /** Every square from listing position `done` on is empty in `b`. */
  ghost predicate EmptyFrom(b: seq<seq<nat>>, done: int) {
    forall sq {:trigger CellOf(b, sq)} :: InBounds(sq) && ListingIndex(sq) >= done ==> CellOf(b, sq) == 0
  }

  /** Writing the square at listing position `done` keeps every later one empty. */
  lemma PutOnKeepsEmpty(b: seq<seq<nat>>, sq0: Square, v: nat)
    requires Shaped(b) && InBounds(sq0) && EmptyFrom(b, ListingIndex(sq0))
    ensures EmptyFrom(PutOn(b, sq0, v), ListingIndex(sq0) + 1)
  {
  }

  /** Reading a digit at character `i` skips that many squares of the rank. */
  lemma PlaceFromDigit(s: string, i: nat, rank: int, file: int, b: seq<seq<nat>>)
    requires i < |s| && 1 <= rank <= 8 && 0 <= file <= 8 && Shaped(b)
    requires '1' <= s[i] <= '8' && PlaceFrom(s, i, rank, file, b).Ok?
    ensures file + (s[i] - '0') as int <= 8
    ensures PlaceFrom(s, i, rank, file, b) == PlaceFrom(s, i + 1, rank, file + (s[i] - '0') as int, b)
  {
  }

  /** Reading a rank separator at character `i` moves to the start of the next rank. */
  lemma PlaceFromSlash(s: string, i: nat, rank: int, file: int, b: seq<seq<nat>>)
    requires i < |s| && 1 <= rank <= 8 && 0 <= file <= 8 && Shaped(b)
    requires s[i] == '/' && PlaceFrom(s, i, rank, file, b).Ok?
    ensures file == 8 && rank > 1
    ensures PlaceFrom(s, i, rank, file, b) == PlaceFrom(s, i + 1, rank - 1, 0, b)
  {
  }

  /** Reading a piece letter at character `i` writes its piece on the current square. */
  lemma PlaceFromPiece(s: string, i: nat, rank: int, file: int, b: seq<seq<nat>>)
    requires i < |s| && 1 <= rank <= 8 && 0 <= file <= 8 && Shaped(b)
    requires !('1' <= s[i] <= '8') && s[i] != '/' && PlaceFrom(s, i, rank, file, b).Ok?
    ensures PieceFromChar(s[i]).Some? && file < 8
    ensures SquaresOf(s[i]) == [PieceFromChar(s[i]).value]
    ensures PlaceFrom(s, i, rank, file, b) == PlaceFrom(s, i + 1, rank, file + 1, PutOn(b, (rank - 1, file), PieceFromChar(s[i]).value))
  {
  }

  /** The value a square gets from reading the field: its value in `b` if it
      was read before listing position `done`, otherwise what `listed` lists for
      it. */
  function CellAfterReading(b: seq<seq<nat>>, done: int, listed: seq<nat>, sq: Square): nat
    requires InBounds(sq) && done + |listed| == 64
  {
    if ListingIndex(sq) < done then CellOf(b, sq) else listed[ListingIndex(sq) - done]
  }

  /** A run of `n` empty squares read at the current square: what the rest
      of the field gives each square is what the whole of it gives. */
  lemma CellAfterRun(b: seq<seq<nat>>, b': seq<seq<nat>>, rank: int, file: int, file': int, n: nat,
                     rest: seq<nat>, listed: seq<nat>, sq: Square)
    requires InBounds(sq) && file' == file + n && listed == Blanks(n) + rest
    requires EmptyFrom(b, 8 * (8 - rank) + file)
    requires 8 * (8 - rank) + file' + |rest| == 64
    requires CellOf(b', sq) == CellAfterReading(b, 8 * (8 - rank) + file', rest, sq)
    ensures 8 * (8 - rank) + file + |listed| == 64
    ensures CellOf(b', sq) == CellAfterReading(b, 8 * (8 - rank) + file, listed, sq)
  {
    var k, done := ListingIndex(sq), 8 * (8 - rank) + file;
    if k >= done + n {
      assert listed[k - done] == rest[k - done - n];
    } else if k >= done {
      assert listed[k - done] == Blanks(n)[k - done];
    }
  }

  /** A rank separator read at the end of a rank: the listing position is
      unchanged. */
  lemma CellAfterSlash(b: seq<seq<nat>>, b': seq<seq<nat>>, rank: int, file: int, rank': int, file': int,
                       rest: seq<nat>, listed: seq<nat>, sq: Square)
    requires InBounds(sq) && file == 8 && rank' == rank - 1 && file' == 0 && listed == rest
    requires 8 * (8 - rank') + file' + |rest| == 64
    requires CellOf(b', sq) == CellAfterReading(b, 8 * (8 - rank') + file', rest, sq)
    ensures 8 * (8 - rank) + file + |listed| == 64
    ensures CellOf(b', sq) == CellAfterReading(b, 8 * (8 - rank) + file, listed, sq)
  {
  }

  /** A piece `v` written on the current square: that square gets `v`, the
      others what they got before. */
  lemma CellAfterPiece(b: seq<seq<nat>>, b1: seq<seq<nat>>, b': seq<seq<nat>>, rank: int, file: int, file': int, v: nat,
                       rest: seq<nat>, listed: seq<nat>, sq: Square)
    requires Shaped(b) && InBounds(sq) && 1 <= rank <= 8 && 0 <= file < 8
    requires b1 == PutOn(b, (rank - 1, file), v) && file' == file + 1 && listed == [v] + rest
    requires 8 * (8 - rank) + file' + |rest| == 64
    requires CellOf(b', sq) == CellAfterReading(b1, 8 * (8 - rank) + file', rest, sq)
    ensures 8 * (8 - rank) + file + |listed| == 64
    ensures CellOf(b', sq) == CellAfterReading(b, 8 * (8 - rank) + file, listed, sq)
  {
    var k, done := ListingIndex(sq), 8 * (8 - rank) + file;
    if k == done {
      assert sq == (rank - 1, file);
    } else if k > done {
      assert listed[k - done] == rest[k - done - 1];
    }
  }

  /** Reading from character `i` on, with the squares before the current one
      already read and the others still empty, leaves each square read before
      as it was and gives each remaining square what the rest of the field
      lists for it; the field lists exactly the squares that remain. */
  lemma {:induction false} PlaceFromCell(s: string, i: nat, rank: int, file: int, b: seq<seq<nat>>, b': seq<seq<nat>>,
                                         listed: seq<nat>, sq: Square)
    requires i <= |s| && 1 <= rank <= 8 && 0 <= file <= 8 && Shaped(b)
    requires PlaceFrom(s, i, rank, file, b) == Ok(b') && listed == Expand(s[i..])
    requires EmptyFrom(b, 8 * (8 - rank) + file) && InBounds(sq)
    ensures 8 * (8 - rank) + file + |listed| == 64
    ensures CellOf(b', sq) == CellAfterReading(b, 8 * (8 - rank) + file, listed, sq)
    decreases |s| - i, 1
  {
    if i == |s| {
      assert rank == 1 && file == 8 && b' == b && s[i..] == [];
      assert ListingIndex(sq) < 64;
    } else if '1' <= s[i] <= '8' {
      DigitCell(s, i, rank, file, b, b', listed, sq);
    } else if s[i] == '/' {
      SlashCell(s, i, rank, file, b, b', listed, sq);
    } else {
      PieceCell(s, i, rank, file, b, b', listed, sq);
    }
  }

  /** `PlaceFromCell` when character `i` is a digit. */
  lemma {:induction false} DigitCell(s: string, i: nat, rank: int, file: int, b: seq<seq<nat>>, b': seq<seq<nat>>,
                                     listed: seq<nat>, sq: Square)
    requires i < |s| && 1 <= rank <= 8 && 0 <= file <= 8 && Shaped(b) && '1' <= s[i] <= '8'
    requires PlaceFrom(s, i, rank, file, b) == Ok(b') && listed == Expand(s[i..])
    requires EmptyFrom(b, 8 * (8 - rank) + file) && InBounds(sq)
    ensures 8 * (8 - rank) + file + |listed| == 64
    ensures CellOf(b', sq) == CellAfterReading(b, 8 * (8 - rank) + file, listed, sq)
    decreases |s| - i, 0
  {
    var rest := Expand(s[i + 1..]);
    ExpandFrom(s, i);
    var n := (s[i] - '0') as int;
    PlaceFromDigit(s, i, rank, file, b);
    var file' := file + n;
    PlaceFromCell(s, i + 1, rank, file', b, b', rest, sq);
    CellAfterRun(b, b', rank, file, file', n, rest, listed, sq);
  }

  /** `PlaceFromCell` when character `i` is a rank separator. */
  lemma {:induction false} SlashCell(s: string, i: nat, rank: int, file: int, b: seq<seq<nat>>, b': seq<seq<nat>>,
                                     listed: seq<nat>, sq: Square)
    requires i < |s| && 1 <= rank <= 8 && 0 <= file <= 8 && Shaped(b) && s[i] == '/'
    requires PlaceFrom(s, i, rank, file, b) == Ok(b') && listed == Expand(s[i..])
    requires EmptyFrom(b, 8 * (8 - rank) + file) && InBounds(sq)
    ensures 8 * (8 - rank) + file + |listed| == 64
    ensures CellOf(b', sq) == CellAfterReading(b, 8 * (8 - rank) + file, listed, sq)
    decreases |s| - i, 0
  {
    var rest := Expand(s[i + 1..]);
    ExpandFrom(s, i);
    PlaceFromSlash(s, i, rank, file, b);
    var rank', file' := rank - 1, 0;
    PlaceFromCell(s, i + 1, rank', file', b, b', rest, sq);
    CellAfterSlash(b, b', rank, file, rank', file', rest, listed, sq);
  }

  /** `PlaceFromCell` when character `i` is neither a digit nor a separator. */
  lemma {:induction false} PieceCell(s: string, i: nat, rank: int, file: int, b: seq<seq<nat>>, b': seq<seq<nat>>,
                                     listed: seq<nat>, sq: Square)
    requires i < |s| && 1 <= rank <= 8 && 0 <= file <= 8 && Shaped(b) && !('1' <= s[i] <= '8') && s[i] != '/'
    requires PlaceFrom(s, i, rank, file, b) == Ok(b') && listed == Expand(s[i..])
    requires EmptyFrom(b, 8 * (8 - rank) + file) && InBounds(sq)
    ensures 8 * (8 - rank) + file + |listed| == 64
    ensures CellOf(b', sq) == CellAfterReading(b, 8 * (8 - rank) + file, listed, sq)
    decreases |s| - i, 0
  {
    var rest := Expand(s[i + 1..]);
    ExpandFrom(s, i);
    PlaceFromPiece(s, i, rank, file, b);
    var v := PieceFromChar(s[i]).value;
    var b1 := PutOn(b, (rank - 1, file), v);
    PutOnKeepsEmpty(b, (rank - 1, file), v);
    var file' := file + 1;
    PlaceFromCell(s, i + 1, rank, file', b1, b', rest, sq);
    CellAfterPiece(b, b1, b', rank, file, file', v, rest, listed, sq);
  }

  /** An accepted placement field lists exactly 64 squares, and the grid read
      from it holds on each square what the field lists for that square. */
  lemma PlacementContents(s: string)
    requires ParsePlacement(s).Ok?
    ensures |Expand(s)| == 64
    ensures forall sq :: InBounds(sq) ==> CellOf(ParsePlacement(s).value, sq) == Expand(s)[ListingIndex(sq)]
  {
    var b' := ParsePlacement(s).value;
    assert s[0..] == s;
    PlaceFromCell(s, 0, 8, 0, EmptyGrid(), b', Expand(s), (0, 0));
    forall sq | InBounds(sq) ensures CellOf(b', sq) == Expand(s)[ListingIndex(sq)] {
      PlaceFromCell(s, 0, 8, 0, EmptyGrid(), b', Expand(s), sq);
    }
  }

  // ---------------------------------------------------------------------
  // The other fields

  /** The castling field: "-" for none, otherwise each letter of "KQkq" grants one right. */
  function ParseCastling(s: string): (r: Result<CastleFlags, FenError>)
    ensures r.Ok? <==> s == "-" || forall i :: 0 <= i < |s| ==> s[i] in "KQkq"
    ensures r.Ok? && s != "-" ==>
              r.value == CastleFlags('K' in s, 'k' in s, 'Q' in s, 'q' in s)
    ensures r.Ok? && s == "-" ==> r.value == CastleFlags(false, false, false, false)
  {
    if s == "-" then Ok(CastleFlags(false, false, false, false))
    else if forall i :: 0 <= i < |s| ==> s[i] in "KQkq" then Ok(CastleFlags('K' in s, 'k' in s, 'Q' in s, 'q' in s))
    else Err(InvalidCastling)
  }

  function ParseEnPassant(s: string): (r: Result<Option<Square>, FenError>)
    ensures r.Ok? <==> s == "-" || AlgebraicToRankFile(s).Ok?
    ensures r.Ok? && r.value.Some? ==> InBounds(r.value.value) && SquareName(r.value.value) == s
  {
    if s == "-" then Ok(None)
    else match AlgebraicToRankFile(s)
      case Ok(sq) => ReadThenName(s); Ok(Some(sq))
      case Err(_) => Err(InvalidEnPassant)
  }

  /** `renderFEN`: the six fields, or the first error in field order. */
  function ParseFen(fen: string): (r: Result<FenFields, FenError>)
    ensures r.Ok? ==> |Split(fen)| == 6
    ensures r.Ok? ==> Shaped(r.value.board) && forall sq :: ValidCell(CellOf(r.value.board, sq))
    ensures r.Ok? ==> (r.value.whiteToMove <==> Split(fen)[1] == "w")
    ensures r.Ok? ==> |Expand(Split(fen)[0])| == 64
    ensures r.Ok? ==> forall sq :: InBounds(sq) ==> CellOf(r.value.board, sq) == Expand(Split(fen)[0])[ListingIndex(sq)]
    ensures |Split(fen)| == 6 && ParsePlacement(Split(fen)[0]).Ok? && Split(fen)[1] != "w" && Split(fen)[1] != "b"
            ==> r == Err(InvalidActiveColour)
  {
    var parts := Split(fen);
    if |parts| != 6 then Err(WrongFieldCount)
    else match ParsePlacement(parts[0])
      case Err(e) => Err(e)
      case Ok(b) =>
        PlacementContents(parts[0]);
        if parts[1] != "w" && parts[1] != "b" then Err(InvalidActiveColour)
        else match ParseCastling(parts[2])
          case Err(e) => Err(e)
          case Ok(cf) =>
            match ParseEnPassant(parts[3])
            case Err(e) => Err(e)
            case Ok(ep) => Ok(FenFields(b, parts[1] == "w", cf, ep, parts[4], parts[5]))
  }

  // ---------------------------------------------------------------------
  // The reader

  /** One character of the placement loop: the error it raises, or the rank,
      file and grid the rest of the field is read with. */
  method PlaceChar(s: string, i: nat, rank: int, file: int, b: seq<seq<nat>>)
    returns (r: Option<(int, int, seq<seq<nat>>)>)
    requires i < |s| && 1 <= rank <= 8 && 0 <= file <= 8 && Shaped(b)
    ensures r.None? ==> PlaceFrom(s, i, rank, file, b) == Err(InvalidPlacement)
    ensures r.Some? ==> 1 <= r.value.0 <= 8 && 0 <= r.value.1 <= 8 && Shaped(r.value.2)
                        && PlaceFrom(s, i, rank, file, b) == PlaceFrom(s, i + 1, r.value.0, r.value.1, r.value.2)
  {
    var ch := s[i];
    if '1' <= ch <= '8' {
      var n := (ch - '0') as int;
      if file + n > 8 {
        return None;
      }
      return Some((rank, file + n, b));
    } else if ch == '/' {
      if file != 8 || rank == 1 {
        return None;
      }
      return Some((rank - 1, 0, b));
    } else {
      var v := PieceFromChar(ch);
      if v.None? || file >= 8 {
        return None;
      }
      return Some((rank, file + 1, PutOn(b, (rank - 1, file), v.value)));
    }
  }

  /** The placement loop of `renderFEN`: writes each piece into an empty
      8 x 8 grid, tracking the current rank and file. */
  method ReadPlacement(positioning: string) returns (r: Result<seq<seq<nat>>, FenError>)
    ensures r == ParsePlacement(positioning)
  {
    var board := EmptyGrid();
    var curRank, curFile := 8, 0;
    var i := 0;
    while i < |positioning|
      invariant 0 <= i <= |positioning| && 1 <= curRank <= 8 && 0 <= curFile <= 8
      invariant Shaped(board)
      invariant PlaceFrom(positioning, i, curRank, curFile, board) == ParsePlacement(positioning)
    {
      var step := PlaceChar(positioning, i, curRank, curFile, board);
      if step.None? {
        return Err(InvalidPlacement);
      }
      curRank, curFile, board := step.value.0, step.value.1, step.value.2;
      i := i + 1;
    }
    if curRank != 1 || curFile != 8 {
      return Err(InvalidPlacement);
    }
    r := Ok(board);
  }

  /** The castling loop of `renderFEN`: each letter sets one flag, any other character is an error. */
  method ReadCastling(castling: string) returns (r: Result<CastleFlags, FenError>)
    ensures r == ParseCastling(castling)
  {
    if castling == "-" {
      return Ok(CastleFlags(false, false, false, false));
    }
    var wK, bK, wQ, bQ := false, false, false, false;
    var k := 0;
    while k < |castling|
      invariant 0 <= k <= |castling|
      invariant forall j :: 0 <= j < k ==> castling[j] in "KQkq"
      invariant wK == ('K' in castling[..k]) && bK == ('k' in castling[..k])
      invariant wQ == ('Q' in castling[..k]) && bQ == ('q' in castling[..k])
    {
      assert castling[..k + 1] == castling[..k] + [castling[k]];
      match castling[k] {
        case 'k' => bK := true;
        case 'K' => wK := true;
        case 'q' => bQ := true;
        case 'Q' => wQ := true;
        case _ =>
          assert !(castling[k] in "KQkq");
          return Err(InvalidCastling);
      }
      k := k + 1;
    }
    assert castling[..k] == castling;
    r := Ok(CastleFlags(wK, bK, wQ, bQ));
  }

  /** `renderFEN`: the six fields, read in order; the first bad field is the error. */
  method RenderFen(fen: string) returns (r: Result<FenFields, FenError>)
    ensures r == ParseFen(fen)
  {
    var parts := Split(fen);
    if |parts| != 6 {
      return Err(WrongFieldCount);
    }
    var positioning, turn, castling, enPassant := parts[0], parts[1], parts[2], parts[3];
    var board := ReadPlacement(positioning);
    if board.Err? {
      return Err(board.error);
    }
    var whiteToMove;
    if turn == "w" {
      whiteToMove := true;
    } else if turn == "b" {
      whiteToMove := false;
    } else {
      return Err(InvalidActiveColour);
    }
    var flags := ReadCastling(castling);
    if flags.Err? {
      return Err(flags.error);
    }
    var ep: Option<Square>;
    if enPassant == "-" {
      ep := None;
    } else {
      var sq := AlgebraicToRankFile(enPassant);
      if sq.Err? {
        return Err(InvalidEnPassant);
      }
      ep := Some(sq.value);
    }
    r := Ok(FenFields(board.value, whiteToMove, flags.value, ep, parts[4], parts[5]));
  }
}
