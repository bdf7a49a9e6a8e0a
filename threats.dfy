/** Threat detection as functions on positions: the attack rule of
    `threatChecker` (knight squares, eight rays, pawn diagonals), evaluated on
    the position itself or on the position after a hypothetical move, and the
    check test `curKingThreat` built on it. */
module Threats {

  import opened Wrappers
  import opened Pieces
  import opened Squares
  import opened Positions
  import opened Transition

  /** Knight jumps, in the order of `GameBoard.py`. */
  const KnightOffsets: seq<(int, int)> :=
    [(-2, -1), (-2, 1), (-1, -2), (-1, 2), (1, -2), (1, 2), (2, 1), (2, -1)]

  /** The four diagonal directions followed by the four orthogonal ones. */
  const RayOffsets: seq<(int, int)> :=
    [(-1, -1), (-1, 1), (1, -1), (1, 1), (-1, 0), (0, -1), (0, 1), (1, 0)]

  /** Capture directions of a white pawn (first two) and a black pawn (last two). */
  const PawnOffsets: seq<(int, int)> := [(1, -1), (1, 1), (-1, -1), (-1, 1)]

  /** Knight jump `i` from `pos` lands on an opponent knight. */
  predicate KnightHit(P: Position, pos: Square, ally: Colour, i: int)
    requires 0 <= i < 8
  {
    var sq := PosChange(pos, KnightOffsets[i], 1);
    InBounds(sq) && Cell(P, sq) == Encode(Knight, FlipColour(ally))
  }

  /** An opponent piece met first along direction `x`, `k` steps away, attacks
      along that ray: a queen always, a bishop on a diagonal, a rook on an
      orthogonal, a king only from one step. */
  predicate RayAttacker(piece: nat, x: int, k: int) {
    IsType(piece, Queen) || IsType(piece, if x <= 3 then Bishop else Rook) || (IsType(piece, King) && k == 1)
  }

  /** The scan along direction `x` from step `k` on: stops at the edge or an
      ally piece, and at the first opponent piece answers whether it attacks. */
  predicate RayHit(P: Position, pos: Square, ally: Colour, x: int, k: nat)
    requires 0 <= x < 8
    decreases 8 - k
  {
    if k > 7 then false
    else
      var sq := PosChange(pos, RayOffsets[x], k);
      if !InBounds(sq) || IsColour(Cell(P, sq), ally) then false
      else if IsColour(Cell(P, sq), FlipColour(ally)) then RayAttacker(Cell(P, sq), x, k)
      else RayHit(P, pos, ally, x, k + 1)
  }

  /** Step `i` along direction `x`. */
  function RayStep(pos: Square, x: int, i: int): Square
    requires 0 <= x < 8
  {
    PosChange(pos, RayOffsets[x], i)
  }

  /** Steps `k` to `j - 1` along direction `x` are empty squares of the board. */
  ghost predicate ClearUpTo(P: Position, pos: Square, x: int, k: int, j: int)
    requires 0 <= x < 8
  {
    forall i :: k <= i < j ==> InBounds(RayStep(pos, x, i)) && Cell(P, RayStep(pos, x, i)) == 0
  }

  /** Step `j` holds the first piece met from step `k` on, an opponent piece that attacks along the ray. */
  ghost predicate FirstAttacker(P: Position, pos: Square, ally: Colour, x: int, k: int, j: int)
    requires 0 <= x < 8
  {
    ClearUpTo(P, pos, x, k, j) && InBounds(RayStep(pos, x, j))
    && IsColour(Cell(P, RayStep(pos, x, j)), FlipColour(ally)) && RayAttacker(Cell(P, RayStep(pos, x, j)), x, j)
  }

  /** The ray scan, read without recursion: it answers yes exactly when some
      step up to 7 holds, behind empty squares only, an opponent piece that
      attacks along the ray. */
  lemma {:induction false} RayHitIff(P: Position, pos: Square, ally: Colour, x: int, k: nat)
    requires WellFormed(P.store) && 0 <= x < 8
    ensures RayHit(P, pos, ally, x, k) <==> exists j :: k <= j <= 7 && FirstAttacker(P, pos, ally, x, k, j)
    decreases 8 - k
  {
    if k <= 7 {
      var sq := RayStep(pos, x, k);
      var v := Cell(P, sq);
      EmptyHasNoColour(ally);
      EmptyHasNoColour(FlipColour(ally));
      if !InBounds(sq) || IsColour(v, ally) || IsColour(v, FlipColour(ally)) {
        forall j | k < j <= 7 ensures !FirstAttacker(P, pos, ally, x, k, j) {
          assert !(InBounds(sq) && v == 0);
        }
        if !InBounds(sq) || IsColour(v, ally) {
          assert !FirstAttacker(P, pos, ally, x, k, k);
        } else {
          assert FirstAttacker(P, pos, ally, x, k, k) <==> RayAttacker(v, x, k);
        }
      } else {
        assert v == 0 by {
          if v != 0 {
            assert ValidCell(v);
            ValidCellDecode(v);
          }
        }
        assert RayHit(P, pos, ally, x, k) == RayHit(P, pos, ally, x, k + 1);
        RayHitIff(P, pos, ally, x, k + 1);
        if exists j :: k <= j <= 7 && FirstAttacker(P, pos, ally, x, k, j) {
          var j :| k <= j <= 7 && FirstAttacker(P, pos, ally, x, k, j);
          assert j != k;
          assert FirstAttacker(P, pos, ally, x, k + 1, j);
        }
        var k1 := k + 1;
        if exists j :: k1 <= j <= 7 && FirstAttacker(P, pos, ally, x, k1, j) {
          var j :| k1 <= j <= 7 && FirstAttacker(P, pos, ally, x, k1, j);
          assert FirstAttacker(P, pos, ally, x, k, j);
        }
      }
    }
  }

  /** The first of the two pawn squares looked at for `ally`: an opponent pawn
      there attacks `pos`. White pieces are attacked by black pawns from the
      rank above, black pieces by white pawns from the rank below. */
  function PawnBase(ally: Colour): nat {
    if ally == White then 0 else 2
  }

  predicate PawnHit(P: Position, pos: Square, ally: Colour, j: int)
    requires 0 <= j < 2
  {
    var sq := PosChange(pos, PawnOffsets[PawnBase(ally) + j], 1);
    InBounds(sq) && Cell(P, sq) == Encode(Pawn, FlipColour(ally))
  }

  /** Some knight jump from `pos` lands on an opponent knight. */
  predicate KnightAttack(P: Position, pos: Square, ally: Colour) {
    exists i :: 0 <= i < 8 && KnightHit(P, pos, ally, i)
  }

  /** Some ray from `pos` meets an opponent piece that attacks along it. */
  predicate RayAttack(P: Position, pos: Square, ally: Colour) {
    exists x :: 0 <= x < 8 && RayHit(P, pos, ally, x, 1)
  }

  /** An opponent pawn stands on a square it captures onto `pos` from. */
  predicate PawnAttack(P: Position, pos: Square, ally: Colour) {
    exists j :: 0 <= j < 2 && PawnHit(P, pos, ally, j)
  }

  /** `threatChecker` without a move: some opponent piece attacks `pos`. */
  predicate Attacked(P: Position, pos: Square, ally: Colour) {
    KnightAttack(P, pos, ally) || RayAttack(P, pos, ally) || PawnAttack(P, pos, ally)
  }

  /** The square whose safety `threatChecker` decides: the king's target when
      the move moves a king, `pos` otherwise. */
  function WatchedSquare(P: Position, pos: Square, m: Move): Square {
    if IsType(Cell(P, m.original), King) then m.target else pos
  }

  /** `threatChecker(pos, ally, move)`: the attack test on the position after
      the move, if there is one. */
  predicate ThreatAfter(P: Position, pos: Square, ally: Colour, mv: Option<Move>) {
    match mv
    case None => Attacked(P, pos, ally)
    case Some(m) => Attacked(Make(P, m), WatchedSquare(P, pos, m), ally)
  }

  /** `curKingThreat(move)`: some king of the side to move is attacked, after the move if given. */
  predicate KingThreat(P: Position, mv: Option<Move>) {
    exists k :: k in Get(CurrentPieces(P), King) && ThreatAfter(P, k, P.colourToMove, mv)
  }
}
