/** A defect of `GameBoard.py` that the model corrects, written out as
    that file has it next to the corrected definition. */
module Findings {

  import opened Pieces
  import opened Squares
  import opened Positions
  import opened Transition
  import opened TransitionLemmas

  /** The PROMOTION branch of `__makeMove` as `GameBoard.py` writes it: the cell
      of the target receives the bare type value of the promotion piece, with
      no colour bits, while the index lists the target under the mover's colour. */
  function MakePromotionAsWritten(S: Store, c: Colour, m: Move): (r: Store)
    ensures Shaped(S.board) && InBounds(m.original) && InBounds(m.target) && m.original != m.target ==>
              CellOf(r.board, m.target) == PromotionOf(m).Value() && PieceColour(CellOf(r.board, m.target)) == 0
  {
    var promo := PromotionOf(m);
    Relocate(S, c, Pawn, promo, m.original, m.target, m.targetValue, promo.Value())
  }

  /** As written, every promotion leaves a colourless piece on the target and
      breaks I1: the index of the mover lists the target under the promotion
      type, but the cell there belongs to neither colour. */
  lemma PromotionAsWrittenBreaksSync(P: Position, m: Move)
    requires Consistent(P) && Applicable(P, m) && m.kind == Promotion
    ensures !IsColour(CellOf(MakePromotionAsWritten(P.store, P.colourToMove, m).board, m.target), White)
    ensures !IsColour(CellOf(MakePromotionAsWritten(P.store, P.colourToMove, m).board, m.target), Black)
    ensures !Synced(MakePromotionAsWritten(P.store, P.colourToMove, m))
  {
    var c := P.colourToMove;
    var promo := PromotionOf(m);
    var s1 := if m.targetValue != 0 then ClearSquare(P.store, FlipColour(c), KindOf(m.targetValue), m.target) else P.store;
    var s2 := ClearSquare(s1, c, Pawn, m.original);
    var s3 := IndexAdd(s2, c, promo, m.target);
    var S := Put(s3, m.target, promo.Value());
    assert S == MakePromotionAsWritten(P.store, c, m);
    assert m.target in Get(PiecesOf(S, c), promo);
    if Synced(S) {
      SyncedMembership(S, c, promo, m.target);
      assert false;
    }
  }

  /** Corrected, the promoted piece has the mover's colour and I1 holds after the move. */
  lemma PromotionCorrected(P: Position, m: Move)
    requires Consistent(P) && Applicable(P, m) && m.kind == Promotion
    ensures IsColour(CellOf(MakePromotion(P.store, P.colourToMove, m).board, m.target), P.colourToMove)
    ensures Synced(MakePromotion(P.store, P.colourToMove, m))
  {
    MakePromotionSynced(P, m);
  }
}
