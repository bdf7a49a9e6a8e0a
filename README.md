# Chess rules engine of `GameBoard.py`, modelled in Dafny

This project models the rules engine of `GameBoard.py` and proves properties of the model. The engine has four parts:

- **Piece encoding.** A piece is an integer. The low three bits hold the type and bits 3-4 hold the colour.
- **The `Move` value.**
- **The `Board` class.** Its state is:
  - an 8 x 8 grid stored with rank 8 in row 0;
  - two per-colour indexes from piece type to the squares holding that type;
  - four castling flags and six "moved" flags;
  - the en-passant square, the side to move and the game state.
- **The operations on the board:**
  - the FEN reader;
  - the scan that builds the indexes;
  - move generation (ray and step scans, pawn moves, castling) with a king-safety filter;
  - threat detection;
  - making and unmaking a move;
  - `confirmMove`, which decides checkmate and stalemate.

The rules the engine aims at are those of the FIDE Laws of Chess; where the code departs from them, "## Left out" says which of the two the model follows:

- Article 3.7: pawn moves, en passant and promotion.
- Article 3.8: king moves and castling.
- Article 3.9: check.
- Articles 5.1 and 5.2: checkmate and stalemate.

The position string is FEN, as defined in section 16.1 of the PGN Standard.

The model has two layers.

**Values** (`pieces.dfy`, `squares.dfy`, `positions.dfy`, `transition.dfy`, `threats.dfy`, `generation.dfy`, `fen.dfy`). A `Position` datatype holds what the fields of a board hold, except the two move counters `halfMove` and `fullMove`, which nothing reads. Every operation is a function on positions:

- `Make` and `Unmake`;
- `Attacked` and `KingThreat`;
- `RayMoves`, `PawnMoves`, `CastlingMoves`, `Generated` and `AllMoves`;
- `Confirm`;
- `ParseFen`.

The lemma files prove what the engine promises of these functions:

- Invariant I1: a square is in the index of colour c under type t exactly when its cell holds a piece of type t and colour c.
- Every make preserves I1.
- Unmaking a move right after making it gives back the position.
- Generated moves are legal for the position, and they leave the king safe.
- Promotions come in fours.
- A double push is offered only from the start rank, and every safe push, capture and en-passant capture is offered.
- Castling is offered only while the king and that rook have not moved, and it leaves the king on its target not attacked.
- The grid read from a FEN string holds on each square what the placement field lists for it.
- The ray scans and `confirmMove` have set-level characterisations.

**The class** (`board.dfy`). `GameBoard.Board` keeps the grid in an `array2<nat>`, with a ghost copy `grid` that the array mirrors. The indexes and flags are fields. Every method of the engine that reads or changes the board is a method there, with the source's loops and in-place updates. The rest are module-level:

- `renderFEN` is the method `Fen.RenderFen`;
- the pure helpers `algebraicNotationToRankFile`, `posChange`, `isOutOfBounds` and `getCurrentColourPieces` are the functions `Squares.AlgebraicToRankFile`, `Squares.PosChange`, `Squares.InBounds` and `Positions.CurrentPieces`.

Each method of the class is proved against the value layer: `State()` is the position the fields hold, and each method's `ensures` ties its result or its new state to the function of the old state. `Valid()` bundles three invariants:

- the array mirrors the grid;
- I1 holds;
- each castling flag is set exactly when neither the king nor that rook has moved.

Every engine method that changes the board requires `Valid()` and preserves it, except `unmakeMove`. `GameBoard.Board.UnmakeMove` accepts any move with squares on the board, as the source does, and so keeps only the mirror. When it undoes the move just made from a consistent position, it gives that position back and `Valid()` holds again; its `ensures` state both. The building blocks `SetBoardValue`, `Lift`, `Drop`, `Shift` and the per-kind make and unmake methods keep the mirror and state their new store.

Integers in the engine are Python integers, which are unbounded, so `nat` and `int` are exact. The bit operations are written as the equivalent division and remainder. For example, `piece & 0b11000` becomes `(piece / 8 % 4) * 8`.

## Model

| member | source | states |
|---|---|---|
| Pieces.Encode | GameBoard.py:15-29 | a type and a colour add to a code in 9..22 that is never 15 or 16 |
| Pieces.PieceType | GameBoard.py:35-36 | the type bits are below 8 |
| Pieces.PieceColour | GameBoard.py:38-39 | the colour bits are 0, 8, 16 or 24 |
| Pieces.FlipColour | GameBoard.py:58-59 | the result is the other colour, and the two colour values add to 24 |
| Pieces.ChangePieceColour | GameBoard.py:61-62 | toggling the colour bits keeps the type and every bit above them, and turns colour bits c into 24 - c |
| Pieces.TypeFromInt | GameBoard.py:64-79 | fails exactly for type bits 0 and 7, and otherwise gives the type whose value is the type bits |
| Pieces.EncodeDecode | GameBoard.py:35-48 | decoding an encoded piece gives back its type and colour; it fails the other colour's test and is a valid cell |
| Pieces.EncodeInjective | GameBoard.py:15-29 | different (type, colour) pairs have different codes |
| Pieces.ValidCellDecode | GameBoard.py:35-48 | every non-empty valid cell is the code of the type and colour it decodes to |
| Pieces.SlidingKinds | GameBoard.py:41-42 | `isSliding` holds exactly for bishops, rooks and queens |
| Pieces.ChangeColourOfPiece | GameBoard.py:61-62 | changing the colour of a piece gives the same type in the other colour |
| Pieces.ChangeColourInvolution | GameBoard.py:61-62 | toggling the colour bits twice restores every value |
| Pieces.FlipInvolution | GameBoard.py:58-59 | flipping a colour twice is the identity |
| Squares.AlgebraicToRankFile | GameBoard.py:658-668 | accepts exactly the two-character strings <a-h><1-8>, whose rank is the digit minus 1 and whose file is the letter index, both on the board |
| Squares.NameThenRead | GameBoard.py:658-668 | reading the name of a board square gives the square back |
| Squares.ReadThenName | GameBoard.py:658-668 | a string that reads as a square is that square's name |
| Squares.NewMove | GameBoard.py:82-92 | a promotion piece is refused exactly on a move that is not a PROMOTION; otherwise every field is the argument given |
| Positions.PutOn | GameBoard.py:646-647 | `setBoardValue` changes the value of its square, at `board[7 - r][f]`, and of no other |
| Positions.IndexAdd | GameBoard.py:504-505 | adding a square to one index entry changes only that entry |
| Positions.IndexRemove | GameBoard.py:531-532 | removing a square from one index entry changes only that entry |
| Positions.SyncedMembership | GameBoard.py:193-204 | I1 read as membership: a square is indexed under (c, t) exactly when it is on the board and its cell has type t and colour c |
| Positions.SquaresAfterPut | GameBoard.py:646-647 | writing one square changes the set of squares holding (t, c) at that square only |
| Positions.ScanCell | GameBoard.py:196-203 | one more scanned cell adds that cell's square exactly when it holds (t, c) |
| Transition.Relocate | GameBoard.py:531-543 | the building block of make and unmake: the origin becomes empty, the target holds the placed value, and no other square changes |
| Transition.MakePromotion | GameBoard.py:464-474 | after a promotion the origin is empty and the target holds the promoted piece in the mover's colour |
| Transition.Make | GameBoard.py:457-546 | every branch of `__makeMove` flips the side to move exactly once, keeps `gameState` and sets the en-passant square of a two-rank pawn push |
| Transition.DisableCastling | GameBoard.py:476-500 | the "Disabling Castling" block: a king move sets its moved flag and clears its side's two castling flags, a rook from file 7 or 0 sets its moved flag and clears that side's flag; its properties are stated by `TransitionLemmas.MakeDisablesCastling` and `TransitionLemmas.DisableKeepsConsistent` |
| Transition.RestoreCastling | GameBoard.py:557-591 | the flag restore of `unmakeMove` for the mover's side; `TransitionLemmas.UndoRights` proves it undoes `DisableCastling` |
| Transition.Unmake | GameBoard.py:548-637 | `unmakeMove` flips the side to move back, keeps `gameState` and restores the en-passant square the move was generated with |
| TransitionLemmas.RelocateSynced | GameBoard.py:531-545 | moving a piece (and removing a captured one) in the index and the grid together preserves I1 |
| TransitionLemmas.MakeOtherSynced | GameBoard.py:530-545 | the NORMAL branch of `__makeMove` preserves I1 |
| TransitionLemmas.MakePromotionSynced | GameBoard.py:464-474 | the PROMOTION branch, with the promoted piece in the mover's colour, preserves I1 |
| TransitionLemmas.MakeCastlingSynced | GameBoard.py:503-528 | the CASTLING branch, which moves both king and rook, preserves I1 |
| TransitionLemmas.MakeSynced | GameBoard.py:457-546 | every move that fits the position preserves I1 |
| TransitionLemmas.MakeWellFormed | GameBoard.py:457-546 | making a move leaves every cell empty or one of the twelve pieces |
| TransitionLemmas.MakeConsistent | GameBoard.py:457-546 | making a move keeps I1, valid cells, and each castling flag equal to "neither the king nor that rook has moved" |
| TransitionLemmas.DisableKeepsConsistent | GameBoard.py:476-500 | "Disabling Castling" keeps each castling flag consistent with the moved flags |
| TransitionLemmas.MakeDisablesCastling | GameBoard.py:476-500 | on the mover's side, a king move sets the king-moved flag and clears both castling flags; a rook move from file 7 sets the king-side rook flag and clears the king-side flag, one from file 0 does the same for the queen side; any other move keeps all flags; the opponent's side is unchanged |
| TransitionLemmas.PromotionKeepsRights | GameBoard.py:464-474 | a promotion returns before the castling flags are touched |
| TransitionLemmas.MoverOnTarget | GameBoard.py:524-543 | after the move the target holds the mover, or the promoted piece for a promotion |
| TransitionLemmas.UndoRights | GameBoard.py:557-591 | the flag restore of `unmakeMove` undoes the flag changes of `__makeMove` |
| TransitionLemmas.UndoKingRights | GameBoard.py:559-571 | for a king, `initialMove` is "the king had not moved", and the restore undoes the disabling of both its castling flags |
| TransitionLemmas.UndoRookRights | GameBoard.py:572-591 | for a rook, the restore undoes the disabling of its side's castling flag |
| TransitionLemmas.UndoOther | GameBoard.py:631-637 | undoing a NORMAL or en-passant move restores the store |
| TransitionLemmas.UndoPromotion | GameBoard.py:596-604 | undoing a promotion restores the store |
| TransitionLemmas.UndoCastling | GameBoard.py:606-629 | undoing a castling move restores the store |
| TransitionLemmas.CastlingRoundTrip | GameBoard.py:606-629 | on any store with the king, the corner rook and the empty squares in place, the castling unmake undoes the castling make |
| TransitionLemmas.UnmakeAfterMake | GameBoard.py:548-637 | for every move that fits a consistent position, unmaking it right after making it gives back the whole position |
| Threats.RayHitIff | GameBoard.py:405-423 | the ray scan finds an attack exactly when some step holds an opponent queen, a bishop on a diagonal, a rook on an orthogonal or a king one step away, with only empty squares before it |
| Threats.Attacked | GameBoard.py:396-440 | the attack rule of `threatChecker`: an opponent knight a jump away, a ray attacker, or an opponent pawn on a capturing diagonal; `Threats.RayHitIff` characterises the ray part |
| Threats.KingThreat | GameBoard.py:370-375 | `curKingThreat`: some king of the side to move is attacked after the move; `GenerationLemmas.NoKingNoThreat` and `GenerationLemmas.GeneratedSafe` state its properties |
| Generation.RayMoves | GameBoard.py:284-300 | the moves of one direction's scan from step k on; characterised by `GenerationLemmas.RayMovesIff` |
| Generation.PawnMoves | GameBoard.py:304-354 | `__moveGeneratorPawn`: the pushes and both diagonals; `GenerationLemmas.PawnLastRank`, `PushOffered`, `CaptureOffered` and `EnPassantOffered` state what it offers |
| Generation.CastlingMoves | GameBoard.py:221-249 | the castling candidates; `CastlingLemmas.CastlingOfferedOnlyUnmoved` and `CastlingLemmas.CastlingKingSafe` state when they exist and that they are safe |
| Generation.Generated | GameBoard.py:206-251 | `moveGenerator`; `GenerationLemmas.GeneratedOk`, `GeneratedApplicable` and `GeneratedSafe` state its properties |
| Generation.AllMoves | GameBoard.py:356-368 | `generateAllMoves`; `GenerationLemmas.AllMovesKeys` states its keys |
| Generation.Confirm | GameBoard.py:442-453 | `confirmMove`: the move made, and `gameState` set when no move is left; `GenerationLemmas.ConfirmOutcome` states the outcome |
| GenerationLemmas.RayMovesIff | GameBoard.py:284-300 | a ray produces a move to step j exactly when j is at most `repeat`, the steps before j are empty, step j is on the board and holds no ally, and the move leaves the king safe |
| GenerationLemmas.DirMovesApplicable | GameBoard.py:284-302 | every move of the scan fits the position (origin holds the mover, target empty or the opponent's, the `initialMove` flag recorded) |
| GenerationLemmas.GeneratedApplicable | GameBoard.py:206-251 | every move `moveGenerator` gives fits the position, so the hypothetical make and unmake of the safety filter restore it |
| GenerationLemmas.PromotionsAreFour | GameBoard.py:316-320 | a promotion square yields exactly four PROMOTION moves, to Bishop, Knight, Rook and Queen |
| GenerationLemmas.PawnLastRank | GameBoard.py:316-347 | no NORMAL pawn move lands on the last rank, and the promotions onto a last-rank square are none or all four |
| GenerationLemmas.PushOffered | GameBoard.py:313-322 | a single push onto the empty square ahead that leaves the king safe is offered: as all four promotions on the last rank, as one NORMAL move elsewhere |
| GenerationLemmas.CaptureOffered | GameBoard.py:332-347 | a diagonal capture of an opponent piece that leaves the king safe is offered: as all four promotions on the last rank, as one NORMAL move elsewhere |
| GenerationLemmas.EnPassantOffered | GameBoard.py:349-351 | an en-passant capture onto the empty en-passant square, with an opponent pawn beside the capturing pawn and the king safe, is offered |
| GenerationLemmas.DoublePushOnlyFromStart | GameBoard.py:324-328 | a two-rank pawn move starts on the start rank with both squares ahead empty |
| GenerationLemmas.DoublePushOffered | GameBoard.py:324-328 | from the start rank, with both squares ahead empty and the king safe, the double push is offered |
| GenerationLemmas.GeneratedSafe | GameBoard.py:294-295 | every generated move other than castling leaves the mover's king unattacked |
| GenerationLemmas.GeneratedOk | GameBoard.py:206-251 | on valid cells `moveGenerator` never fails, and it gives a move set exactly for a piece of the side to move |
| GenerationLemmas.AllMovesKeys | GameBoard.py:356-368 | under I1 `generateAllMoves` has an entry for exactly the squares holding a piece of that colour, and none of the side to move's entries is None |
| GenerationLemmas.HasMoveIff | GameBoard.py:444-446 | the side to move has a move exactly when a square of the board holds a piece with a non-empty move set |
| GenerationLemmas.ConfirmOutcome | GameBoard.py:442-453 | after the move, `gameState` stays when a move is left; otherwise it becomes 2 or 3 for the side that moved when the other is in check, or 1 when not in check; nothing else changes |
| GenerationLemmas.NoKingNoThreat | GameBoard.py:370-375 | `curKingThreat` is false when the side to move has no king |
| CastlingLemmas.CastlingOfferedOnlyUnmoved | GameBoard.py:221-249 | a castling candidate goes from the king's square to file 6 or 2 of its home rank, and exists only when the king is not in check, that side's flag is set, neither the king nor that side's rook has moved, and the target is empty and not attacked |
| CastlingLemmas.CastlingCellsAfter | GameBoard.py:503-528 | castling empties the king's and the rook's squares, puts the king on the target and the rook beside it, and changes no other square |
| CastlingLemmas.RayHitFrame | GameBoard.py:405-423 | a ray scan depends only on the squares of that ray |
| CastlingLemmas.CastlingFromHomeSafe | GameBoard.py:221-249 | castling from file 4 onto a target that was not attacked leaves the king on the target not attacked, since the rook now stands between it and its own corner |
| CastlingLemmas.CastlingKingSafe | GameBoard.py:221-249 | for a king on its home square, the king of every generated castling move is not attacked on its target once the move is made |
| Fen.JoinSplit | GameBoard.py:136 | splitting on spaces loses nothing, and no field holds a space |
| Fen.PieceFromChar | GameBoard.py:134 | a piece letter gives a valid non-empty cell |
| Fen.PlaceFrom | GameBoard.py:139-157 | an accepted placement is an 8 x 8 grid of valid cells |
| Fen.PlaceFromCell | GameBoard.py:139-157 | reading from any character on leaves the squares already read as they were and gives each remaining square what the rest of the field lists for it, and that rest lists exactly the remaining squares |
| Fen.PlacementContents | GameBoard.py:139-157 | an accepted placement lists exactly 64 squares, and the grid holds on each square what the field lists for it: the piece of its letter, or 0 for a square a digit skips |
| Fen.PlacementHasEightRanks | GameBoard.py:139-157 | an accepted placement has exactly seven rank separators, so it describes all eight ranks |
| Fen.ParseCastling | GameBoard.py:166-181 | "-" and strings of the letters KQkq are accepted, and each letter grants its own right |
| Fen.ParseEnPassant | GameBoard.py:183-189 | "-" or a square name is accepted, and the square read has that name |
| Fen.ParseFen | GameBoard.py:123-191 | an accepted string has six fields; its board is 8 x 8 with valid cells and holds on each square what the placement field lists for it; white is to move exactly when the second field is "w"; a second field other than "w" or "b" after a good placement is the InvalidActiveColour error |
| Fen.ReadPlacement | GameBoard.py:139-157 | the placement loop with its `curRank`/`curFile` counters gives the placement reading |
| Fen.PlaceChar | GameBoard.py:141-154 | one character of the placement loop either raises the placement error the reading raises, or leaves the rest of the field to be read with the new rank, file and grid |
| Fen.ReadCastling | GameBoard.py:166-181 | the castling loop gives the castling reading |
| Fen.RenderFen | GameBoard.py:123-191 | `renderFEN` gives the FEN reading, with the first bad field as the error |
| GameBoard.RightsFromCastling | GameBoard.py:111-121 | the new board's castling flags are the FEN letters, and they are consistent with the moved flags |
| GameBoard.NewBoard | GameBoard.py:107-121 | a board is built exactly when the FEN string (the start position when none is given) is accepted; it is fresh and valid, has the string's grid, rights, en-passant square, side to move and move counters, and its game is running |
| GameBoard.Board.constructor | GameBoard.py:107-121 | the fields are set from the FEN fields into a fresh array, and the board satisfies all its invariants |
| GameBoard.Board.FindAllPiecePositions | GameBoard.py:193-204 | the row-by-row scan builds indexes that satisfy I1 for the grid |
| GameBoard.Board.RecordCell | GameBoard.py:198-202 | a white or black piece is added under its type to its colour's index, and an empty cell changes nothing |
| GameBoard.Board.GetBoardValue | GameBoard.py:643-644 | the value read is the cell of the square |
| GameBoard.Board.SetBoardValue | GameBoard.py:646-647 | exactly that cell changes |
| GameBoard.Board.MakeMove | GameBoard.py:457-546 | the new state is `Make` of the old, the board invariants still hold, and the move counters are unchanged |
| GameBoard.Board.MakePromotionMove | GameBoard.py:464-474 | the store becomes the PROMOTION branch of `Make` |
| GameBoard.Board.MakeCastlingMove | GameBoard.py:503-528 | the store becomes the CASTLING branch of `Make`: rook first, then king |
| GameBoard.Board.MakeOtherMove | GameBoard.py:530-545 | the store becomes the remaining branch of `Make`, with the pawn taken en passant removed |
| GameBoard.Board.UnmakeMove | GameBoard.py:548-637 | the new state is `Unmake` of the old, and the move counters are unchanged; when the move was just made from a consistent position `before`, the state is `before` again and the board invariants hold |
| GameBoard.Board.UnmakeSteps | GameBoard.py:549-637 | the flag restore, the piece moves and the en-passant restore of `unmakeMove` give `Unmake` of the old state |
| GameBoard.Board.UnmakePromotionMove | GameBoard.py:596-604 | the store becomes the PROMOTION branch of `Unmake` |
| GameBoard.Board.UnmakeCastlingMove | GameBoard.py:606-629 | the store becomes the CASTLING branch of `Unmake` |
| GameBoard.Board.UnmakeOtherMove | GameBoard.py:631-637 | the store becomes the remaining branch of `Unmake` |
| GameBoard.Board.KnightThreat | GameBoard.py:396-402 | true exactly when an opponent knight is a knight's jump away |
| GameBoard.Board.RayThreat | GameBoard.py:406-423 | one ray's scan, equal to the ray attack rule |
| GameBoard.Board.SlidingThreat | GameBoard.py:404-423 | true exactly when some ray meets an attacking opponent piece |
| GameBoard.Board.PawnThreat | GameBoard.py:425-436 | true exactly when an opponent pawn attacks from a diagonal |
| GameBoard.Board.AttackedAt | GameBoard.py:396-440 | the three tests combined are the attack rule |
| GameBoard.Board.ThreatChecker | GameBoard.py:377-440 | the answer is the attack rule on the position after the move, at the king's target when the king moves; the board and the move counters are unchanged after the call |
| GameBoard.Board.CurKingThreat | GameBoard.py:370-375 | true exactly when some king of the side to move is attacked, and the board is unchanged |
| GameBoard.Board.ScanDirection | GameBoard.py:285-300 | one direction's loop gives the ray's move set |
| GameBoard.Board.MoveGeneratorHelper | GameBoard.py:253-302 | gives the moves of all the piece's directions; the board is unchanged |
| GameBoard.Board.PawnPushMoves | GameBoard.py:312-329 | gives the pushes, the promotions and the double push |
| GameBoard.Board.PawnCaptureMoves | GameBoard.py:332-351 | one diagonal's captures, promotions and en passant |
| GameBoard.Board.MoveGeneratorPawn | GameBoard.py:304-354 | gives the pawn's move set |
| GameBoard.Board.CastleSideMoves | GameBoard.py:226-248 | one castling side's candidate, under the flag, empty-path, rook and safety conditions |
| GameBoard.Board.CastleSquaresOpen | GameBoard.py:229 | true exactly when the square next to the king and its target are empty, the rook is in its corner and the target is not attacked; the board is unchanged |
| GameBoard.Board.CastlingMoveList | GameBoard.py:221-249 | no castling while in check, otherwise both sides' candidates |
| GameBoard.Board.MoveGenerator | GameBoard.py:206-251 | None for a piece not of the side to move, its moves otherwise, an error for an unknown type |
| GameBoard.Board.GenerateForSquares | GameBoard.py:360-361 | records `moveGenerator` for each square of one index entry |
| GameBoard.Board.GenerateAllMoves | GameBoard.py:356-368 | gives `generateAllMoves`, and the board is unchanged |
| GameBoard.Board.AnyMoves | GameBoard.py:444-446 | true exactly when some entry is a non-empty move set |
| GameBoard.Board.ConfirmMove | GameBoard.py:442-453 | the new state is `Confirm` of the old: the move is made, and `gameState` is set when no move is left |
| GameBoard.Board.RecordOutcome | GameBoard.py:449-453 | `gameState` becomes 2 or 3 under check and 1 otherwise |
| Findings.PromotionAsWrittenBreaksSync | GameBoard.py:470 | as written, a promotion leaves a piece of neither colour on the target and breaks I1 |
| Findings.PromotionCorrected | GameBoard.py:464-474 | corrected, the promoted piece has the mover's colour and I1 holds |

## Left out

- `BoardVisualizer.py` is not part of this model. It is pygame drawing, sprite handling and the event loop.
- `printBoard` and the `__main__` demo (GameBoard.py:639-641, 673-687) are console output.
- `halfMove` and `fullMove` are kept as the raw strings of the FEN fields. Nothing reads them, and every method that changes the board states that they stay as they were.
- The `INITIALD` bit, `isInitalD` and `removeIntialD` (GameBoard.py:31-33, 50-56) are deprecated and not modelled.
- `Board.__init__` sets all six moved flags to false (GameBoard.py:116-121). The model derives them from the castling letters instead:
  - a king is "moved" when both of its castling letters are absent;
  - a rook is "moved" when its side's letter is absent.

  Without this, unmake could not restore the castling flags of a FEN position that starts without some of them.
- `unmakeMove` raises ValueError when a move marked `initialMove` moves neither king nor rook (GameBoard.py:592-593). This is not modelled: the model's generator never marks such a move (`Transition.InitialFlag`), so `Transition.RestoreCastling` leaves the flags alone.
- Pawn generation sets `self.enPassant` while generating (GameBoard.py:329), and nothing ever clears it. In the model the en-passant square is part of the make and unmake state:
  - `Transition.Make` sets it after a two-rank push and clears it after any other move;
  - each move carries the square of the position it was generated in, and `Transition.Unmake` restores it.
- The `Move` class gets that extra field, `enPassantBefore`. A missing promotion piece is `None` rather than a missing attribute.
- `threatChecker` is modelled by the standard attack rule instead of the code's three defects:
  - the rays cover all eight directions, where the source covers 7 (GameBoard.py:405);
  - orthogonal rays test for a rook, where the source tests for a knight (GameBoard.py:416);
  - the pawn test looks for an opponent pawn on the squares it captures from, where the source tests the ally's pawn on the other side (GameBoard.py:426-433). Moreover, the `continue` at GameBoard.py:430 skips every ally cell, so the comparison with the ally's pawn at line 432 never succeeds: the source never reports a pawn attack.
- Make and unmake are modelled symmetrically, as the rules intend:
  - en passant removes the captured pawn on make and returns it on unmake (GameBoard.py:457-545 has no such branch);
  - a black queen-side rook move clears `bQueenCastle` (GameBoard.py:500 clears `bKingCastle`);
  - unmake restores the mover's own castling flags (GameBoard.py:557-591 restores the opponent's);
  - the promotion undo puts back a pawn of the mover's colour (GameBoard.py:602 adds an enum to an int and uses the captured piece's colour);
  - the castling undo moves the rook back and clears the king's target (GameBoard.py:613-628 passes two arguments to `set.remove`, uses the nonexistent `Piece.INITIAL`, and writes the origin twice).
- Castling is modelled symmetrically:
  - black queen-side castling checks (7,3) and (7,2) (GameBoard.py:243-246 checks (7,5) and (7,6));
  - the square next to the king must be empty rather than merely reachable, since the source accepts a capture there (GameBoard.py:229);
  - the rook must stand in its corner.
- `Generation.CastlingMoves` and `GameBoard.Board.CastleSideMoves` do not require the queen-side square on file 1 ((0,1) or (7,1)) to be empty, because the source does not check it either (GameBoard.py:231-234, 243-246). So the model, like the source, offers queen-side castling over a piece on b1 or b8, a move the FIDE rules forbid, and `Transition.Make` then overwrites nothing there: the king and the rook go to files 2 and 3.
- `CastlingLemmas.CastlingKingSafe` requires the king to stand on file 4 of its home rank. The source offers castling whenever the castling flag is set, whatever the king's square; only a FEN position whose castling letters disagree with the king's square reaches that case, and there safety after castling is not claimed.
- Extra checks where the source would crash or misbehave:
  - `Generation.PawnPushes` offers a push only when the square ahead is on the board. The source reads the grid there without a check (GameBoard.py:313-314): for a white pawn on rank 8 it reads `board[-1]`, which is rank 1 of the same file, and when that is empty it offers a NORMAL move to the off-board square (8, f);
  - `Transition.Applicable` requires en passant to have an opponent pawn beside the target.
- `Generation.PawnDiagonal` (generation.dfy:134-136) and `GameBoard.Board.PawnCaptureMoves` offer en passant only when an opponent pawn stands on (pos.0, sq.1) beside the capturing pawn. The source offers it whenever the diagonal square is empty and equals `self.enPassant` (GameBoard.py:350-351), whatever stands there.
- `Transition.PromotionOf` (transition.dfy:100-102) reads a PROMOTION move without a promotion piece as a promotion to Queen. The source fails on such a move at GameBoard.py:468 and 470, where it reads `move.promotion`. The generator never produces one.
- `Fen.ParseCastling` uses the FEN letter meanings: K and Q are white king- and queen-side, k and q black. The source maps k, q and Q to the wrong flags (GameBoard.py:172-179 against the unpacking at 111).
- `Fen.PlaceFrom` uses the FEN placement rules, which are stricter than the source's loop (GameBoard.py:139-157):
  - only the digits 1-8 are counted;
  - a rank may not exceed 8 squares;
  - a '/' must end a full rank;
  - the placement must end at file 8 of rank 1, where the source's check at line 156 uses `and` where `or` is needed.

  A placement the source would reject with an IndexError is rejected as InvalidPlacement.
- `Squares.AlgebraicToRankFile` accepts the ASCII digits only. Python's `isnumeric` also accepts other Unicode numerals in the rank position, which `int` then reads.
- `Pieces.KindOf` and `Pieces.ColourOf` are total: an unknown type reads as Pawn and colour bits other than 8 as Black. Every caller sees valid cells only (the board invariant `Valid`).
- Exceptions that the invariants rule out are not modelled, for example a `KeyError` from an index entry that is missing.

## Findings

| source | as written | input that shows it | evidently intended | confidence | as-written member | corrected member |
|---|---|---|---|---|---|---|
| GameBoard.py:470 | the PROMOTION branch of `__makeMove` writes `move.promotion.value`, the bare type value, with no colour bits | any promotion, e.g. a white pawn from (6,0) to (7,0) promoting to Queen: the cell becomes 6, a piece of neither colour, while the white index lists (7,0) under Queen | the promoted piece in the mover's colour (`promotion + colourToMove`), which keeps the grid and the index in agreement | not executed | Findings.PromotionAsWrittenBreaksSync | Findings.PromotionCorrected |
