# Chess rules core, modelled in Dafny

This project models the rules engine of a bitboard chess program. Its
`wasm/` tree generates moves, applies them, reads and writes FEN, names
squares and runs a material-counting minimax search. The model also covers
the lane-compaction helper of the older top-level tree.

The program keeps each piece as a 128-bit board. Square (file x, rank y)
is bit `16*y + 8 + x`, so only the high byte of each 16-bit lane is on the
board. `MASK` (`0xff00…ff00`) detects a shift that has left the board or
wrapped across a file edge. In the model a board is `Board.Bits`, the set
of its one-bits:

- `|`, `&`, `^` and `!` become `+`, `*`, `Board.Xor` and `Board.Not`;
- shifts become `Board.Shl`/`Board.Shr`, which drop bits that leave
  0..127 exactly as a `u128` shift does;
- the castling flags, a `u16`, are also a set of bit positions: `K_ID`
  is bit 0, `Q_ID` bit 4, `k_ID` bit 8 and `q_ID` bit 12;
- clocks are integers with the `u16` wrap-around written out, and the
  evaluation is an `i32` with its wrap-around written out.

Where the program panics (`unwrap` on a bad clock, slicing past the end of
a string, `Vec::remove` out of range, `panic!`), the model returns
`Panic(why)` of the `Wrappers.Result` type. Recoverable errors are
`Err(msg)`, with the program's own message.

The modules follow the program:

- The piece generators (`Knights`, `Bishops`, `Rooks`, `Queens`, `Kings`,
  `Pawns`) are imperative methods that push moves or OR squares into an
  accumulator. Each is proved equal to a destination function.
- `Rays` holds the shared 7-step ray walk and `Steps` the single-step
  tests. `Dispatch` is the `Pieces` enum dispatch.
- `GameInfo`, `MoveGen` and `Check` cover the attack, pin and check
  analysis.
- `Castle` and `Promote` cover the special moves. `Games` holds the
  `Game` class.
- The FEN codec is `FenValidate`, `FenDecode` and `FenEncode`, with
  `Text` for splitting and numbers. The round trip is proved in
  `FenRoundTrip`, helped by `FenRankText`, `FenBoardText`,
  `FenBoardOrder`, `FenGridScan` and `FenLetters`.
- `Notation` covers square names, `Engine` evaluation and minimax, and
  `Lanes` `convert_to_64bit`.

The `wasm/` files come from several commits, so the model uses one
interface for them:

- Move generation uses the accumulator style, where a method takes the
  list or board and returns it extended. This holds for the pieces that
  return a fresh `Vec` too, since a fresh list is the accumulator
  started at `[]`.
- Castling is the four-flag `u16` set.
- The move list that `minimax` obtains from `moves_verbose` (whose body
  is not shown) is a function parameter `expand`. It returns the moves
  and a `GameInfo`.

## Model

| member | source | states |
|---|---|---|
| Board.Index | wasm/src/game/pieces/rook.rs:11-13 | square (x, y) is bit 16y+8+x: it lies in lane y at offset 8+x, inside 8..127 |
| Board.SquareOnBoard | wasm/src/game/mod.rs:8 | every square is a single bit inside `MASK`, and distinct squares are distinct bits |
| Board.ShiftAvoids | wasm/src/game/mod.rs:8 | a single bit shifted by a non-zero amount never lands on itself |
| Board.StepSquare | wasm/src/game/mod.rs:8 | shifting a square by 16dy+dx stays in `MASK` exactly when (x+dx, y+dy) is on the board, and then is that square; leaving a file edge lands in the off-board byte |
| Board.Lane | src/pieces/mod.rs:30 | lane i's on-board byte is bits 16i+8..16i+15, all inside `MASK` |
| Pieces.New | wasm/src/game/pieces/knight.rs:11-13 | `new(x, y, color)` is the single on-board bit 16y+8+x with the given kind and colour |
| Pieces.FromBits | wasm/src/game/pieces/knight.rs:15-17 | `from_bits` keeps the bits verbatim |
| Pieces.SetBits | wasm/src/game/pieces/mod.rs:36 | `set_bits` replaces the bits and keeps kind and colour |
| Pieces.UnionMember | wasm/src/game/pieces/rook.rs:67-89 | a square is in an OR of boards exactly when one of the boards holds it |
| Pieces.AsMovesBits | wasm/src/game/pieces/rook.rs:67-89 | ORing the bits of moves `origin \| t` gives what `moves_as_bits` ORs in: the destinations plus the origin when there is one |
| Pieces.AsMovesXor | wasm/src/game/game.rs:59-61 | XORing the origin out of each generated move gives back exactly its destination |
| Knights.TestMove | wasm/src/game/pieces/knight.rs:44-47 | one magic number: the left and the right shift are tried in that order and kept when on board and free of `team` |
| Knights.Moves | wasm/src/game/pieces/knight.rs:34-56 | the moves are `origin \| t`, in the source's order, for the eight jumps that stay on board and miss `team`; `opp` is ignored |
| Knights.MovesAsBitsExclusive | wasm/src/game/util/core.rs:33-36 | ORs exactly the knight's destinations, never its own square, into the accumulator |
| Knights.DestinationsKept | wasm/src/game/pieces/knight.rs:38-42 | at most 8 destinations, each a candidate jump that is on board and misses `team` |
| Knights.Geometry | wasm/src/game/pieces/knight.rs:49-53 | the eight shifts 0x21, 0x1f, 0x12, 0x0e are the (±1, ±2) and (±2, ±1) jumps: on board iff the target square exists, and then it is that square |
| Knights.ExclusiveAvoidsOrigin | wasm/src/game/util/core.rs:33-36 | the knight's own square is never among its destinations |
| Bishops.Moves | wasm/src/game/pieces/bishop.rs:32-66 | the moves are `origin \| t` along the four diagonal rays in the source's order, each ray cut by the stopping rules |
| Bishops.MovesAsBitsExclusive | wasm/src/game/util/core.rs:37-41 | ORs exactly the bishop's destinations into the accumulator |
| Bishops.Geometry | wasm/src/game/pieces/bishop.rs:53-63 | at most 28 destinations, each a square on a diagonal through the bishop |
| Bishops.DiagonalLine | wasm/src/game/pieces/bishop.rs:54-63 | the i-th step of a diagonal ray, when on board, is a square at distance i on a diagonal |
| Bishops.ExclusiveAvoidsOrigin | wasm/src/game/pieces/bishop.rs:53-63 | the bishop's own square is never a destination |
| Rooks.Moves | wasm/src/game/pieces/rook.rs:43-65 | the moves are `origin \| t` along the four orthogonal rays in the source's order |
| Rooks.MovesAsBits | wasm/src/game/pieces/rook.rs:67-89 | the accumulator gains the destinations and the origin, and loses nothing |
| Rooks.MovesAsBitsExclusive | wasm/src/game/pieces/rook.rs:91-113 | the accumulator gains exactly the destinations and loses nothing |
| Rooks.Geometry | wasm/src/game/pieces/rook.rs:54-64 | at most 28 destinations, each a square on the rook's rank or file |
| Rooks.VariantsAgree | wasm/src/game/pieces/rook.rs:54-64 | the three methods visit the same destinations: the move list's bits OR to what `moves_as_bits` adds, which is the exclusive set plus the origin when any move exists |
| Rooks.ExclusiveAvoidsOrigin | wasm/src/game/pieces/rook.rs:97-98 | the exclusive variant never adds the rook's own square |
| Queens.Moves | wasm/src/game/pieces/queen.rs:42-77 | the moves are `origin \| t` along the four orthogonal then the four diagonal rays |
| Queens.MovesAsBits | wasm/src/game/pieces/queen.rs:79-113 | the accumulator gains the destinations and the origin |
| Queens.MovesAsBitsExclusive | wasm/src/game/pieces/queen.rs:115-149 | the accumulator gains exactly the destinations |
| Queens.RookThenBishop | wasm/src/game/pieces/queen.rs:54-76 | the queen's destinations are the rook's followed by the bishop's from the same square, with the same `opp` and `team` |
| Queens.Geometry | wasm/src/game/pieces/queen.rs:54-76 | at most 56 destinations, each on a rank, file or diagonal through the queen |
| Queens.ExclusiveAvoidsOrigin | wasm/src/game/pieces/queen.rs:121-122 | the exclusive variant never adds the queen's own square |
| Kings.Moves | wasm/src/game/pieces/king.rs:35-74 | the moves are `origin \| t` for the eight single steps that stay on board and miss `team \| opp` |
| Kings.MovesAsBits | wasm/src/game/pieces/king.rs:76-114 | the accumulator gains those destinations and the origin |
| Kings.MovesAsBitsExclusive | wasm/src/game/pieces/king.rs:116-154 | the accumulator gains exactly those destinations |
| Kings.Safe | wasm/src/game/pieces/king.rs:36-47 | at most 8 moves, none onto a square of `opp` (attacked squares) or `team` |
| Kings.Geometry | wasm/src/game/pieces/king.rs:51-73 | the eight shifts are the eight neighbour steps: on board iff the neighbour exists, and then they are that square |
| Kings.Neighbourhood | wasm/src/game/util/core.rs:27-31 | with `opp = team = 0` the exclusive variant adds exactly the on-board neighbours, never the king's own square |
| Kings.ExclusiveAvoidsOrigin | wasm/src/game/pieces/king.rs:123-126 | the king's own square is never a destination |
| Pawns.Attack | wasm/src/game/pieces/pawn.rs:76-81 | a diagonal target is kept iff it is on board and meets `opp`, and the result reports whether it was kept |
| Pawns.Push | wasm/src/game/pieces/pawn.rs:69-75 | a push target is kept iff it is on board and in neither `team` nor `opp`, and the result reports whether it was kept |
| Pawns.Moves | wasm/src/game/pieces/pawn.rs:57-105 | two captures, the single push, and the double push only after a successful single push from the start rank, in that order |
| Pawns.Geometry | wasm/src/game/pieces/pawn.rs:85-101 | on the board: captures one file aside and one rank ahead of the pawn's colour when occupied by `opp`; a push one rank ahead when empty; two ranks ahead from rank 2 (White) or 7 (Black) when both are empty; at most 4 moves |
| Pawns.AvoidsOrigin | wasm/src/game/pieces/pawn.rs:85-101 | no pawn destination is the pawn's own square |
| Pawns.Attacks | wasm/src/game/pieces/pawn.rs:19-41 | `attacks` lists the on-board diagonal targets alone, with the pawn's colour |
| Pawns.AttacksInto | wasm/src/game/util/core.rs:23-26 | the attack map gains exactly the pawn's on-board diagonal targets |
| Pawns.AttackUnion | wasm/src/game/pieces/pawn.rs:24-38 | the attack squares are the two shifts by 0x0f and 0x11 toward the pawn's side, each kept only on board |
| Pawns.AttackGeometry | wasm/src/game/pieces/pawn.rs:29-38 | on the board the attacks are the existing squares one file aside and one rank ahead |
| Rays.Targets | wasm/src/game/pieces/rook.rs:19-26 | a ray's candidate targets are the seven shifts by i·step for i = 1..7 |
| Rays.WalkShape | wasm/src/game/pieces/bishop.rs:36-42 | a ray is a prefix of its targets, all on board and free of `team`; only its last square may meet `opp`; it stops early only at a capture, an off-board target or a `team` square |
| Rays.WalkUnique | wasm/src/game/pieces/bishop.rs:36-51 | the stopping rules determine the ray: any prefix with those properties is the ray |
| Rays.WalkPasses | wasm/src/game/pieces/bishop.rs:40-41 | an empty square does not end the ray: the next on-board square free of `team` is taken too |
| Rays.RayLength | wasm/src/game/pieces/bishop.rs:47 | a ray has at most 7 squares |
| Rays.TargetGeometry | wasm/src/game/pieces/bishop.rs:53-63 | the i-th target is the square i steps along the direction when it exists, and off the board otherwise |
| Rays.RayGeometry | wasm/src/game/pieces/rook.rs:54-64 | the k-th square of a ray is k+1 steps from the origin along its direction |
| Rays.PushRay | wasm/src/game/pieces/rook.rs:19-26 | the `test_move` loop with the pushing `validate` appends exactly the ray's moves |
| Rays.OrRay | wasm/src/game/pieces/rook.rs:67-89 | the `test_move` loop with the ORing `validate` adds exactly the ray's squares (with or without the origin) |
| Rays.PushRays | wasm/src/game/pieces/queen.rs:42-77 | walking several directions in order appends their rays in that order |
| Rays.OrRays | wasm/src/game/pieces/queen.rs:79-113 | walking several directions ORs in the union of their rays |
| Rays.SweepAppend | wasm/src/game/pieces/queen.rs:54-76 | the rays of two direction lists, walked one after the other, are the concatenation |
| Rays.SweepLength | wasm/src/game/pieces/queen.rs:54-76 | n directions give at most 7n destinations |
| Rays.SweepKept | wasm/src/game/pieces/rook.rs:46-52 | every destination is on board and free of `team` |
| Rays.SweepGeometry | wasm/src/game/pieces/rook.rs:54-64 | every destination lies 1..7 steps along one of the walked directions |
| Rays.SweepAvoidsOrigin | wasm/src/game/pieces/rook.rs:97-98 | no ray returns to its origin |
| Rays.RayAvoidsOrigin | wasm/src/game/pieces/rook.rs:97-98 | a single ray never contains its origin |
| Steps.Free | wasm/src/game/pieces/king.rs:43-47 | the kept targets are exactly those on board and free of the blockers, and no more than the candidates |
| Steps.PushIfOpen | wasm/src/game/pieces/king.rs:43-47 | one `validate` call appends `origin \| t` iff `t` is on board and unblocked |
| Steps.OrIfOpen | wasm/src/game/pieces/king.rs:83-87 | one ORing `validate` call adds `t` (and the origin) iff `t` is on board and unblocked |
| Steps.PushEach | wasm/src/game/pieces/king.rs:51-73 | a fixed list of steps appends the moves to the unblocked ones, in order |
| Steps.OrEach | wasm/src/game/pieces/king.rs:91-113 | a fixed list of steps ORs in the unblocked ones |
| Steps.FreeAvoids | wasm/src/game/pieces/king.rs:123-126 | filtering keeps targets that avoid the origin away from it |
| Steps.FreeUnionMember | wasm/src/game/pieces/king.rs:123-126 | a square is ORed in iff some candidate holding it is on board and unblocked |
| Dispatch.Moves | wasm/src/game/pieces/mod.rs:23-42 | `piece.moves(opp, team, moves)` appends the moves of the piece's own generator |
| Dispatch.MoveShape | wasm/src/game/pieces/mod.rs:38 | each generated move keeps kind and colour, is the origin plus one on-board destination, and (except for pawns, which test `opp`) misses `team` |
| Dispatch.AvoidsOrigin | wasm/src/game/pieces/mod.rs:40-41 | for a piece on one square, no destination is that square |
| Dispatch.XorDestinations | wasm/src/game/game.rs:59-61 | `m.bits() ^ piece.bits()` recovers each destination exactly |
| GameInfo.Init | wasm/src/game/util/mod.rs:32-66 | `GameInfo::init` reads the game and yields `InitOf`: the two side boards and the mover's last king, or a panic |
| GameInfo.InitShape | wasm/src/game/util/mod.rs:33-63 | `init` succeeds iff the mover has a king, and then `king` is one of its kings, the counters are 0 and the three attack maps are empty; otherwise it panics |
| GameInfo.LastKingFound | wasm/src/game/util/mod.rs:42-44 | the king found is a king of the mover, and none is found only when the mover has none |
| GameInfo.SidesCover | wasm/src/game/util/mod.rs:39-51 | `team_pieces` holds exactly the squares of the mover's pieces, and `team_pieces \| opp_pieces` is the OR of every piece |
| MoveGen.GenMoves | wasm/src/game/util/core.rs:10-56 | appends the mover's non-king moves and ORs the opponent's attacks, diagonal and straight sliders into the info, leaving the rest of the info unchanged |
| MoveGen.Own | wasm/src/game/util/core.rs:12-20 | a mover's pawn sees `opp \| en_passant_square` as capturable, other non-kings `opp`; the king adds nothing |
| MoveGen.Opponent | wasm/src/game/util/core.rs:21-53 | an opponent piece only ORs squares: its attacks with the mover's king transparent and `team = 0`, plus its own square into the diagonal/straight maps for bishops, rooks and queens |
| MoveGen.RayPassesKing | wasm/src/game/util/core.rs:34-49 | a ray reaching the mover's king continues to the next square, so the square behind the king counts as attacked |
| MoveGen.AppendedOwn | wasm/src/game/util/core.rs:11-20 | every appended move is a non-king move of the side to move, grown from one of its pieces |
| Check.FilterPins | wasm/src/game/util/check.rs:16-29 | the loops with early return compute `Unpinned`: no bishop or rook ray cast from the king, with blockers `team ^ mv`, meets a remaining pinner |
| Check.Misses | wasm/src/game/util/check.rs:22-24 | the early-return loop answers true iff no move's bits meet the test board |
| Check.UnpinnedSquares | wasm/src/game/util/check.rs:17-28 | in board terms: the move passes iff neither the bishop cast nor the rook cast from the king reaches a pinner not captured by the move |
| Check.HitsSquares | wasm/src/game/util/check.rs:22-27 | a move list meets a board away from its origin iff its destinations do |
| Check.CapturingPinnersPasses | wasm/src/game/util/check.rs:19-20 | a move whose bits cover every pinner (or when there is none) always passes |
| Check.GenCheckMoves | wasm/src/game/util/check.rs:31-101 | `gen_check_moves` reads info and game and yields `CheckMovesOf`: the attackers, the line of attack for the single attacker (for a queen the diagonal cast if it covers king and queen, else the straight one) and the mover's non-king moves meeting it |
| Check.FindAttackers | wasm/src/game/util/check.rs:32-45 | the first loop collects the opponent pieces reaching the king, and `attack` is the reach of the last of them |
| Check.Rays | wasm/src/game/util/check.rs:54-60 | `calc_rays` is the cast from the king square restricted to `attack` |
| Check.CollectEvasions | wasm/src/game/util/check.rs:90-98 | the last loop collects the mover's non-king moves that meet the rays |
| Check.KeepBlocking | wasm/src/game/util/check.rs:94-96 | keeps, in order, exactly the moves whose bits meet the rays |
| Check.CheckOutcome | wasm/src/game/util/check.rs:47-87 | two or more attackers give no moves; it panics exactly when there is no attacker (`attackers[0]`) or the single attacker is a king; it never returns an error |
| Check.BlockingMeets | wasm/src/game/util/check.rs:95 | every kept move is one of the candidates and meets the rays |
| Check.EvasionsOwn | wasm/src/game/util/check.rs:91-98 | every returned move is a non-king move of the side to move, from one of its pieces, meeting the rays |
| Castle.HomeSquares | wasm/src/game/util/castle.rs:16-19 | the four square sets are e1+h1, a1+e1, e8+h8 and a8+e8 |
| Castle.MoveSquares | wasm/src/game/util/castle.rs:24-33 | the king moves are e1↔g1, e1↔c1 (and on rank 8), the rook moves h1↔f1, a1↔d1, all on the board |
| Castle.ValidSquares | wasm/src/game/util/castle.rs:44-52 | the squares that must be clear are f1, g1 and b1, c1, d1; `EDGE_CASE` is b1 and b8 |
| Castle.ZonesSplit | wasm/src/game/util/castle.rs:24-47 | `K_ZONE` is the disjoint union of `K_MOVE` and `K_ROOK` (and `k_ZONE` likewise); the queen-side zones add b1/b8 |
| Castle.AddCastling | wasm/src/game/util/castle.rs:62-79 | appends `CastlingMoves` and keeps the existing moves |
| Castle.CastlingMovesShape | wasm/src/game/util/castle.rs:63-78 | at most two king moves of the given colour; the zone move of a side is present iff its flag is set and its clear squares miss the obstacles |
| Castle.TryCastle | wasm/src/game/util/castle.rs:81-88 | kind and colour are kept, and pieces other than kings and rooks are untouched |
| Castle.TryCastleTwice | wasm/src/game/util/castle.rs:82-88 | applying `try_castle` twice restores the piece |
| Castle.TryCastleHome | wasm/src/game/util/castle.rs:82-88 | from the home squares it takes the king to g1/c1 (g8/c8) and the rook to f1/d1 (f8/d8) |
| Castle.FixCastle | wasm/src/game/util/castle.rs:90-108 | only clears flags: the result is a subset of the input |
| Castle.FixCastleStable | wasm/src/game/util/castle.rs:95-107 | a move touching none of the home squares changes nothing, and a second call with the same move changes nothing more |
| Castle.FixCastleKingMoves | wasm/src/game/util/castle.rs:95-103 | a move touching e1 (and nothing on rank 8's home squares) clears both White flags; one touching e8 alone clears both Black flags |
| Castle.FixCastleIntended | wasm/src/game/util/castle.rs:13-19 | the corrected version only clears flags |
| Castle.FixCastleIntendedFlags | wasm/src/game/util/castle.rs:13-19 | the corrected version clears a flag iff the move touches its king or rook square, keeps every other bit, and agrees with the code on every move that stays on one side |
| Castle.FixCastleLongDiagonal | wasm/src/game/util/castle.rs:95-100 | the move h1–a8 keeps `q_ID` in the code but clears it in the corrected version |
| Promote.IndicatorSquares | wasm/src/game/util/promote.rs:21-30 | White's indicators are a1, b1, c1 inside `BLACK_BACK_RANK`, Black's a8, b8, c8 inside `WHITE_BACK_RANK`, and the two ranks are disjoint |
| Promote.AddPromotions | wasm/src/game/util/promote.rs:34-47 | appends `Promotions(mv)` and keeps the existing moves |
| Promote.PromotionsShape | wasm/src/game/util/promote.rs:36-46 | nothing is added unless the move touches its far rank; otherwise exactly three pawn moves, the move's bits plus the rook, knight and bishop indicators of its colour, pairwise distinct |
| Promote.TryPromote | wasm/src/game/util/promote.rs:49-69 | a move touching neither back rank leaves the piece unchanged; otherwise the piece keeps its bits, takes the mover's colour and becomes a rook, knight, bishop or queen |
| Promote.PromotionRoundTrip | wasm/src/game/util/promote.rs:35-69 | `try_promote` on the plain move gives a queen and on the three indicator moves gives rook, knight and bishop |
| Promote.WhiteReads | wasm/src/game/util/promote.rs:52-59 | for White the rank-1 indicator selects the piece and no indicator gives a queen |
| Promote.BlackReads | wasm/src/game/util/promote.rs:60-67 | for Black the rank-8 indicator selects the piece and no indicator gives a queen |
| Promote.IndicatorRead | wasm/src/game/util/promote.rs:53-61 | masking with the indicator rank isolates exactly the indicator added to a move clear of that rank |
| Games.OwnKings | wasm/src/game/game.rs:47-49 | the saved kings are kings of the side to move |
| Games.Shifted | wasm/src/game/game.rs:113-118 | each mover's piece meeting `mv` gets `mv` XOR-ed into its bits; every other piece is unchanged |
| Games.Played | wasm/src/game/game.rs:110-136 | castling and en passant are kept; a completed move flips the turn; a removal panic leaves turn and clocks alone |
| Games.Game.constructor | wasm/src/game/game.rs:15-24 | the new game holds exactly the given fields |
| Games.Game.Moves | wasm/src/game/game.rs:26-108 | `moves()` returns `MoveList`: the mover's non-king moves against its own and the opponent's boards, then its king moves against the opponent's attack map |
| Games.Game.MovePiece | wasm/src/game/game.rs:110-136 | XORs `mv` into the mover's pieces meeting it, removes the captured opponent pieces index by index in ascending order, resets or wraps `half_moves`, flips `turn` and bumps `move_count` after Black; a removal panic stops after the removals |
| Games.Game.ValidMove | wasm/src/game/game.rs:138-145 | succeeds iff some generated move's bits contain every bit of `mv`, else returns "Invalid Move" |
| Games.AnyCovers | wasm/src/game/game.rs:139-143 | true exactly when some move in the list has every bit of `mv` (`m.bits() & mv == mv`) |
| Games.Boards | wasm/src/game/game.rs:35-41 | the first loop builds the White and Black boards |
| Games.Scan | wasm/src/game/game.rs:43-82 | the second loop yields the mover's non-king moves, its kings and the opponent's attack map |
| Games.MoveKings | wasm/src/game/game.rs:84-96 | the king moves are appended last |
| Games.Mark | wasm/src/game/game.rs:113-125 | the first `move_piece` loop yields the shifted pieces and the ascending list of captured indices |
| Games.RemoveAll | wasm/src/game/game.rs:127 | removes the indices one after the other, panicking on one out of range |
| Games.MovesOwn | wasm/src/game/game.rs:44-96 | every returned move has the mover's colour and grows from one of the mover's pieces of the same kind |
| Games.KingsAvoid | wasm/src/game/game.rs:84-96 | every king move steps to one on-board square free of the attack map and of own pieces |
| Games.KingMovesSafe | wasm/src/game/game.rs:84-96 | a returned king move lands on a square not in the opponent's attack map and not holding an own piece |
| Games.AttacksReached | wasm/src/game/game.rs:54-61 | with single-square pieces the attack map is what the opponent's pieces reach: pawns their diagonals only, other pieces their destinations with everything capturable and `team = 0` |
| Games.MoveLands | wasm/src/game/game.rs:116-117 | applying a generated move by XOR puts the piece on that move's destination |
| Games.CapturedShifted | wasm/src/game/game.rs:113-124 | the XOR step never changes which opponent pieces are captured |
| Games.SurvivorsNone | wasm/src/game/game.rs:127 | with nothing captured every piece survives |
| Games.SurvivorsOne | wasm/src/game/game.rs:127 | with one capture the survivors are the list without that piece |
| Games.RemoveSingle | wasm/src/game/game.rs:120-127 | with at most one capture, the removal loop removes exactly the captured piece and keeps the others in order |
| Games.RemovesSurvivor | wasm/src/game/game.rs:127 | with two captures at indices 0 and 1, the ascending removal deletes a piece that was not captured |
| Games.RemovalPanics | wasm/src/game/game.rs:127 | with two captures at the end of the list, the second index is out of range (a panic) |
| Text.Words | wasm/src/game/fen/validate.rs:12 | `split_whitespace` yields non-empty fields without white space |
| Text.Split | wasm/src/game/fen/validate.rs:46 | `split('/')` yields at least one part, none holding the separator |
| Text.SplitJoin | wasm/src/game/fen/encode.rs:76-78 | splitting rows joined by `/` gives the rows back |
| Text.WordsJoin | wasm/src/game/fen/encode.rs:79-104 | splitting space-joined solid fields gives the fields back |
| Text.ParseU16 | wasm/src/game/fen/decode.rs:82-83 | a parsed `u16` is below 65536 |
| Text.Decimal | wasm/src/game/fen/encode.rs:102-104 | `to_string` gives a non-empty digit string without a leading zero |
| Text.DecimalValue | wasm/src/game/fen/encode.rs:102-104 | the digits read back as the number |
| Text.ParseDecimal | wasm/src/game/fen/decode.rs:82-83 | parsing a written clock gives the clock back |
| FenValidate.Letter | wasm/src/game/fen/encode.rs:30-55 | a piece's FEN letter names its kind and colour |
| FenValidate.LetterOf | wasm/src/game/fen/decode.rs:31-43 | reading a letter and writing it again gives the letter back |
| FenValidate.RowScan | wasm/src/game/fen/validate.rs:54-74 | the row loop never panics |
| FenValidate.RowsCheck | wasm/src/game/fen/validate.rs:52-75 | the rows loop never panics |
| FenValidate.KingCheck | wasm/src/game/fen/validate.rs:84-96 | `count_kings` never panics |
| FenValidate.ValidateOf | wasm/src/game/fen/validate.rs:10-101 | `validate` never panics |
| FenValidate.Validate | wasm/src/game/fen/validate.rs:10-101 | the checks in the source's order, with its messages |
| FenValidate.RowScanOk | wasm/src/game/fen/validate.rs:54-74 | a row passes iff every character is a digit or a piece letter, no two digits are adjacent, and the squares sum to 8 |
| FenValidate.RowsCheckOk | wasm/src/game/fen/validate.rs:52-75 | the rows pass iff every row is well formed |
| FenValidate.KingCheckOk | wasm/src/game/fen/validate.rs:84-98 | a king letter passes iff it occurs exactly once in the board field |
| FenValidate.ValidateOk | wasm/src/game/fen/validate.rs:10-101 | `validate` succeeds iff 6 fields, en passant `-` or a–h with 3 or 6, castling only from `kKqQ-`, side `w`/`b`, 8 well-formed rows, a coherent en-passant rank and one king of each colour; the clocks are not checked |
| FenDecode.ReadBoard | wasm/src/game/fen/decode.rs:22-49 | the board loop yields `BoardFrom`: row i is rank 7−i, read left to right |
| FenDecode.ReadRow | wasm/src/game/fen/decode.rs:25-48 | a digit advances the file; a letter pushes its piece at (x, y) and advances by one |
| FenDecode.Decode | wasm/src/game/fen/decode.rs:12-93 | `decode` yields `DecodeOf` |
| FenDecode.ReadFields | wasm/src/game/fen/decode.rs:51-92 | the remaining fields read as side, flags, en passant and clocks |
| FenDecode.ReadCastling | wasm/src/game/fen/decode.rs:57-61 | the castling loop adds each named flag once |
| FenDecode.ReadEnPassant | wasm/src/game/fen/decode.rs:63-80 | the en-passant branch yields `EnPassantOf` |
| FenDecode.DecodeOutcome | wasm/src/game/fen/decode.rs:12-83 | decode errs iff the text is not well formed, with `validate`'s message; it panics iff it is well formed but a clock is not a `u16` |
| FenDecode.DecodeFields | wasm/src/game/fen/decode.rs:51-83 | a decoded game has `w`↔White and `b`↔Black, the named flags, the named en-passant square on rank 3 or 6 (or none for `-`), and the parsed clocks below 65536 |
| FenDecode.FlagsNamed | wasm/src/game/fen/decode.rs:57-61 | each flag is set iff its letter occurs, and no other bit is set |
| FenDecode.EnPassantNamed | wasm/src/game/fen/decode.rs:63-80 | `-` gives no square; `f3` gives (f, rank 3) and `f6` gives (f, rank 6) |
| FenEncode.PosOf | wasm/src/game/fen/encode.rs:13-24 | `pos` finds an on-board set bit, and finds none exactly when there is none |
| FenEncode.Locate | wasm/src/game/fen/encode.rs:13-24 | the nested search loop yields `PosOf` |
| FenEncode.Grid | wasm/src/game/fen/encode.rs:26 | the board is 8 by 8 |
| FenEncode.FillBoard | wasm/src/game/fen/encode.rs:26-56 | fills a fresh 8×8 array with each piece's letter at its square, or reports a piece with no on-board bit |
| FenEncode.Place | wasm/src/game/fen/encode.rs:30-55 | writing one piece's letter keeps the array showing the pieces so far |
| FenEncode.Rows | wasm/src/game/fen/encode.rs:60-77 | one row text per rank |
| FenEncode.Encode | wasm/src/game/fen/encode.rs:12-108 | `encode` yields `EncodeOf` |
| FenEncode.WriteBoard | wasm/src/game/fen/encode.rs:58-78 | the rows loop writes each rank's text, from rank 8 down, each followed by `/` |
| FenEncode.WriteRow | wasm/src/game/fen/encode.rs:61-75 | one rank's loop writes its row text |
| FenEncode.WriteCastling | wasm/src/game/fen/encode.rs:87-93 | the castling loop writes `CastlingText` |
| FenEncode.TerminatedJoin | wasm/src/game/fen/encode.rs:76-78 | dropping the last `/` leaves the rows joined by `/` |
| FenRankText.RowTextShape | wasm/src/game/fen/encode.rs:61-75 | an emitted row has only digits and piece letters, no adjacent digits, and squares summing to 8 |
| FenRankText.RowTextReads | wasm/src/game/fen/decode.rs:27-48 | decoding an emitted row gives back the row's pieces at their squares |
| FenBoardText.RowsOk | wasm/src/game/fen/validate.rs:52-75 | every emitted row passes the row checks |
| FenBoardText.BoardReads | wasm/src/game/fen/decode.rs:22-49 | decoding the emitted rows gives the board's pieces in rank-8-first, file order |
| FenBoardOrder.Order | wasm/src/game/fen/encode.rs:13-24 | a piece's board order is below 64 iff `pos` finds its square |
| FenBoardOrder.PosOfSquare | wasm/src/game/fen/encode.rs:13-24 | `pos` of a square is that square |
| FenBoardOrder.GridChars | wasm/src/game/fen/encode.rs:26-56 | every cell is `.` or a piece letter |
| FenGridScan.GridRoundTrip | wasm/src/game/fen/encode.rs:26-56 | for a canonical piece list, reading the filled board back gives exactly the list |
| FenLetters.Letters | wasm/src/game/fen/encode.rs:30-55 | one letter per piece |
| FenLetters.PlacementCount | wasm/src/game/fen/validate.rs:84-98 | the board field's letters count each piece letter as the field does |
| FenLetters.JoinSplit | wasm/src/game/fen/validate.rs:46 | joining the `/`-split parts gives the text back |
| FenLetters.DecodeLetters | wasm/src/game/fen/decode.rs:22-49 | the decoded pieces spell the board field's letters in order |
| FenLetters.DecodeKings | wasm/src/game/fen/validate.rs:84-98 | a decoded game has exactly one king of each colour |
| FenRoundTrip.BoardTextShape | wasm/src/game/fen/encode.rs:58-78 | the emitted board splits into 8 well-formed rows that decode to the pieces |
| FenRoundTrip.CastlingTextShape | wasm/src/game/fen/encode.rs:87-93 | the castling text passes `validate` and decodes to the flags |
| FenRoundTrip.EnPassantTextShape | wasm/src/game/fen/encode.rs:96-100 | the en-passant text passes `validate`, is coherent with the side, and decodes to the square |
| FenRoundTrip.EncodedWords | wasm/src/game/fen/encode.rs:79-104 | the encoded text splits into the six written fields |
| FenRoundTrip.EncodedRead | wasm/src/game/fen/decode.rs:51-92 | reading the six written fields gives the game back |
| FenRoundTrip.RoundTrip | wasm/src/test/mod.rs:13-19 | for a game in canonical order, with one king each, known flags, a coherent en-passant square and `u16` clocks, `decode(encode(g)) == g` |
| FenRoundTrip.DecodeEncodable | wasm/src/game/fen/decode.rs:12-93 | every decoded game meets those conditions |
| FenRoundTrip.EncodeDecoded | wasm/src/test/mod.rs:13-19 | for every text that decodes, `encode(decode(s))` succeeds and decodes to the same game |
| Notation.Lowest | wasm/src/game/notation/algebraic.rs:4-17 | the search finds the lowest on-board set bit, and no on-board bit lies below it |
| Notation.Name | wasm/src/game/notation/algebraic.rs:8-13 | a name is a file letter a–h followed by a rank digit 1–8 |
| Notation.BitsToAlgebraic | wasm/src/game/notation/algebraic.rs:3-19 | the nested search loop yields `AlgebraicOf` |
| Notation.AlgebraicOfShape | wasm/src/game/notation/algebraic.rs:4-18 | it succeeds iff a bit is on board, and then names the lowest-rank, lowest-file one; otherwise it returns "Notation Error: unknown notation" |
| Notation.FileOf | wasm/src/game/notation/algebraic.rs:22 | the index of a file letter in "abcdefgh" |
| Notation.AlgebraicToBitsSquare | wasm/src/game/notation/algebraic.rs:21-31 | a file letter and rank digit 1–8 give that square; digits 0 and 9 wrap to rank 8 and rank 1 |
| Notation.NameOf | wasm/src/game/notation/algebraic.rs:8-13 | the name of square (x, y) is its file letter and digit y+1 |
| Notation.NameRoundTrip | wasm/src/game/notation/algebraic.rs:4-31 | `bits_to_algebraic(algebraic_to_bits(s))` is the first two characters of s for every s starting with [a-h][1-8] |
| Notation.SquareRoundTrip | wasm/src/game/notation/algebraic.rs:4-31 | `algebraic_to_bits(bits_to_algebraic(b)) == b` for every single square |
| Lanes.ConvertTo64 | src/pieces/mod.rs:27-33 | the lane loop yields `Compact`, whose bits lie in 0..63 |
| Lanes.LaneByteIs | src/pieces/mod.rs:30 | lane i contributes result bits 8i..8i+7 from input bits 16i+8..16i+15 |
| Lanes.CompactBit | src/pieces/mod.rs:29-31 | result bit 8i+j is input bit 16i+8+j |
| Lanes.CompactIgnoresGuard | src/pieces/mod.rs:30 | the off-board low byte of each lane has no effect |
| Lanes.CompactExpand | src/pieces/mod.rs:29-31 | every 64-bit board is the compaction of its spread-out board |
| Lanes.ExpandCompact | src/pieces/mod.rs:29-31 | spreading the result out again gives exactly the on-board part of the input |
| Lanes.CompactSquare | src/pieces/mod.rs:29-31 | square (x, y) becomes the single bit 8y+x |
| Engine.Wrap | wasm/src/engine/evaluate.rs:5-44 | an in-range `i32` value is kept as it is |
| Engine.WrapAdd | wasm/src/engine/evaluate.rs:16-42 | wrapping after each step equals wrapping once at the end |
| Engine.Worth | wasm/src/engine/evaluate.rs:24-40 | the piece values lie in 0..18, and only the king is worth 0 |
| Engine.Evaluate | wasm/src/engine/evaluate.rs:4-45 | the loop yields `EvalOf` and reads the game and info only |
| Engine.MaterialSwap | wasm/src/engine/evaluate.rs:24-40 | the material count seen from the other side is its negation |
| Engine.MaterialBounds | wasm/src/engine/evaluate.rs:16-42 | the material lies within ±18 per piece, and the opening bonus is at most one per piece |
| Engine.EvalShape | wasm/src/engine/evaluate.rs:7-40 | the evaluation is own minus opponent material, plus 1 per own piece in the central region before move 8, minus 2 in check and 1000 more with no valid move; without check from move 8 on it is the material alone |
| Engine.Max | wasm/src/engine/minimax.rs:26-27 | `cmp::max` is one of its arguments and at least both |
| Engine.Min | wasm/src/engine/minimax.rs:41-42 | `cmp::min` is one of its arguments and at most both |
| Engine.Search | wasm/src/engine/minimax.rs:10-49 | a searched value is an `i32` |
| Engine.MaxLoop | wasm/src/engine/minimax.rs:20-33 | the maximizer's result is at least its starting `best` |
| Engine.MinLoop | wasm/src/engine/minimax.rs:35-48 | the minimizer's result is at most its starting `best` |
| Engine.Minimax | wasm/src/engine/minimax.rs:10-49 | the recursive method yields `Search` |
| Engine.PlayCopy | wasm/src/engine/minimax.rs:24-25 | the child is `move_piece` applied to a clone, and the parent is unchanged |
| Engine.Maximize | wasm/src/engine/minimax.rs:20-33 | the maximizer loop yields `MaxLoop` from `best = i32::MIN` |
| Engine.Minimize | wasm/src/engine/minimax.rs:35-48 | the minimizer loop yields `MinLoop` from `best = i32::MAX` |
| Engine.Value | wasm/src/engine/minimax.rs:16-48 | plain minimax, without pruning, is an `i32` |
| Engine.MaxAll | wasm/src/engine/minimax.rs:20-33 | the maximum over all children is at least the start |
| Engine.MinAll | wasm/src/engine/minimax.rs:35-48 | the minimum over all children is at most the start |
| Engine.SearchSound | wasm/src/engine/minimax.rs:10-49 | alpha-beta agrees with plain minimax inside the window: clamped to [alpha, beta], the pruned and the full value coincide |
| Engine.MaxLoopSound | wasm/src/engine/minimax.rs:23-31 | the maximizer loop, raising alpha and stopping at `beta <= alpha`, keeps that agreement |
| Engine.MinLoopSound | wasm/src/engine/minimax.rs:38-46 | the minimizer loop, lowering beta and stopping at `beta <= alpha`, keeps that agreement |
| Engine.FullWindow | wasm/src/engine/minimax.rs:10-49 | called with the window [i32::MIN, i32::MAX], the search returns the exact minimax value |
| Engine.SearchLeaf | wasm/src/engine/minimax.rs:16-18 | at depth ≤ 1 or with no valid move, the search returns `evaluate` |

## Left out

- Bitboards are sets of bit positions instead of `u128` words. The operators used (`|`, `&`, `^`, `!`, shifts by constants, `== 0` tests) are modelled exactly on the 128 positions.
- The castling field of the `Game` struct is a `String` in one commit and a `u16` flag set in the others. The model keeps the flag set (`Games.Position.castling`), and its methods never change it.
- `Games.Game.Moves` models the `moves()` shown, which generates neither castling, promotion nor en passant, and does not filter pins. The later pipeline (`GameInfo::init`, `gen_moves`, `filter_pins`, `gen_check_moves`, `add_castling`, `add_promotions`) is modelled operation by operation. The code that chains these steps (`moves_verbose`) is not part of this model.
- `MoveGen.GenMoves` calls `pawn.attacks(&mut u128)`, which is not shown. It is modelled as `Pawns.AttacksInto`, the OR of the targets of the `attacks()` that is shown.
- Knight and bishop `moves_as_bits_exclusive` (called from `gen_moves`) are not shown either. They are modelled on the rook's pattern, with the generators' own stopping rules.
- `Castle.TryCastle` and `Promote.TryPromote` return the new piece rather than overwriting `*piece` in place, since a piece is a value.
- `Games.Game.MovePiece` keeps the source's ascending-index removal. `Games.RemoveSingle` proves it correct with at most one capture. `Games.RemovesSurvivor` and `Games.RemovalPanics` show two-capture positions where it deletes a survivor or panics.
- FenRoundTrip.EncodeDecoded: the round trip tested at `wasm/src/test/mod.rs:13-19` compares texts. Textual identity holds only for canonical FEN, not for every text that decodes, e.g.:
  - a row written `p0p6` (a zero digit);
  - castling written `QK`;
  - a clock written `007` or `+5`.
  
  What is proved for every decodable text is `decode(encode(decode(s))) == decode(s)`. Separately, `FenRoundTrip.RoundTrip` proves `decode(encode(g)) == g` for every encodable game.
- FenValidate.ValidateOf: the two clock checks of `validate` discard their parse results, so the model checks nothing there. This is why `FenDecode.DecodeOutcome` has a panic case.
- Engine.Evaluate: the `i32` arithmetic of `evaluate` wraps as in a release build; a debug build would panic on overflow instead. That needs more than 100 million pieces (`Engine.EvalShape`), so it never happens.
- The minimax move list and `GameInfo` come from a parameter `expand` standing for `moves_verbose`, whose body is not shown. `depth` is an unbounded natural rather than a `u8`.
- The search is sequential; no threading, parallel root search or time management is modelled.
- `Notation.AlgebraicToBits` models slicing a string shorter than two characters, or splitting a multi-byte character, as a panic. A rank digit `0` makes `y - 1` underflow; the model takes the release-build wrap, in which the shift amount is reduced mod 128.
- `wasm/src/engine/engine.rs` is a stub returning a "TODO" error and is not part of this model.
- The wasm-bindgen and JavaScript glue (`wasm/src/chess.rs`, `src/chess.rs` and the TypeScript/React files) is not part of this model; nor is the UI.
- The test drivers (`wasm/src/test/perft.rs`, `wasm/src/test/perft/debug.rs`) are left out. Perft node counts are obtained by running the program, and one compares against an external crate.
- The older top-level `src/` tree, other than `convert_to_64bit`, is superseded by `wasm/` and not part of this model.
- Error types and `Display` impls (`wasm/src/engine/mod.rs`, `wasm/src/game/fen/mod.rs`, `wasm/src/game/notation/mod.rs`) are not modelled; errors carry their message text only.

## Findings

| source | as written | input that shows it | evidently intended | confidence | as-written member | corrected member |
|---|---|---|---|---|---|---|
| wasm/src/game/util/castle.rs:95-106 | `fix_castle` tests the rank-1 square sets with `else if` fallbacks to the rank-8 sets, so a move touching both e1/h1 and a8 skips the a8 test | a bishop or queen moving h1→a8 and capturing the a8 rook: `mv` = h1 + a8 keeps `q_ID` | every flag whose king or rook square the move touches is cleared | medium (not executed) | Castle.FixCastleLongDiagonal | Castle.FixCastleIntendedFlags |
