# prediction-chess: the board rules and turn bookkeeping in Dafny

Prediction chess is a two-player networked chess variant. Each turn a player
commits up to three moves for their own pieces and up to three predictions of
where enemy pieces will go; when both players are done, the turn is resolved.
This project models the rules that decide what a player may commit, and
proves what they promise:

- `BoardPosition`, the clamped 8x8 board square, with its equality, hash,
  text form and two-byte wire codec (modules `Mathb`, `BoardPositions`,
  `CustomTypeSerialization`).
- The two colours and their inversion (`ChessColors`).
- The LINQ queries over a collection of pieces (`PiecesExtensions`). A
  collection is a `seq<Piece>`; each lambda passed to `Where` is a case of the
  `Criterion` datatype.
- A piece and its per-turn commitments, as a class whose setters update its
  fields (`Pieces.Piece`), and the earlier revision of that class
  (`LegacyPiece.Piece`). Each `SetX`/`RPCSyncX` pair is one local update.
- The movement rule of each kind of piece (`Pawns`, `Knights`, `Bishops`,
  `Rooks`, `Queens`, `Kings`). Each rule is a specification function
  `Destinations` plus a method `CalculateLegalDestinations` that builds the
  set the way the source does (`Add`, `UnionWith`, `RemoveWhere`). Each
  method is proved equal to its specification function.
- The virtual dispatch over kinds, and the legality of a move and of a
  prediction (`Movement`).
- The player's turn: counts and caps, turn legality, the "done" handshake and
  the reset of a turn's commitments (`Players`).

Several helpers that the rules call have no definition in the available
source: `Piece.AllAlive`, `Others`, `Friends`, `Enemies`, `BoardPosition.Add`,
`CalculateLegalDestinationsInDirection`, `MoveIsLegal` and
`PredictionIsLegal`. The model defines them in module `Board` and in
`Movement`, and states in each one's contract the meaning its callers rely
on. `all` stands for the registry of every piece in the game. Each piece is
one game object and appears in it once (`PiecesExtensions.Distinct`); the
lemmas that equate a count with a number of pieces assume that.

`Add` is used in two ways. The pawn stores its result as a plain position,
so an off-board step is clamped back onto the board (`Board.AddClamped`).
The knight treats the result as nullable, with off-board meaning null
(`Board.Add`). The pawn rule as written, with clamping, lets a pawn capture
straight ahead or sideways at the board edge (see "## Findings"). The model
keeps that version as `Pawns.ClampedDestinations`. Everything downstream uses
`Pawns.Destinations`, where an off-board step gives no destination.

`AtPosition` is LINQ `SingleOrDefault`, which throws when two pieces match.
Every rule that calls it therefore requires `Board.SingleOccupancy(all)`: no
two living pieces share a square.

## Model

| member | source | states |
|---|---|---|
| Mathb.Clamp | Assets/Scripts/Helpers/Mathb.cs:3-8 | below `min` gives `min`; within the bounds gives the value; above `max` gives `max`; when `min <= max` the result is within the bounds |
| Mathb.ClampIdempotent | Assets/Scripts/Helpers/Mathb.cs:3-8 | clamping twice is clamping once |
| ChessColors.Invert | Assets/Scripts/ChessColor.cs:9-12 | the result is never the argument, and White maps to Black and Black to White |
| ChessColors.InvertInvolution | Assets/Scripts/ChessColor.cs:9-12 | inverting twice gives the colour back |
| ChessColors.InvertCovers | Assets/Scripts/ChessColor.cs:1-12 | every colour is a given colour or its inverse |
| BoardPositions.FromBytes | Assets/Scripts/BoardPosition.cs:12-16 | the byte constructor always gives an on-board square; a coordinate up to 7 is kept, a larger one becomes 7 |
| BoardPositions.FromBytesOnBoard | Assets/Scripts/BoardPosition.cs:12-16 | constructing from an on-board square's own bytes gives that square back |
| BoardPositions.Eq | Assets/Scripts/BoardPosition.cs:42-45 | `==` holds exactly when both coordinates match |
| BoardPositions.NotEq | Assets/Scripts/BoardPosition.cs:47-50 | `!=` is the negation of `==` |
| BoardPositions.NullableEq | Assets/Scripts/Pieces/Piece.cs:27 | C#'s lifted `==` on nullable positions is exactly value equality: two nulls are equal, null never equals a square |
| BoardPositions.Equals | Assets/Scripts/BoardPosition.cs:22-32 | agrees with `==` for a boxed position and is false for null or any other type |
| BoardPositions.WrapInt32 | Assets/Scripts/BoardPosition.cs:36-39 | unchecked `int` arithmetic: the result is in the 32-bit range, congruent to the input modulo 2^32, and equal to it when it already fits |
| BoardPositions.GetHashCode | Assets/Scripts/BoardPosition.cs:34-40 | the hash is a 32-bit `int` |
| BoardPositions.EqualsImpliesSameHash | Assets/Scripts/BoardPosition.cs:22-40 | positions that are `Equals` hash alike |
| BoardPositions.Decimal | Assets/Scripts/BoardPosition.cs:54 | a number's text is a non-empty string of decimal digits |
| BoardPositions.DecimalRoundTrip | Assets/Scripts/BoardPosition.cs:54 | reading back the digits of a number gives the number |
| BoardPositions.ToString | Assets/Scripts/BoardPosition.cs:52-55 | the text starts with "(" and ends with ")" |
| BoardPositions.ToStringOnBoard | Assets/Scripts/BoardPosition.cs:52-55 | an on-board square renders as exactly "(x,y)" with one digit each |
| BoardPositions.ToStringInjective | Assets/Scripts/BoardPosition.cs:52-55 | distinct positions render as distinct texts |
| CustomTypeSerialization.SerializeBoardPosition | Assets/Scripts/Networking/CustomTypeSerialization.cs:19-23 | exactly two bytes, x then y |
| CustomTypeSerialization.DeserializeBoardPosition | Assets/Scripts/Networking/CustomTypeSerialization.cs:12-17 | fails exactly when fewer than two bytes are given; a decoded square is always on the board |
| CustomTypeSerialization.DeserializeSerialize | Assets/Scripts/Networking/CustomTypeSerialization.cs:12-23 | decoding the encoding of a constructed square gives it back |
| CustomTypeSerialization.SerializeDeserialize | Assets/Scripts/Networking/CustomTypeSerialization.cs:12-23 | a two-byte message with both bytes at most 7 is reproduced exactly |
| CustomTypeSerialization.DeserializeIgnoresTail | Assets/Scripts/Networking/CustomTypeSerialization.cs:12-17 | bytes after the second are ignored |
| CustomTypeSerialization.DeserializeClamps | Assets/Scripts/Networking/CustomTypeSerialization.cs:14-16 | a byte above 7 decodes as 7, any other byte as itself |
| PiecesExtensions.Where | Assets/Scripts/Pieces/PiecesExtensions.cs:18 | the result holds exactly the matching pieces of the input, and is no longer than the input |
| PiecesExtensions.WhereAppend | Assets/Scripts/Pieces/PiecesExtensions.cs:18 | filtering keeps the input's order: the filter of a concatenation is the concatenation of the filters |
| PiecesExtensions.WhereSingleton | Assets/Scripts/Pieces/PiecesExtensions.cs:18 | a one-piece input is kept exactly when the piece matches |
| PiecesExtensions.WhereMultiplicity | Assets/Scripts/Pieces/PiecesExtensions.cs:18 | a matching piece occurs as often as in the input, any other piece never |
| PiecesExtensions.WhereDistinct | Assets/Scripts/Pieces/PiecesExtensions.cs:18 | filtering a collection of distinct pieces gives distinct pieces |
| PiecesExtensions.WhereCount | Assets/Scripts/Pieces/PiecesExtensions.cs:18 | over distinct pieces, the length of the filter is the number of pieces that match, so LINQ `Count` counts pieces |
| PiecesExtensions.WhereNarrows | Assets/Scripts/Pieces/PiecesExtensions.cs:16-24 | filtering first never adds matches of a second criterion |
| PiecesExtensions.WhereEmpty | Assets/Scripts/Pieces/PiecesExtensions.cs:11-14 | the result is empty exactly when nothing matches |
| PiecesExtensions.WhereTwo | Assets/Scripts/Pieces/PiecesExtensions.cs:8 | two distinct matching pieces make a result of at least two, so `SingleOrDefault` would throw |
| PiecesExtensions.AtPosition | Assets/Scripts/Pieces/PiecesExtensions.cs:6-9 | requires at most one piece on the square; gives the one piece on it, or null exactly when no piece stands there |
| PiecesExtensions.AtNullPosition | Assets/Scripts/Pieces/PiecesExtensions.cs:6-9 | with a null square no piece matches and the result is null |
| PiecesExtensions.MovingTo | Assets/Scripts/Pieces/PiecesExtensions.cs:16-19 | exactly the pieces whose move is the target |
| PiecesExtensions.MovingToAppend | Assets/Scripts/Pieces/PiecesExtensions.cs:16-19 | the moving pieces keep the input's order |
| PiecesExtensions.AnyMovingTo | Assets/Scripts/Pieces/PiecesExtensions.cs:11-14 | true exactly when some piece's move is the target |
| PiecesExtensions.OfColor | Assets/Scripts/Pieces/PiecesExtensions.cs:21-24 | exactly the pieces of the colour |
| PiecesExtensions.OfColorAppend | Assets/Scripts/Pieces/PiecesExtensions.cs:21-24 | the pieces of a colour keep the input's order |
| PiecesExtensions.OfColorPartition | Assets/Scripts/Pieces/PiecesExtensions.cs:21-24 | the pieces of a colour and of its inverse together are the input, as a multiset |
| Pieces.Piece.constructor | Assets/Scripts/Pieces/Piece.cs:10-14 | a new piece is alive on its square with no move and no prediction |
| Pieces.Piece.Power | Assets/Scripts/Pieces/Piece.cs:18-33 | the power is in -2..1: -2 with neither move nor prediction, -1 when the move was predicted, 0 with only a prediction, 1 when moving unpredicted |
| Pieces.Piece.SetPos | Assets/Scripts/Pieces/Piece.cs:61-75 | the position becomes the square; only the position may change |
| Pieces.Piece.SetMove | Assets/Scripts/Pieces/Piece.cs:89-101 | a target equal to the move changes nothing; otherwise the own square is stored as no move and any other target as given; only the move may change; a normalised piece stays normalised |
| Pieces.Piece.SetPrediction | Assets/Scripts/Pieces/Piece.cs:115-127 | the same rule on the prediction; only the prediction may change |
| Pieces.Piece.SetMoveOrPrediction | Assets/Scripts/Pieces/Piece.cs:77-87 | the owner changes only the move, the opponent only the prediction, each by the setter's rule: a target equal to the stored value changes nothing, the own square is stored as none, any other target as given |
| Pieces.Piece.ResetMove | Assets/Scripts/Pieces/Piece.cs:103-106 | the move is cleared unless it names the own square; on a normalised piece it is always cleared |
| Pieces.Piece.ResetPrediction | Assets/Scripts/Pieces/Piece.cs:129-132 | the same for the prediction |
| Pieces.Piece.Die | Assets/Scripts/Pieces/Piece.cs:141-150 | the piece is dead afterwards; no member sets it alive again |
| LegacyPiece.Piece.constructor | Assets/Scripts/Piece.cs:18-24 | the square is fixed and both commitments start as null |
| LegacyPiece.Piece.SetMove | Assets/Scripts/Piece.cs:48-62 | a target equal to `_move` changes nothing, the own square stores null, any other target is stored; only `_move` changes and neither field ever names the own square |
| LegacyPiece.Piece.SetPrediction | Assets/Scripts/Piece.cs:71-85 | the same rule on `_prediction` |
| Board.AllAlive | Assets/Scripts/Player.cs:52 | exactly the living pieces |
| Board.Others | Assets/Scripts/Pieces/Pawn.cs:12 | exactly the living pieces other than the piece |
| Board.Friends | Assets/Scripts/Pieces/Knight.cs:20 | exactly the other living pieces of the piece's colour |
| Board.Enemies | Assets/Scripts/Pieces/Pawn.cs:28 | exactly the living pieces of the other colour |
| Board.AtPositionDefined | Assets/Scripts/Pieces/PiecesExtensions.cs:8 | with no two living pieces on a square, `AtPosition` may be asked of the others, the friends and the enemies |
| Board.AtPositionOccupied | Assets/Scripts/Pieces/PiecesExtensions.cs:6-9 | `AtPosition` finds a piece exactly on an occupied square |
| Board.OtherAt | Assets/Scripts/Pieces/Pawn.cs:12 | `Others.AtPosition(q) != null` holds exactly when another living piece stands on `q` |
| Board.FriendAt | Assets/Scripts/Pieces/Knight.cs:20 | `Friends.AtPosition(q) != null` holds exactly when a friend stands on `q` |
| Board.EnemyAt | Assets/Scripts/Pieces/Pawn.cs:28 | `Enemies.AtPosition(q) != null` holds exactly when an enemy stands on `q` |
| Board.FriendOrEnemy | Assets/Scripts/Pieces/Pawn.cs:28 | no square holds both a friend and an enemy |
| Board.Add | Assets/Scripts/Pieces/Knight.cs:27-28 | null exactly when the step leaves the board; otherwise the on-board square at the offset |
| Board.ClampCoord | Assets/Scripts/Pieces/Pawn.cs:11 | a coordinate pushed back into 0..7 |
| Board.AddClamped | Assets/Scripts/Pieces/Pawn.cs:11 | always on the board, and the plain step whenever that is on the board |
| Board.Ray | Assets/Scripts/Pieces/Bishop.cs:7-10 | every square of a ray is on the board and not held by a friend |
| Board.RayAlong | Assets/Scripts/Pieces/Bishop.cs:7-10 | every square of a ray lies one to `n` steps along its direction |
| Board.RayMonotone | Assets/Scripts/Pieces/King.cs:9-17 | a ray capped shorter is contained in the longer one |
| Board.RayCapBeyondReach | Assets/Scripts/Pieces/Rook.cs:7-10 | once the cap reaches the board edge, a larger cap gives the same ray |
| Board.RayUnlimited | Assets/Scripts/Pieces/Rook.cs:7-10 | any cap of at least 7 gives the uncapped ray |
| Board.RayReaches | Assets/Scripts/Pieces/Bishop.cs:7-10 | a ray reaches every on-board square within its cap not held by a friend and with only empty squares before it |
| Board.RayBlocked | Assets/Scripts/Pieces/Bishop.cs:7-10 | every square of a ray lies some `k` steps along it with every square before it empty: the walk stops at the first piece, friend or enemy, and never jumps one |
| Board.RayIff | Assets/Scripts/Pieces/Bishop.cs:7-10 | a ray holds exactly the squares within its cap that have only empty squares before them and that no friend holds |
| Pawns.Forward | Assets/Scripts/Pieces/Pawn.cs:8 | +1 exactly for White, -1 exactly for Black |
| Pawns.OnStartRank | Assets/Scripts/Pieces/Pawn.cs:18 | from the start rank (y = 1 for White, y = 6 for Black) both the single and the double step stay on the board |
| Pawns.ClampedMoves | Assets/Scripts/Pieces/Pawn.cs:10-23 | the forward steps as written: every one is on the board and free, and the double step is only ever taken together with the single step |
| Pawns.WithCapture | Assets/Scripts/Pieces/Pawn.cs:28-35 | an attack square is added exactly when an enemy holds it, and nothing else is added |
| Pawns.ClampedDestinations | Assets/Scripts/Pieces/Pawn.cs:5-41 | the rule as written, with clamped steps: the own square is never in the result |
| Pawns.CalculateLegalDestinationsClamped | Assets/Scripts/Pieces/Pawn.cs:5-41 | the set built step by step as written equals `ClampedDestinations` |
| Pawns.Moves | Assets/Scripts/Pieces/Pawn.cs:10-23 | the forward steps with off-board steps dropped: at most two squares, in the pawn's own column, free, and only with the single step on the board and taken |
| Pawns.Destinations | Assets/Scripts/Pieces/Pawn.cs:5-41 | the corrected rule: every destination is on the board (the full rule is `Pawns.DestinationsIff`) |
| Pawns.ClampedCapturesStraightAhead | Assets/Scripts/Pieces/Pawn.cs:26-30 | a white pawn on (7,3) with an enemy on (7,4) can capture straight ahead as written, but not in the corrected rule |
| Pawns.ClampedCapturesSideways | Assets/Scripts/Pieces/Pawn.cs:26-30 | a white pawn on (3,7) with an enemy on (4,7) can capture sideways as written, but not in the corrected rule |
| Pawns.CalculateLegalDestinations | Assets/Scripts/Pieces/Pawn.cs:5-41 | the set built step by step with off-board steps skipped equals `Destinations`, and never holds the own square |
| Pawns.MovesIff | Assets/Scripts/Pieces/Pawn.cs:10-23 | a square is a forward step exactly when it is on the board and is the free square ahead, or the free square two ahead from the start rank with the square between free |
| Pawns.DestinationIff | Assets/Scripts/Pieces/Pawn.cs:10-35 | one square is a destination exactly when it is such a forward step or a square diagonally ahead that an enemy holds |
| Pawns.DestinationsIff | Assets/Scripts/Pieces/Pawn.cs:10-35 | for every square: a destination exactly when it is on the board and is the free square ahead, the free square two ahead from the start rank with the square between free, or a square diagonally ahead that an enemy holds |
| Pawns.NeverStays | Assets/Scripts/Pieces/Pawn.cs:37-38 | the own square is never a destination |
| Pawns.DestinationsAhead | Assets/Scripts/Pieces/Pawn.cs:11-35 | every destination is one of the four candidates: one ahead, two ahead, or diagonally ahead |
| Pawns.NoFriendlyDestination | Assets/Scripts/Pieces/Pawn.cs:10-35 | no destination is held by a friend |
| Knights.Landings | Assets/Scripts/Pieces/Knight.cs:25-32 | no more landing squares than offsets |
| Knights.LandingsIff | Assets/Scripts/Pieces/Knight.cs:25-32 | a square is landed on exactly when it is on the board and its offset is one of those tried: off-board jumps are skipped |
| Knights.LandingsOfJumps | Assets/Scripts/Pieces/Knight.cs:10-17 | the landings of all jumps are those of the eight `MaybeAddMove` calls, gathered in order |
| Knights.JumpsAreKnightJumps | Assets/Scripts/Pieces/Knight.cs:10-17 | the eight offsets are exactly the (±1, ±2) and (±2, ±1) jumps |
| Knights.MaybeAddMove | Assets/Scripts/Pieces/Knight.cs:25-32 | the set grows by the jump's square when that is on the board, and by nothing otherwise |
| Knights.RemoveFriends | Assets/Scripts/Pieces/Knight.cs:20 | exactly the squares no friend holds are kept |
| Knights.CalculateLegalDestinations | Assets/Scripts/Pieces/Knight.cs:5-23 | the eight jumps collected and pruned of friends equal `Destinations` |
| Knights.Destinations | Assets/Scripts/Pieces/Knight.cs:5-23 | every destination is on the board and not held by a friend |
| Knights.DestinationsIff | Assets/Scripts/Pieces/Knight.cs:5-23 | a square is a destination exactly when it is on the board, a knight's jump away and not held by a friend |
| Knights.CapturesKept | Assets/Scripts/Pieces/Knight.cs:20 | a jump onto an enemy is kept |
| Knights.AtMostEight | Assets/Scripts/Pieces/Knight.cs:9-17 | at most eight destinations |
| Bishops.Destinations | Assets/Scripts/Pieces/Bishop.cs:5-18 | every destination is on the board and not held by a friend |
| Bishops.CalculateLegalDestinations | Assets/Scripts/Pieces/Bishop.cs:5-18 | the in-place union of the four diagonal rays equals `Destinations`, and every destination is on a diagonal |
| Bishops.DiagonalRay | Assets/Scripts/Pieces/Bishop.cs:7-10 | a diagonal ray stays on its diagonal |
| Bishops.DestinationsDiagonal | Assets/Scripts/Pieces/Bishop.cs:7-17 | every destination has equal, nonzero steps along both axes |
| Bishops.DestinationsReach | Assets/Scripts/Pieces/Bishop.cs:7-17 | every square along a diagonal with only empty squares before it and not held by a friend is a destination |
| Bishops.DestinationsIff | Assets/Scripts/Pieces/Bishop.cs:5-18 | a square is a destination exactly when it lies along one of the four diagonal directions within the board, every square before it is empty, and no friend holds it |
| Rooks.Destinations | Assets/Scripts/Pieces/Rook.cs:5-18 | every destination is on the board and not held by a friend |
| Rooks.CalculateLegalDestinations | Assets/Scripts/Pieces/Rook.cs:5-18 | the in-place union of the four orthogonal rays equals `Destinations`, and every destination is on a line |
| Rooks.StraightRay | Assets/Scripts/Pieces/Rook.cs:7-10 | an orthogonal ray stays on its row or column |
| Rooks.DestinationsStraight | Assets/Scripts/Pieces/Rook.cs:7-17 | every destination shares its row or its column with the rook, but not both |
| Rooks.DestinationsReach | Assets/Scripts/Pieces/Rook.cs:7-17 | every square along a line with only empty squares before it and not held by a friend is a destination |
| Rooks.DestinationsIff | Assets/Scripts/Pieces/Rook.cs:5-18 | a square is a destination exactly when it lies in one of the four directions along the rook's row or column within the board, every square before it is empty, and no friend holds it |
| Queens.Destinations | Assets/Scripts/Pieces/Queen.cs:5-28 | every destination is on the board and not held by a friend |
| Queens.CalculateLegalDestinations | Assets/Scripts/Pieces/Queen.cs:5-28 | the in-place union of the eight rays equals `Destinations` and equals the rook's plus the bishop's destinations |
| Queens.RookPlusBishop | Assets/Scripts/Pieces/Queen.cs:7-26 | the queen's destinations are the rook's and the bishop's together, whatever the order of the unions |
| Queens.DestinationsOnLine | Assets/Scripts/Pieces/Queen.cs:7-26 | every destination is on a line or a diagonal through the queen |
| Kings.Destinations | Assets/Scripts/Pieces/King.cs:7-29 | every destination is on the board and not held by a friend |
| Kings.CalculateLegalDestinations | Assets/Scripts/Pieces/King.cs:7-29 | the in-place union of the eight capped rays equals `Destinations`: exactly the adjacent on-board squares no friend holds |
| Kings.WithinQueen | Assets/Scripts/Pieces/King.cs:5-28 | the king's destinations are a subset of the queen's from the same square |
| Kings.OneStepRay | Assets/Scripts/Pieces/King.cs:5-17 | a ray capped at `MOVE_DISTANCE` holds only adjacent squares |
| Kings.DestinationsAdjacent | Assets/Scripts/Pieces/King.cs:5-28 | a square is a destination exactly when it is adjacent, on the board and not held by a friend |
| Movement.CalculateLegalDestinations | Assets/Scripts/Pieces/Pawn.cs:5 | the kind's own `CalculateLegalDestinations` (for a pawn the corrected rule) computes `LegalDestinations`, which never holds the own square |
| Movement.LegalDestinations | Assets/Scripts/Pieces/Pawn.cs:5 | the virtual `CalculateLegalDestinations` chosen by kind (for a pawn the corrected rule): every destination is on the board |
| Movement.NeverOwnSquare | Assets/Scripts/Pieces/Pawn.cs:37-38 | no kind of piece may stay on its own square |
| Movement.NeverOntoFriend | Assets/Scripts/Pieces/Knight.cs:19-20 | no kind of piece may move off the board or onto a living friend |
| Movement.MoveIsLegal | Assets/Scripts/Player.cs:70 | legal exactly when there is no move, or the move is a legal destination that no other living friend is moving to |
| Movement.PredictionIsLegal | Assets/Scripts/Player.cs:71 | legal exactly when there is no prediction or the predicted piece could move there |
| Movement.LegalMoveGoesSomewhere | Assets/Scripts/Player.cs:70 | a legal move leaves the own square and lands on the board, not on a friend |
| Movement.NoSharedLanding | Assets/Scripts/Player.cs:70 | two living friends moving to the same square both have illegal moves |
| Players.Player.constructor | Assets/Scripts/Player.cs:31 | a new player is not done |
| Players.Player.Pieces | Assets/Scripts/Player.cs:52 | exactly the living pieces of the player's colour |
| Players.Player.EnemyPieces | Assets/Scripts/Player.cs:53 | exactly the living pieces of the other colour |
| Players.Player.MoveCount | Assets/Scripts/Player.cs:66 | zero exactly when no own living piece has a move (`MoveCountIsMovers` pins every value) |
| Players.Player.PredictionCount | Assets/Scripts/Player.cs:67 | zero exactly when no living piece of the other player has a prediction (`PredictionCountIsPredicted` pins every value) |
| Players.Player.MoveCountOk | Assets/Scripts/Player.cs:68 | a player who has moved no piece is within the cap of 3 (`MoveCountOkIff` gives the exact condition) |
| Players.Player.PredictionCountOk | Assets/Scripts/Player.cs:69 | a player who has predicted nothing is within the cap of 3 (`PredictionCountOkIff` gives the exact condition) |
| Players.Player.MoveCountIsMovers | Assets/Scripts/Player.cs:66 | over a registry of distinct pieces, the move count is the number of own living pieces with a move |
| Players.Player.PredictionCountIsPredicted | Assets/Scripts/Player.cs:67 | over a registry of distinct pieces, the prediction count is the number of the other player's living pieces with a prediction |
| Players.Player.MoveCountOkIff | Assets/Scripts/Player.cs:68 | over a registry of distinct pieces, the move cap holds exactly when at most 3 own living pieces have a move |
| Players.Player.PredictionCountOkIff | Assets/Scripts/Player.cs:69 | over a registry of distinct pieces, the prediction cap holds exactly when at most 3 of the other player's living pieces carry a prediction |
| Players.Player.AllMovesLegal | Assets/Scripts/Player.cs:70 | true exactly when every own living piece has a legal move |
| Players.Player.AllPredictionsLegal | Assets/Scripts/Player.cs:71 | true exactly when every living enemy piece has a legal prediction |
| Players.Player.TurnIsLegal | Assets/Scripts/Player.cs:55-71 | legal exactly when both counts are within 3 and every own move and every prediction is legal |
| Players.Player.TooManyMoves | Assets/Scripts/Player.cs:14-68 | more than 3 distinct moving own pieces push the count over the cap and make the turn illegal |
| Players.Player.TooManyPredictions | Assets/Scripts/Player.cs:15-69 | more than 3 distinct predicted enemy pieces push the count over the cap and make the turn illegal |
| Players.Player.SetIsDoneFlag | Assets/Scripts/Player.cs:32-46 | the flag is stored; the both-done handler runs exactly when the player is now done and the other player is done or the game is offline |
| Players.Player.SetIsDone | Assets/Scripts/Player.cs:155-170 | the player ends done exactly when asked to and the turn is legal; asking for not done never runs the handler |
| Players.Player.ResetTurn | Assets/Scripts/Player.cs:124-138 | every own living piece loses its move and every enemy living piece its prediction; every other commitment, every position and every death flag is unchanged; the move count is then zero |
| Players.ClearMoves | Assets/Scripts/Player.cs:126-129 | each piece of the list loses its move, and only its move |
| Players.ClearPredictions | Assets/Scripts/Player.cs:131-134 | each piece of the list loses its prediction, and only its prediction |
| Players.OtherPlayer | Assets/Scripts/Player.cs:50 | the local player's other player is the remote one, and any other player's is the local one |
| Players.OtherPlayerInvolution | Assets/Scripts/Player.cs:48-50 | with two distinct seated players, the other player's other player is the player, and never the player itself |

## Left out

- Networking: the `photonView.RPC` calls and `[PunRPC]` handlers are collapsed into one local update per setter. `CustomTypeSerialization.RegisterTypes`, the launcher, the network manager and the game manager are not part of this model.
- `LocalNetworkPlayerColor`, and through it `IsMine` and `IsMe`, read the network state. `SetMoveOrPrediction` takes `isMine` as a parameter, and `SetIsDone` takes the offline-mode flag as a parameter.
- The turn resolution behind `HandleBothPlayersDone` is not part of this model. `SetIsDoneFlag` and `SetIsDone` only report whether it would run, as the result `bothDone`.
- Floating point: the `BoardPosition(Vector3)` constructor, `worldPosition`, `Mathb.RoundToByte` and mouse picking are left out. The setters take board positions directly.
- Unity presentation: the line renderer, the toggles, the count indicators, the death animation, `AsUnityColor`, `Player.Update` and the `Awake`/`Start` wiring.
- `GeneralExtensions`, `InterfaceHelpers` and `PlayerNameInputField` are not part of this model.
- Board.AllAlive, Board.Others, Board.Friends, Board.Enemies, Board.Add, Board.Ray, Movement.MoveIsLegal and Movement.PredictionIsLegal: their source is not available. Each is given the definition its callers rely on; the ray walk stops at the edge, before a friend, or on an enemy.
- Board.UNLIMITED: the uncapped ray is modelled as a cap of 7, the longest on-board ray; `Board.RayUnlimited` proves any larger cap gives the same ray.
- Movement.LegalDestinations, Movement.CalculateLegalDestinations: a pawn uses the corrected rule `Pawns.Destinations`, not the clamped rule as written. So `MoveIsLegal`, `AllMovesLegal` and `TurnIsLegal` reject the edge captures the program accepts, such as a white pawn on (7,3) taking an enemy on (7,4).
- Pawns.Destinations: the rule used downstream drops off-board steps instead of clamping them, as the source's clamping admits captures straight ahead and sideways (see "## Findings"). `Pawns.ClampedDestinations` keeps the rule as written.
- CustomTypeSerialization.DeserializeBoardPosition: fewer than two bytes makes the source throw; the model returns `None` instead of excluding that input.
- Pieces.Piece.SetMove and Pieces.Piece.SetPrediction take a nullable board position, as `ResetTurn` calls them with `null`; the conversion from a world position is left out.
- Pieces.Piece.SetPos: it can leave a move or prediction naming the new square; the model does not restore normalisation there, as the source does not.
- Pieces.Piece.ResetMove and Pieces.Piece.ResetPrediction: they aim the setter at the own square, so a commitment that already names the own square is left as it is, as in the source.
- Pieces.Piece.Power: the source's comment speaks of one point lost when predicted; the code subtracts two, and the model follows the code.
- Players.Player.PredictionCount counts the predictions on the other player's pieces, as the source does; it equals the enemy pieces only when the other player has the inverted colour.
- Players.Player.ResetTurn: the two `foreach` loops are the methods `ClearMoves` and `ClearPredictions`, each over a snapshot of `Pieces` or `EnemyPieces`. The source enumerates lazily, but the setters change neither colour nor death, so the snapshot is the same sequence.
- Concurrency between the two clients, and the order in which RPCs arrive, are not modelled.

## Findings

| source | as written | input that shows it | evidently intended | confidence | as-written member | corrected member |
|---|---|---|---|---|---|---|
| Assets/Scripts/Pieces/Pawn.cs:26-35 | the attack squares `Position.Add(±1, dir)` are stored as plain positions, so an off-board step is clamped back onto the board | a white pawn on (7,3) with a black piece on (7,4): attack1 (8,4) clamps to (7,4), and the pawn may capture straight ahead; likewise a white pawn on (3,7) captures a black piece on (4,7) sideways | a pawn captures only diagonally ahead; an off-board step gives no destination | not executed | Pawns.ClampedCapturesStraightAhead | Pawns.DestinationsIff |
