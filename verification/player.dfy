/**
 * A player's turn bookkeeping (Assets/Scripts/Player.cs): the caps on moves
 * and predictions, the legality of the whole turn, the "done" handshake and
 * the reset of a turn's commitments.
 */
module Players {
  import opened Wrappers
  import opened ChessColors
  import opened Pieces
  import opened PiecesExtensions
  import opened Board
  import opened Movement

  const MAX_MOVES: nat := 3
  const MAX_PREDICTIONS: nat := 3

  /** A set of distinct pieces found in a sequence is no larger than the sequence. */
  lemma {:induction false} DistinctBound(r: seq<Piece>, s: set<Piece>)
    requires forall p :: p in s ==> p in r
    ensures |s| <= |r|
    decreases |r|
  {
    if r != [] {
      var rest := s - {r[0]};
      forall p | p in rest
        ensures p in r[1..]
      {
        assert p in r && p != r[0];
      }
      DistinctBound(r[1..], rest);
    } else {
      assert s == {};
    }
  }

  class Player {
    const color: ChessColor
    /** `_isDoneX`, read and written through the `IsDone` property. */
    var isDone: bool

    constructor (color: ChessColor)
      ensures this.color == color && !isDone
    {
      this.color := color;
      isDone := false;
    }

    /** `Pieces`: the living pieces of this player's colour. */
    function Pieces(all: seq<Piece>): (r: seq<Piece>)
      reads set p | p in all
      ensures forall p :: p in r ==> p in all && !p.isDead && p.color == color
      ensures forall p :: p in all && !p.isDead && p.color == color ==> p in r
    {
      OfColor(AllAlive(all), color)
    }

    /** `EnemyPieces`: the living pieces of the other colour. */
    function EnemyPieces(all: seq<Piece>): (r: seq<Piece>)
      reads set p | p in all
      ensures forall p :: p in r ==> p in all && !p.isDead && p.color == Invert(color)
      ensures forall p :: p in all && !p.isDead && p.color == Invert(color) ==> p in r
    {
      OfColor(AllAlive(all), Invert(color))
    }

    /** `MoveCount`: how many of this player's pieces have a move. */
    function MoveCount(all: seq<Piece>): (n: nat)
      reads set p | p in all
      ensures n == 0 <==> forall p :: p in all && !p.isDead && p.color == color ==> p.move == None
    {
      WhereEmpty(Pieces(all), HasMove);
      |Where(Pieces(all), HasMove)|
    }

    /** `PredictionCount`: how many of the other player's pieces this player has predicted. */
    function PredictionCount(all: seq<Piece>, other: Player): (n: nat)
      reads set p | p in all
      ensures n == 0 <==> forall p :: p in all && !p.isDead && p.color == other.color ==> p.prediction == None
    {
      WhereEmpty(other.Pieces(all), HasPrediction);
      |Where(other.Pieces(all), HasPrediction)|
    }

    /** `MoveCountOk`: at most `MAX_MOVES` moves. A player who has moved no piece is within the cap. */
    function MoveCountOk(all: seq<Piece>): (r: bool)
      reads set p | p in all
      ensures (forall p :: p in all && !p.isDead && p.color == color ==> p.move == None) ==> r
    {
      MoveCount(all) <= MAX_MOVES
    }

    /** `PredictionCountOk`: at most `MAX_PREDICTIONS` predictions. A player who has predicted nothing is within the cap. */
    function PredictionCountOk(all: seq<Piece>, other: Player): (r: bool)
      reads set p | p in all
      ensures (forall p :: p in all && !p.isDead && p.color == other.color ==> p.prediction == None) ==> r
    {
      PredictionCount(all, other) <= MAX_PREDICTIONS
    }

    /** `AllMovesLegal`: every living piece of this player's colour has a legal move. */
    function AllMovesLegal(all: seq<Piece>): (r: bool)
      reads set p | p in all
      ensures r <==> forall p :: p in all && !p.isDead && p.color == color ==> MoveIsLegal(p, all)
    {
      forall p :: p in Pieces(all) ==> MoveIsLegal(p, all)
    }

    /** `AllPredictionsLegal`: every living enemy piece has a legal prediction. */
    function AllPredictionsLegal(all: seq<Piece>): (r: bool)
      reads set p | p in all
      ensures r <==> forall p :: p in all && !p.isDead && p.color == Invert(color) ==> PredictionIsLegal(p, all)
    {
      forall p :: p in EnemyPieces(all) ==> PredictionIsLegal(p, all)
    }

    /** `TurnIsLegal`: both counts within their caps, and every move and prediction legal. */
    function TurnIsLegal(all: seq<Piece>, other: Player): (r: bool)
      reads set p | p in all
      ensures r ==> MoveCount(all) <= MAX_MOVES && PredictionCount(all, other) <= MAX_PREDICTIONS
      ensures r ==> forall p :: p in all && !p.isDead && p.color == color ==> MoveIsLegal(p, all)
      ensures r ==> forall p :: p in all && !p.isDead && p.color == Invert(color) ==> PredictionIsLegal(p, all)
      ensures MoveCountOk(all) && PredictionCountOk(all, other) && AllMovesLegal(all) && AllPredictionsLegal(all) ==> r
    {
      MoveCountOk(all) && PredictionCountOk(all, other) && AllMovesLegal(all) && AllPredictionsLegal(all)
    }

    /**
     * The `IsDone` setter: store the flag, and report whether the both-done
     * handler `HandleBothPlayersDone` runs, which happens when this player is
     * now done and the other player is too, or the game is offline.
     */
    method SetIsDoneFlag(value: bool, other: Player, offlineMode: bool) returns (bothDone: bool)
      modifies this`isDone
      ensures isDone == value
      ensures bothDone <==> value && (other.isDone || offlineMode)
      ensures !value ==> !bothDone
    {
      isDone := value;
      bothDone := isDone && (other.isDone || offlineMode);
    }

    /**
     * `SetIsDone`: the player becomes done only if asked to and the turn is
     * legal. A changed flag is sent to every client, an unchanged one is
     * assigned again to correct the toggle; both paths run the setter.
     */
    method SetIsDone(value: bool, all: seq<Piece>, other: Player, offlineMode: bool) returns (bothDone: bool)
      modifies this`isDone
      ensures isDone <==> value && TurnIsLegal(all, other)
      ensures isDone ==> TurnIsLegal(all, other)
      ensures !value ==> !isDone && !bothDone
      ensures bothDone <==> isDone && (other.isDone || offlineMode)
    {
      var done := value && TurnIsLegal(all, other);
      bothDone := SetIsDoneFlag(done, other, offlineMode);
    }

    /** More than `MAX_MOVES` distinct moving pieces make the turn illegal. */
    lemma TooManyMoves(all: seq<Piece>, other: Player, movers: set<Piece>)
      requires forall p :: p in movers ==> p in all && !p.isDead && p.color == color && p.move != None
      requires |movers| > MAX_MOVES
      ensures MoveCount(all) > MAX_MOVES
      ensures !TurnIsLegal(all, other)
    {
      DistinctBound(Where(Pieces(all), HasMove), movers);
    }

    /** More than `MAX_PREDICTIONS` distinct predicted pieces make the turn illegal. */
    lemma TooManyPredictions(all: seq<Piece>, other: Player, predicted: set<Piece>)
      requires forall p :: p in predicted ==> p in all && !p.isDead && p.color == other.color && p.prediction != None
      requires |predicted| > MAX_PREDICTIONS
      ensures PredictionCount(all, other) > MAX_PREDICTIONS
      ensures !TurnIsLegal(all, other)
    {
      DistinctBound(Where(other.Pieces(all), HasPrediction), predicted);
    }

    /** This player's living pieces that have a move. */
    ghost function Movers(all: seq<Piece>): set<Piece>
      reads set p | p in all
    {
      set p | p in all && !p.isDead && p.color == color && p.move != None
    }

    /** The other player's living pieces that carry a prediction. */
    ghost function Predicted(all: seq<Piece>, other: Player): set<Piece>
      reads set p | p in all
    {
      set p | p in all && !p.isDead && p.color == other.color && p.prediction != None
    }

    /** In a registry of distinct pieces, `MoveCount` is the number of this player's living pieces with a move. */
    lemma MoveCountIsMovers(all: seq<Piece>)
      requires Distinct(all)
      ensures MoveCount(all) == |Movers(all)|
    {
      WhereDistinct(all, Alive);
      WhereDistinct(AllAlive(all), ColorIs(color));
      WhereCount(Pieces(all), HasMove);
      assert Matching(Pieces(all), HasMove) == Movers(all);
    }

    /** In a registry of distinct pieces, `PredictionCount` is the number of the other player's living pieces with a prediction. */
    lemma PredictionCountIsPredicted(all: seq<Piece>, other: Player)
      requires Distinct(all)
      ensures PredictionCount(all, other) == |Predicted(all, other)|
    {
      WhereDistinct(all, Alive);
      WhereDistinct(AllAlive(all), ColorIs(other.color));
      WhereCount(other.Pieces(all), HasPrediction);
      assert Matching(other.Pieces(all), HasPrediction) == Predicted(all, other);
    }

    /** The move cap holds exactly when at most `MAX_MOVES` of this player's living pieces have a move. */
    lemma MoveCountOkIff(all: seq<Piece>)
      requires Distinct(all)
      ensures MoveCountOk(all) <==> |Movers(all)| <= MAX_MOVES
    {
      MoveCountIsMovers(all);
    }

    /** The prediction cap holds exactly when at most `MAX_PREDICTIONS` living enemy pieces carry a prediction. */
    lemma PredictionCountOkIff(all: seq<Piece>, other: Player)
      requires Distinct(all)
      ensures PredictionCountOk(all, other) <==> |Predicted(all, other)| <= MAX_PREDICTIONS
    {
      PredictionCountIsPredicted(all, other);
    }

    /**
     * `ResetTurn`: clear the move of every living piece of this colour, then
     * the prediction of every living enemy piece. Nothing else changes.
     */
    method ResetTurn(all: seq<Piece>)
      modifies set p | p in all
      ensures forall p :: p in all ==> p.position == old(p.position) && p.isDead == old(p.isDead)
      ensures forall p :: p in all && !p.isDead && p.color == color ==> p.move == None
      ensures forall p :: p in all && (p.isDead || p.color != color) ==> p.move == old(p.move)
      ensures forall p :: p in all && !p.isDead && p.color == Invert(color) ==> p.prediction == None
      ensures forall p :: p in all && (p.isDead || p.color != Invert(color)) ==> p.prediction == old(p.prediction)
      ensures MoveCount(all) == 0
    {
      var pieces := Pieces(all);
      ClearMoves(pieces);
      var enemyPieces := EnemyPieces(all);
      ClearPredictions(enemyPieces);
    }
  }

  /** The first `foreach` of `ResetTurn`: `SetMove(null)` on each piece in turn. */
  method ClearMoves(pieces: seq<Piece>)
    modifies set p | p in pieces
    ensures forall p :: p in pieces ==> p.move == None
    ensures forall p :: p in pieces ==> p.prediction == old(p.prediction)
    ensures forall p :: p in pieces ==> p.position == old(p.position) && p.isDead == old(p.isDead)
  {
    for i := 0 to |pieces|
      invariant forall p :: p in pieces ==> p.position == old(p.position) && p.isDead == old(p.isDead)
      invariant forall p :: p in pieces ==> p.prediction == old(p.prediction)
      invariant forall p :: p in pieces[..i] ==> p.move == None
    {
      ghost var before := pieces[..i];
      pieces[i].SetMove(None);
      assert pieces[..i + 1] == before + [pieces[i]];
    }
    assert pieces[..|pieces|] == pieces;
  }

  /** The second `foreach` of `ResetTurn`: `SetPrediction(null)` on each piece in turn. */
  method ClearPredictions(pieces: seq<Piece>)
    modifies set p | p in pieces
    ensures forall p :: p in pieces ==> p.prediction == None
    ensures forall p :: p in pieces ==> p.move == old(p.move)
    ensures forall p :: p in pieces ==> p.position == old(p.position) && p.isDead == old(p.isDead)
  {
    for i := 0 to |pieces|
      invariant forall p :: p in pieces ==> p.position == old(p.position) && p.isDead == old(p.isDead)
      invariant forall p :: p in pieces ==> p.move == old(p.move)
      invariant forall p :: p in pieces[..i] ==> p.prediction == None
    {
      ghost var before := pieces[..i];
      pieces[i].SetPrediction(None);
      assert pieces[..i + 1] == before + [pieces[i]];
    }
    assert pieces[..|pieces|] == pieces;
  }

  /** `LocalPlayer` and `RemotePlayer`: the two players of a game. */
  datatype Seats = Seats(local: Player, remote: Player)

  /** `OtherPlayer`: the remote player for the local one, and the local player otherwise. */
  function OtherPlayer(seats: Seats, player: Player): (r: Player)
    ensures player == seats.local ==> r == seats.remote
    ensures player != seats.local ==> r == seats.local
  {
    if seats.local == player then seats.remote else seats.local
  }

  /** With two distinct seated players, the other player's other player is the player. */
  lemma OtherPlayerInvolution(seats: Seats, player: Player)
    requires seats.local != seats.remote
    requires player == seats.local || player == seats.remote
    ensures OtherPlayer(seats, OtherPlayer(seats, player)) == player
    ensures OtherPlayer(seats, player) != player
  {
  }
}
