/**
 * A piece on the board and its per-turn commitments
 * (Assets/Scripts/Pieces/Piece.cs). Every `SetX` method of the source sends
 * an RPC to all clients whose handler assigns the field; here the pair is
 * one local update.
 */
module Pieces {
  import opened Wrappers
  import opened BoardPositions
  import opened ChessColors

  /** The subclass of `Piece` a game object carries: it selects the movement rule. */
  datatype PieceKind = Pawn | Knight | Bishop | Rook | Queen | King

  class Piece {
    const color: ChessColor
    const kind: PieceKind
    /** The square the piece stands on. */
    var position: BoardPosition
    /** The owner's committed destination for this turn, if any. */
    var move: Option<BoardPosition>
    /** The opponent's guess of this piece's destination, if any. */
    var prediction: Option<BoardPosition>
    var isDead: bool

    /** `Awake`: a fresh piece on its square, with no commitments, alive. */
    constructor (color: ChessColor, kind: PieceKind, position: BoardPosition)
      ensures this.color == color && this.kind == kind && this.position == position
      ensures move == None && prediction == None && !isDead
    {
      this.color := color;
      this.kind := kind;
      this.position := position;
      move := None;
      prediction := None;
      isDead := false;
    }

    /**
     * `Power`: one more when the piece moves, two less when its move equals
     * its prediction under C#'s lifted `==`, so two nulls also cost two.
     */
    function Power(): (r: int)
      reads this
      ensures -2 <= r <= 1
      ensures r == -2 <==> move == None && prediction == None
      ensures r == -1 <==> move != None && prediction == move
      ensures r == 0 <==> move == None && prediction != None
      ensures r == 1 <==> move != None && prediction != move
    {
      var power := if move != None then 1 else 0;
      if NullableEq(move, prediction) then power - 2 else power
    }

    /** Neither commitment names the piece's own square. */
    predicate Normalised()
      reads this
    {
      move != Some(position) && prediction != Some(position)
    }

    /** `SetPos` with `RPCSyncPos`: a different square replaces the position. */
    method SetPos(pos: BoardPosition)
      modifies this`position
      ensures position == pos
    {
      if NotEq(pos, position) {
        position := pos;
      }
    }

    /**
     * `SetMove` with `RPCSyncMove`: a target equal to the stored move changes
     * nothing; otherwise the own square is stored as "no move" and any other
     * target is stored as given.
     */
    method SetMove(target: Option<BoardPosition>)
      modifies this`move
      ensures target == old(move) ==> move == old(move)
      ensures target != old(move) && target == Some(position) ==> move == None
      ensures target != old(move) && target != Some(position) ==> move == target
      ensures old(Normalised()) && target == Some(position) ==> move == None
      ensures old(Normalised()) ==> Normalised()
    {
      var m := target;
      if !NullableEq(m, move) {
        if NullableEq(m, Some(position)) {
          m := None;
        }
        move := m;
      }
    }

    /** `SetPrediction` with `RPCSyncPrediction`: the same rule as `SetMove`, on the prediction. */
    method SetPrediction(target: Option<BoardPosition>)
      modifies this`prediction
      ensures target == old(prediction) ==> prediction == old(prediction)
      ensures target != old(prediction) && target == Some(position) ==> prediction == None
      ensures target != old(prediction) && target != Some(position) ==> prediction == target
      ensures old(Normalised()) && target == Some(position) ==> prediction == None
      ensures old(Normalised()) ==> Normalised()
    {
      var p := target;
      if !NullableEq(p, prediction) {
        if NullableEq(p, Some(position)) {
          p := None;
        }
        prediction := p;
      }
    }

    /**
     * `SetMoveOrPrediction`: the owner sets the move, the opponent the
     * prediction. `isMine` stands for `IsMine()`, which asks the network
     * which colour the local client plays.
     */
    method SetMoveOrPrediction(target: Option<BoardPosition>, isMine: bool)
      modifies this`move, this`prediction
      ensures isMine ==> prediction == old(prediction)
      ensures !isMine ==> move == old(move)
      ensures isMine && target == old(move) ==> move == old(move)
      ensures !isMine && target == old(prediction) ==> prediction == old(prediction)
      ensures isMine && target != old(move) ==> move == (if target == Some(position) then None else target)
      ensures !isMine && target != old(prediction) ==> prediction == (if target == Some(position) then None else target)
      ensures old(Normalised()) ==> Normalised()
    {
      if isMine {
        SetMove(target);
      } else {
        SetPrediction(target);
      }
    }

    /**
     * `ResetMove`: `SetMove` aimed at the own square. It clears the move,
     * except a move that already names the own square, which is left as is.
     */
    method ResetMove()
      modifies this`move
      ensures old(move) != Some(position) ==> move == None
      ensures old(move) == Some(position) ==> move == old(move)
      ensures old(Normalised()) ==> move == None
    {
      SetMove(Some(position));
    }

    /** `ResetPrediction`: `SetPrediction` aimed at the own square, with the same effect on the prediction. */
    method ResetPrediction()
      modifies this`prediction
      ensures old(prediction) != Some(position) ==> prediction == None
      ensures old(prediction) == Some(position) ==> prediction == old(prediction)
      ensures old(Normalised()) ==> prediction == None
    {
      SetPrediction(Some(position));
    }

    /** `Die` with `RPCSyncIsDead(true)`: the piece is dead from now on. */
    method Die()
      modifies this`isDead
      ensures isDead
    {
      isDead := true;
    }
  }
}
