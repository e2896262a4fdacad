/**
 * The earlier revision of the piece (Assets/Scripts/Piece.cs): the square is
 * fixed when the piece wakes up, and the setters write `_move` and
 * `_prediction` directly before telling the other clients.
 */
module LegacyPiece {
  import opened Wrappers
  import opened BoardPositions
  import opened ChessColors

  class Piece {
    const color: ChessColor
    /** `_pos`: assigned only in `Awake`. */
    const pos: BoardPosition
    /** `_move` */
    var move: Option<BoardPosition>
    /** `_prediction` */
    var prediction: Option<BoardPosition>

    /** Neither field ever holds the piece's own square. */
    predicate Valid()
      reads this
    {
      move != Some(pos) && prediction != Some(pos)
    }

    /** `Awake`: the square is fixed, both commitments start as null. */
    constructor (color: ChessColor, pos: BoardPosition)
      ensures this.color == color && this.pos == pos
      ensures move == None && prediction == None
      ensures Valid()
    {
      this.color := color;
      this.pos := pos;
      move := None;
      prediction := None;
    }

    /**
     * `SetMove`: a target equal to `_move` changes nothing, the own square
     * clears `_move`, any other square is stored.
     */
    method SetMove(target: BoardPosition)
      requires Valid()
      modifies this`move
      ensures Valid()
      ensures Some(target) == old(move) ==> move == old(move)
      ensures target == pos ==> move == None
      ensures Some(target) != old(move) && target != pos ==> move == Some(target)
    {
      var m: Option<BoardPosition> := Some(target);
      if !NullableEq(m, move) {
        if NullableEq(m, Some(pos)) {
          m := None;
        }
        move := m;
      }
    }

    /** `SetPrediction`: the same rule on `_prediction`. */
    method SetPrediction(target: BoardPosition)
      requires Valid()
      modifies this`prediction
      ensures Valid()
      ensures Some(target) == old(prediction) ==> prediction == old(prediction)
      ensures target == pos ==> prediction == None
      ensures Some(target) != old(prediction) && target != pos ==> prediction == Some(target)
    {
      var p: Option<BoardPosition> := Some(target);
      if !NullableEq(p, prediction) {
        if NullableEq(p, Some(pos)) {
          p := None;
        }
        prediction := p;
      }
    }
  }
}
