/** The king's movement rule (Assets/Scripts/Pieces/King.cs). */
module Kings {
  import opened Wrappers
  import opened BoardPositions
  import opened Pieces
  import opened Board
  import Queens

  /** `MOVE_DISTANCE`: the king's rays stop after this many squares. */
  const MOVE_DISTANCE: nat := 1

  /** `CalculateLegalDestinations`: the union of the queen's eight rays, each capped at `MOVE_DISTANCE`. */
  function Destinations(piece: Piece, all: seq<Piece>): (r: set<BoardPosition>)
    reads piece, (set p | p in all)
    ensures forall q :: q in r ==> OnBoard(q) && !Occupied(Friends(piece, all), q)
  {
    var pos := piece.position;
    Ray(piece, all, pos, 0, 1, MOVE_DISTANCE) + Ray(piece, all, pos, 0, -1, MOVE_DISTANCE)
      + Ray(piece, all, pos, -1, 0, MOVE_DISTANCE) + Ray(piece, all, pos, 1, 0, MOVE_DISTANCE)
      + Ray(piece, all, pos, 1, 1, MOVE_DISTANCE) + Ray(piece, all, pos, -1, 1, MOVE_DISTANCE)
      + Ray(piece, all, pos, 1, -1, MOVE_DISTANCE) + Ray(piece, all, pos, -1, -1, MOVE_DISTANCE)
  }

  /** `CalculateLegalDestinations`: the `top` ray's set, grown in place by the other seven. */
  method CalculateLegalDestinations(piece: Piece, all: seq<Piece>) returns (destinations: set<BoardPosition>)
    ensures destinations == Destinations(piece, all)
    ensures forall q :: q in destinations <==>
      OnBoard(q) && Adjacent(piece.position, q) && !Occupied(Friends(piece, all), q)
  {
    var pos := piece.position;
    var top := Ray(piece, all, pos, 0, 1, MOVE_DISTANCE);
    var bottom := Ray(piece, all, pos, 0, -1, MOVE_DISTANCE);
    var left := Ray(piece, all, pos, -1, 0, MOVE_DISTANCE);
    var right := Ray(piece, all, pos, 1, 0, MOVE_DISTANCE);
    var topRight := Ray(piece, all, pos, 1, 1, MOVE_DISTANCE);
    var topLeft := Ray(piece, all, pos, -1, 1, MOVE_DISTANCE);
    var bottomRight := Ray(piece, all, pos, 1, -1, MOVE_DISTANCE);
    var bottomLeft := Ray(piece, all, pos, -1, -1, MOVE_DISTANCE);
    destinations := top;
    destinations := destinations + bottom;
    destinations := destinations + left;
    destinations := destinations + right;
    destinations := destinations + topRight;
    destinations := destinations + topLeft;
    destinations := destinations + bottomRight;
    destinations := destinations + bottomLeft;
    DestinationsAdjacent(piece, all);
  }

  /** `q` is one of the eight squares around `from`. */
  predicate Adjacent(from: BoardPosition, q: BoardPosition) {
    Abs(q.x - from.x) <= 1 && Abs(q.y - from.y) <= 1 && q != from
  }

  /** A capped ray is the start of the uncapped one, so the king never reaches a square the queen cannot. */
  lemma WithinQueen(piece: Piece, all: seq<Piece>)
    ensures Destinations(piece, all) <= Queens.Destinations(piece, all)
  {
    var pos := piece.position;
    RayMonotone(piece, all, pos, 0, 1, MOVE_DISTANCE, UNLIMITED);
    RayMonotone(piece, all, pos, 0, -1, MOVE_DISTANCE, UNLIMITED);
    RayMonotone(piece, all, pos, -1, 0, MOVE_DISTANCE, UNLIMITED);
    RayMonotone(piece, all, pos, 1, 0, MOVE_DISTANCE, UNLIMITED);
    RayMonotone(piece, all, pos, 1, 1, MOVE_DISTANCE, UNLIMITED);
    RayMonotone(piece, all, pos, -1, 1, MOVE_DISTANCE, UNLIMITED);
    RayMonotone(piece, all, pos, 1, -1, MOVE_DISTANCE, UNLIMITED);
    RayMonotone(piece, all, pos, -1, -1, MOVE_DISTANCE, UNLIMITED);
  }

  /** A ray capped at one step holds at most the adjacent square in its direction. */
  lemma OneStepRay(piece: Piece, all: seq<Piece>, from: BoardPosition, dx: int, dy: int)
    requires -1 <= dx <= 1 && -1 <= dy <= 1 && (dx != 0 || dy != 0)
    ensures forall q :: q in Ray(piece, all, from, dx, dy, MOVE_DISTANCE) ==> Adjacent(from, q)
  {
    RayAlong(piece, all, from, dx, dy, MOVE_DISTANCE);
  }

  /**
   * The king's destinations are exactly the adjacent squares on the board
   * that no friend holds.
   */
  lemma DestinationsAdjacent(piece: Piece, all: seq<Piece>)
    ensures forall q :: q in Destinations(piece, all) <==>
      OnBoard(q) && Adjacent(piece.position, q) && !Occupied(Friends(piece, all), q)
  {
    var pos := piece.position;
    OneStepRay(piece, all, pos, 0, 1);
    OneStepRay(piece, all, pos, 0, -1);
    OneStepRay(piece, all, pos, -1, 0);
    OneStepRay(piece, all, pos, 1, 0);
    OneStepRay(piece, all, pos, 1, 1);
    OneStepRay(piece, all, pos, -1, 1);
    OneStepRay(piece, all, pos, 1, -1);
    OneStepRay(piece, all, pos, -1, -1);
    forall q | OnBoard(q) && Adjacent(pos, q) && !Occupied(Friends(piece, all), q)
      ensures q in Destinations(piece, all)
    {
      var dx, dy := q.x - pos.x, q.y - pos.y;
      assert Scale(dx, 1) == dx && Scale(dy, 1) == dy;
      assert StepsAway(pos, dx, dy, 1) == Some(q);
      RayReaches(piece, all, pos, dx, dy, MOVE_DISTANCE, 1);
    }
  }
}
