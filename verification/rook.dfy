/** The rook's movement rule (Assets/Scripts/Pieces/Rook.cs). */
module Rooks {
  import opened Wrappers
  import opened BoardPositions
  import opened Pieces
  import opened Board

  /** `CalculateLegalDestinations`: the union of the four uncapped orthogonal rays. */
  function Destinations(piece: Piece, all: seq<Piece>): (r: set<BoardPosition>)
    reads piece, (set p | p in all)
    ensures forall q :: q in r ==> OnBoard(q) && !Occupied(Friends(piece, all), q)
  {
    var pos := piece.position;
    Ray(piece, all, pos, 0, 1, UNLIMITED) + Ray(piece, all, pos, 0, -1, UNLIMITED)
      + Ray(piece, all, pos, -1, 0, UNLIMITED) + Ray(piece, all, pos, 1, 0, UNLIMITED)
  }

  /** `CalculateLegalDestinations`: the `top` ray's set, grown in place by the other three. */
  method CalculateLegalDestinations(piece: Piece, all: seq<Piece>) returns (destinations: set<BoardPosition>)
    ensures destinations == Destinations(piece, all)
    ensures forall q :: q in destinations ==> Straight(piece.position, q)
  {
    var pos := piece.position;
    var top := Ray(piece, all, pos, 0, 1, UNLIMITED);
    var bottom := Ray(piece, all, pos, 0, -1, UNLIMITED);
    var left := Ray(piece, all, pos, -1, 0, UNLIMITED);
    var right := Ray(piece, all, pos, 1, 0, UNLIMITED);
    destinations := top;
    destinations := destinations + bottom;
    destinations := destinations + left;
    destinations := destinations + right;
    DestinationsStraight(piece, all);
  }

  /** `q` shares its row or its column with `from`, but not both. */
  predicate Straight(from: BoardPosition, q: BoardPosition) {
    (q.x == from.x) != (q.y == from.y)
  }

  /** An orthogonal ray only meets squares on its row or column. */
  lemma StraightRay(piece: Piece, all: seq<Piece>, from: BoardPosition, dx: int, dy: int)
    requires (dx == 0 && (dy == 1 || dy == -1)) || (dy == 0 && (dx == 1 || dx == -1))
    ensures forall q :: q in Ray(piece, all, from, dx, dy, UNLIMITED) ==> Straight(from, q)
  {
    RayAlong(piece, all, from, dx, dy, UNLIMITED);
  }

  /** Every destination of a rook shares exactly one of row and column with it. */
  lemma DestinationsStraight(piece: Piece, all: seq<Piece>)
    ensures forall q :: q in Destinations(piece, all) ==> Straight(piece.position, q)
  {
    var pos := piece.position;
    StraightRay(piece, all, pos, 0, 1);
    StraightRay(piece, all, pos, 0, -1);
    StraightRay(piece, all, pos, -1, 0);
    StraightRay(piece, all, pos, 1, 0);
  }

  /**
   * Every square along a row or column that is free of friends, with only
   * empty squares before it, is a destination.
   */
  lemma DestinationsReach(piece: Piece, all: seq<Piece>, dx: int, dy: int, k: int)
    requires (dx == 0 && (dy == 1 || dy == -1)) || (dy == 0 && (dx == 1 || dx == -1))
    requires 1 <= k <= UNLIMITED
    requires OpenBefore(piece, all, piece.position, dx, dy, k)
    requires StepsAway(piece.position, dx, dy, k) != None
    requires !Occupied(Friends(piece, all), StepsAway(piece.position, dx, dy, k).value)
    ensures StepsAway(piece.position, dx, dy, k).value in Destinations(piece, all)
  {
    RayReaches(piece, all, piece.position, dx, dy, UNLIMITED, k);
  }

  /**
   * A square is a destination exactly when it lies in one of the four
   * directions along the rook's row or column within the board, every square before it is empty, and no
   * friend holds it: the walk reaches every open square and jumps no piece.
   */
  lemma DestinationsIff(piece: Piece, all: seq<Piece>, q: BoardPosition)
    ensures q in Destinations(piece, all) <==>
      (Reachable(piece, all, piece.position, 0, 1, UNLIMITED, q)
      || Reachable(piece, all, piece.position, 0, -1, UNLIMITED, q)
      || Reachable(piece, all, piece.position, -1, 0, UNLIMITED, q)
      || Reachable(piece, all, piece.position, 1, 0, UNLIMITED, q))
  {
    RayIff(piece, all, piece.position, 0, 1, UNLIMITED, q);
    RayIff(piece, all, piece.position, 0, -1, UNLIMITED, q);
    RayIff(piece, all, piece.position, -1, 0, UNLIMITED, q);
    RayIff(piece, all, piece.position, 1, 0, UNLIMITED, q);
  }
}
