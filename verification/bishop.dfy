/** The bishop's movement rule (Assets/Scripts/Pieces/Bishop.cs). */
module Bishops {
  import opened Wrappers
  import opened BoardPositions
  import opened Pieces
  import opened Board

  /** `CalculateLegalDestinations`: the union of the four uncapped diagonal rays. */
  function Destinations(piece: Piece, all: seq<Piece>): (r: set<BoardPosition>)
    reads piece, (set p | p in all)
    ensures forall q :: q in r ==> OnBoard(q) && !Occupied(Friends(piece, all), q)
  {
    var pos := piece.position;
    Ray(piece, all, pos, 1, 1, UNLIMITED) + Ray(piece, all, pos, -1, 1, UNLIMITED)
      + Ray(piece, all, pos, 1, -1, UNLIMITED) + Ray(piece, all, pos, -1, -1, UNLIMITED)
  }

  /** `CalculateLegalDestinations`: the first ray's set, grown in place by the other three. */
  method CalculateLegalDestinations(piece: Piece, all: seq<Piece>) returns (destinations: set<BoardPosition>)
    ensures destinations == Destinations(piece, all)
    ensures forall q :: q in destinations ==> Diagonal(piece.position, q)
  {
    var pos := piece.position;
    var topRight := Ray(piece, all, pos, 1, 1, UNLIMITED);
    var topLeft := Ray(piece, all, pos, -1, 1, UNLIMITED);
    var bottomRight := Ray(piece, all, pos, 1, -1, UNLIMITED);
    var bottomLeft := Ray(piece, all, pos, -1, -1, UNLIMITED);
    destinations := topRight;
    destinations := destinations + topLeft;
    destinations := destinations + bottomRight;
    destinations := destinations + bottomLeft;
    DestinationsDiagonal(piece, all);
  }

  /** `q` is a nonzero number of steps away along a diagonal. */
  predicate Diagonal(from: BoardPosition, q: BoardPosition) {
    Abs(q.x - from.x) == Abs(q.y - from.y) > 0
  }

  /** A diagonal ray only meets squares on its diagonal. */
  lemma DiagonalRay(piece: Piece, all: seq<Piece>, from: BoardPosition, dx: int, dy: int)
    requires (dx == 1 || dx == -1) && (dy == 1 || dy == -1)
    ensures forall q :: q in Ray(piece, all, from, dx, dy, UNLIMITED) ==> Diagonal(from, q)
  {
    RayAlong(piece, all, from, dx, dy, UNLIMITED);
  }

  /** Every destination of a bishop lies on one of its diagonals, off its own square. */
  lemma DestinationsDiagonal(piece: Piece, all: seq<Piece>)
    ensures forall q :: q in Destinations(piece, all) ==> Diagonal(piece.position, q)
  {
    var pos := piece.position;
    DiagonalRay(piece, all, pos, 1, 1);
    DiagonalRay(piece, all, pos, -1, 1);
    DiagonalRay(piece, all, pos, 1, -1);
    DiagonalRay(piece, all, pos, -1, -1);
  }

  /**
   * Every square along a diagonal that is free of friends, with only empty
   * squares before it, is a destination.
   */
  lemma DestinationsReach(piece: Piece, all: seq<Piece>, dx: int, dy: int, k: int)
    requires (dx == 1 || dx == -1) && (dy == 1 || dy == -1)
    requires 1 <= k <= UNLIMITED
    requires OpenBefore(piece, all, piece.position, dx, dy, k)
    requires StepsAway(piece.position, dx, dy, k) != None
    requires !Occupied(Friends(piece, all), StepsAway(piece.position, dx, dy, k).value)
    ensures StepsAway(piece.position, dx, dy, k).value in Destinations(piece, all)
  {
    RayReaches(piece, all, piece.position, dx, dy, UNLIMITED, k);
  }

  /**
   * A square is a destination exactly when it lies along one of the four
   * diagonal directions within the board, every square before it is empty, and no
   * friend holds it: the walk reaches every open square and jumps no piece.
   */
  lemma DestinationsIff(piece: Piece, all: seq<Piece>, q: BoardPosition)
    ensures q in Destinations(piece, all) <==>
      (Reachable(piece, all, piece.position, 1, 1, UNLIMITED, q)
      || Reachable(piece, all, piece.position, -1, 1, UNLIMITED, q)
      || Reachable(piece, all, piece.position, 1, -1, UNLIMITED, q)
      || Reachable(piece, all, piece.position, -1, -1, UNLIMITED, q))
  {
    RayIff(piece, all, piece.position, 1, 1, UNLIMITED, q);
    RayIff(piece, all, piece.position, -1, 1, UNLIMITED, q);
    RayIff(piece, all, piece.position, 1, -1, UNLIMITED, q);
    RayIff(piece, all, piece.position, -1, -1, UNLIMITED, q);
  }
}
