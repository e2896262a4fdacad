/** The queen's movement rule (Assets/Scripts/Pieces/Queen.cs). */
module Queens {
  import opened BoardPositions
  import opened Pieces
  import opened Board
  import Rooks
  import Bishops

  /** `CalculateLegalDestinations`: the union of all eight uncapped rays. */
  function Destinations(piece: Piece, all: seq<Piece>): (r: set<BoardPosition>)
    reads piece, (set p | p in all)
    ensures forall q :: q in r ==> OnBoard(q) && !Occupied(Friends(piece, all), q)
  {
    var pos := piece.position;
    Ray(piece, all, pos, 0, 1, UNLIMITED) + Ray(piece, all, pos, 0, -1, UNLIMITED)
      + Ray(piece, all, pos, -1, 0, UNLIMITED) + Ray(piece, all, pos, 1, 0, UNLIMITED)
      + Ray(piece, all, pos, 1, 1, UNLIMITED) + Ray(piece, all, pos, -1, 1, UNLIMITED)
      + Ray(piece, all, pos, 1, -1, UNLIMITED) + Ray(piece, all, pos, -1, -1, UNLIMITED)
  }

  /** `CalculateLegalDestinations`: the `top` ray's set, grown in place by the other seven. */
  method CalculateLegalDestinations(piece: Piece, all: seq<Piece>) returns (destinations: set<BoardPosition>)
    ensures destinations == Destinations(piece, all)
    ensures destinations == Rooks.Destinations(piece, all) + Bishops.Destinations(piece, all)
  {
    var pos := piece.position;
    var top := Ray(piece, all, pos, 0, 1, UNLIMITED);
    var bottom := Ray(piece, all, pos, 0, -1, UNLIMITED);
    var left := Ray(piece, all, pos, -1, 0, UNLIMITED);
    var right := Ray(piece, all, pos, 1, 0, UNLIMITED);
    var topRight := Ray(piece, all, pos, 1, 1, UNLIMITED);
    var topLeft := Ray(piece, all, pos, -1, 1, UNLIMITED);
    var bottomRight := Ray(piece, all, pos, 1, -1, UNLIMITED);
    var bottomLeft := Ray(piece, all, pos, -1, -1, UNLIMITED);
    destinations := top;
    destinations := destinations + bottom;
    destinations := destinations + left;
    destinations := destinations + right;
    destinations := destinations + topRight;
    destinations := destinations + topLeft;
    destinations := destinations + bottomRight;
    destinations := destinations + bottomLeft;
    RookPlusBishop(piece, all);
  }

  /**
   * The queen moves as a rook or as a bishop from the same square; since a
   * union of sets does not depend on the order of the `UnionWith` calls,
   * neither does the result.
   */
  lemma RookPlusBishop(piece: Piece, all: seq<Piece>)
    ensures Destinations(piece, all) == Rooks.Destinations(piece, all) + Bishops.Destinations(piece, all)
  {
  }

  /** Every destination of a queen is on a line or a diagonal through it, off its own square. */
  lemma DestinationsOnLine(piece: Piece, all: seq<Piece>)
    ensures forall q :: q in Destinations(piece, all) ==>
      Rooks.Straight(piece.position, q) || Bishops.Diagonal(piece.position, q)
  {
    RookPlusBishop(piece, all);
    Rooks.DestinationsStraight(piece, all);
    Bishops.DestinationsDiagonal(piece, all);
  }
}
