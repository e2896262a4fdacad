/**
 * What `Piece` offers its callers on top of the per-kind rules: the virtual
 * `CalculateLegalDestinations`, and the legality of a piece's move and of
 * the prediction made about it (`MoveIsLegal`, `PredictionIsLegal`).
 */
module Movement {
  import opened Wrappers
  import opened BoardPositions
  import opened Pieces
  import opened PiecesExtensions
  import opened Board
  import Pawns
  import Knights
  import Bishops
  import Rooks
  import Queens
  import Kings

  /** The virtual `CalculateLegalDestinations`, chosen by the piece's kind. */
  function LegalDestinations(piece: Piece, all: seq<Piece>): (r: set<BoardPosition>)
    reads piece, (set p | p in all)
    ensures forall q :: q in r ==> OnBoard(q)
  {
    match piece.kind
    case Pawn => Pawns.Destinations(piece, all)
    case Knight => Knights.Destinations(piece, all)
    case Bishop => Bishops.Destinations(piece, all)
    case Rook => Rooks.Destinations(piece, all)
    case Queen => Queens.Destinations(piece, all)
    case King => Kings.Destinations(piece, all)
  }

  /** The virtual call: each kind runs its own `CalculateLegalDestinations`. */
  method CalculateLegalDestinations(piece: Piece, all: seq<Piece>) returns (destinations: set<BoardPosition>)
    requires SingleOccupancy(all)
    ensures destinations == LegalDestinations(piece, all)
    ensures piece.position !in destinations
  {
    NeverOwnSquare(piece, all);
    match piece.kind
    case Pawn => destinations := Pawns.CalculateLegalDestinations(piece, all);
    case Knight => destinations := Knights.CalculateLegalDestinations(piece, all);
    case Bishop => destinations := Bishops.CalculateLegalDestinations(piece, all);
    case Rook => destinations := Rooks.CalculateLegalDestinations(piece, all);
    case Queen => destinations := Queens.CalculateLegalDestinations(piece, all);
    case King => destinations := Kings.CalculateLegalDestinations(piece, all);
  }

  /** No kind of piece may stay on its own square. */
  lemma NeverOwnSquare(piece: Piece, all: seq<Piece>)
    ensures piece.position !in LegalDestinations(piece, all)
  {
    var pos := piece.position;
    match piece.kind
    case Pawn => Pawns.NeverStays(piece, all);
    case Knight => Knights.DestinationsIff(piece, all, pos);
    case Bishop => Bishops.DestinationsDiagonal(piece, all);
    case Rook => Rooks.DestinationsStraight(piece, all);
    case Queen => Queens.DestinationsOnLine(piece, all);
    case King => Kings.DestinationsAdjacent(piece, all);
  }

  /** No kind of piece may move off the board or onto a living friend. */
  lemma NeverOntoFriend(piece: Piece, all: seq<Piece>)
    requires SingleOccupancy(all)
    ensures forall q :: q in LegalDestinations(piece, all) ==> OnBoard(q) && !Occupied(Friends(piece, all), q)
  {
    match piece.kind
    case Pawn =>
      Pawns.NoFriendlyDestination(piece, all);
      Pawns.DestinationsIff(piece, all);
    case Knight =>
      forall q | q in LegalDestinations(piece, all)
        ensures OnBoard(q) && !Occupied(Friends(piece, all), q)
      {
        Knights.DestinationsIff(piece, all, q);
      }
    case Bishop =>
    case Rook =>
    case Queen =>
    case King =>
  }

  /**
   * `MoveIsLegal`: no move, or a move to a legal destination that no friend
   * is already moving to.
   */
  function MoveIsLegal(piece: Piece, all: seq<Piece>): (r: bool)
    reads piece, (set p | p in all)
    ensures r <==> (piece.move == None ||
                    (piece.move.value in LegalDestinations(piece, all) &&
                     forall f :: f in all && !f.isDead && f != piece && f.color == piece.color ==> f.move != piece.move))
  {
    match piece.move
    case None => true
    case Some(target) => target in LegalDestinations(piece, all) && !AnyMovingTo(Friends(piece, all), target)
  }

  /** `PredictionIsLegal`: no prediction, or one the predicted piece could legally move to. */
  function PredictionIsLegal(piece: Piece, all: seq<Piece>): (r: bool)
    reads piece, (set p | p in all)
    ensures r <==> piece.prediction == None || piece.prediction.value in LegalDestinations(piece, all)
  {
    match piece.prediction
    case None => true
    case Some(target) => target in LegalDestinations(piece, all)
  }

  /** A legal move goes somewhere: it is never the piece's own square, nor a friend's, nor off the board. */
  lemma LegalMoveGoesSomewhere(piece: Piece, all: seq<Piece>)
    requires SingleOccupancy(all)
    requires MoveIsLegal(piece, all) && piece.move != None
    ensures piece.move.value != piece.position
    ensures OnBoard(piece.move.value) && !Occupied(Friends(piece, all), piece.move.value)
  {
    NeverOwnSquare(piece, all);
    NeverOntoFriend(piece, all);
  }

  /** Two living friends committed to the same square make both moves illegal. */
  lemma NoSharedLanding(a: Piece, b: Piece, all: seq<Piece>)
    requires a in all && b in all && a != b && !a.isDead && !b.isDead && a.color == b.color
    requires a.move != None && a.move == b.move
    ensures !MoveIsLegal(a, all) && !MoveIsLegal(b, all)
  {
  }
}
