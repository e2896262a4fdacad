/** The knight's movement rule (Assets/Scripts/Pieces/Knight.cs). */
module Knights {
  import opened Wrappers
  import opened BoardPositions
  import opened Pieces
  import opened PiecesExtensions
  import opened Board

  /** The eight jumps, in the order `CalculateLegalDestinations` tries them. */
  const JUMPS: seq<(int, int)> := [(1, 2), (-1, 2), (1, -2), (-1, -2), (2, 1), (-2, 1), (2, -1), (-2, -1)]

  /** `q` is one knight's jump away from `from`: two squares along one axis and one along the other. */
  predicate KnightJump(from: BoardPosition, q: BoardPosition) {
    var ax, ay := Abs(q.x - from.x), Abs(q.y - from.y);
    (ax == 1 && ay == 2) || (ax == 2 && ay == 1)
  }

  /** The squares the offsets `offs` lead to from `pos` without leaving the board. */
  function Landings(pos: BoardPosition, offs: seq<(int, int)>): (r: set<BoardPosition>)
    ensures |r| <= |offs|
    ensures forall q :: q in r ==> OnBoard(q)
  {
    if offs == [] then {}
    else
      var rest := Landings(pos, offs[1..]);
      match Add(pos, offs[0].0, offs[0].1)
      case None => rest
      case Some(d) => {d} + rest
  }

  /** A square is landed on exactly when it is on the board and its offset from `pos` is one of `offs`. */
  lemma {:induction false} LandingsIff(pos: BoardPosition, offs: seq<(int, int)>, q: BoardPosition)
    ensures q in Landings(pos, offs) <==> OnBoard(q) && (q.x - pos.x, q.y - pos.y) in offs
  {
    if offs != [] {
      LandingsIff(pos, offs[1..], q);
      assert (q.x - pos.x, q.y - pos.y) in offs <==>
        (q.x - pos.x, q.y - pos.y) == offs[0] || (q.x - pos.x, q.y - pos.y) in offs[1..];
    }
  }

  /** The landings of a leading offset and of the rest add up. */
  lemma LandingsCons(pos: BoardPosition, o: (int, int), rest: seq<(int, int)>)
    ensures Landings(pos, [o] + rest) == Landings(pos, [o]) + Landings(pos, rest)
  {
    assert ([o] + rest)[0] == o && ([o] + rest)[1..] == rest;
    assert [o][1..] == [];
  }

  /** The landings of all jumps are the landings of each jump, gathered one by one. */
  lemma LandingsOfJumps(pos: BoardPosition)
    ensures Landings(pos, JUMPS) ==
      {} + Landings(pos, [(1, 2)]) + Landings(pos, [(-1, 2)]) + Landings(pos, [(1, -2)])
      + Landings(pos, [(-1, -2)]) + Landings(pos, [(2, 1)]) + Landings(pos, [(-2, 1)])
      + Landings(pos, [(2, -1)]) + Landings(pos, [(-2, -1)])
  {
    var j := JUMPS;
    assert j == [j[0]] + j[1..] && j[1..] == [j[1]] + j[2..] && j[2..] == [j[2]] + j[3..]
      && j[3..] == [j[3]] + j[4..] && j[4..] == [j[4]] + j[5..] && j[5..] == [j[5]] + j[6..]
      && j[6..] == [j[6]] + j[7..] && j[7..] == [j[7]] + [];
    LandingsCons(pos, j[0], j[1..]);
    LandingsCons(pos, j[1], j[2..]);
    LandingsCons(pos, j[2], j[3..]);
    LandingsCons(pos, j[3], j[4..]);
    LandingsCons(pos, j[4], j[5..]);
    LandingsCons(pos, j[5], j[6..]);
    LandingsCons(pos, j[6], j[7..]);
    LandingsCons(pos, j[7], []);
  }

  /** The offsets of `JUMPS` are exactly the knight's jumps. */
  lemma JumpsAreKnightJumps(pos: BoardPosition, q: BoardPosition)
    ensures (q.x - pos.x, q.y - pos.y) in JUMPS <==> KnightJump(pos, q)
  {
  }

  /** `CalculateLegalDestinations`: the on-board jumps, less those onto a friend. */
  function Destinations(piece: Piece, all: seq<Piece>): (r: set<BoardPosition>)
    reads piece, (set p | p in all)
    ensures forall q :: q in r ==> OnBoard(q) && !Occupied(Friends(piece, all), q)
  {
    WithoutFriends(piece, all, Landings(piece.position, JUMPS))
  }

  /** The squares of `s` that no friend of `piece` holds. */
  function WithoutFriends(piece: Piece, all: seq<Piece>, s: set<BoardPosition>): (r: set<BoardPosition>)
    reads set p | p in all
  {
    set q | q in s && !Occupied(Friends(piece, all), q)
  }

  /**
   * `MaybeAddMove`: the set with the square the jump (x, y) leads to added,
   * unless that square is off the board.
   */
  function MaybeAddMove(pos: BoardPosition, x: int, y: int, s: set<BoardPosition>): (r: set<BoardPosition>)
    ensures r == s + Landings(pos, [(x, y)])
  {
    assert [(x, y)][1..] == [];
    match Add(pos, x, y)
    case None => s
    case Some(destination) => s + {destination}
  }

  /** `CalculateLegalDestinations`: collect the eight jumps, then remove in place those onto a friend. */
  method CalculateLegalDestinations(piece: Piece, all: seq<Piece>) returns (destinations: set<BoardPosition>)
    requires SingleOccupancy(all)
    ensures destinations == Destinations(piece, all)
  {
    var pos := piece.position;
    destinations := {};
    destinations := MaybeAddMove(pos, 1, 2, destinations);
    destinations := MaybeAddMove(pos, -1, 2, destinations);
    destinations := MaybeAddMove(pos, 1, -2, destinations);
    destinations := MaybeAddMove(pos, -1, -2, destinations);
    destinations := MaybeAddMove(pos, 2, 1, destinations);
    destinations := MaybeAddMove(pos, -2, 1, destinations);
    destinations := MaybeAddMove(pos, 2, -1, destinations);
    destinations := MaybeAddMove(pos, -2, -1, destinations);
    LandingsOfJumps(pos);

    assert destinations == Landings(pos, JUMPS);
    destinations := RemoveFriends(piece, all, destinations);
  }

  /** `RemoveWhere(p => Friends.AtPosition(p) != null)`: drop in place every square a friend holds. */
  method RemoveFriends(piece: Piece, all: seq<Piece>, s: set<BoardPosition>) returns (r: set<BoardPosition>)
    requires SingleOccupancy(all)
    ensures r == WithoutFriends(piece, all, s)
  {
    r := set q | q in s && !FriendAt(piece, all, q);
  }

  /**
   * A square is a knight's destination exactly when it is on the board, a
   * knight's jump away, and not held by a friend.
   */
  lemma DestinationsIff(piece: Piece, all: seq<Piece>, q: BoardPosition)
    ensures q in Destinations(piece, all) <==>
      OnBoard(q) && KnightJump(piece.position, q) && !Occupied(Friends(piece, all), q)
  {
    JumpsAreKnightJumps(piece.position, q);
    LandingsIff(piece.position, JUMPS, q);
  }

  /** A jump onto an enemy is kept: only friends are removed. */
  lemma CapturesKept(piece: Piece, all: seq<Piece>, q: BoardPosition)
    requires SingleOccupancy(all)
    requires OnBoard(q) && KnightJump(piece.position, q) && Occupied(Enemies(piece, all), q)
    ensures q in Destinations(piece, all)
  {
    FriendOrEnemy(piece, all, q);
    DestinationsIff(piece, all, q);
  }

  /** A knight has at most eight destinations. */
  lemma AtMostEight(piece: Piece, all: seq<Piece>)
    ensures |Destinations(piece, all)| <= 8
  {
    var landings := Landings(piece.position, JUMPS);
    var d := Destinations(piece, all);
    assert d <= landings;
    assert landings == d + (landings - d);
  }
}
