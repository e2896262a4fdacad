/**
 * The pawn's movement rule (Assets/Scripts/Pieces/Pawn.cs). The rule stores
 * every `Position.Add` result as a plain position, so an off-board step is
 * clamped back onto the board. `ClampedDestinations` is the rule as written;
 * `Destinations` is the rule with off-board steps dropped, which the rest of
 * the model uses.
 */
module Pawns {
  import opened Wrappers
  import opened BoardPositions
  import opened ChessColors
  import opened Pieces
  import opened Board

  /** `dir`: the pawn's forward step along y. */
  function Forward(color: ChessColor): (dir: int)
    ensures dir == 1 <==> color == White
    ensures dir == -1 <==> color == Black
  {
    match color
    case White => 1
    case Black => -1
  }

  /** `doubleMoveAllowed`: the pawn stands on its colour's start rank. */
  function OnStartRank(color: ChessColor, pos: BoardPosition): (r: bool)
    ensures r ==> 0 <= pos.y + Forward(color) <= MAX_COORD && 0 <= pos.y + 2 * Forward(color) <= MAX_COORD
  {
    (color == White && pos.y == 1) || (color == Black && pos.y == 6)
  }

  /** The forward steps as written: one square ahead if free, and two from the start rank if that is free too. */
  function ClampedMoves(color: ChessColor, pos: BoardPosition, others: seq<Piece>): (r: set<BoardPosition>)
    reads others
    ensures forall q :: q in r ==> OnBoard(q) && !Occupied(others, q)
    ensures r != {} ==> AddClamped(pos, 0, Forward(color)) in r
  {
    var normalMove := AddClamped(pos, 0, Forward(color));
    var doubleMove := AddClamped(pos, 0, Forward(color) * 2);
    if Occupied(others, normalMove) then {}
    else if OnStartRank(color, pos) && !Occupied(others, doubleMove) then {normalMove, doubleMove}
    else {normalMove}
  }

  /** `s` with `sq` added when an enemy stands there. */
  function WithCapture(s: set<BoardPosition>, enemies: seq<Piece>, sq: BoardPosition): (r: set<BoardPosition>)
    reads enemies
    ensures r == s || r == s + {sq}
    ensures sq in r <==> sq in s || Occupied(enemies, sq)
  {
    if Occupied(enemies, sq) then s + {sq} else s
  }

  /** The pawn rule as written, with every step clamped onto the board. */
  function ClampedDestinations(pawn: Piece, all: seq<Piece>): (r: set<BoardPosition>)
    reads pawn, (set p | p in all)
    ensures pawn.position !in r
  {
    var pos, dir := pawn.position, Forward(pawn.color);
    var others, enemies := Others(pawn, all), Enemies(pawn, all);
    var attack1 := AddClamped(pos, 1, dir);
    var attack2 := AddClamped(pos, -1, dir);
    var moves := ClampedMoves(pawn.color, pos, others);
    WithCapture(WithCapture(moves, enemies, attack1), enemies, attack2) - {pos}
  }

  /** `CalculateLegalDestinations` as written: a set grown step by step, then cleaned of the own square. */
  method CalculateLegalDestinationsClamped(pawn: Piece, all: seq<Piece>) returns (legalDestinations: set<BoardPosition>)
    requires SingleOccupancy(all)
    ensures legalDestinations == ClampedDestinations(pawn, all)
  {
    legalDestinations := {};
    var pos := pawn.position;
    var dir := Forward(pawn.color);

    var normalMove := AddClamped(pos, 0, dir);
    var doubleMove := AddClamped(pos, 0, dir * 2);
    var doubleMoveAllowed := OnStartRank(pawn.color, pos);
    ghost var others := Others(pawn, all);
    if !OtherAt(pawn, all, normalMove) {
      legalDestinations := legalDestinations + {normalMove};
      if doubleMoveAllowed && !OtherAt(pawn, all, doubleMove) {
        legalDestinations := legalDestinations + {doubleMove};
      }
    }
    ghost var moves := legalDestinations;
    assert moves == ClampedMoves(pawn.color, pos, others);

    var attack1 := AddClamped(pos, 1, dir);
    var attack2 := AddClamped(pos, -1, dir);
    ghost var enemies := Enemies(pawn, all);
    if EnemyAt(pawn, all, attack1) {
      legalDestinations := legalDestinations + {attack1};
    }
    assert legalDestinations == WithCapture(moves, enemies, attack1);
    ghost var withAttack1 := legalDestinations;
    if EnemyAt(pawn, all, attack2) {
      legalDestinations := legalDestinations + {attack2};
    }
    assert legalDestinations == WithCapture(withAttack1, enemies, attack2);
    ClampedUnfold(pawn, all);
    legalDestinations := legalDestinations - {pos};
  }

  /** `ClampedDestinations` in the order the method builds it. */
  lemma ClampedUnfold(pawn: Piece, all: seq<Piece>)
    ensures var pos, dir, enemies := pawn.position, Forward(pawn.color), Enemies(pawn, all);
      ClampedDestinations(pawn, all) ==
        WithCapture(WithCapture(ClampedMoves(pawn.color, pos, Others(pawn, all)), enemies, AddClamped(pos, 1, dir)),
          enemies, AddClamped(pos, -1, dir)) - {pos}
  {
  }

  /**
   * As written, a white pawn on the last file captures the enemy straight
   * ahead of it: the right-hand attack square (8, 4) is clamped to (7, 4).
   * With off-board steps dropped that square is not a destination.
   */
  lemma ClampedCapturesStraightAhead(pawn: Piece, enemy: Piece, all: seq<Piece>)
    requires all == [pawn, enemy]
    requires pawn.color == White && pawn.position == BoardPosition(7, 3) && !pawn.isDead
    requires enemy.color == Black && enemy.position == BoardPosition(7, 4) && !enemy.isDead
    ensures BoardPosition(7, 4) in ClampedDestinations(pawn, all)
    ensures BoardPosition(7, 4) !in Destinations(pawn, all)
  {
    assert enemy in Enemies(pawn, all) && enemy in Others(pawn, all);
  }

  /**
   * As written, a white pawn on the last rank captures sideways: the attack
   * square (4, 8) is clamped to (4, 7), beside it.
   */
  lemma ClampedCapturesSideways(pawn: Piece, enemy: Piece, all: seq<Piece>)
    requires all == [pawn, enemy]
    requires pawn.color == White && pawn.position == BoardPosition(3, 7) && !pawn.isDead
    requires enemy.color == Black && enemy.position == BoardPosition(4, 7) && !enemy.isDead
    ensures BoardPosition(4, 7) in ClampedDestinations(pawn, all)
    ensures BoardPosition(4, 7) !in Destinations(pawn, all)
  {
    assert enemy in Enemies(pawn, all);
  }

  /** The forward steps with off-board squares dropped. */
  function Moves(color: ChessColor, pos: BoardPosition, others: seq<Piece>): (r: set<BoardPosition>)
    reads others
    ensures forall q :: q in r ==> OnBoard(q) && !Occupied(others, q) && q.x == pos.x
    ensures r != {} ==> Add(pos, 0, Forward(color)) != None && Add(pos, 0, Forward(color)).value in r
    ensures |r| <= 2
  {
    var normalMove := Add(pos, 0, Forward(color));
    var doubleMove := Add(pos, 0, Forward(color) * 2);
    if normalMove == None || Occupied(others, normalMove.value) then {}
    else if OnStartRank(color, pos) && doubleMove != None && !Occupied(others, doubleMove.value)
    then {normalMove.value, doubleMove.value}
    else {normalMove.value}
  }

  /** `s` with the square `o` names added when it is on the board and an enemy stands there. */
  function WithCaptureAt(s: set<BoardPosition>, enemies: seq<Piece>, o: Option<BoardPosition>): (r: set<BoardPosition>)
    reads enemies
    ensures forall q :: q in r <==> q in s || (o == Some(q) && Occupied(enemies, q))
  {
    match o
    case None => s
    case Some(sq) => WithCapture(s, enemies, sq)
  }

  /** The pawn rule with an off-board step giving no destination. */
  function Destinations(pawn: Piece, all: seq<Piece>): (r: set<BoardPosition>)
    reads pawn, (set p | p in all)
    ensures forall q :: q in r ==> OnBoard(q)
  {
    var pos, dir, enemies := pawn.position, Forward(pawn.color), Enemies(pawn, all);
    WithCaptureAt(WithCaptureAt(Moves(pawn.color, pos, Others(pawn, all)), enemies, Add(pos, 1, dir)),
      enemies, Add(pos, -1, dir))
  }

  /** `CalculateLegalDestinations` with off-board steps skipped. */
  method CalculateLegalDestinations(pawn: Piece, all: seq<Piece>) returns (legalDestinations: set<BoardPosition>)
    requires SingleOccupancy(all)
    ensures legalDestinations == Destinations(pawn, all)
    ensures pawn.position !in legalDestinations
  {
    legalDestinations := {};
    var pos := pawn.position;
    var dir := Forward(pawn.color);
    ghost var others, enemies := Others(pawn, all), Enemies(pawn, all);

    var normalMove := Add(pos, 0, dir);
    var doubleMove := Add(pos, 0, dir * 2);
    var doubleMoveAllowed := OnStartRank(pawn.color, pos);
    if normalMove != None && !OtherAt(pawn, all, normalMove.value) {
      legalDestinations := legalDestinations + {normalMove.value};
      if doubleMoveAllowed && doubleMove != None && !OtherAt(pawn, all, doubleMove.value) {
        legalDestinations := legalDestinations + {doubleMove.value};
      }
    }
    ghost var moves := legalDestinations;
    assert moves == Moves(pawn.color, pos, others);

    var attack1 := Add(pos, 1, dir);
    var attack2 := Add(pos, -1, dir);
    if attack1 != None && EnemyAt(pawn, all, attack1.value) {
      legalDestinations := legalDestinations + {attack1.value};
    }
    assert legalDestinations == WithCaptureAt(moves, enemies, attack1);
    ghost var withAttack1 := legalDestinations;
    if attack2 != None && EnemyAt(pawn, all, attack2.value) {
      legalDestinations := legalDestinations + {attack2.value};
    }
    assert legalDestinations == WithCaptureAt(withAttack1, enemies, attack2);
    Unfold(pawn, all);
    assert legalDestinations == Destinations(pawn, all);
    NeverStays(pawn, all);
    RemoveAbsent(legalDestinations, pos);
    legalDestinations := legalDestinations - {pos};
  }

  /** Removing a square that is not there changes nothing. */
  lemma RemoveAbsent(s: set<BoardPosition>, sq: BoardPosition)
    requires sq !in s
    ensures s - {sq} == s
  {
  }

  /** `Destinations` in the order the method builds it. */
  lemma Unfold(pawn: Piece, all: seq<Piece>)
    ensures var pos, dir, enemies := pawn.position, Forward(pawn.color), Enemies(pawn, all);
      Destinations(pawn, all) ==
        WithCaptureAt(WithCaptureAt(Moves(pawn.color, pos, Others(pawn, all)), enemies, Add(pos, 1, dir)),
          enemies, Add(pos, -1, dir))
  {
  }

  /**
   * The forward part of the rule: `q` is on the board and is the free square
   * ahead, or the free square two ahead from the start rank with the square
   * between also free.
   */
  predicate ForwardStep(color: ChessColor, pos: BoardPosition, others: seq<Piece>, q: BoardPosition)
    reads others
  {
    var dir := Forward(color);
    OnBoard(q) && (
      (q.x == pos.x && q.y == pos.y + dir && !Occupied(others, q))
      || (q.x == pos.x && q.y == pos.y + 2 * dir && OnStartRank(color, pos)
          && Add(pos, 0, dir) != None && !Occupied(others, Add(pos, 0, dir).value) && !Occupied(others, q)))
  }

  /** The capture part of the rule: `q` is on the board, diagonally ahead, and an enemy holds it. */
  predicate DiagonalCapture(pawn: Piece, all: seq<Piece>, q: BoardPosition)
    reads pawn, (set p | p in all)
  {
    var pos := pawn.position;
    OnBoard(q) && Abs(q.x - pos.x) == 1 && q.y == pos.y + Forward(pawn.color) && Occupied(Enemies(pawn, all), q)
  }

  /** A forward step is in `Moves` exactly when the forward part of the rule allows it. */
  lemma MovesIff(color: ChessColor, pos: BoardPosition, others: seq<Piece>, q: BoardPosition)
    ensures q in Moves(color, pos, others) <==> ForwardStep(color, pos, others, q)
  {
  }

  /** One square: a destination exactly when the forward part or the capture part allows it. */
  lemma DestinationIff(pawn: Piece, all: seq<Piece>, q: BoardPosition)
    ensures q in Destinations(pawn, all) <==>
      ForwardStep(pawn.color, pawn.position, Others(pawn, all), q) || DiagonalCapture(pawn, all, q)
  {
    var pos, dir, others, enemies := pawn.position, Forward(pawn.color), Others(pawn, all), Enemies(pawn, all);
    var attack1, attack2 := Add(pos, 1, dir), Add(pos, -1, dir);
    var moves := Moves(pawn.color, pos, others);
    var withAttack1 := WithCaptureAt(moves, enemies, attack1);
    Unfold(pawn, all);
    assert Destinations(pawn, all) == WithCaptureAt(withAttack1, enemies, attack2);
    MovesIff(pawn.color, pos, others, q);
    assert (attack1 == Some(q) || attack2 == Some(q)) <==> (OnBoard(q) && Abs(q.x - pos.x) == 1 && q.y == pos.y + dir);
  }

  /**
   * A square is a pawn's destination exactly when it is on the board and is
   * the free square ahead, the free square two ahead from the start rank
   * with the square between also free, or a square diagonally ahead that an
   * enemy holds.
   */
  lemma DestinationsIff(pawn: Piece, all: seq<Piece>)
    ensures forall q :: q in Destinations(pawn, all) <==>
      ForwardStep(pawn.color, pawn.position, Others(pawn, all), q) || DiagonalCapture(pawn, all, q)
  {
    forall q
      ensures q in Destinations(pawn, all) <==>
        ForwardStep(pawn.color, pawn.position, Others(pawn, all), q) || DiagonalCapture(pawn, all, q)
    {
      DestinationIff(pawn, all, q);
    }
  }

  /** The own square is never a destination, so the source's final `Remove(Position)` is a no-op here. */
  lemma NeverStays(pawn: Piece, all: seq<Piece>)
    ensures pawn.position !in Destinations(pawn, all)
  {
    DestinationsIff(pawn, all);
  }

  /** A pawn never stays put, never moves backwards, and never leaves the four squares ahead of it. */
  lemma DestinationsAhead(pawn: Piece, all: seq<Piece>)
    ensures forall q :: q in Destinations(pawn, all) ==>
      var pos, dir := pawn.position, Forward(pawn.color);
      q != pos && Abs(q.x - pos.x) <= 1 && (q.y == pos.y + dir || (q.x == pos.x && q.y == pos.y + 2 * dir))
  {
    DestinationsIff(pawn, all);
  }

  /** No pawn destination is held by a friend: the forward squares are empty and a capture square holds an enemy. */
  lemma NoFriendlyDestination(pawn: Piece, all: seq<Piece>)
    requires SingleOccupancy(all)
    ensures forall q :: q in Destinations(pawn, all) ==> !Occupied(Friends(pawn, all), q)
  {
    DestinationsIff(pawn, all);
    forall q | q in Destinations(pawn, all)
      ensures !Occupied(Friends(pawn, all), q)
    {
      FriendOrEnemy(pawn, all, q);
    }
  }
}
