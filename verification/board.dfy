/**
 * The board queries the piece rules call but whose definitions are not part
 * of this model: `Piece.AllAlive`, the `Others`, `Friends` and `Enemies`
 * views of a piece, `BoardPosition.Add`, and the ray walk
 * `CalculateLegalDestinationsInDirection`. Each is given the meaning the
 * callers rely on, and states it in its contract.
 *
 * `all` stands for the registry behind `Piece.AllAlive`: every piece of the game.
 */
module Board {
  import opened Wrappers
  import opened Mathb
  import opened BoardPositions
  import opened ChessColors
  import opened Pieces
  import opened PiecesExtensions

  /** `Piece.AllAlive`: the pieces that are not dead. */
  function AllAlive(all: seq<Piece>): (r: seq<Piece>)
    reads set p | p in all
    ensures forall p :: p in r ==> p in all && !p.isDead
    ensures forall p :: p in all && !p.isDead ==> p in r
  {
    Where(all, Alive)
  }

  /** `Others`: the living pieces other than `piece`. */
  function Others(piece: Piece, all: seq<Piece>): (r: seq<Piece>)
    reads set p | p in all
    ensures forall p :: p in r ==> p in all && !p.isDead && p != piece
    ensures forall p :: p in all && !p.isDead && p != piece ==> p in r
  {
    Where(AllAlive(all), NotThe(piece))
  }

  /** `Friends`: the other living pieces of `piece`'s colour. */
  function Friends(piece: Piece, all: seq<Piece>): (r: seq<Piece>)
    reads set p | p in all
    ensures forall p :: p in r ==> p in all && !p.isDead && p != piece && p.color == piece.color
    ensures forall p :: p in all && !p.isDead && p != piece && p.color == piece.color ==> p in r
  {
    OfColor(Others(piece, all), piece.color)
  }

  /** `Enemies`: the living pieces of the other colour. */
  function Enemies(piece: Piece, all: seq<Piece>): (r: seq<Piece>)
    reads set p | p in all
    ensures forall p :: p in r ==> p in all && !p.isDead && p.color == Invert(piece.color)
    ensures forall p :: p in all && !p.isDead && p.color == Invert(piece.color) ==> p in r
  {
    OfColor(Others(piece, all), Invert(piece.color))
  }

  /** Some piece of `ps` stands on `sq`. */
  predicate Occupied(ps: seq<Piece>, sq: BoardPosition)
    reads ps
  {
    exists p :: p in ps && p.position == sq
  }

  /**
   * No two living pieces share a square. `AtPosition` (LINQ `SingleOrDefault`)
   * throws otherwise, so every rule that calls it needs this.
   */
  ghost predicate SingleOccupancy(all: seq<Piece>)
    reads set p | p in all
  {
    forall sq: BoardPosition :: |Where(AllAlive(all), PositionIs(Some(sq)))| <= 1
  }

  /** Under single occupancy, `AtPosition` may be asked of the others, the friends and the enemies. */
  lemma AtPositionDefined(piece: Piece, all: seq<Piece>, sq: BoardPosition)
    requires SingleOccupancy(all)
    ensures |Where(Others(piece, all), PositionIs(Some(sq)))| <= 1
    ensures |Where(Friends(piece, all), PositionIs(Some(sq)))| <= 1
    ensures |Where(Enemies(piece, all), PositionIs(Some(sq)))| <= 1
  {
    var alive, c := AllAlive(all), PositionIs(Some(sq));
    WhereNarrows(alive, NotThe(piece), c);
    WhereNarrows(Others(piece, all), ColorIs(piece.color), c);
    WhereNarrows(Others(piece, all), ColorIs(Invert(piece.color)), c);
  }

  /** `Others.AtPosition(q) != null`: another living piece stands on `q`. */
  function OtherAt(piece: Piece, all: seq<Piece>, q: BoardPosition): (r: bool)
    requires SingleOccupancy(all)
    reads set p | p in all
    ensures r <==> Occupied(Others(piece, all), q)
  {
    AtPositionDefined(piece, all, q);
    AtPositionOccupied(Others(piece, all), q);
    AtPosition(Others(piece, all), Some(q)) != None
  }

  /** `Friends.AtPosition(q) != null`: a friend stands on `q`. */
  function FriendAt(piece: Piece, all: seq<Piece>, q: BoardPosition): (r: bool)
    requires SingleOccupancy(all)
    reads set p | p in all
    ensures r <==> Occupied(Friends(piece, all), q)
  {
    AtPositionDefined(piece, all, q);
    AtPositionOccupied(Friends(piece, all), q);
    AtPosition(Friends(piece, all), Some(q)) != None
  }

  /** `Enemies.AtPosition(q) != null`: an enemy stands on `q`. */
  function EnemyAt(piece: Piece, all: seq<Piece>, q: BoardPosition): (r: bool)
    requires SingleOccupancy(all)
    reads set p | p in all
    ensures r <==> Occupied(Enemies(piece, all), q)
  {
    AtPositionDefined(piece, all, q);
    AtPositionOccupied(Enemies(piece, all), q);
    AtPosition(Enemies(piece, all), Some(q)) != None
  }

  /** Under single occupancy no square holds both a friend and an enemy. */
  lemma FriendOrEnemy(piece: Piece, all: seq<Piece>, sq: BoardPosition)
    requires SingleOccupancy(all)
    ensures !(Occupied(Friends(piece, all), sq) && Occupied(Enemies(piece, all), sq))
  {
    if Occupied(Friends(piece, all), sq) && Occupied(Enemies(piece, all), sq) {
      var f :| f in Friends(piece, all) && f.position == sq;
      var e :| e in Enemies(piece, all) && e.position == sq;
      WhereTwo(AllAlive(all), PositionIs(Some(sq)), f, e);
      assert false;
    }
  }

  /** `AtPosition` finds a piece exactly on an occupied square. */
  lemma AtPositionOccupied(ps: seq<Piece>, sq: BoardPosition)
    requires |Where(ps, PositionIs(Some(sq)))| <= 1
    ensures AtPosition(ps, Some(sq)) != None <==> Occupied(ps, sq)
  {
  }

  /** `Position.Add` where the caller treats the result as nullable: null off the board. */
  function Add(p: BoardPosition, dx: int, dy: int): (r: Option<BoardPosition>)
    ensures r != None <==> 0 <= p.x + dx <= MAX_COORD && 0 <= p.y + dy <= MAX_COORD
    ensures r != None ==> OnBoard(r.value) && r.value.x == p.x + dx && r.value.y == p.y + dy
  {
    var x, y := p.x + dx, p.y + dy;
    if 0 <= x <= MAX_COORD && 0 <= y <= MAX_COORD then Some(BoardPosition(x, y)) else None
  }

  /** A coordinate pushed back onto the board. */
  function ClampCoord(v: int): (r: byte)
    ensures r <= MAX_COORD
    ensures 0 <= v <= MAX_COORD ==> r == v
    ensures v < 0 ==> r == 0
    ensures v > MAX_COORD ==> r == MAX_COORD
  {
    if v < 0 then 0 else if v > MAX_COORD then MAX_COORD else v
  }

  /** `Position.Add` where the caller stores a plain position: off-board steps are clamped back. */
  function AddClamped(p: BoardPosition, dx: int, dy: int): (r: BoardPosition)
    ensures OnBoard(r)
    ensures Add(p, dx, dy) != None ==> r == Add(p, dx, dy).value
  {
    BoardPosition(ClampCoord(p.x + dx), ClampCoord(p.y + dy))
  }

  function Abs(v: int): (r: nat)
    ensures r == v || r == -v
  {
    if v < 0 then -v else v
  }

  /** The coordinate offset of `k` steps along the unit component `d`. */
  function Scale(d: int, k: int): int {
    if d > 0 then k else if d < 0 then -k else 0
  }

  /** `q` is reached from `from` by between one and `n` steps of (dx, dy). */
  ghost predicate Along(from: BoardPosition, q: BoardPosition, dx: int, dy: int, n: nat) {
    exists k :: 1 <= k <= n && q.x == from.x + Scale(dx, k) && q.y == from.y + Scale(dy, k)
  }

  /**
   * `CalculateLegalDestinationsInDirection(dx, dy, maxDistance)`: the squares
   * met walking from `from` in steps of (dx, dy), at most `steps` of them; the
   * walk ends at the board edge, before a friend, or on an enemy, which is
   * included.
   */
  function Ray(piece: Piece, all: seq<Piece>, from: BoardPosition, dx: int, dy: int, steps: nat): (r: set<BoardPosition>)
    reads set p | p in all
    ensures forall q :: q in r ==> OnBoard(q) && !Occupied(Friends(piece, all), q)
    decreases steps
  {
    if steps == 0 then {}
    else match Add(from, dx, dy)
      case None => {}
      case Some(next) =>
        if Occupied(Friends(piece, all), next) then {}
        else if Occupied(Enemies(piece, all), next) then {next}
        else {next} + Ray(piece, all, next, dx, dy, steps - 1)
  }

  /** The walk of an uncapped ray: no on-board ray of an 8x8 board is longer than 7 squares. */
  const UNLIMITED: nat := 7

  /** Every square of a ray lies one to `n` steps along its direction. */
  lemma {:induction false} RayAlong(piece: Piece, all: seq<Piece>, from: BoardPosition, dx: int, dy: int, n: nat)
    requires -1 <= dx <= 1 && -1 <= dy <= 1
    ensures forall q :: q in Ray(piece, all, from, dx, dy, n) ==> Along(from, q, dx, dy, n)
    decreases n
  {
    if n > 0 && Add(from, dx, dy) != None {
      var next := Add(from, dx, dy).value;
      RayAlong(piece, all, next, dx, dy, n - 1);
      forall q | q in Ray(piece, all, from, dx, dy, n)
        ensures Along(from, q, dx, dy, n)
      {
        if q == next {
          assert q.x == from.x + Scale(dx, 1) && q.y == from.y + Scale(dy, 1);
        } else {
          assert q in Ray(piece, all, next, dx, dy, n - 1);
          var k :| 1 <= k <= n - 1 && q.x == next.x + Scale(dx, k) && q.y == next.y + Scale(dy, k);
          assert q.x == from.x + Scale(dx, k + 1) && q.y == from.y + Scale(dy, k + 1);
        }
      }
    }
  }

  /** A longer cap only extends a ray: the capped ray is contained in the longer one. */
  lemma {:induction false} RayMonotone(piece: Piece, all: seq<Piece>, from: BoardPosition, dx: int, dy: int, n: nat, m: nat)
    requires n <= m
    ensures Ray(piece, all, from, dx, dy, n) <= Ray(piece, all, from, dx, dy, m)
    decreases n
  {
    if n > 0 && Add(from, dx, dy) != None {
      RayMonotone(piece, all, Add(from, dx, dy).value, dx, dy, n - 1, m - 1);
    }
  }

  /** How many steps of `d` a coordinate `c` can take and stay on the board. */
  function Room(c: int, d: int): int {
    if d > 0 then MAX_COORD - c else if d < 0 then c else MAX_COORD
  }

  /** How many steps of (dx, dy) stay on the board from `from`. */
  function Reach(from: BoardPosition, dx: int, dy: int): int {
    var rx, ry := Room(from.x, dx), Room(from.y, dy);
    if rx <= ry then rx else ry
  }

  /** Once a cap reaches the board edge, a larger cap gives the same ray. */
  lemma {:induction false} RayCapBeyondReach(piece: Piece, all: seq<Piece>, from: BoardPosition, dx: int, dy: int, n: nat, m: nat)
    requires OnBoard(from) && -1 <= dx <= 1 && -1 <= dy <= 1 && (dx != 0 || dy != 0)
    requires n >= Reach(from, dx, dy) && m >= Reach(from, dx, dy)
    ensures Ray(piece, all, from, dx, dy, n) == Ray(piece, all, from, dx, dy, m)
    decreases n
  {
    if Add(from, dx, dy) != None && n > 0 && m > 0 {
      var next := Add(from, dx, dy).value;
      assert Reach(next, dx, dy) == Reach(from, dx, dy) - 1;
      RayCapBeyondReach(piece, all, next, dx, dy, n - 1, m - 1);
    }
  }

  /** So `UNLIMITED` stands for "no cap": any larger cap gives the same ray. */
  lemma RayUnlimited(piece: Piece, all: seq<Piece>, from: BoardPosition, dx: int, dy: int, n: nat)
    requires OnBoard(from) && -1 <= dx <= 1 && -1 <= dy <= 1 && (dx != 0 || dy != 0)
    requires n >= UNLIMITED
    ensures Ray(piece, all, from, dx, dy, n) == Ray(piece, all, from, dx, dy, UNLIMITED)
  {
    RayCapBeyondReach(piece, all, from, dx, dy, n, UNLIMITED);
  }

  /** The square `k` steps of (dx, dy) away from `from`, or null when that is off the board. */
  function StepsAway(from: BoardPosition, dx: int, dy: int, k: int): Option<BoardPosition> {
    Add(from, Scale(dx, k), Scale(dy, k))
  }

  /** The squares one to `k - 1` steps away are on the board and empty of living pieces other than `piece`. */
  ghost predicate OpenBefore(piece: Piece, all: seq<Piece>, from: BoardPosition, dx: int, dy: int, k: int)
    reads set p | p in all
  {
    forall j :: 1 <= j < k ==>
      StepsAway(from, dx, dy, j) != None && !Occupied(Others(piece, all), StepsAway(from, dx, dy, j).value)
  }

  /** One step first, then `j` more, is `j + 1` steps. */
  lemma StepsAwayShift(from: BoardPosition, dx: int, dy: int, j: nat)
    requires -1 <= dx <= 1 && -1 <= dy <= 1
    requires Add(from, dx, dy) != None
    ensures StepsAway(Add(from, dx, dy).value, dx, dy, j) == StepsAway(from, dx, dy, j + 1)
  {
  }

  /** A square empty of all other living pieces holds neither a friend nor an enemy. */
  lemma EmptySquare(piece: Piece, all: seq<Piece>, sq: BoardPosition)
    requires !Occupied(Others(piece, all), sq)
    ensures !Occupied(Friends(piece, all), sq) && !Occupied(Enemies(piece, all), sq)
  {
  }

  /**
   * Conversely, a ray reaches every square within its cap that is on the
   * board, not held by a friend, and has only empty squares before it.
   */
  lemma {:induction false} RayReaches(piece: Piece, all: seq<Piece>, from: BoardPosition, dx: int, dy: int, n: nat, k: int)
    requires -1 <= dx <= 1 && -1 <= dy <= 1
    requires 1 <= k <= n
    requires OpenBefore(piece, all, from, dx, dy, k)
    requires StepsAway(from, dx, dy, k) != None && !Occupied(Friends(piece, all), StepsAway(from, dx, dy, k).value)
    ensures StepsAway(from, dx, dy, k).value in Ray(piece, all, from, dx, dy, n)
    decreases k
  {
    assert Scale(dx, 1) == dx && Scale(dy, 1) == dy;
    if k == 1 {
      assert StepsAway(from, dx, dy, k) == Add(from, dx, dy);
    } else {
      assert StepsAway(from, dx, dy, 1) != None;
    }
    StepsAwayShift(from, dx, dy, 0);
    if k > 1 {
      var next := Add(from, dx, dy).value;
      EmptySquare(piece, all, next);
      assert Ray(piece, all, from, dx, dy, n) == {next} + Ray(piece, all, next, dx, dy, n - 1);
      forall j | 1 <= j < k - 1
        ensures StepsAway(next, dx, dy, j) != None && !Occupied(Others(piece, all), StepsAway(next, dx, dy, j).value)
      {
        StepsAwayShift(from, dx, dy, j);
      }
      StepsAwayShift(from, dx, dy, k - 1);
      RayReaches(piece, all, next, dx, dy, n - 1, k - 1);
    }
  }

  /** A living piece other than `piece` is a friend or an enemy. */
  lemma OtherIsFriendOrEnemy(piece: Piece, all: seq<Piece>, sq: BoardPosition)
    requires Occupied(Others(piece, all), sq)
    ensures Occupied(Friends(piece, all), sq) || Occupied(Enemies(piece, all), sq)
  {
    var p :| p in Others(piece, all) && p.position == sq;
    InvertCovers(piece.color, p.color);
    assert p in Friends(piece, all) || p in Enemies(piece, all);
  }

  /**
   * Conversely, a ray holds only squares with every square before them empty:
   * the walk stops at the first piece it meets, friend or enemy.
   */
  lemma {:induction false} RayBlocked(piece: Piece, all: seq<Piece>, from: BoardPosition, dx: int, dy: int, n: nat, q: BoardPosition)
    requires -1 <= dx <= 1 && -1 <= dy <= 1
    requires q in Ray(piece, all, from, dx, dy, n)
    ensures exists k :: 1 <= k <= n && StepsAway(from, dx, dy, k) == Some(q) && OpenBefore(piece, all, from, dx, dy, k)
    decreases n
  {
    var next := Add(from, dx, dy).value;
    assert Scale(dx, 1) == dx && Scale(dy, 1) == dy;
    assert StepsAway(from, dx, dy, 1) == Some(next);
    if q == next {
      assert OpenBefore(piece, all, from, dx, dy, 1);
    } else {
      assert q in Ray(piece, all, next, dx, dy, n - 1);
      if Occupied(Others(piece, all), next) {
        OtherIsFriendOrEnemy(piece, all, next);
        assert false;
      }
      RayBlocked(piece, all, next, dx, dy, n - 1, q);
      var k :| 1 <= k <= n - 1 && StepsAway(next, dx, dy, k) == Some(q) && OpenBefore(piece, all, next, dx, dy, k);
      StepsAwayShift(from, dx, dy, k);
      forall j | 1 <= j < k + 1
        ensures StepsAway(from, dx, dy, j) != None && !Occupied(Others(piece, all), StepsAway(from, dx, dy, j).value)
      {
        if j > 1 {
          StepsAwayShift(from, dx, dy, j - 1);
        }
      }
      assert OpenBefore(piece, all, from, dx, dy, k + 1);
    }
  }

  /**
   * `q` is `k` steps along (dx, dy) for some `k` up to `n`, every square before
   * it is empty, and no friend holds it.
   */
  ghost predicate Reachable(piece: Piece, all: seq<Piece>, from: BoardPosition, dx: int, dy: int, n: nat, q: BoardPosition)
    reads set p | p in all
  {
    exists k :: 1 <= k <= n && StepsAway(from, dx, dy, k) == Some(q)
      && OpenBefore(piece, all, from, dx, dy, k) && !Occupied(Friends(piece, all), q)
  }

  /** A ray holds exactly the reachable squares: it reaches every open square and passes no piece. */
  lemma RayIff(piece: Piece, all: seq<Piece>, from: BoardPosition, dx: int, dy: int, n: nat, q: BoardPosition)
    requires -1 <= dx <= 1 && -1 <= dy <= 1
    ensures q in Ray(piece, all, from, dx, dy, n) <==> Reachable(piece, all, from, dx, dy, n, q)
  {
    if q in Ray(piece, all, from, dx, dy, n) {
      RayBlocked(piece, all, from, dx, dy, n, q);
    }
    if Reachable(piece, all, from, dx, dy, n, q) {
      var k :| 1 <= k <= n && StepsAway(from, dx, dy, k) == Some(q)
        && OpenBefore(piece, all, from, dx, dy, k) && !Occupied(Friends(piece, all), q);
      RayReaches(piece, all, from, dx, dy, n, k);
    }
  }
}
