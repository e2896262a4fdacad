/**
 * LINQ queries over a collection of pieces
 * (Assets/Scripts/Pieces/PiecesExtensions.cs). A collection is a sequence,
 * in enumeration order; the lambdas the source passes to `Where`, `Count`
 * and `SingleOrDefault` are the cases of `Criterion`.
 */
module PiecesExtensions {
  import opened Wrappers
  import opened BoardPositions
  import opened ChessColors
  import opened Pieces

  datatype Criterion =
    | PositionIs(pos: Option<BoardPosition>)  // p => p.Position == pos
    | MoveIs(target: BoardPosition)           // p => p.Move == target
    | ColorIs(color: ChessColor)              // p => p.Color == color
    | Alive                                   // p => !p.IsDead
    | NotThe(piece: Piece)                    // p => p != piece
    | HasMove                                 // p => p.Move != null
    | HasPrediction                           // p => p.Prediction != null

  predicate Matches(p: Piece, c: Criterion)
    reads p
  {
    match c
    case PositionIs(pos) => NullableEq(Some(p.position), pos)
    case MoveIs(target) => NullableEq(p.move, Some(target))
    case ColorIs(color) => p.color == color
    case Alive => !p.isDead
    case NotThe(piece) => p != piece
    case HasMove => p.move != None
    case HasPrediction => p.prediction != None
  }

  /** LINQ `Where`: the pieces that match, in their original order. */
  function Where(ps: seq<Piece>, c: Criterion): (r: seq<Piece>)
    reads ps
    ensures |r| <= |ps|
    ensures forall p :: p in r ==> p in ps && Matches(p, c)
    ensures forall p :: p in ps && Matches(p, c) ==> p in r
  {
    if ps == [] then []
    else (if Matches(ps[0], c) then [ps[0]] else []) + Where(ps[1..], c)
  }

  /** Filtering a concatenation filters each part and keeps them in order. */
  lemma {:induction false} WhereAppend(a: seq<Piece>, b: seq<Piece>, c: Criterion)
    ensures Where(a + b, c) == Where(a, c) + Where(b, c)
  {
    if a == [] {
      assert a + b == b;
    } else {
      var head := if Matches(a[0], c) then [a[0]] else [];
      assert (a + b)[0] == a[0];
      assert (a + b)[1..] == a[1..] + b;
      calc {
        Where(a + b, c);
        head + Where(a[1..] + b, c);
        { WhereAppend(a[1..], b, c); }
        head + (Where(a[1..], c) + Where(b, c));
        (head + Where(a[1..], c)) + Where(b, c);
        Where(a, c) + Where(b, c);
      }
    }
  }

  /** A one-piece collection keeps its piece exactly when it matches. */
  lemma WhereSingleton(p: Piece, c: Criterion)
    ensures Where([p], c) == if Matches(p, c) then [p] else []
  {
    assert [p][1..] == [];
  }

  /** Each piece occurs in the result as often as in the input when it matches, and never otherwise. */
  lemma {:induction false} WhereMultiplicity(ps: seq<Piece>, c: Criterion, p: Piece)
    ensures multiset(Where(ps, c))[p] == if Matches(p, c) then multiset(ps)[p] else 0
  {
    if ps != [] {
      assert ps == [ps[0]] + ps[1..];
      WhereMultiplicity(ps[1..], c, p);
    }
  }

  /** Filtering first never adds matches of a second criterion. */
  lemma {:induction false} WhereNarrows(ps: seq<Piece>, first: Criterion, c: Criterion)
    ensures |Where(Where(ps, first), c)| <= |Where(ps, c)|
  {
    if ps != [] {
      var rest := Where(ps[1..], first);
      WhereNarrows(ps[1..], first, c);
      if Matches(ps[0], first) {
        var w := Where(ps, first);
        assert w == [ps[0]] + rest;
        assert w[0] == ps[0] && w[1..] == rest;
        assert |Where(w, c)| == (if Matches(ps[0], c) then 1 else 0) + |Where(rest, c)|;
      } else {
        assert Where(ps, first) == rest;
      }
      assert |Where(ps, c)| == (if Matches(ps[0], c) then 1 else 0) + |Where(ps[1..], c)|;
    }
  }

  /** Nothing matches exactly when the result is empty. */
  lemma WhereEmpty(ps: seq<Piece>, c: Criterion)
    ensures Where(ps, c) == [] <==> forall p :: p in ps ==> !Matches(p, c)
  {
    var r := Where(ps, c);
    if r != [] {
      assert r[0] in r;
    }
  }

  /** Two distinct matching pieces make a result of at least two. */
  lemma WhereTwo(ps: seq<Piece>, c: Criterion, p: Piece, q: Piece)
    requires p in ps && q in ps && p != q && Matches(p, c) && Matches(q, c)
    ensures |Where(ps, c)| >= 2
  {
    var r := Where(ps, c);
    assert p in r && q in r;
    var i :| 0 <= i < |r| && r[i] == p;
    var j :| 0 <= j < |r| && r[j] == q;
    assert i != j;
  }

  /** No piece occurs twice, as in a registry of distinct objects. */
  ghost predicate Distinct(ps: seq<Piece>) {
    forall i, j :: 0 <= i < j < |ps| ==> ps[i] != ps[j]
  }

  /** A piece not among distinct pieces can be put in front of them. */
  lemma DistinctCons(p: Piece, ps: seq<Piece>)
    requires Distinct(ps) && p !in ps
    ensures Distinct([p] + ps)
  {
    var qs := [p] + ps;
    forall i, j | 0 <= i < j < |qs|
      ensures qs[i] != qs[j]
    {
      assert qs[j] == ps[j - 1];
      if i > 0 {
        assert qs[i] == ps[i - 1];
      }
    }
  }

  /** The tail of distinct pieces is distinct and does not hold the head. */
  lemma DistinctTail(ps: seq<Piece>)
    requires Distinct(ps) && ps != []
    ensures Distinct(ps[1..]) && ps[0] !in ps[1..]
  {
    var tail := ps[1..];
    forall i, j | 0 <= i < j < |tail|
      ensures tail[i] != tail[j]
    {
      assert tail[i] == ps[i + 1] && tail[j] == ps[j + 1];
    }
  }

  /** Filtering distinct pieces keeps them distinct. */
  lemma {:induction false} WhereDistinct(ps: seq<Piece>, c: Criterion)
    requires Distinct(ps)
    ensures Distinct(Where(ps, c))
  {
    if ps != [] {
      var tail := ps[1..];
      DistinctTail(ps);
      WhereDistinct(tail, c);
      if Matches(ps[0], c) {
        DistinctCons(ps[0], Where(tail, c));
        assert Where(ps, c) == [ps[0]] + Where(tail, c);
      } else {
        assert Where(ps, c) == Where(tail, c);
      }
    }
  }

  /** The pieces of a collection that match a criterion. */
  ghost function Matching(ps: seq<Piece>, c: Criterion): set<Piece>
    reads ps
  {
    set p | p in ps && Matches(p, c)
  }

  /** The matching pieces of a collection are those of its tail, plus its head when that matches. */
  lemma MatchingCons(ps: seq<Piece>, c: Criterion)
    requires ps != []
    ensures Matching(ps, c) == (if Matches(ps[0], c) then {ps[0]} else {}) + Matching(ps[1..], c)
  {
    forall p
      ensures p in ps <==> p == ps[0] || p in ps[1..]
    {
      assert ps == [ps[0]] + ps[1..];
    }
  }

  /** Among distinct pieces, the length of a filter is the number of pieces that match. */
  lemma {:induction false} WhereCount(ps: seq<Piece>, c: Criterion)
    requires Distinct(ps)
    ensures |Where(ps, c)| == |Matching(ps, c)|
  {
    if ps == [] {
      assert Matching(ps, c) == {};
    } else {
      var tail := ps[1..];
      DistinctTail(ps);
      WhereCount(tail, c);
      MatchingCons(ps, c);
      assert ps[0] !in Matching(tail, c);
    }
  }

  /**
   * `AtPosition`: LINQ `SingleOrDefault(p => p.Position == pos)`, the one piece
   * on `pos` or null. Two or more pieces on `pos` make it throw.
   */
  function AtPosition(ps: seq<Piece>, pos: Option<BoardPosition>): (r: Option<Piece>)
    requires |Where(ps, PositionIs(pos))| <= 1
    reads ps
    ensures r != None ==> r.value in ps && pos == Some(r.value.position)
    ensures r == None <==> forall p :: p in ps ==> pos != Some(p.position)
    ensures r != None ==> forall p :: p in ps && pos == Some(p.position) ==> p == r.value
  {
    var matching := Where(ps, PositionIs(pos));
    WhereEmpty(ps, PositionIs(pos));
    if matching == [] then None
    else
      assert matching == [matching[0]];
      Some(matching[0])
  }

  /** With a null position nothing is found: a piece's position is never null. */
  lemma AtNullPosition(ps: seq<Piece>)
    ensures |Where(ps, PositionIs(None))| == 0
    ensures AtPosition(ps, None) == None
  {
    WhereEmpty(ps, PositionIs(None));
  }

  /** `MovingTo`: the pieces whose move is `target`, in their original order. */
  function MovingTo(ps: seq<Piece>, target: BoardPosition): (r: seq<Piece>)
    reads ps
    ensures forall p :: p in r ==> p in ps && p.move == Some(target)
    ensures forall p :: p in ps && p.move == Some(target) ==> p in r
  {
    Where(ps, MoveIs(target))
  }

  /** `AnyMovingTo`: some piece's move is `target`. */
  function AnyMovingTo(ps: seq<Piece>, target: BoardPosition): (r: bool)
    reads ps
    ensures r <==> exists p :: p in ps && p.move == Some(target)
  {
    WhereEmpty(ps, MoveIs(target));
    MovingTo(ps, target) != []
  }

  /** `OfColor`: the pieces of `color`, in their original order. */
  function OfColor(ps: seq<Piece>, color: ChessColor): (r: seq<Piece>)
    reads ps
    ensures forall p :: p in r ==> p in ps && p.color == color
    ensures forall p :: p in ps && p.color == color ==> p in r
  {
    Where(ps, ColorIs(color))
  }

  /** The pieces of a colour and of its inverse together are the whole collection. */
  lemma {:induction false} OfColorPartition(ps: seq<Piece>, color: ChessColor)
    ensures multiset(OfColor(ps, color)) + multiset(OfColor(ps, Invert(color))) == multiset(ps)
  {
    if ps != [] {
      var head, tail := ps[0], ps[1..];
      var mine, theirs := ColorIs(color), ColorIs(Invert(color));
      OfColorPartition(tail, color);
      assert ps == [head] + tail;
      if head.color == color {
        assert Where(ps, mine) == [head] + Where(tail, mine);
        assert Where(ps, theirs) == Where(tail, theirs);
      } else {
        assert Where(ps, mine) == Where(tail, mine);
        assert Where(ps, theirs) == [head] + Where(tail, theirs);
      }
    }
  }

  /** Order: a colour filter of a concatenation is the concatenation of the filters. */
  lemma OfColorAppend(a: seq<Piece>, b: seq<Piece>, color: ChessColor)
    ensures OfColor(a + b, color) == OfColor(a, color) + OfColor(b, color)
  {
    WhereAppend(a, b, ColorIs(color));
  }

  /** Order: a move filter of a concatenation is the concatenation of the filters. */
  lemma MovingToAppend(a: seq<Piece>, b: seq<Piece>, target: BoardPosition)
    ensures MovingTo(a + b, target) == MovingTo(a, target) + MovingTo(b, target)
  {
    WhereAppend(a, b, MoveIs(target));
  }
}
