/**
 * A square of the 8x8 board (Assets/Scripts/BoardPosition.cs): a struct of
 * two public bytes, whose byte constructor clamps each coordinate into 0..7.
 */
module BoardPositions {
  import opened Mathb
  import opened Wrappers

  /** The largest coordinate on the board. */
  const MAX_COORD: byte := 7

  /** The struct value itself; its fields are public bytes. */
  datatype BoardPosition = BoardPosition(x: byte, y: byte)

  predicate OnBoard(p: BoardPosition) {
    p.x <= MAX_COORD && p.y <= MAX_COORD
  }

  /** `new BoardPosition(x, y)`: each coordinate clamped into 0..7. */
  function FromBytes(x: byte, y: byte): (p: BoardPosition)
    ensures OnBoard(p)
    ensures x <= MAX_COORD ==> p.x == x
    ensures x > MAX_COORD ==> p.x == MAX_COORD
    ensures y <= MAX_COORD ==> p.y == y
    ensures y > MAX_COORD ==> p.y == MAX_COORD
  {
    BoardPosition(Clamp(x, 0, MAX_COORD), Clamp(y, 0, MAX_COORD))
  }

  /** Clamping a position that is already on the board gives it back. */
  lemma FromBytesOnBoard(p: BoardPosition)
    requires OnBoard(p)
    ensures FromBytes(p.x, p.y) == p
  {
  }

  /** `operator ==`: component-wise comparison. */
  function Eq(a: BoardPosition, b: BoardPosition): (r: bool)
    ensures r <==> a == b
  {
    a.x == b.x && a.y == b.y
  }

  /** `operator !=`: the negation of `==`. */
  function NotEq(a: BoardPosition, b: BoardPosition): (r: bool)
    ensures r <==> a != b
  {
    !Eq(a, b)
  }

  /**
   * C#'s lifted `==` on `BoardPosition?`: two nulls are equal, a null never
   * equals a position, and two positions compare with `operator ==`.
   */
  function NullableEq(a: Option<BoardPosition>, b: Option<BoardPosition>): (r: bool)
    ensures r <==> a == b
  {
    match (a, b)
    case (None, None) => true
    case (Some(p), Some(q)) => Eq(p, q)
    case _ => false
  }

  /** The argument of `Equals(object)`: null, a boxed position, or an object of another type. */
  datatype Object = Null | Boxed(value: BoardPosition) | OtherType

  /** `Equals(object)`: `==` on a boxed position, false on anything else. */
  function Equals(self: BoardPosition, obj: Object): (r: bool)
    ensures obj.Boxed? ==> (r <==> Eq(self, obj.value))
    ensures !obj.Boxed? ==> !r
  {
    match obj
    case Boxed(other) => Eq(self, other)
    case _ => false
  }

  const INT32_MIN: int := -0x8000_0000
  const INT32_MAX: int := 0x7FFF_FFFF

  /** C#'s unchecked 32-bit two's-complement wrap-around. */
  function WrapInt32(v: int): (r: int)
    ensures INT32_MIN <= r <= INT32_MAX
    ensures (v - r) % 0x1_0000_0000 == 0
    ensures INT32_MIN <= v <= INT32_MAX ==> r == v
  {
    (v - INT32_MIN) % 0x1_0000_0000 + INT32_MIN
  }

  const HASH_SEED: int := 144517355
  const HASH_FACTOR: int := -1521134295

  /** `GetHashCode`: a seed folded with the two coordinates in unchecked `int` arithmetic. */
  function GetHashCode(p: BoardPosition): (h: int)
    ensures INT32_MIN <= h <= INT32_MAX
  {
    var h0 := HASH_SEED;
    var h1 := WrapInt32(h0 * HASH_FACTOR + p.x);
    WrapInt32(h1 * HASH_FACTOR + p.y)
  }

  /** The hash is consistent with `Equals`: equal positions hash alike. */
  lemma EqualsImpliesSameHash(a: BoardPosition, obj: Object)
    requires Equals(a, obj)
    ensures obj.Boxed? && GetHashCode(a) == GetHashCode(obj.value)
  {
  }

  /** The decimal digit character for `d`. */
  function DigitChar(d: nat): (c: char)
    requires d < 10
    ensures '0' <= c <= '9'
  {
    "0123456789"[d]
  }

  /** The value of a decimal digit character. */
  function DigitValue(c: char): (d: nat)
    requires '0' <= c <= '9'
    ensures d < 10 && DigitChar(d) == c
  {
    (c as int) - ('0' as int)
  }

  predicate AllDigits(s: string) {
    forall i :: 0 <= i < |s| ==> '0' <= s[i] <= '9'
  }

  /** How C# renders a non-negative integer: its decimal digits, without leading zeros. */
  function Decimal(n: nat): (s: string)
    ensures 1 <= |s| && AllDigits(s)
    decreases n
  {
    if n < 10 then [DigitChar(n)] else Decimal(n / 10) + [DigitChar(n % 10)]
  }

  /** The number a string of decimal digits denotes. */
  function DecimalValue(s: string): nat
    requires AllDigits(s)
  {
    if s == [] then 0 else DecimalValue(s[..|s| - 1]) * 10 + DigitValue(s[|s| - 1])
  }

  /** Reading back the digits of `n` gives `n`. */
  lemma {:induction false} DecimalRoundTrip(n: nat)
    ensures DecimalValue(Decimal(n)) == n
    decreases n
  {
    var s := Decimal(n);
    if n < 10 {
      assert s[..|s| - 1] == [];
    } else {
      assert s[..|s| - 1] == Decimal(n / 10);
      DecimalRoundTrip(n / 10);
    }
  }

  /** `ToString`: the text "(x,y)". */
  function ToString(p: BoardPosition): (r: string)
    ensures |r| >= 5 && r[0] == '(' && r[|r| - 1] == ')'
  {
    "(" + Decimal(p.x) + "," + Decimal(p.y) + ")"
  }

  /** On the board each coordinate is a single digit, so the text has exactly five characters. */
  lemma ToStringOnBoard(p: BoardPosition)
    requires OnBoard(p)
    ensures ToString(p) == ['(', DigitChar(p.x), ',', DigitChar(p.y), ')']
  {
  }

  /** The index of the first comma of `s` at or after `from`, or `|s|` when there is none. */
  function CommaFrom(s: string, from: nat): (i: nat)
    requires from <= |s|
    ensures from <= i <= |s|
    decreases |s| - from
  {
    if from == |s| then |s| else if s[from] == ',' then from else CommaFrom(s, from + 1)
  }

  /** In "(" + digits + "," + rest the first comma comes right after the digits. */
  lemma {:induction false} CommaAfterDigits(d: string, rest: string, k: nat)
    requires AllDigits(d) && k <= |d|
    ensures CommaFrom("(" + d + "," + rest, 1 + k) == 1 + |d|
    decreases |d| - k
  {
    var s := "(" + d + "," + rest;
    if k < |d| {
      assert s[1 + k] == d[k];
      CommaAfterDigits(d, rest, k + 1);
    } else {
      assert s[1 + |d|] == ',';
    }
  }

  /** Distinct positions are rendered as distinct texts. */
  lemma {:induction false} ToStringInjective(a: BoardPosition, b: BoardPosition)
    requires ToString(a) == ToString(b)
    ensures a == b
  {
    var r := ToString(a);
    var xa, ya, xb, yb := Decimal(a.x), Decimal(a.y), Decimal(b.x), Decimal(b.y);
    assert r == "(" + xa + "," + (ya + ")");
    assert r == "(" + xb + "," + (yb + ")");
    CommaAfterDigits(xa, ya + ")", 0);
    CommaAfterDigits(xb, yb + ")", 0);
    assert xa == r[1..1 + |xa|] == xb;
    assert ya == r[2 + |xa|..|r| - 1] == yb;
    DecimalRoundTrip(a.x);
    DecimalRoundTrip(a.y);
    DecimalRoundTrip(b.x);
    DecimalRoundTrip(b.y);
  }
}
