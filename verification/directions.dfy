/** Direction quantisation: `dir4` and `dir8` give the numeric-keypad code
    of the direction in which `other` lies as seen from a cell (2 down,
    4 left, 6 right, 8 up, 1/3/7/9 the diagonals, 5 the cell itself). Both
    look only at the vector `other - self`. */
module Directions {
  import opened Coords

  /** The vector from `p` to `other`. */
  function Delta(p: Coord, other: Coord): (d: Coord)
  {
    Coord(other.x - p.x, other.y - p.y)
  }

  /** `Delta` is the operator `other - self`, and it is the origin exactly when the cells coincide. */
  lemma DeltaIsSubtraction(p: Coord, other: Coord)
    ensures Apply(Sub, other, PositionArg(p)) == Ok(Delta(p, other))
    ensures Delta(p, other) == Origin <==> p == other
  {
  }

  /** The right/left code for a vector that points sideways. */
  function Horizontal(d: Coord): (r: int)
  {
    if d.x > 0 then 6 else 4
  }

  /** The down/up code for a vector that points vertically. */
  function Vertical(d: Coord): (r: int)
  {
    if d.y > 0 then 2 else 8
  }

  /** The diagonal code of the quadrant the vector lies in. */
  function Quadrant(d: Coord): (r: int)
  {
    if d.x < 0 then (if d.y < 0 then 7 else 1)
    else (if d.y < 0 then 9 else 3)
  }

  /** The cardinal codes a code is made of: a diagonal's two neighbours, or a cardinal itself. */
  function CardinalParts(code: int): (r: set<int>)
  {
    match code
    case 1 => {2, 4}
    case 3 => {2, 6}
    case 7 => {4, 8}
    case 9 => {6, 8}
    case _ => {code}
  }

  /** `dir4`: four-way code towards `other`; `coin` is the engine's random bit,
      read only when the vector lies on the main diagonal dx == dy. There one
      axis of the vector is bumped by one, and then the larger magnitude wins,
      with the vertical side taking a tie. */
  function Dir4(p: Coord, other: Coord, coin: bool): (r: int)
    ensures r == 5 <==> p == other
    ensures r != 5 ==> r in {2, 4, 6, 8}
  {
    var d := Delta(p, other);
    if d == Origin then 5
    else
      var t := if d.x == d.y then (if coin then Coord(d.x + 1, d.y) else Coord(d.x, d.y + 1)) else d;
      if AbsInt(t.x) - AbsInt(t.y) > 0 then Horizontal(t) else Vertical(t)
  }

  /** `dir8`: eight-way code towards `other`. With the tolerance band
      floor(sum / 3), a clearly sideways vector gives 6 or 4, a clearly
      vertical one 2 or 8, and every other one the code of its quadrant. */
  function Dir8(p: Coord, other: Coord): (r: int)
    ensures r == 5 <==> p == other
    ensures r != 5 ==> r in {1, 2, 3, 4, 6, 7, 8, 9}
  {
    var d := Delta(p, other);
    if d == Origin then 5
    else
      var band := FloorDiv(Sum(d), 3);
      if AbsInt(d.x) - AbsInt(d.y) > band then Horizontal(d)
      else if AbsInt(d.x) - AbsInt(d.y) < -band then Vertical(d)
      else Quadrant(d)
  }

  // ---------------------------------------------------------------- dir4

  /** Off both diagonals the larger magnitude decides and the bit is never read. */
  lemma Dir4Dominant(p: Coord, other: Coord, coin: bool)
    ensures var d := Delta(p, other);
            AbsInt(d.x) > AbsInt(d.y) ==> Dir4(p, other, coin) == Horizontal(d)
    ensures var d := Delta(p, other);
            AbsInt(d.x) < AbsInt(d.y) ==> Dir4(p, other, coin) == Vertical(d)
  {
  }

  /** The bit matters only on the main diagonal dx == dy. */
  lemma Dir4CoinOnlyOnDiagonal(p: Coord, other: Coord)
    ensures var d := Delta(p, other);
            d.x != d.y ==> Dir4(p, other, true) == Dir4(p, other, false)
    ensures var d := Delta(p, other);
            d.x == d.y && p != other ==> Dir4(p, other, true) != Dir4(p, other, false)
  {
  }

  /** On the main diagonal (k, k): true bumps x, false bumps y. */
  lemma Dir4DiagonalTie(p: Coord, other: Coord, coin: bool)
    requires Delta(p, other).x == Delta(p, other).y != 0
    ensures Dir4(p, other, coin)
            == if Delta(p, other).x > 0 then (if coin then 6 else 2) else (if coin then 8 else 4)
  {
  }

  /** On the anti-diagonal (k, -k) the bit is ignored and the vertical code wins. */
  lemma Dir4AntiDiagonal(p: Coord, other: Coord, coin: bool)
    requires Delta(p, other).x == -Delta(p, other).y != 0
    ensures Dir4(p, other, coin) == Vertical(Delta(p, other))
  {
  }

  /** The purpose of the tie-break: on the main diagonal each of the two
      cardinal neighbours of the diagonal direction is reached by some bit,
      and nothing else is. */
  lemma Dir4TieReachesBothNeighbours(p: Coord, other: Coord)
    requires Delta(p, other).x == Delta(p, other).y != 0
    ensures (set coin: bool :: Dir4(p, other, coin)) == CardinalParts(Dir8(p, other))
  {
    Dir8Diagonals(p, other);
    Dir4DiagonalTie(p, other, true);
    Dir4DiagonalTie(p, other, false);
  }

  /** On the anti-diagonal no bit reaches the sideways neighbour: the only
      reachable code is the vertical one. */
  lemma Dir4AntiDiagonalReachesOne(p: Coord, other: Coord)
    requires Delta(p, other).x == -Delta(p, other).y != 0
    ensures (set coin: bool :: Dir4(p, other, coin)) == {Vertical(Delta(p, other))}
  {
    Dir4AntiDiagonal(p, other, true);
    Dir4AntiDiagonal(p, other, false);
  }

  /** Moving both cells by the same vector does not change `dir4`. */
  lemma Dir4Translate(p: Coord, other: Coord, t: Coord, coin: bool)
    ensures Dir4(Apply(Add, p, PositionArg(t)).value, Apply(Add, other, PositionArg(t)).value, coin)
            == Dir4(p, other, coin)
  {
  }

  /** Looking back gives the opposite code when the bit is flipped too. */
  lemma Dir4Opposite(p: Coord, other: Coord, coin: bool)
    requires p != other
    ensures Dir4(p, other, coin) + Dir4(other, p, !coin) == 10
  {
  }

  // ---------------------------------------------------------------- dir8

  /** The tolerance band floor((X + Y) / 3) as a plain ratio test. */
  lemma {:induction false} BandThreshold(ax: nat, ay: nat)
    ensures ax - ay > FloorDiv(ax + ay, 3) <==> ax > 2 * ay
    ensures ax - ay < -FloorDiv(ax + ay, 3) <==> ay > 2 * ax
  {
    var q := FloorDiv(ax + ay, 3);
    assert 3 * q <= ax + ay < 3 * q + 3;
  }

  /** The eight sectors as plain ratio tests, without the band: sideways
      when |dx| > 2|dy|, vertical when |dy| > 2|dx|, diagonal in between. */
  function SectorCode(d: Coord): (r: int)
  {
    if d == Origin then 5
    else if AbsInt(d.x) > 2 * AbsInt(d.y) then Horizontal(d)
    else if AbsInt(d.y) > 2 * AbsInt(d.x) then Vertical(d)
    else Quadrant(d)
  }

  /** The exact sectors of `dir8`: it is the ratio-test code of the vector,
      and its diagonal branch is never reached with a zero component. */
  lemma Dir8Sectors(p: Coord, other: Coord)
    ensures Dir8(p, other) == SectorCode(Delta(p, other))
    ensures Dir8(p, other) in {1, 3, 7, 9} ==> Delta(p, other).x != 0 && Delta(p, other).y != 0
  {
    var d := Delta(p, other);
    BandThreshold(AbsInt(d.x), AbsInt(d.y));
  }

  /** Along an axis `dir8` gives the cardinal code. */
  lemma Dir8Axes(p: Coord, other: Coord)
    requires p != other
    ensures Delta(p, other).y == 0 ==> Dir8(p, other) == Horizontal(Delta(p, other))
    ensures Delta(p, other).x == 0 ==> Dir8(p, other) == Vertical(Delta(p, other))
  {
    Dir8Sectors(p, other);
  }

  /** On either diagonal |dx| == |dy| `dir8` gives the diagonal code:
      (-,-) 7, (-,+) 1, (+,-) 9, (+,+) 3. */
  lemma Dir8Diagonals(p: Coord, other: Coord)
    requires p != other
    requires AbsInt(Delta(p, other).x) == AbsInt(Delta(p, other).y)
    ensures var d := Delta(p, other);
            Dir8(p, other) == (if d.x < 0 then (if d.y < 0 then 7 else 1)
                               else (if d.y < 0 then 9 else 3))
  {
    Dir8Sectors(p, other);
  }

  /** Moving both cells by the same vector does not change `dir8`. */
  lemma Dir8Translate(p: Coord, other: Coord, t: Coord)
    ensures Dir8(Apply(Add, p, PositionArg(t)).value, Apply(Add, other, PositionArg(t)).value)
            == Dir8(p, other)
  {
  }

  /** Reversing a non-zero vector gives the opposite ratio-test code. */
  lemma SectorCodeReversed(d: Coord)
    requires d != Origin
    ensures SectorCode(d) + SectorCode(Coord(-d.x, -d.y)) == 10
  {
  }

  /** Looking back gives the opposite code. */
  lemma Dir8Opposite(p: Coord, other: Coord)
    requires p != other
    ensures Dir8(p, other) + Dir8(other, p) == 10
  {
    var d := Delta(p, other);
    Dir8Sectors(p, other);
    Dir8Sectors(other, p);
    assert Delta(other, p) == Coord(-d.x, -d.y);
    SectorCodeReversed(d);
  }

  /** Multiplying by a positive k scales a magnitude by k. */
  lemma {:induction false} ScaledAbs(k: int, n: int)
    requires k > 0
    ensures AbsInt(k * n) == k * AbsInt(n)
    ensures k * n > 0 <==> n > 0
    ensures k * n < 0 <==> n < 0
  {
    if n < 0 {
      assert k * n == -(k * -n);
    }
  }

  /** Multiplying by a positive k keeps the order of two integers. */
  lemma {:induction false} ScaledOrder(k: int, a: int, b: int)
    requires k > 0
    ensures k * a > k * b <==> a > b
    ensures k * a == k * b <==> a == b
  {
    assert k * a - k * b == k * (a - b);
    ScaledAbs(k, a - b);
  }

  /** `p * k` and `other * k` are k times further apart than p and other. */
  lemma {:induction false} ScaledDelta(p: Coord, other: Coord, k: int)
    requires k > 0
    ensures Apply(Mul, p, IntegerArg(k)).Ok? && Apply(Mul, other, IntegerArg(k)).Ok?
    ensures var d := Delta(p, other);
            Delta(Apply(Mul, p, IntegerArg(k)).value, Apply(Mul, other, IntegerArg(k)).value)
            == Coord(k * d.x, k * d.y)
  {
    assert k * other.x - k * p.x == k * (other.x - p.x);
    assert k * other.y - k * p.y == k * (other.y - p.y);
  }

  /** Multiplying by a positive k keeps the outcome of a ratio test a > 2b. */
  lemma {:induction false} ScaledRatio(k: int, a: int, b: int)
    requires k > 0
    ensures k * a > 2 * (k * b) <==> a > 2 * b
  {
    assert k * a - 2 * (k * b) == k * (a - 2 * b);
    ScaledAbs(k, a - 2 * b);
  }

  /** The ratio-test sectors do not change when a vector is stretched by a positive k. */
  lemma {:induction false} SectorCodeScaled(d: Coord, k: int)
    requires k > 0
    ensures SectorCode(Coord(k * d.x, k * d.y)) == SectorCode(d)
  {
    var e := Coord(k * d.x, k * d.y);
    ScaledAbs(k, d.x);
    ScaledAbs(k, d.y);
    ScaledRatio(k, AbsInt(d.x), AbsInt(d.y));
    ScaledRatio(k, AbsInt(d.y), AbsInt(d.x));
    assert e == Origin <==> d == Origin;
    assert Horizontal(e) == Horizontal(d) && Vertical(e) == Vertical(d) && Quadrant(e) == Quadrant(d);
  }

  /** `dir8` depends only on the angle of the vector: scaling both cells by a
      positive Integer does not change it. */
  lemma {:induction false} Dir8ScaleInvariant(p: Coord, other: Coord, k: int)
    requires k > 0
    ensures Apply(Mul, p, IntegerArg(k)).Ok? && Apply(Mul, other, IntegerArg(k)).Ok?
    ensures Dir8(Apply(Mul, p, IntegerArg(k)).value, Apply(Mul, other, IntegerArg(k)).value)
            == Dir8(p, other)
  {
    ScaledDelta(p, other, k);
    var sp, so := Apply(Mul, p, IntegerArg(k)).value, Apply(Mul, other, IntegerArg(k)).value;
    Dir8Sectors(p, other);
    Dir8Sectors(sp, so);
    SectorCodeScaled(Delta(p, other), k);
  }

  /** `dir4` too depends only on the angle of the vector, for a given bit. */
  lemma {:induction false} Dir4ScaleInvariant(p: Coord, other: Coord, k: int, coin: bool)
    requires k > 0
    ensures Apply(Mul, p, IntegerArg(k)).Ok? && Apply(Mul, other, IntegerArg(k)).Ok?
    ensures Dir4(Apply(Mul, p, IntegerArg(k)).value, Apply(Mul, other, IntegerArg(k)).value, coin)
            == Dir4(p, other, coin)
  {
    ScaledDelta(p, other, k);
    var sp, so := Apply(Mul, p, IntegerArg(k)).value, Apply(Mul, other, IntegerArg(k)).value;
    var d := Delta(p, other);
    ScaledAbs(k, d.x);
    ScaledAbs(k, d.y);
    ScaledOrder(k, d.x, d.y);
    ScaledOrder(k, d.x, -d.y);
    ScaledOrder(k, AbsInt(d.x), AbsInt(d.y));
    ScaledOrder(k, AbsInt(d.y), AbsInt(d.x));
    if p != other {
      ScaledOrder(k, d.x, 0);
      ScaledOrder(k, d.y, 0);
      Dir4Dominant(p, other, coin);
      Dir4Dominant(sp, so, coin);
      if d.x == d.y {
        Dir4DiagonalTie(p, other, coin);
        Dir4DiagonalTie(sp, so, coin);
      } else if d.x == -d.y {
        Dir4AntiDiagonal(p, other, coin);
        Dir4AntiDiagonal(sp, so, coin);
      }
    }
  }

  /** `dir4` is `dir8` when that is cardinal, and one of its two neighbours when it is diagonal. */
  lemma Dir4WithinDir8(p: Coord, other: Coord, coin: bool)
    requires p != other
    ensures Dir4(p, other, coin) in CardinalParts(Dir8(p, other))
  {
    Dir8Sectors(p, other);
  }

  /** Worked examples from the origin. */
  lemma Dir8Examples()
    ensures Dir8(Origin, Coord(10, 1)) == 6
    ensures Dir8(Origin, Coord(1, 1)) == 3
    ensures Dir8(Origin, Coord(2, 1)) == 3
    ensures Dir8(Origin, Coord(3, 1)) == 6
    ensures Dir8(Origin, Origin) == 5
  {
    Dir8Sectors(Origin, Coord(10, 1));
    Dir8Sectors(Origin, Coord(1, 1));
    Dir8Sectors(Origin, Coord(2, 1));
    Dir8Sectors(Origin, Coord(3, 1));
  }
}
