/** The value side of the grid coordinate `Position`: a pair of unbounded
    integers (x grows to the right, y grows downwards), its L1 magnitude,
    coordinate equality, the magnitude preorder `<=>`, and the four
    componentwise operators with the three operand shapes they accept. */
module Coords {

  /** One grid cell. */
  datatype Coord = Coord(x: int, y: int)

  const Origin := Coord(0, 0)

  datatype Option<T> = None | Some(value: T)

  /** The ways an operator call fails. */
  datatype Error =
    | NotExpectedClass  // the class's own `exception` helper: an operand of no accepted class
    | ZeroDivision      // Integer#/ with a zero divisor
    | NilOperand        // an array operand too short: `nil` reaches Integer arithmetic

  datatype Result<T> = Ok(value: T) | Err(error: Error)

  /** What a caller may pass to the right of an operator or a comparison. */
  datatype Operand =
    | PositionArg(p: Coord)
    | IntegerArg(k: int)
    | ArrayArg(items: seq<int>)
    | OtherArg

  /** Integer#abs. */
  function AbsInt(n: int): (r: nat)
    ensures r == n || r == -n
  {
    if n < 0 then -n else n
  }

  /** `sum`: the L1 magnitude |x| + |y|. */
  function Sum(c: Coord): (r: nat)
    ensures r == 0 <==> c == Origin
    ensures AbsInt(c.x) <= r && AbsInt(c.y) <= r
  {
    AbsInt(c.x) + AbsInt(c.y)
  }

  /** `abs`: the cell mirrored into the non-negative quadrant. */
  function Abs(c: Coord): (r: Coord)
    ensures r.x >= 0 && r.y >= 0
    ensures (r.x == c.x || r.x == -c.x) && (r.y == c.y || r.y == -c.y)
  {
    Coord(AbsInt(c.x), AbsInt(c.y))
  }

  lemma AbsIdempotent(c: Coord)
    ensures Abs(Abs(c)) == Abs(c)
  {
  }

  lemma SumOfAbs(c: Coord)
    ensures Sum(Abs(c)) == Sum(c)
  {
  }

  /** `to_a`: the two coordinates as a two-element array. */
  function ToA(c: Coord): (r: seq<int>)
    ensures |r| == 2
  {
    [c.x, c.y]
  }

  /** `<=>`: the difference of magnitudes; no answer for a non-Position. */
  function Compare(a: Coord, other: Operand): (r: Option<int>)
    ensures r.None? <==> !other.PositionArg?
    ensures other.PositionArg? ==> (r.value < 0 <==> Sum(a) < Sum(other.p))
    ensures other.PositionArg? ==> (r.value == 0 <==> Sum(a) == Sum(other.p))
  {
    match other
    case PositionArg(b) => Some(Sum(a) - Sum(b))
    case _ => None
  }

  /** `==`: both coordinates match; no answer for a non-Position. */
  function Equal(a: Coord, other: Operand): (r: Option<bool>)
    ensures r.None? <==> !other.PositionArg?
    ensures r == Some(true) <==> other == PositionArg(a)
  {
    match other
    case PositionArg(b) => Some(a.x == b.x && a.y == b.y)
    case _ => None
  }

  /** `Position.new(*p.to_a) == p`. */
  lemma ToARoundTrip(c: Coord)
    ensures var s := ToA(c); Equal(Coord(s[0], s[1]), PositionArg(c)) == Some(true)
  {
  }

  /** `<=>` read as a preorder: reflexive, antisymmetric in sign, transitive, total. */
  lemma CompareIsPreorder(a: Coord, b: Coord, c: Coord)
    ensures Compare(a, PositionArg(a)) == Some(0)
    ensures Compare(a, PositionArg(b)).value == -Compare(b, PositionArg(a)).value
    ensures Compare(a, PositionArg(b)).value <= 0 && Compare(b, PositionArg(c)).value <= 0
            ==> Compare(a, PositionArg(c)).value <= 0
    ensures Compare(a, PositionArg(b)).value <= 0 || Compare(b, PositionArg(a)).value <= 0
  {
  }

  /** Equality implies order-equivalence, but not the other way round. */
  lemma CompareZeroIsNotEquality(a: Coord, b: Coord)
    ensures Equal(a, PositionArg(b)) == Some(true) ==> Compare(a, PositionArg(b)) == Some(0)
    ensures Compare(Coord(1, 1), PositionArg(Coord(2, 0))) == Some(0)
    ensures Equal(Coord(1, 1), PositionArg(Coord(2, 0))) == Some(false)
  {
  }

  /** The four operators. */
  datatype Op = Add | Sub | Mul | Div

  /** Ruby's Integer#/: the quotient rounded towards negative infinity. */
  function FloorDiv(a: int, b: int): (q: int)
    requires b != 0
    ensures b > 0 ==> b * q <= a < b * q + b
    ensures b < 0 ==> b * q + b < a <= b * q
  {
    if b > 0 then a / b else (-a) / (-b)
  }

  /** Ruby's `/` and Dafny's `/` part ways on a negative divisor. */
  lemma FloorDivDiffersFromEuclidean()
    ensures FloorDiv(7, -2) == -4 && 7 / -2 == -3
  {
  }

  /** One component of an operator: `a <op> b`, where `b` is `nil` when absent. */
  function Component(op: Op, a: int, b: Option<int>): (r: Result<int>)
    ensures r.Err? <==> b.None? || (op == Div && b.value == 0)
    ensures r.Err? ==> r.error == (if b.None? then NilOperand else ZeroDivision)
    ensures r.Ok? && op == Add ==> r.value - b.value == a
    ensures r.Ok? && op == Sub ==> r.value + b.value == a
  {
    match b
    case None => Err(NilOperand)
    case Some(v) =>
      match op
      case Add => Ok(a + v)
      case Sub => Ok(a - v)
      case Mul => Ok(a * v)
      case Div => if v == 0 then Err(ZeroDivision) else Ok(FloorDiv(a, v))
  }

  /** Ruby's `ary[i]` for a non-negative index: `nil` past the end. */
  function At(s: seq<int>, i: nat): (r: Option<int>)
  {
    if i < |s| then Some(s[i]) else None
  }

  /** Both components, x first, as `p.set(x <op> ox, y <op> oy)` evaluates them. */
  function Both(op: Op, a: Coord, ox: Option<int>, oy: Option<int>): (r: Result<Coord>)
  {
    var rx := Component(op, a.x, ox);
    if rx.Err? then Err(rx.error)
    else
      var ry := Component(op, a.y, oy);
      if ry.Err? then Err(ry.error) else Ok(Coord(rx.value, ry.value))
  }

  /** `+ - * /`: a new cell combined componentwise with a Position, an Integer
      on both axes, or the first two entries of an Array; any other class fails. */
  function Apply(op: Op, a: Coord, other: Operand): (r: Result<Coord>)
    ensures r == Err(NotExpectedClass) <==> other.OtherArg?
    ensures other.PositionArg? && op != Div ==> r.Ok?
  {
    match other
    case PositionArg(b) => Both(op, a, Some(b.x), Some(b.y))
    case IntegerArg(k) => Both(op, a, Some(k), Some(k))
    case ArrayArg(s) => Both(op, a, At(s, 0), At(s, 1))
    case OtherArg => Err(NotExpectedClass)
  }

  /** An Integer operand k acts as the Position (k, k). */
  lemma ScalarActsAsPosition(op: Op, a: Coord, k: int)
    ensures Apply(op, a, IntegerArg(k)) == Apply(op, a, PositionArg(Coord(k, k)))
  {
  }

  /** An Array operand acts as the Position of its first two entries; `to_a` of a Position acts as that Position. */
  lemma ArrayActsAsPosition(op: Op, a: Coord, s: seq<int>, c: Coord)
    ensures |s| >= 2 ==> Apply(op, a, ArrayArg(s)) == Apply(op, a, PositionArg(Coord(s[0], s[1])))
    ensures Apply(op, a, ArrayArg(ToA(c))) == Apply(op, a, PositionArg(c))
  {
  }

  /** An Array operand shorter than two entries always fails. */
  lemma ShortArrayFails(op: Op, a: Coord, s: seq<int>)
    requires |s| < 2
    ensures Apply(op, a, ArrayArg(s)).Err?
    ensures Apply(op, a, ArrayArg(s)).error
            == (if |s| == 1 && op == Div && s[0] == 0 then ZeroDivision else NilOperand)
  {
  }

  /** (p + q) - q == p, and likewise for scalars. */
  lemma AddThenSub(p: Coord, q: Operand)
    requires q.PositionArg? || q.IntegerArg?
    ensures Apply(Add, p, q).Ok?
    ensures Apply(Sub, Apply(Add, p, q).value, q) == Ok(p)
  {
  }

  /** `/` succeeds exactly when no divisor component is zero, and then floors each component. */
  lemma DivisionFloors(a: Coord, b: Coord)
    ensures Apply(Div, a, PositionArg(b)).Ok? <==> b.x != 0 && b.y != 0
    ensures Apply(Div, a, PositionArg(b)).Err? ==> Apply(Div, a, PositionArg(b)).error == ZeroDivision
    ensures Apply(Div, a, PositionArg(b)).Ok? ==>
              var q := Apply(Div, a, PositionArg(b)).value;
              q.x == FloorDiv(a.x, b.x) && q.y == FloorDiv(a.y, b.y)
  {
  }

  /** Worked examples: (1,2)+(3,4), (1,2)+5, (1,2)+[3,4], and floor division by a negative scalar. */
  lemma OperatorExamples()
    ensures Apply(Add, Coord(1, 2), PositionArg(Coord(3, 4))) == Ok(Coord(4, 6))
    ensures Apply(Add, Coord(1, 2), IntegerArg(5)) == Ok(Coord(6, 7))
    ensures Apply(Add, Coord(1, 2), ArrayArg([3, 4])) == Ok(Coord(4, 6))
    ensures Apply(Div, Coord(7, -7), IntegerArg(-2)) == Ok(Coord(-4, 3))
    ensures Apply(Div, Coord(1, 2), IntegerArg(0)) == Err(ZeroDivision)
  {
  }
}
