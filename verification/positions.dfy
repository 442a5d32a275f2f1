/** The `Position` object: two integer slots that the setters overwrite in
    place, operators that fill a freshly allocated Position, and `dir4`,
    which works on a temporary Position that it adjusts before deciding. */
module Positions {
  import opened Coords
  import Directions

  /** An operand as a caller holds it: another Position object, an Integer,
      an Array of Integers, or an object of any other class. */
  datatype Arg =
    | PositionRef(obj: Position)
    | IntegerValue(k: int)
    | ArrayValue(items: seq<int>)
    | OtherValue

  /** What an operator sees of its operand at the moment of the call. */
  function Snapshot(a: Arg): (o: Operand)
    reads if a.PositionRef? then {a.obj} else {}
  {
    match a
    case PositionRef(q) => PositionArg(q.Value())
    case IntegerValue(k) => IntegerArg(k)
    case ArrayValue(s) => ArrayArg(s)
    case OtherValue => OtherArg
  }

  class Position {
    var x: int
    var y: int

    /** The cell this object currently holds. */
    function Value(): (c: Coord)
      reads this
    {
      Coord(x, y)
    }

    /** `Position.new(x = 0, y = 0)`. */
    constructor (x0: int := 0, y0: int := 0)
      ensures Value() == Coord(x0, y0)
    {
      x := x0;
      y := y0;
    }

    /** `x=`: overwrites the x slot and returns the receiver. */
    method SetX(value: int) returns (r: Position)
      modifies this
      ensures r == this
      ensures Value() == Coord(value, old(y))
    {
      x := value;
      r := this;
    }

    /** `y=`: overwrites the y slot and returns the receiver. */
    method SetY(value: int) returns (r: Position)
      modifies this
      ensures r == this
      ensures Value() == Coord(old(x), value)
    {
      y := value;
      r := this;
    }

    /** `set`: overwrites both slots, x first, and returns the receiver. */
    method Set(nx: int, ny: int) returns (r: Position)
      modifies this
      ensures r == this
      ensures Value() == Coord(nx, ny)
    {
      var _ := SetX(nx);
      r := SetY(ny);
    }

    /** `+ - * /`: a fresh Position filled with `set` from the componentwise
        result, or the error the first failing component raises. The method
        modifies nothing, so neither operand changes. */
    method Operate(op: Op, other: Arg) returns (r: Result<Position>)
      ensures r.Ok? <==> Apply(op, Value(), Snapshot(other)).Ok?
      ensures r.Err? ==> r.error == Apply(op, Value(), Snapshot(other)).error
      ensures r.Ok? ==> fresh(r.value) && r.value.Value() == Apply(op, Value(), Snapshot(other)).value
    {
      var p := new Position();
      var ox: Option<int>, oy: Option<int>;
      match other {
        case PositionRef(q) =>
          ox, oy := Some(q.x), Some(q.y);
        case IntegerValue(k) =>
          ox, oy := Some(k), Some(k);
        case ArrayValue(s) =>
          ox, oy := At(s, 0), At(s, 1);
        case OtherValue =>
          return Err(NotExpectedClass);
      }
      var rx := Component(op, x, ox);
      if rx.Err? {
        return Err(rx.error);
      }
      var ry := Component(op, y, oy);
      if ry.Err? {
        return Err(ry.error);
      }
      var _ := p.Set(rx.value, ry.value);
      r := Ok(p);
    }

    /** `dir4`: takes `other - self` as a temporary Position, answers 5 when
        it equals the origin, bumps its x (bit set) or its y (bit clear) by
        one when both components are equal, and lets the larger magnitude
        pick the code, the vertical side taking a tie. */
    method Dir4(other: Position, coin: bool) returns (code: int)
      ensures code == Directions.Dir4(Value(), other.Value(), coin)
    {
      Directions.DeltaIsSubtraction(Value(), other.Value());
      var diff := other.Operate(Sub, PositionRef(this));
      var position := diff.value;
      if Equal(position.Value(), PositionArg(Origin)) == Some(true) {
        return 5;
      }
      if position.x == position.y {
        if coin {
          var _ := position.SetX(position.x + 1);
        } else {
          var _ := position.SetY(position.y + 1);
        }
      }
      if AbsInt(position.x) - AbsInt(position.y) > 0 {
        code := if position.x > 0 then 6 else 4;
      } else {
        code := if position.y > 0 then 2 else 8;
      }
    }
  }

  /** What a caller can rely on: setters chain on the same object, and an
      operator leaves both of its operands as they were. */
  method UsageExamples() {
    var p := new Position(1, 2);
    var q := new Position(3, 4);
    var sum := p.Operate(Add, PositionRef(q));
    assert sum.Ok? && sum.value.Value() == Coord(4, 6);
    assert p.Value() == Coord(1, 2) && q.Value() == Coord(3, 4);
    var same := p.Set(7, 8);
    assert same == p && p.x == 7 && p.y == 8;
    var code := p.Dir4(p, true);
    assert code == 5;
  }
}
