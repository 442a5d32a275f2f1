# Position: a verified model of a grid coordinate class

`Position` (RPG Maker VX Ace scripts, `VXAce/Position.rb`) is a two-dimensional
integer grid coordinate used by game scripts: x grows to the right and y grows
downwards. It stores two integer slots with the setters `x=`, `y=` and
`set`; `set` returns the receiver. It has the componentwise operators
`+ - * /`, which accept another Position, an Integer, or an Array whose first
two entries are used (a shorter Array yields `nil` for a missing entry). It
has coordinate equality `==` and a magnitude preorder `<=>` over
`sum = |x| + |y|`. It also has `dir4` and `dir8`, which
turn the vector towards another cell into a numeric-keypad direction code:
2 down, 4 left, 6 right, 8 up, 1/3/7/9 the diagonals, 5 the same cell.

The project has three modules:

- `Coords` (`coords.dfy`) covers the value side. `Coord` is the pair of
  unbounded integers. It holds `Sum`, `Abs`, `ToA`, `Compare` (`<=>`) and
  `Equal` (`==`). A non-Position comparand gives `None`, standing for Ruby's
  `nil`. `Apply` gives the four operators on a closed operand type
  (`PositionArg | IntegerArg | ArrayArg | OtherArg`). Their failures are a
  `Result`, not a precondition. A wrong class is `NotExpectedClass`. A zero
  divisor is `ZeroDivision`. An array too short to give two entries is
  `NilOperand`, because `nil` reaches Integer arithmetic. The x component is
  evaluated first, as in Ruby. Division is Ruby's `Integer#/`, which floors.
  It is written out as `FloorDiv`, because Dafny's `/` is Euclidean.
- `Directions` (`directions.dfy`) holds `Dir4` and `Dir8` as functions of the
  two cells and the random bit. Their lemmas give the exact sectors, the
  tie-break, invariance under translation and under positive scaling, and the
  opposite-direction law.
- `Positions` (`positions.dfy`) holds the object, `class Position`, with `x`/`y`
  fields. `SetX`, `SetY` and `Set` overwrite them in place and return the
  receiver. `Operate` allocates a fresh Position and fills it with `Set`.
  `Dir4` builds `other - self` as a temporary Position and bumps one of its
  axes in place, as the Ruby code does. It is proved equal to
  `Directions.Dir4`.

The engine's random bit `Function.random` is the `coin: bool` parameter of
`Dir4`.

Two facts about the code that the model keeps:

- The `dir4` tie-break fires when `dx == dy` (Position.rb:41), although the
  comment at Position.rb:40 speaks of equal distances on the two axes. On the
  anti-diagonal `dx == -dy` the bit is never read and the vertical code always
  wins (`Directions.Dir4AntiDiagonal`).
- Division is Ruby's `Integer#/`, which floors.

## Model

| member | source | states |
|---|---|---|
| Coords.AbsInt | VXAce/Position.rb:27 | `Integer#abs` is non-negative and equals n or -n |
| Coords.Sum | VXAce/Position.rb:25-28 | `sum` is a natural number, zero exactly for the origin, and at least each component's magnitude |
| Coords.Abs | VXAce/Position.rb:84-87 | `abs` gives a cell in the non-negative quadrant whose components are the originals up to sign |
| Coords.AbsIdempotent | VXAce/Position.rb:84-87 | applying `abs` twice is the same as applying it once |
| Coords.SumOfAbs | VXAce/Position.rb:84-87 | `sum(abs(p)) == sum(p)` |
| Coords.ToA | VXAce/Position.rb:195-197 | `to_a` has exactly two entries |
| Coords.ToARoundTrip | VXAce/Position.rb:195-197 | `Position.new(*p.to_a) == p` |
| Coords.Compare | VXAce/Position.rb:91-96 | `<=>` is nil exactly for a non-Position; otherwise its sign is the order of the two sums |
| Coords.CompareIsPreorder | VXAce/Position.rb:91-96 | `<=>` is reflexive, antisymmetric (a<=>b == -(b<=>a)), transitive and total |
| Coords.CompareZeroIsNotEquality | VXAce/Position.rb:91-105 | `==` implies `<=>` is 0, but (1,1) and (2,0) compare 0 while `==` is false |
| Coords.Equal | VXAce/Position.rb:100-105 | `==` is nil exactly for a non-Position, and true exactly when the operand is a Position with the same x and y |
| Coords.FloorDiv | VXAce/Position.rb:151-161 | Ruby `Integer#/`: the quotient q with b*q <= a < b*q + b for b > 0, and b*q + b < a <= b*q for b < 0 |
| Coords.FloorDivDiffersFromEuclidean | VXAce/Position.rb:151-161 | 7 / -2 is -4 in Ruby, while Dafny's `/` gives -3 |
| Coords.Component | VXAce/Position.rb:109-161 | one component fails exactly on a nil operand (NilOperand) or a zero divisor (ZeroDivision); addition and subtraction are undone by the operand |
| Coords.Apply | VXAce/Position.rb:109-161 | an operator raises the class's own exception exactly for an operand of no accepted class, and never fails on a Position operand except under `/`; its helpers `At` (`ary[i]`, nil past the end) and `Both` (x component first) are pinned down by `ArrayActsAsPosition` and `ShortArrayFails` |
| Coords.ScalarActsAsPosition | VXAce/Position.rb:114 | an Integer operand k behaves as Position(k, k) under every operator |
| Coords.ArrayActsAsPosition | VXAce/Position.rb:116 | an Array of at least two entries behaves as Position(a[0], a[1]); `q.to_a` behaves as q |
| Coords.ShortArrayFails | VXAce/Position.rb:116 | an Array with fewer than two entries always fails: ZeroDivision for `/ [0]`, otherwise NilOperand |
| Coords.AddThenSub | VXAce/Position.rb:109-133 | (p + q) - q == p for a Position or Integer q |
| Coords.DivisionFloors | VXAce/Position.rb:151-161 | p / q succeeds exactly when neither component of q is zero, fails with ZeroDivision otherwise, and floors each component |
| Coords.OperatorExamples | VXAce/Position.rb:109-161 | (1,2)+(3,4) = (4,6), (1,2)+5 = (6,7), (1,2)+[3,4] = (4,6), (7,-7)/-2 = (-4,3), and division by 0 raises |
| Directions.DeltaIsSubtraction | VXAce/Position.rb:37 | the vector used by both direction methods is `other - self`, and it is the origin exactly when the two cells coincide |
| Directions.Dir4 | VXAce/Position.rb:33-50 | `dir4` is 5 exactly when the cells coincide, otherwise one of 2, 4, 6, 8 |
| Directions.Dir4Dominant | VXAce/Position.rb:44-49 | if \|dx\| > \|dy\| then 6 or 4 by the sign of dx; if \|dx\| < \|dy\| then 2 or 8 by the sign of dy, whatever the bit |
| Directions.Dir4CoinOnlyOnDiagonal | VXAce/Position.rb:40-43 | the random bit changes the result exactly on the main diagonal dx == dy off the origin |
| Directions.Dir4DiagonalTie | VXAce/Position.rb:40-49 | on (k, k), k != 0: k > 0 gives 6 (bit set) or 2 (bit clear); k < 0 gives 8 or 4 |
| Directions.Dir4AntiDiagonal | VXAce/Position.rb:40-49 | on (k, -k), k != 0, the bit is ignored and the result is 2 if dy > 0, else 8 |
| Directions.Dir4TieReachesBothNeighbours | VXAce/Position.rb:40-49 | on the main diagonal a code is reachable by some bit exactly when it is one of the two cardinal neighbours of the diagonal direction |
| Directions.Dir4AntiDiagonalReachesOne | VXAce/Position.rb:40-49 | on the anti-diagonal the only code any bit reaches is the vertical one, so the sideways neighbour is never chosen |
| Directions.Dir4Translate | VXAce/Position.rb:37 | moving both cells by the same vector leaves `dir4` unchanged |
| Directions.Dir4Opposite | VXAce/Position.rb:33-50 | for distinct cells, dir4(a, b) with bit c plus dir4(b, a) with bit not c is 10 |
| Directions.Dir8 | VXAce/Position.rb:55-70 | `dir8` is 5 exactly when the cells coincide, otherwise one of 1, 2, 3, 4, 6, 7, 8, 9 |
| Directions.BandThreshold | VXAce/Position.rb:63-65 | with X = \|dx\|, Y = \|dy\|: X - Y > floor((X+Y)/3) iff X > 2Y, and X - Y < -floor((X+Y)/3) iff Y > 2X |
| Directions.Dir8Sectors | VXAce/Position.rb:62-69 | `dir8` equals the ratio-test code `SectorCode` of the vector: 6/4 when \|dx\| > 2\|dy\|, 2/8 when \|dy\| > 2\|dx\|, otherwise the quadrant's diagonal; a diagonal answer never has a zero component |
| Directions.SectorCodeReversed | VXAce/Position.rb:62-69 | reversing a non-zero vector turns its sector code c into 10 - c |
| Directions.SectorCodeScaled | VXAce/Position.rb:62-69 | stretching a vector by a positive factor keeps its sector code |
| Directions.Dir8ScaleInvariant | VXAce/Position.rb:55-70 | `dir8` depends only on the vector's angle: (p * k).dir8(other * k) == p.dir8(other) for every Integer k > 0 |
| Directions.Dir4ScaleInvariant | VXAce/Position.rb:33-50 | `dir4` depends only on the vector's angle: (p * k).dir4(other * k) == p.dir4(other) for every Integer k > 0 and the same bit |
| Directions.Dir8Axes | VXAce/Position.rb:62-69 | a vector with dy = 0 gives 6 or 4, and one with dx = 0 gives 2 or 8 |
| Directions.Dir8Diagonals | VXAce/Position.rb:67-68 | \|dx\| == \|dy\| gives (-,-) 7, (-,+) 1, (+,-) 9, (+,+) 3 |
| Directions.Dir8Translate | VXAce/Position.rb:59 | moving both cells by the same vector leaves `dir8` unchanged |
| Directions.Dir8Opposite | VXAce/Position.rb:59-69 | for distinct cells dir8(a, b) + dir8(b, a) == 10 |
| Directions.Dir4WithinDir8 | VXAce/Position.rb:33-70 | `dir4` equals `dir8` when that is cardinal, and is one of the diagonal's two cardinal neighbours otherwise |
| Directions.Dir8Examples | VXAce/Position.rb:55-70 | from the origin: (10,1) 6, (1,1) 3, (2,1) 3, (3,1) 6, itself 5 |
| Positions.Position.constructor | VXAce/Position.rb:18-21 | a new Position holds the given x and y |
| Positions.Position.SetX | VXAce/Position.rb:171-176 | `x=` overwrites x, keeps y and returns the receiver |
| Positions.Position.SetY | VXAce/Position.rb:186-191 | `y=` overwrites y, keeps x and returns the receiver |
| Positions.Position.Set | VXAce/Position.rb:201-204 | after `set(a, b)` the object reads (a, b), and `set` returns the same object |
| Positions.Position.Operate | VXAce/Position.rb:109-161 | an operator returns a freshly allocated Position holding `Apply`'s result, or `Apply`'s error; it modifies nothing, so both operands stay as they were |
| Positions.Position.Dir4 | VXAce/Position.rb:33-50 | the in-place computation on a temporary Position returns exactly `Directions.Dir4` of the two cells and the bit |

## Left out

- `inner_circle?` (VXAce/Position.rb:74-80) is not modelled. It divides and squares Floats, and with r = 0 Ruby yields Infinity or NaN instead of raising. Floating point is outside this model.
- `Function.random` is engine code that is not part of this model. Its single bit is the `coin` parameter of `Dir4`.
- The runtime class checks that raise from the setters, `dir4` and `dir8` (VXAce/Position.rb:35, 57, 173, 188) are not modelled. Dafny's static types make a non-Integer coordinate and a non-Position target unrepresentable.
- An Array operand is a sequence of integers. Ruby arrays holding other classes, and subclasses of Position, Integer or Array, are not modelled.
- Ruby's exception classes and the message text of the `exception` helper are not modelled. The errors are the three `Error` constructors.
- Methods that `Comparable` derives from `<=>` (`<`, `between?`, `clamp`, ...) are library code and are not modelled. Only `<=>` itself is.
- The `x` and `y` getters are the class's fields. `sum`, `abs`, `to_a`, `<=>`, `==` and `dir8` are functions of the object's value (`Position.Value()`). So `abs` returns a value, not a freshly allocated Position. The temporary Position that `dir8` allocates for `other - self` is not modelled as an object.
- The `@data` array behind the two slots is modelled as two fields. Its transient state inside `initialize`, before both slots are set, is not observable and is not modelled.
