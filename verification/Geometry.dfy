/** Sector arithmetic: the grid of square sectors that world coordinates fall into,
    and what being within the view radius means for coordinates. */
module Geometry {

  const INT_MAX: int := 0x7fff_ffff
  const INT_MIN: int := -0x8000_0000

  type pos = n: int | n > 0 witness 1

  datatype SectorCoord = SectorCoord(x: int, y: int)

  // The quotient used to find a sector.  Division that truncates rounds a negative quotient up; dividing
  // the negated value, rounded up, and negating again rounds it towards minus infinity.
  function FloorDiv(value: int, divisor: pos): int {
    if value >= 0 then value / divisor else -((-value + divisor - 1) / divisor)
  }

  function SectorFor(size: pos, x: int, y: int): SectorCoord {
    SectorCoord(FloorDiv(x, size), FloorDiv(y, size))
  }

  // Chebyshev distance between two sectors is at most `radius`.
  predicate Near(radius: nat, a: SectorCoord, b: SectorCoord) {
    && a.x - radius <= b.x <= a.x + radius
    && a.y - radius <= b.y <= a.y + radius
  }

  predicate Visible(size: pos, radius: nat, x1: int, y1: int, x2: int, y2: int) {
    Near(radius, SectorFor(size, x1, y1), SectorFor(size, x2, y2))
  }

  predicate Within(bound: int, a: int, b: int) {
    -bound <= a - b <= bound
  }

  /** `FloorDiv` is the mathematical floor of the quotient, and the only such number. */
  lemma FloorDivIsFloor(value: int, divisor: pos, q: int)
    ensures q == FloorDiv(value, divisor) <==> divisor * q <= value < divisor * q + divisor
  {
    var d := FloorDiv(value, divisor);
    if value < 0 {
      var n := -value + divisor - 1;
      assert n == divisor * (n / divisor) + n % divisor;
      assert divisor * d == -(divisor * (n / divisor));
    }
    assert divisor * d <= value < divisor * d + divisor;
    if divisor * q <= value < divisor * q + divisor && q != d {
      FloorUnique(divisor, q, d);
    }
  }

  lemma Scaled(size: pos, a: int, b: int)
    ensures a <= b <==> size * a <= size * b
  {
    if a <= b {
      Multiple(size, b - a);
      assert size * (b - a) == size * b - size * a;
    } else {
      Multiple(size, a - b);
      assert size * (a - b) == size * a - size * b;
    }
  }

  lemma {:induction false} Multiple(size: pos, n: nat)
    ensures size * n >= n
  {
    if n > 0 {
      Multiple(size, n - 1);
      assert size * n == size * (n - 1) + size;
    }
  }

  lemma FloorUnique(divisor: pos, a: int, b: int)
    requires divisor * a < divisor * b + divisor
    requires divisor * b < divisor * a + divisor
    ensures a == b
  {
    Scaled(divisor, b + 1, a);
    Scaled(divisor, a + 1, b);
  }

  /** The sector of a point is the one square of the grid that contains it, first axis and second. */
  lemma SectorContains(size: pos, x: int, y: int, c: SectorCoord)
    ensures c == SectorFor(size, x, y) <==>
            size * c.x <= x < size * c.x + size && size * c.y <= y < size * c.y + size
  {
    FloorDivIsFloor(x, size, c.x);
    FloorDivIsFloor(y, size, c.y);
  }

  lemma OneSide(size: pos, k: int, a: int, b: int)
    ensures a - b <= k * size ==> FloorDiv(a, size) - FloorDiv(b, size) <= k
    ensures FloorDiv(a, size) - FloorDiv(b, size) <= k ==> a - b <= (k + 1) * size - 1
  {
    var qa, qb := FloorDiv(a, size), FloorDiv(b, size);
    FloorDivIsFloor(a, size, qa);
    FloorDivIsFloor(b, size, qb);
    assert size * (qb + k + 1) == size * qb + k * size + size;
    assert (k + 1) * size == k * size + size;
    Scaled(size, qb + k + 1, qa);
    Scaled(size, qa, qb + k);
    assert size * (qb + k) == size * qb + k * size;
  }

  /** One axis: coordinates at most `radius` sectors' width apart are at most `radius` sectors
      apart, and coordinates at most `radius` sectors apart differ by less than `radius + 1`
      sectors' width. */
  lemma AxisBounds(size: pos, radius: nat, a: int, b: int)
    ensures Within(radius * size, a, b) ==> Within(radius, FloorDiv(a, size), FloorDiv(b, size))
    ensures Within(radius, FloorDiv(a, size), FloorDiv(b, size)) ==> Within((radius + 1) * size - 1, a, b)
  {
    OneSide(size, radius, a, b);
    OneSide(size, radius, b, a);
  }

  /** Whoever is within `radius * size` on both axes is visible, and whoever is visible is
      closer than `(radius + 1) * size` on both axes. */
  lemma VisibilityBounds(size: pos, radius: nat, x1: int, y1: int, x2: int, y2: int)
    ensures Within(radius * size, x1, x2) && Within(radius * size, y1, y2)
            ==> Visible(size, radius, x1, y1, x2, y2)
    ensures Visible(size, radius, x1, y1, x2, y2)
            ==> Within((radius + 1) * size - 1, x1, x2) && Within((radius + 1) * size - 1, y1, y2)
    ensures Visible(size, radius, x1, y1, x2, y2) <==> Visible(size, radius, x2, y2, x1, y1)
  {
    AxisBounds(size, radius, x1, x2);
    AxisBounds(size, radius, y1, y2);
  }

  /** Neither bound can be improved, whatever the sector size and the radius. */
  lemma VisibilityBoundsAreTight(size: pos, radius: nat)
    ensures Visible(size, radius, 0, 0, (radius + 1) * size - 1, 0)
    ensures !Visible(size, radius, size - 1, 0, size - 1 + (radius * size + 1), 0)
  {
    FloorDivIsFloor(0, size, 0);
    FloorDivIsFloor((radius + 1) * size - 1, size, radius);
    FloorDivIsFloor(size - 1, size, 0);
    FloorDivIsFloor(size - 1 + (radius * size + 1), size, radius + 1);
  }

  // Every value the C++ expression computes on the way, in evaluation order.
  function Intermediates(value: int, divisor: pos): seq<int> {
    if value >= 0 then [value / divisor]
    else
      var n := -value + divisor - 1;
      [-value, -value + divisor, n, n / divisor, -(n / divisor)]
  }

  predicate FitsInt(n: int) {
    INT_MIN <= n <= INT_MAX
  }

  /** With 32-bit ints, no step of `floor_div` overflows exactly when the value is not too
      far below zero for the divisor. */
  lemma FloorDivOverflow(value: int, divisor: pos)
    requires FitsInt(value) && FitsInt(divisor)
    ensures (forall n :: n in Intermediates(value, divisor) ==> FitsInt(n)) <==> value >= -(INT_MAX - divisor)
  {
    if value >= 0 {
      QuotientShrinks(value, divisor);
    } else {
      var n := -value + divisor - 1;
      QuotientShrinks(n, divisor);
      IntermediatesOfNegative(value, divisor, n / divisor);
    }
  }

  lemma IntermediatesOfNegative(value: int, divisor: pos, q: int)
    requires FitsInt(value) && FitsInt(divisor) && value < 0
    requires q == (-value + divisor - 1) / divisor && 0 <= q <= -value + divisor - 1
    ensures (forall n :: n in Intermediates(value, divisor) ==> FitsInt(n)) <==> -value + divisor <= INT_MAX
  {
    var s := Intermediates(value, divisor);
    assert s == [-value, -value + divisor, -value + divisor - 1, q, -q];
    assert s[1] in s;
    assert forall n :: n in s ==> n in [-value, -value + divisor, -value + divisor - 1, q, -q];
  }

  lemma QuotientShrinks(n: nat, divisor: pos)
    ensures 0 <= n / divisor <= n
  {
    var q := n / divisor;
    assert n == divisor * q + n % divisor;
    Scaled(divisor, 0, q);
    assert (divisor - 1) * q == divisor * q - q;
    if divisor > 1 {
      Scaled(divisor - 1, 0, q);
    }
  }

  /** The server's own sector size meets the overflow with the smallest coordinate a client can send. */
  lemma FloorDivOverflows()
    ensures FitsInt(INT_MIN) && exists n :: n in Intermediates(INT_MIN, 100) && !FitsInt(n)
  {
    FloorDivOverflow(INT_MIN, 100);
  }
}
