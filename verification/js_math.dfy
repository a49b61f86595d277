/** The numeric primitives the visualizer takes from JavaScript: the `Math`
    object's transcendental functions and constant, the truncating `%`
    operator and `Math.round`.

    The transcendental functions are not computed: they are fields of a
    `Math` record the caller supplies, and each property of the model
    states, through one of the law predicates below, exactly which facts
    about them it relies on. */
module JsMath {

  /** `Math.PI`, `Math.sin`, `Math.cos`, `Math.sqrt`, `Math.atan2` and
      `Math.acos`, left uninterpreted. */
  datatype Math = Math(
    pi: real,
    sin: real -> real,
    cos: real -> real,
    sqrt: real -> real,
    atan2: (real, real) -> real,
    acos: real -> real)

  /** The basic facts: PI lies between 3 and 4, square roots of
      non-negative numbers are non-negative and that of 0 is 0, cos 0 = 1,
      sin 0 = 0, and atan2(0, 0) = 0 as section 21.3.2.8 of ECMA-262
      defines it. */
  ghost predicate Lawful(m: Math) {
    && 3.0 < m.pi < 4.0
    && (forall v :: 0.0 <= v ==> 0.0 <= m.sqrt(v))
    && m.sqrt(0.0) == 0.0
    && m.cos(0.0) == 1.0
    && m.sin(0.0) == 0.0
    && m.atan2(0.0, 0.0) == 0.0
  }

  /** `Math.sqrt` returns the square root: its square is its argument. */
  ghost predicate SqrtLaw(m: Math) {
    forall v {:trigger Sq(m.sqrt(v))} :: 0.0 <= v ==> Sq(m.sqrt(v)) == v
  }

  /** A full turn, 2*PI. */
  function Tau(m: Math): real {
    2.0 * m.pi
  }

  /** `Math.sin` and `Math.cos` have period 2*PI. */
  ghost predicate PeriodicLaw(m: Math) {
    forall t, k: int ::
      m.sin(Shift(t, k, Tau(m))) == m.sin(t) && m.cos(Shift(t, k, Tau(m))) == m.cos(t)
  }

  /** `Math.atan2(y, x)` is the direction of (x, y): walking the length
      sqrt(x*x + y*y) along that direction reaches (x, y). */
  ghost predicate Atan2Law(m: Math) {
    forall x, y ::
      && m.sqrt(SumSquares(x, y)) * m.cos(m.atan2(y, x)) == x
      && m.sqrt(SumSquares(x, y)) * m.sin(m.atan2(y, x)) == y
  }

  /** `Math.acos` inverts `Math.cos` on [-1, 1] and lands where sin is
      non-negative, so sin(acos(c)) = sqrt(1 - c*c). */
  ghost predicate AcosLaw(m: Math) {
    forall c :: -1.0 <= c <= 1.0 ==>
      m.cos(m.acos(c)) == c && m.sin(m.acos(c)) == m.sqrt(1.0 - Sq(c))
  }

  /** sin^2 + cos^2 = 1, what makes a rotation keep lengths. */
  ghost predicate PythagoreanLaw(m: Math) {
    forall t :: Sq(m.sin(t)) + Sq(m.cos(t)) == 1.0
  }

  /** Every law at once: what the coordinate round trips need. */
  ghost predicate Exact(m: Math) {
    Lawful(m) && SqrtLaw(m) && PeriodicLaw(m) && Atan2Law(m) && AcosLaw(m)
  }

  /** A product of reals kept behind a name: facts about it are proved
      once, below, and used elsewhere as facts about an opaque term, which
      keeps sums of products linear for the solver. */
  function Mul(a: real, b: real): real {
    a * b
  }

  /** x*x. */
  function Sq(x: real): real {
    Mul(x, x)
  }

  lemma MulPositive(a: real, b: real)
    requires 0.0 < a && 0.0 < b
    ensures 0.0 < Mul(a, b)
  {
  }

  lemma MulNegative(a: real, b: real)
    requires a < 0.0 && b < 0.0
    ensures 0.0 < Mul(a, b)
  {
    assert a * b == (-a) * (-b);
    MulPositive(-a, -b);
  }

  /** x*x + y*y, the argument the source hands to `Math.sqrt` for a length. */
  function SumSquares(x: real, y: real): (s: real)
    ensures 0.0 <= s
  {
    PositiveSquare(x);
    PositiveSquare(y);
    x * x + y * y
  }

  /** The sum of two squares vanishes exactly at the origin. */
  lemma SumSquaresZero(x: real, y: real)
    ensures SumSquares(x, y) == 0.0 ==> x == 0.0 && y == 0.0
    ensures x == 0.0 && y == 0.0 ==> SumSquares(x, y) == 0.0
  {
    assert SumSquares(x, y) == Sq(x) + Sq(y);
    PositiveSquare(x);
    PositiveSquare(y);
  }

  /** A square is never negative, and zero only for zero. */
  lemma PositiveSquare(x: real)
    ensures 0.0 <= Sq(x)
    ensures x != 0.0 ==> 0.0 < Sq(x)
    ensures x == 0.0 ==> Sq(x) == 0.0
  {
    if 0.0 < x {
      MulPositive(x, x);
    } else if x < 0.0 {
      MulNegative(x, x);
    } else {
      assert Mul(x, x) == 0.0 * 0.0;
    }
  }

  /** (a*b)^2 = a^2 * b^2. */
  lemma SqProduct(a: real, b: real)
    ensures Sq(a * b) == Mul(Sq(a), Sq(b))
  {
    assert (a * b) * (a * b) == (a * a) * (b * b);
  }

  /** (-a)^2 = a^2. */
  lemma SqNeg(a: real)
    ensures Sq(-a) == Sq(a)
  {
    assert (-a) * (-a) == a * a;
  }

  /** Squaring moves a number above 1 further up. */
  lemma AboveOneSquares(c: real)
    requires 1.0 < c
    ensures 1.0 < Sq(c)
  {
    ScaleOrder(1.0, c, c);
    assert 1.0 * c == c;
  }

  /** If rho^2 = g + z^2 with g >= 0, then z / rho is a cosine (it lies
      in [-1, 1]) and rho^2 times the matching 1 - cos^2 is g. */
  lemma UnitRatio(z: real, rho: real, g: real)
    requires 0.0 < rho && 0.0 <= g && Sq(rho) == g + Sq(z)
    ensures -1.0 <= z / rho <= 1.0 && Sq(z / rho) <= 1.0
    ensures Mul(Sq(rho), 1.0 - Sq(z / rho)) == g
  {
    var c := z / rho;
    assert c * rho == z;
    SqProduct(c, rho);
    PositiveSquare(rho);
    assert Sq(z) == Mul(Sq(c), Sq(rho));
    if 1.0 < Sq(c) {
      ScaleOrder(1.0, Sq(c), Sq(rho));
      assert false;
    }
    if 1.0 < c {
      AboveOneSquares(c);
    } else if c < -1.0 {
      AboveOneSquares(-c);
      SqNeg(c);
    }
    assert Mul(Sq(rho), 1.0 - Sq(c)) == Sq(rho) - Mul(Sq(c), Sq(rho));
  }

  /** Two non-negative numbers with equal squares are equal. */
  lemma UniqueRoot(a: real, b: real)
    requires 0.0 <= a && 0.0 <= b && Sq(a) == Sq(b)
    ensures a == b
  {
    DifferenceOfSquares(a, b);
    if a + b != 0.0 {
      ZeroFactor(a - b, a + b);
    }
  }

  /** (a - b)(a + b) = a^2 - b^2. */
  lemma DifferenceOfSquares(a: real, b: real)
    ensures (a - b) * (a + b) == Sq(a) - Sq(b)
  {
    assert (a - b) * (a + b) == a * a - b * b;
  }

  /** A product with a non-zero factor vanishes only through the other. */
  lemma ZeroFactor(x: real, y: real)
    requires y != 0.0 && x * y == 0.0
    ensures x == 0.0
  {
    assert x == (x * y) / y;
  }

  /** rho * sqrt(w) is the non-negative root of rho^2 * w, so it is the
      root of anything rho^2 * w equals. */
  lemma ScaledRoot(rho: real, s: real, w: real, root: real, g: real)
    requires 0.0 < rho && 0.0 <= s && Sq(s) == w && 0.0 <= root && Sq(root) == g
    requires Mul(Sq(rho), w) == g
    ensures rho * s == root
  {
    SqProduct(rho, s);
    assert 0.0 <= rho * s;
    UniqueRoot(rho * s, root);
  }

  /** `a` moved by `k` whole periods of length `d`. */
  function Shift(a: real, k: int, d: real): real {
    a + (k as real) * d
  }

  /** `a` and `b` differ by a whole number of periods of length `d`. */
  ghost predicate Congruent(a: real, b: real, d: real) {
    exists k: int :: a == Shift(b, k, d)
  }

  /** One period more or less keeps two values congruent. */
  lemma CongruentStep(a: real, b: real, d: real)
    requires Congruent(a, b, d)
    ensures Congruent(a + d, b, d) && Congruent(a - d, b, d)
  {
    var k :| a == Shift(b, k, d);
    assert a + d == Shift(b, k + 1, d);
    assert a - d == Shift(b, k - 1, d);
  }

  lemma CongruentSymmetric(a: real, b: real, d: real)
    requires Congruent(a, b, d)
    ensures Congruent(b, a, d)
  {
    var k :| a == Shift(b, k, d);
    assert b == Shift(a, -k, d);
  }

  lemma CongruentTransitive(a: real, b: real, c: real, d: real)
    requires Congruent(a, b, d) && Congruent(b, c, d)
    ensures Congruent(a, c, d)
  {
    var j :| a == Shift(b, j, d);
    var k :| b == Shift(c, k, d);
    assert a == Shift(c, j + k, d);
  }

  /** Rounds toward zero, the integer part of the quotient JavaScript's
      `%` uses. */
  function Trunc(q: real): (k: int)
    ensures 0.0 <= q ==> 0 <= k && k as real <= q < k as real + 1.0
    ensures q < 0.0 ==> k <= 0 && k as real - 1.0 < q <= k as real
  {
    if 0.0 <= q then q.Floor else -((-q).Floor)
  }

  /** JavaScript's `%` on numbers (Number::remainder, section 6.1.6.1.6 of
      ECMA-262): the result has the sign of the dividend and a magnitude
      below the divisor's. Only positive divisors occur in the model. */
  function Rem(a: real, d: real): (r: real)
    requires 0.0 < d
    ensures 0.0 <= a ==> 0.0 <= r < d
    ensures a < 0.0 ==> -d < r <= 0.0
    ensures -d < a < d ==> r == a
    ensures Congruent(r, a, d)
  {
    var k := Trunc(a / d);
    QuotientBounds(a, d, k);
    assert a - (k as real) * d == Shift(a, -k, d);
    a - (k as real) * d
  }

  /** Multiplying the bounds on the truncated quotient back by `d`. */
  lemma QuotientBounds(a: real, d: real, k: int)
    requires 0.0 < d && k == Trunc(a / d)
    ensures 0.0 <= a ==> (k as real) * d <= a < (k as real) * d + d
    ensures a < 0.0 ==> (k as real) * d - d < a <= (k as real) * d
    ensures -d < a < d ==> k == 0
  {
    if 0.0 <= a {
      DividendBounds(a, d, k as real, k as real + 1.0);
    } else {
      DividendBounds(a, d, k as real - 1.0, k as real);
    }
    if -d < a < d {
      SmallQuotient(a, d);
    }
  }

  /** Bounds lo..hi on the quotient a / d carry over to a, scaled by d. */
  lemma DividendBounds(a: real, d: real, lo: real, hi: real)
    requires 0.0 < d && hi == lo + 1.0
    requires 0.0 <= a ==> lo <= a / d < hi
    requires a < 0.0 ==> lo < a / d <= hi
    ensures 0.0 <= a ==> lo * d <= a < lo * d + d
    ensures a < 0.0 ==> lo * d < a <= lo * d + d
  {
    QuotientTimes(a, d);
    ScaledInterval(a / d, d, lo, a, lo * d);
  }

  /** With a = q * d and ld = lo * d for a positive d, bounds on q against
      lo and lo + 1 become bounds on a against ld and ld + d. */
  lemma ScaledInterval(q: real, d: real, lo: real, a: real, ld: real)
    requires 0.0 < d && q * d == a && lo * d == ld
    ensures lo <= q ==> ld <= a
    ensures lo < q ==> ld < a
    ensures q < lo + 1.0 ==> a < ld + d
    ensures q <= lo + 1.0 ==> a <= ld + d
  {
    var t := q - lo;
    assert a - ld == t * d;
    FractionOfPeriod(t, d);
  }

  /** t periods of a positive length d lie within [0, d] exactly as t
      lies within [0, 1]. */
  lemma FractionOfPeriod(t: real, d: real)
    requires 0.0 < d
    ensures 0.0 <= t ==> 0.0 <= t * d
    ensures 0.0 < t ==> 0.0 < t * d
    ensures t < 1.0 ==> t * d < d
    ensures t <= 1.0 ==> t * d <= d
  {
    ScaleOrder(0.0, t, d);
    ScaleOrder(t, 1.0, d);
  }

  /** A dividend smaller than the divisor truncates to a zero quotient. */
  lemma SmallQuotient(a: real, d: real)
    requires 0.0 < d && -d < a < d
    ensures Trunc(a / d) == 0
  {
    QuotientTimes(a, d);
    WithinOnePeriod(a / d, d, a);
  }

  /** Division by `d` is undone by multiplying with it. */
  lemma QuotientTimes(a: real, d: real)
    requires d != 0.0
    ensures (a / d) * d == a
  {
  }

  /** Multiplication by `d` is undone by dividing by it. */
  lemma TimesQuotient(a: real, d: real)
    requires d != 0.0
    ensures (a * d) / d == a
  {
  }

  /** A multiple e = q * d strictly inside (-d, d), for positive d, has
      |q| < 1. */
  lemma WithinOnePeriod(q: real, d: real, e: real)
    requires 0.0 < d && q * d == e && -d < e < d
    ensures -1.0 < q < 1.0
  {
    ScaleOrder(-1.0, q, d);
    ScaleOrder(q, 1.0, d);
  }

  /** Multiplying by a positive number keeps the order both ways. */
  lemma ScaleOrder(x: real, y: real, d: real)
    requires 0.0 < d
    ensures x <= y <==> x * d <= y * d
    ensures x < y <==> x * d < y * d
  {
    assert y * d - x * d == (y - x) * d;
  }

  /** `Math.round`: the nearest integer, halves rounded up. */
  function Round(x: real): (n: int)
    ensures x - 0.5 < n as real <= x + 0.5
  {
    (x + 0.5).Floor
  }

  /** `Math.max` and `Math.min` on reals. */
  function Max(a: real, b: real): (r: real)
    ensures a <= r && b <= r && (r == a || r == b)
  {
    if a < b then b else a
  }

  function Min(a: real, b: real): (r: real)
    ensures r <= a && r <= b && (r == a || r == b)
  {
    if b < a then b else a
  }

  /** `Math.abs` on reals. */
  function Abs(x: real): (r: real)
    ensures 0.0 <= r && (r == x || r == -x)
  {
    if x < 0.0 then -x else x
  }
}
