/**
 * The `sign` template and the `Vector` struct.
 *
 * `Vector` is a value type: the puck and the paddles hold their vectors by value
 * and change them through member calls. Every member that assigns the struct's
 * own fields is a function here returning the updated value, which the owner
 * stores back (`velocity := velocity.SetMagnitude(450.0)`).
 */
module Vectors {

  /** `sign(val)`: -1, 0 or 1 as `val` is negative, zero or positive. */
  function Sign(v: real): (s: int)
    ensures -1 <= s <= 1
    ensures s == 1 <==> 0.0 < v
    ensures s == -1 <==> v < 0.0
  {
    (if 0.0 < v then 1 else 0) - (if v < 0.0 then 1 else 0)
  }

  /**
   * The floating-point library the struct calls, left abstract:
   * `powf(s, 0.5)`, `atan(y / x)` (the float division included), `cos`, `sin`
   * and `M_PI`.
   */
  datatype Maths = Maths(
    root: real -> real,
    atanOfQuotient: (real, real) -> real,
    cos: real -> real,
    sin: real -> real,
    pi: real)
  {
    /** What the model relies on: pi is positive, and so is the root of a positive number. */
    ghost predicate Valid() {
      && 0.0 < pi
      && forall s: real :: 0.0 < s ==> 0.0 < root(s)
    }

    /** `powf(powf(p, 2) + powf(q, 2), 0.5)`: the length of (p, q) as the library computes it. */
    function Length(p: real, q: real): real {
      root(p * p + q * q)
    }

    /** The root is the exact square root on nonnegative numbers. */
    ghost predicate ExactRoot() {
      forall s: real :: 0.0 <= s ==> 0.0 <= root(s) && root(s) * root(s) == s
    }

    /** The identity cos^2 + sin^2 = 1 at one angle. */
    predicate UnitCircle(theta: real) {
      cos(theta) * cos(theta) + sin(theta) * sin(theta) == 1.0
    }
  }

  /**
   * A cached polar field: assigned a value, or still holding whatever the
   * memory held (the default constructor and the arithmetic operators leave
   * `magnitude` and `angle` uninitialised).
   */
  datatype Slot = Indeterminate | Known(value: real)

  /**
   * A default-constructed vector in a global object: static storage is
   * zero-initialised, so all four fields start at 0. Every use assigns `x`
   * and `y` before reading them.
   */
  const Zeroed: Vector := Vector(0.0, 0.0, Known(0.0), Known(0.0))

  datatype Vector = Vector(x: real, y: real, magnitude: Slot, angle: Slot)
  {
    /** The cached magnitude is what `SetMagnitude()` computes from the current coordinates. */
    predicate MagnitudeCurrent(m: Maths) {
      magnitude == Known(m.Length(x, y))
    }

    /** The cached angle is what `SetAngle()` computes from the current coordinates. */
    predicate AngleCurrent(m: Maths) {
      angle == Known(m.atanOfQuotient(y, x))
    }

    /** The cached magnitude is the exact Euclidean length of (x, y). */
    predicate Measured() {
      && magnitude.Known?
      && 0.0 <= magnitude.value
      && magnitude.value * magnitude.value == x * x + y * y
    }

    /** The constructor `Vector(p, q)`: both cached fields computed from the new coordinates. */
    static function Make(p: real, q: real, m: Maths): (r: Vector)
      ensures r.x == p && r.y == q
      ensures r.MagnitudeCurrent(m) && r.AngleCurrent(m)
    {
      Vector(p, q, Indeterminate, Indeterminate).Remeasure(m).Reangle(m)
    }

    /** `Set(p, q)`: new coordinates; the magnitude is recomputed but the angle is left stale. */
    function Set(p: real, q: real, m: Maths): (r: Vector)
      ensures r.x == p && r.y == q
      ensures r.MagnitudeCurrent(m)
      ensures r.angle == angle
    {
      this.(x := p, y := q).Remeasure(m)
    }

    /** `SetMagnitude()`: recompute the cached magnitude, nothing else. */
    function Remeasure(m: Maths): (r: Vector)
      ensures r.Equals(this) && r.angle == angle
      ensures r.MagnitudeCurrent(m)
    {
      this.(magnitude := Known(m.Length(x, y)))
    }

    /**
     * `SetMagnitude(len)`: scale both coordinates by `len / magnitude`, so the
     * direction is kept, and cache `len` as the magnitude.
     */
    function SetMagnitude(len: real): (r: Vector)
      requires magnitude.Known? && magnitude.value != 0.0
      ensures r.magnitude == Known(len) && r.angle == angle
      ensures r.x * magnitude.value == x * len && r.y * magnitude.value == y * len
      ensures r.x * y == r.y * x
    {
      var scale := len / magnitude.value;
      this.(x := x * scale, y := y * scale, magnitude := Known(len))
    }

    /** `SetAngle()`: recompute the cached angle, nothing else. */
    function Reangle(m: Maths): (r: Vector)
      ensures r.Equals(this) && r.magnitude == magnitude
      ensures r.AngleCurrent(m)
    {
      this.(angle := Known(m.atanOfQuotient(y, x)))
    }

    /**
     * `SetAngle(theta)`: point the vector at `theta`, keeping the cached
     * magnitude as its length; the cached magnitude itself is not written.
     */
    function SetAngle(theta: real, m: Maths): (r: Vector)
      requires magnitude.Known?
      ensures r.magnitude == magnitude && r.angle == Known(theta)
      ensures r.x == magnitude.value * m.cos(theta) && r.y == magnitude.value * m.sin(theta)
    {
      this.(x := magnitude.value * m.cos(theta), y := magnitude.value * m.sin(theta), angle := Known(theta))
    }

    /** `operator+`: a new vector whose polar fields are never assigned. */
    function Plus(w: Vector): (r: Vector)
      ensures r.x == x + w.x && r.y == y + w.y
      ensures r.magnitude == Indeterminate && r.angle == Indeterminate
    {
      Vector(x + w.x, y + w.y, Indeterminate, Indeterminate)
    }

    /** `operator-`: the vector that `w` must be added to in order to get back this one. */
    function Minus(w: Vector): (r: Vector)
      ensures r.x + w.x == x && r.y + w.y == y
      ensures r.magnitude == Indeterminate && r.angle == Indeterminate
    {
      Vector(x - w.x, y - w.y, Indeterminate, Indeterminate)
    }

    /** `operator*(float)`: scalar multiple. */
    function Scale(n: real): (r: Vector)
      ensures r.x == n * x && r.y == n * y
      ensures r.magnitude == Indeterminate && r.angle == Indeterminate
    {
      Vector(x * n, y * n, Indeterminate, Indeterminate)
    }

    /** `operator*(Vector)`: component-wise product. */
    function Times(w: Vector): (r: Vector)
      ensures r.x == x * w.x && r.y == y * w.y
      ensures r.magnitude == Indeterminate && r.angle == Indeterminate
    {
      Vector(x * w.x, y * w.y, Indeterminate, Indeterminate)
    }

    /** `operator+=`: the coordinates of `this + w`; the cached fields are kept, stale. */
    function AddAssign(w: Vector): (r: Vector)
      ensures r.Equals(Plus(w))
      ensures r.magnitude == magnitude && r.angle == angle
    {
      this.(x := x + w.x, y := y + w.y)
    }

    /** `operator-=`: the coordinates of `this - w`; the cached fields are kept, stale. */
    function SubAssign(w: Vector): (r: Vector)
      ensures r.Equals(Minus(w))
      ensures r.magnitude == magnitude && r.angle == angle
    {
      this.(x := x - w.x, y := y - w.y)
    }

    /** `operator*=(Vector)`: the coordinates of `this * w`; the cached fields are kept, stale. */
    function MulAssign(w: Vector): (r: Vector)
      ensures r.Equals(Times(w))
      ensures r.magnitude == magnitude && r.angle == angle
    {
      this.(x := x * w.x, y := y * w.y)
    }

    /** `operator*=(float)`: the coordinates of `this * n`; the cached fields are kept, stale. */
    function ScaleAssign(n: real): (r: Vector)
      ensures r.Equals(Scale(n))
      ensures r.magnitude == magnitude && r.angle == angle
    {
      this.(x := x * n, y := y * n)
    }

    /** `operator==`: equal coordinates, whatever the cached fields hold. */
    function Equals(w: Vector): (b: bool)
      ensures b <==> Minus(w).x == 0.0 && Minus(w).y == 0.0
    {
      x == w.x && y == w.y
    }
  }

  /** With an exact square root, recomputing the magnitude makes it the exact length. */
  lemma RemeasureMeasured(v: Vector, m: Maths)
    requires m.ExactRoot()
    ensures v.Remeasure(m).Measured()
  {
    var s := v.x * v.x + v.y * v.y;
    assert 0.0 <= v.x * v.x && 0.0 <= v.y * v.y;
    assert 0.0 <= m.root(s) && m.root(s) * m.root(s) == s;
  }

  /** Rescaling an exactly measured vector leaves it exactly measured. */
  lemma SetMagnitudeKeepsMeasured(v: Vector, len: real)
    requires v.Measured() && v.magnitude.value != 0.0 && 0.0 <= len
    ensures v.SetMagnitude(len).Measured()
  {
    var mv := v.magnitude.value;
    var k := len / mv;
    var r := v.SetMagnitude(len);
    assert r.x == v.x * k && r.y == v.y * k;
    calc {
      r.x * r.x + r.y * r.y;
      == k * k * (v.x * v.x + v.y * v.y);
      == k * k * (mv * mv);
      == (k * mv) * (k * mv);
      == { assert k * mv == len; } len * len;
    }
  }

  /** Rescaling to a positive length keeps the sign of each coordinate. */
  lemma SetMagnitudeKeepsSigns(v: Vector, len: real)
    requires v.magnitude.Known? && 0.0 < v.magnitude.value && 0.0 < len
    ensures Sign(v.SetMagnitude(len).x) == Sign(v.x)
    ensures Sign(v.SetMagnitude(len).y) == Sign(v.y)
  {
    var k := len / v.magnitude.value;
    assert 0.0 < k;
    var r := v.SetMagnitude(len);
    assert r.x == v.x * k && r.y == v.y * k;
  }

  /** Rescaling twice is rescaling once to the last length. */
  lemma SetMagnitudeTwice(v: Vector, a: real, b: real)
    requires v.magnitude.Known? && v.magnitude.value != 0.0 && a != 0.0
    ensures v.SetMagnitude(a).SetMagnitude(b) == v.SetMagnitude(b)
  {
    var mv := v.magnitude.value;
    assert (a / mv) * (b / a) == b / mv;
    assert v.x * (a / mv) * (b / a) == v.x * (b / mv);
    assert v.y * (a / mv) * (b / a) == v.y * (b / mv);
  }

  /** Pointing a vector with a nonnegative cached length along an angle gives an exact measure. */
  lemma SetAngleKeepsMeasured(v: Vector, theta: real, m: Maths)
    requires v.magnitude.Known? && 0.0 <= v.magnitude.value && m.UnitCircle(theta)
    ensures v.SetAngle(theta, m).Measured()
  {
    var mv, c, s := v.magnitude.value, m.cos(theta), m.sin(theta);
    calc {
      (mv * c) * (mv * c) + (mv * s) * (mv * s);
      == mv * mv * (c * c + s * s);
      == mv * mv;
    }
  }

  /**
   * `SetAngle(theta)` then `SetMagnitude(len)`: whatever the earlier nonzero
   * length, the result is the polar vector (len, theta).
   */
  lemma SetAngleThenMagnitude(v: Vector, theta: real, len: real, m: Maths)
    requires v.magnitude.Known? && v.magnitude.value != 0.0
    ensures v.SetAngle(theta, m).SetMagnitude(len).x == len * m.cos(theta)
    ensures v.SetAngle(theta, m).SetMagnitude(len).y == len * m.sin(theta)
    ensures v.SetAngle(theta, m).SetMagnitude(len).magnitude == Known(len)
    ensures v.SetAngle(theta, m).SetMagnitude(len).angle == Known(theta)
  {
    var mv := v.magnitude.value;
    assert mv * m.cos(theta) * (len / mv) == len * m.cos(theta);
    assert mv * m.sin(theta) * (len / mv) == len * m.sin(theta);
  }
}
