/** The polynomial easing curves over reals: `t` is the current time, `b` the first value, `c` the
    change of value and `d` the duration. */
module Easing {

  function Pow(x: real, k: nat): real {
    if k == 0 then 1.0 else Pow(x, k - 1) * x
  }

  datatype Family = Quad | Cubic | Quart | Quint

  function Degree(f: Family): nat {
    match f case Quad => 2 case Cubic => 3 case Quart => 4 case Quint => 5
  }

  function EaseIn(f: Family, t: real, b: real, c: real, d: real): real
    requires d > 0.0
  {
    var t := t / d;
    match f
    case Quad => c * t * t + b
    case Cubic => c * t * t * t + b
    case Quart => c * t * t * t * t + b
    case Quint => c * t * t * t * t * t + b
  }

  function EaseOut(f: Family, t: real, b: real, c: real, d: real): real
    requires d > 0.0
  {
    var u := t / d;
    var t := u - 1.0;
    match f
    case Quad => -c * u * (u - 2.0) + b
    case Cubic => c * (t * t * t + 1.0) + b
    case Quart => -c * (t * t * t * t - 1.0) + b
    case Quint => c * (t * t * t * t * t + 1.0) + b
  }

  // ---------------------------------------------------------------- powers

  lemma {:induction false} PowIs(x: real)
    ensures Pow(x, 2) == x * x && Pow(x, 3) == x * x * x
    ensures Pow(x, 4) == x * x * x * x && Pow(x, 5) == x * x * x * x * x
  {
    assert Pow(x, 1) == x;
    assert Pow(x, 3) == Pow(x, 2) * x;
    assert Pow(x, 4) == Pow(x, 3) * x;
    assert Pow(x, 5) == Pow(x, 4) * x;
  }

  lemma {:induction false} Product(p: real, x: real, q: real, y: real)
    requires 0.0 <= p <= q && 0.0 <= x <= y
    ensures 0.0 <= p * x <= q * y
  {
    assert 0.0 <= (q - p) * x && 0.0 <= q * (y - x);
    assert q * y - p * x == (q - p) * x + q * (y - x);
  }

  lemma {:induction false} PowGrows(x: real, y: real, k: nat)
    requires 0.0 <= x <= y
    ensures 0.0 <= Pow(x, k) <= Pow(y, k)
  {
    if k > 0 {
      PowGrows(x, y, k - 1);
      Product(Pow(x, k - 1), x, Pow(y, k - 1), y);
    }
  }

  lemma {:induction false} PowNegated(x: real, k: nat)
    ensures Pow(-x, k) == if k % 2 == 0 then Pow(x, k) else -Pow(x, k)
  {
    if k > 0 {
      PowNegated(x, k - 1);
    }
  }

  lemma {:induction false} PowOne(k: nat)
    ensures Pow(1.0, k) == 1.0 && (k > 0 ==> Pow(0.0, k) == 0.0)
  {
    if k > 0 {
      PowOne(k - 1);
    }
  }

  // ---------------------------------------------------------------- the shapes

  lemma {:induction false} Pulled(c: real, x: real)
    ensures c * x * x == c * (x * x) && c * x * x * x == c * (x * x * x)
    ensures c * x * x * x * x == c * (x * x * x * x) && c * x * x * x * x * x == c * (x * x * x * x * x)
  {
    assert c * x * x * x == c * (x * x) * x;
    assert c * x * x * x * x == c * (x * x * x) * x;
    assert c * x * x * x * x * x == c * (x * x * x * x) * x;
  }

  lemma {:induction false} InIsPower(f: Family, t: real, b: real, c: real, d: real)
    requires d > 0.0
    ensures EaseIn(f, t, b, c, d) == c * Pow(t / d, Degree(f)) + b
  {
    PowIs(t / d);
    Pulled(c, t / d);
  }

  /** At half of the time a curve has gone one quarter, eighth, sixteenth or thirty-second of the way. */
  lemma {:induction false} Halfway(b: real, c: real, d: real)
    requires d > 0.0
    ensures EaseIn(Quad, d / 2.0, b, c, d) == b + c / 4.0 && EaseIn(Cubic, d / 2.0, b, c, d) == b + c / 8.0
    ensures EaseIn(Quart, d / 2.0, b, c, d) == b + c / 16.0 && EaseIn(Quint, d / 2.0, b, c, d) == b + c / 32.0
  {
    assert (d / 2.0) / d == 0.5;
  }

  lemma {:induction false} OutIsPower(f: Family, t: real, b: real, c: real, d: real)
    requires d > 0.0
    ensures EaseOut(f, t, b, c, d) == c * (1.0 - Pow(1.0 - t / d, Degree(f))) + b
  {
    var u := t / d;
    var x := u - 1.0;
    assert 1.0 - u == -x;
    PowIs(x);
    PowNegated(x, Degree(f));
    match f
    case Quad =>
      assert x * x - 1.0 == u * (u - 2.0);
      assert -c * u * (u - 2.0) == -c * (u * (u - 2.0));
    case _ =>
  }

  lemma {:induction false} Distribute(x: real, y: real, d: real)
    ensures (x + y) * d == x * d + y * d
  {
  }

  lemma {:induction false} Mirror(t: real, d: real)
    requires d > 0.0
    ensures (d - t) / d == 1.0 - t / d
  {
    var x, y := t / d, (d - t) / d;
    assert x * d == t && y * d == d - t;
    Distribute(x, y, d);
    assert x + y == (x + y) * d / d;
  }

  /** Every ease-out is its ease-in turned by half a circle. */
  lemma {:induction false} OutMirrorsIn(f: Family, t: real, b: real, c: real, d: real)
    requires d > 0.0
    ensures EaseOut(f, t, b, c, d) == 2.0 * b + c - EaseIn(f, d - t, b, c, d)
  {
    Mirror(t, d);
    InIsPower(f, d - t, b, c, d);
    OutIsPower(f, t, b, c, d);
    Turned(b, c, 1.0 - Pow(1.0 - t / d, Degree(f)), Pow(1.0 - t / d, Degree(f)));
  }

  lemma {:induction false} Turned(b: real, c: real, x: real, y: real)
    requires x == 1.0 - y
    ensures c * x + b == 2.0 * b + c - (c * y + b)
  {
  }

  lemma {:induction false} Ends(f: Family, b: real, c: real, d: real)
    requires d > 0.0
    ensures EaseIn(f, 0.0, b, c, d) == EaseOut(f, 0.0, b, c, d) == b
    ensures EaseIn(f, d, b, c, d) == EaseOut(f, d, b, c, d) == b + c
  {
    assert d / d == 1.0 && 0.0 / d == 0.0;
    PowOne(Degree(f));
    InIsPower(f, 0.0, b, c, d);
    InIsPower(f, d, b, c, d);
    OutIsPower(f, 0.0, b, c, d);
    OutIsPower(f, d, b, c, d);
  }

  lemma {:induction false} Divided(s: real, t: real, d: real)
    requires d > 0.0 && 0.0 <= s <= t <= d
    ensures 0.0 <= s / d <= t / d <= 1.0
  {
    var x, y := s / d, t / d;
    assert x * d == s && y * d == t;
  }

  lemma {:induction false} InGrows(f: Family, s: real, t: real, b: real, c: real, d: real)
    requires d > 0.0 && c >= 0.0 && 0.0 <= s <= t <= d
    ensures EaseIn(f, s, b, c, d) <= EaseIn(f, t, b, c, d)
  {
    Divided(s, t, d);
    InIsPower(f, s, b, c, d);
    InIsPower(f, t, b, c, d);
    PowGrows(s / d, t / d, Degree(f));
    Scaled(b, c, Pow(s / d, Degree(f)), Pow(t / d, Degree(f)));
  }

  lemma {:induction false} Scaled(b: real, c: real, x: real, y: real)
    requires c >= 0.0 && x <= y
    ensures c * x + b <= c * y + b
  {
    assert 0.0 <= c * (y - x);
    assert c * (y - x) == c * y - c * x;
  }

  /** For a change that is not negative both forms of every family rise from the first value to
      the last. */
  lemma {:induction false} PowersRise(f: Family, s: real, t: real, b: real, c: real, d: real)
    requires d > 0.0 && c >= 0.0 && 0.0 <= s <= t <= d
    ensures b <= EaseIn(f, s, b, c, d) <= EaseIn(f, t, b, c, d) <= b + c
    ensures b <= EaseOut(f, s, b, c, d) <= EaseOut(f, t, b, c, d) <= b + c
  {
    Ends(f, b, c, d);
    InGrows(f, 0.0, s, b, c, d);
    InGrows(f, s, t, b, c, d);
    InGrows(f, t, d, b, c, d);
    InGrows(f, 0.0, d - t, b, c, d);
    InGrows(f, d - t, d - s, b, c, d);
    InGrows(f, d - s, d, b, c, d);
    OutMirrorsIn(f, s, b, c, d);
    OutMirrorsIn(f, t, b, c, d);
  }

  // ---------------------------------------------------------------- back

  function EaseInBack(t: real, b: real, c: real, d: real, s: real): real
    requires d > 0.0
  {
    var t := t / d;
    c * t * t * ((s + 1.0) * t - s) + b
  }

  function EaseOutBack(t: real, b: real, c: real, d: real, s: real): real
    requires d > 0.0
  {
    var t := t / d - 1.0;
    c * (t * t * ((s + 1.0) * t + s) + 1.0) + b
  }

  lemma {:induction false} BackMirrors(t: real, b: real, c: real, d: real, s: real)
    requires d > 0.0
    ensures EaseOutBack(t, b, c, d, s) == 2.0 * b + c - EaseInBack(d - t, b, c, d, s)
  {
    Mirror(t, d);
    var x := t / d - 1.0;
    var y := -x;
    assert (d - t) / d == y;
    assert y * y == x * x;
    assert (s + 1.0) * y - s == -((s + 1.0) * x + s);
    assert c * y * y * ((s + 1.0) * y - s) == c * (y * y * ((s + 1.0) * y - s));
    assert c * y * y * ((s + 1.0) * y - s) == -(c * (x * x * ((s + 1.0) * x + s)));
  }

  /** The overshooting curve starts at `b`, comes back to it at s / (s + 1) of the time, and ends at b + c. */
  lemma {:induction false} BackEnds(b: real, c: real, d: real, s: real)
    requires d > 0.0 && s > 0.0
    ensures EaseInBack(0.0, b, c, d, s) == b && EaseInBack(d, b, c, d, s) == b + c
    ensures EaseInBack(d * (s / (s + 1.0)), b, c, d, s) == b
  {
    var q := s / (s + 1.0);
    assert d / d == 1.0 && 0.0 / d == 0.0 && (d * q) / d == q;
    InBackIs(0.0, b, c, d, s, 0.0);
    InBackIs(d, b, c, d, s, 1.0);
    InBackIs(d * q, b, c, d, s, q);
    assert (s + 1.0) * q == s;
    Nothing(c * q * q, (s + 1.0) * q - s);
  }

  lemma {:induction false} InBackIs(t: real, b: real, c: real, d: real, s: real, x: real)
    requires d > 0.0 && t / d == x
    ensures EaseInBack(t, b, c, d, s) == c * x * x * ((s + 1.0) * x - s) + b
  {
  }

  lemma {:induction false} Nothing(x: real, y: real)
    requires y == 0.0
    ensures x * y == 0.0
  {
  }

  // ---------------------------------------------------------------- bounce

  /** The four arcs of the bounce. */
  function Arc(i: nat, t: real): real {
    if i == 0 then 7.5625 * t * t
    else if i == 1 then 7.5625 * (t - 1.5 / 2.75) * (t - 1.5 / 2.75) + 0.75
    else if i == 2 then 7.5625 * (t - 2.25 / 2.75) * (t - 2.25 / 2.75) + 0.9375
    else 7.5625 * (t - 2.625 / 2.75) * (t - 2.625 / 2.75) + 0.984375
  }

  function ArcAt(t: real): nat {
    if t < 1.0 / 2.75 then 0 else if t < 2.0 / 2.75 then 1 else if t < 2.5 / 2.75 then 2 else 3
  }

  function EaseOutBounce(t: real, b: real, c: real, d: real): real
    requires d > 0.0
  {
    c * Arc(ArcAt(t / d), t / d) + b
  }

  function EaseInBounce(t: real, b: real, c: real, d: real): real
    requires d > 0.0
  {
    c - EaseOutBounce(d - t, 0.0, c, d) + b
  }

  /** In units of 1 / 2.75 an arc is a square above its lowest value. */
  lemma {:induction false} ArcIsSquare(i: nat, t: real, w: real)
    requires w == 2.75 * t
    ensures Arc(i, t) == if i == 0 then w * w
                         else if i == 1 then (w - 1.5) * (w - 1.5) + 0.75
                         else if i == 2 then (w - 2.25) * (w - 2.25) + 0.9375
                         else (w - 2.625) * (w - 2.625) + 0.984375
  {
    var m := if i == 0 then 0.0 else if i == 1 then 1.5 else if i == 2 then 2.25 else 2.625;
    var x := t - m / 2.75;
    assert 2.75 * x == w - m;
    assert 7.5625 * x * x == (2.75 * x) * (2.75 * x);
  }

  lemma {:induction false} SmallSquare(x: real, r: real)
    requires -r <= x <= r
    ensures 0.0 <= x * x <= r * r
  {
    if x >= 0.0 {
      Product(x, x, r, r);
    } else {
      Product(-x, -x, r, r);
      assert (-x) * (-x) == x * x;
    }
  }

  /** The arcs meet where one takes over from the other. */
  lemma {:induction false} BounceIsContinuous(i: nat, t: real)
    requires i < 3 && t == (if i == 0 then 1.0 else if i == 1 then 2.0 else 2.5) / 2.75
    ensures Arc(i, t) == Arc(i + 1, t) == 1.0
    ensures ArcAt(t) == i + 1
  {
    var w := 2.75 * t;
    ArcIsSquare(i, t, w);
    ArcIsSquare(i + 1, t, w);
  }

  lemma {:induction false} Inside(b: real, c: real, a: real)
    requires c >= 0.0 && 0.0 <= a <= 1.0
    ensures b <= c * a + b <= b + c
    ensures b <= c - (c * a + 0.0) + b <= b + c
  {
    Scaled(b, c, 0.0, a);
    Scaled(b, c, a, 1.0);
  }

  lemma {:induction false} BounceStaysInside(t: real, b: real, c: real, d: real)
    requires d > 0.0 && c >= 0.0 && 0.0 <= t <= d
    ensures b <= EaseOutBounce(t, b, c, d) <= b + c
    ensures b <= EaseInBounce(t, b, c, d) <= b + c
  {
    Divided(0.0, t, d);
    Bounded(t / d);
    Inside(b, c, Arc(ArcAt(t / d), t / d));
    Divided(0.0, d - t, d);
    Bounded((d - t) / d);
    Inside(b, c, Arc(ArcAt((d - t) / d), (d - t) / d));
  }

  lemma {:induction false} Bounded(t: real)
    ensures 0.0 <= t <= 1.0 ==> 0.0 <= Arc(ArcAt(t), t) <= 1.0
  {
    if 0.0 <= t <= 1.0 {
      var i, w := ArcAt(t), 2.75 * t;
      ArcIsSquare(i, t, w);
      if i == 0 {
        SmallSquare(w, 1.0);
      } else if i == 1 {
        SmallSquare(w - 1.5, 0.5);
      } else if i == 2 {
        SmallSquare(w - 2.25, 0.25);
      } else {
        SmallSquare(w - 2.625, 0.125);
      }
    }
  }
}
