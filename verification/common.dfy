/** Optional values and results with an error message. */
module Wrappers {

  datatype Option<+T> = None | Some(value: T)

  datatype Result<+T> = Ok(value: T) | Err(message: string)
}

/** Points, boxes and the rounding the compositor's geometry helpers perform. */
module Geometry {

  /** A 2-D vector of doubles (`Vector2D`). */
  datatype Vec2 = Vec2(x: real, y: real)

  /** An axis-aligned box (`CBox`): top-left corner, width and height. */
  datatype Box = Box(x: real, y: real, w: real, h: real)

  function Sub(p: Vec2, q: Vec2): (r: Vec2)
    ensures Add(r, q) == p
  {
    Vec2(p.x - q.x, p.y - q.y)
  }

  function Add(p: Vec2, q: Vec2): Vec2
  {
    Vec2(p.x + q.x, p.y + q.y)
  }

  /**
   * The host's point-in-rectangle test (`VECINRECT(v, x1, y1, x2, y2)`):
   * left and top edges inclusive, right and bottom edges exclusive.
   */
  predicate InRect(p: Vec2, x1: real, y1: real, x2: real, y2: real)
  {
    x1 <= p.x < x2 && y1 <= p.y < y2
  }

  /** `CBox::containsPoint`, the same half-open test on the box's extent. */
  predicate Contains(b: Box, p: Vec2)
  {
    InRect(p, b.x, b.y, b.x + b.w, b.y + b.h)
  }

  /** `CBox::empty`. */
  predicate IsEmpty(b: Box)
  {
    b.w <= 0.0 || b.h <= 0.0
  }

  lemma EmptyContainsNothing(b: Box, p: Vec2)
    requires IsEmpty(b)
    ensures !Contains(b, p)
  {
  }

  /** A product of two non-negative numbers is non-negative (a step the solver's nonlinear arithmetic needs). */
  lemma MulNonNeg(x: real, y: real)
    requires 0.0 <= x && 0.0 <= y
    ensures 0.0 <= x * y
  {
  }

  /** `std::lround`: nearest integer, halves rounded away from zero. */
  function Round(x: real): (n: int)
    ensures x - 0.5 <= n as real <= x + 0.5
    ensures x >= 0.0 ==> n >= 0 && x - 0.5 < n as real
    ensures x <= 0.0 ==> n <= 0 && n as real < x + 0.5
  {
    if x >= 0.0 then (x + 0.5).Floor else -((-x + 0.5).Floor)
  }

  lemma RoundInteger(k: int)
    ensures Round(k as real) == k
  {
    if k < 0 {
      assert (-(k as real) + 0.5).Floor == -k;
    }
  }

  /** The C++ cast `(int)x`: truncation toward zero. */
  function Trunc(x: real): (n: int)
    ensures x >= 0.0 ==> 0.0 <= n as real <= x < n as real + 1.0
    ensures x < 0.0 ==> n as real - 1.0 < x <= n as real <= 0.0
  {
    if x >= 0.0 then x.Floor else -((-x).Floor)
  }
}

/** Sequence helpers for the `std::erase_if` the plugins use. */
module Seqs {

  /** The elements of `s` that satisfy `keep`, in their original order. */
  function Filter<T(!new)>(s: seq<T>, keep: T -> bool): (r: seq<T>)
    ensures |r| <= |s|
    ensures forall x :: x in r <==> x in s && keep(x)
    ensures forall i :: 0 <= i < |r| ==> keep(r[i])
  {
    if s == [] then []
    else if keep(s[0]) then [s[0]] + Filter(s[1..], keep)
    else Filter(s[1..], keep)
  }

  /** Filtering distributes over concatenation: the kept elements keep their relative order. */
  lemma {:induction false} FilterAppend<T(!new)>(s: seq<T>, t: seq<T>, keep: T -> bool)
    ensures Filter(s + t, keep) == Filter(s, keep) + Filter(t, keep)
  {
    if s == [] {
      assert s + t == t;
    } else {
      assert (s + t)[0] == s[0];
      assert (s + t)[1..] == s[1..] + t;
      FilterAppend(s[1..], t, keep);
    }
  }

  /** Filtering twice with the same predicate changes nothing the second time. */
  lemma {:induction false} FilterIdempotent<T(!new)>(s: seq<T>, keep: T -> bool)
    ensures Filter(Filter(s, keep), keep) == Filter(s, keep)
  {
    if s != [] {
      FilterIdempotent(s[1..], keep);
      if keep(s[0]) {
        var r := Filter(s, keep);
        assert r == [s[0]] + Filter(s[1..], keep);
        assert r[0] == s[0] && r[1..] == Filter(s[1..], keep);
      }
    }
  }

  /** A filter that drops nothing is the identity. */
  lemma {:induction false} FilterKeepsAll<T(!new)>(s: seq<T>, keep: T -> bool)
    requires forall x :: x in s ==> keep(x)
    ensures Filter(s, keep) == s
  {
    if s != [] {
      FilterKeepsAll(s[1..], keep);
      assert [s[0]] + s[1..] == s;
    }
  }
}
