/** Value types of the layout engine: the fixed-arity integer tuples `i4`
    (margins and regions: x, y, width, height) and `i2` (sizes and
    positions), and the `[min, natural]` size request. */
module Geometry {

  /** `i4`: an array of four `int`s. Indexing it is Dafny's `a[i]`, whose
      bounds obligation stands for the undefined behaviour of an
      out-of-range `operator[]`. */
  type I4 = s: seq<int> | |s| == 4 witness [0, 0, 0, 0]

  /** `i2`: an array of two `int`s. */
  type I2 = s: seq<int> | |s| == 2 witness [0, 0]

  /** `UISizeReq`: what a widget asks for along one dimension. */
  datatype SizeReq = SizeReq(min: int, nat: int)

  /** Aggregate initialisation `xyzw{l...}` of an `n`-element array: the
      given values in order, every element after them value-initialised
      to zero. Passing more than `n` values does not compile. */
  function Fill(l: seq<int>, n: nat): (r: seq<int>)
    requires |l| <= n
    ensures |r| == n
    ensures forall i :: 0 <= i < |l| ==> r[i] == l[i]
    ensures forall i :: |l| <= i < n ==> r[i] == 0
  {
    l + seq(n - |l|, _ => 0)
  }

  /** The variadic constructor `i4(Ts... l)`. */
  function MakeI4(l: seq<int>): (r: I4)
    requires |l| <= 4
    ensures forall i :: 0 <= i < 4 ==> r[i] == if i < |l| then l[i] else 0
  {
    Fill(l, 4)
  }

  /** The variadic constructor `i2(Ts... l)`. */
  function MakeI2(l: seq<int>): (r: I2)
    requires |l| <= 2
    ensures forall i :: 0 <= i < 2 ==> r[i] == if i < |l| then l[i] else 0
  {
    Fill(l, 2)
  }

  /** `std::equal(a + i, a + n, b + i)`: compares element by element from
      position `i`, stopping at the first mismatch. */
  function EqualFrom(a: seq<int>, b: seq<int>, i: nat): (r: bool)
    requires |a| == |b| && i <= |a|
    ensures r <==> a[i..] == b[i..]
    decreases |a| - i
  {
    if i == |a| then true
    else if a[i] != b[i] then
      assert a[i..][0] != b[i..][0];
      false
    else
      var rest := EqualFrom(a, b, i + 1);
      assert a[i..] == [a[i]] + a[i + 1..];
      assert b[i..] == [b[i]] + b[i + 1..];
      rest
  }

  /** `i4::operator==`. */
  function I4Equal(a: I4, b: I4): (r: bool)
    ensures r <==> a == b
    ensures r <==> forall i :: 0 <= i < 4 ==> a[i] == b[i]
  {
    assert a[0..] == a && b[0..] == b;
    EqualFrom(a, b, 0)
  }

  /** `i4::operator!=`: the negation of `operator==`. */
  function I4NotEqual(a: I4, b: I4): (r: bool)
    ensures r == !I4Equal(a, b)
    ensures r <==> exists i :: 0 <= i < 4 && a[i] != b[i]
  {
    !I4Equal(a, b)
  }

  /** `i2::operator==`. */
  function I2Equal(a: I2, b: I2): (r: bool)
    ensures r <==> a == b
    ensures r <==> forall i :: 0 <= i < 2 ==> a[i] == b[i]
  {
    assert a[0..] == a && b[0..] == b;
    EqualFrom(a, b, 0)
  }

  /** `i2::operator!=`: the negation of `operator==`. */
  function I2NotEqual(a: I2, b: I2): (r: bool)
    ensures r == !I2Equal(a, b)
    ensures r <==> exists i :: 0 <= i < 2 && a[i] != b[i]
  {
    !I2Equal(a, b)
  }
}
