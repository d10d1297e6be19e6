/** Messages as streams of bits, lowest bit of a byte first, which is the order in which both checksums
    take them in. */
module BitStreams {
  function Shift(b: bv8): bv8 { b >> 1 }

  predicate Odd(b: bv8) { b & 1 == 1 }

  function Shifts(b: bv8, n: nat): bv8
    decreases n
  {
    if n == 0 then b else Shifts(Shift(b), n - 1)
  }

  lemma NothingLeft(b: bv8)
    ensures Shifts(b, 8) == 0
  {
    var s := Shift(Shift(Shift(Shift(Shift(Shift(Shift(Shift(b))))))));
    assert s == 0;
    hide Shift;
    assert Shifts(b, 8) == s;
  }

  /** The `n` lowest bits. */
  function LowBits(b: bv8, n: nat): (bits: seq<bool>)
    ensures |bits| == n
    decreases n
  {
    if n == 0 then [] else [Odd(b)] + LowBits(Shift(b), n - 1)
  }

  function Stream(data: seq<bv8>): (bits: seq<bool>)
    ensures |bits| == 8 * |data|
  {
    if data == [] then [] else Stream(data[..|data| - 1]) + LowBits(data[|data| - 1], 8)
  }

  // Different messages have different bits

  lemma SameByte(a: bv8, b: bv8)
    requires Odd(a) == Odd(b) && Shift(a) == Shift(b)
    ensures a == b
  {}

  lemma {:induction false} LowBitsInjective(a: bv8, b: bv8, n: nat)
    requires LowBits(a, n) == LowBits(b, n) && Shifts(a, n) == Shifts(b, n)
    ensures a == b
    decreases n
  {
    hide Shift, Odd;
    if n > 0 {
      assert LowBits(a, n)[0] == Odd(a) && LowBits(a, n)[1..] == LowBits(Shift(a), n - 1);
      assert LowBits(b, n)[0] == Odd(b) && LowBits(b, n)[1..] == LowBits(Shift(b), n - 1);
      LowBitsInjective(Shift(a), Shift(b), n - 1);
      SameByte(a, b);
    }
  }

  lemma {:induction false} StreamInjective(m: seq<bv8>, m': seq<bv8>)
    requires |m| == |m'| && Stream(m) == Stream(m')
    ensures m == m'
  {
    hide LowBits, Shifts;
    if m != [] {
      var n := |m| - 1;
      assert Stream(m)[..8 * n] == Stream(m[..n]) && Stream(m)[8 * n..] == LowBits(m[n], 8);
      assert Stream(m')[..8 * n] == Stream(m'[..n]) && Stream(m')[8 * n..] == LowBits(m'[n], 8);
      StreamInjective(m[..n], m'[..n]);
      NothingLeft(m[n]);
      NothingLeft(m'[n]);
      LowBitsInjective(m[n], m'[n], 8);
      assert m == m[..n] + [m[n]] && m' == m'[..n] + [m'[n]];
    }
  }

  /** All bits in which the streams differ are among the `n` bits from `k` on. */
  ghost predicate DifferWithin(x: seq<bool>, y: seq<bool>, k: nat, n: nat) {
    |x| == |y| && forall i :: 0 <= i < |x| && x[i] != y[i] ==> k <= i < k + n
  }

  /** Such streams agree before and after a window of at most `n` bits. */
  lemma Window(x: seq<bool>, y: seq<bool>, k: nat, n: nat) returns (a: nat, b: nat)
    requires DifferWithin(x, y, k, n)
    ensures a <= b <= |x| && b - a <= n
    ensures x == x[..a] + x[a..b] + x[b..] && y == x[..a] + y[a..b] + x[b..]
  {
    a := if k <= |x| then k else |x|;
    b := if k + n <= |x| then k + n else |x|;
  }

  // Polynomials over two elements, as the sequence of their coefficients, highest first

  function Zeros(n: nat): seq<bool> { seq(n, i => false) }

  function Ones(n: nat): seq<bool> { seq(n, i => true) }

  /** `p` added to the first coefficients. */
  function AddFront(bits: seq<bool>, p: seq<bool>): (r: seq<bool>)
    requires |p| <= |bits|
    ensures |r| == |bits|
  {
    seq(|bits|, i requires 0 <= i < |bits| => if i < |p| then bits[i] != p[i] else bits[i])
  }

  /** The remainder of long division by x^|p| + p. */
  function Remainder(bits: seq<bool>, p: seq<bool>): seq<bool>
    decreases |bits|
  {
    if |bits| <= |p| then bits
    else Remainder(if bits[0] then AddFront(bits[1..], p) else bits[1..], p)
  }

  lemma AddTwice(bits: seq<bool>, p: seq<bool>, q: seq<bool>, r: seq<bool>)
    requires |p| == |q| == |r| <= |bits| && forall i :: 0 <= i < |p| ==> r[i] == (p[i] != q[i])
    ensures AddFront(AddFront(bits, p), q) == AddFront(bits, r)
  {}

  /** What is left after the first coefficient, when the last one of `p` moves in as 0. */
  lemma AddFrontRest(bits: seq<bool>, p: seq<bool>, q: seq<bool>)
    requires 0 < |p| == |q| < |bits| && q == p[1..] + [false]
    ensures AddFront(bits, p)[0] == (bits[0] != p[0]) && AddFront(bits, p)[1..] == AddFront(bits[1..], q)
  {}

  lemma AddToZeros(p: seq<bool>)
    ensures AddFront(Zeros(|p|), p) == p
  {}
}
