/** Big-endian bit strings: the reference against which the shift-and-mask loops of
    `mfa.rs` and `recovery.rs` are proved. */
module Bits {
  import opened Wrappers

  function Pow2(n: nat): (r: nat)
    ensures r > 0
  {
    if n == 0 then 1 else 2 * Pow2(n - 1)
  }

  /** The low `width` bits of `x`, most significant first. Higher bits of `x` are ignored,
      which is why a register may shift them out unnoticed. */
  function Digits(x: nat, width: nat): (r: seq<bool>)
    ensures |r| == width
  {
    if width == 0 then [] else Digits(x / 2, width - 1) + [x % 2 == 1]
  }

  function Value(bs: seq<bool>): nat
  {
    if bs == [] then 0 else 2 * Value(bs[..|bs| - 1]) + (if bs[|bs| - 1] then 1 else 0)
  }

  /** The concatenation of the `width`-bit forms of `xs`. */
  function Stream(xs: seq<nat>, width: nat): seq<bool>
  {
    if xs == [] then [] else Stream(xs[..|xs| - 1], width) + Digits(xs[|xs| - 1], width)
  }

  /** The numbers read from `bs` in blocks of `k` bits; an incomplete last block is dropped. */
  function Groups(bs: seq<bool>, k: nat): (r: seq<nat>)
    requires k > 0
  {
    if |bs| < k then [] else [Value(bs[..k])] + Groups(bs[k..], k)
  }

  predicate Below(xs: seq<nat>, bound: nat)
  {
    forall i :: 0 <= i < |xs| ==> xs[i] < bound
  }

  function Zeros(n: nat): (r: seq<bool>)
    ensures |r| == n
  {
    Digits(0, n)
  }

  /** `x >> n`. */
  function Shr(x: nat, n: nat): nat
  {
    if n == 0 then x else Shr(x / 2, n - 1)
  }

  /** `x << n` before the register's high bits are dropped. */
  function Shl(x: nat, n: nat): nat
  {
    if n == 0 then x else 2 * Shl(x, n - 1)
  }

  lemma {:induction false} DigitsSplit(x: nat, a: nat, b: nat)
    ensures Digits(x, a + b) == Digits(Shr(x, b), a) + Digits(x, b)
  {
    if b > 0 {
      DigitsSplit(x / 2, a, b - 1);
      assert a + b - 1 == a + (b - 1);
    }
  }

  lemma AtLeast(k: int, d: nat)
    requires k >= 1
    ensures k * d >= d
  {
    NonNegativeProduct(k - 1, d);
    assert (k - 1) * d == k * d - d;
  }

  lemma NonNegativeProduct(a: int, b: int)
    requires a >= 0 && b >= 0
    ensures a * b >= 0
  {
  }

  lemma DivUnique(x: int, d: nat, q: int, r: int)
    requires d > 0 && 0 <= r < d && x == q * d + r
    ensures x / d == q && x % d == r
  {
    var k := x / d - q;
    if k >= 1 {
      AtLeast(k, d);
    } else if k <= -1 {
      AtLeast(-k, d);
    }
    assert (-k) * d == -(k * d);
    assert x == x / d * d + x % d;
    assert k * d == x / d * d - q * d;
  }

  /** Reducing modulo 2^m leaves the low `w <= m` bits alone. */
  lemma {:induction false} DigitsMod(x: nat, m: nat, w: nat)
    requires w <= m
    ensures Digits(x % Pow2(m), w) == Digits(x, w)
  {
    if w == 0 {
    } else {
      var h := Pow2(m - 1);
      var q, r := x / (2 * h), x % (2 * h);
      assert x == q * (2 * h) + r;
      assert x / 2 == q * h + r / 2 && x % 2 == r % 2 by {
        assert x == 2 * (q * h + r / 2) + r % 2;
      }
      DivUnique(x / 2, h, q, r / 2);
      DigitsMod(x / 2, m - 1, w - 1);
    }
  }

  lemma {:induction false} ValueDigits(x: nat, w: nat)
    requires x < Pow2(w)
    ensures Value(Digits(x, w)) == x
  {
    if w > 0 {
      ValueDigits(x / 2, w - 1);
      var d := Digits(x, w);
      assert d[..w - 1] == Digits(x / 2, w - 1);
    }
  }

  lemma {:induction false} DigitsValue(bs: seq<bool>)
    ensures Value(bs) < Pow2(|bs|) && Digits(Value(bs), |bs|) == bs
  {
    if bs != [] {
      DigitsValue(bs[..|bs| - 1]);
      assert bs == bs[..|bs| - 1] + [bs[|bs| - 1]];
    }
  }

  lemma {:induction false} ShiftIn(buffer: nat, x: nat, bits: nat, w: nat)
    requires x < Pow2(w)
    ensures Digits(Shl(buffer, w) + x, bits + w) == Digits(buffer, bits) + Digits(x, w)
  {
    if w > 0 {
      ShiftIn(buffer, x / 2, bits, w - 1);
      assert (Shl(buffer, w) + x) / 2 == Shl(buffer, w - 1) + x / 2;
      assert bits + w - 1 == bits + (w - 1);
    }
  }

  lemma {:induction false} StreamConcat(xs: seq<nat>, ys: seq<nat>, w: nat)
    ensures Stream(xs + ys, w) == Stream(xs, w) + Stream(ys, w)
  {
    if ys == [] {
      assert xs + ys == xs;
    } else {
      var front := ys[..|ys| - 1];
      StreamConcat(xs, front, w);
      assert (xs + ys)[..|xs + ys| - 1] == xs + front;
      var s, t, last := Stream(xs, w), Stream(front, w), Digits(ys[|ys| - 1], w);
      assert s + (t + last) == (s + t) + last;
    }
  }

  lemma OneMore(n: nat, k: nat)
    ensures (n + 1) * k == n * k + k
  {
  }

  lemma {:induction false} StreamLength(xs: seq<nat>, width: nat)
    ensures |Stream(xs, width)| == width * |xs|
  {
    hide Digits;
    if xs != [] {
      StreamLength(xs[..|xs| - 1], width);
      OneMoreTimes(width, |xs| - 1, |xs|);
    }
  }

  lemma OneMoreTimes(k: nat, n: nat, m: nat)
    requires m == n + 1
    ensures k * m == k * n + k
  {
  }

  /** Reading back a stream of `k`-bit numbers yields the numbers, whatever short tail follows. */
  lemma {:induction false} GroupsOfStream(xs: seq<nat>, tail: seq<bool>, k: nat)
    requires k > 0 && |tail| < k
    requires Below(xs, Pow2(k))
    ensures Groups(Stream(xs, k) + tail, k) == xs
  {
    hide Pow2, Value, Digits;
    if xs == [] {
      assert Stream(xs, k) + tail == tail;
    } else {
      var first, rest := xs[0], xs[1..];
      StreamHead(xs, k);
      hide Stream;
      var bs := Stream(xs, k) + tail;
      TwoParts(Digits(first, k), Stream(rest, k), tail);
      ValueDigits(first, k);
      GroupsOfStream(rest, tail, k);
      FirstGroup(bs, k);
    }
  }

  lemma TwoParts(a: seq<bool>, b: seq<bool>, c: seq<bool>)
    ensures var bs := a + b + c; bs[..|a|] == a && bs[|a|..] == b + c
  {
  }

  lemma FirstGroup(bs: seq<bool>, k: nat)
    requires 0 < k <= |bs|
    ensures Groups(bs, k) == [Value(bs[..k])] + Groups(bs[k..], k)
  {
  }

  lemma StreamHead(xs: seq<nat>, k: nat)
    requires xs != []
    ensures Stream(xs, k) == Digits(xs[0], k) + Stream(xs[1..], k)
  {
    StreamConcat([xs[0]], xs[1..], k);
    assert xs == [xs[0]] + xs[1..];
    assert [xs[0]][..0] == [];
  }

  lemma {:induction false} GroupsBounded(bs: seq<bool>, k: nat)
    requires k > 0
    ensures |Groups(bs, k)| * k <= |bs| < |Groups(bs, k)| * k + k
    ensures Below(Groups(bs, k), Pow2(k))
  {
    if |bs| >= k {
      GroupsBounded(bs[k..], k);
      DigitsValue(bs[..k]);
      OneMore(|Groups(bs[k..], k)|, k);
    }
  }

  /** Grouping loses only the incomplete last block. */
  lemma {:induction false} StreamOfGroups(bs: seq<bool>, k: nat)
    requires k > 0
    ensures Stream(Groups(bs, k), k) <= bs
  {
    if |bs| >= k {
      var rest := Groups(bs[k..], k);
      StreamOfGroups(bs[k..], k);
      StreamConcat([Value(bs[..k])], rest, k);
      assert Stream([Value(bs[..k])], k) == Stream([], k) + Digits(Value(bs[..k]), k);
      DigitsValue(bs[..k]);
      assert bs == bs[..k] + bs[k..];
    }
  }

  /** A bit string of whole blocks is spelt by its blocks. */
  lemma WholeBlocks(bs: seq<bool>, k: nat, n: nat)
    requires k > 0 && |bs| == k * n
    ensures Stream(Groups(bs, k), k) == bs
  {
    var m := |Groups(bs, k)|;
    StreamOfGroups(bs, k);
    GroupsBounded(bs, k);
    StreamLength(Groups(bs, k), k);
    DivUnique(k * n, k, m, |bs| - m * k);
    DivUnique(k * n, k, n, 0);
  }

  lemma {:induction false} StreamInjective(xs: seq<nat>, ys: seq<nat>, k: nat)
    requires k > 0
    requires Below(xs, Pow2(k))
    requires Below(ys, Pow2(k))
    requires Stream(xs, k) == Stream(ys, k)
    ensures xs == ys
  {
    GroupsOfStream(xs, [], k);
    GroupsOfStream(ys, [], k);
    assert Stream(xs, k) + [] == Stream(ys, k) + [];
  }

  // ---- 32-bit shift registers ----

  /** A 32-bit register keeps the low 32 bits of what is shifted into it. */
  function Word(x: nat): nat
  {
    x % 0x1_0000_0000
  }

  lemma Powers()
    ensures Pow2(5) == 32 && Pow2(6) == 64 && Pow2(8) == 256 && Pow2(32) == 0x1_0000_0000
  {
    assert Pow2(8) == 256;
    assert Pow2(16) == 0x1_0000;
    assert Pow2(24) == 0x100_0000;
  }

  lemma LowBits(x: nat, w: nat)
    requires w <= 32
    ensures Digits(Word(x), w) == Digits(x, w)
  {
    Powers();
    DigitsMod(x, 32, w);
  }

  /** Repacking in progress: the `k`-bit numbers written and the register's pending bits
      spell the `w`-bit numbers read. */
  ghost predicate Repacked(written: seq<nat>, k: nat, buffer: nat, pending: nat, read: seq<nat>, w: nat)
  {
    Stream(written, k) + Digits(buffer, pending) == Stream(read, w)
  }

  lemma NothingRead(k: nat, w: nat)
    ensures Repacked([], k, 0, 0, [], w)
  {
  }

  /** Shifting a number into the register, although high bits are dropped. */
  lemma Absorb(written: seq<nat>, k: nat, buffer: nat, pending: nat, read: seq<nat>, w: nat, x: nat)
    requires Repacked(written, k, buffer, pending, read, w)
    requires x < Pow2(w) && pending + w <= 32
    ensures Repacked(written, k, Word(Shl(buffer, w) + x), pending + w, read + [x], w)
  {
    hide Digits, Stream, Shl;
    LowBits(Shl(buffer, w) + x, pending + w);
    ShiftIn(buffer, x, pending, w);
    StreamPush(read, x, w);
    var s, d, tail := Stream(written, k), Digits(buffer, pending), Digits(x, w);
    assert s + (d + tail) == (s + d) + tail;
  }

  /** Masking off the register's top pending `k` bits; `mask` is 2^k. */
  lemma Emit(written: seq<nat>, k: nat, buffer: nat, pending: nat, read: seq<nat>, w: nat, mask: nat)
    requires Repacked(written, k, buffer, pending, read, w) && k <= pending && mask == Pow2(k)
    ensures Repacked(written + [Shr(buffer, pending - k) % mask], k, buffer, pending - k, read, w)
  {
    hide Digits, Stream, Shr;
    var rest := pending - k;
    DigitsSplit(buffer, k, rest);
    DigitsMod(Shr(buffer, rest), k, k);
    StreamPush(written, Shr(buffer, rest) % mask, k);
    var s, head, tail := Stream(written, k), Digits(Shr(buffer, rest), k), Digits(buffer, rest);
    assert s + (head + tail) == (s + head) + tail;
  }

  lemma AbsorbByte(written: seq<nat>, k: nat, buffer: nat, pending: nat, read: seq<nat>, x: nat)
    requires Repacked(written, k, buffer, pending, read, 8) && x < 256 && pending <= 24
    ensures Repacked(written, k, Word(Shl(buffer, 8) + x), pending + 8, read + [x], 8)
  {
    hide Repacked, Shl, Digits;
    Powers();
    Absorb(written, k, buffer, pending, read, 8, x);
  }

  /** The whole bytes of a bit string. */
  function Octets(bs: seq<bool>): (r: seq<byte>)
    ensures r == Groups(bs, 8)
  {
    GroupsBounded(bs, 8);
    Powers();
    var groups := Groups(bs, 8);
    groups
  }

  lemma StreamPush(xs: seq<nat>, x: nat, w: nat)
    ensures Stream(xs + [x], w) == Stream(xs, w) + Digits(x, w)
  {
    assert (xs + [x])[..|xs|] == xs;
  }
}
