/** Byte strings as Go and Redis see them: raw octets, compared with memcmp,
    and the big-endian integer layouts the binary codec writes. */
module Bytes {
  type Byte = x: int | 0 <= x < 256
  type Bytes = seq<Byte>

  datatype Option<+T> = None | Some(value: T)

  // ---- memcmp order -------------------------------------------------------

  /** Strict lexicographic order, the order Redis gives ZSET members of equal score. */
  predicate Less(a: Bytes, b: Bytes) {
    if b == [] then false
    else if a == [] then true
    else a[0] < b[0] || (a[0] == b[0] && Less(a[1..], b[1..]))
  }

  lemma {:induction false} LessIrreflexive(a: Bytes)
    ensures !Less(a, a)
  {
    if a != [] { LessIrreflexive(a[1..]); }
  }

  lemma {:induction false} LessTransitive(a: Bytes, b: Bytes, c: Bytes)
    requires Less(a, b) && Less(b, c)
    ensures Less(a, c)
  {
    if a != [] && a[0] == b[0] == c[0] { LessTransitive(a[1..], b[1..], c[1..]); }
  }

  lemma {:induction false} LessTotal(a: Bytes, b: Bytes)
    ensures Less(a, b) || Less(b, a) || a == b
  {
    if a != [] && b != [] && a[0] == b[0] {
      LessTotal(a[1..], b[1..]);
      assert a == [a[0]] + a[1..] && b == [b[0]] + b[1..];
    }
  }

  // ---- two's complement and big-endian layout -----------------------------

  predicate IsInt32(x: int) { -0x8000_0000 <= x < 0x8000_0000 }
  predicate IsInt64(x: int) { -0x8000_0000_0000_0000 <= x < 0x8000_0000_0000_0000 }

  /** 256^w: how many values w octets can hold. */
  function Span(w: nat): int { if w == 0 then 1 else 256 * Span(w - 1) }

  lemma SpanValues()
    ensures Span(2) == 0x1_0000 && Span(4) == 0x1_0000_0000 && Span(8) == 0x1_0000_0000_0000_0000
  {
    assert Span(3) == 0x100_0000 && Span(5) == 0x100_0000_0000 && Span(6) == 0x1_0000_0000_0000;
  }

  /** The low w octets of n, big-endian: what Go writes for a value converted to an
      unsigned word of that width, negative values in two's complement. */
  function Put(n: int, w: nat): (b: Bytes)
    ensures |b| == w
    decreases w
  {
    if w == 0 then [] else Put(n / 256, w - 1) + [n % 256]
  }

  /** The unsigned big-endian value of an octet string. */
  function Get(b: Bytes): nat {
    if b == [] then 0
    else
      var hi, lo: nat := Get(b[..|b| - 1]), b[|b| - 1];
      hi * 256 + lo
  }

  /** Go's int32(u) and int64(u) for a u of w octets. */
  function Signed(u: int, w: nat): int {
    if w == 4 then (if u < 0x8000_0000 then u else u - 0x1_0000_0000)
    else (if u < 0x8000_0000_0000_0000 then u else u - 0x1_0000_0000_0000_0000)
  }

  lemma {:induction false} GetInSpan(b: Bytes)
    ensures Get(b) < Span(|b|)
  {
    if b != [] { GetInSpan(b[..|b| - 1]); }
  }

  lemma ModOfConcat(q: int, r: int, s: int)
    requires s >= 1 && 0 <= r < 256
    ensures (q % s) * 256 + r == (q * 256 + r) % (256 * s)
  {
    var k, m := q / s, q % s;
    assert q * 256 + r == (256 * s) * k + (m * 256 + r);
    ModUnique(q * 256 + r, 256 * s, k, m * 256 + r);
  }

  lemma ModUnique(n: int, d: int, k: int, r: int)
    requires d >= 1 && n == d * k + r && 0 <= r < d
    ensures n % d == r
  {
    var gap := n / d - k;
    assert d * gap == r - n % d;
    assert gap >= 1 ==> d * gap >= d;
    assert gap <= -1 ==> d * gap <= -d;
  }

  /** Reading back w written octets gives the value modulo 256^w: over-long values wrap. */
  lemma {:induction false} GetPut(n: int, w: nat)
    ensures Span(w) >= 1 && Get(Put(n, w)) == n % Span(w)
    decreases w
  {
    if w > 0 {
      GetPut(n / 256, w - 1);
      assert Put(n, w)[..w - 1] == Put(n / 256, w - 1);
      ModOfConcat(n / 256, n % 256, Span(w - 1));
    }
  }

  lemma GetPutInRange(n: int, w: nat)
    requires -Span(w) <= n < Span(w)
    ensures Get(Put(n, w)) == if n >= 0 then n else n + Span(w)
  {
    GetPut(n, w);
    if n >= 0 { ModUnique(n, Span(w), 0, n); } else { ModUnique(n, Span(w), -1, n + Span(w)); }
  }

  /** The layout is onto: re-writing what was read gives the same octets back. */
  lemma {:induction false} PutGet(b: Bytes)
    ensures Put(Get(b), |b|) == b
  {
    if b != [] {
      PutGet(b[..|b| - 1]);
      assert Get(b) / 256 == Get(b[..|b| - 1]) && Get(b) % 256 == b[|b| - 1];
      assert b == b[..|b| - 1] + [b[|b| - 1]];
    }
  }

  lemma {:induction false} PutWraps(n: int, w: nat)
    ensures Put(n - Span(w), w) == Put(n, w)
    decreases w
  {
    if w > 0 {
      assert (n - 256 * Span(w - 1)) / 256 == n / 256 - Span(w - 1);
      PutWraps(n / 256, w - 1);
    }
  }

  lemma ConcatAssoc<X>(a: seq<X>, b: seq<X>, c: seq<X>)
    ensures a + b + c == a + (b + c)
  {
  }
}
