/** Machine words: bytes, wrap-around arithmetic and little-endian byte strings. */
module Words {
  type byte = x: int | 0 <= x < 0x100
  type u32 = x: int | 0 <= x < 0x1_0000_0000
  type u64 = x: int | 0 <= x < 0x1_0000_0000_0000_0000

  datatype Option<+T> = None | Some(value: T)

  const TWO32: int := 0x1_0000_0000
  const TWO63: int := 0x8000_0000_0000_0000
  const TWO64: int := 0x1_0000_0000_0000_0000

  function Min(a: int, b: int): int { if a < b then a else b }

  function Max(a: int, b: int): int { if a < b then b else a }

  /** Unsigned 32-bit wrap-around. */
  function Wrap32(x: int): u32 { x % TWO32 }

  /** Unsigned 64-bit wrap-around. */
  function Wrap64(x: int): u64 { x % TWO64 }

  lemma Small32(x: int)
    requires 0 <= x < TWO32
    ensures Wrap32(x) == x
  {}

  lemma Small64(x: int)
    requires 0 <= x < TWO64
    ensures Wrap64(x) == x
  {}

  function AddWrap(x: u64, y: u64): u64 { Wrap64(x + y) }

  function SubWrap(x: u64, y: u64): u64 { Wrap64(x - y) }

  /** The signed reading of a 64-bit word. */
  function Signed64(x: u64): int { if x < TWO63 then x else x - TWO64 }

  function Pow256(n: nat): (p: nat)
    ensures p > 0
  {
    if n == 0 then 1 else 256 * Pow256(n - 1)
  }

  /** The number a little-endian byte string stands for. */
  function FromBytes(s: seq<byte>): (x: nat)
    ensures x < Pow256(|s|)
  {
    if s == [] then 0 else s[0] + 256 * FromBytes(s[1..])
  }

  /** The n low bytes of x, least significant first. */
  function ToBytes(x: nat, n: nat): (s: seq<byte>)
    ensures |s| == n
  {
    if n == 0 then [] else [x % 256] + ToBytes(x / 256, n - 1)
  }

  /** Serialising keeps exactly the low n bytes of a number. */
  lemma {:induction false} FromToBytes(x: nat, n: nat)
    ensures FromBytes(ToBytes(x, n)) == x % Pow256(n)
  {
    if n > 0 {
      FromToBytes(x / 256, n - 1);
      var s := ToBytes(x, n);
      assert s[1..] == ToBytes(x / 256, n - 1);
      ModByDigit(x, Pow256(n - 1));
    }
  }

  /** Splitting off the low digit commutes with reduction modulo 256 * m. */
  lemma ModByDigit(x: nat, m: nat)
    requires m > 0
    ensures x % 256 + 256 * ((x / 256) % m) == x % (256 * m)
  {
    var q, r := (x / 256) / m, (x / 256) % m;
    var low := x % 256;
    assert x / 256 == q * m + r;
    assert x == 256 * (q * m + r) + low;
    assert 256 * (q * m) == q * (256 * m);
    assert x == q * (256 * m) + (256 * r + low);
    assert 256 * r <= 256 * (m - 1);
    QuotientUnique(x, 256 * m, q, 256 * r + low);
  }

  lemma QuotientUnique(x: nat, m: nat, q: int, r: int)
    requires m > 0 && 0 <= r < m && x == q * m + r
    ensures x / m == q && x % m == r
  {
    var d := x / m - q;
    assert d * m == r - x % m by { assert x == (x / m) * m + x % m; }
    var k: int := m;
    assert d > 0 ==> d * k >= k;
    assert d < 0 ==> d * k <= 0 - k;
  }

  /** A byte string is determined by its number and its length. */
  lemma {:induction false} ToFromBytes(s: seq<byte>)
    ensures ToBytes(FromBytes(s), |s|) == s
  {
    if s != [] {
      ToFromBytes(s[1..]);
      assert FromBytes(s) % 256 == s[0] && FromBytes(s) / 256 == FromBytes(s[1..]);
    }
  }

  /** Two's-complement widening of an n-byte number (n <= 4, or 8) to 64 bits. */
  function SignExtend(n: nat, x: u64): u64
  {
    if n == 1 then (if x % 0x100 < 0x80 then x % 0x100 else x % 0x100 + (TWO64 - 0x100))
    else if n == 2 then (if x % 0x1_0000 < 0x8000 then x % 0x1_0000 else x % 0x1_0000 + (TWO64 - 0x1_0000))
    else if n == 3 then (if x % 0x100_0000 < 0x80_0000 then x % 0x100_0000 else x % 0x100_0000 + (TWO64 - 0x100_0000))
    else if n == 4 then (if x % TWO32 < 0x8000_0000 then x % TWO32 else x % TWO32 + (TWO64 - TWO32))
    else x
  }
}
