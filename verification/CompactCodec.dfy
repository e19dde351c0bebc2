/**
 * The variable-length encoding of natural numbers: a first byte whose leading ones tell how many bytes follow. One
 * decoder accepts every such form, the other only the shortest.
 */
module CompactCodec {
  import opened Words

  /** The first byte of a form with l more bytes is at least this. */
  function Base(l: nat): (b: nat)
    requires l <= 8
    ensures b <= 255
  {
    if l == 0 then 0 else if l == 1 then 128 else if l == 2 then 192 else if l == 3 then 224 else if l == 4 then 240
    else if l == 5 then 248 else if l == 6 then 252 else if l == 7 then 254 else 255
  }

  /** How many values the first byte leaves for the number itself. */
  function Width(l: nat): (w: nat)
    requires l <= 7
    ensures w > 0
  {
    Base(l + 1) - Base(l)
  }

  /** Numbers below this bound fit a form with l more bytes. */
  function Limit(l: nat): nat
    requires l <= 7
  {
    Width(l) * Pow256(l)
  }

  /** The number of leading ones of a byte. */
  function LeadingOnes(b: byte): (l: nat)
    ensures l <= 8 && Base(l) <= b && (l < 8 ==> b < Base(l + 1))
  {
    if b < 128 then 0 else if b < 192 then 1 else if b < 224 then 2 else if b < 240 then 3 else if b < 248 then 4
    else if b < 252 then 5 else if b < 254 then 6 else if b < 255 then 7 else 8
  }

  /** The number of bytes that follow the first in the shortest form. */
  function LengthFrom(x: u64, l: nat): (r: nat)
    requires l <= 8
    ensures l <= r <= 8 && (r < 8 ==> x < Limit(r)) && (r > l ==> x >= Limit(r - 1))
    decreases 8 - l
  {
    if l == 8 || x < Limit(l) then l else LengthFrom(x, l + 1)
  }

  function Length(x: u64): nat { LengthFrom(x, 0) }

  /** The shortest form of a number. */
  function Encoded(x: u64): seq<byte>
  {
    var l := Length(x);
    if l == 8 then [255] + ToBytes(x, 8)
    else
      QuotientFits(x, l);
      [Base(l) + x / Pow256(l)] + ToBytes(x % Pow256(l), l)
  }

  lemma QuotientFits(x: nat, l: nat)
    requires l <= 7 && x < Limit(l)
    ensures 0 <= x / Pow256(l) < Width(l)
  {
    DivisionBelow(x, Pow256(l), Width(l));
  }

  lemma DivisionBelow(x: nat, p: nat, w: nat)
    requires p > 0 && x < w * p
    ensures 0 <= x / p < w
  {
    var q := x / p;
    assert x == q * p + x % p;
    assert (q - w) * p == q * p - w * p;
    assert q >= w ==> (q - w) * p >= 0;
  }

  datatype Decoded = Short | Number(x: u64, used: nat)

  /** The number in a form with l more bytes. */
  function ValueOf(data: seq<byte>, l: nat): (x: u64)
    requires l <= 7 && |data| > l && LeadingOnes(data[0]) == l
    ensures x == (data[0] - Base(l)) * Pow256(l) + FromBytes(data[1..l + 1]) < Limit(l)
  {
    var floor, r, p := data[0] - Base(l), FromBytes(data[1..l + 1]), Pow256(l);
    assert floor * p <= (Width(l) - 1) * p;
    LimitsRise(l);
    floor * p + r
  }

  lemma LimitsRise(l: nat)
    requires l <= 7
    ensures Limit(l) < TWO64
    ensures l > 0 ==> Limit(l - 1) <= Limit(l)
  {
    assert Pow256(1) == 256;
    assert Pow256(2) == 256 * Pow256(1);
    assert Pow256(3) == 256 * Pow256(2);
    assert Pow256(4) == 256 * Pow256(3);
    assert Pow256(5) == 256 * Pow256(4);
    assert Pow256(6) == 256 * Pow256(5);
    assert Pow256(7) == 256 * Pow256(6);
  }

  /** The decoder that takes any form. */
  function Decode(data: seq<byte>): Decoded
  {
    if data == [] then Short
    else
      var l := LeadingOnes(data[0]);
      if |data| < l + 1 then Short
      else if l == 8 then
        WordFits(data[1..9]);
        Number(FromBytes(data[1..9]), 9)
      else Number(ValueOf(data, l), l + 1)
  }

  lemma WordFits(s: seq<byte>)
    requires |s| == 8
    ensures FromBytes(s) < TWO64
  {
    LimitsRise(7);
    assert Pow256(8) == 256 * Pow256(7) && Pow256(7) == 256 * Pow256(6);
  }

  /** The decoder that takes only the shortest form, except after 0xFF. */
  function StrictRead(data: seq<byte>): Option<(u64, nat)>
  {
    match Decode(data)
    case Short => None
    case Number(x, used) => if 2 <= used <= 8 && x < Limit(used - 2) then None else Some((x, used))
  }

  lemma {:induction false} LengthIs(x: u64, l: nat, from: nat)
    requires from <= l <= 8 && (l < 8 ==> x < Limit(l)) && forall k | from <= k < l :: x >= Limit(k)
    ensures LengthFrom(x, from) == l
    decreases l - from
  {
    if from < l { LengthIs(x, l, from + 1); }
  }

  lemma {:induction false} LimitsBelow(x: u64, l: nat, k: nat)
    requires k < l <= 8 && x >= Limit(l - 1)
    ensures x >= Limit(k)
    decreases l - k
  {
    if k + 1 < l {
      LimitsBelow(x, l, k + 1);
      LimitsRise(k + 1);
    }
  }

  lemma LengthAtMost(x: u64, k: nat)
    requires k <= 7 && x < Limit(k)
    ensures Length(x) <= k && |Encoded(x)| == Length(x) + 1
  {
    if Length(x) > k { LimitsBelow(x, Length(x), k); }
  }

  /** Encoding and then decoding gives the number back, whatever follows. */
  lemma DecodeEncoded(x: u64, rest: seq<byte>)
    ensures Decode(Encoded(x) + rest) == Number(x, |Encoded(x)|)
  {
    var l := Length(x);
    if l == 8 {
      DecodeLong(x, rest);
    } else {
      QuotientFits(x, l);
      Division(x, Pow256(l));
      DecodeShort(x, l, x / Pow256(l), x % Pow256(l), rest);
    }
  }

  lemma DecodeLong(x: u64, rest: seq<byte>)
    ensures Decode([255] + ToBytes(x, 8) + rest) == Number(x, 9)
  {
    var data := [255] + ToBytes(x, 8) + rest;
    assert data[1..9] == ToBytes(x, 8);
    FromToBytes(x, 8);
    WordModulus(x);
  }

  /** A form with l more bytes. */
  lemma DecodeForm(data: seq<byte>, l: nat)
    requires l <= 7 && |data| > l && LeadingOnes(data[0]) == l
    ensures Decode(data) == Number(ValueOf(data, l), l + 1)
  {}

  lemma LeadingBase(l: nat, q: nat)
    requires l <= 7 && q < Width(l)
    ensures LeadingOnes(Base(l) + q) == l
  {}

  lemma DecodeShort(x: u64, l: nat, q: nat, r: nat, rest: seq<byte>)
    requires l <= 7 && q < Width(l) && r < Pow256(l) && x == q * Pow256(l) + r
    ensures Decode([Base(l) + q] + ToBytes(r, l) + rest) == Number(x, l + 1)
  {
    FromToBytes(r, l);
    SmallModulus(r, Pow256(l));
    FormValue(l, q, ToBytes(r, l), rest);
  }

  lemma SmallModulus(r: nat, p: nat)
    requires r < p
    ensures r % p == r
  {}

  lemma Division(x: nat, p: nat)
    requires p > 0
    ensures x == (x / p) * p + x % p && 0 <= x % p < p
  {}

  lemma FormValue(l: nat, q: nat, bytes: seq<byte>, rest: seq<byte>)
    requires l <= 7 && q < Width(l) && |bytes| == l
    ensures var d := Decode([Base(l) + q] + bytes + rest);
      d.Number? && d.x == q * Pow256(l) + FromBytes(bytes) && d.used == l + 1
  {
    LeadingBase(l, q);
    FormParts(Base(l) + q, bytes, rest);
    FormIs([Base(l) + q] + bytes + rest, l, q, bytes);
  }

  lemma FormIs(data: seq<byte>, l: nat, q: nat, bytes: seq<byte>)
    requires l <= 7 && |data| > l && LeadingOnes(data[0]) == l && data[0] - Base(l) == q && data[1..l + 1] == bytes
    ensures var d := Decode(data); d.Number? && d.x == q * Pow256(l) + FromBytes(bytes) && d.used == l + 1
  {
    DecodeForm(data, l);
  }

  lemma FormParts(first: byte, bytes: seq<byte>, rest: seq<byte>)
    ensures var data := [first] + bytes + rest;
      |data| > |bytes| && data[0] == first && data[1..|bytes| + 1] == bytes
  {}

  lemma WordModulus(x: u64)
    ensures x % Pow256(8) == x
  {
    LimitsRise(7);
    assert Pow256(8) == 256 * Pow256(7) && Pow256(7) == 256 * Pow256(6);
  }

  lemma ReadEncoded(x: u64, rest: seq<byte>)
    ensures StrictRead(Encoded(x) + rest) == Some((x, |Encoded(x)|))
  {
    DecodeEncoded(x, rest);
    var used := |Encoded(x)|;
    if 2 <= used <= 8 { assert Length(x) == used - 1 && x >= Limit(used - 2); }
  }

  /** A form is canonical if it is the one that encoding its number gives. */
  predicate Canonical(data: seq<byte>, x: u64, used: nat) { used <= |data| && data[..used] == Encoded(x) }

  /** Of the forms with less than eight more bytes exactly the canonical ones have a number that needs all the bytes. */
  lemma CanonicalForms(data: seq<byte>, l: nat)
    requires l <= 7 && |data| > l && LeadingOnes(data[0]) == l
    ensures Canonical(data, ValueOf(data, l), l + 1) <==> (l == 0 || ValueOf(data, l) >= Limit(l - 1))
  {
    var x, p := ValueOf(data, l), Pow256(l);
    var floor, r := data[0] - Base(l), FromBytes(data[1..l + 1]);
    if l == 0 || x >= Limit(l - 1) {
      forall k | 0 <= k < l ensures x >= Limit(k) { LimitsBelow(x, l, k); }
      LengthIs(x, l, 0);
      QuotientUnique(x, p, floor, r);
      ToFromBytes(data[1..l + 1]);
      assert data[..l + 1] == [data[0]] + data[1..l + 1];
    } else {
      LengthAtMost(x, l - 1);
    }
  }

  /** What the strict decoder accepts is canonical, unless it is a small number after 0xFF. */
  lemma StrictIsCanonical(data: seq<byte>)
    requires StrictRead(data).Some?
    ensures var (x, used) := StrictRead(data).value;
      Canonical(data, x, used) <==> !(data[0] == 255 && x < Limit(7))
  {
    var (x, used) := StrictRead(data).value;
    if data[0] == 255 {
      ToFromBytes(data[1..9]);
      assert data[..9] == [data[0]] + data[1..9];
      if x >= Limit(7) {
        forall k | 0 <= k < 8 ensures x >= Limit(k) { LimitsBelow(x, 8, k); }
        LengthIs(x, 8, 0);
      } else {
        LengthAtMost(x, 7);
      }
    } else {
      CanonicalForms(data, LeadingOnes(data[0]));
    }
  }

  /** The two decoders differ exactly on forms that are not the shortest: the strict one rejects them. */
  lemma DecodersDiffer(data: seq<byte>)
    requires Decode(data).Number? && data[0] != 255
    ensures var d := Decode(data);
      StrictRead(data) == if Canonical(data, d.x, d.used) then Some((d.x, d.used)) else None
  {
    CanonicalForms(data, LeadingOnes(data[0]));
  }

  lemma {:induction false} ByteOf(x: nat, n: nat, i: nat)
    requires i < n
    ensures ToBytes(x, n)[i] == (x / Pow256(i)) % 256
  {
    if i > 0 {
      ByteOf(x / 256, n - 1, i - 1);
      DivisionTwice(x, 256, Pow256(i - 1));
    }
  }

  lemma DivisionTwice(x: nat, a: nat, b: nat)
    requires a > 0 && b > 0
    ensures a * b > 0 && (x / a) / b == x / (a * b)
  {
    var q, r, s := (x / a) / b, (x / a) % b, x % a;
    Division(x, a);
    Division(x / a, b);
    Regroup(q, r, s, a, b);
    QuotientUnique(x, a * b, q, r * a + s);
  }

  lemma Regroup(q: nat, r: nat, s: nat, a: nat, b: nat)
    requires r < b && s < a
    ensures (q * b + r) * a + s == q * (a * b) + (r * a + s) && r * a + s < a * b && a * b > 0
  {
    assert (q * b + r) * a == q * (a * b) + r * a;
    assert (b - 1 - r) * a >= 0;
    assert (b - 1 - r) * a == b * a - a - r * a;
  }

  lemma {:induction false} FromBytesAppend(s: seq<byte>, b: byte)
    ensures FromBytes(s + [b]) == FromBytes(s) + b * Pow256(|s|)
  {
    if s == [] {
      assert s + [b] == [b];
    } else {
      var t := s + [b];
      assert t[1..] == s[1..] + [b] && t[0] == s[0];
      FromBytesAppend(s[1..], b);
      MoveFactor(b, Pow256(|s| - 1));
    }
  }

  lemma MoveFactor(b: nat, p: nat)
    ensures 256 * (b * p) == b * (256 * p)
  {}

  /** The low bytes of a word, shifted out one by one. */
  method AppendBytes(first: byte, x: u64, n: nat) returns (r: seq<byte>)
    ensures r == [first] + ToBytes(x, n)
  {
    r := [first];
    for i := 0 to n
      invariant r == [first] + ToBytes(x, n)[..i]
    {
      ByteOf(x, n, i);
      assert ToBytes(x, n)[..i + 1] == ToBytes(x, n)[..i] + [ToBytes(x, n)[i]];
      r := r + [(x / Pow256(i)) % 256];
    }
  }

  /** With i more bytes the low bytes of the number follow, and what is left of it goes into the first. */
  lemma EncodedShort(x: u64, i: nat)
    requires i < 8 && x < Limit(i) && forall k | 0 <= k < i :: x >= Limit(k)
    ensures 0 <= Base(i) + x / Pow256(i) < 256 && x % Pow256(i) >= 0
    ensures Encoded(x) == [Base(i) + x / Pow256(i)] + ToBytes(x % Pow256(i), i)
  {
    LengthIs(x, i, 0);
    QuotientFits(x, i);
    Remains(x, Pow256(i));
  }

  lemma Remains(x: nat, p: nat)
    requires p > 0
    ensures x % p >= 0
  {}

  lemma EncodedLong(x: u64)
    requires forall k | 0 <= k < 8 :: x >= Limit(k)
    ensures Encoded(x) == [255] + ToBytes(x, 8)
  {
    LengthIs(x, 8, 0);
  }

  lemma EncodedZero()
    ensures Encoded(0) == [0]
  {
    EncodedShort(0, 0);
  }

  method EncodeShort(x: u64, i: nat) returns (r: seq<byte>)
    requires i < 8 && x < Limit(i) && forall k | 0 <= k < i :: x >= Limit(k)
    ensures r == Encoded(x)
  {
    EncodedShort(x, i);
    r := AppendBytes(Base(i) + x / Pow256(i), x % Pow256(i), i);
  }

  method CompactEncode(x: u64) returns (r: seq<byte>)
    ensures r == Encoded(x)
  {
    if x == 0 {
      EncodedZero();
      return [0];
    }
    var i := 0;
    while i < 8
      invariant i <= 8 && forall k | 0 <= k < i :: x >= Limit(k)
    {
      if (i == 0 || Limit(i - 1) <= x) && x < Limit(i) {
        r := EncodeShort(x, i);
        return;
      }
      i := i + 1;
    }
    EncodedLong(x);
    r := AppendBytes(255, x, 8);
  }

  /** The position of the first zero bit, from the highest. */
  method FirstZero(b: byte) returns (length: nat)
    requires b != 255
    ensures length == LeadingOnes(b)
  {
    length := 0;
    while length < 8 && (b / Width(length)) % 2 == 1
      invariant length <= 8 && Base(length) <= b
    {
      length := length + 1;
    }
  }

  method BytesToNumber(s: seq<byte>) returns (v: nat)
    ensures v == FromBytes(s)
  {
    v := 0;
    for i := 0 to |s|
      invariant v == FromBytes(s[..i])
    {
      FromBytesAppend(s[..i], s[i]);
      assert s[..i + 1] == s[..i] + [s[i]];
      v := v + s[i] * Pow256(i);
    }
    assert s[..|s|] == s;
  }

  /** Zero bytes used stand for data that is too short. */
  method CompactDecode(data: seq<byte>) returns (x: nat, used: nat)
    ensures match Decode(data)
      case Short => x == 0 && used == 0
      case Number(v, n) => x == v && used == n
  {
    if data == [] { return 0, 0; }
    var b := data[0];
    if b == 0 { return 0, 1; }
    if b == 255 {
      if |data| < 9 { return 0, 0; }
      x := BytesToNumber(data[1..9]);
      return x, 9;
    }
    var length := FirstZero(b);
    if |data| < 1 + length { return 0, 0; }
    DecodeForm(data, length);
    var v := BytesToNumber(data[1..1 + length]);
    return v + (b - Base(length)) * Pow256(length), 1 + length;
  }

  /** Three bytes read as the low part of a word of four. */
  lemma LowThree(s: seq<byte>)
    requires |s| == 4
    ensures FromBytes(s) % 0x100_0000 == FromBytes(s[..3])
  {
    assert s == s[..3] + [s[3]];
    FromBytesAppend(s[..3], s[3]);
    ThreeBytes(s[..3]);
    QuotientUnique(FromBytes(s), 0x100_0000, s[3], FromBytes(s[..3]));
  }

  lemma ThreeBytes(s: seq<byte>)
    requires |s| == 3
    ensures FromBytes(s) == s[0] + (s[1] as int) * 0x100 + (s[2] as int) * 0x1_0000
    ensures Pow256(3) == 0x100_0000 && FromBytes(s) < Pow256(3)
  {
    assert s[1..][1..] == s[2..] && s[2..][1..] == [];
    assert Pow256(1) == 256 && Pow256(2) == 0x1_0000;
  }

  lemma OneByte(s: seq<byte>)
    requires |s| == 1
    ensures FromBytes(s) == s[0]
  {
    assert s[1..] == [];
  }

  function Pow2(n: nat): (p: nat)
    ensures p > 0
  {
    if n == 0 then 1 else 2 * Pow2(n - 1)
  }

  lemma {:induction false} Pow2Adds(m: nat, n: nat)
    ensures Pow2(m + n) == Pow2(m) * Pow2(n)
    decreases m
  {
    if m > 0 {
      Pow2Adds(m - 1, n);
      MoveTwo(Pow2(m - 1), Pow2(n));
    }
  }

  lemma MoveTwo(p: nat, q: nat)
    ensures 2 * (p * q) == (2 * p) * q
  {}

  lemma SmallPowers()
    ensures Pow2(1) == 2 && Pow2(2) == 4 && Pow2(3) == 8 && Pow2(4) == 16
    ensures Pow2(5) == 32 && Pow2(6) == 64 && Pow2(7) == 128 && Pow2(8) == 256
  {
    assert Pow2(3) == 2 * Pow2(2) && Pow2(4) == 2 * Pow2(3);
    assert Pow2(5) == 2 * Pow2(4) && Pow2(6) == 2 * Pow2(5);
    assert Pow2(7) == 2 * Pow2(6) && Pow2(8) == 2 * Pow2(7);
  }

  lemma {:induction false} Pow2Of8(n: nat)
    ensures Pow2(8 * n) == Pow256(n)
  {
    if n > 0 {
      Pow2Of8(n - 1);
      Pow2Adds(8, 8 * (n - 1));
      SmallPowers();
    }
  }

  /** The least number that needs l more bytes has 7 * l bits below its one. */
  lemma LeastOf(l: nat)
    requires 1 <= l <= 7
    ensures Limit(l - 1) == Pow2(7 * l)
  {
    Pow2Of8(l - 1);
    Pow2Adds(8 - l, 8 * (l - 1));
    WidthIsPower(l - 1);
    assert (8 - l) + 8 * (l - 1) == 7 * l;
  }

  lemma WidthIsPower(l: nat)
    requires l <= 6
    ensures Width(l) == Pow2(7 - l)
  {
    SmallPowers();
  }

  /** The l bytes after the first, by the case that the length falls in. */
  method Remainder(data: seq<byte>, l: nat) returns (v: nat)
    requires 1 <= l <= 7 && |data| > l
    ensures v == FromBytes(data[1..l + 1])
  {
    if l == 1 {
      OneByte(data[1..2]);
      v := data[1];
    } else if l == 3 {
      ThreeBytes(data[1..4]);
      if |data| >= 5 {
        LowThree(data[1..5]);
        assert data[1..5][..3] == data[1..4];
        v := FromBytes(data[1..5]) % 0x100_0000;
      } else {
        v := data[1] + (data[2] as int) * 0x100 + (data[3] as int) * 0x1_0000;
      }
    } else if l == 2 || l == 4 {
      v := FromBytes(data[1..l + 1]);
    } else {
      v := 0;
      for i := 0 to l
        invariant v == FromBytes(data[1..i + 1])
      {
        FromBytesAppend(data[1..i + 1], data[i + 1]);
        assert data[1..i + 2] == data[1..i + 1] + [data[i + 1]];
        v := v + data[i + 1] * Pow256(i);
      }
    }
  }

  method ReadUintVariable(data: seq<byte>) returns (x: nat, used: nat, ok: bool)
    ensures match StrictRead(data)
      case None => !ok && x == 0 && used == 0
      case Some(read) => ok && x == read.0 && used == read.1
  {
    if |data| < 1 { return 0, 0, false; }
    var prefix := data[0];
    if prefix < 0x80 { return prefix, 1, true; }
    if prefix == 0xFF {
      if |data| < 9 { return 0, 0, false; }
      return FromBytes(data[1..9]), 9, true;
    }
    var l := LeadingOnes(prefix);
    if |data| < l + 1 { return 0, 0, false; }
    var v := Remainder(data, l);
    DecodeForm(data, l);
    x := (prefix - Base(l)) * Pow256(l) + v;
    LeastOf(l);
    if x < Pow2(7 * l) { return 0, 0, false; }
    return x, l + 1, true;
  }
}
