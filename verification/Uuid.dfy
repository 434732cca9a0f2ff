/** UUIDs as 16 bytes, their canonical text (section 3 of RFC 4122), and the order of both. */
module Uuids {

  type Byte = n: nat | n < 256

  type Bytes16 = s: seq<Byte> | |s| == 16
    witness [0, 0, 0, 0, 0, 0, 0, 0, 0, 0, 0, 0, 0, 0, 0, 0]

  datatype Uuid = Uuid(bytes: Bytes16)

  function Pow256(k: nat): (p: nat)
    ensures p > 0
  {
    if k == 0 then 1 else 256 * Pow256(k - 1)
  }

  /** The number that `bs` denotes, most significant byte first. */
  function Value(bs: seq<Byte>): nat {
    if bs == [] then 0 else bs[0] * Pow256(|bs| - 1) + Value(bs[1..])
  }

  // ----- text

  const DIGITS := "0123456789abcdef"

  function Hex(bs: seq<Byte>): (s: string)
    ensures |s| == 2 * |bs|
  {
    if bs == [] then "" else [DIGITS[bs[0] / 16], DIGITS[bs[0] % 16]] + Hex(bs[1..])
  }

  function Text(u: Uuid): string {
    var b := u.bytes;
    Hex(b[..4]) + "-" + (Hex(b[4..6]) + "-" + (Hex(b[6..8]) + "-" + (Hex(b[8..10]) + "-" + Hex(b[10..]))))
  }

  /** A UUID as a 128-bit number. */
  function Number(u: Uuid): nat {
    Value(u.bytes)
  }

  /** String comparison, character by character. */
  predicate Less(a: string, b: string) {
    b != "" && (a == "" || a[0] < b[0] || (a[0] == b[0] && Less(a[1..], b[1..])))
  }

  /** Comparison of byte strings of equal length. */
  predicate Below(a: seq<Byte>, b: seq<Byte>)
    requires |a| == |b|
  {
    a != [] && (a[0] < b[0] || (a[0] == b[0] && Below(a[1..], b[1..])))
  }

  lemma LeadingDigit(x: nat, y: nat, p: nat, v: nat)
    requires x < y && v < p
    ensures x * p + v < y * p
  {
    assert (x + 1) * p <= y * p;
    assert (x + 1) * p == x * p + p;
  }

  lemma {:induction false} ValueBound(bs: seq<Byte>)
    ensures Value(bs) < Pow256(|bs|)
  {
    if bs != [] {
      var p := Pow256(|bs| - 1);
      ValueBound(bs[1..]);
      assert Pow256(|bs|) == 256 * p;
      hide Pow256;
      LeadingDigit(bs[0], 256, p, Value(bs[1..]));
    }
  }

  /** Byte order is numeric order, and different bytes are different numbers. */
  lemma {:induction false} ValueOrder(a: seq<Byte>, b: seq<Byte>)
    requires |a| == |b|
    ensures Below(a, b) <==> Value(a) < Value(b)
    ensures a == b <==> Value(a) == Value(b)
  {
    hide Pow256;
    if a != [] {
      var p := Pow256(|a| - 1);
      ValueOrder(a[1..], b[1..]);
      ValueBound(a[1..]);
      ValueBound(b[1..]);
      if a[0] < b[0] {
        LeadingDigit(a[0], b[0], p, Value(a[1..]));
      } else if b[0] < a[0] {
        LeadingDigit(b[0], a[0], p, Value(b[1..]));
      } else {
        assert a == [a[0]] + a[1..] && b == [b[0]] + b[1..];
      }
    }
  }

  lemma {:induction false} LessConcat(a: string, a': string, b: string, b': string)
    requires |a| == |b|
    ensures Less(a + a', b + b') <==> Less(a, b) || (a == b && Less(a', b'))
  {
    if a == "" {
      assert a + a' == a' && b + b' == b';
    } else {
      LessConcat(a[1..], a', b[1..], b');
      assert (a + a')[1..] == a[1..] + a' && (b + b')[1..] == b[1..] + b';
      assert a == [a[0]] + a[1..] && b == [b[0]] + b[1..];
    }
  }

  lemma {:induction false} BelowConcat(a: seq<Byte>, a': seq<Byte>, b: seq<Byte>, b': seq<Byte>)
    requires |a| == |b| && |a'| == |b'|
    ensures Below(a + a', b + b') <==> Below(a, b) || (a == b && Below(a', b'))
  {
    if a == [] {
      assert a + a' == a' && b + b' == b';
    } else {
      BelowConcat(a[1..], a', b[1..], b');
      assert (a + a')[1..] == a[1..] + a' && (b + b')[1..] == b[1..] + b';
      assert a == [a[0]] + a[1..] && b == [b[0]] + b[1..];
    }
  }

  lemma DigitOrder(c: nat, d: nat)
    requires c < 16 && d < 16
    ensures DIGITS[c] < DIGITS[d] <==> c < d
    ensures DIGITS[c] == DIGITS[d] <==> c == d
  {
  }

  lemma ByteOrder(x: Byte, y: Byte)
    ensures Less([DIGITS[x / 16], DIGITS[x % 16]], [DIGITS[y / 16], DIGITS[y % 16]]) <==> x < y
    ensures [DIGITS[x / 16], DIGITS[x % 16]] == [DIGITS[y / 16], DIGITS[y % 16]] <==> x == y
  {
    DigitOrder(x / 16, y / 16);
    DigitOrder(x % 16, y % 16);
    var s, t := [DIGITS[x / 16], DIGITS[x % 16]], [DIGITS[y / 16], DIGITS[y % 16]];
    assert s[1..] == [DIGITS[x % 16]] && t[1..] == [DIGITS[y % 16]];
    assert Less(s[1..], t[1..]) <==> DIGITS[x % 16] < DIGITS[y % 16] by { assert s[1..][1..] == "" == t[1..][1..]; }
    assert s[0] == DIGITS[x / 16] && t[0] == DIGITS[y / 16] && s[1] == DIGITS[x % 16] && t[1] == DIGITS[y % 16];
  }

  lemma {:induction false} HexOrder(a: seq<Byte>, b: seq<Byte>)
    requires |a| == |b|
    ensures Less(Hex(a), Hex(b)) <==> Below(a, b)
    ensures Hex(a) == Hex(b) <==> a == b
  {
    if a != [] {
      HexOrder(a[1..], b[1..]);
      var s, t := [DIGITS[a[0] / 16], DIGITS[a[0] % 16]], [DIGITS[b[0] / 16], DIGITS[b[0] % 16]];
      ByteOrder(a[0], b[0]);
      LessConcat(s, Hex(a[1..]), t, Hex(b[1..]));
      assert a == [a[0]] + a[1..] && b == [b[0]] + b[1..];
      assert Hex(a)[..2] == s && Hex(b)[..2] == t && Hex(a)[2..] == Hex(a[1..]) && Hex(b)[2..] == Hex(b[1..]);
    }
  }

  /** One group of digits followed by a dash and the rest. */
  lemma GroupOrder(a: seq<Byte>, a': seq<Byte>, s: string, b: seq<Byte>, b': seq<Byte>, t: string)
    requires |a| == |b| && |a'| == |b'|
    requires (Less(s, t) <==> Below(a', b')) && (s == t <==> a' == b')
    ensures Less(Hex(a) + "-" + s, Hex(b) + "-" + t) <==> Below(a + a', b + b')
    ensures Hex(a) + "-" + s == Hex(b) + "-" + t <==> a + a' == b + b'
  {
    hide Less, Hex, Below;
    HexOrder(a, b);
    DashOrder(Hex(a), s, Hex(b), t);
    BelowConcat(a, a', b, b');
    assert (a + a')[..|a|] == a && (b + b')[..|a|] == b && (a + a')[|a|..] == a' && (b + b')[|a|..] == b';
  }

  lemma DashOrder(a: string, a': string, b: string, b': string)
    requires |a| == |b|
    ensures Less(a + "-" + a', b + "-" + b') <==> Less(a, b) || (a == b && Less(a', b'))
    ensures a + "-" + a' == b + "-" + b' <==> a == b && a' == b'
  {
    LessConcat(a + "-", a', b + "-", b');
    LessConcat(a, "-", b, "-");
    hide Less;
    var n := |a|;
    assert (a + "-")[..n] == a && (b + "-")[..n] == b;
    assert (a + "-" + a')[..n] == a && (b + "-" + b')[..n] == b;
    assert (a + "-" + a')[n + 1..] == a' && (b + "-" + b')[n + 1..] == b';
  }

  /** The canonical text orders UUIDs as the 128-bit numbers they are, and tells them apart. */
  lemma TextOrder(u: Uuid, v: Uuid)
    ensures Less(Text(u), Text(v)) <==> Number(u) < Number(v)
    ensures Text(u) == Text(v) <==> u == v
    ensures Number(u) == Number(v) <==> u == v
  {
    hide Less, Hex, Below, Value;
    var a, b := u.bytes, v.bytes;
    Halves(a, 8, 10);
    Halves(b, 8, 10);
    Halves(a, 6, 8);
    Halves(b, 6, 8);
    Halves(a, 4, 6);
    Halves(b, 4, 6);
    HexOrder(a[10..], b[10..]);
    GroupOrder(a[8..10], a[10..], Hex(a[10..]), b[8..10], b[10..], Hex(b[10..]));
    var s8, t8 := Hex(a[8..10]) + "-" + Hex(a[10..]), Hex(b[8..10]) + "-" + Hex(b[10..]);
    GroupOrder(a[6..8], a[8..], s8, b[6..8], b[8..], t8);
    var s6, t6 := Hex(a[6..8]) + "-" + s8, Hex(b[6..8]) + "-" + t8;
    GroupOrder(a[4..6], a[6..], s6, b[4..6], b[6..], t6);
    var s4, t4 := Hex(a[4..6]) + "-" + s6, Hex(b[4..6]) + "-" + t6;
    GroupOrder(a[..4], a[4..], s4, b[..4], b[4..], t4);
    assert a[..4] + a[4..] == a && b[..4] + b[4..] == b;
    ValueOrder(a, b);
  }

  lemma Halves(s: seq<Byte>, i: nat, j: nat)
    requires i <= j <= |s|
    ensures s[i..j] + s[j..] == s[i..]
  {
  }

  lemma {:induction false} HexAt(bs: seq<Byte>, k: nat)
    requires k < |bs|
    ensures Hex(bs)[2 * k] == "0123456789abcdef"[bs[k] / 16] && Hex(bs)[2 * k + 1] == "0123456789abcdef"[bs[k] % 16]
  {
    if k > 0 { HexAt(bs[1..], k - 1); }
  }

  /** Where the text has the digits of byte `k`. */
  function Position(k: nat): nat {
    2 * k + (if k < 4 then 0 else if k < 6 then 1 else if k < 8 then 2 else if k < 10 then 3 else 4)
  }

  /** The canonical text: 36 characters, dashes behind the bytes 4, 6, 8 and 10, and two lower-case
      digits for each byte. */
  lemma TextSpelled(u: Uuid, k: nat)
    requires k < 16
    ensures |Text(u)| == 36
    ensures Text(u)[8] == Text(u)[13] == Text(u)[18] == Text(u)[23] == '-'
    ensures Text(u)[Position(k)] == "0123456789abcdef"[u.bytes[k] / 16]
    ensures Text(u)[Position(k) + 1] == "0123456789abcdef"[u.bytes[k] % 16]
  {
    hide Hex;
    var b := u.bytes;
    if k < 4 { HexAt(b[..4], k); }
    else if k < 6 { HexAt(b[4..6], k - 4); }
    else if k < 8 { HexAt(b[6..8], k - 6); }
    else if k < 10 { HexAt(b[8..10], k - 8); }
    else { HexAt(b[10..], k - 10); }
  }

  // ----- numbers as bytes

  /** Big-endian bytes without leading zeros, as big.Int.Bytes returns them. */
  function BytesOf(n: nat): seq<Byte> {
    if n == 0 then [] else BytesOf(n / 256) + [n % 256]
  }

  lemma {:induction false} ValueSnoc(bs: seq<Byte>, b: Byte)
    ensures Value(bs + [b]) == Value(bs) * 256 + b
  {
    if bs != [] {
      ValueSnoc(bs[1..], b);
      assert (bs + [b])[1..] == bs[1..] + [b];
      assert bs[0] * Pow256(|bs|) == bs[0] * Pow256(|bs| - 1) * 256;
    }
  }

  lemma {:induction false} BytesOfValue(n: nat)
    ensures Value(BytesOf(n)) == n
    ensures n > 0 ==> |BytesOf(n)| > 0 && Pow256(|BytesOf(n)| - 1) <= n < Pow256(|BytesOf(n)|)
  {
    if n > 0 {
      BytesOfValue(n / 256);
      ValueSnoc(BytesOf(n / 256), n % 256);
      if n / 256 > 0 {
        var k := |BytesOf(n / 256)|;
        assert Pow256(k) == 256 * Pow256(k - 1);
      }
    }
  }

  lemma {:induction false} PowMonotone(j: nat, k: nat)
    requires j <= k
    ensures Pow256(j) <= Pow256(k)
  {
    if j < k { PowMonotone(j, k - 1); }
  }

  /** A number has a 16-byte encoding exactly if it fills the 16th byte. */
  lemma SixteenBytes(n: nat)
    ensures |BytesOf(n)| == 16 <==> Pow256(15) <= n < Pow256(16)
  {
    BytesOfValue(n);
    var k := |BytesOf(n)|;
    if n > 0 && k < 16 { PowMonotone(k, 15); }
    if k > 16 { PowMonotone(16, k - 1); }
  }

  const MIN_VALUE: nat := 0
  const MAX_VALUE: nat := 0xffffffff_ffffffff_ffffffff_ffffffff

  const NIL_UUID: Uuid := Uuid(Repeat(0, 16))
  const MAX_UUID: Uuid := Uuid(Repeat(255, 16))

  function Repeat(b: Byte, k: nat): (bs: seq<Byte>)
    ensures |bs| == k
  {
    seq(k, _ => b)
  }

  lemma {:induction false} Repeated(b: Byte, k: nat)
    ensures b == 0 ==> Value(Repeat(b, k)) == 0
    ensures b == 255 ==> Value(Repeat(b, k)) == Pow256(k) - 1
  {
    if k > 0 {
      Repeated(b, k - 1);
      assert Repeat(b, k)[1..] == Repeat(b, k - 1);
    }
  }

  lemma PowTimes(j: nat, k: nat)
    ensures Pow256(j + k) == Pow256(j) * Pow256(k)
  {
    if k > 0 {
      PowTimes(j, k - 1);
      assert Pow256(k) == 256 * Pow256(k - 1) && Pow256(j + k) == 256 * Pow256(j + (k - 1));
      hide Pow256;
      Regroup(Pow256(j), Pow256(k - 1));
    }
  }

  lemma Regroup(x: nat, y: nat)
    ensures x * (256 * y) == 256 * (x * y)
  {
  }

  lemma PowValues()
    ensures Pow256(16) == MAX_VALUE + 1 && Pow256(15) == 0x1000000_00000000_00000000_00000000
  {
    assert Pow256(3) == 0x1000000 && Pow256(4) == 0x1_00000000;
    hide Pow256;
    PowTimes(4, 4);
    PowTimes(8, 8);
    PowTimes(8, 4);
    PowTimes(12, 3);
  }

  lemma Extremes()
    ensures Number(NIL_UUID) == 0 && Number(MAX_UUID) == MAX_VALUE
  {
    hide Value, Repeat, Pow256;
    PowValues();
    Repeated(0, 16);
    Repeated(255, 16);
  }
}
