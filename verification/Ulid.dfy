/**
 Run identifiers (internal/ulid/ulid.go).

 A run id is the number `ms * 2^80 + entropy` written with 26 base-32 symbols.
 `Text` is that reference writing; `Encode` is the unrolled bit packing of the
 source, proved to produce it.
 */
module Ulid {
  import opened Wrappers

  const LENGTH: nat := 26
  const ALPHABET: string := "0123456789ABCDEFGHJKMNPQRSTVWXYZ"

  const TWO_40: nat := 0x100_0000_0000
  const TWO_48: nat := 0x1_0000_0000_0000
  const TWO_64: nat := 0x1_0000_0000_0000_0000
  const TWO_80: nat := 0x1_0000_0000_0000_0000_0000
  const TWO_128: nat := 0x1_0000_0000_0000_0000_0000_0000_0000_0000

  // ---------- Numbers and digits ----------

  /** The big-endian value of a byte string. */
  function Number256(bytes: seq<bv8>): nat {
    if bytes == [] then 0
    else Number256(bytes[..|bytes| - 1]) * 256 + bytes[|bytes| - 1] as nat
  }

  /** The big-endian value of a base-32 digit string. */
  function Number32(digits: seq<nat>): nat {
    if digits == [] then 0
    else Number32(digits[..|digits| - 1]) * 32 + digits[|digits| - 1]
  }

  ghost predicate IsDigits(digits: seq<nat>) {
    forall i :: 0 <= i < |digits| ==> digits[i] < 32
  }

  /** The `len` low base-32 digits of `n`. */
  function Digits(n: nat, len: nat): (ds: seq<nat>)
    ensures |ds| == len && forall i :: 0 <= i < len ==> ds[i] < 32
  {
    if len == 0 then [] else Digits(n / 32, len - 1) + [n % 32]
  }

  /** The 128-bit number an id stands for. */
  function Number(ms: nat, entropy: seq<bv8>): nat {
    ms * TWO_80 + Number256(entropy)
  }

  function Symbol(d: nat): char
    requires d < 32
  {
    ALPHABET[d]
  }

  function Symbols(digits: seq<nat>): (s: string)
    requires forall i :: 0 <= i < |digits| ==> digits[i] < 32
    ensures |s| == |digits|
  {
    seq(|digits|, i requires 0 <= i < |digits| => Symbol(digits[i]))
  }

  /** The reference form of an id. */
  function Text(n: nat): (s: string)
    ensures |s| == LENGTH
  {
    Symbols(Digits(n, LENGTH))
  }

  /** Digit strings of one length denote different numbers. */
  lemma {:induction false} DigitsUnique(ds: seq<nat>, n: nat)
    requires IsDigits(ds) && Number32(ds) == n
    ensures ds == Digits(n, |ds|)
  {
    if ds != [] {
      var front, last := ds[..|ds| - 1], ds[|ds| - 1];
      DigitsUnique(front, Number32(front));
      assert n / 32 == Number32(front) && n % 32 == last;
      assert ds == front + [last];
    }
  }

  lemma {:induction false} DigitsNumber(n: nat, len: nat, bound: nat)
    requires bound == Power32(len) && n < bound
    ensures Number32(Digits(n, len)) == n
  {
    if len != 0 {
      DigitsNumber(n / 32, len - 1, Power32(len - 1));
      assert Digits(n, len)[..len - 1] == Digits(n / 32, len - 1);
    }
  }

  function Power32(len: nat): nat {
    if len == 0 then 1 else 32 * Power32(len - 1)
  }

  lemma Power32Of26()
    ensures Power32(26) == 4 * TWO_128
    ensures Power32(16) == TWO_80
    ensures Power32(10) == 4 * TWO_48
  {
    assert Power32(5) == 0x200_0000;
    assert Power32(10) == 0x200_0000 * 0x200_0000;
    assert Power32(15) == 0x200_0000 * 0x200_0000 * 0x200_0000;
    assert Power32(16) == TWO_80;
    assert Power32(20) == TWO_80 * 0x10_0000;
    assert Power32(25) == TWO_80 * 0x10_0000 * 0x200_0000;
  }

  // ---------- Order ----------

  /** Byte-wise string order, as Go compares strings of one length. */
  ghost predicate Before<T(!new)>(less: (T, T) -> bool, s: seq<T>, t: seq<T>)
    requires |s| == |t|
  {
    exists k :: 0 <= k < |s| && s[..k] == t[..k] && less(s[k], t[k])
  }

  ghost predicate CharBefore(s: string, t: string)
    requires |s| == |t|
  {
    Before((c: char, d: char) => c < d, s, t)
  }

  ghost predicate DigitsBefore(s: seq<nat>, t: seq<nat>)
    requires |s| == |t|
  {
    Before((c: nat, d: nat) => c < d, s, t)
  }

  lemma DigitsBeforeSnoc(s: seq<nat>, t: seq<nat>, x: nat, y: nat)
    requires |s| == |t|
    ensures DigitsBefore(s + [x], t + [y]) <==> DigitsBefore(s, t) || (s == t && x < y)
  {
    var s', t' := s + [x], t + [y];
    if DigitsBefore(s', t') {
      var k :| 0 <= k < |s'| && s'[..k] == t'[..k] && s'[k] < t'[k];
      if k < |s| {
        assert s[..k] == s'[..k] && t[..k] == t'[..k];
        assert s[k] < t[k];
      } else {
        assert s == s'[..k] && t == t'[..k];
      }
    }
    if DigitsBefore(s, t) {
      var k :| 0 <= k < |s| && s[..k] == t[..k] && s[k] < t[k];
      assert s'[..k] == s[..k] && t'[..k] == t[..k];
      assert s'[k] < t'[k];
    }
    if s == t && x < y {
      assert s'[..|s|] == t'[..|s|] && s'[|s|] < t'[|s|];
    }
  }

  /** Lexicographic order on digits is numeric order. */
  lemma {:induction false} DigitOrderIsNumeric(s: seq<nat>, t: seq<nat>)
    requires |s| == |t| && IsDigits(s) && IsDigits(t)
    ensures DigitsBefore(s, t) <==> Number32(s) < Number32(t)
    ensures s == t <==> Number32(s) == Number32(t)
  {
    if s != [] {
      var n := |s| - 1;
      DigitOrderIsNumeric(s[..n], t[..n]);
      DigitsBeforeSnoc(s[..n], t[..n], s[n], t[n]);
      assert s == s[..n] + [s[n]] && t == t[..n] + [t[n]];
    }
  }

  /** The alphabet is sorted, so symbols compare as the digits they stand for. */
  lemma SymbolOrder(d: nat, e: nat)
    requires d < 32 && e < 32
    ensures Symbol(d) < Symbol(e) <==> d < e
    ensures Symbol(d) == Symbol(e) <==> d == e
  {
    AlphabetSorted(d);
    AlphabetSorted(e);
  }

  lemma AlphabetSorted(d: nat)
    requires d < 32
    ensures forall e :: 0 <= e < d ==> Symbol(e) < Symbol(d)
  {
    if d > 0 {
      AlphabetSorted(d - 1);
      assert Symbol(d - 1) < Symbol(d);
    }
  }

  lemma SymbolsOrder(s: seq<nat>, t: seq<nat>)
    requires |s| == |t|
    requires forall i :: 0 <= i < |s| ==> s[i] < 32
    requires forall i :: 0 <= i < |t| ==> t[i] < 32
    ensures CharBefore(Symbols(s), Symbols(t)) <==> DigitsBefore(s, t)
    ensures Symbols(s) == Symbols(t) <==> s == t
  {
    var a, b := Symbols(s), Symbols(t);
    forall i | 0 <= i < |s|
      ensures (a[i] < b[i] <==> s[i] < t[i]) && (a[i] == b[i] <==> s[i] == t[i])
    {
      SymbolOrder(s[i], t[i]);
    }
    forall k | 0 <= k <= |s|
      ensures a[..k] == b[..k] <==> s[..k] == t[..k]
    {
      if a[..k] == b[..k] {
        forall i | 0 <= i < k ensures s[i] == t[i] {
          assert a[..k][i] == b[..k][i];
        }
      }
      if s[..k] == t[..k] {
        forall i | 0 <= i < k ensures a[i] == b[i] {
          assert s[..k][i] == t[..k][i];
        }
      }
    }
    assert a[..|s|] == a && b[..|s|] == b && s[..|s|] == s && t[..|s|] == t;
    if CharBefore(a, b) {
      var k :| 0 <= k < |a| && a[..k] == b[..k] && a[k] < b[k];
      assert s[..k] == t[..k] && s[k] < t[k];
    }
    if DigitsBefore(s, t) {
      var k :| 0 <= k < |s| && s[..k] == t[..k] && s[k] < t[k];
      assert a[..k] == b[..k] && a[k] < b[k];
    }
  }

  /** String order on ids is numeric order, and no two numbers share an id. */
  lemma OrderEmbedding(n: nat, m: nat)
    requires n < TWO_128 && m < TWO_128
    ensures CharBefore(Text(n), Text(m)) <==> n < m
    ensures Text(n) == Text(m) <==> n == m
  {
    Power32Of26();
    DigitsNumber(n, LENGTH, Power32(26));
    DigitsNumber(m, LENGTH, Power32(26));
    DigitOrderIsNumeric(Digits(n, LENGTH), Digits(m, LENGTH));
    SymbolsOrder(Digits(n, LENGTH), Digits(m, LENGTH));
  }

  // ---------- Bit packing ----------

  // Shifts and masks of one byte as division and remainder, a few to a lemma to keep each cheap.
  lemma Shift1(b: bv8) ensures (b >> 1) as nat == b as nat / 2 {
  }

  lemma Shift2(b: bv8) ensures (b >> 2) as nat == b as nat / 4 {
  }

  lemma Shift3(b: bv8)
    ensures (b >> 3) as nat == b as nat / 8
  {
  }

  lemma Shifts4567(b: bv8)
    ensures (b >> 4) as nat == b as nat / 16
    ensures (b >> 5) as nat == b as nat / 32
    ensures (b >> 6) as nat == b as nat / 64
    ensures (b >> 7) as nat == b as nat / 128
  {
  }

  lemma Mask1(b: bv8) ensures (b & 1) as nat == b as nat % 2 {
  }

  lemma Mask3(b: bv8) ensures (b & 3) as nat == b as nat % 4 {
  }

  lemma Mask7(b: bv8) ensures (b & 7) as nat == b as nat % 8 {
  }

  lemma Mask15(b: bv8) ensures (b & 15) as nat == b as nat % 16 {
  }

  lemma Mask31(b: bv8) ensures (b & 31) as nat == b as nat % 32 {
  }

  /** One byte holds the first two digits. */
  lemma HeadDigits(b: bv8)
    ensures ((b & 224) >> 5) as nat == b as nat / 32
    ensures (b & 31) as nat == b as nat % 32
  {
    assert (b & 224) >> 5 == b >> 5;
    Shifts4567(b);
    Mask31(b);
  }

  /** Digits taken from inside one byte. */
  lemma InnerDigits(b: bv8)
    ensures ((b & 248) >> 3) as nat == b as nat / 8
    ensures ((b & 62) >> 1) as nat == b as nat / 2 % 32
    ensures ((b & 124) >> 2) as nat == b as nat / 4 % 32
    ensures (b & 31) as nat == b as nat % 32
  {
    assert (b & 248) >> 3 == b >> 3;
    assert (b & 62) >> 1 == (b >> 1) & 31;
    assert (b & 124) >> 2 == (b >> 2) & 31;
    Shift1(b);
    Shift2(b);
    Shift3(b);
    Mask31(b);
    Mask31(b >> 1);
    Mask31(b >> 2);
  }

  // The four digits that straddle two bytes.
  lemma Straddle32(b: bv8, c: bv8)
    ensures (((b & 7) << 2) | ((c & 192) >> 6)) as nat == b as nat % 8 * 4 + c as nat / 64
  {
    var v := ((b & 7) << 2) | ((c & 192) >> 6);
    assert v >> 2 == b & 7 && v & 3 == c >> 6;
    Mask7(b); Shifts4567(c); Shift2(v); Mask3(v);
  }

  lemma Straddle14(b: bv8, c: bv8)
    ensures (((b & 1) << 4) | ((c & 240) >> 4)) as nat == b as nat % 2 * 16 + c as nat / 16
  {
    var v := ((b & 1) << 4) | ((c & 240) >> 4);
    assert v >> 4 == b & 1 && v & 15 == c >> 4;
    Mask1(b); Shifts4567(c); Shifts4567(v); Mask15(v);
  }

  lemma Straddle41(b: bv8, c: bv8)
    ensures (((b & 15) << 1) | ((c & 128) >> 7)) as nat == b as nat % 16 * 2 + c as nat / 128
  {
    var v := ((b & 15) << 1) | ((c & 128) >> 7);
    assert v >> 1 == b & 15 && v & 1 == c >> 7;
    Mask15(b); Shifts4567(c); Shift1(v); Mask1(v);
  }

  lemma Straddle23(b: bv8, c: bv8)
    ensures (((b & 3) << 3) | ((c & 224) >> 5)) as nat == b as nat % 4 * 8 + c as nat / 32
  {
    var v := ((b & 3) << 3) | ((c & 224) >> 5);
    assert v >> 3 == b & 3 && v & 7 == c >> 5;
    Mask3(b); Shifts4567(c); Shift3(v); Mask7(v);
  }

  lemma FieldBounds(x: nat, y: nat)
    requires x < 256 && y < 256
    ensures x / 8 < 32 && x % 8 * 4 + y / 64 < 32 && x / 2 % 32 < 32 && x % 2 * 16 + y / 16 < 32
    ensures x % 16 * 2 + y / 128 < 32 && x / 4 % 32 < 32 && x % 4 * 8 + y / 32 < 32 && x % 32 < 32
  {
  }

  /** Digit `i` of the eight that five bytes hold, arithmetically. */
  function GroupDigit(b: seq<bv8>, i: nat): (d: nat)
    requires |b| == 5 && i < 8
    ensures d < 32
  {
    FieldBounds(b[0] as nat, b[1] as nat);
    FieldBounds(b[1] as nat, b[2] as nat);
    FieldBounds(b[2] as nat, b[3] as nat);
    FieldBounds(b[3] as nat, b[4] as nat);
    FieldBounds(b[4] as nat, b[4] as nat);
    match i
    case 0 => b[0] as nat / 8
    case 1 => b[0] as nat % 8 * 4 + b[1] as nat / 64
    case 2 => b[1] as nat / 2 % 32
    case 3 => b[1] as nat % 2 * 16 + b[2] as nat / 16
    case 4 => b[2] as nat % 16 * 2 + b[3] as nat / 128
    case 5 => b[3] as nat / 4 % 32
    case 6 => b[3] as nat % 4 * 8 + b[4] as nat / 32
    case _ => b[4] as nat % 32
  }

  function Group(b: seq<bv8>): (ds: seq<nat>)
    requires |b| == 5
    ensures |ds| == 8 && forall i :: 0 <= i < 8 ==> ds[i] < 32
  {
    seq(8, i requires 0 <= i < 8 => GroupDigit(b, i))
  }

  lemma Append5(bytes: seq<bv8>, b: seq<bv8>)
    requires |b| == 5
    ensures Number256(bytes + b) == Number256(bytes) * TWO_40
      + b[0] as nat * 0x1_0000_0000 + b[1] as nat * 0x100_0000 + b[2] as nat * 0x1_0000
      + b[3] as nat * 0x100 + b[4] as nat
  {
    var s0, s1 := bytes + [b[0]], bytes + [b[0], b[1]];
    var s2, s3 := bytes + [b[0], b[1], b[2]], bytes + [b[0], b[1], b[2], b[3]];
    assert s0[..|s0| - 1] == bytes;
    assert s1[..|s1| - 1] == s0;
    assert s2[..|s2| - 1] == s1;
    assert s3[..|s3| - 1] == s2;
    assert (bytes + b)[..|bytes| + 4] == s3;
    assert Number256(s0) == Number256(bytes) * 256 + b[0] as nat;
    assert Number256(s1) == Number256(s0) * 256 + b[1] as nat;
    assert Number256(s2) == Number256(s1) * 256 + b[2] as nat;
    assert Number256(s3) == Number256(s2) * 256 + b[3] as nat;
  }

  lemma Append8(ds: seq<nat>, d: seq<nat>)
    requires |d| == 8
    ensures Number32(ds + d) == Number32(ds) * TWO_40
      + d[0] * 0x8_0000_0000 + d[1] * 0x4000_0000 + d[2] * 0x200_0000 + d[3] * 0x10_0000
      + d[4] * 0x8000 + d[5] * 0x400 + d[6] * 0x20 + d[7]
  {
    Append4(ds, d[..4]);
    Append4(ds + d[..4], d[4..]);
    assert ds + d == ds + d[..4] + d[4..];
  }

  lemma Append4(ds: seq<nat>, d: seq<nat>)
    requires |d| == 4
    ensures Number32(ds + d) == Number32(ds) * 0x10_0000 + d[0] * 0x8000 + d[1] * 0x400 + d[2] * 0x20 + d[3]
  {
    var s0, s1, s2 := ds + [d[0]], ds + [d[0], d[1]], ds + [d[0], d[1], d[2]];
    assert s0[..|s0| - 1] == ds;
    assert s1[..|s1| - 1] == s0;
    assert s2[..|s2| - 1] == s1;
    assert (ds + d)[..|ds| + 3] == s2;
    assert Number32(s0) == Number32(ds) * 32 + d[0];
    assert Number32(s1) == Number32(s0) * 32 + d[1];
    assert Number32(s2) == Number32(s1) * 32 + d[2];
  }

  /** A byte is the sum of the bit fields the digits take from it. */
  lemma ByteFields(x: nat)
    requires x < 256
    ensures x == x / 8 * 8 + x % 8
    ensures x == x / 64 * 64 + x / 2 % 32 * 2 + x % 2
    ensures x == x / 16 * 16 + x % 16
    ensures x == x / 128 * 128 + x / 4 % 32 * 4 + x % 4
    ensures x == x / 32 * 32 + x % 32
  {
  }

  /** Regrouping five bytes into eight digits does not change the number. */
  lemma GroupKeepsNumber(bytes: seq<bv8>, b: seq<bv8>, ds: seq<nat>)
    requires |b| == 5 && Number32(ds) == Number256(bytes)
    ensures Number32(ds + Group(b)) == Number256(bytes + b)
  {
    Append5(bytes, b);
    Append8(ds, Group(b));
    forall i | 0 <= i < 5 { ByteFields(b[i] as nat); }
  }

  /** The first two digits come from one byte. */
  lemma HeadKeepsNumber(b: bv8)
    ensures Number32([b as nat / 32, b as nat % 32]) == Number256([b])
  {
    var x := b as nat;
    assert [b][..0] == [];
    assert Number256([b]) == x;
    HeadValue(x);
  }

  lemma HeadValue(x: nat)
    ensures Number32([x / 32, x % 32]) == x
  {
    var ds := [x / 32, x % 32];
    assert ds[..1] == [x / 32] && ds[..1][..0] == [];
    assert Number32(ds[..1]) == x / 32;
  }

  /** A byte and then groups of five, regrouped into two digits and then groups of eight. */
  function Regroup(bytes: seq<bv8>): (ds: seq<nat>)
    requires |bytes| % 5 == 1
    ensures |ds| == |bytes| / 5 * 8 + 2 && forall i :: 0 <= i < |ds| ==> ds[i] < 32
  {
    if |bytes| == 1 then [bytes[0] as nat / 32, bytes[0] as nat % 32]
    else Regroup(bytes[..|bytes| - 5]) + Group(bytes[|bytes| - 5..])
  }

  lemma {:induction false} RegroupKeepsNumber(bytes: seq<bv8>)
    requires |bytes| % 5 == 1
    ensures Number32(Regroup(bytes)) == Number256(bytes)
  {
    if |bytes| == 1 {
      HeadKeepsNumber(bytes[0]);
      assert bytes == [bytes[0]];
    } else {
      var front, group := bytes[..|bytes| - 5], bytes[|bytes| - 5..];
      RegroupKeepsNumber(front);
      GroupKeepsNumber(front, group, Regroup(front));
      assert bytes == front + group;
    }
  }

  lemma Number256Append(xs: seq<bv8>, ys: seq<bv8>)
    requires |ys| == 10
    ensures Number256(xs + ys) == Number256(xs) * TWO_80 + Number256(ys)
  {
    Append5(xs, ys[..5]);
    Append5(xs + ys[..5], ys[5..]);
    Append5([], ys[..5]);
    Append5(ys[..5], ys[5..]);
    assert xs + ys == xs + ys[..5] + ys[5..] && ys == ys[..5] + ys[5..];
    assert [] + ys[..5] == ys[..5];
  }

  /** The masked and shifted expressions the source writes for one group. */
  function Packed(b0: bv8, b1: bv8, b2: bv8, b3: bv8, b4: bv8): (ds: seq<bv8>)
    ensures |ds| == 8
  {
    [(b0 & 248) >> 3, ((b0 & 7) << 2) | ((b1 & 192) >> 6), (b1 & 62) >> 1,
     ((b1 & 1) << 4) | ((b2 & 240) >> 4), ((b2 & 15) << 1) | ((b3 & 128) >> 7),
     (b3 & 124) >> 2, ((b3 & 3) << 3) | ((b4 & 224) >> 5), b4 & 31]
  }

  // Each packed digit is the arithmetic one, a pair to a lemma to keep each cheap.
  lemma PackedPair0(b: seq<bv8>)
    requires |b| == 5
    ensures Packed(b[0], b[1], b[2], b[3], b[4])[0] as nat == GroupDigit(b, 0)
    ensures Packed(b[0], b[1], b[2], b[3], b[4])[1] as nat == GroupDigit(b, 1)
  {
    InnerDigits(b[0]);
    Straddle32(b[0], b[1]);
  }

  lemma PackedPair2(b: seq<bv8>)
    requires |b| == 5
    ensures Packed(b[0], b[1], b[2], b[3], b[4])[2] as nat == GroupDigit(b, 2)
    ensures Packed(b[0], b[1], b[2], b[3], b[4])[3] as nat == GroupDigit(b, 3)
  {
    InnerDigits(b[1]);
    Straddle14(b[1], b[2]);
  }

  lemma PackedPair4(b: seq<bv8>)
    requires |b| == 5
    ensures Packed(b[0], b[1], b[2], b[3], b[4])[4] as nat == GroupDigit(b, 4)
    ensures Packed(b[0], b[1], b[2], b[3], b[4])[5] as nat == GroupDigit(b, 5)
  {
    Straddle41(b[2], b[3]);
    InnerDigits(b[3]);
  }

  lemma PackedPair6(b: seq<bv8>)
    requires |b| == 5
    ensures Packed(b[0], b[1], b[2], b[3], b[4])[6] as nat == GroupDigit(b, 6)
    ensures Packed(b[0], b[1], b[2], b[3], b[4])[7] as nat == GroupDigit(b, 7)
  {
    Straddle23(b[3], b[4]);
    InnerDigits(b[4]);
  }

  lemma PackedIsGroup(b: seq<bv8>, i: nat)
    requires |b| == 5 && i < 8
    ensures Packed(b[0], b[1], b[2], b[3], b[4])[i] as nat == GroupDigit(b, i)
  {
    PackedPair0(b);
    PackedPair2(b);
    PackedPair4(b);
    PackedPair6(b);
  }

  function PackedSeq(b: seq<bv8>): (ds: seq<bv8>)
    requires |b| == 5
    ensures |ds| == 8
  {
    Packed(b[0], b[1], b[2], b[3], b[4])
  }

  function PackedHead(b: bv8): (ds: seq<bv8>)
    ensures |ds| == 2
  {
    [(b & 224) >> 5, b & 31]
  }

  /** A byte and then groups of five, through the source's expressions. */
  function PackedAll(bytes: seq<bv8>): (ds: seq<bv8>)
    requires |bytes| % 5 == 1
    ensures |ds| == |bytes| / 5 * 8 + 2
  {
    if |bytes| == 1 then PackedHead(bytes[0])
    else PackedAll(bytes[..|bytes| - 5]) + PackedSeq(bytes[|bytes| - 5..])
  }

  lemma {:induction false} PackedAllRegroups(bytes: seq<bv8>, i: nat)
    requires |bytes| % 5 == 1 && i < |PackedAll(bytes)|
    ensures PackedAll(bytes)[i] as nat == Regroup(bytes)[i]
  {
    if |bytes| == 1 {
      HeadDigits(bytes[0]);
    } else {
      var front, group := bytes[..|bytes| - 5], bytes[|bytes| - 5..];
      if i < |PackedAll(front)| {
        PackedAllRegroups(front, i);
      } else {
        PackedIsGroup(group, i - |PackedAll(front)|);
      }
    }
  }

  /** For sixteen bytes: two digits and three groups. */
  lemma PackedUnrolled(raw: seq<bv8>)
    requires |raw| == 16
    ensures PackedAll(raw) == PackedHead(raw[0]) + Packed(raw[1], raw[2], raw[3], raw[4], raw[5])
      + Packed(raw[6], raw[7], raw[8], raw[9], raw[10]) + Packed(raw[11], raw[12], raw[13], raw[14], raw[15])
  {
    var r1, r2 := raw[..11], raw[..6];
    assert r1[..6] == r2 && r1[6..] == raw[6..11] && r2[..1] == [raw[0]] && r2[1..] == raw[1..6];
    assert PackedAll(raw) == PackedAll(r1) + PackedSeq(raw[11..16]);
    assert PackedAll(r1) == PackedAll(r2) + PackedSeq(raw[6..11]);
    assert PackedAll(r2) == PackedAll(r2[..1]) + PackedSeq(raw[1..6]);
  }

  /** All 26 expressions are the digits of the number the raw bytes hold. */
  lemma PackedDigits(raw: seq<bv8>, i: nat)
    requires |raw| == 16 && i < LENGTH
    ensures PackedAll(raw)[i] as nat == Digits(Number256(raw), LENGTH)[i]
  {
    PackedAllRegroups(raw, i);
    RegroupKeepsNumber(raw);
    DigitsUnique(Regroup(raw), Number256(raw));
  }

  const NIBBLES: seq<bv8> := [0, 1, 2, 3, 4, 5, 6, 7, 8, 9, 10, 11, 12, 13, 14, 15]

  lemma NibbleValue(m: nat)
    requires m < 16
    ensures NIBBLES[m] as nat == m
  {
  }

  lemma JoinNibbles(h: bv8, l: bv8)
    requires h as nat < 16 && l as nat < 16
    ensures ((h << 4) | l) as nat == 16 * (h as nat) + l as nat
  {
  }

  function Join(h: nat, l: nat): (b: bv8)
    requires h < 16 && l < 16
    ensures b as nat == 16 * h + l
  {
    NibbleValue(h);
    NibbleValue(l);
    JoinNibbles(NIBBLES[h], NIBBLES[l]);
    (NIBBLES[h] << 4) | NIBBLES[l]
  }

  lemma NibblesOf(n: nat)
    ensures 16 * (n / 16 % 16) + n % 16 == n % 256
  {
  }

  /** The low eight bits. */
  function Byte(n: nat): (b: bv8)
    ensures b as nat == n % 256
  {
    NibblesOf(n);
    Join(n / 16 % 16, n % 16)
  }

  function Stamp(ms: nat): (t: seq<bv8>)
    ensures |t| == 6
  {
    [Byte(ms / 0x100_0000_0000), Byte(ms / 0x1_0000_0000), Byte(ms / 0x100_0000),
     Byte(ms / 0x1_0000), Byte(ms / 0x100), Byte(ms)]
  }

  lemma SixBytes(t: seq<bv8>)
    requires |t| == 6
    ensures Number256(t) == t[0] as nat * TWO_40 + t[1] as nat * 0x1_0000_0000 + t[2] as nat * 0x100_0000
      + t[3] as nat * 0x1_0000 + t[4] as nat * 0x100 + t[5] as nat
  {
    assert t == t[..1] + t[1..];
    Append5(t[..1], t[1..]);
    assert t[..1][..0] == [];
  }

  lemma StampByte(ms: nat, i: nat, d: nat)
    requires i < 6 && d == [0x100_0000_0000, 0x1_0000_0000, 0x100_0000, 0x1_0000, 0x100, 1][i]
    ensures Stamp(ms)[i] as nat == ms / d % 256
  {
  }

  /** The six big-endian timestamp bytes hold the low 48 bits. */
  lemma TimestampBytes(ms: nat)
    ensures Number256(Stamp(ms)) == ms % TWO_48
  {
    SixBytes(Stamp(ms));
    StampByte(ms, 0, 0x100_0000_0000);
    StampByte(ms, 1, 0x1_0000_0000);
    StampByte(ms, 2, 0x100_0000);
    StampByte(ms, 3, 0x1_0000);
    StampByte(ms, 4, 0x100);
    StampByte(ms, 5, 1);
    TimestampValue(ms);
  }

  lemma TimestampValue(ms: nat)
    ensures ms % TWO_48 ==
      ms / 0x100_0000_0000 % 256 * TWO_40 + ms / 0x1_0000_0000 % 256 * 0x1_0000_0000
      + ms / 0x100_0000 % 256 * 0x100_0000 + ms / 0x1_0000 % 256 * 0x1_0000 + ms / 0x100 % 256 * 0x100 + ms % 256
  {
    var q1 := ms / 0x100;
    var q2 := q1 / 0x100;
    var q3 := q2 / 0x100;
    var q4 := q3 / 0x100;
    var q5 := q4 / 0x100;
    assert ms / 0x1_0000 == q2;
    assert ms / 0x100_0000 == q3;
    assert ms / 0x1_0000_0000 == q4;
    assert ms / 0x100_0000_0000 == q5;
    assert ms / TWO_48 == q5 / 0x100;
  }

  /** The 26 expressions of the source, over the sixteen raw bytes. */
  method Render(raw: seq<bv8>) returns (s: string)
    requires |raw| == 16
    ensures s == Text(Number256(raw))
  {
    var head := [
      (raw[0] & 224) >> 5,
      raw[0] & 31
    ];
    var first := [
      (raw[1] & 248) >> 3,
      ((raw[1] & 7) << 2) | ((raw[2] & 192) >> 6),
      (raw[2] & 62) >> 1,
      ((raw[2] & 1) << 4) | ((raw[3] & 240) >> 4),
      ((raw[3] & 15) << 1) | ((raw[4] & 128) >> 7),
      (raw[4] & 124) >> 2,
      ((raw[4] & 3) << 3) | ((raw[5] & 224) >> 5),
      raw[5] & 31
    ];
    var second := [
      (raw[6] & 248) >> 3,
      ((raw[6] & 7) << 2) | ((raw[7] & 192) >> 6),
      (raw[7] & 62) >> 1,
      ((raw[7] & 1) << 4) | ((raw[8] & 240) >> 4),
      ((raw[8] & 15) << 1) | ((raw[9] & 128) >> 7),
      (raw[9] & 124) >> 2,
      ((raw[9] & 3) << 3) | ((raw[10] & 224) >> 5),
      raw[10] & 31
    ];
    var third := [
      (raw[11] & 248) >> 3,
      ((raw[11] & 7) << 2) | ((raw[12] & 192) >> 6),
      (raw[12] & 62) >> 1,
      ((raw[12] & 1) << 4) | ((raw[13] & 240) >> 4),
      ((raw[13] & 15) << 1) | ((raw[14] & 128) >> 7),
      (raw[14] & 124) >> 2,
      ((raw[14] & 3) << 3) | ((raw[15] & 224) >> 5),
      raw[15] & 31
    ];
    var out := head + first + second + third;
    PackedUnrolled(raw);
    s := Spell(raw, out);
  }

  method Spell(ghost raw: seq<bv8>, out: seq<bv8>) returns (s: string)
    requires |raw| == 16 && out == PackedAll(raw)
    ensures s == Text(Number256(raw))
  {
    forall i | 0 <= i < LENGTH
      ensures out[i] as nat == Digits(Number256(raw), LENGTH)[i]
    {
      PackedDigits(raw, i);
    }
    s := seq(26, i requires 0 <= i < 26 => ALPHABET[out[i] as nat]);
  }

  /** The sixteen raw bytes: six of timestamp, big-endian, and ten of entropy. */
  method Pack(ms: nat, entropy: seq<bv8>) returns (raw: array<bv8>)
    requires |entropy| == 10
    ensures fresh(raw) && raw[..] == Stamp(ms) + entropy
  {
    raw := new bv8[16];
    raw[0] := Byte(ms / 0x100_0000_0000);
    raw[1] := Byte(ms / 0x1_0000_0000);
    raw[2] := Byte(ms / 0x100_0000);
    raw[3] := Byte(ms / 0x1_0000);
    raw[4] := Byte(ms / 0x100);
    raw[5] := Byte(ms);
    forall i | 0 <= i < 10 {
      raw[6 + i] := entropy[i];
    }
  }

  /** The source's encoding is the base-32 form of the low 48 bits of `ms` and the entropy. */
  method Encode(ms: nat, entropy: seq<bv8>) returns (s: string)
    requires ms < TWO_64 && |entropy| == 10
    ensures s == Text(Number(ms % TWO_48, entropy))
  {
    var raw := Pack(ms, entropy);
    TimestampBytes(ms);
    Number256Append(Stamp(ms), entropy);
    s := Render(raw[..]);
  }

  // ---------- Reading an id back ----------

  /** The strings this package produces. */
  ghost predicate Canonical(s: string) {
    exists n: nat :: n < TWO_128 && s == Text(n)
  }

  /** The decoding table: the digit of a symbol, or 255 outside the alphabet. */
  function DigitOf(c: char): (d: nat)
    ensures d < 32 ==> Symbol(d) == c
    ensures d < 32 || d == 255
    ensures d == 255 ==> forall e :: 0 <= e < 32 ==> Symbol(e) != c
  {
    DigitFrom(c, 0)
  }

  function DigitFrom(c: char, from: nat): (d: nat)
    requires from <= 32
    decreases 32 - from
    ensures d < 32 ==> Symbol(d) == c
    ensures d < 32 || d == 255
    ensures d == 255 ==> forall e :: from <= e < 32 ==> Symbol(e) != c
  {
    if from == 32 then 255 else if ALPHABET[from] == c then from else DigitFrom(c, from + 1)
  }

  lemma SymbolRoundTrip(d: nat)
    requires d < 32
    ensures DigitOf(Symbol(d)) == d
  {
    var e := DigitOf(Symbol(d));
    SymbolOrder(d, e);
  }

  function Drop32(n: nat, digits: nat): nat {
    if digits == 0 then n else Drop32(n / 32, digits - 1)
  }

  lemma {:induction false} DigitsPrefix(n: nat, len: nat, k: nat)
    requires k <= len
    ensures Digits(n, len)[..k] == Digits(Drop32(n, len - k), k)
  {
    if k < len {
      DigitsPrefix(n / 32, len - 1, k);
      assert Digits(n, len)[..k] == Digits(n / 32, len - 1)[..k];
    }
  }

  lemma Drop4(n: nat, digits: nat)
    requires 4 <= digits
    ensures Drop32(n, digits) == Drop32(n / 0x10_0000, digits - 4)
  {
    assert Drop32(n, digits) == Drop32(n / 32, digits - 1) == Drop32(n / 32 / 32, digits - 2);
    assert Drop32(n / 32 / 32, digits - 2) == Drop32(n / 32 / 32 / 32, digits - 3);
    assert Drop32(n / 32 / 32 / 32, digits - 3) == Drop32(n / 32 / 32 / 32 / 32, digits - 4);
    assert n / 32 / 32 / 32 / 32 == n / 0x10_0000;
  }

  lemma Drop16(n: nat)
    ensures Drop32(n, 16) == n / TWO_80
  {
    var a := n / 0x10_0000;
    var b := a / 0x10_0000;
    var c := b / 0x10_0000;
    var d := c / 0x10_0000;
    Drop4(n, 16);
    Drop4(a, 12);
    Drop4(b, 8);
    Drop4(c, 4);
    assert d == n / TWO_80;
  }

  lemma {:induction false} Number32Bound(ds: seq<nat>)
    requires IsDigits(ds)
    ensures Number32(ds) < Power32(|ds|)
  {
    if ds != [] {
      Number32Bound(ds[..|ds| - 1]);
    }
  }

  lemma Drop25(n: nat)
    ensures Drop32(n, 25) == n / 0x2000_0000_0000_0000_0000_0000_0000_0000
  {
    var a := n / TWO_80;
    Drop16(n);
    var b := a / 0x10_0000;
    var c := b / 0x10_0000;
    DropAdd(n, 16, 9);
    Drop4(a, 9);
    Drop4(b, 5);
    assert Drop32(c, 1) == c / 32;
    assert c / 32 == n / 0x2000_0000_0000_0000_0000_0000_0000_0000;
  }

  lemma {:induction false} DropAdd(n: nat, i: nat, j: nat)
    ensures Drop32(n, i + j) == Drop32(Drop32(n, i), j)
  {
    if i > 0 {
      DropAdd(n / 32, i - 1, j);
    }
  }

  /** The 128-bit numbers are those whose first of 26 digits is below 8. */
  lemma LeadingDigit(n: nat)
    requires n < 4 * TWO_128
    ensures Digits(n, LENGTH)[0] < 8 <==> n < TWO_128
  {
    DigitsPrefix(n, LENGTH, 1);
    Drop25(n);
    var top := n / 0x2000_0000_0000_0000_0000_0000_0000_0000;
    assert Digits(top, 1) == [top % 32];
    assert Digits(n, LENGTH)[0] == Digits(n, LENGTH)[..1][0];
  }

  lemma ValidMeansCanonical(s: string, ds: seq<nat>)
    requires |s| == |ds| == LENGTH
    requires forall i :: 0 <= i < LENGTH ==> ds[i] < 32 && Symbol(ds[i]) == s[i]
    ensures ds[0] < 8 <==> Canonical(s)
  {
    var n := Number32(ds);
    Power32Of26();
    Number32Bound(ds);
    LeadingDigit(n);
    DigitsUnique(ds, n);
    assert Text(n) == s;
    if Canonical(s) {
      var m: nat :| m < TWO_128 && s == Text(m);
      LeadingDigit(m);
      SymbolsOrder(Digits(m, LENGTH), ds);
    }
  }

  lemma CanonicalSymbols(s: string, i: nat)
    requires |s| == LENGTH && i < LENGTH
    ensures Canonical(s) ==> DigitOf(s[i]) < 32
  {
    if Canonical(s) {
      var n: nat :| n < TWO_128 && s == Text(n);
      SymbolRoundTrip(Digits(n, LENGTH)[i]);
    }
  }

  lemma SeventhSymbol()
    ensures Symbol(7) == '7'
  {
    assert ALPHABET == ['0', '1', '2', '3', '4', '5', '6', '7', '8', '9', 'A', 'B', 'C', 'D', 'E', 'F', 'G', 'H', 'J',
      'K', 'M',
                        'N', 'P', 'Q', 'R', 'S', 'T', 'V', 'W', 'X', 'Y', 'Z'];
  }

  /** Strict validity: exactly the strings `Encode` can return. */
  method Valid(s: string) returns (ok: bool)
    ensures ok <==> Canonical(s)
  {
    if |s| != LENGTH {
      return false;
    }
    ghost var ds: seq<nat> := [];
    for i := 0 to |s|
      invariant |ds| == i && forall j :: 0 <= j < i ==> ds[j] < 32 && Symbol(ds[j]) == s[j]
    {
      if DigitOf(s[i]) == 255 {
        CanonicalSymbols(s, i);
        return false;
      }
      ds := ds + [DigitOf(s[i])];
    }
    ValidMeansCanonical(s, ds);
    SymbolOrder(7, ds[0]);
    SeventhSymbol();
    return s[0] <= '7';
  }

  /** The first ten digits of an id are its timestamp. */
  lemma TimestampDigits(n: nat)
    requires n < TWO_128
    ensures Number32(Digits(n, LENGTH)[..10]) == n / TWO_80
  {
    DigitsPrefix(n, LENGTH, 10);
    Drop16(n);
    Power32Of26();
    DigitsNumber(n / TWO_80, 10, Power32(10));
  }

  /** The millisecond an id was minted at; nothing for a string that is not an id. */
  method Timestamp(s: string) returns (ms: Option<nat>)
    ensures ms.None? <==> !Canonical(s)
    ensures forall n: nat :: n < TWO_128 && s == Text(n) ==> ms == Some(n / TWO_80)
  {
    var valid := Valid(s);
    if !valid {
      return None;
    }
    ghost var n: nat :| n < TWO_128 && s == Text(n);
    ghost var ds := Digits(n, LENGTH);
    var value: nat := 0;
    for i := 0 to 10
      invariant value == Number32(ds[..i])
    {
      assert s[i] == Symbol(ds[i]);
      SymbolRoundTrip(ds[i]);
      assert ds[..i + 1][..i] == ds[..i];
      value := value * 32 + DigitOf(s[i]);
    }
    TimestampDigits(n);
    forall m: nat | m < TWO_128 && s == Text(m)
      ensures m == n
    {
      OrderEmbedding(m, n);
    }
    ms := Some(value);
  }

  lemma {:induction false} EntropyBound(bytes: seq<bv8>, bound: nat)
    requires bound == Power256(|bytes|)
    ensures Number256(bytes) < bound
  {
    if bytes != [] {
      EntropyBound(bytes[..|bytes| - 1], Power256(|bytes| - 1));
    }
  }

  function Power256(len: nat): nat {
    if len == 0 then 1 else 256 * Power256(len - 1)
  }

  lemma EntropyBound10(entropy: seq<bv8>)
    requires |entropy| == 10
    ensures Number256(entropy) < TWO_80
  {
    assert Power256(4) == 0x1_0000_0000;
    assert Power256(8) == 0x1_0000_0000_0000_0000;
    assert Power256(10) == TWO_80;
    EntropyBound(entropy, Power256(10));
  }

  /** Encoding is injective and order-preserving on (ms, entropy), and the timestamp comes back. */
  lemma EncodingIsAnOrderEmbedding(ms: nat, e: seq<bv8>, ms': nat, e': seq<bv8>)
    requires ms < TWO_48 && ms' < TWO_48 && |e| == |e'| == 10
    ensures Canonical(Text(Number(ms, e)))
    ensures CharBefore(Text(Number(ms, e)), Text(Number(ms', e'))) <==>
      ms < ms' || (ms == ms' && Number256(e) < Number256(e'))
    ensures Text(Number(ms, e)) == Text(Number(ms', e')) <==> ms == ms' && e == e'
    ensures Number(ms, e) / TWO_80 == ms
  {
    EntropyBound10(e);
    EntropyBound10(e');
    OrderEmbedding(Number(ms, e), Number(ms', e'));
    if Number256(e) == Number256(e') {
      BytesUnique(e, e');
    }
  }

  lemma {:induction false} BytesUnique(a: seq<bv8>, b: seq<bv8>)
    requires |a| == |b| && Number256(a) == Number256(b)
    ensures a == b
  {
    if a != [] {
      var n := |a| - 1;
      assert a[n] as nat == b[n] as nat;
      BytesUnique(a[..n], b[..n]);
      assert a == a[..n] + [a[n]] && b == b[..n] + [b[n]];
    }
  }
}
