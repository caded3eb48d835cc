/** UTF-8 as section 3 of RFC 3629 defines it, and the byte-boundary arithmetic that the
    host uses to shorten text.  A Rust `str` is modelled as a `string`; its bytes are
    `Encode(s)`, its length in bytes is `|Encode(s)|`. */
module Utf8 {

  newtype byte = b: int | 0 <= b < 256

  predicate IsContinuation(b: byte) {
    0x80 <= b < 0xC0
  }

  function EncodeChar(c: char): (r: seq<byte>)
    ensures 1 <= |r| <= 4
    ensures !IsContinuation(r[0])
    ensures forall i | 1 <= i < |r| :: IsContinuation(r[i])
  {
    var v := c as int;
    if v < 0x80 then [v as byte]
    else if v < 0x800 then [(0xC0 + v / 0x40) as byte, (0x80 + v % 0x40) as byte]
    else if v < 0x1_0000 then
      [(0xE0 + v / 0x1000) as byte, (0x80 + v / 0x40 % 0x40) as byte, (0x80 + v % 0x40) as byte]
    else
      [(0xF0 + v / 0x4_0000) as byte, (0x80 + v / 0x1000 % 0x40) as byte,
       (0x80 + v / 0x40 % 0x40) as byte, (0x80 + v % 0x40) as byte]
  }

  function Encode(s: string): (r: seq<byte>)
    ensures |s| <= |r|
  {
    if s == "" then [] else EncodeChar(s[0]) + Encode(s[1..])
  }

  /** The code point that the bytes starting with a lead byte stand for, per the table of section 3. */
  function CodePoint(b: seq<byte>): nat
    requires b != []
  {
    if b[0] < 0x80 then b[0] as nat
    else if b[0] < 0xE0 && |b| >= 2 then (b[0] as nat % 0x20) * 0x40 + b[1] as nat % 0x40
    else if b[0] < 0xF0 && |b| >= 3 then
      (b[0] as nat % 0x10) * 0x1000 + (b[1] as nat % 0x40) * 0x40 + b[2] as nat % 0x40
    else if |b| >= 4 then
      (b[0] as nat % 0x08) * 0x4_0000 + (b[1] as nat % 0x40) * 0x1000 + (b[2] as nat % 0x40) * 0x40 + b[3] as nat % 0x40
    else 0
  }

  /** The bytes of a character stand for it, in the shortest form. */
  lemma CharReads(c: char)
    ensures CodePoint(EncodeChar(c)) == c as nat
    ensures |EncodeChar(c)| == if c as nat < 0x80 then 1 else if c as nat < 0x800 then 2 else if c as nat < 0x1_0000 then 3 else 4
  {
    var v := c as nat;
    Sixes(v);
    if v < 0x80 {
    } else if v < 0x800 {
      TwoBytes(v / 0x40, v % 0x40);
    } else if v < 0x1_0000 {
      ThreeBytes(v / 0x1000, v / 0x40 % 0x40, v % 0x40);
    } else {
      FourBytes(v / 0x4_0000, v / 0x1000 % 0x40, v / 0x40 % 0x40, v % 0x40);
    }
  }

  /** A number in groups of six bits. */
  lemma Sixes(v: nat)
    ensures v == 0x40 * (v / 0x40) + v % 0x40
    ensures v == 0x1000 * (v / 0x1000) + 0x40 * (v / 0x40 % 0x40) + v % 0x40
    ensures v == 0x4_0000 * (v / 0x4_0000) + 0x1000 * (v / 0x1000 % 0x40) + 0x40 * (v / 0x40 % 0x40) + v % 0x40
  {
    var a, b, c := v / 0x40, v / 0x40 / 0x40, v / 0x40 / 0x40 / 0x40;
    Quotient(v, 0x1000, b, 0x40 * (a % 0x40) + v % 0x40);
    Quotient(v, 0x4_0000, c, 0x1000 * (b % 0x40) + 0x40 * (a % 0x40) + v % 0x40);
  }

  lemma Quotient(v: nat, d: nat, q: nat, r: nat)
    requires d in {0x1000, 0x4_0000} && v == d * q + r && r < d
    ensures v / d == q
  {
  }

  lemma TwoBytes(a: nat, b: nat)
    requires a < 0x20 && b < 0x40
    ensures CodePoint([(0xC0 + a) as byte, (0x80 + b) as byte]) == 0x40 * a + b
  {
  }

  lemma ThreeBytes(a: nat, b: nat, c: nat)
    requires a < 0x10 && b < 0x40 && c < 0x40
    ensures CodePoint([(0xE0 + a) as byte, (0x80 + b) as byte, (0x80 + c) as byte]) == 0x1000 * a + 0x40 * b + c
  {
  }

  lemma FourBytes(a: nat, b: nat, c: nat, d: nat)
    requires a < 0x08 && b < 0x40 && c < 0x40 && d < 0x40
    ensures CodePoint([(0xF0 + a) as byte, (0x80 + b) as byte, (0x80 + c) as byte, (0x80 + d) as byte])
         == 0x4_0000 * a + 0x1000 * b + 0x40 * c + d
  {
  }

  lemma {:induction false} EncodeConcat(a: string, b: string)
    ensures Encode(a + b) == Encode(a) + Encode(b)
  {
    if a == "" {
      assert a + b == b;
    } else {
      var c, rest := a[0], a[1..];
      assert a == [c] + rest && a + b == [c] + (rest + b);
      EncodeCons(c, rest);
      EncodeCons(c, rest + b);
      EncodeConcat(rest, b);
      BytesAssoc(EncodeChar(c), Encode(rest), Encode(b));
    }
  }

  lemma {:induction false} EncodeCons(c: char, rest: string)
    ensures Encode([c] + rest) == EncodeChar(c) + Encode(rest)
  {
    assert ([c] + rest)[1..] == rest;
  }

  lemma BytesAssoc(a: seq<byte>, b: seq<byte>, c: seq<byte>)
    ensures a + b + c == a + (b + c)
  {
  }

  /** Text made of one-byte characters, such as the names and digits the host writes itself. */
  predicate IsAscii(s: string) {
    forall i | 0 <= i < |s| :: s[i] as int < 0x80
  }

  lemma {:induction false} AsciiLength(s: string)
    requires IsAscii(s)
    ensures |Encode(s)| == |s|
  {
    if s != "" {
      assert s[0] as int < 0x80;
      assert forall i | 0 <= i < |s[1..]| :: s[1..][i] == s[i + 1];
      AsciiLength(s[1..]);
    }
  }

  /** `str::is_char_boundary`: the ends, and every byte that does not continue a character. */
  predicate IsCharBoundary(bytes: seq<byte>, i: nat) {
    i == 0 || i == |bytes| || (i < |bytes| && !IsContinuation(bytes[i]))
  }

  /** `&s[..end]`, which is only defined at a character boundary. */
  function SliceTo(s: string, end: nat): (p: string)
    requires end <= |Encode(s)| && IsCharBoundary(Encode(s), end)
    ensures p <= s
    ensures Encode(p) == Encode(s)[..end]
  {
    if end == 0 then ""
    else
      var head := EncodeChar(s[0]);
      assert end >= |head| by {
        assert Encode(s) == head + Encode(s[1..]);
        assert forall i | 0 < i < |head| :: IsContinuation((head + Encode(s[1..]))[i]);
      }
      assert IsCharBoundary(Encode(s[1..]), end - |head|) by {
        if |head| < end < |Encode(s)| { assert Encode(s)[end] == Encode(s[1..])[end - |head|]; }
      }
      [s[0]] + SliceTo(s[1..], end - |head|)
  }

  /** The number of leading characters that fit in `max` bytes. */
  function Fitting(s: string, max: nat): (k: nat)
    ensures k <= |s|
  {
    if s == "" || |EncodeChar(s[0])| > max then 0
    else 1 + Fitting(s[1..], max - |EncodeChar(s[0])|)
  }

  /** `Fitting` is the longest prefix that fits: its bytes fit, one more character does not. */
  lemma {:induction false} FittingIsLongest(s: string, max: nat)
    ensures |Encode(s[..Fitting(s, max)])| <= max
    ensures Fitting(s, max) < |s| ==> |Encode(s[..Fitting(s, max) + 1])| > max
    ensures forall k | 0 <= k <= |s| && |Encode(s[..k])| <= max :: k <= Fitting(s, max)
  {
    if s != "" {
      var c := |EncodeChar(s[0])|;
      forall k | 1 <= k <= |s| ensures |Encode(s[..k])| == c + |Encode(s[1..][..k - 1])| {
        assert s[..k][0] == s[0] && s[..k][1..] == s[1..][..k - 1];
      }
      if c <= max {
        FittingIsLongest(s[1..], max - c);
      }
    }
  }

  /** `kept` is a prefix of `whole` that fits in `max` bytes, and no longer prefix does. */
  ghost predicate LongestWithin(kept: string, whole: string, max: nat) {
    kept <= whole && |Encode(kept)| <= max && forall more: string | kept < more <= whole :: |Encode(more)| > max
  }

  lemma {:induction false} FittingLongestWithin(s: string, max: nat)
    ensures LongestWithin(s[..Fitting(s, max)], s, max)
  {
    var kept := s[..Fitting(s, max)];
    FittingIsLongest(s, max);
    forall more: string | kept < more <= s ensures |Encode(more)| > max {
      assert more == s[..|more|];
    }
  }

  /** A byte position is a character boundary exactly when it ends some prefix of characters. */
  lemma {:induction false} BoundaryIffPrefix(s: string, i: nat)
    requires i <= |Encode(s)|
    ensures IsCharBoundary(Encode(s), i) <==> exists k :: 0 <= k <= |s| && i == |Encode(s[..k])|
  {
    if IsCharBoundary(Encode(s), i) {
      var p := SliceTo(s, i);
      assert p == s[..|p|];
    }
    forall k | 0 <= k <= |s| && i == |Encode(s[..k])| ensures IsCharBoundary(Encode(s), i) {
      EncodeConcat(s[..k], s[k..]);
      assert s[..k] + s[k..] == s;
      if k < |s| { assert Encode(s)[i] == Encode(s[k..])[0] == EncodeChar(s[k])[0]; }
    }
  }

  /** Stepping back from `max` to a boundary finds the longest prefix that fits in `max` bytes. */
  method FloorCharBoundary(s: string, max: nat) returns (end: nat)
    requires max < |Encode(s)|
    ensures end <= max && IsCharBoundary(Encode(s), end)
    ensures SliceTo(s, end) == s[..Fitting(s, max)]
  {
    var bytes := Encode(s);
    end := max;
    while end > 0 && !IsCharBoundary(bytes, end)
      invariant end <= max
      invariant forall i | end < i <= max :: !IsCharBoundary(bytes, i)
    {
      end := end - 1;
    }
    LastBoundary(s, max, end);
  }

  /** The last character boundary up to `max` ends the longest prefix that fits. */
  lemma {:induction false} LastBoundary(s: string, max: nat, end: nat)
    requires end <= max < |Encode(s)| && IsCharBoundary(Encode(s), end)
    requires forall i | end < i <= max :: !IsCharBoundary(Encode(s), i)
    ensures SliceTo(s, end) == s[..Fitting(s, max)]
  {
    var k, p := Fitting(s, max), SliceTo(s, end);
    assert p == s[..|p|];
    FittingIsLongest(s, max);
    if |p| < k {
      LongerPrefix(s, |p|, k);
      BoundaryIffPrefix(s, |Encode(s[..k])|);
    }
  }

  lemma LongerPrefix(s: string, j: nat, k: nat)
    requires j < k <= |s|
    ensures |Encode(s[..j])| < |Encode(s[..k])|
  {
    EncodeConcat(s[..j], s[j..k]);
    assert s[..j] + s[j..k] == s[..k];
  }

  /** Decimal digits, as `Display` prints an unsigned integer. */
  function Decimal(n: nat): (s: string)
    ensures |s| > 0
    ensures IsAscii(s)
  {
    var digit := ['0' + (n % 10) as char];
    if n < 10 then digit else Decimal(n / 10) + digit
  }

  function DecimalValue(s: string): int {
    if s == "" then 0 else 10 * DecimalValue(s[..|s| - 1]) + (s[|s| - 1] as int - '0' as int)
  }

  /** The digits of a number, read from the left, are that number, with no leading zero. */
  lemma {:induction false} DecimalReads(n: nat)
    ensures DecimalValue(Decimal(n)) == n
    ensures forall i | 0 <= i < |Decimal(n)| :: '0' <= Decimal(n)[i] <= '9'
    ensures n > 0 ==> Decimal(n)[0] != '0'
  {
    var s := Decimal(n);
    if n < 10 {
      assert s[..0] == "";
    } else {
      DecimalReads(n / 10);
      assert s[..|s| - 1] == Decimal(n / 10);
    }
  }

  lemma {:induction false} DecimalInjective(m: nat, n: nat)
    requires Decimal(m) == Decimal(n)
    ensures m == n
  {
    var a, b := Decimal(m), Decimal(n);
    assert a[|a| - 1] == '0' + (m % 10) as char && b[|b| - 1] == '0' + (n % 10) as char;
    assert m % 10 == n % 10;
    if m >= 10 && n >= 10 {
      assert Decimal(m / 10) == a[..|a| - 1] == b[..|b| - 1] == Decimal(n / 10);
      DecimalInjective(m / 10, n / 10);
    }
  }
}
