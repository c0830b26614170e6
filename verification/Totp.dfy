/**
  The truncation and formatting of one-time passwords (doubles/totp.py, generate_otp), after
  section 5.3 of RFC 4226 and section 4.2 of RFC 6238. The digest is given.
*/
module Totp {
  import opened ByteStrings

  const DIGITS := 6

  /** An HMAC-SHA-1 digest of the time step. */
  type Digest = d: Bytes | |d| == 20 witness seq(20, _ => 0 as Byte)

  function Offset(digest: Digest): nat {
    (digest[19] % 16) as nat
  }

  function BigEndian(bytes: Bytes): nat {
    if bytes == [] then 0 else 256 * BigEndian(bytes[..|bytes| - 1]) + bytes[|bytes| - 1] as nat
  }

  // The 31 low bits of the four bytes at the offset.
  function Code(digest: Digest): (code: nat)
    ensures code < 0x8000_0000
    ensures Offset(digest) + 4 <= |digest|
  {
    var offset := Offset(digest);
    BigEndian(digest[offset..offset + 4]) % 0x8000_0000
  }

  function Digit(d: nat): char
    requires d < 10
  {
    '0' + d as char
  }

  /** str(n) */
  function Decimal(n: nat): string {
    if n < 10 then [Digit(n)] else Decimal(n / 10) + [Digit(n % 10)]
  }

  function Zeros(n: nat): string {
    seq(n, _ => '0')
  }

  /** s.zfill(width) for a string without a sign. */
  function ZFill(s: string, width: nat): string {
    if |s| >= width then s else Zeros(width - |s|) + s
  }

  function LastChars(s: string, n: nat): string
    requires n <= |s|
  {
    s[|s| - n..]
  }

  function GenerateOtp(digest: Digest): string {
    LastChars(ZFill(Decimal(Code(digest)), DIGITS), DIGITS)
  }

  // ---------- What the digits are worth ----------

  predicate AreDigits(s: string) {
    forall i :: 0 <= i < |s| ==> '0' <= s[i] <= '9'
  }

  /** The number that a string of digits stands for. */
  function Value(s: string): nat
    requires AreDigits(s)
  {
    if s == [] then 0 else 10 * Value(s[..|s| - 1]) + (s[|s| - 1] - '0') as nat
  }

  function PowerOfTen(n: nat): (p: nat)
    ensures p > 0
  {
    if n == 0 then 1 else 10 * PowerOfTen(n - 1)
  }

  /** Reading a printed number gives it back. */
  lemma {:induction false} DecimalHasValue(n: nat)
    ensures AreDigits(Decimal(n)) && Value(Decimal(n)) == n
  {
    if n >= 10 {
      DecimalHasValue(n / 10);
      assert Decimal(n)[..|Decimal(n)| - 1] == Decimal(n / 10);
    }
  }

  lemma {:induction false} ZerosAddNothing(n: nat, s: string)
    requires AreDigits(s)
    ensures AreDigits(Zeros(n) + s) && Value(Zeros(n) + s) == Value(s)
    decreases n, |s|
  {
    if s != [] {
      ZerosAddNothing(n, s[..|s| - 1]);
      assert (Zeros(n) + s)[..n + |s| - 1] == Zeros(n) + s[..|s| - 1];
    } else if n > 0 {
      ZerosAddNothing(n - 1, []);
      assert (Zeros(n) + [])[..n - 1] == Zeros(n - 1) + [];
    }
  }

  lemma CutDigit(value: nat, digit: nat, p: nat)
    requires p > 0 && digit < 10
    ensures (10 * value + digit) % (10 * p) == 10 * (value % p) + digit
  {
    var q, r := value / p, value % p;
    assert 10 * value + digit == (10 * p) * q + (10 * r + digit);
    UniqueRemainder(10 * p, q, 10 * r + digit);
  }

  lemma MultipleIsAtLeast(d: nat, k: int)
    requires k >= 1
    ensures d * k >= d
  {
    assert d * k == d * (k - 1) + d;
  }

  lemma SmallMultipleIsZero(d: nat, k: int)
    requires -(d as int) < d * k < d
    ensures k == 0
  {
    if k >= 1 {
      MultipleIsAtLeast(d, k);
    } else if k <= -1 {
      MultipleIsAtLeast(d, -k);
    }
  }

  lemma UniqueRemainder(d: nat, q: nat, r: nat)
    requires r < d
    ensures (d * q + r) % d == r
  {
    var n := d * q + r;
    var k := n / d - q;
    assert n == d * (n / d) + n % d;
    assert d * k == d * (n / d) - d * q;
    SmallMultipleIsZero(d, k);
  }

  /** The last k digits are the number modulo the k-th power of ten. */
  lemma {:induction false} LastDigits(s: string, k: nat)
    requires AreDigits(s) && k <= |s|
    ensures AreDigits(LastChars(s, k)) && Value(LastChars(s, k)) == Value(s) % PowerOfTen(k)
    decreases k
  {
    if k > 0 {
      var shorter := s[..|s| - 1];
      LastDigits(shorter, k - 1);
      assert LastChars(s, k)[..k - 1] == LastChars(shorter, k - 1);
      CutDigit(Value(shorter), (s[|s| - 1] - '0') as nat, PowerOfTen(k - 1));
    }
  }

  /** For every digest: six digits, leading zeros included, whose value is the code modulo a million. */
  lemma OtpIsCodeModuloMillion(digest: Digest)
    ensures |GenerateOtp(digest)| == DIGITS && AreDigits(GenerateOtp(digest))
    ensures Value(GenerateOtp(digest)) == Code(digest) % 1_000_000
  {
    var s := Decimal(Code(digest));
    DecimalHasValue(Code(digest));
    if |s| < DIGITS {
      ZerosAddNothing(DIGITS - |s|, s);
    }
    LastDigits(ZFill(s, DIGITS), DIGITS);
    MillionIsPowerOfTen();
  }

  lemma MillionIsPowerOfTen()
    ensures PowerOfTen(DIGITS) == 1_000_000
  {
    assert PowerOfTen(1) == 10;
    assert PowerOfTen(2) == 100;
    assert PowerOfTen(3) == 1000;
    assert PowerOfTen(4) == 10000;
    assert PowerOfTen(5) == 100000;
  }

  lemma {:induction false} ByteAtEnd(bytes: Bytes, b: Byte)
    ensures BigEndian(bytes + [b]) == 256 * BigEndian(bytes) + b as nat
  {
    assert (bytes + [b])[..|bytes|] == bytes;
  }

  lemma {:induction false} FourBytes(a: Byte, b: Byte, c: Byte, d: Byte)
    ensures BigEndian([a, b, c, d]) == 0x100_0000 * a as nat + 0x1_0000 * b as nat + 0x100 * c as nat + d as nat
  {
    ByteAtEnd([], a);
    ByteAtEnd([a], b);
    ByteAtEnd([a, b], c);
    ByteAtEnd([a, b, c], d);
    assert [] + [a] == [a] && [a] + [b] == [a, b];
    assert [a, b] + [c] == [a, b, c] && [a, b, c] + [d] == [a, b, c, d];
  }

  lemma TopBitIsDropped(top: nat, rest: nat)
    requires rest < 0x100_0000
    ensures (0x100_0000 * top + rest) % 0x8000_0000 == 0x100_0000 * (top % 128) + rest
  {
    UniqueRemainder(0x8000_0000, top / 128, 0x100_0000 * (top % 128) + rest);
  }

  /**
    The code is the four bytes from the place that the low half of the last byte tells, without
    the top bit of the first of them.
  */
  lemma {:induction false} CodeByBytes(digest: Digest, high: nat, low: nat)
    requires digest[19] as nat == 16 * high + low && low < 16
    ensures Code(digest) == 0x100_0000 * (digest[low] as nat % 128) + 0x1_0000 * digest[low + 1] as nat
                            + 0x100 * digest[low + 2] as nat + digest[low + 3] as nat
  {
    assert Offset(digest) == low;
    var rest := 0x1_0000 * digest[low + 1] as nat + 0x100 * digest[low + 2] as nat + digest[low + 3] as nat;
    assert digest[low..low + 4] == [digest[low], digest[low + 1], digest[low + 2], digest[low + 3]];
    FourBytes(digest[low], digest[low + 1], digest[low + 2], digest[low + 3]);
    TopBitIsDropped(digest[low] as nat, rest);
  }

  /** The example of section 5.4 of RFC 4226, as far as its digest matters; the password is 872921. */
  lemma {:induction false} RfcExample(digest: Digest)
    requires digest[19] == 0x5a
    requires digest[10] == 0x50 && digest[11] == 0xef && digest[12] == 0x7f && digest[13] == 0x19
    ensures Code(digest) == 1_357_872_921
  {
    CodeByBytes(digest, 5, 10);
  }
}
