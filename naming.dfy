/**
 * Model file names: each model's geometry is saved as `{mid:04d}.ply`, its
 * enumeration index in decimal, left-padded with zeros to at least four digits.
 */
module Naming {

  predicate IsDigit(c: char) { '0' <= c <= '9' }

  function DigitChar(d: nat): (c: char)
    requires d < 10
    ensures IsDigit(c)
  {
    ['0', '1', '2', '3', '4', '5', '6', '7', '8', '9'][d]
  }

  function DigitValue(c: char): nat
    requires IsDigit(c)
  {
    (c as int - '0' as int) as nat
  }

  /** Decimal representation of `n` without leading zeros. */
  function Decimal(n: nat): (s: string)
    ensures |s| >= 1 && forall i :: 0 <= i < |s| ==> IsDigit(s[i])
    ensures s[0] == '0' <==> n == 0
  {
    if n < 10 then [DigitChar(n)] else Decimal(n / 10) + [DigitChar(n % 10)]
  }

  function Zeros(k: nat): (s: string)
    ensures |s| == k && forall i :: 0 <= i < k ==> s[i] == '0'
  {
    seq(k, _ => '0')
  }

  /** `f"{n:04d}"` for a non-negative `n`. */
  function Padded4(n: nat): (s: string)
    ensures |s| == if |Decimal(n)| < 4 then 4 else |Decimal(n)|
    ensures forall i :: 0 <= i < |s| ==> IsDigit(s[i])
  {
    var d := Decimal(n);
    (if |d| < 4 then Zeros(4 - |d|) else []) + d
  }

  /** The value of a string of decimal digits, as in `int(s)`. */
  function ParseDecimal(s: string): nat
    requires forall i :: 0 <= i < |s| ==> IsDigit(s[i])
  {
    if |s| == 0 then 0 else ParseDecimal(s[..|s| - 1]) * 10 + DigitValue(s[|s| - 1])
  }

  lemma {:induction false} ParseDecimalRoundTrip(n: nat)
    ensures ParseDecimal(Decimal(n)) == n
  {
    if n >= 10 {
      var s := Decimal(n);
      assert s[..|s| - 1] == Decimal(n / 10);
      ParseDecimalRoundTrip(n / 10);
    }
  }

  /** Leading digits worth zero do not change the value of what follows them. */
  lemma {:induction false} ParseSkipsZeroPrefix(a: string, b: string)
    requires forall i :: 0 <= i < |a| ==> IsDigit(a[i])
    requires forall i :: 0 <= i < |b| ==> IsDigit(b[i])
    requires ParseDecimal(a) == 0
    ensures ParseDecimal(a + b) == ParseDecimal(b)
  {
    if |b| == 0 {
      assert a + b == a;
    } else {
      assert (a + b)[..|a + b| - 1] == a + b[..|b| - 1];
      ParseSkipsZeroPrefix(a, b[..|b| - 1]);
    }
  }

  lemma {:induction false} ZerosParseToZero(k: nat)
    ensures ParseDecimal(Zeros(k)) == 0
  {
    if k > 0 {
      assert Zeros(k)[..k - 1] == Zeros(k - 1);
      ZerosParseToZero(k - 1);
    }
  }

  /** The padded name reads back as the index it was made from. */
  lemma Padded4RoundTrip(n: nat)
    ensures ParseDecimal(Padded4(n)) == n
  {
    var d := Decimal(n);
    var z: string := if |d| < 4 then Zeros(4 - |d|) else [];
    if |d| < 4 { ZerosParseToZero(4 - |d|); }
    ParseSkipsZeroPrefix(z, d);
    ParseDecimalRoundTrip(n);
  }

  /** `f"{mid:04d}.ply"`. */
  function PlyName(mid: nat): (name: string)
    ensures |name| >= 8 && name[|name| - 4..] == ".ply"
    ensures forall i :: 0 <= i < |name| - 4 ==> IsDigit(name[i])
  {
    Padded4(mid) + ".ply"
  }

  /** Distinct models never share a geometry file. */
  lemma PlyNameInjective(m1: nat, m2: nat)
    requires m1 != m2
    ensures PlyName(m1) != PlyName(m2)
  {
    if PlyName(m1) == PlyName(m2) {
      var a, b := Padded4(m1), Padded4(m2);
      assert |a| == |b|;
      assert a == PlyName(m1)[..|a|] == PlyName(m2)[..|b|] == b;
      Padded4RoundTrip(m1);
      Padded4RoundTrip(m2);
    }
  }

  /** `output_dir / name`. */
  function JoinPath(dir: string, name: string): string
  {
    dir + "/" + name
  }
}
