/** Student identifiers: `f'STU{i:04d}'`, the letters "STU" followed by the
    row number in decimal, left-padded with zeros to at least four digits. */
module StudentIds {

  const Prefix: string := "STU"
  const Width: nat := 4

  function DigitChar(d: int): (c: char)
    requires 0 <= d < 10
    ensures '0' <= c <= '9' && c as int - '0' as int == d
  {
    ('0' as int + d) as char
  }

  predicate IsDigits(s: string)
  {
    forall k :: 0 <= k < |s| ==> '0' <= s[k] <= '9'
  }

  /** The value of a string of decimal digits, most significant first. */
  function DigitsValue(s: string): nat
  {
    if s == [] then 0
    else
      var d := s[|s| - 1] as int - '0' as int;
      DigitsValue(s[..|s| - 1]) * 10 + (if 0 <= d < 10 then d else 0)
  }

  /** The shortest decimal rendering of n. */
  function Decimal(n: nat): (s: string)
    ensures 1 <= |s| && IsDigits(s)
    ensures n < 10 ==> |s| == 1
    ensures n >= 10 ==> |s| >= 2
  {
    if n < 10 then [DigitChar(n)] else Decimal(n / 10) + [DigitChar(n % 10)]
  }

  /** Left-pads s with '0' up to the given width; longer strings are kept. */
  function ZeroPad(s: string, width: nat): (r: string)
    ensures |r| == if |s| >= width then |s| else width
    ensures r[|r| - |s|..] == s
    ensures forall k :: 0 <= k < |r| - |s| ==> r[k] == '0'
  {
    if |s| >= width then s else seq(width - |s|, _ => '0') + s
  }

  function StudentId(i: nat): string
  {
    Prefix + ZeroPad(Decimal(i), Width)
  }

  lemma {:induction false} DecimalValue(n: nat)
    ensures DigitsValue(Decimal(n)) == n
  {
    if n >= 10 {
      var s := Decimal(n);
      assert s[..|s| - 1] == Decimal(n / 10);
      DecimalValue(n / 10);
    }
  }

  lemma {:induction false} LeadingZerosValue(z: nat, s: string)
    ensures DigitsValue(seq(z, _ => '0') + s) == DigitsValue(s)
    decreases z, |s|
  {
    var zs := seq(z, _ => '0');
    if s == [] {
      assert zs + s == zs;
      if z > 0 {
        assert zs[..z - 1] == seq(z - 1, _ => '0');
        LeadingZerosValue(z - 1, []);
        assert seq(z - 1, _ => '0') + [] == seq(z - 1, _ => '0');
      }
    } else {
      assert (zs + s)[..|zs + s| - 1] == zs + s[..|s| - 1];
      LeadingZerosValue(z, s[..|s| - 1]);
    }
  }

  lemma PaddedValue(s: string, width: nat)
    ensures DigitsValue(ZeroPad(s, width)) == DigitsValue(s)
  {
    var r := ZeroPad(s, width);
    var z := |r| - |s|;
    assert r == seq(z, _ => '0') + s;
    LeadingZerosValue(z, s);
  }

  /** Reading the digits after the prefix gives back the row number. */
  lemma StudentIdRoundTrip(i: nat)
    ensures |StudentId(i)| >= |Prefix| + Width
    ensures StudentId(i)[..|Prefix|] == Prefix
    ensures IsDigits(StudentId(i)[|Prefix|..])
    ensures DigitsValue(StudentId(i)[|Prefix|..]) == i
  {
    var body := ZeroPad(Decimal(i), Width);
    assert StudentId(i)[|Prefix|..] == body;
    PaddedValue(Decimal(i), Width);
    DecimalValue(i);
  }

  /** Rows with different numbers get different identifiers. */
  lemma StudentIdInjective(i: nat, j: nat)
    requires i != j
    ensures StudentId(i) != StudentId(j)
  {
    StudentIdRoundTrip(i);
    StudentIdRoundTrip(j);
  }

  function Pow10(k: nat): nat
  {
    if k == 0 then 1 else 10 * Pow10(k - 1)
  }

  lemma {:induction false} DecimalLength(n: nat, k: nat)
    requires 1 <= k && n < Pow10(k)
    ensures |Decimal(n)| <= k
  {
    if n >= 10 {
      DecimalLength(n / 10, k - 1);
    }
  }

  /** Row numbers below 10000 give identifiers of exactly seven characters;
      larger ones are longer, never cut. */
  lemma StudentIdLength(i: nat)
    ensures i < 10000 ==> |StudentId(i)| == |Prefix| + Width
    ensures i >= 10000 ==> |StudentId(i)| > |Prefix| + Width
  {
    if i < 10000 {
      assert Pow10(4) == 10000;
      DecimalLength(i, 4);
    } else {
      DecimalAtLeast(i, 4);
    }
  }

  lemma {:induction false} DecimalAtLeast(n: nat, k: nat)
    requires Pow10(k) <= n
    ensures |Decimal(n)| > k
  {
    if k > 0 {
      DecimalAtLeast(n / 10, k - 1);
    }
  }
}
