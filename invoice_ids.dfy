/** Invoice identifiers: the decimal form of a number, left-padded with
    '0' to at least three characters (`String(n).padStart(3, '0')`). */
module InvoiceIds {

  predicate IsDigit(c: char) { '0' <= c <= '9' }

  function DigitChar(d: nat): (c: char)
    requires d < 10
    ensures IsDigit(c)
  {
    (d + '0' as int) as char
  }

  /** The value of a decimal digit; any other character reads as 0. */
  function DigitValue(c: char): nat {
    if IsDigit(c) then c as int - '0' as int else 0
  }

  function Pow10(k: nat): nat {
    if k == 0 then 1 else 10 * Pow10(k - 1)
  }

  /** The value of a string of decimal digits, read from the left. */
  function ParseDecimal(s: string): nat {
    if s == [] then 0
    else 10 * ParseDecimal(s[..|s| - 1]) + DigitValue(s[|s| - 1])
  }

  /** `String(n)` for a natural number: its decimal digits with no leading
      zero. Reading them back gives `n`, and a number below 10^k needs at
      most k digits. */
  function Decimal(n: nat): (s: string)
    ensures 1 <= |s|
    ensures forall i :: 0 <= i < |s| ==> IsDigit(s[i])
    ensures ParseDecimal(s) == n
    ensures forall k: nat :: 1 <= k && n < Pow10(k) ==> |s| <= k
  {
    if n < 10 then
      var s := [DigitChar(n)];
      assert s[..0] == [];
      s
    else
      var prefix := Decimal(n / 10);
      var s := prefix + [DigitChar(n % 10)];
      assert s[..|s| - 1] == prefix;
      assert Pow10(1) == 10;
      forall k: nat | 1 <= k && n < Pow10(k) ensures |s| <= k {
        assert n / 10 < Pow10(k - 1);
      }
      s
  }

  /** `padStart(width, fill)`: `s` preceded by as many copies of `fill` as
      it takes to reach `width` characters; a string already that long is
      returned as it is. */
  function PadStart(s: string, width: nat, fill: char): (r: string)
    ensures |r| == if |s| >= width then |s| else width
    ensures r[|r| - |s|..] == s
    ensures forall i :: 0 <= i < |r| - |s| ==> r[i] == fill
    decreases width - |s|
  {
    if |s| >= width then s
    else
      var r := PadStart([fill] + s, width, fill);
      var k := |r| - |s|;
      assert r[k - 1..] == [fill] + s;
      assert r[k..] == r[k - 1..][1..] == s;
      assert r[k - 1] == r[k - 1..][0] == fill;
      r
  }

  /** The identifier given to a new invoice when `count` invoices exist. */
  function InvoiceId(count: nat): (id: string)
    ensures 3 <= |id|
    ensures count + 1 < 1000 ==> |id| == 3
  {
    assert Pow10(3) == 1000;
    PadStart(Decimal(count + 1), 3, '0')
  }

  /** A new identifier is all digits and at least three long, and exactly
      three long while the new count stays below 1000. */
  lemma InvoiceIdShape(count: nat)
    ensures 3 <= |InvoiceId(count)|
    ensures forall i :: 0 <= i < |InvoiceId(count)| ==> IsDigit(InvoiceId(count)[i])
    ensures count + 1 < 1000 ==> |InvoiceId(count)| == 3
  {
    var digits := Decimal(count + 1);
    assert Pow10(3) == 1000;
    var id := InvoiceId(count);
    forall i | 0 <= i < |id| ensures IsDigit(id[i]) {
      if i >= |id| - |digits| {
        assert id[i] == id[|id| - |digits|..][i - (|id| - |digits|)];
      }
    }
  }

  /** A leading zero does not change the value read. */
  lemma {:induction false} ParseLeadingZero(s: string)
    ensures ParseDecimal(['0'] + s) == ParseDecimal(s)
    decreases |s|
  {
    if s != [] {
      var last := |s| - 1;
      assert (['0'] + s)[..|s|] == ['0'] + s[..last];
      ParseLeadingZero(s[..last]);
    } else {
      assert ['0'][..0] == [];
    }
  }

  /** Padding with zeros does not change the value read. */
  lemma {:induction false} ParsePadded(s: string, width: nat)
    ensures ParseDecimal(PadStart(s, width, '0')) == ParseDecimal(s)
    decreases width - |s|
  {
    if |s| < width {
      ParsePadded(['0'] + s, width);
      ParseLeadingZero(s);
    }
  }

  /** Reading an identifier back gives the number it was made from. */
  lemma IdRoundTrip(count: nat)
    ensures ParseDecimal(InvoiceId(count)) == count + 1
  {
    ParsePadded(Decimal(count + 1), 3);
  }

  /** Different counts give different identifiers. */
  lemma IdInjective(m: nat, n: nat)
    ensures InvoiceId(m) == InvoiceId(n) <==> m == n
  {
    IdRoundTrip(m);
    IdRoundTrip(n);
  }
}
