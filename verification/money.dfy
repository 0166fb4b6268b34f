/**
 Prices are stored as whole kopecks. The e-mails, the catalog API and the
 payment notices show them as `(kopecks / 100).toFixed(2)`: the rouble part,
 a decimal mark and exactly two kopeck digits. Division and rounding are
 done here on integers. This agrees with the floating-point rendering while
 the amount stays below 2^46 roubles (about 7·10^15 kopecks), where the
 spacing of doubles is under a hundredth; every amount an int column can
 hold is far below that.
 */
module Money {
  import opened Text

  /** A number below 100 as exactly two digits, with a leading zero when needed. */
  function TwoDigits(n: nat): (r: string)
    requires n < 100
    ensures |r| == 2 && AllDigits(r)
    ensures DigitsValue(r) == n
  {
    var hi := [DigitChar(n / 10)];
    var r := hi + [DigitChar(n % 10)];
    assert hi[..0] == [];
    assert DigitsValue(hi) == n / 10;
    assert r[..1] == hi;
    r
  }

  /** A non-negative amount: the whole roubles, the mark, then two kopeck digits. */
  function UnsignedFixed2(a: nat, mark: char): (r: string)
    ensures |r| >= 4 && r[|r| - 3] == mark
    ensures AllDigits(r[|r| - 2..]) && IsDigit(r[0])
  {
    var whole := NatToString(a / 100);
    var r := whole + [mark] + TwoDigits(a % 100);
    assert r[|r| - 2..] == TwoDigits(a % 100);
    r
  }

  /** `(k / 100).toFixed(2)`, with the decimal point written as `mark`. */
  function Fixed2(k: int, mark: char): (r: string)
    ensures |r| >= 4 && r[|r| - 3] == mark
    ensures AllDigits(r[|r| - 2..])
    ensures k < 0 <==> r[0] == '-'
  {
    if k < 0 then "-" + UnsignedFixed2(-k, mark) else UnsignedFixed2(k, mark)
  }

  /** Reads `digits mark digit digit` back as a number of kopecks. */
  function ParseUnsignedFixed2(s: string, mark: char): Option<nat> {
    if |s| >= 4 && s[|s| - 3] == mark && AllDigits(s[..|s| - 3]) && AllDigits(s[|s| - 2..]) then
      Some(DigitsValue(s[..|s| - 3]) * 100 + DigitsValue(s[|s| - 2..]))
    else None
  }

  /** Reads a rendered amount back: an optional `-`, then an unsigned amount. */
  function ParseFixed2(s: string, mark: char): Option<int> {
    if |s| >= 1 && s[0] == '-' then
      match ParseUnsignedFixed2(s[1..], mark)
      case None => None
      case Some(v) => Some(-(v as int))
    else
      match ParseUnsignedFixed2(s, mark)
      case None => None
      case Some(v) => Some(v)
  }

  lemma {:induction false} UnsignedRoundTrip(a: nat, mark: char)
    ensures ParseUnsignedFixed2(UnsignedFixed2(a, mark), mark) == Some(a)
  {
    var whole := NatToString(a / 100);
    var frac := TwoDigits(a % 100);
    var s := UnsignedFixed2(a, mark);
    assert s == whole + [mark] + frac;
    assert s[..|s| - 3] == whole;
    assert s[|s| - 2..] == frac;
    NatToStringRoundTrip(a / 100);
  }

  /** A leading `-` negates whatever the rest reads as. */
  lemma ParseNegated(u: string, mark: char, a: nat)
    requires ParseUnsignedFixed2(u, mark) == Some(a)
    ensures ParseFixed2("-" + u, mark) == Some(-(a as int))
  {
    var s := "-" + u;
    assert s[0] == '-' && s[1..] == u;
  }

  /** Text that starts with a digit reads as its unsigned value. */
  lemma ParsePlain(u: string, mark: char, a: nat)
    requires ParseUnsignedFixed2(u, mark) == Some(a) && IsDigit(u[0])
    ensures ParseFixed2(u, mark) == Some(a)
  {
  }

  /** The rendering loses nothing: reading it back gives the amount in kopecks. */
  lemma {:induction false} Fixed2RoundTrip(k: int, mark: char)
    ensures ParseFixed2(Fixed2(k, mark), mark) == Some(k)
  {
    if k < 0 {
      UnsignedRoundTrip(-k, mark);
      ParseNegated(UnsignedFixed2(-k, mark), mark, -k);
    } else {
      UnsignedRoundTrip(k, mark);
      ParsePlain(UnsignedFixed2(k, mark), mark, k);
    }
  }

  /** Distinct amounts are shown differently. */
  lemma Fixed2Injective(k: int, m: int, mark: char)
    requires Fixed2(k, mark) == Fixed2(m, mark)
    ensures k == m
  {
    Fixed2RoundTrip(k, mark);
    Fixed2RoundTrip(m, mark);
  }
}
