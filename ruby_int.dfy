/**
 * Ruby's `String#to_i(base)` for the two bases the parser uses: `to_i`
 * (decimal, for object ids) and `to_i(16)` (for symbol sizes). It never
 * raises: it skips leading blanks, reads an optional sign, for base 16 an
 * optional `0x`/`0X` prefix, then the longest run of digits in which single
 * underscores may separate digits, and yields 0 when there is no digit.
 */
module RubyInt {
  import opened RubyText

  datatype Radix = Decimal | Hex {
    function Base(): nat {
      match this
      case Decimal => 10
      case Hex => 16
    }
  }

  /** The value of `c` as a digit in `radix`, or -1 when it is not one. */
  function DigitValue(c: char, radix: Radix): (v: int)
    ensures -1 <= v < radix.Base()
    ensures v >= 0 ==> (radix == Decimal ==> IsDigit(c))
  {
    if '0' <= c <= '9' then c as int - '0' as int
    else if radix == Hex && 'a' <= c <= 'f' then c as int - 'a' as int + 10
    else if radix == Hex && 'A' <= c <= 'F' then c as int - 'A' as int + 10
    else -1
  }

  predicate IsDigitIn(c: char, radix: Radix) {
    DigitValue(c, radix) >= 0
  }

  /** The digit values of the longest prefix of `w` of the form d(_?d)*. */
  function DigitRun(w: string, radix: Radix): seq<nat>
    decreases |w|
  {
    if |w| == 0 || !IsDigitIn(w[0], radix) then []
    else if |w| >= 3 && w[1] == '_' && IsDigitIn(w[2], radix) then
      [DigitValue(w[0], radix) as nat] + DigitRun(w[2..], radix)
    else
      [DigitValue(w[0], radix) as nat] + DigitRun(w[1..], radix)
  }

  /** The number that the digits `ds` denote, most significant first. */
  function Horner(ds: seq<nat>, base: nat): nat
  {
    if ds == [] then 0 else Horner(ds[..|ds| - 1], base) * base + ds[|ds| - 1]
  }

  /** What is left of `s` once its leading blanks are skipped. */
  function SkipSpaces(s: string): string
  {
    if |s| > 0 && IsSpace(s[0]) then SkipSpaces(s[1..]) else s
  }

  /** The radix prefix that `to_i(16)` accepts before the digits. */
  function DropPrefix(u: string, radix: Radix): string
  {
    if radix == Hex && |u| >= 2 && u[0] == '0' && (u[1] == 'x' || u[1] == 'X') then u[2..] else u
  }

  /** `s.to_i(base)`. */
  function ToI(s: string, radix: Radix): int
  {
    var t := SkipSpaces(s);
    var u := if |t| > 0 && (t[0] == '-' || t[0] == '+') then t[1..] else t;
    var n: int := Horner(DigitRun(DropPrefix(u, radix), radix), radix.Base());
    if |t| > 0 && t[0] == '-' then -n else n
  }

  /** The digit character for `d` (upper case for 10..15, as the linker writes sizes). */
  function DigitChar(d: nat): char
    requires d < 16
  {
    if d < 10 then ('0' as int + d) as char else ('A' as int + d - 10) as char
  }

  /** The canonical numeral of `n` in `radix`, without sign or prefix. */
  function Numeral(n: nat, radix: Radix): (s: string)
    ensures |s| > 0 && forall k :: 0 <= k < |s| ==> IsDigitIn(s[k], radix)
    decreases n
  {
    var b := radix.Base();
    if n < b then [DigitChar(n)] else Numeral(n / b, radix) + [DigitChar(n % b)]
  }

  /** The digit values of a string of digits. */
  function Values(d: string, radix: Radix): (ds: seq<nat>)
    requires forall k :: 0 <= k < |d| ==> IsDigitIn(d[k], radix)
    ensures |ds| == |d|
    ensures forall k :: 0 <= k < |d| ==> ds[k] == DigitValue(d[k], radix)
  {
    if d == [] then []
    else
      assert IsDigitIn(d[0], radix);
      [DigitValue(d[0], radix) as nat] + Values(d[1..], radix)
  }

  /** Text after a numeral that does not extend it: no digit and no `_` next. */
  predicate Stops(rest: string, radix: Radix) {
    rest == [] || (!IsDigitIn(rest[0], radix) && rest[0] != '_')
  }

  /** The digit run of a digit string followed by text that stops it is that string. */
  lemma {:induction false} DigitRunOfDigits(d: string, rest: string, radix: Radix)
    requires forall k :: 0 <= k < |d| ==> IsDigitIn(d[k], radix)
    requires Stops(rest, radix)
    ensures DigitRun(d + rest, radix) == Values(d, radix)
    decreases |d|
  {
    if d != [] {
      var w := d + rest;
      assert w[1..] == d[1..] + rest;
      DigitRunOfDigits(d[1..], rest, radix);
      assert |w| >= 2 ==> w[1] != '_' by {
        if |d| >= 2 { assert w[1] == d[1]; } else if |w| >= 2 { assert w[1] == rest[0]; }
      }
    }
  }

  /** A digit character reads back as the digit it was written for. */
  lemma DigitCharValue(d: nat, radix: Radix)
    requires d < radix.Base()
    ensures DigitValue(DigitChar(d), radix) == d
  {
  }

  /** Reading back the digit values of a numeral gives the number. */
  lemma {:induction false} HornerNumeral(n: nat, radix: Radix)
    ensures Horner(Values(Numeral(n, radix), radix), radix.Base()) == n
    decreases n
  {
    var b := radix.Base();
    var ds := Values(Numeral(n, radix), radix);
    if n < b {
      DigitCharValue(n, radix);
      assert ds == [n];
    } else {
      var hi := Numeral(n / b, radix);
      var c := [DigitChar(n % b)];
      DigitCharValue(n % b, radix);
      ValuesAppend(hi, c, radix);
      assert ds == Values(hi, radix) + [n % b];
      HornerNumeral(n / b, radix);
      HornerAppend(Values(hi, radix), n % b, b);
      assert n == (n / b) * b + n % b;
    }
  }

  /** One more digit at the end multiplies the number by the base and adds the digit. */
  lemma HornerAppend(ds: seq<nat>, d: nat, base: nat)
    ensures Horner(ds + [d], base) == Horner(ds, base) * base + d
  {
    assert (ds + [d])[..|ds + [d]| - 1] == ds;
  }

  /** The digit run of a numeral followed by text that does not continue it denotes the number. */
  lemma NumeralRoundTrip(n: nat, rest: string, radix: Radix)
    requires Stops(rest, radix)
    ensures Horner(DigitRun(Numeral(n, radix) + rest, radix), radix.Base()) == n
  {
    DigitRunOfDigits(Numeral(n, radix), rest, radix);
    HornerNumeral(n, radix);
  }

  /**
   * The digit run of a numeral, padded with leading zeros and followed by
   * text that does not continue it, denotes the number.
   */
  lemma DigitsRoundTrip(zeros: string, n: nat, rest: string, radix: Radix)
    requires forall k :: 0 <= k < |zeros| ==> zeros[k] == '0'
    requires Stops(rest, radix)
    ensures Horner(DigitRun(zeros + Numeral(n, radix) + rest, radix), radix.Base()) == n
  {
    var d := Numeral(n, radix);
    var b := radix.Base();
    assert forall k :: 0 <= k < |zeros| ==> IsDigitIn(zeros[k], radix);
    ValuesAppend(zeros, d, radix);
    DigitRunOfDigits(zeros + d, rest, radix);
    var zv := Values(zeros, radix);
    assert forall k :: 0 <= k < |zv| ==> zv[k] == 0;
    LeadingZeros(zv, Values(d, radix), b);
    HornerNumeral(n, radix);
  }

  /**
   * `to_i` reads back a decimal numeral after any blanks and before any text
   * that does not continue it: the id `[  6]` reads as 6.
   */
  lemma DecimalRoundTrip(blanks: string, n: nat, rest: string)
    requires forall k :: 0 <= k < |blanks| ==> IsSpace(blanks[k])
    requires Stops(rest, Decimal)
    ensures ToI(blanks + Numeral(n, Decimal) + rest, Decimal) == n
  {
    var d := Numeral(n, Decimal);
    var w := d + rest;
    assert w[0] == d[0] && IsDigit(d[0]);
    assert blanks + d + rest == blanks + w;
    ToIAfterBlanks(blanks, w, Decimal);
    NumeralRoundTrip(n, rest, Decimal);
  }

  /**
   * `to_i(16)` reads back a `0x` numeral, padded with leading zeros as the
   * linker writes sizes (`0x0000003C`), followed by text that does not
   * continue it.
   */
  lemma HexRoundTrip(zeros: string, n: nat, rest: string)
    requires forall k :: 0 <= k < |zeros| ==> zeros[k] == '0'
    requires Stops(rest, Hex)
    ensures ToI("0x" + zeros + Numeral(n, Hex) + rest, Hex) == n
  {
    var w := zeros + Numeral(n, Hex) + rest;
    assert "0x" + zeros + Numeral(n, Hex) + rest == "0x" + w;
    ToIHexPrefix(w);
    DigitsRoundTrip(zeros, n, rest, Hex);
  }

  lemma {:induction false} ValuesAppend(x: string, y: string, radix: Radix)
    requires forall k :: 0 <= k < |x| ==> IsDigitIn(x[k], radix)
    requires forall k :: 0 <= k < |y| ==> IsDigitIn(y[k], radix)
    ensures forall k :: 0 <= k < |x + y| ==> IsDigitIn((x + y)[k], radix)
    ensures Values(x + y, radix) == Values(x, radix) + Values(y, radix)
  {
    var xy := x + y;
    assert forall k :: 0 <= k < |xy| ==> IsDigitIn(xy[k], radix) by {
      forall k | 0 <= k < |xy| ensures IsDigitIn(xy[k], radix) {
        if k < |x| { assert xy[k] == x[k]; } else { assert xy[k] == y[k - |x|]; }
      }
    }
    var v, vx, vy := Values(xy, radix), Values(x, radix), Values(y, radix);
    forall k | 0 <= k < |xy| ensures v[k] == (vx + vy)[k] {
      if k < |x| {
        assert xy[k] == x[k];
      } else {
        assert xy[k] == y[k - |x|];
      }
    }
    assert v == vx + vy;
  }

  /** Leading zero digits do not change a number. */
  lemma {:induction false} LeadingZeros(zs: seq<nat>, ds: seq<nat>, base: nat)
    requires forall k :: 0 <= k < |zs| ==> zs[k] == 0
    ensures Horner(zs + ds, base) == Horner(ds, base)
    decreases |ds|, |zs|
  {
    if ds == [] {
      assert zs + ds == zs;
      if zs != [] {
        LeadingZeros(zs[..|zs| - 1], [], base);
        assert zs[..|zs| - 1] + [] == zs[..|zs| - 1];
      }
    } else {
      assert (zs + ds)[..|zs + ds| - 1] == zs + ds[..|ds| - 1];
      LeadingZeros(zs, ds[..|ds| - 1], base);
    }
  }

  /** A minus sign after the blanks negates: `"-3".to_i` is -3. */
  lemma NegativeRoundTrip(blanks: string, n: nat, rest: string)
    requires forall k :: 0 <= k < |blanks| ==> IsSpace(blanks[k])
    requires Stops(rest, Decimal)
    ensures ToI(blanks + "-" + Numeral(n, Decimal) + rest, Decimal) == -(n as int)
  {
    var w := "-" + Numeral(n, Decimal) + rest;
    assert blanks + "-" + Numeral(n, Decimal) + rest == blanks + w;
    SkipBlanks(blanks, w);
    assert w[1..] == Numeral(n, Decimal) + rest;
    NumeralRoundTrip(n, rest, Decimal);
  }

  /** A string that starts with neither a blank nor a sign reads as its digit run. */
  lemma ToIUnsigned(s: string, radix: Radix)
    requires |s| > 0 && !IsSpace(s[0]) && s[0] != '-' && s[0] != '+'
    ensures ToI(s, radix) == Horner(DigitRun(DropPrefix(s, radix), radix), radix.Base())
  {
    assert SkipSpaces(s) == s;
  }

  /** After a `0x` prefix, `to_i(16)` reads the hexadecimal digit run. */
  lemma ToIHexPrefix(w: string)
    ensures ToI("0x" + w, Hex) == Horner(DigitRun(w, Hex), 16)
  {
    ToIUnsigned("0x" + w, Hex);
    assert ("0x" + w)[2..] == w;
  }

  /** Past the blanks, a string that starts with neither a sign nor a blank reads as its digit run. */
  lemma ToIAfterBlanks(blanks: string, w: string, radix: Radix)
    requires forall k :: 0 <= k < |blanks| ==> IsSpace(blanks[k])
    requires |w| > 0 && !IsSpace(w[0]) && w[0] != '-' && w[0] != '+'
    ensures ToI(blanks + w, radix) == Horner(DigitRun(DropPrefix(w, radix), radix), radix.Base())
  {
    SkipBlanks(blanks, w);
  }

  lemma {:induction false} SkipBlanks(blanks: string, s: string)
    requires forall k :: 0 <= k < |blanks| ==> IsSpace(blanks[k])
    requires s == [] || !IsSpace(s[0])
    ensures SkipSpaces(blanks + s) == s
    decreases |blanks|
  {
    if blanks != [] {
      assert (blanks + s)[1..] == blanks[1..] + s;
      SkipBlanks(blanks[1..], s);
    }
  }
}
