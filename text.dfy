/**
 * The C string handling the backends rely on: fixed-size buffers filled by
 * strncpy/snprintf, the substring and prefix tests, the scanf conversions
 * %d, %ld, %u and %x, the number formats %d, %u and %04X, and the way fgets
 * cuts a file into lines. Strings never contain NUL here.
 */
module Text {
  import opened Wrappers
  import opened CInt

  // ---------------------------------------------------------------------
  // Fixed-size buffers and simple tests
  // ---------------------------------------------------------------------

  /**
   * What a zeroed buffer of `size` bytes holds after `strncpy(dst, s, size - 1)`
   * or `snprintf(dst, size, "%s", s)`: `s` cut to at most `size - 1` characters.
   */
  function Bounded(s: string, size: nat): (r: string)
    requires size > 0
    ensures |r| < size && r <= s
    ensures |s| < size ==> r == s
  {
    if |s| < size then s else s[..size - 1]
  }

  /** A prefix that fits the buffer survives the truncation. */
  lemma BoundedKeepsPrefix(p: string, s: string, size: nat)
    requires |p| < size
    ensures p <= Bounded(p + s, size)
  {
    var r := Bounded(p + s, size);
    assert |p| <= |r|;
    assert r[..|p|] == (p + s)[..|p|] == p;
  }

  /** `strstr(s, sub) != NULL`. */
  predicate Contains(s: string, sub: string)
    decreases |s|
  {
    sub <= s || (|s| > 0 && Contains(s[1..], sub))
  }

  /** `strstr` finds `sub` exactly when `sub` starts at some position of `s`. */
  lemma {:induction false} ContainsAt(s: string, sub: string)
    ensures Contains(s, sub) <==> exists i :: 0 <= i <= |s| && sub <= s[i..]
    decreases |s|
  {
    if |s| > 0 {
      ContainsAt(s[1..], sub);
      assert s[0..] == s;
      if Contains(s[1..], sub) {
        var i :| 0 <= i <= |s[1..]| && sub <= s[1..][i..];
        assert s[1..][i..] == s[i + 1..];
      }
      if exists i :: 0 <= i <= |s| && sub <= s[i..] {
        var i :| 0 <= i <= |s| && sub <= s[i..];
        if i > 0 {
          assert s[i..] == s[1..][i - 1..];
        }
      }
    } else {
      assert s[0..] == s;
    }
  }

  /** Removes one trailing newline, as the library does after each fgets. */
  function StripNewline(s: string): (r: string)
    ensures r == s || r + "\n" == s
    ensures (|s| > 0 && s[|s| - 1] == '\n') <==> r + "\n" == s
  {
    if |s| > 0 && s[|s| - 1] == '\n' then s[..|s| - 1] else s
  }

  /** `isspace` in the C locale. */
  predicate IsSpace(c: char) {
    c == ' ' || c == '\t' || c == '\n' || c == '\r' || c == '\U{000B}' || c == '\U{000C}'
  }

  /** The white space a scanf conversion skips before reading a number. */
  function SkipSpace(s: string): (r: string)
    ensures |r| <= |s| && r == s[|s| - |r|..]
    ensures |r| == 0 || !IsSpace(r[0])
  {
    if |s| > 0 && IsSpace(s[0]) then SkipSpace(s[1..]) else s
  }

  // ---------------------------------------------------------------------
  // Digits
  // ---------------------------------------------------------------------

  predicate IsDigit(c: char) {
    '0' <= c <= '9'
  }

  predicate IsHexDigit(c: char) {
    IsDigit(c) || 'a' <= c <= 'f' || 'A' <= c <= 'F'
  }

  /** Whether `c` is a digit of `base`, which is 10 or 16. */
  predicate IsDigitOf(c: char, base: nat) {
    if base == 16 then IsHexDigit(c) else IsDigit(c)
  }

  function DigitValue(c: char): (v: nat)
    requires IsHexDigit(c)
    ensures v < 16
    ensures IsDigit(c) ==> v < 10
  {
    if IsDigit(c) then c as int - '0' as int
    else if 'a' <= c <= 'f' then c as int - 'a' as int + 10
    else c as int - 'A' as int + 10
  }

  /** The upper-case digit printf writes for `d`. */
  function DigitChar(d: nat): (c: char)
    requires d < 16
    ensures IsHexDigit(c) && DigitValue(c) == d
    ensures d < 10 <==> IsDigit(c)
    ensures c != 'x' && c != 'X' && c != '-' && c != '+' && !IsSpace(c)
  {
    "0123456789ABCDEF"[d]
  }

  /** How many leading characters of `s` are digits of `base`. */
  function DigitRun(s: string, base: nat): (n: nat)
    ensures n <= |s|
  {
    if |s| > 0 && IsDigitOf(s[0], base) then 1 + DigitRun(s[1..], base) else 0
  }

  /** The run is made of digits and ends at the end of `s` or at a character that is not one. */
  lemma {:induction false} DigitRunDigits(s: string, base: nat)
    ensures forall k :: 0 <= k < DigitRun(s, base) ==> IsDigitOf(s[k], base)
    ensures DigitRun(s, base) < |s| ==> !IsDigitOf(s[DigitRun(s, base)], base)
    decreases |s|
  {
    if |s| > 0 && IsDigitOf(s[0], base) {
      DigitRunDigits(s[1..], base);
      forall k | 1 <= k < DigitRun(s, base)
        ensures IsDigitOf(s[k], base)
      {
        assert s[k] == s[1..][k - 1];
      }
    }
  }

  /** The number a string of digits of `base` denotes, most significant first. */
  function DigitsValue(ds: string, base: nat): nat
    requires base == 10 || base == 16
    requires forall k :: 0 <= k < |ds| ==> IsDigitOf(ds[k], base)
  {
    if ds == [] then 0
    else
      assert IsDigitOf(ds[|ds| - 1], base);
      DigitsValue(ds[..|ds| - 1], base) * base + DigitValue(ds[|ds| - 1])
  }

  // ---------------------------------------------------------------------
  // scanf conversions
  // ---------------------------------------------------------------------

  /** A converted number and the text after it. */
  datatype Scanned = Scanned(value: int, rest: string)

  /** `0x` or `0X` before a hexadecimal digit, which %x skips. */
  function SkipHexPrefix(u: string): (r: string)
    ensures r == u || (|u| >= 2 && r == u[2..])
  {
    if |u| >= 3 && u[0] == '0' && (u[1] == 'x' || u[1] == 'X') && IsHexDigit(u[2]) then u[2..] else u
  }

  /**
   * The number at the front of `t` (white space already skipped): an optional
   * sign, then for base 16 an optional `0x`, then at least one digit.
   */
  function ScanNumber(t: string, base: nat): (r: Option<Scanned>)
    requires base == 10 || base == 16
    ensures r.Some? ==> |r.value.rest| < |t|
  {
    var negative := |t| > 0 && t[0] == '-';
    var u := if |t| > 0 && (t[0] == '-' || t[0] == '+') then t[1..] else t;
    var v := if base == 16 then SkipHexPrefix(u) else u;
    var n := DigitRun(v, base);
    if n == 0 then None
    else
      DigitRunDigits(v, base);
      var magnitude := DigitsValue(v[..n], base);
      Some(Scanned(if negative then -(magnitude as int) else magnitude as int, v[n..]))
  }

  /** `%d` and `%ld`. */
  function ScanDecimal(s: string): Option<Scanned> {
    ScanNumber(SkipSpace(s), 10)
  }

  /** `%u` into an `unsigned int`: a negative number is reduced modulo 2^32. */
  function ScanUnsigned(s: string): (r: Option<Scanned>)
    ensures r.Some? ==> 0 <= r.value.value < TWO_32
    ensures r.Some? <==> ScanDecimal(s).Some?
  {
    match ScanDecimal(s)
    case None => None
    case Some(d) => Some(Scanned(ToU32(d.value), d.rest))
  }

  /** `%x` into an `unsigned int`. */
  function ScanHex(s: string): (r: Option<Scanned>)
    ensures r.Some? ==> 0 <= r.value.value < TWO_32
  {
    match ScanNumber(SkipSpace(s), 16)
    case None => None
    case Some(d) => Some(Scanned(ToU32(d.value), d.rest))
  }

  // ---------------------------------------------------------------------
  // printf formats
  // ---------------------------------------------------------------------

  /** The digits of `n` in `base`, most significant first, with no padding. */
  function NatToString(n: nat, base: nat): (s: string)
    requires base == 10 || base == 16
    ensures |s| > 0
    decreases n
  {
    if n < base then [DigitChar(n)] else NatToString(n / base, base) + [DigitChar(n % base)]
  }

  /** `%d` and `%u` of a non-negative value, and `std::to_string`. */
  function IntToDecimal(n: int): (s: string)
    ensures |s| > 0
  {
    if n < 0 then "-" + NatToString(-n, 10) else NatToString(n, 10)
  }

  function Zeros(k: nat): (s: string)
    ensures |s| == k && forall i :: 0 <= i < k ==> s[i] == '0'
  {
    if k == 0 then "" else Zeros(k - 1) + "0"
  }

  /** `%04X`: upper-case hexadecimal, zero-padded to at least four digits. */
  function Hex4(n: nat): (s: string)
    ensures |s| >= 4
  {
    var h := NatToString(n, 16);
    if |h| < 4 then Zeros(4 - |h|) + h else h
  }

  lemma {:induction false} NatToStringDigits(n: nat, base: nat)
    requires base == 10 || base == 16
    ensures forall k :: 0 <= k < |NatToString(n, base)| ==> IsDigitOf(NatToString(n, base)[k], base)
    ensures DigitsValue(NatToString(n, base), base) == n
    decreases n
  {
    var s := NatToString(n, base);
    if n >= base {
      NatToStringDigits(n / base, base);
      var front := NatToString(n / base, base);
      assert s == front + [DigitChar(n % base)];
      assert s[..|s| - 1] == front;
    }
  }

  lemma {:induction false} DigitRunAll(s: string, base: nat)
    requires forall k :: 0 <= k < |s| ==> IsDigitOf(s[k], base)
    ensures DigitRun(s, base) == |s|
    decreases |s|
  {
    if |s| > 0 {
      DigitRunAll(s[1..], base);
    }
  }

  lemma {:induction false} LeadingZerosValue(k: nat, ds: string, base: nat)
    requires base == 10 || base == 16
    requires forall i :: 0 <= i < |ds| ==> IsDigitOf(ds[i], base)
    ensures forall i :: 0 <= i < |Zeros(k) + ds| ==> IsDigitOf((Zeros(k) + ds)[i], base)
    ensures DigitsValue(Zeros(k) + ds, base) == DigitsValue(ds, base)
    decreases |ds|, k
  {
    var s := Zeros(k) + ds;
    if |ds| > 0 {
      LeadingZerosValue(k, ds[..|ds| - 1], base);
      assert s[..|s| - 1] == Zeros(k) + ds[..|ds| - 1];
    } else if k > 0 {
      LeadingZerosValue(k - 1, ds, base);
      assert s == Zeros(k - 1) + "0";
      assert s[..|s| - 1] == Zeros(k - 1) + ds;
    }
  }

  /** A run of digits followed by something that is not a digit is read up to its end. */
  lemma {:induction false} DigitRunConcat(ds: string, rest: string, base: nat)
    requires forall k :: 0 <= k < |ds| ==> IsDigitOf(ds[k], base)
    requires rest == [] || !IsDigitOf(rest[0], base)
    ensures DigitRun(ds + rest, base) == |ds|
    decreases |ds|
  {
    if |ds| > 0 {
      DigitRunConcat(ds[1..], rest, base);
      assert (ds + rest)[1..] == ds[1..] + rest;
    } else {
      assert ds + rest == rest;
    }
  }

  /**
   * Printing an integer with %d and reading it back with %d or %ld gives it
   * back, with the text that follows left over when that text does not
   * continue the number.
   */
  lemma DecimalPrefix(n: int, rest: string)
    requires rest == [] || !IsDigit(rest[0])
    ensures ScanDecimal(IntToDecimal(n) + rest) == Some(Scanned(n, rest))
  {
    if n < 0 {
      var m: nat := -n;
      assert IntToDecimal(n) + rest == "-" + NatToString(m, 10) + rest;
      NegatedPrefix(m, rest);
    } else {
      NatPrefix(n, rest);
    }
  }

  /** A natural number printed in decimal and followed by a non-digit scans back as itself. */
  lemma NatPrefix(m: nat, rest: string)
    requires rest == [] || !IsDigit(rest[0])
    ensures IsDigit(NatToString(m, 10)[0])
    ensures ScanDecimal(NatToString(m, 10) + rest) == Some(Scanned(m, rest))
  {
    var digits := NatToString(m, 10);
    NatToStringDigits(m, 10);
    assert IsDigitOf(digits[0], 10);
    ScanDigits(digits, rest);
  }

  /** A 32-bit value printed in decimal reads back with `%u` as itself. */
  lemma UnsignedPrinted(n: UInt32, rest: string)
    requires rest == [] || !IsDigit(rest[0])
    ensures ScanUnsigned(IntToDecimal(n) + rest) == Some(Scanned(n, rest))
  {
    DecimalPrefix(n, rest);
  }

  /** A minus sign before a natural number printed in decimal and a non-digit scans back as its negation. */
  lemma NegatedPrefix(m: nat, rest: string)
    requires rest == [] || !IsDigit(rest[0])
    ensures ScanDecimal("-" + NatToString(m, 10) + rest) == Some(Scanned(-(m as int), rest))
  {
    NatPrefix(m, rest);
    ScanNegated(NatToString(m, 10), rest, m);
  }

  /** Unsigned digits followed by a non-digit scan as their value, leaving the rest. */
  lemma ScanDigits(digits: string, rest: string)
    requires |digits| > 0 && forall k :: 0 <= k < |digits| ==> IsDigitOf(digits[k], 10)
    requires rest == [] || !IsDigit(rest[0])
    ensures ScanDecimal(digits + rest) == Some(Scanned(DigitsValue(digits, 10), rest))
  {
    var v := digits + rest;
    UnsignedPrefix(digits, rest);
    assert v[0] == digits[0] && IsDigitOf(v[0], 10);
    NoSpaceFront(v);
    ScanNumberUnsigned(v, |digits|, 10);
  }

  lemma NoSpaceFront(s: string)
    requires |s| > 0 && !IsSpace(s[0])
    ensures SkipSpace(s) == s
  {
  }

  /** A scan that starts on one of `n` leading digits reads exactly those digits. */
  lemma ScanNumberUnsigned(v: string, n: nat, base: nat)
    requires base == 10 || base == 16
    requires 0 < n <= |v| && DigitRun(v, base) == n
    requires forall k :: 0 <= k < n ==> IsDigitOf(v[k], base)
    requires base == 16 ==> SkipHexPrefix(v) == v
    ensures ScanNumber(v, base) == Some(Scanned(DigitsValue(v[..n], base), v[n..]))
  {
    assert IsHexDigit(v[0]) by { assert IsDigitOf(v[0], base); }
  }

  /** A minus sign before digits that scan as `m` scans as `-m`. */
  lemma ScanNegated(digits: string, rest: string, m: nat)
    requires |digits| > 0 && IsDigit(digits[0])
    requires ScanDecimal(digits + rest) == Some(Scanned(m, rest))
    ensures ScanDecimal("-" + digits + rest) == Some(Scanned(-(m as int), rest))
  {
    var v := digits + rest;
    assert v[0] == digits[0];
    assert "-" + digits + rest == "-" + v;
    SignBeforeDigit(v, m, rest);
  }

  lemma SignBeforeDigit(v: string, m: nat, rest: string)
    requires |v| > 0 && IsDigit(v[0])
    requires ScanDecimal(v) == Some(Scanned(m, rest))
    ensures ScanDecimal("-" + v) == Some(Scanned(-(m as int), rest))
  {
    var s := "-" + v;
    assert s[0] == '-' && s[1..] == v;
    NoSpaceFront(v);
    NoSpaceFront(s);
  }

  /** The digits at the front of `digits + rest` are `digits`. */
  lemma UnsignedPrefix(digits: string, rest: string)
    requires |digits| > 0 && forall k :: 0 <= k < |digits| ==> IsDigitOf(digits[k], 10)
    requires rest == [] || !IsDigit(rest[0])
    ensures DigitRun(digits + rest, 10) == |digits|
    ensures (digits + rest)[..|digits|] == digits && (digits + rest)[|digits|..] == rest
  {
    DigitRunConcat(digits, rest, 10);
  }

  /** Printing an integer with %d and reading it back with %ld gives it back. */
  lemma DecimalRoundTrip(n: int)
    ensures ScanDecimal(IntToDecimal(n)) == Some(Scanned(n, ""))
  {
    DecimalPrefix(n, "");
    assert IntToDecimal(n) + "" == IntToDecimal(n);
  }

  /** The text %04X prints is made of hexadecimal digits denoting `n`, and does not start with `0x`. */
  lemma Hex4Digits(n: nat)
    ensures forall k :: 0 <= k < |Hex4(n)| ==> IsDigitOf(Hex4(n)[k], 16)
    ensures DigitsValue(Hex4(n), 16) == n
    ensures Hex4(n)[1] != 'x' && Hex4(n)[1] != 'X'
  {
    var h := NatToString(n, 16);
    NatToStringDigits(n, 16);
    if |h| < 4 {
      LeadingZerosValue(4 - |h|, h, 16);
    }
    var s := Hex4(n);
    assert IsHexDigit(s[1]) by { assert IsDigitOf(s[1], 16); }
  }

  /**
   * A run of digits with no sign in front (and, in base 16, no `0x` prefix)
   * scans as the number it denotes, leaving nothing over.
   */
  lemma ScanAllDigits(v: string, base: nat)
    requires base == 10 || base == 16
    requires |v| > 0 && forall k :: 0 <= k < |v| ==> IsDigitOf(v[k], base)
    requires v[0] != '-' && v[0] != '+'
    requires base == 16 ==> SkipHexPrefix(v) == v
    ensures ScanNumber(v, base) == Some(Scanned(DigitsValue(v, base), ""))
  {
    DigitRunAll(v, base);
    assert v[..|v|] == v;
  }

  /** A run of at least two hexadecimal digits not starting `0x` reads back with %x as its value. */
  lemma ScanHexDigits(s: string, n: UInt32)
    requires |s| >= 2 && forall k :: 0 <= k < |s| ==> IsDigitOf(s[k], 16)
    requires s[1] != 'x' && s[1] != 'X'
    requires DigitsValue(s, 16) == n
    ensures ScanHex(s) == Some(Scanned(n, ""))
  {
    assert IsHexDigit(s[0]) by { assert IsDigitOf(s[0], 16); }
    NoSpaceFront(s);
    assert SkipHexPrefix(s) == s;
    ScanAllDigits(s, 16);
  }

  /** Printing a 32-bit value with %04X and reading it back with %x gives it back. */
  lemma Hex4RoundTrip(n: UInt32)
    ensures ScanHex(Hex4(n)) == Some(Scanned(n, ""))
  {
    Hex4Digits(n);
    ScanHexDigits(Hex4(n), n);
  }

  /** `b` to the power `k`. */
  function Power(b: nat, k: nat): (p: nat)
    ensures b > 0 ==> p > 0
  {
    if k == 0 then 1 else b * Power(b, k - 1)
  }

  lemma DivBelow(n: nat, b: nat, p: nat)
    requires b > 0 && n < b * p
    ensures n / b < p
  {
  }

  /** A number below `base`^k takes at most k digits. */
  lemma {:induction false} NatToStringLength(n: nat, base: nat, k: nat)
    requires base == 10 || base == 16
    requires k >= 1 && n < Power(base, k)
    ensures |NatToString(n, base)| <= k
    decreases k
  {
    if n >= base {
      DivBelow(n, base, Power(base, k - 1));
      NatToStringLength(n / base, base, k - 1);
    }
  }

  /** An `int32_t` printed with %d takes at most 11 characters, sign included. */
  lemma DecimalLengthInt32(n: Int32)
    ensures |IntToDecimal(n)| <= 11
  {
    var m: int := if n < 0 then -(n as int) else n;
    assert Power(10, 10) == 10000000000;
    NatToStringLength(m, 10, 10);
  }

  /** `snprintf(buf, size, "<prefix>%d", index)` for an `int32_t`, which always fits. */
  function Labelled(prefix: string, index: Int32, size: nat): (s: string)
    requires |prefix| + 11 < size
    ensures s == prefix + IntToDecimal(index) && |s| < size
  {
    DecimalLengthInt32(index);
    prefix + IntToDecimal(index)
  }

  /** A 32-bit value printed with %04X takes at most eight characters. */
  lemma Hex4Length32(n: UInt32)
    ensures |Hex4(n)| <= 8
  {
    assert Power(16, 8) == TWO_32;
    NatToStringLength(n, 16, 8);
  }

  /**
   * The sysfs form of an id, `0x` and the digits, reads back with %x as
   * the id, leaving what follows the digits.
   */
  lemma PrefixedHexPrinted(n: UInt32, rest: string)
    requires rest == [] || !IsHexDigit(rest[0])
    ensures ScanHex("0x" + Hex4(n) + rest) == Some(Scanned(n, rest))
  {
    var h := Hex4(n);
    Hex4Digits(n);
    DigitRunConcat(h, rest, 16);
    var v := h + rest;
    assert v[..|h|] == h && v[|h|..] == rest;
    assert IsHexDigit(v[0]) by { assert IsDigitOf(h[0], 16); }
    var t := "0x" + v;
    assert "0x" + h + rest == t;
    assert t[0] == '0' && t[1] == 'x' && t[2..] == v;
    NoSpaceFront(t);
    assert SkipHexPrefix(t) == v;
  }

  // ---------------------------------------------------------------------
  // fgets
  // ---------------------------------------------------------------------

  /**
   * How many characters one `fgets(buf, max + 1, f)` reads from the front of a
   * non-empty `s`: through the first newline, and at most `max`.
   */
  function FgetsPieceLength(s: string, max: nat): (n: nat)
    requires |s| > 0 && max > 0
    ensures 0 < n <= |s| && n <= max
    ensures forall k :: 0 <= k < n - 1 ==> s[k] != '\n'
    ensures n < |s| && n < max ==> s[n - 1] == '\n'
    decreases max
  {
    if s[0] == '\n' || |s| == 1 || max == 1 then 1 else 1 + FgetsPieceLength(s[1..], max - 1)
  }

  /** What successive `fgets(buf, size, f)` calls return until end of file. */
  function FgetsLines(s: string, size: nat): (lines: seq<string>)
    requires size >= 2
    ensures forall k :: 0 <= k < |lines| ==> 0 < |lines[k]| < size
    decreases |s|
  {
    if s == [] then [] else
      var n := FgetsPieceLength(s, size - 1);
      [s[..n]] + FgetsLines(s[n..], size)
  }

  function Concat(lines: seq<string>): string {
    if lines == [] then "" else lines[0] + Concat(lines[1..])
  }

  /** fgets loses nothing: the lines it returns, put back together, are the file. */
  lemma {:induction false} FgetsLinesConcat(s: string, size: nat)
    requires size >= 2
    ensures Concat(FgetsLines(s, size)) == s
    decreases |s|
  {
    if s != [] {
      var n := FgetsPieceLength(s, size - 1);
      FgetsLinesConcat(s[n..], size);
      var lines := FgetsLines(s, size);
      assert lines[1..] == FgetsLines(s[n..], size);
      assert s == s[..n] + s[n..];
    }
  }

  /** The first line fgets reads from `s`, or None when `s` is empty (fgets returns NULL). */
  function FirstFgetsLine(s: string, size: nat): (r: Option<string>)
    requires size >= 2
    ensures r.Some? <==> |s| > 0
    ensures r.Some? ==> r.value <= s && 0 < |r.value| < size
  {
    if s == [] then None else Some(s[..FgetsPieceLength(s, size - 1)])
  }

  /** fgets reads a short first line through its newline and no further. */
  lemma FirstLineRead(line: string, rest: string, size: nat)
    requires size >= 2 && |line| + 1 < size
    requires forall k :: 0 <= k < |line| ==> line[k] != '\n'
    ensures FirstFgetsLine(line + "\n" + rest, size) == Some(line + "\n")
  {
    var s := line + "\n" + rest;
    var n := FgetsPieceLength(s, size - 1);
    PieceThroughNewline(line, rest, size - 1);
    assert s[..n] == line + "\n";
  }

  lemma {:induction false} PieceThroughNewline(line: string, rest: string, max: nat)
    requires |line| < max
    requires forall k :: 0 <= k < |line| ==> line[k] != '\n'
    ensures FgetsPieceLength(line + "\n" + rest, max) == |line| + 1
    decreases |line|
  {
    var s := line + "\n" + rest;
    if |line| > 0 {
      PieceThroughNewline(line[1..], rest, max - 1);
      assert s[1..] == line[1..] + "\n" + rest;
    }
  }
}
