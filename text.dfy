/** The JavaScript built-ins the components lean on: `String.prototype.trim`,
    `parseFloat` and `Number.prototype.toString`. */
module Text {
  import opened Wrappers

  /** The WhiteSpace and LineTerminator code points of ECMAScript
      (sections 12.2 and 12.3 of ECMA-262), which `trim` and `parseFloat` skip. */
  predicate IsWhitespace(c: char) {
    || c == '\t' || c == '\n' || c == '\U{000B}' || c == '\U{000C}' || c == '\r' || c == ' '
    || c == '\U{00A0}' || c == '\U{1680}' || ('\U{2000}' <= c <= '\U{200A}')
    || c == '\U{2028}' || c == '\U{2029}' || c == '\U{202F}' || c == '\U{205F}'
    || c == '\U{3000}' || c == '\U{FEFF}'
  }

  /** Drops the leading whitespace: the result is a suffix of `s` that does
      not start with whitespace, and everything dropped is whitespace. */
  function TrimStart(s: string): (r: string)
    ensures |r| <= |s| && r == s[|s| - |r|..]
    ensures r == [] || !IsWhitespace(r[0])
  {
    if s != [] && IsWhitespace(s[0]) then TrimStart(s[1..]) else s
  }

  /** Everything `TrimStart` drops is whitespace. */
  lemma {:induction false} TrimStartDrops(s: string)
    ensures forall i :: 0 <= i < |s| - |TrimStart(s)| ==> IsWhitespace(s[i])
  {
    if s != [] && IsWhitespace(s[0]) {
      TrimStartDrops(s[1..]);
    }
  }

  /** Drops the trailing whitespace. */
  function TrimEnd(s: string): (r: string)
    ensures |r| <= |s| && r == s[..|r|]
    ensures r == [] || !IsWhitespace(r[|r| - 1])
  {
    if s != [] && IsWhitespace(s[|s| - 1]) then TrimEnd(s[..|s| - 1]) else s
  }

  /** Everything `TrimEnd` drops is whitespace. */
  lemma {:induction false} TrimEndDrops(s: string)
    ensures forall i :: |TrimEnd(s)| <= i < |s| ==> IsWhitespace(s[i])
  {
    if s != [] && IsWhitespace(s[|s| - 1]) {
      TrimEndDrops(s[..|s| - 1]);
    }
  }

  /** `s.trim()`: neither end of the result is whitespace, and the result is
      empty exactly when `s` is whitespace only. */
  function Trim(s: string): (r: string)
    ensures r == [] || (!IsWhitespace(r[0]) && !IsWhitespace(r[|r| - 1]))
    ensures r == [] <==> forall i :: 0 <= i < |s| ==> IsWhitespace(s[i])
  {
    var t := TrimStart(s);
    var r := TrimEnd(t);
    TrimStartDrops(s);
    TrimEndDrops(t);
    assert r == [] ==> forall i :: 0 <= i < |s| ==> IsWhitespace(s[i]) by {
      if r == [] {
        assert t == [];
      }
    }
    assert r != [] ==> !IsWhitespace(s[|s| - |t|]) by {
      if r != [] {
        assert t[0] == r[0];
      }
    }
    r
  }

  /** A string whose ends are not whitespace is its own trim. */
  lemma TrimmedIsFixpoint(s: string)
    requires s == [] || (!IsWhitespace(s[0]) && !IsWhitespace(s[|s| - 1]))
    ensures Trim(s) == s
  {
  }

  /** Trimming twice is trimming once. */
  lemma TrimIdempotent(s: string)
    ensures Trim(Trim(s)) == Trim(s)
  {
    TrimmedIsFixpoint(Trim(s));
  }

  predicate IsDigit(c: char) {
    '0' <= c <= '9'
  }

  /** A decimal digit as a number. */
  type Digit = d: nat | d < 10

  function DigitValue(c: char): Digit
    requires IsDigit(c)
  {
    c as int - '0' as int
  }

  function DigitChar(d: Digit): (c: char)
    ensures IsDigit(c) && DigitValue(c) == d
  {
    ('0' as int + d) as char
  }

  /** The characters that write a sequence of digits. */
  function Chars(ds: seq<Digit>): (s: string)
    ensures |s| == |ds|
  {
    if ds == [] then [] else [DigitChar(ds[0])] + Chars(ds[1..])
  }

  /** The number a sequence of digits denotes, most significant first. */
  function DigitsValue(ds: seq<Digit>): nat {
    if ds == [] then 0 else DigitsValue(ds[..|ds| - 1]) * 10 + ds[|ds| - 1]
  }

  /** The value of the digits after a decimal point: 2, 5 denote 0.25. */
  function FractionValue(ds: seq<Digit>): (v: real)
    ensures 0.0 <= v < 1.0
  {
    if ds == [] then 0.0 else (ds[0] as real + FractionValue(ds[1..])) / 10.0
  }

  /** The decimal digits of `n`, most significant first, without leading zeros. */
  function Digits(n: nat): (ds: seq<Digit>)
    ensures ds != [] && (n > 0 ==> ds[0] != 0)
  {
    if n < 10 then [n] else Digits(n / 10) + [n % 10]
  }

  lemma {:induction false} DigitsValueOf(n: nat)
    ensures DigitsValue(Digits(n)) == n
  {
    if n >= 10 {
      DigitsValueOf(n / 10);
      var ds := Digits(n);
      assert ds[..|ds| - 1] == Digits(n / 10);
    }
  }

  /** `String(n)` for a natural number `n`. */
  function NatText(n: nat): string {
    Chars(Digits(n))
  }

  // `parseFloat` reads the longest prefix of its argument that is a decimal
  // literal, after skipping leading whitespace. The scan below goes through
  // the string one character at a time, in the phases of that grammar.

  datatype Phase =
    | Lead      // skipping whitespace, nothing read yet
    | Signed    // a sign has been read
    | Whole     // reading integer digits
    | Point     // a point has been read with no integer digits before it
    | Fraction  // reading the digits after the point
    | Done      // the literal has ended; the rest is ignored

  /** What `parseFloat` has read so far: the sign, the integer digits and the
      fraction digits. */
  datatype Numeral = Numeral(phase: Phase, negative: bool, whole: seq<Digit>, fraction: seq<Digit>)

  const Start := Numeral(Lead, false, [], [])

  function Step(n: Numeral, c: char): Numeral {
    match n.phase
    case Lead =>
      if IsWhitespace(c) then n
      else if c == '-' then n.(phase := Signed, negative := true)
      else if c == '+' then n.(phase := Signed)
      else if IsDigit(c) then n.(phase := Whole, whole := [DigitValue(c)])
      else if c == '.' then n.(phase := Point)
      else n.(phase := Done)
    case Signed =>
      if IsDigit(c) then n.(phase := Whole, whole := [DigitValue(c)])
      else if c == '.' then n.(phase := Point)
      else n.(phase := Done)
    case Whole =>
      if IsDigit(c) then n.(whole := n.whole + [DigitValue(c)])
      else if c == '.' then n.(phase := Fraction)
      else n.(phase := Done)
    case Point =>
      if IsDigit(c) then n.(phase := Fraction, fraction := [DigitValue(c)])
      else n.(phase := Done)
    case Fraction =>
      if IsDigit(c) then n.(fraction := n.fraction + [DigitValue(c)])
      else n.(phase := Done)
    case Done => n
  }

  function Run(n: Numeral, s: string): Numeral
    decreases |s|
  {
    if s == [] then n else Run(Step(n, s[0]), s[1..])
  }

  function Scan(s: string): Numeral {
    Run(Start, s)
  }

  /** The unsigned value of a scanned numeral. */
  function Magnitude(n: Numeral): (m: real)
    ensures m >= 0.0
  {
    DigitsValue(n.whole) as real + FractionValue(n.fraction)
  }

  /** `parseFloat(s)`, with `None` for NaN: a number is read exactly when
      the literal has a digit, and it has the sign written in front of it;
      the empty string, in particular, is NaN. */
  function ParseFloat(s: string): (r: Option<real>)
    ensures r.Some? <==> Scan(s).whole != [] || Scan(s).fraction != []
    ensures r.Some? && !Scan(s).negative ==> r.value >= 0.0
    ensures r.Some? && Scan(s).negative ==> r.value <= 0.0
    ensures s == [] ==> r.None?
  {
    var n := Scan(s);
    if n.whole == [] && n.fraction == [] then None
    else Some(if n.negative then -Magnitude(n) else Magnitude(n))
  }

  /** Scanning a concatenation scans the second part from where the first
      part left off. */
  lemma {:induction false} RunAppend(n: Numeral, x: string, y: string)
    ensures Run(n, x + y) == Run(Run(n, x), y)
    decreases x
  {
    if x != [] {
      assert (x + y)[0] == x[0] && (x + y)[1..] == x[1..] + y;
      RunAppend(Step(n, x[0]), x[1..], y);
    } else {
      assert x + y == y;
    }
  }

  /** Once the literal has ended, nothing more is read. */
  lemma {:induction false} RunDone(n: Numeral, s: string)
    requires n.phase == Done
    ensures Run(n, s) == n
    decreases s
  {
    if s != [] {
      RunDone(Step(n, s[0]), s[1..]);
    }
  }

  lemma CharsCons(ds: seq<Digit>)
    requires ds != []
    ensures Chars(ds)[0] == DigitChar(ds[0]) && Chars(ds)[1..] == Chars(ds[1..])
  {
  }

  /** Integer digits are appended to those read so far. */
  lemma {:induction false} RunWholeDigits(n: Numeral, ds: seq<Digit>)
    requires n.phase == Whole
    ensures Run(n, Chars(ds)) == n.(whole := n.whole + ds)
    decreases ds
  {
    if ds != [] {
      var m := n.(whole := n.whole + [ds[0]]);
      assert Run(n, Chars(ds)) == Run(m, Chars(ds[1..])) by {
        CharsCons(ds);
        assert Step(n, DigitChar(ds[0])) == m;
      }
      RunWholeDigits(m, ds[1..]);
      assert n.whole + [ds[0]] + ds[1..] == n.whole + ds;
    }
  }

  /** Fraction digits are appended to those read so far. */
  lemma {:induction false} RunFractionDigits(n: Numeral, ds: seq<Digit>)
    requires n.phase == Fraction
    ensures Run(n, Chars(ds)) == n.(fraction := n.fraction + ds)
    decreases ds
  {
    if ds != [] {
      var m := n.(fraction := n.fraction + [ds[0]]);
      assert Run(n, Chars(ds)) == Run(m, Chars(ds[1..])) by {
        CharsCons(ds);
        assert Step(n, DigitChar(ds[0])) == m;
      }
      RunFractionDigits(m, ds[1..]);
      assert n.fraction + [ds[0]] + ds[1..] == n.fraction + ds;
    }
  }

  /** The sign read before the digits is carried along unchanged. */
  lemma {:induction false} RunKeepsSign(n: Numeral, s: string, negative: bool)
    requires n.phase != Lead
    ensures Run(n.(negative := negative), s) == Run(n, s).(negative := negative)
    decreases s
  {
    if s != [] {
      RunKeepsSign(Step(n, s[0]), s[1..], negative);
    }
  }

  /** A written digit sequence scans as those integer digits. */
  lemma ScanDigits(ds: seq<Digit>)
    requires ds != []
    ensures Scan(Chars(ds)) == Numeral(Whole, false, ds, [])
  {
    CharsCons(ds);
    RunWholeDigits(Numeral(Whole, false, [ds[0]], []), ds[1..]);
    assert [ds[0]] + ds[1..] == ds;
  }

  /** Integer digits, a point and fraction digits scan as such. */
  lemma ScanDecimal(ds: seq<Digit>, fs: seq<Digit>)
    requires ds != []
    ensures Scan(Chars(ds) + "." + Chars(fs)) == Numeral(Fraction, false, ds, fs)
  {
    ScanDigits(ds);
    RunAppend(Start, Chars(ds), ".");
    RunAppend(Start, Chars(ds) + ".", Chars(fs));
    RunFractionDigits(Numeral(Fraction, false, ds, []), fs);
  }

  /** A minus sign in front of a digit-led string only negates the scan. */
  lemma ScanNegated(x: string)
    requires x != [] && IsDigit(x[0])
    ensures Scan("-" + x) == Scan(x).(negative := true)
  {
    var m := Numeral(Whole, false, [DigitValue(x[0])], []);
    assert ("-" + x)[0] == '-' && ("-" + x)[1..] == x;
    assert Run(Start, "-" + x) == Run(Numeral(Signed, true, [], []), x);
    assert Run(Numeral(Signed, true, [], []), x) == Run(m.(negative := true), x[1..]);
    RunKeepsSign(m, x[1..], true);
  }

  /** Leading whitespace is skipped. */
  lemma ParseSkipsWhitespace(c: char, s: string)
    requires IsWhitespace(c)
    ensures ParseFloat([c] + s) == ParseFloat(s)
  {
    assert ([c] + s)[0] == c && ([c] + s)[1..] == s;
  }

  /** A string that starts with anything but whitespace, a sign, a digit or a
      point is not a number. */
  lemma ParseRejects(c: char, s: string)
    requires !IsWhitespace(c) && !IsDigit(c) && c != '-' && c != '+' && c != '.'
    ensures ParseFloat([c] + s) == None
  {
    assert ([c] + s)[0] == c && ([c] + s)[1..] == s;
    RunDone(Start.(phase := Done), s);
  }

  /** Whatever follows the integer digits, other than a point, is ignored. */
  lemma ParseIgnoresRest(ds: seq<Digit>, c: char, rest: string)
    requires ds != [] && !IsDigit(c) && c != '.'
    ensures ParseFloat(Chars(ds) + [c] + rest) == Some(DigitsValue(ds) as real)
  {
    ScanDigits(ds);
    RunAppend(Start, Chars(ds), [c] + rest);
    assert Chars(ds) + [c] + rest == Chars(ds) + ([c] + rest);
    assert ([c] + rest)[0] == c && ([c] + rest)[1..] == rest;
    RunDone(Numeral(Done, false, ds, []), rest);
  }

  /** `parseFloat(String(n))` is `n`. */
  lemma ParseNatText(n: nat)
    ensures ParseFloat(NatText(n)) == Some(n as real)
  {
    ScanDigits(Digits(n));
    DigitsValueOf(n);
  }

  /** Whether `v` has at most two decimal places. */
  predicate IsCents(v: real) {
    (v * 100.0).Floor as real == v * 100.0
  }

  /** The one or two decimal digits of a number of cents below 100, with a
      trailing zero dropped. */
  function CentsDigits(cents: nat): (ds: seq<Digit>)
    requires 0 < cents < 100
    ensures 1 <= |ds| <= 2 && ds[|ds| - 1] != 0
  {
    if cents % 10 == 0 then [cents / 10] else [cents / 10, cents % 10]
  }

  /** `String(c / 100)` for a whole number `c` of cents: the shortest decimal
      that denotes the amount. */
  function CentsText(c: nat): string {
    if c % 100 == 0 then NatText(c / 100)
    else NatText(c / 100) + "." + Chars(CentsDigits(c % 100))
  }

  /** The text of a number of cents starts with a digit. */
  lemma CentsTextLeads(c: nat)
    ensures CentsText(c) != [] && IsDigit(CentsText(c)[0])
  {
    CharsCons(Digits(c / 100));
  }

  /** `String(v)`, exact for amounts with at most two decimal places; further
      places are dropped. The text is never empty, and it starts with a
      minus sign exactly for a negative amount. */
  function NumberText(v: real): (r: string)
    ensures r != [] && (r[0] == '-' <==> v < 0.0)
  {
    if v < 0.0 then
      "-" + CentsText((-v * 100.0).Floor)
    else
      CentsTextLeads((v * 100.0).Floor);
      CentsText((v * 100.0).Floor)
  }

  /** The fraction digits of a number of cents denote the cents. */
  lemma CentsFraction(cents: nat)
    requires 0 < cents < 100
    ensures FractionValue(CentsDigits(cents)) == cents as real / 100.0
  {
    var ds := CentsDigits(cents);
    var hi, lo := cents / 10, cents % 10;
    if lo == 0 {
      assert ds[1..] == [];
      assert FractionValue(ds) == hi as real / 10.0;
    } else {
      assert ds[1..][1..] == [];
      assert FractionValue(ds[1..]) == lo as real / 10.0;
      assert FractionValue(ds) == (hi as real + lo as real / 10.0) / 10.0;
    }
    assert cents == 10 * hi + lo;
  }

  lemma CentsSplit(c: nat)
    ensures c as real / 100.0 == (c / 100) as real + (c % 100) as real / 100.0
  {
    assert c == 100 * (c / 100) + c % 100;
  }

  /** `parseFloat(String(c / 100))` is `c / 100`. */
  lemma CentsTextRoundTrip(c: nat)
    ensures ParseFloat(CentsText(c)) == Some(c as real / 100.0)
  {
    CentsSplit(c);
    DigitsValueOf(c / 100);
    if c % 100 == 0 {
      ScanDigits(Digits(c / 100));
    } else {
      ScanDecimal(Digits(c / 100), CentsDigits(c % 100));
      CentsFraction(c % 100);
    }
  }

  /** `parseFloat("-" + String(c / 100))` is `-c / 100`. */
  lemma NegatedCentsRoundTrip(c: nat)
    ensures ParseFloat("-" + CentsText(c)) == Some(-(c as real / 100.0))
  {
    CentsTextRoundTrip(c);
    CentsTextLeads(c);
    ScanNegated(CentsText(c));
  }

  /** An amount in whole cents is its number of cents over 100. */
  lemma CentsOf(v: real)
    requires IsCents(v)
    ensures v >= 0.0 ==> (v * 100.0).Floor >= 0 && ((v * 100.0).Floor as real) / 100.0 == v
    ensures v < 0.0 ==> (-v * 100.0).Floor >= 0 && -(((-v * 100.0).Floor as real) / 100.0) == v
  {
    var n := (v * 100.0).Floor;
    assert n as real == v * 100.0;
    assert (n as real) / 100.0 == v;
    if v < 0.0 {
      assert -v * 100.0 == (-n) as real;
      assert (-v * 100.0).Floor == -n;
    }
  }

  /** Reading back what `NumberText` writes gives the amount back, for
      amounts with at most two decimal places. */
  lemma NumberTextRoundTrip(v: real)
    requires IsCents(v)
    ensures ParseFloat(NumberText(v)) == Some(v)
  {
    CentsOf(v);
    if v < 0.0 {
      var c: nat := (-v * 100.0).Floor;
      NegatedCentsRoundTrip(c);
      assert NumberText(v) == "-" + CentsText(c);
    } else {
      var c: nat := (v * 100.0).Floor;
      CentsTextRoundTrip(c);
      assert NumberText(v) == CentsText(c);
    }
  }
}
