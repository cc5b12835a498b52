/** Values shared by every component: optional values, the service reply, Java's decimal
    rendering and parsing of integers (used to build and read store keys and members),
    blank strings, dates and time units. */
module Common {

  datatype Option<+T> = None | Some(value: T)

  /** The reply every service returns: `Result.ok(data)`, `Result.ok()`, `Result.fail(msg)`,
      or an exception that escapes the service. */
  datatype Result<+T> = Ok(data: T) | OkEmpty | Fail(errorMsg: string) | Raised(reason: string)

  /** The decimal digit character for 0 <= d < 10. */
  function DigitChar(d: nat): (c: char)
    requires d < 10
    ensures '0' <= c <= '9'
    ensures DigitValue(c) == d
  {
    (48 + d) as char
  }

  function DigitValue(c: char): int
  {
    c as int - 48
  }

  predicate IsDigit(c: char) { '0' <= c <= '9' }

  predicate AllDigits(s: string) { forall i :: 0 <= i < |s| ==> IsDigit(s[i]) }

  /** Decimal rendering of a natural number, most significant digit first, no leading zeros. */
  function NatStr(n: nat): (s: string)
    ensures |s| >= 1 && AllDigits(s)
    ensures (|s| == 1) == (n < 10)
  {
    if n < 10 then [DigitChar(n)] else NatStr(n / 10) + [DigitChar(n % 10)]
  }

  /** `Long.toString`: a leading '-' for negative numbers. */
  function Str(n: int): string
  {
    if n < 0 then "-" + NatStr(-n) else NatStr(n)
  }

  lemma {:induction false} NatStrInjective(a: nat, b: nat)
    requires NatStr(a) == NatStr(b)
    ensures a == b
  {
    var sa, sb := NatStr(a), NatStr(b);
    if a >= 10 && b >= 10 {
      assert sa[..|sa| - 1] == NatStr(a / 10);
      assert sb[..|sb| - 1] == NatStr(b / 10);
      NatStrInjective(a / 10, b / 10);
      assert DigitValue(sa[|sa| - 1]) == a % 10 && DigitValue(sb[|sb| - 1]) == b % 10;
    } else if a < 10 && b < 10 {
      assert DigitValue(sa[0]) == a && DigitValue(sb[0]) == b;
    }
  }

  /** Different numbers render differently, so keys built from ids never collide. */
  lemma StrInjective(a: int, b: int)
    requires Str(a) == Str(b)
    ensures a == b
  {
    assert (Str(a)[0] == '-') == (a < 0) && (Str(b)[0] == '-') == (b < 0);
    if a < 0 {
      assert NatStr(-a) == Str(a)[1..] == Str(b)[1..] == NatStr(-b);
      NatStrInjective(-a, -b);
    } else {
      NatStrInjective(a, b);
    }
  }

  /** Two keys built from the same prefix are equal exactly when their suffixes are. */
  lemma PrefixCancel(p: string, s: string, t: string)
    requires p + s == p + t
    ensures s == t
  {
    assert s == (p + s)[|p|..];
    assert t == (p + t)[|p|..];
  }

  /** Keys `p + Str(a)` and `p + Str(b)` coincide only for a == b. */
  lemma IdKeyInjective(p: string, a: int, b: int)
    requires p + Str(a) == p + Str(b)
    ensures a == b
  {
    PrefixCancel(p, Str(a), Str(b));
    StrInjective(a, b);
  }

  /** A blank character as hutool's `CharUtil.isBlankChar` defines it: Java's
      `Character.isWhitespace` or `Character.isSpaceChar` (the characters of Unicode
      categories Zs, Zl and Zp, tab, line feed, vertical tab, form feed, carriage return
      and U+001C to U+001F), plus U+FEFF, U+202A, U+0000, U+3164, U+2800 and U+180E. */
  predicate IsBlankChar(c: char)
  {
    || c == '\t' || c == '\n' || c == '\U{B}' || c == '\U{C}' || c == '\r'
    || ('\U{1C}' <= c <= '\U{1F}')
    || c == ' ' || c == '\U{A0}' || c == '\U{1680}' || ('\U{2000}' <= c <= '\U{200A}')
    || c == '\U{2028}' || c == '\U{2029}' || c == '\U{202F}' || c == '\U{205F}' || c == '\U{3000}'
    || c == '\U{FEFF}' || c == '\U{202A}' || c == '\U{0}' || c == '\U{3164}' || c == '\U{2800}'
    || c == '\U{180E}'
  }

  /** `StrUtil.isBlank` on a non-null string: empty or only whitespace. */
  predicate IsBlank(s: string)
  {
    forall i :: 0 <= i < |s| ==> IsBlankChar(s[i])
  }

  // ----- parsing: Long.valueOf -----

  const LONG_MIN := -0x8000_0000_0000_0000
  const LONG_MAX := 0x7FFF_FFFF_FFFF_FFFF

  /** The value of a string of decimal digits. */
  function DecimalValue(s: string): nat
    requires AllDigits(s)
  {
    if s == [] then 0 else 10 * DecimalValue(s[..|s| - 1]) + DigitValue(s[|s| - 1])
  }

  /** `Long.valueOf`: an optional '-' or '+' and at least one digit, within the range of a long;
      anything else is a NumberFormatException, here None. */
  function ParseLong(s: string): (r: Option<int>)
    ensures r.Some? ==> LONG_MIN <= r.value <= LONG_MAX
  {
    var neg := |s| > 0 && s[0] == '-';
    var digits := if |s| > 0 && (s[0] == '-' || s[0] == '+') then s[1..] else s;
    if |digits| == 0 || !AllDigits(digits) then None
    else
      var v: int := if neg then 0 - (DecimalValue(digits) as int) else DecimalValue(digits);
      if LONG_MIN <= v <= LONG_MAX then Some(v) else None
  }

  /** Every string of the list parses as a long. */
  predicate AllParse(names: seq<string>)
  {
    forall i :: 0 <= i < |names| ==> ParseLong(names[i]).Some?
  }

  function ParseAll(names: seq<string>): (ids: seq<int>)
    requires AllParse(names)
    ensures |ids| == |names|
    ensures forall i :: 0 <= i < |names| ==> ParseLong(names[i]) == Some(ids[i])
  {
    if names == [] then [] else [ParseLong(names[0]).value] + ParseAll(names[1..])
  }

  lemma {:induction false} ParseAllAppend(names: seq<string>, name: string)
    requires AllParse(names) && ParseLong(name).Some?
    ensures AllParse(names + [name])
    ensures ParseAll(names + [name]) == ParseAll(names) + [ParseLong(name).value]
  {
    var all := names + [name];
    assert forall i :: 0 <= i < |all| ==> ParseLong(all[i]).Some? by {
      forall i | 0 <= i < |all| ensures ParseLong(all[i]).Some? {
        if i < |names| { assert all[i] == names[i]; }
      }
    }
    if names != [] {
      assert all[1..] == names[1..] + [name];
      ParseAllAppend(names[1..], name);
    }
  }

  lemma {:induction false} DecimalValueOfNatStr(n: nat)
    ensures DecimalValue(NatStr(n)) == n
  {
    var s := NatStr(n);
    if n >= 10 {
      DecimalValueOfNatStr(n / 10);
      assert s[..|s| - 1] == NatStr(n / 10);
    }
  }

  /** Parsing a rendered long gives it back: ids stored as set or sorted-set members
      come back unchanged. */
  lemma ParseStr(n: int)
    requires LONG_MIN <= n <= LONG_MAX
    ensures ParseLong(Str(n)) == Some(n)
  {
    var s := Str(n);
    if n < 0 {
      assert s[0] == '-' && s[1..] == NatStr(-n);
      DecimalValueOfNatStr(-n);
    } else {
      assert s == NatStr(n) && IsDigit(s[0]);
      DecimalValueOfNatStr(n);
    }
  }

  // ----- fixed-width decimal fields and dates -----

  function Pow10(w: nat): (p: nat)
    ensures p >= 1
  {
    if w == 0 then 1 else 10 * Pow10(w - 1)
  }

  /** The last `w` decimal digits of `n`, with leading zeros (the `yyyy`, `MM`, `dd`
      fields of a date pattern). */
  function Digits(n: nat, w: nat): (s: string)
    ensures |s| == w && AllDigits(s)
  {
    if w == 0 then [] else Digits(n / 10, w - 1) + [DigitChar(n % 10)]
  }

  lemma {:induction false} DigitsInjective(a: nat, b: nat, w: nat)
    requires a < Pow10(w) && b < Pow10(w)
    requires Digits(a, w) == Digits(b, w)
    ensures a == b
  {
    if w > 0 {
      var sa, sb := Digits(a, w), Digits(b, w);
      assert sa[..w - 1] == Digits(a / 10, w - 1);
      assert sb[..w - 1] == Digits(b / 10, w - 1);
      DigitsInjective(a / 10, b / 10, w - 1);
      assert DigitValue(sa[w - 1]) == a % 10 && DigitValue(sb[w - 1]) == b % 10;
    }
  }

  /** Random decimal digits: each draw of `RandomUtil`/`Random.nextInt(10)` becomes one digit. */
  function DigitsOf(draws: seq<nat>): (s: string)
    ensures |s| == |draws| && AllDigits(s)
    ensures forall i :: 0 <= i < |draws| ==> DigitValue(s[i]) == draws[i] % 10
  {
    if draws == [] then [] else [DigitChar(draws[0] % 10)] + DigitsOf(draws[1..])
  }

  /** A `LocalDateTime` as the services read it: the instant in epoch seconds and its
      calendar fields in the server's zone. */
  datatype DateTime = DateTime(epochSecond: int, year: int, month: int, day: int)

  predicate CalendarFields(d: DateTime)
  {
    0 <= d.year <= 9999 && 1 <= d.month <= 12 && 1 <= d.day <= 31
  }

  /** The pattern yyyy:MM. */
  function FormatMonth(d: DateTime): (s: string)
    requires CalendarFields(d)
    ensures |s| == 7
  {
    Digits(d.year, 4) + ":" + Digits(d.month, 2)
  }

  /** The pattern yyyy:MM:dd. */
  function FormatDate(d: DateTime): (s: string)
    requires CalendarFields(d)
    ensures |s| == 10 && s[..7] == FormatMonth(d)
  {
    FormatMonth(d) + ":" + Digits(d.day, 2)
  }

  /** Two dates format alike exactly when their calendar fields agree. */
  lemma FormatDateInjective(d1: DateTime, d2: DateTime)
    requires CalendarFields(d1) && CalendarFields(d2)
    requires FormatDate(d1) == FormatDate(d2)
    ensures d1.year == d2.year && d1.month == d2.month && d1.day == d2.day
  {
    var f1, f2 := FormatDate(d1), FormatDate(d2);
    assert Digits(d1.year, 4) == f1[..4] == f2[..4] == Digits(d2.year, 4);
    assert Digits(d1.month, 2) == f1[5..7] == f2[5..7] == Digits(d2.month, 2);
    assert Digits(d1.day, 2) == f1[8..] == f2[8..] == Digits(d2.day, 2);
    assert Pow10(2) == 100 && Pow10(4) == 10000;
    DigitsInjective(d1.year, d2.year, 4);
    DigitsInjective(d1.month, d2.month, 2);
    DigitsInjective(d1.day, d2.day, 2);
  }

  datatype TimeUnit = Milliseconds | Seconds | Minutes

  /** A duration in the given unit, in milliseconds (the model's clock unit). */
  function ToMillis(amount: int, unit: TimeUnit): (ms: int)
    ensures amount >= 0 ==> ms >= amount
  {
    match unit
    case Milliseconds => amount
    case Seconds => amount * 1000
    case Minutes => amount * 60000
  }
}
