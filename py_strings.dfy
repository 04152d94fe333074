/** The slice of Python string semantics the core relies on: truth testing of
    optional strings, `str()` of the values it formats, and the `%` operator
    with the `%s`, `%d` and `%%` conversions. */
module PyStrings {
  import opened Wrappers

  /** Python truth testing of a value that is a string or `None`:
      `None` and `''` are false, every other string is true. */
  predicate Truthy(s: Option<string>) {
    s.Some? && s.value != ""
  }

  /** A value handed to the `%` operator. */
  datatype Arg = Str(s: string) | Int(i: int) | NoneArg

  /** The optional string `s` as a `%` operand (`None` stays `None`). */
  function OptArg(s: Option<string>): Arg {
    match s
    case Some(v) => Str(v)
    case None => NoneArg
  }

  function Digit(d: nat): char
    requires d < 10
  {
    "0123456789"[d]
  }

  function NatDigits(n: nat): (r: string)
    ensures |r| > 0
    decreases n
  {
    if n < 10 then [Digit(n)] else NatDigits(n / 10) + [Digit(n % 10)]
  }

  /** `str(n)` (and `'%d' % n`) for an integer: optional minus sign, then decimal digits. */
  function DecimalString(n: int): string {
    if n < 0 then "-" + NatDigits(-n) else NatDigits(n)
  }

  /** The value of a string of decimal digits (the inverse of NatDigits). */
  function DigitsValue(s: string): int {
    if s == [] then 0 else DigitsValue(s[..|s| - 1]) * 10 + DigitValue(s[|s| - 1])
  }

  function DigitValue(c: char): int {
    if '0' <= c <= '9' then c as int - '0' as int else 0
  }

  /** Reading an integer back from its decimal rendering. */
  function ParseDecimal(s: string): int {
    if |s| > 0 && s[0] == '-' then -DigitsValue(s[1..]) else DigitsValue(s)
  }

  lemma {:induction false} NatDigitsRoundTrip(n: nat)
    ensures DigitsValue(NatDigits(n)) == n
    ensures '0' <= NatDigits(n)[0] <= '9'
    decreases n
  {
    if n >= 10 {
      NatDigitsRoundTrip(n / 10);
      var r := NatDigits(n);
      assert r[..|r| - 1] == NatDigits(n / 10);
      assert r[0] == NatDigits(n / 10)[0];
    }
  }

  lemma ParseSigned(d: string)
    ensures ParseDecimal("-" + d) == -DigitsValue(d)
  {
    assert ("-" + d)[1..] == d;
  }

  lemma ParseUnsigned(d: string)
    requires |d| > 0 && d[0] != '-'
    ensures ParseDecimal(d) == DigitsValue(d)
  {
  }

  /** `str` of an integer reads back as the same integer. */
  lemma DecimalStringRoundTrip(n: int)
    ensures ParseDecimal(DecimalString(n)) == n
  {
    if n < 0 {
      var d := NatDigits(-n);
      NatDigitsRoundTrip(-n);
      assert DecimalString(n) == "-" + d;
      ParseSigned(d);
    } else {
      var d := NatDigits(n);
      NatDigitsRoundTrip(n);
      assert DecimalString(n) == d;
      ParseUnsigned(d);
    }
  }

  /** Python's `str()` of a formatted value. */
  function PyStr(a: Arg): string {
    match a
    case Str(s) => s
    case Int(i) => DecimalString(i)
    case NoneArg => "None"
  }

  /** `p` in front of a formatted remainder; a failure stays a failure. */
  function Prepend(p: string, rest: Option<string>): Option<string> {
    match rest
    case Some(s) => Some(p + s)
    case None => None
  }

  /** `template % tuple(args)`. `None` stands for the TypeError or ValueError
      Python raises: too few or too many arguments, `%d` given a non-number,
      a dangling `%`; a conversion this model does not cover (anything but `%s`,
      `%d` and `%%`) also yields `None`. */
  function Format(template: string, args: seq<Arg>): Option<string>
    decreases |template|
  {
    if template == [] then
      if args == [] then Some("") else None
    else if template[0] != '%' then
      Prepend(template[..1], Format(template[1..], args))
    else if |template| == 1 then
      None
    else if template[1] == '%' then
      Prepend("%", Format(template[2..], args))
    else if template[1] == 's' && args != [] then
      Prepend(PyStr(args[0]), Format(template[2..], args[1..]))
    else if template[1] == 'd' && args != [] && args[0].Int? then
      Prepend(DecimalString(args[0].i), Format(template[2..], args[1..]))
    else
      None
  }

  /** Text without `%` is copied to the output unchanged. */
  lemma {:induction false} FormatText(text: string, rest: string, args: seq<Arg>)
    requires '%' !in text
    ensures Format(text + rest, args) == Prepend(text, Format(rest, args))
    decreases |text|
  {
    if text != [] {
      assert text[0] in text;
      assert (text + rest)[1..] == text[1..] + rest;
      assert (text + rest)[..1] == text[..1];
      FormatText(text[1..], rest, args);
      match Format(rest, args)
      case Some(tail) =>
        calc {
          Format(text + rest, args);
          Prepend(text[..1], Prepend(text[1..], Some(tail)));
          Some(text[..1] + (text[1..] + tail));
          { assert text[..1] + (text[1..] + tail) == (text[..1] + text[1..]) + tail;
            assert text[..1] + text[1..] == text; }
          Some(text + tail);
        }
      case None =>
    } else {
      assert text + rest == rest;
      match Format(rest, args)
      case Some(tail) => assert text + tail == tail;
      case None =>
    }
  }

  /** A `%s` conversion consumes one argument and inserts its `str()`. */
  lemma FormatStr(rest: string, a: Arg, args: seq<Arg>)
    ensures Format("%s" + rest, [a] + args) == Prepend(PyStr(a), Format(rest, args))
  {
    assert ("%s" + rest)[2..] == rest;
    assert ([a] + args)[1..] == args;
  }

  /** A `%d` conversion consumes one integer argument and inserts its decimal form. */
  lemma FormatInt(rest: string, i: int, args: seq<Arg>)
    ensures Format("%d" + rest, [Int(i)] + args) == Prepend(DecimalString(i), Format(rest, args))
  {
    assert ("%d" + rest)[2..] == rest;
    assert ([Int(i)] + args)[1..] == args;
  }

  /** A `%d` conversion refuses a string or `None` argument. */
  lemma FormatIntRejectsNonNumber(rest: string, a: Arg, args: seq<Arg>)
    requires !a.Int?
    ensures Format("%d" + rest, [a] + args) == None
  {
  }

  lemma PrependPrepend(p: string, q: string, rest: Option<string>)
    ensures Prepend(p, Prepend(q, rest)) == Prepend(p + q, rest)
  {
    match rest
    case Some(tail) => assert p + (q + tail) == (p + q) + tail;
    case None =>
  }

  /** Literal text followed by `%s`: both are emitted, the argument rendered by `str()`. */
  lemma FormatStrField(text: string, rest: string, a: Arg, args: seq<Arg>)
    requires '%' !in text
    ensures Format(text + ("%s" + rest), [a] + args) == Prepend(text + PyStr(a), Format(rest, args))
  {
    FormatText(text, "%s" + rest, [a] + args);
    FormatStr(rest, a, args);
    PrependPrepend(text, PyStr(a), Format(rest, args));
  }

  /** Literal text followed by `%d`: both are emitted, the integer in decimal. */
  lemma FormatIntField(text: string, rest: string, i: int, args: seq<Arg>)
    requires '%' !in text
    ensures Format(text + ("%d" + rest), [Int(i)] + args) == Prepend(text + DecimalString(i), Format(rest, args))
  {
    FormatText(text, "%d" + rest, [Int(i)] + args);
    FormatInt(rest, i, args);
    PrependPrepend(text, DecimalString(i), Format(rest, args));
  }

  /** Two consecutive literal-then-`%s` fields. */
  lemma FormatStrFields2(t0: string, t1: string, rest: string, a0: Arg, a1: Arg, args: seq<Arg>)
    requires '%' !in t0 && '%' !in t1
    ensures Format(t0 + ("%s" + (t1 + ("%s" + rest))), [a0, a1] + args)
         == Prepend((t0 + PyStr(a0)) + (t1 + PyStr(a1)), Format(rest, args))
  {
    assert [a0, a1] + args == [a0] + ([a1] + args);
    FormatStrField(t0, t1 + ("%s" + rest), a0, [a1] + args);
    FormatStrField(t1, rest, a1, args);
    PrependPrepend(t0 + PyStr(a0), t1 + PyStr(a1), Format(rest, args));
  }

  /** Regrouping the text that `FormatStrFields4` emits into left-to-right order. */
  lemma Regroup8(a: string, b: string, c: string, d: string, e: string, f: string, g: string, h: string)
    ensures (a + b) + (c + d) + ((e + f) + (g + h)) == a + b + c + d + e + f + g + h
  {
    assert (a + b) + (c + d) == a + b + c + d;
    assert (e + f) + (g + h) == e + f + g + h;
  }

  lemma Regroup3(a: string, b: string, c: string)
    ensures a + (b + c) == a + b + c
  {
  }

  /** Four consecutive literal-then-`%s` fields. */
  lemma FormatStrFields4(t0: string, t1: string, t2: string, t3: string, rest: string,
                         a0: Arg, a1: Arg, a2: Arg, a3: Arg, args: seq<Arg>)
    requires '%' !in t0 && '%' !in t1 && '%' !in t2 && '%' !in t3
    ensures Format(t0 + ("%s" + (t1 + ("%s" + (t2 + ("%s" + (t3 + ("%s" + rest))))))), [a0, a1, a2, a3] + args)
         == Prepend((t0 + PyStr(a0)) + (t1 + PyStr(a1)) + ((t2 + PyStr(a2)) + (t3 + PyStr(a3))), Format(rest, args))
  {
    var q0 := (t0 + PyStr(a0)) + (t1 + PyStr(a1));
    var q1 := (t2 + PyStr(a2)) + (t3 + PyStr(a3));
    assert [a0, a1, a2, a3] + args == [a0, a1] + ([a2, a3] + args);
    FormatStrFields2(t0, t1, t2 + ("%s" + (t3 + ("%s" + rest))), a0, a1, [a2, a3] + args);
    FormatStrFields2(t2, t3, rest, a2, a3, args);
    PrependPrepend(q0, q1, Format(rest, args));
  }
}
