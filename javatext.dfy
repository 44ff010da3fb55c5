/** The behaviour of the handful of Java library routines the bridge relies on:
    String.valueOf(int), Integer.valueOf / Integer.parseInt, String.equalsIgnoreCase
    and Boolean.parseBoolean, String.split on one literal character, and
    String.format with a single argument. */
module JavaText {

  datatype Option<+T> = None | Some(value: T)

  /** The exceptions the modelled code raises or lets escape. */
  datatype JavaException =
    | IllegalArgument     // IllegalArgumentException, from checkArgument
    | IllegalState        // IllegalStateException, from checkState
    | NullPointer         // NullPointerException, also from checkNotNull
    | NumberFormat        // NumberFormatException
    | IndexOutOfBounds    // ArrayIndexOutOfBoundsException
    | URISyntax           // java.net.URISyntaxException
    | RuntimeMessage(message: string)   // new RuntimeException(message)
    | Runtime(cause: JavaException)   // new RuntimeException(cause)

  /** A value, or the exception thrown instead of returning it. */
  datatype Result<+T> = Ok(value: T) | Err(error: JavaException)

  const MinInt: int := -0x8000_0000
  const MaxInt: int := 0x7fff_ffff

  /** The range of a Java `int`. */
  predicate InInt32(n: int) {
    MinInt <= n <= MaxInt
  }

  // ----- decimal digits -----

  predicate IsDigit(c: char) {
    '0' <= c <= '9'
  }

  predicate AllDigits(s: string) {
    forall i :: 0 <= i < |s| ==> IsDigit(s[i])
  }

  function DigitValue(c: char): (d: nat)
    requires IsDigit(c)
    ensures d < 10
  {
    c as int - '0' as int
  }

  function DigitChar(d: nat): (c: char)
    requires d < 10
    ensures IsDigit(c) && DigitValue(c) == d
  {
    ('0' as int + d) as char
  }

  /** The value of a string of decimal digits, most significant digit first. */
  function DigitsValue(s: string): nat
    requires AllDigits(s)
  {
    if |s| == 0 then 0 else DigitsValue(s[..|s| - 1]) * 10 + DigitValue(s[|s| - 1])
  }

  /** The decimal digits of n without leading zeros. */
  function Digits(n: nat): (s: string)
    ensures |s| >= 1 && AllDigits(s)
    ensures DigitsValue(s) == n
    ensures s[0] == '0' ==> n == 0
    decreases n
  {
    if n < 10 then [DigitChar(n)]
    else
      var init := Digits(n / 10);
      var s := init + [DigitChar(n % 10)];
      assert s[..|s| - 1] == init;
      s
  }

  /** String.valueOf(int) and the `"" + n` concatenation of an int. */
  function Decimal(n: int): (s: string)
    ensures |s| >= 1
    ensures s[0] == '-' <==> n < 0
    ensures n >= 0 ==> AllDigits(s)
    ensures n < 0 ==> AllDigits(s[1..])
  {
    if n < 0 then "-" + Digits(-n) else Digits(n)
  }

  /** Integer.valueOf(String) and Integer.parseInt(String): an optional '-' or '+'
      followed by at least one decimal digit, whose value fits in an `int`.
      None stands for the NumberFormatException thrown otherwise. */
  function ParseInt(s: string): (r: Option<int>)
    ensures r.Some? ==> InInt32(r.value)
    ensures r.Some? ==> |s| >= 1 && IsDigit(s[|s| - 1])
  {
    if |s| == 0 then None
    else
      var body := if s[0] == '-' || s[0] == '+' then s[1..] else s;
      if |body| == 0 || !AllDigits(body) then None
      else
        var v: int := if s[0] == '-' then -(DigitsValue(body) as int) else DigitsValue(body);
        assert s[|s| - 1] == body[|body| - 1];
        if InInt32(v) then Some(v) else None
  }

  /** Every int's decimal text parses back to it. */
  lemma ParseDecimal(n: int)
    requires InInt32(n)
    ensures ParseInt(Decimal(n)) == Some(n)
  {
    if n < 0 {
      var s := Decimal(n);
      assert s[1..] == Digits(-n);
    }
  }

  /** A character other than a digit, after the optional sign, makes the text unparseable. */
  lemma ParseRejectsNonDigit(s: string, i: nat)
    requires i < |s| && !IsDigit(s[i])
    requires i > 0 || (s[0] != '-' && s[0] != '+')
    ensures ParseInt(s) == None
  {
    if s[0] == '-' || s[0] == '+' {
      assert s[1..][i - 1] == s[i];
    }
  }

  /** Decimal text never contains a '/' or a line break, so it can sit between separators. */
  lemma DecimalHasNoSeparator(n: int, c: char)
    requires !IsDigit(c) && c != '-'
    ensures c !in Decimal(n)
  {
    var s := Decimal(n);
    forall i | 0 <= i < |s|
      ensures IsDigit(s[i]) || s[i] == '-'
    {
      if n < 0 && i > 0 {
        assert s[i] == Digits(-n)[i - 1];
      }
    }
  }

  // ----- case-insensitive comparison -----

  predicate IsAscii(s: string) {
    forall i :: 0 <= i < |s| ==> s[i] as int < 128
  }

  /** Character.toUpperCase restricted to the characters whose upper case is ASCII:
      the ASCII letters, dotless i (U+0131) and long s (U+017F). */
  function ToUpper(c: char): char {
    if 'a' <= c <= 'z' then (c as int - 32) as char
    else if c == '\U{0131}' then 'I'
    else if c == '\U{017F}' then 'S'
    else c
  }

  /** Character.toLowerCase restricted to the characters whose lower case is ASCII:
      the ASCII letters, dotted capital I (U+0130) and the Kelvin sign (U+212A). */
  function ToLower(c: char): char {
    if 'A' <= c <= 'Z' then (c as int + 32) as char
    else if c == '\U{0130}' then 'i'
    else if c == '\U{212A}' then 'k'
    else c
  }

  /** The per-character test of String.regionMatches(ignoreCase = true). */
  predicate CharEqualsIgnoreCase(a: char, b: char) {
    a == b || ToUpper(a) == ToUpper(b) || ToLower(ToUpper(a)) == ToLower(ToUpper(b))
  }

  /** String.equalsIgnoreCase, exact whenever one side is ASCII text (every caller
      here compares against an ASCII constant). */
  predicate EqualsIgnoreCase(lit: string, s: string)
    requires IsAscii(lit)
    ensures lit == s ==> EqualsIgnoreCase(lit, s)
    ensures EqualsIgnoreCase(lit, s) ==> |s| == |lit|
  {
    |lit| == |s| && forall i :: 0 <= i < |s| ==> CharEqualsIgnoreCase(lit[i], s[i])
  }

  /** Boolean.parseBoolean: true exactly when the text is "true" ignoring case. */
  predicate ParseBoolean(s: string)
    ensures ParseBoolean(s) ==> |s| == 4
    ensures s == "true" || s == "True" || s == "TRUE" ==> ParseBoolean(s)
    ensures s == "false" ==> !ParseBoolean(s)
  {
    EqualsIgnoreCase("true", s)
  }

  // ----- String.split on a single literal character -----

  function IndexOf(s: string, c: char): (k: nat)
    requires c in s
    ensures k < |s| && s[k] == c && c !in s[..k]
  {
    if s[0] == c then 0
    else
      var k := 1 + IndexOf(s[1..], c);
      assert s[..k] == [s[0]] + s[1..][..k - 1];
      k
  }

  /** All pieces of s between occurrences of sep, empty ones included. */
  function Pieces(s: string, sep: char): (r: seq<string>)
    ensures |r| >= 1
    ensures forall i :: 0 <= i < |r| ==> sep !in r[i]
    decreases |s|
  {
    if sep !in s then [s]
    else
      var k := IndexOf(s, sep);
      [s[..k]] + Pieces(s[k + 1..], sep)
  }

  /** The pieces glued back together with the separator. */
  function Join(r: seq<string>, sep: char): string
    requires |r| >= 1
  {
    if |r| == 1 then r[0] else r[0] + [sep] + Join(r[1..], sep)
  }

  lemma {:induction false} JoinPieces(s: string, sep: char)
    ensures Join(Pieces(s, sep), sep) == s
    decreases |s|
  {
    if sep in s {
      var k := IndexOf(s, sep);
      var tail := Pieces(s[k + 1..], sep);
      var r := [s[..k]] + tail;
      assert Pieces(s, sep) == r;
      assert r[0] == s[..k] && r[1..] == tail;
      JoinPieces(s[k + 1..], sep);
      assert Join(r, sep) == s[..k] + [sep] + s[k + 1..];
      assert s == s[..k] + [sep] + s[k + 1..];
    }
  }

  function DropTrailingEmpty(r: seq<string>): (t: seq<string>)
    ensures |t| <= |r| && t == r[..|t|]
    ensures |t| > 0 ==> t[|t| - 1] != ""
    ensures forall i :: |t| <= i < |r| ==> r[i] == ""
  {
    if |r| > 0 && r[|r| - 1] == "" then DropTrailingEmpty(r[..|r| - 1]) else r
  }

  /** String.split(regex) for a regex matching one literal character: the input
      itself when the character does not occur, otherwise the pieces without the
      trailing empty ones. */
  function Split(s: string, sep: char): (r: seq<string>)
    ensures forall i :: 0 <= i < |r| ==> sep !in r[i]
  {
    if sep !in s then [s] else DropTrailingEmpty(Pieces(s, sep))
  }

  /** "a<sep>b" splits into exactly [a, b] when neither side holds the separator and b is not empty. */
  lemma SplitPair(a: string, b: string, sep: char)
    requires sep !in a && sep !in b && b != ""
    ensures Split(a + [sep] + b, sep) == [a, b]
  {
    var s := a + [sep] + b;
    assert s[|a|] == sep;
    var k := IndexOf(s, sep);
    assert k == |a|;
    assert s[..k] == a && s[k + 1..] == b;
    assert Pieces(s, sep) == [a] + Pieces(b, sep) == [a, b];
  }

  // ----- String.format with one argument -----

  function Prepend(p: string, r: Option<string>): Option<string> {
    if r.Some? then Some(p + r.value) else None
  }

  /** String.format(t, arg) where arg is already a string: the first %s takes arg,
      %% is a literal percent sign; a second %s has no argument left, and other
      conversions are outside this model: both give None (an exception). */
  function FormatFrom(t: string, arg: string, used: bool): (r: Option<string>)
    ensures r.Some? ==> |r.value| <= |t| + (if used then 0 else |arg|)
    decreases |t|
  {
    if |t| == 0 then Some("")
    else if t[0] != '%' then Prepend([t[0]], FormatFrom(t[1..], arg, used))
    else if |t| >= 2 && t[1] == 's' && !used then Prepend(arg, FormatFrom(t[2..], arg, true))
    else if |t| >= 2 && t[1] == '%' then Prepend("%", FormatFrom(t[2..], arg, used))
    else None
  }

  /** String.format(t, arg): the argument is used at most once, and a template without
      '%' comes back unchanged. */
  function Format(t: string, arg: string): (r: Option<string>)
    ensures r.Some? ==> |r.value| <= |t| + |arg|
    ensures '%' !in t ==> r == Some(t)
  {
    if '%' !in t then FormatLiteral(t, arg, false); FormatFrom(t, arg, false)
    else FormatFrom(t, arg, false)
  }

  /** Text without '%' formats to itself. */
  lemma {:induction false} FormatLiteral(t: string, arg: string, used: bool)
    requires '%' !in t
    ensures FormatFrom(t, arg, used) == Some(t)
    decreases |t|
  {
    if |t| > 0 {
      assert t[0] in t;
      assert forall c :: c in t[1..] ==> c in t;
      FormatLiteral(t[1..], arg, used);
      assert [t[0]] + t[1..] == t;
    }
  }

  /** A percent-free head is copied through unchanged. */
  lemma {:induction false} FormatHead(head: string, rest: string, arg: string, used: bool)
    requires '%' !in head
    ensures FormatFrom(head + rest, arg, used) == Prepend(head, FormatFrom(rest, arg, used))
    decreases |head|
  {
    if |head| > 0 {
      var t := head + rest;
      assert t[0] == head[0] && t[1..] == head[1..] + rest;
      assert head[0] in head;
      assert forall c :: c in head[1..] ==> c in head;
      FormatHead(head[1..], rest, arg, used);
      assert FormatFrom(t, arg, used) == Prepend([head[0]], FormatFrom(t[1..], arg, used));
      var r := FormatFrom(rest, arg, used);
      if r.Some? {
        assert [head[0]] + (head[1..] + r.value) == head + r.value;
      }
    } else {
      assert head + rest == rest;
      var r := FormatFrom(rest, arg, used);
      if r.Some? {
        assert head + r.value == r.value;
      }
    }
  }

  /** A template with a single %s between percent-free texts substitutes the argument. */
  lemma FormatSingle(head: string, tail: string, arg: string)
    requires '%' !in head && '%' !in tail
    ensures Format(head + "%s" + tail, arg) == Some(head + arg + tail)
  {
    var t := "%s" + tail;
    assert t[0] == '%' && t[1] == 's' && t[2..] == tail;
    FormatLiteral(tail, arg, true);
    assert FormatFrom(t, arg, false) == Some(arg + tail);
    FormatHead(head, t, arg, false);
    assert head + "%s" + tail == head + t;
    assert head + arg + tail == head + (arg + tail);
  }

  /** Whether formatting succeeds does not depend on the argument's text. */
  lemma {:induction false} FormatSucceedsForAnyArg(t: string, a: string, b: string, used: bool)
    ensures FormatFrom(t, a, used).Some? == FormatFrom(t, b, used).Some?
    decreases |t|
  {
    if |t| == 0 {
    } else if t[0] != '%' {
      FormatSucceedsForAnyArg(t[1..], a, b, used);
    } else if |t| >= 2 && t[1] == 's' && !used {
      FormatSucceedsForAnyArg(t[2..], a, b, true);
    } else if |t| >= 2 && t[1] == '%' {
      FormatSucceedsForAnyArg(t[2..], a, b, used);
    }
  }
}
