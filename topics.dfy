/** The topic namespace of the bridge: the write patterns an inbound topic is matched
    against and the read templates outbound topics are formatted from, all derived
    from one base topic (class Config, its DEFAULT instance and setTopic). */
module Topics {
  import opened JavaText

  const DEFAULT_TOPIC: string := "home/devices/ardulink/"

  /** The regular-expression source of the capturing group `(\w+)`. */
  const WORD_GROUP: string := "(\\w+)"

  /** Characters with a meaning in java.util.regex syntax. */
  predicate IsRegexMeta(c: char) {
    c == '\\' || c == '^' || c == '$' || c == '.' || c == '|' || c == '?' || c == '*'
    || c == '+' || c == '(' || c == ')' || c == '[' || c == ']' || c == '{' || c == '}'
  }

  /** A base topic that reads literally both as a regex prefix and as a format template. */
  predicate ValidBase(base: string) {
    forall i :: 0 <= i < |base| ==> !IsRegexMeta(base[i]) && base[i] != '%'
  }

  /** `\w` of java.util.regex without the UNICODE_CHARACTER_CLASS flag. */
  predicate IsWordChar(c: char) {
    'a' <= c <= 'z' || 'A' <= c <= 'Z' || '0' <= c <= '9' || c == '_'
  }

  /** A text matched by `\w+`. */
  predicate IsWord(s: string) {
    |s| > 0 && forall i :: 0 <= i < |s| ==> IsWordChar(s[i])
  }

  /** A compiled pattern `prefix(\w+)suffix` whose prefix and suffix are literal text. */
  datatype WritePattern = WritePattern(prefix: string, suffix: string) {

    /** The text given to Pattern.compile. */
    function Source(): string {
      prefix + WORD_GROUP + suffix
    }

    /** matcher(topic).matches() followed by group(1); None when the whole topic does not match. */
    function Match(topic: string): (g: Option<string>)
      ensures g.Some? ==> IsWord(g.value) && topic == prefix + g.value + suffix
    {
      if |topic| < |prefix| + |suffix| then None
      else
        var middle := topic[|prefix|..|topic| - |suffix|];
        if topic[..|prefix|] == prefix && topic[|topic| - |suffix|..] == suffix && IsWord(middle)
        then
          assert topic == topic[..|prefix|] + middle + topic[|topic| - |suffix|..];
          Some(middle)
        else None
    }
  }

  /** The match is exactly the decomposition of the topic around a word group. */
  lemma MatchIff(p: WritePattern, topic: string, g: string)
    ensures p.Match(topic) == Some(g) <==> IsWord(g) && topic == p.prefix + g + p.suffix
  {
    if IsWord(g) && topic == p.prefix + g + p.suffix {
      assert topic[..|p.prefix|] == p.prefix;
      assert topic[|p.prefix|..|topic| - |p.suffix|] == g;
      assert topic[|topic| - |p.suffix|..] == p.suffix;
    }
  }

  /** The four topic templates of one configuration: the getters of class Config. */
  datatype Config = Config(
    topicPatternDigitalWrite: WritePattern,
    topicPatternDigitalRead: string,
    topicPatternAnalogWrite: WritePattern,
    topicPatternAnalogRead: string)

  /** Config.format: base + prefix + String.format("%s/value", numerated) + appendix
      (LayoutFormats shows the String.format step). */
  function Layout(base: string, prefix: string, numerated: string, appendix: string): string {
    base + prefix + numerated + "/value" + appendix
  }

  lemma LayoutFormats(base: string, prefix: string, numerated: string, appendix: string)
    ensures Format("%s/value", numerated).Some?
    ensures Layout(base, prefix, numerated, appendix)
         == base + prefix + Format("%s/value", numerated).value + appendix
  {
    FormatSingle("", "/value", numerated);
    assert "" + "%s" + "/value" == "%s/value";
  }

  /** Config.read: the template an outbound topic is formatted from, with its one `%s`
      where the pin goes. */
  function ReadTemplate(base: string, prefix: string): (t: string)
    ensures t == base + prefix + "%s/value/get"
  {
    assert "%s" + "/value" + "/get" == "%s/value/get";
    Layout(base, prefix, "%s", "/get")
  }

  /** Config.write followed by Pattern.compile. */
  function WritePatternFor(base: string, prefix: string): (p: WritePattern)
    requires ValidBase(base)
    ensures p.Source() == Layout(base, prefix, WORD_GROUP, "/set")
  {
    WritePattern(base + prefix, "/value/set")
  }

  /** setTopic, for any base: the write patterns and read templates for "D" and "A". */
  function ForBase(base: string): (c: Config)
    requires ValidBase(base)
    ensures c.topicPatternDigitalWrite.Source() == base + "D(\\w+)/value/set"
    ensures c.topicPatternAnalogWrite.Source() == base + "A(\\w+)/value/set"
    ensures c.topicPatternDigitalRead == base + "D%s/value/get"
    ensures c.topicPatternAnalogRead == base + "A%s/value/get"
  {
    Config(WritePatternFor(base, "D"), ReadTemplate(base, "D"),
           WritePatternFor(base, "A"), ReadTemplate(base, "A"))
  }

  lemma DefaultBaseValid()
    ensures ValidBase(DEFAULT_TOPIC)
  {
  }

  /** Config.DEFAULT: the four templates for "home/devices/ardulink/". */
  function Default(): (c: Config)
    ensures c.topicPatternDigitalWrite.Source() == DEFAULT_TOPIC + "D(\\w+)/value/set"
    ensures c.topicPatternAnalogWrite.Source() == DEFAULT_TOPIC + "A(\\w+)/value/set"
    ensures c.topicPatternDigitalRead == DEFAULT_TOPIC + "D%s/value/get"
    ensures c.topicPatternAnalogRead == DEFAULT_TOPIC + "A%s/value/get"
  {
    DefaultBaseValid();
    ForBase(DEFAULT_TOPIC)
  }

  /** A read template filled with a pin's text: base + kind + pin + "/value/get". */
  lemma ReadTopic(base: string, kind: string, pin: string)
    requires ValidBase(base) && '%' !in kind
    ensures Format(ReadTemplate(base, kind), pin) == Some(base + kind + pin + "/value/get")
  {
    assert ReadTemplate(base, kind) == (base + kind) + "%s" + "/value/get";
    assert '%' !in base + kind;
    FormatSingle(base + kind, "/value/get", pin);
  }

  /** A template String.format accepts with one argument; by FormatSucceedsForAnyArg
      the argument's text does not matter. */
  predicate Formattable(t: string) {
    Format(t, "").Some?
  }

  lemma FormattableWithAnyArg(t: string, arg: string)
    requires Formattable(t)
    ensures Format(t, arg).Some?
  {
    FormatSucceedsForAnyArg(t, "", arg, false);
  }

  lemma ForBaseFormattable(base: string)
    requires ValidBase(base)
    ensures Formattable(ForBase(base).topicPatternDigitalRead)
    ensures Formattable(ForBase(base).topicPatternAnalogRead)
  {
    ReadTopic(base, "D", "");
    ReadTopic(base, "A", "");
  }

  /** For every pin n, base + "D" + n + "/value/set" matches the digital write pattern with
      group 1 the decimal text of n, and never matches the analog one; symmetrically for "A". */
  lemma PinTopicMatches(base: string, n: int)
    requires ValidBase(base) && n >= 0
    ensures ForBase(base).topicPatternDigitalWrite.Match(base + "D" + Decimal(n) + "/value/set") == Some(Decimal(n))
    ensures ForBase(base).topicPatternAnalogWrite.Match(base + "D" + Decimal(n) + "/value/set") == None
    ensures ForBase(base).topicPatternAnalogWrite.Match(base + "A" + Decimal(n) + "/value/set") == Some(Decimal(n))
    ensures ForBase(base).topicPatternDigitalWrite.Match(base + "A" + Decimal(n) + "/value/set") == None
  {
    var c := ForBase(base);
    var d := Decimal(n);
    assert IsWord(d);
    MatchIff(c.topicPatternDigitalWrite, base + "D" + d + "/value/set", d);
    MatchIff(c.topicPatternAnalogWrite, base + "A" + d + "/value/set", d);
    KindExcludes(base, "D", "A", d);
    KindExcludes(base, "A", "D", d);
  }

  /** A topic written for one kind letter never matches the pattern of another. */
  lemma KindExcludes(base: string, kind: string, other: string, g: string)
    requires ValidBase(base) && |kind| == 1 && |other| == 1 && kind != other
    ensures WritePatternFor(base, other).Match(base + kind + g + "/value/set") == None
  {
    var t := base + kind + g + "/value/set";
    assert t[|base|] == kind[0];
  }

  /** A topic whose first character after the base is not the pattern's kind letter
      matches nothing, whatever follows. */
  lemma WrongKindMatchesNothing(base: string, kind: string, c: char, rest: string)
    requires ValidBase(base) && |kind| == 1 && c != kind[0]
    ensures WritePatternFor(base, kind).Match(base + [c] + rest) == None
  {
    var t := base + [c] + rest;
    var prefix := base + kind;
    if |t| >= |prefix| {
      assert t[..|prefix|][|base|] == c;
      assert prefix[|base|] == kind[0];
    }
  }

  /** A pin part with a character outside [A-Za-z0-9_] matches neither write pattern. */
  lemma NonWordPinMatchesNothing(base: string, kind: string, g: string)
    requires ValidBase(base) && (kind == "D" || kind == "A") && !IsWord(g)
    ensures ForBase(base).topicPatternDigitalWrite.Match(base + kind + g + "/value/set") == None
    ensures ForBase(base).topicPatternAnalogWrite.Match(base + kind + g + "/value/set") == None
  {
    var t := base + kind + g + "/value/set";
    MatchIff(ForBase(base).topicPatternDigitalWrite, t, g);
    MatchIff(ForBase(base).topicPatternAnalogWrite, t, g);
    var other := if kind == "D" then "A" else "D";
    KindExcludes(base, kind, other, g);
  }

  /** No topic matches both write patterns, so at most one handler can act on it. */
  lemma WritePatternsDisjoint(base: string, topic: string)
    requires ValidBase(base)
    ensures ForBase(base).topicPatternDigitalWrite.Match(topic).None?
         || ForBase(base).topicPatternAnalogWrite.Match(topic).None?
  {
    var c := ForBase(base);
    var d := c.topicPatternDigitalWrite.Match(topic);
    if d.Some? {
      KindExcludes(base, "D", "A", d.value);
    }
  }
}
