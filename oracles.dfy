/** The two builders the tests state their expectations with: MqttMessageBuilder for the
    broker side (base + type + pin + "/value/" + get|set, payload String.valueOf(value))
    and ProtoBuilder for the device side ("alp://" + command + "/" + pin + "/" + value
    + "\n"). The lemmas here are the tests' expectations, proved against the translator
    for every base, pin and value. */
module TestOracles {
  import opened JavaText
  import opened Topics
  import opened Translator

  /** The values the tests hand to withValue(Object). */
  datatype Value = NullValue | IntValue(i: int) | BoolValue(b: bool) | TextValue(s: string)

  /** String.valueOf(Object). */
  function ValueOf(v: Value): (s: string)
    ensures v.IntValue? && InInt32(v.i) ==> ParseInt(s) == Some(v.i)
    ensures v.BoolValue? ==> (ParseBoolean(s) <==> v.b)
    ensures v.TextValue? ==> s == v.s
  {
    match v
    case NullValue => "null"
    case IntValue(i) => if InInt32(i) then ParseDecimal(i); Decimal(i) else Decimal(i)
    case BoolValue(b) => if b then "true" else "false"
    case TextValue(s) => s
  }

  /** A String field concatenated into text: null reads "null". */
  function TypeText(t: Option<string>): string {
    if t.Some? then t.value else "null"
  }

  /** createMessage(msgType): the topic glues base, type, pin and "/value/" + msgType
      together without any separator of its own. */
  function CreateMessage(base: string, t: Option<string>, pin: int, value: Value, msgType: string): (m: Message)
    ensures m.payload == ValueOf(value)
    ensures m.topic == base + TypeText(t) + Decimal(pin) + "/value/" + msgType
  {
    Message(base + TypeText(t) + Decimal(pin) + "/value/" + msgType, ValueOf(value))
  }

  class MqttMessageBuilder {
    const topic: string
    var pin: int
    var pinType: Option<string>
    var value: Value

    /** messageWithBasicTopic: pin 0, type and value still null. */
    constructor MessageWithBasicTopic(topic: string)
      ensures this.topic == topic && pin == 0 && pinType.None? && value.NullValue?
    {
      this.topic := topic;
      pin := 0;
      pinType := None;
      value := NullValue;
    }

    method ForDigitalPin(pin: int) returns (self: MqttMessageBuilder)
      modifies this
      ensures self == this
      ensures pinType == Some("D") && this.pin == pin && value == old(value)
    {
      self := ForPin("D", pin);
    }

    method ForAnalogPin(pin: int) returns (self: MqttMessageBuilder)
      modifies this
      ensures self == this
      ensures pinType == Some("A") && this.pin == pin && value == old(value)
    {
      self := ForPin("A", pin);
    }

    /** forPin: the latest call decides type and pin. */
    method ForPin(t: string, pin: int) returns (self: MqttMessageBuilder)
      modifies this
      ensures self == this
      ensures pinType == Some(t) && this.pin == pin && value == old(value)
    {
      pinType := Some(t);
      this.pin := pin;
      self := this;
    }

    /** withValue: the latest call decides the payload. */
    method WithValue(v: Value) returns (self: MqttMessageBuilder)
      modifies this
      ensures self == this
      ensures value == v && pin == old(pin) && pinType == old(pinType)
    {
      value := v;
      self := this;
    }

    /** createGetMessage: for a digital pin over a valid base, the topic the bridge
        publishes that pin's changes on, and the value's text as payload. */
    function CreateGetMessage(): (m: Message)
      reads this
      ensures m.payload == ValueOf(value)
      ensures ValidBase(topic) && pinType == Some("D") ==>
        Format(ForBase(topic).topicPatternDigitalRead, Decimal(pin)) == Some(m.topic)
      ensures ValidBase(topic) && pinType == Some("A") ==>
        Format(ForBase(topic).topicPatternAnalogRead, Decimal(pin)) == Some(m.topic)
    {
      if ValidBase(topic) && (pinType == Some("D") || pinType == Some("A")) then
        GetMessageTopic(topic, pinType.value, pin, value);
        CreateMessage(topic, pinType, pin, value, "get")
      else CreateMessage(topic, pinType, pin, value, "get")
    }

    /** createSetMessage: for a digital pin over a valid base, the message that makes the
        bridge switch that pin, HIGH exactly when the value's text is "true" ignoring case. */
    function CreateSetMessage(): (m: Message)
      reads this
      ensures m.payload == ValueOf(value)
      ensures ValidBase(topic) && pinType == Some("D") && 0 <= pin <= MaxInt ==>
        var c := ForBase(topic);
        Route(c.topicPatternDigitalWrite, c.topicPatternAnalogWrite, m.topic, m.payload)
          == Some(PowerPinSwitch(pin, if ParseBoolean(ValueOf(value)) then POWER_HIGH else POWER_LOW))
    {
      if ValidBase(topic) && pinType == Some("D") && 0 <= pin <= MaxInt then
        SetMessageRoute(topic, pin, value);
        CreateMessage(topic, pinType, pin, value, "set")
      else CreateMessage(topic, pinType, pin, value, "set")
    }
  }

  /** A get message's topic is the read template of its kind filled with the pin. */
  lemma GetMessageTopic(base: string, t: string, pin: int, v: Value)
    requires ValidBase(base) && (t == "D" || t == "A")
    ensures var m := CreateMessage(base, Some(t), pin, v, "get");
      && (t == "D" ==> Format(ForBase(base).topicPatternDigitalRead, Decimal(pin)) == Some(m.topic))
      && (t == "A" ==> Format(ForBase(base).topicPatternAnalogRead, Decimal(pin)) == Some(m.topic))
  {
    GetTopicShape(base, t, pin, v);
    ReadTopic(base, t, Decimal(pin));
  }

  /** A digital set message drives the bridge to switch its pin. */
  lemma SetMessageRoute(base: string, pin: int, v: Value)
    requires ValidBase(base) && 0 <= pin <= MaxInt
    ensures var c := ForBase(base);
      var m := CreateMessage(base, Some("D"), pin, v, "set");
      Route(c.topicPatternDigitalWrite, c.topicPatternAnalogWrite, m.topic, m.payload)
        == Some(PowerPinSwitch(pin, if ParseBoolean(ValueOf(v)) then POWER_HIGH else POWER_LOW))
  {
    SetTopicShape(base, "D", pin, v);
    DigitalSetTopic(base, pin, ValueOf(v));
  }

  /** A builder used twice keeps only the second pin and value: nothing accumulates. */
  method BuildersOverride(base: string, p1: int, p2: int, v1: Value, v2: Value) returns (m: Message)
    ensures m == CreateMessage(base, Some("A"), p2, v2, "set")
  {
    var b := new MqttMessageBuilder.MessageWithBasicTopic(base);
    b := b.ForDigitalPin(p1);
    b := b.WithValue(v1);
    b := b.ForAnalogPin(p2);
    b := b.WithValue(v2);
    m := b.CreateSetMessage();
  }

  /** Without forPin and withValue, the type and the value print as "null" and the pin as 0. */
  lemma UnsetBuilderMessage(base: string)
    ensures CreateMessage(base, None, 0, NullValue, "get") == Message(base + "null0/value/get", "null")
  {
  }

  // ----- the device side -----

  /** ProtoBuilder.withValue: the text the device link is expected to receive. */
  function ProtoText(command: string, pin: int, value: int): (s: string)
    ensures |s| > 7 && s[..6] == "alp://" && s[|s| - 1] == '\n'
  {
    "alp://" + command + "/" + Decimal(pin) + "/" + Decimal(value) + "\n"
  }

  class ProtoBuilder {
    const command: string
    var pin: int

    /** arduinoCommand: the command is fixed, the pin starts at 0. */
    constructor ArduinoCommand(command: string)
      ensures this.command == command && pin == 0
    {
      this.command := command;
      pin := 0;
    }

    method ForPin(pin: int) returns (self: ProtoBuilder)
      modifies this
      ensures self == this && this.pin == pin
    {
      this.pin := pin;
      self := this;
    }

    /** withValue: the serial text for the builder's command and pin; its fields split
        back into the command, the pin and the value. */
    function WithValue(value: int): (s: string)
      reads this
      ensures s == ProtoText(command, pin, value)
      ensures '/' !in command ==> Split(s[6..|s| - 1], '/') == [command, Decimal(pin), Decimal(value)]
    {
      if '/' !in command then ProtoTextFields(command, pin, value); ProtoText(command, pin, value)
      else ProtoText(command, pin, value)
    }
  }

  lemma PiecesAfterFirst(a: string, rest: string, sep: char)
    requires sep !in a
    ensures Pieces(a + [sep] + rest, sep) == [a] + Pieces(rest, sep)
  {
    var s := a + [sep] + rest;
    assert s[|a|] == sep;
    var k := IndexOf(s, sep);
    assert k == |a|;
    assert s[..k] == a && s[k + 1..] == rest;
  }

  /** The fields between the slashes give back command, pin and value: the text is a
      faithful encoding for a command without '/'. */
  lemma ProtoTextFields(command: string, pin: int, value: int)
    requires '/' !in command
    ensures var s := ProtoText(command, pin, value);
      Split(s[6..|s| - 1], '/') == [command, Decimal(pin), Decimal(value)]
    ensures InInt32(pin) && InInt32(value) ==> ParseInt(Decimal(pin)) == Some(pin) && ParseInt(Decimal(value)) == Some(value)
  {
    DecimalHasNoSeparator(pin, '/');
    DecimalHasNoSeparator(value, '/');
    SlashFields(command, Decimal(pin), Decimal(value));
    if InInt32(pin) && InInt32(value) {
      ParseDecimal(pin);
      ParseDecimal(value);
    }
  }

  /** ProtoTextFields for any three slash-free fields, the last one not empty. */
  lemma SlashFields(command: string, p: string, v: string)
    requires '/' !in command && '/' !in p && '/' !in v && v != ""
    ensures var s := "alp://" + command + "/" + p + "/" + v + "\n";
      Split(s[6..|s| - 1], '/') == [command, p, v]
  {
    var s := "alp://" + command + "/" + p + "/" + v + "\n";
    assert s[6..|s| - 1] == command + ['/'] + (p + ['/'] + v);
    SplitThree(command, p, v, '/');
  }

  lemma SplitThree(a: string, b: string, c: string, sep: char)
    requires sep !in a && sep !in b && sep !in c && c != ""
    ensures Split(a + [sep] + (b + [sep] + c), sep) == [a, b, c]
  {
    var x := a + [sep] + (b + [sep] + c);
    PiecesAfterFirst(a, b + [sep] + c, sep);
    PiecesAfterFirst(b, c, sep);
    assert Pieces(x, sep) == [a, b, c];
    assert x[|a|] == sep;
  }

  /** The serial text of a device command, as the tests expect it: "ppsw" switches a pin,
      "ppin" sets an intensity. */
  function AlpText(c: Command): string {
    match c
    case PowerPinSwitch(pin, power) => ProtoText("ppsw", pin, power)
    case PowerPinIntensity(pin, intensity) => ProtoText("ppin", pin, intensity)
  }

  /** The texts the device receives for what the translator produced. */
  function Sent(c: Option<Command>): seq<string> {
    if c.Some? then [AlpText(c.value)] else []
  }

  /** What the device receives when the translator over base handles a message. */
  function Received(base: string, m: Message): seq<string>
    requires ValidBase(base)
  {
    var c := ForBase(base);
    Sent(Route(c.topicPatternDigitalWrite, c.topicPatternAnalogWrite, m.topic, m.payload))
  }

  // ----- the tests' expectations -----

  /** A message the translator turns into command c reaches the device as c's text. */
  lemma ReceivedOne(base: string, m: Message, c: Command)
    requires ValidBase(base)
    requires Route(ForBase(base).topicPatternDigitalWrite, ForBase(base).topicPatternAnalogWrite, m.topic, m.payload) == Some(c)
    ensures Received(base, m) == [AlpText(c)]
  {
  }

  /** The set message's topic is the one the translator's write patterns are built for. */
  lemma SetTopicShape(base: string, t: string, pin: int, v: Value)
    ensures CreateMessage(base, Some(t), pin, v, "set").topic == base + t + Decimal(pin) + "/value/set"
  {
    assert base + t + Decimal(pin) + "/value/" + "set" == base + t + Decimal(pin) + "/value/set";
  }

  /** Digital set with true or false: the device gets ppsw with 1 or 0. */
  lemma DigitalSetOracle(base: string, pin: int, b: bool)
    requires ValidBase(base) && 0 <= pin <= MaxInt
    ensures Received(base, CreateMessage(base, Some("D"), pin, BoolValue(b), "set"))
         == [ProtoText("ppsw", pin, if b then 1 else 0)]
  {
    var m := CreateMessage(base, Some("D"), pin, BoolValue(b), "set");
    SetTopicShape(base, "D", pin, BoolValue(b));
    DigitalSetTopic(base, pin, m.payload);
    assert ParseBoolean("true");
    assert !ParseBoolean("false") by {
      assert !CharEqualsIgnoreCase('t', 'f');
    }
    ReceivedOne(base, m, PowerPinSwitch(pin, if b then 1 else 0));
  }

  /** Digital set with a payload that is not "true" ignoring case switches the pin off. */
  lemma DigitalInvalidPayloadOracle(base: string, pin: int, payload: string)
    requires ValidBase(base) && 0 <= pin <= MaxInt && !ParseBoolean(payload)
    ensures Received(base, CreateMessage(base, Some("D"), pin, TextValue(payload), "set"))
         == [ProtoText("ppsw", pin, 0)]
  {
    var m := CreateMessage(base, Some("D"), pin, TextValue(payload), "set");
    SetTopicShape(base, "D", pin, TextValue(payload));
    DigitalSetTopic(base, pin, payload);
    ReceivedOne(base, m, PowerPinSwitch(pin, 0));
  }

  /** Analog set with an int: the device gets ppin with that value. */
  lemma AnalogSetOracle(base: string, pin: int, value: int)
    requires ValidBase(base) && 0 <= pin <= MaxInt && InInt32(value)
    ensures Received(base, CreateMessage(base, Some("A"), pin, IntValue(value), "set"))
         == [ProtoText("ppin", pin, value)]
  {
    var m := CreateMessage(base, Some("A"), pin, IntValue(value), "set");
    SetTopicShape(base, "A", pin, IntValue(value));
    AnalogSetTopic(base, pin, Decimal(value));
    ParseDecimal(value);
    ReceivedOne(base, m, PowerPinIntensity(pin, value));
  }

  /** Analog set with a payload that is not an int sends nothing. */
  lemma AnalogInvalidPayloadOracle(base: string, pin: int, payload: string)
    requires ValidBase(base) && 0 <= pin <= MaxInt && ParseInt(payload).None?
    ensures Received(base, CreateMessage(base, Some("A"), pin, TextValue(payload), "set")) == []
  {
    SetTopicShape(base, "A", pin, TextValue(payload));
    AnalogSetTopic(base, pin, payload);
  }

  /** The get message's topic is the one the read templates produce. */
  lemma GetTopicShape(base: string, t: string, pin: int, v: Value)
    ensures CreateMessage(base, Some(t), pin, v, "get").topic == base + t + Decimal(pin) + "/value/get"
  {
    assert base + t + Decimal(pin) + "/value/" + "get" == base + t + Decimal(pin) + "/value/get";
  }

  /** A digital change on a listened pin publishes exactly the builder's get message with
      the value; a change on any other pin publishes nothing. */
  lemma DigitalGetOracle(base: string, client: object, pin: int, e: PinEvent)
    requires ValidBase(base)
    ensures (ForBaseFormattable(base);
      Notifications(OwnedBy([Listener(pin, ForBase(base).topicPatternDigitalRead, client)], client), e)
      == if e.pin == pin then [CreateMessage(base, Some("D"), pin, IntValue(e.value), "get")] else [])
  {
    ForBaseFormattable(base);
    RegisterDigital([], base, pin, client, e);
    GetTopicShape(base, "D", pin, IntValue(e.value));
    var l := Listener(pin, ForBase(base).topicPatternDigitalRead, client);
    assert [] + [l] == [l];
  }

  /** The analog counterpart of DigitalGetOracle. */
  lemma AnalogGetOracle(base: string, client: object, pin: int, e: PinEvent)
    requires ValidBase(base)
    ensures (ForBaseFormattable(base);
      Notifications(OwnedBy([Listener(pin, ForBase(base).topicPatternAnalogRead, client)], client), e)
      == if e.pin == pin then [CreateMessage(base, Some("A"), pin, IntValue(e.value), "get")] else [])
  {
    ForBaseFormattable(base);
    RegisterAnalog([], base, pin, client, e);
    GetTopicShape(base, "A", pin, IntValue(e.value));
    var l := Listener(pin, ForBase(base).topicPatternAnalogRead, client);
    assert [] + [l] == [l];
  }
}
