/** The MQTT translator: inbound (topic, payload) pairs become at most one device
    command, and pin-change events on listened pins become outbound messages.
    Three revisions share the routing decision: AbstractMqttAdapter and MqttClient
    (both over a Config) and the older MqttClient whose patterns use the tokens
    "digital" and "analog". */
module Translator {
  import opened JavaText
  import opened Topics

  /** IProtocol.POWER_HIGH and IProtocol.POWER_LOW as the device protocol encodes them. */
  const POWER_HIGH: int := 1
  const POWER_LOW: int := 0

  /** A call into the device link. */
  datatype Command =
    | PowerPinSwitch(pin: int, power: int)
    | PowerPinIntensity(pin: int, intensity: int)

  /** A message published towards the broker: topic and payload text. */
  datatype Message = Message(topic: string, payload: string)

  /** A pin-change event as the link reports it. */
  datatype PinEvent = PinEvent(pin: int, value: int)

  /** A registered read-change listener: the pin it answers to (getPinListening), the
      read template its stateChanged formats the topic from, and the adapter or client
      that created it, whose fromArduino or callback its stateChanged calls. */
  datatype Listener = Listener(pinListening: int, readTemplate: string, owner: object)

  // ----- inbound: routing a message to a device command -----

  /** handleDigital: a match whose group parses as an int switches that pin,
      HIGH exactly when the payload is "true" ignoring case. */
  function HandleDigital(p: WritePattern, topic: string, payload: string): (c: Option<Command>)
    ensures c.Some? <==> p.Match(topic).Some? && ParseInt(p.Match(topic).value).Some?
    ensures c.Some? ==> c.value.PowerPinSwitch? && Some(c.value.pin) == ParseInt(p.Match(topic).value)
    ensures c.Some? ==> (c.value.power == POWER_HIGH <==> ParseBoolean(payload))
    ensures c.Some? ==> c.value.power == POWER_HIGH || c.value.power == POWER_LOW
  {
    var g := p.Match(topic);
    if g.Some? && ParseInt(g.value).Some? then
      Some(PowerPinSwitch(ParseInt(g.value).value, if ParseBoolean(payload) then POWER_HIGH else POWER_LOW))
    else None
  }

  /** handleAnalog: a match fires only when both the group and the payload parse as ints. */
  function HandleAnalog(p: WritePattern, topic: string, payload: string): (c: Option<Command>)
    ensures c.Some? <==> p.Match(topic).Some? && ParseInt(p.Match(topic).value).Some? && ParseInt(payload).Some?
    ensures c.Some? ==> c.value.PowerPinIntensity? && Some(c.value.pin) == ParseInt(p.Match(topic).value)
    ensures c.Some? ==> Some(c.value.intensity) == ParseInt(payload)
  {
    var g := p.Match(topic);
    if g.Some? && ParseInt(g.value).Some? && ParseInt(payload).Some? then
      Some(PowerPinIntensity(ParseInt(g.value).value, ParseInt(payload).value))
    else None
  }

  /** toArduino / messageArrived: the analog handler runs only when the digital one declined. */
  function Route(digital: WritePattern, analog: WritePattern, topic: string, payload: string): (c: Option<Command>)
    ensures c.Some? <==> HandleDigital(digital, topic, payload).Some? || HandleAnalog(analog, topic, payload).Some?
    ensures HandleDigital(digital, topic, payload).Some? ==> c == HandleDigital(digital, topic, payload)
    ensures c.Some? && c.value.PowerPinIntensity? ==> HandleDigital(digital, topic, payload).None?
  {
    var d := HandleDigital(digital, topic, payload);
    if d.Some? then d else HandleAnalog(analog, topic, payload)
  }

  function Commands(c: Option<Command>): seq<Command> {
    if c.Some? then [c.value] else []
  }

  /** A command comes out only from a matched pattern whose group parses: a switch from the
      digital pattern with HIGH iff parseBoolean, an intensity from the analog pattern with
      the payload's value unchanged. */
  lemma RouteSound(digital: WritePattern, analog: WritePattern, topic: string, payload: string)
    ensures var c := Route(digital, analog, topic, payload);
      && (c.Some? && c.value.PowerPinSwitch? ==>
            && digital.Match(topic).Some?
            && ParseInt(digital.Match(topic).value) == Some(c.value.pin)
            && (c.value.power == POWER_HIGH <==> ParseBoolean(payload))
            && (c.value.power == POWER_HIGH || c.value.power == POWER_LOW))
      && (c.Some? && c.value.PowerPinIntensity? ==>
            && analog.Match(topic).Some?
            && ParseInt(analog.Match(topic).value) == Some(c.value.pin)
            && ParseInt(payload) == Some(c.value.intensity))
      && (digital.Match(topic).None? && analog.Match(topic).None? ==> c.None?)
  {
  }

  /** For a configuration over any valid base and every pin n: the topic
      base + "D" + n + "/value/set" sends exactly one switch for n, HIGH iff the payload
      is "true" ignoring case and LOW for any other payload. */
  lemma DigitalSetTopic(base: string, n: int, payload: string)
    requires ValidBase(base) && 0 <= n <= MaxInt
    ensures var c := ForBase(base);
      Route(c.topicPatternDigitalWrite, c.topicPatternAnalogWrite, base + "D" + Decimal(n) + "/value/set", payload)
      == Some(PowerPinSwitch(n, if ParseBoolean(payload) then POWER_HIGH else POWER_LOW))
  {
    PinTopicMatches(base, n);
    ParseDecimal(n);
  }

  /** base + "A" + n + "/value/set" sends one intensity command with the payload's value
      when the payload parses as an int, and nothing otherwise. */
  lemma AnalogSetTopic(base: string, n: int, payload: string)
    requires ValidBase(base) && 0 <= n <= MaxInt
    ensures var c := ForBase(base);
      Route(c.topicPatternDigitalWrite, c.topicPatternAnalogWrite, base + "A" + Decimal(n) + "/value/set", payload)
      == if ParseInt(payload).Some? then Some(PowerPinIntensity(n, ParseInt(payload).value)) else None
  {
    PinTopicMatches(base, n);
    ParseDecimal(n);
  }

  /** A pin part with a character outside [A-Za-z0-9_] produces no command. */
  lemma NonWordPinNoCommand(base: string, kind: string, g: string, payload: string)
    requires ValidBase(base) && (kind == "D" || kind == "A") && !IsWord(g)
    ensures var c := ForBase(base);
      Route(c.topicPatternDigitalWrite, c.topicPatternAnalogWrite, base + kind + g + "/value/set", payload) == None
  {
    NonWordPinMatchesNothing(base, kind, g);
  }

  /** The invalid-topic case of the adapter tests: base + "invalidTopic" sends nothing. */
  lemma InvalidTopicNoCommand(payload: string)
    ensures var c := Default();
      Route(c.topicPatternDigitalWrite, c.topicPatternAnalogWrite, DEFAULT_TOPIC + "invalidTopic", payload) == None
  {
    DefaultBaseValid();
    assert DEFAULT_TOPIC + "invalidTopic" == DEFAULT_TOPIC + ['i'] + "nvalidTopic";
    WrongKindMatchesNothing(DEFAULT_TOPIC, "D", 'i', "nvalidTopic");
    WrongKindMatchesNothing(DEFAULT_TOPIC, "A", 'i', "nvalidTopic");
  }

  // ----- outbound: listeners and what they publish -----

  /** What a listener's stateChanged publishes for an event:
      (format(readTemplate, pin), String.valueOf(value)). */
  function Publication(l: Listener, e: PinEvent): (m: Message)
    requires Formattable(l.readTemplate)
    ensures Format(l.readTemplate, Decimal(e.pin)) == Some(m.topic)
    ensures m.payload == Decimal(e.value)
  {
    FormattableWithAnyArg(l.readTemplate, Decimal(e.pin));
    Message(Format(l.readTemplate, Decimal(e.pin)).value, Decimal(e.value))
  }

  predicate AllFormattable(ls: seq<Listener>) {
    forall i :: 0 <= i < |ls| ==> Formattable(ls[i].readTemplate)
  }

  /** The messages an event yields: one per listener whose getPinListening equals the
      event's pin, in registration order. */
  function Notifications(ls: seq<Listener>, e: PinEvent): (r: seq<Message>)
    requires AllFormattable(ls)
    ensures |r| <= |ls|
    ensures forall i :: 0 <= i < |r| ==> r[i].payload == Decimal(e.value)
  {
    if |ls| == 0 then []
    else
      var last := ls[|ls| - 1];
      Notifications(ls[..|ls| - 1], e) + (if last.pinListening == e.pin then [Publication(last, e)] else [])
  }

  /** The link's delivery loop: every listener is asked in order and only those listening on
      the event's pin publish. */
  method Deliver(ls: seq<Listener>, e: PinEvent) returns (out: seq<Message>)
    requires AllFormattable(ls)
    ensures out == Notifications(ls, e)
  {
    out := [];
    var i := 0;
    while i < |ls|
      invariant 0 <= i <= |ls|
      invariant out == Notifications(ls[..i], e)
    {
      assert ls[..i + 1][..i] == ls[..i];
      if ls[i].pinListening == e.pin {
        out := out + [Publication(ls[i], e)];
      }
      i := i + 1;
    }
    assert ls[..|ls|] == ls;
  }

  /** Listeners on other pins publish nothing for an event. */
  lemma {:induction false} NoListenerNoPublication(ls: seq<Listener>, e: PinEvent)
    requires AllFormattable(ls)
    requires forall i :: 0 <= i < |ls| ==> ls[i].pinListening != e.pin
    ensures Notifications(ls, e) == []
  {
    if |ls| > 0 {
      NoListenerNoPublication(ls[..|ls| - 1], e);
    }
  }

  /** One message per listener on the event's pin. */
  lemma {:induction false} NotificationCount(ls: seq<Listener>, e: PinEvent)
    requires AllFormattable(ls)
    ensures |Notifications(ls, e)| == |ListeningOn(ls, e.pin)|
  {
    if |ls| > 0 {
      NotificationCount(ls[..|ls| - 1], e);
    }
  }

  /** The positions of the listeners answering to a pin. */
  function ListeningOn(ls: seq<Listener>, pin: int): seq<nat> {
    if |ls| == 0 then []
    else ListeningOn(ls[..|ls| - 1], pin) + (if ls[|ls| - 1].pinListening == pin then [|ls| - 1] else [])
  }

  /** The listeners one adapter registered, in registration order. The link asks every
      listener, and each reports only to the adapter that created it, so this is what
      that adapter's fromArduino hears from. */
  function OwnedBy(ls: seq<Listener>, owner: object): (r: seq<Listener>)
    ensures |r| <= |ls|
    ensures forall i :: 0 <= i < |r| ==> r[i].owner == owner && r[i] in ls
    ensures forall i :: 0 <= i < |ls| && ls[i].owner == owner ==> ls[i] in r
    ensures AllFormattable(ls) ==> AllFormattable(r)
  {
    if |ls| == 0 then []
    else
      var init := OwnedBy(ls[..|ls| - 1], owner);
      assert forall l :: l in ls[..|ls| - 1] ==> l in ls;
      init + (if ls[|ls| - 1].owner == owner then [ls[|ls| - 1]] else [])
  }

  /** A listener another adapter registers never reaches this adapter. */
  lemma OtherOwnerUnaffected(ls: seq<Listener>, l: Listener, owner: object)
    requires l.owner != owner
    ensures OwnedBy(ls + [l], owner) == OwnedBy(ls, owner)
  {
    assert (ls + [l])[..|ls|] == ls;
  }

  /** Registering a digital listener for pin p adds exactly its own publication, for events on
      p only, and only to the registering adapter: for a configuration over base, it publishes
      base + "D" + pin + "/value/get" with the value's decimal text. */
  lemma RegisterDigital(ls: seq<Listener>, base: string, p: int, owner: object, e: PinEvent)
    requires ValidBase(base) && AllFormattable(ls)
    ensures (ForBaseFormattable(base); AllFormattable(ls + [Listener(p, ForBase(base).topicPatternDigitalRead, owner)]))
    ensures (ForBaseFormattable(base);
      Notifications(OwnedBy(ls + [Listener(p, ForBase(base).topicPatternDigitalRead, owner)], owner), e)
      == Notifications(OwnedBy(ls, owner), e)
         + (if e.pin == p then [Message(base + "D" + Decimal(e.pin) + "/value/get", Decimal(e.value))] else []))
  {
    ForBaseFormattable(base);
    var l := Listener(p, ForBase(base).topicPatternDigitalRead, owner);
    var ls' := ls + [l];
    assert ls'[..|ls'| - 1] == ls;
    var mine := OwnedBy(ls, owner);
    var mine' := mine + [l];
    assert OwnedBy(ls', owner) == mine';
    assert mine'[..|mine'| - 1] == mine;
    ReadTopic(base, "D", Decimal(e.pin));
  }

  /** The analog counterpart: base + "A" + pin + "/value/get". */
  lemma RegisterAnalog(ls: seq<Listener>, base: string, p: int, owner: object, e: PinEvent)
    requires ValidBase(base) && AllFormattable(ls)
    ensures (ForBaseFormattable(base); AllFormattable(ls + [Listener(p, ForBase(base).topicPatternAnalogRead, owner)]))
    ensures (ForBaseFormattable(base);
      Notifications(OwnedBy(ls + [Listener(p, ForBase(base).topicPatternAnalogRead, owner)], owner), e)
      == Notifications(OwnedBy(ls, owner), e)
         + (if e.pin == p then [Message(base + "A" + Decimal(e.pin) + "/value/get", Decimal(e.value))] else []))
  {
    ForBaseFormattable(base);
    var l := Listener(p, ForBase(base).topicPatternAnalogRead, owner);
    var ls' := ls + [l];
    assert ls'[..|ls'| - 1] == ls;
    var mine := OwnedBy(ls, owner);
    var mine' := mine + [l];
    assert OwnedBy(ls', owner) == mine';
    assert mine'[..|mine'| - 1] == mine;
    ReadTopic(base, "A", Decimal(e.pin));
  }

  /** Two adapters on one shared link, each listening on the same digital pin: an event on
      that pin reaches each adapter once, through its own listener. */
  lemma SharedLinkSeparateLogs(base: string, a: object, b: object, p: int, e: PinEvent)
    requires ValidBase(base) && a != b
    ensures (ForBaseFormattable(base);
      var t := ForBase(base).topicPatternDigitalRead;
      var ls := [Listener(p, t, a), Listener(p, t, b)];
      var expected := if e.pin == p then [Message(base + "D" + Decimal(e.pin) + "/value/get", Decimal(e.value))] else [];
      Notifications(OwnedBy(ls, a), e) == expected && Notifications(OwnedBy(ls, b), e) == expected)
  {
    ForBaseFormattable(base);
    var t := ForBase(base).topicPatternDigitalRead;
    var la := Listener(p, t, a);
    var lb := Listener(p, t, b);
    var expected := if e.pin == p then [Message(base + "D" + Decimal(e.pin) + "/value/get", Decimal(e.value))] else [];
    assert [la, lb] == [la] + [lb] && [la] == [] + [la];
    // a's own listener is the first one; b's listener is ignored for a
    RegisterDigital([], base, p, a, e);
    assert Notifications(OwnedBy([la], a), e) == expected;
    OtherOwnerUnaffected([la], lb, a);
    // for b, a's listener is ignored and b's own listener is the second one
    OtherOwnerUnaffected([], la, b);
    assert Notifications(OwnedBy([la], b), e) == [];
    RegisterDigital([la], base, p, b, e);
  }

  // ----- the device link -----

  /** The part of the device link the translator uses: the commands sent to the
      device, in order, and the registered read-change listeners. */
  class Link {
    var commands: seq<Command>
    var digitalListeners: seq<Listener>
    var analogListeners: seq<Listener>
    var connected: bool

    ghost predicate Valid()
      reads this
    {
      AllFormattable(digitalListeners) && AllFormattable(analogListeners)
    }

    constructor(connected: bool)
      ensures Valid()
      ensures commands == [] && digitalListeners == [] && analogListeners == []
      ensures this.connected == connected
    {
      commands := [];
      digitalListeners := [];
      analogListeners := [];
      this.connected := connected;
    }

    method Send(c: Command)
      modifies this
      ensures commands == old(commands) + [c]
      ensures digitalListeners == old(digitalListeners) && analogListeners == old(analogListeners)
      ensures connected == old(connected)
    {
      commands := commands + [c];
    }

    method AddDigitalReadChangeListener(l: Listener)
      requires Valid() && Formattable(l.readTemplate)
      modifies this
      ensures Valid()
      ensures digitalListeners == old(digitalListeners) + [l]
      ensures commands == old(commands) && analogListeners == old(analogListeners) && connected == old(connected)
    {
      digitalListeners := digitalListeners + [l];
    }

    method AddAnalogReadChangeListener(l: Listener)
      requires Valid() && Formattable(l.readTemplate)
      modifies this
      ensures Valid()
      ensures analogListeners == old(analogListeners) + [l]
      ensures commands == old(commands) && digitalListeners == old(digitalListeners) && connected == old(connected)
    {
      analogListeners := analogListeners + [l];
    }

    /** connect(port, baudRate): whether the device accepts the port is outside this
        model and given as `accepted`. */
    method Connect(port: string, baudRate: int, accepted: bool) returns (ok: bool)
      modifies this
      ensures ok == accepted
      ensures accepted ==> connected
      ensures !accepted ==> connected == old(connected)
      ensures commands == old(commands)
      ensures digitalListeners == old(digitalListeners) && analogListeners == old(analogListeners)
    {
      if accepted {
        connected := true;
      }
      ok := accepted;
    }

    method Disconnect()
      modifies this
      ensures !connected
      ensures commands == old(commands)
      ensures digitalListeners == old(digitalListeners) && analogListeners == old(analogListeners)
    {
      connected := false;
    }
  }

  // ----- AbstractMqttAdapter -----

  /** The adapter over a Config whose fromArduino is left to a subclass: `published`
      records, in order, every (topic, message) handed to fromArduino. */
  class AbstractMqttAdapter {
    const link: Link
    const config: Config
    var published: seq<Message>

    ghost predicate Valid()
      reads this, link
    {
      link.Valid()
      && Formattable(config.topicPatternDigitalRead) && Formattable(config.topicPatternAnalogRead)
    }

    constructor(link: Link, config: Config)
      requires link.Valid()
      requires Formattable(config.topicPatternDigitalRead) && Formattable(config.topicPatternAnalogRead)
      ensures Valid() && this.link == link && this.config == config && published == []
    {
      this.link := link;
      this.config := config;
      published := [];
    }

    /** toArduino: the link receives the routed command, if any, and nothing else changes. */
    method ToArduino(topic: string, message: string)
      requires Valid()
      modifies link
      ensures Valid()
      ensures link.commands == old(link.commands)
        + Commands(Route(config.topicPatternDigitalWrite, config.topicPatternAnalogWrite, topic, message))
      ensures link.digitalListeners == old(link.digitalListeners)
      ensures link.analogListeners == old(link.analogListeners)
      ensures link.connected == old(link.connected)
    {
      var handled := HandleDigital(config.topicPatternDigitalWrite, topic, message);
      if handled.None? {
        handled := HandleAnalog(config.topicPatternAnalogWrite, topic, message);
      }
      if handled.Some? {
        link.Send(handled.value);
      }
    }

    method EnableDigitalPinChangeEvents(pin: int)
      requires Valid()
      modifies link
      ensures Valid()
      ensures link.digitalListeners == old(link.digitalListeners) + [Listener(pin, config.topicPatternDigitalRead, this)]
      ensures link.commands == old(link.commands) && link.analogListeners == old(link.analogListeners)
      ensures link.connected == old(link.connected)
    {
      link.AddDigitalReadChangeListener(Listener(pin, config.topicPatternDigitalRead, this));
    }

    method EnableAnalogPinChangeEvents(pin: int)
      requires Valid()
      modifies link
      ensures Valid()
      ensures link.analogListeners == old(link.analogListeners) + [Listener(pin, config.topicPatternAnalogRead, this)]
      ensures link.commands == old(link.commands) && link.digitalListeners == old(link.digitalListeners)
      ensures link.connected == old(link.connected)
    {
      link.AddAnalogReadChangeListener(Listener(pin, config.topicPatternAnalogRead, this));
    }

    /** The link reports a digital pin change: each digital listener on that pin calls fromArduino once. */
    method DigitalReadChanged(e: PinEvent)
      requires Valid()
      modifies this
      ensures Valid()
      ensures published == old(published) + Notifications(OwnedBy(link.digitalListeners, this), e)
    {
      var out := Deliver(OwnedBy(link.digitalListeners, this), e);
      published := published + out;
    }

    /** The link reports an analog pin change. */
    method AnalogReadChanged(e: PinEvent)
      requires Valid()
      modifies this
      ensures Valid()
      ensures published == old(published) + Notifications(OwnedBy(link.analogListeners, this), e)
    {
      var out := Deliver(OwnedBy(link.analogListeners, this), e);
      published := published + out;
    }
  }

  // ----- MqttClient (with a LinkMessageCallback) -----

  /** The revision that publishes through a LinkMessageCallback: `callbackPublished`
      records every (topic, message) passed to publish, payload bytes read as text. */
  class MqttClient {
    const link: Link
    const config: Config
    var callbackPublished: seq<Message>

    ghost predicate Valid()
      reads this, link
    {
      link.Valid()
      && Formattable(config.topicPatternDigitalRead) && Formattable(config.topicPatternAnalogRead)
    }

    constructor(link: Link, config: Config)
      requires link.Valid()
      requires Formattable(config.topicPatternDigitalRead) && Formattable(config.topicPatternAnalogRead)
      ensures Valid() && this.link == link && this.config == config && callbackPublished == []
    {
      this.link := link;
      this.config := config;
      callbackPublished := [];
    }

    /** messageArrived: digital first, analog only when digital declined. */
    method MessageArrived(topic: string, payload: string)
      requires Valid()
      modifies link
      ensures Valid()
      ensures link.commands == old(link.commands)
        + Commands(Route(config.topicPatternDigitalWrite, config.topicPatternAnalogWrite, topic, payload))
      ensures link.digitalListeners == old(link.digitalListeners)
      ensures link.analogListeners == old(link.analogListeners)
      ensures link.connected == old(link.connected)
    {
      var handled := HandleDigital(config.topicPatternDigitalWrite, topic, payload);
      if handled.None? {
        handled := HandleAnalog(config.topicPatternAnalogWrite, topic, payload);
      }
      if handled.Some? {
        link.Send(handled.value);
      }
    }

    method PublishDigitalPinOnStateChanges(pin: int)
      requires Valid()
      modifies link
      ensures Valid()
      ensures link.digitalListeners == old(link.digitalListeners) + [Listener(pin, config.topicPatternDigitalRead, this)]
      ensures link.commands == old(link.commands) && link.analogListeners == old(link.analogListeners)
      ensures link.connected == old(link.connected)
    {
      link.AddDigitalReadChangeListener(Listener(pin, config.topicPatternDigitalRead, this));
    }

    method PublishAnalogPinOnStateChanges(pin: int)
      requires Valid()
      modifies link
      ensures Valid()
      ensures link.analogListeners == old(link.analogListeners) + [Listener(pin, config.topicPatternAnalogRead, this)]
      ensures link.commands == old(link.commands) && link.digitalListeners == old(link.digitalListeners)
      ensures link.connected == old(link.connected)
    {
      link.AddAnalogReadChangeListener(Listener(pin, config.topicPatternAnalogRead, this));
    }

    /** A digital pin change: one callback publish per digital listener on that pin. */
    method DigitalReadChanged(e: PinEvent)
      requires Valid()
      modifies this
      ensures Valid()
      ensures callbackPublished == old(callbackPublished) + Notifications(OwnedBy(link.digitalListeners, this), e)
    {
      var out := Deliver(OwnedBy(link.digitalListeners, this), e);
      callbackPublished := callbackPublished + out;
    }

    method AnalogReadChanged(e: PinEvent)
      requires Valid()
      modifies this
      ensures Valid()
      ensures callbackPublished == old(callbackPublished) + Notifications(OwnedBy(link.analogListeners, this), e)
    {
      var out := Deliver(OwnedBy(link.analogListeners, this), e);
      callbackPublished := callbackPublished + out;
    }
  }

  // ----- the older MqttClient with "digital"/"analog" tokens -----

  const DIGITAL_PIN: string := "digital"
  const ANALOG_PIN: string := "analog"

  /** The older revision: fixed base topic, patterns built once in the constructor. */
  class LegacyMqttClient {
    const brokerTopic: string
    const link: Link
    const topicPatternDigitalWrite: WritePattern
    const topicPatternAnalogWrite: WritePattern

    constructor(link: Link)
      ensures this.link == link && brokerTopic == DEFAULT_TOPIC
      ensures topicPatternDigitalWrite.Source() == "home/devices/ardulink/digital(\\w+)/value/set"
      ensures topicPatternAnalogWrite.Source() == "home/devices/ardulink/analog(\\w+)/value/set"
      ensures topicPatternDigitalWrite == LegacyDigital() && topicPatternAnalogWrite == LegacyAnalog()
    {
      this.link := link;
      brokerTopic := DEFAULT_TOPIC;
      topicPatternAnalogWrite := LegacyAnalog();
      topicPatternDigitalWrite := LegacyDigital();
    }

    method MessageArrived(topic: string, payload: string)
      modifies link
      ensures link.commands == old(link.commands)
        + Commands(Route(topicPatternDigitalWrite, topicPatternAnalogWrite, topic, payload))
      ensures link.digitalListeners == old(link.digitalListeners)
      ensures link.analogListeners == old(link.analogListeners)
      ensures link.connected == old(link.connected)
    {
      var handled := HandleDigital(topicPatternDigitalWrite, topic, payload);
      if handled.None? {
        handled := HandleAnalog(topicPatternAnalogWrite, topic, payload);
      }
      if handled.Some? {
        link.Send(handled.value);
      }
    }
  }

  function LegacyDigital(): WritePattern {
    WritePattern(DEFAULT_TOPIC + DIGITAL_PIN, "/value/set")
  }

  function LegacyAnalog(): WritePattern {
    WritePattern(DEFAULT_TOPIC + ANALOG_PIN, "/value/set")
  }

  /** In the older revision, "digital" + n switches pin n and "analog" + n sets its intensity. */
  lemma LegacySetTopics(n: int, payload: string)
    requires 0 <= n <= MaxInt
    ensures Route(LegacyDigital(), LegacyAnalog(), DEFAULT_TOPIC + DIGITAL_PIN + Decimal(n) + "/value/set", payload)
         == Some(PowerPinSwitch(n, if ParseBoolean(payload) then POWER_HIGH else POWER_LOW))
    ensures Route(LegacyDigital(), LegacyAnalog(), DEFAULT_TOPIC + ANALOG_PIN + Decimal(n) + "/value/set", payload)
         == if ParseInt(payload).Some? then Some(PowerPinIntensity(n, ParseInt(payload).value)) else None
  {
    var d := Decimal(n);
    assert IsWord(d);
    ParseDecimal(n);
    MatchIff(LegacyDigital(), DEFAULT_TOPIC + DIGITAL_PIN + d + "/value/set", d);
    MatchIff(LegacyAnalog(), DEFAULT_TOPIC + ANALOG_PIN + d + "/value/set", d);
    var ta := DEFAULT_TOPIC + ANALOG_PIN + d + "/value/set";
    assert ta[|DEFAULT_TOPIC|] == 'a';
  }

  /** A word group that is not an int ("digitalX") makes the digital handler decline, and the
      analog pattern does not match either: no command. */
  lemma LegacyNonIntPinNoCommand(g: string, payload: string)
    requires IsWord(g) && ParseInt(g).None?
    ensures Route(LegacyDigital(), LegacyAnalog(), DEFAULT_TOPIC + DIGITAL_PIN + g + "/value/set", payload) == None
  {
    var t := DEFAULT_TOPIC + DIGITAL_PIN + g + "/value/set";
    MatchIff(LegacyDigital(), t, g);
    assert t[|DEFAULT_TOPIC|] == 'd';
  }
}
