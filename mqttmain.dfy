/** The MqttMain glue: normalising the broker topic, reading "host[:port]" of a remote
    device, connecting the device link to its first port, and the broker client's
    connect / subscribe / close sequence with its client-status messages. The Paho client
    is modelled by the log of calls the bridge makes on it. */
module MqttBridge {
  import opened JavaText
  import opened Topics
  import opened Translator

  const BAUD_RATE: int := 115200
  const DEFAULT_BROKER_HOST: string := "localhost"
  const DEFAULT_BROKER_PORT: int := 1883
  const DEFAULT_CLIENT_ID: string := "ardulink"
  const DEFAULT_SLEEP_SECS: int := 10
  const DEFAULT_TOLERANCE: int := 1
  const DEFAULT_THROTTLE_MILLIS: int := 10000

  // ----- the broker topic -----

  predicate EndsWithSlash(t: string) {
    |t| > 0 && t[|t| - 1] == '/'
  }

  /** setBrokerTopic: append '/' unless the topic already ends with one. */
  function NormalizeBrokerTopic(t: string): (r: string)
    ensures EndsWithSlash(r)
    ensures |t| <= |r| <= |t| + 1 && r[..|t|] == t
  {
    if EndsWithSlash(t) then t else t + "/"
  }

  /** The topic is changed exactly when it lacks the trailing '/'. */
  lemma NormalizeAppendsOnlyWhenMissing(t: string)
    ensures NormalizeBrokerTopic(t) == t <==> EndsWithSlash(t)
  {
  }

  lemma NormalizeIdempotent(t: string)
    ensures NormalizeBrokerTopic(NormalizeBrokerTopic(t)) == NormalizeBrokerTopic(t)
  {
  }

  /** The default topic is already normalised. */
  lemma DefaultTopicNormalized()
    ensures NormalizeBrokerTopic(DEFAULT_TOPIC) == DEFAULT_TOPIC
  {
  }

  // ----- the remote device -----

  /** Where a NetworkProxyConnection is opened. */
  datatype Remote = Remote(host: string, port: int)

  /** createRemoteLink's parsing: split on ':'; one part means the default port, otherwise
      the second part is parsed as the port. Splitting ":" leaves no part at all, and
      reading the second part then fails. */
  function ParseRemote(remote: string, defaultPort: int): (r: Result<Remote>)
    ensures r.Ok? ==> |Split(remote, ':')| >= 1 && r.value.host == Split(remote, ':')[0]
    ensures r.Ok? && r.value.port != defaultPort ==> |Split(remote, ':')| >= 2
    ensures r.Err? ==> r.error == IndexOutOfBounds || r.error == NumberFormat
  {
    var hostAndPort := Split(remote, ':');
    if |hostAndPort| == 1 then Ok(Remote(hostAndPort[0], defaultPort))
    else if |hostAndPort| == 0 then Err(IndexOutOfBounds)
    else
      var port := ParseInt(hostAndPort[1]);
      if port.None? then Err(NumberFormat) else Ok(Remote(hostAndPort[0], port.value))
  }

  /** "host" connects to the default port. */
  lemma RemoteHostOnly(host: string, defaultPort: int)
    requires ':' !in host
    ensures ParseRemote(host, defaultPort) == Ok(Remote(host, defaultPort))
  {
  }

  /** "host:p" connects to port p, for every int p. */
  lemma RemoteHostAndPort(host: string, p: int, defaultPort: int)
    requires ':' !in host && InInt32(p)
    ensures ParseRemote(host + ":" + Decimal(p), defaultPort) == Ok(Remote(host, p))
  {
    DecimalHasNoSeparator(p, ':');
    assert host + ":" + Decimal(p) == host + [':'] + Decimal(p);
    SplitPair(host, Decimal(p), ':');
    ParseDecimal(p);
  }

  /** A port part that is not an int fails with NumberFormatException. */
  lemma RemoteBadPort(host: string, port: string, defaultPort: int)
    requires ':' !in host && ':' !in port && port != "" && ParseInt(port).None?
    ensures ParseRemote(host + ":" + port, defaultPort) == Err(NumberFormat)
  {
    assert host + ":" + port == host + [':'] + port;
    SplitPair(host, port, ':');
  }

  /** A trailing ':' is dropped by the split, so "host:" also means the default port. */
  lemma RemoteTrailingColon(host: string, defaultPort: int)
    requires ':' !in host && host != ""
    ensures ParseRemote(host + ":", defaultPort) == Ok(Remote(host, defaultPort))
  {
    var s := host + ":";
    assert s[|host|] == ':';
    var k := IndexOf(s, ':');
    assert k == |host|;
    assert s[..k] == host && s[k + 1..] == "";
    assert Pieces(s, ':') == [host] + Pieces("", ':') == [host, ""];
    assert DropTrailingEmpty([host, ""]) == DropTrailingEmpty([host]);
  }

  /** A lone ":" splits into nothing and fails reading the port. */
  lemma RemoteLoneColon(defaultPort: int)
    ensures ParseRemote(":", defaultPort) == Err(IndexOutOfBounds)
  {
    var s := ":";
    assert IndexOf(s, ':') == 0;
    assert Pieces(s, ':') == [""] + Pieces("", ':') == ["", ""];
    assert DropTrailingEmpty(["", ""]) == DropTrailingEmpty([""]);
  }

  predicate NullOrEmpty(s: Option<string>) {
    s.None? || s.value == ""
  }

  /** Which device link createLink chooses. */
  datatype LinkTarget = DefaultInstance | Network(remote: Remote)

  /** createLink: the default link without a remote, a network link to it otherwise. */
  function CreateLink(remote: Option<string>, defaultPort: int): (r: Result<LinkTarget>)
    ensures NullOrEmpty(remote) ==> r == Ok(DefaultInstance)
    ensures !NullOrEmpty(remote) ==>
      (r.Ok? <==> ParseRemote(remote.value, defaultPort).Ok?)
      && (r.Ok? ==> r.value == Network(ParseRemote(remote.value, defaultPort).value))
  {
    if NullOrEmpty(remote) then Ok(DefaultInstance)
    else
      var parsed := ParseRemote(remote.value, defaultPort);
      if parsed.Err? then Err(parsed.error) else Ok(Network(parsed.value))
  }

  // ----- connecting the device link -----

  /** The static connect(Link): no port (a null or empty list) fails; otherwise the first
      port is opened at 115200 baud, which `accepts` decides; a refusal fails too. */
  method ConnectLink(link: Link, portList: Option<seq<string>>, accepts: (string, int) -> bool)
    returns (r: Result<Link>)
    modifies link
    ensures portList.None? || portList.value == [] ==>
      r == Err(RuntimeMessage("No port found!")) && link.connected == old(link.connected)
    ensures portList.Some? && portList.value != [] ==>
      (r.Ok? <==> accepts(portList.value[0], BAUD_RATE))
      && (r.Ok? ==> r.value == link && link.connected)
      && (r.Err? ==> r.error == RuntimeMessage("Connection failed!"))
    ensures link.commands == old(link.commands)
    ensures link.digitalListeners == old(link.digitalListeners) && link.analogListeners == old(link.analogListeners)
  {
    if portList.None? || portList.value == [] {
      return Err(RuntimeMessage("No port found!"));
    }
    var port := portList.value[0];
    var ok := link.Connect(port, BAUD_RATE, accepts(port, BAUD_RATE));
    if !ok {
      return Err(RuntimeMessage("Connection failed!"));
    }
    r := Ok(link);
  }

  // ----- the broker client -----

  /** A message handed to the Paho client's publish(topic, payload, qos, retained). */
  datatype BrokerMessage = BrokerMessage(topic: string, payload: string, qos: int, retained: bool)

  datatype ConnectOptions = ConnectOptions(will: Option<BrokerMessage>)

  /** The calls the bridge makes on the Paho client, in order. */
  datatype BrokerOp =
    | ConnectWith(options: ConnectOptions)
    | SubscribeTo(filter: string)
    | UnsubscribeFrom(filter: string)
    | SetCallback(installed: bool)
    | Publish(message: BrokerMessage)
    | DisconnectClient
    | CloseClient

  /** Boolean.toString. */
  function BooleanText(b: bool): string {
    if b then "true" else "false"
  }

  /** The retained, qos 0 client-status message on the info topic. */
  function StatusPublication(infoTopic: string, state: bool): (msg: BrokerMessage)
    ensures msg.topic == infoTopic && msg.qos == 0 && msg.retained
    ensures msg.payload == "true" <==> state
    ensures msg.payload == "false" <==> !state
  {
    BrokerMessage(infoTopic, BooleanText(state), 0, true)
  }

  /** What publishClientStatus publishes: the status, unless the info topic is null or empty. */
  function StatusOps(infoTopic: Option<string>, state: bool): (ops: seq<BrokerOp>)
    ensures |ops| <= 1
    ensures ops != [] <==> !NullOrEmpty(infoTopic)
    ensures ops != [] ==> ops[0] == Publish(StatusPublication(infoTopic.value, state))
  {
    if NullOrEmpty(infoTopic) then [] else [Publish(StatusPublication(infoTopic.value, state))]
  }

  /** mqttConnectOptions: a last will "false" on the info topic, unless it is null or empty. */
  function ConnectOptionsFor(infoTopic: Option<string>): (o: ConnectOptions)
    ensures o.will.Some? <==> !NullOrEmpty(infoTopic)
    ensures o.will.Some? ==> o.will.value.topic == infoTopic.value && o.will.value.payload == "false"
    ensures o.will.Some? ==> o.will.value.qos == 0 && o.will.value.retained
  {
    if NullOrEmpty(infoTopic) then ConnectOptions(None) else ConnectOptions(Some(StatusPublication(infoTopic.value, false)))
  }

  /** The last will the broker sends on an unexpected loss is exactly the status a clean
      close publishes, so subscribers see "false" either way. */
  lemma WillIsClosingStatus(infoTopic: Option<string>)
    ensures ConnectOptionsFor(infoTopic).will.Some? <==> StatusOps(infoTopic, false) != []
    ensures ConnectOptionsFor(infoTopic).will.Some? ==>
      StatusOps(infoTopic, false) == [Publish(ConnectOptionsFor(infoTopic).will.value)]
  {
  }

  /** The subscription filter: everything under the broker topic. */
  function Filter(brokerTopic: string): (f: string)
    ensures |f| == |brokerTopic| + 1 && f[..|brokerTopic|] == brokerTopic && f[|brokerTopic|] == '#'
  {
    brokerTopic + "#"
  }

  /** The calls close makes: when connected, unsubscribe, drop the callback, publish the
      "false" status and disconnect; in any case close the client. */
  function CloseOps(connected: bool, brokerTopic: string, infoTopic: Option<string>): (ops: seq<BrokerOp>)
    ensures |ops| >= 1 && ops[|ops| - 1] == CloseClient
    ensures !connected ==> ops == [CloseClient]
    ensures connected ==> ops[0] == UnsubscribeFrom(Filter(brokerTopic)) && ops[|ops| - 2] == DisconnectClient
  {
    (if connected
     then [UnsubscribeFrom(Filter(brokerTopic)), SetCallback(false)] + StatusOps(infoTopic, false) + [DisconnectClient]
     else [])
    + [CloseClient]
  }

  /** close always ends with Close; when connected it first undoes the subscription that
      subscribe made, with the same filter, and announces "false" before disconnecting. */
  lemma CloseOrder(connected: bool, brokerTopic: string, infoTopic: Option<string>)
    ensures var ops := CloseOps(connected, brokerTopic, infoTopic);
      && ops[|ops| - 1] == CloseClient
      && (!connected ==> ops == [CloseClient])
      && (connected ==>
            && ops[0] == UnsubscribeFrom(Filter(brokerTopic))
            && ops[1] == SetCallback(false)
            && ops[|ops| - 2] == DisconnectClient
            && |ops| == (if NullOrEmpty(infoTopic) then 4 else 5)
            && (!NullOrEmpty(infoTopic) ==> ops[2] == Publish(StatusPublication(infoTopic.value, false))))
  {
  }

  /** The listeners that enabling change events for each pin, in order, registers. */
  function ListenersFor(pins: seq<int>, template: string, owner: object): (ls: seq<Listener>)
    ensures |ls| == |pins|
    ensures forall i :: 0 <= i < |pins| ==> ls[i] == Listener(pins[i], template, owner)
  {
    if |pins| == 0 then []
    else ListenersFor(pins[..|pins| - 1], template, owner) + [Listener(pins[|pins| - 1], template, owner)]
  }

  /** Each configured pin is listened to once per occurrence in the pin list, and no other
      pin is listened to. */
  lemma {:induction false} ListenedOncePerPin(pins: seq<int>, template: string, owner: object, p: int)
    ensures |ListeningOn(ListenersFor(pins, template, owner), p)| == multiset(pins)[p]
  {
    if |pins| > 0 {
      var init := pins[..|pins| - 1];
      var ls := ListenersFor(pins, template, owner);
      assert ls[..|ls| - 1] == ListenersFor(init, template, owner);
      ListenedOncePerPin(init, template, owner, p);
      assert pins == init + [pins[|pins| - 1]];
      assert multiset(pins) == multiset(init) + multiset{pins[|pins| - 1]};
    }
  }

  /** The inner MqttClient of MqttMain: an adapter whose broker side is the Paho client.
      `ops` logs the calls made on that client; it reads the broker topic and the info
      topic from the enclosing MqttMain, as the inner class does. */
  class BrokerClient {
    const main: MqttMain
    const adapter: AbstractMqttAdapter
    var connected: bool
    var ops: seq<BrokerOp>

    /** The constructor installs the callback on a new client. */
    constructor(main: MqttMain, adapter: AbstractMqttAdapter)
      ensures this.main == main && this.adapter == adapter
      ensures !connected && ops == [SetCallback(true)]
    {
      this.main := main;
      this.adapter := adapter;
      connected := false;
      ops := [SetCallback(true)];
    }

    function MqttConnectOptions(): (o: ConnectOptions)
      reads main
      ensures o == ConnectOptionsFor(main.publishClientInfoTopic)
    {
      ConnectOptionsFor(main.publishClientInfoTopic)
    }

    method PublishClientStatus(state: bool)
      modifies this
      ensures ops == old(ops) + StatusOps(main.publishClientInfoTopic, state)
      ensures connected == old(connected)
    {
      if !NullOrEmpty(main.publishClientInfoTopic) {
        ops := ops + [Publish(StatusPublication(main.publishClientInfoTopic.value, state))];
      }
    }

    /** connect: connect with the options, then announce "true". */
    method Connect()
      modifies this
      ensures connected
      ensures ops == old(ops) + [ConnectWith(ConnectOptionsFor(main.publishClientInfoTopic))]
                   + StatusOps(main.publishClientInfoTopic, true)
    {
      ops := ops + [ConnectWith(MqttConnectOptions())];
      connected := true;
      PublishClientStatus(true);
    }

    method Subscribe()
      modifies this
      ensures ops == old(ops) + [SubscribeTo(Filter(main.brokerTopic))]
      ensures connected == old(connected)
    {
      ops := ops + [SubscribeTo(main.brokerTopic + "#")];
    }

    method Unsubscribe()
      modifies this
      ensures ops == old(ops) + [UnsubscribeFrom(Filter(main.brokerTopic))]
      ensures connected == old(connected)
    {
      ops := ops + [UnsubscribeFrom(main.brokerTopic + "#")];
    }

    method Close()
      modifies this
      ensures !connected
      ensures ops == old(ops) + CloseOps(old(connected), main.brokerTopic, main.publishClientInfoTopic)
    {
      if connected {
        Unsubscribe();
        ops := ops + [SetCallback(false)];
        PublishClientStatus(false);
        ops := ops + [DisconnectClient];
        connected := false;
      }
      ops := ops + [CloseClient];
    }

    /** The digital half of listenToArduino: one enableDigitalPinChangeEvents per
        configured digital pin, in order; the time slicer exists only for a positive
        throttle. */
    method ListenToArduino() returns (timeSlicer: bool)
      requires adapter.Valid()
      modifies adapter.link
      ensures adapter.Valid()
      ensures timeSlicer <==> main.throttleMillis > 0
      ensures adapter.link.digitalListeners
           == old(adapter.link.digitalListeners) + ListenersFor(main.digitals, adapter.config.topicPatternDigitalRead, adapter)
      ensures adapter.link.commands == old(adapter.link.commands)
      ensures adapter.link.analogListeners == old(adapter.link.analogListeners)
      ensures adapter.link.connected == old(adapter.link.connected)
    {
      timeSlicer := main.throttleMillis > 0;
      var pins := main.digitals;
      var i := 0;
      while i < |pins|
        invariant 0 <= i <= |pins|
        invariant adapter.Valid()
        invariant adapter.link.digitalListeners
               == old(adapter.link.digitalListeners) + ListenersFor(pins[..i], adapter.config.topicPatternDigitalRead, adapter)
        invariant adapter.link.commands == old(adapter.link.commands)
        invariant adapter.link.analogListeners == old(adapter.link.analogListeners)
        invariant adapter.link.connected == old(adapter.link.connected)
      {
        assert pins[..i + 1][..i] == pins[..i];
        adapter.EnableDigitalPinChangeEvents(pins[i]);
        i := i + 1;
      }
      assert pins[..i] == pins;
    }
  }

  /** MqttMain: the options of the bridge and the two connections it owns. */
  class MqttMain {
    var sleepSecs: int
    var brokerTopic: string
    var brokerHost: string
    var brokerPort: int
    var clientId: string
    var publishClientInfoTopic: Option<string>
    var digitals: seq<int>
    var analogs: seq<int>
    var tolerance: int
    var throttleMillis: int
    var remote: Option<string>
    var control: bool
    var mqttClient: BrokerClient?
    var link: Link?

    constructor()
      ensures sleepSecs == DEFAULT_SLEEP_SECS && brokerTopic == DEFAULT_TOPIC
      ensures brokerHost == DEFAULT_BROKER_HOST && brokerPort == DEFAULT_BROKER_PORT
      ensures clientId == DEFAULT_CLIENT_ID && publishClientInfoTopic.None?
      ensures digitals == [] && analogs == []
      ensures tolerance == DEFAULT_TOLERANCE && throttleMillis == DEFAULT_THROTTLE_MILLIS
      ensures remote.None? && !control && mqttClient == null && link == null
    {
      sleepSecs := DEFAULT_SLEEP_SECS;
      brokerTopic := DEFAULT_TOPIC;
      brokerHost := DEFAULT_BROKER_HOST;
      brokerPort := DEFAULT_BROKER_PORT;
      clientId := DEFAULT_CLIENT_ID;
      publishClientInfoTopic := None;
      digitals := [];
      analogs := [];
      tolerance := DEFAULT_TOLERANCE;
      throttleMillis := DEFAULT_THROTTLE_MILLIS;
      remote := None;
      control := false;
      mqttClient := null;
      link := null;
    }

    /** The whole option state, to say what a setter leaves alone. */
    function Options(): (int, string, string, int, string, Option<string>, seq<int>, seq<int>, int, int, Option<string>, bool)
      reads this
    {
      (sleepSecs, brokerTopic, brokerHost, brokerPort, clientId, publishClientInfoTopic,
       digitals, analogs, tolerance, throttleMillis, remote, control)
    }

    method SetBrokerTopic(t: string)
      modifies this
      ensures brokerTopic == NormalizeBrokerTopic(t)
      ensures Options() == old(Options()).(1 := brokerTopic)
      ensures mqttClient == old(mqttClient) && link == old(link)
    {
      brokerTopic := if EndsWithSlash(t) then t else t + "/";
    }

    /** setAnalogs: an empty list for null, otherwise a copy of the array's contents. */
    method SetAnalogs(a: array?<int>)
      modifies this
      ensures a == null ==> analogs == []
      ensures a != null ==> analogs == a[..]
      ensures Options() == old(Options()).(7 := analogs)
      ensures mqttClient == old(mqttClient) && link == old(link)
    {
      analogs := if a == null then [] else a[..];
    }

    /** setDigitals: an empty list for null, otherwise a copy of the array's contents. */
    method SetDigitals(d: array?<int>)
      modifies this
      ensures d == null ==> digitals == []
      ensures d != null ==> digitals == d[..]
      ensures Options() == old(Options()).(6 := digitals)
      ensures mqttClient == old(mqttClient) && link == old(link)
    {
      digitals := if d == null then [] else d[..];
    }

    method SetThrottleMillis(t: int)
      modifies this
      ensures Options() == old(Options()).(9 := t)
      ensures mqttClient == old(mqttClient) && link == old(link)
    {
      throttleMillis := t;
    }

    /** close: disconnect the device link if it is connected, then close the broker
        client; a bridge that never connected fails with NullPointerException. */
    method Close() returns (err: Option<JavaException>)
      modifies link, mqttClient
      ensures link == null ==> err == Some(NullPointer)
      ensures link != null ==> !link.connected
      ensures link != null ==>
        && link.commands == old(link.commands)
        && link.digitalListeners == old(link.digitalListeners)
        && link.analogListeners == old(link.analogListeners)
      ensures link == null && mqttClient != null ==>
        mqttClient.ops == old(mqttClient.ops) && mqttClient.connected == old(mqttClient.connected)
      ensures link != null && mqttClient == null ==> err == Some(NullPointer)
      ensures link != null && mqttClient != null ==>
        err.None? && !mqttClient.connected
        && mqttClient.ops == old(mqttClient.ops)
           + CloseOps(old(mqttClient.connected), mqttClient.main.brokerTopic, mqttClient.main.publishClientInfoTopic)
    {
      if link == null {
        return Some(NullPointer);
      }
      if link.connected {
        link.Disconnect();
      }
      if mqttClient == null {
        return Some(NullPointer);
      }
      mqttClient.Close();
      err := None;
    }
  }

  /** A setter's copy does not share the array: writing to it afterwards leaves the
      configured pins as they were. */
  method SetDigitalsCopies(m: MqttMain, d: array<int>)
    requires d.Length > 0
    modifies m, d
    ensures m.digitals == old(d[..])
    ensures d[0] == old(d[0]) + 1
  {
    m.SetDigitals(d);
    d[0] := d[0] + 1;
  }
}
