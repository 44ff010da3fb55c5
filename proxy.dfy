/** NetworkProxyServerConnection: one socket of the network proxy. A line-based
    handshake (stop the server, list the ports, connect to a port) is followed by a
    character relay from the socket to the device link, while device frames go back
    to the socket followed by a divider byte. The socket is an input text read from
    the start and an ordered log of observable effects; NetworkProxyServer, Link and
    the message constants are collaborators given as parameters. */
module Proxy {
  import opened JavaText

  /** The NetworkProxyMessages constants and IProtocol.DEFAULT_INCOMING_MESSAGE_DIVIDER. */
  datatype ProxyMessages = ProxyMessages(
    stopServer: string,
    getPortList: string,
    connect: string,
    numberOfPorts: string,
    ok: string,
    ko: string,
    divider: int)
  {
    /** Three distinct commands, each readable as one line. */
    predicate Valid() {
      && stopServer != getPortList && stopServer != connect && getPortList != connect
      && NoTerminator(stopServer) && NoTerminator(getPortList) && NoTerminator(connect)
    }
  }

  /** The link NetworkProxyServer.connect hands out for a port name (null when the
      peer closed the stream) and a baud rate. */
  datatype DeviceLink = DeviceLink(port: Option<string>, baud: int)

  /** What the collaborators answer: Link.getPortList() of the default link, and the
      links whose isConnected() holds once opened. */
  datatype Env = Env(portList: Option<seq<string>>, connectable: set<DeviceLink>)

  /** Everything the connection does that can be observed from outside, in order. */
  datatype Effect =
    | Println(text: string)                 // printWriter.println, which auto-flushes
    | Flush                                 // an explicit flush of the socket output
    | WriteByte(b: int)                     // outputStream.write: the low 8 bits
    | ServerStop                            // NetworkProxyServer.stop()
    | ServerConnect(link: DeviceLink)       // NetworkProxyServer.connect(port, baud)
    | RawListenerAdded(link: DeviceLink)
    | RawListenerRemoved(link: DeviceLink)
    | ServerDisconnect(link: DeviceLink)    // NetworkProxyServer.disconnect(link.getName())
    | SerialWrite(link: DeviceLink, text: string)
    | SocketClosed

  // ----- BufferedReader.readLine -----

  predicate IsTerminator(c: char) {
    c == '\n' || c == '\r'
  }

  predicate NoTerminator(s: string) {
    forall i :: 0 <= i < |s| ==> !IsTerminator(s[i])
  }

  /** The first line terminator at or after i, or |s|. */
  function LineEnd(s: string, i: nat): (k: nat)
    requires i <= |s|
    ensures i <= k <= |s|
    ensures k < |s| ==> IsTerminator(s[k])
    ensures forall j :: i <= j < k ==> !IsTerminator(s[j])
    decreases |s| - i
  {
    if i == |s| || IsTerminator(s[i]) then i else LineEnd(s, i + 1)
  }

  /** readLine from position i: the text up to "\n", "\r" or "\r\n" (consumed as one
      terminator) or up to the end of the stream; None (null) at the end of the stream. */
  function ReadLine(s: string, i: nat): (r: (Option<string>, nat))
    ensures i < |s| ==> r.0.Some? && i < r.1 <= |s| && NoTerminator(r.0.value)
    ensures i >= |s| ==> r == (None, i)
  {
    if i >= |s| then (None, i)
    else
      var k := LineEnd(s, i);
      var next := if k == |s| then k
        else if s[k] == '\r' && k + 1 < |s| && s[k + 1] == '\n' then k + 2
        else k + 1;
      (Some(s[i..k]), next)
  }

  /** A line followed by "\n" is read exactly, and the reader moves past the terminator. */
  lemma ReadLineAt(s: string, i: nat, line: string)
    requires i + |line| < |s| && s[i..i + |line|] == line && s[i + |line|] == '\n'
    requires NoTerminator(line)
    ensures ReadLine(s, i) == (Some(line), i + |line| + 1)
  {
    var k := LineEnd(s, i);
    assert forall j :: i <= j < i + |line| ==> s[j] == line[j - i];
    assert k == i + |line|;
  }

  lemma ReadLineOf(pre: string, line: string, rest: string)
    requires NoTerminator(line)
    ensures ReadLine(pre + line + "\n" + rest, |pre|) == (Some(line), |pre| + |line| + 1)
  {
    var s := pre + line + "\n" + rest;
    assert s[|pre|..|pre| + |line|] == line;
    ReadLineAt(s, |pre|, line);
  }

  // ----- the handshake as a specification -----

  /** The state processInput reads and writes: the reader's position and the fields
      closed, handshakeComplete and link. */
  datatype State = State(pos: nat, closed: bool, handshakeComplete: bool, link: Option<DeviceLink>)

  /** The effects of one step, the state after it, and whether an exception escaped. */
  datatype Step = Step(effects: seq<Effect>, state: State, thrown: bool)

  function PrintAll(xs: seq<string>): (r: seq<Effect>)
    ensures |r| == |xs|
  {
    if |xs| == 0 then [] else PrintAll(xs[..|xs| - 1]) + [Println(xs[|xs| - 1])]
  }

  /** The reply to the port-list command, before its flush. */
  function PortListReply(m: ProxyMessages, portList: Option<seq<string>>): (r: seq<Effect>)
    ensures |r| == 1 + (if portList.Some? then |portList.value| else 0)
  {
    if portList.None? || |portList.value| == 0 then [Println(m.numberOfPorts + "0")]
    else [Println(m.numberOfPorts + Decimal(|portList.value|))] + PrintAll(portList.value)
  }

  /** The connect command once its two argument lines are read (None: readLine returned
      null) and the reader stands at p2: open the link and answer OK or KO. */
  function ConnectWith(m: ProxyMessages, env: Env, st: State, portName: Option<string>, baudText: Option<string>, p2: nat): (r: Step)
    requires st.handshakeComplete ==> st.link.Some?
    ensures r.state.pos == p2
    ensures r.state.handshakeComplete ==> r.state.link.Some?
    ensures r.state.closed == st.closed
    ensures r.thrown <==> baudText.None? || ParseInt(baudText.value).None?
    ensures r.thrown ==> r.effects == [] && r.state.link == st.link && r.state.handshakeComplete == st.handshakeComplete
    ensures !r.thrown ==> r.state.link == Some(DeviceLink(portName, ParseInt(baudText.value).value))
    ensures !r.thrown ==> |r.effects| >= 3 && r.effects[0] == ServerConnect(r.state.link.value)
    ensures !r.thrown ==>
      (r.state.handshakeComplete <==> st.handshakeComplete || r.state.link.value in env.connectable)
    ensures !r.thrown && r.state.link.value in env.connectable ==>
      r.effects == [ServerConnect(r.state.link.value), Println(m.ok), Flush, RawListenerAdded(r.state.link.value)]
    ensures !r.thrown && r.state.link.value !in env.connectable ==>
      r.effects == [ServerConnect(r.state.link.value), Println(m.ko), Flush]
  {
    if baudText.None? || ParseInt(baudText.value).None? then
      Step([], st.(pos := p2), true)
    else
      var l := DeviceLink(portName, ParseInt(baudText.value).value);
      if l in env.connectable then
        Step([ServerConnect(l), Println(m.ok), Flush, RawListenerAdded(l)],
             st.(pos := p2, link := Some(l), handshakeComplete := true), false)
      else
        Step([ServerConnect(l), Println(m.ko), Flush], st.(pos := p2, link := Some(l)), false)
  }

  /** The connect command: read the port name and the baud rate, open the link, answer. */
  function ConnectStep(m: ProxyMessages, env: Env, input: string, st: State): (r: Step)
    requires st.pos <= |input| && (st.handshakeComplete ==> st.link.Some?)
    ensures st.pos <= r.state.pos <= |input|
    ensures r.state.handshakeComplete ==> r.state.link.Some?
    ensures r.state.closed == st.closed
    ensures r.thrown ==> r.effects == [] && r.state.link == st.link && r.state.handshakeComplete == st.handshakeComplete
    ensures !r.thrown ==> r.state.link.Some? && |r.effects| >= 3 && r.effects[0] == ServerConnect(r.state.link.value)
    ensures !r.thrown ==>
      (r.state.handshakeComplete <==> st.handshakeComplete || r.state.link.value in env.connectable)
    ensures !r.thrown && r.state.link.value in env.connectable ==>
      r.effects == [ServerConnect(r.state.link.value), Println(m.ok), Flush, RawListenerAdded(r.state.link.value)]
    ensures !r.thrown && r.state.link.value !in env.connectable ==>
      r.effects == [ServerConnect(r.state.link.value), Println(m.ko), Flush]
  {
    var portLine := ReadLine(input, st.pos);
    var baudLine := ReadLine(input, portLine.1);
    ConnectWith(m, env, st, portLine.0, baudLine.0, baudLine.1)
  }

  /** processInput on a line (None: readLine returned null). */
  function Process(m: ProxyMessages, env: Env, input: string, line: Option<string>, st: State): (r: Step)
    requires st.pos <= |input| && (st.handshakeComplete ==> st.link.Some?)
    ensures st.pos <= r.state.pos <= |input|
    ensures r.state.handshakeComplete ==> r.state.link.Some?
  {
    if line.None? then Step([], st, true)
    else if line.value == m.stopServer then Step([ServerStop], st.(closed := true), false)
    else if line.value == m.getPortList then Step(PortListReply(m, env.portList) + [Flush], st, false)
    else if line.value == m.connect then ConnectStep(m, env, input, st)
    else Step([], st, false)
  }

  /** The first loop of run: process the current line, and read the next one while
      neither closed nor handshakeComplete is set. */
  function Handshake(m: ProxyMessages, env: Env, input: string, line: Option<string>, st: State): (r: Step)
    requires st.pos <= |input| && (st.handshakeComplete ==> st.link.Some?)
    ensures r.state.pos <= |input|
    ensures r.state.handshakeComplete ==> r.state.link.Some?
    ensures !r.thrown ==> r.state.closed || r.state.handshakeComplete
    decreases |input| - st.pos, if line.Some? then 1 else 0
  {
    if st.closed || st.handshakeComplete then Step([], st, false)
    else
      var r := Process(m, env, input, line, st);
      if r.thrown || r.state.closed || r.state.handshakeComplete then r
      else
        var (next, p) := ReadLine(input, r.state.pos);
        var rest := Handshake(m, env, input, next, r.state.(pos := p));
        Step(r.effects + rest.effects, rest.state, rest.thrown)
  }

  /** One turn of the handshake loop. */
  lemma HandshakeStep(m: ProxyMessages, env: Env, input: string, line: Option<string>, st: State)
    requires st.pos <= |input| && (st.handshakeComplete ==> st.link.Some?)
    requires !st.closed && !st.handshakeComplete
    ensures var r := Process(m, env, input, line, st);
      var next := ReadLine(input, r.state.pos);
      if r.thrown || r.state.closed || r.state.handshakeComplete then Handshake(m, env, input, line, st) == r
      else
        var rest := Handshake(m, env, input, next.0, r.state.(pos := next.1));
        Handshake(m, env, input, line, st) == Step(r.effects + rest.effects, rest.state, rest.thrown)
  {
  }

  lemma AppendAssoc<T>(a: seq<T>, b: seq<T>, c: seq<T>)
    ensures (a + b) + c == a + (b + c)
  {
  }

  /** The second loop of run: one single-character writeSerial per character left. */
  function Relay(l: DeviceLink, input: string, pos: nat): (r: seq<Effect>)
    ensures |r| == if pos <= |input| then |input| - pos else 0
    decreases |input| - pos
  {
    if pos >= |input| then [] else [SerialWrite(l, [input[pos]])] + Relay(l, input, pos + 1)
  }

  /** The finally block: release the link if one was ever assigned, then close the socket. */
  function Teardown(link: Option<DeviceLink>): (r: seq<Effect>)
    ensures |r| == if link.Some? then 3 else 1
    ensures r[|r| - 1] == SocketClosed
  {
    (if link.Some? then [RawListenerRemoved(link.value), ServerDisconnect(link.value)] else []) + [SocketClosed]
  }

  /** What run does on a fresh connection; `aborted` when an exception escapes run. */
  datatype Outcome = Outcome(effects: seq<Effect>, aborted: bool)

  /** run on a connection whose client sends `input`: whatever happens, the socket is
      closed last. */
  function Session(m: ProxyMessages, env: Env, input: string): (o: Outcome)
    ensures |o.effects| >= 1 && o.effects[|o.effects| - 1] == SocketClosed
  {
    var (first, p) := ReadLine(input, 0);
    var h := Handshake(m, env, input, first, State(p, false, false, None));
    var relay := if !h.thrown && !h.state.closed then Relay(h.state.link.value, input, h.state.pos) else [];
    Outcome(h.effects + relay + Teardown(h.state.link), h.thrown)
  }

  // ----- device frames written back to the socket -----

  /** OutputStream.write(int) keeps the low-order eight bits. */
  function LowByte(b: int): (r: int)
    ensures 0 <= r < 256
    ensures 0 <= b < 256 ==> r == b
  {
    b % 256
  }

  function WriteBytes(message: seq<int>): (r: seq<Effect>)
    ensures |r| == |message|
  {
    if |message| == 0 then [] else WriteBytes(message[..|message| - 1]) + [WriteByte(LowByte(message[|message| - 1]))]
  }

  /** What parseInput writes for a whole frame: its bytes, the divider, a flush. */
  function Frame(message: seq<int>, divider: int): seq<Effect> {
    WriteBytes(message) + [WriteByte(LowByte(divider)), Flush]
  }

  /** The bytes a peer reads from a sequence of effects. */
  function BytesOf(es: seq<Effect>): seq<int> {
    if |es| == 0 then []
    else BytesOf(es[..|es| - 1]) + (if es[|es| - 1].WriteByte? then [es[|es| - 1].b] else [])
  }

  // ----- the connection -----

  class ProxyConnection {
    const messages: ProxyMessages
    const env: Env
    /** Everything the peer sends over the socket. */
    const input: string
    /** socket != null */
    var socketOpen: bool
    /** The reader and the writers are set. */
    var streamsOpen: bool
    /** How much of the input the reader has consumed. */
    var pos: nat
    var closed: bool
    var handshakeComplete: bool
    var link: Option<DeviceLink>
    var effects: seq<Effect>

    function Snapshot(): State
      reads this
    {
      State(pos, closed, handshakeComplete, link)
    }

    ghost predicate Valid()
      reads this
    {
      && pos <= |input|
      && (socketOpen ==> pos == 0 && !closed && !handshakeComplete && link.None?)
      && (!socketOpen ==> !streamsOpen && link.None?)
    }

    constructor(messages: ProxyMessages, env: Env, input: string)
      ensures Valid() && socketOpen && !streamsOpen && effects == []
      ensures this.messages == messages && this.env == env && this.input == input
    {
      this.messages := messages;
      this.env := env;
      this.input := input;
      socketOpen := true;
      streamsOpen := false;
      pos := 0;
      closed := false;
      handshakeComplete := false;
      link := None;
      effects := [];
    }

    /** The stream set-up at the head of run. */
    method OpenStreams()
      requires socketOpen
      modifies this
      ensures streamsOpen && socketOpen
      ensures Snapshot() == old(Snapshot()) && effects == old(effects)
    {
      streamsOpen := true;
    }

    /** run: the handshake loop, the relay loop when not closed, then the finally block.
        On a connection whose socket was already released, the first dereference of the
        socket throws and so does the finally block's logging line: nothing happens. */
    method Run() returns (aborted: bool)
      requires Valid()
      modifies this
      ensures Valid() && !socketOpen && !streamsOpen && link.None?
      ensures old(socketOpen) ==>
        && closed
        && effects == old(effects) + Session(messages, env, input).effects
        && aborted == Session(messages, env, input).aborted
      ensures !old(socketOpen) ==> aborted && effects == old(effects) && Snapshot() == old(Snapshot())
    {
      if !socketOpen {
        return true;
      }
      var first := ReadLine(input, 0);
      ghost var h := Handshake(messages, env, input, first.0, State(first.1, false, false, None));
      ghost var relay := if !h.thrown && !h.state.closed then Relay(h.state.link.value, input, h.state.pos) else [];
      var thrown := Converse();
      Finish();
      AppendAssoc(old(effects), h.effects, relay);
      AppendAssoc(old(effects), h.effects + relay, Teardown(h.state.link));
      aborted := thrown;
    }

    /** The body of run's try block: open the streams, then the two loops. */
    method Converse() returns (thrown: bool)
      requires Valid() && socketOpen
      modifies this
      ensures var (first, p) := ReadLine(input, 0);
        var h := Handshake(messages, env, input, first, State(p, false, false, None));
        var relay := if !h.thrown && !h.state.closed then Relay(h.state.link.value, input, h.state.pos) else [];
        && effects == old(effects) + h.effects + relay
        && thrown == h.thrown && link == h.state.link
      ensures pos <= |input|
    {
      OpenStreams();
      var first := ReadLine(input, 0);
      pos := first.1;
      ghost var total := Handshake(messages, env, input, first.0, Snapshot());
      thrown := HandshakeLoop(first.0);
      if !thrown && !closed {
        RelayLoop();
      }
    }

    /** run's finally block: release the link if one was opened, then close the socket. */
    method Finish()
      requires pos <= |input|
      modifies this
      ensures Valid() && closed && link.None? && !socketOpen && !streamsOpen
      ensures effects == old(effects) + Teardown(old(link))
    {
      closed := true;
      if link.Some? {
        effects := effects + [RawListenerRemoved(link.value), ServerDisconnect(link.value)];
      }
      effects := effects + [SocketClosed];
      link := None;
      socketOpen := false;
      streamsOpen := false;
    }

    /** The first loop of run, from the first line read. */
    method HandshakeLoop(line0: Option<string>) returns (thrown: bool)
      requires pos <= |input| && (handshakeComplete ==> link.Some?)
      modifies this
      ensures var h := Handshake(messages, env, input, line0, old(Snapshot()));
        effects == old(effects) + h.effects && Snapshot() == h.state && thrown == h.thrown
      ensures socketOpen == old(socketOpen) && streamsOpen == old(streamsOpen)
    {
      var line := line0;
      ghost var total := Handshake(messages, env, input, line, Snapshot());
      thrown := false;
      while !closed && !handshakeComplete && !thrown
        invariant pos <= |input| && (handshakeComplete ==> link.Some?)
        invariant socketOpen == old(socketOpen) && streamsOpen == old(streamsOpen)
        invariant !thrown ==>
          var h := Handshake(messages, env, input, line, Snapshot());
          effects + h.effects == old(effects) + total.effects && h.state == total.state && h.thrown == total.thrown
        invariant thrown ==> effects == old(effects) + total.effects && Snapshot() == total.state && total.thrown
        decreases |input| - pos, if line.Some? then 1 else 0, if closed || handshakeComplete || thrown then 0 else 1
      {
        ghost var before := Snapshot();
        ghost var eb := effects;
        ghost var hb := Handshake(messages, env, input, line, before);
        ghost var r := Process(messages, env, input, line, before);
        HandshakeStep(messages, env, input, line, before);
        thrown := ProcessInput(line);
        assert effects == eb + r.effects && Snapshot() == r.state && thrown == r.thrown;
        if !thrown && !closed && !handshakeComplete {
          var next := ReadLine(input, pos);
          line := next.0;
          pos := next.1;
          assert Snapshot() == r.state.(pos := next.1);
          ghost var rest := Handshake(messages, env, input, next.0, r.state.(pos := next.1));
          assert hb.effects == r.effects + rest.effects;
          AppendAssoc(eb, r.effects, rest.effects);
        }
      }
      if !thrown {
        assert Handshake(messages, env, input, line, Snapshot()) == Step([], Snapshot(), false);
      }
    }

    /** The second loop of run: every remaining character goes to the link. */
    method RelayLoop()
      requires pos <= |input| && link.Some?
      modifies this
      ensures pos == |input| && link == old(link) && closed == old(closed)
      ensures effects == old(effects) + Relay(link.value, input, old(pos))
      ensures handshakeComplete == old(handshakeComplete)
      ensures socketOpen == old(socketOpen) && streamsOpen == old(streamsOpen)
    {
      while pos < |input|
        invariant old(pos) <= pos <= |input|
        invariant link == old(link) && closed == old(closed) && handshakeComplete == old(handshakeComplete)
        invariant socketOpen == old(socketOpen) && streamsOpen == old(streamsOpen)
        invariant old(effects) + Relay(link.value, input, old(pos)) == effects + Relay(link.value, input, pos)
      {
        ghost var eb := effects;
        assert Relay(link.value, input, pos) == [SerialWrite(link.value, [input[pos]])] + Relay(link.value, input, pos + 1);
        WriteSerial([input[pos]]);
        AppendAssoc(eb, [SerialWrite(link.value, [input[pos]])], Relay(link.value, input, pos + 1));
        pos := pos + 1;
      }
    }

    /** processInput; `thrown` when the line is null (NullPointerException) or the baud
        line of a connect command is not an int (NumberFormatException). */
    method ProcessInput(line: Option<string>) returns (thrown: bool)
      requires pos <= |input| && (handshakeComplete ==> link.Some?)
      modifies this
      ensures var r := Process(messages, env, input, line, old(Snapshot()));
        effects == old(effects) + r.effects && Snapshot() == r.state && thrown == r.thrown
      ensures socketOpen == old(socketOpen) && streamsOpen == old(streamsOpen)
    {
      thrown := false;
      if line.None? {
        thrown := true;
      } else if line.value == messages.stopServer {
        effects := effects + [ServerStop];
        closed := true;
      } else if line.value == messages.getPortList {
        PrintPortList();
      } else if line.value == messages.connect {
        thrown := ConnectCommand();
      }
    }

    /** The port-list branch of processInput. */
    method PrintPortList()
      modifies this
      ensures effects == old(effects) + PortListReply(messages, env.portList) + [Flush]
      ensures Snapshot() == old(Snapshot())
      ensures socketOpen == old(socketOpen) && streamsOpen == old(streamsOpen)
    {
      var portList := env.portList;
      if portList.None? || |portList.value| == 0 {
        effects := effects + [Println(messages.numberOfPorts + "0")];
      } else {
        var ports := portList.value;
        effects := effects + [Println(messages.numberOfPorts + Decimal(|ports|))];
        ghost var e1 := effects;
        var i := 0;
        while i < |ports|
          invariant 0 <= i <= |ports|
          invariant effects == e1 + PrintAll(ports[..i])
          invariant Snapshot() == old(Snapshot())
          invariant socketOpen == old(socketOpen) && streamsOpen == old(streamsOpen)
        {
          assert ports[..i + 1][..i] == ports[..i];
          effects := effects + [Println(ports[i])];
          i := i + 1;
        }
        assert ports[..|ports|] == ports;
      }
      effects := effects + [Flush];
    }

    /** The connect branch of processInput. */
    method ConnectCommand() returns (thrown: bool)
      requires pos <= |input| && (handshakeComplete ==> link.Some?)
      modifies this
      ensures var r := ConnectStep(messages, env, input, old(Snapshot()));
        effects == old(effects) + r.effects && Snapshot() == r.state && thrown == r.thrown
      ensures socketOpen == old(socketOpen) && streamsOpen == old(streamsOpen)
    {
      var r1 := ReadLine(input, pos);
      pos := r1.1;
      var r2 := ReadLine(input, pos);
      pos := r2.1;
      thrown := ConnectArguments(r1.0, r2.0);
    }

    /** The connect branch once its two lines are read: parse the baud rate, connect,
        and answer OK or KO. */
    method ConnectArguments(portName: Option<string>, baudText: Option<string>) returns (thrown: bool)
      requires handshakeComplete ==> link.Some?
      modifies this
      ensures var r := ConnectWith(messages, env, old(Snapshot()), portName, baudText, old(pos));
        effects == old(effects) + r.effects && Snapshot() == r.state && thrown == r.thrown
      ensures socketOpen == old(socketOpen) && streamsOpen == old(streamsOpen)
    {
      if baudText.None? || ParseInt(baudText.value).None? {
        thrown := true;
      } else {
        thrown := false;
        var connected := Connect(portName, ParseInt(baudText.value).value);
        if connected {
          effects := effects + [Println(messages.ok), Flush];
          handshakeComplete := true;
          effects := effects + [RawListenerAdded(link.value)];
        } else {
          effects := effects + [Println(messages.ko), Flush];
        }
      }
    }

    /** connect: the link is assigned whatever isConnected answers. */
    method Connect(portName: Option<string>, baudRate: int) returns (isConnected: bool)
      modifies this
      ensures link == Some(DeviceLink(portName, baudRate))
      ensures isConnected == (DeviceLink(portName, baudRate) in env.connectable)
      ensures effects == old(effects) + [ServerConnect(DeviceLink(portName, baudRate))]
      ensures pos == old(pos) && closed == old(closed) && handshakeComplete == old(handshakeComplete)
      ensures socketOpen == old(socketOpen) && streamsOpen == old(streamsOpen)
    {
      link := Some(DeviceLink(portName, baudRate));
      effects := effects + [ServerConnect(link.value)];
      isConnected := link.value in env.connectable;
    }

    /** writeSerial: hands the text to the current link (a null link would throw). */
    method WriteSerial(message: string)
      requires link.Some?
      modifies this
      ensures Snapshot() == old(Snapshot())
      ensures effects == old(effects) + [SerialWrite(link.value, message)]
      ensures socketOpen == old(socketOpen) && streamsOpen == old(streamsOpen)
    {
      effects := effects + [SerialWrite(link.value, message)];
    }

    /** parseInput: the first numBytes entries of the frame, then the divider and a flush.
        With the streams unset the first write throws; an entry past the end of the array
        throws after the entries before it were written. */
    method ParseInput(id: string, numBytes: int, message: seq<int>) returns (thrown: bool)
      modifies this
      ensures !streamsOpen ==> thrown && effects == old(effects)
      ensures streamsOpen && numBytes <= |message| ==>
        !thrown && effects == old(effects) + Frame(message[..if numBytes < 0 then 0 else numBytes], messages.divider)
      ensures streamsOpen && numBytes > |message| ==> thrown && effects == old(effects) + WriteBytes(message)
      ensures Snapshot() == old(Snapshot()) && socketOpen == old(socketOpen) && streamsOpen == old(streamsOpen)
    {
      if !streamsOpen {
        return true;
      }
      thrown := false;
      ghost var e0 := effects;
      var i := 0;
      while i < numBytes
        invariant 0 <= i <= |message| && (i <= numBytes || i == 0)
        invariant effects == e0 + WriteBytes(message[..i])
        invariant streamsOpen
        invariant Snapshot() == old(Snapshot()) && socketOpen == old(socketOpen)
      {
        if i >= |message| {
          assert message[..i] == message;
          return true;
        }
        assert message[..i + 1][..i] == message[..i];
        effects := effects + [WriteByte(LowByte(message[i]))];
        i := i + 1;
      }
      assert message[..if numBytes < 0 then 0 else numBytes] == message[..i];
      effects := effects + [WriteByte(LowByte(messages.divider)), Flush];
    }
  }

  // ----- properties of the handshake -----

  /** The port-list reply is NUMBER_OF_PORTS with the count, then each name in list order;
      a null or empty list gives the count 0 and nothing more. */
  lemma PortListShape(m: ProxyMessages, portList: Option<seq<string>>)
    ensures var n := if portList.Some? then |portList.value| else 0;
      var r := PortListReply(m, portList);
      && |r| == n + 1
      && r[0] == Println(m.numberOfPorts + Decimal(n))
      && forall i :: 0 <= i < n ==> r[i + 1] == Println(portList.value[i])
  {
    if portList.Some? && |portList.value| > 0 {
      PrintAllAt(portList.value);
    }
  }

  lemma {:induction false} PrintAllAt(xs: seq<string>)
    ensures forall i :: 0 <= i < |xs| ==> PrintAll(xs)[i] == Println(xs[i])
  {
    if |xs| > 0 {
      PrintAllAt(xs[..|xs| - 1]);
    }
  }

  /** A line that is none of the commands writes nothing and changes nothing. */
  lemma UnknownLineIgnored(m: ProxyMessages, env: Env, input: string, line: string, st: State)
    requires st.pos <= |input| && (st.handshakeComplete ==> st.link.Some?)
    requires line != m.stopServer && line != m.getPortList && line != m.connect
    ensures Process(m, env, input, Some(line), st) == Step([], st, false)
  {
  }

  /** The connect command consumes exactly the next two lines; it answers OK and completes
      the handshake exactly when the opened link is connected, and OK is flushed before the
      connection registers as a raw-data listener. The link is assigned either way. */
  lemma ConnectReply(m: ProxyMessages, env: Env, pre: string, port: string, baud: int, rest: string, st: State)
    requires m.connect != m.stopServer && m.connect != m.getPortList
    requires NoTerminator(port) && InInt32(baud)
    requires st.pos == |pre| && (st.handshakeComplete ==> st.link.Some?)
    ensures var input := pre + port + "\n" + Decimal(baud) + "\n" + rest;
      var l := DeviceLink(Some(port), baud);
      var r := Process(m, env, input, Some(m.connect), st);
      && r.state.pos == |pre| + |port| + |Decimal(baud)| + 2
      && !r.thrown && r.state.link == Some(l) && !r.state.closed == !st.closed
      && (r.state.handshakeComplete <==> st.handshakeComplete || l in env.connectable)
      && r.effects == if l in env.connectable
           then [ServerConnect(l), Println(m.ok), Flush, RawListenerAdded(l)]
           else [ServerConnect(l), Println(m.ko), Flush]
  {
    DecimalNoTerminator(baud);
    ParseDecimal(baud);
    ConnectReplyText(m, env, pre, port, Decimal(baud), baud, rest, st);
  }

  /** The connect step on the two lines that follow the command in the text. */
  lemma ConnectReplyText(m: ProxyMessages, env: Env, pre: string, port: string, baudText: string, baud: int, rest: string, st: State)
    requires m.connect != m.stopServer && m.connect != m.getPortList
    requires NoTerminator(port) && NoTerminator(baudText) && ParseInt(baudText) == Some(baud)
    requires st.pos == |pre| && (st.handshakeComplete ==> st.link.Some?)
    ensures Process(m, env, pre + port + "\n" + baudText + "\n" + rest, Some(m.connect), st)
      == ConnectWith(m, env, st, Some(port), Some(baudText), |pre| + |port| + |baudText| + 2)
  {
    var input := pre + port + "\n" + baudText + "\n" + rest;
    TwoLines(pre, port, baudText, rest);
    ConnectStepOf(m, env, input, st, port, baudText, |pre| + |port| + 1, |pre| + |port| + |baudText| + 2);
  }

  /** The connect step once the two lines after the command are known. */
  lemma ConnectStepOf(m: ProxyMessages, env: Env, input: string, st: State, port: string, baudText: string, p1: nat, p2: nat)
    requires m.connect != m.stopServer && m.connect != m.getPortList
    requires st.pos <= |input| && (st.handshakeComplete ==> st.link.Some?)
    requires ReadLine(input, st.pos) == (Some(port), p1) && ReadLine(input, p1) == (Some(baudText), p2)
    ensures Process(m, env, input, Some(m.connect), st) == ConnectWith(m, env, st, Some(port), Some(baudText), p2)
  {
    assert ConnectStep(m, env, input, st) == ConnectWith(m, env, st, Some(port), Some(baudText), p2);
  }

  /** Two lines after a prefix are read one after the other. */
  lemma TwoLines(pre: string, a: string, b: string, rest: string)
    requires NoTerminator(a) && NoTerminator(b)
    ensures ReadLine(pre + a + "\n" + b + "\n" + rest, |pre|) == (Some(a), |pre| + |a| + 1)
    ensures ReadLine(pre + a + "\n" + b + "\n" + rest, |pre| + |a| + 1) == (Some(b), |pre| + |a| + |b| + 2)
  {
    AppendAssoc(b, "\n", rest);
    AppendAssoc(pre + a + "\n", b, "\n" + rest);
    AppendAssoc(pre + a + "\n" + b, "\n", rest);
    ReadLineOf(pre, a, b + "\n" + rest);
    ReadLineOfAt(pre + a + "\n", b, rest, |pre| + |a| + 1);
  }

  /** The first line of a text is read whole. */
  lemma FirstLine(line: string, rest: string)
    requires NoTerminator(line)
    ensures ReadLine(line + "\n" + rest, 0) == (Some(line), |line| + 1)
  {
    ReadLineOf("", line, rest);
    assert "" + line == line;
  }

  /** The connect handshake's text, regrouped after its first line. */
  lemma RegroupLines(c: string, port: string, baudText: string, data: string)
    ensures c + "\n" + port + "\n" + baudText + "\n" + data == c + "\n" + (port + "\n" + baudText + "\n" + data)
  {
    var x := c + "\n";
    AppendAssoc(x, port + "\n" + baudText + "\n", data);
    AppendAssoc(x, port + "\n" + baudText, "\n");
    AppendAssoc(x, port + "\n", baudText);
    AppendAssoc(x, port, "\n");
  }

  /** ReadLineOf with the reader's position given as a number. */
  lemma ReadLineOfAt(pre: string, line: string, rest: string, i: nat)
    requires NoTerminator(line) && i == |pre|
    ensures ReadLine(pre + line + "\n" + rest, i) == (Some(line), i + |line| + 1)
  {
    ReadLineOf(pre, line, rest);
  }

  lemma DecimalNoTerminator(n: int)
    ensures NoTerminator(Decimal(n))
  {
    DecimalHasNoSeparator(n, '\n');
    DecimalHasNoSeparator(n, '\r');
    assert forall i :: 0 <= i < |Decimal(n)| ==> Decimal(n)[i] in Decimal(n);
  }


  /** Without a line the handshake throws and writes nothing. */
  lemma EmptyInputSession(m: ProxyMessages, env: Env)
    ensures Session(m, env, "") == Outcome([SocketClosed], true)
  {
  }

  /** A stop command first: the server is stopped, nothing is relayed, the socket is closed. */
  lemma StopSession(m: ProxyMessages, env: Env, rest: string)
    requires m.Valid()
    ensures Session(m, env, m.stopServer + "\n" + rest) == Outcome([ServerStop, SocketClosed], false)
  {
    ReadLineOf("", m.stopServer, rest);
    assert "" + m.stopServer + "\n" + rest == m.stopServer + "\n" + rest;
  }

  /** Every remaining character, in order, as a one-character write. */
  lemma {:induction false} RelayChars(l: DeviceLink, pre: string, data: string)
    ensures Relay(l, pre + data, |pre|) == seq(|data|, i requires 0 <= i < |data| => SerialWrite(l, [data[i]]))
    decreases |data|
  {
    if |data| > 0 {
      RelayChars(l, pre + [data[0]], data[1..]);
      assert pre + [data[0]] + data[1..] == pre + data;
    }
  }

  /** The handshake part of ConnectSession: the connect line, then the two argument
      lines, complete the handshake with an open link. */
  lemma ConnectHandshake(m: ProxyMessages, env: Env, port: string, baudText: string, baud: int, data: string)
    requires m.Valid() && NoTerminator(port) && NoTerminator(baudText) && ParseInt(baudText) == Some(baud)
    requires DeviceLink(Some(port), baud) in env.connectable
    ensures var l := DeviceLink(Some(port), baud);
      var prefix := m.connect + "\n" + port + "\n" + baudText + "\n";
      var input := prefix + data;
      && ReadLine(input, 0) == (Some(m.connect), |m.connect| + 1)
      && Handshake(m, env, input, Some(m.connect), State(|m.connect| + 1, false, false, None))
         == Step([ServerConnect(l), Println(m.ok), Flush, RawListenerAdded(l)], State(|prefix|, false, true, Some(l)), false)
  {
    var pre := m.connect + "\n";
    var input := pre + port + "\n" + baudText + "\n" + data;
    RegroupLines(m.connect, port, baudText, data);
    FirstLine(m.connect, port + "\n" + baudText + "\n" + data);
    var st := State(|pre|, false, false, None);
    ConnectReplyText(m, env, pre, port, baudText, baud, data, st);
    assert Handshake(m, env, input, Some(m.connect), st) == Process(m, env, input, Some(m.connect), st);
  }

  /** A successful connect, then data: the link is opened, OK is sent, each data character
      goes to the link in order, and the link is released before the socket is closed. */
  lemma ConnectSession(m: ProxyMessages, env: Env, port: string, baud: int, data: string)
    requires m.Valid() && NoTerminator(port) && InInt32(baud)
    requires DeviceLink(Some(port), baud) in env.connectable
    ensures var l := DeviceLink(Some(port), baud);
      Session(m, env, m.connect + "\n" + port + "\n" + Decimal(baud) + "\n" + data)
      == Outcome([ServerConnect(l), Println(m.ok), Flush, RawListenerAdded(l)]
                 + seq(|data|, i requires 0 <= i < |data| => SerialWrite(l, [data[i]]))
                 + [RawListenerRemoved(l), ServerDisconnect(l), SocketClosed], false)
  {
    var l := DeviceLink(Some(port), baud);
    var prefix := m.connect + "\n" + port + "\n" + Decimal(baud) + "\n";
    DecimalNoTerminator(baud);
    ParseDecimal(baud);
    ConnectHandshake(m, env, port, Decimal(baud), baud, data);
    RelayChars(l, prefix, data);
  }

  /** Some step opened a link. */
  predicate Opens(es: seq<Effect>) {
    exists i :: 0 <= i < |es| && es[i].ServerConnect?
  }

  /** Some step released a link. */
  predicate Releases(es: seq<Effect>) {
    exists i :: 0 <= i < |es| && es[i].RawListenerRemoved?
  }

  /** Neither a relayed character nor a released link. */
  predicate HandshakeOnly(es: seq<Effect>) {
    forall i :: 0 <= i < |es| ==> !es[i].SerialWrite? && !es[i].RawListenerRemoved?
  }

  /** The link of the last connect in es, if any: the one the handler holds afterwards. */
  function LastOpened(es: seq<Effect>): (r: Option<DeviceLink>)
    ensures r.Some? <==> Opens(es)
    ensures r.Some? ==> ServerConnect(r.value) in es
  {
    if |es| == 0 then None
    else if es[|es| - 1].ServerConnect? then Some(es[|es| - 1].link)
    else
      var r := LastOpened(es[..|es| - 1]);
      assert forall i :: 0 <= i < |es| - 1 ==> es[..|es| - 1][i] == es[i];
      r
  }

  lemma {:induction false} LastOpenedConcat(a: seq<Effect>, b: seq<Effect>)
    ensures LastOpened(a + b) == if LastOpened(b).Some? then LastOpened(b) else LastOpened(a)
    decreases |b|
  {
    if b == [] {
      assert a + b == a;
    } else if !b[|b| - 1].ServerConnect? {
      assert (a + b)[..|a + b| - 1] == a + b[..|b| - 1];
      LastOpenedConcat(a, b[..|b| - 1]);
    }
  }

  lemma ConcatFacts(a: seq<Effect>, b: seq<Effect>)
    ensures Opens(a + b) <==> Opens(a) || Opens(b)
    ensures Releases(a + b) <==> Releases(a) || Releases(b)
    ensures HandshakeOnly(a) && HandshakeOnly(b) ==> HandshakeOnly(a + b)
  {
    if Opens(a + b) {
      var i :| 0 <= i < |a + b| && (a + b)[i].ServerConnect?;
      if i >= |a| {
        assert b[i - |a|] == (a + b)[i];
      }
    }
    if Opens(b) {
      var i :| 0 <= i < |b| && b[i].ServerConnect?;
      assert (a + b)[|a| + i] == b[i];
    }
    if Opens(a) {
      var i :| 0 <= i < |a| && a[i].ServerConnect?;
      assert (a + b)[i] == a[i];
    }
    if Releases(a + b) {
      var i :| 0 <= i < |a + b| && (a + b)[i].RawListenerRemoved?;
      if i >= |a| {
        assert b[i - |a|] == (a + b)[i];
      }
    }
    if Releases(b) {
      var i :| 0 <= i < |b| && b[i].RawListenerRemoved?;
      assert (a + b)[|a| + i] == b[i];
    }
    if Releases(a) {
      var i :| 0 <= i < |a| && a[i].RawListenerRemoved?;
      assert (a + b)[i] == a[i];
    }
  }

  lemma PortListOnlyPrints(m: ProxyMessages, portList: Option<seq<string>>)
    ensures HandshakeOnly(PortListReply(m, portList) + [Flush])
    ensures !Opens(PortListReply(m, portList) + [Flush])
  {
    if portList.Some? && |portList.value| > 0 {
      PrintAllAt(portList.value);
    }
  }

  /** One processInput call never relays or releases, completes the handshake only
      after printing OK, never clears the link, and assigns it exactly when it opens one. */
  lemma ProcessFacts(m: ProxyMessages, env: Env, input: string, line: Option<string>, st: State)
    requires st.pos <= |input| && (st.handshakeComplete ==> st.link.Some?)
    ensures var r := Process(m, env, input, line, st);
      && HandshakeOnly(r.effects)
      && (r.state.handshakeComplete && !st.handshakeComplete ==> Println(m.ok) in r.effects)
      && (st.link.Some? ==> r.state.link.Some?)
      && (st.link.None? ==> (r.state.link.Some? <==> Opens(r.effects)))
  {
    if line.Some? && line.value != m.stopServer && line.value == m.getPortList {
      PortListOnlyPrints(m, env.portList);
    } else if line.Some? && line.value != m.stopServer && line.value != m.getPortList && line.value == m.connect {
      var c := ConnectStep(m, env, input, st);
      if !c.thrown {
        assert c.effects[0].ServerConnect?;
      }
    }
  }

  /** The same facts for the whole handshake loop. */
  lemma {:induction false} HandshakeFacts(m: ProxyMessages, env: Env, input: string, line: Option<string>, st: State)
    requires st.pos <= |input| && (st.handshakeComplete ==> st.link.Some?)
    ensures var h := Handshake(m, env, input, line, st);
      && HandshakeOnly(h.effects)
      && (h.state.handshakeComplete && !st.handshakeComplete ==> Println(m.ok) in h.effects)
      && (st.link.Some? ==> h.state.link.Some?)
      && (st.link.None? ==> (h.state.link.Some? <==> Opens(h.effects)))
    decreases |input| - st.pos, if line.Some? then 1 else 0
  {
    if !st.closed && !st.handshakeComplete {
      var r := Process(m, env, input, line, st);
      ProcessFacts(m, env, input, line, st);
      if !(r.thrown || r.state.closed || r.state.handshakeComplete) {
        var (next, p) := ReadLine(input, r.state.pos);
        var st' := r.state.(pos := p);
        HandshakeFacts(m, env, input, next, st');
        var rest := Handshake(m, env, input, next, st');
        assert Handshake(m, env, input, line, st) == Step(r.effects + rest.effects, rest.state, rest.thrown);
        ConcatFacts(r.effects, rest.effects);
      }
    }
  }

  lemma {:induction false} RelayAllWrites(l: DeviceLink, input: string, pos: nat)
    ensures forall i :: 0 <= i < |Relay(l, input, pos)| ==> Relay(l, input, pos)[i].SerialWrite?
    decreases |input| - pos
  {
    if pos < |input| {
      RelayAllWrites(l, input, pos + 1);
    }
  }

  /** The relay phase and the handshake of a session, with what the handshake guarantees. */
  lemma SessionParts(m: ProxyMessages, env: Env, input: string)
    ensures var (first, p) := ReadLine(input, 0);
      var h := Handshake(m, env, input, first, State(p, false, false, None));
      var relay := if !h.thrown && !h.state.closed then Relay(h.state.link.value, input, h.state.pos) else [];
      && Session(m, env, input).effects == h.effects + relay + Teardown(h.state.link)
      && HandshakeOnly(h.effects)
      && (h.state.link.Some? <==> Opens(h.effects))
      && (relay != [] ==> Println(m.ok) in h.effects)
      && (forall i :: 0 <= i < |relay| ==> relay[i].SerialWrite?)
      && !Releases(h.effects) && !Opens(relay) && !Releases(relay)
  {
    var (first, p) := ReadLine(input, 0);
    var st := State(p, false, false, None);
    HandshakeFacts(m, env, input, first, st);
    var h := Handshake(m, env, input, first, st);
    if !h.thrown && !h.state.closed {
      RelayAllWrites(h.state.link.value, input, h.state.pos);
    }
  }

  /** No character is relayed to the link before OK went out on the socket. */
  lemma RelayFollowsOk(m: ProxyMessages, env: Env, input: string)
    ensures var o := Session(m, env, input);
      forall i :: 0 <= i < |o.effects| && o.effects[i].SerialWrite? ==>
        exists j :: 0 <= j < i && o.effects[j] == Println(m.ok)
  {
    SessionParts(m, env, input);
    var (first, p) := ReadLine(input, 0);
    var h := Handshake(m, env, input, first, State(p, false, false, None));
    var relay := if !h.thrown && !h.state.closed then Relay(h.state.link.value, input, h.state.pos) else [];
    TeardownFacts(h.state.link);
    WritesFollow(h.effects, relay, Teardown(h.state.link), Println(m.ok));
  }

  /** In handshake effects, then relayed writes, then writes-free teardown effects, every
      write comes after `ok` when the handshake printed it before any relaying. */
  lemma WritesFollow(h: seq<Effect>, relay: seq<Effect>, td: seq<Effect>, ok: Effect)
    requires HandshakeOnly(h) && (relay != [] ==> ok in h)
    requires forall i :: 0 <= i < |td| ==> !td[i].SerialWrite?
    ensures var es := h + relay + td;
      forall i :: 0 <= i < |es| && es[i].SerialWrite? ==> exists j :: 0 <= j < i && es[j] == ok
  {
    var es := h + relay + td;
    forall i | 0 <= i < |es| && es[i].SerialWrite?
      ensures exists j :: 0 <= j < i && es[j] == ok
    {
      if i < |h| || i >= |h| + |relay| {
        assert false;
      } else {
        var j :| 0 <= j < |h| && h[j] == ok;
        assert es[j] == h[j];
      }
    }
  }

  /** After one processInput call the handler holds the link of the last connect it made,
      or the link it held before when it made none. */
  lemma ProcessHoldsLastOpened(m: ProxyMessages, env: Env, input: string, line: Option<string>, st: State)
    requires st.pos <= |input| && (st.handshakeComplete ==> st.link.Some?)
    ensures var r := Process(m, env, input, line, st);
      r.state.link == if LastOpened(r.effects).Some? then LastOpened(r.effects) else st.link
  {
    if line.Some? && line.value != m.stopServer && line.value == m.getPortList {
      PortListOnlyPrints(m, env.portList);
    } else if line.Some? && line.value != m.stopServer && line.value != m.getPortList && line.value == m.connect {
      var c := ConnectStep(m, env, input, st);
      if !c.thrown {
        var rest := c.effects[1..];
        assert c.effects == [c.effects[0]] + rest;
        LastOpenedConcat([c.effects[0]], rest);
        assert LastOpened([c.effects[0]]) == c.state.link;
      }
    }
  }

  /** The same for the whole handshake loop: the link held at its end is the one the last
      connect assigned. */
  lemma {:induction false} HandshakeHoldsLastOpened(m: ProxyMessages, env: Env, input: string, line: Option<string>, st: State)
    requires st.pos <= |input| && (st.handshakeComplete ==> st.link.Some?)
    ensures var h := Handshake(m, env, input, line, st);
      h.state.link == if LastOpened(h.effects).Some? then LastOpened(h.effects) else st.link
    decreases |input| - st.pos, if line.Some? then 1 else 0
  {
    if !st.closed && !st.handshakeComplete {
      var r := Process(m, env, input, line, st);
      ProcessHoldsLastOpened(m, env, input, line, st);
      if !(r.thrown || r.state.closed || r.state.handshakeComplete) {
        var (next, p) := ReadLine(input, r.state.pos);
        var st' := r.state.(pos := p);
        HandshakeHoldsLastOpened(m, env, input, next, st');
        var rest := Handshake(m, env, input, next, st');
        assert Handshake(m, env, input, line, st) == Step(r.effects + rest.effects, rest.state, rest.thrown);
        LastOpenedConcat(r.effects, rest.effects);
      }
    }
  }

  /** Teardown: the link is released in the finally block exactly when run opened one,
      the socket is always closed last, and what is released is the link of the last
      connect: a link an earlier connect opened and a later one replaced is never
      released. */
  lemma SessionReleasesLink(m: ProxyMessages, env: Env, input: string)
    ensures var o := Session(m, env, input);
      && |o.effects| > 0 && o.effects[|o.effects| - 1] == SocketClosed
      && (Opens(o.effects) <==> Releases(o.effects))
      && (forall i :: 0 <= i < |o.effects| && o.effects[i].RawListenerRemoved? ==>
            LastOpened(o.effects) == Some(o.effects[i].link))
  {
    SessionParts(m, env, input);
    var (first, p) := ReadLine(input, 0);
    var h := Handshake(m, env, input, first, State(p, false, false, None));
    var relay := if !h.thrown && !h.state.closed then Relay(h.state.link.value, input, h.state.pos) else [];
    var td := Teardown(h.state.link);
    ConcatFacts(h.effects, relay);
    ConcatFacts(h.effects + relay, td);
    TeardownFacts(h.state.link);
    if !h.thrown && !h.state.closed {
      RelayAllWrites(h.state.link.value, input, h.state.pos);
    }
    HandshakeHoldsLastOpened(m, env, input, first, State(p, false, false, None));
    ReleasesOnlyHeld(h.effects, relay, h.state.link);
  }

  /** Handshake effects, then relayed writes, then the finally block: no connect follows
      the handshake, and the only release is the finally block's of the link it is given. */
  lemma ReleasesOnlyHeld(a: seq<Effect>, b: seq<Effect>, link: Option<DeviceLink>)
    requires HandshakeOnly(a) && forall i :: 0 <= i < |b| ==> b[i].SerialWrite?
    ensures LastOpened(a + b + Teardown(link)) == LastOpened(a)
    ensures forall i :: 0 <= i < |a + b + Teardown(link)| && (a + b + Teardown(link))[i].RawListenerRemoved? ==>
      link == Some((a + b + Teardown(link))[i].link)
  {
    var td := Teardown(link);
    var es := a + b + td;
    TeardownFacts(link);
    LastOpenedConcat(a, b);
    LastOpenedConcat(a + b, td);
    forall i | 0 <= i < |es| && es[i].RawListenerRemoved?
      ensures link == Some(es[i].link)
    {
      if i >= |a| + |b| {
        assert es[i] == td[i - |a| - |b|];
      }
    }
  }

  lemma TeardownFacts(link: Option<DeviceLink>)
    ensures !Opens(Teardown(link))
    ensures forall i :: 0 <= i < |Teardown(link)| ==> !Teardown(link)[i].SerialWrite?
    ensures Releases(Teardown(link)) <==> link.Some?
    ensures Teardown(link)[|Teardown(link)| - 1] == SocketClosed
  {
    if link.Some? {
      assert Teardown(link)[0].RawListenerRemoved?;
    }
  }

  /** What the peer reads of a frame: its bytes (low eight bits each) and one divider byte.
      When every byte is in range and differs from the divider, the first divider byte
      ends exactly the frame, so the peer recovers it unchanged. */
  lemma FrameRoundTrip(message: seq<int>, divider: int)
    ensures BytesOf(Frame(message, divider)) == LowBytes(message) + [LowByte(divider)]
    ensures (forall i :: 0 <= i < |message| ==> 0 <= message[i] < 256 && message[i] != LowByte(divider)) ==>
      LowBytes(message) == message && LowByte(divider) !in message
  {
    var f := Frame(message, divider);
    BytesOfWrites(message);
    assert f[..|f| - 1] == WriteBytes(message) + [WriteByte(LowByte(divider))];
    assert (WriteBytes(message) + [WriteByte(LowByte(divider))])[..|message|] == WriteBytes(message);
    assert BytesOf(f) == BytesOf(f[..|f| - 1]);
    if forall i :: 0 <= i < |message| ==> 0 <= message[i] < 256 && message[i] != LowByte(divider) {
      LowBytesInRange(message);
    }
  }

  function LowBytes(message: seq<int>): (r: seq<int>)
    ensures |r| == |message|
    ensures forall i :: 0 <= i < |r| ==> r[i] == LowByte(message[i])
  {
    seq(|message|, i requires 0 <= i < |message| => LowByte(message[i]))
  }

  lemma LowBytesInRange(message: seq<int>)
    requires forall i :: 0 <= i < |message| ==> 0 <= message[i] < 256
    ensures LowBytes(message) == message
  {
  }

  lemma {:induction false} BytesOfWrites(message: seq<int>)
    ensures BytesOf(WriteBytes(message)) == LowBytes(message)
  {
    if |message| > 0 {
      var init := message[..|message| - 1];
      BytesOfWrites(init);
      var w := WriteBytes(message);
      assert w[..|w| - 1] == WriteBytes(init);
    }
  }
}
