# Ardulink MQTT bridge and network proxy: a verified Dafny model

Ardulink connects an Arduino board to software. This project models the parts
of it that carry messages between an MQTT broker, a network client and the
board's serial link:

- **Topic layout** (`topics.dfy`, module `Topics`). `Config.DEFAULT` builds the
  two write patterns `<base>D(\w+)/value/set` and `<base>A(\w+)/value/set`.
  It also builds the two read templates `<base>D%s/value/get` and
  `<base>A%s/value/get`. A write pattern is modelled as literal prefix, one
  `\w+` group and literal suffix, matched against the whole topic. The model
  states the layout for any base topic free of regular-expression
  metacharacters and `%`.
- **Java text semantics** the core relies on (`javatext.dfy`, module
  `JavaText`). These are `String.valueOf(int)`, `Integer.valueOf` with its
  32-bit range, `Boolean.parseBoolean`, `equalsIgnoreCase`, `String.split` on
  one literal character, and `String.format` with one `%s` argument.
- **MQTT to Arduino and back** (`translator.dfy`, module `Translator`).
  `AbstractMqttAdapter.toArduino` and `MqttClient.messageArrived` try the
  digital pattern first and then the analog one. They send `PowerPinSwitch`
  or `PowerPinIntensity` to the `Link`, or nothing. Pin listeners turn read
  events into publications `(template % pin, value)`. Each listener records
  the adapter or client that registered it, because its `stateChanged` calls
  that object's own `fromArduino` or callback even when several share one
  `Link`. The `Link`, the adapter,
  the current `MqttClient` and the older test `MqttClient` are classes whose
  fields the methods update.
- **Network proxy server connection** (`proxy.dfy`, module `Proxy`). `run()`
  reads lines in a handshake loop (`stop server`, `get port list`, `connect`),
  relays every further character to the serial link, and tears down in
  `finally`. The class `ProxyConnection` does this step by step. Each method
  is proved equal to a functional specification: `Process`, `Handshake`,
  `Relay`, `Teardown` and `Session`. Lemmas over `Session` state what a
  client sees.
- **LinkManager** (`linkmanager.dfy`, module `LinkManager`). This covers
  schema checking of `ardulink://name?k=v&…` URIs, listing URIs (with
  `java.net.URI`'s parser as a parameter), finding a
  factory by name, and applying query parameters. The attribute adapter
  validates values against the attribute's choice values.
- **MqttMain** (`mqttmain.dfy`, module `MqttBridge`). This covers broker topic
  normalisation, `host[:port]` parsing of `-remote`, `connect(Link)`, and the
  broker client's connect/subscribe/close sequence with the retained status
  topic and its last will. It also covers listener registration and the
  option setters.
- **Test oracles** (`oracles.dfy`, module `TestOracles`). `MqttMessageBuilder`
  and `ProtoBuilder` from the test suite are modelled, with the tests'
  expectations in `MqttTest` proved as lemmas over the model.

## Model

| member | source | states |
|---|---|---|
| JavaText.ParseDecimal | Mqtt/src/com/github/pfichtner/ardulink/AbstractMqttAdapter.java:72-78 | `Integer.valueOf(String.valueOf(n))` gives back `n` for every 32-bit `n` (the decimal round trip `tryParse` relies on) |
| JavaText.ParseRejectsNonDigit | Mqtt/src/com/github/pfichtner/ardulink/AbstractMqttAdapter.java:72-78 | a text containing a non-digit (other than a leading sign) is a `NumberFormatException`, so `tryParse` gives null |
| JavaText.ParseInt | Mqtt/src/com/github/pfichtner/ardulink/AbstractMqttAdapter.java:72-78 | a parsed value is within the 32-bit range and the text ends in a digit |
| JavaText.DecimalHasNoSeparator | Mqtt/test/com/github/pfichtner/ardulink/ProtoBuilder.java:16-18 | the decimal text of an int never contains a separator character that is not a digit or '-' |
| JavaText.Digits | Mqtt/src/com/github/pfichtner/ardulink/AbstractMqttAdapter.java:84-86 | `String.valueOf` of a natural number is a non-empty digit string with no leading zero whose value is the number |
| JavaText.Decimal | Mqtt/src/com/github/pfichtner/ardulink/AbstractMqttAdapter.java:84-86 | `String.valueOf(int)` is non-empty digits, with a leading '-' exactly for negative numbers |
| JavaText.EqualsIgnoreCase | core-ng-base/src/com/github/pfichtner/ardulink/core/linkmanager/LinkManager.java:291-294 | equal texts compare equal ignoring case, and texts compared equal have the same length |
| JavaText.ParseBoolean | Mqtt/src/com/github/pfichtner/ardulink/AbstractMqttAdapter.java:48 | `true` needs a four-character text; "true", "True" and "TRUE" give true and "false" gives false |
| JavaText.FormatFrom | Mqtt/src/com/github/pfichtner/ardulink/Config.java:35-39 | the formatted text is at most the template plus one copy of the argument (none once `%s` was used) |
| JavaText.Format | Mqtt/src/com/github/pfichtner/ardulink/Config.java:35-39 | the argument is used at most once, and a template without '%' comes back unchanged |
| JavaText.Pieces | core-ng-base/src/com/github/pfichtner/ardulink/core/linkmanager/LinkManager.java:268 | at least one piece, none containing the separator |
| JavaText.DropTrailingEmpty | core-ng-base/src/com/github/pfichtner/ardulink/core/linkmanager/LinkManager.java:268 | removes exactly the trailing empty pieces: a prefix of the input whose last piece is non-empty, all dropped pieces being empty |
| JavaText.JoinPieces | core-ng-base/src/com/github/pfichtner/ardulink/core/linkmanager/LinkManager.java:268 | the pieces a split yields, joined by the separator, give back the original text |
| JavaText.SplitPair | core-ng-base/src/com/github/pfichtner/ardulink/core/linkmanager/LinkManager.java:268-269 | splitting `a=b` on '=' yields exactly `[a, b]` when neither half holds '=' and `b` is non-empty |
| JavaText.Split | Mqtt/src/com/github/pfichtner/ardulink/MqttMain.java:310 | no piece of a split contains the separator |
| JavaText.FormatLiteral | Mqtt/src/com/github/pfichtner/ardulink/Config.java:35-39 | `String.format` leaves a text without '%' unchanged |
| JavaText.FormatSingle | Mqtt/src/com/github/pfichtner/ardulink/Config.java:35-39 | formatting `head%stail` with one argument yields `head + arg + tail` |
| JavaText.FormatSucceedsForAnyArg | Mqtt/src/com/github/pfichtner/ardulink/AbstractMqttAdapter.java:84-86 | whether a template formats without error does not depend on the argument |
| Topics.WritePattern.Match | Mqtt/src/com/github/pfichtner/ardulink/AbstractMqttAdapter.java:43-46 | a match yields the `\w+` group, and the topic is prefix + group + suffix |
| Topics.MatchIff | Mqtt/src/com/github/pfichtner/ardulink/AbstractMqttAdapter.java:43-46 | a pattern matches a topic with group `g` exactly when `g` is a word and the topic is prefix + `g` + suffix (both directions) |
| Topics.LayoutFormats | Mqtt/src/com/github/pfichtner/ardulink/Config.java:35-39 | `format(base, prefix, numerated, appendix)` is `base + prefix + String.format("%s/value", numerated) + appendix` |
| Topics.WritePatternFor | Mqtt/src/com/github/pfichtner/ardulink/Config.java:31-33 | a write pattern's source text is the layout of the base, the kind, `(\w+)` and `/set` |
| Topics.ForBase | Mqtt/src/com/github/pfichtner/ardulink/Config.java:18-25 | `setTopic` builds `<base>D(\w+)/value/set`, `<base>A(\w+)/value/set`, `<base>D%s/value/get` and `<base>A%s/value/get` |
| Topics.DefaultBaseValid | Mqtt/src/com/github/pfichtner/ardulink/Config.java:14-16 | the default base `home/devices/ardulink/` has no regular-expression metacharacter and no '%' |
| Topics.ReadTopic | Mqtt/src/com/github/pfichtner/ardulink/Config.java:27-29 | formatting a read template with a pin gives `<base><kind><pin>/value/get` |
| Topics.ReadTemplate | Mqtt/src/com/github/pfichtner/ardulink/Config.java:27-29 | `read(base, prefix)` is `<base><prefix>%s/value/get`: `format`'s `String.format("%s/value", "%s")` keeps the `%s` for the pin |
| Topics.Default | Mqtt/src/com/github/pfichtner/ardulink/Config.java:7-16 | `Config.DEFAULT` holds the four patterns for `home/devices/ardulink/` |
| Topics.FormattableWithAnyArg | Mqtt/src/com/github/pfichtner/ardulink/AbstractMqttAdapter.java:84-86 | a template made of literals and `%s` or `%%` formats with any argument |
| Topics.ForBaseFormattable | Mqtt/src/com/github/pfichtner/ardulink/Config.java:21-24 | both read templates format without error for every pin |
| Topics.PinTopicMatches | Mqtt/src/com/github/pfichtner/ardulink/Config.java:18-25 | `<base>D<n>/value/set` matches the digital pattern with group `n` and not the analog one, and the same for `A` the other way round |
| Topics.KindExcludes | Mqtt/src/com/github/pfichtner/ardulink/Config.java:18-25 | a topic with one kind letter never matches the other kind's write pattern |
| Topics.WrongKindMatchesNothing | Mqtt/src/com/github/pfichtner/ardulink/Config.java:18-25 | a topic whose character after the base is not the kind letter never matches that kind's write pattern |
| Topics.NonWordPinMatchesNothing | Mqtt/src/com/github/pfichtner/ardulink/Config.java:19-23 | a pin part that is not a `\w+` word matches neither write pattern |
| Topics.WritePatternsDisjoint | Mqtt/src/com/github/pfichtner/ardulink/Config.java:18-25 | no topic matches both write patterns |
| Translator.RouteSound | Mqtt/src/com/github/pfichtner/ardulink/AbstractMqttAdapter.java:36-70 | a switch command comes from a digital match whose group parses to its pin, with power HIGH exactly when the payload parses as true. An intensity command comes from an analog match with parsed pin and payload. No match means no command |
| Translator.DigitalSetTopic | Mqtt/src/com/github/pfichtner/ardulink/AbstractMqttAdapter.java:42-55 | `<base>D<n>/value/set` always switches pin `n`, HIGH exactly when the payload is "true" ignoring case |
| Translator.AnalogSetTopic | Mqtt/src/com/github/pfichtner/ardulink/AbstractMqttAdapter.java:57-70 | `<base>A<n>/value/set` sets intensity of pin `n` when the payload parses as int, and otherwise sends nothing |
| Translator.NonWordPinNoCommand | Mqtt/src/com/github/pfichtner/ardulink/AbstractMqttAdapter.java:36-70 | a pin part that is not a word sends nothing |
| Translator.InvalidTopicNoCommand | Mqtt/test/com/github/pfichtner/ardulink/MqttTest.java:130-134 | `home/devices/ardulink/invalidTopic` sends nothing, whatever the payload |
| Translator.Deliver | Mqtt/src/com/github/pfichtner/ardulink/AbstractMqttAdapter.java:80-110 | dispatching a read event to the registered listeners yields one publication per listener on that pin, in registration order |
| Translator.OwnedBy | Mqtt/src/com/github/pfichtner/ardulink/AbstractMqttAdapter.java:80-110 | the listeners of one owner: only that owner's, every one of them, in registration order |
| Translator.OtherOwnerUnaffected | Mqtt/src/com/github/pfichtner/ardulink/MqttClient.java:97-127 | registering a listener for another adapter or client does not change what this one publishes |
| Translator.SharedLinkSeparateLogs | Mqtt/src/com/github/pfichtner/ardulink/AbstractMqttAdapter.java:80-110 | two adapters listening on the same pin of one link each publish the event once, through their own `fromArduino` |
| Translator.HandleDigital | Mqtt/src/com/github/pfichtner/ardulink/AbstractMqttAdapter.java:42-55 | fires exactly when the digital pattern matches and its group parses as an int; the command switches that pin HIGH iff `parseBoolean(payload)`, LOW otherwise |
| Translator.HandleAnalog | Mqtt/src/com/github/pfichtner/ardulink/AbstractMqttAdapter.java:57-70 | fires exactly when the analog pattern matches and both the group and the payload parse as ints; the command sets that pin to the payload's value |
| Translator.Route | Mqtt/src/com/github/pfichtner/ardulink/AbstractMqttAdapter.java:36-40 | a command comes out iff one handler fires; the digital handler takes precedence, and an intensity command only comes when the digital handler declined |
| Translator.Publication | Mqtt/src/com/github/pfichtner/ardulink/AbstractMqttAdapter.java:83-87 | the topic is the read template formatted with the pin's decimal text, the payload the value's decimal text |
| Translator.Notifications | Mqtt/src/com/github/pfichtner/ardulink/AbstractMqttAdapter.java:80-110 | at most one message per listener, each carrying the event's value as payload |
| Translator.NoListenerNoPublication | Mqtt/test/com/github/pfichtner/ardulink/MqttTest.java:176-184 | an event on a pin no listener observes publishes nothing |
| Translator.NotificationCount | Mqtt/src/com/github/pfichtner/ardulink/AbstractMqttAdapter.java:80-110 | the number of publications equals the number of listeners on the event's pin |
| Translator.RegisterDigital | Mqtt/src/com/github/pfichtner/ardulink/AbstractMqttAdapter.java:80-94 | registering a digital listener for `p` owned by an adapter adds, to what that adapter publishes, exactly `(<base>D<pin>/value/get, value)` for events on `p` |
| Translator.RegisterAnalog | Mqtt/src/com/github/pfichtner/ardulink/AbstractMqttAdapter.java:96-110 | registering an analog listener for `p` owned by an adapter adds, to what that adapter publishes, exactly `(<base>A<pin>/value/get, value)` for events on `p` |
| Translator.Link.constructor | Mqtt/test/com/github/pfichtner/ardulink/MqttTest.java:94-118 | a link starts with no commands and no listeners |
| Translator.Link.Send | Mqtt/src/com/github/pfichtner/ardulink/AbstractMqttAdapter.java:49-50 | a sent command is appended to the link's command log, and nothing else changes |
| Translator.Link.AddDigitalReadChangeListener | Mqtt/src/com/github/pfichtner/ardulink/AbstractMqttAdapter.java:81 | the listener is appended to the digital listeners |
| Translator.Link.AddAnalogReadChangeListener | Mqtt/src/com/github/pfichtner/ardulink/AbstractMqttAdapter.java:97 | the listener is appended to the analog listeners |
| Translator.Link.Connect | Mqtt/src/com/github/pfichtner/ardulink/MqttMain.java:298 | connect reports the device's answer and marks the link connected when it accepts |
| Translator.Link.Disconnect | Mqtt/src/com/github/pfichtner/ardulink/MqttMain.java:326-328 | the link is no longer connected; commands and listeners are kept |
| Translator.AbstractMqttAdapter.constructor | Mqtt/src/com/github/pfichtner/ardulink/AbstractMqttAdapter.java:22-25 | the adapter keeps the link and config it was given |
| Translator.AbstractMqttAdapter.ToArduino | Mqtt/src/com/github/pfichtner/ardulink/AbstractMqttAdapter.java:36-40 | the link's command log grows by exactly the routed command, if any, and listeners are unchanged |
| Translator.AbstractMqttAdapter.EnableDigitalPinChangeEvents | Mqtt/src/com/github/pfichtner/ardulink/AbstractMqttAdapter.java:80-94 | one digital listener for the pin with the digital read template is appended |
| Translator.AbstractMqttAdapter.EnableAnalogPinChangeEvents | Mqtt/src/com/github/pfichtner/ardulink/AbstractMqttAdapter.java:96-110 | one analog listener for the pin with the analog read template is appended |
| Translator.AbstractMqttAdapter.DigitalReadChanged | Mqtt/src/com/github/pfichtner/ardulink/AbstractMqttAdapter.java:83-87 | `fromArduino` of this adapter receives exactly the notifications of the digital listeners it registered itself; listeners of another adapter on the same link publish through that adapter |
| Translator.AbstractMqttAdapter.AnalogReadChanged | Mqtt/src/com/github/pfichtner/ardulink/AbstractMqttAdapter.java:99-103 | `fromArduino` of this adapter receives exactly the notifications of the analog listeners it registered itself |
| Translator.MqttClient.constructor | Mqtt/src/com/github/pfichtner/ardulink/MqttClient.java:37-42 | the client keeps the link and config it was given, nothing published |
| Translator.MqttClient.MessageArrived | Mqtt/src/com/github/pfichtner/ardulink/MqttClient.java:53-95 | the link's command log grows by exactly the routed command, digital tried before analog |
| Translator.MqttClient.PublishDigitalPinOnStateChanges | Mqtt/src/com/github/pfichtner/ardulink/MqttClient.java:97-111 | one digital listener for the pin is appended |
| Translator.MqttClient.PublishAnalogPinOnStateChanges | Mqtt/src/com/github/pfichtner/ardulink/MqttClient.java:113-127 | one analog listener for the pin is appended |
| Translator.MqttClient.DigitalReadChanged | Mqtt/src/com/github/pfichtner/ardulink/MqttClient.java:100-104 | this client's callback receives exactly the notifications of the digital listeners this client registered |
| Translator.MqttClient.AnalogReadChanged | Mqtt/src/com/github/pfichtner/ardulink/MqttClient.java:116-120 | this client's callback receives exactly the notifications of the analog listeners this client registered |
| Translator.LegacyMqttClient.constructor | Mqtt/test/com/github/pfichtner/ardulink/MqttClient.java:15-30 | the older client listens on `home/devices/ardulink/digital(\w+)/value/set` and `…/analog(\w+)/value/set` |
| Translator.LegacyMqttClient.MessageArrived | Mqtt/test/com/github/pfichtner/ardulink/MqttClient.java:32-64 | the command log grows by the command routed through the "digital"/"analog" patterns |
| Translator.LegacySetTopics | Mqtt/test/com/github/pfichtner/ardulink/MqttClient.java:38-64 | `…/digital<n>/value/set` switches pin `n`; `…/analog<n>/value/set` sets intensity when the payload is an int |
| Translator.LegacyNonIntPinNoCommand | Mqtt/test/com/github/pfichtner/ardulink/MqttClient.java:66-72 | a word pin that is not an int sends nothing |
| Proxy.LineEnd | Ardulink/src/org/zu/ardulink/connection/proxy/NetworkProxyServerConnection.java:74 | the line end is the first terminator at or after the position, or the end of input |
| Proxy.ReadLine | Ardulink/src/org/zu/ardulink/connection/proxy/NetworkProxyServerConnection.java:74 | `readLine` yields a line without terminator and advances, or null at end of input |
| Proxy.ReadLineAt | Ardulink/src/org/zu/ardulink/connection/proxy/NetworkProxyServerConnection.java:74 | a line followed by `\n` at the position is read back exactly |
| Proxy.ConnectWith | Ardulink/src/org/zu/ardulink/connection/proxy/NetworkProxyServerConnection.java:129-147 | a non-integer baud rate throws with no effect. Otherwise the server connects, answers OK (then adds the raw listener and completes the handshake) or KO |
| Proxy.ConnectStep | Ardulink/src/org/zu/ardulink/connection/proxy/NetworkProxyServerConnection.java:129-147 | the connect command reads two lines and behaves as `ConnectWith` |
| Proxy.Process | Ardulink/src/org/zu/ardulink/connection/proxy/NetworkProxyServerConnection.java:112-149 | processing a line never moves the read position backwards or past the end |
| Proxy.Handshake | Ardulink/src/org/zu/ardulink/connection/proxy/NetworkProxyServerConnection.java:73-79 | the handshake loop ends either closed or with the handshake complete, unless an exception escaped |
| Proxy.HandshakeStep | Ardulink/src/org/zu/ardulink/connection/proxy/NetworkProxyServerConnection.java:73-79 | one loop iteration: process the line, then stop or read the next line and go on |
| Proxy.PrintAll | Ardulink/src/org/zu/ardulink/connection/proxy/NetworkProxyServerConnection.java:123-125 | one printed line per port |
| Proxy.PortListReply | Ardulink/src/org/zu/ardulink/connection/proxy/NetworkProxyServerConnection.java:117-128 | one line for the count and one per port, a null list counting as empty |
| Proxy.Relay | Ardulink/src/org/zu/ardulink/connection/proxy/NetworkProxyServerConnection.java:80-88 | one serial write per character left in the input |
| Proxy.Teardown | Ardulink/src/org/zu/ardulink/connection/proxy/NetworkProxyServerConnection.java:91-109 | a held link adds two release steps, and the socket is always closed last |
| Proxy.Session | Ardulink/src/org/zu/ardulink/connection/proxy/NetworkProxyServerConnection.java:64-110 | whatever the client sends, the session's last effect is closing the socket |
| Proxy.LowByte | Ardulink/src/org/zu/ardulink/connection/proxy/NetworkProxyServerConnection.java:172-188 | `OutputStream.write(int)` keeps the low eight bits, so byte values are unchanged |
| Proxy.WriteBytes | Ardulink/src/org/zu/ardulink/connection/proxy/NetworkProxyServerConnection.java:174-176 | one written byte per message element |
| Proxy.LowBytes | Ardulink/src/org/zu/ardulink/connection/proxy/NetworkProxyServerConnection.java:174-176 | each written byte is the low byte of its element |
| Proxy.ProxyConnection.constructor | Ardulink/src/org/zu/ardulink/connection/proxy/NetworkProxyServerConnection.java:58-62 | a connection starts with its socket open and nothing done |
| Proxy.ProxyConnection.OpenStreams | Ardulink/src/org/zu/ardulink/connection/proxy/NetworkProxyServerConnection.java:68-71 | opening the socket's streams changes nothing else |
| Proxy.ProxyConnection.Run | Ardulink/src/org/zu/ardulink/connection/proxy/NetworkProxyServerConnection.java:64-110 | `run()` produces exactly `Session`'s effects and outcome and always leaves socket, streams and link released; on a closed socket it does nothing |
| Proxy.ProxyConnection.Converse | Ardulink/src/org/zu/ardulink/connection/proxy/NetworkProxyServerConnection.java:66-90 | the `try` block yields the handshake's effects followed by the relay's, when no exception escaped and the server is not closed |
| Proxy.ProxyConnection.Finish | Ardulink/src/org/zu/ardulink/connection/proxy/NetworkProxyServerConnection.java:91-109 | the `finally` block appends `Teardown(link)` and releases link, streams and socket |
| Proxy.ProxyConnection.HandshakeLoop | Ardulink/src/org/zu/ardulink/connection/proxy/NetworkProxyServerConnection.java:73-79 | the loop's effects and final state are `Handshake`'s |
| Proxy.ProxyConnection.RelayLoop | Ardulink/src/org/zu/ardulink/connection/proxy/NetworkProxyServerConnection.java:80-88 | every remaining character is written to the serial link in order (`Relay`), up to end of input |
| Proxy.ProxyConnection.ProcessInput | Ardulink/src/org/zu/ardulink/connection/proxy/NetworkProxyServerConnection.java:112-149 | effects and new state are `Process`'s |
| Proxy.ProxyConnection.PrintPortList | Ardulink/src/org/zu/ardulink/connection/proxy/NetworkProxyServerConnection.java:117-128 | prints the port count, then each port, then flushes |
| Proxy.ProxyConnection.ConnectCommand | Ardulink/src/org/zu/ardulink/connection/proxy/NetworkProxyServerConnection.java:129-147 | effects and new state are `ConnectStep`'s |
| Proxy.ProxyConnection.ConnectArguments | Ardulink/src/org/zu/ardulink/connection/proxy/NetworkProxyServerConnection.java:131-147 | after the two lines are read, effects and state are `ConnectWith`'s |
| Proxy.ProxyConnection.Connect | Ardulink/src/org/zu/ardulink/connection/proxy/NetworkProxyServerConnection.java:165-170 | the server connects the link to the port at the baud rate and reports whether the device accepted |
| Proxy.ProxyConnection.WriteSerial | Ardulink/src/org/zu/ardulink/connection/proxy/NetworkProxyServerConnection.java:157-163 | one serial write of the message on the link |
| Proxy.ProxyConnection.ParseInput | Ardulink/src/org/zu/ardulink/connection/proxy/NetworkProxyServerConnection.java:172-188 | writes the first `numBytes` elements and the divider. A too-short array throws after writing every element; closed streams throw at once |
| Proxy.PortListShape | Ardulink/src/org/zu/ardulink/connection/proxy/NetworkProxyServerConnection.java:117-128 | the reply is `NUMBER_OF_PORTS<n>` followed by the `n` port names, with null counted as zero ports |
| Proxy.UnknownLineIgnored | Ardulink/src/org/zu/ardulink/connection/proxy/NetworkProxyServerConnection.java:112-149 | a line that is no command has no effect |
| Proxy.ConnectReply | Ardulink/src/org/zu/ardulink/connection/proxy/NetworkProxyServerConnection.java:129-147 | `connect`, port, decimal baud: connects that link and answers OK (raw listener added, handshake complete) or KO |
| Proxy.EmptyInputSession | Ardulink/src/org/zu/ardulink/connection/proxy/NetworkProxyServerConnection.java:74-76 | a client that sends nothing aborts `run()` and closes only the socket |
| Proxy.StopSession | Ardulink/src/org/zu/ardulink/connection/proxy/NetworkProxyServerConnection.java:113-116 | `stop server` stops the server and closes the socket, nothing else |
| Proxy.RelayChars | Ardulink/src/org/zu/ardulink/connection/proxy/NetworkProxyServerConnection.java:80-88 | the relay writes each character of the rest of the input as its own serial write |
| Proxy.ConnectHandshake | Ardulink/src/org/zu/ardulink/connection/proxy/NetworkProxyServerConnection.java:73-79 | a successful connect completes the handshake at the end of the third line |
| Proxy.ConnectSession | Ardulink/src/org/zu/ardulink/connection/proxy/NetworkProxyServerConnection.java:64-110 | connect, OK, every further character relayed, then listener removed, link disconnected and socket closed |
| Proxy.ConcatFacts | Ardulink/src/org/zu/ardulink/connection/proxy/NetworkProxyServerConnection.java:64-110 | opening, releasing and handshake-only effects compose over concatenation |
| Proxy.PortListOnlyPrints | Ardulink/src/org/zu/ardulink/connection/proxy/NetworkProxyServerConnection.java:117-128 | the port-list reply only prints and flushes |
| Proxy.ProcessFacts | Ardulink/src/org/zu/ardulink/connection/proxy/NetworkProxyServerConnection.java:112-149 | a command never writes serial data. Completing the handshake prints OK. A link, once held, stays held; a link is acquired exactly when a connect opens it |
| Proxy.HandshakeFacts | Ardulink/src/org/zu/ardulink/connection/proxy/NetworkProxyServerConnection.java:73-79 | the same facts for the whole handshake loop |
| Proxy.RelayAllWrites | Ardulink/src/org/zu/ardulink/connection/proxy/NetworkProxyServerConnection.java:80-88 | the relay does nothing but serial writes |
| Proxy.SessionParts | Ardulink/src/org/zu/ardulink/connection/proxy/NetworkProxyServerConnection.java:64-110 | a session is handshake, relay and teardown; relay happens only after OK |
| Proxy.RelayFollowsOk | Ardulink/src/org/zu/ardulink/connection/proxy/NetworkProxyServerConnection.java:64-110 | no serial write ever happens before the client was told OK |
| Proxy.SessionReleasesLink | Ardulink/src/org/zu/ardulink/connection/proxy/NetworkProxyServerConnection.java:91-109 | every session ends with the socket closed. It releases a link exactly when a connect opened one, and every release is of the link the last connect assigned: a link that a later connect replaced (CONNECT p1 answered KO, then CONNECT p2) is never released |
| Proxy.ProcessHoldsLastOpened | Ardulink/src/org/zu/ardulink/connection/proxy/NetworkProxyServerConnection.java:129-132 | after one command the handler holds the link of the last connect it made, or, with no connect, the link it held before |
| Proxy.HandshakeHoldsLastOpened | Ardulink/src/org/zu/ardulink/connection/proxy/NetworkProxyServerConnection.java:73-79 | the same for the whole handshake loop |
| Proxy.ReleasesOnlyHeld | Ardulink/src/org/zu/ardulink/connection/proxy/NetworkProxyServerConnection.java:91-97 | no connect follows the handshake, and the finally block releases only the link it holds |
| Proxy.TeardownFacts | Ardulink/src/org/zu/ardulink/connection/proxy/NetworkProxyServerConnection.java:91-109 | teardown never opens or writes, releases exactly a held link, and ends with closing the socket |
| Proxy.FrameRoundTrip | Ardulink/src/org/zu/ardulink/connection/proxy/NetworkProxyServerConnection.java:172-188 | the bytes written are the low bytes of the message, then the divider; for byte-valued messages free of the divider they are the message itself |
| LinkManager.CheckSchema | core-ng-base/src/com/github/pfichtner/ardulink/core/linkmanager/LinkManager.java:291-295 | the URI is returned unchanged, or `IllegalArgumentException` |
| LinkManager.GetHostFromCheckedSchema | core-ng-base/src/com/github/pfichtner/ardulink/core/linkmanager/LinkManager.java:287-289 | the host, exactly when the schema check passes |
| LinkManager.CheckSchemaIff | core-ng-base/src/com/github/pfichtner/ardulink/core/linkmanager/LinkManager.java:291-295 | the check passes exactly when the scheme is present and equals "ardulink" ignoring case |
| LinkManager.SchemaExamples | core-ng-base/src/com/github/pfichtner/ardulink/core/linkmanager/LinkManager.java:291-295 | "ARDULINK" and "ArduLink" pass; "http" and a missing scheme are rejected |
| LinkManager.ListURIs | core-ng-base/src/com/github/pfichtner/ardulink/core/linkmanager/LinkManager.java:223-235 | succeeds exactly when every `ardulink://<name>` text parses, then yields the parsed URIs in factory order; otherwise the first parse failure comes out wrapped in a `RuntimeException` |
| LinkManager.FirstUnparsed | core-ng-base/src/com/github/pfichtner/ardulink/core/linkmanager/LinkManager.java:226-232 | the first factory whose URI text does not parse; every earlier one parses |
| LinkManager.ListedHostNames | core-ng-base/src/com/github/pfichtner/ardulink/core/linkmanager/LinkManager.java:223-235 | when every factory name has host syntax, every URI text parses to `ardulink://<name>` and the listing succeeds |
| LinkManager.GetConnectionFactory | core-ng-base/src/com/github/pfichtner/ardulink/core/linkmanager/LinkManager.java:237-244 | the first factory with that name, or null when none has it |
| LinkManager.FirstFactory | core-ng-base/src/com/github/pfichtner/ardulink/core/linkmanager/LinkManager.java:237-244 | the first index whose name matches, or none |
| LinkManager.ListedUriResolves | core-ng-base/src/com/github/pfichtner/ardulink/core/linkmanager/LinkManager.java:223-244 | for a factory whose name has host syntax, its listed URI passes the schema check, has the name as host and resolves to the first factory of that name |
| LinkManager.Convert | core-ng-base/src/com/github/pfichtner/ardulink/core/linkmanager/LinkManager.java:279-282 | a string-typed attribute gets the text itself; others get `Primitive.parseAs` |
| LinkManager.LoadChoiceValues | core-ng-base/src/com/github/pfichtner/ardulink/core/linkmanager/LinkManager.java:152-162 | null is an NPE; a collection or array gives its elements; anything else is `IllegalStateException` |
| LinkManager.LocalizedName | core-ng-base/src/com/github/pfichtner/ardulink/core/linkmanager/LinkManager.java:165-168 | the bundle's entry for the name when there is one |
| LinkManager.SetValueChecksChoices | core-ng-base/src/com/github/pfichtner/ardulink/core/linkmanager/LinkManager.java:115-132 | a value is accepted only if it is among the loaded choice values, and rejected with `IllegalArgumentException` when it is not |
| LinkManager.SetValueOutcome | core-ng-base/src/com/github/pfichtner/ardulink/core/linkmanager/LinkManager.java:115-132 | an attribute without choices and nothing cached accepts any value; a cached list is never reloaded; an accepted value is in the list in force; `IllegalArgumentException` means the value is outside it |
| LinkManager.SetValueUsesCache | core-ng-base/src/com/github/pfichtner/ardulink/core/linkmanager/LinkManager.java:115-132 | with choice values cached, they are not reloaded and decide acceptance |
| LinkManager.LinkConfigBean.constructor | core-ng-base/src/com/github/pfichtner/ardulink/core/linkmanager/LinkManager.java:189-194 | the link config starts with the given values |
| LinkManager.ConfigAttributeAdapter.constructor | core-ng-base/src/com/github/pfichtner/ardulink/core/linkmanager/LinkManager.java:87-98 | the adapter binds bean, name and attribute, with no choice values cached |
| LinkManager.ConfigAttributeAdapter.GetLocalizedName | core-ng-base/src/com/github/pfichtner/ardulink/core/linkmanager/LinkManager.java:165-168 | present exactly when the attribute's bundle has an entry for its name, and then that entry |
| LinkManager.ConfigAttributeAdapter.GetChoiceValues | core-ng-base/src/com/github/pfichtner/ardulink/core/linkmanager/LinkManager.java:140-150 | `IllegalStateException` without choices. A load failure is wrapped in a `RuntimeException`; otherwise the loaded values are returned and cached |
| LinkManager.ConfigAttributeAdapter.SetValue | core-ng-base/src/com/github/pfichtner/ardulink/core/linkmanager/LinkManager.java:115-132 | the bean's attribute is written exactly when the value is allowed, and is otherwise unchanged |
| LinkManager.DefaultConfigurer.constructor | core-ng-base/src/com/github/pfichtner/ardulink/core/linkmanager/LinkManager.java:189-194 | a fresh link config holding the factory's defaults |
| LinkManager.DefaultConfigurer.GetAttribute | core-ng-base/src/com/github/pfichtner/ardulink/core/linkmanager/LinkManager.java:205-208 | a fresh adapter on this configurer's bean for a known key; `IllegalArgumentException` for an unknown one |
| LinkManager.Configure | core-ng-base/src/com/github/pfichtner/ardulink/core/linkmanager/LinkManager.java:266-277 | the bean ends as `ApplyParams` computes: every `k=v` parameter in order, others skipped, stopping at the first exception |
| LinkManager.ApplyParams | core-ng-base/src/com/github/pfichtner/ardulink/core/linkmanager/LinkManager.java:266-277 | configuring keeps every value already set and only ever adds values for attributes the factory declares |
| LinkManager.Params | core-ng-base/src/com/github/pfichtner/ardulink/core/linkmanager/LinkManager.java:262-263 | no parameters for a null query; otherwise the query's `&`-separated pieces, none containing `&` |
| LinkManager.GetConfigurer | core-ng-base/src/com/github/pfichtner/ardulink/core/linkmanager/LinkManager.java:252-264 | a bad schema is `IllegalArgumentException`. Past the schema check, a factory name whose URI text does not parse fails the call with that parse error wrapped, whether or not the named factory exists: `listURIs()` is an eagerly evaluated message argument of the `checkArgument`. Otherwise an unknown factory is `IllegalArgumentException`, and a known one gives a fresh configurer of the first matching factory, configured from the query by `ApplyParams` (or that step's error) |
| LinkManager.NullQueryAppliesNothing | core-ng-base/src/com/github/pfichtner/ardulink/core/linkmanager/LinkManager.java:261-263 | a URI without query leaves the defaults |
| LinkManager.MalformedParamSkipped | core-ng-base/src/com/github/pfichtner/ardulink/core/linkmanager/LinkManager.java:268-269 | a parameter that does not split into two pieces is skipped |
| LinkManager.StringParamApplied | core-ng-base/src/com/github/pfichtner/ardulink/core/linkmanager/LinkManager.java:268-273 | `k=v` for a string attribute without choices stores `v` under `k` |
| LinkManager.UnknownKeyRejected | core-ng-base/src/com/github/pfichtner/ardulink/core/linkmanager/LinkManager.java:268-273 | `k=v` for an unknown attribute stops configuration with `IllegalArgumentException` |
| LinkManager.AppliedValuesAllowed | core-ng-base/src/com/github/pfichtner/ardulink/core/linkmanager/LinkManager.java:266-277 | every value configuration changes belongs to a known attribute and lies among its choice values |
| MqttBridge.NormalizeBrokerTopic | Mqtt/src/com/github/pfichtner/ardulink/MqttMain.java:332-335 | the result ends with '/', starts with the input and is at most one character longer |
| MqttBridge.NormalizeAppendsOnlyWhenMissing | Mqtt/src/com/github/pfichtner/ardulink/MqttMain.java:332-335 | the topic is left unchanged exactly when it already ends with '/' |
| MqttBridge.NormalizeIdempotent | Mqtt/src/com/github/pfichtner/ardulink/MqttMain.java:332-335 | normalising twice is normalising once |
| MqttBridge.DefaultTopicNormalized | Mqtt/src/com/github/pfichtner/ardulink/MqttMain.java:64 | the default broker topic is already normalised |
| MqttBridge.ParseRemote | Mqtt/src/com/github/pfichtner/ardulink/MqttMain.java:309-319 | the host is the first ':' piece, the port differs from the default only when given; failures are index or number-format exceptions |
| MqttBridge.RemoteHostOnly | Mqtt/src/com/github/pfichtner/ardulink/MqttMain.java:310-313 | `host` uses the default listening port |
| MqttBridge.RemoteHostAndPort | Mqtt/src/com/github/pfichtner/ardulink/MqttMain.java:310-313 | `host:port` uses that port |
| MqttBridge.RemoteBadPort | Mqtt/src/com/github/pfichtner/ardulink/MqttMain.java:312-313 | a non-integer port is a `NumberFormatException` |
| MqttBridge.RemoteTrailingColon | Mqtt/src/com/github/pfichtner/ardulink/MqttMain.java:310-313 | `host:` drops the trailing empty piece and uses the default port |
| MqttBridge.RemoteLoneColon | Mqtt/src/com/github/pfichtner/ardulink/MqttMain.java:310-315 | `:` splits into nothing, so `hostAndPort.length` is not 1 and reading the port is out of bounds |
| MqttBridge.CreateLink | Mqtt/src/com/github/pfichtner/ardulink/MqttMain.java:304-307 | no remote gives the default link; otherwise a network link to the parsed host and port |
| MqttBridge.ConnectLink | Mqtt/src/com/github/pfichtner/ardulink/MqttMain.java:293-302 | no port found, or the first port at 115200 baud: the link is returned connected, or "Connection failed!" |
| MqttBridge.StatusOps | Mqtt/src/com/github/pfichtner/ardulink/MqttMain.java:242-248 | the status is published, retained, exactly when an info topic is set |
| MqttBridge.StatusPublication | Mqtt/src/com/github/pfichtner/ardulink/MqttMain.java:242-248 | the status goes to the info topic, qos 0, retained, with payload "true" or "false" as the state is |
| MqttBridge.ConnectOptionsFor | Mqtt/src/com/github/pfichtner/ardulink/MqttMain.java:227-235 | a last will "false", QoS 0, retained on the info topic exactly when one is set |
| MqttBridge.WillIsClosingStatus | Mqtt/src/com/github/pfichtner/ardulink/MqttMain.java:227-248 | the last will is exactly the status message a clean close publishes |
| MqttBridge.Filter | Mqtt/src/com/github/pfichtner/ardulink/MqttMain.java:208-214 | the subscription filter is the broker topic followed by '#' |
| MqttBridge.CloseOrder | Mqtt/src/com/github/pfichtner/ardulink/MqttMain.java:216-225 | when connected: unsubscribe, drop the callback, publish "false" if configured, disconnect; always close last |
| MqttBridge.CloseOps | Mqtt/src/com/github/pfichtner/ardulink/MqttMain.java:216-225 | `close` always ends by closing the client; unconnected it does only that, connected it starts by unsubscribing the broker filter and disconnects just before closing |
| MqttBridge.ListenersFor | Mqtt/src/com/github/pfichtner/ardulink/MqttMain.java:141-143 | one listener per digital pin, in order, each owned by the adapter that registers it |
| MqttBridge.ListenedOncePerPin | Mqtt/src/com/github/pfichtner/ardulink/MqttMain.java:141-143 | a pin has as many listeners as it occurs in the `-d` option |
| MqttBridge.BrokerClient.constructor | Mqtt/src/com/github/pfichtner/ardulink/MqttMain.java:109-114 | a new broker client is not connected and has its callback set |
| MqttBridge.BrokerClient.MqttConnectOptions | Mqtt/src/com/github/pfichtner/ardulink/MqttMain.java:227-235 | the options for the current info topic |
| MqttBridge.BrokerClient.PublishClientStatus | Mqtt/src/com/github/pfichtner/ardulink/MqttMain.java:242-248 | appends the status publication when an info topic is set |
| MqttBridge.BrokerClient.Connect | Mqtt/src/com/github/pfichtner/ardulink/MqttMain.java:202-206 | connects with those options, then publishes "true" |
| MqttBridge.BrokerClient.Subscribe | Mqtt/src/com/github/pfichtner/ardulink/MqttMain.java:208-210 | subscribes to `brokerTopic#` |
| MqttBridge.BrokerClient.Unsubscribe | Mqtt/src/com/github/pfichtner/ardulink/MqttMain.java:212-214 | unsubscribes from `brokerTopic#` |
| MqttBridge.BrokerClient.Close | Mqtt/src/com/github/pfichtner/ardulink/MqttMain.java:216-225 | performs `CloseOps` and leaves the client disconnected |
| MqttBridge.BrokerClient.ListenToArduino | Mqtt/src/com/github/pfichtner/ardulink/MqttMain.java:128-145 | a time slicer exactly when throttling is positive; one digital listener per configured digital pin, in order |
| MqttBridge.MqttMain.constructor | Mqtt/src/com/github/pfichtner/ardulink/MqttMain.java:60-101 | every option holds its declared default |
| MqttBridge.MqttMain.SetBrokerTopic | Mqtt/src/com/github/pfichtner/ardulink/MqttMain.java:332-335 | the broker topic becomes the normalised topic; no other option changes |
| MqttBridge.MqttMain.SetAnalogs | Mqtt/src/com/github/pfichtner/ardulink/MqttMain.java:337-339 | null gives no pins; otherwise a copy of the array; no other option changes |
| MqttBridge.MqttMain.SetDigitals | Mqtt/src/com/github/pfichtner/ardulink/MqttMain.java:341-343 | null gives no pins; otherwise a copy of the array; no other option changes |
| MqttBridge.MqttMain.SetThrottleMillis | Mqtt/src/com/github/pfichtner/ardulink/MqttMain.java:345-347 | sets the throttle; no other option changes |
| MqttBridge.MqttMain.Close | Mqtt/src/com/github/pfichtner/ardulink/MqttMain.java:325-330 | disconnects the link, then closes the broker client; a missing link or client is a `NullPointerException`; the link's commands and listeners are untouched, and with no link the client is not touched either |
| MqttBridge.SetDigitalsCopies | Mqtt/src/com/github/pfichtner/ardulink/MqttMain.java:341-343 | changing the caller's array afterwards does not change the stored pins |
| TestOracles.CreateMessage | Mqtt/test/com/github/pfichtner/ardulink/MqttMessageBuilder.java:45-52 | topic `<base><type><pin>/value/<get or set>`, payload the value's text |
| TestOracles.ValueOf | Mqtt/test/com/github/pfichtner/ardulink/MqttMessageBuilder.java:50-52 | `String.valueOf` of an int reads back as that int, of a boolean parses back as that boolean, and of a string is the string itself |
| TestOracles.MqttMessageBuilder.CreateGetMessage | Mqtt/test/com/github/pfichtner/ardulink/MqttMessageBuilder.java:37-39 | the payload is the value's text; for a kind "D" or "A" over a valid base, the topic is the bridge's read template for that kind filled with the pin |
| TestOracles.MqttMessageBuilder.CreateSetMessage | Mqtt/test/com/github/pfichtner/ardulink/MqttMessageBuilder.java:41-43 | the payload is the value's text; for a digital pin over a valid base, the bridge routes the message to a switch of that pin, HIGH iff the payload parses as true |
| TestOracles.GetMessageTopic | Mqtt/test/com/github/pfichtner/ardulink/MqttMessageBuilder.java:37-48 | a get message's topic is the read template of its kind filled with the pin |
| TestOracles.SetMessageRoute | Mqtt/test/com/github/pfichtner/ardulink/MqttMessageBuilder.java:41-48 | a digital set message makes the bridge switch its pin as `parseBoolean` of the payload says |
| TestOracles.MqttMessageBuilder.MessageWithBasicTopic | Mqtt/test/com/github/pfichtner/ardulink/MqttMessageBuilder.java:10-16 | a builder on the topic with pin 0, no type and a null value |
| TestOracles.MqttMessageBuilder.ForDigitalPin | Mqtt/test/com/github/pfichtner/ardulink/MqttMessageBuilder.java:18-20 | type "D" and the pin, value kept, same builder returned |
| TestOracles.MqttMessageBuilder.ForAnalogPin | Mqtt/test/com/github/pfichtner/ardulink/MqttMessageBuilder.java:22-24 | type "A" and the pin, value kept, same builder returned |
| TestOracles.MqttMessageBuilder.ForPin | Mqtt/test/com/github/pfichtner/ardulink/MqttMessageBuilder.java:26-30 | type and pin set, value kept, same builder returned |
| TestOracles.MqttMessageBuilder.WithValue | Mqtt/test/com/github/pfichtner/ardulink/MqttMessageBuilder.java:32-35 | value set, pin and type kept, same builder returned |
| TestOracles.BuildersOverride | Mqtt/test/com/github/pfichtner/ardulink/MqttMessageBuilder.java:18-43 | the last pin, type and value set win |
| TestOracles.UnsetBuilderMessage | Mqtt/test/com/github/pfichtner/ardulink/MqttMessageBuilder.java:37-48 | an untouched builder yields `<base>null0/value/get` with payload "null" |
| TestOracles.ProtoText | Mqtt/test/com/github/pfichtner/ardulink/ProtoBuilder.java:16-18 | the expected serial text starts with `alp://` and ends with a newline |
| TestOracles.ProtoBuilder.ArduinoCommand | Mqtt/test/com/github/pfichtner/ardulink/ProtoBuilder.java:8-14 | a builder for the command with pin 0 |
| TestOracles.ProtoBuilder.ForPin | Mqtt/test/com/github/pfichtner/ardulink/ProtoBuilder.java:20-23 | sets the pin and returns the same builder |
| TestOracles.ProtoBuilder.WithValue | Mqtt/test/com/github/pfichtner/ardulink/ProtoBuilder.java:16-18 | `alp://<command>/<pin>/<value>\n`, whose fields split on '/' back into command, pin and value when the command holds no '/' |
| TestOracles.ProtoTextFields | Mqtt/test/com/github/pfichtner/ardulink/ProtoBuilder.java:16-18 | the text between `alp://` and the newline splits on '/' back into command, pin and value, which parse back to the numbers |
| TestOracles.ReceivedOne | Mqtt/test/com/github/pfichtner/ardulink/MqttTest.java:229-240 | a routed message reaches the serial line as exactly one command text |
| TestOracles.SetTopicShape | Mqtt/test/com/github/pfichtner/ardulink/MqttMessageBuilder.java:41-48 | a set message's topic is `<base><type><pin>/value/set` |
| TestOracles.DigitalSetOracle | Mqtt/test/com/github/pfichtner/ardulink/MqttTest.java:121-128 | a digital set with a boolean sends `alp://ppsw/<pin>/<1 or 0>` |
| TestOracles.DigitalInvalidPayloadOracle | Mqtt/test/com/github/pfichtner/ardulink/MqttTest.java:136-143 | a digital set with a payload that is not "true" sends `alp://ppsw/<pin>/0` |
| TestOracles.AnalogSetOracle | Mqtt/test/com/github/pfichtner/ardulink/MqttTest.java:145-153 | an analog set with an int sends `alp://ppin/<pin>/<value>` |
| TestOracles.AnalogInvalidPayloadOracle | Mqtt/test/com/github/pfichtner/ardulink/MqttTest.java:155-162 | an analog set with a payload that is not an int sends nothing |
| TestOracles.GetTopicShape | Mqtt/test/com/github/pfichtner/ardulink/MqttMessageBuilder.java:37-48 | a get message's topic is `<base><type><pin>/value/get` |
| TestOracles.DigitalGetOracle | Mqtt/test/com/github/pfichtner/ardulink/MqttTest.java:164-184 | a digital read on the observed pin publishes exactly the builder's get message, and nothing for another pin |
| TestOracles.AnalogGetOracle | Mqtt/test/com/github/pfichtner/ardulink/MqttTest.java:186-206 | an analog read on the observed pin publishes exactly the builder's get message, and nothing for another pin |

## Left out

- Paho's MQTT client itself is not part of this model. Broker calls become a log of `BrokerOp` values.
  `fromArduino`/`publish` (MqttMain.java:189-200, 237-240) and `isConnected` are not modelled beyond that log.
- The reconnect loop in the MQTT callback (MqttMain.java:147-180) is left out: it sleeps and retries until the broker answers.
- Command-line parsing with args4j, `main`, `doMain`, `connectToMqttBroker` and `wait4ever` are left out. They are I/O and blocking.
  The options are plain fields with their declared defaults.
- MqttBridge.BrokerClient.ListenToArduino: the analog loop is not modelled. It uses `configureAnalogReadChangeListener`, the tolerance and the time slicer, which are not part of this model.
  The model records only whether a time slicer would be created.
- `Config.withTopic` and `withControlChannelEnabled` are not part of this model. `Topics.ForBase` gives the layout `setTopic` builds for any base.
- `Link.getDefaultInstance`, `Link.createInstance` and `NetworkProxyConnection` are not part of this model. `CreateLink` returns which kind of link would be built.
  `DEFAULT_LISTENING_PORT` is a parameter.
- `IProtocol` is not part of this model. The proxy's command strings, `OK`/`KO` replies and the incoming message divider are the `ProxyMessages` parameter.
- The `NetworkProxyServer` collaborators are the `Env` parameter: its port list, which links accept a connection, and its raw data listener bookkeeping.
  Their own behaviour is not modelled.
- Proxy.ProxyConnection.Connect: the one-second sleep after connecting, thread interruption and `synchronized` are not modelled. Concurrency is out of scope.
- Proxy: `IOException`s raised by socket streams are not modelled, because the client's input is a complete string.
  A closed stream appears only as the `streamsOpen` flag that `parseInput` checks.
- Proxy.ProxyConnection.ParseInput: a null message array (an NPE in the source) is not modelled.
- Character sets are not modelled. MQTT payload bytes and the proxy's socket text are taken as already-decoded strings, and `getBytes` is the identity on text.
- JavaText.ParseInt: accepts only ASCII digits. `Integer.parseInt` also accepts other Unicode decimal digits.
- JavaText.Format: models the `%s` and `%%` conversions only, the ones the core's templates use. Other conversions are treated as format errors.
- LinkManager.ListURIs: `java.net.URI`'s parser is not modelled; it is the parameter `parseUri`. The model relies only on `ParsesHostNames`: a name of letters, digits and inner dashes that starts with a letter becomes the host unchanged. Names outside that shape (one with `_`, which Java leaves with a null host; one with a space, which throws; one with `?`, which starts a query) are carried through whatever `parseUri` returns, and `ListedUriResolves` says nothing about them.
- LinkManager.Convert: `Primitive.parseAs` is the `parseAs` parameter, and its failures are not modelled.
- LinkManager: bean-property reflection (`BeanProperties`, `@Named`) and the attribute's `readValue`/`writeValue` exceptions are not modelled. The link config is a map from attribute name to value.
  `getAttributes` and `newLink` are left out.
- Logging is left out everywhere.
- TestOracles.AlpText: this is the tests' expected ALP text for a command. The protocol class that produces it is not part of this model.
- `DigitalPinStatus`, both `AnotherMqttClient` classes and the test `Message` class are not part of this model. The model's `Message` is a plain (topic, payload) pair.
