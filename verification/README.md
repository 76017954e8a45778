# mqtt-sn-pub: a Dafny model of the MQTT-SN publishing client

This project models the two layers of the `mqtt-sn-pub` command-line
publisher for MQTT-SN v1.2 (MQTT for Sensor Networks).

- **Library layer (mqtt-sn.c).** It covers the header check on received
  packets and the packets the client builds: their length octets, flags
  octets and message ids. It also covers the checks on CONNACK, REGACK and
  SUBACK, and the topic-id → name map.
- **Program layer (mqtt-sn-pub.c).** It covers the option checks of
  `parse_opts` and the session `main` runs:
  - connect, with the will sub-handshake at QoS 1 (section 6.2 of MQTT-SN
    v1.2);
  - topic resolution: predefined, short, or registered;
  - one PUBLISH, with the QoS 1 retry loop;
  - a lenient DISCONNECT.

The gateway is a script of replies: `seq<Option<Packet>>`. `None` stands
for a receive that timed out or got a packet the header check rejected, and
a receive past the end of the script times out. A run returns a `Report`:

- the packets sent, in order;
- the warnings printed;
- whether the run completed or stopped at an `exit`.

`OutcomeOf` maps a report to Ok, OkWithWarning or Fail.

The C integer types are written out over unbounded integers:

- `uint8_t` as `Octet`;
- `uint16_t` as `U16`, with `next_message_id++` wrapping at 0xFFFF;
- `int8_t` as `Int8`;
- `atoi` results are reduced modulo 2^8 or 2^16 where they are stored.

C strings are the bytes before their NUL (`Bytes`). mqtt-sn.h is not part of
this model. Its constants are taken from MQTT-SN v1.2:

- message types from section 5.2.2;
- flag bits from section 5.3.4;
- protocol id 0x01 from section 5.3.8.

The 23-character limits on the client id and the will topic come from the
checks at mqtt-sn.c:225 and 263. The 255-octet packet follows from the
one-octet length field, and the 249-octet topic name and 248-octet PUBLISH
payload from it less the header sizes of section 5.4. The WILLMSG data field
is taken to be as large as the PUBLISH one.

Modules, in dependency order:

| module | file | contents |
|---|---|---|
| `Wrappers` | wrappers.dfy | `Option`, `Result` |
| `Octets` | octets.dfy | fixed-width integers, byte order, `%d` formatting, `strncpy` |
| `Protocol` | protocol.dfy | constants, the flags octet, `mqtt_sn_get_qos_flag` |
| `Packets` | packets.dfy | packet datatype, section 5.4 encoding and decoding, `mqtt_sn_validate_packet` |
| `TopicMap` | topic_map.dfy | the topic map as a sequence of entries |
| `Client` | client.dfy | the send and receive functions of mqtt-sn.c over the library state |
| `Options` | options.dfy | `parse_opts` |
| `Session` | session.dfy | `main` as phases over a session state, and `Run` |
| `SessionProps` | session_props.dfy | properties of whole runs |

## Model

| member | source | states |
|---|---|---|
| Protocol.QosFlag | mqtt-sn.c:320-334 | QoS -1, 0, 1 and 2 map to their four flag values, which read back as that QoS; any other value gives 0 |
| Protocol.ComposeFlagsFields | mqtt-sn.c:343-348 | the PUBLISH flags sum reads back as the Retain bit, the QoS and the low two bits of the topic type, with DUP, Will and CleanSession clear |
| Packets.ReceiveDatagram | mqtt-sn.c:152-218 | through the header check `ValidatePacket` (`mqtt_sn_validate_packet`), a datagram that fits the buffer is accepted exactly when its first octet equals its length and is neither 0 nor 1; an accepted packet is a prefix of the datagram, 2 to 255 octets long |
| Packets.EmptyDatagramRejected | mqtt-sn.c:185-209 | an empty datagram is rejected, whatever the first octet of the buffer still holds |
| Packets.LongDatagramTruncated | mqtt-sn.c:185-209 | a datagram over 255 octets is cut to 255 and accepted exactly when its length octet is 255 |
| Packets.EncodedPacketAccepted | mqtt-sn.c:152-172 | every well-formed packet the client builds passes the receiver's header check unchanged |
| Packets.DecodeEncode | mqtt-sn.c:117-150 | the octets sent for a well-formed packet decode back to that packet |
| Packets.DecodeBodyFields | mqtt-sn.c:117-150 | the fields after the type octet read back as the packet under that type |
| Packets.EncodeInjective | mqtt-sn.c:117-150 | two distinct well-formed packets never go out as the same octets |
| TopicMap.Find | mqtt-sn.c:511-518 | the search loop stops at the first entry with the id, and finds none exactly when the id is absent |
| TopicMap.Lookup | mqtt-sn.c:534-547 | lookup gives NULL exactly when no entry carries the id |
| TopicMap.LookupFirst | mqtt-sn.c:538-543 | lookup returns the name of the first entry that carries the id |
| TopicMap.LookupUnique | mqtt-sn.c:534-547 | in a map without repeated ids, lookup of any entry's id returns that entry's name |
| TopicMap.RegisterTopic | mqtt-sn.c:491-532 | a reserved id (0x0000, 0xFFFF) or a NULL or empty name leaves the map unchanged; a new id is appended; a known id is overwritten in place, so the length stays the same; no other entry changes |
| TopicMap.RegisterThenLookup | mqtt-sn.c:511-532 | after a valid registration, lookup of the id gives the stored name |
| TopicMap.RegisterKeepsOthers | mqtt-sn.c:511-532 | registering one id never changes what any other id looks up to |
| TopicMap.RegisterKeepsInvariant | mqtt-sn.c:496-532 | registration keeps ids unique and never stores a reserved id |
| TopicMap.Cleanup | mqtt-sn.c:745-757 | after cleanup every lookup gives NULL |
| Client.Advance | mqtt-sn.c:295 | the message-id counter moves to the next value modulo 2^16 and never stays put |
| Client.DefaultClientId | mqtt-sn.c:236-239 | the default client id is "mqtt-sn-tools-" followed by the pid in decimal whenever that fits the 22 characters `snprintf` may write, and otherwise exactly its first 22 characters |
| Client.DefaultClientIdReadsBack | mqtt-sn.c:236-239 | for pids of at most eight digits the pid reads back from the digits after the prefix, so distinct pids give distinct default ids |
| Client.SendConnect | mqtt-sn.c:220-256 | a client id over 23 characters is fatal; otherwise CONNECT carries the given flags, protocol id 0x01, the keep-alive and the given id, or the default one when the id is NULL or empty; the length octet is 6 plus the id's length |
| Client.SendWillTopic | mqtt-sn.c:258-281 | a will topic over 23 characters is fatal; otherwise WILLTOPIC carries the flags and topic, and its length octet is 3 plus the topic's length |
| Client.SendWillMsg | mqtt-sn.c:363-381 | a will message over 248 octets, the assumed size of the WILLMSG data field, is fatal; otherwise WILLMSG carries it, with a length octet of 2 plus its length |
| Client.SendRegister | mqtt-sn.c:283-303 | a topic name over 249 octets is fatal; otherwise REGISTER has topic id 0, the current message id and the name, its length octet is 6 plus the name's length, and the counter advances by one |
| Client.SendRegack | mqtt-sn.c:305-318 | REGACK echoes the topic id and message id with return code 0, and has a length of 7 |
| Client.SendPublish | mqtt-sn.c:336-361 | a payload over 248 octets is fatal; otherwise PUBLISH flags hold Retain, the QoS flag and the topic type's low two bits, the packet takes the current message id, the counter advances by one, and the length octet is 7 plus the payload's length |
| Client.SubscribeLengthWraps | mqtt-sn.c:383-405 | as written, a topic name of 251 to 506 octets gives a length octet 256 less than the true length; at 251 it is 0, which no receiver accepts |
| Client.SendSubscribeTopicName | mqtt-sn.c:383-405 | SUBSCRIBE by name has TopicIdType short for a two-octet name and normal otherwise, the QoS flag of the `uint8_t` QoS read as `int8_t`, and the current message id, and the counter advances by one; a name shorter than the 249-octet topic field goes out as given, and a name that fills it goes out with its last octet replaced by NUL (line 398); a name over 249 octets is rejected, and the length octet 5 plus the name's length then equals the as-written one |
| Client.SendSubscribeTopicId | mqtt-sn.c:407-422 | SUBSCRIBE by id has TopicIdType predefined, a length of 7 and the current message id, and the counter advances by one |
| Client.SendPingReq | mqtt-sn.c:424-435 | PINGREQ is two octets, with no client id |
| Client.SendDisconnect | mqtt-sn.c:437-447 | DISCONNECT is two octets, with no duration |
| Client.ReceiveConnack | mqtt-sn.c:449-471 | accepted exactly when the reply is a CONNACK with return code 0; no packet, another kind, or a non-zero return code are the three distinct fatal cases |
| Client.PreviousId | mqtt-sn.c:575 | the id a packet took is the one the counter advances from to its current value |
| Client.MessageIdCheckSound | mqtt-sn.c:574-577 | the corrected check warns exactly when the echoed id differs from the one REGISTER sent, whatever the counter |
| Client.MessageIdCheckAfterWrap | mqtt-sn.c:574-577 | as written, a REGISTER sent with the counter at 0xFFFF leaves the counter at 0, and the check then warns even when the gateway echoes 0xFFFF; the corrected check does not |
| Client.ReceiveRegack | mqtt-sn.c:549-585 | no packet, another kind, or a non-zero return code is fatal; otherwise the gateway's topic id is returned, and a message id other than the one sent is only a warning |
| Client.ReceiveSuback | mqtt-sn.c:587-627 | the same decisions for SUBACK |
| Client.ProcessRegister | mqtt-sn.c:473-489 | a gateway REGISTER enters the map when the id and name are valid and leaves it unchanged otherwise; it is always answered with an accepting REGACK echoing its ids, and no message id is used up |
| Options.ParseOpts | mqtt-sn-pub.c:133-153 | a missing topic (no name and topic id 0) or missing message is a usage error; otherwise an unsupported QoS is reported as such, then a name given with an id, then QoS -1 without an id or a two-character name, each exactly when the earlier checks pass; the options are accepted exactly when none applies, and then the configuration is the given fields |
| Options.TopicIdZeroIsAbsent | mqtt-sn-pub.c:123-134 | `-T 0`, or any multiple of 65536, is the same as giving no topic id |
| Options.QosWrapsAtInt8 | mqtt-sn-pub.c:107-108 | the QoS argument is read modulo 256 |
| Options.EmptyMessageIsPresent | mqtt-sn-pub.c:99-101 | `-n` gives the empty message, which counts as present: with it the options are a missing parameter only when the topic is missing, are accepted exactly when they would be with any other message, and then publish the empty message |
| Session.AwaitConnack | mqtt-sn-pub.c:189 | the reply after the handshake is consumed, and the session continues exactly when it is an accepting CONNACK |
| Session.WillHandshake | mqtt-sn-pub.c:175-189 | without a WILLTOPICREQ first, the run stops naming it; after one, WILLTOPIC is the next packet sent, and without a WILLMSGREQ next the run stops naming that; only WILLTOPIC and WILLMSG are sent, and nothing is printed |
| Session.Handshake | mqtt-sn-pub.c:169-190 | at QoS other than 0 and 1 nothing happens; otherwise at most three packets, all CONNECT, WILLTOPIC or WILLMSG, and the library state is untouched |
| Session.PackShortTopic | mqtt-sn-pub.c:195-198 | a two-character name becomes the id with the first character in the high octet and the second in the low one |
| Session.ShortTopicIdSignedChar | mqtt-sn-pub.c:197 | the packing as written agrees with the intended one exactly when the second character is below 0x80, and is 256 less otherwise; "AB" gives 0x4142 |
| Session.PackShortTopicInjective | mqtt-sn-pub.c:195-198 | distinct short names give distinct topic ids |
| Session.Resolve | mqtt-sn-pub.c:192-204 | a topic id is used as predefined, and a two-character name is used as a short id, both without traffic; any other name at QoS 0 or more sends one REGISTER and continues exactly when an accepting REGACK comes back, using its topic id as normal |
| Session.SendSessionPublish | mqtt-sn-pub.c:207 | the session's PUBLISH has the current message id and advances the counter; it fails exactly when the payload is too big |
| Session.AwaitPuback | mqtt-sn-pub.c:208-224 | the retry loop only sends PUBLISH packets, at most 11 beyond the first; giving up always reports 12 tries with all 11 resends out |
| Session.PublishStep | mqtt-sn-pub.c:206-226 | at most 12 PUBLISH at QoS 1 and exactly one otherwise, without a warning or receive except at QoS 1; a payload too big is fatal before anything is sent |
| Session.DisconnectStep | mqtt-sn-pub.c:227-235 | at QoS 0 or more one DISCONNECT is sent, and a missing or wrong reply is a warning; at QoS -1 nothing happens |
| Session.Deliver | mqtt-sn-pub.c:206-235 | publish and disconnect only append well-formed packets, and a completed run at QoS 0 or more ends with DISCONNECT |
| Session.Proceed | mqtt-sn-pub.c:192-235 | topic resolution, publish and disconnect only append well-formed packets, and a completed run at QoS 0 or more ends with DISCONNECT |
| Session.Run | mqtt-sn-pub.c:156-242 | every packet sent fits its length octet, and a completed run at QoS 0 or more ends with DISCONNECT |
| Session.Main | mqtt-sn-pub.c:156-161 | a usage error ends the program before any packet is sent |
| SessionProps.AwaitPubackResends | mqtt-sn-pub.c:211-221 | a receive that is not PUBACK, with the counter at 10 or below, consumes one reply, warns "retrying" with the counter, and resends the same PUBLISH with the next message id |
| SessionProps.AwaitPubackStops | mqtt-sn-pub.c:211-213 | a PUBACK ends the loop after consuming it, with "send required" printed exactly when the counter is non-zero (lines 223-224) |
| SessionProps.AwaitPubackGivesUp | mqtt-sn-pub.c:214-218 | a miss with the counter at 11 warns and is fatal, reporting 12 tries |
| SessionProps.AwaitPubackSkips | mqtt-sn-pub.c:210-222 | k misses in a row take the loop through k resends, leaving it waiting with the counter k higher |
| SessionProps.ResendsSent | mqtt-sn-pub.c:221 | k resends append k copies of the session's PUBLISH with consecutive message ids from the counter, and leave the counter k further on modulo 2^16, the topic map untouched |
| SessionProps.ResendsWarnings | mqtt-sn-pub.c:214-215 | k misses print k "retrying" warnings numbered from the counter |
| SessionProps.ResendsReplies | mqtt-sn-pub.c:211 | k misses consume k replies, so the next receive gets reply k |
| SessionProps.AwaitPubackAcked | mqtt-sn-pub.c:208-224 | when the first PUBACK is reply k+1, the loop succeeds after exactly k resends, having consumed k+1 replies |
| SessionProps.AwaitPubackExhausted | mqtt-sn-pub.c:208-219 | with no PUBACK the loop resends until the counter reaches 11, then warns once more and fails with 12 tries |
| SessionProps.PublishStepAwaits | mqtt-sn-pub.c:207-209 | at QoS 1 the publish step sends the PUBLISH with the current message id and enters the loop with the counter at 0 |
| SessionProps.PublishStepAcked | mqtt-sn-pub.c:206-226 | at QoS 1, when the first PUBACK is reply k+1 and k is at most 11, the publish step succeeds after the first PUBLISH and k resends |
| SessionProps.AckedAfterSent | mqtt-sn-pub.c:207-222 | that step sends exactly k+1 PUBLISH with consecutive message ids from the counter, and leaves the counter k+1 further on |
| SessionProps.AckedAfterReplies | mqtt-sn-pub.c:211 | that step consumes exactly k+1 replies |
| SessionProps.AckedAfterWarnings | mqtt-sn-pub.c:214-224 | that step prints k "retrying" warnings numbered 0 to k-1, then "send required" with k exactly when k > 0 |
| SessionProps.FirstPublishResends | mqtt-sn-pub.c:207-221 | the first PUBLISH and k resends are k+1 PUBLISH with consecutive message ids from the counter |
| SessionProps.PublishStepGivesUp | mqtt-sn-pub.c:206-219 | at QoS 1 with no PUBACK in twelve receives, the publish step fails with 12 tries |
| SessionProps.GaveUpSent | mqtt-sn-pub.c:207-221 | it has then sent exactly 12 PUBLISH with consecutive message ids from the counter |
| SessionProps.GaveUpWarnings | mqtt-sn-pub.c:214-217 | it has printed exactly 12 "retrying" warnings, numbered 0 to 11 |
| SessionProps.QosMinusOneSendsOnePublish | mqtt-sn-pub.c:169-207 | at QoS -1 with validated options the run is exactly one PUBLISH with message id 1 and no warning, or fails before sending when the payload is too big |
| SessionProps.QosMinusOneNoSession | mqtt-sn-pub.c:169-228 | at QoS -1 no CONNECT, WILL packet, REGISTER or DISCONNECT is ever sent, and at most one PUBLISH |
| SessionProps.Qos0Handshake | mqtt-sn-pub.c:170-172 | QoS 0 sends one CONNECT with CleanSession only and continues exactly when the next reply is an accepting CONNACK; a client id too long is fatal before sending |
| SessionProps.Qos1Handshake | mqtt-sn-pub.c:173-189 | QoS 1 sends CONNECT with CleanSession and Will, then runs the will sub-handshake |
| SessionProps.WillHandshakeFatal | mqtt-sn-pub.c:175-189 | each failure of the will sub-handshake is its own fatal error: no WILLTOPICREQ, a will topic over 23 characters, no WILLMSGREQ, a will message over 248 octets, or no accepting CONNACK |
| SessionProps.WillHandshakeOrder | mqtt-sn-pub.c:175-189 | the will sub-handshake succeeds exactly when WILLTOPICREQ, WILLMSGREQ and an accepting CONNACK come in that order and both will fields fit; WILLTOPIC is only sent after a WILLTOPICREQ, and WILLMSG only after a WILLMSGREQ |
| SessionProps.Qos1Connected | mqtt-sn-pub.c:173-189 | with that script, the QoS 1 handshake leaves CONNECT, WILLTOPIC and WILLMSG sent, three replies consumed, no warning and the library state as at start |
| SessionProps.Qos1RunDelivers | mqtt-sn-pub.c:192-198 | a QoS 1 run with a predefined or short topic goes from the handshake straight to the publish, without REGISTER |
| SessionProps.DeliverAcks | mqtt-sn-pub.c:206-235 | at QoS 1, when the first PUBACK is reply k+1, publish and disconnect complete with the acknowledged publish followed by the DISCONNECT step |
| SessionProps.FinishedSent | mqtt-sn-pub.c:206-229 | that sends k+1 PUBLISH with consecutive message ids and then DISCONNECT |
| SessionProps.FinishedWarnings | mqtt-sn-pub.c:214-234 | its warnings are k "retrying", "send required" exactly when k > 0, and "DISCONNECT not acked" exactly when the reply after the PUBACK is not DISCONNECT |
| SessionProps.FinishedWarningsFresh | mqtt-sn-pub.c:223-224 | from a session without warnings, "send required" with k is printed exactly when k > 0 |
| SessionProps.DeliverGivesUp | mqtt-sn-pub.c:216-218 | at QoS 1 with no PUBACK in twelve receives, the run stops where the publish step gave up, so no DISCONNECT is sent |
| SessionProps.Qos1RunAcks | mqtt-sn-pub.c:156-242 | a QoS 1 run whose first PUBACK is reply k+1 after CONNACK completes as the acknowledged publish followed by DISCONNECT |
| SessionProps.Qos1RunAcked | mqtt-sn-pub.c:156-242 | such a run sends exactly CONNECT, WILLTOPIC, WILLMSG, then k+1 PUBLISH with message ids 1 to k+1, then DISCONNECT, and completes |
| SessionProps.Qos1RunAckedWarnings | mqtt-sn-pub.c:214-234 | its warnings are exactly k "retrying" numbered 0 to k-1, "send required" exactly when k > 0, and "DISCONNECT not acked" unless DISCONNECT was answered |
| SessionProps.Qos1RunClean | mqtt-sn-pub.c:208-235 | such a run has no warning exactly when the first PUBLISH was acknowledged and DISCONNECT was answered |
| SessionProps.Qos1RunGivesUp | mqtt-sn-pub.c:156-219 | a QoS 1 run without PUBACK in the twelve receives after CONNACK stops where the publish step gave up |
| SessionProps.Qos1RunExhausted | mqtt-sn-pub.c:156-219 | such a run sends 15 packets: the handshake, then exactly 12 PUBLISH with message ids 1 to 12 and no DISCONNECT, and fails with 12 tries |
| SessionProps.Qos1GaveUpSent | mqtt-sn-pub.c:207-221 | after the QoS 1 handshake, giving up leaves the three handshake packets followed by 12 PUBLISH with message ids 1 to 12 |
| SessionProps.Qos1RunExhaustedWarnings | mqtt-sn-pub.c:214-217 | such a run prints exactly the twelve "retrying" warnings, numbered 0 to 11, and nothing else |
| SessionProps.Qos0Connected | mqtt-sn-pub.c:170-172 | an accepting CONNACK after the QoS 0 CONNECT leaves only that CONNECT sent, one reply consumed and no warning |
| SessionProps.DeliverOnce | mqtt-sn-pub.c:206-235 | at a QoS other than 1, publish and disconnect send one PUBLISH with the current message id, then the DISCONNECT step, and complete |
| SessionProps.Qos0RunLocal | mqtt-sn-pub.c:156-242 | a QoS 0 run with a predefined or short topic is exactly CONNECT, PUBLISH with message id 1, DISCONNECT; it completes, warning exactly when DISCONNECT is not answered |
| SessionProps.LocalFinish | mqtt-sn-pub.c:206-235 | after the QoS 0 handshake, publish and disconnect leave CONNECT, PUBLISH with id 1 and DISCONNECT sent, and warn exactly when DISCONNECT is not answered |
| SessionProps.RegisterResolves | mqtt-sn-pub.c:199-204 | a longer name is registered with the current message id, the counter advances, the granted topic id is used as normal, and a REGACK with another message id is a warning |
| SessionProps.Qos0Registers | mqtt-sn-pub.c:199-204 | after the QoS 0 handshake, REGISTER goes out with message id 1 and the counter moves to 2 |
| SessionProps.Qos0RegisterDelivers | mqtt-sn-pub.c:156-204 | a QoS 0 run with a longer name reaches the publish with the granted id, after CONNECT and REGISTER |
| SessionProps.Qos0RunRegister | mqtt-sn-pub.c:156-242 | a QoS 0 run with a longer name sends CONNECT, REGISTER with id 1, PUBLISH to the granted topic id as normal with id 2, DISCONNECT; it warns about the REGACK exactly when the REGACK's message id is not 1 |
| SessionProps.RegisteredFinish | mqtt-sn-pub.c:206-235 | after the REGISTER, publish and disconnect add PUBLISH with id 2 and DISCONNECT, and the REGACK warning is kept exactly when it was printed |
| SessionProps.RunPublishBound | mqtt-sn-pub.c:206-226 | whatever the gateway does, a run sends at most 12 PUBLISH at QoS 1 and at most one otherwise |
| SessionProps.ProceedPublishBound | mqtt-sn-pub.c:192-226 | topic resolution sends no PUBLISH, so after a handshake the same bound holds |
| SessionProps.DeliverPublishBound | mqtt-sn-pub.c:206-235 | publish and disconnect add at most 12 PUBLISH at QoS 1 and at most one otherwise |
## Left out

- Sockets, `getaddrinfo`, the receive timeout and `send` (mqtt-sn.c:58-150) are left out, and "only sent n of m bytes" is not modelled. `Packets.ReceiveDatagram` models what `recv` leaves in the buffer. The gateway is a reply script of decoded packets, in which a missing reply is a timeout.
- A failed `recv` other than a timeout (mqtt-sn.c:184-192, for example ECONNREFUSED on the connected UDP socket) exits the program. The reply script cannot express it, so every wait in the model (CONNACK, REGACK, the PUBACK loop, the DISCONNECT reply) can only time out or be answered. `Session.DisconnectStep`'s warning on a missing reply and `Session.AwaitPuback`'s retries hold for timeouts and rejected datagrams only.
- The replies are decoded packets. A datagram that passes the header check but whose layout is not a known packet is not modelled as a reply. `Packets.Decode` shows which octet strings are packets.
- Debug output, hex dumps, `mqtt_sn_set_debug`, `mqtt_sn_type_string` and `mqtt_sn_return_code_string` are left out. They only print. Warnings and fatal errors are tags (`Warning`, `Fatal`), not text.
- `mqtt_sn_loop` is not modelled. The publisher does not call it, and it depends on the wall clock, `select` and a floating-point timeout.
- `sleep(1)` in the retry loop, `time()` and the `last_transmit`/`last_receive`/`keep_alive` globals are left out. The model has no clock, and the stored keep-alive only matters to `mqtt_sn_loop`.
- `getpid()` is not modelled; the pid is a parameter of `Run`.
- `getopt`, `usage()` text, host, port, debug and unknown options are left out. `Args` holds the parsed fields.
- `exit(...)` is a `Failed` status. The exit code of a refused CONNACK or REGACK is kept as the return code in `Refused`.
- The `if (sock)` test in `main` is not modelled. It skips the session when the socket is file descriptor 0, and the model assumes socket creation succeeds with a non-zero descriptor.
- Session.Run: requires non-NULL will topic and will message at QoS 1 (`Runnable`). Without them the C code has undefined behaviour: a NULL will message reaches `strlen` in `mqtt_sn_send_will_msg` (mqtt-sn.c:366), and a NULL will topic passes the `will_topic &&` guard (line 263) and reaches `strncpy` (line 272). A predefined topic id must also be non-zero, which `parse_opts` guarantees (see `Options.ParseOpts`).
- Session.Main: requires the will fields at QoS 1, for the same reason.
- Client.SendWillMsg, and so SessionProps.WillHandshakeFatal: a will message over 248 octets is rejected, on the assumption above about the size of `will_msg_packet_t`'s data field (mqtt-sn.c:368 compares with its `sizeof`). If that field is 253 octets, messages of 249 to 253 octets are sent by the source and rejected by the model.
- The struct layouts and buffer sizes of mqtt-sn.h are not visible. The 23-character client id and will topic come from the checks in mqtt-sn.c (lines 225, 263). The 249-octet topic field and 248-octet payload field are derived from the 255-octet packet and the header sizes of section 5.4 of MQTT-SN v1.2, which also gives the on-wire layout. The SUBSCRIBE topic field is taken to be as large as the REGISTER one, and the WILLMSG data field as large as the PUBLISH one (248 octets), not the 253 octets its 2-octet header would leave.
- TopicMap.Cleanup: memory is not modelled. The C loop reads and writes freed memory: it reads each node's `next` field after freeing the node, and `*ptr2 = NULL` writes into the node freed on the previous turn. The model gives the empty map that the loop is meant to leave.
- TopicMap.RegisterTopic: `malloc` failure is not modelled.
- `Bytes` may hold 0x00, which a C string handed to `strlen` or `strncpy` cannot. The string-valued options and arguments are taken to be NUL-free; the model does not enforce it, because packet fields, where 0x00 is legal, use the same type.
- Client.SendSubscribeTopicName: models the corrected function, which rejects names over 249 octets (see Findings). The length octet of the unchecked original is `Client.SubscribeLengthAsWritten`. For names that fit, the NUL that line 398 writes into the last octet of the topic field is modelled.
- Client.ReceiveRegack: uses the corrected message-id comparison (see Findings), so the spurious warning after the counter wraps to 0 is not modelled here.
- Client.ReceiveSuback: uses the same corrected message-id comparison as `Client.ReceiveRegack` (see Findings).
- Session.Resolve, and so Session.Run: the short-topic packing is the corrected one, `Session.PackShortTopic` (see Findings). This matches the source only on targets where `char` is unsigned, or when the second character is below 0x80; with signed `char` the source computes `Session.ShortTopicIdAsWritten`, which `Session.ShortTopicIdSignedChar` relates to the corrected packing. With signed `char` and a first character of 0x80 or more, `topic_name[0] << 8` shifts a negative `int`, which C leaves undefined; `ShortTopicIdAsWritten` takes the two's-complement result gcc and clang give.

## Findings

| source | as written | input that shows it | evidently intended | confidence | as-written member | corrected member |
|---|---|---|---|---|---|---|
| mqtt-sn-pub.c:197 | the two characters of a short topic name are combined through `char`, which is signed on the usual x86 ABIs, so a second character of 0x80 or more is added as a negative number | topic name "A" followed by octet 0xE9 gives topic id 0x40E9 | the id 0x41E9: first octet high, second low | not executed | Session.ShortTopicIdSignedChar | Session.PackShortTopic |
| mqtt-sn.c:383-405 | SUBSCRIBE by name has no check on the name's length, and the length octet `5 + length` wraps modulo 256 | a 251-octet topic name gives a length octet of 0, so `send` writes no octets | reject names over 249 octets, as `mqtt_sn_send_register` does | not executed | Client.SubscribeLengthWraps | Client.SendSubscribeTopicName |
| mqtt-sn.c:574-577 | the REGACK and SUBACK message-id check compares with `next_message_id-1` in `int`, which is -1 once the counter has wrapped to 0 | REGISTER sent with the counter at 0xFFFF; the gateway echoes 0xFFFF and the check still warns | compare with the id that was sent, 0xFFFF | not executed | Client.MessageIdCheckAfterWrap | Client.MessageIdCheckSound |
