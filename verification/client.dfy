/** The packet-building and response-checking functions of mqtt-sn.c, over
    the library's state: the message-id counter and the topic map.

    A send function returns the `Frame` it would hand to
    `mqtt_sn_send_packet`, or the error that makes it call `exit`. */
module Client {
  import opened Wrappers
  import opened Octets
  import opened Protocol
  import opened Packets
  import opened TopicMap

  /** The library's globals that outlive a call. */
  datatype Client = Client(nextMessageId: U16, topics: Topics)

  /** The state at program start: `next_message_id = 1`, an empty map. */
  const Initial := Client(1, Empty)

  /** A packet and the length octet the code stores in it; `send` writes that
      many octets. */
  datatype Frame = Frame(length: Octet, packet: Packet)

  /** A frame whose length octet is the packet's size, so that exactly the
      packet goes out and the receiver's header check accepts it. */
  predicate Sound(f: Frame)
  {
    WellFormed(f.packet) && f.length == Size(f.packet)
  }

  /** A frame sent together with the library state after it. */
  datatype Sent = Sent(frame: Frame, client: Client)

  /** The reasons a send function exits. */
  datatype SendError = ClientIdTooLong | WillTopicTooLong | PayloadTooBig | TopicNameTooLong

  /** The reasons a response check exits. */
  datatype AckError = NoPacket | WrongType(msgType: Octet) | Refused(returnCode: Octet)

  /** `next_message_id++` on a `uint16_t`. */
  function Advance(id: U16): (r: U16)
    ensures r == (id + 1) % 0x1_0000
    ensures r != id
  {
    if id == 0xFFFF then 0 else id + 1
  }

  /** The room the CONNECT and WILLTOPIC packets have for a string,
      terminator included. */
  const StringField := MaxClientIdLength + 1

  /** The client id `mqtt-sn-tools-<pid>` that CONNECT falls back to,
      formatted by `snprintf` with a bound of `StringField - 1`, so at
      most `StringField - 2` characters before the terminator: the whole
      text when it fits, its first `StringField - 2` characters otherwise. */
  function DefaultClientId(pid: nat): (r: Bytes)
    ensures |r| == if 14 + |Decimal(pid)| <= StringField - 2 then 14 + |Decimal(pid)| else StringField - 2
    ensures r[..14] == Ascii("mqtt-sn-tools-")
    ensures r <= Ascii("mqtt-sn-tools-") + Decimal(pid)
    ensures 14 + |Decimal(pid)| <= StringField - 2 ==> r == Ascii("mqtt-sn-tools-") + Decimal(pid)
  {
    Truncate(Ascii("mqtt-sn-tools-") + Decimal(pid), StringField - 2)
  }

  /** A pid of at most eight digits can be read back from the default
      client id, so distinct such pids give distinct ids. */
  lemma DefaultClientIdReadsBack(pid: nat, pid': nat)
    requires |Decimal(pid)| <= 8 && |Decimal(pid')| <= 8
    ensures AllDigits(DefaultClientId(pid)[14..]) && DigitsValue(DefaultClientId(pid)[14..]) == pid
    ensures DefaultClientId(pid) == DefaultClientId(pid') ==> pid == pid'
  {
    assert DefaultClientId(pid)[14..] == Decimal(pid);
    assert DefaultClientId(pid')[14..] == Decimal(pid');
  }

  /** `mqtt_sn_send_connect`: a client id over 23 octets is fatal; a NULL or
      empty id is replaced by the default one. */
  function SendConnect(clientId: Option<Bytes>, flags: Octet, keepAlive: U16, pid: nat): (r: Result<Frame, SendError>)
    ensures r.Err? <==> clientId.Some? && |clientId.value| > MaxClientIdLength
    ensures r.Err? ==> r.error == ClientIdTooLong
    ensures r.Ok? ==> Sound(r.value)
    ensures r.Ok? ==>
              var id := if clientId.None? || |clientId.value| == 0 then DefaultClientId(pid) else clientId.value;
              && r.value.packet == Connect(flags, ProtocolId, keepAlive, id)
              && r.value.length == 6 + |id|
  {
    if clientId.Some? && |clientId.value| > MaxClientIdLength then Err(ClientIdTooLong)
    else
      var id := if clientId.None? || |clientId.value| == 0 then DefaultClientId(pid)
                else Truncate(clientId.value, StringField - 1);
      Ok(Frame(6 + |id|, Connect(flags, ProtocolId, keepAlive, id)))
  }

  /** `mqtt_sn_send_will_topic`: a will topic over 23 octets is fatal. */
  function SendWillTopic(willTopic: Bytes, flags: Octet): (r: Result<Frame, SendError>)
    ensures r.Err? <==> |willTopic| > MaxClientIdLength
    ensures r.Err? ==> r.error == WillTopicTooLong
    ensures r.Ok? ==> Sound(r.value) && r.value.packet == WillTopic(flags, willTopic)
    ensures r.Ok? ==> r.value.length == 3 + |willTopic|
  {
    if |willTopic| > MaxClientIdLength then Err(WillTopicTooLong)
    else
      var t := Truncate(willTopic, StringField - 1);
      Ok(Frame(3 + |t|, WillTopic(flags, t)))
  }

  /** `mqtt_sn_send_will_msg`: a will message longer than the payload field
      is fatal. */
  function SendWillMsg(message: Bytes): (r: Result<Frame, SendError>)
    ensures r.Err? <==> |message| > MaxPayloadLength
    ensures r.Err? ==> r.error == PayloadTooBig
    ensures r.Ok? ==> Sound(r.value) && r.value.packet == WillMsg(message)
    ensures r.Ok? ==> r.value.length == 2 + |message|
  {
    if |message| > MaxPayloadLength then Err(PayloadTooBig)
    else Ok(Frame(2 + |message|, WillMsg(message)))
  }

  /** `mqtt_sn_send_register`: a topic name over `MaxTopicLength` octets is
      fatal; the packet takes the current message id, which then advances. */
  function SendRegister(c: Client, topicName: Bytes): (r: Result<Sent, SendError>)
    ensures r.Err? <==> |topicName| > MaxTopicLength
    ensures r.Err? ==> r.error == TopicNameTooLong
    ensures r.Ok? ==> Sound(r.value.frame)
    ensures r.Ok? ==> r.value.frame.packet == Register(0, c.nextMessageId, topicName)
    ensures r.Ok? ==> r.value.frame.length == 6 + |topicName|
    ensures r.Ok? ==> r.value.client == c.(nextMessageId := (c.nextMessageId + 1) % 0x1_0000)
  {
    if |topicName| > MaxTopicLength then Err(TopicNameTooLong)
    else
      Ok(Sent(Frame(6 + |topicName|, Register(0, c.nextMessageId, topicName)),
              c.(nextMessageId := Advance(c.nextMessageId))))
  }

  /** `mqtt_sn_send_regack`: an acceptance of a gateway's REGISTER. */
  function SendRegack(topicId: U16, messageId: U16): (r: Frame)
    ensures Sound(r) && r.length == 7
    ensures r.packet == Regack(topicId, messageId, 0)
  {
    Frame(7, Regack(topicId, messageId, 0x00))
  }

  /** `mqtt_sn_send_publish`: a payload longer than the data field is fatal;
      the flags are the sum of the Retain bit, the QoS bits and the low two
      bits of the topic type; the packet takes the current message id, which
      then advances. */
  function SendPublish(c: Client, topicId: U16, topicType: Octet, data: Bytes, qos: Int8, retain: bool): (r: Result<Sent, SendError>)
    ensures r.Err? <==> |data| > MaxPayloadLength
    ensures r.Err? ==> r.error == PayloadTooBig
    ensures r.Ok? ==> Sound(r.value.frame) && r.value.frame.length == 7 + |data|
    ensures r.Ok? ==>
              var p := r.value.frame.packet;
              && p.Publish? && p.topicId == topicId && p.messageId == c.nextMessageId && p.data == data
              && RetainOf(p.flags) == retain
              && QosOf(p.flags) == (if -1 <= qos <= 2 then qos else 0)
              && TopicTypeOf(p.flags) == topicType % 4
              && !DupOf(p.flags) && !WillOf(p.flags) && !CleanOf(p.flags)
    ensures r.Ok? ==> r.value.client == c.(nextMessageId := (c.nextMessageId + 1) % 0x1_0000)
  {
    if |data| > MaxPayloadLength then Err(PayloadTooBig)
    else
      var flags := ComposeFlags(retain, QosFlag(qos), topicType);
      ComposeFlagsFields(retain, QosFlag(qos), topicType);
      Ok(Sent(Frame(7 + |data|, Publish(flags, topicId, c.nextMessageId, data)),
              c.(nextMessageId := Advance(c.nextMessageId))))
  }

  /** The length octet `mqtt_sn_send_subscribe_topic_name` computes, as
      written: `0x05 + topic_name_len` stored in a `uint8_t`, with no check
      on the name's length. */
  function SubscribeLengthAsWritten(topicNameLength: nat): Octet
  {
    (5 + topicNameLength) % 256
  }

  /** As written, a 251-octet topic name gives a length octet of 0, so
      nothing is sent and a receiver's header check would reject the
      packet; every name of 251 octets or more gets a wrong length. */
  lemma SubscribeLengthWraps(n: nat)
    requires 251 <= n < 507
    ensures SubscribeLengthAsWritten(n) == n - 251
    ensures SubscribeLengthAsWritten(n) != 5 + n
    ensures SubscribeLengthAsWritten(251) == 0 && !ValidatePacket(SubscribeLengthAsWritten(251), 256)
  {
  }

  /** `mqtt_sn_send_subscribe_topic_name` with the length check that
      `mqtt_sn_send_register` has: a name over `MaxTopicLength` octets is
      fatal. The name is copied into a `MaxTopicLength`-octet field whose
      last octet is then set to NUL, so a name that fills the field goes
      out with its last octet replaced by 0x00; the length octet still
      counts the whole name. The TopicIdType is short for a two-octet name
      and normal otherwise; the `uint8_t` QoS is read as `int8_t`. */
  function SendSubscribeTopicName(c: Client, topicName: Bytes, qos: Octet): (r: Result<Sent, SendError>)
    ensures r.Err? <==> |topicName| > MaxTopicLength
    ensures r.Ok? ==> Sound(r.value.frame)
    ensures r.Ok? ==> r.value.frame.length == 5 + |topicName| == SubscribeLengthAsWritten(|topicName|)
    ensures r.Ok? ==>
              var p := r.value.frame.packet;
              && p.Subscribe? && p.messageId == c.nextMessageId
              && (|topicName| < MaxTopicLength ==> p.topic == TopicName(topicName))
              && (|topicName| == MaxTopicLength ==> p.topic == TopicName(topicName[..MaxTopicLength - 1] + [0]))
              && TopicTypeOf(p.flags) == (if |topicName| == 2 then TopicTypeShort else TopicTypeNormal)
              && QosOf(p.flags) == (if -1 <= ToInt8(qos) <= 2 then ToInt8(qos) else 0)
    ensures r.Ok? ==> r.value.client == c.(nextMessageId := (c.nextMessageId + 1) % 0x1_0000)
  {
    if |topicName| > MaxTopicLength then Err(TopicNameTooLong)
    else
      var flags := ComposeFlags(false, QosFlag(ToInt8(qos)), if |topicName| == 2 then TopicTypeShort else TopicTypeNormal);
      ComposeFlagsFields(false, QosFlag(ToInt8(qos)), if |topicName| == 2 then TopicTypeShort else TopicTypeNormal);
      var field := if |topicName| == MaxTopicLength then topicName[..MaxTopicLength - 1] + [0] else topicName;
      Ok(Sent(Frame(5 + |topicName|, Subscribe(flags, c.nextMessageId, TopicName(field))),
              c.(nextMessageId := Advance(c.nextMessageId))))
  }

  /** `mqtt_sn_send_subscribe_topic_id`: a subscription to a predefined
      topic id. */
  function SendSubscribeTopicId(c: Client, topicId: U16, qos: Octet): (r: Sent)
    ensures Sound(r.frame) && r.frame.length == 7
    ensures var p := r.frame.packet;
            && p.Subscribe? && p.messageId == c.nextMessageId && p.topic == TopicId(topicId)
            && TopicTypeOf(p.flags) == TopicTypePredefined
            && QosOf(p.flags) == (if -1 <= ToInt8(qos) <= 2 then ToInt8(qos) else 0)
    ensures r.client == c.(nextMessageId := (c.nextMessageId + 1) % 0x1_0000)
  {
    var flags := ComposeFlags(false, QosFlag(ToInt8(qos)), TopicTypePredefined);
    ComposeFlagsFields(false, QosFlag(ToInt8(qos)), TopicTypePredefined);
    Sent(Frame(7, Subscribe(flags, c.nextMessageId, TopicId(topicId))),
         c.(nextMessageId := Advance(c.nextMessageId)))
  }

  /** `mqtt_sn_send_pingreq`: a PINGREQ without a client id. */
  function SendPingReq(): (r: Frame)
    ensures Sound(r) && r.length == 2 && r.packet.PingReq?
  {
    Frame(2, PingReq)
  }

  /** `mqtt_sn_send_disconnect`: a DISCONNECT without a duration. */
  function SendDisconnect(): (r: Frame)
    ensures Sound(r) && r.length == 2 && r.packet.Disconnect?
  {
    Frame(2, Disconnect)
  }

  /** `mqtt_sn_receive_connack`: no packet, a packet of another kind, or a
      CONNACK with a non-zero return code is fatal. */
  function ReceiveConnack(p: Option<Packet>): (r: Result<(), AckError>)
    ensures r.Ok? <==> p == Some(Connack(0))
    ensures r == Err(NoPacket) <==> p.None?
    ensures (exists t :: r == Err(WrongType(t))) <==> p.Some? && !p.value.Connack?
    ensures p.Some? && !p.value.Connack? ==> r == Err(WrongType(MsgType(p.value)))
    ensures p.Some? && p.value.Connack? && p.value.returnCode != 0 ==> r == Err(Refused(p.value.returnCode))
  {
    if p.None? then Err(NoPacket)
    else if !p.value.Connack? then Err(WrongType(MsgType(p.value)))
    else if p.value.returnCode != 0 then Err(Refused(p.value.returnCode))
    else Ok(())
  }

  /** An accepted REGACK or SUBACK: the topic id it carries, and whether its
      message id differs from the one last sent (only a warning). */
  datatype Ack = Ack(topicId: U16, idMismatch: bool)

  /** The message-id comparison of `mqtt_sn_receive_regack` and
      `mqtt_sn_receive_suback` as written: `next_message_id-1` is computed
      in `int`, so once the counter has wrapped to 0 it is -1. */
  predicate MessageIdMismatchAsWritten(received: U16, next: U16)
  {
    received as int != next as int - 1
  }

  /** The message id a packet took when the counter now reads `next`. */
  function PreviousId(next: U16): (r: U16)
    ensures Advance(r) == next
  {
    if next == 0 then 0xFFFF else next - 1
  }

  /** The comparison with the id that was actually sent. */
  predicate MessageIdMismatch(received: U16, next: U16)
  {
    received != PreviousId(next)
  }

  /** The corrected comparison warns exactly when the echoed id is not the
      one the last REGISTER carried, whatever the counter. */
  lemma MessageIdCheckSound(c: Client, topicName: Bytes, received: U16)
    requires |topicName| <= MaxTopicLength
    ensures var s := SendRegister(c, topicName).value;
            MessageIdMismatch(received, s.client.nextMessageId) <==> received != s.frame.packet.messageId
  {
  }

  /** As written, the id of the packet sent when the counter stood at
      0xFFFF is reported as a mismatch even when the gateway echoes it. */
  lemma MessageIdCheckAfterWrap(c: Client, topicName: Bytes)
    requires |topicName| <= MaxTopicLength && c.nextMessageId == 0xFFFF
    ensures var s := SendRegister(c, topicName).value;
            && s.frame.packet.messageId == 0xFFFF && s.client.nextMessageId == 0
            && MessageIdMismatchAsWritten(s.frame.packet.messageId, s.client.nextMessageId)
            && !MessageIdMismatch(s.frame.packet.messageId, s.client.nextMessageId)
  {
  }

  /** `mqtt_sn_receive_regack`: no packet, a packet of another kind, or a
      REGACK with a non-zero return code is fatal; otherwise the topic id
      the gateway assigned. */
  function ReceiveRegack(c: Client, p: Option<Packet>): (r: Result<Ack, AckError>)
    ensures r.Ok? <==> p.Some? && p.value.Regack? && p.value.returnCode == 0
    ensures r == Err(NoPacket) <==> p.None?
    ensures p.Some? && !p.value.Regack? ==> r == Err(WrongType(MsgType(p.value)))
    ensures p.Some? && p.value.Regack? && p.value.returnCode != 0 ==> r == Err(Refused(p.value.returnCode))
    ensures r.Ok? ==> r.value.topicId == p.value.topicId
    ensures r.Ok? ==> (r.value.idMismatch <==> p.value.messageId != PreviousId(c.nextMessageId))
  {
    if p.None? then Err(NoPacket)
    else if !p.value.Regack? then Err(WrongType(MsgType(p.value)))
    else if p.value.returnCode != 0 then Err(Refused(p.value.returnCode))
    else Ok(Ack(p.value.topicId, MessageIdMismatch(p.value.messageId, c.nextMessageId)))
  }

  /** `mqtt_sn_receive_suback`: as `ReceiveRegack`, for a SUBACK. */
  function ReceiveSuback(c: Client, p: Option<Packet>): (r: Result<Ack, AckError>)
    ensures r.Ok? <==> p.Some? && p.value.Suback? && p.value.returnCode == 0
    ensures r == Err(NoPacket) <==> p.None?
    ensures p.Some? && !p.value.Suback? ==> r == Err(WrongType(MsgType(p.value)))
    ensures p.Some? && p.value.Suback? && p.value.returnCode != 0 ==> r == Err(Refused(p.value.returnCode))
    ensures r.Ok? ==> r.value.topicId == p.value.topicId
    ensures r.Ok? ==> (r.value.idMismatch <==> p.value.messageId != PreviousId(c.nextMessageId))
  {
    if p.None? then Err(NoPacket)
    else if !p.value.Suback? then Err(WrongType(MsgType(p.value)))
    else if p.value.returnCode != 0 then Err(Refused(p.value.returnCode))
    else Ok(Ack(p.value.topicId, MessageIdMismatch(p.value.messageId, c.nextMessageId)))
  }

  /** `mqtt_sn_process_register`: a REGISTER from the gateway enters the topic
      map and is answered with an accepting REGACK that echoes its topic id
      and message id, even when the map refused the entry. */
  function ProcessRegister(c: Client, topicId: U16, messageId: U16, topicName: Bytes): (r: Sent)
    ensures r.frame.packet == Regack(topicId, messageId, 0) && Sound(r.frame)
    ensures r.client.nextMessageId == c.nextMessageId
    ensures ValidTopicId(topicId) && |topicName| > 0 ==>
              Lookup(r.client.topics, topicId) == Some(StoredName(topicName))
    ensures !ValidTopicId(topicId) || |topicName| == 0 ==> r.client.topics == c.topics
  {
    var topics := RegisterTopic(c.topics, topicId, Some(topicName));
    var r := Sent(SendRegack(topicId, messageId), c.(topics := topics));
    if ValidTopicId(topicId) && |topicName| > 0 then
      RegisterThenLookup(c.topics, topicId, topicName);
      r
    else r
  }
}
