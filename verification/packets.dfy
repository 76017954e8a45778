/** The MQTT-SN packets the client sends and receives, their octet layout
    (section 5.4 of MQTT-SN v1.2, 16-bit fields in network order) and the
    received-packet header check of mqtt-sn.c. */
module Packets {
  import opened Wrappers
  import opened Octets
  import opened Protocol

  /** The topic of a SUBSCRIBE: a name (normal or short) or a topic id. */
  datatype SubscribeTopic = TopicName(name: Bytes) | TopicId(id: U16)

  /** A packet, without its length octet. */
  datatype Packet =
    | Connect(flags: Octet, protocolId: Octet, duration: U16, clientId: Bytes)
    | Connack(returnCode: Octet)
    | WillTopicReq
    | WillTopic(flags: Octet, willTopic: Bytes)
    | WillMsgReq
    | WillMsg(willMessage: Bytes)
    | Register(topicId: U16, messageId: U16, topicName: Bytes)
    | Regack(topicId: U16, messageId: U16, returnCode: Octet)
    | Publish(flags: Octet, topicId: U16, messageId: U16, data: Bytes)
    | Puback(topicId: U16, messageId: U16, returnCode: Octet)
    | Subscribe(flags: Octet, messageId: U16, topic: SubscribeTopic)
    | Suback(flags: Octet, topicId: U16, messageId: U16, returnCode: Octet)
    | PingReq
    | PingResp
    | Disconnect

  /** The MsgType octet of a packet. */
  function MsgType(p: Packet): Octet
  {
    match p
    case Connect(_, _, _, _) => TypeConnect
    case Connack(_) => TypeConnack
    case WillTopicReq => TypeWillTopicReq
    case WillTopic(_, _) => TypeWillTopic
    case WillMsgReq => TypeWillMsgReq
    case WillMsg(_) => TypeWillMsg
    case Register(_, _, _) => TypeRegister
    case Regack(_, _, _) => TypeRegack
    case Publish(_, _, _, _) => TypePublish
    case Puback(_, _, _) => TypePuback
    case Subscribe(_, _, _) => TypeSubscribe
    case Suback(_, _, _, _) => TypeSuback
    case PingReq => TypePingReq
    case PingResp => TypePingResp
    case Disconnect => TypeDisconnect
  }

  /** The variable part of a packet: everything after MsgType. */
  function Fields(p: Packet): Bytes
  {
    match p
    case Connect(f, pid, d, id) => [f, pid] + BigEndian(d) + id
    case Connack(rc) => [rc]
    case WillTopicReq => []
    case WillTopic(f, t) => [f] + t
    case WillMsgReq => []
    case WillMsg(m) => m
    case Register(t, m, n) => BigEndian(t) + BigEndian(m) + n
    case Regack(t, m, rc) => BigEndian(t) + BigEndian(m) + [rc]
    case Publish(f, t, m, d) => [f] + BigEndian(t) + BigEndian(m) + d
    case Puback(t, m, rc) => BigEndian(t) + BigEndian(m) + [rc]
    case Subscribe(f, m, TopicName(n)) => [f] + BigEndian(m) + n
    case Subscribe(f, m, TopicId(t)) => [f] + BigEndian(m) + BigEndian(t)
    case Suback(f, t, m, rc) => [f] + BigEndian(t) + BigEndian(m) + [rc]
    case PingReq => []
    case PingResp => []
    case Disconnect => []
  }

  /** The number of octets of the packet including its length octet. */
  function Size(p: Packet): nat
  {
    2 + |Fields(p)|
  }

  /** A packet that has an encoding: it fits the one-octet length field,
      and a SUBSCRIBE's TopicIdType says whether it carries a topic id. */
  predicate WellFormed(p: Packet)
  {
    && Size(p) <= MaxPacketLength
    && (p.Subscribe? ==> (p.topic.TopicId? <==> TopicTypeOf(p.flags) == TopicTypePredefined))
  }

  /** The octets of a well-formed packet on the wire. */
  function Encode(p: Packet): (r: Bytes)
    requires WellFormed(p)
    ensures |r| == Size(p) && r[0] == Size(p)
  {
    [Size(p), MsgType(p)] + Fields(p)
  }

  /** `mqtt_sn_validate_packet`: a received datagram of `length` octets
      whose first octet is `header` is accepted when the header is a
      one-octet length (0x01 announces the three-octet form, which the
      client does not handle; 0x00 is no length at all) equal to the number
      of octets read. */
  predicate ValidatePacket(header: Octet, length: int)
  {
    header != 0x00 && header != 0x01 && header == length
  }

  /** `mqtt_sn_receive_packet` after a datagram arrived: `recv` reads at most
      `MaxPacketLength` octets into a static buffer whose first octet still
      holds `stale` when the datagram is empty; the octets read are returned
      when they pass `ValidatePacket`, and NULL otherwise. */
  function ReceiveDatagram(datagram: Bytes, stale: Octet): (r: Option<Bytes>)
    ensures r.Some? ==> 2 <= |r.value| <= MaxPacketLength && r.value[0] == |r.value|
    ensures r.Some? ==> r.value <= datagram
    ensures |datagram| <= MaxPacketLength ==>
              (r.Some? <==> |datagram| >= 2 && datagram[0] == |datagram|)
  {
    var read := if |datagram| <= MaxPacketLength then |datagram| else MaxPacketLength;
    var header := if |datagram| == 0 then stale else datagram[0];
    if ValidatePacket(header, read) then Some(datagram[..read]) else None
  }

  /** An empty datagram is never accepted, whatever the buffer held before. */
  lemma EmptyDatagramRejected(stale: Octet)
    ensures ReceiveDatagram([], stale) == None
  {
  }

  /** A datagram longer than the receive buffer is accepted, cut to its
      first 255 octets, exactly when its length octet is 255. */
  lemma LongDatagramTruncated(datagram: Bytes, stale: Octet)
    requires |datagram| > MaxPacketLength
    ensures ReceiveDatagram(datagram, stale).Some? <==> datagram[0] == MaxPacketLength
    ensures ReceiveDatagram(datagram, stale).Some? ==>
              ReceiveDatagram(datagram, stale).value == datagram[..MaxPacketLength]
  {
  }

  /** Every packet the client can encode passes the header check intact. */
  lemma EncodedPacketAccepted(p: Packet, stale: Octet)
    requires WellFormed(p)
    ensures ValidatePacket(Encode(p)[0], |Encode(p)|)
    ensures ReceiveDatagram(Encode(p), stale) == Some(Encode(p))
  {
    var b := Encode(p);
    assert b[..|b|] == b;
  }

  /** The packet that the octets after the length octet hold, if they are
      one of the kinds above in the layout of section 5.4. */
  function DecodeBody(t: Octet, f: Bytes): Option<Packet>
  {
    if t == TypeConnect && |f| >= 4 then Some(Connect(f[0], f[1], FromBigEndian(f[2], f[3]), f[4..]))
    else if t == TypeConnack && |f| == 1 then Some(Connack(f[0]))
    else if t == TypeWillTopicReq && |f| == 0 then Some(WillTopicReq)
    else if t == TypeWillTopic && |f| >= 1 then Some(WillTopic(f[0], f[1..]))
    else if t == TypeWillMsgReq && |f| == 0 then Some(WillMsgReq)
    else if t == TypeWillMsg then Some(WillMsg(f))
    else if t == TypeRegister && |f| >= 4 then
      Some(Register(FromBigEndian(f[0], f[1]), FromBigEndian(f[2], f[3]), f[4..]))
    else if t == TypeRegack && |f| == 5 then
      Some(Regack(FromBigEndian(f[0], f[1]), FromBigEndian(f[2], f[3]), f[4]))
    else if t == TypePublish && |f| >= 5 then
      Some(Publish(f[0], FromBigEndian(f[1], f[2]), FromBigEndian(f[3], f[4]), f[5..]))
    else if t == TypePuback && |f| == 5 then
      Some(Puback(FromBigEndian(f[0], f[1]), FromBigEndian(f[2], f[3]), f[4]))
    else if t == TypeSubscribe && |f| >= 3 then
      if TopicTypeOf(f[0]) == TopicTypePredefined then
        if |f| == 5 then Some(Subscribe(f[0], FromBigEndian(f[1], f[2]), TopicId(FromBigEndian(f[3], f[4]))))
        else None
      else Some(Subscribe(f[0], FromBigEndian(f[1], f[2]), TopicName(f[3..])))
    else if t == TypeSuback && |f| == 6 then
      Some(Suback(f[0], FromBigEndian(f[1], f[2]), FromBigEndian(f[3], f[4]), f[5]))
    else if t == TypePingReq && |f| == 0 then Some(PingReq)
    else if t == TypePingResp && |f| == 0 then Some(PingResp)
    else if t == TypeDisconnect && |f| == 0 then Some(Disconnect)
    else None
  }

  /** The packet that a received octet string holds: it must pass the
      header check and then hold a packet of a known kind. */
  function Decode(b: Bytes): (r: Option<Packet>)
    ensures r.Some? ==> |b| >= 2 && ValidatePacket(b[0], |b|)
  {
    if |b| >= 2 && ValidatePacket(b[0], |b|) then DecodeBody(b[1], b[2..]) else None
  }

  /** Reading back what was written gives the packet that was written. */
  lemma DecodeEncode(p: Packet)
    requires WellFormed(p)
    ensures Decode(Encode(p)) == Some(p)
  {
    var b := Encode(p);
    assert b[2..] == Fields(p);
    DecodeBodyFields(p);
  }

  /** The fields of a well-formed packet, read back under its type octet. */
  lemma DecodeBodyFields(p: Packet)
    requires WellFormed(p)
    ensures DecodeBody(MsgType(p), Fields(p)) == Some(p)
  {
    var f := Fields(p);
    match p
    case Connect(fl, pid, d, id) =>
      BigEndianRoundTrip(d);
      assert f[4..] == id;
    case WillTopic(fl, t) =>
      assert f[1..] == t;
    case Register(t, m, n) =>
      BigEndianRoundTrip(t);
      BigEndianRoundTrip(m);
      assert f[4..] == n;
    case Regack(t, m, rc) =>
      BigEndianRoundTrip(t);
      BigEndianRoundTrip(m);
    case Publish(fl, t, m, d) =>
      BigEndianRoundTrip(t);
      BigEndianRoundTrip(m);
      assert f[5..] == d;
    case Puback(t, m, rc) =>
      BigEndianRoundTrip(t);
      BigEndianRoundTrip(m);
    case Subscribe(fl, m, TopicName(n)) =>
      BigEndianRoundTrip(m);
      assert f[3..] == n;
    case Subscribe(fl, m, TopicId(t)) =>
      BigEndianRoundTrip(m);
      BigEndianRoundTrip(t);
    case Suback(fl, t, m, rc) =>
      BigEndianRoundTrip(t);
      BigEndianRoundTrip(m);
    case _ =>
  }

  /** Two well-formed packets with the same encoding are the same packet. */
  lemma EncodeInjective(p: Packet, q: Packet)
    requires WellFormed(p) && WellFormed(q) && Encode(p) == Encode(q)
    ensures p == q
  {
    DecodeEncode(p);
    DecodeEncode(q);
  }
}
