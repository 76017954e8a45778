/** Constants of MQTT-SN v1.2 that the client uses, and the flags octet of
    section 5.3.4:

      bit 7 DUP | bits 6-5 QoS | bit 4 Retain | bit 3 Will | bit 2 CleanSession | bits 1-0 TopicIdType
 */
module Protocol {
  import opened Octets

  // Message types, section 5.2.2 (Table 3).
  const TypeConnect: Octet := 0x04
  const TypeConnack: Octet := 0x05
  const TypeWillTopicReq: Octet := 0x06
  const TypeWillTopic: Octet := 0x07
  const TypeWillMsgReq: Octet := 0x08
  const TypeWillMsg: Octet := 0x09
  const TypeRegister: Octet := 0x0A
  const TypeRegack: Octet := 0x0B
  const TypePublish: Octet := 0x0C
  const TypePuback: Octet := 0x0D
  const TypeSubscribe: Octet := 0x12
  const TypeSuback: Octet := 0x13
  const TypePingReq: Octet := 0x16
  const TypePingResp: Octet := 0x17
  const TypeDisconnect: Octet := 0x18

  /** The ProtocolId field of CONNECT, section 5.3.8. */
  const ProtocolId: Octet := 0x01

  // Flag bits, section 5.3.4.
  const FlagDup: Octet := 0x80
  const FlagQosN1: Octet := 0x60
  const FlagQos0: Octet := 0x00
  const FlagQos1: Octet := 0x20
  const FlagQos2: Octet := 0x40
  const FlagRetain: Octet := 0x10
  const FlagWill: Octet := 0x08
  const FlagClean: Octet := 0x04

  // TopicIdType values, the low two bits of the flags.
  const TopicTypeNormal: Octet := 0x00
  const TopicTypePredefined: Octet := 0x01
  const TopicTypeShort: Octet := 0x02

  /** The longest packet the client reads or writes: the largest value of
      the one-octet length field (section 5.2.1). */
  const MaxPacketLength := 255
  /** The longest topic name a REGISTER can carry after its 6-octet header. */
  const MaxTopicLength := MaxPacketLength - 6
  /** The longest payload a PUBLISH can carry after its 7-octet header. */
  const MaxPayloadLength := MaxPacketLength - 7
  /** The longest client id section 5.3.1 allows. */
  const MaxClientIdLength := 23

  /** Reading of the individual fields of a flags octet. */
  predicate DupOf(f: Octet) { (f / 128) % 2 == 1 }
  predicate RetainOf(f: Octet) { (f / 16) % 2 == 1 }
  predicate WillOf(f: Octet) { (f / 8) % 2 == 1 }
  predicate CleanOf(f: Octet) { (f / 4) % 2 == 1 }
  function TopicTypeOf(f: Octet): Octet { f % 4 }

  /** The QoS level that the two QoS bits of a flags octet encode. */
  function QosOf(f: Octet): Int8
  {
    var bits := (f / 32) % 4;
    if bits == 3 then -1 else bits
  }

  /** The QoS bits for a QoS level; 0 for any level the protocol does not
      define. */
  function QosFlag(qos: Int8): (r: Octet)
    ensures -1 <= qos <= 2 ==> QosOf(r) == qos
    ensures !(-1 <= qos <= 2) ==> r == 0
    ensures r % 32 == 0 && r < 128
  {
    match qos
    case -1 => FlagQosN1
    case 0 => FlagQos0
    case 1 => FlagQos1
    case 2 => FlagQos2
    case _ => 0
  }

  /** The flags octet that is the sum of a Retain bit, QoS bits and a
      TopicIdType; the three parts occupy disjoint bits, so the sum is
      their bitwise OR. */
  function ComposeFlags(retain: bool, qosBits: Octet, topicType: Octet): Octet
    requires qosBits % 32 == 0 && qosBits < 128
  {
    (if retain then FlagRetain else 0) + qosBits + topicType % 4
  }

  /** Every field of a composed flags octet reads back as it was put in, and
      the bits no part sets stay clear. */
  lemma ComposeFlagsFields(retain: bool, qosBits: Octet, topicType: Octet)
    requires qosBits % 32 == 0 && qosBits < 128
    ensures RetainOf(ComposeFlags(retain, qosBits, topicType)) == retain
    ensures (ComposeFlags(retain, qosBits, topicType) / 32) % 4 == qosBits / 32
    ensures TopicTypeOf(ComposeFlags(retain, qosBits, topicType)) == topicType % 4
    ensures !DupOf(ComposeFlags(retain, qosBits, topicType))
    ensures !WillOf(ComposeFlags(retain, qosBits, topicType))
    ensures !CleanOf(ComposeFlags(retain, qosBits, topicType))
  {
    var f := ComposeFlags(retain, qosBits, topicType);
    var q := qosBits / 32;
    var r := if retain then 1 else 0;
    assert f == q * 32 + r * 16 + topicType % 4;
    assert f / 16 == q * 2 + r;
    assert f / 32 == q;
    assert f / 8 == q * 4 + r * 2;
    assert f / 4 == q * 8 + r * 4;
  }
}
