/** The publisher's command-line options (`parse_opts` in mqtt-sn-pub.c):
    the fields `getopt` fills in, and the checks made before any network
    traffic. */
module Options {
  import opened Wrappers
  import opened Octets

  /** The options after `getopt`: a string option is NULL unless given
      (`-n` sets the message to the empty string), and `-q` and `-T` hold
      the `atoi` value of their argument, 0 when absent. */
  datatype Args = Args(
    clientId: Option<Bytes>,     // -i
    message: Option<Bytes>,      // -m, -n
    qosArg: int,                 // -q
    retain: bool,                // -r
    topicName: Option<Bytes>,    // -t
    topicIdArg: int,             // -T
    willTopic: Option<Bytes>,    // -w
    willMessage: Option<Bytes>)  // -W

  /** The options when none is given. */
  const Defaults := Args(None, None, 0, false, None, 0, None, None)

  /** Where the publish goes: a topic name, or a predefined topic id. */
  datatype TopicSpec = Named(name: Bytes) | Predefined(id: U16)

  /** The validated session configuration. */
  datatype Config = Config(
    clientId: Option<Bytes>,
    topic: TopicSpec,
    message: Bytes,
    qos: Int8,
    retain: bool,
    willTopic: Option<Bytes>,
    willMessage: Option<Bytes>)

  datatype UsageError =
    | MissingParameter           // usage(): no topic or no message
    | UnsupportedQos(qos: Int8)  // "only QoS level 1, 0 or -1 is supported"
    | TopicNameAndId             // "either a topic id or a topic name, not both"
    | NoShortTopicForQosN1       // "a pre-defined topic id or a short topic name ... for QoS -1"

  /** `int8_t qos = atoi(optarg)`. */
  function ParsedQos(a: Args): Int8 { ToInt8(a.qosArg) }

  /** `uint16_t topic_id = atoi(optarg)`. */
  function ParsedTopicId(a: Args): U16 { ToU16(a.topicIdArg) }

  /** What `parse_opts` accepts, and everything it guarantees `main`. */
  predicate ValidConfig(c: Config)
  {
    && (c.qos == -1 || c.qos == 0 || c.qos == 1)
    && (c.topic.Predefined? ==> c.topic.id != 0)
    && (c.qos == -1 && c.topic.Named? ==> |c.topic.name| == 2)
  }

  /** A topic (a name, or a non-zero id) and a message are given. */
  predicate Present(a: Args)
  {
    (a.topicName.Some? || ParsedTopicId(a) != 0) && a.message.Some?
  }

  /** `parse_opts`, its checks in the code's order. A topic id of 0 counts
      as no topic id. */
  function ParseOpts(a: Args): (r: Result<Config, UsageError>)
    ensures r == Err(MissingParameter) <==>
              (a.topicName.None? && ParsedTopicId(a) == 0) || a.message.None?
    ensures r.Err? && r.error.UnsupportedQos? ==> r.error.qos == ParsedQos(a) && !(-1 <= ParsedQos(a) <= 1)
    ensures Present(a) && !(-1 <= ParsedQos(a) <= 1) ==> r == Err(UnsupportedQos(ParsedQos(a)))
    ensures Present(a) && -1 <= ParsedQos(a) <= 1 && a.topicName.Some? && ParsedTopicId(a) != 0 ==>
              r == Err(TopicNameAndId)
    ensures Present(a) && -1 <= ParsedQos(a) <= 1 && !(a.topicName.Some? && ParsedTopicId(a) != 0)
            && ParsedQos(a) == -1 && ParsedTopicId(a) == 0 && |a.topicName.value| != 2 ==>
              r == Err(NoShortTopicForQosN1)
    ensures r.Ok? <==>
              && (a.topicName.Some? || ParsedTopicId(a) != 0) && a.message.Some?
              && -1 <= ParsedQos(a) <= 1
              && !(a.topicName.Some? && ParsedTopicId(a) != 0)
              && !(ParsedQos(a) == -1 && ParsedTopicId(a) == 0 && |a.topicName.value| != 2)
    ensures r.Ok? ==> ValidConfig(r.value)
    ensures r.Ok? ==>
              && r.value.message == a.message.value
              && r.value.qos == ParsedQos(a)
              && r.value.topic == (if ParsedTopicId(a) != 0 then Predefined(ParsedTopicId(a)) else Named(a.topicName.value))
              && r.value.clientId == a.clientId && r.value.retain == a.retain
              && r.value.willTopic == a.willTopic && r.value.willMessage == a.willMessage
  {
    var qos := ParsedQos(a);
    var topicId := ParsedTopicId(a);
    if !(a.topicName.Some? || topicId != 0) || a.message.None? then Err(MissingParameter)
    else if qos != -1 && qos != 0 && qos != 1 then Err(UnsupportedQos(qos))
    else if a.topicName.Some? && topicId != 0 then Err(TopicNameAndId)
    else if qos == -1 && topicId == 0 && |a.topicName.value| != 2 then Err(NoShortTopicForQosN1)
    else
      var topic := if topicId != 0 then Predefined(topicId) else Named(a.topicName.value);
      Ok(Config(a.clientId, topic, a.message.value, qos, a.retain, a.willTopic, a.willMessage))
  }

  /** `-T 0`, and any `-T` whose value is a multiple of 65536, is the same as
      giving no topic id. */
  lemma TopicIdZeroIsAbsent(a: Args, k: int)
    ensures ParseOpts(a.(topicIdArg := k * 0x1_0000)) == ParseOpts(a.(topicIdArg := 0))
  {
  }

  /** `-q` is read modulo 256: `-q 257` is QoS 1 and `-q 255` is QoS -1. */
  lemma QosWrapsAtInt8(a: Args, k: int)
    ensures ParseOpts(a.(qosArg := a.qosArg + 256 * k)) == ParseOpts(a)
  {
    var b := a.(qosArg := a.qosArg + 256 * k);
    ToInt8Periodic(a.qosArg, k);
    assert ParsedQos(b) == ParsedQos(a);
    assert ParsedTopicId(b) == ParsedTopicId(a);
  }

  /** `-n` gives a message, the empty one: whatever the other options, it is
      a missing parameter only when the topic is missing, and otherwise
      the options are judged as with any other message, the empty message
      then being the one published. */
  lemma EmptyMessageIsPresent(a: Args, m: Bytes)
    requires a.message == Some([])
    ensures ParseOpts(a) == Err(MissingParameter) <==> a.topicName.None? && ParsedTopicId(a) == 0
    ensures ParseOpts(a).Ok? <==> ParseOpts(a.(message := Some(m))).Ok?
    ensures ParseOpts(a).Ok? ==> ParseOpts(a).value.message == []
  {
  }
}
