/** The publisher's session (`main` in mqtt-sn-pub.c): connect, with the
    will sub-handshake of section 6.2 of MQTT-SN v1.2 at QoS 1; topic
    resolution; PUBLISH, retried at QoS 1; DISCONNECT.

    The gateway is a script of replies: each receive takes the next one,
    `None` stands for a receive that timed out or returned an invalid
    packet, and a receive after the script has run out times out. A run
    returns the packets sent, in order, the warnings printed, and whether it
    ended normally or in an `exit`. */
module Session {
  import opened Wrappers
  import opened Octets
  import opened Protocol
  import opened Packets
  import opened Client
  import opened Options

  /** The keep-alive period the publisher puts in CONNECT, in seconds. */
  const KeepAlive: U16 := 1

  /** CONNECT flags at QoS 0: CleanSession. */
  const ConnectFlags: Octet := FlagClean
  /** CONNECT flags at QoS 1: CleanSession | Will. */
  const ConnectWillFlags: Octet := FlagClean + FlagWill
  /** WILLTOPIC flags: QoS 1 | Retain. */
  const WillTopicFlags: Octet := FlagQos1 + FlagRetain

  /** How a topic id is to be read, section 5.3.4 of MQTT-SN v1.2. */
  datatype IdKind = NormalId | PredefinedId | ShortId

  function TopicTypeCode(k: IdKind): (r: Octet)
    ensures r < 4
  {
    match k
    case NormalId => TopicTypeNormal
    case PredefinedId => TopicTypePredefined
    case ShortId => TopicTypeShort
  }

  /** The outcome of topic resolution. */
  datatype ResolvedTopic = ResolvedTopic(id: U16, kind: IdKind)

  datatype Warning =
    | RegackIdMismatch           // "message id in Regack does not equal message id sent"
    | PublishNotAcked(retries: nat)  // "QoS 1 and send not acked -- retrying.. (n/10)"
    | SendRequired(retries: nat)     // "Send required n times, but was successful."
    | DisconnectNotAcked         // "QoS >=0 and DISCONNECT not acked"

  datatype Fatal =
    | Usage(usage: UsageError)
    | SendFailed(send: SendError)
    | ConnackFailed(connack: AckError)
    | NoWillTopicReq             // "did not get MQTT_SN_TYPE_WILLTOPICREQ"
    | NoWillMsgReq               // "did not get MQTT_SN_TYPE_WILLMSGREQ"
    | RegackFailed(regack: AckError)
    | NotAcked(tries: nat)       // "QoS 1 and send not acked, tried n times"

  datatype Status = Completed | Failed(error: Fatal)

  /** What a run did: the packets it sent, its warnings, how it ended. */
  datatype Report = Report(sent: seq<Packet>, warnings: seq<Warning>, status: Status)

  /** The three ways a run can end as seen from outside. */
  datatype Outcome = OkClean | OkWithWarning | Fail

  function OutcomeOf(r: Report): (o: Outcome)
    ensures o == Fail <==> r.status.Failed?
    ensures o == OkWithWarning <==> r.status == Completed && |r.warnings| > 0
  {
    if r.status.Failed? then Fail
    else if |r.warnings| > 0 then OkWithWarning
    else OkClean
  }

  /** The session in progress: library state, replies still to come, and
      what has been sent and printed so far. */
  datatype Session = Session(client: Client, replies: seq<Option<Packet>>, sent: seq<Packet>, warnings: seq<Warning>)

  /** The end of a phase: carry on with a value, or stop at an `exit`. */
  datatype Step<T> = Continue(s: Session, value: T) | Abort(s: Session, error: Fatal)

  function Start(replies: seq<Option<Packet>>): Session
  {
    Session(Initial, replies, [], [])
  }

  /** The reply the next `mqtt_sn_receive_packet` gets. */
  function Next(s: Session): Option<Packet>
  {
    if |s.replies| == 0 then None else s.replies[0]
  }

  /** The session after that receive. */
  function Consume(s: Session): (r: Session)
    ensures r == s.(replies := r.replies)
    ensures |s.replies| == 0 ==> r == s
    ensures |s.replies| > 0 ==> r.replies == s.replies[1..]
  {
    if |s.replies| == 0 then s else s.(replies := s.replies[1..])
  }

  function Emit(s: Session, f: Frame): Session
  {
    s.(sent := s.sent + [f.packet])
  }

  function EmitSent(s: Session, r: Sent): Session
  {
    s.(client := r.client, sent := s.sent + [r.frame.packet])
  }

  function Warn(s: Session, w: Warning): Session
  {
    s.(warnings := s.warnings + [w])
  }

  /** Every packet sent has an encoding that fits the length octet. */
  predicate AllWellFormed(ps: seq<Packet>)
  {
    forall i :: 0 <= i < |ps| ==> WellFormed(ps[i])
  }

  /** A session `s'` that `s` can become: packets and warnings are only
      appended, replies only consumed, and the packets appended are
      well-formed. */
  predicate Extends(s: Session, s': Session)
  {
    && s.sent <= s'.sent
    && s.warnings <= s'.warnings
    && |s'.replies| <= |s.replies|
    && forall i :: |s.sent| <= i < |s'.sent| ==> WellFormed(s'.sent[i])
  }

  lemma ExtendsTransitive(s: Session, s': Session, s'': Session)
    requires Extends(s, s') && Extends(s', s'')
    ensures Extends(s, s'')
  {
    forall i | |s.sent| <= i < |s''.sent|
      ensures WellFormed(s''.sent[i])
    {
      if i < |s'.sent| {
        assert s''.sent[i] == s'.sent[i];
      }
    }
  }

  /** What `main` relies on beyond the validated options: a topic given by
      id has a non-zero id, and at QoS 1 the will topic and will message
      are not NULL. */
  predicate Runnable(cfg: Config)
  {
    && (cfg.topic.Predefined? ==> cfg.topic.id != 0)
    && (cfg.qos == 1 ==> cfg.willTopic.Some? && cfg.willMessage.Some?)
  }

  /** The final step of both handshakes: the next reply must be an accepting
      CONNACK. */
  function AwaitConnack(s: Session): (r: Step<()>)
    ensures r.s == Consume(s)
    ensures r.Continue? <==> Next(s) == Some(Connack(0))
    ensures r.Abort? ==> r.error.ConnackFailed?
  {
    match ReceiveConnack(Next(s))
    case Ok(_) => Continue(Consume(s), ())
    case Err(e) => Abort(Consume(s), ConnackFailed(e))
  }

  /** The will sub-handshake after CONNECT: WILLTOPIC only once a
      WILLTOPICREQ has arrived, WILLMSG only once a WILLMSGREQ has arrived,
      then CONNACK. */
  function WillHandshake(willTopic: Bytes, willMessage: Bytes, s: Session): (r: Step<()>)
    ensures Extends(s, r.s) && r.s.client == s.client && r.s.warnings == s.warnings
    ensures Next(s) != Some(WillTopicReq) ==> r == Abort(Consume(s), NoWillTopicReq)
    ensures Next(s) == Some(WillTopicReq) && |willTopic| <= MaxClientIdLength ==>
              |r.s.sent| > |s.sent| && r.s.sent[|s.sent|] == WillTopic(WillTopicFlags, willTopic)
    ensures Next(s) == Some(WillTopicReq) && |willTopic| <= MaxClientIdLength && Next(Consume(s)) != Some(WillMsgReq) ==>
              r.Abort? && r.error == NoWillMsgReq && r.s.sent == s.sent + [WillTopic(WillTopicFlags, willTopic)]
    ensures |r.s.sent| <= |s.sent| + 2
    ensures forall i :: |s.sent| <= i < |r.s.sent| ==> r.s.sent[i].WillTopic? || r.s.sent[i].WillMsg?
  {
    if Next(s) == Some(WillTopicReq) then
      match SendWillTopic(willTopic, WillTopicFlags)
      case Err(e) => Abort(Consume(s), SendFailed(e))
      case Ok(wt) =>
        var s1 := Emit(Consume(s), wt);
        assert Next(s1) == Next(Consume(s));
        if Next(s1) == Some(WillMsgReq) then
          match SendWillMsg(willMessage)
          case Err(e) => Abort(Consume(s1), SendFailed(e))
          case Ok(wm) => AwaitConnack(Emit(Consume(s1), wm))
        else Abort(Consume(s1), NoWillMsgReq)
    else Abort(Consume(s), NoWillTopicReq)
  }

  /** The connect handshake. QoS 0: CONNECT with CleanSession, then CONNACK.
      QoS 1: CONNECT with CleanSession and Will, then the will
      sub-handshake. Any other QoS: no handshake. */
  function Handshake(cfg: Config, pid: nat, s: Session): (r: Step<()>)
    requires Runnable(cfg)
    ensures Extends(s, r.s) && r.s.client == s.client && r.s.warnings == s.warnings
    ensures cfg.qos != 0 && cfg.qos != 1 ==> r == Continue(s, ())
    ensures |r.s.sent| <= |s.sent| + 3
    ensures forall i :: |s.sent| <= i < |r.s.sent| ==>
              r.s.sent[i].Connect? || r.s.sent[i].WillTopic? || r.s.sent[i].WillMsg?
  {
    if cfg.qos == 0 then
      match SendConnect(cfg.clientId, ConnectFlags, KeepAlive, pid)
      case Err(e) => Abort(s, SendFailed(e))
      case Ok(f) => AwaitConnack(Emit(s, f))
    else if cfg.qos == 1 then
      match SendConnect(cfg.clientId, ConnectWillFlags, KeepAlive, pid)
      case Err(e) => Abort(s, SendFailed(e))
      case Ok(f) =>
        var s1 := Emit(s, f);
        var r := WillHandshake(cfg.willTopic.value, cfg.willMessage.value, s1);
        ExtendsTransitive(s, s1, r.s);
        r
    else Continue(s, ())
  }

  /** A two-character topic name packed into a topic id, first character in
      the high octet. */
  function PackShortTopic(name: Bytes): (r: U16)
    requires |name| == 2
    ensures r / 256 == name[0] && r % 256 == name[1]
  {
    (name[0] as int) * 256 + (name[1] as int)
  }

  /** The packing as written, `(topic_name[0] << 8) + topic_name[1]`, with
      `char` signed, then stored in a `uint16_t`. A negative first character
      makes the shift undefined in C; this is the two's-complement result
      gcc and clang give. */
  function ShortTopicIdAsWritten(name: Bytes): U16
    requires |name| == 2
  {
    ToU16(SignedChar(name[0]) * 256 + SignedChar(name[1]))
  }

  /** As written, the packing is right exactly when the second character is
      ASCII; "AB" gives 0x4142, but "A\xE9" gives 0x40E9 instead of
      0x41E9. */
  lemma ShortTopicIdSignedChar(name: Bytes)
    requires |name| == 2
    ensures ShortTopicIdAsWritten(name) == PackShortTopic(name) <==> name[1] < 128
    ensures name[1] >= 128 ==> ShortTopicIdAsWritten(name) == (PackShortTopic(name) + 0xFF00) % 0x1_0000
    ensures ShortTopicIdAsWritten([0x41, 0x42]) == PackShortTopic([0x41, 0x42]) == 0x4142
    ensures ShortTopicIdAsWritten([0x41, 0xE9]) == 0x40E9 != PackShortTopic([0x41, 0xE9])
  {
    var s0 := SignedChar(name[0]);
    if name[0] >= 128 {
      assert s0 * 256 + SignedChar(name[1]) == PackShortTopic(name) - 0x1_0000 + (SignedChar(name[1]) - name[1]);
    } else {
      assert s0 * 256 + SignedChar(name[1]) == PackShortTopic(name) + (SignedChar(name[1]) - name[1]);
    }
  }

  /** Packing is one-to-one: distinct short names give distinct ids. */
  lemma PackShortTopicInjective(a: Bytes, b: Bytes)
    requires |a| == 2 && |b| == 2 && PackShortTopic(a) == PackShortTopic(b)
    ensures a == b
  {
  }

  /** Topic resolution: a topic id is used as predefined; a two-character
      name is packed as a short topic; any other name is registered when
      the QoS is 0 or more. At QoS -1 a longer name, which the options
      checks exclude, falls through with topic id 0, as in the code. */
  function Resolve(cfg: Config, s: Session): (r: Step<ResolvedTopic>)
    requires Runnable(cfg)
    ensures Extends(s, r.s) && r.s.client.topics == s.client.topics
    ensures cfg.topic.Predefined? ==> r == Continue(s, ResolvedTopic(cfg.topic.id, PredefinedId))
    ensures cfg.topic.Named? && |cfg.topic.name| == 2 ==>
              r == Continue(s, ResolvedTopic(PackShortTopic(cfg.topic.name), ShortId))
    ensures cfg.topic.Named? && |cfg.topic.name| != 2 && cfg.qos >= 0 ==>
              && (|cfg.topic.name| <= MaxTopicLength ==>
                    r.s.sent == s.sent + [Register(0, s.client.nextMessageId, cfg.topic.name)])
              && (r.Continue? <==>
                    |cfg.topic.name| <= MaxTopicLength && |s.replies| > 0 && s.replies[0].Some?
                    && s.replies[0].value.Regack? && s.replies[0].value.returnCode == 0)
              && (r.Continue? ==> r.value == ResolvedTopic(s.replies[0].value.topicId, NormalId))
    ensures r.s.sent == s.sent || |r.s.sent| == |s.sent| + 1
    ensures |r.s.sent| == |s.sent| + 1 ==> r.s.sent[|s.sent|].Register?
  {
    match cfg.topic
    case Predefined(id) => Continue(s, ResolvedTopic(id, PredefinedId))
    case Named(n) =>
      if |n| == 2 then Continue(s, ResolvedTopic(PackShortTopic(n), ShortId))
      else if cfg.qos >= 0 then
        match SendRegister(s.client, n)
        case Err(e) => Abort(s, SendFailed(e))
        case Ok(sent) =>
          var s0 := EmitSent(s, sent);
          var s1 := Consume(s0);
          match ReceiveRegack(s1.client, Next(s0))
          case Err(e) => Abort(s1, RegackFailed(e))
          case Ok(ack) =>
            Continue(if ack.idMismatch then Warn(s1, RegackIdMismatch) else s1, ResolvedTopic(ack.topicId, NormalId))
      else Continue(s, ResolvedTopic(0, NormalId))
  }

  /** The PUBLISH that `mqtt_sn_send_publish` builds for this session with
      message id `messageId`. */
  function PublishPacket(cfg: Config, t: ResolvedTopic, messageId: U16): Packet
  {
    Publish(ComposeFlags(cfg.retain, QosFlag(cfg.qos), TopicTypeCode(t.kind)), t.id, messageId, cfg.message)
  }

  function SendSessionPublish(cfg: Config, t: ResolvedTopic, c: Client): (r: Result<Sent, SendError>)
    ensures r.Err? <==> |cfg.message| > MaxPayloadLength
    ensures r.Ok? ==> r.value.frame.packet == PublishPacket(cfg, t, c.nextMessageId)
    ensures r.Ok? ==> WellFormed(r.value.frame.packet)
    ensures r.Ok? ==> r.value.client == c.(nextMessageId := (c.nextMessageId + 1) % 0x1_0000)
  {
    SendPublish(c, t.id, TopicTypeCode(t.kind), cfg.message, cfg.qos, cfg.retain)
  }

  /** The QoS 1 wait for PUBACK: a reply that is a PUBACK ends it; otherwise
      the code warns, gives up once the retry counter has passed 10 and
      otherwise sends the PUBLISH again, with a new message id. */
  function AwaitPuback(cfg: Config, t: ResolvedTopic, s: Session, retries: nat): (r: Step<()>)
    requires retries <= 11
    decreases 11 - retries
    ensures Extends(s, r.s) && r.s.client.topics == s.client.topics
    ensures |r.s.sent| <= |s.sent| + 11 - retries
    ensures forall i :: |s.sent| <= i < |r.s.sent| ==> r.s.sent[i].Publish?
    ensures r.Abort? && r.error.NotAcked? ==> r.error.tries == 12 && |r.s.sent| == |s.sent| + 11 - retries
  {
    var p := Next(s);
    var s1 := Consume(s);
    if p.Some? && p.value.Puback? then
      Continue(if retries > 0 then Warn(s1, SendRequired(retries)) else s1, ())
    else
      var s2 := Warn(s1, PublishNotAcked(retries));
      if retries > 10 then Abort(s2, NotAcked(retries + 1))
      else
        match SendSessionPublish(cfg, t, s2.client)
        case Err(e) => Abort(s2, SendFailed(e))
        case Ok(sent) =>
          var s3 := EmitSent(s2, sent);
          var r := AwaitPuback(cfg, t, s3, retries + 1);
          ExtendsTransitive(s, s3, r.s);
          r
  }

  /** The publish step: one PUBLISH, and at QoS 1 the wait for PUBACK. */
  function PublishStep(cfg: Config, t: ResolvedTopic, s: Session): (r: Step<()>)
    ensures Extends(s, r.s) && r.s.client.topics == s.client.topics
    ensures |r.s.sent| <= |s.sent| + (if cfg.qos == 1 then 12 else 1)
    ensures forall i :: |s.sent| <= i < |r.s.sent| ==> r.s.sent[i].Publish?
    ensures |cfg.message| > MaxPayloadLength <==> r == Abort(s, SendFailed(PayloadTooBig))
    ensures cfg.qos != 1 && |cfg.message| <= MaxPayloadLength ==>
              r.Continue? && r.s.sent == s.sent + [PublishPacket(cfg, t, s.client.nextMessageId)]
              && r.s.replies == s.replies && r.s.warnings == s.warnings
  {
    match SendSessionPublish(cfg, t, s.client)
    case Err(e) => Abort(s, SendFailed(e))
    case Ok(sent) =>
      var s1 := EmitSent(s, sent);
      if cfg.qos == 1 then
        var r := AwaitPuback(cfg, t, s1, 0);
        ExtendsTransitive(s, s1, r.s);
        r
      else Continue(s1, ())
  }

  /** The disconnect step, at QoS 0 or more: DISCONNECT, then a receive; a
      missing or wrong reply is only a warning. */
  function DisconnectStep(cfg: Config, s: Session): (r: Session)
    ensures Extends(s, r) && r.client == s.client
    ensures cfg.qos < 0 ==> r == s
    ensures cfg.qos >= 0 ==> r.sent == s.sent + [Disconnect]
    ensures cfg.qos >= 0 ==>
              r.warnings == s.warnings + (if |s.replies| > 0 && s.replies[0] == Some(Disconnect) then [] else [DisconnectNotAcked])
  {
    if cfg.qos >= 0 then
      var s0 := Emit(s, SendDisconnect());
      if Next(s0) == Some(Disconnect) then Consume(s0) else Warn(Consume(s0), DisconnectNotAcked)
    else s
  }

  function Stop(s: Session, e: Fatal): Report
  {
    Report(s.sent, s.warnings, Failed(e))
  }

  /** The packets of a report that go beyond those of session `s`, all
      of which fit their length octet. */
  predicate Continues(s: Session, r: Report)
  {
    s.sent <= r.sent && forall i :: |s.sent| <= i < |r.sent| ==> WellFormed(r.sent[i])
  }

  /** The rest of `main` once the topic is resolved: publish, then
      disconnect. */
  function Deliver(cfg: Config, t: ResolvedTopic, s: Session): (r: Report)
    ensures Continues(s, r)
    ensures r.status == Completed && cfg.qos >= 0 ==> |r.sent| > 0 && r.sent[|r.sent| - 1] == Disconnect
  {
    match PublishStep(cfg, t, s)
    case Abort(s1, e) => Stop(s1, e)
    case Continue(s1, _) =>
      var s2 := DisconnectStep(cfg, s1);
      ExtendsTransitive(s, s1, s2);
      Report(s2.sent, s2.warnings, Completed)
  }

  /** The rest of `main` once connected: resolve the topic, then
      deliver. */
  function Proceed(cfg: Config, s: Session): (r: Report)
    requires Runnable(cfg)
    ensures Continues(s, r)
    ensures r.status == Completed && cfg.qos >= 0 ==> |r.sent| > 0 && r.sent[|r.sent| - 1] == Disconnect
  {
    match Resolve(cfg, s)
    case Abort(s1, e) => Stop(s1, e)
    case Continue(s1, t) =>
      var r := Deliver(cfg, t, s1);
      assert Continues(s, r) by {
        forall i | |s.sent| <= i < |r.sent|
          ensures WellFormed(r.sent[i])
        {
          if i < |s1.sent| {
            assert r.sent[i] == s1.sent[i];
          }
        }
      }
      r
  }

  /** `main` after `parse_opts`, from program start. */
  function Run(cfg: Config, pid: nat, replies: seq<Option<Packet>>): (r: Report)
    requires Runnable(cfg)
    ensures AllWellFormed(r.sent)
    ensures r.status == Completed && cfg.qos >= 0 ==> |r.sent| > 0 && r.sent[|r.sent| - 1] == Disconnect
  {
    match Handshake(cfg, pid, Start(replies))
    case Abort(s, e) => Stop(s, e)
    case Continue(s1, _) =>
      var r := Proceed(cfg, s1);
      assert AllWellFormed(r.sent) by {
        forall i | 0 <= i < |r.sent|
          ensures WellFormed(r.sent[i])
        {
          if i < |s1.sent| {
            assert r.sent[i] == s1.sent[i];
          }
        }
      }
      r
  }

  /** The whole program: option checks, then the session. A usage error
      ends the program before any packet is sent. */
  function Main(a: Args, pid: nat, replies: seq<Option<Packet>>): (r: Report)
    requires ParseOpts(a).Ok? && ParseOpts(a).value.qos == 1 ==>
               a.willTopic.Some? && a.willMessage.Some?
    ensures ParseOpts(a).Err? ==> r == Report([], [], Failed(Usage(ParseOpts(a).error)))
    ensures AllWellFormed(r.sent)
  {
    match ParseOpts(a)
    case Err(u) => Report([], [], Failed(Usage(u)))
    case Ok(cfg) => Run(cfg, pid, replies)
  }
}
