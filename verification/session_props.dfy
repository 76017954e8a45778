/** Properties of the publisher's session: what it sends, in which order,
    how often PUBLISH is retried, and how each run ends. */
module SessionProps {
  import opened Wrappers
  import opened Octets
  import opened Protocol
  import opened Packets
  import opened Client
  import opened Options
  import opened Session

  /** The i-th reply of a script; a receive past its end times out. */
  function At(replies: seq<Option<Packet>>, i: nat): Option<Packet>
  {
    if i < |replies| then replies[i] else None
  }

  predicate IsPuback(p: Option<Packet>)
  {
    p.Some? && p.value.Puback?
  }

  lemma AtConsume(s: Session, i: nat)
    ensures At(Consume(s).replies, i) == At(s.replies, i + 1)
    ensures Next(s) == At(s.replies, 0)
  {
  }

  /** The "retrying" warnings for retry counters `from`, `from + 1`, ... */
  function NotAckedWarnings(from: nat, n: nat): (r: seq<Warning>)
    ensures |r| == n
    ensures forall i :: 0 <= i < n ==> r[i] == PublishNotAcked(from + i)
  {
    seq(n, i requires 0 <= i < n => PublishNotAcked(from + i))
  }

  /** The "required" warning after `n` resends, if there were any. */
  function Required(n: nat): seq<Warning>
  {
    if n > 0 then [SendRequired(n)] else []
  }

  /** The session after a missed PUBACK and the resend that follows it. */
  function Resent(cfg: Config, t: ResolvedTopic, s: Session, retries: nat): Session
  {
    Session(s.client.(nextMessageId := (s.client.nextMessageId + 1) % 0x1_0000), Consume(s).replies,
            s.sent + [PublishPacket(cfg, t, s.client.nextMessageId)], s.warnings + [PublishNotAcked(retries)])
  }

  /** One turn of the retry loop: no PUBACK, counter not past 10, resend. */
  lemma AwaitPubackResends(cfg: Config, t: ResolvedTopic, s: Session, retries: nat)
    requires retries <= 10 && |cfg.message| <= MaxPayloadLength && !IsPuback(Next(s))
    ensures AwaitPuback(cfg, t, s, retries) == AwaitPuback(cfg, t, Resent(cfg, t, s, retries), retries + 1)
  {
    var s2 := Warn(Consume(s), PublishNotAcked(retries));
    assert EmitSent(s2, SendSessionPublish(cfg, t, s2.client).value) == Resent(cfg, t, s, retries);
  }

  /** The session once a PUBACK has been received after `retries` misses. */
  function Acked(s: Session, retries: nat): (r: Session)
    ensures r.sent == s.sent && r.client == s.client
    ensures r.replies == Consume(s).replies
    ensures r.warnings == s.warnings + Required(retries)
  {
    if retries > 0 then Warn(Consume(s), SendRequired(retries)) else Consume(s)
  }

  /** The loop ends at a PUBACK. */
  lemma AwaitPubackStops(cfg: Config, t: ResolvedTopic, s: Session, retries: nat)
    requires retries <= 11 && IsPuback(Next(s))
    ensures AwaitPuback(cfg, t, s, retries) == Continue(Acked(s, retries), ())
  {
  }

  /** The loop gives up when the counter is past 10. */
  lemma AwaitPubackGivesUp(cfg: Config, t: ResolvedTopic, s: Session)
    requires !IsPuback(Next(s))
    ensures AwaitPuback(cfg, t, s, 11) == Abort(Warn(Consume(s), PublishNotAcked(11)), NotAcked(12))
  {
  }

  /** The session after `k` turns of the loop that each miss the PUBACK
      and resend, starting from counter `retries`. */
  function Resends(cfg: Config, t: ResolvedTopic, s: Session, retries: nat, k: nat): Session
    requires |cfg.message| <= MaxPayloadLength
    decreases k
  {
    if k == 0 then s else Resends(cfg, t, Resent(cfg, t, s, retries), retries + 1, k - 1)
  }

  /** None of the first `k` replies is a PUBACK. */
  predicate NoPuback(replies: seq<Option<Packet>>, k: nat)
  {
    forall i :: 0 <= i < k ==> !IsPuback(At(replies, i))
  }

  /** A miss: the next reply is no PUBACK, and one fewer is left to skip. */
  lemma NoPubackConsume(s: Session, k: nat)
    requires k > 0 && NoPuback(s.replies, k)
    ensures !IsPuback(Next(s)) && NoPuback(Consume(s).replies, k - 1)
  {
    AtConsume(s, 0);
    forall i | 0 <= i < k - 1
      ensures !IsPuback(At(Consume(s).replies, i))
    {
      AtConsume(s, i);
    }
  }

  /** `k` misses in a row run the loop through `k` resends, to counter
      `end`. */
  lemma {:induction false} AwaitPubackSkips(cfg: Config, t: ResolvedTopic, s: Session, retries: nat, k: nat, end: nat)
    requires end == retries + k && end <= 11 && |cfg.message| <= MaxPayloadLength
    requires NoPuback(s.replies, k)
    ensures AwaitPuback(cfg, t, s, retries) == AwaitPuback(cfg, t, Resends(cfg, t, s, retries, k), end)
    decreases k
  {
    if k > 0 {
      NoPubackConsume(s, k);
      AwaitPubackResends(cfg, t, s, retries);
      AwaitPubackSkips(cfg, t, Resent(cfg, t, s, retries), retries + 1, k - 1, end);
    }
  }

  /** The resends are the session's PUBLISH with consecutive message ids
      from the counter, and the counter ends one past the last id used;
      nothing else in the library state changes. */
  lemma {:induction false} ResendsSent(cfg: Config, t: ResolvedTopic, s: Session, retries: nat, k: nat)
    requires |cfg.message| <= MaxPayloadLength
    ensures var r := Resends(cfg, t, s, retries, k);
            && s.sent <= r.sent
            && Publishes(r.sent[|s.sent|..], cfg, t, s.client.nextMessageId, k)
            && r.client == s.client.(nextMessageId := (s.client.nextMessageId + k) % 0x1_0000)
    decreases k
  {
    if k > 0 {
      var n := s.client.nextMessageId;
      var s3 := Resent(cfg, t, s, retries);
      var r := Resends(cfg, t, s3, retries + 1, k - 1);
      ResendsSent(cfg, t, s3, retries + 1, k - 1);
      PublishesCons(cfg, t, s.sent, n, r.sent, k - 1);
      ModNext(n, k - 1);
    }
  }

  /** Each miss prints one "retrying" warning, numbered from the counter. */
  lemma {:induction false} ResendsWarnings(cfg: Config, t: ResolvedTopic, s: Session, retries: nat, k: nat)
    requires |cfg.message| <= MaxPayloadLength
    ensures Resends(cfg, t, s, retries, k).warnings == s.warnings + NotAckedWarnings(retries, k)
    decreases k
  {
    if k > 0 {
      var s3 := Resent(cfg, t, s, retries);
      ResendsWarnings(cfg, t, s3, retries + 1, k - 1);
      NotAckedWarningsCons(retries, k);
      WarningsAssoc(s.warnings, PublishNotAcked(retries), NotAckedWarnings(retries + 1, k - 1));
    }
  }

  /** Each miss consumes one reply. */
  lemma {:induction false} ResendsReplies(cfg: Config, t: ResolvedTopic, s: Session, retries: nat, k: nat)
    requires |cfg.message| <= MaxPayloadLength
    ensures var r := Resends(cfg, t, s, retries, k);
            && (k <= |s.replies| ==> r.replies == s.replies[k..])
            && Next(r) == At(s.replies, k)
    decreases k
  {
    if k > 0 {
      var s3 := Resent(cfg, t, s, retries);
      ResendsReplies(cfg, t, s3, retries + 1, k - 1);
      AtConsume(s, k - 1);
      if k <= |s.replies| {
        assert s3.replies[k - 1..] == s.replies[k..];
      }
    }
  }

  lemma PublishesCons(cfg: Config, t: ResolvedTopic, before: seq<Packet>, n: U16, after: seq<Packet>, m: nat)
    requires before + [PublishPacket(cfg, t, n)] <= after
    requires Publishes(after[|before| + 1..], cfg, t, (n + 1) % 0x1_0000, m)
    ensures before <= after && Publishes(after[|before|..], cfg, t, n, m + 1)
  {
    var ps := after[|before|..];
    forall i | 0 <= i < m + 1
      ensures ps[i] == PublishPacket(cfg, t, (n + i) % 0x1_0000)
    {
      if i == 0 {
        assert ps[0] == (before + [PublishPacket(cfg, t, n)])[|before|];
      } else {
        assert ps[i] == after[|before| + 1..][i - 1];
        ModNext(n, i - 1);
      }
    }
  }

  lemma WarningsAssoc(a: seq<Warning>, x: Warning, b: seq<Warning>)
    ensures a + [x] + b == a + ([x] + b)
  {
  }

  lemma NotAckedWarningsCons(from: nat, n: nat)
    requires n > 0
    ensures NotAckedWarnings(from, n) == [PublishNotAcked(from)] + NotAckedWarnings(from + 1, n - 1)
  {
    assert NotAckedWarnings(from, n)[1..] == NotAckedWarnings(from + 1, n - 1);
  }

  lemma NotAckedWarningsSnoc(a: seq<Warning>, from: nat, n: nat)
    ensures a + NotAckedWarnings(from, n) + [PublishNotAcked(from + n)] == a + NotAckedWarnings(from, n + 1)
  {
    assert NotAckedWarnings(from, n) + [PublishNotAcked(from + n)] == NotAckedWarnings(from, n + 1);
  }

  lemma ModNext(n: U16, j: int)
    ensures ((n + 1) % 0x1_0000 + j) % 0x1_0000 == (n + 1 + j) % 0x1_0000
  {
  }

  /** If the first `k` replies are not PUBACK and the next one is, the wait
      succeeds after exactly `k` resends, having consumed `k + 1` replies. */
  lemma AwaitPubackAcked(cfg: Config, t: ResolvedTopic, s: Session, retries: nat, k: nat)
    requires retries + k <= 11 && |cfg.message| <= MaxPayloadLength
    requires forall i :: 0 <= i < k ==> !IsPuback(At(s.replies, i))
    requires IsPuback(At(s.replies, k))
    ensures k < |s.replies|
    ensures AwaitPuback(cfg, t, s, retries) == Continue(Acked(Resends(cfg, t, s, retries, k), retries + k), ())
  {
    AwaitPubackSkips(cfg, t, s, retries, k, retries + k);
    ResendsReplies(cfg, t, s, retries, k);
    AwaitPubackStops(cfg, t, Resends(cfg, t, s, retries, k), retries + k);
  }

  /** If no PUBACK comes in the receives that are left, the wait resends
      until the counter is past 10 and then fails with "tried 12 times". */
  lemma AwaitPubackExhausted(cfg: Config, t: ResolvedTopic, s: Session, retries: nat, k: nat)
    requires retries + k == 11 && |cfg.message| <= MaxPayloadLength
    requires forall i :: 0 <= i < k + 1 ==> !IsPuback(At(s.replies, i))
    ensures AwaitPuback(cfg, t, s, retries) ==
              Abort(Warn(Consume(Resends(cfg, t, s, retries, k)), PublishNotAcked(11)), NotAcked(12))
  {
    AwaitPubackSkips(cfg, t, s, retries, k, 11);
    ResendsReplies(cfg, t, s, retries, k);
    AwaitPubackGivesUp(cfg, t, Resends(cfg, t, s, retries, k));
  }

  /** The topic a run uses without asking the gateway, when it has one. */
  function LocalTopic(cfg: Config): ResolvedTopic
    requires cfg.topic.Predefined? || |cfg.topic.name| == 2
  {
    match cfg.topic
    case Predefined(id) => ResolvedTopic(id, PredefinedId)
    case Named(n) => ResolvedTopic(PackShortTopic(n), ShortId)
  }

  /** The client id CONNECT carries. */
  function ConnectId(cfg: Config, pid: nat): Bytes
  {
    if cfg.clientId.None? || |cfg.clientId.value| == 0 then DefaultClientId(pid) else cfg.clientId.value
  }

  predicate ClientIdFits(cfg: Config)
  {
    cfg.clientId.None? || |cfg.clientId.value| <= MaxClientIdLength
  }

  /** At QoS -1 with validated options, the only packet ever sent is one
      PUBLISH with QoS bits -1, and the run ends without a warning; a payload
      too big for the packet is fatal before anything is sent. */
  lemma QosMinusOneSendsOnePublish(cfg: Config, pid: nat, replies: seq<Option<Packet>>)
    requires ValidConfig(cfg) && cfg.qos == -1
    ensures Runnable(cfg)
    ensures var r := Run(cfg, pid, replies);
            && (|cfg.message| <= MaxPayloadLength ==>
                  r == Report([PublishPacket(cfg, LocalTopic(cfg), 1)], [], Completed))
            && (|cfg.message| > MaxPayloadLength ==>
                  r == Report([], [], Failed(SendFailed(PayloadTooBig))))
  {
  }

  /** At QoS -1, whatever the configuration, no CONNECT, WILLTOPIC, WILLMSG,
      REGISTER or DISCONNECT is sent, and at most one PUBLISH. */
  lemma QosMinusOneNoSession(cfg: Config, pid: nat, replies: seq<Option<Packet>>)
    requires Runnable(cfg) && cfg.qos == -1
    ensures var r := Run(cfg, pid, replies);
            |r.sent| <= 1 && forall i :: 0 <= i < |r.sent| ==> r.sent[i].Publish?
  {
    var s0 := Start(replies);
    assert Handshake(cfg, pid, s0) == Continue(s0, ());
    var st := Resolve(cfg, s0);
    assert st.Continue? && st.s == s0;
  }

  /** QoS 0: CONNECT with CleanSession only, then the next reply must be an
      accepting CONNACK; a client id too long is fatal before anything is
      sent. */
  lemma Qos0Handshake(cfg: Config, pid: nat, s: Session)
    requires Runnable(cfg) && cfg.qos == 0
    ensures var r := Handshake(cfg, pid, s);
            && (!ClientIdFits(cfg) ==> r == Abort(s, SendFailed(ClientIdTooLong)))
            && (ClientIdFits(cfg) ==>
                  && r.s == Consume(s).(sent := s.sent + [Connect(ConnectFlags, ProtocolId, KeepAlive, ConnectId(cfg, pid))])
                  && (r.Continue? <==> Next(s) == Some(Connack(0)))
                  && (r.Abort? ==> r.error.ConnackFailed?))
  {
  }

  /** The CONNECT the QoS 1 handshake sends. */
  function WillConnect(cfg: Config, pid: nat): Packet
  {
    Connect(ConnectWillFlags, ProtocolId, KeepAlive, ConnectId(cfg, pid))
  }

  /** QoS 1: CONNECT with CleanSession and Will, then the will
      sub-handshake; a client id too long is fatal before anything is
      sent. */
  lemma Qos1Handshake(cfg: Config, pid: nat, s: Session)
    requires Runnable(cfg) && cfg.qos == 1
    ensures var r := Handshake(cfg, pid, s);
            && (!ClientIdFits(cfg) ==> r == Abort(s, SendFailed(ClientIdTooLong)))
            && (ClientIdFits(cfg) ==>
                  r == WillHandshake(cfg.willTopic.value, cfg.willMessage.value, s.(sent := s.sent + [WillConnect(cfg, pid)])))
  {
  }

  /** The will sub-handshake succeeds exactly when the script holds a
      WILLTOPICREQ, a WILLMSGREQ and an accepting CONNACK, in that order,
      and both will fields fit their packets; it then has sent WILLTOPIC
      (QoS 1, Retain) and WILLMSG and consumed three replies. WILLTOPIC is
      only ever sent after a WILLTOPICREQ, WILLMSG only after a
      WILLMSGREQ. */
  lemma WillHandshakeOrder(willTopic: Bytes, willMessage: Bytes, s: Session)
    ensures var r := WillHandshake(willTopic, willMessage, s);
            && (r.Continue? <==>
                  && At(s.replies, 0) == Some(WillTopicReq) && |willTopic| <= MaxClientIdLength
                  && At(s.replies, 1) == Some(WillMsgReq) && |willMessage| <= MaxPayloadLength
                  && At(s.replies, 2) == Some(Connack(0)))
            && (r.Continue? ==>
                  r.s.sent == s.sent + [WillTopic(WillTopicFlags, willTopic), WillMsg(willMessage)]
                  && r.s.replies == s.replies[3..])
            && (|r.s.sent| > |s.sent| ==> At(s.replies, 0) == Some(WillTopicReq))
            && (|r.s.sent| > |s.sent| + 1 ==> At(s.replies, 1) == Some(WillMsgReq) && r.s.sent[|s.sent| + 1] == WillMsg(willMessage))
  {
    AtConsume(s, 0);
    AtConsume(s, 1);
    AtConsume(Consume(s), 0);
    AtConsume(Consume(s), 1);
    var s1 := Consume(s);
    AtConsume(Consume(s1), 0);
  }

  /** Each way the will sub-handshake can fail is its own fatal error: no
      WILLTOPICREQ first, a will topic too long, no WILLMSGREQ second, a
      will message too big, or no accepting CONNACK third. */
  lemma WillHandshakeFatal(willTopic: Bytes, willMessage: Bytes, s: Session)
    ensures var r := WillHandshake(willTopic, willMessage, s);
            && (At(s.replies, 0) != Some(WillTopicReq) ==> r.Abort? && r.error == NoWillTopicReq)
            && (At(s.replies, 0) == Some(WillTopicReq) && |willTopic| > MaxClientIdLength ==>
                  r.Abort? && r.error == SendFailed(WillTopicTooLong))
            && (At(s.replies, 0) == Some(WillTopicReq) && |willTopic| <= MaxClientIdLength
                && At(s.replies, 1) != Some(WillMsgReq) ==>
                  r.Abort? && r.error == NoWillMsgReq)
            && (At(s.replies, 0) == Some(WillTopicReq) && |willTopic| <= MaxClientIdLength
                && At(s.replies, 1) == Some(WillMsgReq) && |willMessage| > MaxPayloadLength ==>
                  r.Abort? && r.error == SendFailed(PayloadTooBig))
            && (At(s.replies, 0) == Some(WillTopicReq) && |willTopic| <= MaxClientIdLength
                && At(s.replies, 1) == Some(WillMsgReq) && |willMessage| <= MaxPayloadLength
                && At(s.replies, 2) != Some(Connack(0)) ==>
                  r.Abort? && r.error.ConnackFailed?)
  {
    AtConsume(s, 0);
    AtConsume(s, 1);
    AtConsume(Consume(s), 0);
    AtConsume(Consume(s), 1);
  }

  /** `n` PUBLISH packets of the session with consecutive message ids from
      `first`. */
  predicate Publishes(ps: seq<Packet>, cfg: Config, t: ResolvedTopic, first: U16, n: nat)
  {
    |ps| == n && forall i :: 0 <= i < n ==> ps[i] == PublishPacket(cfg, t, (first + i) % 0x1_0000)
  }

  /** The session after the first PUBLISH, `k` resends and the PUBACK
      that ends the wait. */
  function AckedAfter(cfg: Config, t: ResolvedTopic, s: Session, k: nat): Session
    requires |cfg.message| <= MaxPayloadLength
  {
    Acked(Resends(cfg, t, FirstPublish(cfg, t, s), 0, k), k)
  }

  /** The QoS 1 publish step when the `k + 1`-th reply is the first PUBACK
      ends there ... */
  lemma PublishStepAcked(cfg: Config, t: ResolvedTopic, s: Session, k: nat)
    requires cfg.qos == 1 && |cfg.message| <= MaxPayloadLength && k <= 11
    requires forall i :: 0 <= i < k ==> !IsPuback(At(s.replies, i))
    requires IsPuback(At(s.replies, k))
    ensures k < |s.replies|
    ensures PublishStep(cfg, t, s) == Continue(AckedAfter(cfg, t, s, k), ())
  {
    PublishStepAwaits(cfg, t, s);
    AwaitPubackAcked(cfg, t, FirstPublish(cfg, t, s), 0, k);
  }

  /** ... having sent `k + 1` PUBLISH packets with consecutive message ids,
      leaving the counter one past the last ... */
  lemma AckedAfterSent(cfg: Config, t: ResolvedTopic, s: Session, k: nat)
    requires |cfg.message| <= MaxPayloadLength
    ensures var a := AckedAfter(cfg, t, s, k);
            && s.sent <= a.sent
            && Publishes(a.sent[|s.sent|..], cfg, t, s.client.nextMessageId, k + 1)
            && a.client == s.client.(nextMessageId := (s.client.nextMessageId + k + 1) % 0x1_0000)
  {
    FirstPublishResends(cfg, t, s, k);
  }

  /** ... consumed `k + 1` replies ... */
  lemma AckedAfterReplies(cfg: Config, t: ResolvedTopic, s: Session, k: nat)
    requires |cfg.message| <= MaxPayloadLength && k < |s.replies|
    ensures AckedAfter(cfg, t, s, k).replies == s.replies[k + 1..]
  {
    var r := Resends(cfg, t, FirstPublish(cfg, t, s), 0, k);
    ResendsReplies(cfg, t, FirstPublish(cfg, t, s), 0, k);
    assert r.replies[1..] == s.replies[k + 1..];
  }

  /** ... and printed one "retrying" warning per miss, then "send required"
      exactly when there was a miss. */
  lemma AckedAfterWarnings(cfg: Config, t: ResolvedTopic, s: Session, k: nat)
    requires |cfg.message| <= MaxPayloadLength
    ensures AckedAfter(cfg, t, s, k).warnings == s.warnings + NotAckedWarnings(0, k) + Required(k)
  {
    ResendsWarnings(cfg, t, FirstPublish(cfg, t, s), 0, k);
  }

  /** The first PUBLISH and `k` resends: `k + 1` PUBLISH packets with
      consecutive message ids, and the counter one past the last. */
  lemma FirstPublishResends(cfg: Config, t: ResolvedTopic, s: Session, k: nat)
    requires |cfg.message| <= MaxPayloadLength
    ensures var r := Resends(cfg, t, FirstPublish(cfg, t, s), 0, k);
            && s.sent <= r.sent
            && Publishes(r.sent[|s.sent|..], cfg, t, s.client.nextMessageId, k + 1)
            && r.client == s.client.(nextMessageId := (s.client.nextMessageId + k + 1) % 0x1_0000)
  {
    var n := s.client.nextMessageId;
    var s1 := FirstPublish(cfg, t, s);
    var r := Resends(cfg, t, s1, 0, k);
    ResendsSent(cfg, t, s1, 0, k);
    var m := (n + 1) % 0x1_0000;
    assert s1.sent == s.sent + [PublishPacket(cfg, t, n)] && s1.client.nextMessageId == m;
    assert Publishes(r.sent[|s.sent| + 1..], cfg, t, m, k);
    PublishesCons(cfg, t, s.sent, n, r.sent, k);
    assert (m + k) % 0x1_0000 == (n + k + 1) % 0x1_0000 by { ModNext(n, k); }
    assert s1.client == s.client.(nextMessageId := m);
  }

  /** The session after the first PUBLISH, eleven resends and the twelfth
      miss. */
  function GaveUp(cfg: Config, t: ResolvedTopic, s: Session): Session
    requires |cfg.message| <= MaxPayloadLength
  {
    Warn(Consume(Resends(cfg, t, FirstPublish(cfg, t, s), 0, 11)), PublishNotAcked(11))
  }

  /** The QoS 1 publish step when no PUBACK comes in the next twelve
      receives ends in the fatal "tried 12 times" ... */
  lemma PublishStepGivesUp(cfg: Config, t: ResolvedTopic, s: Session)
    requires cfg.qos == 1 && |cfg.message| <= MaxPayloadLength
    requires forall i :: 0 <= i < 12 ==> !IsPuback(At(s.replies, i))
    ensures PublishStep(cfg, t, s) == Abort(GaveUp(cfg, t, s), NotAcked(12))
  {
    PublishStepAwaits(cfg, t, s);
    AwaitPubackExhausted(cfg, t, FirstPublish(cfg, t, s), 0, 11);
  }

  /** ... having sent twelve PUBLISH packets with consecutive message
      ids ... */
  lemma GaveUpSent(cfg: Config, t: ResolvedTopic, s: Session)
    requires |cfg.message| <= MaxPayloadLength
    ensures var g := GaveUp(cfg, t, s);
            s.sent <= g.sent && Publishes(g.sent[|s.sent|..], cfg, t, s.client.nextMessageId, 12)
  {
    FirstPublishResends(cfg, t, s, 11);
  }

  /** ... and printed one "retrying" warning per miss. */
  lemma GaveUpWarnings(cfg: Config, t: ResolvedTopic, s: Session)
    requires |cfg.message| <= MaxPayloadLength
    ensures GaveUp(cfg, t, s).warnings == s.warnings + NotAckedWarnings(0, 12)
  {
    ResendsWarnings(cfg, t, FirstPublish(cfg, t, s), 0, 11);
    NotAckedWarningsSnoc(s.warnings, 0, 11);
  }

  /** The session once the first PUBLISH is out. */
  function FirstPublish(cfg: Config, t: ResolvedTopic, s: Session): Session
  {
    s.(client := s.client.(nextMessageId := (s.client.nextMessageId + 1) % 0x1_0000),
       sent := s.sent + [PublishPacket(cfg, t, s.client.nextMessageId)])
  }

  lemma PublishStepAwaits(cfg: Config, t: ResolvedTopic, s: Session)
    requires cfg.qos == 1 && |cfg.message| <= MaxPayloadLength
    ensures PublishStep(cfg, t, s) == AwaitPuback(cfg, t, FirstPublish(cfg, t, s), 0)
  {
    assert EmitSent(s, SendSessionPublish(cfg, t, s.client).value) == FirstPublish(cfg, t, s);
  }

  /** A QoS 1 configuration whose CONNECT, will fields and payload all fit
      their packets and whose topic needs no REGISTER. */
  predicate Qos1Local(cfg: Config)
  {
    && Runnable(cfg) && cfg.qos == 1 && ClientIdFits(cfg)
    && |cfg.willTopic.value| <= MaxClientIdLength && |cfg.willMessage.value| <= MaxPayloadLength
    && |cfg.message| <= MaxPayloadLength
    && (cfg.topic.Predefined? || |cfg.topic.name| == 2)
  }

  /** The gateway's side of a successful QoS 1 handshake, then `rest`. */
  function WillScript(rest: seq<Option<Packet>>): seq<Option<Packet>>
  {
    [Some(WillTopicReq), Some(WillMsgReq), Some(Connack(0))] + rest
  }

  /** The session after a successful QoS 1 handshake. */
  function Qos1Session(cfg: Config, pid: nat, rest: seq<Option<Packet>>): Session
    requires cfg.willTopic.Some? && cfg.willMessage.Some?
  {
    Session(Initial, rest, [WillConnect(cfg, pid), WillTopic(WillTopicFlags, cfg.willTopic.value), WillMsg(cfg.willMessage.value)], [])
  }

  lemma Qos1Connected(cfg: Config, pid: nat, rest: seq<Option<Packet>>)
    requires Qos1Local(cfg)
    ensures Handshake(cfg, pid, Start(WillScript(rest))) == Continue(Qos1Session(cfg, pid, rest), ())
  {
    var s0 := Start(WillScript(rest));
    Qos1Handshake(cfg, pid, s0);
    var sc := s0.(sent := s0.sent + [WillConnect(cfg, pid)]);
    WillHandshakeOrder(cfg.willTopic.value, cfg.willMessage.value, sc);
    assert WillScript(rest)[3..] == rest;
  }

  /** After the handshake a run with a local topic goes straight to the
      publish. */
  lemma Qos1RunDelivers(cfg: Config, pid: nat, rest: seq<Option<Packet>>)
    requires Qos1Local(cfg)
    ensures Run(cfg, pid, WillScript(rest)) == Deliver(cfg, LocalTopic(cfg), Qos1Session(cfg, pid, rest))
  {
    var h := Qos1Session(cfg, pid, rest);
    Qos1Connected(cfg, pid, rest);
    RunConnects(cfg, pid, WillScript(rest), h);
    ProceedResolves(cfg, h, h, LocalTopic(cfg));
  }

  /** The session at the end of a run whose publish was acknowledged after
      `k` misses: DISCONNECT has been sent and its answer received. */
  function Finished(cfg: Config, t: ResolvedTopic, s: Session, k: nat): Session
    requires |cfg.message| <= MaxPayloadLength
  {
    DisconnectStep(cfg, AckedAfter(cfg, t, s, k))
  }

  /** Publish and disconnect at QoS 1 when the first PUBACK is reply
      `k + 1`: the run completes with the DISCONNECT step ... */
  lemma DeliverAcks(cfg: Config, t: ResolvedTopic, s: Session, k: nat)
    requires cfg.qos == 1 && |cfg.message| <= MaxPayloadLength && k <= 11
    requires forall i :: 0 <= i < k ==> !IsPuback(At(s.replies, i))
    requires IsPuback(At(s.replies, k))
    ensures k < |s.replies|
    ensures var f := Finished(cfg, t, s, k);
            Deliver(cfg, t, s) == Report(f.sent, f.warnings, Completed)
  {
    PublishStepAcked(cfg, t, s, k);
  }

  /** ... which sends `k + 1` PUBLISH with consecutive message ids and then
      DISCONNECT ... */
  lemma FinishedSent(cfg: Config, t: ResolvedTopic, s: Session, k: nat)
    requires cfg.qos == 1 && |cfg.message| <= MaxPayloadLength
    ensures var f := Finished(cfg, t, s, k);
            && s.sent <= f.sent && |f.sent| == |s.sent| + k + 2
            && Publishes(f.sent[|s.sent|..|s.sent| + k + 1], cfg, t, s.client.nextMessageId, k + 1)
            && f.sent[|s.sent| + k + 1] == Disconnect
  {
    var a := AckedAfter(cfg, t, s, k);
    AckedAfterSent(cfg, t, s, k);
    var f := Finished(cfg, t, s, k);
    assert f.sent == a.sent + [Disconnect];
    assert f.sent[|s.sent|..|s.sent| + k + 1] == a.sent[|s.sent|..];
  }

  /** ... and warns once per miss, "send required" when `k > 0`, and
      "DISCONNECT not acked" unless the reply after the PUBACK is
      DISCONNECT. */
  lemma FinishedWarnings(cfg: Config, t: ResolvedTopic, s: Session, k: nat)
    requires cfg.qos == 1 && |cfg.message| <= MaxPayloadLength && k < |s.replies|
    ensures Finished(cfg, t, s, k).warnings ==
              s.warnings + NotAckedWarnings(0, k) + Required(k)
              + (if At(s.replies, k + 1) == Some(Disconnect) then [] else [DisconnectNotAcked])
  {
    var a := AckedAfter(cfg, t, s, k);
    AckedAfterWarnings(cfg, t, s, k);
    AckedAfterReplies(cfg, t, s, k);
    assert (|a.replies| > 0 && a.replies[0] == Some(Disconnect)) <==> At(s.replies, k + 1) == Some(Disconnect);
  }

  /** Publish at QoS 1 with no PUBACK in the next twelve receives stops
      the run where the publish step gave up: no DISCONNECT is sent. */
  lemma DeliverGivesUp(cfg: Config, t: ResolvedTopic, s: Session)
    requires cfg.qos == 1 && |cfg.message| <= MaxPayloadLength
    requires forall i :: 0 <= i < 12 ==> !IsPuback(At(s.replies, i))
    ensures Deliver(cfg, t, s) == Stop(GaveUp(cfg, t, s), NotAcked(12))
  {
    PublishStepGivesUp(cfg, t, s);
  }

  /** A QoS 1 run whose first PUBACK is the `k + 1`-th reply after CONNACK
      ends as an acknowledged publish followed by DISCONNECT ... */
  lemma Qos1RunAcks(cfg: Config, pid: nat, rest: seq<Option<Packet>>, k: nat)
    requires Qos1Local(cfg) && k <= 11
    requires forall i :: 0 <= i < k ==> !IsPuback(At(rest, i))
    requires IsPuback(At(rest, k))
    ensures var f := Finished(cfg, LocalTopic(cfg), Qos1Session(cfg, pid, rest), k);
            Run(cfg, pid, WillScript(rest)) == Report(f.sent, f.warnings, Completed)
  {
    Qos1RunDelivers(cfg, pid, rest);
    DeliverAcks(cfg, LocalTopic(cfg), Qos1Session(cfg, pid, rest), k);
  }

  /** ... so, for `k <= 11`, it sends CONNECT, WILLTOPIC, WILLMSG, then
      `k + 1` PUBLISH packets with message ids 1, 2, ..., then DISCONNECT,
      and completes ... */
  lemma Qos1RunAcked(cfg: Config, pid: nat, rest: seq<Option<Packet>>, k: nat)
    requires Qos1Local(cfg) && k <= 11
    requires forall i :: 0 <= i < k ==> !IsPuback(At(rest, i))
    requires IsPuback(At(rest, k))
    ensures var r := Run(cfg, pid, WillScript(rest));
            && r.status == Completed
            && |r.sent| == k + 5
            && r.sent[..3] == [WillConnect(cfg, pid), WillTopic(WillTopicFlags, cfg.willTopic.value), WillMsg(cfg.willMessage.value)]
            && Publishes(r.sent[3..k + 4], cfg, LocalTopic(cfg), 1, k + 1)
            && r.sent[k + 4] == Disconnect
  {
    Qos1RunAcks(cfg, pid, rest, k);
    FinishedSent(cfg, LocalTopic(cfg), Qos1Session(cfg, pid, rest), k);
  }

  /** ... printing one "retrying" per miss, "send required" exactly when a
      resend was needed, and "DISCONNECT not acked" unless the gateway
      answered DISCONNECT. */
  lemma Qos1RunAckedWarnings(cfg: Config, pid: nat, rest: seq<Option<Packet>>, k: nat)
    requires Qos1Local(cfg) && k <= 11
    requires forall i :: 0 <= i < k ==> !IsPuback(At(rest, i))
    requires IsPuback(At(rest, k))
    ensures var w := Run(cfg, pid, WillScript(rest)).warnings;
            && w == NotAckedWarnings(0, k) + Required(k)
                    + (if At(rest, k + 1) == Some(Disconnect) then [] else [DisconnectNotAcked])
            && (SendRequired(k) in w <==> k > 0)
  {
    Qos1RunAcks(cfg, pid, rest, k);
    FinishedWarningsFresh(cfg, LocalTopic(cfg), Qos1Session(cfg, pid, rest), k);
  }

  /** From a session without warnings, "send required" is among the
      warnings exactly when a resend was needed. */
  lemma FinishedWarningsFresh(cfg: Config, t: ResolvedTopic, s: Session, k: nat)
    requires cfg.qos == 1 && |cfg.message| <= MaxPayloadLength && k < |s.replies| && s.warnings == []
    ensures var w := Finished(cfg, t, s, k).warnings;
            && w == NotAckedWarnings(0, k) + Required(k)
                    + (if At(s.replies, k + 1) == Some(Disconnect) then [] else [DisconnectNotAcked])
            && (SendRequired(k) in w <==> k > 0)
  {
    var w := Finished(cfg, t, s, k).warnings;
    FinishedWarnings(cfg, t, s, k);
    if k > 0 {
      assert w[k] == SendRequired(k);
    }
  }

  /** Such a run ends without any warning exactly when the first PUBLISH
      was acknowledged and the gateway answered DISCONNECT with
      DISCONNECT. */
  lemma Qos1RunClean(cfg: Config, pid: nat, rest: seq<Option<Packet>>, k: nat)
    requires Qos1Local(cfg) && k <= 11
    requires forall i :: 0 <= i < k ==> !IsPuback(At(rest, i))
    requires IsPuback(At(rest, k))
    ensures OutcomeOf(Run(cfg, pid, WillScript(rest))) == OkClean <==> k == 0 && At(rest, 1) == Some(Disconnect)
  {
    Qos1RunAcks(cfg, pid, rest, k);
    FinishedWarnings(cfg, LocalTopic(cfg), Qos1Session(cfg, pid, rest), k);
  }

  /** A QoS 1 run that gets no PUBACK in the twelve receives after CONNACK
      stops where the publish step gave up ... */
  lemma Qos1RunGivesUp(cfg: Config, pid: nat, rest: seq<Option<Packet>>)
    requires Qos1Local(cfg)
    requires forall i :: 0 <= i < 12 ==> !IsPuback(At(rest, i))
    ensures Run(cfg, pid, WillScript(rest)) == Stop(GaveUp(cfg, LocalTopic(cfg), Qos1Session(cfg, pid, rest)), NotAcked(12))
  {
    Qos1RunDelivers(cfg, pid, rest);
    DeliverGivesUp(cfg, LocalTopic(cfg), Qos1Session(cfg, pid, rest));
  }

  /** ... so after the handshake exactly twelve PUBLISH packets go out,
      with message ids 1 to 12, no DISCONNECT is sent, and the run fails
      with "tried 12 times" ... */
  lemma Qos1RunExhausted(cfg: Config, pid: nat, rest: seq<Option<Packet>>)
    requires Qos1Local(cfg)
    requires forall i :: 0 <= i < 12 ==> !IsPuback(At(rest, i))
    ensures var r := Run(cfg, pid, WillScript(rest));
            && r.status == Failed(NotAcked(12))
            && |r.sent| == 15
            && r.sent[..3] == Qos1Session(cfg, pid, rest).sent
            && Publishes(r.sent[3..], cfg, LocalTopic(cfg), 1, 12)
  {
    Qos1RunGivesUp(cfg, pid, rest);
    Qos1GaveUpSent(cfg, pid, rest);
  }

  /** After the QoS 1 handshake, giving up leaves the three handshake
      packets and then twelve PUBLISH with message ids 1 to 12. */
  lemma Qos1GaveUpSent(cfg: Config, pid: nat, rest: seq<Option<Packet>>)
    requires Qos1Local(cfg)
    ensures var g := GaveUp(cfg, LocalTopic(cfg), Qos1Session(cfg, pid, rest));
            && |g.sent| == 15
            && g.sent[..3] == Qos1Session(cfg, pid, rest).sent
            && Publishes(g.sent[3..], cfg, LocalTopic(cfg), 1, 12)
  {
    var h := Qos1Session(cfg, pid, rest);
    GaveUpSent(cfg, LocalTopic(cfg), h);
    assert |h.sent| == 3 && h.client.nextMessageId == 1;
  }

  /** ... and reports each of the twelve misses, and nothing else. */
  lemma Qos1RunExhaustedWarnings(cfg: Config, pid: nat, rest: seq<Option<Packet>>)
    requires Qos1Local(cfg)
    requires forall i :: 0 <= i < 12 ==> !IsPuback(At(rest, i))
    ensures Run(cfg, pid, WillScript(rest)).warnings == NotAckedWarnings(0, 12)
  {
    var h := Qos1Session(cfg, pid, rest);
    var g := GaveUp(cfg, LocalTopic(cfg), h);
    assert Run(cfg, pid, WillScript(rest)).warnings == g.warnings by {
      Qos1RunGivesUp(cfg, pid, rest);
    }
    assert g.warnings == NotAckedWarnings(0, 12) by {
      GaveUpWarnings(cfg, LocalTopic(cfg), h);
      assert h.warnings == [];
    }
  }

  /** The CONNECT the QoS 0 handshake sends. */
  function CleanConnect(cfg: Config, pid: nat): Packet
  {
    Connect(ConnectFlags, ProtocolId, KeepAlive, ConnectId(cfg, pid))
  }

  /** The session after a successful QoS 0 handshake. */
  function Qos0Session(cfg: Config, pid: nat, rest: seq<Option<Packet>>): Session
  {
    Session(Initial, rest, [CleanConnect(cfg, pid)], [])
  }

  lemma Qos0Connected(cfg: Config, pid: nat, rest: seq<Option<Packet>>)
    requires Runnable(cfg) && cfg.qos == 0 && ClientIdFits(cfg)
    ensures Handshake(cfg, pid, Start([Some(Connack(0))] + rest)) == Continue(Qos0Session(cfg, pid, rest), ())
  {
    var s0 := Start([Some(Connack(0))] + rest);
    Qos0Handshake(cfg, pid, s0);
    assert ([Some(Connack(0))] + rest)[1..] == rest;
  }

  /** Once the handshake has succeeded, the run is the rest of `main` from
      the session it left. */
  lemma RunConnects(cfg: Config, pid: nat, replies: seq<Option<Packet>>, h: Session)
    requires Runnable(cfg) && Handshake(cfg, pid, Start(replies)) == Continue(h, ())
    ensures Run(cfg, pid, replies) == Proceed(cfg, h)
  {
  }

  /** Once the topic is resolved, the rest of `main` is publish and
      disconnect from the session resolution left. */
  lemma ProceedResolves(cfg: Config, s: Session, s1: Session, t: ResolvedTopic)
    requires Runnable(cfg) && Resolve(cfg, s) == Continue(s1, t)
    ensures Proceed(cfg, s) == Deliver(cfg, t, s1)
  {
  }

  /** At a QoS other than 1, with a payload that fits, publish and
      disconnect send one PUBLISH with the current message id and then the
      DISCONNECT step, and complete. */
  lemma DeliverOnce(cfg: Config, t: ResolvedTopic, s: Session)
    requires cfg.qos != 1 && |cfg.message| <= MaxPayloadLength
    ensures var d := DisconnectStep(cfg, FirstPublish(cfg, t, s));
            Deliver(cfg, t, s) == Report(d.sent, d.warnings, Completed)
  {
    assert EmitSent(s, SendSessionPublish(cfg, t, s.client).value) == FirstPublish(cfg, t, s);
  }

  /** A QoS 0 run with a topic that needs no REGISTER: CONNECT, one PUBLISH
      with message id 1, DISCONNECT; the run completes, with a warning
      exactly when the gateway does not answer DISCONNECT. */
  lemma Qos0RunLocal(cfg: Config, pid: nat, rest: seq<Option<Packet>>)
    requires Runnable(cfg) && cfg.qos == 0 && ClientIdFits(cfg) && |cfg.message| <= MaxPayloadLength
    requires cfg.topic.Predefined? || |cfg.topic.name| == 2
    ensures Run(cfg, pid, [Some(Connack(0))] + rest) ==
              Report([CleanConnect(cfg, pid), PublishPacket(cfg, LocalTopic(cfg), 1), Disconnect],
                     if At(rest, 0) == Some(Disconnect) then [] else [DisconnectNotAcked],
                     Completed)
  {
    var h := Qos0Session(cfg, pid, rest);
    Qos0Connected(cfg, pid, rest);
    RunConnects(cfg, pid, [Some(Connack(0))] + rest, h);
    ProceedResolves(cfg, h, h, LocalTopic(cfg));
    DeliverOnce(cfg, LocalTopic(cfg), h);
    LocalFinish(cfg, pid, rest);
  }

  /** After the QoS 0 handshake with a local topic, publish and disconnect
      leave CONNECT, PUBLISH with message id 1 and DISCONNECT. */
  lemma LocalFinish(cfg: Config, pid: nat, rest: seq<Option<Packet>>)
    requires cfg.qos == 0 && (cfg.topic.Predefined? || |cfg.topic.name| == 2)
    ensures var d := DisconnectStep(cfg, FirstPublish(cfg, LocalTopic(cfg), Qos0Session(cfg, pid, rest)));
            && d.sent == [CleanConnect(cfg, pid), PublishPacket(cfg, LocalTopic(cfg), 1), Disconnect]
            && d.warnings == if At(rest, 0) == Some(Disconnect) then [] else [DisconnectNotAcked]
  {
  }

  /** Resolving a longer name at QoS 0 or more when the gateway grants topic
      id `id`: one REGISTER with the current message id, then the granted id
      as a normal topic id; a warning exactly when the REGACK carries
      another message id. */
  lemma RegisterResolves(cfg: Config, s: Session, id: U16, messageId: U16, rest: seq<Option<Packet>>)
    requires Runnable(cfg) && cfg.qos >= 0
    requires cfg.topic.Named? && |cfg.topic.name| != 2 && |cfg.topic.name| <= MaxTopicLength
    requires s.replies == [Some(Regack(id, messageId, 0))] + rest
    ensures var n := s.client.nextMessageId;
            Resolve(cfg, s) ==
              Continue(Session(s.client.(nextMessageId := (n + 1) % 0x1_0000), rest,
                               s.sent + [Register(0, n, cfg.topic.name)],
                               s.warnings + (if messageId != n then [RegackIdMismatch] else [])),
                       ResolvedTopic(id, NormalId))
  {
    assert s.replies[1..] == rest;
    var n := s.client.nextMessageId;
    assert PreviousId(Advance(n)) == n;
  }

  /** The session after a QoS 0 handshake and a REGISTER granted with
      REGACK message id `messageId`. */
  function Registered(cfg: Config, pid: nat, messageId: U16, rest: seq<Option<Packet>>): Session
    requires cfg.topic.Named?
  {
    Session(Initial.(nextMessageId := 2), rest, [CleanConnect(cfg, pid), Register(0, 1, cfg.topic.name)],
            if messageId != 1 then [RegackIdMismatch] else [])
  }

  /** A QoS 0 run with a topic name to register reaches publish and
      disconnect once the gateway grants topic id `id` ... */
  lemma Qos0RegisterDelivers(cfg: Config, pid: nat, id: U16, messageId: U16, rest: seq<Option<Packet>>)
    requires Runnable(cfg) && cfg.qos == 0 && ClientIdFits(cfg)
    requires cfg.topic.Named? && |cfg.topic.name| != 2 && |cfg.topic.name| <= MaxTopicLength
    ensures Run(cfg, pid, [Some(Connack(0)), Some(Regack(id, messageId, 0))] + rest) ==
              Deliver(cfg, ResolvedTopic(id, NormalId), Registered(cfg, pid, messageId, rest))
  {
    var tail := [Some(Regack(id, messageId, 0))] + rest;
    assert [Some(Connack(0)), Some(Regack(id, messageId, 0))] + rest == [Some(Connack(0))] + tail;
    var h := Qos0Session(cfg, pid, tail);
    Qos0Connected(cfg, pid, tail);
    RunConnects(cfg, pid, [Some(Connack(0))] + tail, h);
    Qos0Registers(cfg, pid, id, messageId, rest);
    ProceedResolves(cfg, h, Registered(cfg, pid, messageId, rest), ResolvedTopic(id, NormalId));
  }

  /** After the QoS 0 handshake, REGISTER takes message id 1 and the
      granted id becomes the topic. */
  lemma Qos0Registers(cfg: Config, pid: nat, id: U16, messageId: U16, rest: seq<Option<Packet>>)
    requires Runnable(cfg) && cfg.qos == 0
    requires cfg.topic.Named? && |cfg.topic.name| != 2 && |cfg.topic.name| <= MaxTopicLength
    ensures Resolve(cfg, Qos0Session(cfg, pid, [Some(Regack(id, messageId, 0))] + rest)) ==
              Continue(Registered(cfg, pid, messageId, rest), ResolvedTopic(id, NormalId))
  {
    var h := Qos0Session(cfg, pid, [Some(Regack(id, messageId, 0))] + rest);
    RegisterResolves(cfg, h, id, messageId, rest);
    assert h.client.(nextMessageId := (h.client.nextMessageId + 1) % 0x1_0000) == Initial.(nextMessageId := 2);
  }

  /** ... so it sends CONNECT, REGISTER with message id 1, PUBLISH to `id`
      as a normal topic id with message id 2, then DISCONNECT; the run
      completes, and warns about the REGACK exactly when its message id is
      not the one REGISTER carried. */
  lemma Qos0RunRegister(cfg: Config, pid: nat, id: U16, messageId: U16, rest: seq<Option<Packet>>)
    requires Runnable(cfg) && cfg.qos == 0 && ClientIdFits(cfg) && |cfg.message| <= MaxPayloadLength
    requires cfg.topic.Named? && |cfg.topic.name| != 2 && |cfg.topic.name| <= MaxTopicLength
    ensures var r := Run(cfg, pid, [Some(Connack(0)), Some(Regack(id, messageId, 0))] + rest);
            && r.status == Completed
            && r.sent == [CleanConnect(cfg, pid), Register(0, 1, cfg.topic.name),
                          PublishPacket(cfg, ResolvedTopic(id, NormalId), 2), Disconnect]
            && (RegackIdMismatch in r.warnings <==> messageId != 1)
  {
    var g := Registered(cfg, pid, messageId, rest);
    var t := ResolvedTopic(id, NormalId);
    Qos0RegisterDelivers(cfg, pid, id, messageId, rest);
    DeliverOnce(cfg, t, g);
    RegisteredFinish(cfg, pid, id, messageId, rest);
  }

  /** After the REGISTER, publish and disconnect add PUBLISH with message
      id 2 and DISCONNECT, and the REGACK warning is kept as it was. */
  lemma RegisteredFinish(cfg: Config, pid: nat, id: U16, messageId: U16, rest: seq<Option<Packet>>)
    requires cfg.qos == 0 && cfg.topic.Named?
    ensures var d := DisconnectStep(cfg, FirstPublish(cfg, ResolvedTopic(id, NormalId), Registered(cfg, pid, messageId, rest)));
            && d.sent == [CleanConnect(cfg, pid), Register(0, 1, cfg.topic.name),
                          PublishPacket(cfg, ResolvedTopic(id, NormalId), 2), Disconnect]
            && (RegackIdMismatch in d.warnings <==> messageId != 1)
  {
    var g := Registered(cfg, pid, messageId, rest);
    var d := DisconnectStep(cfg, FirstPublish(cfg, ResolvedTopic(id, NormalId), g));
    assert RegackIdMismatch in d.warnings <==> RegackIdMismatch in g.warnings;
  }

  /** The number of PUBLISH packets in `ps`. */
  function PublishCount(ps: seq<Packet>): nat
  {
    if |ps| == 0 then 0
    else PublishCount(ps[..|ps| - 1]) + (if ps[|ps| - 1].Publish? then 1 else 0)
  }

  /** If every PUBLISH of `ps` lies at a position in `[lo, hi)`, there are at
      most `hi - lo` of them. */
  lemma {:induction false} PublishCountWithin(ps: seq<Packet>, lo: nat, hi: nat)
    requires lo <= hi
    requires forall i :: 0 <= i < |ps| && ps[i].Publish? ==> lo <= i < hi
    ensures PublishCount(ps) <= hi - lo
    decreases |ps|
  {
    if |ps| > 0 {
      var init := ps[..|ps| - 1];
      if |ps| - 1 < hi {
        assert forall i :: 0 <= i < |init| && init[i].Publish? ==> lo <= i < |ps| - 1;
        if lo <= |ps| - 1 {
          PublishCountWithin(init, lo, |ps| - 1);
        } else {
          PublishCountWithin(init, lo, lo);
        }
      } else {
        assert forall i :: 0 <= i < |init| && init[i].Publish? ==> lo <= i < hi;
        PublishCountWithin(init, lo, hi);
      }
    }
  }

  /** A run sends at most twelve PUBLISH packets at QoS 1 and at most one
      at any other QoS, whatever the gateway does. */
  lemma RunPublishBound(cfg: Config, pid: nat, replies: seq<Option<Packet>>)
    requires Runnable(cfg)
    ensures PublishCount(Run(cfg, pid, replies).sent) <= if cfg.qos == 1 then 12 else 1
  {
    var h := Handshake(cfg, pid, Start(replies));
    assert NoPublish(h.s.sent);
    if h.Abort? {
      PublishCountWithin(h.s.sent, 0, 0);
    } else {
      RunConnects(cfg, pid, replies, h.s);
      ProceedPublishBound(cfg, h.s);
    }
  }

  /** None of `ps` is a PUBLISH. */
  predicate NoPublish(ps: seq<Packet>)
  {
    forall i :: 0 <= i < |ps| ==> !ps[i].Publish?
  }

  /** Resolving the topic sends no PUBLISH, so the bound carries over from
      publish and disconnect to the rest of `main`. */
  lemma ProceedPublishBound(cfg: Config, s: Session)
    requires Runnable(cfg) && NoPublish(s.sent)
    ensures PublishCount(Proceed(cfg, s).sent) <= if cfg.qos == 1 then 12 else 1
  {
    var res := Resolve(cfg, s);
    assert NoPublish(res.s.sent) by {
      forall i | 0 <= i < |res.s.sent|
        ensures !res.s.sent[i].Publish?
      {
        if i < |s.sent| {
          assert res.s.sent[i] == s.sent[i];
        }
      }
    }
    if res.Abort? {
      PublishCountWithin(res.s.sent, 0, 0);
    } else {
      ProceedResolves(cfg, s, res.s, res.value);
      DeliverPublishBound(cfg, res.value, res.s);
    }
  }

  /** Publish and disconnect after a session without PUBLISH: the publish
      step sends at most its bound and DISCONNECT is no PUBLISH. */
  lemma DeliverPublishBound(cfg: Config, t: ResolvedTopic, s: Session)
    requires NoPublish(s.sent)
    ensures PublishCount(Deliver(cfg, t, s).sent) <= if cfg.qos == 1 then 12 else 1
  {
    var bound := if cfg.qos == 1 then 12 else 1;
    var p := PublishStep(cfg, t, s);
    if p.Abort? {
      PublishCountPhases(s.sent, p.s.sent, p.s.sent, bound);
    } else {
      PublishCountPhases(s.sent, p.s.sent, DisconnectStep(cfg, p.s).sent, bound);
    }
  }

  /** A run's packets in three parts: none of the first is a PUBLISH, the
      second holds at most `bound` packets, none of the third is a
      PUBLISH. */
  lemma PublishCountPhases(before: seq<Packet>, through: seq<Packet>, all: seq<Packet>, bound: nat)
    requires before <= through <= all && |through| <= |before| + bound
    requires NoPublish(before)
    requires forall i :: |through| <= i < |all| ==> !all[i].Publish?
    ensures PublishCount(all) <= bound
  {
    PublishCountWithin(all, |before|, |before| + bound);
  }
}
