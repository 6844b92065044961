/**
 * The request handler `PublishSNSMessage`: it relays Amazon SNS HTTP(S)
 * callbacks to a Google Pub/Sub topic.
 *
 * Each request passes a fixed chain of gates (body read, JSON decode,
 * origin check on the trimmed TopicArn, case-insensitive dispatch on Type,
 * POST check) before at most one outbound action: a confirmation GET to
 * SubscribeURL, or one Pub/Sub publish. The handler is modelled as a pure
 * function; the results of its I/O (reading the body, decoding it, the
 * outbound GET, the publish) are its inputs, and its output is the response
 * status with the trace of outbound actions it took.
 */
module SnsRelay {
  import opened Wrappers
  import opened GoStrings
  import Utf8

  /** The decoded callback, `publishRequest`; wire names in the comments. */
  datatype Envelope = Envelope(
    kind: string,              // Type
    messageId: string,         // MessageId
    token: string,             // Token
    topicArn: string,          // TopicArn
    subject: string,           // Subject
    message: string,           // Message
    subscribeUrl: string,      // SubscribeURL
    timestamp: string,         // Timestamp
    signatureVersion: string,  // SignatureVersion
    signature: string,         // Signature
    signingCertUrl: string,    // SigningCertURL
    unsubscribeUrl: string)    // UnsubscribeURL

  /** Process-wide settings, read once at start-up: GCP_PROJECT, TOPIC_NAME, SNS_ARN. */
  datatype Config = Config(projectId: string, topicName: string, expectedTopicArn: string)

  /** What reading and decoding the request body produced. */
  datatype Body =
    | Unreadable               // reading the body failed
    | Undecodable              // the bytes are not a JSON `publishRequest`
    | Decoded(envelope: Envelope)

  datatype Request = Request(verb: string, body: Body)  // verb: the HTTP method

  /** How the confirmation GET went. */
  datatype ConfirmOutcome =
    | NotBuilt                 // the request could not be constructed
    | TransportFailed          // the request was sent but no response came back
    | Responded(statusCode: int)

  /** How the publish went; on success Pub/Sub assigns a message id. */
  datatype PublishOutcome = PublishFailed | Published(serverId: string)

  /** A Pub/Sub message. */
  datatype Message = Message(data: seq<Utf8.byte>, attributes: map<string, string>)

  /** An outbound action the handler takes. */
  datatype Action =
    | Get(url: string)
    | Publish(topic: string, message: Message)

  /** The response status and the outbound actions taken, in order. */
  datatype Reply = Reply(status: int, actions: seq<Action>)

  const StatusOK := 200
  const StatusBadRequest := 400
  const StatusForbidden := 403
  const StatusMethodNotAllowed := 405
  const StatusInternalServerError := 500

  const MethodPost := "POST"
  const KindSubscriptionConfirmation := "subscriptionconfirmation"
  const KindNotification := "notification"
  const AttrMessageId := "snsMessageId"
  const AttrSubject := "snsSubject"

  datatype Kind = SubscriptionConfirmation | Notification | Unrecognised

  /**
   * The origin gate: the callback names the expected SNS topic, up to
   * surrounding white space. A blank TopicArn only ever matches a blank
   * SNS_ARN, and the other way round.
   */
  function OriginMatches(cfg: Config, env: Envelope): (b: bool)
    ensures b ==> (AllSpace(env.topicArn) <==> AllSpace(cfg.expectedTopicArn))
  {
    TrimSpaceEmpty(env.topicArn);
    TrimSpaceEmpty(cfg.expectedTopicArn);
    TrimSpace(env.topicArn) == TrimSpace(cfg.expectedTopicArn)
  }

  /**
   * The dispatch on Type: lower-case it and compare with the two known kinds.
   * A recognised Type spells its kind up to ASCII case.
   */
  function Classify(t: string): (k: Kind)
    ensures k == SubscriptionConfirmation ==> EqualFoldAscii(t, KindSubscriptionConfirmation)
    ensures k == Notification ==> EqualFoldAscii(t, KindNotification)
  {
    var l := ToLower(t);
    if l == KindSubscriptionConfirmation then SubscriptionConfirmation
    else if l == KindNotification then Notification
    else Unrecognised
  }

  /**
   * The dispatch is a case-insensitive comparison with each known kind, in
   * both directions; only ASCII kinds are recognised.
   */
  lemma ClassifyIgnoresCase(t: string)
    ensures Classify(t) == SubscriptionConfirmation <==> EqualFoldAscii(t, KindSubscriptionConfirmation)
    ensures Classify(t) == Notification <==> EqualFoldAscii(t, KindNotification)
    ensures Classify(t) != Unrecognised ==> forall i :: 0 <= i < |t| ==> IsAscii(t[i])
  {
    ToLowerMatches(t, KindSubscriptionConfirmation);
    ToLowerMatches(t, KindNotification);
    if ToLower(t) == KindSubscriptionConfirmation {
      ToLowerAsciiOnly(t, KindSubscriptionConfirmation);
    } else if ToLower(t) == KindNotification {
      ToLowerAsciiOnly(t, KindNotification);
    }
  }

  /**
   * The Pub/Sub message relayed for a notification: its data are the bytes
   * of Message, and it carries exactly two attributes, the SNS message id
   * and the subject, even when they are empty.
   */
  function BuildMessage(env: Envelope): (m: Message)
    ensures m.attributes.Keys == {AttrMessageId, AttrSubject}
    ensures m.attributes[AttrMessageId] == env.messageId
    ensures m.attributes[AttrSubject] == env.subject
  {
    Message(Utf8.Encode(env.message), map[AttrMessageId := env.messageId, AttrSubject := env.subject])
  }

  /** The relayed data are exactly the bytes of Message: they decode back to it. */
  lemma MessageDataIsMessage(env: Envelope)
    ensures Utf8.Decode(BuildMessage(env).data) == Some(env.message)
  {
    Utf8.DecodeEncode(env.message);
  }

  /**
   * The handshake: one GET to SubscribeURL, taken as it is. It succeeds
   * only when the response status is 200; every other way it ends is a 500.
   */
  function Confirm(url: string, outcome: ConfirmOutcome): (r: Reply)
    ensures r.status == StatusOK <==> outcome == Responded(200)
    ensures r.status != StatusOK ==> r.status == StatusInternalServerError
    ensures outcome.NotBuilt? ==> r.actions == []
    ensures !outcome.NotBuilt? ==> r.actions == [Get(url)]
  {
    match outcome
    case NotBuilt => Reply(StatusInternalServerError, [])
    case TransportFailed => Reply(StatusInternalServerError, [Get(url)])
    case Responded(code) =>
      if code != StatusOK then Reply(StatusInternalServerError, [Get(url)])
      else Reply(StatusOK, [Get(url)])
  }

  /** The relay: one publish to the configured topic; a publish error is a 500. */
  function Relay(cfg: Config, env: Envelope, outcome: PublishOutcome): (r: Reply)
    ensures r.actions == [Publish(cfg.topicName, BuildMessage(env))]
    ensures r.status == StatusOK <==> outcome.Published?
    ensures r.status != StatusOK ==> r.status == StatusInternalServerError
  {
    var m := BuildMessage(env);
    match outcome
    case PublishFailed => Reply(StatusInternalServerError, [Publish(cfg.topicName, m)])
    case Published(_) => Reply(StatusOK, [Publish(cfg.topicName, m)])
  }

  /**
   * `PublishSNSMessage`. No outbound action is taken unless the body was
   * decoded, the origin matches, the kind is recognised and the method is
   * POST; a GET goes only to the SubscribeURL of a subscription
   * confirmation, a publish only to the configured topic, for a notification.
   */
  function Handle(cfg: Config, req: Request, confirm: ConfirmOutcome, publish: PublishOutcome)
    : (r: Reply)
    ensures r.status in {StatusOK, StatusBadRequest, StatusForbidden, StatusMethodNotAllowed,
                         StatusInternalServerError}
    ensures |r.actions| <= 1
    ensures r.actions != [] ==>
              && req.body.Decoded?
              && OriginMatches(cfg, req.body.envelope)
              && Classify(req.body.envelope.kind) != Unrecognised
              && req.verb == MethodPost
    ensures r.actions != [] && r.actions[0].Get? ==>
              && Classify(req.body.envelope.kind) == SubscriptionConfirmation
              && r.actions[0].url == req.body.envelope.subscribeUrl
    ensures r.actions != [] && r.actions[0].Publish? ==>
              && Classify(req.body.envelope.kind) == Notification
              && r.actions[0] == Publish(cfg.topicName, BuildMessage(req.body.envelope))
    ensures r.status == StatusOK ==>
              (confirm == Responded(200) && r.actions != [] && r.actions[0].Get?)
              || (publish.Published? && r.actions != [] && r.actions[0].Publish?)
  {
    match req.body
    case Unreadable => Reply(StatusBadRequest, [])
    case Undecodable => Reply(StatusForbidden, [])
    case Decoded(env) =>
      if !OriginMatches(cfg, env) then
        Reply(StatusForbidden, [])
      else
        match Classify(env.kind)
        case SubscriptionConfirmation =>
          if req.verb != MethodPost then Reply(StatusMethodNotAllowed, [])
          else Confirm(env.subscribeUrl, confirm)
        case Notification =>
          if req.verb != MethodPost then Reply(StatusMethodNotAllowed, [])
          else Relay(cfg, env, publish)
        case Unrecognised =>
          Reply(StatusBadRequest, [])
  }

  /** A body that cannot be read is a 400 and nothing else happens. */
  lemma UnreadableIsBadRequest(cfg: Config, verb: string, confirm: ConfirmOutcome,
                               publish: PublishOutcome)
    ensures Handle(cfg, Request(verb, Unreadable), confirm, publish) == Reply(StatusBadRequest, [])
  {
  }

  /** A body that is not a JSON envelope is a 403 (not a 400) and nothing else happens. */
  lemma UndecodableIsForbidden(cfg: Config, verb: string, confirm: ConfirmOutcome,
                               publish: PublishOutcome)
    ensures Handle(cfg, Request(verb, Undecodable), confirm, publish) == Reply(StatusForbidden, [])
  {
  }

  /**
   * A callback from another topic is a 403 with no outbound action, whatever
   * its kind and method: the origin gate comes before the dispatch.
   */
  lemma ForeignOriginIsForbidden(cfg: Config, req: Request, confirm: ConfirmOutcome,
                                 publish: PublishOutcome)
    requires req.body.Decoded?
    ensures !OriginMatches(cfg, req.body.envelope) <==>
              Handle(cfg, req, confirm, publish) == Reply(StatusForbidden, [])
  {
  }

  /** An unknown kind past the origin gate is a 400, whatever the method. */
  lemma UnknownKindIsBadRequest(cfg: Config, req: Request, confirm: ConfirmOutcome,
                                publish: PublishOutcome)
    requires req.body.Decoded? && OriginMatches(cfg, req.body.envelope)
    requires Classify(req.body.envelope.kind) == Unrecognised
    ensures Handle(cfg, req, confirm, publish) == Reply(StatusBadRequest, [])
  {
  }

  /** A known kind with a method other than POST is a 405 with no outbound action. */
  lemma WrongMethodIsNotAllowed(cfg: Config, req: Request, confirm: ConfirmOutcome,
                                publish: PublishOutcome)
    requires req.body.Decoded? && OriginMatches(cfg, req.body.envelope)
    requires Classify(req.body.envelope.kind) != Unrecognised
    requires req.verb != MethodPost
    ensures Handle(cfg, req, confirm, publish) == Reply(StatusMethodNotAllowed, [])
  {
  }

  /**
   * An accepted subscription confirmation issues exactly one GET, to the
   * untrimmed SubscribeURL (unless the request cannot even be built), never
   * publishes, and answers 200 exactly when the GET answered 200.
   */
  lemma HandshakeAccepted(cfg: Config, req: Request, confirm: ConfirmOutcome,
                          publish: PublishOutcome)
    requires req.body.Decoded? && OriginMatches(cfg, req.body.envelope)
    requires Classify(req.body.envelope.kind) == SubscriptionConfirmation
    requires req.verb == MethodPost
    ensures var r := Handle(cfg, req, confirm, publish);
            && r.actions == (if confirm.NotBuilt? then [] else [Get(req.body.envelope.subscribeUrl)])
            && (r.status == StatusOK <==> confirm == Responded(200))
            && (r.status != StatusOK ==> r.status == StatusInternalServerError)
  {
  }

  /**
   * An accepted notification is published exactly once, to the configured
   * topic, with the Message bytes and the two SNS attributes; the reply is
   * 200 exactly when Pub/Sub acknowledged it, and no GET is issued.
   */
  lemma NotificationRelayed(cfg: Config, req: Request, confirm: ConfirmOutcome,
                            publish: PublishOutcome)
    requires req.body.Decoded? && OriginMatches(cfg, req.body.envelope)
    requires Classify(req.body.envelope.kind) == Notification
    requires req.verb == MethodPost
    ensures var r := Handle(cfg, req, confirm, publish);
            var env := req.body.envelope;
            && |r.actions| == 1 && r.actions[0].Publish?
            && r.actions[0].topic == cfg.topicName
            && Utf8.Decode(r.actions[0].message.data) == Some(env.message)
            && r.actions[0].message.attributes == map[AttrMessageId := env.messageId,
                                                      AttrSubject := env.subject]
            && (r.status == StatusOK <==> publish.Published?)
            && (r.status != StatusOK ==> r.status == StatusInternalServerError)
  {
    MessageDataIsMessage(req.body.envelope);
  }

  /**
   * Of the twelve fields of `publishRequest`, Token, Timestamp,
   * SignatureVersion, Signature, SigningCertURL and UnsubscribeURL never
   * influence the reply or the outbound action: the signature is not checked.
   */
  lemma UnverifiedFieldsIgnored(cfg: Config, verb: string, env: Envelope, confirm: ConfirmOutcome,
                                publish: PublishOutcome, token: string, timestamp: string,
                                signatureVersion: string, signature: string,
                                signingCertUrl: string, unsubscribeUrl: string)
    ensures var forged := env.(token := token, timestamp := timestamp,
                               signatureVersion := signatureVersion, signature := signature,
                               signingCertUrl := signingCertUrl, unsubscribeUrl := unsubscribeUrl);
            Handle(cfg, Request(verb, Decoded(forged)), confirm, publish)
              == Handle(cfg, Request(verb, Decoded(env)), confirm, publish)
  {
  }

  function WithTopicArn(req: Request, arn: string): Request
    requires req.body.Decoded?
  {
    req.(body := Decoded(req.body.envelope.(topicArn := arn)))
  }

  /** White space around TopicArn makes no difference to the handling of a callback. */
  lemma TopicArnPaddingIgnored(cfg: Config, req: Request, confirm: ConfirmOutcome,
                               publish: PublishOutcome, before: string, after: string)
    requires req.body.Decoded?
    requires AllSpace(before) && AllSpace(after)
    ensures var padded := WithTopicArn(req, before + req.body.envelope.topicArn + after);
            Handle(cfg, padded, confirm, publish) == Handle(cfg, req, confirm, publish)
  {
    TrimSpacePadding(before, req.body.envelope.topicArn, after);
  }

  /**
   * With SNS_ARN unset or blank, the origin gate is not closed: it lets
   * through exactly the callbacks whose TopicArn is missing or blank.
   */
  lemma BlankExpectedArnAdmitsBlankTopic(cfg: Config, env: Envelope)
    requires AllSpace(cfg.expectedTopicArn)
    ensures OriginMatches(cfg, env) <==> AllSpace(env.topicArn)
  {
    TrimSpaceEmpty(cfg.expectedTopicArn);
    TrimSpaceEmpty(env.topicArn);
  }
}
