/**
 * End-to-end cases of the relay with literal inputs: the expected topic is
 * "arn:aws:sns:us-east-1:123456789012:events", the destination topic
 * "events-in".
 */
module Scenarios {
  import opened Wrappers
  import opened GoStrings
  import opened SnsRelay
  import Utf8

  const Arn := "arn:aws:sns:us-east-1:123456789012:events"
  const Cfg := Config("project", "events-in", Arn)

  /** An envelope with the fields a case sets; every other field is absent, hence empty. */
  function Callback(kind: string, topicArn: string, messageId: string, subject: string,
                    message: string, subscribeUrl: string): Envelope
  {
    Envelope(kind, messageId, "", topicArn, subject, message, subscribeUrl, "", "", "", "", "")
  }

  function Notice(text: string): Envelope {
    Callback("Notification", Arn, "mid-1", "hi", text, "")
  }

  lemma ArnIsTrimmed()
    ensures TrimSpace(Arn) == Arn
  {
    assert [] + Arn + [] == Arn;
    TrimSpaceOf([], Arn, []);
  }

  lemma KindOf(t: string, w: string)
    requires w == KindSubscriptionConfirmation || w == KindNotification
    requires EqualFoldAscii(t, w)
    ensures Classify(t) == if w == KindNotification then Notification else SubscriptionConfirmation
  {
  }

  /** A subscription confirmation whose GET answers 200 is a 200 with one GET and no publish. */
  lemma HandshakeScenario(publish: PublishOutcome)
    ensures var env := Callback("SubscriptionConfirmation", Arn, "", "", "",
                                "https://sns.example/confirm?token=abc");
            Handle(Cfg, Request("POST", Decoded(env)), Responded(200), publish)
              == Reply(200, [Get("https://sns.example/confirm?token=abc")])
  {
    KindOf("SubscriptionConfirmation", KindSubscriptionConfirmation);
  }

  /**
   * A notification is published once to "events-in", with the bytes of its
   * Message as data and the two SNS attributes.
   */
  lemma NotificationScenario(confirm: ConfirmOutcome, id: string, text: string)
    ensures Handle(Cfg, Request("POST", Decoded(Notice(text))), confirm, Published(id))
              == Reply(200, [Publish("events-in", Message(Utf8.Encode(text),
                                                           map["snsMessageId" := "mid-1",
                                                               "snsSubject" := "hi"]))])
  {
    KindOf("Notification", KindNotification);
  }

  /** A callback from another topic is refused with a 403 and no outbound call. */
  lemma ForeignTopicScenario(confirm: ConfirmOutcome, publish: PublishOutcome)
    ensures var env := Callback("Notification", "arn:aws:sns:us-east-1:000000000000:other",
                                "", "", "x", "");
            Handle(Cfg, Request("POST", Decoded(env)), confirm, publish) == Reply(403, [])
  {
    var other := "arn:aws:sns:us-east-1:000000000000:other";
    ArnIsTrimmed();
    assert [] + other + [] == other;
    TrimSpaceOf([], other, []);
    assert other[22] != Arn[22];
  }

  /** A notification sent with GET is refused with a 405 and no outbound call. */
  lemma WrongMethodScenario(confirm: ConfirmOutcome, publish: PublishOutcome, text: string)
    ensures Handle(Cfg, Request("GET", Decoded(Notice(text))), confirm, publish) == Reply(405, [])
  {
    KindOf("Notification", KindNotification);
  }

  /** An unsubscribe confirmation is not a kind the relay knows: 400, no outbound call. */
  lemma UnknownKindScenario(confirm: ConfirmOutcome, publish: PublishOutcome)
    ensures var env := Callback("UnsubscribeConfirmation", Arn, "", "", "", "");
            Handle(Cfg, Request("POST", Decoded(env)), confirm, publish) == Reply(400, [])
  {
  }

  /** A failed publish is a 500 after the one publish attempt; nothing is retried. */
  lemma PublishFailureScenario(confirm: ConfirmOutcome, text: string)
    ensures var r := Handle(Cfg, Request("POST", Decoded(Notice(text))), confirm, PublishFailed);
            && r.status == 500
            && r.actions == [Publish("events-in", Message(Utf8.Encode(text),
                                                          map["snsMessageId" := "mid-1",
                                                              "snsSubject" := "hi"]))]
  {
    KindOf("Notification", KindNotification);
  }
}
