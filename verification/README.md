# pubsub-sns relay, modelled in Dafny

The service is one HTTP handler, `PublishSNSMessage`. Amazon SNS calls it over HTTP(S), and it relays those callbacks to a Google Pub/Sub topic. Each request passes a fixed chain of gates before any outbound action:

1. The request body is read.
2. The body is decoded as a JSON SNS envelope.
3. Origin check: the whitespace-trimmed `TopicArn` must equal the trimmed configured ARN (`SNS_ARN`).
4. The handler dispatches on the lower-cased `Type`.
5. Each recognised kind checks that the method is POST.

After that comes at most one outbound action:

- for a `SubscriptionConfirmation`, a GET to `SubscribeURL`, which succeeds only on status 200;
- for a `Notification`, one Pub/Sub publish to `TOPIC_NAME`. The message data are the bytes of `Message`, and the attributes are `snsMessageId` and `snsSubject`.

The model is a pure function, `SnsRelay.Handle`. The results of the handler's I/O are its inputs:

- the body read;
- the JSON decoding;
- the outcome of the confirmation GET;
- the outcome of the publish.

It returns the response status and the trace of outbound actions taken. That trace is empty, one `Get(url)`, or one `Publish(topic, message)`.

Files:

- `sns_relay.dfy` (module `SnsRelay`): the envelope, configuration, request and reply datatypes, the gates, the handshake and relay branches, the handler, and the properties of the handler.
- `go_strings.dfy` (module `GoStrings`): Go's `strings.TrimSpace` and `strings.ToLower`, as far as the gates use them, with their characterising lemmas.
- `utf8.dfy` (module `Utf8`): UTF-8 encoding and decoding. `[]byte(message.Message)` is the UTF-8 encoding of the decoded text.
- `scenarios.dfy` (module `Scenarios`): end-to-end cases with literal inputs.
- `wrappers.dfy` (module `Wrappers`): `Option`.

Behaviour of the code worth knowing:

- A body that is not valid JSON gets 403, not 400 (main.go:69).
- An empty or blank `SNS_ARN` does not close the origin gate: a callback whose `TopicArn` is missing or blank passes it (main.go:73). `SnsRelay.BlankExpectedArnAdmitsBlankTopic` proves this both ways.
- The signature fields of the envelope are never consulted, so a callback is trusted on its `TopicArn` alone (`SnsRelay.UnverifiedFieldsIgnored`).
- Dispatching an unknown `Type` with a non-POST method gives 400, not 405, because the method checks sit inside the two recognised branches. The model keeps that order (`SnsRelay.UnknownKindIsBadRequest`).

## Model

| member | source | states |
|---|---|---|
| `SnsRelay.Handle` | main.go:55-156 | The status is always one of 200, 400, 403, 405 or 500, and there is at most one outbound action. An action happens only when the body was decoded, the trimmed TopicArn matches, the kind is recognised and the method is POST. A GET happens only for a subscription confirmation and goes to its SubscribeURL. A publish happens only for a notification, to the configured topic, with the message built from the envelope. A 200 means either the GET got status 200 or Pub/Sub acknowledged the publish. |
| `SnsRelay.UnverifiedFieldsIgnored` | main.go:16-29 | `Envelope` models `publishRequest` field by field. Replacing Token, Timestamp, SignatureVersion, Signature, SigningCertURL and UnsubscribeURL with any values leaves the reply and the outbound action unchanged: no signature is checked. |
| `SnsRelay.OriginMatches` | main.go:73 | The origin gate compares the trimmed TopicArn with the trimmed `SNS_ARN`. When it passes, TopicArn is blank exactly when `SNS_ARN` is blank. |
| `SnsRelay.Classify` | main.go:84-154 | The lower-case switch: a Type classified as a subscription confirmation equals "subscriptionconfirmation" ignoring ASCII case, and one classified as a notification equals "notification" ignoring case. Every other Type falls to the default branch; `SnsRelay.ClassifyIgnoresCase` gives the converse directions. |
| `SnsRelay.UnreadableIsBadRequest` | main.go:57-63 | If the body cannot be read, the reply is 400 with no outbound action, whatever the method. |
| `SnsRelay.UndecodableIsForbidden` | main.go:65-71 | If the body does not decode, the reply is 403 (not 400) with no outbound action. |
| `SnsRelay.ForeignOriginIsForbidden` | main.go:73-82 | For a decoded envelope, the reply is exactly 403 with no action if and only if the trimmed TopicArn differs from the trimmed expected ARN. This holds whatever the kind and the method, because the origin gate comes first. |
| `SnsRelay.TopicArnPaddingIgnored` | main.go:73 | Adding white space around TopicArn does not change the reply or the actions. |
| `SnsRelay.BlankExpectedArnAdmitsBlankTopic` | main.go:73 | With a blank expected ARN, the origin gate accepts exactly the envelopes whose TopicArn is blank or missing. |
| `SnsRelay.ClassifyIgnoresCase` | main.go:84-85 | The dispatch picks the handshake branch if and only if Type equals "subscriptionconfirmation" ignoring ASCII case. It picks the relay branch if and only if Type equals "notification" ignoring case. A recognised Type is pure ASCII. |
| `SnsRelay.UnknownKindIsBadRequest` | main.go:151-154 | An unrecognised kind that passed the origin gate gets 400 with no action, whatever the method. |
| `SnsRelay.WrongMethodIsNotAllowed` | main.go:84-124 | A recognised kind with a method other than POST gets 405 with no action. |
| `SnsRelay.Confirm` | main.go:96-117 | The handshake issues one GET to the URL exactly as given, unless the request cannot be built. It replies 200 if and only if the response status is 200, and every other outcome is 500. |
| `SnsRelay.HandshakeAccepted` | main.go:85-117 | An accepted subscription confirmation issues at most one GET, to the untrimmed SubscribeURL, and none when the request cannot be built. It never publishes. It is 200 if and only if the GET answered 200, and 500 otherwise. |
| `SnsRelay.BuildMessage` | main.go:129-136 | The relayed message has exactly two attributes, snsMessageId and snsSubject, set to MessageId and Subject, even when those are empty. |
| `SnsRelay.MessageDataIsMessage` | main.go:134 | The relayed data decode back to Message. They are Message's bytes, unchanged. |
| `SnsRelay.Relay` | main.go:126-149 | The relay performs exactly one publish, to the configured topic, of the message built from the envelope. It replies 200 if and only if the publish was acknowledged, and 500 otherwise. |
| `SnsRelay.NotificationRelayed` | main.go:118-149 | An accepted notification publishes exactly once to the configured topic and issues no GET. The data decode to Message, and the attributes are exactly {snsMessageId: MessageId, snsSubject: Subject}. It is 200 if and only if the publish succeeded, and 500 otherwise. |
| `GoStrings.TrimSpace` | main.go:73 | The result of `strings.TrimSpace` neither starts nor ends with white space, and is no longer than its input. |
| `GoStrings.TrimLeftSuffix` | main.go:73 | The leading-space trim keeps a suffix that does not start with white space and drops only white space. |
| `GoStrings.TrimRightPrefix` | main.go:73 | The trailing-space trim keeps a prefix that does not end with white space and drops only white space. |
| `GoStrings.TrimSpaceSplits` | main.go:73 | Every string is white space, then TrimSpace of it, then white space. |
| `GoStrings.TrimSpaceOf` | main.go:73 | For any trimmed t surrounded by white space, TrimSpace returns exactly t. This characterises TrimSpace uniquely. |
| `GoStrings.TrimSpacePadding` | main.go:73 | Adding white space on either side does not change TrimSpace's result. |
| `GoStrings.TrimSpaceIdempotent` | main.go:73 | Trimming twice gives the same result as trimming once. |
| `GoStrings.TrimSpaceEmpty` | main.go:73 | TrimSpace is empty if and only if its input is all white space. |
| `GoStrings.ToLower` | main.go:84 | `strings.ToLower` (ASCII letters) keeps the length. Each result character is the input character up to case, and none is an upper-case ASCII letter. |
| `GoStrings.ToLowerMatches` | main.go:84 | For a lower-case word w, ToLower(s) == w if and only if s equals w ignoring ASCII case. |
| `GoStrings.ToLowerAsciiOnly` | main.go:84 | If ToLower(s) equals an ASCII word, s is ASCII. |
| `Utf8.Encode` | main.go:134 | Each character takes one to four bytes. |
| `Utf8.DecodeEncode` | main.go:134 | Decoding the UTF-8 bytes of a string gives the string back, so distinct messages have distinct data. |
| `Utf8.EncodeAscii` | main.go:134 | An ASCII string encodes to one byte per character, each byte being the character's code. |
| `Scenarios.HandshakeScenario` | main.go:84-117 | A POSTed "SubscriptionConfirmation" from the expected topic, whose GET answers 200, gets 200 and exactly one GET to https://sns.example/confirm?token=abc. |
| `Scenarios.NotificationScenario` | main.go:118-149 | A POSTed "Notification" from the expected topic, with an acknowledged publish, gets 200 and exactly one publish to "events-in". The publish carries the bytes of Message and {snsMessageId: "mid-1", snsSubject: "hi"}. |
| `Scenarios.ForeignTopicScenario` | main.go:73-82 | A notification from arn:aws:sns:us-east-1:000000000000:other gets 403 and no outbound call. |
| `Scenarios.WrongMethodScenario` | main.go:118-124 | A notification sent with GET gets 405 and no outbound call. |
| `Scenarios.UnknownKindScenario` | main.go:151-154 | "UnsubscribeConfirmation" gets 400 and no outbound call. |
| `Scenarios.PublishFailureScenario` | main.go:141-146 | A failed publish gets 500 after the single publish attempt, with no retry. |

## Left out

- Reading the body (`ioutil.ReadAll`, main.go:58) is I/O. The model takes its outcome as an input, `Body.Unreadable`.
- JSON decoding (`json.Unmarshal`, main.go:66-67) is a library the model does not contain. The model takes the decoded envelope or `Body.Undecodable` as an input. Which bodies decode, and what missing fields default to, is therefore not modelled.
- The outbound `net/http` client (main.go:96-109) is modelled only by its outcome: not built, transport failure, or a status code. That outcome is an input and does not depend on the URL. For example, the model does not capture that an empty SubscribeURL fails. Go's default client follows up to 10 redirects inside `client.Do` (main.go:104), so the single `Get(url)` in the trace is the one request the handler makes, not every GET on the wire, and `Responded(code)` is the status of the final response.
- The Pub/Sub client, `Topic(..).Publish(..).Get(..)` (main.go:141), is modelled only by its outcome. Cancellation through `r.Context()` is not modelled.
- `init`, the environment globals and `log.Fatalf` (main.go:31-51) are process start-up. The configuration is an immutable `Config` parameter, and the client is assumed to exist.
- The log lines and the text of `http.Error` are not modelled. Only the status code is observable in the model.
- `GoStrings.ToLower` lower-cases ASCII letters only. Go's `strings.ToLower` also maps other letters. Some of them map to ASCII: U+0130 becomes `i`, so Go dispatches "NOTİFİCATİON" as a notification and the model answers 400. `SnsRelay.ClassifyIgnoresCase` shows that the model recognises only ASCII kinds. On those, it agrees with Go.
- `GoStrings.TrimSpace` removes the characters `unicode.IsSpace` accepts, which are listed explicitly. Strings are sequences of Unicode scalar values, so Go's treatment of invalid UTF-8 bytes is not modelled. Go's JSON decoder never produces invalid UTF-8 in `TopicArn`, and `SNS_ARN` (read with `os.Getenv`, main.go:36) is assumed to be valid UTF-8; `Config` cannot express an invalid byte there, which would make Go reject every callback at main.go:73.
- Concurrent invocations are not modelled. Each call is an independent function application, and the decision logic has no shared mutable state.
- The handler does not deduplicate. `Handle` keeps no record of earlier calls, so the same callback sent twice is published twice; each reply depends only on that call's request and I/O outcomes.
