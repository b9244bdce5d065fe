/**
 The per-event reply policy of `reply`: which call, if any, one event leads to.
 An event without a reply token leads to none; a text message is echoed
 verbatim; anything else, an absent message included, gets a fixed apology.
 */
module ReplyPolicy {
  import opened Results
  import opened WebhookEvent
  import opened LineClient

  /** The apology sent for every event that does not carry a text message. */
  const NonTextReply: string := "テキストメッセージ以外のイベントには対応していません"

  /** The text payload of the event's message, present exactly for text messages. */
  function GetTextMessage(event: Event): (r: Option<Text>)
    ensures r.Some? <==> IsText(event)
    ensures r.Some? ==> event.message == Some(TextMessage(r.value))
  {
    match event.message
    case Some(TextMessage(text)) => Some(text)
    case _ => None
  }

  /** A text message object carrying `text` unchanged: no trimming, no length cap. */
  function CreateTextMessage(text: string): (m: MessageObject)
    ensures m.text == text
  {
    TextObject(text)
  }

  /** The call `reply` makes for `event`, or `None` when it makes none. */
  function Plan(event: Event): (p: Option<Call>)
    ensures p.None? <==> event.replyToken.None?
    ensures p.Some? ==> p.value.replyToken == event.replyToken.value
    ensures p.Some? ==> |p.value.messages| == 1
    ensures p.Some? && IsText(event) ==> p.value.messages[0].text == event.message.value.content.text
    ensures p.Some? && !IsText(event) ==> p.value.messages[0].text == NonTextReply
  {
    match event.replyToken
    case None => None
    case Some(replyToken) =>
      match GetTextMessage(event)
      case Some(text) => Some(Call(replyToken, [CreateTextMessage(text.text)]))
      case None => Some(Call(replyToken, [CreateTextMessage(NonTextReply)]))
  }

  /** The calls for one event as a sequence: empty or a single call. */
  function Planned(event: Event): seq<Call> {
    match Plan(event)
    case None => []
    case Some(call) => [call]
  }

  /** Echo identity: a text event with token `r` and text `t` leads to exactly the call `(r, [Text t])`. */
  lemma EchoIdentity(event: Event, r: string, t: string)
    requires event.replyToken == Some(r)
    requires event.message.Some? && event.message.value.TextMessage?
    requires event.message.value.content.text == t
    ensures Planned(event) == [Call(r, [TextObject(t)])]
  {
  }

  /** Fallback: a tokened event whose message is absent or not text leads to exactly the apology call. */
  lemma NonTextFallback(event: Event, r: string)
    requires event.replyToken == Some(r)
    requires event.message.None? || !event.message.value.TextMessage?
    ensures Planned(event) == [Call(r, [TextObject(NonTextReply)])]
  {
  }

  /** No token, no call; and a token is spent by at most one call of its own event. */
  lemma TokenSpentAtMostOnce(event: Event)
    ensures event.replyToken.None? <==> Planned(event) == []
    ensures |Planned(event)| <= 1
    ensures forall call :: call in Planned(event) ==> Some(call.replyToken) == event.replyToken
  {
  }
}
