/**
 The decoded webhook payload: a batch of events, each with an optional reply
 token and an optional message. Only the fields the handler reads are kept.
 */
module WebhookEvent {
  import opened Results

  /** The payload of a text message. */
  datatype Text = Text(id: string, text: string)

  /** The message variants of a message event; every one but `TextMessage` is "non-text". */
  datatype Message =
    | TextMessage(content: Text)
    | Image(id: string)
    | Video(id: string)
    | Audio(id: string)
    | File(id: string)
    | Location(id: string)
    | Sticker(id: string)

  /** One webhook event. `kind` is the event's `type` field ("message", "follow", ...). */
  datatype Event = Event(kind: string, replyToken: Option<string>, message: Option<Message>)

  /** The whole callback body: the destination bot and the events in delivery order. */
  datatype Root = Root(destination: string, events: seq<Event>)

  /** The event carries a text message. */
  predicate IsText(event: Event) {
    event.message.Some? && event.message.value.TextMessage?
  }
}
