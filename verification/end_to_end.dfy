/**
 A request followed by its detached dispatcher, and the end-to-end cases the
 bot is meant to handle. The response is fixed before the dispatcher runs, so
 nothing the reply endpoint does can change it.
 */
module EndToEnd {
  import opened Results
  import opened Errors
  import opened WebhookEvent
  import opened LineClient
  import opened ReplyPolicy
  import opened Dispatcher
  import opened Ingress

  /**
   One request served with a fresh client: the handler's response, then the
   spawned dispatcher, when there is one, run to completion.
   */
  method Serve(request: Request, env: Environment, verify: Verifier, decode: Decoder, transport: Transport)
    returns (response: Result<HttpResponse, AppError>, out: Outbound)
    ensures response.Ok? ==> response.value == Acknowledged
    ensures response.Ok? <==> CreateClient(env).Ok?
                              && verify(CreateClient(env).value.channelSecret, request.signature, request.body).Ok?
                              && decode(request.body).Ok?
    ensures response.Err? ==> out.calls == []
    ensures response.Ok? ==> out.calls == Plans(decode(request.body).value.events)
  {
    var run := Handler(request, env, verify, decode);
    NoDispatchUnlessVerifiedAndDecoded(request, env, verify, decode);
    response := run.response;
    out := Outbound([], []);
    if run.spawned.Some? {
      var task := run.spawned.value;
      var _, dispatched := WebhookHandler(task.root, task.client, out, transport);
      out := dispatched;
    }
  }

  const Fallback: seq<MessageObject> := [TextObject(NonTextReply)]

  function TextEvent(replyToken: string, id: string, text: string): Event {
    Event("message", Some(replyToken), Some(TextMessage(Text(id, text))))
  }

  function ImageEvent(replyToken: string, id: string): Event {
    Event("message", Some(replyToken), Some(Image(id)))
  }

  /** The request is accepted and spawns a dispatcher on exactly `root`. */
  predicate AcceptedWith(request: Request, env: Environment, verify: Verifier, decode: Decoder, root: Root) {
    && CreateClient(env).Ok?
    && Handler(request, env, verify, decode) == Run(Ok(Acknowledged), Pipeline(request), Some(Task(root, CreateClient(env).value)))
  }

  /** A verified, decodable request whose body decodes to `root` is accepted with `root`. */
  lemma Accepted(request: Request, env: Environment, verify: Verifier, decode: Decoder, root: Root)
    requires CreateClient(env).Ok?
    requires verify(CreateClient(env).value.channelSecret, request.signature, request.body).Ok?
    requires decode(request.body) == Ok(root)
    ensures AcceptedWith(request, env, verify, decode, root)
  {
  }

  /** Echo: one text event "hello" with token "rt1" leads to the single call `("rt1", [Text "hello"])`. */
  lemma EchoCase()
    ensures Plans([TextEvent("rt1", "1", "hello")]) == [Call("rt1", [TextObject("hello")])]
  {
  }

  /** Non-text: one image event with token "rt2" leads to the single apology call. */
  lemma NonTextCase()
    ensures Plans([ImageEvent("rt2", "2")]) == [Call("rt2", Fallback)]
  {
  }

  /** No reply token: no call, even for a text message. */
  lemma NoTokenCase()
    ensures Plans([Event("message", None, Some(TextMessage(Text("3", "hi"))))]) == []
  {
  }

  /** Mixed batch: text "a" with "rtA" then an image with "rtB" lead to the two calls in that order. */
  lemma MixedBatchCase()
    ensures Plans([TextEvent("rtA", "1", "a"), ImageEvent("rtB", "2")])
         == [Call("rtA", [TextObject("a")]), Call("rtB", Fallback)]
  {
  }

  /** An event with an empty reply token is still replied to: only an absent token stops the reply. */
  lemma EmptyTokenStillReplied()
    ensures Plans([TextEvent("", "4", "x")]) == [Call("", [TextObject("x")])]
  {
  }
}
