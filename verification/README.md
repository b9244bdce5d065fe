# Echo bot webhook handler, modelled in Dafny

This project models the core of a small echo bot for a messaging platform,
`src/handler.rs`. The platform POSTs a signed callback. The handler builds a
platform client from the environment, checks the callback's signature, decodes
the JSON body into a batch of events, spawns a detached dispatcher on that
batch, and answers 200 with an empty body. For each event the dispatcher calls
`reply`:

- an event without a reply token is skipped;
- a text message is echoed back verbatim;
- anything else, an absent message included, gets the fixed apology
  `テキストメッセージ以外のイベントには対応していません`.

A failed outbound call is only printed, so `reply` always returns `Ok` and the
batch always runs to the end.

Modules, leaves first:

- `Results`: Rust's `Option` and `Result`.
- `Errors`: `AppError` and its three variants. The foreign errors it wraps are opaque.
- `WebhookEvent`: `Root`, `Event`, `Message`, `Text`. The handler reads only the events, each event's reply token and message, and a text message's text. The model also keeps the destination, each event's type and the message ids, which the handler never reads. All other SDK fields are dropped.
- `LineClient`: the client and the outbound text message object. It also holds
  the record of reply calls and printed errors, and the two foreign collaborators
  as function types: the reply endpoint (`Transport`) and the signature check (`Verifier`).
- `ReplyPolicy`: `get_text_message`, `create_text_message`, and the decision `reply` makes for one event.
- `Dispatcher`: `reply_message`, `reply` and `webhook_handler`.
- `Ingress`: `env::var`, `create_line_bot_client` and `handler`.
- `EndToEnd`: one request followed by its spawned dispatcher, and the standard cases.

The reply endpoint is a parameter, `(calling client, calls so far, new call) -> Delivered | Failed(e)`.
Every contract about the dispatcher holds for every such transport, and that
is how failure isolation is stated. The signature check and the JSON decoder
are parameters too. `handler` is a pure function. It returns the response, the
foreign steps it took (with their arguments, in order) and the task it spawned.

## Model

| member | source | states |
|---|---|---|
| ReplyPolicy.GetTextMessage | src/handler.rs:93-98 | a text payload is returned exactly when the event's message is a text message, and it is that message's payload |
| ReplyPolicy.CreateTextMessage | src/handler.rs:100-102 | the message object built carries the given text unchanged |
| ReplyPolicy.Plan | src/handler.rs:104-121 | no call exactly when the reply token is absent; otherwise one call with the event's own token and one message, which echoes the text of a text message and is the apology for anything else |
| ReplyPolicy.EchoIdentity | src/handler.rs:110-113 | a text event with token r and text t leads to exactly the call (r, [Text t]) |
| ReplyPolicy.NonTextFallback | src/handler.rs:115-120 | a tokened event whose message is absent or not text leads to exactly the call (r, [Text apology]) |
| ReplyPolicy.TokenSpentAtMostOnce | src/handler.rs:105-108 | no token if and only if no call; at most one call per event, and only with the event's own token |
| Dispatcher.ReplyMessage | src/handler.rs:86-91 | the call is recorded whatever the transport answers; a failure's error is printed and nothing else changes |
| Dispatcher.Reply | src/handler.rs:104-124 | the result is always Ok; the event's planned call, if any, is appended to the calls, and its failure, if any, to the printed errors |
| Dispatcher.PlansAppend | src/handler.rs:80-82 | the calls for two consecutive stretches of a batch are the first stretch's calls followed by the second's |
| Dispatcher.FailuresAppend | src/handler.rs:80-91 | the errors printed over two consecutive stretches of calls are the first stretch's followed by the second's |
| Dispatcher.PlansFollowTokened | src/handler.rs:80-82 | a batch makes one call per tokened event, and call k is the plan of the k-th tokened event |
| Dispatcher.PlansSplitAt | src/handler.rs:80-82 | event i's call comes after the calls of all earlier events and before those of all later ones |
| Dispatcher.NoTokensNoCalls | src/handler.rs:105-108 | a batch in which no event carries a reply token makes no call |
| Dispatcher.WebhookHandler | src/handler.rs:76-84 | for every transport the result is Ok and the calls made are the in-order concatenation of the per-event plans, one per tokened event; every failed call's error is printed in order; the `?` never stops the loop early |
| Ingress.EnvVar | src/handler.rs:56-58 | a value is returned exactly when the variable is set to Unicode text; an unset variable gives NotPresent |
| Ingress.CreateClientFrom | src/handler.rs:54-60 | construction succeeds exactly when all three variables are readable, with their values as the credentials; otherwise the first unreadable variable's error, as an environment error |
| Ingress.CreateClientAsWritten | src/handler.rs:58 | as written, the channel id is taken from `CHANNE_ID` |
| Ingress.CreateClient | src/handler.rs:54-60 | corrected: succeeds exactly when the three documented variables are set to Unicode text, and copies their values into the client |
| Ingress.ChannelIdTypo | src/handler.rs:58 | with all documented variables set, the code as written fails with NotPresent and the corrected construction succeeds |
| Ingress.HandlerFrom | src/handler.rs:29-48 | for a client reading its channel id from a given variable: the steps taken are a prefix of client, verify, decode, spawn; the response is Ok exactly when a dispatcher is spawned, which is exactly when every step ran; an Ok response is 200 with an empty body; a client-construction error is the response |
| Ingress.HandlerAsWritten | src/handler.rs:29-58 | as written (channel id from `CHANNE_ID`): with `CHANNE_ID` unset every request is rejected and nothing is spawned |
| Ingress.AsWrittenRejectsEveryRequest | src/handler.rs:37-58 | with the documented variables set and `CHANNE_ID` unset, the code as written answers every request with `Env(NotPresent)` after building the client only, whatever the signature and body, while the corrected client construction succeeds |
| Ingress.Handler | src/handler.rs:29-48 | corrected client construction: the steps taken are a prefix of client, verify, decode, spawn; the response is Ok exactly when a dispatcher is spawned, which is exactly when every step ran; an Ok response is 200 with an empty body |
| Ingress.EnvironmentFirst | src/handler.rs:37 | an environment error is returned after building the client and before any signature check |
| Ingress.SignatureRequired | src/handler.rs:41 | a failed signature check returns that SDK error; nothing is decoded and nothing is spawned |
| Ingress.DecodeRequired | src/handler.rs:43-45 | a failed decode returns that JSON error; nothing is spawned |
| Ingress.NoDispatchUnlessVerifiedAndDecoded | src/handler.rs:37-45 | a task is spawned if and only if the client was built, the signature checked out and the body decoded; it carries the decoded batch and that client |
| Ingress.SameBodyVerifiedAndDecoded | src/handler.rs:39-43 | the run depends on the signature check only at the header's signature and the request body, and on the decoder only at that same body: changing either collaborator anywhere else leaves the run unchanged |
| EndToEnd.Serve | src/handler.rs:41-47 | the response is the acknowledgement exactly when the client, signature and decode steps succeed; a rejected request makes no call; an accepted one makes exactly the calls planned for its decoded batch, whatever the transport answers |
| EndToEnd.Accepted | src/handler.rs:37-47 | a verified request whose body decodes to a batch runs the whole pipeline, is acknowledged and spawns the dispatcher on that batch |
| EndToEnd.EchoCase | src/handler.rs:110-113 | one text event "hello" with token "rt1" leads to the single call ("rt1", [Text "hello"]) |
| EndToEnd.NonTextCase | src/handler.rs:115-120 | one image event with token "rt2" leads to the single apology call |
| EndToEnd.NoTokenCase | src/handler.rs:105-108 | a text event without a reply token leads to no call |
| EndToEnd.MixedBatchCase | src/handler.rs:80-82 | text "a" with "rtA" then an image with "rtB" lead to the echo call and then the apology call |
| EndToEnd.EmptyTokenStillReplied | src/handler.rs:105-107 | an empty reply token is still spent: only an absent token suppresses the reply |

Where the design documentation and the code disagree, the model follows the code:

- The documentation says a reply is attempted only for a non-empty reply
  token. The code replies whenever a token is present, even an empty one.
  See `EndToEnd.EmptyTokenStillReplied`.
- The documentation describes one client created at startup. The code builds
  a fresh client on every request, and so does `EndToEnd.Serve`.
- The documentation gives HTTP status classes for rejected requests. The code
  returns `Err(AppError)` and leaves the status to the web framework's error
  conversion, which is not part of this model. A rejection is therefore
  modelled as `Err` carrying the error, with no status.
- The documentation calls a missing or empty credential variable a fatal
  startup error. The code reads the variables on every request, and
  `env::var` accepts an empty value. `Ingress.EnvVar` and
  `Ingress.CreateClient` accept an empty value too: only an unset or
  non-Unicode variable is an error.

## Findings

| source | as written | input that shows it | evidently intended | confidence | as-written member | corrected member |
|---|---|---|---|---|---|---|
| src/handler.rs:58 | the channel id is read from the variable `CHANNE_ID` | an environment with `CHANNEL_ACCESS_TOKEN`, `CHANNEL_SECRET` and `CHANNEL_ID` set and `CHANNE_ID` unset: client construction fails with `Env(NotPresent)` and every request is rejected | read `CHANNEL_ID`, the documented variable | medium; not executed | Ingress.CreateClientAsWritten, Ingress.ChannelIdTypo, Ingress.HandlerAsWritten, Ingress.AsWrittenRejectsEveryRequest | Ingress.CreateClient, Ingress.Handler |

Both handlers are instances of `Ingress.HandlerFrom`. `Ingress.HandlerAsWritten` reads `CHANNE_ID`. `Ingress.Handler` reads `CHANNEL_ID` through the corrected `Ingress.CreateClient`, and everything else in the model is built on it.

## Left out

- Signature checking (HMAC-SHA256 over the body, base64, done inside the platform SDK) is not modelled. It is the abstract `Verifier` over secret, signature and body.
- JSON decoding into the SDK's `Root` (serde) is not modelled. It is the abstract `Decoder`. Event fields other than type, reply token and message are dropped, and so are message fields other than the text and an id.
- Spawning, async/await and detached-task timing are not modelled. `handler` returns the task it spawns. `EndToEnd.Serve` runs that task to completion after the response is fixed, and replies run one after another, in order.
- Loading the dotenv file (`read_dotenv`) is not modelled. The environment is given as a map, as it is after the file has been merged in.
- The `info!` log of the request body is left out. For the `println!` of a failed reply, only the error is kept, in the `printed` sequence; the message text is dropped.
- `get_signature_from_header` is left out: the signature is a field of `Request`.
- Dispatcher.WebhookHandler: returns `Ok(())` instead of `Ok(HttpResponse::Ok().json("Ok"))`, because the spawned task's value is discarded.
- The reply endpoint's options argument (always `None`) and its success value (ignored) are not modelled.
- Outbound message objects other than text are left out: the bot never builds them.
- `src/main.rs` is left out: server bootstrap, logger setup and socket binding, all I/O.
- The `Display` text of `AppError` from `src/error.rs` is left out. Only its three variants are kept.
