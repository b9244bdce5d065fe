/**
 The request pipeline of `handler`: build the client from the environment,
 verify the signature of the raw body, decode the body, spawn the dispatcher on
 the decoded batch, and acknowledge with 200 and an empty body. The first
 failing step ends the request with its error; no later step runs.
 */
module Ingress {
  import opened Results
  import opened Errors
  import opened WebhookEvent
  import opened LineClient

  /** A value of the process environment: valid Unicode text or not. */
  datatype OsString = Unicode(text: string) | NonUnicode

  /** The process environment, after the dotenv file has been merged in. */
  type Environment = map<string, OsString>

  /** JSON decoding of the raw body into the webhook payload. */
  type Decoder = string -> Result<Root, JsonError>

  /** The incoming callback: its raw body and its signature header. */
  datatype Request = Request(body: string, signature: string)

  /** The HTTP response sent back to the platform. */
  datatype HttpResponse = HttpResponse(status: nat, body: string)

  /** The detached dispatcher task: the decoded batch and the client it replies with. */
  datatype Task = Task(root: Root, client: Client)

  /** The foreign steps of the pipeline, with the arguments each one is given. */
  datatype Step =
    | BuildClient
    | VerifySignature(signature: string, body: string)
    | DecodeJson(body: string)
    | SpawnDispatcher

  /** What one request did: the response, the steps taken in order, and the task spawned, if any. */
  datatype Run = Run(response: Result<HttpResponse, AppError>, steps: seq<Step>, spawned: Option<Task>)

  /** The full pipeline of a request, in the order the handler runs it. */
  function Pipeline(request: Request): seq<Step> {
    [BuildClient, VerifySignature(request.signature, request.body), DecodeJson(request.body), SpawnDispatcher]
  }

  /** The acknowledgement: 200 with an empty body. */
  const Acknowledged: HttpResponse := HttpResponse(200, "")

  /** `env::var`: the value of `name`, or why there is none. */
  function EnvVar(env: Environment, name: string): (r: Result<string, VarError>)
    ensures r.Ok? <==> name in env && env[name].Unicode?
    ensures r.Ok? ==> env[name] == Unicode(r.value)
    ensures r == Err(NotPresent) <==> name !in env
  {
    if name !in env then Err(NotPresent)
    else match env[name]
      case Unicode(text) => Ok(text)
      case NonUnicode => Err(NotUnicode)
  }

  /**
   Client construction reading the access token, the secret and the channel id
   from the variables of those names, in that order; the first one missing ends
   construction with its error.
   */
  function CreateClientFrom(env: Environment, idVar: string): (r: Result<Client, AppError>)
    ensures r.Ok? <==> EnvVar(env, "CHANNEL_ACCESS_TOKEN").Ok? && EnvVar(env, "CHANNEL_SECRET").Ok?
                       && EnvVar(env, idVar).Ok?
    ensures r.Ok? ==> r.value == Client(env["CHANNEL_ACCESS_TOKEN"].text, env["CHANNEL_SECRET"].text,
                                        env[idVar].text)
    ensures EnvVar(env, "CHANNEL_ACCESS_TOKEN").Err? ==> r == Err(Env(EnvVar(env, "CHANNEL_ACCESS_TOKEN").error))
    ensures EnvVar(env, "CHANNEL_ACCESS_TOKEN").Ok? && EnvVar(env, "CHANNEL_SECRET").Err?
            ==> r == Err(Env(EnvVar(env, "CHANNEL_SECRET").error))
    ensures EnvVar(env, "CHANNEL_ACCESS_TOKEN").Ok? && EnvVar(env, "CHANNEL_SECRET").Ok? && EnvVar(env, idVar).Err?
            ==> r == Err(Env(EnvVar(env, idVar).error))
  {
    match EnvVar(env, "CHANNEL_ACCESS_TOKEN")
    case Err(e) => Err(Env(e))
    case Ok(accessToken) =>
      match EnvVar(env, "CHANNEL_SECRET")
      case Err(e) => Err(Env(e))
      case Ok(secret) =>
        match EnvVar(env, idVar)
        case Err(e) => Err(Env(e))
        case Ok(channelId) => Ok(Client(accessToken, secret, channelId))
  }

  /** Client construction as the code is written: the channel id is read from `CHANNE_ID`. */
  function CreateClientAsWritten(env: Environment): (r: Result<Client, AppError>)
    ensures r.Ok? <==> EnvVar(env, "CHANNEL_ACCESS_TOKEN").Ok? && EnvVar(env, "CHANNEL_SECRET").Ok?
                       && EnvVar(env, "CHANNE_ID").Ok?
    ensures r.Ok? ==> r.value.channelId == env["CHANNE_ID"].text
  {
    CreateClientFrom(env, "CHANNE_ID")
  }

  /** Client construction reading the channel id from `CHANNEL_ID`, the documented variable. */
  function CreateClient(env: Environment): (r: Result<Client, AppError>)
    ensures r.Ok? <==> (forall name :: name in CredentialVars ==> name in env && env[name].Unicode?)
    ensures r.Ok? ==> r.value.channelAccessToken == env["CHANNEL_ACCESS_TOKEN"].text
    ensures r.Ok? ==> r.value.channelSecret == env["CHANNEL_SECRET"].text
    ensures r.Ok? ==> r.value.channelId == env["CHANNEL_ID"].text
    ensures r.Err? ==> r.error.Env?
  {
    CreateClientFrom(env, "CHANNEL_ID")
  }

  /** The three documented credential variables. */
  const CredentialVars: set<string> := {"CHANNEL_ACCESS_TOKEN", "CHANNEL_SECRET", "CHANNEL_ID"}

  /**
   `handler`, with the channel id read from `idVar`: the pipeline over the
   environment, the client's signature check and the JSON decoder. The
   dispatcher is not run here: it is spawned as a detached task, and the
   response never waits for it.
   */
  function HandlerFrom(request: Request, env: Environment, idVar: string, verify: Verifier, decode: Decoder): (run: Run)
    ensures 1 <= |run.steps| <= |Pipeline(request)|
    ensures run.steps == Pipeline(request)[..|run.steps|]
    ensures run.response.Ok? <==> run.spawned.Some?
    ensures run.spawned.Some? <==> run.steps == Pipeline(request)
    ensures run.response.Ok? ==> run.response.value == Acknowledged
    ensures CreateClientFrom(env, idVar).Err? ==> run.response == Err(CreateClientFrom(env, idVar).error)
  {
    match CreateClientFrom(env, idVar)
    case Err(e) => Run(Err(e), [BuildClient], None)
    case Ok(client) =>
      var signature := request.signature;
      match verify(client.channelSecret, signature, request.body)
      case Err(e) =>
        Run(Err(LineBotSdkError(e)), [BuildClient, VerifySignature(signature, request.body)], None)
      case Ok(_) =>
        match decode(request.body)
        case Err(e) =>
          Run(Err(SerdeJson(e)),
              [BuildClient, VerifySignature(signature, request.body), DecodeJson(request.body)], None)
        case Ok(root) =>
          Run(Ok(Acknowledged), Pipeline(request), Some(Task(root, client)))
  }

  /** `handler` as the code is written: the client reads its channel id from `CHANNE_ID`. */
  function HandlerAsWritten(request: Request, env: Environment, verify: Verifier, decode: Decoder): (run: Run)
    ensures "CHANNE_ID" !in env ==> run.response.Err? && run.spawned.None?
  {
    HandlerFrom(request, env, "CHANNE_ID", verify, decode)
  }

  /** `handler` with the client built by the corrected `CreateClient`. */
  function Handler(request: Request, env: Environment, verify: Verifier, decode: Decoder): (run: Run)
    ensures 1 <= |run.steps| <= |Pipeline(request)|
    ensures run.steps == Pipeline(request)[..|run.steps|]
    ensures run.response.Ok? <==> run.spawned.Some?
    ensures run.spawned.Some? <==> run.steps == Pipeline(request)
    ensures run.response.Ok? ==> run.response.value == Acknowledged
  {
    HandlerFrom(request, env, "CHANNEL_ID", verify, decode)
  }

  /**
   The channel-id typo at the handler level: with the documented variables set
   and `CHANNE_ID` unset, the code as written rejects every request with
   `Env(NotPresent)` before looking at its signature, whatever the signature
   check and the decoder would say.
   */
  lemma AsWrittenRejectsEveryRequest(request: Request, env: Environment, verify: Verifier, decode: Decoder)
    requires forall name :: name in CredentialVars ==> name in env && env[name].Unicode?
    requires "CHANNE_ID" !in env
    ensures HandlerAsWritten(request, env, verify, decode) == Run(Err(Env(NotPresent)), [BuildClient], None)
    ensures CreateClient(env).Ok?
  {
    assert "CHANNEL_ACCESS_TOKEN" in CredentialVars && "CHANNEL_SECRET" in CredentialVars;
  }

  /** An environment error is returned before the signature is looked at. */
  lemma EnvironmentFirst(request: Request, env: Environment, verify: Verifier, decode: Decoder)
    requires CreateClient(env).Err?
    ensures Handler(request, env, verify, decode)
         == Run(Err(CreateClient(env).error), [BuildClient], None)
  {
  }

  /** A failed signature check is returned as an SDK error; nothing is decoded and nothing is spawned. */
  lemma SignatureRequired(request: Request, env: Environment, verify: Verifier, decode: Decoder)
    requires CreateClient(env).Ok?
    requires verify(CreateClient(env).value.channelSecret, request.signature, request.body).Err?
    ensures var run := Handler(request, env, verify, decode);
      && run.response
         == Err(LineBotSdkError(verify(CreateClient(env).value.channelSecret, request.signature, request.body).error))
      && DecodeJson(request.body) !in run.steps
      && run.spawned.None?
  {
  }

  /** A failed decode is returned as a JSON error; nothing is spawned. */
  lemma DecodeRequired(request: Request, env: Environment, verify: Verifier, decode: Decoder)
    requires CreateClient(env).Ok?
    requires verify(CreateClient(env).value.channelSecret, request.signature, request.body).Ok?
    requires decode(request.body).Err?
    ensures var run := Handler(request, env, verify, decode);
      && run.response == Err(SerdeJson(decode(request.body).error))
      && SpawnDispatcher !in run.steps
      && run.spawned.None?
  {
  }

  /**
   No dispatch unless verified and decoded: a task is spawned exactly when the
   client was built, the signature checked out and the body decoded, and it
   carries that decoded batch and that client.
   */
  lemma NoDispatchUnlessVerifiedAndDecoded(request: Request, env: Environment, verify: Verifier, decode: Decoder)
    ensures var run := Handler(request, env, verify, decode);
      run.spawned.Some? <==>
        && CreateClient(env).Ok?
        && verify(CreateClient(env).value.channelSecret, request.signature, request.body).Ok?
        && decode(request.body).Ok?
    ensures var run := Handler(request, env, verify, decode);
      run.spawned.Some? ==> run.spawned.value == Task(decode(request.body).value, CreateClient(env).value)
  {
  }

  /**
   The body whose signature is checked is the very body that is decoded: the
   run depends on the signature check only at the request's signature and body,
   and on the decoder only at the request's body.
   */
  lemma SameBodyVerifiedAndDecoded(request: Request, env: Environment,
                                   verify: Verifier, verify': Verifier, decode: Decoder, decode': Decoder)
    requires forall secret :: verify'(secret, request.signature, request.body) == verify(secret, request.signature, request.body)
    requires decode'(request.body) == decode(request.body)
    ensures Handler(request, env, verify', decode') == Handler(request, env, verify, decode)
  {
  }

  /**
   The channel-id typo: with every documented variable set, the code as written
   still fails, because it looks for `CHANNE_ID`; the corrected construction succeeds.
   */
  lemma ChannelIdTypo()
    ensures var env: Environment := map["CHANNEL_ACCESS_TOKEN" := Unicode("token"),
                                        "CHANNEL_SECRET" := Unicode("secret"),
                                        "CHANNEL_ID" := Unicode("1234")];
      && CreateClientAsWritten(env) == Err(Env(NotPresent))
      && CreateClient(env) == Ok(Client("token", "secret", "1234"))
  {
  }
}
