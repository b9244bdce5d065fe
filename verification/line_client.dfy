/**
 The platform client as the handler sees it. The outbound reply endpoint is a
 collaborator whose answers are not known in advance, so it is a parameter: a
 transport that, given the calling client, the calls already made and the new
 call, says whether the call was delivered or failed.
 */
module LineClient {
  import opened Results
  import opened Errors

  /** A client built from the three channel credentials. */
  datatype Client = Client(channelAccessToken: string, channelSecret: string, channelId: string)

  /** An outbound message object. Only text objects are ever built by the bot. */
  datatype MessageObject = TextObject(text: string)

  /** One call of the reply endpoint: the token spent and the messages sent with it. */
  datatype Call = Call(replyToken: string, messages: seq<MessageObject>)

  /** What the reply endpoint answered for one call. */
  datatype Delivery = Delivered | Failed(error: SdkError)

  /**
   The reply endpoint: its answer may depend on the calling client (whose
   access token authorises the call) and on every call made before.
   */
  type Transport = (Client, seq<Call>, Call) -> Delivery

  /**
   Signature verification by the client: channel secret, header signature and
   raw body in, success or an SDK error out.
   */
  type Verifier = (string, string, string) -> Result<(), SdkError>

  /** What one client has done so far: the calls in order, and the errors printed for failed ones. */
  datatype Outbound = Outbound(calls: seq<Call>, printed: seq<SdkError>)
}
