/**
 The application error of the bot (`AppError`) and the foreign errors it wraps.
 The foreign errors are opaque: only their identity matters to the handler.
 */
module Errors {

  /** `std::env::VarError`: the variable is unset, or its value is not valid Unicode. */
  datatype VarError = NotPresent | NotUnicode

  /** A `serde_json::Error`, reduced to its message. */
  datatype JsonError = JsonError(message: string)

  /** A `line_bot_sdk::Error` (signature or transport failure), reduced to its message. */
  datatype SdkError = SdkError(message: string)

  /** `AppError`: one variant per fallible step of the request pipeline. */
  datatype AppError =
    | Env(varError: VarError)
    | SerdeJson(jsonError: JsonError)
    | LineBotSdkError(sdkError: SdkError)
}
