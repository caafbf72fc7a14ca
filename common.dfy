/** Values shared by every module of the client model: optional values, results,
    and the ways a command of the client stops early. */
module Common {

  /** Python's `None` or a present value. */
  datatype Option<T> = None | Some(value: T)

  /** Every way a command stops before its normal end: the exceptions the source raises
      (or lets escape) and its `sys.exit` calls. */
  datatype Failure =
    | InvalidEnvironment(environment: string)  // terrain_uri: the environment has no base URL
    | Exit(code: int)                          // sys.exit(code) after a rejected login
    | IndexError                               // token.split(".", 3)[1] on a token without a "."
    | DecodeError                              // base64 or JSON decoding of the payload raised
    | HttpError(status: int)                   // raise_for_status rejected an API reply
    | UnexpectedBody                           // the "result" of an API reply has the wrong shape
    | LoginAbandoned                           // the scripted identity-provider replies ran out

  /** A value, or the failure that stopped the computation. */
  datatype Result<T> = Ok(value: T) | Err(error: Failure)
}
