/** Error values shared by the whole model.
  * Go's `error` interface becomes the datatype `Error`; a nil error is `None`.
  * The variants are the error kinds the program distinguishes by type switch or
  * by construction; Go type identity (pointer versus value receivers) is not modelled. */
module Errors {

  datatype Option<+T> = None | Some(value: T)

  datatype Result<+T> = Ok(value: T) | Err(error: Error)

  /** The `challenge` object nested in a challenge_required response. */
  datatype ChallengeInfo = ChallengeInfo(
    url: string, apiPath: string, hideWebviewHeader: bool,
    lock: bool, logout: bool, nativeFlow: bool)

  /** instagram.ChallengeError */
  datatype ChallengeError = ChallengeError(
    message: string, challenge: ChallengeInfo, status: string, errorType: string)

  /** instagram.HTTPErrorGeneric */
  datatype HTTPErrorGeneric = HTTPErrorGeneric(message: string, status: string, errorType: string)

  /** instagram.HTTPError4xx, which embeds a ChallengeError (its Message and Error() are promoted
    * from the embedded value) and shadows Status with a field of its own. */
  datatype HTTPError4xx = HTTPError4xx(
    embedded: ChallengeError, action: string, statusCode: string,
    payloadClientContext: string, payloadMessage: string, status: string)

  datatype Error =
    | Generic(generic: HTTPErrorGeneric)
    | FourXX(fourxx: HTTPError4xx)
    | Challenge(challenge: ChallengeError)
    | ChallengeProcess(stepName: string)      // instagram.ChallengeProcessError
    | LoginRequired                           // the remote service asks for a new login
    | BroadcastStopped(broadcastID: int)      // broadcastStoppedError
    | Decode(reason: string)                  // JSON or base64 could not be decoded
    | Failure(reason: string)                 // transport, file system, a fmt.Errorf without a cause
    | Wrapped(context: string, cause: Error)  // fmt.Errorf("...: %v", cause): type switches do not see the cause
    | Panic(reason: string)                   // a Go run-time panic (nil dereference, index out of range)
}
