/** The login challenge flow of the API client (instagram/challenge.go).
  * A remote reply (the HTTP exchange of a request together with the JSON decoding of its body)
  * is a parameter of type ChallengeReply; each exchange goes through the client's `Receive`,
  * which refreshes its cookies and CSRF token. The requests the flow sends are returned as
  * `ChallengeRequest` values. */
module InstagramChallenge {
  import opened Errors
  import opened Text
  import opened InstagramRequest

  /** ChallengeStepData (the untyped resend_delay field is left out). */
  datatype StepData = StepData(
    choice: string, fbAccessToken: string, bigBlueToken: string, googleOauthToken: string,
    email: string, securityCode: string, contactPoint: string, formType: string)

  /** The JSON fields of a Challenge: everything but the client back-pointer. */
  datatype ChallengeState = ChallengeState(
    stepName: string, stepData: StepData, loggedInUser: Option<Account>, userID: int,
    nonceCode: string, action: string, status: string)

  /** A challenge reply: the exchange of the request, and the JSON decoding of its body, where
    * `Err(e)` is a decoding failure, `Ok(Some(state))` the decoded challenge, and `Ok(None)` a
    * body that decoded but carried none of the challenge's fields, so the embedded challenge
    * pointer stayed nil. */
  datatype ChallengeReply = ChallengeReply(exchange: Exchange, decoded: Result<Option<ChallengeState>>)

  /** The outcome of a challenge request: the request's error, else the decoding's, else a nil
    * dereference for a body without a challenge, else nothing. */
  function ReplyError(reply: ChallengeReply): (e: Option<Error>)
    ensures ExchangeError(reply.exchange).Some? ==> e == ExchangeError(reply.exchange)
    ensures e.None? <==>
      ExchangeError(reply.exchange).None? && reply.decoded.Ok? && reply.decoded.value.Some?
    ensures ExchangeError(reply.exchange).None? && reply.decoded.Err? ==> e == Some(reply.decoded.error)
    ensures ExchangeError(reply.exchange).None? && reply.decoded == Ok(None) ==> e.Some? && e.value.Panic?
  {
    if ExchangeError(reply.exchange).Some? then ExchangeError(reply.exchange)
    else
      match reply.decoded
      case Err(error) => Some(error)
      case Ok(None) => Some(Panic("nil pointer dereference"))
      case Ok(Some(_)) => None
  }

  /** The challenge a successful reply carries. */
  function ReplyState(reply: ChallengeReply): ChallengeState
    requires ReplyError(reply).None?
  {
    reply.decoded.value.value
  }

  const EmptyState := ChallengeState("", StepData("", "", "", "", "", "", "", ""), None, 0, "", "", "")

  const SelectVerifyMethodStep := "select_verify_method"
  const DeltaLoginReviewStep := "delta_login_review"

  /** A request sent to the challenge endpoint, with the prepareData payload it carried
    * before signing. */
  datatype ChallengeRequest = ChallengeRequest(endpoint: string, isPost: bool, payload: map<string, string>)

  /** What Process does after refreshing the state. */
  datatype Step = Select(choice: string) | Unsupported(stepName: string)

  /** The dispatch of Process on the step name: select_verify_method answers with the offered
    * choice, delta_login_review with choice "0" ("it was me"), anything else is an error
    * naming the step. */
  function NextStep(s: ChallengeState): (st: Step)
    ensures s.stepName == SelectVerifyMethodStep ==> st == Select(s.stepData.choice)
    ensures s.stepName == DeltaLoginReviewStep ==> st == Select("0")
    ensures st.Unsupported? <==> s.stepName != SelectVerifyMethodStep && s.stepName != DeltaLoginReviewStep
    ensures st.Unsupported? ==> st.stepName == s.stepName
  {
    if s.stepName == SelectVerifyMethodStep then Select(s.stepData.choice)
    else if s.stepName == DeltaLoginReviewStep then Select("0")
    else Unsupported(s.stepName)
  }

  /** The error Process returns for the refresh reply and the reply to the answer it sends. */
  function ProcessError(refresh: ChallengeReply, answer: ChallengeReply): (e: Option<Error>)
    ensures e.None? <==>
      ReplyError(refresh).None? && NextStep(ReplyState(refresh)).Select? && ReplyError(answer).None?
    ensures ReplyError(refresh).Some? ==> e == ReplyError(refresh)
    ensures ReplyError(refresh).None? && NextStep(ReplyState(refresh)).Unsupported? ==>
      e == Some(ChallengeProcess(ReplyState(refresh).stepName))
    ensures ReplyError(refresh).None? && NextStep(ReplyState(refresh)).Select? ==> e == ReplyError(answer)
  {
    if ReplyError(refresh).Some? then ReplyError(refresh)
    else if NextStep(ReplyState(refresh)).Unsupported? then Some(ChallengeProcess(ReplyState(refresh).stepName))
    else ReplyError(answer)
  }

  /** The endpoint selectVerifyMethod posts to: with the first replay flag set, every
    * "/challenge/" of the challenge URL becomes "/challenge/replay/". */
  function VerifyEndpoint(url: string, isReplay: seq<bool>): (r: string)
    ensures (|isReplay| == 0 || !isReplay[0]) ==> r == url
    ensures !Contains(url, "/challenge/") ==> r == url
    ensures |isReplay| > 0 && isReplay[0] ==> r == ReplaceAll(url, "/challenge/", "/challenge/replay/")
  {
    if |isReplay| > 0 && isReplay[0] then
      if !Contains(url, "/challenge/") then
        ReplaceAllWithoutOccurrence(url, "/challenge/", "/challenge/replay/");
        ReplaceAll(url, "/challenge/", "/challenge/replay/")
      else ReplaceAll(url, "/challenge/", "/challenge/replay/")
    else url
  }

  /** ChallengeProcessError.Error: the step name and nothing else. */
  function ProcessErrorText(e: Error): (text: string)
    requires e.ChallengeProcess?
    ensures text == e.stepName
  {
    e.stepName
  }

  /** instagram.Challenge: the decoded challenge fields and the back-pointer to its client. */
  class Challenge {
    var client: Instagram
    var state: ChallengeState

    /** newChallenge */
    constructor (client: Instagram)
      ensures this.client == client && state == EmptyState
    {
      this.client := client;
      state := EmptyState;
    }

    /** The response half of every challenge request: the client receives the exchange (its
      * cookies and token are refreshed), then the decoded challenge replaces the state
      * wholesale while the client back-pointer is kept. A failed request or decoding leaves
      * the state as it was, and a body without a challenge is a nil dereference. */
    method Adopt(reply: ChallengeReply) returns (err: Option<Error>)
      modifies this`state, client`token, client`cookies
      ensures err == ReplyError(reply)
      ensures client.cookies == ReceivedCookies(reply.exchange, old(client.cookies))
      ensures client.token == ReceivedToken(reply.exchange, old(client.token))
      ensures err.None? ==> state == ReplyState(reply)
      ensures err.Some? ==> state == old(state)
    {
      var _, sendErr := client.Receive(reply.exchange);
      if sendErr.Some? {
        return sendErr;
      }
      if reply.decoded.Err? {
        return Some(reply.decoded.error);
      }
      if reply.decoded.value.None? {
        return Some(Panic("nil pointer dereference"));
      }
      state := reply.decoded.value.value;
      return None;
    }

    /** updateState: a GET to the challenge URL with guid and device_id. */
    method UpdateState(reply: ChallengeReply) returns (sent: ChallengeRequest, err: Option<Error>)
      modifies this`state, client`token, client`cookies
      ensures sent.endpoint == client.challengeURL && !sent.isPost
      ensures sent.payload == Merged(BaseData(client.uuid, old(client.token), client.account),
                                     [map["guid" := client.uuid, "device_id" := client.deviceID]])
      ensures err == ReplyError(reply)
      ensures client.cookies == ReceivedCookies(reply.exchange, old(client.cookies))
      ensures client.token == ReceivedToken(reply.exchange, old(client.token))
      ensures err.None? ==> state == ReplyState(reply)
      ensures err.Some? ==> state == old(state)
    {
      var data := client.PrepareData([map["guid" := client.uuid, "device_id" := client.deviceID]]);
      sent := ChallengeRequest(client.challengeURL, false, data);
      err := Adopt(reply);
    }

    /** selectVerifyMethod: a POST of the choice to the challenge URL, or to its replay form
      * when the first replay flag is set. */
    method SelectVerifyMethod(choice: string, isReplay: seq<bool>, reply: ChallengeReply)
      returns (sent: ChallengeRequest, err: Option<Error>)
      modifies this`state, client`token, client`cookies
      ensures sent.endpoint == VerifyEndpoint(client.challengeURL, isReplay) && sent.isPost
      ensures sent.payload == Merged(BaseData(client.uuid, old(client.token), client.account),
                                     [map["choice" := choice, "guid" := client.uuid, "device_id" := client.deviceID]])
      ensures "choice" in sent.payload && sent.payload["choice"] == choice
      ensures err == ReplyError(reply)
      ensures client.cookies == ReceivedCookies(reply.exchange, old(client.cookies))
      ensures client.token == ReceivedToken(reply.exchange, old(client.token))
      ensures err.None? ==> state == ReplyState(reply)
      ensures err.Some? ==> state == old(state)
    {
      var url := client.challengeURL;
      if |isReplay| > 0 && isReplay[0] {
        url := ReplaceAll(url, "/challenge/", "/challenge/replay/");
      }
      var fields := map["choice" := choice, "guid" := client.uuid, "device_id" := client.deviceID];
      var data := client.PrepareData([fields]);
      PrepareDataFields(client.uuid, client.token, client.account, [fields]);
      sent := ChallengeRequest(url, true, data);
      err := Adopt(reply);
    }

    /** deltaLoginReview: selectVerifyMethod with choice "0" ("it was me"). */
    method DeltaLoginReview(reply: ChallengeReply) returns (sent: ChallengeRequest, err: Option<Error>)
      modifies this`state, client`token, client`cookies
      ensures sent.endpoint == client.challengeURL && sent.isPost
      ensures sent.payload == Merged(BaseData(client.uuid, old(client.token), client.account),
                                     [map["choice" := "0", "guid" := client.uuid, "device_id" := client.deviceID]])
      ensures "choice" in sent.payload && sent.payload["choice"] == "0"
      ensures err == ReplyError(reply)
      ensures client.cookies == ReceivedCookies(reply.exchange, old(client.cookies))
      ensures client.token == ReceivedToken(reply.exchange, old(client.token))
      ensures err.None? ==> state == ReplyState(reply)
      ensures err.Some? ==> state == old(state)
    {
      sent, err := SelectVerifyMethod("0", [], reply);
    }

    /** SendSecurityCode: a POST of the code to the challenge URL, carrying the client's token
      * as it stands after the earlier challenge requests. */
    method SendSecurityCode(code: string, reply: ChallengeReply)
      returns (sent: ChallengeRequest, err: Option<Error>)
      modifies this`state, client`token, client`cookies
      ensures sent.endpoint == client.challengeURL && sent.isPost
      ensures sent.payload == Merged(BaseData(client.uuid, old(client.token), client.account),
                                     [map["security_code" := code, "guid" := client.uuid, "device_id" := client.deviceID]])
      ensures "security_code" in sent.payload && sent.payload["security_code"] == code
      ensures err == ReplyError(reply)
      ensures client.cookies == ReceivedCookies(reply.exchange, old(client.cookies))
      ensures client.token == ReceivedToken(reply.exchange, old(client.token))
      ensures err.None? ==> state == ReplyState(reply)
      ensures err.Some? ==> state == old(state)
    {
      var fields := map["security_code" := code, "guid" := client.uuid, "device_id" := client.deviceID];
      var data := client.PrepareData([fields]);
      PrepareDataFields(client.uuid, client.token, client.account, [fields]);
      sent := ChallengeRequest(client.challengeURL, true, data);
      err := Adopt(reply);
    }

    /** Process: the challenge URL is the API path without its first character; the state is
      * refreshed, and a failure there is returned before any dispatch; otherwise the step
      * decides between answering with a choice (reply `answer`) and a ChallengeProcessError.
      * The answer carries the token the refresh left. */
    method Process(apiURL: string, refresh: ChallengeReply, answer: ChallengeReply)
      returns (sent: seq<ChallengeRequest>, err: Option<Error>)
      requires |apiURL| >= 1
      modifies this`state, client`challengeURL, client`token, client`cookies
      ensures client == old(client) && client.challengeURL == apiURL[1..]
      ensures |sent| >= 1 && sent[0].endpoint == apiURL[1..] && !sent[0].isPost
      ensures err == ProcessError(refresh, answer)
      ensures err.None? ==> state == ReplyState(answer)
      ensures ReplyError(refresh).Some? ==> state == old(state) && |sent| == 1
      ensures |sent| == 1 ==>
        client.cookies == ReceivedCookies(refresh.exchange, old(client.cookies)) &&
        client.token == ReceivedToken(refresh.exchange, old(client.token))
      ensures ReplyError(refresh).None? && NextStep(ReplyState(refresh)).Unsupported? ==>
        state == ReplyState(refresh) && |sent| == 1
      ensures ReplyError(refresh).None? && NextStep(ReplyState(refresh)).Select? ==>
        |sent| == 2 && sent[1].endpoint == apiURL[1..] && sent[1].isPost &&
        sent[1].payload == Merged(BaseData(client.uuid, ReceivedToken(refresh.exchange, old(client.token)), client.account),
                                  [map["choice" := NextStep(ReplyState(refresh)).choice, "guid" := client.uuid,
                                       "device_id" := client.deviceID]]) &&
        client.cookies == ReceivedCookies(answer.exchange, ReceivedCookies(refresh.exchange, old(client.cookies))) &&
        client.token == ReceivedToken(answer.exchange, ReceivedToken(refresh.exchange, old(client.token))) &&
        (ReplyError(answer).Some? ==> state == ReplyState(refresh))
    {
      client.challengeURL := apiURL[1..];
      var first;
      first, err := UpdateState(refresh);
      sent := [first];
      if err.Some? {
        return;
      }
      var second;
      if state.stepName == SelectVerifyMethodStep {
        second, err := SelectVerifyMethod(state.stepData.choice, [], answer);
      } else if state.stepName == DeltaLoginReviewStep {
        second, err := DeltaLoginReview(answer);
      } else {
        return sent, Some(ChallengeProcess(state.stepName));
      }
      sent := sent + [second];
    }
  }
}
