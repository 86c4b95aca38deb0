/** The API client's request layer (instagram/request.go): error classification of a response,
  * request payload construction, request option defaults and the CSRF token refresh.
  * The client object itself is declared in instagram/instagram.go; only the fields the core
  * reads or writes are kept. HTTP, URL encoding and JSON are not modelled: a response is the
  * `Exchange` the transport produced and a body is what JSON decoding would make of it. */
module InstagramRequest {
  import opened Errors
  import opened Text

  datatype Cookie = Cookie(name: string, value: string)

  /** The logged-in account (instagram.Account); only what the core uses. */
  datatype Account = Account(id: int, username: string)

  /** reqOptions */
  datatype ReqOptions = ReqOptions(
    connection: string, endpoint: string, isPost: bool, useV2: bool, query: map<string, string>)

  /** What sendRequest puts on the wire: method, URL, Connection header and the query, which
    * travels form-encoded in the body of a POST and in the URL of a GET. */
  datatype PreparedRequest = PreparedRequest(
    httpMethod: string, url: string, connection: string, query: map<string, string>, queryInBody: bool)

  /** A response body as JSON decoding sees it: either not JSON at all, or the values it
    * decodes to as an HTTPError4xx and as an HTTPErrorGeneric. */
  datatype ResponseBody =
    | Undecodable(reason: string)
    | Decodable(asFourXX: HTTPError4xx, asGeneric: HTTPErrorGeneric)

  /** The outcome of httpClient.Do and reading the body: the cookies the jar holds for the API
    * base URL afterwards, the status code, the body, and the error of ioutil.ReadAll. */
  datatype Exchange =
    | TransportFailed(err: Error)
    | Responded(statusCode: int, cookies: seq<Cookie>, body: ResponseBody, readErr: Option<Error>)

  /** The error sendRequest reports for an exchange: the transport failure, else the failure to
    * read the body, else the classification of the status and body. */
  function ExchangeError(exchange: Exchange): (e: Option<Error>)
    ensures exchange.TransportFailed? ==> e == Some(exchange.err)
    ensures exchange.Responded? && exchange.readErr.Some? ==> e == exchange.readErr
    ensures exchange.Responded? && exchange.readErr.None? ==>
      e == CheckError(exchange.statusCode, exchange.body)
  {
    match exchange
    case TransportFailed(err) => Some(err)
    case Responded(statusCode, _, body, readErr) =>
      if readErr.Some? then readErr else CheckError(statusCode, body)
  }

  /** The client's cookies after an exchange: the jar's when a response arrived. */
  function ReceivedCookies(exchange: Exchange, cookies: seq<Cookie>): (r: seq<Cookie>)
    ensures exchange.Responded? ==> r == exchange.cookies
    ensures exchange.TransportFailed? ==> r == cookies
  {
    if exchange.Responded? then exchange.cookies else cookies
  }

  /** The client's token after an exchange: the CSRF token of the jar's cookies when a response
    * arrived, the old token otherwise. */
  function ReceivedToken(exchange: Exchange, token: string): (r: string)
    ensures exchange.Responded? ==> r == CsrfToken(exchange.cookies, token)
    ensures exchange.TransportFailed? ==> r == token
  {
    if exchange.Responded? then CsrfToken(exchange.cookies, token) else token
  }

  /** instagram.Instagram: the session state the request layer and the core read and write. */
  class Instagram {
    var username: string
    var password: string
    var deviceID: string
    var uuid: string
    var phoneID: string
    var rankToken: string
    var token: string
    var challengeURL: string
    var cookies: seq<Cookie>      // the cookie jar's cookies for the API base URL
    var account: Option<Account>  // nil until a login or an import sets it

    constructor (username: string, password: string, deviceID: string, uuid: string,
                 phoneID: string, rankToken: string, token: string, cookies: seq<Cookie>)
      ensures this.username == username && this.password == password
      ensures this.deviceID == deviceID && this.uuid == uuid && this.phoneID == phoneID
      ensures this.rankToken == rankToken && this.token == token && this.cookies == cookies
      ensures challengeURL == "" && account == None
    {
      this.username, this.password, this.deviceID, this.uuid := username, password, deviceID, uuid;
      this.phoneID, this.rankToken, this.token, this.cookies := phoneID, rankToken, token, cookies;
      challengeURL, account := "", None;
    }

    /** prepareData: the base fields, then every caller map in order, later keys overriding
      * earlier ones. The JSON encoding of the result is not modelled. */
    method PrepareData(other: seq<map<string, string>>) returns (data: map<string, string>)
      ensures data == Merged(BaseData(uuid, token, account), other)
    {
      data := map["_uuid" := uuid, "_csrftoken" := token];
      if account.Some? && account.value.id != 0 {
        data := data["_uid" := FormatInt(account.value.id)];
      }
      ghost var base := data;
      var i := 0;
      while i < |other|
        invariant 0 <= i <= |other|
        invariant data == Merged(base, other[..i])
      {
        data := CopyInto(data, other[i]);
        assert other[..i + 1][..i] == other[..i];
        i := i + 1;
      }
      assert other[..|other|] == other;
    }

    /** The response half of sendRequest: after a response the client keeps the jar's cookies
      * and adopts the value of the last one whose name contains "csrftoken" as its token; the
      * error is that of the exchange. */
    method Receive(exchange: Exchange) returns (body: Option<ResponseBody>, err: Option<Error>)
      modifies this`token, this`cookies
      ensures err == ExchangeError(exchange)
      ensures cookies == ReceivedCookies(exchange, old(cookies)) && token == ReceivedToken(exchange, old(token))
      ensures exchange.TransportFailed? ==> body == None && token == old(token) && cookies == old(cookies)
      ensures exchange.Responded? ==>
        cookies == exchange.cookies && token == CsrfToken(exchange.cookies, old(token)) &&
        body == Some(exchange.body)
    {
      if exchange.TransportFailed? {
        return None, Some(exchange.err);
      }
      cookies := exchange.cookies;
      token := LatestCsrfToken(cookies, token);

      body := Some(exchange.body);
      if exchange.readErr.Some? {
        err := exchange.readErr;
      } else {
        err := CheckError(exchange.statusCode, exchange.body);
      }
    }

    /** sendRequest: fills in the method, the Connection header and the base URL, performs the
      * exchange and receives its response. */
    method SendRequest(options: ReqOptions, baseURL: string, baseURLV2: string, exchange: Exchange)
      returns (req: PreparedRequest, body: Option<ResponseBody>, err: Option<Error>)
      modifies this`token, this`cookies
      ensures req == Prepare(options, baseURL, baseURLV2)
      ensures exchange.TransportFailed? ==>
        body == None && err == Some(exchange.err) && token == old(token) && cookies == old(cookies)
      ensures exchange.Responded? ==>
        cookies == exchange.cookies && token == CsrfToken(exchange.cookies, old(token)) &&
        body == Some(exchange.body) &&
        err == (if exchange.readErr.Some? then exchange.readErr
                else CheckError(exchange.statusCode, exchange.body))
    {
      var httpMethod := "GET";
      if options.isPost {
        httpMethod := "POST";
      }
      var connection := options.connection;
      if connection == "" {
        connection := "keep-alive";
      }
      var base := baseURL;
      if options.useV2 {
        base := baseURLV2;
      }
      req := PreparedRequest(httpMethod, base + options.endpoint, connection, options.query, options.isPost);
      body, err := Receive(exchange);
    }
  }

  /** prepareData's inner loop: the keys of one caller map copied one by one into the
    * payload, overriding what it held. */
  method CopyInto(data: map<string, string>, m: map<string, string>) returns (r: map<string, string>)
    ensures r == data + m
  {
    r := data;
    var pending := m.Keys;
    while pending != {}
      invariant pending <= m.Keys
      invariant r.Keys == data.Keys + (m.Keys - pending)
      invariant forall k :: k in r ==> r[k] == (if k in m && k !in pending then m[k] else data[k])
      decreases pending
    {
      var k :| k in pending;
      r := r[k := m[k]];
      pending := pending - {k};
    }
  }

  /** sendRequest's cookie loop: every jar cookie whose name contains "csrftoken" replaces the
    * token in turn. */
  method LatestCsrfToken(cookies: seq<Cookie>, current: string) returns (token: string)
    ensures token == CsrfToken(cookies, current)
  {
    token := current;
    var i := 0;
    while i < |cookies|
      invariant 0 <= i <= |cookies|
      invariant token == CsrfToken(cookies[..i], current)
    {
      if Contains(cookies[i].name, "csrftoken") {
        token := cookies[i].value;
      }
      assert cookies[..i + 1][..i] == cookies[..i];
      i := i + 1;
    }
    assert cookies[..|cookies|] == cookies;
  }

  /** The fields prepareData starts from: _uuid and _csrftoken always, _uid (the decimal
    * account ID) only for a set account with a non-zero ID. */
  function BaseData(uuid: string, token: string, account: Option<Account>): (m: map<string, string>)
    ensures m.Keys == {"_uuid", "_csrftoken"} + (if account.Some? && account.value.id != 0 then {"_uid"} else {})
    ensures m["_uuid"] == uuid && m["_csrftoken"] == token
    ensures "_uid" in m ==> m["_uid"] == FormatInt(account.value.id)
  {
    var m := map["_uuid" := uuid, "_csrftoken" := token];
    if account.Some? && account.value.id != 0 then m["_uid" := FormatInt(account.value.id)] else m
  }

  /** `base` overridden by each map of `others` in turn. */
  function Merged(base: map<string, string>, others: seq<map<string, string>>): map<string, string>
  {
    if others == [] then base else Merged(base, others[..|others| - 1]) + others[|others| - 1]
  }

  /** The index of the last map of `others` that defines `k`, or -1. */
  function LastDefining(others: seq<map<string, string>>, k: string): (j: int)
    ensures -1 <= j < |others|
    ensures j >= 0 ==> k in others[j]
    ensures forall i :: j < i < |others| ==> k !in others[i]
  {
    if others == [] then -1
    else if k in others[|others| - 1] then |others| - 1
    else LastDefining(others[..|others| - 1], k)
  }

  /** A key of the merged payload comes from the last caller map that defines it, or else from
    * the base; no other keys appear. */
  lemma {:induction false} MergedLookup(base: map<string, string>, others: seq<map<string, string>>, k: string)
    ensures k in Merged(base, others) <==> k in base || LastDefining(others, k) >= 0
    ensures k in Merged(base, others) ==>
      Merged(base, others)[k] ==
        (if LastDefining(others, k) >= 0 then others[LastDefining(others, k)][k] else base[k])
  {
    if others != [] {
      var init := others[..|others| - 1];
      MergedLookup(base, init, k);
      if k !in others[|others| - 1] {
        assert forall i :: 0 <= i < |init| ==> init[i] == others[i];
      }
    }
  }

  /** What prepareData promises its callers: _uuid and _csrftoken are always present; when no
    * caller map sets _uid, it is present exactly for a set account with a non-zero ID, as the
    * decimal ID; and a caller map's key wins over the base and over earlier caller maps. */
  lemma PrepareDataFields(uuid: string, token: string, account: Option<Account>,
                          others: seq<map<string, string>>)
    ensures "_uuid" in Merged(BaseData(uuid, token, account), others)
    ensures "_csrftoken" in Merged(BaseData(uuid, token, account), others)
    ensures (forall i :: 0 <= i < |others| ==> "_uid" !in others[i]) ==>
      (("_uid" in Merged(BaseData(uuid, token, account), others)) <==>
        account.Some? && account.value.id != 0)
    ensures (forall i :: 0 <= i < |others| ==> "_uid" !in others[i]) && account.Some? && account.value.id != 0 ==>
      Merged(BaseData(uuid, token, account), others)["_uid"] == FormatInt(account.value.id)
    ensures others != [] ==> forall k :: k in others[|others| - 1] ==>
      k in Merged(BaseData(uuid, token, account), others) &&
      Merged(BaseData(uuid, token, account), others)[k] == others[|others| - 1][k]
  {
    var base := BaseData(uuid, token, account);
    var merged := Merged(base, others);
    assert "_uuid" in merged by { MergedLookup(base, others, "_uuid"); }
    assert "_csrftoken" in merged by { MergedLookup(base, others, "_csrftoken"); }
    if forall i :: 0 <= i < |others| ==> "_uid" !in others[i] {
      MergedLookup(base, others, "_uid");
      assert LastDefining(others, "_uid") == -1;
    }
    if others != [] {
      assert merged == Merged(base, others[..|others| - 1]) + others[|others| - 1];
    }
  }

  /** The request sendRequest builds from its options: POST exactly when IsPost, Connection
    * "keep-alive" when none was given, and the v2 base URL exactly when UseV2. */
  function Prepare(options: ReqOptions, baseURL: string, baseURLV2: string): (r: PreparedRequest)
    ensures r.httpMethod == "POST" <==> options.isPost
    ensures r.httpMethod == "GET" <==> !options.isPost
    ensures r.connection != ""
    ensures options.connection != "" ==> r.connection == options.connection
    ensures r.url == (if options.useV2 then baseURLV2 else baseURL) + options.endpoint
    ensures r.query == options.query && r.queryInBody == options.isPost
  {
    PreparedRequest(
      if options.isPost then "POST" else "GET",
      (if options.useV2 then baseURLV2 else baseURL) + options.endpoint,
      if options.connection == "" then "keep-alive" else options.connection,
      options.query,
      options.isPost)
  }

  /** The token after scanning the jar: the value of the last cookie whose name contains
    * "csrftoken", or the current token when there is none. */
  function CsrfToken(cookies: seq<Cookie>, current: string): (t: string)
    ensures (forall i :: 0 <= i < |cookies| ==> !Contains(cookies[i].name, "csrftoken")) ==> t == current
    ensures (exists i :: 0 <= i < |cookies| && Contains(cookies[i].name, "csrftoken")) ==>
      exists i :: 0 <= i < |cookies| && Contains(cookies[i].name, "csrftoken") && t == cookies[i].value &&
        forall j :: i < j < |cookies| ==> !Contains(cookies[j].name, "csrftoken")
  {
    if cookies == [] then current
    else if Contains(cookies[|cookies| - 1].name, "csrftoken") then cookies[|cookies| - 1].value
    else CsrfToken(cookies[..|cookies| - 1], current)
  }

  /** checkError: nil for 200; for 400 the embedded ChallengeError when the message is
    * challenge_required and the HTTPError4xx otherwise; an HTTPErrorGeneric for every other
    * status; the decoding error when the body is not JSON. */
  function CheckError(code: int, body: ResponseBody): (err: Option<Error>)
    ensures err.None? <==> code == 200
    ensures code != 200 && body.Undecodable? ==> err == Some(Decode(body.reason))
    ensures code == 400 && body.Decodable? ==>
      err == Some(if body.asFourXX.embedded.message == "challenge_required"
                  then Challenge(body.asFourXX.embedded) else FourXX(body.asFourXX))
    ensures code != 200 && code != 400 && body.Decodable? ==> err == Some(Generic(body.asGeneric))
  {
    if code == 200 then None
    else if body.Undecodable? then Some(Decode(body.reason))
    else if code == 400 then
      if body.asFourXX.embedded.message == "challenge_required" then Some(Challenge(body.asFourXX.embedded))
      else Some(FourXX(body.asFourXX))
    else Some(Generic(body.asGeneric))
  }

  /** Only a 400 response carrying challenge_required is reported as a challenge. */
  lemma ChallengeOnlyFor400(code: int, body: ResponseBody)
    requires CheckError(code, body).Some? && CheckError(code, body).value.Challenge?
    ensures code == 400 && body.Decodable?
    ensures body.asFourXX.embedded.message == "challenge_required"
    ensures CheckError(code, body).value.challenge == body.asFourXX.embedded
  {
  }

  /** HTTPErrorGeneric.Error: "Status: Message". */
  function GenericText(e: HTTPErrorGeneric): string {
    e.status + ": " + e.message
  }

  /** ChallengeError.Error: "Status: Message (ErrorType)". */
  function ChallengeText(e: ChallengeError): string {
    e.status + ": " + e.message + " (" + e.errorType + ")"
  }

  /** HTTPError4xx has no Error method of its own: the embedded ChallengeError's is promoted,
    * so it reports the embedded status, not the outer one. */
  function FourXXText(e: HTTPError4xx): string {
    ChallengeText(e.embedded)
  }

  /** The texts are "Status: ..." with the status recoverable up to the first colon, and the
    * challenge text is the generic text followed by the error type in parentheses. */
  lemma ErrorTexts(g: HTTPErrorGeneric, c: ChallengeError, f: HTTPError4xx, outer: string)
    requires ':' !in g.status && ':' !in c.status
    ensures BeforeFirst(GenericText(g), ':') == g.status
    ensures AfterFirst(GenericText(g), ':') == " " + g.message
    ensures BeforeFirst(ChallengeText(c), ':') == c.status
    ensures ChallengeText(c) == GenericText(HTTPErrorGeneric(c.message, c.status, c.errorType))
                                + " (" + c.errorType + ")"
    ensures FourXXText(f) == FourXXText(f.(status := outer))
  {
    assert GenericText(g) == g.status + [':'] + (" " + g.message);
    SplitJoin(g.status, ':', " " + g.message);
    assert ChallengeText(c) == c.status + [':'] + (" " + c.message + " (" + c.errorType + ")");
    SplitJoin(c.status, ':', " " + c.message + " (" + c.errorType + ")");
  }
}
