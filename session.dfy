/** Session export and import (instagram/config.go): a logged-in client is saved as a base64
  * text of a JSON record and restored from it. JSON marshalling and base64 coding are
  * functions supplied by the caller (a `Codec`); the exchange of the restored client's account
  * sync and the decoding of its reply are parameters (a `SyncReply`). */
module InstagramConfig {
  import opened Errors
  import opened InstagramRequest

  /** The saved record: the account ID and the session fields. The password is not part of it. */
  datatype SessionRecord = SessionRecord(
    id: int, username: string, deviceID: string, uuid: string, rankToken: string,
    token: string, phoneID: string, cookies: seq<Cookie>)

  /** json.Marshal / json.Unmarshal of a record and standard base64 encoding / decoding. */
  datatype Codec = Codec(
    marshal: SessionRecord -> Result<string>,
    unmarshal: string -> Result<SessionRecord>,
    b64Encode: string -> string,
    b64Decode: string -> Result<string>)

  /** What the Go libraries guarantee: unmarshalling undoes marshalling and base64 decoding
    * undoes encoding. */
  ghost predicate Lossless(codec: Codec) {
    (forall r :: codec.marshal(r).Ok? ==> codec.unmarshal(codec.marshal(r).value) == Ok(r)) &&
    (forall s :: codec.b64Decode(codec.b64Encode(s)) == Ok(s))
  }

  /** exportConfig's record: the account ID and the client's session fields and cookies.
    * A client without an account would be dereferenced as nil. */
  function ExportRecord(c: Instagram): (r: SessionRecord)
    reads c
    requires c.account.Some?
    ensures r.id == c.account.value.id && r.cookies == c.cookies
  {
    SessionRecord(c.account.value.id, c.username, c.deviceID, c.uuid, c.rankToken, c.token,
                  c.phoneID, c.cookies)
  }

  /** ExportToString: the base64 text of the JSON record, or the marshalling error. */
  function ExportToString(c: Instagram, codec: Codec): (r: Result<string>)
    reads c
    requires c.account.Some?
    ensures r.Err? <==> codec.marshal(ExportRecord(c)).Err?
    ensures r.Ok? ==> r.value == codec.b64Encode(codec.marshal(ExportRecord(c)).value)
  {
    match codec.marshal(ExportRecord(c))
    case Err(e) => Err(e)
    case Ok(json) => Ok(codec.b64Encode(json))
  }

  /** The decoding half of ImportFromString: base64, then JSON; the first failure is returned. */
  function DecodeSession(text: string, codec: Codec): (r: Result<SessionRecord>)
    ensures codec.b64Decode(text).Err? ==> r == Err(codec.b64Decode(text).error)
    ensures codec.b64Decode(text).Ok? ==> r == codec.unmarshal(codec.b64Decode(text).value)
  {
    match codec.b64Decode(text)
    case Err(e) => Err(e)
    case Ok(json) => codec.unmarshal(json)
  }

  /** Exporting and decoding give back the exported record. */
  lemma ExportDecodeRoundTrip(c: Instagram, codec: Codec)
    requires c.account.Some? && Lossless(codec)
    requires ExportToString(c, codec).Ok?
    ensures DecodeSession(ExportToString(c, codec).value, codec) == Ok(ExportRecord(c))
  {
    var json := codec.marshal(ExportRecord(c)).value;
    assert codec.b64Decode(codec.b64Encode(json)) == Ok(json);
    assert codec.unmarshal(json) == Ok(ExportRecord(c));
  }

  /** A client built from a record carries its identity fields, an empty password and no
    * pending challenge. */
  ghost predicate Restores(c: Instagram, rec: SessionRecord)
    reads c
  {
    c.username == rec.username && c.deviceID == rec.deviceID && c.uuid == rec.uuid &&
    c.rankToken == rec.rankToken && c.phoneID == rec.phoneID &&
    c.password == "" && c.challengeURL == ""
  }

  /** The account sync: the exchange of the GET to the current-user endpoint and the JSON
    * decoding of its body as a profile response, of which the user is kept. */
  datatype SyncReply = SyncReply(exchange: Exchange, profile: Result<Account>)

  /** Account.Sync's error: the request's, else the decoding's. */
  function SyncError(sync: SyncReply): (e: Option<Error>)
    ensures ExchangeError(sync.exchange).Some? ==> e == ExchangeError(sync.exchange)
    ensures ExchangeError(sync.exchange).None? && sync.profile.Err? ==> e == Some(sync.profile.error)
    ensures e.None? <==> ExchangeError(sync.exchange).None? && sync.profile.Ok?
    ensures e.None? ==> sync.exchange.Responded?
  {
    if ExchangeError(sync.exchange).Some? then ExchangeError(sync.exchange)
    else if sync.profile.Err? then Some(sync.profile.error)
    else None
  }

  /** A client imported from `rec` whose sync succeeded: the record's identity fields, the
    * jar's cookies after the sync and the CSRF token they carry (the saved token when none
    * does), and the synced account in place of the record's ID. */
  ghost predicate Imported(c: Instagram, rec: SessionRecord, sync: SyncReply)
    reads c
  {
    Restores(c, rec) && sync.exchange.Responded? && sync.profile.Ok? &&
    c.cookies == sync.exchange.cookies && c.token == CsrfToken(sync.exchange.cookies, rec.token) &&
    c.account == Some(sync.profile.value)
  }

  /** The payload of the account sync importConfig sends: a client whose account holds only
    * the saved ID. */
  function SyncPayload(rec: SessionRecord): (m: map<string, string>)
    ensures m == Merged(BaseData(rec.uuid, rec.token, Some(Account(rec.id, ""))), [])
    ensures "_uid" in m <==> rec.id != 0
  {
    Merged(BaseData(rec.uuid, rec.token, Some(Account(rec.id, ""))), [])
  }

  /** importConfig: a fresh client from the record, with the record's cookies in its jar, whose
    * account is then synced; the sync's response refreshes the cookies and the token, and a
    * failed sync discards the client. */
  method ImportConfig(rec: SessionRecord, sync: SyncReply)
    returns (client: Instagram?, syncPayload: map<string, string>, err: Option<Error>)
    ensures syncPayload == SyncPayload(rec)
    ensures err == SyncError(sync)
    ensures err.Some? ==> client == null
    ensures err.None? ==> client != null && fresh(client) && Imported(client, rec, sync)
  {
    var c := new Instagram(rec.username, "", rec.deviceID, rec.uuid, rec.phoneID, rec.rankToken,
                           rec.token, rec.cookies);
    c.account := Some(Account(rec.id, ""));
    syncPayload := c.PrepareData([]);
    var _, sendErr := c.Receive(sync.exchange);
    if sendErr.Some? {
      return null, syncPayload, sendErr;
    }
    if sync.profile.Err? {
      return null, syncPayload, Some(sync.profile.error);
    }
    c.account := Some(sync.profile.value);
    return c, syncPayload, None;
  }

  /** ImportFromString: decode, then import; decoding errors are returned before any request. */
  method ImportFromString(text: string, codec: Codec, sync: SyncReply)
    returns (client: Instagram?, syncPayload: Option<map<string, string>>, err: Option<Error>)
    ensures DecodeSession(text, codec).Err? ==>
      client == null && syncPayload == None && err == Some(DecodeSession(text, codec).error)
    ensures DecodeSession(text, codec).Ok? ==>
      syncPayload == Some(SyncPayload(DecodeSession(text, codec).value)) &&
      err == SyncError(sync) &&
      (err.Some? ==> client == null) &&
      (err.None? ==> client != null && fresh(client) && Imported(client, DecodeSession(text, codec).value, sync))
  {
    var decoded := codec.b64Decode(text);
    if decoded.Err? {
      return null, None, Some(decoded.error);
    }
    var rec := codec.unmarshal(decoded.value);
    if rec.Err? {
      return null, None, Some(rec.error);
    }
    var payload;
    client, payload, err := ImportConfig(rec.value, sync);
    syncPayload := Some(payload);
  }
}
