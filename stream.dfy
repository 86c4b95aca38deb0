/** The per-account stream controller (broadcast/stream.go).
  * A Stream logs in, creates a live broadcast, lets the encoder and the poller run, then ends
  * the broadcast and posts it. Every remote call, the clock and the concurrent live phase are
  * parameters: a `CycleOracle` carries the replies one cycle of the event loop receives.
  * Instants and durations are integer nanoseconds. */
module BroadcastStream {
  import opened Errors
  import opened InstagramRequest
  import opened InstagramChallenge
  import opened InstagramConfig
  import Text
  import BC = BroadcastConfig

  const StreamWidth := 720
  const StreamHeight := 1280
  /** time.Minute in nanoseconds. */
  const Minute := 60_000_000_000
  const StatusOK := "ok"
  const StatusStopped := "stopped"

  /** instagram.LiveComment, reduced to the fields this program reads. */
  datatype Comment = Comment(pk: int, createdAt: int, userName: string, text: string)

  /** The steps of a login, in the order they are attempted. */
  datatype LoginStep = ByToken | ByPassword | Persist

  /** A call to the live API made while creating a broadcast. */
  datatype LiveCall =
    | CreateCall(width: int, height: int, title: string)
    | StartCall(broadcastID: int, notify: bool)
    | UnmuteCall(broadcastID: int)

  /** The reply to the create call. */
  datatype CreateReply = CreateReply(status: string, broadcastID: int, uploadURL: string)

  /** The IGTV post request. */
  datatype IgtvPost = IgtvPost(broadcastID: int, uploadID: string, title: string, description: string,
                               shareToFeed: bool)

  /** The remote side of postToIGTV: the thumbnail list, the JPEG conversion of a thumbnail URL,
    * the photo upload returning an upload ID, and the post returning a status. */
  datatype IgtvReplies = IgtvReplies(
    thumbnails: Result<seq<string>>,
    toJPEG: string -> Result<string>,
    upload: string -> Result<string>,
    post: IgtvPost -> Result<string>)

  /** Whether a post was attempted, and with what error. */
  datatype Attempt = NotAttempted | Attempted(err: Option<Error>)

  /** What endBroadcastAndPost did. */
  datatype PostReport = PostReport(endErr: Option<Error>, igtv: Attempt, stories: Attempt)

  /** The replies the challenge flow receives: `ch` is the client's Challenge, `code` the security
    * code read from the channel (`None` when the two-minute wait times out). */
  datatype ChallengeReplies = ChallengeReplies(
    ch: Challenge?, refresh: ChallengeReply, answer: ChallengeReply,
    code: Option<string>, send: ChallengeReply)

  /** Everything one loop cycle receives from outside: session codec and sync reply for the
    * token login, the client a password login yields, the config save result, the challenge
    * replies, the create/start/unmute replies and the instant of creation, the error the live
    * phase ends with, and the end/IGTV/Stories replies with the instant of ending. */
  datatype CycleOracle = CycleOracle(
    codec: Codec, sync: SyncReply, byPassword: Result<Instagram>, saveErr: Option<Error>,
    challenge: ChallengeReplies,
    create: Result<CreateReply>, start: Result<string>, unmute: Result<string>, createdAt: int,
    liveErr: Option<Error>,
    endReply: Result<string>, igtv: IgtvReplies, stories: Result<string>, endedAt: int)

  /** How a loop cycle ended. */
  datatype CycleEnd =
    | LoginFailed(err: Error)      // cooled down; a login is still required
    | ChallengeFailed(err: Error)  // cooled down; a login is still required
    | Crashed(err: Error)          // the goroutine panicked
    | CreateNeedsLogin             // create failed with LoginRequired: no cooldown, log in again
    | CreateFailed(err: Error)     // cooled down
    | LiveNeedsLogin               // the live phase ended with LoginRequired: no end, no posts
    | Finished(report: PostReport) // ended and posted

  /** The prefix of every error message of a stream. */
  function StreamContext(name: string, what: string): string {
    "stream: " + name + ": " + what
  }

  /** The context of an error about one broadcast: "stream: <name>: <what> <id><tail>". */
  function BroadcastContext(name: string, what: string, broadcastID: int, tail: string): string {
    StreamContext(name, what + " " + Text.FormatInt(broadcastID) + tail)
  }

  /** An error returned with added context; a panic unwinds through the caller unchanged. */
  function Propagate(context: string, e: Error): (r: Error)
    ensures e.Panic? ==> r == e
    ensures !e.Panic? ==> r.Wrapped? && r.context == context && r.cause == e
  {
    if e.Panic? then e else Wrapped(context, e)
  }

  /** A status reply that is "ok": the call succeeded and the service accepted it. */
  predicate IsOK(r: Result<string>) {
    r.Ok? && r.value == StatusOK
  }

  /** A status reply as an error: the call's own error, or a formatted one for a status other
    * than "ok". */
  function StatusError(r: Result<string>, message: string): (e: Option<Error>)
    ensures e.None? <==> IsOK(r)
    ensures r.Err? ==> e == Some(r.error)
    ensures r.Ok? && r.value != StatusOK ==> e == Some(Failure(message + ": " + r.value))
  {
    if r.Err? then Some(r.error)
    else if r.value != StatusOK then Some(Failure(message + ": " + r.value))
    else None
  }

  /** The error persistToken returns for the export result and the config save result. */
  function PersistOutcome(name: string, exported: Result<string>, saveErr: Option<Error>): (e: Option<Error>)
    ensures e.None? <==> exported.Ok? && saveErr.None?
    ensures e.Some? ==> e.value.Wrapped?
  {
    if exported.Err? then Some(Wrapped(StreamContext(name, "unable to export new token"), exported.error))
    else if saveErr.Some? then Some(Wrapped(StreamContext(name, "unable to update config"), saveErr.value))
    else None
  }

  /** The accounts after persistToken: the exported session becomes the stream's token when
    * the export succeeded; no other account changes. */
  function Persisted(accounts: map<string, BC.Account>, name: string, exported: Result<string>)
    : (r: map<string, BC.Account>)
    requires name in accounts
    ensures r.Keys == accounts.Keys
    ensures exported.Ok? ==> r[name] == accounts[name].(token := exported.value)
    ensures exported.Err? ==> r == accounts
    ensures forall n :: n in accounts && n != name ==> r[n] == accounts[n]
  {
    if exported.Ok? then accounts[name := accounts[name].(token := exported.value)] else accounts
  }

  /** login's error for the stored token: none when the token decodes and the session syncs;
    * otherwise the password login's failure, or the failure to persist its session. */
  function LoginOutcome(name: string, token: string, codec: Codec, sync: SyncReply,
                        byPassword: Result<Instagram>, saveErr: Option<Error>): (e: Option<Error>)
    reads if byPassword.Ok? then {byPassword.value} else {}
    requires byPassword.Ok? ==> byPassword.value.account.Some?
    ensures DecodeSession(token, codec).Ok? && SyncError(sync).None? ==> e.None?
    ensures e.Some? && e.value.Challenge? ==> byPassword == Err(e.value)
  {
    if DecodeSession(token, codec).Ok? && SyncError(sync).None? then None
    else if byPassword.Err? then Some(byPassword.error)
    else PersistOutcome(name, ExportToString(byPassword.value, codec), saveErr)
  }

  /** respondChallenge's error from processing the challenge to sending the security code:
    * the processing error, the timeout, then the error of sending the code. */
  function SendCodeError(name: string, r: ChallengeReplies): (e: Option<Error>)
    ensures e.None? <==> ProcessError(r.refresh, r.answer).None? && r.code.Some? && ReplyError(r.send).None?
    ensures ProcessError(r.refresh, r.answer).Some? ==>
      e == Some(Propagate(StreamContext(name, "unable to process challenge"), ProcessError(r.refresh, r.answer).value))
    ensures ProcessError(r.refresh, r.answer).None? && r.code.None? ==>
      e == Some(Failure(StreamContext(name, "timed out while waiting for challenge security code")))
    ensures ProcessError(r.refresh, r.answer).None? && r.code.Some? && ReplyError(r.send).Some? ==>
      e == Some(Propagate(StreamContext(name, "unable to send security code"), ReplyError(r.send).value))
  {
    if ProcessError(r.refresh, r.answer).Some? then
      Some(Propagate(StreamContext(name, "unable to process challenge"), ProcessError(r.refresh, r.answer).value))
    else if r.code.None? then
      Some(Failure(StreamContext(name, "timed out while waiting for challenge security code")))
    else if ReplyError(r.send).Some? then
      Some(Propagate(StreamContext(name, "unable to send security code"), ReplyError(r.send).value))
    else None
  }

  /** respondChallenge's error up to the point where the session is persisted, for the stream's
    * client and API path: a nil client or an empty path panics; then SendCodeError; then a nil
    * logged-in user panics. */
  function AnswerError(name: string, client: Instagram?, apiPath: string, r: ChallengeReplies): (e: Option<Error>)
    ensures client == null || |apiPath| == 0 ==> e.Some? && e.value.Panic?
    ensures client != null && |apiPath| > 0 && SendCodeError(name, r).Some? ==> e == SendCodeError(name, r)
    ensures e.None? ==>
      client != null && |apiPath| > 0 && SendCodeError(name, r).None? && ReplyState(r.send).loggedInUser.Some?
  {
    if client == null then Some(Panic("nil client"))
    else if |apiPath| == 0 then Some(Panic("slice bounds out of range"))
    else if SendCodeError(name, r).Some? then SendCodeError(name, r)
    else if ReplyState(r.send).loggedInUser.None? then Some(Panic("nil account"))
    else None
  }

  /** How loopCycle ends after respondChallenge: it goes on when the challenge was answered,
    * crashes on a panic, and otherwise cools down with the error. */
  function ChallengeEnd(e: Option<Error>): (r: Option<CycleEnd>)
    ensures r.None? <==> e.None?
    ensures r.Some? ==> (r.value.Crashed? || r.value.ChallengeFailed?) && r.value.err == e.value
    ensures r.Some? ==> (r.value.Crashed? <==> e.value.Panic?)
  {
    if e.None? then None
    else if e.value.Panic? then Some(Crashed(e.value))
    else Some(ChallengeFailed(e.value))
  }

  /** createBroadcast's verdict: the create reply when create, start and unmute all succeed
    * with status "ok", else the first failure. */
  function CreateOutcome(name: string, create: Result<CreateReply>, start: Result<string>,
                         unmute: Result<string>): (r: Result<CreateReply>)
    ensures r.Ok? <==> create.Ok? && create.value.status == StatusOK && IsOK(start) && IsOK(unmute)
    ensures r.Ok? ==> r == create
    ensures create.Err? ==> r == Err(create.error)
    ensures create.Ok? && create.value.status != StatusOK ==>
      r == Err(Failure(StreamContext(name, "unable to create broadcast: " + create.value.status)))
    ensures create.Ok? && create.value.status == StatusOK && !IsOK(start) ==>
      r == Err(StatusError(start, BroadcastContext(name, "unable to start broadcast", create.value.broadcastID, "")).value)
    ensures create.Ok? && create.value.status == StatusOK && IsOK(start) && !IsOK(unmute) ==>
      r == Err(StatusError(unmute, BroadcastContext(name, "unable to unmute comments in broadcast",
                                                   create.value.broadcastID, "")).value)
    ensures r.Err? && r.error == LoginRequired ==>
      create == Err(LoginRequired) ||
      (create.Ok? && create.value.status == StatusOK &&
       (start == Err(LoginRequired) || (IsOK(start) && unmute == Err(LoginRequired))))
  {
    if create.Err? then Err(create.error)
    else if create.value.status != StatusOK then
      Err(Failure(StreamContext(name, "unable to create broadcast: " + create.value.status)))
    else if !IsOK(start) then
      Err(StatusError(start, BroadcastContext(name, "unable to start broadcast", create.value.broadcastID, "")).value)
    else if !IsOK(unmute) then
      Err(StatusError(unmute, BroadcastContext(name, "unable to unmute comments in broadcast",
                                               create.value.broadcastID, "")).value)
    else create
  }

  /** The action after a failed createBroadcast: a LoginRequiredError asks for a new login, any
    * other error cools down. A wrapped error is not seen through. */
  function CreateFailureAction(e: Error): (r: CycleEnd)
    ensures r == CreateNeedsLogin <==> e == LoginRequired
    ensures r != CreateNeedsLogin ==> r == CreateFailed(e)
  {
    if e == LoginRequired then CreateNeedsLogin else CreateFailed(e)
  }

  /** Whether the live phase's joined error asks for a new login instead of ending and posting. */
  function LiveNeedsRelogin(liveErr: Option<Error>): (r: bool)
    ensures r <==> liveErr.Some? && liveErr.value.LoginRequired?
    ensures liveErr.None? || liveErr.value.BroadcastStopped? || liveErr.value.Wrapped? ==> !r
  {
    liveErr == Some(LoginRequired)
  }

  /** The comment watermark: the largest CreatedAt of the batch, or the previous watermark if
    * larger. */
  function Watermark(last: int, cs: seq<Comment>): int {
    if cs == [] then last
    else
      var rest := Watermark(last, cs[1..]);
      if cs[0].createdAt > rest then cs[0].createdAt else rest
  }

  /** The watermark is the maximum of the previous one and every CreatedAt in the batch. */
  lemma {:induction false} WatermarkIsMax(last: int, cs: seq<Comment>)
    ensures Watermark(last, cs) >= last
    ensures forall i :: 0 <= i < |cs| ==> Watermark(last, cs) >= cs[i].createdAt
    ensures Watermark(last, cs) == last || exists i :: 0 <= i < |cs| && Watermark(last, cs) == cs[i].createdAt
  {
    if cs != [] {
      WatermarkIsMax(last, cs[1..]);
      forall i | 0 < i < |cs|
        ensures Watermark(last, cs) >= cs[i].createdAt
      {
        assert cs[i] == cs[1..][i - 1];
      }
      if Watermark(last, cs) != last && Watermark(last, cs) != cs[0].createdAt {
        var j :| 0 <= j < |cs[1..]| && Watermark(last, cs[1..]) == cs[1..][j].createdAt;
        assert cs[1..][j] == cs[j + 1];
      }
    }
  }

  /** The watermark does not depend on the order of the batch. */
  lemma WatermarkOrderIndependent(last: int, a: seq<Comment>, b: seq<Comment>)
    requires multiset(a) == multiset(b)
    ensures Watermark(last, a) == Watermark(last, b)
  {
    WatermarkAtMost(last, a, b);
    WatermarkAtMost(last, b, a);
  }

  lemma WatermarkAtMost(last: int, a: seq<Comment>, b: seq<Comment>)
    requires multiset(a) == multiset(b)
    ensures Watermark(last, a) <= Watermark(last, b)
  {
    WatermarkIsMax(last, a);
    WatermarkIsMax(last, b);
    if Watermark(last, a) != last {
      var i :| 0 <= i < |a| && Watermark(last, a) == a[i].createdAt;
      assert a[i] in multiset(a);
      assert a[i] in b;
      var j :| 0 <= j < |b| && b[j] == a[i];
    }
  }

  /** The thumbnail postToIGTV picks: the middle one, rounding up. */
  function MiddleIndex(n: nat): (i: nat)
    requires n > 0
    ensures i < n && 2 * i <= n < 2 * i + 2
  {
    n / 2
  }

  /** The IGTV gate: the broadcast ran for at least the configured number of minutes. */
  predicate LongEnough(startTime: int, now: int, minMinutes: int) {
    now - startTime >= minMinutes * Minute
  }

  /** The encoder arguments taken from the configuration; a nil list contributes nothing. */
  function ConfiguredArgs(e: BC.Encoder): seq<string> {
    if e.args.Some? then e.args.value else []
  }

  /** broadcast.Stream. The name and the shared configuration are fixed at creation. */
  class Stream {
    const name: string
    const config: BC.Config
    var instagram: Instagram?
    var broadcastID: int
    var uploadURL: string
    var apiPath: string
    var startTime: int
    var loginRequired: bool
    var streaming: bool

    /** The stream's account is configured, and a client exists whenever no login is required. */
    ghost predicate Valid()
      reads this, config
    {
      name in config.accounts && (!loginRequired ==> instagram != null)
    }

    /** respondChallenge's error for the stream's client and API path as they stand: AnswerError,
      * else the outcome of persisting the client's session. */
    ghost function ChallengeOutcome(r: ChallengeReplies, codec: Codec, saveErr: Option<Error>): Option<Error>
      reads this`instagram, this`apiPath, instagram
    {
      var e := AnswerError(name, instagram, apiPath, r);
      if e.Some? then e
      else if instagram.account.Some? then PersistOutcome(name, ExportToString(instagram, codec), saveErr)
      else Some(Panic("nil account"))
    }

    /** NewStream */
    constructor (name: string, config: BC.Config)
      ensures this.name == name && this.config == config
      ensures instagram == null && broadcastID == 0 && uploadURL == "" && apiPath == "" && startTime == 0
      ensures loginRequired && !streaming
      ensures name in config.accounts ==> Valid()
    {
      this.name := name;
      this.config := config;
      instagram := null;
      broadcastID := 0;
      uploadURL := "";
      apiPath := "";
      startTime := 0;
      loginRequired := true;
      streaming := false;
    }

    /** Start: marks the stream as streaming (the event loop it launches is not modelled);
      * there is no check for a stream that already streams. */
    method Start() returns (err: Option<Error>)
      modifies this`streaming
      ensures streaming && err == None
    {
      streaming := true;
      err := None;
    }

    /** Stop: a streaming stream stops and returns what its event loop reports on exit (`done`);
      * a stopped one returns nil and is left alone. */
    method Stop(done: Option<Error>) returns (err: Option<Error>)
      modifies this`streaming
      ensures old(streaming) ==> !streaming && err == done
      ensures !old(streaming) ==> !streaming && err == None
    {
      if streaming {
        streaming := false;
        return done;
      }
      return None;
    }

    /** persistToken: exports the session and stores it as the account's token before saving
      * the configuration; with a lossless codec the stored token decodes to the session. */
    method PersistToken(codec: Codec, saveErr: Option<Error>) returns (err: Option<Error>)
      requires instagram != null && instagram.account.Some? && name in config.accounts
      modifies config`accounts
      ensures err == PersistOutcome(name, ExportToString(instagram, codec), saveErr)
      ensures ExportToString(instagram, codec).Err? ==> config.accounts == old(config.accounts)
      ensures ExportToString(instagram, codec).Ok? ==>
        config.accounts == old(config.accounts)[name := old(config.accounts)[name].(token := ExportToString(instagram, codec).value)]
      ensures name in config.accounts
      ensures ExportToString(instagram, codec).Ok? && Lossless(codec) ==>
        DecodeSession(config.accounts[name].token, codec) == Ok(ExportRecord(instagram))
    {
      var exported := ExportToString(instagram, codec);
      if exported.Err? {
        return Some(Wrapped(StreamContext(name, "unable to export new token"), exported.error));
      }
      config.accounts := config.accounts[name := config.accounts[name].(token := exported.value)];
      if Lossless(codec) {
        ExportDecodeRoundTrip(instagram, codec);
      }
      if saveErr.Some? {
        return Some(Wrapped(StreamContext(name, "unable to update config"), saveErr.value));
      }
      return None;
    }

    /** login: the stored token first; only if that fails, a password login, and only after a
      * successful password login is the new token persisted, its failure being the login's. */
    method Login(codec: Codec, sync: SyncReply, byPassword: Result<Instagram>, saveErr: Option<Error>)
      returns (err: Option<Error>, steps: seq<LoginStep>)
      requires name in config.accounts
      requires byPassword.Ok? ==> byPassword.value.account.Some?
      modifies this`instagram, config`accounts
      ensures name in config.accounts
      ensures |steps| >= 1 && steps[0] == ByToken
      ensures steps == [ByToken] <==>
        DecodeSession(old(config.accounts[name].token), codec).Ok? && SyncError(sync).None?
      ensures steps == [ByToken] ==>
        err == None && instagram != null && fresh(instagram) && config.accounts == old(config.accounts) &&
        Imported(instagram, DecodeSession(old(config.accounts[name].token), codec).value, sync)
      ensures steps != [ByToken] && byPassword.Err? ==>
        steps == [ByToken, ByPassword] && err == Some(byPassword.error) &&
        instagram == old(instagram) && config.accounts == old(config.accounts)
      ensures steps != [ByToken] && byPassword.Ok? ==>
        steps == [ByToken, ByPassword, Persist] && instagram == byPassword.value &&
        err == PersistOutcome(name, ExportToString(instagram, codec), saveErr) &&
        config.accounts == Persisted(old(config.accounts), name, ExportToString(instagram, codec))
      ensures err == LoginOutcome(name, old(config.accounts[name].token), codec, sync, byPassword, saveErr)
      ensures err.None? ==> instagram != null
      ensures err.Some? && err.value.Challenge? ==> instagram == old(instagram)
    {
      var token := config.accounts[name].token;
      var client, _, tokenErr := ImportFromString(token, codec, sync);
      steps := [ByToken];
      if tokenErr.None? {
        instagram := client;
        return None, steps;
      }
      // The token error is only logged.
      var _ := Wrapped(StreamContext(name, "unable to login by token"), tokenErr.value);
      steps := steps + [ByPassword];
      if byPassword.Err? {
        return Some(byPassword.error), steps;
      }
      instagram := byPassword.value;
      steps := steps + [Persist];
      err := PersistToken(codec, saveErr);
    }

    /** The challenge exchanges of respondChallenge: process the challenge at apiPath, then,
      * once the security code arrived, send it. */
    method SendCode(ch: Challenge, r: ChallengeReplies) returns (err: Option<Error>)
      requires instagram != null && |apiPath| > 0 && ch.client == instagram
      modifies ch`state, instagram`challengeURL, instagram`token, instagram`cookies
      ensures instagram.challengeURL == apiPath[1..]
      ensures err == SendCodeError(name, r)
      ensures err.None? ==> ch.state == ReplyState(r.send) && instagram.cookies == r.send.exchange.cookies
    {
      var _, processErr := ch.Process(apiPath, r.refresh, r.answer);
      if processErr.Some? {
        return Some(Propagate(StreamContext(name, "unable to process challenge"), processErr.value));
      }
      if r.code.None? {
        return Some(Failure(StreamContext(name, "timed out while waiting for challenge security code")));
      }
      var _, sendErr := ch.SendSecurityCode(r.code.value, r.send);
      if sendErr.Some? {
        return Some(Propagate(StreamContext(name, "unable to send security code"), sendErr.value));
      }
      return None;
    }

    /** respondChallenge: processes the challenge at apiPath, waits for the security code,
      * sends it, adopts the logged-in user the challenge reports and persists the session,
      * with the cookies and token the challenge requests left. */
    method RespondChallenge(r: ChallengeReplies, codec: Codec, saveErr: Option<Error>) returns (err: Option<Error>)
      requires name in config.accounts
      requires instagram != null ==> r.ch != null && r.ch.client == instagram
      modifies (if instagram != null then {instagram, r.ch} else {}), config`accounts
      ensures name in config.accounts
      ensures instagram == null || |apiPath| == 0 ==> err.Some? && err.value.Panic?
      ensures instagram != null && |apiPath| > 0 ==> instagram.challengeURL == apiPath[1..]
      ensures instagram != null && |apiPath| > 0 && SendCodeError(name, r).Some? ==>
        err == SendCodeError(name, r) && instagram.account == old(instagram.account)
      ensures AnswerError(name, instagram, apiPath, r).None? ==>
        instagram.account == ReplyState(r.send).loggedInUser && instagram.cookies == r.send.exchange.cookies &&
        config.accounts == Persisted(old(config.accounts), name, ExportToString(instagram, codec))
      ensures AnswerError(name, instagram, apiPath, r).Some? ==> config.accounts == old(config.accounts)
      ensures err == ChallengeOutcome(r, codec, saveErr)
      ensures err.None? ==> instagram != null && instagram.account.Some?
    {
      if instagram == null {
        return Some(Panic("nil client"));
      }
      if |apiPath| == 0 {
        return Some(Panic("slice bounds out of range"));
      }
      var ch := r.ch;
      err := SendCode(ch, r);
      if err.Some? {
        return;
      }
      instagram.account := ch.state.loggedInUser;
      if instagram.account.None? {
        return Some(Panic("nil account"));
      }
      err := PersistToken(codec, saveErr);
    }

    /** createBroadcast: create, start with the notify flag, unmute comments; the broadcast ID,
      * upload URL and start instant are recorded only when all three succeed. */
    method CreateBroadcast(notify: bool, create: Result<CreateReply>, start: Result<string>,
                           unmute: Result<string>, now: int)
      returns (err: Option<Error>, calls: seq<LiveCall>)
      modifies this`broadcastID, this`uploadURL, this`startTime
      ensures |calls| >= 1 && calls[0] == CreateCall(StreamWidth, StreamHeight, config.title)
      ensures |calls| == 1 <==> create.Err? || create.value.status != StatusOK
      ensures |calls| >= 2 ==> |calls| <= 3 && calls[1] == StartCall(create.value.broadcastID, notify)
      ensures |calls| == 3 <==> create.Ok? && create.value.status == StatusOK && IsOK(start)
      ensures |calls| == 3 ==> calls[2] == UnmuteCall(create.value.broadcastID)
      ensures CreateOutcome(name, create, start, unmute).Err? ==>
        err == Some(CreateOutcome(name, create, start, unmute).error) &&
        broadcastID == old(broadcastID) && uploadURL == old(uploadURL) && startTime == old(startTime)
      ensures CreateOutcome(name, create, start, unmute).Ok? ==>
        err == None && broadcastID == create.value.broadcastID &&
        uploadURL == create.value.uploadURL && startTime == now
    {
      calls := [CreateCall(StreamWidth, StreamHeight, config.title)];
      if create.Err? {
        return Some(create.error), calls;
      }
      var live := create.value;
      if live.status != StatusOK {
        return Some(Failure(StreamContext(name, "unable to create broadcast: " + live.status))), calls;
      }
      calls := calls + [StartCall(live.broadcastID, notify)];
      var startErr := StatusError(start, BroadcastContext(name, "unable to start broadcast", live.broadcastID, ""));
      if startErr.Some? {
        return startErr, calls;
      }
      calls := calls + [UnmuteCall(live.broadcastID)];
      var unmuteErr := StatusError(unmute, BroadcastContext(name, "unable to unmute comments in broadcast",
                                                            live.broadcastID, ""));
      if unmuteErr.Some? {
        return unmuteErr, calls;
      }
      broadcastID := live.broadcastID;
      uploadURL := live.uploadURL;
      startTime := now;
      err := None;
    }

    /** runEncoder's command line: the input, the configured arguments, then the FLV output to
      * the upload URL, built by successive appends. */
    method EncoderInvocation() returns (command: string, args: seq<string>)
      ensures command == config.encoder.command
      ensures |args| == |ConfiguredArgs(config.encoder)| + 5
      ensures args[..2] == ["-i", config.inputURL]
      ensures args[2..|args| - 3] == ConfiguredArgs(config.encoder)
      ensures args[|args| - 3..] == ["-f", "flv", uploadURL]
    {
      args := [];
      args := args + ["-i", config.inputURL];
      args := args + ConfiguredArgs(config.encoder);
      args := args + ["-f", "flv"];
      args := args + [uploadURL];
      command := config.encoder.command;
    }

    /** heartbeatAndStatus: a "stopped" broadcast status is a broadcastStoppedError carrying this
      * stream's broadcast ID; any other status is no error. */
    function HeartbeatAndStatus(reply: Result<string>): (err: Option<Error>)
      reads this
      ensures reply.Err? ==> err == Some(reply.error)
      ensures reply.Ok? ==> (err.Some? <==> reply.value == StatusStopped)
      ensures reply == Ok(StatusStopped) ==> err == Some(BroadcastStopped(broadcastID))
    {
      if reply.Err? then Some(reply.error)
      else if reply.value == StatusStopped then Some(BroadcastStopped(broadcastID))
      else None
    }

    /** getComments: folds the fetched batch, from its last comment to its first, into the
      * watermark; a failed fetch keeps the watermark. */
    method GetComments(lastTS: int, reply: Result<seq<Comment>>) returns (newTS: int, err: Option<Error>)
      ensures reply.Err? ==> newTS == lastTS && err == Some(reply.error)
      ensures reply.Ok? ==> newTS == Watermark(lastTS, reply.value) && err == None
    {
      if reply.Err? {
        return lastTS, Some(reply.error);
      }
      var cs := reply.value;
      newTS := lastTS;
      var i := |cs|;
      while i > 0
        invariant 0 <= i <= |cs|
        invariant newTS == Watermark(lastTS, cs[i..])
      {
        i := i - 1;
        assert cs[i..][1..] == cs[i + 1..];
        if cs[i].createdAt > newTS {
          newTS := cs[i].createdAt;
        }
      }
      assert cs[0..] == cs;
      err := None;
    }

    /** postToIGTV: refused when the broadcast is shorter than the configured minimum; else the
      * middle thumbnail is converted and uploaded and the post is made with this broadcast's ID
      * and the configured title, description and feed flag. An empty thumbnail list panics. */
    function PostToIGTV(now: int, r: IgtvReplies): (err: Option<Error>)
      reads this, config
      ensures !LongEnough(startTime, now, config.igtv.minDuration) ==>
        err == Some(Failure(StreamContext(name, "broadcast duration is too short, will not post to IGTV")))
      ensures LongEnough(startTime, now, config.igtv.minDuration) && r.thumbnails == Ok([]) ==>
        err.Some? && err.value.Panic?
      ensures err.None? <==>
        LongEnough(startTime, now, config.igtv.minDuration) && r.thumbnails.Ok? && |r.thumbnails.value| > 0 &&
        r.toJPEG(r.thumbnails.value[MiddleIndex(|r.thumbnails.value|)]).Ok? &&
        r.upload(r.toJPEG(r.thumbnails.value[MiddleIndex(|r.thumbnails.value|)]).value).Ok? &&
        IsOK(r.post(IgtvPost(broadcastID,
                             r.upload(r.toJPEG(r.thumbnails.value[MiddleIndex(|r.thumbnails.value|)]).value).value,
                             config.title, config.igtv.description, config.igtv.shareToFeed)))
      ensures LongEnough(startTime, now, config.igtv.minDuration) && r.thumbnails.Ok? && |r.thumbnails.value| > 0 ==>
        var jpeg := r.toJPEG(r.thumbnails.value[MiddleIndex(|r.thumbnails.value|)]);
        jpeg.Ok? && r.upload(jpeg.value).Ok? ==>
          var reply := r.post(IgtvPost(broadcastID, r.upload(jpeg.value).value, config.title,
                                       config.igtv.description, config.igtv.shareToFeed));
          reply.Ok? && reply.value != StatusOK ==>
            err == Some(Failure(BroadcastContext(name, "unable to post broadcast", broadcastID, " to IGTV") +
                                ": " + reply.value))
    {
      if !LongEnough(startTime, now, config.igtv.minDuration) then
        Some(Failure(StreamContext(name, "broadcast duration is too short, will not post to IGTV")))
      else if r.thumbnails.Err? then Some(r.thumbnails.error)
      else if |r.thumbnails.value| == 0 then Some(Panic("index out of range"))
      else
        var url := r.thumbnails.value[MiddleIndex(|r.thumbnails.value|)];
        var jpeg := r.toJPEG(url);
        if jpeg.Err? then Some(jpeg.error)
        else
          var uploadID := r.upload(jpeg.value);
          if uploadID.Err? then Some(uploadID.error)
          else
            StatusError(r.post(IgtvPost(broadcastID, uploadID.value, config.title,
                                        config.igtv.description, config.igtv.shareToFeed)),
                        BroadcastContext(name, "unable to post broadcast", broadcastID, " to IGTV"))
    }

    /** endBroadcastAndPost: nothing is posted unless the broadcast ended with status "ok";
      * IGTV is attempted only when enabled, and Stories whenever the end succeeded, whatever
      * the IGTV result (unless the IGTV attempt panicked). */
    function EndBroadcastAndPost(now: int, endReply: Result<string>, igtv: IgtvReplies,
                                 stories: Result<string>): (r: PostReport)
      reads this, config
      ensures r.endErr.None? <==> IsOK(endReply)
      ensures r.endErr == StatusError(endReply, BroadcastContext(name, "unable to end broadcast", broadcastID, ""))
      ensures r.endErr.Some? ==> r.igtv == NotAttempted && r.stories == NotAttempted
      ensures r.igtv.Attempted? <==> r.endErr.None? && config.igtv.enabled
      ensures r.igtv.Attempted? ==> r.igtv.err == PostToIGTV(now, igtv)
      ensures r.stories.Attempted? <==>
        r.endErr.None? && !(r.igtv.Attempted? && r.igtv.err.Some? && r.igtv.err.value.Panic?)
      ensures r.stories.Attempted? ==>
        r.stories.err == StatusError(stories, BroadcastContext(name, "unable to post broadcast", broadcastID, " to Stories"))
    {
      var endErr := StatusError(endReply, BroadcastContext(name, "unable to end broadcast", broadcastID, ""));
      if endErr.Some? then PostReport(endErr, NotAttempted, NotAttempted)
      else
        var igtvAttempt := if config.igtv.enabled then Attempted(PostToIGTV(now, igtv)) else NotAttempted;
        if igtvAttempt.Attempted? && igtvAttempt.err.Some? && igtvAttempt.err.value.Panic? then
          PostReport(None, igtvAttempt, NotAttempted)
        else
          PostReport(None, igtvAttempt,
                     Attempted(StatusError(stories, BroadcastContext(name, "unable to post broadcast", broadcastID,
                                                                     " to Stories"))))
    }

    /** What loopCycle does with the login's result: a success clears loginRequired; on a
      * failure, the type switch answers a challenge error (its API path kept), and the cycle
      * goes on, with loginRequired cleared, if that succeeds; any other error ends the cycle. */
    method OnLoginError(err: Option<Error>, o: CycleOracle) returns (stop: Option<CycleEnd>)
      requires name in config.accounts
      requires err.None? ==> instagram != null
      requires err.Some? && err.value.Challenge? && instagram != null ==>
        o.challenge.ch != null && o.challenge.ch.client == instagram
      modifies this`apiPath, this`loginRequired, config`accounts,
               (if err.Some? && err.value.Challenge? && instagram != null then {instagram, o.challenge.ch} else {})
      ensures name in config.accounts
      ensures err.None? ==> stop.None? && config.accounts == old(config.accounts)
      ensures err.Some? && !err.value.Challenge? ==>
        stop == Some(LoginFailed(err.value)) && config.accounts == old(config.accounts)
      ensures err.Some? && err.value.Challenge? ==>
        apiPath == err.value.challenge.challenge.apiPath &&
        stop == ChallengeEnd(ChallengeOutcome(o.challenge, o.codec, o.saveErr))
      ensures stop.None? ==> !loginRequired && instagram != null
      ensures stop.Some? ==> loginRequired == old(loginRequired)
    {
      if err.Some? {
        if !err.value.Challenge? {
          return Some(LoginFailed(err.value));
        }
        apiPath := err.value.challenge.challenge.apiPath;
        var challengeErr := RespondChallenge(o.challenge, o.codec, o.saveErr);
        if challengeErr.Some? {
          if challengeErr.value.Panic? {
            return Some(Crashed(challengeErr.value));
          }
          return Some(ChallengeFailed(challengeErr.value));
        }
      }
      loginRequired := false;
      return None;
    }

    /** The login half of loopCycle: a no-op when no login is required; else a login, and a
      * challenge answer when the login error is a challenge. `None` means the cycle goes on
      * with a logged-in client. */
    method LoginPhase(o: CycleOracle) returns (stop: Option<CycleEnd>)
      requires Valid()
      requires o.byPassword.Ok? ==> o.byPassword.value.account.Some?
      requires instagram != null ==> o.challenge.ch != null && o.challenge.ch.client == instagram
      modifies this`instagram, this`apiPath, this`loginRequired, config`accounts,
               (if instagram != null then {instagram, o.challenge.ch} else {})
      ensures Valid()
      ensures stop.None? ==> !loginRequired
      ensures !old(loginRequired) ==> stop.None?
      ensures stop.Some? ==>
        loginRequired && (stop.value.LoginFailed? || stop.value.ChallengeFailed? || stop.value.Crashed?)
      ensures var outcome := old(LoginOutcome(name, config.accounts[name].token, o.codec, o.sync, o.byPassword, o.saveErr));
        old(loginRequired) ==>
          (outcome.None? ==> stop.None?) &&
          (outcome.Some? && !outcome.value.Challenge? ==> stop == Some(LoginFailed(outcome.value))) &&
          (outcome.Some? && outcome.value.Challenge? ==>
             instagram == old(instagram) && apiPath == outcome.value.challenge.challenge.apiPath &&
             stop == ChallengeEnd(ChallengeOutcome(o.challenge, o.codec, o.saveErr)))
    {
      if !loginRequired {
        return None;
      }
      ghost var outcome := LoginOutcome(name, config.accounts[name].token, o.codec, o.sync, o.byPassword, o.saveErr);
      var err, _ := Login(o.codec, o.sync, o.byPassword, o.saveErr);
      assert err == outcome;
      assert Valid();
      assert err.Some? && err.value.Challenge? ==> instagram == old(instagram);
      stop := OnLoginError(err, o);
    }

    /** The broadcast half of loopCycle, with a logged-in client: create, then after the live
      * phase either ask for a new login or end and post. */
    method BroadcastPhase(o: CycleOracle) returns (end: CycleEnd)
      requires !loginRequired
      modifies this`broadcastID, this`uploadURL, this`startTime, this`loginRequired
      ensures end.CreateNeedsLogin? || end.CreateFailed? || end.LiveNeedsLogin? || end.Finished?
      ensures end.CreateNeedsLogin? ==>
        CreateOutcome(name, o.create, o.start, o.unmute) == Err(LoginRequired) && loginRequired
      ensures end.CreateFailed? ==>
        CreateOutcome(name, o.create, o.start, o.unmute) == Err(end.err) && end.err != LoginRequired &&
        !loginRequired
      ensures end.CreateNeedsLogin? || end.CreateFailed? ==>
        broadcastID == old(broadcastID) && uploadURL == old(uploadURL) && startTime == old(startTime)
      ensures end.LiveNeedsLogin? || end.Finished? ==>
        CreateOutcome(name, o.create, o.start, o.unmute).Ok? &&
        broadcastID == o.create.value.broadcastID && uploadURL == o.create.value.uploadURL &&
        startTime == o.createdAt &&
        (end.LiveNeedsLogin? <==> LiveNeedsRelogin(o.liveErr))
      ensures end.LiveNeedsLogin? ==> loginRequired
      ensures end.Finished? ==>
        !loginRequired && end.report == EndBroadcastAndPost(o.endedAt, o.endReply, o.igtv, o.stories)
    {
      var createErr, _ := CreateBroadcast(config.notify, o.create, o.start, o.unmute, o.createdAt);
      if createErr.Some? {
        end := CreateFailureAction(createErr.value);
        if end == CreateNeedsLogin {
          loginRequired := true;
        }
        return;
      }
      if LiveNeedsRelogin(o.liveErr) {
        loginRequired := true;
        return LiveNeedsLogin;
      }
      end := Finished(EndBroadcastAndPost(o.endedAt, o.endReply, o.igtv, o.stories));
    }

    /** loopCycle: logs in if required (answering a challenge when the login error is one),
      * creates the broadcast, and after the live phase either asks for a new login or ends the
      * broadcast and posts it. */
    method LoopCycle(o: CycleOracle) returns (end: CycleEnd)
      requires Valid()
      requires o.byPassword.Ok? ==> o.byPassword.value.account.Some?
      requires instagram != null ==> o.challenge.ch != null && o.challenge.ch.client == instagram
      modifies this, config`accounts, (if instagram != null then {instagram, o.challenge.ch} else {})
      ensures Valid()
      ensures streaming == old(streaming)
      ensures !old(loginRequired) ==> !end.LoginFailed? && !end.ChallengeFailed? && !end.Crashed?
      ensures end.LoginFailed? ==> !end.err.Challenge?
      ensures end.LoginFailed? || end.ChallengeFailed? || end.Crashed? ==>
        old(loginRequired) && loginRequired &&
        broadcastID == old(broadcastID) && uploadURL == old(uploadURL) && startTime == old(startTime)
      ensures end.CreateNeedsLogin? ==>
        CreateOutcome(name, o.create, o.start, o.unmute) == Err(LoginRequired) && loginRequired
      ensures end.CreateFailed? ==>
        CreateOutcome(name, o.create, o.start, o.unmute) == Err(end.err) && end.err != LoginRequired &&
        !loginRequired
      ensures end.CreateNeedsLogin? || end.CreateFailed? ==>
        broadcastID == old(broadcastID) && uploadURL == old(uploadURL) && startTime == old(startTime)
      ensures end.LiveNeedsLogin? || end.Finished? ==>
        CreateOutcome(name, o.create, o.start, o.unmute).Ok? &&
        broadcastID == o.create.value.broadcastID && uploadURL == o.create.value.uploadURL &&
        startTime == o.createdAt &&
        (end.LiveNeedsLogin? <==> LiveNeedsRelogin(o.liveErr))
      ensures end.LiveNeedsLogin? ==> loginRequired
      ensures end.Finished? ==>
        !loginRequired && end.report == EndBroadcastAndPost(o.endedAt, o.endReply, o.igtv, o.stories)
      ensures var outcome := old(LoginOutcome(name, config.accounts[name].token, o.codec, o.sync, o.byPassword, o.saveErr));
        old(loginRequired) ==>
          (outcome.None? ==> !end.LoginFailed? && !end.ChallengeFailed? && !end.Crashed?) &&
          (outcome.Some? && !outcome.value.Challenge? ==> end == LoginFailed(outcome.value)) &&
          (outcome.Some? && outcome.value.Challenge? ==>
             apiPath == outcome.value.challenge.challenge.apiPath &&
             (end.ChallengeFailed? || end.Crashed? <==> ChallengeOutcome(o.challenge, o.codec, o.saveErr).Some?) &&
             (ChallengeOutcome(o.challenge, o.codec, o.saveErr).Some? ==>
                end == ChallengeEnd(ChallengeOutcome(o.challenge, o.codec, o.saveErr)).value))
    {
      var stop := LoginPhase(o);
      if stop.Some? {
        return stop.value;
      }
      end := BroadcastPhase(o);
    }
  }

  /** broadcastStoppedError.Error */
  function StoppedText(broadcastID: int): string {
    "broadcast " + Text.FormatInt(broadcastID) + " has stopped"
  }

  /** Different broadcasts give different messages. */
  lemma StoppedTextInjective(a: int, b: int)
    requires StoppedText(a) == StoppedText(b)
    ensures a == b
  {
    var prefix := "broadcast ";
    var suffix := " has stopped";
    var fa := Text.FormatInt(a);
    var fb := Text.FormatInt(b);
    assert fa == StoppedText(a)[|prefix|..|StoppedText(a)| - |suffix|];
    assert fb == StoppedText(b)[|prefix|..|StoppedText(b)| - |suffix|];
    Text.FormatIntInjective(a, b);
  }
}
