# broadcastd, modelled in Dafny

broadcastd runs Instagram live broadcasts for a set of configured accounts. It keeps one
`Stream` per account. A stream logs in by its saved session or its password, and has code to answer
a login challenge (see "## Left out" for why that code is never reached as written). It then
creates a live broadcast and feeds it through an encoder process while it polls heartbeats and
comments. At the end it ends the broadcast and posts it to IGTV and Stories. A `Broadcast`
aggregate owns the streams, starts and stops them together, and relays new comments to websocket
subscribers. The relay dedupes comments through a TTL cache and keeps a bounded history.

This project models the decision logic of that core. Every remote call, the clock, the random
source, file writes and the codecs are parameters (oracles). What remains is proved:

- the stream's login / create / live / end-and-post cycle over the fields `loginRequired`,
  `streaming`, `broadcastID`, `uploadURL` and `startTime`;
- the aggregate's start and stop guards, and the comment relay's cache, history and fan-out;
- the API client's pieces that need no network:
  - response classification and request payload merging;
  - request defaults and the CSRF token refresh;
  - the challenge flow, UUID generation and signatures;
  - session export and import;
- the configuration defaults.

One module per source file:

| file | module | source |
|---|---|---|
| errors.dfy | `Errors` | error kinds of instagram/request.go, instagram/challenge.go, broadcast/stream.go |
| text.dfy | `Text` | `strconv.FormatInt`, `strings.Contains`, `strings.Replace` as used by the core |
| utils.dfy | `InstagramUtils` | instagram/utils.go |
| request.dfy | `InstagramRequest` | instagram/request.go |
| challenge.dfy | `InstagramChallenge` | instagram/challenge.go |
| session.dfy | `InstagramConfig` | instagram/config.go |
| bconfig.dfy | `BroadcastConfig` | broadcast/config.go |
| appconfig.dfy | `AppConfig` | config/config.go |
| stream.dfy | `BroadcastStream` | broadcast/stream.go |
| broadcast.dfy | `BroadcastAggregate` | broadcast/broadcast.go |

Conventions:

- A Go `error` is `Option<Error>`, and a `(T, error)` pair is `Result<T>`.
- `fmt.Errorf("...: %v", err)` is `Wrapped(context, err)`. A type switch does not see through
  it, just as in Go.
- A Go run-time panic (a nil dereference, an index out of range) is the outcome `Panic(reason)`.
- Instants and durations are integer nanoseconds.
- Go's `int`/`int64` are unbounded integers.

## Model

| member | source | states |
|---|---|---|
| Text.FormatInt | broadcast/broadcast.go:136 | base-10 rendering: a leading '-' exactly for negative numbers, then the digits of the magnitude |
| Text.DecimalRoundTrip | instagram/request.go:68 | the digits written for a natural number read back as that number |
| Text.FormatIntInjective | broadcast/broadcast.go:136 | two integers with the same rendering are equal |
| Text.ReplaceAllWithoutOccurrence | instagram/challenge.go:82 | `strings.Replace(s, pat, rep, -1)` leaves a string without `pat` unchanged |
| InstagramUtils.StampVariant | instagram/utils.go:54 | the top two bits of byte 8 become `10` and its low six bits are kept (section 4.1.1 of RFC 4122) |
| InstagramUtils.StampVersion | instagram/utils.go:56 | the high nibble of byte 6 becomes 4 and its low nibble is kept (section 4.1.3 of RFC 4122) |
| InstagramUtils.Stamp | instagram/utils.go:53-56 | bytes 6 and 8 are stamped; every other byte is unchanged |
| InstagramUtils.SetVersionAndVariant | instagram/utils.go:53-56 | the 16-byte buffer, updated in place, equals the stamped old contents |
| InstagramUtils.UnhexHex | instagram/utils.go:57 | reading back the `%x` rendering of a byte slice gives the slice |
| InstagramUtils.FormatUUIDIsUUIDText | instagram/utils.go:57 | the rendering is 36 characters: '-' at 8, 13, 18 and 23 and lower-case hex elsewhere |
| InstagramUtils.FormatUUIDGroups | instagram/utils.go:57 | the five hex groups of `u[0:4]`, `u[4:6]`, `u[6:8]`, `u[8:10]`, `u[10:]` sit at the 8-4-4-4-12 positions |
| InstagramUtils.FormatUUIDRoundTrip | instagram/utils.go:57 | parsing the rendering gives back the 16 bytes |
| InstagramUtils.FormatUUIDMarkers | instagram/utils.go:57 | character 14 shows the high nibble of byte 6 and character 19 that of byte 8 |
| InstagramUtils.StampedIsVersion4 | instagram/utils.go:53-57 | a stamped buffer renders with '4' at index 14 and one of 8/9/a/b at index 19, and parses back to the stamped bytes |
| InstagramUtils.NewUUID | instagram/utils.go:47-58 | a short or failed random read gives "" and the read error; otherwise a version-4 text of the stamped bytes and no error |
| InstagramUtils.FallbackIsVersion4 | instagram/utils.go:63 | the fixed fallback UUID has the version-4 layout |
| InstagramUtils.GenerateUUID | instagram/utils.go:60-66 | the fallback constant on a read failure, else the stamped UUID; a version-4 text either way |
| InstagramUtils.GenerateDeviceID | instagram/utils.go:42-45 | "android-" and the first 16 characters of the MD5 hex digest: 24 characters |
| InstagramUtils.GenerateSignature | instagram/utils.go:68-75 | exactly the keys ig_sig_key_version and signed_body; signed_body is HMAC hex, '.', data |
| InstagramUtils.SignedBodyRoundTrip | instagram/utils.go:71-73 | signed_body splits at its first '.' into the HMAC and the data |
| InstagramUtils.Max | instagram/utils.go:82-87 | the result is one of the arguments and at least both |
| InstagramUtils.GetRandom | instagram/utils.go:25-28 | the result lies in [min, max), for max > min |
| InstagramUtils.RandInt | instagram/utils.go:77-80 | the result lies in [min, max] |
| InstagramUtils.BreadcrumbValues | instagram/utils.go:90-92 | the text-change count is at least 1 (max(1, size/d)); the elapsed time exceeds the size by at least 1000; dt is the Unix time in milliseconds |
| InstagramUtils.BreadcrumbShape | instagram/utils.go:94-101 | the breadcrumb is the base64 signature, one newline, the base64 body, and splits back at that newline |
| InstagramRequest.Instagram.PrepareData | instagram/request.go:61-76 | the payload equals the base fields overridden by each caller map in order (nested loops) |
| InstagramRequest.CopyInto | instagram/request.go:72-74 | copying a map's keys one by one gives the map union, the copied map winning |
| InstagramRequest.BaseData | instagram/request.go:62-69 | `_uuid` and `_csrftoken` always; `_uid` (decimal ID) exactly for a set account with a non-zero ID |
| InstagramRequest.MergedLookup | instagram/request.go:71-75 | a merged key comes from the last caller map defining it, else from the base; no other keys appear |
| InstagramRequest.PrepareDataFields | instagram/request.go:61-75 | `_uuid`/`_csrftoken` present; without a caller `_uid`, `_uid` present iff the account ID is set and non-zero, as its decimal; the last caller map wins |
| InstagramRequest.Prepare | instagram/request.go:86-100 | POST iff IsPost; Connection "keep-alive" when empty, else as given; the v2 base URL iff UseV2 |
| InstagramRequest.Instagram.Receive | instagram/request.go:140-158 | a transport error changes nothing; after a response the client holds the jar's cookies and the token of the last cookie named like "csrftoken" (the old token when none is); the error is ExchangeError's: the read error, else CheckError's |
| InstagramRequest.ExchangeError | instagram/request.go:140-158 | the transport error, else the body read error, else the status classification of the response |
| InstagramRequest.Instagram.SendRequest | instagram/request.go:85-159 | the request is Prepare's (method, base URL, Connection default); the cookies, token and error are Receive's |
| InstagramRequest.CsrfToken | instagram/request.go:146-151 | the value of the last cookie whose name contains "csrftoken", or the current token when none does |
| InstagramRequest.LatestCsrfToken | instagram/request.go:147-151 | the cookie loop computes CsrfToken |
| InstagramRequest.CheckError | instagram/request.go:161-187 | nil iff 200; a 400 with challenge_required gives the embedded ChallengeError and any other 400 the HTTPError4xx; every other status gives HTTPErrorGeneric; an undecodable body gives the decode error |
| InstagramRequest.ChallengeOnlyFor400 | instagram/request.go:164-173 | a challenge error comes only from a decodable 400 whose message is challenge_required |
| InstagramRequest.ErrorTexts | instagram/request.go:28-59 | "Status: Message" and "Status: Message (ErrorType)" split back at the first ':'; HTTPError4xx reports the embedded status |
| InstagramChallenge.NextStep | instagram/challenge.go:165-172 | select_verify_method answers with the offered choice, delta_login_review with "0", any other step is unsupported under its own name |
| InstagramChallenge.ProcessError | instagram/challenge.go:158-173 | no error iff the refresh decoded to a challenge, its step is supported and the answer decoded to a challenge; a failed or challenge-less refresh is returned as is (a request error, or a nil-dereference panic); an unsupported step gives ChallengeProcessError; otherwise the answer's outcome |
| InstagramChallenge.VerifyEndpoint | instagram/challenge.go:79-83 | the URL is rewritten "/challenge/" to "/challenge/replay/" only when the first replay flag is set, and unchanged when it holds no "/challenge/" |
| InstagramChallenge.ProcessErrorText | instagram/challenge.go:39-41 | the message of ChallengeProcessError is exactly the step name |
| InstagramChallenge.ReplyError | instagram/challenge.go:63-72 | no error iff the reply decoded to a challenge; the request's error (transport, else the classified response) comes first, then the decoding error; a body without the embedded challenge panics on the nil pointer |
| InstagramChallenge.Challenge.constructor | instagram/challenge.go:43-47 | a new challenge points to its client and holds no state |
| InstagramChallenge.Challenge.Adopt | instagram/challenge.go:66-72 | the reply's response goes through the client's Receive, so the client's cookies and CSRF token are the received ones; the error is ReplyError's: a failed reply is returned, a reply without a challenge panics on the nil pointer; a decoded challenge replaces the state wholesale (the client pointer stays); on any error the state is untouched |
| InstagramChallenge.Challenge.UpdateState | instagram/challenge.go:49-75 | a GET to the challenge URL with guid and device_id over the base payload; the client's cookies and token are refreshed from the response; the error is ReplyError's; the state is replaced by the decoded challenge exactly when there is no error |
| InstagramChallenge.Challenge.SelectVerifyMethod | instagram/challenge.go:77-115 | a POST of the choice, guid and device_id over the base payload (built with the token before the call) to VerifyEndpoint of the challenge URL; cookies and token refreshed from the response; the error is ReplyError's (a challenge-less reply panics at line 111); the state is replaced exactly when there is no error |
| InstagramChallenge.Challenge.DeltaLoginReview | instagram/challenge.go:153-156 | a POST of exactly the base payload plus choice "0", guid and device_id to the challenge URL; cookies, token, error and state as SelectVerifyMethod's |
| InstagramChallenge.Challenge.SendSecurityCode | instagram/challenge.go:117-151 | a POST of security_code, guid and device_id over the base payload to the challenge URL; cookies and token refreshed from the response; the error is ReplyError's (a challenge-less reply panics at line 147); the state is replaced exactly when there is no error |
| InstagramChallenge.Challenge.Process | instagram/challenge.go:158-173 | the challenge URL becomes apiURL without its first character; a failed or challenge-less refresh is returned before dispatch; the error is ProcessError; the requests sent per step (the answer's payload carrying the token received with the refresh) and the state, cookies and token after each outcome |
| InstagramConfig.ExportRecord | instagram/config.go:36-45 | the record carries the account ID, the session fields and the cookies, never the password |
| InstagramConfig.ExportToString | instagram/config.go:56-65 | the marshalling error, or the base64 of the JSON record |
| InstagramConfig.DecodeSession | instagram/config.go:104-119 | a base64 error is returned before any JSON decoding; otherwise the JSON decoding's result |
| InstagramConfig.ExportDecodeRoundTrip | instagram/config.go:56-119 | with lossless codecs, decoding an exported string gives back the exported record |
| InstagramConfig.SyncPayload | instagram/config.go:95-96 | the sync request's payload carries `_uid` exactly when the saved ID is non-zero |
| InstagramConfig.SyncError | instagram/account.go:93-105 | the sync fails with the request's error when there is one, else with the profile decoding's; no error implies a response arrived |
| InstagramConfig.ImportConfig | instagram/config.go:67-102 | the error is SyncError's (the sync request's, else the profile decoding's) and any error gives nil; on success a fresh client with the record's identity fields and an empty password, the jar's cookies after the sync, the CSRF token they carry (else the saved one), and the synced account |
| InstagramConfig.ImportFromString | instagram/config.go:104-122 | a decoding failure gives nil and its error with no request; otherwise ImportConfig's outcome on the decoded record |
| BroadcastConfig.DefaultedEncoder | broadcast/config.go:65-71 | an empty command becomes "ffmpeg" and a nil argument list the 12 defaults; given values are kept |
| BroadcastConfig.ClampedMinDuration | broadcast/config.go:73-75 | below 2 becomes 2, otherwise unchanged; at least 2 afterwards |
| BroadcastConfig.DefaultedEncoderIdempotent | broadcast/config.go:65-71 | defaulting twice is defaulting once; a complete encoder is a fixed point, and only that |
| BroadcastConfig.ClampedMinDurationIdempotent | broadcast/config.go:73-75 | clamping twice is clamping once; a value of at least 2 is a fixed point, and only that |
| BroadcastConfig.Config.ApplyDefaults | broadcast/config.go:65-75 | the encoder defaulted and the duration clamped in place, no other field touched; normalised afterwards; a normalised config is left alone |
| BroadcastConfig.LoadConfig | broadcast/config.go:49-78 | a read or unmarshal failure gives nil and the error with no defaults; otherwise the decoded config with every field as decoded except IGTV's minimum duration, which is clamped |
| AppConfig.DefaultedEncoder | config/config.go:51-57 | an empty path becomes "ffmpeg" and a nil argument list the 10 defaults; given values are kept |
| AppConfig.DefaultedEncoderIdempotent | config/config.go:51-57 | defaulting twice is defaulting once; a complete encoder is a fixed point, and only that |
| AppConfig.Config.ApplyDefaults | config/config.go:51-57 | only the encoder changes, to its defaulted form |
| AppConfig.Load | config/config.go:35-60 | a read or unmarshal failure gives nil and the error; otherwise the decoded config with input URL, accounts and bind address untouched |
| BroadcastStream.StatusError | broadcast/stream.go:330-347 | no error iff the call succeeded with status "ok"; the call's own error is passed on; a non-ok status gives "<message>: <status>" |
| BroadcastStream.PersistOutcome | broadcast/stream.go:303-317 | no error iff the export and the save succeeded; errors are wrapped with the stream's context |
| BroadcastStream.CreateOutcome | broadcast/stream.go:319-355 | success iff create, start and unmute all succeed with "ok"; the create failure text carries the status, the start and unmute texts name the created broadcast's ID and the status; a LoginRequired error can only be one of the calls' own errors |
| BroadcastStream.CreateFailureAction | broadcast/stream.go:140-150 | a LoginRequired create error asks for a new login without cooldown; any other error cools down |
| BroadcastStream.LiveNeedsRelogin | broadcast/stream.go:191-201 | a new login is asked for exactly when the live phase's error is LoginRequired; nil, stopped and other errors end and post |
| BroadcastStream.WatermarkIsMax | broadcast/stream.go:410-421 | the watermark is at least the input and every CreatedAt, and equals the input or one of them |
| BroadcastStream.WatermarkOrderIndependent | broadcast/stream.go:412-420 | batches that are permutations of each other give the same watermark |
| BroadcastStream.MiddleIndex | broadcast/stream.go:467-468 | the picked index is inside the list and at its middle, rounding up |
| BroadcastStream.Stream.constructor | broadcast/stream.go:59-76 | a new stream has no client, zero broadcast fields, requires a login and is not streaming |
| BroadcastStream.Stream.Start | broadcast/stream.go:78-89 | always streaming afterwards and no error, with no check for an already started stream |
| BroadcastStream.Stream.Stop | broadcast/stream.go:91-102 | a streaming stream stops and returns the loop's done value; a stopped one returns nil and is unchanged |
| BroadcastStream.Stream.PersistToken | broadcast/stream.go:303-317 | the account's token becomes the exported session before the save; the stored token decodes to the session |
| BroadcastStream.Stream.Login | broadcast/stream.go:227-273 | the token first, succeeding iff the saved session decodes and the sync succeeds, leaving an Imported client; a password login only if that fails; after a successful password login the accounts are Persisted with the new client's exported session, and that failure is the login's; the error is LoginOutcome's |
| BroadcastStream.Persisted | broadcast/stream.go:303-317 | the same account names; a successful export becomes this account's token, a failed one leaves the accounts as they were; every other account is untouched |
| BroadcastStream.LoginOutcome | broadcast/stream.go:227-273 | no error when the saved session decodes and syncs; otherwise the password login's error, else the persisting outcome; a challenge can only come from the password login |
| BroadcastStream.SendCodeError | broadcast/stream.go:275-293 | the wrapped process error first, then the timeout text when no code arrives, then the wrapped send error; a panic passes through unwrapped; none iff all three succeed |
| BroadcastStream.AnswerError | broadcast/stream.go:275-299 | a nil client or an empty API path panics before any request; otherwise SendCodeError's; then a challenge without a logged-in user panics; none otherwise |
| BroadcastStream.ChallengeEnd | broadcast/stream.go:124-128 | no error gives no end; a panic crashes the cycle; any other error ends it as a failed challenge |
| BroadcastStream.Stream.SendCode | broadcast/stream.go:277-293 | the challenge URL is the API path without its first character; the error is SendCodeError's; on success the challenge state is the security code reply's and the client holds the cookies that reply brought |
| BroadcastStream.Stream.RespondChallenge | broadcast/stream.go:275-301 | process, wait for the code, send it, adopt the logged-in user, persist; each failure stops there with its wrapped error, a panic passing through unwrapped; after a successful answer the account is the logged-in user, the cookies are the answer's and the accounts are Persisted with that session; the error is ChallengeOutcome's |
| BroadcastStream.Stream.CreateBroadcast | broadcast/stream.go:319-355 | the calls made in order, with the created broadcast's ID; the error is CreateOutcome's (its texts naming that ID); broadcastID, uploadURL and startTime are set only when all three succeed, and are untouched otherwise |
| BroadcastStream.Stream.EncoderInvocation | broadcast/stream.go:357-364 | the arguments are "-i" and the input, the configured arguments, then "-f", "flv" and the upload URL |
| BroadcastStream.Stream.HeartbeatAndStatus | broadcast/stream.go:385-402 | a broadcastStoppedError carrying the broadcast ID exactly when the status is "stopped", else no error |
| BroadcastStream.Stream.GetComments | broadcast/stream.go:404-422 | the loop from the last comment to the first computes the watermark; a fetch error keeps it |
| BroadcastStream.Stream.PostToIGTV | broadcast/stream.go:453-500 | refused below the minimum duration; otherwise the middle thumbnail is uploaded and posted with this broadcast's ID; a non-ok post status gives "unable to post broadcast <id> to IGTV: <status>"; no error iff every step succeeds |
| BroadcastStream.Stream.EndBroadcastAndPost | broadcast/stream.go:204-220 | nothing is posted unless the end succeeds; the end and Stories failure texts name the broadcast ID and the status; IGTV only when enabled; Stories whenever the end succeeded, whatever the IGTV result |
| BroadcastStream.Stream.OnLoginError | broadcast/stream.go:118-137 | no error clears loginRequired; a challenge error records its API path and is answered, the cycle ending as ChallengeEnd of ChallengeOutcome; any other error ends the cycle as that login failure, the accounts unchanged |
| BroadcastStream.Stream.LoginPhase | broadcast/stream.go:117-138 | no login when none is required; otherwise the end is decided by LoginOutcome of the saved token and the replies: none continues, a non-challenge error is that login failure, a challenge records its API path and ends as ChallengeEnd of ChallengeOutcome; a failure keeps loginRequired, success clears it |
| BroadcastStream.Stream.BroadcastPhase | broadcast/stream.go:140-201 | a create failure with LoginRequired sets loginRequired without cooldown, any other cools down; after the live phase, a new login or end-and-post |
| BroadcastStream.Stream.LoopCycle | broadcast/stream.go:116-202 | one cycle keeps the stream valid and its streaming flag, and ends in exactly the outcomes listed above with the stated fields; when a login is required its login half is LoginOutcome's: none goes on to the broadcast, a non-challenge error is that login failure, and a challenge ends the cycle iff ChallengeOutcome is an error, as ChallengeEnd of it |
| BroadcastStream.StoppedTextInjective | broadcast/stream.go:49-51 | different broadcast IDs give different "broadcast %d has stopped" messages |
| BroadcastAggregate.CacheKeyInjective | broadcast/broadcast.go:136 | comments with different PKs never share a cache key |
| BroadcastAggregate.AppendRecent | broadcast/broadcast.go:154-157 | the pushed comment is last |
| BroadcastAggregate.AppendRecentBound | broadcast/broadcast.go:154-157 | a list of at most 101 stays at most 101 |
| BroadcastAggregate.AppendRecentReaches101 | broadcast/broadcast.go:154-157 | a list of 100 grows to 101: the length is tested before the push |
| BroadcastAggregate.RecentIsSuffix | broadcast/broadcast.go:154-157 | after any pushes the list holds exactly the last min(n, 101) comments, oldest first |
| BroadcastAggregate.LogNameInjective | broadcast/broadcast.go:178-248 | two different (stream, broadcast ID) pairs never share a log file name of one kind |
| BroadcastAggregate.Broadcast.constructor | broadcast/broadcast.go:42-60 | one fresh, stopped stream per configured account, sharing the configuration; empty relay state |
| BroadcastAggregate.Broadcast.StartStreams | broadcast/broadcast.go:83-107 | only the streaming flags change; refused while streaming, with no stream touched; otherwise every stream started and the aggregate streaming |
| BroadcastAggregate.Broadcast.StopStreams | broadcast/broadcast.go:109-133 | only the streaming flags change; refused while not streaming; otherwise every stream stopped, the first error returned, and the aggregate still streaming iff there was one |
| BroadcastAggregate.Broadcast.Subscribe | broadcast/handler.go:152-154 | the connection joins the subscribers |
| BroadcastAggregate.Broadcast.Unsubscribe | broadcast/handler.go:145-150 | the connection leaves the subscribers |
| BroadcastAggregate.Broadcast.BroadcastComment | broadcast/broadcast.go:135-168 | a comment whose cache entry has not expired is skipped, its only effect the lookup's extension of that entry to a full TTL from now; a log failure returns before marking seen; otherwise marked seen, pushed last, and sent to subscribers until the first failed send |

## Left out

- Concurrency and timing are not modelled:
  - goroutines, `errgroup` and mutexes;
  - `eventLoop`, the encoder restart loop and the heartbeat/comment poller loop;
  - cooldown sleeps and the two-minute challenge timeout.
  
  The live phase is the parameter `liveErr`, the error it ended with. The timeout is a `None`
  security code.
- Process supervision (stream/stream.go, process/process.go) and running the encoder are not
  modelled. Only the command line is.
- The remote API wrappers (instagram/live.go, instagram/instagram.go, instagram/account.go) are
  not part of this model. Their replies are oracle parameters. For the account sync that
  importConfig makes, the response goes through `Receive`, so its cookie and token refresh is
  modelled; the sync's endpoint and its signed query are not.
- HTTP headers and URL form encoding are not modelled. So are JSON, YAML/viper, base64, MD5,
  HMAC-SHA256, `byteToString`, the cookie jar and CSV. These are uninterpreted functions (a
  `Codec`, digest functions) or parameters.
- File I/O is not modelled:
  - the log writers are reduced to the log file names and the write outcome;
  - `SaveConfig` is reduced to its error;
  - locating and reading the config file is reduced to a read error and a decoded value.
- The content of the heartbeat and comment responses beyond the fields read, and the challenge
  step data's untyped `resend_delay`, are not modelled.
- The presentation layer is not modelled (broadcast/handler.go, server.go, middleware.go,
  server/*, main.go). Only its subscriber add and remove are, as `Subscribe` and `Unsubscribe`.
- InstagramChallenge.Challenge.Process requires a non-empty API path, where Go would panic on
  `apiURL[1:]`. The caller `RespondChallenge` models that panic as an outcome.
- BroadcastStream.Stream.OnLoginError treats the error kind `Challenge` as the challenge case.
  As written it never is: `checkError` returns a `ChallengeError` value
  (instagram/request.go:172), while `loopCycle` switches on `*ChallengeError`
  (broadcast/stream.go:120), and Go type identity is not modelled. So in the code as written
  `loopCycle` never calls `respondChallenge`, never records the API path, and every login that
  fails with a challenge takes the default branch and cools down as a plain login failure. The
  model describes the evidently intended dispatch.
- InstagramRequest.CheckError: the embedded challenge error's `status` is a free oracle value.
  In Go the outer `HTTPError4xx.Status` field shadows the embedded `ChallengeError.Status` when
  the body is unmarshalled, so the embedded status is always empty and the challenge error's text
  starts with ": ".
- BroadcastStream.Stream.PostToIGTV does not model the `int64` overflow of
  `time.Duration(MinDuration) * time.Minute` for huge minimum durations.
- Text.FormatInt and the rest of the model use unbounded integers for Go's `int` and `int64`.
- BroadcastStream.Stream.EndBroadcastAndPost reports a panic inside `postToIGTV` (an empty
  thumbnail list) as the end of that sequence. In Go an unrecovered panic ends the whole
  program.
- BroadcastAggregate.Broadcast.BroadcastComment: `ttlcache.Set` never fails here, so its error
  path (broadcast/broadcast.go:150-152) is absent. The cache is a map from key to expiry
  instant, with an explicit `now`. The ttlcache library is not part of this model. The model
  follows its v2 behaviour: an entry expires once its expiry instant lies strictly before now,
  and a hit on `Get` extends the entry's TTL. Expired entries are never purged from the map.
- BroadcastAggregate.Broadcast.StartStreams: `Stream.Start` never fails, so the error path of
  `StartStreams` (broadcast/broadcast.go:100-103) is unreachable. The model proves every stream
  started and no error.

### Where this model follows the code rather than the design description

- `Stream.Start` has no already-started guard. A second call just sets `streaming` again.
- `endBroadcastAndPost` attempts Stories whenever the end succeeded, after IGTV when that is
  enabled. The two are not mutually exclusive, and there is no audience-snapshot step.
- Comment fan-out stops at the first failed send and returns its error. It is not isolated per
  subscriber.
- The recent-comments history evicts only when it already holds more than 100. It therefore
  reaches 101 entries (`AppendRecentReaches101`).
- `getComments` only advances the watermark. It does not forward comments to the relay.
- `StopStreams` does join all streams, as described, and returns the first error.
- The snapshot mixes revisions, and each function is modelled as written:
  - `NewBroadcast` passes three arguments to the two-argument `NewStream`. The model uses the
    two that exist.
  - `AddToPostLive` (Stories) and `LoginRequiredError` are not defined in the files of this
    model. They are an oracle reply and the error kind `LoginRequired`.
  - `Config.Logging`, used by broadcast/broadcast.go, is not declared in broadcast/config.go.
    It is the flag `loggingEnabled`.
- `respondChallenge` dereferences `s.instagram`, which is still nil when the first login's
  password attempt failed with a challenge. The model returns `Panic` in that case, and also
  for an empty API path and a nil logged-in user.
