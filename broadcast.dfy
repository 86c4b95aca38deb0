/** The broadcast aggregate (broadcast/broadcast.go): one Stream per configured account, the
  * global streaming flag, the set of websocket subscribers, the cache of seen comments and the
  * bounded list of recent comments. Sends to subscribers and log writes are parameters; the
  * cache's expiry uses an explicit clock in integer nanoseconds. */
module BroadcastAggregate {
  import opened Errors
  import Text
  import BC = BroadcastConfig
  import opened BroadcastStream

  const Second := 1_000_000_000
  /** How long a seen comment stays in the cache. */
  const CacheTTL := 60 * Second
  const MaxRecentComments := 100

  /** A websocket connection, by identity. */
  type Conn = nat

  /** The cache key of a comment: its PK in base 10. */
  function CacheKey(c: Comment): string {
    Text.FormatInt(c.pk)
  }

  /** Comments with different PKs never share a cache key. */
  lemma CacheKeyInjective(a: Comment, b: Comment)
    requires CacheKey(a) == CacheKey(b)
    ensures a.pk == b.pk
  {
    Text.FormatIntInjective(a.pk, b.pk);
  }

  /** A key is in the cache at `now` while its entry has not expired: an entry expires only
    * once its expiry instant lies strictly before `now`. */
  predicate Seen(cache: map<string, int>, key: string, now: int) {
    key in cache && now <= cache[key]
  }

  /** One push onto the recent-comments list: the front is dropped when the list already holds
    * more than 100 comments, then the comment goes to the back. */
  function AppendRecent(h: seq<Comment>, c: Comment): (r: seq<Comment>)
    ensures |r| >= 1 && r[|r| - 1] == c
  {
    (if |h| > MaxRecentComments then h[1..] else h) + [c]
  }

  /** The list never grows beyond 101 comments... */
  lemma AppendRecentBound(h: seq<Comment>, c: Comment)
    requires |h| <= MaxRecentComments + 1
    ensures |AppendRecent(h, c)| <= MaxRecentComments + 1
  {
  }

  /** ...and it does reach 101: the length is tested before the push. */
  lemma AppendRecentReaches101(h: seq<Comment>, c: Comment)
    requires |h| == MaxRecentComments
    ensures |AppendRecent(h, c)| == MaxRecentComments + 1
  {
  }

  /** The recent-comments list after pushing `cs` in order onto an empty list. */
  function Recent(cs: seq<Comment>): seq<Comment> {
    if cs == [] then [] else AppendRecent(Recent(cs[..|cs| - 1]), cs[|cs| - 1])
  }

  /** The list holds exactly the last min(n, 101) comments pushed, oldest first. */
  lemma {:induction false} RecentIsSuffix(cs: seq<Comment>)
    ensures |cs| <= MaxRecentComments + 1 ==> Recent(cs) == cs
    ensures |cs| > MaxRecentComments + 1 ==> Recent(cs) == cs[|cs| - (MaxRecentComments + 1)..]
  {
    if cs != [] {
      var init := cs[..|cs| - 1];
      RecentIsSuffix(init);
      if |init| > MaxRecentComments + 1 {
        assert Recent(init)[1..] + [cs[|cs| - 1]] == cs[|cs| - (MaxRecentComments + 1)..];
      } else if |init| == MaxRecentComments + 1 {
        assert Recent(init)[1..] + [cs[|cs| - 1]] == cs[|cs| - (MaxRecentComments + 1)..];
      } else {
        assert init + [cs[|cs| - 1]] == cs;
      }
    }
  }

  /** The log file names: kind, stream name and broadcast ID. */
  function LogName(kind: string, username: string, broadcastID: int, ext: string): string {
    kind + "_" + username + "_" + Text.FormatInt(broadcastID) + ext
  }

  function ViewerLogName(username: string, broadcastID: int): string {
    LogName("viewers", username, broadcastID, ".log")
  }

  function CommentLogName(username: string, broadcastID: int): string {
    LogName("comments", username, broadcastID, ".log")
  }

  function FinalViewerListName(username: string, broadcastID: int): string {
    LogName("final_viewers", username, broadcastID, ".json")
  }

  /** Two streams, or two broadcasts of one stream, never share a log file of a kind. */
  lemma LogNameInjective(kind: string, ext: string, u1: string, id1: int, u2: string, id2: int)
    requires LogName(kind, u1, id1, ext) == LogName(kind, u2, id2, ext)
    ensures u1 == u2 && id1 == id2
  {
    var f1 := Text.FormatInt(id1);
    var f2 := Text.FormatInt(id2);
    var n1 := LogName(kind, u1, id1, ext);
    var n2 := LogName(kind, u2, id2, ext);
    var core1 := (kind + "_" + u1) + ['_'] + f1;
    var core2 := (kind + "_" + u2) + ['_'] + f2;
    assert core1 == n1[..|n1| - |ext|];
    assert core2 == n2[..|n2| - |ext|];
    Text.FormatIntAlphabet(id1, '_');
    Text.FormatIntAlphabet(id2, '_');
    Text.SplitAtLastUnique(kind + "_" + u1, f1, kind + "_" + u2, f2, '_');
    assert u1 == (kind + "_" + u1)[|kind| + 1..];
    assert u2 == (kind + "_" + u2)[|kind| + 1..];
    Text.FormatIntInjective(id1, id2);
  }

  /** broadcast.Broadcast. `loggingEnabled` stands for the logging switch of the configuration. */
  class Broadcast {
    var streaming: bool
    const config: BC.Config
    const loggingEnabled: bool
    var streams: map<string, Stream>
    var connections: set<Conn>
    var cache: map<string, int>
    var recentComments: seq<Comment>

    /** Every stream is the one for its own account and shares the configuration. */
    ghost predicate Valid()
      reads this
    {
      forall n :: n in streams ==> streams[n].name == n && streams[n].config == config
    }

    ghost function StreamObjects(): set<Stream>
      reads this
    {
      set n | n in streams :: streams[n]
    }

    /** NewBroadcast: a fresh, stopped Stream for every configured account. */
    constructor (config: BC.Config, loggingEnabled: bool)
      ensures this.config == config && this.loggingEnabled == loggingEnabled
      ensures streams.Keys == config.accounts.Keys && Valid()
      ensures forall n :: n in streams ==> fresh(streams[n]) && !streams[n].streaming && streams[n].loginRequired
      ensures !streaming && connections == {} && cache == map[] && recentComments == []
    {
      var m: map<string, Stream> := map[];
      var names := config.accounts.Keys;
      while names != {}
        invariant names <= config.accounts.Keys
        invariant m.Keys == config.accounts.Keys - names
        invariant forall n :: n in m ==> m[n].name == n && m[n].config == config
        invariant forall n :: n in m ==> fresh(m[n]) && !m[n].streaming && m[n].loginRequired
        decreases names
      {
        var n :| n in names;
        var s := new Stream(n, config);
        m := m[n := s];
        names := names - {n};
      }
      this.config := config;
      this.loggingEnabled := loggingEnabled;
      streams := m;
      streaming := false;
      connections := {};
      cache := map[];
      recentComments := [];
    }

    /** StartStreams: refused while streaming; otherwise every stream is started and the
      * aggregate streams once all of them reported success. */
    method StartStreams() returns (err: Option<Error>)
      requires Valid()
      modifies this`streaming, StreamObjects()`streaming
      ensures old(streaming) ==>
        err == Some(Failure("broadcast: streams are already started")) && streaming &&
        forall n :: n in streams ==> streams[n].streaming == old(streams[n].streaming)
      ensures !old(streaming) ==>
        err == None && streaming && forall n :: n in streams ==> streams[n].streaming
    {
      if streaming {
        return Some(Failure("broadcast: streams are already started"));
      }
      var first: Option<Error> := None;
      var pending := streams.Keys;
      while pending != {}
        invariant pending <= streams.Keys
        invariant forall n :: n in streams && n !in pending ==> streams[n].streaming
        invariant first == None
        decreases pending
      {
        var n :| n in pending;
        var e := streams[n].Start();
        if first.None? {
          first := e;
        }
        pending := pending - {n};
      }
      err := first;
      streaming := first.None?;
    }

    /** StopStreams: refused while not streaming; otherwise every stream is stopped, the first
      * error any of them reports is returned, and the aggregate keeps streaming if there was one.
      * `done(n)` is what stream n's event loop reports when it exits. */
    method StopStreams(done: string -> Option<Error>) returns (err: Option<Error>)
      requires Valid()
      modifies this`streaming, StreamObjects()`streaming
      ensures !old(streaming) ==>
        err == Some(Failure("broadcast: streams are not started")) && !streaming &&
        forall n :: n in streams ==> streams[n].streaming == old(streams[n].streaming)
      ensures old(streaming) ==> forall n :: n in streams ==> !streams[n].streaming
      ensures old(streaming) ==>
        (err.None? <==> forall n :: n in streams && old(streams[n].streaming) ==> done(n).None?)
      ensures old(streaming) && err.Some? ==>
        exists n :: n in streams && old(streams[n].streaming) && done(n) == err
      ensures old(streaming) ==> (streaming <==> err.Some?)
    {
      if !streaming {
        return Some(Failure("broadcast: streams are not started"));
      }
      err := None;
      var pending := streams.Keys;
      while pending != {}
        invariant pending <= streams.Keys
        invariant forall n :: n in streams && n in pending ==> streams[n].streaming == old(streams[n].streaming)
        invariant forall n :: n in streams && n !in pending ==> !streams[n].streaming
        invariant err.None? <==>
          forall n :: n in streams && n !in pending && old(streams[n].streaming) ==> done(n).None?
        invariant err.Some? ==>
          exists n :: n in streams && n !in pending && old(streams[n].streaming) && done(n) == err
        decreases pending
      {
        var n :| n in pending;
        var e := streams[n].Stop(done(n));
        if err.None? {
          err := e;
        }
        pending := pending - {n};
      }
      streaming := err.Some?;
    }

    /** Adds a websocket subscriber (broadcast/handler.go registers each connection). */
    method Subscribe(c: Conn)
      modifies this`connections
      ensures connections == old(connections) + {c}
    {
      connections := connections + {c};
    }

    /** Removes a websocket subscriber when its connection closes. */
    method Unsubscribe(c: Conn)
      modifies this`connections
      ensures connections == old(connections) - {c}
    {
      connections := connections - {c};
    }

    /** broadcastComment: a comment seen within the cache TTL is skipped, its only effect being
      * that the lookup pushes the entry's expiry to a full TTL from now; otherwise it is logged (when logging is on; a log failure stops here), marked as seen,
      * pushed onto the recent comments, and sent to the subscribers one after the other until
      * a send fails. `logErr` is the outcome of appending to the stream's comment log, `send(c)`
      * that of sending to connection c. */
    method BroadcastComment(streamName: string, broadcastID: int, comment: Comment, now: int,
                            logErr: Option<Error>, send: Conn -> Option<Error>)
      returns (err: Option<Error>, logFile: Option<string>, sentTo: seq<Conn>)
      modifies this`cache, this`recentComments
      ensures Seen(old(cache), CacheKey(comment), now) ==>
        err == None && logFile == None && sentTo == [] &&
        cache == old(cache)[CacheKey(comment) := now + CacheTTL] && recentComments == old(recentComments)
      ensures !Seen(old(cache), CacheKey(comment), now) ==>
        logFile == (if loggingEnabled then Some(CommentLogName(streamName, broadcastID)) else None)
      ensures !Seen(old(cache), CacheKey(comment), now) && loggingEnabled && logErr.Some? ==>
        err == logErr && sentTo == [] && cache == old(cache) && recentComments == old(recentComments)
      ensures !Seen(old(cache), CacheKey(comment), now) && !(loggingEnabled && logErr.Some?) ==>
        cache == old(cache)[CacheKey(comment) := now + CacheTTL] &&
        recentComments == AppendRecent(old(recentComments), comment) &&
        (forall i, j :: 0 <= i < j < |sentTo| ==> sentTo[i] != sentTo[j]) &&
        (forall i :: 0 <= i < |sentTo| ==> sentTo[i] in connections) &&
        (forall i :: 0 <= i < |sentTo| - 1 ==> send(sentTo[i]).None?) &&
        (err.None? ==> forall c :: c in connections ==> c in sentTo && send(c).None?) &&
        (err.Some? ==> |sentTo| > 0 && err == send(sentTo[|sentTo| - 1]))
      ensures Seen(cache, CacheKey(comment), now) <==>
        Seen(old(cache), CacheKey(comment), now) || !(loggingEnabled && logErr.Some?)
    {
      var key := CacheKey(comment);
      sentTo := [];
      logFile := None;
      if key in cache && now <= cache[key] {
        cache := cache[key := now + CacheTTL];
        return None, logFile, sentTo;
      }
      if loggingEnabled {
        logFile := Some(CommentLogName(streamName, broadcastID));
        if logErr.Some? {
          return logErr, logFile, sentTo;
        }
      }
      cache := cache[key := now + CacheTTL];
      if |recentComments| > MaxRecentComments {
        recentComments := recentComments[1..];
      }
      recentComments := recentComments + [comment];
      var pending := connections;
      while pending != {}
        invariant pending <= connections
        invariant forall i, j :: 0 <= i < j < |sentTo| ==> sentTo[i] != sentTo[j]
        invariant forall i :: 0 <= i < |sentTo| ==> sentTo[i] in connections && sentTo[i] !in pending
        invariant forall i :: 0 <= i < |sentTo| ==> send(sentTo[i]).None?
        invariant forall c :: c in connections && c !in pending ==> c in sentTo
        decreases pending
      {
        var c :| c in pending;
        sentTo := sentTo + [c];
        var e := send(c);
        if e.Some? {
          return e, logFile, sentTo;
        }
        pending := pending - {c};
      }
      err := None;
    }
  }
}
