/** The daemon's settings (broadcast/config.go): the decoded configuration and the defaults
  * LoadConfig fills in after decoding. Locating, reading and decoding the YAML file are I/O
  * whose outcomes are parameters. */
module BroadcastConfig {
  import opened Errors

  const DefaultCommand := "ffmpeg"
  const DefaultArgs: seq<string> := [
    "-analyzeduration", "20M",
    "-probesize", "20M",
    "-c", "copy",
    "-bufsize", "4096k",
    "-max_muxing_queue_size", "1024",
    "-loglevel", "error"]
  /** The least IGTV minimum duration, in minutes. */
  const MinIGTVDuration := 2

  /** The encoder command and its arguments; `None` is a nil argument list (the key is absent),
    * `Some([])` an explicitly empty one. */
  datatype Encoder = Encoder(command: string, args: Option<seq<string>>)
  datatype IGTV = IGTV(enabled: bool, minDuration: int, shareToFeed: bool, description: string)
  datatype Account = Account(password: string, token: string)

  /** The encoder after defaulting: a command and an argument list are always present, and
    * whatever the file gave is kept. */
  function DefaultedEncoder(e: Encoder): (r: Encoder)
    ensures r.command != "" && r.args.Some?
    ensures e.command != "" ==> r.command == e.command
    ensures e.command == "" ==> r.command == DefaultCommand
    ensures e.args.Some? ==> r.args == e.args
    ensures e.args.None? ==> r.args == Some(DefaultArgs) && |DefaultArgs| == 12
  {
    Encoder(if e.command == "" then DefaultCommand else e.command,
            if e.args.None? then Some(DefaultArgs) else e.args)
  }

  /** The IGTV minimum duration after clamping: never below 2, otherwise as given. */
  function ClampedMinDuration(d: int): (r: int)
    ensures r >= MinIGTVDuration
    ensures d >= MinIGTVDuration ==> r == d
    ensures d < MinIGTVDuration ==> r == MinIGTVDuration
  {
    if d < MinIGTVDuration then MinIGTVDuration else d
  }

  /** Defaulting is idempotent, and leaves an already complete encoder alone. */
  lemma DefaultedEncoderIdempotent(e: Encoder)
    ensures DefaultedEncoder(DefaultedEncoder(e)) == DefaultedEncoder(e)
    ensures e.command != "" && e.args.Some? <==> DefaultedEncoder(e) == e
  {
  }

  /** Clamping is idempotent. */
  lemma ClampedMinDurationIdempotent(d: int)
    ensures ClampedMinDuration(ClampedMinDuration(d)) == ClampedMinDuration(d)
    ensures d >= MinIGTVDuration <==> ClampedMinDuration(d) == d
  {
  }

  /** broadcast.Config. Accounts are keyed by stream name. */
  class Config {
    var inputURL: string
    var accounts: map<string, Account>
    var bindIP: string
    var bindPort: int
    var encoder: Encoder
    var title: string
    var igtv: IGTV
    var notify: bool

    /** A configuration as decoded from the file. */
    constructor (inputURL: string, accounts: map<string, Account>, bindIP: string, bindPort: int,
                 encoder: Encoder, title: string, igtv: IGTV, notify: bool)
      ensures this.inputURL == inputURL && this.accounts == accounts && this.bindIP == bindIP
      ensures this.bindPort == bindPort && this.encoder == encoder && this.title == title
      ensures this.igtv == igtv && this.notify == notify
    {
      this.inputURL := inputURL;
      this.accounts := accounts;
      this.bindIP := bindIP;
      this.bindPort := bindPort;
      this.encoder := encoder;
      this.title := title;
      this.igtv := igtv;
      this.notify := notify;
    }

    /** What the rest of the daemon may rely on after loading. */
    ghost predicate Normalised()
      reads this
    {
      encoder.command != "" && encoder.args.Some? && igtv.minDuration >= MinIGTVDuration
    }

    /** The default block of LoadConfig, field by field in place. */
    method ApplyDefaults()
      modifies this
      ensures encoder == DefaultedEncoder(old(encoder))
      ensures igtv == old(igtv).(minDuration := ClampedMinDuration(old(igtv.minDuration)))
      ensures inputURL == old(inputURL) && accounts == old(accounts) && bindIP == old(bindIP)
      ensures bindPort == old(bindPort) && title == old(title) && notify == old(notify)
      ensures Normalised()
      ensures old(Normalised()) ==> encoder == old(encoder) && igtv == old(igtv)
    {
      if encoder.command == "" {
        encoder := encoder.(command := DefaultCommand);
      }
      if encoder.args.None? {
        encoder := encoder.(args := Some(DefaultArgs));
      }
      if igtv.minDuration < MinIGTVDuration {
        igtv := igtv.(minDuration := MinIGTVDuration);
      }
    }
  }

  /** LoadConfig: a read failure or a decoding failure is returned with no configuration and
    * no defaults applied; otherwise the decoded configuration is normalised in place. */
  method LoadConfig(readErr: Option<Error>, decoded: Result<Config>) returns (config: Config?, err: Option<Error>)
    modifies if readErr.None? && decoded.Ok? then {decoded.value} else {}
    ensures readErr.Some? ==> config == null && err == readErr
    ensures readErr.None? && decoded.Err? ==> config == null && err == Some(decoded.error)
    ensures readErr.None? && decoded.Ok? ==>
      config == decoded.value && err == None && config.Normalised() &&
      config.encoder == DefaultedEncoder(old(decoded.value.encoder)) &&
      config.igtv == old(decoded.value.igtv).(minDuration := ClampedMinDuration(old(decoded.value.igtv.minDuration))) &&
      config.accounts == old(decoded.value.accounts) && config.inputURL == old(decoded.value.inputURL) &&
      config.bindIP == old(decoded.value.bindIP) && config.bindPort == old(decoded.value.bindPort) &&
      config.title == old(decoded.value.title) && config.notify == old(decoded.value.notify)
  {
    if readErr.Some? {
      return null, readErr;
    }
    if decoded.Err? {
      return null, Some(decoded.error);
    }
    config := decoded.value;
    config.ApplyDefaults();
    err := None;
  }
}
