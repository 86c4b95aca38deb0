/** The settings of the single-account front end (config/config.go): the decoded configuration
  * and the encoder defaults Load fills in. Reading and decoding the file are I/O whose
  * outcomes are parameters. */
module AppConfig {
  import opened Errors

  const DefaultPath := "ffmpeg"
  const DefaultArgs: seq<string> := [
    "-analyzeduration", "20M",
    "-probesize", "20M",
    "-c", "copy",
    "-bufsize", "4096k",
    "-max_muxing_queue_size", "1024"]

  /** The encoder path and its arguments; `None` is a nil (absent) argument list. */
  datatype Encoder = Encoder(path: string, args: Option<seq<string>>)
  datatype Account = Account(token: string)

  /** The encoder after defaulting: a path and an argument list are always present, and
    * whatever the file gave is kept. */
  function DefaultedEncoder(e: Encoder): (r: Encoder)
    ensures r.path != "" && r.args.Some?
    ensures e.path != "" ==> r.path == e.path
    ensures e.path == "" ==> r.path == DefaultPath
    ensures e.args.Some? ==> r.args == e.args
    ensures e.args.None? ==> r.args == Some(DefaultArgs) && |DefaultArgs| == 10
  {
    Encoder(if e.path == "" then DefaultPath else e.path,
            if e.args.None? then Some(DefaultArgs) else e.args)
  }

  /** Defaulting is idempotent, and leaves an already complete encoder alone. */
  lemma DefaultedEncoderIdempotent(e: Encoder)
    ensures DefaultedEncoder(DefaultedEncoder(e)) == DefaultedEncoder(e)
    ensures e.path != "" && e.args.Some? <==> DefaultedEncoder(e) == e
  {
  }

  /** config.Config. */
  class Config {
    var inputURL: string
    var accounts: map<string, Account>
    var bindIP: string
    var bindPort: int
    var encoder: Encoder

    /** A configuration as decoded from the file. */
    constructor (inputURL: string, accounts: map<string, Account>, bindIP: string, bindPort: int,
                 encoder: Encoder)
      ensures this.inputURL == inputURL && this.accounts == accounts && this.bindIP == bindIP
      ensures this.bindPort == bindPort && this.encoder == encoder
    {
      this.inputURL := inputURL;
      this.accounts := accounts;
      this.bindIP := bindIP;
      this.bindPort := bindPort;
      this.encoder := encoder;
    }

    /** The default block of Load, in place. */
    method ApplyDefaults()
      modifies this
      ensures encoder == DefaultedEncoder(old(encoder))
      ensures encoder.path != "" && encoder.args.Some?
      ensures inputURL == old(inputURL) && accounts == old(accounts)
      ensures bindIP == old(bindIP) && bindPort == old(bindPort)
      ensures old(encoder.path) != "" && old(encoder.args).Some? ==> encoder == old(encoder)
    {
      if encoder.path == "" {
        encoder := encoder.(path := DefaultPath);
      }
      if encoder.args.None? {
        encoder := encoder.(args := Some(DefaultArgs));
      }
    }
  }

  /** Load: a read or decoding failure is returned with no configuration; otherwise the
    * decoded configuration gets its encoder defaults in place. */
  method Load(readErr: Option<Error>, decoded: Result<Config>) returns (config: Config?, err: Option<Error>)
    modifies if readErr.None? && decoded.Ok? then {decoded.value} else {}
    ensures readErr.Some? ==> config == null && err == readErr
    ensures readErr.None? && decoded.Err? ==> config == null && err == Some(decoded.error)
    ensures readErr.None? && decoded.Ok? ==>
      config == decoded.value && err == None &&
      config.encoder == DefaultedEncoder(old(decoded.value.encoder)) &&
      config.inputURL == old(decoded.value.inputURL) && config.accounts == old(decoded.value.accounts) &&
      config.bindIP == old(decoded.value.bindIP) && config.bindPort == old(decoded.value.bindPort)
  {
    if readErr.Some? {
      return null, readErr;
    }
    if decoded.Err? {
      return null, Some(decoded.error);
    }
    config := decoded.value;
    config.ApplyDefaults();
    err := None;
  }
}
