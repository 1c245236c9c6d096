/** getConfig (src/index.js): fetch the configuration file from the
    repository, reject a missing, empty or falsy one, and hand back whatever
    the YAML loader produced. The content API and the base64/YAML decoding
    are parameters: `fetch` answers the content request for a path, `load`
    is `yaml.load(Buffer.from(content, 'base64').toString())`. */
module ConfigLoader {
  import opened Wrappers
  import opened JsValues

  /** A rejected content request: its HTTP `status` property and its message. */
  datatype FetchError = FetchError(status: JsValue, message: string)

  /** The answer to the content request: the `data.content` field (None when
      it is absent or null), or the error the client threw. */
  datatype FetchResult = Fetched(content: Option<string>) | FetchFailed(err: FetchError)

  /** What decoding and loading the content gives: a value, or the exception
      the YAML loader threw. */
  datatype LoadResult = Loaded(value: JsValue) | LoadThrew(message: string)

  /** The ways getConfig fails. The first four are raised by getConfig itself
      with a fixed message; the last two are other code's errors let through. */
  datatype ConfigError =
    | NoConfigFile
    | MissingConfig(path: string)
    | EmptyConfig(path: string)
    | InvalidConfig(path: string)
    | FetchRethrown(err: FetchError)
    | LoadRethrown(message: string)
  {
    /** Raised by getConfig with one of its own messages. */
    predicate Raised() {
      NoConfigFile? || MissingConfig? || EmptyConfig? || InvalidConfig?
    }
  }

  /** The `err.status === 404` test: strict equality with the number 404. */
  predicate IsNotFound(err: FetchError) {
    err.status == Number(404.0)
  }

  /** The fetched content is missing or falsy (the empty string). */
  predicate EmptyContent(content: Option<string>) {
    content == None || content == Some("")
  }

  /** The configuration for input `configFile`, or the error that ends the run. */
  function GetConfig(configFile: string, fetch: string -> FetchResult, load: string -> LoadResult)
    : (r: Result<JsValue, ConfigError>)
    // No path: fail before any request is made, whatever `fetch` would answer.
    ensures configFile == "" <==> r == Err(NoConfigFile)
    // A 404 is reported as a missing file naming the path.
    ensures r == Err(MissingConfig(configFile)) <==>
              configFile != "" && fetch(configFile).FetchFailed? && IsNotFound(fetch(configFile).err)
    // Any other rejection of the request is rethrown unchanged.
    ensures r.Err? && r.error.FetchRethrown? <==>
              configFile != "" && fetch(configFile).FetchFailed? && !IsNotFound(fetch(configFile).err)
    ensures r.Err? && r.error.FetchRethrown? ==> r.error.err == fetch(configFile).err
    // Missing or empty content is its own error, distinct from an invalid one.
    ensures r == Err(EmptyConfig(configFile)) <==>
              configFile != "" && fetch(configFile).Fetched? && EmptyContent(fetch(configFile).content)
    // From here on the content is a non-empty string and it is loaded.
    ensures r.Err? && r.error.LoadRethrown? <==>
              configFile != "" && fetch(configFile).Fetched? && !EmptyContent(fetch(configFile).content)
              && load(fetch(configFile).content.value).LoadThrew?
    ensures r.Err? && r.error.LoadRethrown? ==>
              r.error.message == load(fetch(configFile).content.value).message
    ensures r == Err(InvalidConfig(configFile)) <==>
              configFile != "" && fetch(configFile).Fetched? && !EmptyContent(fetch(configFile).content)
              && load(fetch(configFile).content.value).Loaded?
              && !Truthy(load(fetch(configFile).content.value).value)
    // Success: the loaded value, as it is, and it is truthy.
    ensures r.Ok? <==>
              configFile != "" && fetch(configFile).Fetched? && !EmptyContent(fetch(configFile).content)
              && load(fetch(configFile).content.value).Loaded?
              && Truthy(load(fetch(configFile).content.value).value)
    ensures r.Ok? ==> r.value == load(fetch(configFile).content.value).value && Truthy(r.value)
    // Every error getConfig raises itself names the configured path (or there is none).
    ensures r.Err? && r.error.Raised() && r.error != NoConfigFile ==> r.error.path == configFile
  {
    if configFile == "" then
      Err(NoConfigFile)
    else
      match fetch(configFile)
      case FetchFailed(err) =>
        if IsNotFound(err) then Err(MissingConfig(configFile)) else Err(FetchRethrown(err))
      case Fetched(content) =>
        if EmptyContent(content) then
          Err(EmptyConfig(configFile))
        else
          match load(content.value)
          case LoadThrew(message) => Err(LoadRethrown(message))
          case Loaded(config) =>
            if !Truthy(config) then Err(InvalidConfig(configFile)) else Ok(config)
  }

  /** getConfig reads the repository at the configured path only: two content
      APIs that agree there give the same outcome, and so do two loaders that
      agree on the content found there. */
  lemma GetConfigReadsOnlyConfigFile(configFile: string, fetch1: string -> FetchResult, fetch2: string -> FetchResult,
                                     load1: string -> LoadResult, load2: string -> LoadResult)
    requires fetch1(configFile) == fetch2(configFile)
    requires fetch1(configFile).Fetched? && fetch1(configFile).content.Some? ==>
               load1(fetch1(configFile).content.value) == load2(fetch1(configFile).content.value)
    ensures GetConfig(configFile, fetch1, load1) == GetConfig(configFile, fetch2, load2)
  {
  }

  // ---------------------------------------------------------------------------
  // Error messages

  const NoConfigFileMessage: string := "No configuration file specified"
  const MissingPrefix: string := "Missing configuration file ("
  const EmptyPrefix: string := "Empty configuration file ("
  const InvalidPrefix: string := "Invalid configuration file ("

  /** `error.message` of the error getConfig throws. */
  function Message(e: ConfigError): string {
    match e
    case NoConfigFile => NoConfigFileMessage
    case MissingConfig(path) => MissingPrefix + path + ")"
    case EmptyConfig(path) => EmptyPrefix + path + ")"
    case InvalidConfig(path) => InvalidPrefix + path + ")"
    case FetchRethrown(err) => err.message
    case LoadRethrown(message) => message
  }

  /** `m` is `prefix`, then a path, then a closing parenthesis. */
  predicate Framed(m: string, prefix: string) {
    |m| > |prefix| && m[..|prefix|] == prefix && m[|m| - 1] == ')'
  }

  /** The path between the prefix and the closing parenthesis of a framed message. */
  function Framing(m: string, prefix: string): string
    requires Framed(m, prefix)
  {
    m[|prefix|..|m| - 1]
  }

  /** Reads back which of getConfig's own errors a failure message reports, and
      for which path: the inverse of `Message` on the errors getConfig raises. */
  function Classify(m: string): (r: Option<ConfigError>)
    ensures r.Some? ==> r.value.Raised()
  {
    if m == NoConfigFileMessage then Some(NoConfigFile)
    else if Framed(m, MissingPrefix) then Some(MissingConfig(Framing(m, MissingPrefix)))
    else if Framed(m, EmptyPrefix) then Some(EmptyConfig(Framing(m, EmptyPrefix)))
    else if Framed(m, InvalidPrefix) then Some(InvalidConfig(Framing(m, InvalidPrefix)))
    else None
  }

  /** A message framed by `prefix` around `path` starts with the prefix's
      first letter, and its framing gives back `path`. */
  lemma FramedAround(prefix: string, path: string)
    requires |prefix| > 0
    ensures Framed(prefix + path + ")", prefix)
    ensures Framing(prefix + path + ")", prefix) == path
    ensures (prefix + path + ")")[0] == prefix[0]
  {
  }

  /** Every error getConfig raises itself can be read back from its message:
      the message names the kind of failure and the configured path, so an
      empty file is never reported as an invalid one, nor a missing file as
      either. */
  lemma {:induction false} ClassifyMessage(e: ConfigError)
    requires e.Raised()
    ensures Classify(Message(e)) == Some(e)
  {
    match e
    case NoConfigFile =>
    case MissingConfig(path) =>
      FramedAround(MissingPrefix, path);
    case EmptyConfig(path) =>
      FramedAround(EmptyPrefix, path);
    case InvalidConfig(path) =>
      FramedAround(InvalidPrefix, path);
  }

  /** The messages of the errors getConfig raises itself are pairwise distinct. */
  lemma MessageInjective(e1: ConfigError, e2: ConfigError)
    requires e1.Raised() && e2.Raised()
    ensures Message(e1) == Message(e2) <==> e1 == e2
  {
    ClassifyMessage(e1);
    ClassifyMessage(e2);
  }
}
