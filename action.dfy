/** main (src/index.js): load the configuration, build the App, run it, and
    turn any error into the run's failure message. Reading the inputs,
    creating the API client and the API itself are parameters. */
module Action {
  import opened Wrappers
  import opened JsValues
  import opened ConfigLoader
  import opened Dispatcher

  /** What one run of the action leaves behind: the write it attempted (at
      most one) and the message passed to `core.setFailed`, if any. */
  datatype Report = Report(write: Outcome, failure: Option<string>)

  /** The TypeError message Node.js gives for reading a property of `undefined`. */
  function RunErrorMessage(e: RunError): string {
    match e
    case SenderMissing => "Cannot read properties of undefined (reading 'type')"
    case LabelMissing => "Cannot read properties of undefined (reading 'name')"
  }

  /** One run: `configFile` is the `configuration-file` input as `core.getInput`
      gives it (trimmed of surrounding whitespace, `""` when unset or blank);
      `send` answers a write request with the error message the API client
      throws, if any. */
  function Main(configFile: string, repo: Repo, payload: Payload,
                fetch: string -> FetchResult, load: string -> LoadResult,
                send: Outcome -> Option<string>): (report: Report)
    // A configuration error ends the run before any write, with its message.
    ensures GetConfig(configFile, fetch, load).Err? ==>
              report == Report(NoCall, Some(Message(GetConfig(configFile, fetch, load).error)))
    // Otherwise the App runs on exactly the loaded configuration.
    ensures GetConfig(configFile, fetch, load).Ok? ==>
              var app := App(GetConfig(configFile, fetch, load).value);
              && (Run(app, repo, payload).Err? ==>
                    report == Report(NoCall, Some(RunErrorMessage(Run(app, repo, payload).error))))
              && (Run(app, repo, payload).Ok? ==> report.write == Run(app, repo, payload).value)
    // The run fails exactly when some step threw: getConfig, run, or the write
    // itself. A run that loads its configuration and decides on no write succeeds.
    ensures report.failure.None? <==>
              && GetConfig(configFile, fetch, load).Ok?
              && Run(App(GetConfig(configFile, fetch, load).value), repo, payload).Ok?
              && var write := Run(App(GetConfig(configFile, fetch, load).value), repo, payload).value;
                 write.NoCall? || send(write).None?
    // A write attempted is rejected exactly as the API answers.
    ensures !report.write.NoCall? ==> report.failure == send(report.write)
    // A bot's event never leads to a write, configured or not.
    ensures payload.senderType == Some("Bot") ==> report.write == NoCall
  {
    match GetConfig(configFile, fetch, load)
    case Err(e) => Report(NoCall, Some(Message(e)))
    case Ok(config) =>
      match Run(App(config), repo, payload)
      case Err(e) => Report(NoCall, Some(RunErrorMessage(e)))
      case Ok(write) =>
        if write.NoCall? then Report(NoCall, None) else Report(write, send(write))
  }

  /** When getConfig raises one of its own errors, the run's failure message
      tells which one, and for which path. */
  lemma {:induction false} FailureNamesConfigError(configFile: string, repo: Repo, payload: Payload,
                                                   fetch: string -> FetchResult, load: string -> LoadResult,
                                                   send: Outcome -> Option<string>)
    requires GetConfig(configFile, fetch, load).Err? && GetConfig(configFile, fetch, load).error.Raised()
    ensures var report := Main(configFile, repo, payload, fetch, load, send);
            && report.write == NoCall && report.failure.Some?
            && Classify(report.failure.value) == Some(GetConfig(configFile, fetch, load).error)
  {
    ClassifyMessage(GetConfig(configFile, fetch, load).error);
  }
}
