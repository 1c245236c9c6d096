/** App (src/index.js): on one webhook delivery, decide whether to add the
    label's configured users to the issue's assignees, remove them, or do
    nothing. The API write is not performed here: it is the returned
    `Outcome`, and the repository context and the event payload, ambient in
    the action, are explicit parameters. */
module Dispatcher {
  import opened Wrappers
  import opened JsValues

  /** `github.context.repo`: the owner and name copied into every write. */
  datatype Repo = Repo(owner: string, repo: string)

  /** The fields of `github.context.payload` the action reads.
      senderType: `payload.sender.type`, None when the payload has no sender.
      issueNumber: `payload.issue?.number`, `Undefined` when there is no issue.
      action: `payload.action`.
      labelName: `payload.label.name`, None when the payload has no label. */
  datatype Payload = Payload(senderType: Option<string>, issueNumber: JsValue, action: string, labelName: Option<string>)

  /** The arguments of an addAssignees / removeAssignees request. */
  datatype Request = Request(owner: string, repo: string, issueNumber: JsValue, assignees: JsValue)

  /** The single write a run makes, if any. */
  datatype Outcome = NoCall | Add(request: Request) | Remove(request: Request)

  /** A property read on a missing payload field throws a TypeError. */
  datatype RunError = SenderMissing | LabelMissing

  /** The App object: its client is the capability behind `Outcome`, its
      configuration is set once by the constructor and only read. Reading a
      label from the configuration needs an object-coercible value, which the
      action guarantees by building an App only from a loaded configuration. */
  datatype App = App(config: JsValue)

  const Labeled: string := "labeled"
  const Unlabeled: string := "unlabeled"

  /** assignUsers: one add request for `users`, unless `users` is falsy. */
  function AssignUsers(repo: Repo, issueNumber: JsValue, users: JsValue): (o: Outcome)
    ensures o.NoCall? <==> !Truthy(users)
    ensures !o.Remove?
    ensures o.Add? ==> o.request == Request(repo.owner, repo.repo, issueNumber, users)
  {
    if !Truthy(users) then NoCall
    else Add(Request(repo.owner, repo.repo, issueNumber, users))
  }

  /** unassignUsers: one remove request for `users`, unless `users` is falsy. */
  function UnassignUsers(repo: Repo, issueNumber: JsValue, users: JsValue): (o: Outcome)
    ensures o.NoCall? <==> !Truthy(users)
    ensures !o.Add?
    ensures o.Remove? ==> o.request == Request(repo.owner, repo.repo, issueNumber, users)
  {
    if !Truthy(users) then NoCall
    else Remove(Request(repo.owner, repo.repo, issueNumber, users))
  }

  /** The run gets past its two early returns: a sender that is not a bot and
      a truthy issue number. */
  predicate PassesGuards(payload: Payload)
    requires payload.senderType.Some?
  {
    payload.senderType.value != "Bot" && Truthy(payload.issueNumber)
  }

  /** The users configured for the payload's label (`config[label.name]`). */
  function ConfiguredUsers(app: App, payload: Payload): JsValue
    requires app.config != Undefined && app.config != Null
    requires payload.labelName.Some?
  {
    Get(app.config, payload.labelName.value)
  }

  /** run: the decision for one event. */
  function Run(app: App, repo: Repo, payload: Payload): (r: Result<Outcome, RunError>)
    requires app.config != Undefined && app.config != Null
    // Reading `sender.type` without a sender throws before anything else.
    ensures payload.senderType == None <==> r == Err(SenderMissing)
    // A bot's event never leads to a write, whatever the action, label or issue.
    ensures payload.senderType == Some("Bot") ==> r == Ok(NoCall)
    // Checked after the bot test: an absent or falsy issue number (0 included) means no write.
    ensures payload.senderType.Some? && !Truthy(payload.issueNumber) ==> r == Ok(NoCall)
    // Only labeled and unlabeled lead anywhere; the label is read only for them.
    ensures (payload.action != Labeled && payload.action != Unlabeled && payload.senderType.Some?)
              ==> r == Ok(NoCall)
    ensures r == Err(LabelMissing) <==>
              payload.senderType.Some? && PassesGuards(payload)
              && (payload.action == Labeled || payload.action == Unlabeled) && payload.labelName == None
    // An add request exactly for labeled with truthy configured users, carrying
    // the payload's issue number and the configured value unchanged.
    ensures r.Ok? && r.value.Add? <==>
              payload.senderType.Some? && PassesGuards(payload) && payload.action == Labeled
              && payload.labelName.Some? && Truthy(ConfiguredUsers(app, payload))
    ensures r.Ok? && r.value.Add? ==>
              r.value.request == Request(repo.owner, repo.repo, payload.issueNumber, ConfiguredUsers(app, payload))
    // The same for unlabeled and a remove request.
    ensures r.Ok? && r.value.Remove? <==>
              payload.senderType.Some? && PassesGuards(payload) && payload.action == Unlabeled
              && payload.labelName.Some? && Truthy(ConfiguredUsers(app, payload))
    ensures r.Ok? && r.value.Remove? ==>
              r.value.request == Request(repo.owner, repo.repo, payload.issueNumber, ConfiguredUsers(app, payload))
  {
    match payload.senderType
    case None => Err(SenderMissing)
    case Some(senderType) =>
      if senderType == "Bot" then Ok(NoCall)
      else if !Truthy(payload.issueNumber) then Ok(NoCall)
      else if payload.action == Labeled then
        if payload.labelName == None then Err(LabelMissing)
        else Ok(AssignUsers(repo, payload.issueNumber, ConfiguredUsers(app, payload)))
      else if payload.action == Unlabeled then
        if payload.labelName == None then Err(LabelMissing)
        else Ok(UnassignUsers(repo, payload.issueNumber, ConfiguredUsers(app, payload)))
      else Ok(NoCall)
  }

  /** A label configured with an empty list still leads to a request, with
      that empty list: `!users` is false for `[]`. */
  lemma EmptyListStillCalls(app: App, repo: Repo, payload: Payload)
    requires app.config != Undefined && app.config != Null
    requires payload.senderType.Some? && PassesGuards(payload)
    requires payload.action == Labeled || payload.action == Unlabeled
    requires payload.labelName.Some? && ConfiguredUsers(app, payload) == Array([])
    ensures var expected := Request(repo.owner, repo.repo, payload.issueNumber, Array([]));
            Run(app, repo, payload)
              == Ok(if payload.action == Labeled then Add(expected) else Remove(expected))
  {
  }

  /** A label without a configuration entry, or with a falsy one, leads to no
      request for either action. */
  lemma UnconfiguredLabelNoCall(app: App, repo: Repo, payload: Payload)
    requires app.config != Undefined && app.config != Null
    requires payload.labelName.Some? && !Truthy(ConfiguredUsers(app, payload))
    requires payload.senderType.Some?
    ensures Run(app, repo, payload) == Ok(NoCall)
  {
  }

  /** The delivery `labeled` / `unlabeled` of label `bug` on issue 42 with
      `bug: [alice, bob]` configured: one add, respectively remove, request for
      exactly alice and bob on issue 42; any other action makes none. */
  lemma BugScenario(repo: Repo, action: string)
    ensures var users := Array([Str("alice"), Str("bob")]);
            var app := App(Object(map["bug" := users]));
            var r := Run(app, repo, Payload(Some("User"), Number(42.0), action, Some("bug")));
            var expected := Request(repo.owner, repo.repo, Number(42.0), users);
            r == Ok(if action == Labeled then Add(expected)
                    else if action == Unlabeled then Remove(expected)
                    else NoCall)
  {
  }
}
