# assign-by-label, modelled in Dafny

A GitHub Action that reads a YAML file mapping issue labels to user names.
When a label is added to an issue (`labeled`) it assigns that label's users.
When a label is removed (`unlabeled`) it unassigns them. The whole behaviour
sits in `src/index.js`:

- `getConfig` fetches the configuration file and checks it in a fixed order:
  path given, file found, content non-empty, loaded value truthy.
- `App.run` applies a short-circuiting rule to one event payload: bot
  sender, issue number, action. `assignUsers`/`unassignUsers` then skip a
  falsy user entry.
- `main` chains the two and turns any thrown error into the run's failure
  message.

The model is purely functional:

- Every decision is a function that returns a value.
- The single API write a run can make is an `Outcome`: `NoCall`, `Add(request)`
  or `Remove(request)`. So a run never makes more than one write, and never
  both an add and a remove.
- A thrown error is the `Err` side of a `Result`.
- The content API (`fetch`), the base64+YAML loader (`load`) and the write API
  (`send`) are function parameters. The repository context and the event
  payload are explicit arguments.
- JavaScript truthiness is `JsValues.Truthy`, ToBoolean of section 7.1.2 of
  ECMA-262. An issue number `0` is therefore "absent", and an empty array `[]`
  is truthy.

Files:

- `wrappers.dfy`: Option and Result.
- `js_values.dfy`: JavaScript values, truthiness and the property read.
- `config_loader.dfy`: getConfig, its error messages and their inverse.
- `dispatcher.dfy`: App.run, assignUsers and unassignUsers.
- `action.dfy`: main.

Three behaviours of the code a reader might not expect, which the model follows:

- A label configured with an empty list `[]` still produces an add or remove
  request carrying `[]`, because `!users` is false for an array. One might expect an empty list
  to be skipped; the code does not skip it.
- An exception thrown by the YAML loader propagates unchanged
  (`LoadRethrown`). Only a loaded value that is falsy becomes "Invalid
  configuration file". One might expect a parse error to be reported as
  invalid; it propagates unchanged.
- Reading `payload.sender.type` without a sender throws a TypeError. So does
  reading `payload.label.name` without a label on a `labeled`/`unlabeled`
  event. Both are run errors (`SenderMissing`, `LabelMissing`).

## Model

| member | source | states |
|---|---|---|
| `JsValues.Get` | src/index.js:72 | `config[label.name]` yields an object's own property when it has one, and `undefined` otherwise |
| `ConfigLoader.GetConfig` | src/index.js:20-51 | the check order, as iff-clauses. An empty path fails with NoConfigFile whatever the fetch gives. A 404 (strict `status === 404`) fails as MissingConfig(path). Any other fetch error is rethrown unchanged. Absent or empty content fails as EmptyConfig(path). A loader exception is rethrown. A falsy loaded value fails as InvalidConfig(path). Otherwise the result is the loaded value, unchanged and truthy |
| `ConfigLoader.GetConfigReadsOnlyConfigFile` | src/index.js:29-32 | the result depends on the content API only at the configured path, and on the loader only at the content found there |
| `ConfigLoader.Classify` | src/index.js:21-48 | reading a message back only ever yields one of the four errors getConfig raises itself |
| `ConfigLoader.ClassifyMessage` | src/index.js:21-48 | round trip: each error getConfig raises is recovered, kind and path, from its own message, so "Empty" is never reported as "Invalid" |
| `ConfigLoader.MessageInjective` | src/index.js:22-47 | two errors raised by getConfig have the same message exactly when they are the same error |
| `Dispatcher.AssignUsers` | src/index.js:78-89 | no request exactly when `users` is falsy; otherwise one add request with the repository's owner and name, the issue number and `users` unchanged; never a remove |
| `Dispatcher.UnassignUsers` | src/index.js:91-102 | the same with a remove request; never an add |
| `Dispatcher.Run` | src/index.js:59-76 | the decision table. No sender: TypeError. Bot sender: no request whatever the rest. A falsy issue number (0, absent): no request, tested after the bot check. An action other than labeled/unlabeled: no request. Missing label on labeled/unlabeled: TypeError. An add request exactly for `labeled` with a truthy entry, and a remove request exactly for `unlabeled` with one, each carrying the payload's issue number and the entry unchanged |
| `Dispatcher.EmptyListStillCalls` | src/index.js:71-81 | for any configuration and any payload that passes the sender and issue checks, a `labeled`/`unlabeled` label mapped to `[]` still produces an add/remove request carrying `[]` and the payload's issue number |
| `Dispatcher.UnconfiguredLabelNoCall` | src/index.js:79-81 | a label with no entry, or a falsy one, produces no request for any action |
| `Dispatcher.BugScenario` | src/index.js:71-101 | with `bug: [alice, bob]` configured, `labeled`/`unlabeled` of `bug` on issue 42 gives one add/remove request for exactly alice and bob on issue 42; any other action gives none |
| `Action.Main` | src/index.js:5-18 | a configuration error ends the run with its message and no write. Otherwise the App runs on exactly the loaded configuration. A run error becomes the failure message with no write. A write is attempted only when the run asks for one, and the API's rejection becomes the failure. The run fails exactly when some step threw, so a loaded configuration and a decision of no write (action `closed`, say) end in success. A bot's event never leads to a write |
| `Action.FailureNamesConfigError` | src/index.js:15-16 | when getConfig raises one of its own errors, the run's failure message identifies that error and its path |

## Left out

- The REST calls `repos.getContent`, `issues.addAssignees` and `issues.removeAssignees` are network I/O through the Octokit client. They are the `fetch` and `send` parameters and the returned `Outcome`.
- Base64 decoding and `yaml.load` are foreign library code. Together they are the `load` parameter, which yields a value or the loader's exception message.
- Reading the `github-token` and `configuration-file` inputs and creating the client are action plumbing. The path is a plain string argument: the input as `core.getInput` returns it, trimmed of surrounding whitespace, so an unset or blank input is `""` and fails as NoConfigFile. The token is not modelled, and creating the client with `getOctokit` (which runs before getConfig) is assumed to succeed.
- `github.context.repo` and `github.context.payload` are process-wide state. They are explicit parameters, and owner and repo are opaque strings copied into each request.
- The async/await sequencing is not modelled: there is no concurrency, and at most one call is outstanding.
- JsValues.Get: models own properties of an object only. Properties inherited from `Object.prototype` (for example a label named `constructor`) are left out. So are the own properties of a document that is not a mapping: array and string indices and `length` (for the list document `[a, b]`, `config["length"]` is `2`, truthy, so JavaScript sends an add request with `assignees: 2`; for the document `"abc"`, `config["0"]` is `"a"`), and the properties such a document inherits from `Array.prototype`, `String.prototype` or `Number.prototype` (a label named `map` reads a function). The model reads `undefined` for all of these.
- Numbers are reals plus NaN. Floating-point rounding is not modelled, since the action only tests a number for truthiness and copies it.
- `payload.action`, `sender.type` and `label.name` are strings, as the platform sends them. A sender without a `type` field behaves like any type other than `"Bot"`.
- The exact TypeError message text depends on the Node.js version. `Action.RunErrorMessage` uses the current wording for a missing (`undefined`) sender or label. A `null` sender or label gives "Cannot read properties of null …" in JavaScript, which the model does not distinguish.
