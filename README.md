# kak-debug session core, modelled in Dafny

kak-debug connects the Kakoune editor to a debug adapter that speaks the
Debug Adapter Protocol (DAP). This project models two parts of it. The first
is configuration loading (`src/config.py`): placeholder substitution, YAML
validation against the two schemas, and the upward search for
`.kak-debug.yaml`. The second is the session driver
(`src/debug_session.py`): `quit`, and `start_adapter`, which picks a
configuration, shows the menu, waits for `select-config`, looks up the
adapter and launches it. It also covers the routing of adapter messages and
editor commands, the two loops that read them, and `start`, which ties all
of this together.

Modules, in dependency order:

- `Values` (values.dfy): decoded YAML/JSON values and Python's `d[k]`, with
  `KeyError` and `TypeError` as results.
- `Substitution` (substitution.dfy): `str.replace` and the substitution
  chain that ends in `$$` → `$`.
- `Schemas` (schemas.dfy): the project and adapter schemas as predicates.
- `Discovery` (discovery.dfy): the walk from the working directory up to
  the nearest `.kak-debug.yaml`.
- `Loaders` (loaders.dfy): `get_adapter_config` and `get_project_config`.
- `PyInt` (pyint.dfy): `int()` as applied to the `expand` line number.
- `Routing` (routing.dfy): `quit`, `handle_response`, `handle_event`,
  `handle_reverse_request`, `handle_kak_command`, and the specification
  `Run` of a read-until-sentinel loop.
- `Selection` (selection.dfy): `start_adapter` as specification functions.
- `Session` (session.dfy): the loops as methods proved against those
  functions. The module globals become the fields of the `Session`
  class, and every call into a collaborator is appended to its `trace`.

Collaborators are opaque. These are the editor connection, the adapter
process, and the `breakpoints`, `stacktrace`, `variables` and `general`
modules. Each call into one of them is an `Action`.

Each connection is a finite inbox of `Option<Value>`. `None` is the end of
the stream:
- in the adapter inbox, it is the `None` that `get_msg` returns;
- in the editor inbox, it is `is_open` turning false.

## Model

| member | source | states |
|---|---|---|
| Values.Lookup | src/debug_session.py:64 | A dict lookup succeeds exactly when the key is present, and returns a value actually stored under that key. With distinct keys it returns the value at the key's position. |
| Values.Subscript | src/debug_session.py:50 | Subscripting a mapping: `d[k]` succeeds exactly when `d` is a dict, `k` is hashable and `k` is present. A missing key on a dict raises `KeyError`; a non-dict or an unhashable key raises `TypeError`. |
| Values.Get | src/debug_session.py:62-63 | `msg["key"]` with a string key succeeds exactly when `msg` is a dict holding the key, and then yields the value stored under it. It raises `KeyError` on a dict and `TypeError` otherwise, e.g. on `None`. |
| Values.GetStored | src/debug_session.py:62-63 | A successful `msg["key"]` yields a value stored in `msg` under that key. |
| Substitution.ReplaceLength | src/config.py:30-36 | `str.replace` changes the length by the number of non-overlapping matches times the difference in length. |
| Substitution.ReplaceNothing | src/config.py:30-36 | `str.replace` leaves a text with no occurrence of the pattern unchanged. |
| Substitution.CountMissingChar | src/config.py:30-36 | A pattern containing a character the text lacks never occurs in it. |
| Substitution.SubstituteIsSteps | src/config.py:30-36 | The substitution is the ordered chain HOME, USER, CUR_DIR, ADAPTER_DIR, then `$$` → `$`. |
| Substitution.NoDollarUnchanged | src/config.py:74-80 | A text without `$` is loaded exactly as written. |
| Substitution.CollapseLength | src/config.py:36 | Collapsing `$$` shortens the text by one per non-overlapping `$$`. |
| Substitution.FourDollarsBecomeTwo | src/config.py:80 | Matches are taken left to right without overlap, so `$$$$` becomes `$$`. |
| Substitution.CollapseEscape | src/config.py:36 | Doubling every `$` is undone exactly by the final `$$` → `$` step. |
| Substitution.EscapedTextSurvives | src/config.py:30-36 | A text without `{`, with each `$` doubled, survives the whole chain unchanged, whatever the environment. |
| Substitution.EscapeKeepsOtherChars | src/config.py:36 | Doubling `$` adds no other character. |
| Substitution.EscapedPlaceholderStillExpands | src/config.py:30-36 | `$${HOME}` does not protect the placeholder: HOME is replaced before `$$` is collapsed, giving `$/home/u`. |
| Substitution.BracelessSkipsLaterVariables | src/config.py:31-35 | A text without `{` passes the USER, CUR_DIR and ADAPTER_DIR steps unchanged. |
| Substitution.HomeAfterDollar | src/config.py:30 | The HOME step alone turns `$${HOME}` into `$/home/u`. |
| Substitution.LaterStepsSeeEarlierValues | src/config.py:30-31 | A HOME value that contains `${USER}` is itself expanded by the later USER step. |
| Schemas.Strings | src/config.py:14 | The `[str]` argument list read as strings: same length, element by element. |
| Schemas.MinimalRecordAccepted | src/config.py:14 | An adapter record with only `executable` and `args` is valid. |
| Schemas.MinimalRegistryAccepted | src/config.py:13-15 | A registry holding one such record is valid. |
| Schemas.NamedAdapterAccepted | src/config.py:14 | The optional `name` field is accepted. |
| Schemas.NonStringArgRejected | src/config.py:14 | A non-string element in `args` makes the record invalid. |
| Schemas.LaunchConfigAccepted | src/config.py:10 | A configuration with `adapter` and a string-keyed `launch_args` is valid. |
| Schemas.LaunchConfigMissingFieldRejected | src/config.py:10 | A configuration without `launch_args` is invalid. |
| Schemas.LaunchConfigExtraFieldRejected | src/config.py:10 | A configuration with an unknown key is invalid. |
| Discovery.Parent | src/config.py:59-61 | The parent drops the last component, and the root is its own parent. |
| Discovery.ProjectDir | src/config.py:55-67 | The result is the deepest non-root ancestor-or-self of the working directory that holds the file. None is returned exactly when no non-root ancestor-or-self holds one. |
| Discovery.FindProjectDir | src/config.py:55-67 | The upward `while` loop computes `ProjectDir`. |
| Discovery.RootFileIgnored | src/config.py:65-67 | A `.kak-debug.yaml` at the filesystem root never changes the outcome. |
| Discovery.RootCwdFindsNothing | src/config.py:65-67 | Started at the root, the search always fails. |
| Discovery.NearestWins | src/config.py:59-62 | Of two files on the path, the nearer one is chosen. |
| Loaders.Load | src/config.py:39-51 | The loader returns the parsed document of the substituted text exactly when parsing succeeds and the document matches the schema. Otherwise it returns None. |
| Loaders.GetAdapterConfig | src/config.py:18-51 | `get_adapter_config` returns a schema-valid registry, namely the parse of the substituted text, or None exactly when parsing or validation fails. |
| Loaders.ProjectConfigOf | src/config.py:54-97 | A project configuration returned is schema-valid. |
| Loaders.GetProjectConfig | src/config.py:54-97 | `get_project_config` computes `ProjectConfigOf`. A result is the parse of a non-root ancestor's file, and no file on the path means None. |
| PyInt.ToInt | src/debug_session.py:167 | `int()` is the identity on integers and raises `TypeError` on `None`, lists and dicts. A `ValueError` comes exactly from a malformed string. |
| PyInt.Digit | src/debug_session.py:167 | The digit character of a value below ten. |
| PyInt.NatToString | src/debug_session.py:167 | The decimal rendering of a natural number is a non-empty digit string. |
| PyInt.DigitsRoundTrip | src/debug_session.py:167 | A rendered natural number reads back as itself. |
| PyInt.ToIntRoundTrip | src/debug_session.py:167 | `int(str(i)) == i` for every integer, negative ones included. |
| PyInt.ToIntExamples | src/debug_session.py:167 | Surrounding whitespace is stripped, `"4x"` and `""` raise `ValueError`, and `True` is 1. |
| Routing.QuitActions | src/debug_session.py:21-35 | `quit` ends with `exit(0)`, and nothing before that exits. |
| Routing.QuitOrder | src/debug_session.py:24-35 | `quit` sends three commands: first reset-location, then takedown-ui, and last the one clearing `debug_running`. Then it cleans up, then it exits. |
| Routing.GetOrNull | src/debug_session.py:100-104 | On a dict, reading an optional key never raises. It returns the stored value, or null when the key is absent. |
| Routing.HandleEventAgrees | src/debug_session.py:96-114 | The corrected `handle_event` behaves exactly like the code as written on every event other than `output`. |
| Routing.MissingCategoryRaises | src/debug_session.py:100-104 | As written, an `output` event without `category` raises `KeyError`. Corrected, it is forwarded under `output`. |
| Routing.OutputRouting | src/debug_session.py:99-106 | The corrected handler (see Findings): telemetry output produces nothing. Any other output sends one `dap-output` command, with `output` as the category when none is given. A missing `output` text raises `KeyError`. |
| Routing.EventRouting | src/debug_session.py:107-114 | `initialized` goes to the breakpoints module and `stopped` to the stacktrace module. `exited` and `terminated` quit. Any other event, a non-string one included, is ignored. |
| Routing.AdapterMessageDispatch | src/debug_session.py:85-134 | By `type`: a response invokes the callback registered for its `request_seq`, an event is handled, and a request goes to runInTerminal. Any other type is ignored. |
| Routing.RequestsFollowTable | src/debug_session.py:139-167 | An editor command causes at most one action. It writes an adapter request only for a command in the request table, and then the request the table names. Every table entry other than `evaluate` always succeeds. |
| Routing.SteppingRequests | src/debug_session.py:141-158 | `continue`, `next`, `stepIn` and `stepOut` send the current thread id and ignore the reply. `stop` sends `disconnect` with empty arguments. |
| Routing.EvaluateRequest | src/debug_session.py:159-165 | `evaluate` sends the expression with the current frame id and registers the evaluate-response handler. |
| Routing.LocalCommands | src/debug_session.py:151-167 | `expand` only expands a variable. `pid` answers with the last adapter sequence number. An unknown or non-string command does nothing. |
| Routing.ExpandRequest | src/debug_session.py:166-167 | `expand` expands exactly the line `int(cmd["args"]["line"])`. When `int()` raises, the command raises the same error and expands nothing. |
| Routing.ExpandRenderedLine | src/debug_session.py:167 | A line number sent as its decimal text expands exactly that line. |
| Routing.CommandsNeverQuit | src/debug_session.py:139-167 | No editor command ends the process. |
| Routing.Run | src/debug_session.py:123-136 | A loop reads at most its inbox and stops at the first sentinel, quit or exception. It stops short of the end only for one of these, and every message it read before the last was real. A stop at the sentinel stops on it. |
| Routing.RunHandledPrefix | src/debug_session.py:123-136 | Every message the loop read before the last was handled without raising and without quitting. An exhausted inbox was handled that way in full. |
| Routing.RunLastMessage | src/debug_session.py:125-136 | A loop that stops on an exception stops because the last message it read raised that exception. A loop that stops on a quit stops because the last message it read was handled with a quit. |
| Routing.RunInOrder | src/debug_session.py:123-136 | Messages are handled in arrival order. The reactions to a handled prefix come first, then those to the rest. |
| Routing.RunStopsAtSentinel | src/debug_session.py:125 | Nothing after the first `None` is ever read. |
| Selection.Configurations | src/debug_session.py:42 | `project_config["configurations"]` of a valid project is string-keyed, and every entry is a valid launch configuration. |
| Selection.ConfigNames | src/debug_session.py:41-43 | The names are the configuration keys, in dict order. |
| Selection.NameListSnoc | src/debug_session.py:54-55 | Appending a name adds that name and one space. |
| Selection.Word | src/debug_session.py:53-56 | The first word of a text is a space-free prefix, ended by a space or the end of the text. |
| Selection.WordOf | src/debug_session.py:55 | The first word of `name + " " + rest` is `name` when `name` has no space. |
| Selection.NameListRoundTrip | src/debug_session.py:53-56 | The menu's name list splits back into exactly the configuration names when no name contains a space. |
| Selection.SpacedNameIsAmbiguous | src/debug_session.py:55 | A name with a space cannot be told apart from two names. |
| Selection.ChosenConfig | src/debug_session.py:63-64 | A selected configuration is the one stored under the name `msg["args"]["config"]`, which must be readable. When that name can be read and is hashable, it is found exactly when `configurations` holds it, and a missing one raises `KeyError`. |
| Selection.Answer | src/debug_session.py:61-65 | A message answers the wait only with a decision. A chosen value is one of the configurations. |
| Selection.AwaitSelection | src/debug_session.py:58-65 | The wait reads at most the inbox. If no answer came, it has read all of it. An answer comes after at least one read, and a chosen value is one of the configurations. |
| Selection.AwaitStep | src/debug_session.py:60-65 | One step of the wait: stop on an answer, otherwise skip the message. |
| Selection.FirstSelectDecides | src/debug_session.py:60-65 | The first `select-config` after non-answers decides, after exactly that many reads. |
| Selection.SelectConfig | src/debug_session.py:41-65 | A single configuration is taken without a menu or a read. Otherwise the menu lists every name, and the outcome is that of the wait. A chosen configuration is launch-ready. |
| Selection.NoConfigurationNeverSelected | src/debug_session.py:58-65 | With no configuration at all, no answer can select one. |
| Selection.TwoConfigsProject | src/config.py:9-11 | Two valid configurations make a valid project, whose configuration names are `debug` and `release` in that order. |
| Selection.ReleaseAnswerChosen | src/debug_session.py:60-65 | An unrelated command is skipped, then `select-config release` picks `release` after two reads. |
| Selection.TwoConfigurationScenario | src/debug_session.py:48-65 | For two configurations, the exact menu text is produced, then the wait picks `release`. |
| Selection.MenuOfTwo | src/debug_session.py:53-56 | The exact menu text for `debug` and `release`, with a trailing space before the closing ` }}`. |
| Selection.AdapterFor | src/debug_session.py:67-71 | The adapter lookup succeeds exactly when the registry names the configuration's adapter. It then yields the valid record stored under that name. Otherwise it raises `KeyError`. |
| Selection.Launch | src/debug_session.py:79-82 | The adapter is spawned with the record's executable and exactly its argument list. |
| Selection.AdapterStart | src/debug_session.py:38-82 | `start_adapter` reads at most its inbox, and a selected adapter is a valid record. |
| Selection.StartAdapterOutcome | src/debug_session.py:38-82 | The adapter runs exactly when a launch-ready configuration was chosen and its adapter is registered; the trace is then the menu plus one launch. A chosen configuration whose adapter is not registered fails with `KeyError`. Anything but a launch leaves only the menu. The messages read and the chosen configuration are those of `SelectConfig`. A rejected answer fails with the answer's exception. `Blocked` holds exactly when the wait got no answer, and then the whole inbox was read. |
| Selection.SingleConfigurationStart | src/debug_session.py:48-82 | A lone configuration reads nothing and sends no menu. It either launches or raises `KeyError`, and launches exactly when it acts at all. |
| Session.CollectNames | src/debug_session.py:41-43 | The `for` loop collects exactly `ConfigNames`. |
| Session.BuildMenu | src/debug_session.py:53-56 | The string-building loop produces exactly `MenuCommand`. |
| Session.WaitForSelection | src/debug_session.py:58-65 | The `while True` loop, on a finite inbox, computes `AwaitSelection`. |
| Session.ChooseConfig | src/debug_session.py:41-65 | The selection part of `start_adapter` computes `SelectConfig`. |
| Session.PickAndLaunch | src/debug_session.py:38-82 | `start_adapter` computes `AdapterStart`. |
| Session.Consume | src/debug_session.py:123-136 | The shared read-and-dispatch loop computes `Run`. |
| Session.EditorLoopNeverQuits | src/debug_session.py:208-210 | The editor command loop never ends through `quit`. |
| Session.Session.constructor | src/debug_session.py:12-18 | A fresh session has an empty trace, is running, and has every global unset. |
| Session.Session.Quit | src/debug_session.py:21-35 | `quit` appends its five actions and marks the session exited. Nothing else changes. |
| Session.Session.StartAdapter | src/debug_session.py:38-82 | `start_adapter` appends `AdapterStart`'s actions and consumes the messages it read. It sets `selected_config`, `selected_adapter` and `debug_adapter` exactly as far as it got. |
| Session.Session.Record | src/debug_session.py:64-82 | The globals `selected_config`, `selected_adapter` and `debug_adapter` are assigned. |
| Session.Session.AdapterMsgThread | src/debug_session.py:123-136 | `adapter_msg_thread` appends `Run`'s reactions to the adapter inbox and consumes what it read. |
| Session.Session.EditorLoop | src/debug_session.py:208-210 | The command loop appends `Run`'s reactions to the editor inbox, and sets the status by why it stopped. |
| Session.Session.Launched | src/debug_session.py:199-210 | The thread starts, `debug_running` is set, breakpoints are processed and the adapter is initialized, in that order. Then the editor is served: the loop's reactions are appended, the messages it read are consumed, and the status follows why it stopped. No global or the adapter inbox changes. |
| Session.Session.Serve | src/debug_session.py:196-210 | After loading: start the adapter, and serve the editor only if it was launched. The new trace, status, unread editor messages, `selected_config`, `selected_adapter` and `debug_adapter` are those of `ServedFrom`. The configurations and the adapter inbox do not change. |
| Session.Session.Start | src/debug_session.py:170-210 | `start` announces the socket first and loads both configurations. It quits when either is missing, and otherwise serves. The trace, status, unread editor messages and the three globals `start_adapter` sets are those of `StartOutcome`. `project_config` is untouched when the registry fails to load. |
| Session.Session.LoadProjectAndServe | src/debug_session.py:192-210 | Loads the project configuration, quits when it is missing and otherwise serves, with the effects `StartOutcome` gives. |
| Session.RStripSlash | src/config.py:33-35 | The `$HOME` text `os.path.expanduser` starts from: the longest prefix of `$HOME` that does not end in '/', after which only '/' characters were dropped. |
| Session.HomeStripped | src/config.py:33-35 | Stripping `/home/u/` drops its one trailing slash. |
| Session.TrailingSlashHome | src/config.py:33-35 | A `$HOME` of `/home/u/` gives `/home/u/.kak-debug/adapters`, with no doubled slash. |
| Session.RootHome | src/config.py:33-35 | A `$HOME` of `/` gives `/.kak-debug/adapters`. |
| Session.ServedFrom | src/debug_session.py:196-210 | What follows `start_adapter` keeps the configuration and adapter record it selected, and a selected record is valid. |
| Session.Served | src/debug_session.py:196-210 | Once both configurations are loaded, a selected adapter record is valid. |
| Session.StartOutcome | src/debug_session.py:189-210 | Whatever the loaders returned, a selected adapter record is valid. A missing configuration gives exactly `quit`'s actions and `Exited`, with no message read and no configuration or adapter selected. Otherwise the selected configuration and adapter are those of `AdapterStart`. A start that does not reach the editor loop stops with its actions and status, leaving the messages it did not read. |

## Left out

- Threads: `adapter_msg_thread` runs on its own thread in the source. Here `AdapterMsgThread` is a separate method over its own inbox, so the interleaving of its actions with the editor loop's is not modelled.
- `time.sleep` calls in `quit` and `start` have no observable effect in the model.
- The internals of `KakConnection`, `Adapter` and the `breakpoints`, `stacktrace`, `variables` and `general` modules are not part of this model. Calls into them are opaque `Action`s.
- `escape_str` and Python's `str()` of a non-string category are parameters (`Routing.Formatter`).
- The sequence numbers and callback registry inside `Adapter` are not modelled: a response is recorded as `InvokeCallback(request_seq, msg)`.
- The state the collaborators keep (`stacktrace.cur_thread`, `cur_stack_id`, `general.last_adapter_seq`) is a fixed `Routing.Context` during a loop. Updates made by event handlers are not fed back.
- YAML parsing is a parameter `yaml: string -> Option<Value>`, where `None` stands for `yaml.YAMLError`.
- The `schema` library's rule that a type key must match at least one entry is not modelled. Empty mappings are accepted.
- File reading, `os.getcwd`, `os.getenv("HOME")`, `pwd.getpwuid` and `expanduser` are parameters (`Env`, `cwd`, `files`). `Session.SameProcess`, which `Start` requires, ties them together: `${CUR_DIR}` is the text of the `cwd` the project search starts from, and `${ADAPTER_DIR}` is `$HOME` with its trailing '/' characters stripped, followed by `/.kak-debug/adapters`, as `os.path.expanduser` builds it.
- The choice between the user's and the shipped `adapters.yaml` (src/config.py:19-24) is outside the model: `Start` receives the text of whichever file was chosen.
- An unset `HOME`, which makes `str.replace` raise a `TypeError`, is not modelled.
- The logging calls are not modelled.
- Routing.HandleAdapterMessage: the adapter loop (`Routing.Run` over `AdapterMessages`, and so `Session.Session.AdapterMsgThread` and `Session.Session.Launched`) dispatches events to the corrected `Routing.HandleEvent`, not to the code as written. An output event without `category` is forwarded here. As written, it raises `KeyError` and ends the thread (see Findings).
- Values.Subscript: only subscripting a mapping is modelled. Python's integer indexing of lists and strings is not used by the modelled code, and here it raises `TypeError`.
- PyInt.ToInt: underscores in numerals, Unicode whitespace and non-ASCII digits are not accepted.
- Floats, and Python's equality of `1`, `1.0` and `True` as dict keys, are not modelled: keys compare structurally.
- The check `selected_adapter is None` (src/debug_session.py:73-75) cannot fire for a registry that passed the adapter schema. Every record is a mapping, so it is not modelled as a branch.
- `handle_reverse_request` sends every reverse request to the runInTerminal handler, whatever its command, as the code does. It does not check that the command is `runInTerminal`.
- `exit(0)` called from inside the adapter thread ends only that thread in Python. `AdapterMsgThread` stops there and leaves the session status alone. What this does to the rest of the process is not modelled.
- The `select-config` wait (src/debug_session.py:60-61) reads the end-of-stream `None` like any message and subscripts it, which raises `TypeError`. The model assumes `get_msg` returns `None` there once the editor connection closes. It does not model `get_msg` failing in some other way.
- The `select-config` wait and both loops block in `get_msg` when no message is available. On a finite inbox this is the outcome `Blocked` (`Waiting` or `Exhausted`).
- `kak_connection.is_open` turning false is the `None` sentinel in the editor inbox.
- A `quit` triggered while `start` runs, for example an `exited` event on the adapter thread, is not interleaved with `start`.

## Findings

| source | as written | input that shows it | evidently intended | confidence | as-written member | corrected member |
|---|---|---|---|---|---|---|
| src/debug_session.py:100-104 | `msg["body"]["category"]` raises `KeyError` when the output event has no `category`, so the adapter thread dies. The following `is None` test and the `"output"` default can never apply to a missing key. | `{"type": "event", "event": "output", "body": {"output": "hi"}}` (in DAP, `category` is optional) | Read the category with a default of `None` and forward the text as `dap-output output '...'` | not executed | Routing.HandleEventAsWritten, Routing.MissingCategoryRaises | Routing.HandleEvent |
