/** The session driver of src/debug_session.py: the module globals become
    the fields of one `Session` object, every call into a collaborator is
    appended to `trace`, and the two connections are the finite inboxes
    `editorInbox` and `adapterInbox`, read from the front. A `None` in the
    editor inbox stands for the connection closing (`is_open` turning
    false); in the adapter inbox it is the `None` that `get_msg` returns
    when the adapter goes away. */
module Session {
  import opened Values
  import opened Substitution
  import opened Schemas
  import opened Discovery
  import opened Loaders
  import opened Routing
  import opened Selection

  /** `set-option global debug_socket "<path>"`, sent first. */
  function SocketCmd(inFifoPath: string): string {
    "set-option global debug_socket \"" + inFifoPath + "\""
  }

  const RunningCmd := "set-option global debug_running true"

  /** The status after a loop of `start` stops: the editor connection
      closing returns from `start`, an exception ends the session. */
  function AfterEditorLoop(h: Halt): Status {
    match h
    case Closed => Returned
    case Exhausted => Blocked
    case Quit => Exited
    case Raised(e) => Failed(e)
  }

  /** What `start` does after the configuration has been loaded and the
      adapter started. */
  function AfterStart(started: Started, loop: RunResult): seq<Action> {
    started.actions + (ThreadAndInitActions + loop.actions)
  }

  /** The four steps of `start` between launching the adapter and serving
      the editor. */
  const ThreadAndInitActions := [StartMessageThread, SendCmd(RunningCmd), ProcessBreakpoints, InitializeAdapter]

  /** The loop collecting `names` from `project_config["configurations"]`. */
  method CollectNames(configs: Value) returns (names: seq<string>)
    requires StrKeyed(configs)
    ensures names == ConfigNames(configs)
  {
    names := [];
    var i := 0;
    while i < |configs.entries|
      invariant 0 <= i <= |configs.entries|
      invariant names == ConfigNames(configs)[..i]
    {
      names := names + [configs.entries[i].0.s];
      i := i + 1;
    }
  }

  /** The loop building the menu command name by name. */
  method BuildMenu(names: seq<string>) returns (kakCmd: string)
    ensures kakCmd == MenuCommand(names)
  {
    kakCmd := MenuPrefix;
    var j := 0;
    while j < |names|
      invariant 0 <= j <= |names|
      invariant kakCmd == MenuPrefix + NameList(names[..j])
    {
      NameListSnoc(names[..j], names[j]);
      assert names[..j + 1] == names[..j] + [names[j]];
      kakCmd := kakCmd + names[j] + " ";
      j := j + 1;
    }
    assert names[..j] == names;
    kakCmd := kakCmd + MenuSuffix;
  }

  /** The `while True` loop waiting for `select-config`, on a finite inbox:
      the number of messages read and the outcome. The real loop blocks in
      `get_msg` when the inbox runs dry. */
  method WaitForSelection(configs: Value, editorInbox: seq<Option<Value>>) returns (consumed: nat, choice: Choice)
    ensures (consumed, choice) == AwaitSelection(configs, editorInbox)
  {
    var inbox := editorInbox;
    consumed := 0;
    while inbox != []
      invariant AwaitSelection(configs, editorInbox)
                == (consumed + AwaitSelection(configs, inbox).0, AwaitSelection(configs, inbox).1)
      decreases |inbox|
    {
      var answer := Answer(configs, inbox[0]);
      AwaitStep(configs, inbox);
      if answer.Some? {
        return consumed + 1, answer.value;
      }
      inbox := inbox[1..];
      consumed := consumed + 1;
    }
    return consumed, Waiting;
  }

  /** The selection part of `start_adapter`: auto-pick the lone
      configuration, or send the menu and wait. */
  method ChooseConfig(project: Value, inbox: seq<Option<Value>>) returns (sel: Selection)
    requires ProjectShape(project)
    ensures sel == SelectConfig(project, inbox)
  {
    var configs := Configurations(project);
    var names := CollectNames(configs);
    if |names| == 1 {
      var only := Subscript(configs, Str(names[0]));
      assert configs.entries[0].0 == Str(names[0]);
      return Selection([], 0, Chosen(only.value));
    }
    var kakCmd := BuildMenu(names);
    var consumed, choice := WaitForSelection(configs, inbox);
    return Selection([SendCmd(kakCmd)], consumed, choice);
  }

  /** `start_adapter` on local values: choose, then look the adapter up by
      `selected_config["adapter"]` and launch it with its executable and
      arguments. */
  method PickAndLaunch(project: Value, adapters: Value, inbox: seq<Option<Value>>) returns (s: Started)
    requires ProjectShape(project) && AdapterShape(adapters)
    ensures s == AdapterStart(project, adapters, inbox)
  {
    var sel := ChooseConfig(project, inbox);
    match sel.choice
    case Waiting =>
      return Started(sel.menu, sel.consumed, Blocked, None, None);
    case Rejected(e) =>
      return Started(sel.menu, sel.consumed, Failed(e), None, None);
    case Chosen(c) =>
      var found := AdapterFor(adapters, c);
      if found.Err? {
        return Started(sel.menu, sel.consumed, Failed(found.error), Some(c), None);
      }
      return Started(sel.menu + [Launch(found.value)], sel.consumed, Running, Some(c), Some(found.value));
  }

  /** Reads `inbox` until the sentinel, a quit or an exception, handling
      each message with `loop`: the common shape of `adapter_msg_thread`
      and the command loop of `start`. */
  method Consume(loop: Loop, inbox: seq<Option<Value>>) returns (r: RunResult)
    ensures r == Run(loop, inbox)
  {
    var rest := inbox;
    var acts: seq<Action> := [];
    var consumed: nat := 0;
    var halt := Exhausted;
    var running := true;
    while running && rest != []
      invariant consumed <= |inbox| && rest == inbox[consumed..]
      invariant running ==> halt == Exhausted
      invariant running ==> Run(loop, inbox) == RunResult(acts + Run(loop, rest).actions,
                                                         consumed + Run(loop, rest).consumed, Run(loop, rest).halt)
      invariant !running ==> Run(loop, inbox) == RunResult(acts, consumed, halt)
      decreases |rest|, if running then 1 else 0
    {
      var msg := rest[0];
      assert inbox[consumed + 1..] == rest[1..];
      var next := Run(loop, rest[1..]);
      rest := rest[1..];
      consumed := consumed + 1;
      match msg
      case None =>
        halt := Closed;
        running := false;
      case Some(m) =>
        var res := Handle(loop, m);
        match res
        case Err(e) =>
          halt := Raised(e);
          running := false;
        case Ok(a) =>
          ConcatAssoc(acts, a, next.actions);
          acts := acts + a;
          if Quits(a) {
            halt := Halt.Quit;
            running := false;
          }
    }
    return RunResult(acts, consumed, halt);
  }

  /** What `start` leaves behind after announcing its socket: the actions
      it causes, where the session stands, the editor messages not yet
      read, and the configuration and adapter record `start_adapter`
      selected (`None` where it did not get that far). */
  datatype Outcome = Outcome(actions: seq<Action>, status: Status, rest: seq<Option<Value>>,
                             config: Option<Value>, adapter: Option<Value>)

  /** What `start` does after `start_adapter` ended as `s`: stop there
      unless the adapter was launched, else serve the rest of the inbox. */
  function ServedFrom(s: Started, inbox: seq<Option<Value>>, ctx: Context): (o: Outcome)
    requires s.consumed <= |inbox|
    requires s.adapter.Some? ==> AdapterRecordShape(s.adapter.value)
    ensures o.adapter.Some? ==> AdapterRecordShape(o.adapter.value)
    ensures o.config == s.config && o.adapter == s.adapter
  {
    if s.status != Running then Outcome(s.actions, s.status, inbox[s.consumed..], s.config, s.adapter)
    else
      var loop := Run(EditorCommands(ctx), inbox[s.consumed..]);
      Outcome(AfterStart(s, loop), AfterEditorLoop(loop.halt), inbox[s.consumed..][loop.consumed..],
              s.config, s.adapter)
  }

  /** What `start` does once both configurations are loaded. */
  function Served(project: Value, adapters: Value, inbox: seq<Option<Value>>, ctx: Context): (o: Outcome)
    requires ProjectShape(project) && AdapterShape(adapters)
    ensures o.adapter.Some? ==> AdapterRecordShape(o.adapter.value)
  {
    ServedFrom(AdapterStart(project, adapters, inbox), inbox, ctx)
  }

  /** What `start` does given what the two loaders returned: a missing
      configuration quits before anything else happens. */
  function StartOutcome(adapters: Option<Value>, project: Option<Value>, inbox: seq<Option<Value>>, ctx: Context): (o: Outcome)
    requires adapters.Some? ==> AdapterShape(adapters.value)
    requires project.Some? ==> ProjectShape(project.value)
    ensures o.adapter.Some? ==> AdapterRecordShape(o.adapter.value)
    ensures adapters.None? || project.None? ==> o == Outcome(QuitActions(), Exited, inbox, None, None)
    ensures adapters.Some? && project.Some? ==>
      var s := AdapterStart(project.value, adapters.value, inbox);
      o.config == s.config && o.adapter == s.adapter
      && (s.status != Running ==> o.actions == s.actions && o.status == s.status && o.rest == inbox[s.consumed..])
  {
    if adapters.None? || project.None? then Outcome(QuitActions(), Exited, inbox, None, None)
    else Served(project.value, adapters.value, inbox, ctx)
  }

  /** `os.getcwd()` is both the directory the project search starts from
      and the `${CUR_DIR}` value, and `~/.kak-debug/adapters` expands
      under `$HOME` with its trailing slashes removed. */
  predicate SameProcess(cwd: Path, env: Env) {
    env.curDir == PathText(cwd) && env.adapterDir == RStripSlash(env.home) + "/.kak-debug/adapters"
  }

  /** `home.rstrip('/')`, which `os.path.expanduser` applies to `$HOME`
      before appending the rest of the path. */
  function RStripSlash(home: string): (r: string)
    ensures |r| <= |home| && r == home[..|r|]
    ensures r == [] || r[|r| - 1] != '/'
    ensures forall i :: |r| <= i < |home| ==> home[i] == '/'
    decreases |home|
  {
    if home != [] && home[|home| - 1] == '/' then RStripSlash(home[..|home| - 1]) else home
  }

  /** A `$HOME` with a trailing slash gives the adapter directory without
      a doubled slash. */
  lemma TrailingSlashHome()
    ensures SameProcess(["w"], Env("/home/u/", "u", "/w", "/home/u/.kak-debug/adapters"))
  {
    HomeStripped();
    assert PathText(["w"]) == "/" + "w" + Slashed([]);
  }

  /** `"/home/u/".rstrip('/')` drops the one trailing slash. */
  lemma HomeStripped()
    ensures RStripSlash("/home/u/") == "/home/u"
  {
    var home := "/home/u/";
    assert home[..|home| - 1] == "/home/u";
    assert "/home/u"[6] == 'u';
  }

  /** With the root as `$HOME`, the adapter directory is
      `/.kak-debug/adapters`. */
  lemma RootHome()
    ensures SameProcess([], Env("/", "root", "/", "/.kak-debug/adapters"))
  {
    assert "/"[..0] == "";
    assert RStripSlash("/") == RStripSlash("");
  }

  class Session {
    var trace: seq<Action>
    var editorInbox: seq<Option<Value>>
    var adapterInbox: seq<Option<Value>>
    var status: Status
    var adapterConfig: Option<Value>
    var projectConfig: Option<Value>
    var selectedConfig: Option<Value>
    var selectedAdapter: Option<Value>
    var debugAdapter: Option<Action>
    const formatter: Formatter
    const context: Context
    const inFifoPath: string

    /** The module state before `start`: nothing loaded, nothing sent. */
    constructor (formatter: Formatter, context: Context, inFifoPath: string,
                 editorInbox: seq<Option<Value>>, adapterInbox: seq<Option<Value>>)
      ensures this.formatter == formatter && this.context == context && this.inFifoPath == inFifoPath
      ensures this.editorInbox == editorInbox && this.adapterInbox == adapterInbox
      ensures trace == [] && status == Running
      ensures adapterConfig.None? && projectConfig.None? && selectedConfig.None?
      ensures selectedAdapter.None? && debugAdapter.None?
    {
      this.formatter := formatter;
      this.context := context;
      this.inFifoPath := inFifoPath;
      this.editorInbox := editorInbox;
      this.adapterInbox := adapterInbox;
      trace := [];
      status := Running;
      adapterConfig := None;
      projectConfig := None;
      selectedConfig := None;
      selectedAdapter := None;
      debugAdapter := None;
    }

    /** `quit`: the fixed shutdown sequence, after which the process has
        exited. */
    method Quit()
      modifies this
      ensures trace == old(trace) + QuitActions() && status == Exited
      ensures editorInbox == old(editorInbox) && adapterInbox == old(adapterInbox)
      ensures adapterConfig == old(adapterConfig) && projectConfig == old(projectConfig)
      ensures selectedConfig == old(selectedConfig) && selectedAdapter == old(selectedAdapter)
      ensures debugAdapter == old(debugAdapter)
    {
      trace := trace + [SendCmd(ResetLocationCmd)];
      trace := trace + [SendCmd(TakedownUiCmd)];
      trace := trace + [SendCmd(NotRunningCmd)];
      trace := trace + [Cleanup];
      trace := trace + [Exit(0)];
      status := Exited;
    }

    /** `start_adapter`: collect the names, auto-pick or send the menu and
        wait for `select-config`, then look the adapter up and launch it. */
    method StartAdapter() returns (s: Started)
      requires projectConfig.Some? && ProjectShape(projectConfig.value)
      requires adapterConfig.Some? && AdapterShape(adapterConfig.value)
      modifies this
      ensures s == AdapterStart(old(projectConfig.value), old(adapterConfig.value), old(editorInbox))
      ensures trace == old(trace) + s.actions
      ensures editorInbox == old(editorInbox)[s.consumed..]
      ensures status == (if s.status == Running then old(status) else s.status)
      ensures adapterConfig == old(adapterConfig) && projectConfig == old(projectConfig)
      ensures selectedConfig == (if s.config.Some? then s.config else old(selectedConfig))
      ensures selectedAdapter == (if s.adapter.Some? then s.adapter else old(selectedAdapter))
      ensures debugAdapter == (if s.adapter.Some? then Some(Launch(s.adapter.value)) else old(debugAdapter))
      ensures adapterInbox == old(adapterInbox)
    {
      s := PickAndLaunch(projectConfig.value, adapterConfig.value, editorInbox);
      trace := trace + s.actions;
      editorInbox := editorInbox[s.consumed..];
      if s.status != Running {
        status := s.status;
      }
      Record(s.config, s.adapter);
    }

    /** The assignments to `selected_config`, `selected_adapter` and
        `debug_adapter`; a global not reached keeps its value. */
    method Record(config: Option<Value>, adapter: Option<Value>)
      requires adapter.Some? ==> AdapterRecordShape(adapter.value)
      modifies this
      ensures selectedConfig == (if config.Some? then config else old(selectedConfig))
      ensures selectedAdapter == (if adapter.Some? then adapter else old(selectedAdapter))
      ensures debugAdapter == (if adapter.Some? then Some(Launch(adapter.value)) else old(debugAdapter))
      ensures trace == old(trace) && editorInbox == old(editorInbox) && adapterInbox == old(adapterInbox)
      ensures status == old(status) && adapterConfig == old(adapterConfig) && projectConfig == old(projectConfig)
    {
      if config.Some? {
        selectedConfig := config;
      }
      if adapter.Some? {
        selectedAdapter := adapter;
        debugAdapter := Some(Launch(adapter.value));
      }
    }

    /** `adapter_msg_thread`, run to its end on the adapter's messages. An
        exception or an exit in it ends that loop; the session's status is
        left alone. */
    method AdapterMsgThread() returns (halt: Halt)
      modifies this
      ensures var r := Run(AdapterMessages(formatter), old(adapterInbox));
        && trace == old(trace) + r.actions
        && adapterInbox == old(adapterInbox)[r.consumed..]
        && halt == r.halt
      ensures editorInbox == old(editorInbox) && status == old(status)
      ensures adapterConfig == old(adapterConfig) && projectConfig == old(projectConfig)
      ensures selectedConfig == old(selectedConfig) && selectedAdapter == old(selectedAdapter)
      ensures debugAdapter == old(debugAdapter)
    {
      var r := Consume(AdapterMessages(formatter), adapterInbox);
      trace := trace + r.actions;
      adapterInbox := adapterInbox[r.consumed..];
      halt := r.halt;
    }

    /** The command loop at the end of `start`. */
    method EditorLoop()
      modifies this
      ensures var r := Run(EditorCommands(context), old(editorInbox));
        && trace == old(trace) + r.actions
        && editorInbox == old(editorInbox)[r.consumed..]
        && status == AfterEditorLoop(r.halt)
      ensures adapterInbox == old(adapterInbox)
      ensures adapterConfig == old(adapterConfig) && projectConfig == old(projectConfig)
      ensures selectedConfig == old(selectedConfig) && selectedAdapter == old(selectedAdapter)
      ensures debugAdapter == old(debugAdapter)
    {
      var r := Consume(EditorCommands(context), editorInbox);
      trace := trace + r.actions;
      editorInbox := editorInbox[r.consumed..];
      status := AfterEditorLoop(r.halt);
    }

    /** The rest of `start` once the adapter runs: start the message
        thread, set `debug_running`, process breakpoints, initialize the
        adapter, then serve the editor until its connection closes. */
    method Launched()
      modifies this
      ensures var loop := Run(EditorCommands(context), old(editorInbox));
        trace == old(trace) + (ThreadAndInitActions + loop.actions)
        && status == AfterEditorLoop(loop.halt)
        && editorInbox == old(editorInbox)[loop.consumed..]
      ensures adapterConfig == old(adapterConfig) && projectConfig == old(projectConfig)
      ensures selectedConfig == old(selectedConfig) && selectedAdapter == old(selectedAdapter)
      ensures debugAdapter == old(debugAdapter) && adapterInbox == old(adapterInbox)
    {
      trace := trace + [StartMessageThread];
      trace := trace + [SendCmd(RunningCmd)];
      trace := trace + [ProcessBreakpoints];
      trace := trace + [InitializeAdapter];
      assert trace == old(trace) + ThreadAndInitActions;
      ghost var rest := editorInbox;
      EditorLoop();
      ConcatAssoc(old(trace), ThreadAndInitActions, Run(EditorCommands(context), rest).actions);
    }

    /** The part of `start` after both configurations are loaded: start
        the adapter and, when it was launched, go on with `Launched`. */
    method Serve() returns (started: Started)
      requires projectConfig.Some? && ProjectShape(projectConfig.value)
      requires adapterConfig.Some? && AdapterShape(adapterConfig.value)
      requires status == Running
      modifies this
      ensures started == AdapterStart(old(projectConfig.value), old(adapterConfig.value), old(editorInbox))
      ensures var o := ServedFrom(started, old(editorInbox), context);
        && trace == old(trace) + o.actions && status == o.status && editorInbox == o.rest
        && selectedConfig == (if o.config.Some? then o.config else old(selectedConfig))
        && selectedAdapter == (if o.adapter.Some? then o.adapter else old(selectedAdapter))
        && debugAdapter == (if o.adapter.Some? then Some(Launch(o.adapter.value)) else old(debugAdapter))
      ensures adapterConfig == old(adapterConfig) && projectConfig == old(projectConfig)
      ensures adapterInbox == old(adapterInbox)
    {
      started := StartAdapter();
      if status != Running {
        return;
      }
      ghost var rest := editorInbox;
      Launched();
      ConcatAssoc(old(trace), started.actions, ThreadAndInitActions + Run(EditorCommands(context), rest).actions);
    }

    /** `start`: announce the socket, load both configurations (quitting
        when either is missing), then serve. `adapterText` is the text of
        the chosen `adapters.yaml`; `cwd`, `files` and `env` stand for the
        working directory, the project files present and the
        environment, so `env.curDir` is `cwd` written out and
        `env.adapterDir` lies under `env.home`. */
    method Start(adapterText: string, cwd: Path, files: map<Path, string>, env: Env,
                 yaml: string -> Option<Value>)
      requires status == Running
      requires SameProcess(cwd, env)
      modifies this
      ensures adapterConfig == GetAdapterConfig(adapterText, env, yaml)
      ensures adapterConfig.Some? ==> projectConfig == ProjectConfigOf(cwd, files, env, yaml)
      ensures adapterConfig.None? ==> projectConfig == old(projectConfig)
      ensures var o := StartOutcome(adapterConfig, ProjectConfigOf(cwd, files, env, yaml), old(editorInbox), context);
        && trace == old(trace) + [SendCmd(SocketCmd(inFifoPath))] + o.actions
        && status == o.status && editorInbox == o.rest
        && selectedConfig == (if o.config.Some? then o.config else old(selectedConfig))
        && selectedAdapter == (if o.adapter.Some? then o.adapter else old(selectedAdapter))
        && debugAdapter == (if o.adapter.Some? then Some(Launch(o.adapter.value)) else old(debugAdapter))
      ensures adapterInbox == old(adapterInbox)
    {
      trace := trace + [SendCmd(SocketCmd(inFifoPath))];
      adapterConfig := GetAdapterConfig(adapterText, env, yaml);
      if adapterConfig.None? {
        Quit();
        return;
      }
      LoadProjectAndServe(cwd, files, env, yaml);
    }

    /** The part of `start` after the adapter registry was loaded: load the
        project configuration, quit when it is missing, else serve. */
    method LoadProjectAndServe(cwd: Path, files: map<Path, string>, env: Env, yaml: string -> Option<Value>)
      requires adapterConfig.Some? && AdapterShape(adapterConfig.value)
      requires status == Running
      modifies this
      ensures adapterConfig == old(adapterConfig) && adapterInbox == old(adapterInbox)
      ensures projectConfig == ProjectConfigOf(cwd, files, env, yaml)
      ensures var o := StartOutcome(adapterConfig, projectConfig, old(editorInbox), context);
        && trace == old(trace) + o.actions
        && status == o.status && editorInbox == o.rest
        && selectedConfig == (if o.config.Some? then o.config else old(selectedConfig))
        && selectedAdapter == (if o.adapter.Some? then o.adapter else old(selectedAdapter))
        && debugAdapter == (if o.adapter.Some? then Some(Launch(o.adapter.value)) else old(debugAdapter))
    {
      projectConfig := GetProjectConfig(cwd, files, env, yaml);
      if projectConfig.None? {
        Quit();
        return;
      }
      var _ := Serve();
    }
  }

  /** No editor command quits, so the command loop ends only when the
      connection closes, the input runs out, or a command raises: `start`
      itself never exits through `quit` once it serves the editor. */
  lemma {:induction false} EditorLoopNeverQuits(ctx: Context, inbox: seq<Option<Value>>)
    ensures Run(EditorCommands(ctx), inbox).halt != Quit
    ensures AfterEditorLoop(Run(EditorCommands(ctx), inbox).halt) != Exited
    decreases |inbox|
  {
    if inbox != [] && inbox[0].Some? {
      CommandsNeverQuit(inbox[0].value, ctx);
      EditorLoopNeverQuits(ctx, inbox[1..]);
    }
  }
}
