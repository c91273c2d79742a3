/** Choosing the launch configuration and its adapter in `start_adapter`
    (src/debug_session.py:38-82): the automatic pick, the menu command, the
    wait for the editor's `select-config`, and the adapter lookup. */
module Selection {
  import opened Values
  import opened Schemas
  import opened Routing

  /** The `configurations` mapping of a validated project descriptor. */
  function Configurations(project: Value): (c: Value)
    requires ProjectShape(project)
    ensures StrKeyed(c)
    ensures forall i :: 0 <= i < |c.entries| ==> LaunchConfigShape(c.entries[i].1)
  {
    Field(project, "configurations")
  }

  /** The configuration names, in the dict's iteration order. */
  function ConfigNames(configs: Value): (names: seq<string>)
    requires StrKeyed(configs)
    ensures |names| == |configs.entries|
    ensures forall i :: 0 <= i < |names| ==> configs.entries[i].0 == Str(names[i])
  {
    seq(|configs.entries|, i requires 0 <= i < |configs.entries| => configs.entries[i].0.s)
  }

  const MenuPrefix := "try %{ eval -client %opt{jumpclient} %{ debug-select-config "
  const MenuSuffix := " }}"

  /** Each name followed by one space, as the loop appends `f"{name} "`. */
  function NameList(names: seq<string>): string {
    if names == [] then "" else names[0] + " " + NameList(names[1..])
  }

  /** The selection request sent to the editor. */
  function MenuCommand(names: seq<string>): string {
    MenuPrefix + NameList(names) + MenuSuffix
  }

  /** Appending a name extends the list by that name and a space, as one
      turn of the menu-building loop does. */
  lemma {:induction false} NameListSnoc(names: seq<string>, name: string)
    ensures NameList(names + [name]) == NameList(names) + name + " "
    decreases |names|
  {
    if names != [] {
      assert (names + [name])[1..] == names[1..] + [name];
      NameListSnoc(names[1..], name);
    } else {
      assert names + [name] == [name];
    }
  }

  /** The text up to the first space. */
  function Word(s: string): (w: string)
    ensures |w| <= |s| && w == s[..|w|] && ' ' !in w
    ensures |w| < |s| ==> s[|w|] == ' '
    decreases |s|
  {
    if s == [] || s[0] == ' ' then [] else [s[0]] + Word(s[1..])
  }

  /** Reads a space-terminated name list back into its names. */
  function SplitNames(s: string): seq<string>
    decreases |s|
  {
    if s == [] then []
    else
      var w := Word(s);
      if |w| == |s| then [w] else [w] + SplitNames(s[|w| + 1..])
  }

  lemma {:induction false} WordOf(name: string, rest: string)
    requires ' ' !in name
    ensures Word(name + " " + rest) == name
    decreases |name|
  {
    if name != [] {
      assert (name + " " + rest)[1..] == name[1..] + " " + rest;
      WordOf(name[1..], rest);
    } else {
      assert (name + " " + rest)[0] == ' ';
    }
  }

  /** The menu's name list determines the names, as long as no name holds
      a space. */
  lemma {:induction false} NameListRoundTrip(names: seq<string>)
    requires forall i :: 0 <= i < |names| ==> ' ' !in names[i]
    ensures SplitNames(NameList(names)) == names
    decreases |names|
  {
    if names != [] {
      var rest := NameList(names[1..]);
      var s := names[0] + " " + rest;
      WordOf(names[0], rest);
      assert s[|names[0]| + 1..] == rest;
      NameListRoundTrip(names[1..]);
    }
  }

  /** A name holding a space cannot be told from two names. */
  lemma SpacedNameIsAmbiguous()
    ensures NameList(["a b"]) == NameList(["a", "b"])
  {
  }

  /** What the wait ends with. */
  datatype Choice = Chosen(config: Value) | Rejected(error: Exc) | Waiting

  /** The configuration a `select-config` command names:
      `configurations[msg["args"]["config"]]`. */
  function ChosenConfig(configs: Value, msg: Value): (r: Result<Value, Exc>)
    ensures r.Ok? ==> configs.Dict? && exists i :: 0 <= i < |configs.entries| && configs.entries[i].1 == r.value
    ensures r.Ok? ==> Get(msg, "args").Ok? && Get(Get(msg, "args").value, "config").Ok?
                      && exists i :: 0 <= i < |configs.entries|
                           && configs.entries[i] == (Get(Get(msg, "args").value, "config").value, r.value)
    ensures Get(msg, "args").Ok? && Get(Get(msg, "args").value, "config").Ok? && configs.Dict?
            && Hashable(Get(Get(msg, "args").value, "config").value) ==>
              && (r.Ok? <==> HasKey(configs.entries, Get(Get(msg, "args").value, "config").value))
              && (r.Err? ==> r.error == KeyError)
  {
    var args :- Get(msg, "args");
    var name :- Get(args, "config");
    Subscript(configs, name)
  }

  /** One turn of the wait: `None` when the message is discarded, else the
      outcome. A `None` from the connection is subscripted like any
      message and so raises `TypeError`. */
  function Answer(configs: Value, msg: Option<Value>): (r: Option<Choice>)
    ensures r.Some? ==> !r.value.Waiting?
    ensures r.Some? && r.value.Chosen? ==> configs.Dict? && exists i :: 0 <= i < |configs.entries| && configs.entries[i].1 == r.value.config
  {
    match msg
    case None => Some(Rejected(TypeError))
    case Some(m) =>
      match Get(m, "cmd")
      case Err(e) => Some(Rejected(e))
      case Ok(c) => if c == Str("select-config") then Some(ChoiceOf(ChosenConfig(configs, m))) else None
  }

  /** The `while True` loop over `get_msg()`: every message before the first
      `select-config` is discarded. Returns the number of messages read and
      the outcome. */
  function AwaitSelection(configs: Value, inbox: seq<Option<Value>>): (r: (nat, Choice))
    ensures r.0 <= |inbox|
    ensures r.1.Waiting? ==> r.0 == |inbox|
    ensures !r.1.Waiting? ==> 0 < r.0
    ensures r.1.Chosen? ==> configs.Dict? && exists i :: 0 <= i < |configs.entries| && configs.entries[i].1 == r.1.config
    decreases |inbox|
  {
    if inbox == [] then (0, Waiting)
    else
      match Answer(configs, inbox[0])
      case Some(c) => (1, c)
      case None =>
        var r := AwaitSelection(configs, inbox[1..]);
        (1 + r.0, r.1)
  }

  /** One turn of the wait: an answer ends it, anything else is skipped. */
  lemma AwaitStep(configs: Value, inbox: seq<Option<Value>>)
    requires inbox != []
    ensures var a := Answer(configs, inbox[0]); var rest := AwaitSelection(configs, inbox[1..]);
      AwaitSelection(configs, inbox) == if a.Some? then (1, a.value) else (1 + rest.0, rest.1)
  {
  }

  /** The outcome of reading a `select-config` command. */
  function ChoiceOf(res: Result<Value, Exc>): Choice {
    match res
    case Ok(v) => Chosen(v)
    case Err(e) => Rejected(e)
  }

  /** The first `select-config` decides; the messages before it are read
      and discarded. */
  lemma {:induction false} FirstSelectDecides(configs: Value, inbox: seq<Option<Value>>, k: nat, msg: Value)
    requires k < |inbox| && inbox[k] == Some(msg) && Get(msg, "cmd") == Ok(Str("select-config"))
    requires forall j :: 0 <= j < k ==>
      inbox[j].Some? && Get(inbox[j].value, "cmd").Ok? && Get(inbox[j].value, "cmd").value != Str("select-config")
    ensures AwaitSelection(configs, inbox) == (k + 1, ChoiceOf(ChosenConfig(configs, msg)))
    decreases k
  {
    if k > 0 {
      assert forall j :: 0 <= j < k - 1 ==> inbox[1..][j] == inbox[j + 1];
      FirstSelectDecides(configs, inbox[1..], k - 1, msg);
    }
  }

  /** The menu sent (if any), the number of editor messages read, and the
      configuration chosen. */
  datatype Selection = Selection(menu: seq<Action>, consumed: nat, choice: Choice)

  /** Exactly one configuration is taken without asking; otherwise, zero
      configurations included, the menu is sent and the editor's answer
      awaited. */
  function SelectConfig(project: Value, inbox: seq<Option<Value>>): (r: Selection)
    requires ProjectShape(project)
    ensures r.consumed <= |inbox|
    ensures r.choice.Chosen? ==> LaunchConfigShape(r.choice.config)
    ensures |Configurations(project).entries| == 1 ==>
      r == Selection([], 0, Chosen(Configurations(project).entries[0].1))
    ensures |Configurations(project).entries| != 1 ==>
      r.menu == [SendCmd(MenuCommand(ConfigNames(Configurations(project))))]
      && (r.consumed, r.choice) == AwaitSelection(Configurations(project), inbox)
  {
    var configs := Configurations(project);
    var names := ConfigNames(configs);
    if |names| == 1 then Selection([], 0, Chosen(configs.entries[0].1))
    else
      var w := AwaitSelection(configs, inbox);
      Selection([SendCmd(MenuCommand(names))], w.0, w.1)
  }

  /** With no configuration at all, no answer can select one. */
  lemma NoConfigurationNeverSelected(project: Value, msg: Value)
    requires ProjectShape(project) && Configurations(project).entries == []
    ensures !ChosenConfig(Configurations(project), msg).Ok?
  {
  }

  /** A `configurations` mapping with `debug` then `release`. */
  function TwoConfigs(debugConfig: Value, releaseConfig: Value): Value {
    Dict([(Str("debug"), debugConfig), (Str("release"), releaseConfig)])
  }

  /** The editor's answer `select-config release`. */
  function ReleaseAnswer(): Value {
    Dict([(Str("cmd"), Str("select-config")), (Str("args"), Dict([(Str("config"), Str("release"))]))])
  }

  /** A project holding just those two configurations. */
  function TwoProject(debugConfig: Value, releaseConfig: Value): Value {
    Dict([(Str("configurations"), TwoConfigs(debugConfig, releaseConfig))])
  }

  lemma TwoConfigsProject(debugConfig: Value, releaseConfig: Value)
    requires LaunchConfigShape(debugConfig) && LaunchConfigShape(releaseConfig)
    ensures ProjectShape(TwoProject(debugConfig, releaseConfig))
    ensures Configurations(TwoProject(debugConfig, releaseConfig)) == TwoConfigs(debugConfig, releaseConfig)
    ensures ConfigNames(TwoConfigs(debugConfig, releaseConfig)) == ["debug", "release"]
  {
    var configs := TwoConfigs(debugConfig, releaseConfig);
    var project := TwoProject(debugConfig, releaseConfig);
    assert project.entries[0].0 == Str("configurations");
    assert Field(project, "configurations") == configs;
    assert configs.entries[1].0 == Str("release");
  }

  lemma ReleaseAnswerChosen(debugConfig: Value, releaseConfig: Value)
    ensures AwaitSelection(TwoConfigs(debugConfig, releaseConfig),
                           [Some(Dict([(Str("cmd"), Str("pid"))])), Some(ReleaseAnswer())])
            == (2, Chosen(releaseConfig))
  {
    var configs := TwoConfigs(debugConfig, releaseConfig);
    var args := Dict([(Str("config"), Str("release"))]);
    var answer := ReleaseAnswer();
    var other := Dict([(Str("cmd"), Str("pid"))]);
    assert other.entries[0].0 == Str("cmd");
    assert answer.entries[0].0 == Str("cmd") && answer.entries[1].0 == Str("args");
    assert answer.entries[1].1 == args;
    assert args.entries[0].0 == Str("config");
    assert configs.entries[1].0 == Str("release");
    assert Get(other, "cmd") == Ok(Str("pid"));
    assert Get(answer, "cmd") == Ok(Str("select-config"));
    assert ChosenConfig(configs, answer) == Ok(releaseConfig);
    FirstSelectDecides(configs, [Some(other), Some(answer)], 1, answer);
  }

  /** Two configurations: the menu lists both, each followed by a space,
      and `select-config release` picks `release` after an unrelated
      command is skipped. */
  lemma TwoConfigurationScenario(debugConfig: Value, releaseConfig: Value)
    requires LaunchConfigShape(debugConfig) && LaunchConfigShape(releaseConfig)
    ensures ProjectShape(TwoProject(debugConfig, releaseConfig))
    ensures SelectConfig(TwoProject(debugConfig, releaseConfig),
                         [Some(Dict([(Str("cmd"), Str("pid"))])), Some(ReleaseAnswer())])
            == Selection([SendCmd("try %{ eval -client %opt{jumpclient} %{ debug-select-config debug release  }}")],
                         2, Chosen(releaseConfig))
  {
    TwoConfigsProject(debugConfig, releaseConfig);
    ReleaseAnswerChosen(debugConfig, releaseConfig);
    MenuOfTwo();
  }

  lemma MenuOfTwo()
    ensures MenuCommand(["debug", "release"])
            == "try %{ eval -client %opt{jumpclient} %{ debug-select-config debug release  }}"
  {
    assert NameList(["release"]) == "release ";
    assert NameList(["debug", "release"]) == "debug release ";
  }

  /** The registry entry for the configuration's adapter,
      `adapter_config["adapters"][selected_config["adapter"]]`; an unknown
      adapter name raises `KeyError`. */
  function AdapterFor(adapters: Value, config: Value): (r: Result<Value, Exc>)
    requires AdapterShape(adapters) && LaunchConfigShape(config)
    ensures r.Ok? <==> HasKey(Field(adapters, "adapters").entries, Field(config, "adapter"))
    ensures r.Ok? ==> AdapterRecordShape(r.value)
    ensures r.Err? ==> r.error == KeyError
    ensures r.Ok? ==> exists i :: 0 <= i < |Field(adapters, "adapters").entries|
                        && Field(adapters, "adapters").entries[i] == (Field(config, "adapter"), r.value)
  {
    Subscript(Field(adapters, "adapters"), Field(config, "adapter"))
  }

  /** `Adapter(selected_adapter["executable"], selected_adapter["args"])`. */
  function Launch(record: Value): (a: Action)
    requires AdapterRecordShape(record)
    ensures a.SpawnAdapter? && Str(a.executable) == Field(record, "executable")
    ensures Field(record, "args") == List(seq(|a.args|, i requires 0 <= i < |a.args| => Str(a.args[i])))
  {
    SpawnAdapter(Field(record, "executable").s, Strings(Field(record, "args")))
  }

  /** Where the session stands: running, blocked on an input that never
      comes, ended by an uncaught exception, exited through `quit`, or
      returned from `start` once the editor connection closed. */
  datatype Status = Running | Blocked | Failed(error: Exc) | Exited | Returned

  /** The effects of `start_adapter`: actions, editor messages read, the
      resulting status, and the new values of `selected_config` and
      `selected_adapter` (`None` where they were not assigned). */
  datatype Started = Started(actions: seq<Action>, consumed: nat, status: Status,
                             config: Option<Value>, adapter: Option<Value>)

  /** `start_adapter` as a whole: select a configuration, look its adapter
      up, launch it. */
  function AdapterStart(project: Value, adapters: Value, inbox: seq<Option<Value>>): (r: Started)
    requires ProjectShape(project) && AdapterShape(adapters)
    ensures r.consumed <= |inbox|
    ensures r.adapter.Some? ==> AdapterRecordShape(r.adapter.value)
  {
    var sel := SelectConfig(project, inbox);
    match sel.choice
    case Waiting => Started(sel.menu, sel.consumed, Blocked, None, None)
    case Rejected(e) => Started(sel.menu, sel.consumed, Failed(e), None, None)
    case Chosen(c) =>
      match AdapterFor(adapters, c)
      case Err(e) => Started(sel.menu, sel.consumed, Failed(e), Some(c), None)
      case Ok(record) => Started(sel.menu + [Launch(record)], sel.consumed, Running, Some(c), Some(record))
  }

  /** What `start_adapter` leaves behind: on success a launch-ready
      configuration, its registered adapter record, and one launch after
      the menu; otherwise only the menu, and `Blocked` only once the whole
      inbox was read without a `select-config`. A chosen configuration
      runs exactly when the registry names its adapter, and otherwise
      fails with `KeyError`. */
  lemma {:induction false} StartAdapterOutcome(project: Value, adapters: Value, inbox: seq<Option<Value>>)
    requires ProjectShape(project) && AdapterShape(adapters)
    ensures var r := AdapterStart(project, adapters, inbox);
      && (r.status == Running || r.status == Blocked || r.status.Failed?)
      && (r.config.Some? ==> LaunchConfigShape(r.config.value))
      && (r.status == Running <==> r.adapter.Some?)
      && (r.status == Running ==>
            r.config.Some? && AdapterFor(adapters, r.config.value) == Ok(r.adapter.value)
            && AdapterRecordShape(r.adapter.value)
            && r.actions == SelectConfig(project, inbox).menu + [Launch(r.adapter.value)])
      && (r.status != Running ==> r.actions == SelectConfig(project, inbox).menu)
      && (r.status == Blocked ==> r.consumed == |inbox| && r.config.None?)
      && (r.config.Some? ==> (r.status == Running <==> AdapterFor(adapters, r.config.value).Ok?))
      && (r.config.Some? && r.status != Running ==> r.status == Failed(KeyError))
      && r.consumed == SelectConfig(project, inbox).consumed
      && r.config == (if SelectConfig(project, inbox).choice.Chosen? then Some(SelectConfig(project, inbox).choice.config) else None)
      && (SelectConfig(project, inbox).choice.Rejected? ==> r.status == Failed(SelectConfig(project, inbox).choice.error))
      && (r.status == Blocked <==> SelectConfig(project, inbox).choice.Waiting?)
  {
    var sel := SelectConfig(project, inbox);
    assert sel.choice.Chosen? ==> LaunchConfigShape(sel.choice.config);
  }

  /** A lone configuration starts without reading any editor message or
      sending a menu; it either launches its adapter or raises `KeyError`
      for an unregistered adapter, never reaching the `None` check. */
  lemma SingleConfigurationStart(project: Value, adapters: Value, inbox: seq<Option<Value>>)
    requires ProjectShape(project) && AdapterShape(adapters)
    requires |Configurations(project).entries| == 1
    ensures AdapterStart(project, adapters, inbox).consumed == 0
    ensures AdapterStart(project, adapters, inbox).config == Some(Configurations(project).entries[0].1)
    ensures AdapterStart(project, adapters, inbox).status in {Running, Failed(KeyError)}
    ensures AdapterStart(project, adapters, inbox).actions == [] <==> AdapterStart(project, adapters, inbox).status != Running
  {
    var c := Configurations(project).entries[0].1;
    assert SelectConfig(project, inbox) == Selection([], 0, Chosen(c));
  }
}
