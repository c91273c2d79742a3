/** Routing of adapter messages and editor commands (src/debug_session.py:21-35,
    85-167), as pure functions from one decoded message to the actions it
    causes, and the read-until-sentinel loops that apply them.

    The collaborators (the editor connection, the adapter process, and the
    breakpoints, stacktrace, variables and general modules) are opaque: each
    call into one of them is an `Action` in the trace. */
module Routing {
  import opened Values
  import PyInt

  /** The continuation registered with a request. */
  datatype Continuation =
    | Ignore              // `lambda *args: None`
    | EvaluateResponse    // `general.handle_evaluate_response`

  datatype Action =
    | SendCmd(cmd: string)                                                    // kak_connection.send_cmd
    | WriteRequest(command: string, arguments: Value, onResponse: Continuation) // debug_adapter.write_request
    | WriteResponse(payload: Value)                                           // debug_adapter.write_response
    | InvokeCallback(requestSeq: Value, response: Value)                      // debug_adapter.get_callback(seq)(msg)
    | Breakpoints(event: Value)                                               // breakpoints.handle_initialized_event
    | Stacktrace(event: Value)                                                // stacktrace.handle_stopped_event
    | RunInTerminal(request: Value)                                           // general.handle_run_in_terminal_request
    | Expand(line: int)                                                       // variables.expand_variable
    | Cleanup                                                                 // kak_connection.cleanup
    | Exit(status: int)                                                       // exit
    | SpawnAdapter(executable: string, args: seq<string>)                     // Adapter(executable, args)
    | StartMessageThread                                                      // the adapter_msg_thread thread starts
    | ProcessBreakpoints                                                      // breakpoints.process_breakpoints
    | InitializeAdapter                                                       // general.initialize_adapter

  /** The editor connection's text helpers: `escape_str`, and Python's
      `str()` for a category that is neither a string nor `None`. */
  datatype Formatter = Formatter(escape: Value -> string, show: Value -> string)

  /** `stacktrace.cur_thread`, `stacktrace.cur_stack_id` and
      `general.last_adapter_seq`, which the collaborators maintain. */
  datatype Context = Context(curThread: Value, curStackId: Value, lastAdapterSeq: Value)

  // ---------------------------------------------------------------- quit

  const ResetLocationCmd := "try %{ eval -client %opt{jumpclient} %{ debug-reset-location  }}"
  const TakedownUiCmd := "try %{ eval -client %opt{jumpclient} %{ debug-takedown-ui }}"
  const NotRunningCmd := "set-option global debug_running false"

  /** Whether a reaction ends the process. */
  predicate Quits(acts: seq<Action>) {
    acts != [] && acts[|acts| - 1].Exit?
  }

  /** `quit`: two best-effort UI resets, clearing the running flag, closing
      the editor connection, exiting with status 0. */
  function QuitActions(): (r: seq<Action>)
    ensures Quits(r) && r[|r| - 1] == Exit(0)
    ensures forall i :: 0 <= i < |r| - 1 ==> !r[i].Exit?
  {
    [SendCmd(ResetLocationCmd), SendCmd(TakedownUiCmd), SendCmd(NotRunningCmd), Cleanup, Exit(0)]
  }

  /** Exactly three editor commands, in this order, then cleanup, then exit. */
  lemma QuitOrder()
    ensures |QuitActions()| == 5
    ensures forall i :: 0 <= i < 3 ==> QuitActions()[i].SendCmd?
    ensures QuitActions()[..2] == [SendCmd(ResetLocationCmd), SendCmd(TakedownUiCmd)]
    ensures QuitActions()[2].cmd == "set-option global debug_running false"
    ensures QuitActions()[3..] == [Cleanup, Exit(0)]
  {
  }

  // ---------------------------------------------------------------- events

  /** The category word of a `dap-output` command. */
  function CategoryText(category: Value, f: Formatter): string {
    if category.Null? then "output" else if category.Str? then category.s else f.show(category)
  }

  function OutputCommand(category: Value, output: Value, f: Formatter): string {
    "dap-output " + CategoryText(category, f) + " '" + f.escape(output) + "'"
  }

  /** The `output` branch once the category is known: telemetry is dropped,
      everything else is forwarded. */
  function OutputEvent(body: Value, category: Value, f: Formatter): Result<seq<Action>, Exc> {
    if category == Str("telemetry") then Ok([])
    else
      var output :- Get(body, "output");
      Ok([SendCmd(OutputCommand(category, output, f))])
  }

  /** Every event other than `output`. */
  function OtherEvent(event: Value, msg: Value): seq<Action> {
    if event == Str("initialized") then [Breakpoints(msg)]
    else if event == Str("stopped") then [Stacktrace(msg)]
    else if event == Str("exited") then QuitActions()
    else if event == Str("terminated") then QuitActions()
    else []
  }

  /** `handle_event` as written: `msg["body"]["category"]` raises `KeyError`
      when the event carries no category. */
  function HandleEventAsWritten(msg: Value, f: Formatter): Result<seq<Action>, Exc> {
    var event :- Get(msg, "event");
    if event == Str("output") then
      var body :- Get(msg, "body");
      var category :- Get(body, "category");
      OutputEvent(body, category, f)
    else Ok(OtherEvent(event, msg))
  }

  /** `d.get(key)` on a dict: `None` for a missing key. */
  function GetOrNull(d: Value, key: string): (r: Result<Value, Exc>)
    ensures d.Dict? ==> r.Ok?
    ensures d.Dict? && HasKey(d.entries, Str(key)) ==> Get(d, key) == r
    ensures d.Dict? && !HasKey(d.entries, Str(key)) ==> r == Ok(Null)
  {
    if d.Dict? then Ok(match Lookup(d.entries, Str(key)) case Some(x) => x case None => Null)
    else Err(TypeError)
  }

  /** `handle_event` with an absent category treated like a `None` one, as
      the code's own `is None` default intends. */
  function HandleEvent(msg: Value, f: Formatter): Result<seq<Action>, Exc> {
    var event :- Get(msg, "event");
    if event == Str("output") then
      var body :- Get(msg, "body");
      var category :- GetOrNull(body, "category");
      OutputEvent(body, category, f)
    else Ok(OtherEvent(event, msg))
  }

  /** The two versions differ only on `output` events without a category. */
  lemma HandleEventAgrees(msg: Value, f: Formatter)
    requires Get(msg, "event") != Ok(Str("output"))
      || (Get(msg, "body").Ok? && Get(Get(msg, "body").value, "category").Ok?)
    ensures HandleEvent(msg, f) == HandleEventAsWritten(msg, f)
  {
  }

  /** An output event with no category: the code as written raises, the
      intended reading forwards it in the default `output` category. */
  lemma MissingCategoryRaises(f: Formatter)
    ensures var msg := Dict([(Str("event"), Str("output")), (Str("body"), Dict([(Str("output"), Str("hi"))]))]);
      && HandleEventAsWritten(msg, f) == Err(KeyError)
      && HandleEvent(msg, f) == Ok([SendCmd("dap-output output '" + f.escape(Str("hi")) + "'")])
  {
    var body := Dict([(Str("output"), Str("hi"))]);
    var msg := Dict([(Str("event"), Str("output")), (Str("body"), body)]);
    assert msg.entries[0].0 == Str("event") && msg.entries[1].0 == Str("body");
    assert body.entries[0].0 == Str("output");
    assert !HasKey(body.entries, Str("category"));
    assert GetOrNull(body, "category") == Ok(Null);
    assert Get(body, "output") == Ok(Str("hi"));
    assert OutputCommand(Null, Str("hi"), f) == "dap-output output '" + f.escape(Str("hi")) + "'";
  }

  /** The `output` branch: a telemetry event produces nothing; any other
      sends exactly one `dap-output` command, with `output` as the category
      when the event has none or a `None` one. */
  lemma OutputRouting(msg: Value, body: Value, f: Formatter)
    requires Get(msg, "event") == Ok(Str("output")) && Get(msg, "body") == Ok(body) && body.Dict?
    ensures var category := GetOrNull(body, "category").value;
      && (category == Str("telemetry") ==> HandleEvent(msg, f) == Ok([]))
      && (category != Str("telemetry") && Get(body, "output").Ok? ==>
            HandleEvent(msg, f) == Ok([SendCmd(OutputCommand(category, Get(body, "output").value, f))]))
      && (category != Str("telemetry") && Get(body, "output").Err? ==> HandleEvent(msg, f) == Err(KeyError))
      && (category.Null? ==> CategoryText(category, f) == "output")
  {
  }

  /** Every other event name: `initialized` reaches only the breakpoints
      handler, `stopped` only the stack-trace handler, `exited` and
      `terminated` both quit, and anything else does nothing. */
  lemma EventRouting(msg: Value, f: Formatter, event: Value)
    requires Get(msg, "event") == Ok(event) && event != Str("output")
    ensures event == Str("initialized") ==> HandleEvent(msg, f) == Ok([Breakpoints(msg)])
    ensures event == Str("stopped") ==> HandleEvent(msg, f) == Ok([Stacktrace(msg)])
    ensures event == Str("exited") || event == Str("terminated") ==> HandleEvent(msg, f) == Ok(QuitActions())
    ensures event !in {Str("initialized"), Str("stopped"), Str("exited"), Str("terminated")} ==> HandleEvent(msg, f) == Ok([])
  {
  }

  // ---------------------------------------------------------------- adapter messages

  /** `handle_response`: the callback registered for `request_seq` gets the
      message. */
  function HandleResponse(msg: Value): Result<seq<Action>, Exc> {
    var requestSeq :- Get(msg, "request_seq");
    Ok([InvokeCallback(requestSeq, msg)])
  }

  /** `handle_reverse_request`: every reverse request goes to the
      runInTerminal handler, whatever its command. */
  function HandleReverseRequest(msg: Value): seq<Action> {
    [RunInTerminal(msg)]
  }

  /** The body of the `adapter_msg_thread` loop: dispatch on `type`. */
  function HandleAdapterMessage(msg: Value, f: Formatter): Result<seq<Action>, Exc> {
    var msgType :- Get(msg, "type");
    if msgType == Str("response") then HandleResponse(msg)
    else if msgType == Str("event") then HandleEvent(msg, f)
    else if msgType == Str("request") then Ok(HandleReverseRequest(msg))
    else Ok([])
  }

  lemma AdapterMessageDispatch(msg: Value, f: Formatter, t: Value)
    requires Get(msg, "type") == Ok(t)
    ensures t == Str("response") ==>
      HandleAdapterMessage(msg, f) == (match Get(msg, "request_seq")
                                        case Ok(s) => Ok([InvokeCallback(s, msg)])
                                        case Err(e) => Err(e))
    ensures t == Str("event") ==> HandleAdapterMessage(msg, f) == HandleEvent(msg, f)
    ensures t == Str("request") ==> HandleAdapterMessage(msg, f) == Ok([RunInTerminal(msg)])
    ensures t !in [Str("response"), Str("event"), Str("request")] ==> HandleAdapterMessage(msg, f) == Ok([])
  {
  }

  // ---------------------------------------------------------------- editor commands

  function ThreadArgs(ctx: Context): Value {
    Dict([(Str("threadId"), ctx.curThread)])
  }

  /** `handle_kak_command`. */
  function HandleKakCommand(msg: Value, ctx: Context): Result<seq<Action>, Exc> {
    var cmd :- Get(msg, "cmd");
    if cmd == Str("stop") then Ok([WriteRequest("disconnect", Dict([]), Ignore)])
    else if cmd == Str("continue") then Ok([WriteRequest("continue", ThreadArgs(ctx), Ignore)])
    else if cmd == Str("next") then Ok([WriteRequest("next", ThreadArgs(ctx), Ignore)])
    else if cmd == Str("pid") then Ok([WriteResponse(ctx.lastAdapterSeq)])
    else if cmd == Str("stepIn") then Ok([WriteRequest("stepIn", ThreadArgs(ctx), Ignore)])
    else if cmd == Str("stepOut") then Ok([WriteRequest("stepOut", ThreadArgs(ctx), Ignore)])
    else if cmd == Str("evaluate") then
      var args :- Get(msg, "args");
      var expr :- Get(args, "expression");
      Ok([WriteRequest("evaluate", Dict([(Str("expression"), expr), (Str("frameId"), ctx.curStackId)]), EvaluateResponse)])
    else if cmd == Str("expand") then
      var args :- Get(msg, "args");
      var line :- Get(args, "line");
      var n :- PyInt.ToInt(line);
      Ok([Expand(n)])
    else Ok([])
  }

  /** The editor commands that become adapter requests, and the request
      each becomes. */
  const RequestTable: map<string, string> :=
    map["stop" := "disconnect", "continue" := "continue", "next" := "next",
        "stepIn" := "stepIn", "stepOut" := "stepOut", "evaluate" := "evaluate"]

  /** A command causes at most one action; it writes a request exactly when
      the table lists it (and its arguments can be read), and then the
      request the table names. */
  lemma RequestsFollowTable(msg: Value, ctx: Context, c: string)
    requires Get(msg, "cmd") == Ok(Str(c))
    ensures HandleKakCommand(msg, ctx).Ok? ==> |HandleKakCommand(msg, ctx).value| <= 1
    ensures forall a :: HandleKakCommand(msg, ctx).Ok? && a in HandleKakCommand(msg, ctx).value && a.WriteRequest? ==>
      c in RequestTable && a.command == RequestTable[c]
    ensures c in RequestTable && HandleKakCommand(msg, ctx).Ok? ==>
      HandleKakCommand(msg, ctx).value[0].WriteRequest? && HandleKakCommand(msg, ctx).value[0].command == RequestTable[c]
    ensures c in RequestTable && c != "evaluate" ==> HandleKakCommand(msg, ctx).Ok?
  {
  }

  /** Stepping and continuing send the current thread and ignore the
      response; `stop` disconnects with no arguments. */
  lemma SteppingRequests(msg: Value, ctx: Context, c: string)
    requires Get(msg, "cmd") == Ok(Str(c))
    ensures c in {"continue", "next", "stepIn", "stepOut"} ==>
      HandleKakCommand(msg, ctx) == Ok([WriteRequest(c, Dict([(Str("threadId"), ctx.curThread)]), Ignore)])
    ensures c == "stop" ==> HandleKakCommand(msg, ctx) == Ok([WriteRequest("disconnect", Dict([]), Ignore)])
  {
  }

  /** `evaluate` sends the expression with the current frame and registers
      the evaluate-response handler. */
  lemma EvaluateRequest(msg: Value, ctx: Context, args: Value, expr: Value)
    requires Get(msg, "cmd") == Ok(Str("evaluate")) && Get(msg, "args") == Ok(args) && Get(args, "expression") == Ok(expr)
    ensures HandleKakCommand(msg, ctx) ==
      Ok([WriteRequest("evaluate", Dict([(Str("expression"), expr), (Str("frameId"), ctx.curStackId)]), EvaluateResponse)])
  {
  }

  /** `expand` stays local (`ExpandRequest` and `ExpandRenderedLine` say
      which variable it expands), `pid` answers with the last adapter
      sequence number, an unknown command does nothing. */
  lemma LocalCommands(msg: Value, ctx: Context, c: Value)
    requires Get(msg, "cmd") == Ok(c)
    ensures c == Str("expand") && HandleKakCommand(msg, ctx).Ok? ==>
      exists n :: HandleKakCommand(msg, ctx).value == [Expand(n)]
    ensures c == Str("pid") ==> HandleKakCommand(msg, ctx) == Ok([WriteResponse(ctx.lastAdapterSeq)])
    ensures (!c.Str? || (c.s !in RequestTable && c.s != "expand" && c.s != "pid")) ==> HandleKakCommand(msg, ctx) == Ok([])
  {
  }

  /** `expand` converts `cmd["args"]["line"]` with `int()` and expands that
      line; a line `int()` rejects raises its error and nothing is expanded. */
  lemma ExpandRequest(msg: Value, ctx: Context, args: Value, line: Value)
    requires Get(msg, "cmd") == Ok(Str("expand")) && Get(msg, "args") == Ok(args) && Get(args, "line") == Ok(line)
    ensures PyInt.ToInt(line).Ok? ==> HandleKakCommand(msg, ctx) == Ok([Expand(PyInt.ToInt(line).value)])
    ensures PyInt.ToInt(line).Err? ==> HandleKakCommand(msg, ctx) == Err(PyInt.ToInt(line).error)
  {
  }

  /** A line number the editor renders in decimal expands exactly that line. */
  lemma ExpandRenderedLine(msg: Value, ctx: Context, args: Value, i: int)
    requires Get(msg, "cmd") == Ok(Str("expand")) && Get(msg, "args") == Ok(args)
    requires Get(args, "line") == Ok(Str(PyInt.IntToString(i)))
    ensures HandleKakCommand(msg, ctx) == Ok([Expand(i)])
  {
    PyInt.ToIntRoundTrip(i);
    ExpandRequest(msg, ctx, args, Str(PyInt.IntToString(i)));
  }

  /** No editor command ends the session. */
  lemma CommandsNeverQuit(msg: Value, ctx: Context)
    ensures HandleKakCommand(msg, ctx).Ok? ==> !Quits(HandleKakCommand(msg, ctx).value)
  {
  }

  // ---------------------------------------------------------------- the two loops

  /** Which loop is running: the adapter-message thread, or the editor
      command loop at the end of `start`. */
  datatype Loop = AdapterMessages(f: Formatter) | EditorCommands(ctx: Context)

  function Handle(loop: Loop, msg: Value): Result<seq<Action>, Exc> {
    match loop
    case AdapterMessages(f) => HandleAdapterMessage(msg, f)
    case EditorCommands(ctx) => HandleKakCommand(msg, ctx)
  }

  /** Why a loop stopped: the stream delivered its `None` sentinel, the
      given input ran out (the real loop would block), a handler quit, or a
      handler raised. */
  datatype Halt = Closed | Exhausted | Quit | Raised(error: Exc)

  datatype RunResult = RunResult(actions: seq<Action>, consumed: nat, halt: Halt)

  /** A loop over a finite inbox: each message is handled in arrival order
      until the sentinel, a quit or an exception. */
  function Run(loop: Loop, inbox: seq<Option<Value>>): (r: RunResult)
    ensures r.consumed <= |inbox|
    ensures r.halt == Exhausted ==> r.consumed == |inbox| && None !in inbox
    ensures r.halt != Exhausted ==> 0 < r.consumed
    ensures r.halt == Closed ==> inbox[r.consumed - 1] == None
    ensures forall j :: 0 <= j < r.consumed - 1 ==> inbox[j].Some?
    decreases |inbox|
  {
    if |inbox| == 0 then RunResult([], 0, Exhausted)
    else match inbox[0]
      case None => RunResult([], 1, Closed)
      case Some(msg) =>
        match Handle(loop, msg)
        case Err(e) => RunResult([], 1, Raised(e))
        case Ok(acts) =>
          if Quits(acts) then RunResult(acts, 1, Quit)
          else
            var rest := Run(loop, inbox[1..]);
            assert forall j :: 1 <= j < |inbox| ==> inbox[j] == inbox[1..][j - 1];
            assert inbox == [inbox[0]] + inbox[1..];
            RunResult(acts + rest.actions, 1 + rest.consumed, rest.halt)
  }

  /** The messages a loop handles without stopping, and what they cause. */
  predicate Handled(loop: Loop, msgs: seq<Option<Value>>) {
    forall j :: 0 <= j < |msgs| ==> HandledOne(loop, msgs[j])
  }

  /** A message the loop handles and goes on after. */
  predicate HandledOne(loop: Loop, m: Option<Value>) {
    m.Some? && Handle(loop, m.value).Ok? && !Quits(Handle(loop, m.value).value)
  }

  function Reactions(loop: Loop, msgs: seq<Option<Value>>): seq<Action>
    requires Handled(loop, msgs)
    decreases |msgs|
  {
    if |msgs| == 0 then [] else Handle(loop, msgs[0].value).value + Reactions(loop, msgs[1..])
  }

  lemma HandledCons(loop: Loop, msgs: seq<Option<Value>>)
    requires msgs != [] && HandledOne(loop, msgs[0]) && Handled(loop, msgs[1..])
    ensures Handled(loop, msgs)
  {
    forall j | 1 <= j < |msgs| ensures msgs[j] == msgs[1..][j - 1] { }
  }

  /** A loop stops only at the last message it read: every message before
      it was handled without raising or quitting, and so was every message
      of an inbox it ran out of. */
  lemma {:induction false} RunHandledPrefix(loop: Loop, inbox: seq<Option<Value>>)
    ensures 0 < Run(loop, inbox).consumed ==> Handled(loop, inbox[..Run(loop, inbox).consumed - 1])
    ensures Run(loop, inbox).halt == Exhausted ==> Handled(loop, inbox)
    decreases |inbox|
  {
    if |inbox| > 0 && HandledOne(loop, inbox[0]) {
      var rest := Run(loop, inbox[1..]);
      RunHandledPrefix(loop, inbox[1..]);
      assert Run(loop, inbox).consumed - 1 == rest.consumed && Run(loop, inbox).halt == rest.halt;
      var pre := inbox[..rest.consumed];
      if rest.consumed > 0 {
        assert pre[1..] == inbox[1..][..rest.consumed - 1];
        HandledCons(loop, pre);
      }
      if rest.halt == Exhausted {
        HandledCons(loop, inbox);
      }
    }
  }

  /** An exception or a quit comes from the last message read. */
  lemma {:induction false} RunLastMessage(loop: Loop, inbox: seq<Option<Value>>)
    ensures var r := Run(loop, inbox);
      && (r.halt.Raised? ==> inbox[r.consumed - 1].Some?
                             && Handle(loop, inbox[r.consumed - 1].value) == Err(r.halt.error))
      && (r.halt == Halt.Quit ==> inbox[r.consumed - 1].Some?
                                  && Handle(loop, inbox[r.consumed - 1].value).Ok?
                                  && Quits(Handle(loop, inbox[r.consumed - 1].value).value))
    decreases |inbox|
  {
    if |inbox| > 0 && HandledOne(loop, inbox[0]) {
      var rest := Run(loop, inbox[1..]);
      var acts := Handle(loop, inbox[0].value).value;
      assert Run(loop, inbox) == RunResult(acts + rest.actions, 1 + rest.consumed, rest.halt);
      if rest.halt.Raised? || rest.halt == Halt.Quit {
        RunLastMessage(loop, inbox[1..]);
        assert inbox[rest.consumed] == inbox[1..][rest.consumed - 1];
      }
    }
  }

  /** Messages are handled in arrival order: the reactions to a prefix come
      first, then whatever the rest of the inbox causes. */
  lemma {:induction false} RunInOrder(loop: Loop, pre: seq<Option<Value>>, rest: seq<Option<Value>>)
    requires Handled(loop, pre)
    ensures var r := Run(loop, rest);
      Run(loop, pre + rest) == RunResult(Reactions(loop, pre) + r.actions, |pre| + r.consumed, r.halt)
    decreases |pre|
  {
    if |pre| > 0 {
      var s := pre + rest;
      assert s[0] == pre[0];
      assert s[1..] == pre[1..] + rest;
      assert Handled(loop, pre[1..]) by {
        forall j | 0 <= j < |pre[1..]| ensures pre[1..][j] == pre[j + 1] { }
      }
      var acts := Handle(loop, pre[0].value).value;
      assert Run(loop, s) == RunResult(acts + Run(loop, s[1..]).actions, 1 + Run(loop, s[1..]).consumed, Run(loop, s[1..]).halt);
      RunInOrder(loop, pre[1..], rest);
      var r := Run(loop, rest);
      assert Run(loop, s[1..]) == RunResult(Reactions(loop, pre[1..]) + r.actions, |pre| - 1 + r.consumed, r.halt);
      assert Reactions(loop, pre) == acts + Reactions(loop, pre[1..]);
      ConcatAssoc(acts, Reactions(loop, pre[1..]), r.actions);
    } else {
      assert pre + rest == rest;
    }
  }

  lemma ConcatAssoc<T>(a: seq<T>, b: seq<T>, c: seq<T>)
    ensures a + (b + c) == (a + b) + c
  {
  }

  /** Nothing after the first sentinel is ever read. */
  lemma {:induction false} RunStopsAtSentinel(loop: Loop, pre: seq<Option<Value>>, post: seq<Option<Value>>)
    ensures Run(loop, pre + [None] + post) == Run(loop, pre + [None])
    decreases |pre|
  {
    if |pre| == 0 {
      assert (pre + [None] + post)[0] == None && (pre + [None])[0] == None;
    } else {
      assert (pre + [None] + post)[0] == pre[0] == (pre + [None])[0];
      assert (pre + [None] + post)[1..] == pre[1..] + [None] + post;
      assert (pre + [None])[1..] == pre[1..] + [None];
      RunStopsAtSentinel(loop, pre[1..], post);
    }
  }
}
