/** The two document shapes the loaders validate against (src/config.py:9-15),
    stated as predicates over parsed values:

      project:  {"configurations": {str: {"adapter": str, "launch_args": {str: object}}}}
      adapters: {"adapters": {str: {Optional("name"): str, "executable": str, "args": [str]}}}

    A dict schema admits no key it does not name, and every key it names
    without `Optional` must be present. */
module Schemas {
  import opened Values

  /** A mapping whose keys are all strings (`{str: ...}`). */
  predicate StrKeyed(v: Value) {
    IsMapping(v) && forall i :: 0 <= i < |v.entries| ==> v.entries[i].0.Str?
  }

  /** A record with exactly the `required` keys and possibly some of the
      `optional` ones. */
  predicate Fields(v: Value, required: set<string>, optional: set<string>) {
    && StrKeyed(v)
    && (forall i :: 0 <= i < |v.entries| ==> v.entries[i].0.s in required + optional)
    && (forall k :: k in required ==> HasKey(v.entries, Str(k)))
  }

  /** The value stored under a field known to be present. */
  function Field(v: Value, key: string): Value
    requires v.Dict? && HasKey(v.entries, Str(key))
  {
    Lookup(v.entries, Str(key)).value
  }

  /** `[str]` */
  predicate IsStrList(v: Value) {
    v.List? && forall i :: 0 <= i < |v.items| ==> v.items[i].Str?
  }

  /** One launch configuration: `{"adapter": str, "launch_args": {str: object}}`. */
  predicate LaunchConfigShape(v: Value) {
    && Fields(v, {"adapter", "launch_args"}, {})
    && Field(v, "adapter").Str?
    && StrKeyed(Field(v, "launch_args"))
  }

  /** The project descriptor, `.kak-debug.yaml`. */
  predicate ProjectShape(v: Value) {
    && Fields(v, {"configurations"}, {})
    && StrKeyed(Field(v, "configurations"))
    && forall i :: 0 <= i < |Field(v, "configurations").entries| ==>
         LaunchConfigShape(Field(v, "configurations").entries[i].1)
  }

  /** One adapter: `{Optional("name"): str, "executable": str, "args": [str]}`. */
  predicate AdapterRecordShape(v: Value) {
    && Fields(v, {"executable", "args"}, {"name"})
    && Field(v, "executable").Str?
    && IsStrList(Field(v, "args"))
    && (HasKey(v.entries, Str("name")) ==> Field(v, "name").Str?)
  }

  /** The adapter registry, `adapters.yaml`. */
  predicate AdapterShape(v: Value) {
    && Fields(v, {"adapters"}, {})
    && StrKeyed(Field(v, "adapters"))
    && forall i :: 0 <= i < |Field(v, "adapters").entries| ==>
         AdapterRecordShape(Field(v, "adapters").entries[i].1)
  }

  /** The strings of a `[str]` list. */
  function Strings(v: Value): (r: seq<string>)
    requires IsStrList(v)
    ensures |r| == |v.items|
    ensures forall i :: 0 <= i < |r| ==> v.items[i] == Str(r[i])
  {
    seq(|v.items|, i requires 0 <= i < |v.items| => v.items[i].s)
  }

  /** A registry with one adapter and no optional name is accepted. */
  lemma MinimalRegistryAccepted()
    ensures AdapterShape(Dict([(Str("adapters"), Dict([(Str("lldb"),
              Dict([(Str("executable"), Str("lldb-vscode")), (Str("args"), List([]))]))]))]))
  {
    var r := Dict([(Str("executable"), Str("lldb-vscode")), (Str("args"), List([]))]);
    MinimalRecordAccepted();
    var a := Dict([(Str("lldb"), r)]);
    assert StrKeyed(a);
    var top := Dict([(Str("adapters"), a)]);
    assert top.entries[0].0 == Str("adapters");
    assert Field(top, "adapters") == a;
  }

  /** An adapter record with only the required fields is accepted. */
  lemma MinimalRecordAccepted()
    ensures AdapterRecordShape(Dict([(Str("executable"), Str("lldb-vscode")), (Str("args"), List([]))]))
  {
    var r := Dict([(Str("executable"), Str("lldb-vscode")), (Str("args"), List([]))]);
    assert r.entries[0].0 == Str("executable") && r.entries[1].0 == Str("args");
    assert Fields(r, {"executable", "args"}, {"name"});
  }

  /** The optional `name` is accepted when it is a string. */
  lemma NamedAdapterAccepted()
    ensures AdapterRecordShape(Dict([(Str("name"), Str("py")), (Str("executable"), Str("python")),
              (Str("args"), List([Str("-m")]))]))
  {
    var r := Dict([(Str("name"), Str("py")), (Str("executable"), Str("python")), (Str("args"), List([Str("-m")]))]);
    assert r.entries[0].0 == Str("name") && r.entries[1].0 == Str("executable");
    assert r.entries[2].0 == Str("args");
    assert Fields(r, {"executable", "args"}, {"name"});
  }

  /** An `args` entry that is not a string is rejected. */
  lemma NonStringArgRejected()
    ensures !AdapterRecordShape(Dict([(Str("executable"), Str("x")), (Str("args"), List([Int(1)]))]))
  {
    var bad := Dict([(Str("executable"), Str("x")), (Str("args"), List([Int(1)]))]);
    assert bad.entries[1] == (Str("args"), List([Int(1)]));
    assert Field(bad, "args") == List([Int(1)]);
    assert Field(bad, "args").items[0] == Int(1);
    assert !IsStrList(Field(bad, "args"));
  }

  /** A launch configuration with both of its fields is accepted. */
  lemma LaunchConfigAccepted()
    ensures LaunchConfigShape(Dict([(Str("adapter"), Str("lldb")), (Str("launch_args"), Dict([(Str("program"), Null)]))]))
  {
    var good := Dict([(Str("adapter"), Str("lldb")), (Str("launch_args"), Dict([(Str("program"), Null)]))]);
    assert good.entries[0].0 == Str("adapter") && good.entries[1].0 == Str("launch_args");
    assert Field(good, "launch_args").entries[0].0 == Str("program");
  }

  /** A launch configuration without `launch_args` is rejected. */
  lemma LaunchConfigMissingFieldRejected()
    ensures !LaunchConfigShape(Dict([(Str("adapter"), Str("lldb"))]))
  {
    var missing := Dict([(Str("adapter"), Str("lldb"))]);
    assert !HasKey(missing.entries, Str("launch_args"));
  }

  /** A launch configuration with a key the schema does not name is
      rejected. */
  lemma LaunchConfigExtraFieldRejected()
    ensures !LaunchConfigShape(Dict([(Str("adapter"), Str("lldb")), (Str("launch_args"), Dict([])), (Str("extra"), Null)]))
  {
    var extra := Dict([(Str("adapter"), Str("lldb")), (Str("launch_args"), Dict([])), (Str("extra"), Null)]);
    assert extra.entries[2].0.s !in {"adapter", "launch_args"};
  }
}
