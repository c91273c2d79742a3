/** `get_adapter_config` and `get_project_config` (src/config.py:18-97).

    Reading the file, `yaml.safe_load` and the environment lookups are
    parameters: `yaml` maps a text to `Some(document)` or to `None` where
    the parser raises `yaml.YAMLError`. */
module Loaders {
  import opened Values
  import opened Substitution
  import opened Schemas
  import opened Discovery

  datatype Kind = ProjectFile | AdapterRegistry

  predicate Conforms(kind: Kind, v: Value) {
    match kind
    case ProjectFile => ProjectShape(v)
    case AdapterRegistry => AdapterShape(v)
  }

  /** Substitute, parse, validate: both loaders share these steps, and each
      failure yields `None` rather than an exception. */
  function Load(kind: Kind, text: string, env: Env, yaml: string -> Option<Value>): (r: Option<Value>)
    ensures r.Some? ==> Conforms(kind, r.value)
    ensures r.Some? ==> yaml(Substitute(text, env)) == r
    ensures r.None? <==> yaml(Substitute(text, env)).None? || !Conforms(kind, yaml(Substitute(text, env)).value)
  {
    match yaml(Substitute(text, env))
    case None => None
    case Some(doc) => if Conforms(kind, doc) then Some(doc) else None
  }

  /** `get_adapter_config`, given the text of whichever `adapters.yaml` was
      chosen. */
  function GetAdapterConfig(text: string, env: Env, yaml: string -> Option<Value>): (r: Option<Value>)
    ensures r.Some? ==> AdapterShape(r.value) && yaml(Substitute(text, env)) == r
    ensures r.None? <==> yaml(Substitute(text, env)).None? || !AdapterShape(yaml(Substitute(text, env)).value)
  {
    Load(AdapterRegistry, text, env, yaml)
  }

  /** The project configuration a session starts from: the file of the
      nearest non-root directory holding one, loaded like the registry. */
  function ProjectConfigOf(cwd: Path, files: map<Path, string>, env: Env, yaml: string -> Option<Value>): (r: Option<Value>)
    ensures r.Some? ==> ProjectShape(r.value)
  {
    match ProjectDir(cwd, files.Keys)
    case None => None
    case Some(dir) => Load(ProjectFile, files[dir], env, yaml)
  }

  /** `get_project_config`: `files` maps each directory holding a
      `.kak-debug.yaml` to that file's text. */
  method GetProjectConfig(cwd: Path, files: map<Path, string>, env: Env, yaml: string -> Option<Value>)
    returns (r: Option<Value>)
    ensures r == ProjectConfigOf(cwd, files, env, yaml)
    ensures r.Some? ==> ProjectShape(r.value)
    ensures r.Some? ==> exists dir :: dir in files && AncestorOrSelf(dir, cwd) && !IsRoot(dir)
                                      && yaml(Substitute(files[dir], env)) == r
    ensures (forall k :: 0 < k <= |cwd| ==> cwd[..k] !in files) ==> r.None?
  {
    var dir := FindProjectDir(cwd, files.Keys);
    if dir.None? {
      return None;
    }
    var text := files[dir.value];
    r := Load(ProjectFile, text, env, yaml);
  }
}
