/** Decoded documents and messages as Python sees them, and Python's subscript
    operator on them. YAML documents, DAP messages and editor command records
    are all values of this one type. */
module Values {

  datatype Option<+T> = None | Some(value: T)

  datatype Result<+T, +E> = Ok(value: T) | Err(error: E) {
    predicate IsFailure() { Err? }

    function PropagateFailure<U>(): Result<U, E>
      requires Err?
    {
      Err(error)
    }

    function Extract(): T
      requires Ok?
    {
      value
    }
  }

  /** The Python exceptions the modelled code can raise. */
  datatype Exc = KeyError | TypeError | ValueError

  /** A parsed YAML or JSON value. A `Dict` keeps its entries in insertion
      order, as a Python dict does. */
  datatype Value =
    | Null
    | Bool(b: bool)
    | Int(i: int)
    | Str(s: string)
    | List(items: seq<Value>)
    | Dict(entries: seq<(Value, Value)>)

  /** Lists and dicts cannot be dict keys in Python. */
  predicate Hashable(v: Value) {
    !v.List? && !v.Dict?
  }

  predicate HasKey(entries: seq<(Value, Value)>, key: Value) {
    exists i :: 0 <= i < |entries| && entries[i].0 == key
  }

  /** Keys of a Python dict are pairwise distinct. */
  predicate DistinctKeys(entries: seq<(Value, Value)>) {
    forall i, j :: 0 <= i < j < |entries| ==> entries[i].0 != entries[j].0
  }

  predicate IsMapping(v: Value) {
    v.Dict? && DistinctKeys(v.entries)
  }

  /** The entry stored under `key`, if any. */
  function Lookup(entries: seq<(Value, Value)>, key: Value): (r: Option<Value>)
    ensures r.Some? <==> HasKey(entries, key)
    ensures r.Some? ==> exists i :: 0 <= i < |entries| && entries[i] == (key, r.value)
    ensures DistinctKeys(entries) ==>
      forall i :: 0 <= i < |entries| && entries[i].0 == key ==> r == Some(entries[i].1)
  {
    if |entries| == 0 then None
    else if entries[0].0 == key then Some(entries[0].1)
    else
      var r := Lookup(entries[1..], key);
      assert forall i :: 1 <= i < |entries| ==> entries[i] == entries[1..][i - 1];
      r
  }

  /** Python's `d[key]` where `d` is meant to be a mapping, the only way
      the modelled code subscripts: any non-dict raises `TypeError` (the
      integer indexing of lists and strings is not modelled). */
  function Subscript(d: Value, key: Value): (r: Result<Value, Exc>)
    ensures r.Ok? <==> d.Dict? && Hashable(key) && HasKey(d.entries, key)
    ensures r.Err? ==> (r.error == KeyError <==> d.Dict? && Hashable(key))
    ensures r.Err? && !(d.Dict? && Hashable(key)) ==> r.error == TypeError
    ensures r.Ok? ==> exists i :: 0 <= i < |d.entries| && d.entries[i] == (key, r.value)
  {
    if !d.Dict? || !Hashable(key) then Err(TypeError)
    else match Lookup(d.entries, key)
      case Some(x) => Ok(x)
      case None => Err(KeyError)
  }

  /** Python's `d["key"]` with a string literal as key. */
  function Get(d: Value, key: string): (r: Result<Value, Exc>)
    ensures r.Ok? <==> d.Dict? && HasKey(d.entries, Str(key))
    ensures r.Err? ==> (r.error == KeyError <==> d.Dict?)
    ensures !d.Dict? ==> r == Err(TypeError)
    ensures r.Ok? ==> d.Dict? && Lookup(d.entries, Str(key)) == Some(r.value)
  {
    Subscript(d, Str(key))
  }

  /** What `msg["key"]` yields is the value stored under the key. */
  lemma GetStored(d: Value, key: string)
    ensures Get(d, key).Ok? ==> exists i :: 0 <= i < |d.entries| && d.entries[i] == (Str(key), Get(d, key).value)
  {
  }
}
