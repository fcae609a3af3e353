/** Python values as the redfish Python plugin handles them: decoded JSON
    responses, configuration arguments and the nested stats dicts. */
module PyValues {
  import opened ConfigTree

  /** A Python object: None, bool, number, str, list or dict. A dict is the
      list of its entries in insertion order, as Python iterates it. */
  datatype Value =
    | PyNone
    | PyBool(b: bool)
    | PyNum(n: real)
    | PyStr(s: string)
    | PyList(items: seq<Value>)
    | PyDict(entries: seq<(Value, Value)>)

  /** The Python object collectd passes for a configuration argument. */
  function FromConfig(v: ConfigValue): Value
  {
    match v
    case StringValue(s) => PyStr(s)
    case NumberValue(n) => PyNum(n)
    case BooleanValue(b) => PyBool(b)
  }

  /** Objects that can be dict keys: lists and dicts cannot. */
  predicate Hashable(v: Value)
  {
    !v.PyList? && !v.PyDict?
  }

  /** `not v` */
  predicate Falsy(v: Value)
  {
    match v
    case PyNone => true
    case PyBool(b) => !b
    case PyNum(n) => n == 0.0
    case PyStr(s) => s == []
    case PyList(items) => items == []
    case PyDict(es) => es == []
  }

  /** d[k]; None where Python raises KeyError. */
  function Lookup(es: seq<(Value, Value)>, k: Value): Option<Value>
  {
    if es == [] then None
    else if es[0].0 == k then Some(es[0].1)
    else Lookup(es[1..], k)
  }

  /** d[k] = v: the value of an existing key is replaced where it stands, a
      new key goes last. Afterwards d[k] is v and every other key is unchanged. */
  function Store(es: seq<(Value, Value)>, k: Value, v: Value): (r: seq<(Value, Value)>)
    ensures Lookup(r, k) == Some(v)
    ensures forall k' :: k' != k ==> Lookup(r, k') == Lookup(es, k')
    ensures |r| == if Lookup(es, k).Some? then |es| else |es| + 1
    ensures Lookup(es, k).None? ==> r == es + [(k, v)]
    ensures Lookup(es, k).Some? ==> forall i :: 0 <= i < |es| ==> r[i].0 == es[i].0
    ensures Lookup(es, k).Some? ==> forall i :: 0 <= i < |es| && es[i].0 != k ==> r[i] == es[i]
  {
    if es == [] then [(k, v)]
    else if es[0].0 == k then [(k, v)] + es[1..]
    else [es[0]] + Store(es[1..], k, v)
  }

  /** What a `for` loop visits: a list's items, a dict's keys, a string's
      characters as strings; None where Python raises TypeError. */
  function Iterate(v: Value): Option<seq<Value>>
  {
    match v
    case PyList(items) => Some(items)
    case PyDict(es) => Some(seq(|es|, k requires 0 <= k < |es| => es[k].0))
    case PyStr(s) => Some(seq(|s|, k requires 0 <= k < |s| => PyStr([s[k]])))
    case _ => None
  }
}
