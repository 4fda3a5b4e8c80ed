/** Decoded JSON documents as Python's `json` module hands them over (objects become
    dicts, arrays become lists), with the few Python operations main.py applies to them. */
module Json {
  import opened Wrappers

  datatype Value =
    | Null
    | Bool(b: bool)
    | Num(n: real)
    | Str(s: string)
    | Arr(items: seq<Value>)
    | Obj(fields: map<string, Value>)

  /** `v[key]` in Python: only a dict holding the key answers; anything else raises
      (KeyError on a dict without the key, TypeError on a list, string, number or None). */
  function Get(v: Value, key: string): (r: Option<Value>)
    ensures v.Obj? && key in v.fields ==> r == Some(v.fields[key])
    ensures !v.Obj? ==> r == None
    ensures v.Obj? && key !in v.fields ==> r == None
  {
    if v.Obj? && key in v.fields then Some(v.fields[key]) else None
  }

  /** Nested subscripting `v[p0][p1]...`, failing as soon as one step fails. */
  function At(v: Value, path: seq<string>): Option<Value>
    decreases |path|
  {
    if path == [] then Some(v)
    else
      match Get(v, path[0])
      case None => None
      case Some(child) => At(child, path[1..])
  }

  /** Following a path and then one more key is subscripting once more: a path lookup
      fails exactly when some step along it fails. */
  lemma {:induction false} AtAppend(v: Value, path: seq<string>, key: string)
    ensures At(v, path + [key]) == (match At(v, path) case None => None case Some(x) => Get(x, key))
    decreases |path|
  {
    if path == [] {
      assert [] + [key] == [key];
      assert [key][1..] == [];
    } else {
      assert (path + [key])[0] == path[0];
      assert (path + [key])[1..] == path[1..] + [key];
      match Get(v, path[0])
      case None =>
      case Some(child) => AtAppend(child, path[1..], key);
    }
  }

  /** The value Python's numeric comparisons see: numbers as themselves, True and False as 1 and 0.
      Strings, lists, dicts and None are not numbers and make `<=` against an int raise. */
  function AsNumber(v: Value): (r: Option<real>)
    ensures r.Some? <==> v.Num? || v.Bool?
    ensures v.Num? ==> r == Some(v.n)
    ensures v == Bool(true) ==> r == Some(1.0)
    ensures v == Bool(false) ==> r == Some(0.0)
  {
    match v
    case Num(n) => Some(n)
    case Bool(b) => Some(if b then 1.0 else 0.0)
    case _ => None
  }

  /** Python's `v == k` for an int `k`: numbers and booleans compare by value, every other type is unequal. */
  function EqualsInt(v: Value, k: int): (r: bool)
    ensures r <==> (v == Num(k as real) || (k == 1 && v == Bool(true)) || (k == 0 && v == Bool(false)))
  {
    match AsNumber(v)
    case Some(x) => x == k as real
    case None => false
  }

  /** Python's type name of a value that is not a number, as quoted in TypeError messages. */
  function TypeName(v: Value): (r: string)
    requires AsNumber(v).None?
    ensures r == "NoneType" <==> v.Null?
    ensures r == "str" <==> v.Str?
    ensures r == "list" <==> v.Arr?
    ensures r == "dict" <==> v.Obj?
  {
    match v
    case Null => "NoneType"
    case Str(_) => "str"
    case Arr(_) => "list"
    case Obj(_) => "dict"
  }
}
