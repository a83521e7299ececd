/** JSON-like Python values and the parts of Python's dictionary, list and
    string semantics the bridge relies on. A dictionary is an association
    list in insertion order, as Python keeps it; the operations that build
    dictionaries keep its keys distinct. Operations that Python can fail
    (`d[k]`, `k in x`, `x.get`, iteration, `len`) return a `Result` that
    carries the Python exception, so that crashes stay observable. */
module Json {
  import opened Wrappers
  import opened Text

  datatype Value =
    | Null
    | Bool(b: bool)
    | Int(i: int)
    | Float(text: string)         // a Python float, kept as its literal text
    | Str(s: string)
    | List(items: seq<Value>)
    | Obj(fields: seq<(string, Value)>)

  type Fields = seq<(string, Value)>

  /** The Python exceptions that the modelled code can raise itself. */
  datatype PyError =
    | TypeError(msg: string)
    | KeyError(key: Value)
    | IndexError(msg: string)
    | AttributeError(msg: string)
    | ValueError(msg: string)
    | ValidationError(msg: string)   // pydantic's, raised by a record constructor

  /** `str(e)`: a KeyError shows the repr of its key, the others their message. */
  function ErrorMessage(e: PyError): string {
    match e
    case TypeError(m) => m
    case KeyError(k) => Repr(k)
    case IndexError(m) => m
    case AttributeError(m) => m
    case ValueError(m) => m
    case ValidationError(m) => m
  }

  /** `type(e).__name__`. */
  function ErrorName(e: PyError): string {
    match e
    case TypeError(_) => "TypeError"
    case KeyError(_) => "KeyError"
    case IndexError(_) => "IndexError"
    case AttributeError(_) => "AttributeError"
    case ValueError(_) => "ValueError"
    case ValidationError(_) => "ValidationError"
  }

  datatype Result<+T> = Ok(value: T) | Err(error: PyError) {
    predicate IsFailure() { Err? }
    function PropagateFailure<U>(): Result<U> requires Err? { Err(error) }
    function Extract(): T requires Ok? { value }
  }

  /** What `json.loads` does with a string: a value, or a JSONDecodeError
      with its message. The decoder itself is a parameter of every member
      that parses. */
  datatype Decoded = Parsed(value: Value) | DecodeError(msg: string)

  /** Python truthiness. */
  predicate Truthy(v: Value) {
    match v
    case Null => false
    case Bool(b) => b
    case Int(i) => i != 0
    case Float(t) => t != "0.0" && t != "-0.0" && t != "0"
    case Str(s) => s != ""
    case List(items) => items != []
    case Obj(fields) => fields != []
  }

  /** `type(v).__name__`. */
  function TypeName(v: Value): string {
    match v
    case Null => "NoneType"
    case Bool(_) => "bool"
    case Int(_) => "int"
    case Float(_) => "float"
    case Str(_) => "str"
    case List(_) => "list"
    case Obj(_) => "dict"
  }

  // ---------------------------------------------------------------------
  // Dictionaries as association lists

  function Keys(fields: Fields): (ks: seq<string>)
    ensures |ks| == |fields| && forall i :: 0 <= i < |fields| ==> ks[i] == fields[i].0
  {
    if fields == [] then [] else [fields[0].0] + Keys(fields[1..])
  }

  predicate HasKey(fields: Fields, k: string) {
    k in Keys(fields)
  }

  predicate UniqueKeys(fields: Fields) {
    forall i, j :: 0 <= i < j < |fields| ==> fields[i].0 != fields[j].0
  }

  /** `d.get(k)`: the value stored under `k`. */
  function Lookup(fields: Fields, k: string): (r: Option<Value>)
    ensures r.Some? <==> HasKey(fields, k)
  {
    if fields == [] then None
    else if fields[0].0 == k then Some(fields[0].1)
    else Lookup(fields[1..], k)
  }

  /** `d.get(k, default)` on a dictionary. */
  function GetOr(fields: Fields, k: string, default: Value): Value {
    match Lookup(fields, k)
    case Some(v) => v
    case None => default
  }

  /** `d[k] = v`: replaces the value of an existing key in place, or appends. */
  function Put(fields: Fields, k: string, v: Value): (r: Fields)
    ensures HasKey(fields, k) ==> |r| == |fields|
    ensures !HasKey(fields, k) ==> r == fields + [(k, v)]
  {
    if fields == [] then [(k, v)]
    else if fields[0].0 == k then [(k, v)] + fields[1..]
    else [fields[0]] + Put(fields[1..], k, v)
  }

  /** After `d[k] = v`, `d[k]` is `v` and every other key reads as before. */
  lemma {:induction false} PutLookup(fields: Fields, k: string, v: Value, k2: string)
    ensures Lookup(Put(fields, k, v), k2) == if k2 == k then Some(v) else Lookup(fields, k2)
  {
    if fields != [] && fields[0].0 != k {
      PutLookup(fields[1..], k, v, k2);
    }
  }

  /** `d[k] = v` keeps the keys of a dictionary distinct. */
  lemma {:induction false} PutUnique(fields: Fields, k: string, v: Value)
    requires UniqueKeys(fields)
    ensures UniqueKeys(Put(fields, k, v))
    ensures Keys(Put(fields, k, v)) == if HasKey(fields, k) then Keys(fields) else Keys(fields) + [k]
  {
    if fields != [] && fields[0].0 != k {
      PutUnique(fields[1..], k, v);
      var r := Put(fields, k, v);
      assert r == [fields[0]] + Put(fields[1..], k, v);
      assert Keys(r) == [fields[0].0] + Keys(Put(fields[1..], k, v));
      forall j | 0 < j < |r| ensures r[0].0 != r[j].0 {
        assert r[j].0 == Keys(r)[j];
        assert Keys(r)[j] in Keys(Put(fields[1..], k, v));
      }
    }
  }

  /** Looking a key up in two concatenated dictionaries finds the first one's entry first. */
  lemma {:induction false} LookupAppend(a: Fields, b: Fields, k: string)
    ensures Lookup(a + b, k) == if HasKey(a, k) then Lookup(a, k) else Lookup(b, k)
  {
    if a != [] {
      assert (a + b)[1..] == a[1..] + b;
      LookupAppend(a[1..], b, k);
    } else {
      assert a + b == b;
    }
  }

  /** `d.update(other)`, taking the entries of `other` in order. */
  function Update(fields: Fields, other: Fields): Fields
    decreases |other|
  {
    if other == [] then fields else Update(Put(fields, other[0].0, other[0].1), other[1..])
  }

  /** After `d.update(other)`, a key of `other` reads as in `other` (whose
      keys are distinct), every other key as before. */
  lemma {:induction false} UpdateLookup(fields: Fields, other: Fields, k: string)
    requires UniqueKeys(other)
    ensures Lookup(Update(fields, other), k) == if HasKey(other, k) then Lookup(other, k) else Lookup(fields, k)
    decreases |other|
  {
    if other != [] {
      var head := other[0];
      var rest := other[1..];
      assert UniqueKeys(rest);
      UpdateLookup(Put(fields, head.0, head.1), rest, k);
      PutLookup(fields, head.0, head.1, k);
      assert Keys(other) == [head.0] + Keys(rest);
      if k == head.0 {
        forall j | 0 <= j < |rest| ensures Keys(rest)[j] != k {
          assert rest[j] == other[j + 1];
        }
      }
    }
  }

  // ---------------------------------------------------------------------
  // Python operations on arbitrary values

  /** `v[k] = x` for a string key: a dictionary gets the entry, a list or
      any other value raises TypeError. */
  function SetItem(v: Value, k: string, x: Value): (r: Result<Fields>)
    ensures r.Ok? <==> v.Obj?
    ensures r.Ok? ==> r.value == Put(v.fields, k, x)
  {
    match v
    case Obj(fields) => Ok(Put(fields, k, x))
    case List(_) => Err(TypeError("list indices must be integers or slices, not str"))
    case _ => Err(TypeError("'" + TypeName(v) + "' object does not support item assignment"))
  }

  function NotSubscriptable(v: Value): PyError {
    TypeError("'" + TypeName(v) + "' object is not subscriptable")
  }

  /** `v[k]` with a string key. */
  function Subscript(v: Value, k: string): (r: Result<Value>)
    ensures r.Ok? <==> v.Obj? && HasKey(v.fields, k)
    ensures r.Ok? ==> Lookup(v.fields, k) == Some(r.value)
  {
    match v
    case Obj(fields) =>
      (match Lookup(fields, k)
       case Some(x) => Ok(x)
       case None => Err(KeyError(Str(k))))
    case List(_) => Err(TypeError("list indices must be integers or slices, not str"))
    case Str(_) => Err(TypeError("string indices must be integers, not 'str'"))
    case _ => Err(NotSubscriptable(v))
  }

  /** `v[0]`. */
  function Index0(v: Value): (r: Result<Value>)
    ensures v.List? && v.items != [] ==> r == Ok(v.items[0])
    ensures r.Ok? <==> (v.List? && v.items != []) || (v.Str? && v.s != [])
  {
    match v
    case List(items) => if items == [] then Err(IndexError("list index out of range")) else Ok(items[0])
    case Str(s) => if s == [] then Err(IndexError("string index out of range")) else Ok(Str([s[0]]))
    case Obj(_) => Err(KeyError(Int(0)))
    case _ => Err(NotSubscriptable(v))
  }

  /** `v.get(k, default)`: only a dictionary has it. */
  function Get(v: Value, k: string, default: Value): (r: Result<Value>)
    ensures r.Ok? <==> v.Obj?
    ensures v.Obj? ==> r.value == GetOr(v.fields, k, default)
  {
    match v
    case Obj(fields) => Ok(GetOr(fields, k, default))
    case _ => Err(AttributeError("'" + TypeName(v) + "' object has no attribute 'get'"))
  }

  /** `k in v` with a string `k`: key test on a dictionary, membership in a
      list, substring test on a string, TypeError otherwise. */
  function In(v: Value, k: string): (r: Result<bool>)
    ensures v.Obj? ==> r == Ok(HasKey(v.fields, k))
    ensures r.Err? <==> !(v.Obj? || v.List? || v.Str?)
  {
    match v
    case Obj(fields) => Ok(HasKey(fields, k))
    case List(items) => Ok(Str(k) in items)
    case Str(s) => Ok(Contains(s, k))
    case _ => Err(TypeError("argument of type '" + TypeName(v) + "' is not iterable"))
  }

  /** What `for x in v` visits: list items, dictionary keys, string characters. */
  function Iterate(v: Value): (r: Result<seq<Value>>)
    ensures v.List? ==> r == Ok(v.items)
    ensures r.Ok? <==> v.List? || v.Obj? || v.Str?
    ensures r.Ok? ==> Len(v) == Ok(|r.value|)
  {
    match v
    case List(items) => Ok(items)
    case Obj(fields) => Ok(seq(|fields|, i requires 0 <= i < |fields| => Str(fields[i].0)))
    case Str(s) => Ok(seq(|s|, i requires 0 <= i < |s| => Str([s[i]])))
    case _ => Err(TypeError("'" + TypeName(v) + "' object is not iterable"))
  }

  /** `len(v)`. */
  function Len(v: Value): Result<nat> {
    match v
    case List(items) => Ok(|items|)
    case Obj(fields) => Ok(|fields|)
    case Str(s) => Ok(|s|)
    case _ => Err(TypeError("object of type '" + TypeName(v) + "' has no len()"))
  }

  /** `repr(v)`; strings are shown in single quotes without escaping. */
  function Repr(v: Value): string
    decreases v
  {
    match v
    case Null => "None"
    case Bool(b) => if b then "True" else "False"
    case Int(i) => IntToString(i)
    case Float(t) => t
    case Str(s) => "'" + s + "'"
    case List(items) =>
      "[" + Join(seq(|items|, i requires 0 <= i < |items| => Repr(items[i])), ", ") + "]"
    case Obj(fields) =>
      "{" + Join(seq(|fields|, i requires 0 <= i < |fields| =>
                       "'" + fields[i].0 + "': " + Repr(fields[i].1)), ", ") + "}"
  }

  /** `str(v)`: a string is itself, anything else its repr. */
  function Show(v: Value): (r: string)
    ensures v.Str? ==> r == v.s
  {
    if v.Str? then v.s else Repr(v)
  }
  // ---------------------------------------------------------------------
  // A fallible step applied along a list

  /** Applying `f` to each element in order, stopping at the first failure,
      as a Python loop that appends each result and lets the first
      exception propagate. */
  function MapResult<A, B>(xs: seq<A>, f: A -> Result<B>): (r: Result<seq<B>>)
    ensures r.Ok? ==> |r.value| == |xs| && forall i :: 0 <= i < |xs| ==> f(xs[i]) == Ok(r.value[i])
    decreases |xs|
  {
    if xs == [] then Ok([])
    else
      var init :- MapResult(xs[..|xs| - 1], f);
      var last :- f(xs[|xs| - 1]);
      assert forall i :: 0 <= i < |xs| - 1 ==> xs[..|xs| - 1][i] == xs[i];
      Ok(init + [last])
  }

  /** The result is a list exactly when every step succeeds. */
  lemma {:induction false} MapResultOk<A, B>(xs: seq<A>, f: A -> Result<B>)
    ensures MapResult(xs, f).Ok? <==> forall i :: 0 <= i < |xs| ==> f(xs[i]).Ok?
    decreases |xs|
  {
    if xs != [] {
      var init := xs[..|xs| - 1];
      MapResultOk(init, f);
      assert forall i :: 0 <= i < |init| ==> init[i] == xs[i];
    }
  }

  /** A failure is the error of the first element whose step fails. */
  lemma {:induction false} MapResultFirstError<A, B>(xs: seq<A>, f: A -> Result<B>)
    requires MapResult(xs, f).Err?
    ensures exists i :: 0 <= i < |xs| && f(xs[i]) == Err(MapResult(xs, f).error)
                        && forall j :: 0 <= j < i ==> f(xs[j]).Ok?
    decreases |xs|
  {
    var init := xs[..|xs| - 1];
    assert forall i :: 0 <= i < |init| ==> init[i] == xs[i];
    if MapResult(init, f).Err? {
      MapResultFirstError(init, f);
      var i :| 0 <= i < |init| && f(init[i]) == Err(MapResult(init, f).error)
               && forall j :: 0 <= j < i ==> f(init[j]).Ok?;
      assert f(xs[i]) == Err(MapResult(xs, f).error);
    } else {
      var k := |xs| - 1;
      assert forall j :: 0 <= j < k ==> f(xs[j]) == Ok(MapResult(init, f).value[j]);
      assert f(xs[k]) == Err(MapResult(xs, f).error);
    }
  }

  /** Once a prefix fails, the whole list fails with the same error. */
  lemma {:induction false} MapResultFailedPrefix<A, B>(xs: seq<A>, f: A -> Result<B>, k: nat)
    requires k <= |xs| && MapResult(xs[..k], f).Err?
    ensures MapResult(xs, f) == MapResult(xs[..k], f)
    decreases |xs| - k
  {
    if k < |xs| {
      var init := xs[..|xs| - 1];
      assert init[..k] == xs[..k];
      MapResultFailedPrefix(init, f, k);
    } else {
      assert xs[..k] == xs;
    }
  }
}
