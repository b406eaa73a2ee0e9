/**
 A model of an already-decoded base::Value tree and of the base::Value::Dict
 lookups that the rewards endpoints use on it.

 Numbers are opaque: a JSON integer is a 32-bit int, a JSON floating-point
 number is kept as its 64 raw bits and never computed with.
 */
module Json {
  import opened Wrappers

  newtype int32 = x: int | -0x8000_0000 <= x < 0x8000_0000

  /** The raw bits of an IEEE double; no arithmetic is done on them. */
  type DoubleBits = bv64

  datatype Value =
    | Null
    | Bool(b: bool)
    | Int(i: int32)
    | Double(bits: DoubleBits)
    | Str(s: string)
    | List(items: seq<Value>)
    | Dict(entries: map<string, Value>)

  /** What base::Value::GetDouble yields: the double itself, or the int it was converted from. */
  datatype Number = IntNumber(i: int32) | DoubleNumber(bits: DoubleBits)

  /** base::Value::GetIfDouble: both ints and doubles read as doubles. */
  function GetIfDouble(v: Value): (r: Option<Number>)
    ensures r.Some? <==> (v.Int? || v.Double?)
  {
    match v
    case Int(i) => Some(IntNumber(i))
    case Double(bits) => Some(DoubleNumber(bits))
    case _ => None
  }

  function GetIfInt(v: Value): Option<int32> {
    if v.Int? then Some(v.i) else None
  }

  function GetIfBool(v: Value): Option<bool> {
    if v.Bool? then Some(v.b) else None
  }

  function GetIfString(v: Value): Option<string> {
    if v.Str? then Some(v.s) else None
  }

  function GetIfList(v: Value): Option<seq<Value>> {
    if v.List? then Some(v.items) else None
  }

  function GetIfDict(v: Value): Option<map<string, Value>> {
    if v.Dict? then Some(v.entries) else None
  }

  /** base::Value::Dict::Find. */
  function Find(d: map<string, Value>, key: string): Option<Value> {
    if key in d then Some(d[key]) else None
  }

  function FindDouble(d: map<string, Value>, key: string): Option<Number> {
    if key in d then GetIfDouble(d[key]) else None
  }

  function FindInt(d: map<string, Value>, key: string): Option<int32> {
    if key in d then GetIfInt(d[key]) else None
  }

  function FindBool(d: map<string, Value>, key: string): Option<bool> {
    if key in d then GetIfBool(d[key]) else None
  }

  function FindString(d: map<string, Value>, key: string): Option<string> {
    if key in d then GetIfString(d[key]) else None
  }

  function FindList(d: map<string, Value>, key: string): Option<seq<Value>> {
    if key in d then GetIfList(d[key]) else None
  }

  function FindDict(d: map<string, Value>, key: string): Option<map<string, Value>> {
    if key in d then GetIfDict(d[key]) else None
  }

  /**
   base::Value::Dict::FindByDottedPath, with the dotted path already split at
   its dots: every component but the last must name a dictionary.
   */
  function FindByDottedPath(d: map<string, Value>, path: seq<string>): Option<Value>
    decreases |path|
  {
    if |path| == 0 then None
    else if |path| == 1 then Find(d, path[0])
    else match FindDict(d, path[0])
      case None => None
      case Some(inner) => FindByDottedPath(inner, path[1..])
  }

  function FindDoubleByDottedPath(d: map<string, Value>, path: seq<string>): Option<Number> {
    match FindByDottedPath(d, path)
    case Some(v) => GetIfDouble(v)
    case None => None
  }

  function FindListByDottedPath(d: map<string, Value>, path: seq<string>): Option<seq<Value>> {
    match FindByDottedPath(d, path)
    case Some(v) => GetIfList(v)
    case None => None
  }

  /** Looking up a two-component path is looking up the inner key in the outer key's dictionary. */
  lemma FindByTwoComponentPath(d: map<string, Value>, outer: string, inner: string)
    ensures FindByDottedPath(d, [outer, inner]) ==
              if outer in d && d[outer].Dict? then Find(d[outer].entries, inner) else None
  {
  }

  /**
   The list of what `pick` yields for the elements of `list`, in order; the
   elements for which it yields nothing are dropped. This is the shape of
   every "for each element, if it has the right type, push_back" loop.
   */
  function Collect<T>(list: seq<Value>, pick: Value -> Option<T>): (r: seq<T>)
    ensures |r| <= |list|
  {
    if list == [] then []
    else
      (match pick(list[0]) case Some(x) => [x] case None => []) + Collect(list[1..], pick)
  }

  /** Collecting distributes over concatenation: the order of the input is kept. */
  lemma {:induction false} CollectAppend<T>(a: seq<Value>, b: seq<Value>, pick: Value -> Option<T>)
    ensures Collect(a + b, pick) == Collect(a, pick) + Collect(b, pick)
    decreases |a|
  {
    if a == [] {
      assert a + b == b;
    } else {
      assert (a + b)[0] == a[0];
      assert (a + b)[1..] == a[1..] + b;
      CollectAppend(a[1..], b, pick);
    }
  }

  /** Appending one element appends what `pick` yields for it, and nothing else. */
  lemma CollectSnoc<T>(a: seq<Value>, v: Value, pick: Value -> Option<T>)
    ensures Collect(a + [v], pick) ==
              Collect(a, pick) + (match pick(v) case Some(x) => [x] case None => [])
  {
    CollectAppend(a, [v], pick);
    assert [v][1..] == [];
  }

  /** An element is collected exactly when some input element yields it. */
  lemma {:induction false} CollectMembers<T>(list: seq<Value>, pick: Value -> Option<T>, x: T)
    ensures x in Collect(list, pick) <==> exists i :: 0 <= i < |list| && pick(list[i]) == Some(x)
    decreases |list|
  {
    if list != [] {
      CollectMembers(list[1..], pick, x);
      if exists i :: 0 <= i < |list| && pick(list[i]) == Some(x) {
        var i :| 0 <= i < |list| && pick(list[i]) == Some(x);
        if i > 0 {
          assert pick(list[1..][i - 1]) == Some(x);
        }
      }
      if exists j :: 0 <= j < |list[1..]| && pick(list[1..][j]) == Some(x) {
        var j :| 0 <= j < |list[1..]| && pick(list[1..][j]) == Some(x);
        assert pick(list[j + 1]) == Some(x);
      }
    }
  }

  /** Nothing is collected exactly when no element yields anything. */
  lemma {:induction false} CollectEmpty<T>(list: seq<Value>, pick: Value -> Option<T>)
    ensures Collect(list, pick) == [] <==> forall i :: 0 <= i < |list| ==> pick(list[i]).None?
    decreases |list|
  {
    if list != [] {
      CollectEmpty(list[1..], pick);
      if forall i :: 0 <= i < |list| ==> pick(list[i]).None? {
        assert forall j :: 0 <= j < |list[1..]| ==> pick(list[1..][j]).None? by {
          forall j | 0 <= j < |list[1..]| ensures pick(list[1..][j]).None? {
            assert list[1..][j] == list[j + 1];
          }
        }
      }
    }
  }

  /** When every element yields something, nothing is dropped. */
  lemma {:induction false} CollectKeepsAll<T>(list: seq<Value>, pick: Value -> Option<T>)
    requires forall i :: 0 <= i < |list| ==> pick(list[i]).Some?
    ensures |Collect(list, pick)| == |list|
    ensures forall i :: 0 <= i < |list| ==> Collect(list, pick)[i] == pick(list[i]).value
    decreases |list|
  {
    if list != [] {
      assert forall j :: 0 <= j < |list[1..]| ==> pick(list[1..][j]).Some? by {
        forall j | 0 <= j < |list[1..]| ensures pick(list[1..][j]).Some? {
          assert list[1..][j] == list[j + 1];
        }
      }
      CollectKeepsAll(list[1..], pick);
    }
  }
}
