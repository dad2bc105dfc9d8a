/** The few Python runtime notions the handler model needs: the exceptions
    the modelled code can raise, a Result type for them, and the values a
    JSON-decoded invocation event can hold. */
module Py {

  datatype Option<+T> = None | Some(value: T)

  /** Exceptions the modelled code raises (and does not catch). */
  datatype PyError =
    | KeyError(key: string)   // `d[k]` with `k` absent
    | IndexError              // `xs[i]` out of range
    | ValueError              // `int(s)` on a string that is not a decimal literal
    | TypeError               // `len(v)` on a value that has no length
    | UnboundLocalError       // a name read after the assignment to it was skipped

  datatype Result<+T> = Ok(value: T) | Err(error: PyError)

  /** A value of a JSON-decoded event. Numbers are modelled as integers. */
  datatype Value =
    | Null
    | Bool(b: bool)
    | Int(i: int)
    | Str(s: string)
    | List(items: seq<Value>)
    | Object(fields: seq<(string, Value)>)

  /** Python's truth test: `not v` holds exactly for these values. */
  predicate Falsy(v: Value) {
    match v
    case Null => true
    case Bool(b) => !b
    case Int(i) => i == 0
    case Str(s) => s == []
    case List(xs) => xs == []
    case Object(fs) => fs == []
  }

  /** The values `len` accepts. */
  predicate HasLen(v: Value) {
    v.Str? || v.List? || v.Object?
  }

  function Len(v: Value): (n: nat)
    requires HasLen(v)
    ensures n == 0 <==> Falsy(v)
  {
    match v
    case Str(s) => |s|
    case List(xs) => |xs|
    case Object(fs) => |fs|
  }

  /** An event is a dictionary: its items in insertion order. A decoded
      JSON object keeps only the last value of a repeated key, so a real
      event has distinct keys (`DistinctKeys`); the validator's contracts
      speak of items and also hold without it. */
  type Event = seq<(string, Value)>

  predicate DistinctKeys(e: Event) {
    forall i, j :: 0 <= i < j < |e| ==> e[i].0 != e[j].0
  }

  function Keys(e: Event): (ks: seq<string>)
    ensures |ks| == |e|
    ensures forall i :: 0 <= i < |e| ==> ks[i] == e[i].0
  {
    if e == [] then [] else [e[0].0] + Keys(e[1..])
  }

  /** `e[k]`: the value stored under `k`, or a KeyError. */
  function Lookup(e: Event, k: string): (r: Result<Value>)
    ensures r.Err? <==> k !in Keys(e)
    ensures r.Err? ==> r.error == KeyError(k)
    ensures r.Ok? ==> exists i :: 0 <= i < |e| && e[i] == (k, r.value)
  {
    if e == [] then Err(KeyError(k))
    else if e[0].0 == k then Ok(e[0].1)
    else Lookup(e[1..], k)
  }

  /** In an event with distinct keys, `e[k]` is the value of the item
      named `k`. */
  lemma {:induction false} LookupDistinct(e: Event, i: nat)
    requires DistinctKeys(e) && i < |e|
    ensures Lookup(e, e[i].0) == Ok(e[i].1)
  {
    if i > 0 {
      assert e[1..][i - 1] == e[i];
      assert DistinctKeys(e[1..]) by {
        forall a, b | 0 <= a < b < |e[1..]|
          ensures e[1..][a].0 != e[1..][b].0
        {
          assert e[1..][a] == e[a + 1] && e[1..][b] == e[b + 1];
        }
      }
      LookupDistinct(e[1..], i - 1);
    }
  }

  /** `for x in v`: the items a value yields when iterated. A string yields
      its characters, a list its items, a dictionary its keys. */
  function Iterate(v: Value): (r: Result<seq<Value>>)
    ensures r.Err? <==> !HasLen(v)
    ensures r.Err? ==> r.error == TypeError
    ensures r.Ok? ==> |r.value| == Len(v)
  {
    match v
    case Str(s) => Ok(seq(|s|, i requires 0 <= i < |s| => Str([s[i]])))
    case List(xs) => Ok(xs)
    case Object(fs) => Ok(seq(|fs|, i requires 0 <= i < |fs| => Str(fs[i].0)))
    case _ => Err(TypeError)
  }
}
