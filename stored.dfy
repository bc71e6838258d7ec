/** Saved data as the engine reads it back: a value as `JSON.parse`
    produces it, or `Undefined` for a key that holds nothing, together with
    the shape checks the restore routines apply and the encodings the save
    routines produce. */
module Stored {
  datatype Value =
    | Undefined
    | Null
    | Bool(b: bool)
    | Number(x: real)
    | Str(s: string)
    | Array(items: seq<Value>)
    | Object(fields: map<string, Value>)

  /** `Number.isInteger(v)`. */
  predicate IsInteger(v: Value) {
    v.Number? && v.x.Floor as real == v.x
  }

  function IntOf(v: Value): int
    requires IsInteger(v)
  {
    v.x.Floor
  }

  /** How an integer is saved. */
  function FromInt(i: int): (v: Value)
    ensures IsInteger(v) && IntOf(v) == i
  {
    Number(i as real)
  }

  /** An array holding only integers: one saved operand snapshot. */
  predicate IsIntegerArray(v: Value) {
    v.Array? && forall i :: 0 <= i < |v.items| ==> IsInteger(v.items[i])
  }

  function Ints(v: Value): (xs: seq<int>)
    requires IsIntegerArray(v)
    ensures |xs| == |v.items|
    ensures forall i :: 0 <= i < |xs| ==> xs[i] == IntOf(v.items[i])
  {
    seq(|v.items|, i requires 0 <= i < |v.items| => IntOf(v.items[i]))
  }

  function FromInts(xs: seq<int>): (v: Value)
    ensures IsIntegerArray(v)
    ensures Ints(v) == xs
  {
    Array(seq(|xs|, i requires 0 <= i < |xs| => FromInt(xs[i])))
  }

  /** An array of snapshots: the saved `operands` history. */
  predicate IsSnapshotArray(v: Value) {
    v.Array? && forall i :: 0 <= i < |v.items| ==> IsIntegerArray(v.items[i])
  }

  function Snapshots(v: Value): (xss: seq<seq<int>>)
    requires IsSnapshotArray(v)
    ensures |xss| == |v.items|
    ensures forall i :: 0 <= i < |xss| ==> xss[i] == Ints(v.items[i])
  {
    seq(|v.items|, i requires 0 <= i < |v.items| => Ints(v.items[i]))
  }

  function FromSnapshots(xss: seq<seq<int>>): (v: Value)
    ensures IsSnapshotArray(v)
    ensures Snapshots(v) == xss
  {
    Array(seq(|xss|, i requires 0 <= i < |xss| => FromInts(xss[i])))
  }

  /** An array of non-empty strings: the saved `operations` list. */
  predicate IsDescriptionArray(v: Value) {
    v.Array? && forall i :: 0 <= i < |v.items| ==> v.items[i].Str? && v.items[i].s != []
  }

  function Descriptions(v: Value): (ds: seq<string>)
    requires IsDescriptionArray(v)
    ensures |ds| == |v.items|
    ensures forall i :: 0 <= i < |ds| ==> ds[i] != [] && v.items[i] == Str(ds[i])
  {
    seq(|v.items|, i requires 0 <= i < |v.items| => v.items[i].s)
  }

  function FromDescriptions(ds: seq<string>): (v: Value)
    ensures v.Array? && |v.items| == |ds|
    ensures (forall i :: 0 <= i < |ds| ==> ds[i] != []) <==> IsDescriptionArray(v)
    ensures IsDescriptionArray(v) ==> Descriptions(v) == ds
  {
    var v := Array(seq(|ds|, i requires 0 <= i < |ds| => Str(ds[i])));
    assert forall i :: 0 <= i < |ds| ==> v.items[i] == Str(ds[i]);
    v
  }

  /** JavaScript truthiness of a parsed value. */
  predicate Truthy(v: Value) {
    match v
    case Undefined => false
    case Null => false
    case Bool(b) => b
    case Number(x) => x != 0.0
    case Str(s) => s != []
    case Array(_) => true
    case Object(_) => true
  }
}
