/**
 * JSON values as Python holds them after `json.loads`: a dict keeps its keys
 * in insertion order, so an object is a list of fields; a float is kept as the
 * text Python's `repr` gives it, since nothing here computes with one.
 */
module Json {
  import opened Wrappers
  import opened Text

  datatype Value =
    | Null
    | Bool(b: bool)
    | Int(i: int)
    | Num(repr: string)
    | Str(s: string)
    | List(items: seq<Value>)
    | Object(fields: seq<Field>)

  datatype Field = Field(key: string, val: Value)

  predicate HasKey(fields: seq<Field>, k: string)
  {
    exists i :: 0 <= i < |fields| && fields[i].key == k
  }

  /** No key occurs twice, as in every Python dict. */
  predicate DistinctKeys(fields: seq<Field>)
  {
    forall i, j :: 0 <= i < j < |fields| ==> fields[i].key != fields[j].key
  }

  /** Python's `d.get(k)`: the value of the first field with key `k`. */
  function Get(fields: seq<Field>, k: string): (r: Option<Value>)
    ensures r.Some? <==> HasKey(fields, k)
    ensures r.Some? ==> exists i :: 0 <= i < |fields| && fields[i] == Field(k, r.value)
  {
    if fields == [] then None
    else if fields[0].key == k then Some(fields[0].val)
    else
      var r := Get(fields[1..], k);
      assert forall i :: 1 <= i < |fields| ==> fields[i] == fields[1..][i - 1];
      r
  }

  /** Python's `d.get(k, default)`. */
  function GetOr(fields: seq<Field>, k: string, default: Value): Value
  {
    Get(fields, k).GetOr(default)
  }

  /**
   * Python's `d[k] = v`: an existing key keeps its position and takes the new
   * value; a new key goes at the end.
   */
  function Put(fields: seq<Field>, k: string, v: Value): (r: seq<Field>)
    ensures HasKey(fields, k) ==> |r| == |fields|
    ensures !HasKey(fields, k) ==> r == fields + [Field(k, v)]
  {
    if fields == [] then [Field(k, v)]
    else if fields[0].key == k then [Field(k, v)] + fields[1..]
    else
      assert HasKey(fields, k) <==> HasKey(fields[1..], k) by {
        assert forall i :: 1 <= i < |fields| ==> fields[i] == fields[1..][i - 1];
      }
      [fields[0]] + Put(fields[1..], k, v)
  }

  /** After `d[k] = v`, `k` reads as `v` and every other key reads as before. */
  lemma {:induction false} PutGet(fields: seq<Field>, k: string, v: Value, k': string)
    ensures Get(Put(fields, k, v), k') == if k' == k then Some(v) else Get(fields, k')
  {
    if fields != [] && fields[0].key != k {
      PutGet(fields[1..], k, v, k');
    }
  }

  /** `d[k] = v` keeps every key where it was, and the value of every other key. */
  lemma {:induction false} PutInPlace(fields: seq<Field>, k: string, v: Value)
    ensures |Put(fields, k, v)| >= |fields|
    ensures forall i :: 0 <= i < |fields| ==> Put(fields, k, v)[i].key == fields[i].key
    ensures forall i :: 0 <= i < |fields| && fields[i].key != k ==> Put(fields, k, v)[i] == fields[i]
  {
    if fields != [] && fields[0].key != k {
      PutInPlace(fields[1..], k, v);
    }
  }

  /** Every field after `d[k] = v` is the new one or one that was there. */
  lemma {:induction false} PutFields(fields: seq<Field>, k: string, v: Value)
    ensures forall f :: f in Put(fields, k, v) ==> f == Field(k, v) || f in fields
  {
    if fields != [] && fields[0].key != k {
      PutFields(fields[1..], k, v);
      assert forall f :: f in fields[1..] ==> f in fields;
    }
  }

  /** `d[k] = v` keeps the keys distinct. */
  lemma PutDistinct(fields: seq<Field>, k: string, v: Value)
    requires DistinctKeys(fields)
    ensures DistinctKeys(Put(fields, k, v))
  {
    PutInPlace(fields, k, v);
    var r := Put(fields, k, v);
    if HasKey(fields, k) {
      var i :| 0 <= i < |fields| && fields[i].key == k;
      forall a, b | 0 <= a < b < |r| ensures r[a].key != r[b].key {
        assert r[a].key == fields[a].key && r[b].key == fields[b].key;
      }
    }
  }

  /** A lookup finds the first field with the key. */
  lemma {:induction false} GetAt(fields: seq<Field>, i: nat, k: string)
    requires i < |fields| && fields[i].key == k
    requires forall j :: 0 <= j < i ==> fields[j].key != k
    ensures Get(fields, k) == Some(fields[i].val)
  {
    if i > 0 {
      GetAt(fields[1..], i - 1, k);
    }
  }

  /** In a dict every field is what a lookup of its key finds. */
  lemma GetDistinct(fields: seq<Field>, i: nat)
    requires DistinctKeys(fields) && i < |fields|
    ensures Get(fields, fields[i].key) == Some(fields[i].val)
  {
    GetAt(fields, i, fields[i].key);
  }

  /** Writing back the value a key already has leaves the dict as it was. */
  lemma {:induction false} PutSame(fields: seq<Field>, k: string, v: Value)
    requires Get(fields, k) == Some(v)
    ensures Put(fields, k, v) == fields
  {
    if fields[0].key != k {
      PutSame(fields[1..], k, v);
    }
  }

  /** Python's `repr` of a value, with string escaping not modelled. */
  function Repr(v: Value): string
  {
    match v
    case Null => "None"
    case Bool(b) => if b then "True" else "False"
    case Int(i) => IntToString(i)
    case Num(r) => r
    case Str(s) => "'" + s + "'"
    case List(items) =>
      "[" + Join(", ", seq(|items|, j requires 0 <= j < |items| => Repr(items[j]))) + "]"
    case Object(fields) =>
      "{" + Join(", ", seq(|fields|, j requires 0 <= j < |fields| =>
                             "'" + fields[j].key + "': " + Repr(fields[j].val))) + "}"
  }

  /** Python's `str(v)`: a string stays as it is, anything else is its `repr`. */
  function PyStr(v: Value): string
  {
    if v.Str? then v.s else Repr(v)
  }
}
