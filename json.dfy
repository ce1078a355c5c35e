/**
 * An already-parsed `serde_json::Value`, with the accessors the database
 * core uses (`get`, `as_str`, `as_i64`, `as_f64`, `as_array`) and the
 * object `insert` used to assemble result rows.
 *
 * An object is its fields in iteration order with distinct keys; `insert`
 * of a present key replaces the value in place, a new key is appended.
 */
module Json {

  import opened Outcomes

  datatype Json =
    | JNull
    | JBool(b: bool)
    | JInt(i: int)         // an integral JSON number (serde's u64 or i64)
    | JFloat(r: real)      // a finite floating JSON number
    | JString(s: string)
    | JArray(items: seq<Json>)
    | JObject(fields: seq<Field>)

  datatype Field = Field(key: string, value: Json)

  const I64Min: int := -0x8000_0000_0000_0000
  const I64Max: int := 0x7FFF_FFFF_FFFF_FFFF

  predicate InI64(i: int) { I64Min <= i <= I64Max }

  function Keys(fs: seq<Field>): (ks: seq<string>)
    ensures |ks| == |fs|
    ensures forall k | 0 <= k < |fs| :: ks[k] == fs[k].key
  {
    seq(|fs|, k requires 0 <= k < |fs| => fs[k].key)
  }

  predicate DistinctKeys(fs: seq<Field>)
  {
    forall i, j | 0 <= i < j < |fs| :: fs[i].key != fs[j].key
  }

  /** The value stored under `key`, if any. */
  function Lookup(fs: seq<Field>, key: string): (r: Option<Json>)
    ensures r.Some? <==> exists k | 0 <= k < |fs| :: fs[k].key == key
    ensures r.Some? ==> exists k | 0 <= k < |fs| :: fs[k] == Field(key, r.value)
  {
    if fs == [] then None
    else if fs[0].key == key then Some(fs[0].value)
    else Lookup(fs[1..], key)
  }

  /** `Value::get(key)`: the field of an object; nothing for any other value. */
  function Get(v: Json, key: string): Option<Json>
  {
    if v.JObject? then Lookup(v.fields, key) else None
  }

  /** `.get(key).and_then(as_str)`. */
  function GetStr(v: Json, key: string): Option<string>
  {
    match Get(v, key)
    case Some(JString(s)) => Some(s)
    case _ => None
  }

  /** `.get(key).and_then(as_i64)`: integral numbers that fit 64 signed bits. */
  function GetI64(v: Json, key: string): (r: Option<int>)
    ensures r.Some? ==> InI64(r.value)
  {
    match Get(v, key)
    case Some(JInt(i)) => if InI64(i) then Some(i) else None
    case _ => None
  }

  /** `.get(key).and_then(as_f64)`: every number, integral ones converted. */
  function GetF64(v: Json, key: string): Option<real>
  {
    match Get(v, key)
    case Some(JInt(i)) => Some(i as real)
    case Some(JFloat(r)) => Some(r)
    case _ => None
  }

  /** `.get(key).and_then(as_array)`. */
  function GetArray(v: Json, key: string): Option<seq<Json>>
  {
    match Get(v, key)
    case Some(JArray(items)) => Some(items)
    case _ => None
  }

  /** `Map::insert`: replace in place when the key is present, else append. */
  function Insert(fs: seq<Field>, key: string, v: Json): (r: seq<Field>)
    ensures |r| == if exists k | 0 <= k < |fs| :: fs[k].key == key then |fs| else |fs| + 1
  {
    if fs == [] then [Field(key, v)]
    else if fs[0].key == key then [Field(key, v)] + fs[1..]
    else [fs[0]] + Insert(fs[1..], key, v)
  }

  /** After `insert`, the key holds the new value and no other key changed. */
  lemma {:induction false} InsertLookup(fs: seq<Field>, key: string, v: Json, other: string)
    ensures Lookup(Insert(fs, key, v), key) == Some(v)
    ensures other != key ==> Lookup(Insert(fs, key, v), other) == Lookup(fs, other)
  {
    if fs != [] && fs[0].key != key {
      InsertLookup(fs[1..], key, v, other);
    }
  }

  /** `insert` keeps keys distinct and only ever adds `key` to the key set. */
  lemma {:induction false} InsertKeys(fs: seq<Field>, key: string, v: Json)
    requires DistinctKeys(fs)
    ensures DistinctKeys(Insert(fs, key, v))
    ensures forall k :: k in Keys(Insert(fs, key, v)) <==> k in Keys(fs) || k == key
  {
    var r := Insert(fs, key, v);
    if fs == [] {
      assert Keys(r) == [key];
    } else if fs[0].key == key {
      assert Keys(r) == [key] + Keys(fs[1..]);
      assert Keys(fs) == [fs[0].key] + Keys(fs[1..]);
    } else {
      var tail := Insert(fs[1..], key, v);
      InsertKeys(fs[1..], key, v);
      assert Keys(r) == [fs[0].key] + Keys(tail);
      assert Keys(fs) == [fs[0].key] + Keys(fs[1..]);
      assert fs[0].key !in Keys(fs[1..]);
      forall j | 0 < j < |r| ensures r[0].key != r[j].key {
        assert r[j].key == Keys(tail)[j - 1];
      }
    }
  }
}
