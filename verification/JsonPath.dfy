/** Reading a number at a dotted path of a JSON object (src/internal/synthetic/checks/json_value.go). */
module JsonPath {
  import opened Wrappers
  import opened Text

  /** A decoded JSON value; `Numeric` is a float64 or an int, `Numeral` a number kept as text. */
  datatype Json =
    | Object(fields: map<string, Json>)
    | Array(items: seq<Json>)
    | Numeric(value: real)
    | Numeral(text: string)
    | Str(chars: string)
    | Bool(b: bool)
    | Null

  /** The value under a list of keys, one object inside the other. */
  function Lookup(j: Json, path: seq<string>): Option<Json> {
    if path == [] then Some(j)
    else if j.Object? && path[0] in j.fields then Lookup(j.fields[path[0]], path[1..])
    else None
  }

  /** The number a leaf stands for; `parse` is the conversion of a numeral, which may fail. */
  function Number(j: Json, parse: string -> Option<real>): Option<real> {
    match j
    case Numeric(v) => Some(v)
    case Numeral(t) => parse(t)
    case _ => None
  }

  function NumberAt(j: Json, path: seq<string>, parse: string -> Option<real>): Option<real> {
    var leaf := Lookup(j, path);
    if leaf.Some? then Number(leaf.value, parse) else None
  }

  /** ExtractJSONPath, one step down per part. */
  method Extract(data: Json, path: string, parse: string -> Option<real>) returns (r: Option<real>)
    ensures r == NumberAt(data, Split(path, '.'), parse)
  {
    var parts := Split(path, '.');
    var current := data;
    for i := 0 to |parts|
      invariant Lookup(data, parts) == Lookup(current, parts[i..])
    {
      if !current.Object? || parts[i] !in current.fields {
        return None;
      }
      current := current.fields[parts[i]];
    }
    r := Number(current, parse);
  }

  /** At the dot-joined path of any keys without a dot, extraction finds what the keys lead to. */
  method ExtractAt(data: Json, keys: seq<string>, parse: string -> Option<real>) returns (r: Option<real>)
    requires |keys| >= 1 && forall k | k in keys :: '.' !in k
    ensures r == NumberAt(data, keys, parse)
  {
    SplitUndoesJoin(keys, '.');
    r := Extract(data, Join(keys, '.'), parse);
  }

  /** A path leads on exactly when its first part leads to where the rest leads on. */
  lemma {:induction false} LookupConcat(j: Json, a: seq<string>, b: seq<string>)
    ensures Lookup(j, a + b) == if Lookup(j, a).Some? then Lookup(Lookup(j, a).value, b) else None
  {
    if a == [] {
      assert a + b == b;
    } else if j.Object? && a[0] in j.fields {
      LookupConcat(j.fields[a[0]], a[1..], b);
      assert (a + b)[1..] == a[1..] + b;
    }
  }

  /** One key leads into an object that has it, and nowhere else; no key at all leads nowhere else either. */
  lemma LookupOne(j: Json, key: string)
    ensures Lookup(j, []) == Some(j)
    ensures forall x :: Lookup(j, [key]) == Some(x) <==> j.Object? && key in j.fields && j.fields[key] == x
  {
  }

  /** The keys lead to a number: a numeric value, or a numeral that converts to it. */
  ghost predicate Holds(data: Json, keys: seq<string>, parse: string -> Option<real>, v: real) {
    || Lookup(data, keys) == Some(Numeric(v))
    || exists text :: Lookup(data, keys) == Some(Numeral(text)) && parse(text) == Some(v)
  }

  lemma HoldsIff(data: Json, keys: seq<string>, parse: string -> Option<real>, v: real)
    ensures NumberAt(data, keys, parse) == Some(v) <==> Holds(data, keys, parse, v)
  {
  }

  /**
   Every path is read as exactly one list of keys: a key that itself contains a dot can never be reached, so
   a number is found at `path` exactly when the object holds one under the dot-free keys that join to it.
   */
  lemma FoundIff(data: Json, path: string, parse: string -> Option<real>, v: real)
    ensures NumberAt(data, Split(path, '.'), parse) == Some(v)
            <==> exists keys: seq<string> :: |keys| >= 1 && (forall k | k in keys :: '.' !in k)
                   && Join(keys, '.') == path && Holds(data, keys, parse, v)
  {
    JoinUndoesSplit(path, '.');
    HoldsIff(data, Split(path, '.'), parse, v);
    if keys: seq<string> :| |keys| >= 1 && (forall k | k in keys :: '.' !in k)
                            && Join(keys, '.') == path && Holds(data, keys, parse, v) {
      SplitUndoesJoin(keys, '.');
    }
  }
}
