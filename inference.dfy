/** `_get_type_ex` and `_gen_schema` of json2openapi.py: the OpenAPI Schema
    Object inferred from one example value. */
module Inference {
  import opened Values
  import opened Dicts

  const TypeKey := KStr("type")
  const ExampleKey := KStr("example")
  const PropertiesKey := KStr("properties")
  const ItemsKey := KStr("items")

  /** The type names a scalar schema can carry; "boolean" is not among them. */
  const ScalarTypes: set<string> := {"string", "integer", "number", ""}

  /** Python's `isinstance(val, int)`, which holds of booleans too: `bool` is a
      subclass of `int`. */
  predicate IsInstanceInt(val: Value)
  {
    val.Int? || val.Bool?
  }

  /** The `type` entry of a schema, when it holds a string. */
  function TypeOf(schema: Doc): Option<string>
  {
    match Get(schema, TypeKey)
    case Some(Leaf(Str(t))) => Some(t)
    case _ => None
  }

  /** `_get_type_ex`: the tests run in the source's order (None, str, int, float,
      bool), so a boolean is taken by the `int` test and typed "integer"; the
      "boolean" branch is never reached. None gets the example "", every other
      value is its own example, and a value of no known type gets type "". */
  function GetTypeEx(val: Value): (r: Doc)
    ensures r.Dict? && Keys(r.entries) == [TypeKey, ExampleKey]
    ensures Get(r, ExampleKey) == Some(Leaf(if val.Null? then Str("") else val))
    ensures TypeOf(r) == Some("string") <==> val.Null? || val.Str?
    ensures TypeOf(r) == Some("integer") <==> val.Int? || val.Bool?
    ensures TypeOf(r) == Some("number") <==> val.Float?
    ensures TypeOf(r) == Some("") <==> val.Object? || val.Array? || val.Other?
    ensures TypeOf(r).Some? && TypeOf(r).value in ScalarTypes
  {
    var (t, ex) :=
      if val.Null? then ("string", Str(""))
      else if val.Str? then ("string", val)
      else if IsInstanceInt(val) then ("integer", val)
      else if val.Float? then ("number", val)
      else if val.Bool? then ("boolean", val)
      else ("", val);
    Dict([(TypeKey, Leaf(Str(t))), (ExampleKey, Leaf(ex))])
  }

  /** The classification the unreachable `bool` branch suggests: booleans tested
      before integers. */
  function BooleansFirstType(val: Value): string
  {
    if val.Null? then "string"
    else if val.Bool? then "boolean"
    else if val.Int? then "integer"
    else if val.Float? then "number"
    else if val.Str? then "string"
    else ""
  }

  /** The source's classifier agrees with the booleans-first table on every value
      except the booleans, which it types "integer" where that table says "boolean". */
  lemma ClassifierDeviation(val: Value)
    ensures TypeOf(GetTypeEx(val)) == Some(BooleansFirstType(val)) <==> !val.Bool?
    ensures val.Bool? ==> TypeOf(GetTypeEx(val)) == Some("integer") && BooleansFirstType(val) == "boolean"
  {
  }

  function ObjectNode(props: Entries): Doc
  {
    Dict([(TypeKey, Leaf(Str("object"))), (PropertiesKey, Dict(props))])
  }

  function ArrayNode(items: Doc): Doc
  {
    Dict([(TypeKey, Leaf(Str("array"))), (ItemsKey, items)])
  }

  /** The shape of every node of an inferred schema: a dict of exactly two items,
      `type` first, then `properties` (a dict of schemas) for "object", `items`
      (a schema, or the empty dict) for "array", and a scalar `example` for every
      other type, which is one of ScalarTypes. */
  predicate Shaped(d: Doc)
    decreases d
  {
    match d
    case Leaf(_) => false
    case Dict(es) =>
      && |es| == 2 && es[0].0 == TypeKey && es[0].1.Leaf? && es[0].1.v.Str?
      && var t, body := es[0].1.v.s, es[1].1;
         if t == "object" then
           && es[1].0 == PropertiesKey && body.Dict?
           && forall j :: 0 <= j < |body.entries| ==> Shaped(body.entries[j].1)
         else if t == "array" then
           es[1].0 == ItemsKey && (body == Dict([]) || Shaped(body))
         else
           && es[1].0 == ExampleKey && t in ScalarTypes
           && body.Leaf? && !body.v.Object? && !body.v.Array?
  }

  /** The keys of an object's items, as dict keys, in order. */
  function MemberKeys(ms: seq<(string, Value)>): seq<Key>
  {
    seq(|ms|, i requires 0 <= i < |ms| => KStr(ms[i].0))
  }

  /** `_gen_schema`: an object's schema lists a property per item, in order; an
      array's schema takes its `items` from the first element alone; anything else
      goes to `_get_type_ex`. Every node of the result is Shaped, so no object or
      array node has an `example`, no scalar node has `properties` or `items`, and
      no node is typed "boolean". */
  function GenSchema(data: Value): (schema: Doc)
    ensures Shaped(schema)
    decreases data
  {
    match data
    case Object(ms) =>
      ObjectNode(seq(|ms|, i requires 0 <= i < |ms| => (KStr(ms[i].0), GenSchema(ms[i].1))))
    case Array(es) =>
      ArrayNode(if |es| == 0 then Dict([]) else GenSchema(es[0]))
    case _ =>
      GetTypeEx(data)
  }

  /** The first `n` properties of the schema of an object with items `ms`. */
  function Properties(ms: seq<(string, Value)>, n: nat): Entries
    requires n <= |ms|
  {
    seq(n, j requires 0 <= j < n => (KStr(ms[j].0), GenSchema(ms[j].1)))
  }

  /** Looking into an object node: its `type` is "object", and its properties are
      found under their own keys. */
  lemma ObjectNodeLookup(props: Entries)
    requires DistinctKeys(props)
    ensures TypeOf(ObjectNode(props)) == Some("object")
    ensures KeysAt(ObjectNode(props), [PropertiesKey]) == Some(Keys(props))
    ensures forall i :: 0 <= i < |props| ==>
      Lookup(ObjectNode(props), [PropertiesKey, props[i].0]) == Some(props[i].1)
  {
    var s := ObjectNode(props);
    GetDistinct(s.entries, 0);
    GetDistinct(s.entries, 1);
    LookupOne(s, PropertiesKey);
    forall i | 0 <= i < |props|
      ensures Lookup(s, [PropertiesKey, props[i].0]) == Some(props[i].1)
    {
      GetDistinct(props, i);
      LookupTwo(s, PropertiesKey, props[i].0);
    }
  }

  /** The properties of an object's schema are exactly its keys, in their order,
      each holding the schema of its own value. */
  lemma ObjectSchema(ms: seq<(string, Value)>)
    requires WellFormed(Object(ms))
    ensures TypeOf(GenSchema(Object(ms))) == Some("object")
    ensures KeysAt(GenSchema(Object(ms)), [PropertiesKey]) == Some(MemberKeys(ms))
    ensures forall i :: 0 <= i < |ms| ==>
      Lookup(GenSchema(Object(ms)), [PropertiesKey, KStr(ms[i].0)]) == Some(GenSchema(ms[i].1))
  {
    var props := Properties(ms, |ms|);
    assert GenSchema(Object(ms)) == ObjectNode(props);
    assert DistinctKeys(props);
    assert Keys(props) == MemberKeys(ms);
    ObjectNodeLookup(props);
    forall i | 0 <= i < |ms|
      ensures Lookup(GenSchema(Object(ms)), [PropertiesKey, KStr(ms[i].0)]) == Some(GenSchema(ms[i].1))
    {
      assert props[i] == (KStr(ms[i].0), GenSchema(ms[i].1));
    }
  }

  /** An array's schema has type "array" and takes `items` from its first element
      only; the empty array gets the empty dict. */
  lemma ArraySchema(es: seq<Value>)
    ensures TypeOf(GenSchema(Array(es))) == Some("array")
    ensures KeysAt(GenSchema(Array(es)), []) == Some([TypeKey, ItemsKey])
    ensures Lookup(GenSchema(Array(es)), [ItemsKey]) == Some(if |es| == 0 then Dict([]) else GenSchema(es[0]))
  {
    var s := GenSchema(Array(es));
    GetDistinct(s.entries, 0);
    GetDistinct(s.entries, 1);
    assert Keys(s.entries) == [TypeKey, ItemsKey];
  }

  /** Elements after the first never change an array's schema. */
  lemma ItemsFromFirstElement(a: seq<Value>, b: seq<Value>)
    requires |a| > 0 && |b| > 0 && a[0] == b[0]
    ensures GenSchema(Array(a)) == GenSchema(Array(b))
  {
  }

  /** With its key not yet among the properties, `schema["properties"][key] = sub`
      appends the property at the end. */
  lemma SetPropertyAppends(props: Entries, k: Key, sub: Doc)
    requires k !in Keys(props)
    ensures SetIn(ObjectNode(props), [PropertiesKey, k], sub) == Some(ObjectNode(props + [(k, sub)]))
  {
    var es := ObjectNode(props).entries;
    var grown := Dict(props + [(k, sub)]);
    GetDistinct(es, 1);
    PutDistinct(es, 1, grown);
    assert [PropertiesKey, k][1..] == [k];
    assert NewChild(Dict(props), [k], sub) == Some(sub);
    assert SetIn(Dict(props), [k], sub) == Some(grown);
    assert NewChild(ObjectNode(props), [PropertiesKey, k], sub) == Some(grown);
    assert es[1 := (PropertiesKey, grown)] == ObjectNode(props + [(k, sub)]).entries;
  }

  /** `schema["items"] = sub` replaces the empty `items` of an array node. */
  lemma SetItemsReplaces(items: Doc, sub: Doc)
    ensures SetIn(ArrayNode(items), [ItemsKey], sub) == Some(ArrayNode(sub))
  {
    var es := ArrayNode(items).entries;
    PutDistinct(es, 1, sub);
    assert es[1 := (ItemsKey, sub)] == ArrayNode(sub).entries;
    assert NewChild(ArrayNode(items), [ItemsKey], sub) == Some(sub);
  }

  /** One more iteration over the items of a dict: its key is new, and the
      property list grows by the schema of its value. */
  lemma PropertiesStep(ms: seq<(string, Value)>, i: nat)
    requires WellFormed(Object(ms)) && i < |ms|
    ensures KStr(ms[i].0) !in Keys(Properties(ms, i))
    ensures Properties(ms, i + 1) == Properties(ms, i) + [(KStr(ms[i].0), GenSchema(ms[i].1))]
  {
    KeysMember(Properties(ms, i), KStr(ms[i].0));
  }

  /** `_gen_schema` as the source runs it: the object's schema starts with empty
      properties and gains one item per iteration over `data.items()`; the array's
      schema starts with empty `items` and is given the first element's schema. */
  method BuildSchema(data: Value) returns (schema: Doc)
    requires WellFormed(data)
    ensures schema == GenSchema(data)
    decreases data
  {
    match data
    case Object(ms) =>
      schema := ObjectNode([]);
      var i := 0;
      assert Properties(ms, 0) == [];
      while i < |ms|
        invariant 0 <= i <= |ms|
        invariant schema == ObjectNode(Properties(ms, i))
      {
        var (key, val) := ms[i];
        var sub := BuildSchema(val);
        PropertiesStep(ms, i);
        SetPropertyAppends(Properties(ms, i), KStr(key), sub);
        schema := SetIn(schema, [PropertiesKey, KStr(key)], sub).value;
        i := i + 1;
      }
    case Array(es) =>
      schema := ArrayNode(Dict([]));
      if |es| > 0 {
        var sub := BuildSchema(es[0]);
        SetItemsReplaces(Dict([]), sub);
        schema := SetIn(schema, [ItemsKey], sub).value;
      }
    case _ =>
      schema := GetTypeEx(data);
  }
}
