/** The values json2openapi.py reads and the dicts it builds. */
module Values {

  datatype Option<+T> = None | Some(value: T)

  /** A Python value as `json.load` returns it: None, bool, int, float, str, dict
      (its items in insertion order) or list. `Other` stands for a value of any
      other Python type, which `_get_type_ex` accepts but `json.load` never returns.
      A float is kept as its IEEE-754 bit pattern and never computed with. */
  datatype Value =
    | Null
    | Bool(b: bool)
    | Int(i: int)
    | Float(bits: bv64)
    | Str(s: string)
    | Object(members: seq<(string, Value)>)
    | Array(elems: seq<Value>)
    | Other(typeName: string)

  /** A Python dict holds each key once; an `Object` is a well-formed value when
      its items do, and so do all values nested in it. */
  predicate WellFormed(v: Value)
    decreases v
  {
    match v
    case Object(ms) =>
      && (forall i, j :: 0 <= i < j < |ms| ==> ms[i].0 != ms[j].0)
      && (forall i :: 0 <= i < |ms| ==> WellFormed(ms[i].1))
    case Array(es) => forall i :: 0 <= i < |es| ==> WellFormed(es[i])
    case _ => true
  }

  /** A key of a generated dict: field names are strings, the response code is an int. */
  datatype Key = KStr(name: string) | KInt(code: int)

  /** A dict the generator builds (schemas, the path item, the document), with its
      items in insertion order; anything that is not such a dict is a plain `Leaf`. */
  datatype Doc = Leaf(v: Value) | Dict(entries: seq<(Key, Doc)>)
}
