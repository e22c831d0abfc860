# json2openapi: schema inference and document assembly

json2openapi.py turns an example request body and an example response body
into an OpenAPI 3.0.0 document for one path, one HTTP method and one response
code. This project models three parts of it in Dafny:

- `_get_type_ex`, which classifies one scalar;
- `_gen_schema`, which infers a Schema Object from a JSON value;
- the assembly in `main`, which builds a path item skeleton and overwrites its
  request body and response content in place with the inferred schemas, then
  wraps the result in the document.

The proofs cover the classification table, the shape of every inferred schema,
the key order of objects, the first-element rule for arrays, and the assembly.
The assembly proofs show that only the two body slots ever change.

Modules:

- `Values` (values.dfy) defines the input and output types.
  - `Value` is what `json.load` returns: None, bool, int, float, str, dict and
    list. A dict is the sequence of its items, in insertion order.
  - `Other` stands for a value of any other Python type. `_get_type_ex`
    accepts such a value, but `json.load` never returns one.
  - A float is an opaque 64-bit pattern. No float arithmetic is involved.
  - `WellFormed` says that every dict holds each key once, which is what a
    Python dict guarantees.
  - `Doc` is a dict the tool builds. Its items are kept in insertion order. Its
    keys are `KStr` (field names) or `KInt`, because the response code is an
    int key.
- `Dicts` (dicts.dfy) covers the Python dict semantics the code relies on.
  - `Get` is `d[k]`.
  - `Put` is `d[k] = x`: the value is replaced where the key stands, or the key
    is appended.
  - `Lookup` reads `d[a][b]...`.
  - `SetIn` is the nested assignment `d[a][b][c] = x`. A missing intermediate
    key, where Python raises `KeyError`, gives `None`.
- `Inference` (inference.dfy) models `_get_type_ex` and `_gen_schema`.
  - `GetTypeEx` is `_get_type_ex`.
  - `GenSchema` is `_gen_schema` as a recursive function.
  - `BuildSchema` is `_gen_schema` as the code runs it. For a dict it starts
    from `{"type": "object", "properties": {}}` and assigns
    `schema["properties"][key]` once per item. For a list it starts from
    `{"type": "array", "items": {}}` and, when the list is not empty, assigns
    `schema["items"]` the schema of the first element. Any other value goes
    straight to `GetTypeEx`. It is proved equal to `GenSchema`.
- `Assembly` (assembly.dfy) models the skeleton at json2openapi.py:94-106, the
  two in-place overwrites and the document.
  - A body that was not given, or that did not parse, arrives as `None`.
  - `AssemblePaths` and `GenerateDocument` are proved equal to the fully built
    `PathItem` and `Document`.
  - The lemmas show what changes and what does not.

In Python, `bool` is a subclass of `int`. The `isinstance(val, int)` test
therefore takes `True` and `False`, and they are typed `"integer"`. The
`"boolean"` branch at json2openapi.py:39-40 can never be reached. A classifier
that tests booleans before integers (`BooleansFirstType`) would type them
`"boolean"`. This model follows the code as written. `ClassifierDeviation`
proves that the two classifiers disagree on the booleans and on nothing else.

## Model

| member | source | states |
|---|---|---|
| `Dicts.Get` | json2openapi.py:132-133 | `d[k]` succeeds exactly when `d` is a dict holding `k`, and then yields the value of an item stored under `k`. |
| `Dicts.Put` | json2openapi.py:57 | Assigning to a key keeps the key's position if the dict has it, and appends it otherwise. The key then reads the new value and every other key reads as before. Distinct keys stay distinct. |
| `Dicts.GetDistinct` | json2openapi.py:56-57 | In a dict with distinct keys, each item is found under its own key. |
| `Dicts.SetIn` | json2openapi.py:132-133 | `d[k1]...[kn] = x` succeeds exactly when `d[k1]...[kn-1]` is a dict (otherwise Python raises), and the assigned path then reads `x`. `SetInLookup` and `SetInExisting` state what else it leaves as it was. |
| `Dicts.SetInLookup` | json2openapi.py:132-133 | After `d[k1]...[kn] = x`, any path through the assigned one reads inside `x`. Any path that branches off it reads exactly what it read before. |
| `Dicts.SetInExisting` | json2openapi.py:112 | An assignment at a path that already exists succeeds. Every dict on the way keeps its keys in their order. |
| `Dicts.LookupAppend` | json2openapi.py:132-133 | Reading along `p + q` means reading along `p`, then along `q` from there. |
| `Inference.GetTypeEx` | json2openapi.py:27-47 | The result has exactly the keys `type` and `example`, in that order. The type is "string" exactly for None and str. It is "integer" exactly for int and bool. It is "number" exactly for float. It is "" for anything else. It is never "boolean". None's example is "", and every other value is its own example. |
| `Inference.ClassifierDeviation` | json2openapi.py:35-40 | The code's classification agrees with a booleans-first table on every value except booleans. A boolean is typed "integer" where that table says "boolean". |
| `Inference.GenSchema` | json2openapi.py:50-67 | Every node of the inferred schema is a two-item dict with `type` first. The second item is `properties` for "object", `items` (a schema or `{}`) for "array", and a scalar `example` for every other type. So container nodes never have `example`, scalar nodes never have `properties` or `items`, and no node is typed "boolean". |
| `Inference.ObjectSchema` | json2openapi.py:51-57 | An object's schema is typed "object". Its `properties` have exactly the object's keys, in the same order, and each key holds the schema of its own value. `{}` gives empty properties. |
| `Inference.ObjectNodeLookup` | json2openapi.py:52-57 | An object node is typed "object", lists its property keys in order, and finds each property under its key. |
| `Inference.ArraySchema` | json2openapi.py:58-64 | An array's schema has the keys `type` and `items`, and is typed "array". `items` is the first element's schema, or `{}` for `[]`. |
| `Inference.ItemsFromFirstElement` | json2openapi.py:63-64 | Two non-empty arrays with the same first element have the same schema, whatever their later elements are. |
| `Inference.SetPropertyAppends` | json2openapi.py:57 | `schema["properties"][key] = sub` with a new key appends the property at the end. |
| `Inference.SetItemsReplaces` | json2openapi.py:64 | `schema["items"] = sub` replaces the placeholder `items` and leaves `type` alone. |
| `Inference.PropertiesStep` | json2openapi.py:56-57 | Each iteration over a dict's items meets a key that is not yet a property, and adds the schema of its value at the end. |
| `Inference.BuildSchema` | json2openapi.py:50-67 | Filling the schema in place, item by item, yields exactly `GenSchema` of the input. |
| `Assembly.Lower` | json2openapi.py:96 | The operation key has the method's length and no upper-case ASCII letter. Other characters are unchanged, and each upper-case letter becomes its lower-case form. |
| `Assembly.MethodKeys` | json2openapi.py:78-80 | The accepted methods GET, POST, PUT, PATCH and DELETE become the keys get, post, put, patch and delete. |
| `Assembly.SetInOperation` | json2openapi.py:112 | An assignment inside the operation rebuilds the path item around the new operation and changes nothing else. |
| `Assembly.SetRequestBody` | json2openapi.py:112-118 | Assigning the request body slot replaces that item alone. The response is left as it was. |
| `Assembly.SetResponseItemContent` | json2openapi.py:132-133 | Assigning `content` in the response item keeps the empty description and the key order. |
| `Assembly.SetResponsesContent` | json2openapi.py:132-133 | Assigning `content` through `responses[code]` rebuilds the single response with only its content changed. |
| `Assembly.SetOperationContent` | json2openapi.py:132-133 | Assigning the response content through `responses[code]` rebuilds the operation with only that content changed. |
| `Assembly.SetResponseContent` | json2openapi.py:127-133 | Assigning the response content slot replaces that item alone. The request body is left as it was. |
| `Assembly.Skeleton` | json2openapi.py:94-106 | The starting literal holds only the path; under it only the lower-cased method; under that `requestBody` then `responses`. The request body is `{}`, `responses` holds only the int code, and that response is `{"description": "", "content": None}`. |
| `Assembly.OnlySlotsChange` | json2openapi.py:94-133 | The assembled path item holds the given request body and response content in their slots. Every other path reads as in the skeleton, so the description stays "". Every dict on the way to a slot keeps the skeleton's keys in the skeleton's order. |
| `Assembly.OperationShape` | json2openapi.py:94-106 | The path item holds only the path, and the path holds one operation, under the lower-cased method, with the keys `requestBody` and `responses` in that order. The request body reads the given one. `responses` holds only the int code, and that response reads `{"description": "", "content": ...}`. |
| `Assembly.RequestBodySchema` | json2openapi.py:112-118 | A parsed request body gives `{"content": {"application/json": {"schema": _gen_schema(body)}}}`. |
| `Assembly.RequestSchemaAt` | json2openapi.py:112-118 | A parsed request body's schema sits at `requestBody.content["application/json"].schema` of the operation. |
| `Assembly.ResponseSchemaAt` | json2openapi.py:127-133 | A parsed response body's schema sits at `responses[code].content["application/json"].schema`. |
| `Assembly.AssemblePaths` | json2openapi.py:94-133 | The skeleton, with the request slot overwritten only when the request body parsed and the response content slot overwritten only when the response body parsed, equals the path item built with both slots already filled. An absent body leaves the skeleton's `{}` or `None`. |
| `Assembly.Document` | json2openapi.py:138-145 | The document has the keys "openapi", "info" and "paths", in that order. "openapi" is "3.0.0", "info" holds only the title "Generated by json2openapi" and the version "v1", and "paths" holds the path dict. |
| `Assembly.DocumentFields` | json2openapi.py:138-145 | The document has the keys "openapi", "info" and "paths", in that order. "openapi" is "3.0.0", and "info" has the title "Generated by json2openapi" and the version "v1". Reading under "paths" reads the path dict. |
| `Assembly.GenerateDocument` | json2openapi.py:94-145 | The generated document is the fixed header around the assembled path item. |
| `Assembly.AnnSchema` | json2openapi.py:50-57 | The schema of `{"name": "Ann"}` is an object with the single string property `name`, whose example is "Ann". |
| `Assembly.UsersScenario` | json2openapi.py:94-145 | Take POST /users with response code 201, the request body `{"name": "Ann"}`, and no response body. The request schema is that object schema, and `responses[201]` is `{"description": "", "content": None}`. |

## Left out

- Command-line parsing (`_get_parser`, json2openapi.py:75-88, and inducoapi/__main__.py) is out of scope. The method, path and response code are parameters.
- File reading and JSON text parsing are out of scope (json2openapi.py:108-111, 123-126), and so is the `JSONDecodeError` branch. A body that was not given, whose file name is empty, or that did not parse arrives as `None`. A file that cannot be opened raises in the source, and that case is not modelled.
- Diagnostics are not modelled: the `print` calls, including the one that names the request file when the response body fails to parse (json2openapi.py:136).
- Validation through the external openapi3 library (json2openapi.py:146-151) is not modelled.
- YAML output (`NoAliasDumper`, json2openapi.py:70-72, 153-159) is not modelled.
- Merging into an existing document, the media-type option and example suppression live in inducoapi/inducoapi.py. That file is not part of this model.
- Floats are opaque bit patterns. Floating-point behaviour is not modelled.
- `Lower` only covers ASCII letters. Python's `str.lower` also maps other Unicode letters, but the command line accepts only the five ASCII method names.
- `BuildSchema`, `AssemblePaths` and `GenerateDocument` require `WellFormed` bodies, meaning each dict holds each key once. A Python dict always does, but the model's `Object` can list a key twice.
- `GenSchema` and `BuildSchema` are total on values of any depth. `_gen_schema` recurses once per level of nesting with no guard, so past Python's recursion limit it raises `RecursionError`, which `main` does not catch.
- `_gen_schema` shares the dict objects it builds. The model uses values, so the aliasing between `schema` and `schema["properties"]`, and the nested dicts of the path item, are not represented.
