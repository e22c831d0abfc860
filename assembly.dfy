/** The assembly in `main` of json2openapi.py: a path item skeleton for one
    method and one response code, whose request body and response content are
    overwritten in place by the schemas inferred from the bodies that parsed, and
    the OpenAPI document that wraps it. A body that was not given, or did not
    parse as JSON, reaches this module as None. */
module Assembly {
  import opened Values
  import opened Dicts
  import opened Inference

  const RequestBodyKey := KStr("requestBody")
  const ResponsesKey := KStr("responses")
  const DescriptionKey := KStr("description")
  const ContentKey := KStr("content")
  const SchemaKey := KStr("schema")
  const JsonMediaType := KStr("application/json")
  const PathsKey := KStr("paths")
  const OpenApiVersion := "3.0.0"
  const InfoTitle := "Generated by json2openapi"
  const InfoVersion := "v1"

  function LowerChar(c: char): char
  {
    if 'A' <= c <= 'Z' then (c as int + 32) as char else c
  }

  /** `str.lower()` on the ASCII method name. */
  function Lower(s: string): (r: string)
    ensures |r| == |s|
    ensures forall i :: 0 <= i < |r| ==> !('A' <= r[i] <= 'Z')
    ensures forall i :: 0 <= i < |s| && !('A' <= s[i] <= 'Z') ==> r[i] == s[i]
    ensures forall i :: 0 <= i < |s| && 'A' <= s[i] <= 'Z' ==> r[i] as int == s[i] as int + 32
  {
    seq(|s|, i requires 0 <= i < |s| => LowerChar(s[i]))
  }

  /** The five method names the command line accepts become these operation keys. */
  lemma MethodKeys()
    ensures Lower("GET") == "get" && Lower("POST") == "post" && Lower("PUT") == "put"
    ensures Lower("PATCH") == "patch" && Lower("DELETE") == "delete"
  {
  }

  /** `{"description": "", "content": content}` */
  function ResponseItem(content: Doc): Doc
  {
    Dict([(DescriptionKey, Leaf(Str(""))), (ContentKey, content)])
  }

  /** The operation: its request body, and a single response under the int code. */
  function Operation(respCode: int, requestBody: Doc, content: Doc): Doc
  {
    Dict([(RequestBodyKey, requestBody), (ResponsesKey, Dict([(KInt(respCode), ResponseItem(content))]))])
  }

  /** `{path: {method.lower(): operation}}` */
  function PathItem(path: string, reqMethod: string, respCode: int, requestBody: Doc, content: Doc): Doc
  {
    Dict([(KStr(path), Dict([(KStr(Lower(reqMethod)), Operation(respCode, requestBody, content))]))])
  }

  /** The literal `main` starts from: the one path, holding the one operation
      under the lower-cased method, with an empty request body and a single
      response under the int code whose description is "" and whose content is
      `None`. */
  function Skeleton(path: string, reqMethod: string, respCode: int): (r: Doc)
    ensures KeysAt(r, []) == Some([KStr(path)])
    ensures KeysAt(r, [KStr(path)]) == Some([KStr(Lower(reqMethod))])
    ensures KeysAt(r, OperationPath(path, reqMethod)) == Some([RequestBodyKey, ResponsesKey])
    ensures Lookup(r, RequestBodySlot(path, reqMethod)) == Some(Dict([]))
    ensures KeysAt(r, OperationPath(path, reqMethod) + [ResponsesKey]) == Some([KInt(respCode)])
    ensures Lookup(r, OperationPath(path, reqMethod) + [ResponsesKey, KInt(respCode)])
         == Some(Dict([(DescriptionKey, Leaf(Str(""))), (ContentKey, Leaf(Null))]))
  {
    OperationShape(path, reqMethod, respCode, Dict([]), Leaf(Null));
    PathItem(path, reqMethod, respCode, Dict([]), Leaf(Null))
  }

  function OperationPath(path: string, reqMethod: string): seq<Key>
  {
    [KStr(path), KStr(Lower(reqMethod))]
  }

  /** Where a parsed request body's schema goes. */
  function RequestBodySlot(path: string, reqMethod: string): seq<Key>
  {
    OperationPath(path, reqMethod) + [RequestBodyKey]
  }

  /** Where a parsed response body's schema goes. */
  function ResponseContentSlot(path: string, reqMethod: string, respCode: int): seq<Key>
  {
    OperationPath(path, reqMethod) + [ResponsesKey, KInt(respCode), ContentKey]
  }

  /** `{"application/json": {"schema": schema}}` */
  function MediaContent(schema: Doc): Doc
  {
    Dict([(JsonMediaType, Dict([(SchemaKey, schema)]))])
  }

  /** What ends up in the request body slot: the skeleton's empty dict when there
      is no parsed body, `{"content": ...}` around its schema otherwise. */
  function RequestBodyFor(reqBody: Option<Value>): Doc
  {
    match reqBody
    case None => Dict([])
    case Some(v) => Dict([(ContentKey, MediaContent(GenSchema(v)))])
  }

  /** What ends up in the response content slot: the skeleton's None when there is
      no parsed body, the media content around its schema otherwise. */
  function ResponseContentFor(respBody: Option<Value>): Doc
  {
    match respBody
    case None => Leaf(Null)
    case Some(v) => MediaContent(GenSchema(v))
  }

  /** An assignment inside the operation of a path item rebuilds the path item
      around the new operation. */
  lemma SetInOperation(path: string, reqMethod: string, respCode: int, a0: Doc, b0: Doc, a: Doc, b: Doc,
                       tail: seq<Key>, x: Doc)
    requires |tail| > 0
    requires SetIn(Operation(respCode, a0, b0), tail, x) == Some(Operation(respCode, a, b))
    ensures SetIn(PathItem(path, reqMethod, respCode, a0, b0), OperationPath(path, reqMethod) + tail, x)
         == Some(PathItem(path, reqMethod, respCode, a, b))
  {
    var m := KStr(Lower(reqMethod));
    var ks := OperationPath(path, reqMethod) + tail;
    var op' := Operation(respCode, a, b);
    assert ks[1..] == [m] + tail && ks[1..][1..] == tail;
    var md := Dict([(m, Operation(respCode, a0, b0))]);
    SetInAt(md.entries, 0, ks[1..], x, op');
    assert md.entries[0 := (m, op')] == [(m, op')];
    var top := PathItem(path, reqMethod, respCode, a0, b0);
    SetInAt(top.entries, 0, ks, x, Dict([(m, op')]));
    assert top.entries[0 := (KStr(path), Dict([(m, op')]))] == PathItem(path, reqMethod, respCode, a, b).entries;
  }

  /** Overwriting the request body slot of a path item replaces that item only. */
  lemma SetRequestBody(path: string, reqMethod: string, respCode: int, a0: Doc, b0: Doc, a: Doc)
    ensures SetIn(PathItem(path, reqMethod, respCode, a0, b0), RequestBodySlot(path, reqMethod), a)
         == Some(PathItem(path, reqMethod, respCode, a, b0))
  {
    var op := Operation(respCode, a0, b0);
    SetInAt(op.entries, 0, [RequestBodyKey], a, a);
    assert op.entries[0 := (RequestBodyKey, a)] == Operation(respCode, a, b0).entries;
    SetInOperation(path, reqMethod, respCode, a0, b0, a, b0, [RequestBodyKey], a);
  }

  lemma SetResponseItemContent(b0: Doc, b: Doc)
    ensures SetIn(ResponseItem(b0), [ContentKey], b) == Some(ResponseItem(b))
  {
    var item := ResponseItem(b0);
    SetInAt(item.entries, 1, [ContentKey], b, b);
    assert item.entries[1 := (ContentKey, b)] == ResponseItem(b).entries;
  }

  lemma SetResponsesContent(respCode: int, b0: Doc, b: Doc)
    ensures SetIn(Dict([(KInt(respCode), ResponseItem(b0))]), [KInt(respCode), ContentKey], b)
         == Some(Dict([(KInt(respCode), ResponseItem(b))]))
  {
    var code := KInt(respCode);
    assert [code, ContentKey][1..] == [ContentKey];
    SetResponseItemContent(b0, b);
    var rs := Dict([(code, ResponseItem(b0))]);
    SetInAt(rs.entries, 0, [code, ContentKey], b, ResponseItem(b));
    assert rs.entries[0 := (code, ResponseItem(b))] == [(code, ResponseItem(b))];
  }

  lemma SetOperationContent(respCode: int, a0: Doc, b0: Doc, b: Doc)
    ensures SetIn(Operation(respCode, a0, b0), [ResponsesKey, KInt(respCode), ContentKey], b)
         == Some(Operation(respCode, a0, b))
  {
    var code := KInt(respCode);
    var tail := [ResponsesKey, code, ContentKey];
    assert tail[1..] == [code, ContentKey];
    SetResponsesContent(respCode, b0, b);
    var op := Operation(respCode, a0, b0);
    SetInAt(op.entries, 1, tail, b, Dict([(code, ResponseItem(b))]));
    assert op.entries[1 := (ResponsesKey, Dict([(code, ResponseItem(b))]))] == Operation(respCode, a0, b).entries;
  }

  /** Overwriting the response content slot of a path item replaces that item only. */
  lemma SetResponseContent(path: string, reqMethod: string, respCode: int, a0: Doc, b0: Doc, b: Doc)
    ensures SetIn(PathItem(path, reqMethod, respCode, a0, b0), ResponseContentSlot(path, reqMethod, respCode), b)
         == Some(PathItem(path, reqMethod, respCode, a0, b))
  {
    SetOperationContent(respCode, a0, b0, b);
    SetInOperation(path, reqMethod, respCode, a0, b0, a0, b, [ResponsesKey, KInt(respCode), ContentKey], b);
  }

  /** The filled path item holds the given request body and response content in
      their slots; every other place reads as in the skeleton (so the response
      description stays ""), and every dict on the way to a slot keeps the
      skeleton's keys in the skeleton's order. */
  lemma {:induction false} OnlySlotsChange(path: string, reqMethod: string, respCode: int, a: Doc, b: Doc)
    ensures Lookup(PathItem(path, reqMethod, respCode, a, b), RequestBodySlot(path, reqMethod)) == Some(a)
    ensures Lookup(PathItem(path, reqMethod, respCode, a, b), ResponseContentSlot(path, reqMethod, respCode)) == Some(b)
    ensures forall q ::
      Diverge(q, RequestBodySlot(path, reqMethod)) && Diverge(q, ResponseContentSlot(path, reqMethod, respCode)) ==>
      Lookup(PathItem(path, reqMethod, respCode, a, b), q) == Lookup(Skeleton(path, reqMethod, respCode), q)
    ensures forall q ::
      (q < RequestBodySlot(path, reqMethod) || q < ResponseContentSlot(path, reqMethod, respCode)) ==>
      KeysAt(PathItem(path, reqMethod, respCode, a, b), q) == KeysAt(Skeleton(path, reqMethod, respCode), q)
  {
    var req, resp := RequestBodySlot(path, reqMethod), ResponseContentSlot(path, reqMethod, respCode);
    var skel := Skeleton(path, reqMethod, respCode);
    var half := PathItem(path, reqMethod, respCode, a, Leaf(Null));
    var full := PathItem(path, reqMethod, respCode, a, b);
    SetRequestBody(path, reqMethod, respCode, Dict([]), Leaf(Null), a);
    SetResponseContent(path, reqMethod, respCode, a, Leaf(Null), b);
    // Each slot reads back what was stored in it.
    SetRequestBody(path, reqMethod, respCode, a, b, a);
    SetInLookup(full, req, a, req);
    SetResponseContent(path, reqMethod, respCode, a, b, b);
    SetInLookup(full, resp, b, resp);
    assert req[|req|..] == [] && resp[|resp|..] == [];
    // The slots are there in the skeleton and in the half-filled item.
    SetRequestBody(path, reqMethod, respCode, Dict([]), Leaf(Null), Dict([]));
    SetInLookup(skel, req, Dict([]), req);
    SetResponseContent(path, reqMethod, respCode, a, Leaf(Null), Leaf(Null));
    SetInLookup(half, resp, Leaf(Null), resp);
    forall q | Diverge(q, req) && Diverge(q, resp)
      ensures Lookup(full, q) == Lookup(skel, q)
    {
      SetInLookup(skel, req, a, q);
      SetInLookup(half, resp, b, q);
    }
    forall q | q < req || q < resp
      ensures KeysAt(full, q) == KeysAt(skel, q)
    {
      var op := OperationPath(path, reqMethod);
      assert req[..2] == op && resp[..2] == op;
      if q < req {
        // Above the fork: q leads to both slots.
        assert q == req[..|q|];
        assert q < resp by {
          if |q| == 2 { assert q == op; } else { assert q == resp[..|q|]; }
        }
        SetInExisting(skel, req, a, q);
      } else {
        // Past the fork, on the response side.
        assert q == resp[..|q|] && |q| >= 3;
        assert q[2] == ResponsesKey != RequestBodyKey == req[2];
        assert Diverge(req, q);
        SetInLookup(skel, req, a, q);
      }
      SetInExisting(half, resp, b, q);
    }
  }

  /** The path item holds the one path, and under it one operation, under the
      lower-cased method, with `requestBody` and `responses` in that order; the
      request body is `a`, and the one response, under the int code, is
      `{"description": "", "content": b}`. */
  lemma OperationShape(path: string, reqMethod: string, respCode: int, a: Doc, b: Doc)
    ensures KeysAt(PathItem(path, reqMethod, respCode, a, b), []) == Some([KStr(path)])
    ensures KeysAt(PathItem(path, reqMethod, respCode, a, b), [KStr(path)]) == Some([KStr(Lower(reqMethod))])
    ensures KeysAt(PathItem(path, reqMethod, respCode, a, b), OperationPath(path, reqMethod)) == Some([RequestBodyKey, ResponsesKey])
    ensures Lookup(PathItem(path, reqMethod, respCode, a, b), RequestBodySlot(path, reqMethod)) == Some(a)
    ensures KeysAt(PathItem(path, reqMethod, respCode, a, b), OperationPath(path, reqMethod) + [ResponsesKey])
         == Some([KInt(respCode)])
    ensures Lookup(PathItem(path, reqMethod, respCode, a, b), OperationPath(path, reqMethod) + [ResponsesKey, KInt(respCode)])
         == Some(ResponseItem(b))
  {
    var item := PathItem(path, reqMethod, respCode, a, b);
    var op := Operation(respCode, a, b);
    var md := item.entries[0].1;
    GetDistinct(item.entries, 0);
    GetDistinct(md.entries, 0);
    GetDistinct(op.entries, 0);
    GetDistinct(op.entries[1].1.entries, 0);
    GetDistinct(op.entries, 1);
    LookupOne(item, KStr(path));
    LookupTwo(item, KStr(path), KStr(Lower(reqMethod)));
    LookupOne(op, RequestBodyKey);
    LookupOne(op, ResponsesKey);
    LookupTwo(op, ResponsesKey, KInt(respCode));
    LookupAppend(item, OperationPath(path, reqMethod), [RequestBodyKey]);
    LookupAppend(item, OperationPath(path, reqMethod), [ResponsesKey]);
    LookupAppend(item, OperationPath(path, reqMethod), [ResponsesKey, KInt(respCode)]);
    assert Keys(item.entries) == [KStr(path)];
    assert Keys(md.entries) == [KStr(Lower(reqMethod))];
    assert Keys(op.entries) == [RequestBodyKey, ResponsesKey];
    assert Keys(op.entries[1].1.entries) == [KInt(respCode)];
  }

  /** `main`'s path dict: the skeleton, then the request body slot overwritten
      when the request body parsed, then the response content slot overwritten
      when the response body parsed; the schemas come from `_gen_schema`. */
  method AssemblePaths(reqMethod: string, path: string, respCode: int, reqBody: Option<Value>, respBody: Option<Value>)
    returns (paths: Doc)
    requires reqBody.Some? ==> WellFormed(reqBody.value)
    requires respBody.Some? ==> WellFormed(respBody.value)
    ensures paths == PathItem(path, reqMethod, respCode, RequestBodyFor(reqBody), ResponseContentFor(respBody))
  {
    paths := Skeleton(path, reqMethod, respCode);
    if reqBody.Some? {
      var schema := BuildSchema(reqBody.value);
      SetRequestBody(path, reqMethod, respCode, Dict([]), Leaf(Null), RequestBodyFor(reqBody));
      paths := SetIn(paths, RequestBodySlot(path, reqMethod), Dict([(ContentKey, MediaContent(schema))])).value;
    }
    if respBody.Some? {
      var schema := BuildSchema(respBody.value);
      var respContent := MediaContent(schema);
      SetResponseContent(path, reqMethod, respCode, RequestBodyFor(reqBody), Leaf(Null), respContent);
      paths := SetIn(paths, ResponseContentSlot(path, reqMethod, respCode), respContent).value;
    }
  }

  /** The document: "openapi", "info" and "paths" in that order, the fixed
      version, title and info version, and the path dict under "paths". */
  function Document(paths: Doc): (r: Doc)
    ensures KeysAt(r, []) == Some([KStr("openapi"), KStr("info"), PathsKey])
    ensures Lookup(r, [KStr("openapi")]) == Some(Leaf(Str("3.0.0")))
    ensures KeysAt(r, [KStr("info")]) == Some([KStr("title"), KStr("version")])
    ensures Lookup(r, [KStr("info"), KStr("title")]) == Some(Leaf(Str("Generated by json2openapi")))
    ensures Lookup(r, [KStr("info"), KStr("version")]) == Some(Leaf(Str("v1")))
    ensures Lookup(r, [PathsKey]) == Some(paths)
  {
    var info := Dict([(KStr("title"), Leaf(Str(InfoTitle))), (KStr("version"), Leaf(Str(InfoVersion)))]);
    var d := Dict([(KStr("openapi"), Leaf(Str(OpenApiVersion))), (KStr("info"), info), (PathsKey, paths)]);
    GetDistinct(d.entries, 0);
    GetDistinct(d.entries, 1);
    GetDistinct(d.entries, 2);
    GetDistinct(info.entries, 0);
    GetDistinct(info.entries, 1);
    LookupOne(d, KStr("openapi"));
    LookupOne(d, KStr("info"));
    LookupOne(d, PathsKey);
    LookupTwo(d, KStr("info"), KStr("title"));
    LookupTwo(d, KStr("info"), KStr("version"));
    assert Keys(d.entries) == [KStr("openapi"), KStr("info"), PathsKey];
    assert Keys(info.entries) == [KStr("title"), KStr("version")];
    d
  }

  /** The document's fixed fields, and reading below "paths" reads the path dict. */
  lemma DocumentFields(paths: Doc, q: seq<Key>)
    ensures KeysAt(Document(paths), []) == Some([KStr("openapi"), KStr("info"), PathsKey])
    ensures Lookup(Document(paths), [KStr("openapi")]) == Some(Leaf(Str("3.0.0")))
    ensures Lookup(Document(paths), [KStr("info"), KStr("title")]) == Some(Leaf(Str("Generated by json2openapi")))
    ensures Lookup(Document(paths), [KStr("info"), KStr("version")]) == Some(Leaf(Str("v1")))
    ensures Lookup(Document(paths), [PathsKey] + q) == Lookup(paths, q)
  {
    LookupAppend(Document(paths), [PathsKey], q);
  }

  /** `main` up to validation: the assembled path dict inside the document. */
  method GenerateDocument(reqMethod: string, path: string, respCode: int, reqBody: Option<Value>, respBody: Option<Value>)
    returns (oapi: Doc)
    requires reqBody.Some? ==> WellFormed(reqBody.value)
    requires respBody.Some? ==> WellFormed(respBody.value)
    ensures oapi == Document(PathItem(path, reqMethod, respCode, RequestBodyFor(reqBody), ResponseContentFor(respBody)))
  {
    var paths := AssemblePaths(reqMethod, path, respCode, reqBody, respBody);
    oapi := Document(paths);
  }

  lemma RequestBodySchema(v: Value)
    ensures Lookup(RequestBodyFor(Some(v)), [ContentKey, JsonMediaType, SchemaKey]) == Some(GenSchema(v))
  {
    var a := RequestBodyFor(Some(v));
    var mc := a.entries[0].1;
    GetDistinct(a.entries, 0);
    GetDistinct(mc.entries, 0);
    GetDistinct(mc.entries[0].1.entries, 0);
    LookupAppend(a, [ContentKey, JsonMediaType], [SchemaKey]);
    LookupTwo(a, ContentKey, JsonMediaType);
    LookupOne(mc.entries[0].1, SchemaKey);
    assert [ContentKey, JsonMediaType] + [SchemaKey] == [ContentKey, JsonMediaType, SchemaKey];
  }

  /** A parsed request body's schema sits at
      `requestBody.content["application/json"].schema` of the operation. */
  lemma RequestSchemaAt(path: string, reqMethod: string, respCode: int, v: Value, b: Doc)
    ensures Lookup(PathItem(path, reqMethod, respCode, RequestBodyFor(Some(v)), b),
                   RequestBodySlot(path, reqMethod) + [ContentKey, JsonMediaType, SchemaKey])
         == Some(GenSchema(v))
  {
    var a := RequestBodyFor(Some(v));
    OnlySlotsChange(path, reqMethod, respCode, a, b);
    LookupAppend(PathItem(path, reqMethod, respCode, a, b), RequestBodySlot(path, reqMethod), [ContentKey, JsonMediaType, SchemaKey]);
    RequestBodySchema(v);
  }

  /** A parsed response body's schema sits at
      `responses[code].content["application/json"].schema` of the operation. */
  lemma ResponseSchemaAt(path: string, reqMethod: string, respCode: int, a: Doc, v: Value)
    ensures Lookup(PathItem(path, reqMethod, respCode, a, ResponseContentFor(Some(v))),
                   ResponseContentSlot(path, reqMethod, respCode) + [JsonMediaType, SchemaKey])
         == Some(GenSchema(v))
  {
    var b := ResponseContentFor(Some(v));
    OnlySlotsChange(path, reqMethod, respCode, a, b);
    LookupAppend(PathItem(path, reqMethod, respCode, a, b), ResponseContentSlot(path, reqMethod, respCode), [JsonMediaType, SchemaKey]);
    GetDistinct(b.entries, 0);
    GetDistinct(b.entries[0].1.entries, 0);
    LookupTwo(b, JsonMediaType, SchemaKey);
  }

  /** The schema of `{"name": "Ann"}`: an object with one string property. */
  lemma AnnSchema()
    ensures GenSchema(Object([("name", Str("Ann"))]))
         == ObjectNode([(KStr("name"), Dict([(TypeKey, Leaf(Str("string"))), (ExampleKey, Leaf(Str("Ann")))]))])
  {
    var ms := [("name", Str("Ann"))];
    assert GenSchema(ms[0].1) == Dict([(TypeKey, Leaf(Str("string"))), (ExampleKey, Leaf(Str("Ann")))]);
    assert Properties(ms, 1) == [(KStr("name"), GenSchema(ms[0].1))];
  }

  /** POST /users answering 201, with the request body {"name": "Ann"} and no
      response body: the request schema is an object with one string property
      whose example is "Ann", and the response keeps its empty description and
      None content. */
  lemma UsersScenario(doc: Doc)
    requires doc == Document(PathItem("/users", "POST", 201,
                                      RequestBodyFor(Some(Object([("name", Str("Ann"))]))),
                                      ResponseContentFor(None)))
    ensures Lookup(doc, [PathsKey, KStr("/users"), KStr("post"), RequestBodyKey, ContentKey, JsonMediaType, SchemaKey])
         == Some(ObjectNode([(KStr("name"), Dict([(TypeKey, Leaf(Str("string"))), (ExampleKey, Leaf(Str("Ann")))]))]))
    ensures Lookup(doc, [PathsKey, KStr("/users"), KStr("post"), ResponsesKey, KInt(201)])
         == Some(Dict([(DescriptionKey, Leaf(Str(""))), (ContentKey, Leaf(Null))]))
  {
    MethodKeys();
    var body := Object([("name", Str("Ann"))]);
    var a, b := RequestBodyFor(Some(body)), ResponseContentFor(None);
    var item := PathItem("/users", "POST", 201, a, b);
    var reqSchema := RequestBodySlot("/users", "POST") + [ContentKey, JsonMediaType, SchemaKey];
    var response := OperationPath("/users", "POST") + [ResponsesKey, KInt(201)];
    assert [PathsKey] + reqSchema == [PathsKey, KStr("/users"), KStr("post"), RequestBodyKey, ContentKey, JsonMediaType, SchemaKey];
    assert [PathsKey] + response == [PathsKey, KStr("/users"), KStr("post"), ResponsesKey, KInt(201)];
    DocumentFields(item, reqSchema);
    DocumentFields(item, response);
    RequestSchemaAt("/users", "POST", 201, body, b);
    AnnSchema();
    OperationShape("/users", "POST", 201, a, b);
  }
}
