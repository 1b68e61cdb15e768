/** The Request and Context interfaces the generator emits for one
    operation: four parameter groups, the body, and the request link. */
module RouteContext {
  import opened OpenApi
  import opened Naming
  import opened Parameters
  import opened CodeWriter

  /** The tokens of one parameter in a static group: its name, `?` when
      non-required parameters are marked and this one is not required,
      `:` and its type when it has a schema, and always `,`. */
  function FieldTokens(p: Parameter, markNonRequired: bool): seq<Token>
  {
    [Lit(p.name)]
    + (if markNonRequired && !p.required then [Lit("?")] else [])
    + (if p.schema.Some? then [Lit(":"), TypeLiteral(p.schema.value, None)] else [])
    + [Lit(",")]
  }

  /** The fields of a static group: the parameters located in `paramsIn`, in order. */
  function TypeFields(ps: seq<Parameter>, paramsIn: string, markNonRequired: bool): seq<Token>
  {
    if ps == [] then []
    else if ps[0].location == paramsIn then FieldTokens(ps[0], markNonRequired) + TypeFields(ps[1..], paramsIn, markNonRequired)
    else TypeFields(ps[1..], paramsIn, markNonRequired)
  }

  lemma {:induction false} TypeFieldsAppend(a: seq<Parameter>, b: seq<Parameter>, paramsIn: string, markNonRequired: bool)
    ensures TypeFields(a + b, paramsIn, markNonRequired)
         == TypeFields(a, paramsIn, markNonRequired) + TypeFields(b, paramsIn, markNonRequired)
  {
    if a == [] {
      assert a + b == b;
    } else {
      assert (a + b)[1..] == a[1..] + b;
      TypeFieldsAppend(a[1..], b, paramsIn, markNonRequired);
    }
  }

  /** What the `writeParams` writer of a static group writes. */
  function TypeGroup(ps: seq<Parameter>, paramsIn: string, markNonRequired: bool): seq<Token>
  {
    [Lit("{")] + TypeFields(ps, paramsIn, markNonRequired) + [Lit("}")]
  }

  /** Writes one parameter of a static group. */
  method WriteTypeField(w: Writer, parameter: Parameter, markNonRequired: bool)
    modifies w
    ensures w.tokens == old(w.tokens) + FieldTokens(parameter, markNonRequired)
  {
    w.Write(Lit(parameter.name));
    if markNonRequired && !parameter.required {
      w.Write(Lit("?"));
    }
    if parameter.schema.Some? {
      w.Write(Lit(":"));
      w.Write(TypeLiteral(parameter.schema.value, None));
    }
    w.Write(Lit(","));
  }

  /** The loop of a `writeParams` writer: every parameter located in
      `paramsIn`, in order, and nothing for the others. */
  method WriteTypeFields(w: Writer, ps: seq<Parameter>, paramsIn: string, markNonRequired: bool)
    modifies w
    ensures w.tokens == old(w.tokens) + TypeFields(ps, paramsIn, markNonRequired)
  {
    ghost var start := w.tokens;
    for i := 0 to |ps|
      invariant w.tokens == start + TypeFields(ps[..i], paramsIn, markNonRequired)
    {
      TypeFieldsPrefix(ps, i, paramsIn, markNonRequired);
      var parameter := ps[i];
      if parameter.location == paramsIn {
        WriteTypeField(w, parameter, markNonRequired);
      }
    }
    assert ps[..|ps|] == ps;
  }

  /** The `writeParams` writer of `createRouteContextType`: the merged
      parameters, operation-level first, that are located in `paramsIn`,
      between braces. */
  method WriteTypeParams(w: Writer, op: Operation, item: PathItem, paramsIn: string, markNonRequired: bool)
    modifies w
    ensures w.tokens == old(w.tokens) + TypeGroup(Joined([op.parameters, item.parameters]), paramsIn, markNonRequired)
  {
    w.Write(Lit("{"));
    var merged := JoinParameters([op.parameters, item.parameters]);
    WriteTypeFields(w, merged, paramsIn, markNonRequired);
    w.Write(Lit("}"));
  }

  lemma {:induction false} TypeFieldsPrefix(ps: seq<Parameter>, i: nat, paramsIn: string, markNonRequired: bool)
    requires i < |ps|
    ensures TypeFields(ps[..i + 1], paramsIn, markNonRequired)
         == TypeFields(ps[..i], paramsIn, markNonRequired)
            + (if ps[i].location == paramsIn then FieldTokens(ps[i], markNonRequired) else [])
  {
    TypeFieldsAppend(ps[..i], [ps[i]], paramsIn, markNonRequired);
    assert ps[..i + 1] == ps[..i] + [ps[i]];
    assert [ps[i]][1..] == [];
  }

  /** What the body writer writes: the type of the first media entry's
      schema in the shared schema namespace, or `undefined`. */
  function BodyType(op: Operation): (r: seq<Token>)
    ensures FirstMediaSchema(op.requestBody).Some? ==>
              r == [TypeLiteral(FirstMediaSchema(op.requestBody).value, Some("ApiSchemas"))]
    ensures FirstMediaSchema(op.requestBody).None? ==> r == [Lit("undefined")]
  {
    var media := RequestBodyMedia(op.requestBody);
    if media.Some? && media.value.schema.Some? then [TypeLiteral(media.value.schema.value, Some("ApiSchemas"))]
    else [Lit("undefined")]
  }

  /** The body writer of `createRouteContextType`. */
  method WriteBodyType(w: Writer, op: Operation)
    modifies w
    ensures w.tokens == old(w.tokens) + BodyType(op)
  {
    var media := RequestBodyMedia(op.requestBody);
    if media.Some? && media.value.schema.Some? {
      w.Write(TypeLiteral(media.value.schema.value, Some("ApiSchemas")));
    } else {
      w.Write(Lit("undefined"));
    }
  }

  /** The properties the Request and Context interfaces share: `query`,
      `headers` and `header`, never optional, the last two alike. */
  function SharedProperties(op: Operation, item: PathItem): (r: seq<PropertySignature>)
    ensures |r| == 3 && r[0].name == "query" && r[1].name == "headers" && r[2].name == "header"
    ensures !r[0].hasQuestionToken && !r[1].hasQuestionToken && !r[2].hasQuestionToken
    ensures r[1].typeTokens == r[2].typeTokens
  {
    var merged := Joined([op.parameters, item.parameters]);
    [ PropertySignature("query", false, TypeGroup(merged, "query", true)),
      PropertySignature("headers", false, TypeGroup(merged, "header", true)),
      PropertySignature("header", false, TypeGroup(merged, "header", true)) ]
  }

  /** The Request interface: the shared properties, then `params` and `body`. */
  function RequestInterface(path: string, m: HttpMethod, op: Operation, item: PathItem): (r: Statement)
    ensures r.InterfaceDecl? && r.name == TypeName(path, m.Name(), "Request")
    ensures r.bases == ["koa.Request"] && r.isExported
    ensures |r.properties| == 5 && r.properties[..3] == SharedProperties(op, item)
    ensures r.properties[3].name == "params" && !r.properties[3].hasQuestionToken
    ensures r.properties[4].name == "body" && r.properties[4].typeTokens == BodyType(op)
    ensures r.properties[4].hasQuestionToken <==> op.requestBody.Some? && !op.requestBody.value.required
  {
    var merged := Joined([op.parameters, item.parameters]);
    var params := PropertySignature("params", false, TypeGroup(merged, "path", false));
    var body := PropertySignature("body", op.requestBody.Some? && !op.requestBody.value.required, BodyType(op));
    InterfaceDecl(TypeName(path, m.Name(), "Request"), ["koa.Request"], true, SharedProperties(op, item) + [params, body])
  }

  /** The Context interface: the shared properties, then `request` typed
      by the Request interface's name. */
  function ContextInterface(path: string, m: HttpMethod, op: Operation, item: PathItem): (r: Statement)
    ensures r.InterfaceDecl? && r.name == TypeName(path, m.Name(), "Context")
    ensures r.bases == ["koa.Context"] && r.isExported
    ensures |r.properties| == 4 && r.properties[..3] == SharedProperties(op, item)
    ensures r.properties[3] == PropertySignature("request", false, [Lit(TypeName(path, m.Name(), "Request"))])
  {
    var request := PropertySignature("request", false, [Lit(TypeName(path, m.Name(), "Request"))]);
    InterfaceDecl(TypeName(path, m.Name(), "Context"), ["koa.Context"], true, SharedProperties(op, item) + [request])
  }

  /** The two interfaces `createRouteContextType` returns for a method the
      path item holds: the Request interface, then the Context interface,
      under different names and sharing their first three properties. */
  function RouteContextTypes(path: string, m: HttpMethod, item: PathItem): (r: seq<Statement>)
    requires item.OperationFor(m).Some?
    ensures |r| == 2 && r[0].InterfaceDecl? && r[1].InterfaceDecl?
    ensures r[0].name == TypeName(path, m.Name(), "Request") && r[1].name == TypeName(path, m.Name(), "Context")
    ensures r[0].name != r[1].name
    ensures |r[0].properties| == 5 && |r[1].properties| == 4
    ensures r[1].properties[..3] == r[0].properties[..3]
    ensures r[1].properties[3].typeTokens == [Lit(r[0].name)]
  {
    var op := item.OperationFor(m).value;
    TypeNameSuffixes(path, m.Name(), "Request", "Context");
    [RequestInterface(path, m, op, item), ContextInterface(path, m, op, item)]
  }

  /** `createRouteContextType`: each property's type writer is run on a
      writer of its own. */
  method CreateRouteContextType(path: string, m: HttpMethod, item: PathItem) returns (r: seq<Statement>)
    requires item.OperationFor(m).Some?
    ensures r == RouteContextTypes(path, m, item)
  {
    var op := item.OperationFor(m).value;
    var queryWriter := new Writer();
    WriteTypeParams(queryWriter, op, item, "query", true);
    var headersWriter := new Writer();
    WriteTypeParams(headersWriter, op, item, "header", true);
    var headerWriter := new Writer();
    WriteTypeParams(headerWriter, op, item, "header", true);
    var paramsWriter := new Writer();
    WriteTypeParams(paramsWriter, op, item, "path", false);
    var bodyWriter := new Writer();
    WriteBodyType(bodyWriter, op);
    var merged := Joined([op.parameters, item.parameters]);
    assert queryWriter.tokens == TypeGroup(merged, "query", true);
    assert headersWriter.tokens == TypeGroup(merged, "header", true);
    assert headerWriter.tokens == TypeGroup(merged, "header", true);
    assert paramsWriter.tokens == TypeGroup(merged, "path", false);
    assert bodyWriter.tokens == BodyType(op);
    var shared := [ PropertySignature("query", false, queryWriter.tokens),
                    PropertySignature("headers", false, headersWriter.tokens),
                    PropertySignature("header", false, headerWriter.tokens) ];
    assert shared == SharedProperties(op, item);
    var params := PropertySignature("params", false, paramsWriter.tokens);
    var body := PropertySignature("body", op.requestBody.Some? && !op.requestBody.value.required, bodyWriter.tokens);
    var requestName := TypeName(path, m.Name(), "Request");
    var request := PropertySignature("request", false, [Lit(requestName)]);
    var requestInterface := InterfaceDecl(requestName, ["koa.Request"], true, shared + [params, body]);
    var contextInterface := InterfaceDecl(TypeName(path, m.Name(), "Context"), ["koa.Context"], true, shared + [request]);
    RequestInterfaceParts(path, m, op, item);
    r := [requestInterface, contextInterface];
  }

  /** The Request and Context interfaces, assembled from their parts. */
  lemma {:induction false} RequestInterfaceParts(path: string, m: HttpMethod, op: Operation, item: PathItem)
    requires item.OperationFor(m) == Some(op)
    ensures var merged := Joined([op.parameters, item.parameters]);
            var shared := SharedProperties(op, item);
            var requestName := TypeName(path, m.Name(), "Request");
            var params := PropertySignature("params", false, TypeGroup(merged, "path", false));
            var body := PropertySignature("body", op.requestBody.Some? && !op.requestBody.value.required, BodyType(op));
            RouteContextTypes(path, m, item)
            == [ InterfaceDecl(requestName, ["koa.Request"], true, shared + [params, body]),
                 InterfaceDecl(TypeName(path, m.Name(), "Context"), ["koa.Context"], true,
                               shared + [PropertySignature("request", false, [Lit(requestName)])]) ]
  {
  }

  // Reading a static group back.

  /** One field of a static group: its name, whether it has the `?`
      marker, and the schema its type was written from. */
  datatype Field = Field(name: string, optional: bool, schema: Option<Schema>)

  /** The fields a static group should hold for the parameters `ps`. */
  function FieldsOf(ps: seq<Parameter>, markNonRequired: bool): seq<Field>
  {
    seq(|ps|, i requires 0 <= i < |ps| => Field(ps[i].name, markNonRequired && !ps[i].required, ps[i].schema))
  }

  /** Reads the fields back from the tokens between a group's braces:
      a name, an optional `?`, an optional `:` and type, then `,`. */
  function ParseTypeFields(ts: seq<Token>): Option<seq<Field>>
    decreases |ts|
  {
    if ts == [] then Some([])
    else if !ts[0].Lit? then None
    else
      var optional := |ts| > 1 && ts[1] == Lit("?");
      var k := if optional then 2 else 1;
      var typed := |ts| > k + 1 && ts[k] == Lit(":") && ts[k + 1].TypeLiteral?;
      var j := if typed then k + 2 else k;
      if j < |ts| && ts[j] == Lit(",") then
        match ParseTypeFields(ts[j + 1..])
        case None => None
        case Some(rest) => Some([Field(ts[0].text, optional, if typed then Some(ts[k + 1].schema) else None)] + rest)
      else None
  }

  function ParseTypeGroup(ts: seq<Token>): Option<seq<Field>>
  {
    if |ts| >= 2 && ts[0] == Lit("{") && ts[|ts| - 1] == Lit("}") then ParseTypeFields(ts[1..|ts| - 1])
    else None
  }

  lemma {:induction false} ParseFieldTokens(p: Parameter, markNonRequired: bool, rest: seq<Token>)
    ensures ParseTypeFields(FieldTokens(p, markNonRequired) + rest)
         == match ParseTypeFields(rest)
            case None => None
            case Some(fs) => Some([Field(p.name, markNonRequired && !p.required, p.schema)] + fs)
  {
    var ts := FieldTokens(p, markNonRequired) + rest;
    var optional := markNonRequired && !p.required;
    var k := if optional then 2 else 1;
    var j := if p.schema.Some? then k + 2 else k;
    assert ts[j + 1..] == rest;
  }

  /** A static group reads back as exactly its parameters located in
      `paramsIn`, in order, each marked optional exactly when non-required
      parameters are marked and it is not required, and typed exactly when
      it has a schema. */
  lemma {:induction false} TypeFieldsRoundTrip(ps: seq<Parameter>, paramsIn: string, markNonRequired: bool)
    ensures ParseTypeFields(TypeFields(ps, paramsIn, markNonRequired))
         == Some(FieldsOf(AtLocation(ps, paramsIn), markNonRequired))
  {
    if ps == [] {
      assert FieldsOf([], markNonRequired) == [];
    } else {
      TypeFieldsRoundTrip(ps[1..], paramsIn, markNonRequired);
      if ps[0].location == paramsIn {
        RoundTripStep(ps, paramsIn, markNonRequired);
      } else {
        assert AtLocation(ps, paramsIn) == AtLocation(ps[1..], paramsIn);
      }
    }
  }

  lemma {:induction false} RoundTripStep(ps: seq<Parameter>, paramsIn: string, markNonRequired: bool)
    requires ps != [] && ps[0].location == paramsIn
    requires ParseTypeFields(TypeFields(ps[1..], paramsIn, markNonRequired))
          == Some(FieldsOf(AtLocation(ps[1..], paramsIn), markNonRequired))
    ensures ParseTypeFields(TypeFields(ps, paramsIn, markNonRequired))
         == Some(FieldsOf(AtLocation(ps, paramsIn), markNonRequired))
  {
    var rest := AtLocation(ps[1..], paramsIn);
    ParseFieldTokens(ps[0], markNonRequired, TypeFields(ps[1..], paramsIn, markNonRequired));
    assert AtLocation(ps, paramsIn) == [ps[0]] + rest;
    FieldsOfCons(ps[0], rest, markNonRequired);
  }

  lemma {:induction false} FieldsOfCons(p: Parameter, rest: seq<Parameter>, markNonRequired: bool)
    ensures FieldsOf([p] + rest, markNonRequired)
         == [Field(p.name, markNonRequired && !p.required, p.schema)] + FieldsOf(rest, markNonRequired)
  {
  }

  lemma {:induction false} TypeGroupRoundTrip(ps: seq<Parameter>, paramsIn: string, markNonRequired: bool)
    ensures ParseTypeGroup(TypeGroup(ps, paramsIn, markNonRequired))
         == Some(FieldsOf(AtLocation(ps, paramsIn), markNonRequired))
  {
    var g := TypeGroup(ps, paramsIn, markNonRequired);
    assert g[1..|g| - 1] == TypeFields(ps, paramsIn, markNonRequired);
    TypeFieldsRoundTrip(ps, paramsIn, markNonRequired);
  }

  /** The static groups of an operation: each lists the operation-level
      parameters of its location, then the path-level ones; `query`,
      `headers` and `header` mark every non-required parameter optional,
      while `params` marks none. */
  lemma {:induction false} StaticGroups(path: string, m: HttpMethod, op: Operation, item: PathItem)
    ensures var r := RequestInterface(path, m, op, item);
            && ParseTypeGroup(r.properties[0].typeTokens)
               == Some(FieldsOf(AtLocation(Present(op.parameters), "query") + AtLocation(Present(item.parameters), "query"), true))
            && ParseTypeGroup(r.properties[1].typeTokens)
               == Some(FieldsOf(AtLocation(Present(op.parameters), "header") + AtLocation(Present(item.parameters), "header"), true))
            && ParseTypeGroup(r.properties[3].typeTokens)
               == Some(FieldsOf(AtLocation(Present(op.parameters), "path") + AtLocation(Present(item.parameters), "path"), false))
    ensures var fields := ParseTypeGroup(RequestInterface(path, m, op, item).properties[3].typeTokens);
            fields.Some? && forall f :: f in fields.value ==> !f.optional
  {
    var merged := Joined([op.parameters, item.parameters]);
    JoinedTwo(op.parameters, item.parameters);
    AtLocationAppend(Present(op.parameters), Present(item.parameters), "query");
    AtLocationAppend(Present(op.parameters), Present(item.parameters), "header");
    AtLocationAppend(Present(op.parameters), Present(item.parameters), "path");
    TypeGroupRoundTrip(merged, "query", true);
    TypeGroupRoundTrip(merged, "header", true);
    TypeGroupRoundTrip(merged, "path", false);
  }
}
