/** The `validate<Method>` initializer: the runtime validation bundle of one
    operation, with an optional `body` entry and the `params`, `query` and
    `header` groups. */
module Validate {
  import opened OpenApi
  import opened Parameters
  import opened CodeWriter
  import opened Concat

  /** The tokens of one parameter in a validation group: its name, then,
      only when it has a schema, `: `, its validator and `,`. */
  function JoiFieldTokens(p: Parameter): seq<Token>
  {
    [Lit(p.name)]
    + (if p.schema.Some? then [Lit(": "), JoiSchema(p.schema.value, false, "JoiSchemas"), Lit(",")] else [])
  }

  /** The fields of a validation group: the parameters located in `paramIn`, in order. */
  function JoiFields(ps: seq<Parameter>, paramIn: string): seq<Token>
  {
    if ps == [] then []
    else if ps[0].location == paramIn then JoiFieldTokens(ps[0]) + JoiFields(ps[1..], paramIn)
    else JoiFields(ps[1..], paramIn)
  }

  lemma {:induction false} JoiFieldsAppend(a: seq<Parameter>, b: seq<Parameter>, paramIn: string)
    ensures JoiFields(a + b, paramIn) == JoiFields(a, paramIn) + JoiFields(b, paramIn)
  {
    if a == [] {
      assert a + b == b;
    } else {
      assert (a + b)[1..] == a[1..] + b;
      JoiFieldsAppend(a[1..], b, paramIn);
    }
  }

  lemma {:induction false} JoiFieldsPrefix(ps: seq<Parameter>, i: nat, paramIn: string)
    requires i < |ps|
    ensures JoiFields(ps[..i + 1], paramIn)
         == JoiFields(ps[..i], paramIn) + (if ps[i].location == paramIn then JoiFieldTokens(ps[i]) else [])
  {
    JoiFieldsAppend(ps[..i], [ps[i]], paramIn);
    assert ps[..i + 1] == ps[..i] + [ps[i]];
    assert [ps[i]][1..] == [];
  }

  /** A labelled group: the heading, then the fields between braces. */
  function JoiGroup(heading: string, ps: seq<Parameter>, paramIn: string): seq<Token>
  {
    [Lit(heading), Lit("{")] + JoiFields(ps, paramIn) + [Lit("}")]
  }

  /** The `body` entry: present only when the operation has a request body
      whose first media entry has a schema. */
  function BodyEntry(op: Operation): (r: seq<Token>)
    ensures r != [] <==> FirstMediaSchema(op.requestBody).Some?
    ensures r != [] ==> r == [Lit("body: "), JoiSchema(FirstMediaSchema(op.requestBody).value, false, "JoiSchemas"), Lit(",")]
  {
    if op.requestBody.Some? then
      var media := RequestBodyMedia(op.requestBody);
      if media.Some? && media.value.schema.Some? then
        [Lit("body: "), JoiSchema(media.value.schema.value, false, "JoiSchemas"), Lit(",")]
      else []
    else []
  }

  /** The three groups, in the order `params`, `query`, `header`, and the
      closing brace of the bundle. */
  function GroupsTokens(merged: seq<Parameter>): seq<Token>
  {
    JoiGroup("params: ", merged, "path")
    + (JoiGroup(", query: ", merged, "query")
       + (JoiGroup(", header: ", merged, "header") + [Lit("}")]))
  }

  /** What `writeValidate` writes for an operation of a path item: the
      groups list the path-level parameters before the operation-level ones. */
  function ValidateTokens(op: Operation, item: PathItem): seq<Token>
  {
    [Lit("{")] + (BodyEntry(op) + GroupsTokens(Joined([item.parameters, op.parameters])))
  }

  /** Writes one parameter of a validation group. */
  method WriteJoiField(w: Writer, parameter: Parameter)
    modifies w
    ensures w.tokens == old(w.tokens) + JoiFieldTokens(parameter)
  {
    w.Write(Lit(parameter.name));
    if parameter.schema.Some? {
      w.Write(Lit(": "));
      w.Write(JoiSchema(parameter.schema.value, false, "JoiSchemas"));
      w.Write(Lit(","));
    }
  }

  /** The loop of the `writeParams` closure of `writeValidate`. */
  method WriteJoiFields(w: Writer, ps: seq<Parameter>, paramIn: string)
    modifies w
    ensures w.tokens == old(w.tokens) + JoiFields(ps, paramIn)
  {
    ghost var start := w.tokens;
    for i := 0 to |ps|
      invariant w.tokens == start + JoiFields(ps[..i], paramIn)
    {
      JoiFieldsPrefix(ps, i, paramIn);
      var parameter := ps[i];
      if parameter.location == paramIn {
        WriteJoiField(w, parameter);
      }
    }
    assert ps[..|ps|] == ps;
  }

  /** One labelled group: the heading, then an inline block holding the
      `writeParams` output over the path-level and operation-level
      parameters, in that order. */
  method WriteJoiGroup(w: Writer, heading: string, op: Operation, item: PathItem, paramIn: string)
    modifies w
    ensures w.tokens == old(w.tokens) + JoiGroup(heading, Joined([item.parameters, op.parameters]), paramIn)
  {
    w.Write(Lit(heading));
    w.Write(Lit("{"));
    var merged := JoinParameters([item.parameters, op.parameters]);
    WriteJoiFields(w, merged, paramIn);
    w.Write(Lit("}"));
  }

  /** The `body` part of `writeValidate`. */
  method WriteBodyEntry(w: Writer, op: Operation)
    modifies w
    ensures w.tokens == old(w.tokens) + BodyEntry(op)
  {
    if op.requestBody.Some? {
      var media := RequestBodyMedia(op.requestBody);
      if media.Some? && media.value.schema.Some? {
        w.Write(Lit("body: "));
        w.Write(JoiSchema(media.value.schema.value, false, "JoiSchemas"));
        w.Write(Lit(","));
      }
    }
  }

  /** The three groups and the closing brace. */
  method WriteGroups(w: Writer, op: Operation, item: PathItem)
    modifies w
    ensures w.tokens == old(w.tokens) + GroupsTokens(Joined([item.parameters, op.parameters]))
  {
    ghost var merged := Joined([item.parameters, op.parameters]);
    ghost var start := w.tokens;
    WriteJoiGroup(w, "params: ", op, item, "path");
    ghost var afterParams := w.tokens;
    WriteJoiGroup(w, ", query: ", op, item, "query");
    ghost var afterQuery := w.tokens;
    WriteJoiGroup(w, ", header: ", op, item, "header");
    ghost var afterHeader := w.tokens;
    w.Write(Lit("}"));
    assert w.tokens == afterHeader + [Lit("}")];
    assert w.tokens == afterQuery + (JoiGroup(", header: ", merged, "header") + [Lit("}")]);
    assert w.tokens == afterParams + (JoiGroup(", query: ", merged, "query")
                                      + (JoiGroup(", header: ", merged, "header") + [Lit("}")]));
  }

  /** `writeValidate`, for a method the path item holds: an inline block
      holding the `body` entry and the three groups. */
  method WriteValidate(w: Writer, item: PathItem, m: HttpMethod)
    requires item.OperationFor(m).Some?
    modifies w
    ensures w.tokens == old(w.tokens) + ValidateTokens(item.OperationFor(m).value, item)
  {
    var op := item.OperationFor(m).value;
    ghost var start := w.tokens;
    w.Write(Lit("{"));
    ghost var afterOpen := w.tokens;
    WriteBodyEntry(w, op);
    ghost var afterBody := w.tokens;
    WriteGroups(w, op, item);
    Assoc(afterOpen, BodyEntry(op), GroupsTokens(Joined([item.parameters, op.parameters])));
    Assoc(start, [Lit("{")], BodyEntry(op) + GroupsTokens(Joined([item.parameters, op.parameters])));
  }

  // Reading a validation bundle back.

  /** One field of a validation group: a name and the schema of its validator. */
  datatype JoiField = JoiField(name: string, schema: Schema)

  /** The bundle as read back: the body schema, if any, and the three groups. */
  datatype Validation = Validation(body: Option<Schema>, params: seq<JoiField>, query: seq<JoiField>, header: seq<JoiField>)

  /** The fields a validation group should hold for the parameters `ps`. */
  function JoiFieldsOf(ps: seq<Parameter>): seq<JoiField>
  {
    if ps == [] then []
    else (if ps[0].schema.Some? then [JoiField(ps[0].name, ps[0].schema.value)] else []) + JoiFieldsOf(ps[1..])
  }

  /** Reads fields up to the closing brace of a group and returns them with
      what follows the brace. */
  function ParseJoiFields(ts: seq<Token>): Option<(seq<JoiField>, seq<Token>)>
    decreases |ts|
  {
    if |ts| >= 4 && ts[0].Lit? && ts[1] == Lit(": ")
       && ts[2].JoiSchema? && ts[2] == JoiSchema(ts[2].schema, false, "JoiSchemas") && ts[3] == Lit(",") then
      match ParseJoiFields(ts[4..])
      case None => None
      case Some((fs, rest)) => Some(([JoiField(ts[0].text, ts[2].schema)] + fs, rest))
    else if |ts| >= 1 && ts[0] == Lit("}") then Some(([], ts[1..]))
    else None
  }

  function ParseJoiGroup(heading: string, ts: seq<Token>): Option<(seq<JoiField>, seq<Token>)>
  {
    if |ts| >= 2 && ts[0] == Lit(heading) && ts[1] == Lit("{") then ParseJoiFields(ts[2..]) else None
  }

  /** Reads an optional `body` entry. */
  function ParseBodyEntry(ts: seq<Token>): (Option<Schema>, seq<Token>)
  {
    if |ts| >= 3 && ts[0] == Lit("body: ") && ts[1].JoiSchema?
       && ts[1] == JoiSchema(ts[1].schema, false, "JoiSchemas") && ts[2] == Lit(",") then
      (Some(ts[1].schema), ts[3..])
    else (None, ts)
  }

  /** Reads the three groups and the closing brace. */
  function ParseGroups(ts: seq<Token>): Option<(seq<JoiField>, seq<JoiField>, seq<JoiField>)>
  {
    match ParseJoiGroup("params: ", ts)
    case None => None
    case Some((params, afterParams)) =>
      match ParseJoiGroup(", query: ", afterParams)
      case None => None
      case Some((query, afterQuery)) =>
        match ParseJoiGroup(", header: ", afterQuery)
        case None => None
        case Some((header, afterHeader)) =>
          if afterHeader == [Lit("}")] then Some((params, query, header)) else None
  }

  function ParseValidate(ts: seq<Token>): Option<Validation>
  {
    if |ts| >= 1 && ts[0] == Lit("{") then
      var (body, afterBody) := ParseBodyEntry(ts[1..]);
      match ParseGroups(afterBody)
      case None => None
      case Some((params, query, header)) => Some(Validation(body, params, query, header))
    else None
  }

  /** Every parameter the bundle lists has a schema. */
  predicate SchemasWhereValidated(ps: seq<Parameter>)
  {
    forall p :: p in ps && (p.location == "path" || p.location == "query" || p.location == "header") ==> p.schema.Some?
  }

  lemma {:induction false} JoiFieldsRoundTrip(ps: seq<Parameter>, paramIn: string, rest: seq<Token>)
    requires forall p :: p in ps && p.location == paramIn ==> p.schema.Some?
    requires rest == [] || rest[0] != Lit(": ")
    ensures ParseJoiFields(JoiFields(ps, paramIn) + [Lit("}")] + rest)
         == Some((JoiFieldsOf(AtLocation(ps, paramIn)), rest))
  {
    if ps == [] {
      assert JoiFields(ps, paramIn) + [Lit("}")] + rest == [Lit("}")] + rest;
    } else {
      JoiFieldsRoundTrip(ps[1..], paramIn, rest);
      if ps[0].location == paramIn {
        JoiRoundTripStep(ps, paramIn, rest);
      } else {
        assert AtLocation(ps, paramIn) == AtLocation(ps[1..], paramIn);
      }
    }
  }

  lemma {:induction false} JoiRoundTripStep(ps: seq<Parameter>, paramIn: string, rest: seq<Token>)
    requires ps != [] && ps[0].location == paramIn && ps[0].schema.Some?
    requires rest == [] || rest[0] != Lit(": ")
    requires ParseJoiFields(JoiFields(ps[1..], paramIn) + [Lit("}")] + rest)
          == Some((JoiFieldsOf(AtLocation(ps[1..], paramIn)), rest))
    ensures ParseJoiFields(JoiFields(ps, paramIn) + [Lit("}")] + rest)
         == Some((JoiFieldsOf(AtLocation(ps, paramIn)), rest))
  {
    var head, fields := JoiFieldTokens(ps[0]), JoiFields(ps[1..], paramIn);
    var tail := fields + [Lit("}")] + rest;
    assert JoiFields(ps, paramIn) == head + fields;
    Assoc(head, fields, [Lit("}")]);
    Assoc(head, fields + [Lit("}")], rest);
    ParseJoiFieldTokens(ps[0], tail);
    assert AtLocation(ps, paramIn) == [ps[0]] + AtLocation(ps[1..], paramIn);
    JoiFieldsOfCons(ps[0], AtLocation(ps[1..], paramIn));
  }

  /** One written field with a schema reads back as that field. */
  lemma {:induction false} ParseJoiFieldTokens(p: Parameter, tail: seq<Token>)
    requires p.schema.Some?
    ensures ParseJoiFields(JoiFieldTokens(p) + tail)
         == match ParseJoiFields(tail)
            case None => None
            case Some((fs, rest)) => Some(([JoiField(p.name, p.schema.value)] + fs, rest))
  {
    assert (JoiFieldTokens(p) + tail)[4..] == tail;
  }

  lemma {:induction false} JoiFieldsOfCons(p: Parameter, rest: seq<Parameter>)
    requires p.schema.Some?
    ensures JoiFieldsOf([p] + rest) == [JoiField(p.name, p.schema.value)] + JoiFieldsOf(rest)
  {
    assert ([p] + rest)[1..] == rest;
  }

  lemma {:induction false} JoiGroupRoundTrip(heading: string, ps: seq<Parameter>, paramIn: string, rest: seq<Token>)
    requires forall p :: p in ps && p.location == paramIn ==> p.schema.Some?
    requires rest == [] || rest[0] != Lit(": ")
    ensures ParseJoiGroup(heading, JoiGroup(heading, ps, paramIn) + rest)
         == Some((JoiFieldsOf(AtLocation(ps, paramIn)), rest))
  {
    var ts := JoiGroup(heading, ps, paramIn) + rest;
    assert ts[2..] == JoiFields(ps, paramIn) + [Lit("}")] + rest;
    JoiFieldsRoundTrip(ps, paramIn, rest);
  }

  lemma {:induction false} BodyEntryRoundTrip(op: Operation, rest: seq<Token>)
    requires rest != [] && rest[0] != Lit("body: ")
    ensures ParseBodyEntry(BodyEntry(op) + rest) == (FirstMediaSchema(op.requestBody), rest)
  {
    if BodyEntry(op) != [] {
      assert (BodyEntry(op) + rest)[3..] == rest;
    } else {
      assert BodyEntry(op) + rest == rest;
    }
  }

  lemma {:induction false} GroupsRoundTrip(merged: seq<Parameter>)
    requires SchemasWhereValidated(merged)
    ensures ParseGroups(GroupsTokens(merged))
         == Some((JoiFieldsOf(AtLocation(merged, "path")),
                  JoiFieldsOf(AtLocation(merged, "query")),
                  JoiFieldsOf(AtLocation(merged, "header"))))
  {
    var h := JoiGroup(", header: ", merged, "header") + [Lit("}")];
    var q := JoiGroup(", query: ", merged, "query") + h;
    assert h[0] == Lit(", header: ");
    assert q[0] == Lit(", query: ");
    JoiGroupRoundTrip("params: ", merged, "path", q);
    JoiGroupRoundTrip(", query: ", merged, "query", h);
    JoiGroupRoundTrip(", header: ", merged, "header", [Lit("}")]);
  }

  /** When every listed parameter has a schema, the bundle reads back as
      the first media schema of the body, if any, then the `params`,
      `query` and `header` groups in that order, each holding the path-level
      parameters of its location and then the operation-level ones. */
  lemma {:induction false} ValidateRoundTrip(op: Operation, item: PathItem)
    requires SchemasWhereValidated(Joined([item.parameters, op.parameters]))
    ensures ParseValidate(ValidateTokens(op, item))
         == Some(Validation(
              FirstMediaSchema(op.requestBody),
              JoiFieldsOf(AtLocation(Present(item.parameters), "path") + AtLocation(Present(op.parameters), "path")),
              JoiFieldsOf(AtLocation(Present(item.parameters), "query") + AtLocation(Present(op.parameters), "query")),
              JoiFieldsOf(AtLocation(Present(item.parameters), "header") + AtLocation(Present(op.parameters), "header"))))
  {
    var merged := Joined([item.parameters, op.parameters]);
    JoinedTwo(item.parameters, op.parameters);
    AtLocationAppend(Present(item.parameters), Present(op.parameters), "path");
    AtLocationAppend(Present(item.parameters), Present(op.parameters), "query");
    AtLocationAppend(Present(item.parameters), Present(op.parameters), "header");
    var g := GroupsTokens(merged);
    assert g[0] == Lit("params: ");
    assert ValidateTokens(op, item)[1..] == BodyEntry(op) + g;
    BodyEntryRoundTrip(op, g);
    GroupsRoundTrip(merged);
  }

  /** A parameter without a schema writes only its name: two such
      parameters write the same text as one whose name is both names
      run together. */
  lemma {:induction false} SchemalessNamesRunTogether(a: Parameter, b: Parameter, paramIn: string)
    requires a.location == paramIn && b.location == paramIn
    requires a.schema.None? && b.schema.None?
    ensures JoiFields([a, b], paramIn) == [Lit(a.name), Lit(b.name)]
    ensures LiteralText(JoiFields([a, b], paramIn))
         == LiteralText(JoiFields([Parameter(a.name + b.name, paramIn, a.required, None)], paramIn))
  {
    assert [a, b][1..] == [b];
    assert [b][1..] == [];
    var joined := [Parameter(a.name + b.name, paramIn, a.required, None)];
    assert joined[1..] == [];
    assert JoiFields(joined, paramIn) == [Lit(a.name + b.name)];
    var ts := [Lit(a.name), Lit(b.name)];
    assert ts[1..][1..] == [];
    assert LiteralText(ts) == a.name + LiteralText(ts[1..]);
    assert LiteralText(ts[1..]) == b.name + LiteralText([]);
    assert [Lit(a.name + b.name)][1..] == [];
  }
}
