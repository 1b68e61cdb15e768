/** The static Request type and the validation bundle merge the same two
    parameter lists, but in opposite orders. */
module MergeOrder {
  import opened OpenApi
  import opened Parameters
  import opened CodeWriter
  import opened RouteContext
  import opened Validate

  /** With one query parameter `a` on the operation and one query parameter
      `b` on the path item, the static `query` group lists `a` before `b`
      while the `query` validator lists `b` before `a`. */
  lemma {:induction false} MergeOrdersDiffer(path: string, m: HttpMethod, op: Operation, item: PathItem, a: Parameter, b: Parameter)
    requires op.parameters == Some([a]) && item.parameters == Some([b])
    requires a.location == "query" && b.location == "query"
    requires a.schema.Some? && b.schema.Some?
    ensures ParseTypeGroup(RequestInterface(path, m, op, item).properties[0].typeTokens)
         == Some([Field(a.name, !a.required, a.schema), Field(b.name, !b.required, b.schema)])
    ensures var v := ParseValidate(ValidateTokens(op, item));
            v.Some? && v.value.query == [JoiField(b.name, b.schema.value), JoiField(a.name, a.schema.value)]
  {
    StaticQueryOrder(path, m, op, item, a, b);
    ValidateQueryOrder(op, item, a, b);
  }

  lemma {:induction false} StaticQueryOrder(path: string, m: HttpMethod, op: Operation, item: PathItem, a: Parameter, b: Parameter)
    requires op.parameters == Some([a]) && item.parameters == Some([b])
    requires a.location == "query" && b.location == "query"
    ensures ParseTypeGroup(RequestInterface(path, m, op, item).properties[0].typeTokens)
         == Some([Field(a.name, !a.required, a.schema), Field(b.name, !b.required, b.schema)])
  {
    StaticGroups(path, m, op, item);
    QueryOnly(a);
    QueryOnly(b);
    FieldsOfTwo(a, b);
  }

  lemma {:induction false} ValidateQueryOrder(op: Operation, item: PathItem, a: Parameter, b: Parameter)
    requires op.parameters == Some([a]) && item.parameters == Some([b])
    requires a.location == "query" && b.location == "query"
    requires a.schema.Some? && b.schema.Some?
    ensures var v := ParseValidate(ValidateTokens(op, item));
            v.Some? && v.value.query == [JoiField(b.name, b.schema.value), JoiField(a.name, a.schema.value)]
  {
    QueryOnly(a);
    QueryOnly(b);
    JoinedTwo(item.parameters, op.parameters);
    assert Joined([item.parameters, op.parameters]) == [b, a];
    ValidateRoundTrip(op, item);
    assert [b] + [a] == [b, a];
    assert JoiFieldsOf([b, a]) == [JoiField(b.name, b.schema.value)] + JoiFieldsOf([a]);
  }

  lemma {:induction false} FieldsOfTwo(a: Parameter, b: Parameter)
    ensures FieldsOf([a] + [b], true) == [Field(a.name, !a.required, a.schema), Field(b.name, !b.required, b.schema)]
  {
    assert [a] + [b] == [a, b];
  }

  lemma {:induction false} QueryOnly(p: Parameter)
    requires p.location == "query"
    ensures AtLocation([p], "query") == [p]
    ensures AtLocation([p], "path") == [] && AtLocation([p], "header") == []
  {
    assert [p][1..] == [];
  }
}
