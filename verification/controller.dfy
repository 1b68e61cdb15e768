/** The statements emitted for one path: the Request and Context interfaces
    of each of its operations, then an abstract controller class with one
    abstract handler and one `validate<Method>` property per operation and a
    `createRouter` method registering one route per operation. */
module Controller {
  import opened OpenApi
  import opened ChangeCase
  import opened Naming
  import opened CodeWriter
  import opened Methods
  import opened RouteContext
  import opened Validate
  import opened Concat

  // Context types.

  /** The interfaces of a method the path item holds. */
  function InterfacesOf(path: string, item: PathItem): HttpMethod --> seq<Statement>
  {
    m requires item.OperationFor(m).Some? => RouteContextTypes(path, m, item)
  }

  /** The interfaces of each of the methods `ms`, in order. */
  function TypeGroups(path: string, item: PathItem, ms: seq<HttpMethod>): (r: seq<seq<Statement>>)
    requires forall m :: m in ms ==> item.OperationFor(m).Some?
    ensures |r| == |ms|
  {
    MapDefined(InterfacesOf(path, item), ms)
  }

  /** What `createContextTypes` returns: two interfaces per method the
      path item holds, in the fixed operation order. */
  function ContextTypes(path: string, item: PathItem): seq<Statement>
  {
    Flatten(TypeGroups(path, item, AvailableMethods(item)))
  }

  /** Interface `2k` is the Request interface and interface `2k + 1` the
      Context interface of the `k`-th method the path item holds. */
  lemma {:induction false} ContextTypesAt(path: string, item: PathItem, k: nat)
    requires k < |AvailableMethods(item)|
    ensures |ContextTypes(path, item)| == 2 * |AvailableMethods(item)|
    ensures var m := AvailableMethods(item)[k];
            var op := item.OperationFor(m).value;
            && ContextTypes(path, item)[2 * k] == RequestInterface(path, m, op, item)
            && ContextTypes(path, item)[2 * k + 1] == ContextInterface(path, m, op, item)
  {
    var gs := TypeGroups(path, item, AvailableMethods(item));
    FlattenUniform(gs, 2, k);
    var g := Flatten(gs)[2 * k .. 2 * k + 2];
    assert g[0] == Flatten(gs)[2 * k] && g[1] == Flatten(gs)[2 * k + 1];
  }

  lemma {:induction false} TypeGroupsSnoc(path: string, item: PathItem, ms: seq<HttpMethod>, m: HttpMethod)
    requires forall x :: x in ms ==> item.OperationFor(x).Some?
    requires item.OperationFor(m).Some?
    ensures TypeGroups(path, item, ms + [m]) == TypeGroups(path, item, ms) + [RouteContextTypes(path, m, item)]
  {
    MapDefinedSnoc(InterfacesOf(path, item), ms, m);
  }

  /** `createContextTypes`: visits the eight methods in the fixed order and
      appends the interfaces of each one the path item holds. */
  method CreateContextTypes(path: string, item: PathItem) returns (result: seq<Statement>)
    ensures result == ContextTypes(path, item)
  {
    result := ContextTypesOver(path, item, HttpOperations);
  }

  /** The loop of `createContextTypes`, over the methods `ms`. */
  method ContextTypesOver(path: string, item: PathItem, ms: seq<HttpMethod>) returns (result: seq<Statement>)
    ensures result == Flatten(TypeGroups(path, item, MethodsIn(ms, item)))
  {
    result := [];
    for i := 0 to |ms|
      invariant result == Flatten(TypeGroups(path, item, MethodsIn(ms[..i], item)))
    {
      var m := ms[i];
      ContextTypesStep(path, item, ms, i);
      if item.OperationFor(m).Some? {
        var types := CreateRouteContextType(path, m, item);
        result := result + types;
      }
    }
    assert ms[..|ms|] == ms;
  }

  lemma {:induction false} ContextTypesStep(path: string, item: PathItem, ms: seq<HttpMethod>, i: nat)
    requires i < |ms|
    ensures item.OperationFor(ms[i]).Some? ==>
              Flatten(TypeGroups(path, item, MethodsIn(ms[..i + 1], item)))
              == Flatten(TypeGroups(path, item, MethodsIn(ms[..i], item))) + RouteContextTypes(path, ms[i], item)
    ensures item.OperationFor(ms[i]).None? ==>
              MethodsIn(ms[..i + 1], item) == MethodsIn(ms[..i], item)
  {
    MethodsInPrefix(ms, i, item);
    if item.OperationFor(ms[i]).Some? {
      TypeGroupsSnoc(path, item, MethodsIn(ms[..i], item), ms[i]);
      FlattenSnoc(TypeGroups(path, item, MethodsIn(ms[..i], item)), RouteContextTypes(path, ms[i], item));
    }
  }

  // Handler methods.

  /** The name the generator gives the handler of a method and refers to in its route. */
  function HandlerName(name: string): string
  {
    "handle" + PascalCase(name)
  }

  /** `createHandleMethod`: an abstract `void` method taking the Context
      interface of the route. */
  function HandleMethod(path: string, m: HttpMethod): (r: MethodDecl)
    ensures r.name == HandlerName(m.Name())
    ensures r.isAbstract && r.returnType == "void" && r.statements == []
    ensures r.parameters == [MethodParameter("ctx", TypeName(path, m.Name(), "Context"))]
  {
    MethodNameIsWord(m);
    LowerWord(m.Name());
    HandleNameAgreement(m.Name());
    MethodDecl(CamelCase("handle " + m.Name()), "void", true, [MethodParameter("ctx", TypeName(path, m.Name(), "Context"))], [])
  }

  /** `createHandleMethods`: one handler per method the path item holds, in
      the fixed order, no two with the same name. */
  function HandleMethods(path: string, item: PathItem): (r: seq<MethodDecl>)
    ensures |r| == |AvailableMethods(item)|
    ensures forall k :: 0 <= k < |r| ==> r[k] == HandleMethod(path, AvailableMethods(item)[k])
    ensures forall i, j :: 0 <= i < j < |r| ==> r[i].name != r[j].name
  {
    var ms := AvailableMethods(item);
    var r := seq(|ms|, k requires 0 <= k < |ms| => HandleMethod(path, ms[k]));
    assert forall i, j :: 0 <= i < j < |r| ==> r[i].name != r[j].name by {
      forall i, j | 0 <= i < j < |r|
        ensures r[i].name != r[j].name
      {
        assert ms[i].Rank() < ms[j].Rank();
        HandlerNamesDistinct(ms[i], ms[j]);
      }
    }
    r
  }

  /** Distinct methods have distinct handler names. */
  lemma {:induction false} HandlerNamesDistinct(a: HttpMethod, b: HttpMethod)
    requires a != b
    ensures HandlerName(a.Name()) != HandlerName(b.Name())
  {
    MethodNameIsWord(a);
    MethodNameIsWord(b);
    if HandlerName(a.Name()) == HandlerName(b.Name()) {
      HandlerNameInjective(a.Name(), b.Name());
      assert false;
    }
  }

  /** Two words of lower-case letters with the same handler name are equal. */
  lemma {:induction false} HandlerNameInjective(x: string, y: string)
    requires |x| > 0 && forall i :: 0 <= i < |x| ==> IsLowerCase(x[i])
    requires |y| > 0 && forall i :: 0 <= i < |y| ==> IsLowerCase(y[i])
    requires HandlerName(x) == HandlerName(y)
    ensures x == y
  {
    LowerWord(x);
    LowerWord(y);
    assert PascalCase(x) == HandlerName(x)[6..] == HandlerName(y)[6..] == PascalCase(y);
    assert x[1..] == PascalCase(x)[1..] == PascalCase(y)[1..] == y[1..];
    assert x == [x[0]] + x[1..] == [y[0]] + y[1..] == y;
  }

  // Routes.

  /** The name of the validation property of a method. */
  function ValidateName(name: string): string
  {
    "validate" + PascalCase(name)
  }

  /** What the inline block of `writeRoute` writes: the path, the method,
      the validation property and the bound handler. */
  function RouteBody(path: string, name: string): seq<Token>
  {
    [ Lit("path: \""), Lit(path), Lit("\","),
      Lit("method: \""), Lit(name), Lit("\","),
      Lit("validate: this." + ValidateName(name) + ","),
      Lit("handler: "), Lit("<any>this." + HandlerName(name) + ".bind(this)") ]
  }

  /** What `writeRoute` writes: a `.route(...)` call around the inline block. */
  function RouteTokens(path: string, m: HttpMethod): (r: seq<Token>)
    ensures |r| == 13
  {
    [Lit(".route("), Lit("{")] + RouteBody(path, m.Name()) + [Lit("}"), Lit(")")]
  }

  /** The inline block of `writeRoute`. */
  method WriteRouteBody(w: Writer, path: string, name: string)
    modifies w
    ensures w.tokens == old(w.tokens) + RouteBody(path, name)
  {
    ghost var start := w.tokens;
    w.Write(Lit("path: \""));
    w.Write(Lit(path));
    w.Write(Lit("\","));
    w.Write(Lit("method: \""));
    w.Write(Lit(name));
    w.Write(Lit("\","));
    ghost var lines := [Lit("path: \""), Lit(path), Lit("\","), Lit("method: \""), Lit(name), Lit("\",")];
    assert w.tokens == start + lines;
    ghost var middle := w.tokens;
    w.Write(Lit("validate: this." + ValidateName(name) + ","));
    w.Write(Lit("handler: "));
    w.Write(Lit("<any>this." + HandlerName(name) + ".bind(this)"));
    ghost var rest := [Lit("validate: this." + ValidateName(name) + ","), Lit("handler: "), Lit("<any>this." + HandlerName(name) + ".bind(this)")];
    assert w.tokens == middle + rest;
    assert RouteBody(path, name) == lines + rest;
    Assoc(start, lines, rest);
  }

  /** `writeRoute`. */
  method WriteRoute(w: Writer, path: string, m: HttpMethod)
    modifies w
    ensures w.tokens == old(w.tokens) + RouteTokens(path, m)
  {
    ghost var start := w.tokens;
    w.Write(Lit(".route("));
    w.Write(Lit("{"));
    ghost var open := w.tokens;
    WriteRouteBody(w, path, m.Name());
    w.Write(Lit("}"));
    w.Write(Lit(")"));
    assert open == start + [Lit(".route("), Lit("{")];
    assert w.tokens == open + RouteBody(path, m.Name()) + [Lit("}"), Lit(")")];
    Assoc(start, [Lit(".route("), Lit("{")], RouteBody(path, m.Name()));
    Assoc(start, [Lit(".route("), Lit("{")] + RouteBody(path, m.Name()), [Lit("}"), Lit(")")]);
  }

  /** The route of each of the methods `ms`, in order. */
  function RouteGroups(path: string, ms: seq<HttpMethod>): (r: seq<seq<Token>>)
    ensures |r| == |ms|
    ensures forall k :: 0 <= k < |r| ==> |r[k]| == 13
  {
    seq(|ms|, k requires 0 <= k < |ms| => RouteTokens(path, ms[k]))
  }

  function RoutesOf(path: string, ms: seq<HttpMethod>): seq<Token>
  {
    Flatten(RouteGroups(path, ms))
  }

  lemma {:induction false} RoutesPrefix(path: string, ms: seq<HttpMethod>, i: nat)
    requires i < |ms|
    ensures RoutesOf(path, ms[..i + 1]) == RoutesOf(path, ms[..i]) + RouteTokens(path, ms[i])
  {
    assert RouteGroups(path, ms[..i + 1]) == RouteGroups(path, ms[..i]) + [RouteTokens(path, ms[i])];
    FlattenSnoc(RouteGroups(path, ms[..i]), RouteTokens(path, ms[i]));
  }

  /** The router expression: `createRouter()` followed by the routes. */
  function RouterTokens(path: string, item: PathItem): seq<Token>
  {
    [Lit("createRouter()")] + RoutesOf(path, AvailableMethods(item))
  }

  /** `writeRouter`: one route per method the path item holds. */
  method WriteRouter(w: Writer, path: string, item: PathItem)
    modifies w
    ensures w.tokens == old(w.tokens) + RouterTokens(path, item)
  {
    ghost var start := w.tokens;
    w.Write(Lit("createRouter()"));
    WriteRoutes(w, path, AvailableMethods(item));
    Assoc(start, [Lit("createRouter()")], RoutesOf(path, AvailableMethods(item)));
  }

  /** The loop of `writeRouter`, over the methods `ms`. */
  method WriteRoutes(w: Writer, path: string, ms: seq<HttpMethod>)
    modifies w
    ensures w.tokens == old(w.tokens) + RoutesOf(path, ms)
  {
    ghost var start := w.tokens;
    for i := 0 to |ms|
      invariant w.tokens == start + RoutesOf(path, ms[..i])
    {
      RoutesPrefix(path, ms, i);
      WriteRoute(w, path, ms[i]);
    }
    assert ms[..|ms|] == ms;
  }

  // The controller class.

  /** A `validate<Method>` property; its initializer is what `writeValidate` writes. */
  function ValidateProperty(item: PathItem, m: HttpMethod): PropertyDecl
    requires item.OperationFor(m).Some?
  {
    PropertyDecl(ValidateName(m.Name()), "createRouter.Config['validate']", ValidateTokens(item.OperationFor(m).value, item))
  }

  /** The validation property of each method of `ms`, as a partial function. */
  function PropertyOf(item: PathItem): HttpMethod --> PropertyDecl
  {
    m requires item.OperationFor(m).Some? => ValidateProperty(item, m)
  }

  function ValidateProperties(item: PathItem, ms: seq<HttpMethod>): (r: seq<PropertyDecl>)
    requires forall m :: m in ms ==> item.OperationFor(m).Some?
    ensures |r| == |ms|
    ensures forall k :: 0 <= k < |ms| ==> r[k] == ValidateProperty(item, ms[k])
  {
    MapDefined(PropertyOf(item), ms)
  }

  lemma {:induction false} ValidatePropertiesPrefix(item: PathItem, ms: seq<HttpMethod>, i: nat)
    requires i < |ms|
    requires forall m :: m in ms ==> item.OperationFor(m).Some?
    ensures ValidateProperties(item, ms[..i + 1]) == ValidateProperties(item, ms[..i]) + [ValidateProperty(item, ms[i])]
  {
    assert ms[..i + 1] == ms[..i] + [ms[i]];
    MapDefinedSnoc(PropertyOf(item), ms[..i], ms[i]);
  }

  /** The `createRouter` method: `return`, the router expression, `;`. */
  function RouterMethod(path: string, item: PathItem): MethodDecl
  {
    MethodDecl("createRouter", "createRouter.Router", false, [], [Lit("return")] + RouterTokens(path, item) + [Lit(";")])
  }

  /** The abstract controller class of a path. */
  function ControllerClass(path: string, item: PathItem): Statement
  {
    ClassDecl(ControllerName(path), true, true,
              HandleMethods(path, item) + [RouterMethod(path, item)],
              ValidateProperties(item, AvailableMethods(item)))
  }

  /** What `createController` returns for a path: the context types, then the class. */
  function ControllerStatements(path: string, item: PathItem): seq<Statement>
  {
    ContextTypes(path, item) + [ControllerClass(path, item)]
  }

  /** The context types are all interfaces. */
  lemma {:induction false} ContextTypesAreInterfaces(path: string, item: PathItem)
    ensures forall x: Statement :: x in ContextTypes(path, item) ==> x.InterfaceDecl?
  {
    var ms := AvailableMethods(item);
    var gs := TypeGroups(path, item, ms);
    forall x: Statement | x in Flatten(gs)
      ensures x.InterfaceDecl?
    {
      FlattenMember(gs, x);
      var i :| 0 <= i < |gs| && x in gs[i];
      GroupInterfaces(path, item, ms, i, x);
    }
  }

  lemma {:induction false} GroupInterfaces(path: string, item: PathItem, ms: seq<HttpMethod>, i: nat, x: Statement)
    requires forall m :: m in ms ==> item.OperationFor(m).Some?
    requires i < |ms| && x in TypeGroups(path, item, ms)[i]
    ensures x.InterfaceDecl?
  {
    var pair := RouteContextTypes(path, ms[i], item);
    assert TypeGroups(path, item, ms)[i] == pair;
    assert x == pair[0] || x == pair[1];
  }

  /** The loop of `createController` that collects the `validate<Method>`
      properties; each initializer is run on a writer of its own. */
  method CollectValidateProperties(item: PathItem, ms: seq<HttpMethod>) returns (properties: seq<PropertyDecl>)
    requires forall m :: m in ms ==> item.OperationFor(m).Some?
    ensures properties == ValidateProperties(item, ms)
  {
    properties := [];
    for i := 0 to |ms|
      invariant properties == ValidateProperties(item, ms[..i])
    {
      var w := new Writer();
      WriteValidate(w, item, ms[i]);
      ValidatePropertiesPrefix(item, ms, i);
      assert w.tokens == ValidateProperty(item, ms[i]).initializer;
      properties := properties + [PropertyDecl(ValidateName(ms[i].Name()), "createRouter.Config['validate']", w.tokens)];
    }
    assert ms[..|ms|] == ms;
  }

  /** The `createRouter` method, its statements written by `writeRouter`
      between `return` and `;`. */
  method CreateRouterMethod(path: string, item: PathItem) returns (routerMethod: MethodDecl)
    ensures routerMethod == RouterMethod(path, item)
  {
    var w := new Writer();
    w.Write(Lit("return"));
    assert w.tokens == [Lit("return")];
    WriteRouter(w, path, item);
    w.Write(Lit(";"));
    routerMethod := MethodDecl("createRouter", "createRouter.Router", false, [], w.tokens);
  }

  /** `createController`. */
  method CreateController(path: string, item: PathItem) returns (r: seq<Statement>)
    ensures r == ControllerStatements(path, item)
  {
    var properties := CollectValidateProperties(item, AvailableMethods(item));
    var contextTypes := CreateContextTypes(path, item);
    var routerMethod := CreateRouterMethod(path, item);
    r := contextTypes + [ClassDecl(ControllerName(path), true, true, HandleMethods(path, item) + [routerMethod], properties)];
  }

  /** Everything the class declares for the `k`-th method lines up with its
      two interfaces (see ContextTypesAt): the `k`-th handler is named after
      the method and takes the Context interface, and the `k`-th property is
      named after the method and validates its operation. These are the
      names the `k`-th route refers to (see RouterMethodRoute). */
  lemma {:induction false} ControllerAlignment(path: string, item: PathItem, k: nat)
    requires k < |AvailableMethods(item)|
    ensures var m := AvailableMethods(item)[k];
            var c := ControllerClass(path, item);
            && |c.methods| == |AvailableMethods(item)| + 1 && |c.fields| == |AvailableMethods(item)|
            && c.methods[k].name == HandlerName(m.Name())
            && c.methods[k].parameters == [MethodParameter("ctx", TypeName(path, m.Name(), "Context"))]
            && c.methods[|AvailableMethods(item)|] == RouterMethod(path, item)
            && c.fields[k].name == ValidateName(m.Name())
            && c.fields[k].initializer == ValidateTokens(item.OperationFor(m).value, item)
  {
    var m := AvailableMethods(item)[k];
    MethodNameIsWord(m);
    LowerWord(m.Name());
    HandleNameAgreement(m.Name());
  }

  /** Every method name is a word of lower-case letters, so its first word
      does not start with a digit. */
  lemma {:induction false} MethodNameIsWord(m: HttpMethod)
    ensures |m.Name()| > 0 && forall i :: 0 <= i < |m.Name()| ==> IsLowerCase(m.Name()[i])
  {
  }

  /** The `k`-th route of the `createRouter` method belongs to the `k`-th
      method: it sits after `return` and `createRouter()`, thirteen tokens
      per route. */
  lemma {:induction false} RouterMethodRoute(path: string, item: PathItem, k: nat)
    requires k < |AvailableMethods(item)|
    ensures |RouterMethod(path, item).statements| == 13 * |AvailableMethods(item)| + 3
    ensures RouterMethod(path, item).statements[2 + 13 * k .. 15 + 13 * k] == RouteTokens(path, AvailableMethods(item)[k])
  {
    RouterStatementsAt(path, AvailableMethods(item), k);
  }

  /** The statements of a router method over the methods `ms`: route `k`
      follows `return`, `createRouter()` and the routes before it. */
  lemma {:induction false} RouterStatementsAt(path: string, ms: seq<HttpMethod>, k: nat)
    requires k < |ms|
    ensures var statements := [Lit("return")] + ([Lit("createRouter()")] + RoutesOf(path, ms)) + [Lit(";")];
            && |statements| == 13 * |ms| + 3
            && statements[2 + 13 * k .. 15 + 13 * k] == RouteTokens(path, ms[k])
  {
    RoutesAt(path, ms, k);
    SliceFramed(Lit("return"), Lit("createRouter()"), Lit(";"), RoutesOf(path, ms), 13 * k, 13 * k + 13);
  }

  /** Route `k` occupies positions `13 * k` to `13 * k + 13` of the routes. */
  lemma {:induction false} RoutesAt(path: string, ms: seq<HttpMethod>, k: nat)
    requires k < |ms|
    ensures |RoutesOf(path, ms)| == 13 * |ms|
    ensures 13 * k + 13 <= 13 * |ms|
    ensures RoutesOf(path, ms)[13 * k .. 13 * k + 13] == RouteTokens(path, ms[k])
  {
    FlattenUniform(RouteGroups(path, ms), 13, k);
  }

  // The document.

  /** The statements of one entry of the `paths` map. */
  function PathStatements(entry: (string, PathItem)): seq<Statement>
  {
    ControllerStatements(entry.0, entry.1)
  }

  /** The statements of each path, in path order. */
  function ControllerGroups(paths: seq<(string, PathItem)>): seq<seq<Statement>>
  {
    MapGroups(PathStatements, paths)
  }

  /** What `createControllers` returns: the two imports, the typings, the
      validator statements, then the `KoaControllers` namespace holding the
      statements of every path. */
  function DocumentStatements(doc: Document, typings: Statement, joiSchemas: seq<Statement>): seq<Statement>
  {
    [ImportDecl("koa-joi-router", "* as createRouter"), ImportDecl("koa", "* as koa"), typings]
    + joiSchemas
    + [NamespaceDecl("KoaControllers", true, Flatten(ControllerGroups(doc.paths)))]
  }

  /** `createControllers`: the controller statements are collected in a
      loop over the paths. The typings and validator statements, which
      other builders produce, are parameters. */
  method CreateControllers(doc: Document, typings: Statement, joiSchemas: seq<Statement>) returns (r: seq<Statement>)
    ensures r == DocumentStatements(doc, typings, joiSchemas)
  {
    var statements: seq<Statement> := [];
    for i := 0 to |doc.paths|
      invariant statements == Flatten(ControllerGroups(doc.paths[..i]))
    {
      statements := AppendController(statements, doc.paths, i);
    }
    assert doc.paths[..|doc.paths|] == doc.paths;
    r := [ImportDecl("koa-joi-router", "* as createRouter"), ImportDecl("koa", "* as koa"), typings]
         + joiSchemas
         + [NamespaceDecl("KoaControllers", true, statements)];
  }

  /** One step of the loop of `createControllers`: appends the statements
      `createController` returns for path `i`. */
  method AppendController(statements: seq<Statement>, paths: seq<(string, PathItem)>, i: nat) returns (r: seq<Statement>)
    requires i < |paths| && statements == Flatten(ControllerGroups(paths[..i]))
    ensures r == Flatten(ControllerGroups(paths[..i + 1]))
  {
    var controller := CreateController(paths[i].0, paths[i].1);
    ControllersPrefix(paths, i);
    r := statements + controller;
  }

  lemma {:induction false} ControllersPrefix(paths: seq<(string, PathItem)>, i: nat)
    requires i < |paths|
    ensures Flatten(ControllerGroups(paths[..i + 1]))
         == Flatten(ControllerGroups(paths[..i])) + ControllerStatements(paths[i].0, paths[i].1)
  {
    MapGroupsSnoc(PathStatements, paths, i);
    FlattenSnoc(ControllerGroups(paths[..i]), PathStatements(paths[i]));
  }

  /** The names of the classes among `statements`, in order. */
  function ClassNames(statements: seq<Statement>): seq<string>
  {
    if statements == [] then []
    else (if statements[0].ClassDecl? then [statements[0].name] else []) + ClassNames(statements[1..])
  }

  lemma {:induction false} ClassNamesAppend(a: seq<Statement>, b: seq<Statement>)
    ensures ClassNames(a + b) == ClassNames(a) + ClassNames(b)
  {
    if a == [] {
      assert a + b == b;
    } else {
      var head := if a[0].ClassDecl? then [a[0].name] else [];
      assert (a + b)[0] == a[0] && (a + b)[1..] == a[1..] + b;
      ClassNamesAppend(a[1..], b);
      Assoc(head, ClassNames(a[1..]), ClassNames(b));
    }
  }

  lemma {:induction false} NoClassNames(statements: seq<Statement>)
    requires forall x: Statement :: x in statements ==> x.InterfaceDecl?
    ensures ClassNames(statements) == []
  {
    if statements != [] {
      assert statements[0] in statements;
      NoClassNames(statements[1..]);
    }
  }

  /** The statements of a path hold exactly one class, its controller. */
  lemma {:induction false} ControllerClassName(path: string, item: PathItem)
    ensures ClassNames(ControllerStatements(path, item)) == [ControllerName(path)]
  {
    var c := ControllerClass(path, item);
    ContextTypesAreInterfaces(path, item);
    NoClassNames(ContextTypes(path, item));
    ClassNamesAppend(ContextTypes(path, item), [c]);
    assert [c][1..] == [];
  }

  /** The names of the controllers of `paths`, in path order. */
  function ControllerNameOf(entry: (string, PathItem)): string
  {
    ControllerName(entry.0)
  }

  function PathControllerNames(paths: seq<(string, PathItem)>): (r: seq<string>)
    ensures |r| == |paths|
    ensures forall i :: 0 <= i < |paths| ==> r[i] == ControllerName(paths[i].0)
  {
    MapDefined(ControllerNameOf, paths)
  }

  /** The namespace holds exactly one controller class per path, in path
      order, named after its path. */
  lemma {:induction false} OneControllerPerPath(paths: seq<(string, PathItem)>)
    ensures ClassNames(Flatten(ControllerGroups(paths))) == PathControllerNames(paths)
  {
    if paths != [] {
      var n := |paths| - 1;
      OneControllerPerPath(paths[..n]);
      assert paths[..n + 1] == paths;
      ControllersPrefix(paths, n);
      ClassNamesAppend(Flatten(ControllerGroups(paths[..n])), ControllerStatements(paths[n].0, paths[n].1));
      ControllerClassName(paths[n].0, paths[n].1);
      NamesSnoc(paths);
    }
  }

  lemma {:induction false} NamesSnoc(paths: seq<(string, PathItem)>)
    requires paths != []
    ensures PathControllerNames(paths)
         == PathControllerNames(paths[..|paths| - 1]) + [ControllerName(paths[|paths| - 1].0)]
  {
    var n := |paths| - 1;
    assert paths == paths[..n] + [paths[n]];
    MapDefinedSnoc(ControllerNameOf, paths[..n], paths[n]);
  }
}
