# ControllerBuilder — a verified Dafny model

This project models the controller generator of the OpenAPI plugin,
`ControllerBuilder` in `src/plugins/openapi/controller-builder.ts`. The
generator reads an OpenAPI 3 document: paths, path items, operations,
parameters and request bodies. For every path it emits the following
declarations:

- a Request and a Context interface for each operation the path holds;
- an abstract controller class with:
  - one abstract `handle<Method>` method per operation;
  - one `validate<Method>` property per operation. The property holds the
    runtime validation bundle of that operation;
  - a `createRouter` method that registers one `.route(...)` per operation.

Every path's statements are collected inside an exported `KoaControllers`
namespace. Before the namespace come two imports, the typings and the
validator statements.

The model has the following parts:

- **Modules.** They follow the generator's concerns:
  - `OpenApi`: the document;
  - `Concat`: general facts about concatenating sequences of tokens;
  - `ChangeCase`: the word splitting and case conversions of `change-case`;
  - `Naming`: `toPathName`, `toTypeName` and `pathToControllerName`;
  - `Parameters`: `joinParameters` and the request-body media;
  - `CodeWriter`: the writer and the declaration structures;
  - `RouteContext`: `createRouteContextType`;
  - `Validate`: `writeValidate`;
  - `Methods`: `availableMethods`;
  - `Controller`: `createContextTypes`, `createHandleMethod(s)`, `writeRoute`, `writeRouter`, `createController` and `createControllers`;
  - `MergeOrder`: the two parameter-merge orders compared.
- **The writer.** The code writer is a class `Writer` holding an append-only
  sequence of tokens. Each code path that writes to it step by step is a
  method with loops. Each such method is proved against a function saying
  what it writes.
- **Round trips.** A static parameter group reads back as exactly its
  parameters, and so does a validation bundle. Both are proved with parsers,
  which are the independent partner of what is written.
- **Alignment.** The interfaces, handlers, validation properties and routes
  of a path are proved to line up with the methods the path holds, index by
  index.

## Model

| member | source | states |
|---|---|---|
| ChangeCase.RunsKeepAlphanumerics | src/plugins/openapi/controller-builder.ts:92 | splitting at non-alphanumeric characters keeps every letter and digit, in order, and drops everything else |
| ChangeCase.CaseSplitKeeps | src/plugins/openapi/controller-builder.ts:92 | splitting a run at its case boundaries loses and adds nothing |
| ChangeCase.WordsKeepAlphanumerics | src/plugins/openapi/controller-builder.ts:92 | the words of a string are its letters and digits, in order |
| ChangeCase.PascalCase | src/plugins/openapi/controller-builder.ts:92 | the PascalCase form holds letters and digits, and `_` only directly before a digit |
| ChangeCase.LowerWord | src/plugins/openapi/controller-builder.ts:92 | a lower-case word is one word and only its first letter is upper-cased: `get` becomes `Get` |
| ChangeCase.UpperWord | src/plugins/openapi/controller-builder.ts:92 | an upper-case word is one word and every letter after the first is lower-cased: `AB` becomes `Ab` |
| ChangeCase.HumpedWord | src/plugins/openapi/controller-builder.ts:92 | lower-case letters followed by upper-case ones are two words, each capitalised and the rest lower-cased: `userID` becomes `UserId` |
| ChangeCase.DigitWordAfterWord | src/plugins/openapi/controller-builder.ts:92 | a word that starts with a digit and is not the first is written after `_`: `a 1` becomes `A_1` |
| ChangeCase.CamelCase | src/plugins/openapi/controller-builder.ts:237 | camelCase is the PascalCase form with its first character lower-cased and every other character unchanged |
| ChangeCase.HandleNameAgreement | src/plugins/openapi/controller-builder.ts:237 | `camelCase("handle " + m)` equals `"handle" + pascalCase(m)` if and only if the first word of `m` does not start with a digit: only then is the handler declared the handler the route binds (line 317) |
| Naming.StripBraces | src/plugins/openapi/controller-builder.ts:89 | no brace remains, the result is no longer than the input, and a brace-free string is unchanged |
| Naming.StripBracesAppend | src/plugins/openapi/controller-builder.ts:89 | removing braces distributes over concatenation |
| Naming.Split | src/plugins/openapi/controller-builder.ts:90 | a split yields at least one piece and no piece holds the separator |
| Naming.JoinSplit | src/plugins/openapi/controller-builder.ts:90 | joining the pieces of a split with the separator gives the string back |
| Naming.SplitJoin | src/plugins/openapi/controller-builder.ts:90 | splitting pieces joined by a separator none of them holds gives the pieces back |
| Naming.SplitWithoutSeparator | src/plugins/openapi/controller-builder.ts:90 | a string without the separator splits into itself alone |
| Naming.SplitAppend | src/plugins/openapi/controller-builder.ts:90 | a separator between two strings separates their pieces |
| Naming.PascalSegments | src/plugins/openapi/controller-builder.ts:91-94 | the concatenated PascalCase segments hold letters and digits, and `_` only directly before a digit |
| Naming.PascalSegmentsAppend | src/plugins/openapi/controller-builder.ts:91-94 | converting the segments distributes over concatenation of segment lists |
| Naming.PathName | src/plugins/openapi/controller-builder.ts:87-95 | a path name holds letters and digits, and `_` only directly before a digit |
| Naming.PathNameAppend | src/plugins/openapi/controller-builder.ts:87-95 | the name of `p + "/" + q` is the name of `p` followed by the name of `q` |
| Naming.PathNameOfSegment | src/plugins/openapi/controller-builder.ts:87-95 | a single segment without braces names itself in PascalCase |
| Naming.TypeName | src/plugins/openapi/controller-builder.ts:77-80 | a type name ends with its suffix |
| Naming.TypeNameSuffixes | src/plugins/openapi/controller-builder.ts:77-80 | for one path and method, two suffixes of equal length give the same type name if and only if they are equal |
| Naming.ControllerName | src/plugins/openapi/controller-builder.ts:82-85 | a controller name ends with `Controller` |
| Naming.ControllerNameCollision | src/plugins/openapi/controller-builder.ts:82-85 | two paths share a controller name if and only if they share a path name |
| Naming.PathNameOfBracedSegment | src/plugins/openapi/controller-builder.ts:87-95 | a parameter segment `{w}` names itself as `w` does |
| Naming.BracesStripped | src/plugins/openapi/controller-builder.ts:89 | the braces around a brace-free word are removed and nothing else |
| Naming.LeadingSlash | src/plugins/openapi/controller-builder.ts:87-95 | a leading `/` contributes nothing to a path name |
| Naming.TwoSegmentPathName | src/plugins/openapi/controller-builder.ts:87-95 | `/a/{b}` is named PascalCase(a) followed by PascalCase(b) |
| Naming.BracedSegmentCollision | src/plugins/openapi/controller-builder.ts:82-95 | the distinct paths `p/{w}` and `p/w` get the same controller name, and nothing detects it |
| Parameters.JoinedAppend | src/plugins/openapi/controller-builder.ts:97-105 | merging distributes over concatenation of the argument lists |
| Parameters.JoinedTwo | src/plugins/openapi/controller-builder.ts:97-105 | two lists merge into the first followed by the second, absent ones empty, and the length is the sum |
| Parameters.JoinedMembership | src/plugins/openapi/controller-builder.ts:97-105 | a parameter is merged if and only if some present list holds it |
| Parameters.JoinParameters | src/plugins/openapi/controller-builder.ts:97-105 | the loop over the lists returns the present lists concatenated in argument order |
| Parameters.AtLocation | src/plugins/openapi/controller-builder.ts:135 | selection by `in` keeps exactly the parameters at that location and never lengthens the list |
| Parameters.AtLocationAppend | src/plugins/openapi/controller-builder.ts:135 | selection by location keeps the order of a concatenation |
| Parameters.RequestBodyMedia | src/plugins/openapi/controller-builder.ts:107-117 | a media entry is returned if and only if the body, its content, a first key and that key's value all exist; it is the first key's value |
| Parameters.MediaSchema | src/plugins/openapi/controller-builder.ts:107-117 | the picked media has a schema if and only if the first entry has one, and then it is that schema |
| Parameters.MediaIgnoresLaterEntries | src/plugins/openapi/controller-builder.ts:111-116 | media entries after the first change nothing |
| RouteContext.TypeFieldsAppend | src/plugins/openapi/controller-builder.ts:131-145 | the fields of a static group distribute over concatenation of the parameter list |
| RouteContext.WriteTypeField | src/plugins/openapi/controller-builder.ts:135-144 | writes the name, `?` exactly when marking and not required, `:` and type exactly when a schema exists, then `,` |
| RouteContext.WriteTypeFields | src/plugins/openapi/controller-builder.ts:131-145 | the loop writes the fields of exactly the parameters at the location, in order |
| RouteContext.WriteTypeParams | src/plugins/openapi/controller-builder.ts:125-147 | writes `{`, the fields of the operation-then-path merge, `}` |
| RouteContext.BodyType | src/plugins/openapi/controller-builder.ts:174-186 | the body type is the mapped first-media schema when there is one, `undefined` otherwise |
| RouteContext.WriteBodyType | src/plugins/openapi/controller-builder.ts:174-186 | the body writer writes exactly the body type |
| RouteContext.SharedProperties | src/plugins/openapi/controller-builder.ts:148-162 | `query`, `headers`, `header`, none with a question token, `headers` and `header` typed identically |
| RouteContext.RequestInterface | src/plugins/openapi/controller-builder.ts:163-195 | exported, extends `koa.Request`, named `<Method><Path>Request`, properties query, headers, header, params (never optional), body (optional if and only if a body exists and is not required) |
| RouteContext.ContextInterface | src/plugins/openapi/controller-builder.ts:196-211 | exported, extends `koa.Context`, named `<Method><Path>Context`, the shared properties then `request` typed by the Request interface's name |
| RouteContext.RouteContextTypes | src/plugins/openapi/controller-builder.ts:188-212 | two interfaces with distinct names, sharing their first three properties, the Context's `request` typed by the Request's name |
| RouteContext.CreateRouteContextType | src/plugins/openapi/controller-builder.ts:119-213 | running every type writer on its own writer yields the two interfaces |
| RouteContext.ParseFieldTokens | src/plugins/openapi/controller-builder.ts:136-143 | one written field reads back as its name, optionality and schema |
| RouteContext.TypeFieldsRoundTrip | src/plugins/openapi/controller-builder.ts:131-145 | the written fields read back as exactly the parameters at the location, in order |
| RouteContext.TypeGroupRoundTrip | src/plugins/openapi/controller-builder.ts:130-146 | a braced static group reads back as exactly its parameters at the location |
| RouteContext.StaticGroups | src/plugins/openapi/controller-builder.ts:148-167 | query, headers and params list operation-level parameters first, then path-level ones; params fields are never optional |
| Validate.JoiFieldsAppend | src/plugins/openapi/controller-builder.ts:345-361 | the fields of a validation group distribute over concatenation |
| Validate.BodyEntry | src/plugins/openapi/controller-builder.ts:329-342 | a `body:` entry exists if and only if the first media entry has a schema, and it maps that schema |
| Validate.WriteJoiField | src/plugins/openapi/controller-builder.ts:349-360 | writes the name, then `: `, the validator and `,` only when a schema exists |
| Validate.WriteJoiFields | src/plugins/openapi/controller-builder.ts:344-362 | the loop writes the fields of exactly the parameters at the location, in order |
| Validate.WriteJoiGroup | src/plugins/openapi/controller-builder.ts:364-376 | writes a heading and a braced group over the path-then-operation merge |
| Validate.WriteBodyEntry | src/plugins/openapi/controller-builder.ts:329-342 | writes exactly the body entry |
| Validate.WriteGroups | src/plugins/openapi/controller-builder.ts:364-376 | writes the params, query and header groups, in that order, and the closing brace |
| Validate.WriteValidate | src/plugins/openapi/controller-builder.ts:322-378 | writes `{`, the body entry, the three groups and `}` |
| Validate.ParseJoiFieldTokens | src/plugins/openapi/controller-builder.ts:349-359 | the tokens written for one parameter with a schema read back as its field, followed by whatever the tail reads as |
| Validate.JoiFieldsRoundTrip | src/plugins/openapi/controller-builder.ts:344-362 | fields with schemas read back as exactly the parameters at the location, in order |
| Validate.JoiGroupRoundTrip | src/plugins/openapi/controller-builder.ts:364-376 | a headed group reads back as its parameters and leaves what follows |
| Validate.BodyEntryRoundTrip | src/plugins/openapi/controller-builder.ts:329-342 | the body entry reads back as the first media schema, or none |
| Validate.GroupsRoundTrip | src/plugins/openapi/controller-builder.ts:364-376 | the three groups read back as the params, query and header parameters |
| Validate.ValidateRoundTrip | src/plugins/openapi/controller-builder.ts:322-378 | the bundle reads back as the body schema and path-level-then-operation-level parameters of each location |
| Validate.SchemalessNamesRunTogether | src/plugins/openapi/controller-builder.ts:349-359 | two schema-less parameters write only their names, which run together |
| Methods.RankPosition | src/plugins/openapi/controller-builder.ts:29-38 | each method's rank is its position in the fixed order |
| Methods.HttpOperationsInOrder | src/plugins/openapi/controller-builder.ts:29-38 | the fixed order is strictly increasing and holds all eight methods |
| Methods.MethodsIn | src/plugins/openapi/controller-builder.ts:394-396 | the filter keeps exactly the methods the path item holds and never lengthens the list |
| Methods.MethodsInAppend | src/plugins/openapi/controller-builder.ts:394-396 | filtering distributes over concatenation |
| Methods.MethodsInOrdered | src/plugins/openapi/controller-builder.ts:394-396 | filtering keeps the order |
| Methods.AvailableMethods | src/plugins/openapi/controller-builder.ts:391-397 | exactly the held methods, in the fixed order get … trace, each once |
| Controller.ContextTypesAt | src/plugins/openapi/controller-builder.ts:215-228 | two interfaces per held method; entries 2k and 2k+1 are the Request and Context interfaces of the k-th method |
| Controller.CreateContextTypes | src/plugins/openapi/controller-builder.ts:215-228 | the loop over the fixed order returns the interfaces of the held methods |
| Controller.ContextTypesOver | src/plugins/openapi/controller-builder.ts:219-227 | the loop appends the interfaces of each held method of the list, in order |
| Controller.ContextTypesAreInterfaces | src/plugins/openapi/controller-builder.ts:215-228 | every context type is an interface |
| Controller.HandleMethod | src/plugins/openapi/controller-builder.ts:230-246 | the handler of a method is abstract, returns `void`, takes `ctx` typed by the route's Context interface, and is named `handle<Method>`, the name the route binds (line 317) |
| Controller.HandleMethods | src/plugins/openapi/controller-builder.ts:248-255 | one handler per held method, in the fixed order, no two with the same name |
| Controller.HandlerNamesDistinct | src/plugins/openapi/controller-builder.ts:248-255 | distinct methods get distinct handler names |
| Controller.HandlerNameInjective | src/plugins/openapi/controller-builder.ts:237 | two lower-case words with the same handler name are the same word |
| Controller.WriteRoute | src/plugins/openapi/controller-builder.ts:296-320 | writes one `.route(...)` naming the path, the method, `validate<Method>` and the bound `handle<Method>` |
| Controller.WriteRouteBody | src/plugins/openapi/controller-builder.ts:305-317 | writes the path, method, `validate<Method>` and `handle<Method>` entries of one route, in that order |
| Controller.RoutesAt | src/plugins/openapi/controller-builder.ts:386-388 | the routes of the methods take 13 tokens each; route k is the route of the k-th method |
| Controller.WriteRoutes | src/plugins/openapi/controller-builder.ts:386-388 | the loop writes one route per method, in order |
| Controller.WriteRouter | src/plugins/openapi/controller-builder.ts:380-389 | writes `createRouter()` and one route per held method |
| Controller.CollectValidateProperties | src/plugins/openapi/controller-builder.ts:262-271 | the loop builds one `validate<Method>` property per method, holding its validation bundle |
| Controller.CreateRouterMethod | src/plugins/openapi/controller-builder.ts:281-289 | `createRouter` returns the router expression |
| Controller.CreateController | src/plugins/openapi/controller-builder.ts:258-294 | the context types, then the exported abstract class with handlers, `createRouter` and validation properties |
| Controller.ControllerAlignment | src/plugins/openapi/controller-builder.ts:262-291 | handler k and property k belong to the k-th held method; `createRouter` comes after the handlers |
| Controller.RouterMethodRoute | src/plugins/openapi/controller-builder.ts:284-288 | route k of `createRouter` is the route of the k-th held method |
| Controller.RouterStatementsAt | src/plugins/openapi/controller-builder.ts:284-288 | `return`, `createRouter()`, the routes and `;`: route k sits at positions 2+13k to 15+13k |
| Controller.CreateControllers | src/plugins/openapi/controller-builder.ts:47-75 | two imports, typings, validator statements, then the namespace holding every path's statements in path order |
| Controller.ControllerClassName | src/plugins/openapi/controller-builder.ts:272-293 | a path's statements hold exactly one class, named after the path |
| Controller.OneControllerPerPath | src/plugins/openapi/controller-builder.ts:47-75 | the namespace holds one controller class per path, in path order |
| MergeOrder.StaticQueryOrder | src/plugins/openapi/controller-builder.ts:131-134 | the static query group lists the operation's parameter before the path item's |
| MergeOrder.ValidateQueryOrder | src/plugins/openapi/controller-builder.ts:345-348 | the query validator lists the path item's parameter before the operation's |
| MergeOrder.MergeOrdersDiffer | src/plugins/openapi/controller-builder.ts:131-134 | the static type and the validator of one operation list the same two query parameters in opposite orders (lines 345-348) |

## Left out

- **Case conversions.** `pascalCase` and `camelCase` come from the
  `change-case` package, which is not part of this model. The model follows
  the rules of its version 4:
  - words are the maximal runs of ASCII letters and digits;
  - a run is split before an upper-case letter that follows a lower-case
    letter or a digit, and before the last of several upper-case letters
    when a lower-case letter follows it;
  - pascalCase upper-cases the first character of each word and lower-cases
    the rest, and writes `_` before a word other than the first that starts
    with a digit;
  - camelCase does the same but lower-cases the whole first word.
  Non-ASCII letters, and the package's options (custom split and strip
  patterns, locales), are not modelled. The package version the source
  depends on is not part of this model. Under another version's rules,
  `ChangeCase.HandleNameAgreement` and `Controller.HandleMethod`'s claim
  that the declared handler is the bound one would be assumptions. The
  eight HTTP method names are lower-case words, so under these rules the
  agreement holds for all of them.
- **Schema mappers.** `TypeBuilder.createTypeLiteral`,
  `TypeBuilder.createTypings`, `JoiSchemaBuilder.getSchemaWriter` and
  `JoiSchemaBuilder.createJoiSchemas` are not part of this model.
  - A mapped schema is a symbolic token carrying its schema and arguments.
  - The typings and the validator statements are parameters of
    `Controller.CreateControllers`.
- **Rendering.** Structure kinds, indentation, `newLine` and `space` are
  not modelled. `inlineBlock` becomes a `{` token and a `}` token.
- **Deferred writers.** Type, initializer and statement writers run later
  in the source. The model runs them at once, each on a fresh writer, and
  stores the tokens they write.
- **Path order.** `lodash.forOwn` enumerates the `paths` object. The model
  takes the paths as an already ordered sequence and does not model
  JavaScript property order.
- **Reference objects.** `$ref` parameters and request bodies are not
  modelled. Every parameter and body is read as an inline object.
- **The builder object.** `ControllerBuilder` is not a class here. Its
  fields are set once and never changed, so the document is a parameter.
- **Unused parameters.** The model drops parameters the code never reads:
  - `pahtItem` of `createHandleMethod` (its `path` is read, for the Context
    type name at line 243);
  - `pathItem` of `writeRoute`;
  - `path` of `writeValidate`.
- **Name collisions.** Colliding names are not detected, as in the code.
  `Naming.BracedSegmentCollision` exhibits one.
- **Test fixture.** The configuration fixture is not part of this model.
  It holds file paths only.
- `Validate.JoiFieldsRoundTrip`: requires every parameter at the location
  to have a schema, and that the token after a group's closing brace is not
  `: `. A schema-less parameter writes only its name, with no separator, and
  does not read back. Without the second condition, a parameter named `}`
  would read ambiguously.
- `Validate.JoiGroupRoundTrip`: requires every parameter at the location to
  have a schema, and that the token after the group is not `: `, for the
  same reasons.
- `Validate.GroupsRoundTrip`: requires every parameter at `path`, `query`
  and `header` to have a schema. A schema-less one writes only its name,
  with no separator, and the groups do not read back.
- `Validate.ValidateRoundTrip`: requires every parameter at `path`, `query`
  or `header` to have a schema. A schema-less one writes only its name, and
  the bundle does not read back (see `Validate.SchemalessNamesRunTogether`).
