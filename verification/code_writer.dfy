/** The code writer the generator appends its output to, and the
    declaration structures it hands to the code printer. */
module CodeWriter {
  import opened OpenApi

  /** One write to the writer. `Lit` is text the generator writes itself;
      the other two stand for what the schema mappers write for a schema:
      a static type literal (optionally naming the shared schema namespace)
      and a runtime validator (with its required flag and namespace). */
  datatype Token =
    | Lit(text: string)
    | TypeLiteral(schema: Schema, namespace: Option<string>)
    | JoiSchema(schema: Schema, required: bool, registry: string)

  /** The text of the literal tokens, in order, with nothing between them. */
  function LiteralText(tokens: seq<Token>): string
  {
    if tokens == [] then []
    else (if tokens[0].Lit? then tokens[0].text else []) + LiteralText(tokens[1..])
  }

  /** An append-only buffer of tokens. */
  class Writer {
    var tokens: seq<Token>

    constructor ()
      ensures tokens == []
    {
      tokens := [];
    }

    /** `writer.write(...)`. */
    method Write(t: Token)
      modifies this
      ensures tokens == old(tokens) + [t]
    {
      tokens := tokens + [t];
    }
  }

  /** A property of an interface; `typeTokens` is what its type writer writes. */
  datatype PropertySignature = PropertySignature(name: string, hasQuestionToken: bool, typeTokens: seq<Token>)

  datatype MethodParameter = MethodParameter(name: string, typeName: string)

  /** A class method; an abstract one has no statements. */
  datatype MethodDecl = MethodDecl(
    name: string,
    returnType: string,
    isAbstract: bool,
    parameters: seq<MethodParameter>,
    statements: seq<Token>)

  /** A class property; `initializer` is what its initializer writer writes. */
  datatype PropertyDecl = PropertyDecl(name: string, typeName: string, initializer: seq<Token>)

  /** The statements the generator emits. */
  datatype Statement =
    | ImportDecl(moduleSpecifier: string, defaultImport: string)
    | InterfaceDecl(name: string, bases: seq<string>, isExported: bool, properties: seq<PropertySignature>)
    | ClassDecl(name: string, isExported: bool, isAbstract: bool, methods: seq<MethodDecl>, fields: seq<PropertyDecl>)
    | NamespaceDecl(name: string, isExported: bool, statements: seq<Statement>)
}
