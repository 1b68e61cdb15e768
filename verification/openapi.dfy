/** The part of an OpenAPI 3 document that the controller generator reads:
    paths, path items, operations, parameters and request bodies. */
module OpenApi {

  datatype Option<+T> = None | Some(value: T)

  /** A schema node. The generator never looks inside one: it only tests
      whether a schema is present and hands it on to the schema mappers. */
  datatype Schema = Schema(json: string)

  /** A parameter object. `location` is its `in` field ("path", "query",
      "header", "cookie", or anything else the document says); an absent
      `required` reads as false. */
  datatype Parameter = Parameter(name: string, location: string, required: bool, schema: Option<Schema>)

  datatype MediaType = MediaType(schema: Option<Schema>)

  /** A request body. `content` lists the media-type entries in key order;
      an entry whose value is missing is kept, as None. An absent
      `required` reads as false. */
  datatype RequestBody = RequestBody(required: bool, content: Option<seq<(string, Option<MediaType>)>>)

  datatype Operation = Operation(parameters: Option<seq<Parameter>>, requestBody: Option<RequestBody>)

  /** The eight operations a path item can hold. */
  datatype HttpMethod = Get | Put | Post | Delete | Options | Head | Patch | Trace
  {
    /** The key of the operation in a path item, as written in the document. */
    function Name(): string
    {
      match this
      case Get => "get"
      case Put => "put"
      case Post => "post"
      case Delete => "delete"
      case Options => "options"
      case Head => "head"
      case Patch => "patch"
      case Trace => "trace"
    }

    /** The position of the method in the fixed order HttpOperations. */
    function Rank(): nat
    {
      match this
      case Get => 0
      case Put => 1
      case Post => 2
      case Delete => 3
      case Options => 4
      case Head => 5
      case Patch => 6
      case Trace => 7
    }
  }

  /** The fixed order in which the generator visits the operations of a path. */
  const HttpOperations: seq<HttpMethod> := [Get, Put, Post, Delete, Options, Head, Patch, Trace]

  datatype PathItem = PathItem(
    parameters: Option<seq<Parameter>>,
    get: Option<Operation>,
    put: Option<Operation>,
    post: Option<Operation>,
    delete: Option<Operation>,
    options: Option<Operation>,
    head: Option<Operation>,
    patch: Option<Operation>,
    trace: Option<Operation>)
  {
    /** `pathItem[method]`. */
    function OperationFor(m: HttpMethod): Option<Operation>
    {
      match m
      case Get => get
      case Put => put
      case Post => post
      case Delete => delete
      case Options => options
      case Head => head
      case Patch => patch
      case Trace => trace
    }
  }

  /** The document's `paths` map, as the sequence of its entries in the
      order the generator enumerates them. */
  datatype Document = Document(paths: seq<(string, PathItem)>)
}
