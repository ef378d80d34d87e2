/** What the admin handlers receive and answer: identifiers, validation errors, responses. */
module Http {
  import opened Js

  /** A document identifier as it arrives in a route parameter; Express never binds an empty one. */
  type Id = s: string | s != "" witness "0"

  /**
   * The `field` of an error entry: a top-level property, a property of another path,
   * or an element of a top-level list.
   */
  datatype Path =
    | Prop(name: string)
    | Sub(parent: Path, name: string)
    | Item(list: string, idx: nat)
  {
    /** The string the handlers write: `name`, `assets.logo.src`, `cities[2].name`. */
    function Render(): string
    {
      match this
      case Prop(name) => name
      case Sub(parent, name) => parent.Render() + "." + name
      case Item(list, idx) => list + "[" + NatToString(idx) + "]"
    }
  }

  /** One `{ field, message }` entry of a handler's `errors` array. */
  datatype FieldError = FieldError(field: Path, message: string)

  /** `findById(id)`: the position of the document whose id `idOf` gives as `id`, or `None`. */
  function IndexOf<T>(docs: seq<T>, idOf: T -> Id, id: Id): (r: Option<nat>)
    ensures r.Some? ==> r.value < |docs| && idOf(docs[r.value]) == id
    ensures r.None? ==> forall i :: 0 <= i < |docs| ==> idOf(docs[i]) != id
  {
    if docs == [] then None
    else if idOf(docs[|docs| - 1]) == id then Some(|docs| - 1)
    else IndexOf(docs[..|docs| - 1], idOf, id)
  }

  /** The response a handler sends; `Status` gives its HTTP status code. */
  datatype Response =
    | Created(id: Id, slug: string)          // 201 with the saved document
    | Updated(id: Id)                        // 200 with the updated document
    | InvalidBrandId                         // 400 "Invalid brandId"
    | ValidationFailed(errors: seq<FieldError>)  // 400 "Validation failed"
    | NotFound                               // 404
    | DuplicateKey                           // 409, MongoDB error code 11000
    | ServerError                            // 500, any other thrown error
  {
    function Status(): int
    {
      match this
      case Created(_, _) => 201
      case Updated(_) => 200
      case InvalidBrandId => 400
      case ValidationFailed(_) => 400
      case NotFound => 404
      case DuplicateKey => 409
      case ServerError => 500
    }
  }
}
