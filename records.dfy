/**
 * The data the query layer works on: the decoded replies of the registry,
 * the parsed image reference, the rows handed to the table renderer, and
 * the outcome of one search. The registry client itself (base URL, HTTP
 * transport, image-name parser) is an explicit `Client` value whose
 * function-typed fields stand for the collaborators the core calls into.
 */
module Records {

  datatype Option<+T> = None | Some(value: T)

  /** One container as listed inside a collection: its `uri` and `detail` fields. */
  datatype ContainerEntry = ContainerEntry(uri: string, detail: string)

  /** One collection of the paginated listing; `containers` is `None` when the key is absent. */
  datatype CollectionRecord = CollectionRecord(containers: Option<seq<ContainerEntry>>)

  /** One container returned by a container search: its `collection`, `name` and `tag` fields. */
  datatype ContainerHit = ContainerHit(collection: string, name: string, tag: string)

  /** One label returned by a label search, with the identifiers of the containers carrying it. */
  datatype LabelRecord = LabelRecord(key: string, value: string, containers: seq<string>)

  /**
   * A decoded JSON reply of a single GET: either a dictionary, of which only
   * the `containers` key is looked at (`otherKeys` counts the other keys),
   * or a list of records.
   */
  datatype Reply<T> = Dict(otherKeys: nat, containers: Option<seq<T>>) | List(items: seq<T>)
  {
    /** Python's `len(reply)`: the number of keys of a dictionary, the length of a list. */
    function Length(): nat
    {
      match this
      case Dict(n, cs) => if cs.Some? then n + 1 else n
      case List(items) => |items|
    }

    /**
     * Python's `"containers" in reply`: a key test on a dictionary; on a list
     * of records it asks whether one element equals that string, which no
     * record does.
     */
    predicate HasContainers()
    {
      Dict? && containers.Some?
    }
  }

  /** What `parse_image_name(..., defaults=False)` returns: unset fields stay unset. */
  datatype ImageRef = ImageRef(collection: Option<string>, image: string, tag: Option<string>)

  /** One table row: always two display strings. */
  type Row = (string, string)

  /** A status line: `bot.info(text)`, or `bot.custom(prefix=..., message=text)`. */
  datatype Message = Info(text: string) | Custom(prefix: string, text: string)

  /** The Python exceptions that row shaping can raise on an unexpected reply. */
  datatype PyError = KeyError(key: string) | TypeError(reason: string)

  /**
   * How one search ends: a status line followed by the table (and the rows
   * returned), a status line followed by `sys.exit(code)`, or a status line
   * followed by an exception raised while the rows were being built.
   */
  datatype Outcome =
    | Rows(banner: Message, rows: seq<Row>)
    | Exit(notice: string, code: int)
    | Raise(banner: Message, error: PyError)

  /** The request URL a search fetched, and how the search ended. */
  datatype Lookup = Lookup(url: string, outcome: Outcome)

  /**
   * The registry client: its base URL and the collaborators the core calls.
   * `paginateGet` is `_paginate_get` (all pages concatenated), `getCollection`,
   * `getContainers` and `getLabels` are `_get` at the three kinds of endpoint,
   * and `parseImageName` is `parse_image_name(remove_uri(q), defaults=False)`.
   */
  datatype Client = Client(
    base: string,
    paginateGet: string -> seq<CollectionRecord>,
    getCollection: string -> Reply<ContainerEntry>,
    getContainers: string -> Reply<ContainerHit>,
    getLabels: string -> seq<LabelRecord>,
    parseImageName: string -> ImageRef)
}
