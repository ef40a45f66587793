# Registry search: query classification and result shaping

This project models the search layer of the Singularity Registry client
(`sregistry/main/registry/query.py`). `search` looks at the shape of the
query string and hands it to one of four helpers:

- `search_all` lists the containers of every collection.
- `collection_search` lists the containers of one collection.
- `label_search` searches labels by key, by value, by both, or lists them all.
- `container_search` finds one container, or a container name across collections.

Each helper builds a request URL by string formatting and fetches it once.
It then either ends the program with an exit code when nothing came back,
or turns the decoded reply into a table of two-column rows.

Modules:

- `Strings` holds the Python string operations the code uses. These are
  `lower` (ASCII), `strip('/')`, `startswith`/`endswith`, `join` and
  `str(n)`. It also holds `split` and a decimal reader. The code never calls
  these; the read-back lemmas use them to take built URLs and cells apart.
- `Records` holds the decoded replies, the parsed image reference, the
  outcome of a search and the `Client`. The `Client` is the base URL plus the
  collaborators the core calls: the three fetches, the paginated fetch and
  the image-name parser, each as a function value.
- `Dispatch` holds the classifier `search` applies, as a `Mode` value.
- `Urls` holds the URL builders. The label and container builders are each
  paired with a reader that takes the URL path apart again, for the
  round-trip lemmas.
- `Shaping` states what each helper does as functions. Each reply-shaping
  function carries its meaning in its contract. The lemmas here cover row
  order, membership, count and detail cells, and which URL `search` fetches.
- `Query` holds the helpers as the code runs them: one fetch, early exits,
  and a loop that appends rows. Each method is proved to end exactly as the
  matching `Shaping` lookup says.

Python's dynamic behaviour on unexpected replies is kept where the code
depends on it:

- A non-empty list reply to `collection_search` raises `TypeError`.
- A non-empty dictionary without a `containers` key raises `KeyError` in
  `collection_search`.
- The same dictionary raises `TypeError` in `container_search`. That helper
  iterates over the dictionary's keys and indexes each key string by a string.

The docstring of `search` lists an `[empty]` query as listing all
collections (query.py:37). Inside `search`, only an unset query reaches
`search_all` (query.py:47). An empty string falls through to a collection
search (query.py:62). The command line turns `""` and `*` into an unset
query (client/search.py:35-36), so from the command line both list
everything. The model keeps the two steps apart: `Classify(Some(""))` is a
collection search, and `CliQuery` models the command-line mapping.

## Model

| member | source | states |
|---|---|---|
| Dispatch.Classify | sregistry/main/registry/query.py:47-66 | Only an unset query lists everything. A set query is passed on unchanged. A trailing `/` always means a collection search. A leading `/` without a trailing one means a container search across collections. A `/` or `:` inside means a container search within a collection. Anything else, `""` and `*` included, is a collection search. |
| Dispatch.CliQuery | sregistry/client/search.py:34-36 | The command line unsets the query exactly for `""` and `*` and passes every other argument unchanged. |
| Dispatch.ClassifyExamples | sregistry/main/registry/query.py:35-62 | The documented example queries, plus `""`, `*` and `/`, are classified as the code's branch order dictates. |
| Urls.Normalize | sregistry/main/registry/query.py:102 | The normalized query neither starts nor ends with `/` and holds no upper-case letter. |
| Strings.StripSlice | sregistry/main/registry/query.py:102 | `strip('/')` keeps one contiguous slice of its input, and everything it cut off on either side is `/`. |
| Strings.StripIdempotent | sregistry/main/registry/query.py:170 | Stripping an already stripped query changes nothing. |
| Urls.LabelUrlRoundTrip | sregistry/main/registry/query.py:130-141 | For a key and a value without `/`, each combination of present key and value gives its own URL shape. Reading the path back recovers exactly which of the two were given, and their text. With a `/` the shapes can collide: no key with value `x/key/y` gives the same URL as key `x` with value `y`. |
| Urls.ContainerUrlRoundTrip | sregistry/main/registry/query.py:174-184 | For an image and a tag without `/`, each combination of parsed tag and search scope gives its own URL shape. Reading the path back recovers the image and the tag. An across-collections URL has no collection segment, whatever the parsed collection is. Within a collection, a present collection without `/` is read back too. |
| Shaping.AllOutcome | sregistry/main/registry/query.py:79-95 | An empty listing exits with 1. Otherwise the banner is `Collections` and there is one row per listed container; it never raises. |
| Shaping.AllRowsLength | sregistry/main/registry/query.py:87-92 | The listing has exactly as many rows as containers listed under a `containers` key. |
| Shaping.AllRowsConcat | sregistry/main/registry/query.py:88-92 | Rows keep the server's order of collections. The rows of two consecutive runs of collections are the first run's rows, then the second's. |
| Shaping.AllRowsMember | sregistry/main/registry/query.py:88-92 | A row appears exactly when it is the `(uri, detail)` of a container listed under some collection's `containers` key. Collections without that key contribute nothing. |
| Shaping.CollectionOutcome | sregistry/main/registry/query.py:105-118 | An empty reply exits with 1. Every other reply first prints the `COLLECTION` banner with the normalized name. Rows appear exactly when a non-empty reply has a `containers` list: one `(uri, detail)` row per entry, in order. A dictionary without the key raises `KeyError('containers')`. A list raises `TypeError`. |
| Shaping.LabelOutcome | sregistry/main/registry/query.py:143-160 | An empty result exits with 0, not 1. Otherwise there is exactly one row per label, in order, all of the requested form; it never raises. |
| Shaping.LabelLookupRequest | sregistry/main/registry/query.py:123-141 | For a key and a value without `/`, the fetched URL asks for exactly the lower-cased key and value that were given. |
| Shaping.LabelLookupRowForm | sregistry/main/registry/query.py:129-157 | For every key and value, the rows take the detail form exactly when a key or a value was given, and the count form exactly when both are absent. |
| Shaping.CountRowReadsBack | sregistry/main/registry/query.py:156-157 | The count-form row has two cells. The first is `N=` followed by digits that read back as the number of containers. The second is `key:value`. |
| Shaping.DetailCellLines | sregistry/main/registry/query.py:153-154 | For a label with at least one container and no newline in any container name, the detail cell split into lines is one empty line, each container on its own line, then two empty lines. A label with no containers gets the cell `"\n\n\n"`, which this lemma does not cover. |
| Shaping.ContainerOutcome | sregistry/main/registry/query.py:186-203 | A reply with a `containers` key is unwrapped. Nothing left exits with 1. Every other reply first prints the `Containers` banner with the normalized query. Then there is one `(collection/name, tag)` row per container, in order. A non-empty dictionary without the key raises, and nothing else does. |
| Shaping.HitRowReadsBack | sregistry/main/registry/query.py:199-200 | The first cell of a found container splits back into its collection and its name. The second cell is its tag. |
| Shaping.SearchListsAllOnlyWhenUnset | sregistry/main/registry/query.py:47-66 | `search` fetches the listing of all collections exactly when the query is unset. Every set query fetches a different URL. |
| Query.SearchAll | sregistry/main/registry/query.py:74-95 | The nested loop over collections and their containers ends with the URL and outcome of `AllLookup`. |
| Query.CollectionSearch | sregistry/main/registry/query.py:98-118 | The normalization, fetch, early exit and row loop end with the URL and outcome of `CollectionLookup`. |
| Query.LabelSearch | sregistry/main/registry/query.py:120-160 | The step-by-step lower-casing, URL choice, early exit and row loop end with the URL and outcome of `LabelLookup`. |
| Query.ContainerSearch | sregistry/main/registry/query.py:163-203 | The normalization, parse, URL choice, unwrapping, early exit and row loop end with the URL and outcome of `ContainerLookup`. |
| Query.Search | sregistry/main/registry/query.py:31-66 | The if/elif chain calls the helper `Classify` picks, with the arguments it picks, and ends as that helper does. |

## Left out

- The HTTP transport and pagination (`_get`, `_paginate_get`) are not part of this model. Their results are the function fields of `Client`. Transport errors, status codes and retries are not modelled.
- `bot.info`, `bot.custom` and `bot.table` are console output. Status lines are recorded as the banner or notice of the outcome, including the banner printed before an exception. Rendering the table is left out.
- `sys.exit` is the `Exit(notice, code)` outcome, not a process action.
- `parse_image_name` and `remove_uri` are not part of this model. Together they are the uninterpreted `parseImageName` field of `Client`, and their splitting rules are not stated.
- Urls.ContainerUrlRoundTrip: stated only for an image and a tag without `/`, and, for a search within a collection, a present collection without `/`. With no collection, Python formats `None` into the URL (`Show`), and the model states nothing about that URL.
- Shaping.LabelLookupRequest: stated only for a key and a value without `/`. Any other key or value produces a URL that cannot be read back unambiguously.
- `str.lower()` lower-cases ASCII letters only. Unicode case mapping is left out.
- A label search reply is modelled as a list of label records. A dictionary reply to a label search is not modelled.
- Every record carries its fields as strings. A record missing `uri`, `detail`, `collection`, `name`, `tag`, `key`, `value` or `containers` raises `KeyError` in Python, and that case is not modelled.
- The `args` parameter of `search` is unused by the code and is not modelled. So is the command line's handling of `NotImplementedError`.
