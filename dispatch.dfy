/**
 * The query classifier: `search` looks only at the shape of the raw query
 * string and picks one of four helpers, passing the query on unchanged.
 */
module Dispatch {
  import opened Strings
  import opened Records

  /** Which helper `search` calls, and with which arguments. */
  datatype Mode =
    | ListAll
    | CollectionSearch(query: string)
    | ContainerSearch(query: string, acrossCollections: bool)

  predicate HasSeparator(q: string)
  {
    '/' in q || ':' in q
  }

  /**
   * `search(query)`. The tests run in a fixed order: unset, ends with `/`,
   * starts with `/`, contains `/` or `:`, anything else.
   */
  function Classify(query: Option<string>): (m: Mode)
    // only an unset query lists everything; "" and "*" do not
    ensures m.ListAll? <==> query.None?
    // a set query is passed on exactly as it came in
    ensures query.Some? ==> m.query == query.value
    // a trailing slash wins over every other feature of the string
    ensures query.Some? && EndsWith(query.value, '/') ==> m == CollectionSearch(query.value)
    ensures query.Some? && StartsWith(query.value, '/') && !EndsWith(query.value, '/') ==>
              m == ContainerSearch(query.value, true)
    ensures query.Some? && !StartsWith(query.value, '/') && !EndsWith(query.value, '/') && HasSeparator(query.value) ==>
              m == ContainerSearch(query.value, false)
    ensures query.Some? && !HasSeparator(query.value) ==> m == CollectionSearch(query.value)
    // a container search across collections is exactly one whose query starts with `/`
    ensures m.ContainerSearch? ==> (m.acrossCollections <==> StartsWith(m.query, '/'))
    ensures m.ContainerSearch? ==> HasSeparator(m.query)
  {
    match query
    case None => ListAll
    case Some(q) =>
      if EndsWith(q, '/') then CollectionSearch(q)
      else if StartsWith(q, '/') then ContainerSearch(q, true)
      else if HasSeparator(q) then ContainerSearch(q, false)
      else CollectionSearch(q)
  }

  /** The command line turns an empty argument and `*` into an unset query; others pass as they are. */
  function CliQuery(arg: string): (q: Option<string>)
    ensures q.None? <==> arg == "" || arg == "*"
    ensures q.Some? ==> q.value == arg
  {
    if arg in ["", "*"] then None else Some(arg)
  }

  /**
   * The documented query forms. An empty argument or `*` lists everything only
   * because the command line unsets it; handed to `search` directly, both
   * fall through to a collection search.
   */
  lemma ClassifyExamples()
    ensures Classify(CliQuery("")) == ListAll && Classify(CliQuery("*")) == ListAll
    ensures Classify(Some("")) == CollectionSearch("")
    ensures Classify(Some("*")) == CollectionSearch("*")
    ensures Classify(Some("vsoch")) == CollectionSearch("vsoch")
    ensures Classify(Some("vsoch/")) == CollectionSearch("vsoch/")
    ensures Classify(Some("/")) == CollectionSearch("/")
    ensures Classify(Some("/dinosaur")) == ContainerSearch("/dinosaur", true)
    ensures Classify(Some("vsoch/dinosaur")) == ContainerSearch("vsoch/dinosaur", false)
    ensures Classify(Some("vsoch/dinosaur:tag")) == ContainerSearch("vsoch/dinosaur:tag", false)
    ensures Classify(Some("dinosaur:tag")) == ContainerSearch("dinosaur:tag", false)
  {
    assert "vsoch/dinosaur"[5] == '/';
    assert "vsoch/dinosaur:tag"[5] == '/';
    assert "dinosaur:tag"[8] == ':';
  }
}
