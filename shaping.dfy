/**
 * What each search helper produces, stated as functions of the client: the
 * URL it fetches, and how the fetched data becomes rows, an exit or an
 * exception. The methods in module Query compute the same by loops and are
 * proved equal to these; the lemmas here state what the rows mean.
 */
module Shaping {
  import opened Strings
  import opened Records
  import opened Urls
  import opened Dispatch

  // ---------------------------------------------------------------- search_all

  function EntryRow(c: ContainerEntry): Row
  {
    (c.uri, c.detail)
  }

  /** One `(uri, detail)` row per container, in the order given. */
  function EntryRows(cs: seq<ContainerEntry>): (rows: seq<Row>)
    ensures |rows| == |cs|
    ensures forall i :: 0 <= i < |cs| ==> rows[i] == EntryRow(cs[i])
  {
    if cs == [] then [] else EntryRows(cs[..|cs| - 1]) + [EntryRow(cs[|cs| - 1])]
  }

  /** The rows one collection of the listing contributes: none when it has no `containers` key. */
  function CollectionRows(r: CollectionRecord): seq<Row>
  {
    match r.containers
    case None => []
    case Some(cs) => EntryRows(cs)
  }

  /** The rows of the listing: each collection's rows in turn. */
  function AllRows(results: seq<CollectionRecord>): seq<Row>
  {
    if results == [] then []
    else AllRows(results[..|results| - 1]) + CollectionRows(results[|results| - 1])
  }

  /** How many containers the collections that have a `containers` key list. */
  function ContainerCount(results: seq<CollectionRecord>): nat
  {
    if results == [] then 0
    else
      var last := results[|results| - 1];
      ContainerCount(results[..|results| - 1]) + (if last.containers.Some? then |last.containers.value| else 0)
  }

  /** The listing has exactly one row per listed container. */
  lemma {:induction false} AllRowsLength(results: seq<CollectionRecord>)
    ensures |AllRows(results)| == ContainerCount(results)
  {
    if results != [] {
      AllRowsLength(results[..|results| - 1]);
    }
  }

  /**
   * The rows keep the server's order of collections: the rows of two
   * consecutive runs of collections are the rows of the first run, then
   * those of the second.
   */
  lemma {:induction false} AllRowsConcat(a: seq<CollectionRecord>, b: seq<CollectionRecord>)
    ensures AllRows(a + b) == AllRows(a) + AllRows(b)
  {
    if b == [] {
      assert a + b == a;
    } else {
      var b' := b[..|b| - 1];
      var last := b[|b| - 1];
      assert b == b' + [last];
      assert a + b == (a + b') + [last];
      var x, y, z := AllRows(a), AllRows(b'), CollectionRows(last);
      AllRowsSnoc(a + b', last);
      AllRowsSnoc(b', last);
      AllRowsConcat(a, b');
      Associative(x, y, z);
    }
  }

  lemma Associative<T>(x: seq<T>, y: seq<T>, z: seq<T>)
    ensures (x + y) + z == x + (y + z)
  {
  }

  /** Appending one more collection appends its rows. */
  lemma AllRowsSnoc(init: seq<CollectionRecord>, last: CollectionRecord)
    ensures AllRows(init + [last]) == AllRows(init) + CollectionRows(last)
  {
    var s := init + [last];
    assert s[..|s| - 1] == init;
  }

  /** Container `j` of collection `i` is listed under a `containers` key. */
  predicate Listed(results: seq<CollectionRecord>, i: int, j: int)
  {
    0 <= i < |results| && results[i].containers.Some? && 0 <= j < |results[i].containers.value|
  }

  /** A row appears exactly when it is the `(uri, detail)` of some listed container. */
  lemma {:induction false} AllRowsMember(results: seq<CollectionRecord>, row: Row)
    ensures row in AllRows(results) <==>
            exists i, j :: Listed(results, i, j) && row == EntryRow(results[i].containers.value[j])
  {
    if results != [] {
      var n := |results| - 1;
      var init := results[..n];
      var tail := CollectionRows(results[n]);
      assert AllRows(results) == AllRows(init) + tail;
      AllRowsMember(init, row);
      if row in AllRows(results) {
        if row in AllRows(init) {
          var i, j :| Listed(init, i, j) && row == EntryRow(init[i].containers.value[j]);
          assert results[i] == init[i];
          assert Listed(results, i, j);
        } else {
          assert row in tail;
          var k :| 0 <= k < |tail| && tail[k] == row;
          assert Listed(results, n, k) && row == EntryRow(results[n].containers.value[k]);
        }
      } else {
        forall i, j | Listed(results, i, j) ensures row != EntryRow(results[i].containers.value[j]) {
          if i < n {
            assert results[i] == init[i];
            assert Listed(init, i, j);
          } else {
            assert tail[j] == EntryRow(results[n].containers.value[j]);
          }
        }
      }
    }
  }

  /**
   * How `search_all` ends on the listing it fetched: exit with 1 when it is
   * empty, otherwise one row per listed container (never an exception).
   */
  function AllOutcome(results: seq<CollectionRecord>): (o: Outcome)
    ensures o.Exit? <==> results == []
    ensures o.Exit? ==> o.code == 1
    ensures !o.Raise?
    ensures o.Rows? ==> o.banner == Info("Collections") && |o.rows| == ContainerCount(results)
  {
    AllRowsLength(results);
    if |results| == 0 then Exit("No container collections found.", 1)
    else Rows(Info("Collections"), AllRows(results))
  }

  /** `search_all`: fetch the paginated listing of every collection and shape it. */
  function AllLookup(client: Client): Lookup
  {
    var url := AllUrl(client.base);
    Lookup(url, AllOutcome(client.paginateGet(url)))
  }

  // --------------------------------------------------------- collection_search

  /**
   * How `collection_search` ends on the reply it fetched: exit with 1 when the
   * reply is empty; otherwise one row per entry of its `containers` list, in
   * order. A non-empty dictionary without that key raises `KeyError`; a
   * non-empty list cannot be indexed by a string and raises `TypeError`.
   */
  function CollectionOutcome(reply: Reply<ContainerEntry>, name: string): (o: Outcome)
    ensures o.Exit? <==> reply.Length() == 0
    ensures o.Exit? ==> o.code == 1
    ensures o.Rows? <==> reply.Length() > 0 && reply.HasContainers()
    ensures !o.Exit? ==> o.banner == Custom("COLLECTION", name)
    ensures o.Rows? ==>
              && |o.rows| == |reply.containers.value|
              && forall i :: 0 <= i < |o.rows| ==> o.rows[i] == EntryRow(reply.containers.value[i])
    ensures o.Raise? ==> (o.error.KeyError? <==> reply.Dict?)
    ensures o.Raise? && reply.Dict? ==> o.error.key == "containers"
  {
    if reply.Length() == 0 then Exit("No collections found.", 1)
    else
      match reply
      case List(_) => Raise(Custom("COLLECTION", name), TypeError("list indices must be integers or slices, not str"))
      case Dict(_, None) => Raise(Custom("COLLECTION", name), KeyError("containers"))
      case Dict(_, Some(cs)) => Rows(Custom("COLLECTION", name), EntryRows(cs))
  }

  /** `collection_search`: fetch the collection the normalized query names and shape the reply. */
  function CollectionLookup(client: Client, query: string): Lookup
  {
    var name := Normalize(query);
    var url := CollectionUrl(client.base, name);
    Lookup(url, CollectionOutcome(client.getCollection(url), name))
  }

  // -------------------------------------------------------------- label_search

  function LowerOpt(x: Option<string>): Option<string>
  {
    match x
    case None => None
    case Some(s) => Some(Lower(s))
  }

  /** `"%s:%s" % (key, value)` of a label. */
  function KeyValue(l: LabelRecord): string
  {
    l.key + ":" + l.value
  }

  /** The detail cell of a label: its containers one per line, after one and before two newlines. */
  function DetailCell(containers: seq<string>): string
  {
    "\n" + Join('\n', containers) + "\n\n"
  }

  /** A label's row: detail form `(key:value, cell)` or count form `("N=<count>", key:value)`. */
  function LabelRow(l: LabelRecord, showDetails: bool): Row
  {
    if showDetails then (KeyValue(l), DetailCell(l.containers))
    else ("N=" + NatToString(|l.containers|), KeyValue(l))
  }

  /** One row per label, in order, all of the same form. */
  function LabelRows(labels: seq<LabelRecord>, showDetails: bool): (rows: seq<Row>)
    ensures |rows| == |labels|
    ensures forall i :: 0 <= i < |labels| ==> rows[i] == LabelRow(labels[i], showDetails)
  {
    if labels == [] then []
    else LabelRows(labels[..|labels| - 1], showDetails) + [LabelRow(labels[|labels| - 1], showDetails)]
  }

  /**
   * The count form's first cell reads back as the number of containers
   * carrying the label, and its second cell is `key:value`.
   */
  lemma CountRowReadsBack(l: LabelRecord)
    ensures var cell := LabelRow(l, false).0;
      && |cell| > 2 && cell[..2] == "N=" && AllDigits(cell[2..])
      && DigitsValue(cell[2..]) == |l.containers|
    ensures LabelRow(l, false).1 == KeyValue(l)
  {
    var cell := LabelRow(l, false).0;
    assert cell[2..] == NatToString(|l.containers|);
    NatToStringRoundTrip(|l.containers|);
  }

  /**
   * Split into lines, the detail cell of a label with at least one container
   * is an empty line, then each container on its own line, then two empty
   * lines.
   */
  lemma DetailCellLines(containers: seq<string>)
    requires |containers| > 0
    requires forall i :: 0 <= i < |containers| ==> Free(containers[i], '\n')
    ensures Split(DetailCell(containers), '\n') == [""] + containers + ["", ""]
  {
    var lines := [""] + containers + ["", ""];
    JoinAppend([""], containers, '\n');
    JoinAppend([""] + containers, ["", ""], '\n');
    assert Join('\n', ["", ""]) == "\n";
    assert Join('\n', lines) == DetailCell(containers);
    forall i | 0 <= i < |lines| ensures Free(lines[i], '\n') {
      if 1 <= i <= |containers| { assert lines[i] == containers[i - 1]; }
    }
    SplitJoin(lines, '\n');
  }

  /**
   * How `label_search` ends on the labels it fetched: exit with 0 (not 1)
   * when none came back, otherwise one row per label, in order, all of the
   * requested form (never an exception).
   */
  function LabelOutcome(labels: seq<LabelRecord>, showDetails: bool): (o: Outcome)
    ensures o.Exit? <==> labels == []
    ensures o.Exit? ==> o.code == 0
    ensures !o.Raise?
    ensures o.Rows? ==>
              && |o.rows| == |labels|
              && forall i :: 0 <= i < |labels| ==> o.rows[i] == LabelRow(labels[i], showDetails)
  {
    if |labels| == 0 then Exit("No labels found.", 0)
    else Rows(Info("Labels\n"), LabelRows(labels, showDetails))
  }

  /**
   * `label_search`: lower-case the key and value that are present, fetch one
   * of four URLs, and shape the labels; the rows take the count form exactly
   * when neither a key nor a value was given.
   */
  function LabelLookup(client: Client, key: Option<string>, value: Option<string>): Lookup
  {
    var k, v := LowerOpt(key), LowerOpt(value);
    var url := LabelUrl(client.base, k, v);
    Lookup(url, LabelOutcome(client.getLabels(url), !(k.None? && v.None?)))
  }

  /** Lower-casing neither adds nor removes a `/`. */
  lemma LowerOptFree(x: Option<string>)
    requires FreeOpt(x)
    ensures FreeOpt(LowerOpt(x))
  {
    if x.Some? {
      forall i | 0 <= i < |x.value| ensures Lower(x.value)[i] != '/' {
        LowerKeepsSeparators(x.value, i);
      }
    }
  }

  /**
   * The request of `label_search`: the URL it fetches asks for exactly the
   * lower-cased key and value that were given.
   */
  lemma LabelLookupRequest(client: Client, key: Option<string>, value: Option<string>)
    requires FreeOpt(key) && FreeOpt(value)
    ensures var r := LabelLookup(client, key, value);
      && |client.base| <= |r.url|
      && ParseLabelPath(PathSegments(client.base, r.url)) == Some((LowerOpt(key), LowerOpt(value)))
  {
    LowerOptFree(key);
    LowerOptFree(value);
    LabelUrlRoundTrip(client.base, LowerOpt(key), LowerOpt(value));
  }

  /**
   * For every key and value, the rows of `label_search` take the detail form
   * exactly when a key or a value was given, and the count form exactly when
   * both are absent.
   */
  lemma LabelLookupRowForm(client: Client, key: Option<string>, value: Option<string>)
    ensures var r := LabelLookup(client, key, value);
      var labels := client.getLabels(r.url);
      r.outcome.Rows? ==>
        forall i :: 0 <= i < |labels| ==> r.outcome.rows[i] == LabelRow(labels[i], key.Some? || value.Some?)
  {
  }

  // ---------------------------------------------------------- container_search

  /** `"%s/%s" % (collection, name)` and the tag of a found container. */
  function HitRow(c: ContainerHit): Row
  {
    (c.collection + "/" + c.name, c.tag)
  }

  /** One row per found container, in order. */
  function HitRows(hits: seq<ContainerHit>): (rows: seq<Row>)
    ensures |rows| == |hits|
    ensures forall i :: 0 <= i < |hits| ==> rows[i] == HitRow(hits[i])
  {
    if hits == [] then [] else HitRows(hits[..|hits| - 1]) + [HitRow(hits[|hits| - 1])]
  }

  /** The first cell of a found container splits back into its collection and its name. */
  lemma HitRowReadsBack(c: ContainerHit)
    requires Free(c.collection, '/') && Free(c.name, '/')
    ensures Split(HitRow(c).0, '/') == [c.collection, c.name]
    ensures HitRow(c).1 == c.tag
  {
    SplitCons(c.collection, c.name, '/');
    SplitFree(c.name, '/');
  }

  /** The containers `container_search` iterates over: a `containers` list is unwrapped first. */
  function Hits(reply: Reply<ContainerHit>): seq<ContainerHit>
  {
    if reply.HasContainers() then reply.containers.value
    else if reply.List? then reply.items
    else []
  }

  /**
   * How `container_search` ends on the reply it fetched: a `containers` key is
   * unwrapped; exit with 1 when nothing is left, otherwise one row per
   * container in order. A non-empty dictionary without that key iterates over
   * its key strings, which cannot be indexed by a string: `TypeError`.
   */
  function ContainerOutcome(reply: Reply<ContainerHit>, name: string): (o: Outcome)
    ensures o.Raise? <==> reply.Dict? && reply.containers.None? && reply.otherKeys > 0
    ensures o.Exit? <==> Hits(reply) == [] && !o.Raise?
    ensures o.Exit? ==> o.code == 1
    ensures !o.Exit? ==> o.banner == Info("Containers " + name)
    ensures o.Rows? ==>
              && |o.rows| == |Hits(reply)|
              && forall i :: 0 <= i < |o.rows| ==> o.rows[i] == HitRow(Hits(reply)[i])
  {
    var result := if reply.HasContainers() then List(reply.containers.value) else reply;
    if result.Length() == 0 then Exit("No containers found.", 1)
    else
      match result
      case List(hits) => Rows(Info("Containers " + name), HitRows(hits))
      case Dict(_, _) => Raise(Info("Containers " + name), TypeError("string indices must be integers"))
  }

  /**
   * `container_search`: normalize the query as a collection search does,
   * parse it, fetch the URL of one of four shapes and shape the reply.
   */
  function ContainerLookup(client: Client, query: string, acrossCollections: bool): Lookup
  {
    var name := Normalize(query);
    var url := ContainerUrl(client.base, client.parseImageName(name), acrossCollections);
    Lookup(url, ContainerOutcome(client.getContainers(url), name))
  }

  // -------------------------------------------------------------------- search

  /** `search`: the lookup of the helper the classifier picks. */
  function SearchLookup(client: Client, query: Option<string>): Lookup
  {
    match Classify(query)
    case ListAll => AllLookup(client)
    case CollectionSearch(q) => CollectionLookup(client, q)
    case ContainerSearch(q, across) => ContainerLookup(client, q, across)
  }

  /**
   * Only an unset query fetches the listing of all collections; every set
   * query, the empty string and `*` included, fetches a different URL.
   */
  lemma SearchListsAllOnlyWhenUnset(client: Client, query: Option<string>)
    ensures SearchLookup(client, query).url == AllUrl(client.base) <==> query.None?
  {
    var b := client.base;
    var all := AllUrl(b);
    AllUrlHead(b);
    var url := SearchLookup(client, query).url;
    match Classify(query)
    case ListAll =>
    case CollectionSearch(q) =>
      assert url == CollectionUrl(b, Normalize(q));
      CollectionUrlHead(b, Normalize(q));
      assert url[|b| + 11] != all[|b| + 11];
    case ContainerSearch(q, across) =>
      assert url == ContainerUrl(b, client.parseImageName(Normalize(q)), across);
      ContainerUrlHead(b, client.parseImageName(Normalize(q)), across);
      assert url[|b| + 3] != all[|b| + 3];
  }

  lemma AllUrlHead(base: string)
    ensures |AllUrl(base)| == |base| + 13
    ensures AllUrl(base)[|base| + 3] == 'l' && AllUrl(base)[|base| + 11] == 's'
  {
  }

  /** Every collection URL's path starts with `/collection/`, where the listing's starts with `/collections`. */
  lemma CollectionUrlHead(base: string, name: string)
    ensures |CollectionUrl(base, name)| > |base| + 11
    ensures CollectionUrl(base, name)[|base| + 11] == '/'
  {
  }

  /** Every container URL's path starts with `/con`, where the listing's starts with `/col`. */
  lemma ContainerUrlHead(base: string, ref: ImageRef, acrossCollections: bool)
    ensures |ContainerUrl(base, ref, acrossCollections)| > |base| + 3
    ensures ContainerUrl(base, ref, acrossCollections)[|base| + 3] == 'n'
  {
    var segments := ContainerSegments(ref, acrossCollections);
    assert segments[0] == "container";
    assert Path(segments) == "/" + "container" + Path(segments[1..]);
  }
}
