/**
 * The search entry point and its four helpers as the registry client runs
 * them: each builds its URL, fetches once, checks for an empty result and
 * then fills its list of rows in a loop. Each method is proved to end exactly
 * as the matching lookup function of module Shaping says.
 */
module Query {
  import opened Strings
  import opened Records
  import opened Urls
  import opened Shaping

  /** `search_all`: every container of every collection, collection by collection. */
  method SearchAll(client: Client) returns (url: string, outcome: Outcome)
    ensures Lookup(url, outcome) == AllLookup(client)
  {
    url := AllUrl(client.base);
    var results := client.paginateGet(url);
    if |results| == 0 {
      return url, Exit("No container collections found.", 1);
    }
    var rows: seq<Row> := [];
    for i := 0 to |results|
      invariant rows == AllRows(results[..i])
    {
      var result := results[i];
      if result.containers.Some? {
        var containers := result.containers.value;
        ghost var before := rows;
        for j := 0 to |containers|
          invariant rows == before + EntryRows(containers[..j])
        {
          assert containers[..j + 1][..j] == containers[..j];
          var row := (containers[j].uri, containers[j].detail);
          assert EntryRows(containers[..j + 1]) == EntryRows(containers[..j]) + [row];
          Associative(before, EntryRows(containers[..j]), [row]);
          rows := rows + [row];
        }
        assert containers[..|containers|] == containers;
        assert rows == AllRows(results[..i]) + CollectionRows(result);
      } else {
        assert rows == AllRows(results[..i]) + CollectionRows(result);
      }
      assert results[..i + 1] == results[..i] + [result];
      AllRowsSnoc(results[..i], result);
    }
    assert results[..|results|] == results;
    outcome := Rows(Info("Collections"), rows);
    assert outcome == AllOutcome(results);
  }

  /** `collection_search`: the containers of the one collection the query names. */
  method CollectionSearch(client: Client, query: string) returns (url: string, outcome: Outcome)
    ensures Lookup(url, outcome) == CollectionLookup(client, query)
  {
    var name := Normalize(query);
    url := CollectionUrl(client.base, name);
    var result := client.getCollection(url);
    if result.Length() == 0 {
      return url, Exit("No collections found.", 1);
    }
    if result.List? {
      return url, Raise(Custom("COLLECTION", name), TypeError("list indices must be integers or slices, not str"));
    }
    if result.containers.None? {
      return url, Raise(Custom("COLLECTION", name), KeyError("containers"));
    }
    var containers := result.containers.value;
    var rows: seq<Row> := [];
    for i := 0 to |containers|
      invariant |rows| == i
      invariant forall k :: 0 <= k < i ==> rows[k] == EntryRow(containers[k])
    {
      rows := rows + [(containers[i].uri, containers[i].detail)];
    }
    assert rows == EntryRows(containers);
    outcome := Rows(Custom("COLLECTION", name), rows);
  }

  /** `label_search`: labels by key, by value, by both, or all of them with a count each. */
  method LabelSearch(client: Client, key: Option<string>, value: Option<string>) returns (url: string, outcome: Outcome)
    ensures Lookup(url, outcome) == LabelLookup(client, key, value)
  {
    var k, v := key, value;
    if k.Some? {
      k := Some(Lower(k.value));
    }
    if v.Some? {
      v := Some(Lower(v.value));
    }
    assert k == LowerOpt(key) && v == LowerOpt(value);
    var showDetails := true;
    if k.None? && v.None? {
      showDetails := false;
    }
    url := LabelUrl(client.base, k, v);
    var result := client.getLabels(url);
    if |result| == 0 {
      return url, Exit("No labels found.", 0);
    }
    var rows: seq<Row> := [];
    for i := 0 to |result|
      invariant |rows| == i
      invariant forall k :: 0 <= k < i ==> rows[k] == LabelRow(result[k], showDetails)
    {
      var l := result[i];
      var entry: Row;
      if showDetails {
        entry := (l.key + ":" + l.value, "\n" + Join('\n', l.containers) + "\n\n");
        assert entry == LabelRow(l, true);
      } else {
        entry := ("N=" + NatToString(|l.containers|), l.key + ":" + l.value);
        assert entry == LabelRow(l, false);
      }
      rows := rows + [entry];
    }
    assert rows == LabelRows(result, showDetails);
    outcome := Rows(Info("Labels\n"), rows);
    assert outcome == LabelOutcome(result, showDetails);
  }

  /** `container_search`: one container by collection, name and tag, or a name across collections. */
  method ContainerSearch(client: Client, query: string, acrossCollections: bool) returns (url: string, outcome: Outcome)
    ensures Lookup(url, outcome) == ContainerLookup(client, query, acrossCollections)
  {
    var q := Normalize(query);
    var ref := client.parseImageName(q);
    url := ContainerUrl(client.base, ref, acrossCollections);
    var result := client.getContainers(url);
    if result.HasContainers() {
      result := List(result.containers.value);
    }
    if result.Length() == 0 {
      return url, Exit("No containers found.", 1);
    }
    if result.Dict? {
      return url, Raise(Info("Containers " + q), TypeError("string indices must be integers"));
    }
    var hits := result.items;
    var rows: seq<Row> := [];
    for i := 0 to |hits|
      invariant |rows| == i
      invariant forall k :: 0 <= k < i ==> rows[k] == HitRow(hits[k])
    {
      rows := rows + [(hits[i].collection + "/" + hits[i].name, hits[i].tag)];
    }
    assert rows == HitRows(hits);
    outcome := Rows(Info("Containers " + q), rows);
    assert outcome == ContainerOutcome(client.getContainers(url), q);
  }

  /** `search`: the if/elif chain on the shape of the query, handing it to one helper. */
  method Search(client: Client, query: Option<string>) returns (url: string, outcome: Outcome)
    ensures Lookup(url, outcome) == SearchLookup(client, query)
  {
    if query.Some? {
      var q := query.value;
      if EndsWith(q, '/') {
        url, outcome := CollectionSearch(client, q);
      } else if StartsWith(q, '/') {
        url, outcome := ContainerSearch(client, q, true);
      } else if '/' in q || ':' in q {
        url, outcome := ContainerSearch(client, q, false);
      } else {
        url, outcome := CollectionSearch(client, q);
      }
      return;
    }
    url, outcome := SearchAll(client);
  }
}
