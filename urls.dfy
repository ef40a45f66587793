/**
 * The request URLs the helpers build by string formatting, and, as their
 * partners, readers that take the path after the base URL apart again so
 * that the round-trip lemmas can show which URL shape each case produces
 * and that the arguments land in the right segments.
 */
module Urls {
  import opened Strings
  import opened Records

  /** `'%s' % x` on an optional string: Python formats `None` as the text `None`. */
  function Show(x: Option<string>): string
  {
    match x
    case None => "None"
    case Some(s) => s
  }

  /**
   * `/s0/s1/.../sn`: every segment preceded by one `/`. The helpers' format
   * strings are written out as a base URL followed by such a path, so that
   * `'%s/labels/search/%s/key' % (base, key)` is `base + Path(["labels", "search", key, "key"])`.
   */
  function Path(segments: seq<string>): string
  {
    if segments == [] then [] else "/" + segments[0] + Path(segments[1..])
  }

  /** `'%s/collections/' % base`: the paginated listing of every collection. */
  function AllUrl(base: string): string
  {
    base + "/collections/"
  }

  /**
   * How `collection_search` and `container_search` normalize their query:
   * lower-cased, then every leading and trailing `/` removed.
   */
  function Normalize(query: string): (name: string)
    ensures !StartsWith(name, '/') && !EndsWith(name, '/')
    ensures forall i :: 0 <= i < |name| ==> !IsUpper(name[i])
  {
    LowerChars(query);
    StripSlice(Lower(query), '/');
    Strip(Lower(query), '/')
  }

  /** `'%s/collection/%s' % (base, name)`, for the already normalized query `name`. */
  function CollectionUrl(base: string, name: string): string
  {
    base + "/collection/" + name
  }

  /**
   * The path segments of the label URL for an already lower-cased key and
   * value: `labels/search`, then `<key>/key` when a key is given, then
   * `<value>/value` when a value is given. These are the four format strings
   * of `label_search`, one per combination.
   */
  function LabelSegments(key: Option<string>, value: Option<string>): seq<string>
  {
    ["labels", "search"]
    + (if key.Some? then [key.value, "key"] else [])
    + (if value.Some? then [value.value, "value"] else [])
  }

  function LabelUrl(base: string, key: Option<string>, value: Option<string>): string
  {
    base + Path(LabelSegments(key, value))
  }

  /**
   * The path segments of the container URL: `container/search`, then
   * `collection/<collection>` unless the search runs across collections, then
   * `name/<image>`, then `tag/<tag>` when a tag was parsed. These are the four
   * format strings of `container_search`, one per combination.
   */
  function ContainerSegments(ref: ImageRef, acrossCollections: bool): seq<string>
  {
    ["container", "search"]
    + (if acrossCollections then [] else ["collection", Show(ref.collection)])
    + ["name", ref.image]
    + (if ref.tag.Some? then ["tag", ref.tag.value] else [])
  }

  function ContainerUrl(base: string, ref: ImageRef, acrossCollections: bool): string
  {
    base + Path(ContainerSegments(ref, acrossCollections))
  }

  /** The key and value a label URL path asks for, or `None` for any other path. */
  function ParseLabelPath(segs: seq<string>): Option<(Option<string>, Option<string>)>
  {
    if |segs| < 3 || segs[0] != "" || segs[1] != "labels" || segs[2] != "search" then None
    else if |segs| == 3 then Some((None, None))
    else if |segs| == 7 && segs[4] == "key" && segs[6] == "value" then Some((Some(segs[3]), Some(segs[5])))
    else if |segs| == 5 && segs[4] == "value" then Some((None, Some(segs[3])))
    else if |segs| == 5 && segs[4] == "key" then Some((Some(segs[3]), None))
    else None
  }

  /** The reference and search scope a container URL path asks for, or `None` for any other path. */
  function ParseContainerPath(segs: seq<string>): Option<(ImageRef, bool)>
  {
    if |segs| < 5 || segs[0] != "" || segs[1] != "container" || segs[2] != "search" then None
    else if segs[3] == "name" && |segs| == 5 then
      Some((ImageRef(None, segs[4], None), true))
    else if segs[3] == "name" && |segs| == 7 && segs[5] == "tag" then
      Some((ImageRef(None, segs[4], Some(segs[6])), true))
    else if segs[3] == "collection" && |segs| == 7 && segs[5] == "name" then
      Some((ImageRef(Some(segs[4]), segs[6], None), false))
    else if segs[3] == "collection" && |segs| == 9 && segs[5] == "name" && segs[7] == "tag" then
      Some((ImageRef(Some(segs[4]), segs[6], Some(segs[8])), false))
    else None
  }

  predicate FreeOpt(x: Option<string>)
  {
    x.Some? ==> Free(x.value, '/')
  }

  predicate AllFree(segments: seq<string>)
  {
    forall i :: 0 <= i < |segments| ==> Free(segments[i], '/')
  }

  /** The path of `url` after the base URL, split at every `/`. */
  function PathSegments(base: string, url: string): seq<string>
    requires |base| <= |url|
  {
    Split(url[|base|..], '/')
  }

  lemma {:induction false} PathIsJoin(segments: seq<string>)
    requires |segments| > 0
    ensures Join('/', segments) == segments[0] + Path(segments[1..])
  {
    if |segments| > 1 {
      PathIsJoin(segments[1..]);
    }
  }

  /** A path whose segments hold no `/` splits into an empty first piece and then its segments. */
  lemma {:induction false} SplitPath(segments: seq<string>)
    requires |segments| > 0 && AllFree(segments)
    ensures Split(Path(segments), '/') == [""] + segments
  {
    var all := [""] + segments;
    assert all[1..] == segments;
    forall i | 0 <= i < |all| ensures Free(all[i], '/') {
      if i > 0 { assert all[i] == segments[i - 1]; }
    }
    PathIsJoin(segments);
    assert Join('/', all) == "" + "/" + Join('/', segments);
    assert Join('/', all) == Path(segments);
    SplitJoin(all, '/');
  }

  /** The path after the base URL of `base + Path(segments)`, split at every `/`. */
  lemma {:induction false} PathOf(base: string, segments: seq<string>)
    requires |segments| > 0 && AllFree(segments)
    ensures |base| <= |base + Path(segments)|
    ensures (base + Path(segments))[..|base|] == base
    ensures PathSegments(base, base + Path(segments)) == [""] + segments
  {
    assert (base + Path(segments))[|base|..] == Path(segments);
    SplitPath(segments);
  }

  lemma LiteralsFree()
    ensures Free("labels", '/') && Free("search", '/') && Free("key", '/') && Free("value", '/')
    ensures Free("container", '/') && Free("collection", '/') && Free("name", '/') && Free("tag", '/')
  {
  }

  /**
   * Each combination of key and value yields its own URL shape, and reading
   * that URL back recovers exactly which of key and value were given, and
   * their text.
   */
  lemma LabelUrlRoundTrip(base: string, key: Option<string>, value: Option<string>)
    requires FreeOpt(key) && FreeOpt(value)
    ensures |base| <= |LabelUrl(base, key, value)|
    ensures LabelUrl(base, key, value)[..|base|] == base
    ensures ParseLabelPath(PathSegments(base, LabelUrl(base, key, value))) == Some((key, value))
  {
    LiteralsFree();
    var segments := LabelSegments(key, value);
    assert AllFree(segments);
    PathOf(base, segments);
  }

  /**
   * Each combination of "tag parsed" and "across collections" yields its own
   * URL shape; reading it back recovers the image and the tag, and the
   * collection exactly when the search is inside one collection: a search
   * across collections never puts a collection segment in its URL.
   */
  lemma ContainerUrlRoundTrip(base: string, ref: ImageRef, acrossCollections: bool)
    requires Free(ref.image, '/') && FreeOpt(ref.tag)
    requires !acrossCollections ==> ref.collection.Some? && FreeOpt(ref.collection)
    ensures |base| <= |ContainerUrl(base, ref, acrossCollections)|
    ensures ContainerUrl(base, ref, acrossCollections)[..|base|] == base
    ensures ParseContainerPath(PathSegments(base, ContainerUrl(base, ref, acrossCollections))) ==
            Some((if acrossCollections then ref.(collection := None) else ref, acrossCollections))
  {
    LiteralsFree();
    var segments := ContainerSegments(ref, acrossCollections);
    assert AllFree(segments);
    PathOf(base, segments);
  }
}
