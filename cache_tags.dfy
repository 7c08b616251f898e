/** The `CacheTags` helpers of the storefront's header utility: turning
    product ids, collection ids and the "collections metadata changed" flag
    into CDN cache tags, and those tags into one `cache-tag` header value. */
module CacheTags {
  import opened Wrappers
  import opened JsText

  /** `CacheTagOptions`: every field may be absent. */
  datatype CacheTagOptions = CacheTagOptions(
    productIds: Option<seq<string>>,
    collectionIds: Option<seq<string>>,
    collectionsMetadataWasModified: Option<bool>)

  const ProductPrefix: string := "pid_"
  const CollectionPrefix: string := "cid_"
  const CollectionsMetadataTag: string := "collections_metadata"

  /** What a tag stands for; `Render` gives its wire form. */
  datatype Tag = Product(productId: string) | Collection(collectionId: string) | CollectionsMetadata

  /** `CacheTags.forProduct`: the id is copied verbatim after `pid_`. */
  function ForProduct(productId: string): (t: string)
    ensures |t| == |ProductPrefix| + |productId|
    ensures t[..|ProductPrefix|] == ProductPrefix && t[|ProductPrefix|..] == productId
  {
    ProductPrefix + productId
  }

  /** `CacheTags.forCollection`: the id is copied verbatim after `cid_`. */
  function ForCollection(collectionId: string): (t: string)
    ensures |t| == |CollectionPrefix| + |collectionId|
    ensures t[..|CollectionPrefix|] == CollectionPrefix && t[|CollectionPrefix|..] == collectionId
  {
    CollectionPrefix + collectionId
  }

  /** `CacheTags.forCollectionsMetadata`: a constant tag. */
  function ForCollectionsMetadata(): (t: string)
    ensures t == "collections_metadata"
  {
    CollectionsMetadataTag
  }

  /** The wire form of a tag: its first four characters, which hold no
      comma, tell the kinds apart. */
  function Render(tag: Tag): (t: string)
    ensures |t| >= 4 && ',' !in t[..4]
    ensures (t[..4] == "pid_") == tag.Product?
    ensures (t[..4] == "cid_") == tag.Collection?
  {
    match tag
    case Product(id) => ForProduct(id)
    case Collection(id) => ForCollection(id)
    case CollectionsMetadata =>
      var t := ForCollectionsMetadata();
      assert t[1] == 'o' && t[0] == 'c';
      t
  }

  /** Reads a tag back from its wire form. */
  function ParseTag(t: string): Option<Tag>
  {
    if t == CollectionsMetadataTag then Some(CollectionsMetadata)
    else if |t| >= 4 && t[..4] == ProductPrefix then Some(Product(t[4..]))
    else if |t| >= 4 && t[..4] == CollectionPrefix then Some(Collection(t[4..]))
    else None
  }

  /** The tag format is unambiguous: every tag reads back as itself, so two
      different tags never render to the same string. */
  lemma ParseRender(tag: Tag)
    ensures ParseTag(Render(tag)) == Some(tag)
  {
    match tag
    case Product(id) =>
      assert Render(tag)[0] == 'p' != CollectionsMetadataTag[0];
    case Collection(id) =>
      assert Render(tag)[0] == 'c' && Render(tag)[1] == 'i' != CollectionsMetadataTag[1];
    case CollectionsMetadata =>
  }

  /** Conversely, a string that reads as a tag is exactly that tag's rendering. */
  lemma RenderParse(t: string)
    requires ParseTag(t).Some?
    ensures Render(ParseTag(t).value) == t
  {
  }

  /** An absent id list counts as empty. */
  function Ids(ids: Option<seq<string>>): seq<string>
  {
    ids.GetOr([])
  }

  /** The flag counts only when it is present and true. */
  predicate MetadataModified(options: CacheTagOptions)
  {
    options.collectionsMetadataWasModified == Some(true)
  }

  /** The tags the options call for: products, then collections, then the
      metadata tag; duplicates are kept. */
  function Tags(options: CacheTagOptions): seq<Tag>
  {
    var p := Ids(options.productIds);
    var c := Ids(options.collectionIds);
    seq(|p|, i requires 0 <= i < |p| => Product(p[i]))
      + seq(|c|, j requires 0 <= j < |c| => Collection(c[j]))
      + (if MetadataModified(options) then [CollectionsMetadata] else [])
  }

  /** The tag strings `CacheTags.toValues` returns: one per product id, then
      one per collection id, each in input order, then the metadata tag when
      the flag is true. */
  function Values(options: CacheTagOptions): (vs: seq<string>)
    ensures |vs| == |Ids(options.productIds)| + |Ids(options.collectionIds)|
                    + (if MetadataModified(options) then 1 else 0)
    ensures forall i :: 0 <= i < |Ids(options.productIds)| ==>
              vs[i] == "pid_" + Ids(options.productIds)[i]
    ensures forall j :: 0 <= j < |Ids(options.collectionIds)| ==>
              vs[|Ids(options.productIds)| + j] == "cid_" + Ids(options.collectionIds)[j]
    ensures MetadataModified(options) ==> vs[|vs| - 1] == "collections_metadata"
    ensures forall k :: 0 <= k < |vs| ==> ParseTag(vs[k]) == Some(Tags(options)[k])
  {
    var ts := Tags(options);
    var vs := seq(|ts|, k requires 0 <= k < |ts| => Render(ts[k]));
    forall k | 0 <= k < |vs| ensures ParseTag(vs[k]) == Some(ts[k]) {
      ParseRender(ts[k]);
    }
    vs
  }

  /** `ids.map(forProduct)`: one product tag per id, in order, each reading
      back as that id's tag. */
  function ProductValues(ids: seq<string>): (vs: seq<string>)
    ensures |vs| == |ids|
    ensures forall i :: 0 <= i < |ids| ==> vs[i] == "pid_" + ids[i] && ParseTag(vs[i]) == Some(Product(ids[i]))
  {
    forall i | 0 <= i < |ids| ensures ParseTag(ForProduct(ids[i])) == Some(Product(ids[i])) {
      ParseRender(Product(ids[i]));
    }
    seq(|ids|, i requires 0 <= i < |ids| => ForProduct(ids[i]))
  }

  /** `ids.map(forCollection)`: one collection tag per id, in order, each
      reading back as that id's tag. */
  function CollectionValues(ids: seq<string>): (vs: seq<string>)
    ensures |vs| == |ids|
    ensures forall i :: 0 <= i < |ids| ==> vs[i] == "cid_" + ids[i] && ParseTag(vs[i]) == Some(Collection(ids[i]))
  {
    forall i | 0 <= i < |ids| ensures ParseTag(ForCollection(ids[i])) == Some(Collection(ids[i])) {
      ParseRender(Collection(ids[i]));
    }
    seq(|ids|, i requires 0 <= i < |ids| => ForCollection(ids[i]))
  }

  /** The three groups of `Values`, side by side. */
  lemma ValuesGroups(options: CacheTagOptions)
    ensures Values(options) == ProductValues(Ids(options.productIds))
                               + CollectionValues(Ids(options.collectionIds))
                               + (if MetadataModified(options) then [ForCollectionsMetadata()] else [])
  {
    var p, c := Ids(options.productIds), Ids(options.collectionIds);
    var m: seq<string> := if MetadataModified(options) then [ForCollectionsMetadata()] else [];
    var vs := Values(options);
    var ws := ProductValues(p) + CollectionValues(c) + m;
    forall k | 0 <= k < |vs| ensures vs[k] == ws[k] {
      if k >= |p| + |c| {
        assert ws[k] == m[0];
      } else if k >= |p| {
        assert ws[k] == CollectionValues(c)[k - |p|];
      }
    }
  }

  /** `CacheTags.toValues`, step by step as the source builds its local array:
      concatenate the mapped product ids if there are any, then the mapped
      collection ids if there are any, then push the metadata tag. */
  method ToValues(options: CacheTagOptions) returns (values: seq<string>)
    ensures values == Values(options)
  {
    ghost var p, c := Ids(options.productIds), Ids(options.collectionIds);
    values := [];
    if options.productIds.Some? && |options.productIds.value| > 0 {
      values := values + ProductValues(options.productIds.value);
    } else {
      assert ProductValues(p) == [];
    }
    assert values == ProductValues(p);
    if options.collectionIds.Some? && |options.collectionIds.value| > 0 {
      values := values + CollectionValues(options.collectionIds.value);
    } else {
      assert CollectionValues(c) == [];
    }
    assert values == ProductValues(p) + CollectionValues(c);
    if options.collectionsMetadataWasModified == Some(true) {
      values := values + [ForCollectionsMetadata()];
    }
    ValuesGroups(options);
  }

  /** `CacheTags.toHeaderValue`: the tags joined by a bare comma, or nothing
      (`null`) when there are no tags. */
  function ToHeaderValue(options: CacheTagOptions): (r: Option<string>)
    ensures r.None? <==> Values(options) == []
    ensures r.None? <==> (|Ids(options.productIds)| == 0 && |Ids(options.collectionIds)| == 0
                          && !MetadataModified(options))
    ensures r.Some? ==> |r.value| > 0 && r.value[0] != ','
  {
    var values := Values(options);
    if |values| > 0 then
      assert forall k :: 0 <= k < |values| ==> |values[k]| > 0 && values[k][0] != ',' by {
        forall k | 0 <= k < |values| ensures |values[k]| > 0 && values[k][0] != ',' {
          assert values[k] == Render(Tags(options)[k]);
        }
      }
      JoinEnds(values, ',');
      Some(Join(values, ','))
    else None
  }

  /** No id contains the separator. */
  predicate CommaFreeIds(options: CacheTagOptions)
  {
    && (forall i :: 0 <= i < |Ids(options.productIds)| ==> ',' !in Ids(options.productIds)[i])
    && (forall j :: 0 <= j < |Ids(options.collectionIds)| ==> ',' !in Ids(options.collectionIds)[j])
  }

  lemma ValuesCommaFree(options: CacheTagOptions)
    requires CommaFreeIds(options)
    ensures forall k :: 0 <= k < |Values(options)| ==> ',' !in Values(options)[k]
  {
  }

  /** When no id contains a comma, the header value is a faithful encoding
      of the tag list: cutting it at the commas gives back the tag strings,
      each of which reads back as its tag, and it holds exactly one comma
      fewer than there are tags, none of them at either end. */
  lemma HeaderValueRoundTrip(options: CacheTagOptions)
    requires CommaFreeIds(options)
    requires ToHeaderValue(options).Some?
    ensures var h := ToHeaderValue(options).value;
      && Split(h, ',') == Values(options)
      && (forall k :: 0 <= k < |Split(h, ',')| ==> ParseTag(Split(h, ',')[k]) == Some(Tags(options)[k]))
      && Count(h, ',') == |Values(options)| - 1
      && h[0] != ',' && h[|h| - 1] != ','
  {
    var vs := Values(options);
    ValuesCommaFree(options);
    SplitJoin(vs, ',');
    JoinSeparatorCount(vs, ',');
    forall k | 0 <= k < |vs| ensures |vs[k]| > 0 {
      assert vs[k] == Render(Tags(options)[k]);
    }
    JoinEnds(vs, ',');
    var last := vs[|vs| - 1];
    assert last[|last| - 1] in last;
  }

  /** `toHeaderValue({ productIds: ["42"] })` is `pid_42`. */
  lemma SingleProductExample()
    ensures ToHeaderValue(CacheTagOptions(Some(["42"]), None, None)) == Some("pid_42")
  {
    var o := CacheTagOptions(Some(["42"]), None, None);
    ValuesGroups(o);
    assert ForProduct("42") == "pid_42";
    assert ProductValues(["42"])[0] == ForProduct("42");
    assert ProductValues(["42"]) == ["pid_42"];
    assert CollectionValues([]) == [];
  }

  lemma ThreeTagsJoin()
    ensures Join(["cid_7", "cid_8", "collections_metadata"], ',') == "cid_7,cid_8,collections_metadata"
  {
    var a, b, c := "cid_7", "cid_8", "collections_metadata";
    assert [b, c][1..] == [c];
    assert Join([b, c], ',') == b + [','] + c;
    assert [a, b, c][1..] == [b, c];
    assert Join([a, b, c], ',') == a + [','] + (b + [','] + c);
  }

  lemma CollectionsAndMetadataValues()
    ensures Values(CacheTagOptions(None, Some(["7", "8"]), Some(true)))
            == ["cid_7", "cid_8", "collections_metadata"]
  {
    var o := CacheTagOptions(None, Some(["7", "8"]), Some(true));
    ValuesGroups(o);
    var cs := CollectionValues(["7", "8"]);
    assert cs[0] == "cid_7" && cs[1] == "cid_8";
    assert ProductValues([]) + cs == cs;
  }

  /** `toHeaderValue({ collectionIds: ["7", "8"], collectionsMetadataWasModified: true })`
      is `cid_7,cid_8,collections_metadata`. */
  lemma CollectionsAndMetadataExample()
    ensures ToHeaderValue(CacheTagOptions(None, Some(["7", "8"]), Some(true)))
            == Some("cid_7,cid_8,collections_metadata")
  {
    CollectionsAndMetadataValues();
    ThreeTagsJoin();
  }
}
