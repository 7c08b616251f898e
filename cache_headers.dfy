/** `applyCacheHeaders`: the cache headers the storefront attaches to a
    response, and how they are added to the response's headers. The
    process-wide "CDN cache disabled" setting and the one-day duration are
    parameters here. */
module CacheHeaders {
  import opened Wrappers
  import opened JsText
  import opened CacheTags

  /** The second argument of `applyCacheHeaders`: `{ cacheTags?: CacheTagOptions }`. */
  datatype ApplyOptions = ApplyOptions(cacheTags: Option<CacheTagOptions>)

  type Header = (string, string)

  const CacheControlName: string := "cache-control"
  const CdnCacheControlName: string := "cdn-cache-control"
  const CacheTagName: string := "cache-tag"

  /** The browser-facing directive, the same on every response. */
  const CacheControlValue: string := "public,max-age=0,must-revalidate"

  /** Five minutes, in seconds. */
  const StaleWhileRevalidate: nat := 60 * 5

  const CdnPrefix: string := "public,durable,s-maxage="
  const CdnMiddle: string := ",stale-while-revalidate="

  /** What follows the one-day duration, with five minutes written out. */
  const CdnSuffix: string := ",stale-while-revalidate=300"

  /** The CDN directive: cache for `oneDay` seconds, and serve stale content
      for five minutes while revalidating. The duration is written in its
      canonical decimal form, which reads back as `oneDay`. */
  function CdnCacheControlValue(oneDay: nat): (v: string)
    ensures |v| > |CdnPrefix| + |CdnSuffix|
    ensures v[..|CdnPrefix|] == "public,durable,s-maxage="
    ensures v[|v| - |CdnSuffix|..] == ",stale-while-revalidate=300"
    ensures var digits := v[|CdnPrefix|..|v| - |CdnSuffix|];
      && digits == NatToString(oneDay)
      && (forall k :: 0 <= k < |digits| ==> '0' <= digits[k] <= '9')
      && (digits[0] != '0' || digits == "0")
      && DecimalValue(digits) == oneDay
  {
    var d := NatToString(oneDay);
    var v := CdnPrefix + d + CdnMiddle + NatToString(StaleWhileRevalidate);
    FiveMinutesRendered();
    DecimalRoundTrip(oneDay);
    Slices(CdnPrefix, d, CdnSuffix);
    assert v == CdnPrefix + d + CdnSuffix;
    v
  }

  lemma FiveMinutesRendered()
    ensures NatToString(StaleWhileRevalidate) == "300"
  {
  }

  /** The three pieces of a concatenation can be cut back out of it. */
  lemma Slices(a: string, d: string, b: string)
    ensures var s := a + d + b;
      && s[..|a|] == a && s[|a|..|s| - |b|] == d && s[|s| - |b|..] == b
  {
  }

  /** The `cache-tag` value: present exactly when the caller gave tag options
      and they name a product or a collection or set the metadata flag. */
  function TagHeaderValue(options: Option<ApplyOptions>): (r: Option<string>)
    ensures r.Some? <==>
      (&& options.Some? && options.value.cacheTags.Some?
       && var o := options.value.cacheTags.value;
          (|Ids(o.productIds)| > 0 || |Ids(o.collectionIds)| > 0 || MetadataModified(o)))
    ensures r.Some? ==> |r.value| > 0 && r.value[0] != ','
  {
    if options.Some? && options.value.cacheTags.Some? then ToHeaderValue(options.value.cacheTags.value)
    else None
  }

  /** The headers `applyCacheHeaders` appends, in order. */
  function CacheHeaderList(options: Option<ApplyOptions>, disableCdnCache: bool, oneDay: nat): (hs: seq<Header>)
    ensures 1 <= |hs| <= 3
    ensures hs[0] == ("cache-control", "public,max-age=0,must-revalidate")
    ensures disableCdnCache ==> |hs| == 1
    ensures !disableCdnCache ==> |hs| >= 2 && hs[1] == ("cdn-cache-control", CdnCacheControlValue(oneDay))
    ensures |hs| == 3 <==> !disableCdnCache && TagHeaderValue(options).Some?
    ensures |hs| == 3 ==> hs[2] == ("cache-tag", TagHeaderValue(options).value)
    ensures forall i, j :: 0 <= i < j < |hs| ==> hs[i].0 != hs[j].0
  {
    [(CacheControlName, CacheControlValue)]
      + if disableCdnCache then []
        else [(CdnCacheControlName, CdnCacheControlValue(oneDay))]
             + match TagHeaderValue(options)
               case Some(v) => [(CacheTagName, v)]
               case None => []
  }

  /** `cache-tag` is emitted exactly when the CDN cache is enabled, the caller
      passed tag options, and those options name a product or a collection or
      set the metadata flag to true. */
  lemma CacheTagEmitted(options: Option<ApplyOptions>, disableCdnCache: bool, oneDay: nat)
    ensures var hs := CacheHeaderList(options, disableCdnCache, oneDay);
      (exists k :: 0 <= k < |hs| && hs[k].0 == "cache-tag")
      <==>
      (&& !disableCdnCache
       && options.Some? && options.value.cacheTags.Some?
       && var o := options.value.cacheTags.value;
          (|Ids(o.productIds)| > 0 || |Ids(o.collectionIds)| > 0 || MetadataModified(o)))
  {
    var hs := CacheHeaderList(options, disableCdnCache, oneDay);
    assert hs[0].0 != "cache-tag";
    assert |hs| >= 2 ==> hs[1].0 != "cache-tag";
    if |hs| == 3 {
      assert hs[2].0 == "cache-tag";
    }
  }

  /** The response's headers collection, reduced to what the code uses of it:
      an append-only list of name/value pairs, several per name allowed. */
  class Headers {
    var entries: seq<Header>

    constructor ()
      ensures entries == []
    {
      entries := [];
    }

    /** `Headers.append`: adds a pair after all existing ones. */
    method Append(name: string, value: string)
      modifies this
      ensures entries == old(entries) + [(name, value)]
    {
      entries := entries + [(name, value)];
    }
  }

  /** The first half of `applyCacheHeaders`: the header record, built entry
      by entry in insertion order. */
  method BuildCacheHeaders(options: Option<ApplyOptions>, disableCdnCache: bool, oneDay: nat)
    returns (cacheHeaders: seq<Header>)
    ensures cacheHeaders == CacheHeaderList(options, disableCdnCache, oneDay)
  {
    cacheHeaders := [(CacheControlName, CacheControlValue)];
    if !disableCdnCache {
      cacheHeaders := cacheHeaders + [(CdnCacheControlName, CdnCacheControlValue(oneDay))];
      if options.Some? && options.value.cacheTags.Some? {
        var tagsHeaderValue := ToHeaderValue(options.value.cacheTags.value);
        // JavaScript truthiness: neither null nor the empty string.
        if tagsHeaderValue.Some? && tagsHeaderValue.value != "" {
          cacheHeaders := cacheHeaders + [(CacheTagName, tagsHeaderValue.value)];
        }
      }
    }
  }

  /** `applyCacheHeaders`: builds the header record, then appends each of its
      entries, in insertion order, to `headers`. What was there before stays
      as it was, in front. */
  method ApplyCacheHeaders(headers: Headers, options: Option<ApplyOptions>, disableCdnCache: bool, oneDay: nat)
    modifies headers
    ensures headers.entries == old(headers.entries) + CacheHeaderList(options, disableCdnCache, oneDay)
  {
    var cacheHeaders := BuildCacheHeaders(options, disableCdnCache, oneDay);
    var i := 0;
    while i < |cacheHeaders|
      invariant 0 <= i <= |cacheHeaders|
      invariant headers.entries == old(headers.entries) + cacheHeaders[..i]
    {
      headers.Append(cacheHeaders[i].0, cacheHeaders[i].1);
      assert cacheHeaders[..i + 1] == cacheHeaders[..i] + [cacheHeaders[i]];
      i := i + 1;
    }
    assert cacheHeaders[..i] == cacheHeaders;
  }

  /** Applying to a fresh, empty headers collection yields exactly the header
      list, which depends only on the inputs: two calls with the same inputs
      produce identical headers. */
  method ApplyToFreshHeaders(options: Option<ApplyOptions>, disableCdnCache: bool, oneDay: nat)
    returns (entries: seq<Header>)
    ensures entries == CacheHeaderList(options, disableCdnCache, oneDay)
  {
    var headers := new Headers();
    ApplyCacheHeaders(headers, options, disableCdnCache, oneDay);
    entries := headers.entries;
  }

  /** With no options and the CDN cache enabled, only the two cache-control
      headers are emitted. */
  lemma NoOptionsExample(oneDay: nat)
    ensures CacheHeaderList(None, false, oneDay)
            == [("cache-control", "public,max-age=0,must-revalidate"),
                ("cdn-cache-control", CdnCacheControlValue(oneDay))]
  {
  }
}
