# Cache headers of the storefront, in Dafny

A model of `src/lib/headers.ts`, the storefront's cache-header utility, with
proofs of what it emits. The utility has two parts:

- **`CacheTags`** turns product ids into `pid_<id>` tags and collection ids
  into `cid_<id>` tags. When the "collections metadata was modified" flag is
  set, it adds the constant tag `collections_metadata`. It joins the tags with
  bare commas into one `cache-tag` value, or gives `null` when there are no
  tags.
- **`applyCacheHeaders`** always emits `cache-control`. Unless the CDN cache is
  disabled, it also emits `cdn-cache-control`, and `cache-tag` when tag
  options were passed and call for a tag. It appends these headers, in that
  order, to the response's headers.

Files:

- `wrappers.dfy` (module `Wrappers`): `Option`, which stands for an optional
  field or a `null` result.
- `js_text.dfy` (module `JsText`): the JavaScript string behaviour the code
  relies on. That is `Array.prototype.join` with a one-character separator
  and the decimal rendering of a non-negative integer in a template literal.
  It also holds their inverses, `Split` and `DecimalValue`. They state what
  the renderings lose: the number rendering loses nothing, and the join
  loses nothing when no part contains the separator (`["a,b"]` and
  `["a", "b"]` both join to `a,b`).
- `cache_tags.dfy` (module `CacheTags`): the `CacheTags` class's static
  methods. `Tag` is the abstract tag and `ParseTag` reads a tag string back.
  `Values` is the tag list that `toValues` returns. `ToValues` builds that
  list the way the source does, one step at a time.
- `cache_headers.dfy` (module `CacheHeaders`): the header list
  (`CacheHeaderList`) and `Headers`, a class holding an append-only list of
  name/value pairs. `BuildCacheHeaders` builds the header record and
  `ApplyCacheHeaders` appends its entries in a loop, as the source's
  `forEach` does.

Inputs from outside the file are parameters. `disableCdnCache: bool` is the
result of reading the `DISABLE_CDN_CACHE` environment variable.
`oneDay: nat` is `ONE_DAY`, which comes from `../config.ts`.
`toHeaderValue` is a function in the source and calls `toValues`. In the
model it is a function, so it uses the function `Values`. The method
`ToValues` is proved equal to `Values`.

## Model

| member | source | states |
|---|---|---|
| `CacheTags.ForProduct` | src/lib/headers.ts:34-36 | the tag is `pid_` followed by the product id copied verbatim |
| `CacheTags.ForCollection` | src/lib/headers.ts:37-39 | the tag is `cid_` followed by the collection id copied verbatim |
| `CacheTags.ForCollectionsMetadata` | src/lib/headers.ts:40-42 | the metadata tag is the constant `collections_metadata` |
| `CacheTags.Render` | src/lib/headers.ts:34-42 | each kind of tag is rendered by its own helper; every tag is at least four characters, with no comma among its first four characters, and its first four characters are `pid_` exactly for a product tag and `cid_` exactly for a collection tag |
| `CacheTags.ParseRender` | src/lib/headers.ts:34-42 | every tag reads back as itself, so the tag format is unambiguous: different ids or kinds never give the same tag string |
| `CacheTags.RenderParse` | src/lib/headers.ts:34-42 | a string that reads as a tag is exactly that tag's rendering |
| `CacheTags.Values` | src/lib/headers.ts:44-56 | length is the number of product ids plus the number of collection ids, plus one when the flag is true; absent lists count as empty and duplicates are kept; product tags come first in input order, then collection tags in input order, then `collections_metadata` last; entry k reads back as the k-th abstract tag |
| `CacheTags.ProductValues` | src/lib/headers.ts:47 | `productIds.map(forProduct)` has one tag per id, in order, the i-th being `pid_` followed by the i-th id, and reading back as that product |
| `CacheTags.CollectionValues` | src/lib/headers.ts:50 | `collectionIds.map(forCollection)` has one tag per id, in order, the i-th being `cid_` followed by the i-th id, and reading back as that collection |
| `CacheTags.ValuesGroups` | src/lib/headers.ts:46-54 | the list is the mapped product ids, then the mapped collection ids, then the metadata tag when the flag is true |
| `CacheTags.ToValues` | src/lib/headers.ts:44-56 | the step-by-step build (concatenate the non-empty product list, then the non-empty collection list, then push the metadata tag) yields exactly `Values`; skipping empty lists changes nothing |
| `CacheTags.ToHeaderValue` | src/lib/headers.ts:58-61 | the result is `null` exactly when the tag list is empty, which happens exactly when there are no product ids, no collection ids and the flag is not true; a non-null value is non-empty and does not start with a comma |
| `CacheTags.HeaderValueRoundTrip` | src/lib/headers.ts:58-61 | when no id contains a comma: cutting the value at commas gives back the tag list, and each part reads back as its tag; the value holds exactly one comma fewer than there are tags; it neither starts nor ends with a comma |
| `CacheTags.SingleProductExample` | src/lib/headers.ts:58-61 | product ids `["42"]` give the value `pid_42` |
| `CacheTags.CollectionsAndMetadataExample` | src/lib/headers.ts:58-61 | collection ids `["7","8"]` with the flag set give `cid_7,cid_8,collections_metadata` |
| `JsText.Join` | src/lib/headers.ts:60 | `values.join(',')` is as long as the parts together plus one separator per gap between neighbours, and starts with the first part |
| `JsText.JoinCount` | src/lib/headers.ts:60 | `join(',')` adds one comma between neighbours and nothing else: every other character, whitespace included, occurs as often as in the parts |
| `JsText.JoinSeparatorCount` | src/lib/headers.ts:60 | with comma-free parts the joined value holds exactly `\|values\| - 1` commas |
| `JsText.SplitJoin` | src/lib/headers.ts:60 | cutting a join of a non-empty list of separator-free parts at the separator gives back the parts |
| `JsText.JoinEnds` | src/lib/headers.ts:60 | a join of non-empty parts starts with the first part's first character and ends with the last part's last character |
| `JsText.NatToString` | src/lib/headers.ts:18 | `${n}` is a non-empty string of decimal digits with no leading zero, except for `0` itself |
| `JsText.DecimalRoundTrip` | src/lib/headers.ts:18 | reading the rendered digits back gives the number |
| `JsText.NatToStringInjective` | src/lib/headers.ts:18 | different numbers render differently |
| `CacheHeaders.CdnCacheControlValue` | src/lib/headers.ts:17-18 | the value is `public,durable,s-maxage=`, then the canonical decimal rendering of the one-day duration (digits only, no leading zero except for `0`, reading back as the duration), then `,stale-while-revalidate=300` (60 * 5 rendered) |
| `CacheHeaders.FiveMinutesRendered` | src/lib/headers.ts:18 | `60 * 5` renders as `300` |
| `CacheHeaders.TagHeaderValue` | src/lib/headers.ts:20-24 | a `cache-tag` value exists exactly when tag options were passed and they name a product or a collection or set the metadata flag to true; it is then non-empty and does not start with a comma |
| `CacheHeaders.CacheHeaderList` | src/lib/headers.ts:12-26 | one to three headers with distinct names. The first is always `cache-control: public,max-age=0,must-revalidate`. With the CDN cache disabled it is the only one. Otherwise the second is `cdn-cache-control` with the CDN value. A third header exists exactly when the CDN cache is enabled and the tag options give a non-null value; it is `cache-tag` with that value |
| `CacheHeaders.CacheTagEmitted` | src/lib/headers.ts:15-26 | `cache-tag` is emitted exactly when the CDN cache is enabled, tag options were passed, and they name a product or a collection or set the flag to true |
| `CacheHeaders.Headers.Append` | src/lib/headers.ts:29 | appending adds the pair after all existing pairs and changes nothing else |
| `CacheHeaders.BuildCacheHeaders` | src/lib/headers.ts:12-26 | the record built entry by entry is exactly the header list. The source tests the tag value for JavaScript truthiness (neither `null` nor empty); the proof shows this is the same as non-null, because a tag value is never empty |
| `CacheHeaders.ApplyCacheHeaders` | src/lib/headers.ts:11-31 | the new headers are the old ones, untouched and in front, followed by the header list in order; the loop appends one entry per step |
| `CacheHeaders.ApplyToFreshHeaders` | src/lib/headers.ts:11-31 | on a fresh, empty headers collection the result is exactly the header list, a function of the inputs alone, so two calls with the same inputs give identical headers |
| `CacheHeaders.NoOptionsExample` | src/lib/headers.ts:12-26 | with no options and the CDN cache enabled, only `cache-control` and `cdn-cache-control` are emitted |

## Left out

- Reading `DISABLE_CDN_CACHE` from the environment and testing it case-insensitively against `true` (line 3): environment I/O. The result is the `disableCdnCache` parameter.
- The definition of `ONE_DAY` (line 1): `../config.ts` is not part of this model. It is the `oneDay: nat` parameter.
- JsText.NatToString: models `${n}` only for non-negative integers. JavaScript renders numbers of 10^21 and above in exponent notation, and fractions with a decimal point. The model renders every `nat` in plain digits.
- The Web `Headers` API's internals: name normalisation, value validation, and how `get` combines values. The code only calls `append`, so `Headers` is an append-only list of pairs.
- `Record<string, string>` and `Object.entries` ordering in general. The record gets each of three distinct literal keys at most once, so it is a list of pairs in insertion order. `CacheHeaderList` proves the names distinct. Reassigning an existing key is not modelled, because the code never does it.
- CacheTags.HeaderValueRoundTrip: the round trip, the comma count and the no-trailing-comma claim assume ids without commas. Ids are arbitrary strings in the source, so an id such as `a,b` makes the value ambiguous.
- The meaning of the emitted directives (`max-age`, `must-revalidate`, `s-maxage`, `stale-while-revalidate`, `CDN-Cache-Control`). The code emits them as literal strings and never interprets them.
- Run-time values outside the declared TypeScript types (a non-array `productIds`, a non-boolean flag): the model follows the declared types. The flag counts only when it is present and `true`.
