# Product response normalisation, in Dafny

This project models the response-normalisation layer of the storefront's
product service (`src/services/productService.ts`). The service fetches product
lists and product details from a backend whose JSON comes in several shapes. It
maps every shape onto one product record:

- `sanitizeImageUrl` cleans an image URL. It trims the string, drops one
  trailing `)`, strips leading and trailing quote runs, and rewrites a
  protocol-relative `//host/...` to `https://host/...`.
- `normalizeProduct` fills `id`, `title`, `price`, `imageUrl` and `slug` from
  `??` chains of alternative field names. It then spreads the raw item over the
  result.
- `fetchProducts`, from the parsed body on, picks the product array from
  several candidate places and normalises each element. It also reads the
  pagination metadata.
- `fetchProductDetails`, from the parsed body on, unwraps the product object
  and normalises it. It then writes the slug, description, discount, cleaned
  image gallery and specifications over it.

The code is pure, so the model consists of datatypes, functions and lemmas:

- `Js` (`js.dfy`) holds the JavaScript values that `JSON.parse` produces, plus
  `undefined`. It also holds the four operators the service is built from:
  optional property access (`Get`, `At`), nullish coalescing (`OrElse`),
  truthiness (`Truthy`) and object spread (`Spread`).
  - `Get` and `At` are plain lookups, defined by their bodies. `v.Get(k)` is
    the own property `k` of an object and undefined for anything else.
    `v.At(i)` is the `i`-th element of an array, the `i`-th character of a
    string, or the property of an object named by the decimal digits of `i`
    (`IndexKey`); it is undefined otherwise. `OwnKeys(v)` is the key set of an
    object and empty for anything else.
  - A `??` chain has an independent reference definition, `FirstDefined`:
    the first candidate that is neither null nor undefined, found by
    `FirstDefinedIndex`.
  - The `ChainOf...` lemmas connect the left-grouped chains as written in the
    source to that definition.
- `ImageUrl` (`image_url.dfy`) is the sanitiser, written as a composition of
  pure string stages.
- `ProductService` (`product_service.dfy`) holds the two normalisers and the
  status check in front of them.

The model follows the code on three points where the service's documented
behaviour reads differently:

- The raw item is spread last, so its own fields override the computed ones
  (a raw `title: null` stays `null`).
- The image placeholder replaces only a non-string raw image. A string that
  sanitises to `""` is kept as `""`.
- Every fallback chain takes the first value that is not null or undefined,
  not the first non-empty one, so `""`, `0` and `false` win.

## Model

| member | source | states |
|---|---|---|
| Js.Json.Nullish | src/services/productService.ts:67 | the values `??` skips are exactly `null` and `undefined` |
| Js.Json.Truthy | src/services/productService.ts:114 | the condition of `raw?.image ? [raw.image] : []` is JavaScript truthiness |
| Js.FalsyExactly | src/services/productService.ts:114 | the falsy values are exactly undefined, null, `false`, `0` and `""`, so a nullish value is never truthy |
| Js.Json.OrElse | src/services/productService.ts:67 | `a ?? b` is nullish exactly when both sides are, and it is always one of the two sides |
| Js.OrElseAssociative | src/services/productService.ts:67-82 | `(a ?? b) ?? c` equals `a ?? (b ?? c)`, so the left-grouped chains of the source can be read as a right fold |
| Js.IndexKey | src/services/productService.ts:80 | the property name `String(i)` that `v?.[i]` reads on an object is a non-empty string of decimal digits, `"0"` to `"9"` for a single digit |
| Js.Spread | src/services/productService.ts:85 | `{...t, ...src}` has the keys of both; on a key of `src` the value of `src` wins, elsewhere the value of `t` is kept |
| Js.FirstDefinedIndex | src/services/productService.ts:67-75 | the position of the first candidate that is neither null nor undefined: everything before it is nullish, and it is not |
| Js.FirstDefined | src/services/productService.ts:67-75 | the value of a `??` chain is the candidate at the first-defined position, or the default when there is none |
| Js.DefinedCandidateWins | src/services/productService.ts:67-75 | a defined candidate preceded only by nullish ones is the chain's value, even when it is `""`, `0` or `false` |
| ImageUrl.SanitizeString | src/services/productService.ts:130-136 | the sanitised string never starts with `//` and never starts or ends with `'` or `"` |
| ImageUrl.Trim | src/services/productService.ts:130 | `url.trim()` drops the leading and the trailing whitespace runs |
| ImageUrl.TrimCutsOnlySpace | src/services/productService.ts:130 | the trimmed string is an infix of the input that neither starts nor ends with whitespace, and everything cut on either side is whitespace |
| ImageUrl.DropOneParen | src/services/productService.ts:132 | the result is a prefix of the input at most one character shorter, and it is shorter exactly when the input ends with `)`: at most one `)` is removed |
| ImageUrl.StripQuotes | src/services/productService.ts:133 | the global replace drops the leading and the trailing runs of `'` and `"` |
| ImageUrl.StripQuotesCutsOnlyQuotes | src/services/productService.ts:133 | after the quote-stripping replace the string is an infix of the input that neither starts nor ends with a quote, and everything cut on either side is a quote |
| ImageUrl.ForceHttps | src/services/productService.ts:135 | the result never starts with `//`; it differs from the input exactly when the input starts with `//`, and then it is `https:` followed by the input |
| ImageUrl.SanitizeImageUrl | src/services/productService.ts:128-136 | the result is undefined exactly when the argument is not a string; for a string it is always a string, possibly empty, and it is the sanitised one |
| ImageUrl.SanitizeKeepsInnerSpan | src/services/productService.ts:130-135 | the result is a contiguous span of the input, prefixed with `https:` exactly when that span starts with `//`; before the span there are only whitespace and quotes, after it only whitespace, quotes and at most one `)` |
| ImageUrl.ForceHttpsEnds | src/services/productService.ts:135 | the `https:` rewrite never leaves a protocol-relative string, keeps the last character, and does not start with a quote when its input did not |
| ImageUrl.SanitizeKeepsCleanUrl | src/services/productService.ts:130-135 | a URL with no whitespace, quote or `)` at its ends comes back unchanged, or with `https:` in front when protocol-relative |
| ImageUrl.SanitizeDropsOneTrailingParen | src/services/productService.ts:132 | one `)` after a clean URL is removed and nothing else is, including a `)` that ends the URL itself |
| ImageUrl.SanitizeKeepsParenInsideQuotes | src/services/productService.ts:132-133 | a `)` inside surrounding double quotes survives, because the `)` check runs before the quotes are stripped |
| ImageUrl.ForceHttpsOnCdnExample | src/services/productService.ts:135 | `//cdn.example.com/img.png` is rewritten to `https://cdn.example.com/img.png` |
| ImageUrl.SanitizeProtocolRelativeWithParen | src/services/productService.ts:130-136 | `//cdn.example.com/img.png)` sanitises to `https://cdn.example.com/img.png` |
| ImageUrl.SanitizeQuotedParenExample | src/services/productService.ts:130-136 | the quoted `"a)"` sanitises to `a)`, keeping its `)` |
| ProductService.ImagesObjectKeyZeroSuppliesImage | src/services/productService.ts:80-83 | `images?.[0]` also reads the key `"0"` of an `images` object, whose `url` then becomes the image |
| ProductService.RawImage | src/services/productService.ts:76-82 | the raw image is the first defined of `image.url`, `thumbnail`, `image`, `images[0].url` and `featuredImage`, whatever its type |
| ProductService.ProductId | src/services/productService.ts:67 | `id` is the first defined of `id`, `_id`, `productId` and `sku`, else the random fallback; never null or undefined |
| ProductService.ProductTitle | src/services/productService.ts:68 | `title` is the first defined of `title`, `name` and `productName`, else `"Untitled"`; never null or undefined |
| ProductService.ProductSlug | src/services/productService.ts:69 | `slug` is the first defined of `slug`, `handle` and `productSlug`, else undefined; never null |
| ProductService.ProductPrice | src/services/productService.ts:70-75 | `price` is the first defined of `price`, `salePrice`, `regularPrice` and `minPrice`, else `0`; never null or undefined |
| ProductService.ProductImageUrl | src/services/productService.ts:83 | `imageUrl` is the sanitised raw image when that is a string, even if it sanitises to `""`, and the placeholder `/file.svg` exactly when it is not a string |
| ProductService.SummaryFields | src/services/productService.ts:85 | the object literal before the spread has exactly the keys `id`, `title`, `price`, `imageUrl` and `slug`, holding the five computed fields |
| ProductService.NormalizeProduct | src/services/productService.ts:66-86 | the product has the computed keys plus the item's own keys; every own field of the item keeps its raw value, and a computed field survives only where the item lacks that key |
| ProductService.SummaryAlwaysDefined | src/services/productService.ts:67-85 | unless the item overrides them, a product always has a defined `id`, `title` and `price` and a string `imageUrl` |
| ProductService.RawNullTitleOverridesDefault | src/services/productService.ts:85 | a raw `title: null` is kept in place of `"Untitled"` |
| ProductService.FalsyNameWins | src/services/productService.ts:68 | an empty `name` becomes the title, ahead of `productName` and the default `"Untitled"` |
| ProductService.ZeroSalePriceWins | src/services/productService.ts:70-75 | a zero `salePrice` becomes the price, ahead of a non-zero `regularPrice` and the default |
| ProductService.ImageObjectWithoutUrlGivesPlaceholder | src/services/productService.ts:76-83 | with no `thumbnail`, an `image` object without `url` is chosen by the chain and the product shows the placeholder |
| ProductService.EmptySanitizedImageIsKept | src/services/productService.ts:83 | a string image that sanitises to `""` gives `imageUrl` `""`, not the placeholder |
| ProductService.RawList | src/services/productService.ts:43-50 | an array body is the raw list itself; any other body gives the first defined of `data.data`, `data.products`, `products`, `items` and `data`, else `[]` |
| ProductService.ProductList | src/services/productService.ts:52 | an array body gives its elements; a raw list that is an array gives its elements, and one that is not gives no elements |
| ProductService.FirstDefinedCandidateDecides | src/services/productService.ts:43-52 | the first defined candidate alone decides the list: its elements when it is an array, empty otherwise, with no fall-through to a later array |
| ProductService.NoCandidateGivesEmptyList | src/services/productService.ts:43-52 | a non-array body with no candidate defined gives an empty list |
| ProductService.DataProductsShape | src/services/productService.ts:45-52 | a body whose products sit under `data.products` (and with no `data.data`) gives exactly that array |
| ProductService.NonArrayDataDataBlocksProducts | src/services/productService.ts:45-52 | `{data: {data: "not-an-array"}, products: [A, B]}` gives no products |
| ProductService.MetaField | src/services/productService.ts:56-60 | one pagination field is the first defined of its top-level and `data` values, else its `meta` value as it is, null or undefined included |
| ProductService.ReadMeta | src/services/productService.ts:55-61 | each of `page`, `limit`, `total` and `totalPages` is read on its own: the top-level or `data` value when defined, else the `meta` value as it is, null included |
| ProductService.MetaDependsOnlyOnMetaFields | src/services/productService.ts:55-61 | two bodies that agree on the pagination fields at the top level, under `data` and under `meta` have the same metadata, whatever their list shapes |
| ProductService.MetaIgnoresListFields | src/services/productService.ts:55-61 | replacing a body's `products` or `items` leaves its metadata unchanged |
| ProductService.NormalizeEach | src/services/productService.ts:53 | `list.map(normalizeProduct)` keeps the length and order of the list and normalises each element on its own |
| ProductService.NormalizeProductList | src/services/productService.ts:52-63 | the products have the length and order of the extracted list, each the normalisation of its element; the metadata is read from the same body |
| ProductService.TopLevelArrayBody | src/services/productService.ts:43-53 | an array body gives one product per element, each with the computed keys plus the element's own keys |
| ProductService.Root | src/services/productService.ts:106 | the unwrapped root is the first defined of `data`, `product` and the body itself, else `{}`; never null or undefined |
| ProductService.ImagesSource | src/services/productService.ts:111-114 | the gallery source is `images` when defined, else `gallery` when defined, else `[image]` when `image` is truthy, else `[]` |
| ProductService.CleanImage | src/services/productService.ts:116-119 | a string entry becomes its sanitised string, never the placeholder; any other entry becomes an object with only `url`, holding the sanitised `url` or the placeholder when `url` is not a string |
| ProductService.CleanImages | src/services/productService.ts:115-121 | a non-array source gives `[]`; an array keeps its length and order, entry by entry cleaned |
| ProductService.DetailSlug | src/services/productService.ts:125 | the detail slug is the root's own `slug` when defined, else the argument; never null or undefined |
| ProductService.Description | src/services/productService.ts:109 | `description` is the first defined of `description`, `shortDescription` and `details`, else `""` |
| ProductService.Discount | src/services/productService.ts:110 | `discount` is the first defined of `discount`, `discountPercentage` and `offer`, else `0` |
| ProductService.Specifications | src/services/productService.ts:122-123 | `specifications` is the first defined of `specifications`, `specs`, `attributes` and `features`, whatever its shape, else `{}` |
| ProductService.DetailField | src/services/productService.ts:125 | every value the return literal writes under a detail key is defined |
| ProductService.DetailFields | src/services/productService.ts:109-125 | the properties written after the spread are exactly `slug`, `description`, `discount`, `images` and `specifications`, all defined, `images` being the cleaned gallery |
| ProductService.NormalizeProductDetail | src/services/productService.ts:106-125 | the detail has the keys of the normalised root plus the five detail keys; the detail fields win, and every other field is that of the normalised root |
| ProductService.SpecificationsPassThrough | src/services/productService.ts:122-125 | a defined `specifications` on the root is returned unchanged |
| ProductService.SpecificationPairsKept | src/services/productService.ts:122-125 | a list of key/value pairs under `data.specifications` comes back as that list |
| ProductService.SpecificationTableKept | src/services/productService.ts:122-125 | a plain mapping under `data.specifications` comes back as that mapping |
| ProductService.DetailSlugIgnoresHandle | src/services/productService.ts:125 | a root with only a `handle` gets that handle as its summary slug, but its detail slug is the argument |
| ProductService.NonArrayImagesGiveEmptyGallery | src/services/productService.ts:111-121 | a defined `images` that is not an array gives an empty gallery, without falling through to `gallery` |
| ProductService.SingleImageNeedsTruthy | src/services/productService.ts:111-121 | without `images` or `gallery`, the gallery is the one cleaned `image` when `image` is truthy, and empty otherwise (`""` and `0` included) |
| ProductService.CleanImagesKeepKinds | src/services/productService.ts:115-121 | cleaning keeps the number of entries; string entries stay strings and all others become objects |
| ProductService.IsOkStatus | src/services/productService.ts:36 | `res.ok` holds exactly for a status from 200 to 299 |
| ProductService.FetchProducts | src/services/productService.ts:36-63 | a status outside 200-299 fails with that status before any normalisation; otherwise the result is the normalised list response |
| ProductService.FetchProductDetails | src/services/productService.ts:102-125 | a status outside 200-299 fails with that status before any normalisation; otherwise the result is the normalised detail |

## Left out

- The HTTP plumbing is not modelled: URL building (including `encodeURIComponent`), `fetch` and its headers, and `res.json()` with its failure on malformed bodies. The normalisers start from the parsed body. The `res.ok` check is kept as the status argument of `FetchProducts` and `FetchProductDetails`.
- The text of the thrown error message is not kept. The failure result carries only the status.
- `String(Math.random())` is nondeterministic, so it is a parameter: `fallbackId` for one product, and `freshId(i)` for the `i`-th element of a list.
- Js.Spread: spreading a string or an array item puts its characters or elements under index keys `"0"`, `"1"`, …. The model gives such items no keys. This also holds for `Js.OwnKeys`, and for `ProductService.NormalizeProduct` and `ProductService.NormalizeProductDetail` when the item or root is a non-empty string or array.
- Js.Json.Get: built-in properties of arrays and strings (`length`, index keys) and inherited object properties read as undefined. The service reads none of these by name. The one index it reads, `images?.[0]`, goes through `Js.Json.At`, which covers arrays, strings and an object's key `"0"`.
- Numbers are reals. `-0` is represented by `0.0`, which is falsy like `-0`. NaN cannot come out of JSON text. A number literal too large for a double parses to an infinity, which is truthy; the model has no counterpart for it.
- Object keys have no order in the model. Only the key sets and values are modelled.
- The regular expression engine is not modelled. The global replace `/^['"]+|['"]+$/g` is stated as removing the leading quote run and then the trailing quote run.
- `trim` is modelled with its whitespace set written out: ECMAScript WhiteSpace and LineTerminator characters.
- The TypeScript interfaces (`Product`, `ProductDetail`, `PaginatedMeta`) are compile-time only. The model is untyped, like the runtime values.
- The page components, `src/components/layout/Header.tsx`, `src/components/layout/Footer.tsx` and `next.config.ts` are not part of this model. They hold UI state, markup and framework configuration, and none of them take part in normalisation.
