/** The response normalisers of the product service, from the parsed JSON body
    on: `normalizeProduct`, the list and pagination extraction of
    `fetchProducts`, and the unwrapping and cleaning of `fetchProductDetails`.
    Everything here is total: a missing or malformed field falls back to a
    default, and the only failure is a non-2xx HTTP status. */
module ProductService {
  import opened Js
  import opened ImageUrl

  /** An object built by the normaliser: own property name to value. */
  type Record = map<string, Json>

  /** The local asset shown when a product has no usable image. */
  const Placeholder: string := "/file.svg"

  /** The properties `normalizeProduct` computes before it spreads the raw item. */
  const SummaryKeys: set<string> := {"id", "title", "price", "imageUrl", "slug"}

  /** The properties `fetchProductDetails` writes after spreading the summary. */
  const DetailKeys: set<string> := {"slug", "description", "discount", "images", "specifications"}

  // ---------------------------------------------------------------------
  // normalizeProduct
  // ---------------------------------------------------------------------

  function IdCandidates(item: Json): seq<Json> {
    [item.Get("id"), item.Get("_id"), item.Get("productId"), item.Get("sku")]
  }

  function TitleCandidates(item: Json): seq<Json> {
    [item.Get("title"), item.Get("name"), item.Get("productName")]
  }

  function SlugCandidates(item: Json): seq<Json> {
    [item.Get("slug"), item.Get("handle"), item.Get("productSlug")]
  }

  function PriceCandidates(item: Json): seq<Json> {
    [item.Get("price"), item.Get("salePrice"), item.Get("regularPrice"), item.Get("minPrice")]
  }

  function ImageCandidates(item: Json): seq<Json> {
    [item.Get("image").Get("url"), item.Get("thumbnail"), item.Get("image"),
     item.Get("images").At(0).Get("url"), item.Get("featuredImage")]
  }

  /** `rawImageUrl`: the first defined of `image.url`, `thumbnail`, `image`
      itself, `images[0].url` and `featuredImage`, whatever its type. */
  function RawImage(item: Json): (r: Json)
    ensures r == FirstDefined(ImageCandidates(item), Undefined)
  {
    ChainOfFive(item.Get("image").Get("url"), item.Get("thumbnail"), item.Get("image"),
                item.Get("images").At(0).Get("url"), item.Get("featuredImage"), Undefined);
    item.Get("image").Get("url")
      .OrElse(item.Get("thumbnail"))
      .OrElse(item.Get("image"))
      .OrElse(item.Get("images").At(0).Get("url"))
      .OrElse(item.Get("featuredImage"))
      .OrElse(Undefined)
  }

  /** `id`: the first defined of `id`, `_id`, `productId`, `sku`, else the
      random fallback; never null or undefined, and not necessarily a string. */
  function ProductId(item: Json, fallbackId: string): (r: Json)
    ensures r == FirstDefined(IdCandidates(item), Str(fallbackId))
    ensures !r.Nullish()
  {
    ChainOfFour(item.Get("id"), item.Get("_id"), item.Get("productId"), item.Get("sku"), Str(fallbackId));
    item.Get("id").OrElse(item.Get("_id")).OrElse(item.Get("productId"))
      .OrElse(item.Get("sku")).OrElse(Str(fallbackId))
  }

  /** `title`: the first defined of `title`, `name`, `productName`, else
      `"Untitled"`. */
  function ProductTitle(item: Json): (r: Json)
    ensures r == FirstDefined(TitleCandidates(item), Str("Untitled"))
    ensures !r.Nullish()
  {
    ChainOfThree(item.Get("title"), item.Get("name"), item.Get("productName"), Str("Untitled"));
    item.Get("title").OrElse(item.Get("name")).OrElse(item.Get("productName")).OrElse(Str("Untitled"))
  }

  /** `slug`: the first defined of `slug`, `handle`, `productSlug`; a `null`
      among them becomes undefined. */
  function ProductSlug(item: Json): (r: Json)
    ensures r == FirstDefined(SlugCandidates(item), Undefined)
    ensures r != Null
  {
    ChainOfThree(item.Get("slug"), item.Get("handle"), item.Get("productSlug"), Undefined);
    item.Get("slug").OrElse(item.Get("handle")).OrElse(item.Get("productSlug")).OrElse(Undefined)
  }

  /** `price`: the first defined of `price`, `salePrice`, `regularPrice`,
      `minPrice`, else `0`. */
  function ProductPrice(item: Json): (r: Json)
    ensures r == FirstDefined(PriceCandidates(item), Num(0.0))
    ensures !r.Nullish()
  {
    ChainOfFour(item.Get("price"), item.Get("salePrice"), item.Get("regularPrice"), item.Get("minPrice"),
                Num(0.0));
    item.Get("price").OrElse(item.Get("salePrice")).OrElse(item.Get("regularPrice"))
      .OrElse(item.Get("minPrice")).OrElse(Num(0.0))
  }

  /** `imageUrl`: always a string; the sanitised raw image when that is a
      string (even if it sanitises to `""`), the placeholder otherwise. */
  function ProductImageUrl(item: Json): (r: Json)
    ensures RawImage(item).Str? ==> r == Str(SanitizeString(RawImage(item).s))
    ensures !RawImage(item).Str? ==> r == Str(Placeholder)
  {
    SanitizeImageUrl(RawImage(item)).OrElse(Str(Placeholder))
  }

  /** The value the object literal `{ id, title, price, imageUrl, slug }`
      gives to the computed key `key`. */
  function SummaryField(item: Json, fallbackId: string, key: string): Json
    requires key in SummaryKeys
  {
    if key == "id" then ProductId(item, fallbackId)
    else if key == "title" then ProductTitle(item)
    else if key == "price" then ProductPrice(item)
    else if key == "imageUrl" then ProductImageUrl(item)
    else ProductSlug(item)
  }

  /** The object literal before the spread: exactly the five computed keys,
      of which `id`, `title`, `price` and `imageUrl` are never null or
      undefined. */
  function SummaryFields(item: Json, fallbackId: string): (r: Record)
    ensures r.Keys == SummaryKeys
    ensures r["id"] == ProductId(item, fallbackId) && r["title"] == ProductTitle(item)
    ensures r["price"] == ProductPrice(item) && r["imageUrl"] == ProductImageUrl(item)
    ensures r["slug"] == ProductSlug(item)
  {
    map key | key in SummaryKeys :: SummaryField(item, fallbackId, key)
  }

  /** `normalizeProduct(item)`, with the random id fallback passed in. The raw
      item is spread last, so every own property of the item appears with its
      raw value, and a computed field survives only where the item lacks that
      key. */
  function NormalizeProduct(item: Json, fallbackId: string): (p: Record)
    ensures p.Keys == SummaryKeys + OwnKeys(item)
    ensures forall k | k in OwnKeys(item) :: p[k] == item.fields[k]
    ensures forall k | k in SummaryKeys && k !in OwnKeys(item) :: p[k] == SummaryFields(item, fallbackId)[k]
  {
    Spread(SummaryFields(item, fallbackId), item)
  }

  /** Unless the raw item overrides them, a normalised product always has a
      defined `id`, `title` and `price`, and a string `imageUrl`. */
  lemma SummaryAlwaysDefined(item: Json, fallbackId: string)
    requires OwnKeys(item) !! {"id", "title", "price", "imageUrl"}
    ensures !NormalizeProduct(item, fallbackId)["id"].Nullish()
    ensures !NormalizeProduct(item, fallbackId)["title"].Nullish()
    ensures !NormalizeProduct(item, fallbackId)["price"].Nullish()
    ensures NormalizeProduct(item, fallbackId)["imageUrl"].Str?
  {
    var p := NormalizeProduct(item, fallbackId);
    assert "id" !in OwnKeys(item) && "title" !in OwnKeys(item);
    assert "price" !in OwnKeys(item) && "imageUrl" !in OwnKeys(item);
  }

  /** A raw `title: null` is kept over the computed `"Untitled"`. */
  lemma RawNullTitleOverridesDefault(fallbackId: string)
    ensures NormalizeProduct(Obj(map["title" := Null]), fallbackId)["title"] == Null
  {
  }

  /** An empty `name` becomes the title: a defined but falsy candidate wins
      over the default `"Untitled"`. */
  lemma FalsyNameWins(fallbackId: string)
    ensures NormalizeProduct(Obj(map["name" := Str("")]), fallbackId)["title"] == Str("")
  {
    var named := Obj(map["name" := Str("")]);
    DefinedCandidateWins(TitleCandidates(named), Str("Untitled"), 1);
  }

  /** A zero `salePrice` becomes the price ahead of a non-zero
      `regularPrice`. */
  lemma ZeroSalePriceWins(fallbackId: string)
    ensures NormalizeProduct(Obj(map["salePrice" := Num(0.0), "regularPrice" := Num(9.5)]), fallbackId)["price"]
      == Num(0.0)
  {
    var priced := Obj(map["salePrice" := Num(0.0), "regularPrice" := Num(9.5)]);
    DefinedCandidateWins(PriceCandidates(priced), Num(0.0), 1);
  }

  /** An `image` object without a `url` is chosen by the chain when
      `thumbnail` is missing, and since it is not a string the product shows
      the placeholder. */
  lemma ImageObjectWithoutUrlGivesPlaceholder(item: Json, fallbackId: string)
    requires "imageUrl" !in OwnKeys(item)
    requires item.Get("image").Obj? && item.Get("image").Get("url").Nullish()
    requires item.Get("thumbnail").Nullish()
    ensures NormalizeProduct(item, fallbackId)["imageUrl"] == Str(Placeholder)
  {
    DefinedCandidateWins(ImageCandidates(item), Undefined, 2);
  }

  /** `images?.[0]` also reads the property `"0"` of an object, so an
      `images` object keyed like an array supplies the image. */
  lemma ImagesObjectKeyZeroSuppliesImage()
    ensures var item := Obj(map["images" := Obj(map["0" := Obj(map["url" := Str("x.png")])])]);
      && RawImage(item) == Str("x.png")
      && ProductImageUrl(item) == Str(SanitizeString("x.png"))
  {
    var first := Obj(map["url" := Str("x.png")]);
    var images := Obj(map["0" := first]);
    var item := Obj(map["images" := images]);
    assert IndexKey(0) == "0";
    assert images.At(0) == first;
    assert item.Get("images").At(0).Get("url") == Str("x.png");
    DefinedCandidateWins(ImageCandidates(item), Undefined, 3);
  }

  /** A string image that sanitises to the empty string is kept as `""`;
      the placeholder replaces only a missing or non-string image. */
  lemma EmptySanitizedImageIsKept(item: Json, fallbackId: string)
    requires "imageUrl" !in OwnKeys(item)
    requires RawImage(item).Str? && SanitizeString(RawImage(item).s) == ""
    ensures NormalizeProduct(item, fallbackId)["imageUrl"] == Str("")
  {
  }

  // ---------------------------------------------------------------------
  // fetchProducts: list and pagination extraction
  // ---------------------------------------------------------------------

  /** Where a non-array body may hold the product array, in the order tried:
      `data.data`, `data.products`, `products`, `items`, `data`. */
  function ListCandidates(json: Json): seq<Json> {
    [json.Get("data").Get("data"), json.Get("data").Get("products"),
     json.Get("products"), json.Get("items"), json.Get("data")]
  }

  /** `rawList`: the body itself when it is an array, else the first defined
      candidate, else `[]`. */
  function RawList(json: Json): (r: Json)
    ensures json.Arr? ==> r == json
    ensures !json.Arr? ==> r == FirstDefined(ListCandidates(json), Arr([]))
  {
    ChainOfFive(json.Get("data").Get("data"), json.Get("data").Get("products"),
                json.Get("products"), json.Get("items"), json.Get("data"), Arr([]));
    if json.Arr? then json
    else
      json.Get("data").Get("data")
        .OrElse(json.Get("data").Get("products"))
        .OrElse(json.Get("products"))
        .OrElse(json.Get("items"))
        .OrElse(json.Get("data"))
        .OrElse(Arr([]))
  }

  /** `list`: the elements of `rawList` when it is an array, else empty. */
  function ProductList(json: Json): (list: seq<Json>)
    ensures json.Arr? ==> list == json.elems
    ensures RawList(json).Arr? ==> list == RawList(json).elems
    ensures !RawList(json).Arr? ==> list == []
  {
    var rawList := RawList(json);
    if rawList.Arr? then rawList.elems else []
  }

  /** The first defined candidate decides: when it is an array the list is
      its elements, and when it is anything else the list is empty, even if a
      later candidate is an array. */
  lemma {:induction false} FirstDefinedCandidateDecides(json: Json, k: nat)
    requires !json.Arr? && k < |ListCandidates(json)|
    requires forall j | 0 <= j < k :: ListCandidates(json)[j].Nullish()
    requires !ListCandidates(json)[k].Nullish()
    ensures ListCandidates(json)[k].Arr? ==> ProductList(json) == ListCandidates(json)[k].elems
    ensures !ListCandidates(json)[k].Arr? ==> ProductList(json) == []
  {
    DefinedCandidateWins(ListCandidates(json), Arr([]), k);
  }

  /** A non-array body without any candidate gives the empty list. */
  lemma NoCandidateGivesEmptyList(json: Json)
    requires !json.Arr?
    requires forall j | 0 <= j < |ListCandidates(json)| :: ListCandidates(json)[j].Nullish()
    ensures ProductList(json) == []
  {
  }

  /** A body whose array lives at `data.products` yields exactly that array. */
  lemma DataProductsShape(json: Json, elems: seq<Json>)
    requires !json.Arr?
    requires json.Get("data").Get("data").Nullish()
    requires json.Get("data").Get("products") == Arr(elems)
    ensures ProductList(json) == elems
  {
    FirstDefinedCandidateDecides(json, 1);
  }

  /** `{ data: { data: "not-an-array" }, products: [A, B] }` gives no
      products: `data.data` is the first defined candidate, it is not an
      array, and the chain does not fall through to `products`. */
  lemma NonArrayDataDataBlocksProducts(a: Json, b: Json)
    ensures ProductList(Obj(map["data" := Obj(map["data" := Str("not-an-array")]),
                                "products" := Arr([a, b])])) == []
  {
    var json := Obj(map["data" := Obj(map["data" := Str("not-an-array")]), "products" := Arr([a, b])]);
    FirstDefinedCandidateDecides(json, 0);
  }

  /** The metadata of a list response. Each field is whatever the body holds,
      possibly undefined or null. */
  datatype PaginatedMeta = PaginatedMeta(page: Json, limit: Json, total: Json, totalPages: Json)

  /** Where a pagination field may be: top level, under `data`, under `meta`. */
  function MetaCandidates(json: Json, key: string): seq<Json> {
    [json.Get(key), json.Get("data").Get(key), json.Get("meta").Get(key)]
  }

  /** `json?.K ?? json?.data?.K ?? json?.meta?.K`: the first of the top-level
      and `data` values that is defined, else the `meta` value as it is. */
  function MetaField(json: Json, key: string): (r: Json)
    ensures r == FirstDefined([json.Get(key), json.Get("data").Get(key)], json.Get("meta").Get(key))
  {
    ChainOfTwo(json.Get(key), json.Get("data").Get(key), json.Get("meta").Get(key));
    json.Get(key).OrElse(json.Get("data").Get(key)).OrElse(json.Get("meta").Get(key))
  }

  /** `meta`: each field is read on its own: the first defined of the top
      level, `data` and `meta` values, and failing that the `meta` value
      itself (so a `null` there is kept). */
  function ReadMeta(json: Json): (m: PaginatedMeta)
    ensures m.page == FirstDefined([json.Get("page"), json.Get("data").Get("page")], json.Get("meta").Get("page"))
    ensures m.limit == FirstDefined([json.Get("limit"), json.Get("data").Get("limit")], json.Get("meta").Get("limit"))
    ensures m.total == FirstDefined([json.Get("total"), json.Get("data").Get("total")], json.Get("meta").Get("total"))
    ensures m.totalPages == FirstDefined([json.Get("totalPages"), json.Get("data").Get("totalPages")],
                                         json.Get("meta").Get("totalPages"))
  {
    PaginatedMeta(MetaField(json, "page"), MetaField(json, "limit"),
                  MetaField(json, "total"), MetaField(json, "totalPages"))
  }

  /** Two bodies that agree on the pagination fields at the three places they
      are read have the same metadata, whatever their list shapes. */
  lemma MetaDependsOnlyOnMetaFields(a: Json, b: Json)
    requires forall key | key in {"page", "limit", "total", "totalPages"} ::
      MetaCandidates(a, key) == MetaCandidates(b, key)
    ensures ReadMeta(a) == ReadMeta(b)
  {
    assert MetaCandidates(a, "page") == MetaCandidates(b, "page");
    assert MetaCandidates(a, "limit") == MetaCandidates(b, "limit");
    assert MetaCandidates(a, "total") == MetaCandidates(b, "total");
    assert MetaCandidates(a, "totalPages") == MetaCandidates(b, "totalPages");
  }

  /** Replacing the top-level `products` or `items` of a body does not change
      its metadata. */
  lemma MetaIgnoresListFields(fields: map<string, Json>, key: string, v: Json)
    requires key == "products" || key == "items"
    ensures ReadMeta(Obj(fields[key := v])) == ReadMeta(Obj(fields))
  {
    MetaDependsOnlyOnMetaFields(Obj(fields[key := v]), Obj(fields));
  }

  /** The result of the list normaliser. */
  datatype ProductsResponse = ProductsResponse(products: seq<Record>, meta: PaginatedMeta)

  /** Each element of `list` normalised with the id `freshId(i)` for the
      `i`-th one, in the same order. */
  function NormalizeEach(list: seq<Json>, freshId: nat -> string): (r: seq<Record>)
    ensures |r| == |list|
    ensures forall i | 0 <= i < |r| :: r[i] == NormalizeProduct(list[i], freshId(i))
  {
    seq(|list|, i requires 0 <= i < |list| => NormalizeProduct(list[i], freshId(i)))
  }

  /** The list part of `fetchProducts` on the parsed body; `freshId(i)` is the
      random id given to the `i`-th element if it has none. The products are
      the extracted list, normalised element by element, in the same order. */
  function NormalizeProductList(json: Json, freshId: nat -> string): (r: ProductsResponse)
    ensures |r.products| == |ProductList(json)|
    ensures forall i | 0 <= i < |r.products| :: r.products[i] == NormalizeProduct(ProductList(json)[i], freshId(i))
    ensures r.meta == ReadMeta(json)
  {
    ProductsResponse(NormalizeEach(ProductList(json), freshId), ReadMeta(json))
  }

  /** A top-level array body gives one product per element, in order, each
      carrying the element's own fields. */
  lemma TopLevelArrayBody(elems: seq<Json>, freshId: nat -> string, i: nat)
    requires i < |elems| && elems[i].Obj?
    ensures |NormalizeProductList(Arr(elems), freshId).products| == |elems|
    ensures NormalizeProductList(Arr(elems), freshId).products[i].Keys == SummaryKeys + elems[i].fields.Keys
  {
  }

  // ---------------------------------------------------------------------
  // fetchProductDetails: unwrapping and cleaning
  // ---------------------------------------------------------------------

  /** `raw`: the first defined of `data`, `product` and the body itself, else
      `{}`; never null or undefined. */
  function Root(json: Json): (raw: Json)
    ensures raw == FirstDefined([json.Get("data"), json.Get("product"), json], Obj(map[]))
    ensures !raw.Nullish()
  {
    ChainOfThree(json.Get("data"), json.Get("product"), json, Obj(map[]));
    json.Get("data").OrElse(json.Get("product")).OrElse(json).OrElse(Obj(map[]))
  }

  /** `images` before cleaning: `images`, else `gallery`, else `[image]` when
      `image` is truthy, else `[]`. */
  function ImagesSource(raw: Json): (r: Json)
    ensures !raw.Get("images").Nullish() ==> r == raw.Get("images")
    ensures raw.Get("images").Nullish() && !raw.Get("gallery").Nullish() ==> r == raw.Get("gallery")
    ensures raw.Get("images").Nullish() && raw.Get("gallery").Nullish() ==>
      r == if raw.Get("image").Truthy() then Arr([raw.Get("image")]) else Arr([])
  {
    raw.Get("images").OrElse(raw.Get("gallery"))
      .OrElse(if raw.Get("image").Truthy() then Arr([raw.Get("image")]) else Arr([]))
  }

  /** One gallery entry: a string stays a string, the sanitised one (never
      the placeholder, even when empty); anything else becomes `{url}` with
      its sanitised `url`, or the placeholder when `url` is not a string. */
  function CleanImage(img: Json): (r: Json)
    ensures img.Str? ==> r == Str(SanitizeString(img.s))
    ensures !img.Str? ==> r.Obj? && r.fields.Keys == {"url"}
    ensures !img.Str? && img.Get("url").Str? ==> r.fields["url"] == Str(SanitizeString(img.Get("url").s))
    ensures !img.Str? && !img.Get("url").Str? ==> r.fields["url"] == Str(Placeholder)
  {
    if img.Str? then SanitizeImageUrl(img).OrElse(Str(Placeholder))
    else Obj(map["url" := SanitizeImageUrl(img.Get("url")).OrElse(Str(Placeholder))])
  }

  /** `imagesClean`: a non-array gives `[]`; an array keeps its length and
      order, entry by entry. */
  function CleanImages(images: Json): (r: seq<Json>)
    ensures !images.Arr? ==> r == []
    ensures images.Arr? ==> |r| == |images.elems|
    ensures images.Arr? ==> forall i | 0 <= i < |r| :: r[i] == CleanImage(images.elems[i])
  {
    if images.Arr? then seq(|images.elems|, i requires 0 <= i < |images.elems| => CleanImage(images.elems[i]))
    else []
  }

  function DescriptionCandidates(raw: Json): seq<Json> {
    [raw.Get("description"), raw.Get("shortDescription"), raw.Get("details")]
  }

  function DiscountCandidates(raw: Json): seq<Json> {
    [raw.Get("discount"), raw.Get("discountPercentage"), raw.Get("offer")]
  }

  function SpecCandidates(raw: Json): seq<Json> {
    [raw.Get("specifications"), raw.Get("specs"), raw.Get("attributes"), raw.Get("features")]
  }

  /** `slug` of a detail: the root's own `slug`, else the argument;
      `handle` and `productSlug` play no part. */
  function DetailSlug(raw: Json, slug: string): (r: Json)
    ensures raw.Get("slug").Nullish() ==> r == Str(slug)
    ensures !raw.Get("slug").Nullish() ==> r == raw.Get("slug")
    ensures !r.Nullish()
  {
    raw.Get("slug").OrElse(Str(slug))
  }

  /** `description`: the first defined of `description`, `shortDescription`,
      `details`, else `""`. */
  function Description(raw: Json): (r: Json)
    ensures r == FirstDefined(DescriptionCandidates(raw), Str(""))
    ensures !r.Nullish()
  {
    ChainOfThree(raw.Get("description"), raw.Get("shortDescription"), raw.Get("details"), Str(""));
    raw.Get("description").OrElse(raw.Get("shortDescription")).OrElse(raw.Get("details")).OrElse(Str(""))
  }

  /** `discount`: the first defined of `discount`, `discountPercentage`,
      `offer`, else `0`. */
  function Discount(raw: Json): (r: Json)
    ensures r == FirstDefined(DiscountCandidates(raw), Num(0.0))
    ensures !r.Nullish()
  {
    ChainOfThree(raw.Get("discount"), raw.Get("discountPercentage"), raw.Get("offer"), Num(0.0));
    raw.Get("discount").OrElse(raw.Get("discountPercentage")).OrElse(raw.Get("offer")).OrElse(Num(0.0))
  }

  /** `specifications`: the first defined of `specifications`, `specs`,
      `attributes`, `features`, returned as it is whatever its shape, else
      `{}`. */
  function Specifications(raw: Json): (r: Json)
    ensures r == FirstDefined(SpecCandidates(raw), Obj(map[]))
    ensures !r.Nullish()
  {
    ChainOfFour(raw.Get("specifications"), raw.Get("specs"), raw.Get("attributes"), raw.Get("features"),
                Obj(map[]));
    raw.Get("specifications").OrElse(raw.Get("specs")).OrElse(raw.Get("attributes"))
      .OrElse(raw.Get("features")).OrElse(Obj(map[]))
  }

  /** The value the return literal of `fetchProductDetails` writes under the
      detail key `key`. */
  function DetailField(raw: Json, slug: string, key: string): (r: Json)
    requires key in DetailKeys
    ensures !r.Nullish()
  {
    if key == "slug" then DetailSlug(raw, slug)
    else if key == "description" then Description(raw)
    else if key == "discount" then Discount(raw)
    else if key == "images" then Arr(CleanImages(ImagesSource(raw)))
    else Specifications(raw)
  }

  /** The five properties written after the spread, all of them defined:
      the slug, description, discount, cleaned gallery and specifications. */
  function DetailFields(raw: Json, slug: string): (r: Record)
    ensures r.Keys == DetailKeys
    ensures forall k | k in r :: !r[k].Nullish()
    ensures r["slug"] == DetailSlug(raw, slug) && r["description"] == Description(raw)
    ensures r["discount"] == Discount(raw) && r["specifications"] == Specifications(raw)
    ensures r["images"] == Arr(CleanImages(ImagesSource(raw)))
  {
    map key | key in DetailKeys :: DetailField(raw, slug, key)
  }

  /** The detail part of `fetchProductDetails(slug)` on the parsed body: the
      summary of the unwrapped root, with the detail fields written over it.
      Every summary or raw property outside the five detail keys survives. */
  function NormalizeProductDetail(json: Json, slug: string, fallbackId: string): (d: Record)
    ensures d.Keys == NormalizeProduct(Root(json), fallbackId).Keys + DetailKeys
    ensures forall k | k in DetailKeys :: d[k] == DetailFields(Root(json), slug)[k]
    ensures forall k | k in d && k !in DetailKeys :: d[k] == NormalizeProduct(Root(json), fallbackId)[k]
  {
    var base := NormalizeProduct(Root(json), fallbackId);
    var fields := DetailFields(Root(json), slug);
    assert OwnKeys(Obj(fields)) == DetailKeys;
    Spread(base, Obj(fields))
  }

  /** A defined `specifications` is returned unchanged, as a list of
      `{key, value}` pairs or as a plain mapping alike. */
  lemma SpecificationsPassThrough(json: Json, slug: string, fallbackId: string)
    requires !Root(json).Get("specifications").Nullish()
    ensures NormalizeProductDetail(json, slug, fallbackId)["specifications"] == Root(json).Get("specifications")
  {
  }

  /** A list of `{key, value}` pairs under `data.specifications` comes back
      as that list. */
  lemma SpecificationPairsKept(pairs: seq<Json>, slug: string, id: string)
    ensures NormalizeProductDetail(Obj(map["data" := Obj(map["specifications" := Arr(pairs)])]), slug, id)
      ["specifications"] == Arr(pairs)
  {
    SpecificationsPassThrough(Obj(map["data" := Obj(map["specifications" := Arr(pairs)])]), slug, id);
  }

  /** A plain mapping under `data.specifications` comes back as that mapping. */
  lemma SpecificationTableKept(table: map<string, Json>, slug: string, id: string)
    ensures NormalizeProductDetail(Obj(map["data" := Obj(map["specifications" := Obj(table)])]), slug, id)
      ["specifications"] == Obj(table)
  {
    SpecificationsPassThrough(Obj(map["data" := Obj(map["specifications" := Obj(table)])]), slug, id);
  }

  /** Without its own `slug`, the detail takes the argument, even when the
      summary found one under `handle`. */
  lemma DetailSlugIgnoresHandle(slug: string, handle: string, id: string)
    ensures var json := Obj(map["product" := Obj(map["handle" := Str(handle)])]);
      && NormalizeProduct(Root(json), id)["slug"] == Str(handle)
      && NormalizeProductDetail(json, slug, id)["slug"] == Str(slug)
  {
    var root := Obj(map["handle" := Str(handle)]);
    var json := Obj(map["product" := root]);
    DefinedCandidateWins([json.Get("data"), json.Get("product"), json], Obj(map[]), 1);
    assert Root(json) == root;
    DefinedCandidateWins(SlugCandidates(root), Undefined, 1);
    assert "slug" in DetailKeys && DetailFields(root, slug)["slug"] == Str(slug);
  }

  /** A defined `images` that is not an array gives an empty gallery: the
      chain stops there and does not fall through to `gallery`. */
  lemma NonArrayImagesGiveEmptyGallery(json: Json, slug: string, fallbackId: string)
    requires !Root(json).Get("images").Nullish() && !Root(json).Get("images").Arr?
    ensures NormalizeProductDetail(json, slug, fallbackId)["images"] == Arr([])
  {
  }

  /** The single `image` is used only when it is truthy: an empty string or
      a zero there gives an empty gallery, not `[image]`. */
  lemma SingleImageNeedsTruthy(raw: Json)
    requires raw.Get("images").Nullish() && raw.Get("gallery").Nullish()
    ensures raw.Get("image").Truthy() ==> CleanImages(ImagesSource(raw)) == [CleanImage(raw.Get("image"))]
    ensures !raw.Get("image").Truthy() ==> CleanImages(ImagesSource(raw)) == []
  {
  }

  /** Cleaning keeps strings as strings and turns every other entry into a
      `{url}` object. */
  lemma CleanImagesKeepKinds(images: seq<Json>, i: nat)
    requires i < |images|
    ensures |CleanImages(Arr(images))| == |images|
    ensures CleanImages(Arr(images))[i].Str? <==> images[i].Str?
    ensures CleanImages(Arr(images))[i].Obj? <==> !images[i].Str?
  {
  }

  // ---------------------------------------------------------------------
  // The transport wrapper
  // ---------------------------------------------------------------------

  /** What a fetch gives back: the normalised value, or the failure raised
      for a non-2xx status, which carries that status. */
  datatype Fetched<T> = Ok(value: T) | TransportError(status: int)

  /** `res.ok`. */
  predicate IsOkStatus(status: int) {
    200 <= status <= 299
  }

  /** `fetchProducts` after the request: a non-2xx status fails before any
      normalisation, otherwise the body is normalised. */
  function FetchProducts(status: int, json: Json, freshId: nat -> string): (r: Fetched<ProductsResponse>)
    ensures r.TransportError? <==> !IsOkStatus(status)
    ensures r.TransportError? ==> r.status == status
    ensures r.Ok? ==> r.value == NormalizeProductList(json, freshId)
  {
    if !IsOkStatus(status) then TransportError(status) else Ok(NormalizeProductList(json, freshId))
  }

  /** `fetchProductDetails(slug)` after the request, in the same way. */
  function FetchProductDetails(status: int, json: Json, slug: string, fallbackId: string): (r: Fetched<Record>)
    ensures r.TransportError? <==> !IsOkStatus(status)
    ensures r.TransportError? ==> r.status == status
    ensures r.Ok? ==> r.value == NormalizeProductDetail(json, slug, fallbackId)
  {
    if !IsOkStatus(status) then TransportError(status) else Ok(NormalizeProductDetail(json, slug, fallbackId))
  }
}
