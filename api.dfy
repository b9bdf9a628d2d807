/**
 * The business endpoints of the lobster catalogue service:
 *  - listing products, which projects each stored document onto the product shape, filling
 *    in defaults, and silently skips documents that do not make a valid product;
 *  - creating an inquiry, a single insert answered with the store's new identifier;
 *  - seeding, which inserts three fixed sample products unless products already exist and
 *    the caller did not force it, swallowing the failure of any single insert.
 * An exception that reaches a handler becomes an HTTP 500 (`ServerError`); a request body
 * that fails its model becomes a 422 (`Unprocessable`).
 */
module Api {
  import opened Wrappers
  import opened Schemas
  import opened Store
  import opened FilterMaps

  const PRODUCTS: string := "lobsterproduct"
  const INQUIRIES: string := "inquiry"
  /** The default `limit` query parameter of the product listing. */
  const DEFAULT_LIMIT: int := 50

  datatype HttpError =
    | Unprocessable(errors: seq<FieldError>)   // the request body failed validation
    | ServerError(cause: StorageError)         // the store raised

  // ---------------------------------------------------------------------------------------
  // Projection of a stored document onto the product shape

  /** `d.get(key, default)`. */
  function Get(d: Document, key: string, default: Value): Value {
    if key in d then d[key] else default
  }

  /** Truncation toward zero, as Python's `int()` does it to a float. */
  function Truncate(x: real): (n: int)
    ensures 0.0 <= x ==> n as real <= x < n as real + 1.0
    ensures x < 0.0 ==> n as real - 1.0 < x <= n as real
  {
    if x >= 0.0 then x.Floor else -((-x).Floor)
  }

  /** Python's `float(v)`, or None where it raises; a text counts as failing (no numeric parsing). */
  function ToFloat(v: Value): (r: Option<real>)
    ensures r.None? <==> v.Null? || v.Str?
    ensures v.Real? ==> r == Some(v.r)
    ensures v.Int? ==> r == Some(v.i as real)
  {
    match v
    case Int(n) => Some(n as real)
    case Real(x) => Some(x)
    case Bool(b) => Some(if b then 1.0 else 0.0)
    case _ => None
  }

  /** Python's `int(v)`, or None where it raises; a text counts as failing (no numeric parsing). */
  function ToInt(v: Value): (r: Option<int>)
    ensures r.None? <==> v.Null? || v.Str?
    ensures v.Int? ==> r == Some(v.i)
    ensures v.Real? && v.r >= 0.0 ==> r == Some(v.r.Floor)
    ensures v.Real? && v.r < 0.0 ==> r.Some? && r.value as real - 1.0 < v.r <= r.value as real
  {
    match v
    case Int(n) => Some(n)
    case Real(x) => Some(Truncate(x))
    case Bool(b) => Some(if b then 1 else 0)
    case _ => None
  }

  /**
   * The keyword arguments the listing passes to `Lobsterproduct(...)` for document `d`, or
   * None when converting its `price` or `stock` raises. A missing `price` or `stock` reads
   * as 0 and a missing `unit` as `ekor`; any other missing field reads as None.
   */
  function ProjectionArgs(d: Document): (r: Option<ProductInput>)
    ensures r.None? <==>
      ("price" in d && (d["price"].Null? || d["price"].Str?))
      || ("stock" in d && (d["stock"].Null? || d["stock"].Str?))
    ensures r.Some? ==> r.value.price.Some? && r.value.price.value.Real?
                        && r.value.stock.Some? && r.value.stock.value.Int?
    ensures r.Some? && "price" !in d ==> r.value.price == Some(Real(0.0))
    ensures r.Some? && "stock" !in d ==> r.value.stock == Some(Int(0))
    ensures r.Some? && "unit" !in d ==> r.value.unit == Some(Str("ekor"))
    ensures r.Some? && "name" !in d ==> r.value.name == Some(Null)
    ensures r.Some? && "type" !in d ==> r.value.kind == Some(Null)
    ensures r.Some? && "size" !in d ==> r.value.size == Some(Null)
    ensures r.Some? && "description" !in d ==> r.value.description == Some(Null)
    ensures r.Some? && "image_url" !in d ==> r.value.imageUrl == Some(Null)
    ensures r.Some? ==>
      ("name" in d ==> r.value.name == Some(d["name"]))
      && ("type" in d ==> r.value.kind == Some(d["type"]))
      && ("size" in d ==> r.value.size == Some(d["size"]))
      && ("unit" in d ==> r.value.unit == Some(d["unit"]))
      && ("description" in d ==> r.value.description == Some(d["description"]))
      && ("image_url" in d ==> r.value.imageUrl == Some(d["image_url"]))
      && ("price" in d ==> r.value.price == Some(Real(ToFloat(d["price"]).value)))
      && ("stock" in d ==> r.value.stock == Some(Int(ToInt(d["stock"]).value)))
  {
    var price := ToFloat(Get(d, "price", Int(0)));
    var stock := ToInt(Get(d, "stock", Int(0)));
    if price.None? || stock.None? then None
    else
      Some(ProductInput(
        Some(Get(d, "name", Null)), Some(Get(d, "type", Null)), Some(Get(d, "size", Null)),
        Some(Real(price.value)), Some(Int(stock.value)), Some(Get(d, "unit", Str("ekor"))),
        Some(Get(d, "description", Null)), Some(Get(d, "image_url", Null))))
  }

  /** The product that the listing builds from `d`, or None when building it raises. */
  function Project(d: Document, isUrl: string -> bool): (r: Option<Product>)
    ensures r.Some? ==> ValidProduct(r.value, isUrl)
    ensures r.Some? ==> "name" in d && d["name"] == Str(r.value.name)
    ensures r.Some? ==> "type" in d && d["type"] == Str(ProductTypeName(r.value.kind))
  {
    match ProjectionArgs(d)
    case None => None
    case Some(args) =>
      match NewProduct(args, isUrl)
      case Success(p) => Some(p)
      case Failure(_) => None
  }

  /** Defaults and failures of the projection of a single document. */
  lemma ProjectionDefaults(d: Document, isUrl: string -> bool)
    ensures "price" !in d && Project(d, isUrl).Some? ==> Project(d, isUrl).value.price == 0.0
    ensures "stock" !in d && Project(d, isUrl).Some? ==> Project(d, isUrl).value.stock == 0
    ensures "unit" !in d && Project(d, isUrl).Some? ==> Project(d, isUrl).value.unit == Ekor
    ensures "price" in d && d["price"] == Null ==> Project(d, isUrl).None?
    ensures "stock" in d && d["stock"] == Null ==> Project(d, isUrl).None?
    ensures "unit" in d && d["unit"] == Null ==> Project(d, isUrl).None?
    ensures "name" !in d || "type" !in d ==> Project(d, isUrl).None?
  {
  }

  // ---------------------------------------------------------------------------------------
  // Product listing

  /** The projection of the listing as a partial conversion of one document. */
  function Projector(isUrl: string -> bool): Document -> Option<Product> {
    (d: Document) => Project(d, isUrl)
  }

  /** The products that the listing returns for the fetched documents `docs`, in order. */
  function Listing(docs: seq<Document>, isUrl: string -> bool): (r: seq<Product>)
    ensures |r| <= |docs|
    ensures forall k :: 0 <= k < |r| ==> ValidProduct(r[k], isUrl)
  {
    FilterMapSelects(docs, Projector(isUrl));
    FilterMap(docs, Projector(isUrl))
  }

  /**
   * The listing is an order-preserving selection of the documents' projections: its k-th
   * product is the projection of the document at the k-th kept position, the kept positions
   * increase, and a document is kept exactly when its projection succeeds.
   */
  lemma ListingSelects(docs: seq<Document>, isUrl: string -> bool)
    ensures var idx := KeptIndices(docs, Projector(isUrl));
      |idx| == |Listing(docs, isUrl)|
      && (forall k :: 0 <= k < |idx| ==>
            idx[k] < |docs| && Project(docs[idx[k]], isUrl) == Some(Listing(docs, isUrl)[k]))
      && (forall k, l :: 0 <= k < l < |idx| ==> idx[k] < idx[l])
      && (forall j :: 0 <= j < |docs| ==> (j in idx <==> Project(docs[j], isUrl).Some?))
  {
    FilterMapSelects(docs, Projector(isUrl));
    forall j | 0 <= j < |docs|
      ensures j in KeptIndices(docs, Projector(isUrl)) <==> Project(docs[j], isUrl).Some?
    {
      FilterMapKeeps(docs, Projector(isUrl), j);
    }
  }

  /** A document that fails projection is skipped, and the documents around it are listed. */
  lemma ListingSkipsInvalid(a: seq<Document>, bad: Document, b: seq<Document>, isUrl: string -> bool)
    requires Project(bad, isUrl).None?
    ensures Listing(a + [bad] + b, isUrl) == Listing(a, isUrl) + Listing(b, isUrl)
  {
    var f := Projector(isUrl);
    FilterMapAppend(a, [bad], f);
    FilterMapAppend(a + [bad], b, f);
    assert [bad][..0] == [];
    assert FilterMap([bad], f) == [];
  }

  /** When every document projects, the listing is exactly their projections. */
  lemma ListingKeepsValid(docs: seq<Document>, isUrl: string -> bool)
    requires forall k :: 0 <= k < |docs| ==> Project(docs[k], isUrl).Some?
    ensures |Listing(docs, isUrl)| == |docs|
    ensures forall k :: 0 <= k < |docs| ==> Listing(docs, isUrl)[k] == Project(docs[k], isUrl).value
  {
    FilterMapTotal(docs, Projector(isUrl));
  }

  /** One malformed document among valid ones costs exactly that one entry of the listing. */
  lemma ListingOneMalformed(a: seq<Document>, bad: Document, b: seq<Document>, isUrl: string -> bool)
    requires forall k :: 0 <= k < |a| ==> Project(a[k], isUrl).Some?
    requires forall k :: 0 <= k < |b| ==> Project(b[k], isUrl).Some?
    requires Project(bad, isUrl).None?
    ensures |Listing(a + [bad] + b, isUrl)| == |a| + |b|
  {
    ListingSkipsInvalid(a, bad, b, isUrl);
    ListingKeepsValid(a, isUrl);
    ListingKeepsValid(b, isUrl);
  }

  /**
   * Reading the first `n` of a collection of valid documents lists exactly the first `n`
   * products (all of them when there are fewer), in store order.
   */
  lemma ListingOfPrefix(docs: seq<Document>, n: int, isUrl: string -> bool)
    requires n > 0
    requires forall k :: 0 <= k < |docs| ==> Project(docs[k], isUrl).Some?
    ensures |Listing(docs[..Min(n, |docs|)], isUrl)| == Min(n, |docs|)
    ensures forall k :: 0 <= k < Min(n, |docs|) ==>
      Listing(docs[..Min(n, |docs|)], isUrl)[k] == Project(docs[k], isUrl).value
  {
    var m := Min(n, |docs|);
    assert forall k :: 0 <= k < m ==> docs[..m][k] == docs[k];
    ListingKeepsValid(docs[..m], isUrl);
  }

  /**
   * `GET /api/products?limit=...`: fetch up to `limit` product documents and return the
   * valid products among them, in store order. Only a failure of the fetch is an error.
   * `limit` is None only when a caller passes it explicitly; a request without the parameter
   * is `ListProductsDefault`.
   */
  method ListProducts(store: DocumentStore, limit: Option<int>, isUrl: string -> bool)
    returns (r: Result<seq<Product>, HttpError>)
    ensures store.Fetch(PRODUCTS, limit).Failure? ==>
      r == Failure(ServerError(store.Fetch(PRODUCTS, limit).error))
    ensures store.Fetch(PRODUCTS, limit).Success? ==>
      r == Success(Listing(store.Fetch(PRODUCTS, limit).value, isUrl))
  {
    var fetched := store.GetDocuments(PRODUCTS, limit);
    if fetched.Failure? {
      return Failure(ServerError(fetched.error));
    }
    var docs := fetched.value;
    var products: seq<Product> := [];
    for i := 0 to |docs|
      invariant products == Listing(docs[..i], isUrl)
    {
      FilterMapStep(docs, i, Projector(isUrl));
      var p := Project(docs[i], isUrl);
      if p.None? {
        continue;
      }
      products := products + [p.value];
    }
    assert docs[..|docs|] == docs;
    return Success(products);
  }

  /** `GET /api/products` without `limit`: the parameter takes its default of 50. */
  method ListProductsDefault(store: DocumentStore, isUrl: string -> bool)
    returns (r: Result<seq<Product>, HttpError>)
    ensures !store.connected ==> r == Failure(ServerError(Unavailable))
    ensures store.connected ==>
      r == Success(Listing(store.Docs(PRODUCTS)[..Min(DEFAULT_LIMIT, |store.Docs(PRODUCTS)|)], isUrl))
    ensures r.Success? ==> |r.value| <= DEFAULT_LIMIT
  {
    r := ListProducts(store, Some(DEFAULT_LIMIT), isUrl);
  }

  // ---------------------------------------------------------------------------------------
  // Inquiry creation

  datatype InquiryReply = InquiryReply(status: string, id: nat)

  /** The keyword argument `key` of `Model(**d)`: omitted when `d` has no such key. */
  function KeyArg(d: Document, key: string): Arg {
    if key in d then Some(d[key]) else None
  }

  /** The keyword arguments `Inquiry(**d)` receives from the stored document `d`. */
  function InquiryInputOf(d: Document): InquiryInput {
    InquiryInput(KeyArg(d, "name"), KeyArg(d, "phone"), KeyArg(d, "email"),
                 KeyArg(d, "message"), KeyArg(d, "source"))
  }

  /**
   * The document stored for inquiry `q`: its five fields under their own names, so that
   * validating the stored document again gives back `q`.
   */
  function InquiryDocument(q: Inquiry): (d: Document)
    ensures d.Keys == {"name", "phone", "email", "message", "source"}
    ensures NewInquiry(InquiryInputOf(d)) == Success(q)
  {
    map["name" := Str(q.name), "phone" := Str(q.phone), "email" := TextValue(q.email),
        "message" := Str(q.message), "source" := TextValue(q.source)]
  }

  /**
   * `POST /api/inquiries`: validate the body, store it, and answer `{"status": "ok", "id"}`
   * with the identifier the store assigned. A body that fails validation never reaches the
   * store; a store failure is a server error and stores nothing.
   */
  method CreateInquiry(store: DocumentStore, body: InquiryInput, rejected: bool)
    returns (r: Result<InquiryReply, HttpError>)
    modifies store
    ensures NewInquiry(body).Failure? ==> r == Failure(Unprocessable(NewInquiry(body).error))
    ensures NewInquiry(body).Success? && !store.connected ==> r == Failure(ServerError(Unavailable))
    ensures NewInquiry(body).Success? && store.connected && rejected ==> r == Failure(ServerError(Rejected))
    ensures NewInquiry(body).Success? && store.connected && !rejected ==>
      r == Success(InquiryReply("ok", old(store.issued)))
    ensures r.Failure? ==> store.collections == old(store.collections) && store.issued == old(store.issued)
    ensures r.Success? ==>
      store.issued == old(store.issued) + 1 &&
      store.collections == old(store.collections)[INQUIRIES :=
        old(store.Docs(INQUIRIES)) + [InquiryDocument(NewInquiry(body).value)]]
  {
    var parsed := NewInquiry(body);
    if parsed.Failure? {
      return Failure(Unprocessable(parsed.error));
    }
    var id := store.CreateDocument(INQUIRIES, InquiryDocument(parsed.value), rejected);
    if id.Failure? {
      return Failure(ServerError(id.error));
    }
    return Success(InquiryReply("ok", id.value));
  }

  // ---------------------------------------------------------------------------------------
  // Seeding

  datatype SeedReply = SeedReply(seeded: bool, message: Option<string>, count: Option<nat>)

  const ALREADY_SEEDED: string := "Products already exist"

  const SAMPLE_URL_0: string := "https://images.unsplash.com/photo-1544551763-7ef039d2fd88?q=80&w=1200"
  const SAMPLE_URL_1: string := "https://images.unsplash.com/photo-1504674900247-0877df9cc836?q=80&w=1200"
  const SAMPLE_URL_2: string := "https://images.unsplash.com/photo-1544025162-d76694265947?q=80&w=1200"

  /** The keys of a product document: the fields of `Lobsterproduct`. */
  const PRODUCT_KEYS: set<string> :=
    {"name", "type", "size", "price", "stock", "unit", "description", "image_url"}

  /** The three sample product documents, in insertion order. */
  function Samples(): (s: seq<Document>)
    ensures |s| == 3
    ensures forall k :: 0 <= k < |s| ==> s[k].Keys == PRODUCT_KEYS
  {
    [Sample0(), Sample1(), Sample2()]
  }

  function Sample0(): (d: Document)
    ensures d.Keys == PRODUCT_KEYS
  {
    map["name" := Str("Benih Lobster Air Tawar 2-3 cm"), "type" := Str("benih"),
        "size" := Str("2-3 cm"), "price" := Int(3500), "stock" := Int(5000),
        "unit" := Str("ekor"), "description" := Str("Benih sehat siap tebar untuk pembesaran."),
        "image_url" := Str(SAMPLE_URL_0)]
  }

  function Sample1(): (d: Document)
    ensures d.Keys == PRODUCT_KEYS
  {
    map["name" := Str("Lobster Konsumsi 100-150 gr"), "type" := Str("konsumsi"),
        "size" := Str("100-150 gr"), "price" := Int(230000), "stock" := Int(120),
        "unit" := Str("kg"),
        "description" := Str("Lobster air tawar segar untuk restoran dan rumah tangga."),
        "image_url" := Str(SAMPLE_URL_1)]
  }

  function Sample2(): (d: Document)
    ensures d.Keys == PRODUCT_KEYS
  {
    map["name" := Str("Induk Lobster Siap Pijah"), "type" := Str("induk"),
        "size" := Str("Siap pijah"), "price" := Int(120000), "stock" := Int(60),
        "unit" := Str("ekor"), "description" := Str("Indukan pilihan produktif untuk pembenihan."),
        "image_url" := Str(SAMPLE_URL_2)]
  }

  /** The products the three samples stand for. */
  function SampleProducts(): (ps: seq<Product>)
    ensures |ps| == 3
    ensures {ps[0].kind, ps[1].kind, ps[2].kind} == {Benih, Induk, Konsumsi}
    ensures forall k :: 0 <= k < |ps| ==> ps[k].price > 0.0 && ps[k].stock > 0 && ps[k].imageUrl.Some?
  {
    [ Product("Benih Lobster Air Tawar 2-3 cm", Benih, Some("2-3 cm"), 3500.0, 5000, Ekor,
              Some("Benih sehat siap tebar untuk pembesaran."), Some(SAMPLE_URL_0)),
      Product("Lobster Konsumsi 100-150 gr", Konsumsi, Some("100-150 gr"), 230000.0, 120, Kg,
              Some("Lobster air tawar segar untuk restoran dan rumah tangga."), Some(SAMPLE_URL_1)),
      Product("Induk Lobster Siap Pijah", Induk, Some("Siap pijah"), 120000.0, 60, Ekor,
              Some("Indukan pilihan produktif untuk pembenihan."), Some(SAMPLE_URL_2)) ]
  }

  /** A document whose projection gives the arguments that rebuild a valid `p` lists as `p`. */
  lemma ProjectsTo(d: Document, p: Product, isUrl: string -> bool)
    requires ValidProduct(p, isUrl)
    requires ProjectionArgs(d) == Some(ProductArgs(p))
    ensures Project(d, isUrl) == Some(p)
  {
    ProductRoundTrip(p, isUrl);
  }

  lemma Sample0Projects(isUrl: string -> bool)
    requires isUrl(SAMPLE_URL_0)
    ensures Project(Sample0(), isUrl) == Some(SampleProducts()[0])
  {
    var p := SampleProducts()[0];
    assert ProjectionArgs(Sample0()) == Some(ProductArgs(p));
    ProjectsTo(Sample0(), p, isUrl);
  }

  lemma Sample1Projects(isUrl: string -> bool)
    requires isUrl(SAMPLE_URL_1)
    ensures Project(Sample1(), isUrl) == Some(SampleProducts()[1])
  {
    var p := SampleProducts()[1];
    assert ProjectionArgs(Sample1()) == Some(ProductArgs(p));
    ProjectsTo(Sample1(), p, isUrl);
  }

  lemma Sample2Projects(isUrl: string -> bool)
    requires isUrl(SAMPLE_URL_2)
    ensures Project(Sample2(), isUrl) == Some(SampleProducts()[2])
  {
    var p := SampleProducts()[2];
    assert ProjectionArgs(Sample2()) == Some(ProductArgs(p));
    ProjectsTo(Sample2(), p, isUrl);
  }

  /**
   * Every sample is a valid product document: listing the samples yields exactly the three
   * sample products, each of an allowed type and unit with non-negative price and stock.
   */
  lemma SamplesAreValidProducts(isUrl: string -> bool)
    requires isUrl(SAMPLE_URL_0) && isUrl(SAMPLE_URL_1) && isUrl(SAMPLE_URL_2)
    ensures Listing(Samples(), isUrl) == SampleProducts()
  {
    var s, ps := Samples(), SampleProducts();
    forall k | 0 <= k < 3 ensures Project(s[k], isUrl) == Some(ps[k]) {
      if k == 0 { Sample0Projects(isUrl); }
      else if k == 1 { Sample1Projects(isUrl); }
      else { Sample2Projects(isUrl); }
    }
    ListingIs(s, ps, isUrl);
  }

  /** Documents that all project, onto the products `ps`, are listed as exactly `ps`. */
  lemma ListingIs(docs: seq<Document>, ps: seq<Product>, isUrl: string -> bool)
    requires |docs| == |ps|
    requires forall k :: 0 <= k < |docs| ==> Project(docs[k], isUrl) == Some(ps[k])
    ensures Listing(docs, isUrl) == ps
  {
    ListingKeepsValid(docs, isUrl);
  }

  /** The documents among `samples` whose insert succeeds, in order; `rejected` holds the failing positions. */
  function Accepted(samples: seq<Document>, rejected: set<nat>): (r: seq<Document>)
    ensures |r| <= |samples|
    ensures forall k :: 0 <= k < |r| ==> r[k] in samples
    decreases |samples|
  {
    if samples == [] then []
    else
      var k := |samples| - 1;
      Accepted(samples[..k], rejected) + (if k in rejected then [] else [samples[k]])
  }

  /** Nothing is inserted exactly when every insert fails. */
  lemma {:induction false} AcceptedEmpty(samples: seq<Document>, rejected: set<nat>)
    ensures Accepted(samples, rejected) == [] <==> forall k :: 0 <= k < |samples| ==> k in rejected
    decreases |samples|
  {
    if samples != [] {
      AcceptedEmpty(samples[..|samples| - 1], rejected);
    }
  }

  /** With no failure, every sample is inserted, in order. */
  lemma {:induction false} AcceptedAll(samples: seq<Document>, rejected: set<nat>)
    requires forall k :: 0 <= k < |samples| ==> k !in rejected
    ensures Accepted(samples, rejected) == samples
    decreases |samples|
  {
    if samples != [] {
      AcceptedAll(samples[..|samples| - 1], rejected);
    }
  }

  /** Each sample is inserted exactly when its own insert succeeds, independently of the others. */
  lemma SamplesAccepted(rejected: set<nat>)
    ensures Accepted(Samples(), rejected) ==
      (if 0 in rejected then [] else [Samples()[0]])
      + (if 1 in rejected then [] else [Samples()[1]])
      + (if 2 in rejected then [] else [Samples()[2]])
  {
    var s := Samples();
    assert s[..2][..1][..0] == [];
    assert s[..2][..1] == [Sample0()];
    assert s[..2] == [Sample0(), Sample1()];
  }

  datatype SeedOutcome = SeedOutcome(reply: SeedReply, added: seq<Document>)

  /**
   * The reply and the documents added by seeding a product collection holding `stored`,
   * when the inserts at the positions in `rejected` fail.
   */
  function Seed(stored: seq<Document>, force: bool, rejected: set<nat>): (o: SeedOutcome)
    ensures o.reply.seeded <==> |stored| == 0 || force
    ensures !o.reply.seeded ==> o.added == [] && o.reply.message == Some(ALREADY_SEEDED)
    ensures o.reply.seeded ==> o.reply.count == Some(3)
    ensures |o.added| <= 3 && forall k :: 0 <= k < |o.added| ==> o.added[k] in Samples()
  {
    if |stored| > 0 && !force then SeedOutcome(SeedReply(false, Some(ALREADY_SEEDED), None), [])
    else SeedOutcome(SeedReply(true, None, Some(|Samples()|)), Accepted(Samples(), rejected))
  }

  /** An unforced seed of a non-empty collection adds nothing and reports it did not seed. */
  lemma SeedNoOpWhenStocked(stored: seq<Document>, rejected: set<nat>)
    requires |stored| > 0
    ensures Seed(stored, false, rejected) == SeedOutcome(SeedReply(false, Some(ALREADY_SEEDED), None), [])
  {
  }

  /**
   * A forced seed, or one of an empty collection, attempts all three samples in order, skips
   * the ones whose insert fails, and reports `seeded` with count 3 whatever failed.
   */
  lemma SeedAttemptsAll(stored: seq<Document>, force: bool, rejected: set<nat>)
    requires |stored| == 0 || force
    ensures Seed(stored, force, rejected).reply == SeedReply(true, None, Some(3))
    ensures Seed(stored, force, rejected).added ==
      (if 0 in rejected then [] else [Samples()[0]])
      + (if 1 in rejected then [] else [Samples()[1]])
      + (if 2 in rejected then [] else [Samples()[2]])
    ensures 0 !in rejected && 1 !in rejected && 2 !in rejected ==>
      Seed(stored, force, rejected).added == Samples()
  {
    SamplesAccepted(rejected);
    assert Samples() == [Samples()[0]] + [Samples()[1]] + [Samples()[2]];
  }

  /** After a seed that inserted at least one sample, an unforced seed inserts nothing. */
  lemma SecondSeedInsertsNothing(stored: seq<Document>, force: bool, first: set<nat>, second: set<nat>)
    requires Seed(stored, force, first).reply.seeded
    requires !(0 in first && 1 in first && 2 in first)
    ensures Seed(stored + Seed(stored, force, first).added, false, second).added == []
    ensures !Seed(stored + Seed(stored, force, first).added, false, second).reply.seeded
  {
    AcceptedEmpty(Samples(), first);
  }

  /**
   * `POST /api/seed`: unless forced, do nothing when the product collection already holds a
   * document; otherwise insert the three samples in order, ignoring failed inserts. Other
   * collections are untouched; a store without connection makes it a server error.
   */
  method SeedProducts(store: DocumentStore, force: bool, rejected: set<nat>)
    returns (r: Result<SeedReply, HttpError>)
    modifies store
    ensures !store.connected ==>
      r == Failure(ServerError(Unavailable))
      && store.collections == old(store.collections) && store.issued == old(store.issued)
    ensures store.connected ==>
      var o := Seed(old(store.Docs(PRODUCTS)), force, rejected);
      r == Success(o.reply)
      && store.Docs(PRODUCTS) == old(store.Docs(PRODUCTS)) + o.added
      && store.issued == old(store.issued) + |o.added|
    ensures forall name :: name != PRODUCTS ==> store.Docs(name) == old(store.Docs(name))
  {
    var existing := store.GetDocuments(PRODUCTS, Some(1));
    if existing.Failure? {
      return Failure(ServerError(existing.error));
    }
    if |existing.value| > 0 && !force {
      return Success(SeedReply(false, Some(ALREADY_SEEDED), None));
    }
    var samples := Samples();
    InsertEach(store, samples, rejected);
    return Success(SeedReply(true, None, Some(|samples|)));
  }

  /**
   * Inserts `docs` into the product collection one at a time, in order, ignoring the
   * failure of any single insert (the positions in `rejected`).
   */
  method InsertEach(store: DocumentStore, docs: seq<Document>, rejected: set<nat>)
    requires store.connected
    modifies store
    ensures store.Docs(PRODUCTS) == old(store.Docs(PRODUCTS)) + Accepted(docs, rejected)
    ensures store.issued == old(store.issued) + |Accepted(docs, rejected)|
    ensures forall name :: name != PRODUCTS ==> store.Docs(name) == old(store.Docs(name))
  {
    for k := 0 to |docs|
      invariant store.Docs(PRODUCTS) == old(store.Docs(PRODUCTS)) + Accepted(docs[..k], rejected)
      invariant store.issued == old(store.issued) + |Accepted(docs[..k], rejected)|
      invariant forall name :: name != PRODUCTS ==> store.Docs(name) == old(store.Docs(name))
    {
      assert docs[..k + 1][..k] == docs[..k];
      var created := store.CreateDocument(PRODUCTS, docs[k], k in rejected);
    }
    assert docs[..|docs|] == docs;
  }

  /** Seeding twice through the endpoint: the second, unforced call inserts nothing. */
  method SeedTwice(store: DocumentStore, force: bool, first: set<nat>, second: set<nat>)
    returns (r1: Result<SeedReply, HttpError>, r2: Result<SeedReply, HttpError>)
    requires store.connected
    requires !(0 in first && 1 in first && 2 in first)
    modifies store
    ensures r1.Success? && r2 == Success(SeedReply(false, Some(ALREADY_SEEDED), None))
    ensures r1.value.seeded ==> store.Docs(PRODUCTS) == old(store.Docs(PRODUCTS)) + Seed(old(store.Docs(PRODUCTS)), force, first).added
    ensures !r1.value.seeded ==> store.Docs(PRODUCTS) == old(store.Docs(PRODUCTS))
  {
    r1 := SeedProducts(store, force, first);
    if r1.value.seeded {
      SecondSeedInsertsNothing(old(store.Docs(PRODUCTS)), force, first, second);
    }
    r2 := SeedProducts(store, false, second);
  }
}
