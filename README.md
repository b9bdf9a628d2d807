# Lobster catalogue backend — verified model

This project models the logic of a small product-catalogue and lead-capture service for a
freshwater lobster business. The service sits between HTTP requests and a schemaless
document store.

- `schemas.dfy` (module `Schemas`) holds the two record shapes, `Lobsterproduct` and `Inquiry`.
  It has the raw values they are built from and the field rules the model classes declare:
  - required and optional fields, and their defaults;
  - the `type` enumeration (`benih`, `induk`, `konsumsi`);
  - the `unit` enumeration (`ekor`, `kg`);
  - the lower bound 0 on `price` and `stock`;
  - the URL rule on `image_url`.

  Each record has a smart constructor (`NewProduct`, `NewInquiry`). It returns either a valid
  record or the list of every field that broke a rule, in field order. The product validity
  predicate is `ValidProduct`.
- `store.dfy` (module `Store`) holds the document store as a class, `DocumentStore`. It has one
  sequence of documents per collection name, a counter of issued identifiers and a flag saying
  whether a connection exists. It offers the two adapter operations the handlers use:
  `GetDocuments` (specified by the function `Fetch`) and `CreateDocument`. Whether the store
  accepts a write is passed in as the `rejected` argument, so the model covers every outcome.
- `filtermap.dfy` (module `FilterMaps`) holds an order-preserving filter-map over sequences and
  its properties. This is the shape of the product listing.
- `api.dfy` (module `Api`) holds the three business endpoints:
  - `ListProducts` projects every fetched document onto the product shape. It fills in the
    defaults for `price`, `stock` and `unit`, and silently skips a document that fails.
  - `CreateInquiry` validates the body, inserts it and answers status `"ok"` with the new id.
  - `SeedProducts` inserts three fixed samples unless products exist and the caller did not
    force it. A failed insert is skipped. The pure function `Seed` describes its effect.

Behaviour of the code a reader may not expect, which the model follows:

- `name`, `phone` and `message` are only required to be strings. An empty string is accepted,
  because the fields declare no minimum length (schemas.py:16, 30-33).
- An explicit `null` for an inquiry's `source` gives `None`. Only an omitted `source` becomes
  `"website"` (schemas.py:34).
- During listing, a stored document whose `unit` key holds `null` fails and is skipped. The
  default `ekor` applies only when the key is absent (main.py:74).
- A seed reports `seeded = true` and `count = 3` even when every insert failed. The count is
  the number of samples attempted, not the number stored (main.py:137-142).

## Model

| member | source | states |
|---|---|---|
| `Schemas.ParseProductType` | schemas.py:17 | a text names a product type exactly when it is `benih`, `induk` or `konsumsi`, and the parsed type prints back as the same text |
| `Schemas.ParseUnit` | schemas.py:21 | a text names a unit exactly when it is `ekor` or `kg`, and the parsed unit prints back as the same text |
| `Schemas.RequiredText` | schemas.py:16 | a required `str` field succeeds exactly when a string is given, and yields that string; an omitted argument is a `Missing` error |
| `Schemas.OptionalText` | schemas.py:18 | an optional `str` field takes its default when omitted, is None when given `null`, keeps a given string, and rejects any other value |
| `Schemas.ProductTypeField` | schemas.py:17 | `type` is required and accepted exactly when it is the name of one of the three kinds |
| `Schemas.UnitField` | schemas.py:21 | `unit` defaults to `ekor` and is accepted exactly when omitted or the name of one of the two units |
| `Schemas.PriceField` | schemas.py:19 | `price` is required; an accepted price is never negative; a negative number is a `TooSmall` error; an integer is widened |
| `Schemas.StockField` | schemas.py:20 | `stock` defaults to 0; an accepted stock is never negative; a negative integer is `TooSmall`; a fractional float is rejected |
| `Schemas.UrlField` | schemas.py:23 | `image_url` defaults to None, and an accepted URL is a given string that satisfies the URL predicate |
| `Schemas.ValidProduct` | schemas.py:19-23 | a product is valid exactly when its price, its stock and its URL each pass their own field rule |
| `Schemas.NewProduct` | schemas.py:11-23 | a product that validation builds satisfies `ValidProduct` and carries the given name, type, size, price (widened from an integer), stock (from an integer or an integral float), unit, description and image URL, with the declared default for each omitted optional argument; a rejection carries at least one field error |
| `Schemas.ProductErrorsExact` | schemas.py:16-23 | validation is total: the error list holds (field, reason) exactly when that field's rule fails for that reason |
| `Schemas.ProductAcceptedIff` | schemas.py:16-23 | a product is built exactly when no field breaks its rule |
| `Schemas.ProductRoundTrip` | schemas.py:11-23 | every valid product given back field by field is accepted and comes back unchanged |
| `Schemas.ProductTypeRule` | schemas.py:17 | a built product's type is the one named by the `type` argument; a `type` naming no kind is rejected |
| `Schemas.ProductPriceRule` | schemas.py:19 | a product without `price`, or with a negative `price`, is rejected |
| `Schemas.ProductStockRule` | schemas.py:20 | a negative `stock`, integer or float, is rejected; an omitted `stock` gives stock 0 |
| `Schemas.ProductUnitRule` | schemas.py:21 | an omitted `unit` gives `ekor`; a given `unit` other than `ekor` or `kg` is rejected |
| `Schemas.ProductOptionalFields` | schemas.py:16-23 | `name` is required; omitted `size`, `description` and `image_url` are None |
| `Schemas.NewInquiry` | schemas.py:25-34 | an inquiry needs `name`, `phone` and `message` (each missing one is reported); `email` defaults to None; `source` defaults to `"website"`, and an explicit `null` source is None; a given `email` or `source` text is kept as given |
| `Schemas.InquiryErrorsExact` | schemas.py:30-34 | the inquiry error list holds (field, reason) exactly when that field's rule fails for that reason |
| `Schemas.InquiryRoundTrip` | schemas.py:25-34 | every inquiry record given back field by field is accepted and comes back unchanged |
| `Store.DocumentStore.Fetch` | main.py:63 | a read returns a prefix of the collection, of length min(limit, size), or the whole collection without a limit; without a connection it fails |
| `Store.DocumentStore.GetDocuments` | main.py:102 | the read operation returns what `Fetch` describes and changes nothing |
| `Store.DocumentStore.CreateDocument` | main.py:139 | an accepted insert appends the document to its collection and returns a fresh id; a rejected or disconnected insert changes nothing |
| `Api.Truncate` | main.py:73 | converting a float to an integer truncates toward zero |
| `Api.ToFloat` | main.py:72 | the model fails on `null` and on every text (numeric text is listed under Left out); it keeps floats and widens integers |
| `Api.ToInt` | main.py:73 | the model fails on `null` and on every text (numeric text is listed under Left out); it keeps integers, and truncates floats toward zero on both signs (so -0.5 gives 0) |
| `Api.ProjectionArgs` | main.py:69-76 | the projection fails before validation exactly when a present `price` or `stock` is `null` or text; otherwise every argument is given: a present text key's stored value as it is, a present price as `float()` and a present stock as `int()` of the stored value, 0, 0 and `ekor` for a missing price, stock and unit, and `null` for any other missing key |
| `Api.Project` | main.py:68-77 | every product that the projection of a document builds is valid, and its name and type are the document's stored `name` and `type` texts |
| `Api.ProjectionDefaults` | main.py:69-76 | a missing `price` gives 0, a missing `stock` 0 and a missing `unit` `ekor`; a `null` price, stock or unit and a missing name or type make the projection fail |
| `FilterMaps.FilterMap` | main.py:65-80 | the filter-map result is never longer than its input |
| `FilterMaps.FilterMapSelects` | main.py:65-80 | the result is an order-preserving subsequence of the conversions: element k is the conversion at the k-th kept position, and the kept positions increase |
| `FilterMaps.FilterMapKeeps` | main.py:78-80 | an element is kept exactly when its conversion succeeds, so every dropped one failed |
| `FilterMaps.FilterMapAppend` | main.py:66-80 | filter-mapping a concatenation concatenates the results |
| `FilterMaps.FilterMapTotal` | main.py:66-77 | when every conversion succeeds, nothing is dropped and element k is the k-th conversion |
| `Api.Listing` | main.py:63-81 | the listing is never longer than the fetched documents, and every listed product is valid |
| `Api.ListingSelects` | main.py:63-81 | the listing is the projections of the kept documents in store order, and a document is kept exactly when its projection succeeds |
| `Api.ListingSkipsInvalid` | main.py:78-80 | a document that fails projection is skipped and the documents around it are still listed |
| `Api.ListingKeepsValid` | main.py:66-77 | when every document projects, the listing has one product per document, in order |
| `Api.ListingOneMalformed` | main.py:66-81 | one malformed document among N valid ones gives a listing of exactly N products |
| `Api.ListingOfPrefix` | main.py:63-81 | reading the first n of a collection of valid documents lists exactly the first n products (all of them when there are fewer), in store order |
| `Api.ListProducts` | main.py:59-83 | the endpoint returns the listing of the fetched documents, or a server error exactly when the fetch fails |
| `Api.ListProductsDefault` | main.py:60 | a request without `limit` lists the valid products among the first 50 documents, so at most 50 products |
| `Api.InquiryDocument` | main.py:89 | the stored inquiry document holds exactly the five inquiry fields, and validating it again gives back the same inquiry |
| `Api.CreateInquiry` | main.py:85-92 | an invalid body is a client error and stores nothing; a store failure is a server error and stores nothing; otherwise the inquiry is appended and the reply is status `"ok"` with the id the store assigned |
| `Api.Samples` | main.py:105-136 | there are three samples, each a document with exactly the eight product fields |
| `Api.Sample0` | main.py:106-115 | the first sample document has exactly the eight product fields |
| `Api.Sample1` | main.py:116-125 | the second sample document has exactly the eight product fields |
| `Api.Sample2` | main.py:126-135 | the third sample document has exactly the eight product fields |
| `Api.SampleProducts` | main.py:105-136 | the three sample products cover the three kinds, each with a positive price and stock and an image URL |
| `Api.Sample0Projects` | main.py:106-115 | the first sample projects to a valid `benih` product counted in `ekor` |
| `Api.Sample1Projects` | main.py:116-125 | the second sample projects to a valid `konsumsi` product counted in `kg` |
| `Api.Sample2Projects` | main.py:126-135 | the third sample projects to a valid `induk` product counted in `ekor` |
| `Api.SamplesAreValidProducts` | main.py:105-136 | listing the three samples yields exactly the three sample products, all valid |
| `Api.Accepted` | main.py:137-141 | the inserted samples are never more than the attempted ones, and each is one of them |
| `Api.AcceptedEmpty` | main.py:137-141 | nothing is inserted exactly when every insert fails |
| `Api.AcceptedAll` | main.py:137-141 | with no failed insert, every sample is inserted, in order |
| `Api.SamplesAccepted` | main.py:137-141 | each sample is inserted exactly when its own insert succeeds, whatever happens to the others, in sample order |
| `Api.Seed` | main.py:102-142 | seeding happens exactly when the collection is empty or the call is forced; otherwise nothing is added and the reply says "Products already exist"; a seed reports count 3 and adds at most the three samples |
| `Api.SeedNoOpWhenStocked` | main.py:102-104 | an unforced seed of a non-empty collection adds nothing and replies `seeded = false` with the message "Products already exist" |
| `Api.SeedAttemptsAll` | main.py:105-142 | a forced seed, or a seed of an empty collection, replies `seeded = true` with count 3 and adds, in order, the samples whose insert succeeded |
| `Api.SecondSeedInsertsNothing` | main.py:102-142 | after a seed that stored at least one sample, an unforced seed adds nothing and replies `seeded = false` |
| `Api.InsertEach` | main.py:137-141 | inserting documents one at a time appends, in order, exactly those whose insert succeeded, issues one id for each, and leaves other collections alone |
| `Api.SeedProducts` | main.py:97-144 | the endpoint changes the product collection exactly as `Seed` describes and returns its reply, leaves other collections alone, and is a server error without a connection |
| `Api.SeedTwice` | main.py:99-104 | calling the endpoint twice, the second time unforced, leaves the second call without effect once the first stored a sample |

## Left out

- HTTP routing, CORS middleware and server start-up with its port setting (main.py:10-18, 146-149) are framework plumbing.
- The diagnostic `/test` endpoint (main.py:28-55) only probes I/O and truncates exception texts.
- The static `/` and `/api/hello` messages (main.py:20-26) contain no logic.
- The database adapter (`database.py`) is not part of this model. `DocumentStore` stands in for it, with these choices:
  - a missing limit reads the whole collection (a request to the listing endpoint never reaches the adapter without one: it defaults to 50, `Api.ListProductsDefault`);
  - a non-positive limit is a storage error;
  - identifiers are natural numbers handed out in order;
  - `_id` and any other field the adapter adds are not stored in documents, and the listing ignores them anyway.
- A connection that is lost or regained between two store calls is not modelled. `connected` is fixed when the store is created.
- The URL well-formedness of `HttpUrl` is the predicate parameter `isUrl`, and URL normalisation is not modelled.
- The field rules follow Pydantic 2 in lax mode; the source does not pin a version. Under Pydantic 1 a fractional float given for `stock` is truncated (5.7 becomes 5) and a number given for a `str` field becomes text, while here both are rejected.
- Pydantic's lax coercions are modelled only as integer-to-float and integral-float-to-integer. A boolean or a numeric text given for a number field is rejected here.
- Api.ToFloat and Api.ToInt: Python's `float()` and `int()` of a text are modelled as a failed conversion, so the document is skipped; parsing numeric text is not modelled.
- Floating-point rounding, infinities and NaN are not modelled: `price` is a mathematical real.
- The text of a server error is the `StorageError` value, not an exception message. The parsing of the seed request body into `force` is not modelled; `force` is a boolean argument.
- Requests run concurrently, and one store operation may interleave with another's. This is not modelled: every endpoint runs alone.
