/**
 * The two record shapes of the lobster catalogue, `Lobsterproduct` and `Inquiry`, with the
 * field rules their model classes declare: which keyword arguments are required, which
 * default and to what, which enumerations a text field must come from and which numbers
 * must be non-negative. Each record has a validity predicate and a smart constructor that
 * either builds a valid record or reports every field that broke a rule, in field order.
 */
module Schemas {
  import opened Wrappers

  /** A raw value as it arrives in a request body or a stored document. */
  datatype Value = Null | Bool(b: bool) | Int(i: int) | Real(r: real) | Str(s: string)

  /** A keyword argument of a model constructor: `None` when the caller leaves it out. */
  type Arg = Option<Value>

  /** What went wrong with one field. */
  datatype ErrorKind =
    | Missing      // a required argument was not given
    | WrongType    // the value has a type the field does not accept (None for a `str`, say)
    | NotAllowed   // a text value outside the field's enumeration
    | TooSmall     // a number below the field's lower bound of 0
    | BadUrl       // a text that is not a well-formed URL

  /** The fields of both records, as the error locations name them. */
  datatype Field =
    | Name | Type | Size | Price | Stock | Unit | Description | ImageUrl  // Lobsterproduct
    | Phone | Email | Message | Source                                     // Inquiry (and Name)

  datatype FieldError = FieldError(field: Field, kind: ErrorKind)

  /** The product kinds: seed (`benih`), broodstock (`induk`) and consumption (`konsumsi`). */
  datatype ProductType = Benih | Induk | Konsumsi

  /** The selling units: per head (`ekor`) or per kilogram (`kg`). */
  datatype SaleUnit = Ekor | Kg

  function ProductTypeName(t: ProductType): string {
    match t
    case Benih => "benih"
    case Induk => "induk"
    case Konsumsi => "konsumsi"
  }

  function ParseProductType(s: string): (r: Option<ProductType>)
    ensures r.Some? <==> (s == "benih" || s == "induk" || s == "konsumsi")
    ensures r.Some? ==> ProductTypeName(r.value) == s
  {
    if s == "benih" then Some(Benih)
    else if s == "induk" then Some(Induk)
    else if s == "konsumsi" then Some(Konsumsi)
    else None
  }

  function UnitName(u: SaleUnit): string {
    match u
    case Ekor => "ekor"
    case Kg => "kg"
  }

  function ParseUnit(s: string): (r: Option<SaleUnit>)
    ensures r.Some? <==> (s == "ekor" || s == "kg")
    ensures r.Some? ==> UnitName(r.value) == s
  {
    if s == "ekor" then Some(Ekor)
    else if s == "kg" then Some(Kg)
    else None
  }

  // ---------------------------------------------------------------------------------------
  // Field checkers, one per kind of field declaration.

  /** A required `str` field. */
  function RequiredText(a: Arg): (r: Result<string, ErrorKind>)
    ensures r.Success? <==> exists s :: a == Some(Str(s))
    ensures r.Success? ==> a == Some(Str(r.value))
    ensures a == None ==> r == Failure(Missing)
  {
    match a
    case None => Failure(Missing)
    case Some(Str(s)) => Success(s)
    case Some(_) => Failure(WrongType)
  }

  /** An `Optional[str]` field whose default, used when the argument is left out, is `default`. */
  function OptionalText(a: Arg, default: Option<string>): (r: Result<Option<string>, ErrorKind>)
    ensures a == None ==> r == Success(default)
    ensures a == Some(Null) ==> r == Success(None)
    ensures forall s :: a == Some(Str(s)) ==> r == Success(Some(s))
    ensures r.Failure? <==> (a.Some? && !a.value.Null? && !a.value.Str?)
  {
    match a
    case None => Success(default)
    case Some(Null) => Success(None)
    case Some(Str(s)) => Success(Some(s))
    case Some(_) => Failure(WrongType)
  }

  /** The required `type` field, a literal among `benih`, `induk` and `konsumsi`. */
  function ProductTypeField(a: Arg): (r: Result<ProductType, ErrorKind>)
    ensures r.Success? <==> exists t :: a == Some(Str(ProductTypeName(t)))
    ensures r.Success? ==> a == Some(Str(ProductTypeName(r.value)))
    ensures a == None ==> r == Failure(Missing)
  {
    match a
    case None => Failure(Missing)
    case Some(Str(s)) =>
      (match ParseProductType(s)
       case Some(t) => assert a == Some(Str(ProductTypeName(t))); Success(t)
       case None => Failure(NotAllowed))
    case Some(_) => Failure(NotAllowed)
  }

  /** The `unit` field, a literal among `ekor` and `kg`, defaulting to `ekor`. */
  function UnitField(a: Arg): (r: Result<SaleUnit, ErrorKind>)
    ensures a == None ==> r == Success(Ekor)
    ensures r.Success? <==> (a == None || exists u :: a == Some(Str(UnitName(u))))
    ensures r.Success? && a.Some? ==> a == Some(Str(UnitName(r.value)))
  {
    match a
    case None => Success(Ekor)
    case Some(Str(s)) =>
      (match ParseUnit(s)
       case Some(u) => assert a == Some(Str(UnitName(u))); Success(u)
       case None => Failure(NotAllowed))
    case Some(_) => Failure(NotAllowed)
  }

  /** The required `price` field, a `float` bounded below by 0. An `int` is widened. */
  function PriceField(a: Arg): (r: Result<real, ErrorKind>)
    ensures r.Success? ==> r.value >= 0.0
    ensures a == None ==> r == Failure(Missing)
    ensures forall x :: a == Some(Real(x)) ==> r == if x < 0.0 then Failure(TooSmall) else Success(x)
    ensures forall n :: a == Some(Int(n)) ==> r == if n < 0 then Failure(TooSmall) else Success(n as real)
    ensures r.Success? ==> a.Some? && (a.value.Real? || a.value.Int?)
  {
    var x: Result<real, ErrorKind> :=
      match a
      case None => Failure(Missing)
      case Some(Int(n)) => Success(n as real)
      case Some(Real(x)) => Success(x)
      case Some(_) => Failure(WrongType);
    if x.Success? && x.value < 0.0 then Failure(TooSmall) else x
  }

  /**
   * The `stock` field, an `int` bounded below by 0 and defaulting to 0. A `float` with no
   * fractional part is accepted as the integer it equals.
   */
  function StockField(a: Arg): (r: Result<int, ErrorKind>)
    ensures r.Success? ==> r.value >= 0
    ensures a == None ==> r == Success(0)
    ensures forall n :: a == Some(Int(n)) ==> r == if n < 0 then Failure(TooSmall) else Success(n)
    ensures forall x :: a == Some(Real(x)) && x != x.Floor as real ==> r == Failure(WrongType)
    ensures r.Success? && a.Some? ==> a == Some(Int(r.value)) || a == Some(Real(r.value as real))
  {
    var n: Result<int, ErrorKind> :=
      match a
      case None => Success(0)
      case Some(Int(n)) => Success(n)
      case Some(Real(x)) => if x == x.Floor as real then Success(x.Floor) else Failure(WrongType)
      case Some(_) => Failure(WrongType);
    if n.Success? && n.value < 0 then Failure(TooSmall) else n
  }

  /** The `image_url` field, an `Optional[HttpUrl]` defaulting to None; `isUrl` decides well-formedness. */
  function UrlField(a: Arg, isUrl: string -> bool): (r: Result<Option<string>, ErrorKind>)
    ensures r.Success? && r.value.Some? ==> isUrl(r.value.value) && a == Some(Str(r.value.value))
    ensures a == None || a == Some(Null) ==> r == Success(None)
    ensures forall s :: a == Some(Str(s)) ==> r == if isUrl(s) then Success(Some(s)) else Failure(BadUrl)
  {
    match a
    case None => Success(None)
    case Some(Null) => Success(None)
    case Some(Str(s)) => if isUrl(s) then Success(Some(s)) else Failure(BadUrl)
    case Some(_) => Failure(WrongType)
  }

  /** The error list entry of one field: empty when the field passed. */
  function ErrorOf<T>(field: Field, r: Result<T, ErrorKind>): seq<FieldError> {
    if r.Failure? then [FieldError(field, r.error)] else []
  }

  // ---------------------------------------------------------------------------------------
  // Lobsterproduct

  /** The keyword arguments of `Lobsterproduct(...)`; `kind` is the argument named `type`. */
  datatype ProductInput = ProductInput(
    name: Arg, kind: Arg, size: Arg, price: Arg, stock: Arg, unit: Arg,
    description: Arg, imageUrl: Arg)

  /** A validated product. The enumerations are enforced by the field types. */
  datatype Product = Product(
    name: string, kind: ProductType, size: Option<string>, price: real, stock: int,
    unit: SaleUnit, description: Option<string>, imageUrl: Option<string>)

  /** The numeric bounds and the URL rule that a product must satisfy. */
  predicate ValidProduct(p: Product, isUrl: string -> bool)
    ensures ValidProduct(p, isUrl) <==>
      PriceField(Some(Real(p.price))).Success? && StockField(Some(Int(p.stock))).Success?
      && UrlField(Some(TextValue(p.imageUrl)), isUrl).Success?
  {
    p.price >= 0.0 && p.stock >= 0 && (p.imageUrl.Some? ==> isUrl(p.imageUrl.value))
  }

  /** Every violated field rule of `i`, collected in field declaration order. */
  function ProductErrors(i: ProductInput, isUrl: string -> bool): seq<FieldError> {
    ErrorOf(Name, RequiredText(i.name))
    + ErrorOf(Type, ProductTypeField(i.kind))
    + ErrorOf(Size, OptionalText(i.size, None))
    + ErrorOf(Price, PriceField(i.price))
    + ErrorOf(Stock, StockField(i.stock))
    + ErrorOf(Unit, UnitField(i.unit))
    + ErrorOf(Description, OptionalText(i.description, None))
    + ErrorOf(ImageUrl, UrlField(i.imageUrl, isUrl))
  }

  /** `Lobsterproduct(**i)`: the validated product, or the list of every field error. */
  function NewProduct(i: ProductInput, isUrl: string -> bool): (r: Result<Product, seq<FieldError>>)
    ensures r.Success? ==> ValidProduct(r.value, isUrl)
    ensures r.Failure? ==> r.error != []
    ensures r.Success? ==> i.name == Some(Str(r.value.name))
    ensures r.Success? ==> i.kind == Some(Str(ProductTypeName(r.value.kind)))
    ensures r.Success? ==> i.size == Some(TextValue(r.value.size)) || (i.size == None && r.value.size == None)
    ensures r.Success? ==>
      i.price == Some(Real(r.value.price))
      || (i.price.Some? && i.price.value.Int? && i.price.value.i as real == r.value.price)
    ensures r.Success? ==>
      i.stock == Some(Int(r.value.stock)) || i.stock == Some(Real(r.value.stock as real))
      || (i.stock == None && r.value.stock == 0)
    ensures r.Success? ==> i.unit == Some(Str(UnitName(r.value.unit))) || (i.unit == None && r.value.unit == Ekor)
    ensures r.Success? ==>
      i.description == Some(TextValue(r.value.description)) || (i.description == None && r.value.description == None)
    ensures r.Success? ==>
      i.imageUrl == Some(TextValue(r.value.imageUrl)) || (i.imageUrl == None && r.value.imageUrl == None)
  {
    var errs := ProductErrors(i, isUrl);
    if errs != [] then Failure(errs)
    else
      Success(Product(
        RequiredText(i.name).value, ProductTypeField(i.kind).value,
        OptionalText(i.size, None).value, PriceField(i.price).value,
        StockField(i.stock).value, UnitField(i.unit).value,
        OptionalText(i.description, None).value, UrlField(i.imageUrl, isUrl).value))
  }

  /** The keyword arguments that rebuild `p`, every field given explicitly. */
  function ProductArgs(p: Product): ProductInput {
    ProductInput(
      Some(Str(p.name)), Some(Str(ProductTypeName(p.kind))), Some(TextValue(p.size)),
      Some(Real(p.price)), Some(Int(p.stock)), Some(Str(UnitName(p.unit))),
      Some(TextValue(p.description)), Some(TextValue(p.imageUrl)))
  }

  function TextValue(o: Option<string>): Value {
    match o
    case None => Null
    case Some(s) => Str(s)
  }

  /** Validation accepts every valid product and hands back all its fields unchanged. */
  lemma ProductRoundTrip(p: Product, isUrl: string -> bool)
    requires ValidProduct(p, isUrl)
    ensures NewProduct(ProductArgs(p), isUrl) == Success(p)
  {
  }

  /** The reason why field `f` of `i` breaks its rule, if it does. */
  function ProductCheck(i: ProductInput, isUrl: string -> bool, f: Field): Option<ErrorKind> {
    match f
    case Name => FailureOf(RequiredText(i.name))
    case Type => FailureOf(ProductTypeField(i.kind))
    case Size => FailureOf(OptionalText(i.size, None))
    case Price => FailureOf(PriceField(i.price))
    case Stock => FailureOf(StockField(i.stock))
    case Unit => FailureOf(UnitField(i.unit))
    case Description => FailureOf(OptionalText(i.description, None))
    case ImageUrl => FailureOf(UrlField(i.imageUrl, isUrl))
    case _ => None
  }

  function FailureOf<T>(r: Result<T, ErrorKind>): Option<ErrorKind> {
    if r.Failure? then Some(r.error) else None
  }

  /**
   * Validation is total: the error list holds an entry for a field exactly when that field
   * breaks its rule, with the reason it breaks it.
   */
  lemma ProductErrorsExact(i: ProductInput, isUrl: string -> bool, f: Field, k: ErrorKind)
    ensures FieldError(f, k) in ProductErrors(i, isUrl) <==> ProductCheck(i, isUrl, f) == Some(k)
  {
    var e := FieldError(f, k);
    ErrorOfHolds(e, Name, RequiredText(i.name));
    ErrorOfHolds(e, Type, ProductTypeField(i.kind));
    ErrorOfHolds(e, Size, OptionalText(i.size, None));
    ErrorOfHolds(e, Price, PriceField(i.price));
    ErrorOfHolds(e, Stock, StockField(i.stock));
    ErrorOfHolds(e, Unit, UnitField(i.unit));
    ErrorOfHolds(e, Description, OptionalText(i.description, None));
    ErrorOfHolds(e, ImageUrl, UrlField(i.imageUrl, isUrl));
  }

  /** The one-field error list names `field` with the reason its check fails, and nothing else. */
  lemma ErrorOfHolds<T>(e: FieldError, field: Field, r: Result<T, ErrorKind>)
    ensures e in ErrorOf(field, r) <==> e.field == field && FailureOf(r) == Some(e.kind)
  {
  }

  /** A product is built exactly when no field breaks its rule. */
  lemma ProductAcceptedIff(i: ProductInput, isUrl: string -> bool)
    ensures NewProduct(i, isUrl).Success? <==> forall f :: ProductCheck(i, isUrl, f) == None
  {
    var errs := ProductErrors(i, isUrl);
    if errs != [] {
      ProductErrorsExact(i, isUrl, errs[0].field, errs[0].kind);
    }
    forall f | ProductCheck(i, isUrl, f).Some?
      ensures errs != []
    {
      ProductErrorsExact(i, isUrl, f, ProductCheck(i, isUrl, f).value);
    }
  }

  /** A product is built only from a `type` that names one of the three kinds. */
  lemma ProductTypeRule(i: ProductInput, isUrl: string -> bool)
    ensures NewProduct(i, isUrl).Success?
            ==> i.kind == Some(Str(ProductTypeName(NewProduct(i, isUrl).value.kind)))
    ensures (forall t :: i.kind != Some(Str(ProductTypeName(t)))) ==> NewProduct(i, isUrl).Failure?
  {
  }

  /** `price` is required and must not be negative. */
  lemma ProductPriceRule(i: ProductInput, isUrl: string -> bool)
    ensures i.price == None ==> NewProduct(i, isUrl).Failure?
    ensures (exists x :: i.price == Some(Real(x)) && x < 0.0) ==> NewProduct(i, isUrl).Failure?
    ensures (exists n :: i.price == Some(Int(n)) && n < 0) ==> NewProduct(i, isUrl).Failure?
  {
  }

  /** `stock` must not be negative, and is 0 when left out. */
  lemma ProductStockRule(i: ProductInput, isUrl: string -> bool)
    ensures (exists n :: i.stock == Some(Int(n)) && n < 0) ==> NewProduct(i, isUrl).Failure?
    ensures (exists x :: i.stock == Some(Real(x)) && x < 0.0) ==> NewProduct(i, isUrl).Failure?
    ensures i.stock == None && NewProduct(i, isUrl).Success? ==> NewProduct(i, isUrl).value.stock == 0
  {
  }

  /** `unit` must be `ekor` or `kg`, and is `ekor` when left out. */
  lemma ProductUnitRule(i: ProductInput, isUrl: string -> bool)
    ensures i.unit == None && NewProduct(i, isUrl).Success? ==> NewProduct(i, isUrl).value.unit == Ekor
    ensures (forall u :: i.unit != Some(Str(UnitName(u)))) && i.unit != None ==> NewProduct(i, isUrl).Failure?
  {
  }

  /** `name` is required; `size`, `description` and `image_url` are optional and default to None. */
  lemma ProductOptionalFields(i: ProductInput, isUrl: string -> bool)
    ensures i.name == None ==> NewProduct(i, isUrl).Failure?
    ensures NewProduct(i, isUrl).Success? ==>
      (i.size == None ==> NewProduct(i, isUrl).value.size == None) &&
      (i.description == None ==> NewProduct(i, isUrl).value.description == None) &&
      (i.imageUrl == None ==> NewProduct(i, isUrl).value.imageUrl == None)
  {
  }

  // ---------------------------------------------------------------------------------------
  // Inquiry

  /** The keyword arguments of `Inquiry(...)`. */
  datatype InquiryInput = InquiryInput(name: Arg, phone: Arg, email: Arg, message: Arg, source: Arg)

  /** A validated inquiry (a sales lead). */
  datatype Inquiry = Inquiry(
    name: string, phone: string, email: Option<string>, message: string, source: Option<string>)

  const DEFAULT_SOURCE: string := "website"

  /** Every violated field rule of `i`, collected in field declaration order. */
  function InquiryErrors(i: InquiryInput): seq<FieldError> {
    ErrorOf(Name, RequiredText(i.name))
    + ErrorOf(Phone, RequiredText(i.phone))
    + ErrorOf(Email, OptionalText(i.email, None))
    + ErrorOf(Message, RequiredText(i.message))
    + ErrorOf(Source, OptionalText(i.source, Some(DEFAULT_SOURCE)))
  }

  /** The reason why field `f` of `i` breaks its rule, if it does. */
  function InquiryCheck(i: InquiryInput, f: Field): Option<ErrorKind> {
    match f
    case Name => FailureOf(RequiredText(i.name))
    case Phone => FailureOf(RequiredText(i.phone))
    case Email => FailureOf(OptionalText(i.email, None))
    case Message => FailureOf(RequiredText(i.message))
    case Source => FailureOf(OptionalText(i.source, Some(DEFAULT_SOURCE)))
    case _ => None
  }

  /** The error list holds an entry for an inquiry field exactly when it breaks its rule. */
  lemma InquiryErrorsExact(i: InquiryInput, f: Field, k: ErrorKind)
    ensures FieldError(f, k) in InquiryErrors(i) <==> InquiryCheck(i, f) == Some(k)
  {
  }

  /** `Inquiry(**i)`: the validated inquiry, or the list of every field error. */
  function NewInquiry(i: InquiryInput): (r: Result<Inquiry, seq<FieldError>>)
    ensures r.Success? <==> InquiryErrors(i) == []
    ensures r.Failure? ==> r.error == InquiryErrors(i)
    ensures i.name == None ==> r.Failure? && FieldError(Name, Missing) in r.error
    ensures i.phone == None ==> r.Failure? && FieldError(Phone, Missing) in r.error
    ensures i.message == None ==> r.Failure? && FieldError(Message, Missing) in r.error
    ensures r.Success? ==> i.name == Some(Str(r.value.name)) && i.phone == Some(Str(r.value.phone))
                           && i.message == Some(Str(r.value.message))
    ensures r.Success? && i.email == None ==> r.value.email == None
    ensures r.Success? && i.source == None ==> r.value.source == Some(DEFAULT_SOURCE)
    ensures r.Success? && i.source == Some(Null) ==> r.value.source == None
    ensures r.Success? ==>
      i.email == Some(TextValue(r.value.email)) || (i.email == None && r.value.email == None)
    ensures r.Success? ==>
      i.source == Some(TextValue(r.value.source)) || (i.source == None && r.value.source == Some(DEFAULT_SOURCE))
  {
    var errs := InquiryErrors(i);
    if errs != [] then Failure(errs)
    else
      Success(Inquiry(
        RequiredText(i.name).value, RequiredText(i.phone).value,
        OptionalText(i.email, None).value, RequiredText(i.message).value,
        OptionalText(i.source, Some(DEFAULT_SOURCE)).value))
  }

  /** The keyword arguments that rebuild `q`, every field given explicitly. */
  function InquiryArgs(q: Inquiry): InquiryInput {
    InquiryInput(
      Some(Str(q.name)), Some(Str(q.phone)), Some(TextValue(q.email)),
      Some(Str(q.message)), Some(TextValue(q.source)))
  }

  /** Every inquiry record is accepted again with all its fields unchanged. */
  lemma InquiryRoundTrip(q: Inquiry)
    ensures NewInquiry(InquiryArgs(q)) == Success(q)
  {
  }
}
