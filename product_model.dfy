/**
 * The product document: its fields, the schema's validation rules and defaults, and the
 * discount computation. `_id` is a natural number; the style line is the id of a style-line
 * document. A field left out of the input is `None` until defaults are applied.
 */
module ProductModel {
  import opened Wrappers
  import JsBuiltins

  datatype Product = Product(
    id: nat,
    name: string,
    basePrice: real,
    description: string,
    images: seq<string>,
    styleLine: nat,
    sizes: seq<string>,
    colors: seq<string>,
    isCustomizable: bool,
    stockQuantity: int)

  /** A partial product, as accepted on creation and by the merge of an update. */
  datatype ProductData = ProductData(
    name: Option<string>,
    basePrice: Option<real>,
    description: Option<string>,
    images: Option<seq<string>>,
    styleLine: Option<nat>,
    sizes: Option<seq<string>>,
    colors: Option<seq<string>>,
    isCustomizable: Option<bool>,
    stockQuantity: Option<int>)

  /** Why a document fails the schema on save. */
  datatype SchemaError =
    | NameRequired
    | BasePriceRequired
    | BasePriceBelowMinimum
    | DescriptionRequired
    | StyleLineRequired
    | StockQuantityRequired
    | StockQuantityBelowMinimum

  /**
   * The document built from input data before validation: the name is trimmed by the schema's
   * `trim` setter, array paths default to the empty array and `isCustomizable` to false. Required
   * scalar paths that are missing stay missing, so validation can report them.
   */
  datatype Draft = Draft(
    name: Option<string>,
    basePrice: Option<real>,
    description: Option<string>,
    images: seq<string>,
    styleLine: Option<nat>,
    sizes: seq<string>,
    colors: seq<string>,
    isCustomizable: bool,
    stockQuantity: Option<int>)

  function TrimName(name: Option<string>): Option<string> {
    if name.Some? then Some(JsBuiltins.Trim(name.value)) else None
  }

  /** `new Product(data)`: the setters and defaults applied to the input. */
  function NewDraft(data: ProductData): (d: Draft)
    ensures d.isCustomizable == (data.isCustomizable.Some? && data.isCustomizable.value)
    ensures data.images.None? ==> d.images == []
    ensures data.sizes.None? ==> d.sizes == []
    ensures data.colors.None? ==> d.colors == []
  {
    Draft(
      TrimName(data.name),
      data.basePrice,
      data.description,
      if data.images.Some? then data.images.value else [],
      data.styleLine,
      if data.sizes.Some? then data.sizes.value else [],
      if data.colors.Some? then data.colors.value else [],
      if data.isCustomizable.Some? then data.isCustomizable.value else false,
      data.stockQuantity)
  }

  /** The draft view of a stored document. */
  function DraftOf(p: Product): Draft {
    Draft(Some(p.name), Some(p.basePrice), Some(p.description), p.images, Some(p.styleLine),
      p.sizes, p.colors, p.isCustomizable, Some(p.stockQuantity))
  }

  /** `Object.assign(product, data)`: every supplied path overwrites, every other path is kept. */
  function Merge(p: Product, data: ProductData): (d: Draft)
    ensures d.name == (if data.name.Some? then Some(JsBuiltins.Trim(data.name.value)) else Some(p.name))
    ensures d.basePrice == Some(if data.basePrice.Some? then data.basePrice.value else p.basePrice)
    ensures d.description == Some(if data.description.Some? then data.description.value else p.description)
    ensures d.images == (if data.images.Some? then data.images.value else p.images)
    ensures d.styleLine == Some(if data.styleLine.Some? then data.styleLine.value else p.styleLine)
    ensures d.sizes == (if data.sizes.Some? then data.sizes.value else p.sizes)
    ensures d.colors == (if data.colors.Some? then data.colors.value else p.colors)
    ensures d.isCustomizable == (if data.isCustomizable.Some? then data.isCustomizable.value else p.isCustomizable)
    ensures d.stockQuantity == Some(if data.stockQuantity.Some? then data.stockQuantity.value else p.stockQuantity)
  {
    Draft(
      if data.name.Some? then TrimName(data.name) else Some(p.name),
      if data.basePrice.Some? then data.basePrice else Some(p.basePrice),
      if data.description.Some? then data.description else Some(p.description),
      if data.images.Some? then data.images.value else p.images,
      if data.styleLine.Some? then data.styleLine else Some(p.styleLine),
      if data.sizes.Some? then data.sizes.value else p.sizes,
      if data.colors.Some? then data.colors.value else p.colors,
      if data.isCustomizable.Some? then data.isCustomizable.value else p.isCustomizable,
      if data.stockQuantity.Some? then data.stockQuantity else Some(p.stockQuantity))
  }

  /** The schema: required paths present (a required string must not be empty) and the `min: 0` bounds. */
  predicate ValidProduct(p: Product) {
    |p.name| > 0 && p.basePrice >= 0.0 && |p.description| > 0 && p.stockQuantity >= 0
  }

  /** Validation of a draft, in the schema's path order; success yields the document to store under `id`. */
  function Validate(d: Draft, id: nat): (r: Result<Product, SchemaError>)
    ensures r.Success? ==> ValidProduct(r.value) && r.value.id == id
    ensures r.Success? ==> DraftOf(r.value) == d
    ensures r.Success? <==>
      && d.name.Some? && |d.name.value| > 0
      && d.basePrice.Some? && d.basePrice.value >= 0.0
      && d.description.Some? && |d.description.value| > 0
      && d.styleLine.Some?
      && d.stockQuantity.Some? && d.stockQuantity.value >= 0
  {
    if d.name.None? || |d.name.value| == 0 then Failure(NameRequired)
    else if d.basePrice.None? then Failure(BasePriceRequired)
    else if d.basePrice.value < 0.0 then Failure(BasePriceBelowMinimum)
    else if d.description.None? || |d.description.value| == 0 then Failure(DescriptionRequired)
    else if d.styleLine.None? then Failure(StyleLineRequired)
    else if d.stockQuantity.None? then Failure(StockQuantityRequired)
    else if d.stockQuantity.value < 0 then Failure(StockQuantityBelowMinimum)
    else Success(Product(id, d.name.value, d.basePrice.value, d.description.value, d.images,
      d.styleLine.value, d.sizes, d.colors, d.isCustomizable, d.stockQuantity.value))
  }

  /** A valid stored document passes validation again unchanged, whatever its id. */
  lemma RevalidateStored(p: Product)
    requires ValidProduct(p)
    ensures Validate(DraftOf(p), p.id) == Success(p)
  {
  }

  /** An update that supplies nothing leaves the document as it was. */
  lemma MergeNothing(p: Product)
    requires ValidProduct(p)
    ensures Validate(Merge(p, ProductData(None, None, None, None, None, None, None, None, None)), p.id) == Success(p)
  {
  }

  /** `isCustomizable` defaults to false, and a valid document's paths keep their bounds. */
  lemma CreatedDefaults(data: ProductData, id: nat)
    requires data.isCustomizable.None? && Validate(NewDraft(data), id).Success?
    ensures var p := Validate(NewDraft(data), id).value;
      !p.isCustomizable && p.basePrice >= 0.0 && p.stockQuantity >= 0
  {
  }

  /** `calculateDiscountedPrice`: the base price less the given percentage of it. */
  function CalculateDiscountedPrice(p: Product, discountPercentage: real): (r: real)
    ensures discountPercentage == 0.0 ==> r == p.basePrice
    ensures discountPercentage == 100.0 ==> r == 0.0
  {
    var discountAmount := p.basePrice * (discountPercentage / 100.0);
    p.basePrice - discountAmount
  }

  /** The discounted price is the fraction `1 - pct/100` of the base price. */
  lemma DiscountIsProportional(p: Product, pct: real)
    ensures CalculateDiscountedPrice(p, pct) == p.basePrice * (1.0 - pct / 100.0)
  {
  }

  /** No discount keeps the base price; a full discount gives 0. */
  lemma DiscountEndpoints(p: Product)
    ensures CalculateDiscountedPrice(p, 0.0) == p.basePrice
    ensures CalculateDiscountedPrice(p, 100.0) == 0.0
  {
  }

  /** For a percentage in [0, 100] and a non-negative base price, the result lies in [0, basePrice]. */
  lemma DiscountBounded(p: Product, pct: real)
    requires p.basePrice >= 0.0 && 0.0 <= pct <= 100.0
    ensures 0.0 <= CalculateDiscountedPrice(p, pct) <= p.basePrice
  {
    DiscountIsProportional(p, pct);
    MulUnit(p.basePrice, 1.0 - pct / 100.0);
  }

  lemma MulUnit(b: real, f: real)
    requires b >= 0.0 && 0.0 <= f <= 1.0
    ensures 0.0 <= b * f <= b
  {
  }

  /** There is no clamping: for a positive base price a larger percentage always gives a lower price. */
  lemma DiscountStrictlyDecreasing(p: Product, pct1: real, pct2: real)
    requires p.basePrice > 0.0 && pct1 < pct2
    ensures CalculateDiscountedPrice(p, pct2) < CalculateDiscountedPrice(p, pct1)
  {
    DiscountIsProportional(p, pct1);
    DiscountIsProportional(p, pct2);
    MulLess(p.basePrice, 1.0 - pct2 / 100.0, 1.0 - pct1 / 100.0);
  }

  lemma MulLess(b: real, f: real, g: real)
    requires b > 0.0 && f < g
    ensures b * f < b * g
  {
  }

  /** Above 100 percent the discounted price of a positive base price is negative. */
  lemma DiscountNegativeAbove100(p: Product, pct: real)
    requires p.basePrice > 0.0 && pct > 100.0
    ensures CalculateDiscountedPrice(p, pct) < 0.0
  {
    DiscountStrictlyDecreasing(p, 100.0, pct);
    DiscountEndpoints(p);
  }
}
