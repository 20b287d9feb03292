/**
 * The vendor's product editor (ProductForm.tsx): text fields prefilled from the
 * product being edited (or reset for a new one), updated one field at a time,
 * and turned back into a product on submit with numeric fallbacks.
 */
module ProductForm {
  import opened Types
  import opened Text

  /** The form's fields, all held as text. */
  datatype ProductFields = ProductFields(
    name: string,
    category: string,
    price: string,
    originalPrice: string,
    stock: string,
    description: string,
    imageUrl: string
  )

  /** The `name` attribute of each input, which `handleChange` uses as the key. */
  datatype ProductField = NameField | CategoryField | PriceField | OriginalPriceField | StockField | DescriptionField | ImageUrlField

  function FieldValue(f: ProductFields, field: ProductField): string
  {
    match field
    case NameField => f.name
    case CategoryField => f.category
    case PriceField => f.price
    case OriginalPriceField => f.originalPrice
    case StockField => f.stock
    case DescriptionField => f.description
    case ImageUrlField => f.imageUrl
  }

  /** `handleChange`: the named field takes the new text, every other field keeps its text. */
  function WithField(f: ProductFields, field: ProductField, value: string): (r: ProductFields)
    ensures FieldValue(r, field) == value
    ensures forall other :: other != field ==> FieldValue(r, other) == FieldValue(f, other)
  {
    match field
    case NameField => f.(name := value)
    case CategoryField => f.(category := value)
    case PriceField => f.(price := value)
    case OriginalPriceField => f.(originalPrice := value)
    case StockField => f.(stock := value)
    case DescriptionField => f.(description := value)
    case ImageUrlField => f.(imageUrl := value)
  }

  /** The empty form: every field blank except the category, the first catalog category's name, if any. */
  function BlankFields(categories: seq<Category>): (r: ProductFields)
    ensures forall field :: field != CategoryField ==> FieldValue(r, field) == ""
    ensures r.category == if |categories| > 0 then categories[0].name else ""
  {
    ProductFields("", if |categories| > 0 then categories[0].name else "", "", "", "", "", "")
  }

  /** `String(originalPrice || '')`: absent, zero and NaN all show as an empty field. */
  function OriginalPriceText(op: OptionalPrice): (t: string)
    ensures t == "" <==> !(op.Price? && op.cents != 0)
  {
    if op.Price? && op.cents != 0 then CentsToString(op.cents) else ""
  }

  /** The form prefilled from a product. */
  function FieldsOf(p: Product): ProductFields
  {
    ProductFields(p.name, p.category, CentsToString(p.price), OriginalPriceText(p.originalPrice),
                  IntToString(p.stock), p.description, p.imageUrl)
  }

  /** The `useEffect`: prefill from the product being edited, or reset for a new one. */
  function Prefill(productToEdit: Option<Product>, categories: seq<Category>): (r: ProductFields)
    ensures productToEdit.None? ==> r == BlankFields(categories)
  {
    match productToEdit
    case Some(p) => FieldsOf(p)
    case None => BlankFields(categories)
  }

  /** `parseFloat(price) || 0`: text that does not parse gives 0. */
  function ParsePrice(text: string): (cents: int)
    ensures ParseCents(text).None? ==> cents == 0
    ensures ParseCents(text).Some? ==> cents == ParseCents(text).value
  {
    match ParseCents(text)
    case Some(v) => v
    case None => 0
  }

  /** `originalPrice ? parseFloat(originalPrice) : undefined`: an empty field is absent, not zero. */
  function ParseOriginalPrice(text: string): (op: OptionalPrice)
    ensures op == NoPrice <==> text == ""
    ensures op == NotANumber <==> text != "" && ParseCents(text).None?
    ensures text != "" && ParseCents(text).Some? ==> op == Price(ParseCents(text).value)
  {
    if text == "" then NoPrice
    else match ParseCents(text)
      case Some(v) => Price(v)
      case None => NotANumber
  }

  /** `parseInt(stock) || 0`. */
  function ParseStock(text: string): (n: int)
    ensures ParseInteger(text).None? ==> n == 0
    ensures ParseInteger(text).Some? ==> n == ParseInteger(text).value
  {
    match ParseInteger(text)
    case Some(v) => v
    case None => 0
  }

  /**
   * `handleSubmit`: the product the form stands for. Identity, shop, images,
   * rating and review count come from the edited product; creating a product
   * gives no id, no images, zero rating and reviews, and a blank shop.
   */
  function Submit(f: ProductFields, productToEdit: Option<Product>): (r: Product)
    ensures r.name == f.name && r.category == f.category && r.description == f.description && r.imageUrl == f.imageUrl
    ensures r.price == ParsePrice(f.price) && r.stock == ParseStock(f.stock)
    ensures r.originalPrice == ParseOriginalPrice(f.originalPrice)
    ensures productToEdit.Some? ==>
      r.id == productToEdit.value.id && r.shop == productToEdit.value.shop && r.images == productToEdit.value.images
      && r.rating == productToEdit.value.rating && r.reviewCount == productToEdit.value.reviewCount
    ensures productToEdit.None? ==>
      r.id.None? && r.shop == Shop("", "") && r.images == [] && r.rating == 0 && r.reviewCount == 0
  {
    Product(
      id := if productToEdit.Some? then productToEdit.value.id else None,
      name := f.name,
      price := ParsePrice(f.price),
      originalPrice := ParseOriginalPrice(f.originalPrice),
      rating := if productToEdit.Some? then productToEdit.value.rating else 0,
      reviewCount := if productToEdit.Some? then productToEdit.value.reviewCount else 0,
      imageUrl := f.imageUrl,
      category := f.category,
      shop := if productToEdit.Some? then productToEdit.value.shop else Shop("", ""),
      images := if productToEdit.Some? then productToEdit.value.images else [],
      description := f.description,
      stock := ParseStock(f.stock)
    )
  }

  /** An original price the form keeps: a non-zero number; zero, NaN and absence all come back absent. */
  function Normalised(op: OptionalPrice): OptionalPrice
  {
    if op.Price? && op.cents != 0 then op else NoPrice
  }

  /** The texts the form shows read back as the numbers they came from. */
  lemma NumbersRoundTrip(p: Product)
    ensures ParsePrice(CentsToString(p.price)) == p.price
    ensures ParseOriginalPrice(OriginalPriceText(p.originalPrice)) == Normalised(p.originalPrice)
    ensures ParseStock(IntToString(p.stock)) == p.stock
  {
    CentsRoundTrip(p.price);
    if p.originalPrice.Price? && p.originalPrice.cents != 0 {
      CentsRoundTrip(p.originalPrice.cents);
    }
    ParseIntegerOfIntToString(p.stock, "");
    assert IntToString(p.stock) + "" == IntToString(p.stock);
  }

  /** Opening a product and saving without edits gives the product back, its original price normalised. */
  lemma EditRoundTrip(p: Product)
    ensures Submit(Prefill(Some(p), []), Some(p)) == p.(originalPrice := Normalised(p.originalPrice))
  {
    NumbersRoundTrip(p);
  }

  /** Editing only the price changes the price alone; in particular rating and review count are kept. */
  lemma PriceOnlyEdit(p: Product, text: string)
    ensures Submit(WithField(FieldsOf(p), PriceField, text), Some(p))
         == p.(price := ParsePrice(text), originalPrice := Normalised(p.originalPrice))
  {
    NumbersRoundTrip(p);
  }

  /** A new product whose price field does not parse is saved with price 0. */
  lemma CreateWithBadPrice(f: ProductFields)
    requires ParseCents(f.price).None?
    ensures Submit(f, None).price == 0 && Submit(f, None).id.None?
  {
  }

  /** The form's state slot. */
  class ProductFormState {
    var formData: ProductFields

    /** The first render: the blank form. */
    constructor(categories: seq<Category>)
      ensures formData == BlankFields(categories)
    {
      formData := BlankFields(categories);
    }

    /** The effect that runs when the edited product, the open flag or the categories change. */
    method Sync(productToEdit: Option<Product>, categories: seq<Category>)
      modifies this
      ensures formData == Prefill(productToEdit, categories)
    {
      match productToEdit {
        case Some(p) =>
          formData := FieldsOf(p);
        case None =>
          formData := BlankFields(categories);
      }
    }

    /** `handleChange`: one input changed. */
    method HandleChange(field: ProductField, value: string)
      modifies this
      ensures formData == WithField(old(formData), field, value)
      ensures FieldValue(formData, field) == value
      ensures forall other :: other != field ==> FieldValue(formData, other) == FieldValue(old(formData), other)
    {
      formData := WithField(formData, field, value);
    }
  }
}
