/**
 * The product page (ProductDetail.tsx): the quantity counter that never drops
 * below one, the discount badge, the line total, the star row, the image
 * gallery with its zoom toggle and the guard in front of the shipping estimate.
 */
module ProductDetail {
  import opened Types
  import Cart

  /**
   * `Math.round(n / d)` for a positive divisor: the nearest integer, halves
   * rounded up, i.e. `r - 1/2 <= n/d < r + 1/2`.
   */
  function RoundHalfUp(n: int, d: int): (r: int)
    requires d > 0
    ensures 2 * d * r - d <= 2 * n < 2 * d * r + d
  {
    var q := (2 * n + d) / (2 * d);
    assert 2 * n + d == 2 * d * q + (2 * n + d) % (2 * d);
    q
  }

  /** `Math.round(n / d)` for any non-zero divisor. */
  function RoundQuotient(n: int, d: int): int
    requires d != 0
  {
    if d > 0 then RoundHalfUp(n, d) else RoundHalfUp(-n, -d)
  }

  /**
   * `discountPercent`: the saving relative to the original price, in whole
   * percent; 0 when the original price is absent, zero or NaN.
   */
  function DiscountPercent(price: int, originalPrice: OptionalPrice): (pct: int)
    ensures !(originalPrice.Price? && originalPrice.cents != 0) ==> pct == 0
  {
    if originalPrice.Price? && originalPrice.cents != 0 then
      RoundQuotient((originalPrice.cents - price) * 100, originalPrice.cents)
    else 0
  }

  /** The "% OFF" badge is shown only for a positive discount. */
  predicate ShowsDiscountBadge(p: Product)
  {
    DiscountPercent(p.price, p.originalPrice) > 0
  }

  /** Sign facts about a product with a positive factor. */
  lemma PositiveFactor(d: int, x: int)
    requires d > 0
    ensures x >= 1 ==> d * x >= d
    ensures x <= 0 ==> d * x <= 0
    ensures d * x <= 0 ==> x <= 0
    ensures d * x < 0 ==> x < 0
  {
  }

  /** Rounding a quotient that lies between `lo` and `hi` stays between them. */
  lemma RoundWithin(n: int, d: int, lo: int, hi: int)
    requires d > 0 && lo * d <= n <= hi * d
    ensures lo <= RoundHalfUp(n, d) <= hi
  {
    var r := RoundHalfUp(n, d);
    var m := d * r;
    assert 2 * d * r == 2 * m;
    assert d * (2 * r - 1 - 2 * hi) == 2 * m - d - 2 * (hi * d);
    PositiveFactor(d, 2 * r - 1 - 2 * hi);
    assert d * (2 * lo - 2 * r - 1) == 2 * (lo * d) - 2 * m - d;
    PositiveFactor(d, 2 * lo - 2 * r - 1);
  }

  /** A sale price between 0 and the original price gives a discount between 0 and 100 percent. */
  lemma DiscountBounds(price: int, orig: int)
    requires 0 <= price < orig
    ensures 0 <= DiscountPercent(price, Price(orig)) <= 100
    ensures price == 0 ==> DiscountPercent(price, Price(orig)) == 100
  {
    var n := (orig - price) * 100;
    assert 0 * orig <= n <= 100 * orig;
    RoundWithin(n, orig, 0, 100);
    if price == 0 {
      assert 100 * orig <= n;
      RoundWithin(n, orig, 100, 100);
    }
  }

  /**
   * With a positive original price, the badge shows exactly when the saving
   * is at least half a percent of it; so never when the price is not below it.
   */
  lemma BadgeExactly(price: int, orig: int)
    requires orig > 0
    ensures DiscountPercent(price, Price(orig)) > 0 <==> 200 * (orig - price) >= orig
    ensures orig <= price ==> DiscountPercent(price, Price(orig)) <= 0
  {
    var n := (orig - price) * 100;
    var r := RoundHalfUp(n, orig);
    assert DiscountPercent(price, Price(orig)) == r;
    var m := orig * r;
    assert 2 * orig * r == 2 * m;
    PositiveFactor(orig, r);
  }

  /** The total next to the counter, before formatting: price times quantity, in cents. */
  function Total(p: Product, quantity: int): int
  {
    p.price * quantity
  }

  /** The page's total is what the cart would charge for the same product and quantity. */
  lemma TotalIsCartSubtotal(p: Product, quantity: int)
    ensures Total(p, quantity) == Cart.Subtotal([Cart.CartItem(p, quantity)])
  {
    var items := [Cart.CartItem(p, quantity)];
    assert items[..0] == [];
    assert Cart.Subtotal(items) == Cart.Subtotal(items[..0]) + Cart.ItemAmount(items[0]);
  }

  /** The counter's update: the new quantity if positive, otherwise 1. */
  function NextQuantity(prev: int, amount: int): (q: int)
    ensures q >= 1
    ensures prev + amount > 0 ==> q == prev + amount
    ensures prev + amount <= 0 ==> q == 1
  {
    if prev + amount > 0 then prev + amount else 1
  }

  /** The minus button at 1 leaves 1; from a valid count, minus then plus restores it when above 1. */
  lemma QuantityButtons(q: int)
    requires q >= 1
    ensures NextQuantity(q, -1) == if q == 1 then 1 else q - 1
    ensures NextQuantity(q, 1) == q + 1
    ensures q > 1 ==> NextQuantity(NextQuantity(q, -1), 1) == q
  {
  }

  /** Star `i` of `count` stars is filled when `i` is below the rounded rating. */
  function StarRow(rounded: int, count: nat): (row: seq<bool>)
    ensures |row| == count
    ensures forall i :: 0 <= i < count ==> row[i] == (i < rounded)
  {
    if count == 0 then [] else StarRow(rounded, count - 1) + [count - 1 < rounded]
  }

  /** The five stars for a rating given in tenths: `i < Math.round(rating)`. */
  function Stars(rating: int): seq<bool>
  {
    StarRow(RoundHalfUp(rating, 10), 5)
  }

  function CountFilled(row: seq<bool>): nat
  {
    if row == [] then 0 else CountFilled(row[..|row| - 1]) + (if row[|row| - 1] then 1 else 0)
  }

  function Clamp(x: int, lo: int, hi: int): int
  {
    if x < lo then lo else if x > hi then hi else x
  }

  lemma {:induction false} StarRowCount(rounded: int, count: nat)
    ensures CountFilled(StarRow(rounded, count)) == Clamp(rounded, 0, count)
  {
    if count > 0 {
      StarRowCount(rounded, count - 1);
      var row := StarRow(rounded, count);
      assert row[..count - 1] == StarRow(rounded, count - 1);
    }
  }

  /** The number of filled stars is the rounded rating clamped to 0..5, and the filled stars come first. */
  lemma StarsFilled(rating: int)
    ensures CountFilled(Stars(rating)) == Clamp(RoundHalfUp(rating, 10), 0, 5)
    ensures forall i, j :: 0 <= i < j < 5 && Stars(rating)[j] ==> Stars(rating)[i]
  {
    StarRowCount(RoundHalfUp(rating, 10), 5);
  }

  /** What the shipping estimate shows once it arrives. */
  datatype ShippingInfo = ShippingInfo(cost: int, date: string)

  /** The page's state slots. */
  class ProductDetailState {
    const product: Product
    var activeImage: Option<string>
    var quantity: int
    var isZoomed: bool
    var postalCode: string
    var isCalculatingShipping: bool
    var shippingInfo: Option<ShippingInfo>

    ghost predicate Valid()
      reads this
    {
      quantity >= 1
    }

    /** The first render: the first image (none for a product without images), one unit, no zoom. */
    constructor(p: Product)
      ensures Valid()
      ensures product == p && quantity == 1 && !isZoomed
      ensures activeImage == if |p.images| > 0 then Some(p.images[0]) else None
      ensures postalCode == "" && !isCalculatingShipping && shippingInfo.None?
    {
      product := p;
      activeImage := if |p.images| > 0 then Some(p.images[0]) else None;
      quantity := 1;
      isZoomed := false;
      postalCode := "";
      isCalculatingShipping := false;
      shippingInfo := None;
    }

    /** `handleQuantityChange`. */
    method HandleQuantityChange(amount: int)
      requires Valid()
      modifies this
      ensures Valid()
      ensures quantity == NextQuantity(old(quantity), amount)
      ensures activeImage == old(activeImage) && isZoomed == old(isZoomed)
      ensures postalCode == old(postalCode) && isCalculatingShipping == old(isCalculatingShipping)
      ensures shippingInfo == old(shippingInfo)
    {
      quantity := NextQuantity(quantity, amount);
    }

    /** Clicking thumbnail `index`: it becomes the main image and zoom is switched off. */
    method SelectThumbnail(index: int)
      requires Valid() && 0 <= index < |product.images|
      modifies this
      ensures Valid()
      ensures activeImage == Some(product.images[index]) && !isZoomed
      ensures quantity == old(quantity) && postalCode == old(postalCode)
      ensures isCalculatingShipping == old(isCalculatingShipping) && shippingInfo == old(shippingInfo)
    {
      activeImage := Some(product.images[index]);
      isZoomed := false;
    }

    /** Clicking the main image (or pressing Enter on it) toggles zoom. */
    method ToggleZoom()
      requires Valid()
      modifies this
      ensures Valid()
      ensures isZoomed == !old(isZoomed)
      ensures activeImage == old(activeImage) && quantity == old(quantity) && postalCode == old(postalCode)
      ensures isCalculatingShipping == old(isCalculatingShipping) && shippingInfo == old(shippingInfo)
    {
      isZoomed := !isZoomed;
    }

    method SetPostalCode(text: string)
      requires Valid()
      modifies this
      ensures Valid()
      ensures postalCode == text
      ensures activeImage == old(activeImage) && quantity == old(quantity) && isZoomed == old(isZoomed)
      ensures isCalculatingShipping == old(isCalculatingShipping) && shippingInfo == old(shippingInfo)
    {
      postalCode := text;
    }

    /**
     * `handleCalculateShipping` up to the simulated request: nothing happens
     * without a postal code; otherwise the page waits and clears the old estimate.
     */
    method CalculateShipping()
      requires Valid()
      modifies this
      ensures Valid()
      ensures old(postalCode) == "" ==> unchanged(this)
      ensures old(postalCode) != "" ==> isCalculatingShipping && shippingInfo.None?
      ensures activeImage == old(activeImage) && quantity == old(quantity)
      ensures isZoomed == old(isZoomed) && postalCode == old(postalCode)
    {
      if postalCode == "" {
        return;
      }
      isCalculatingShipping := true;
      shippingInfo := None;
    }

    /** "Add to cart" hands over the product and the counter's quantity, which is at least 1. */
    method AddToCart() returns (p: Product, q: int)
      requires Valid()
      ensures p == product && q == quantity && q >= 1
    {
      p, q := product, quantity;
    }
  }
}
