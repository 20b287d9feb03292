/**
 * The cart drawer (Cart.tsx): the subtotal over the cart's lines, the
 * quantity and removal requests each line's buttons send, and which parts of
 * the drawer are shown.
 */
module Cart {
  import opened Types
  import opened Sequences

  /** A product in the cart with the quantity chosen. */
  datatype CartItem = CartItem(product: Product, quantity: int)

  /** What a line's buttons ask the storefront to do, by product id. */
  datatype CartRequest = UpdateQuantity(productId: Option<string>, newQuantity: int) | RemoveItem(productId: Option<string>)

  /** What the drawer shows. */
  datatype CartPanel = CartPanel(emptyMessage: bool, itemList: bool, footer: bool, subtotal: int)

  function ItemAmount(item: CartItem): int
  {
    item.product.price * item.quantity
  }

  /** The `reduce` over the cart: `price * quantity` summed over the lines, in cents. */
  function Subtotal(items: seq<CartItem>): int
  {
    SumOf(items, ItemAmount)
  }

  /** The minus button: the line's quantity less one, for that line's product. */
  function MinusRequest(item: CartItem): (r: CartRequest)
    ensures r.UpdateQuantity? && r.productId == item.product.id && r.newQuantity + 1 == item.quantity
  {
    UpdateQuantity(item.product.id, item.quantity - 1)
  }

  /** The plus button: the line's quantity plus one, for that line's product. */
  function PlusRequest(item: CartItem): (r: CartRequest)
    ensures r.UpdateQuantity? && r.productId == item.product.id && r.newQuantity == item.quantity + 1
  {
    UpdateQuantity(item.product.id, item.quantity + 1)
  }

  /** The bin button: removal of exactly that line's product. */
  function RemoveRequest(item: CartItem): (r: CartRequest)
    ensures r.RemoveItem? && r.productId == item.product.id
  {
    RemoveItem(item.product.id)
  }

  /** The drawer: the empty message for an empty cart, otherwise the lines and the subtotal footer. */
  function Panel(items: seq<CartItem>): (p: CartPanel)
    ensures p.emptyMessage <==> |items| == 0
    ensures p.itemList <==> |items| > 0
    ensures p.footer <==> |items| > 0
    ensures p.subtotal == Subtotal(items)
  {
    CartPanel(|items| == 0, |items| != 0, |items| > 0, Subtotal(items))
  }

  /** The drawer shows exactly one of the empty message and the footer. */
  lemma PanelExclusive(items: seq<CartItem>)
    ensures Panel(items).emptyMessage != Panel(items).footer
  {
  }

  /** The subtotal of two carts put together is the sum of their subtotals; an empty cart's is 0. */
  lemma SubtotalConcat(a: seq<CartItem>, b: seq<CartItem>)
    ensures Subtotal(a + b) == Subtotal(a) + Subtotal(b)
    ensures Subtotal([]) == 0
  {
    SumOfConcat(a, b, ItemAmount);
  }

  /** With prices and quantities never negative, the subtotal is not negative. */
  lemma SubtotalNonNegative(items: seq<CartItem>)
    requires forall i :: 0 <= i < |items| ==> items[i].product.price >= 0 && items[i].quantity >= 0
    ensures Subtotal(items) >= 0
  {
    forall i | 0 <= i < |items|
      ensures ItemAmount(items[i]) >= 0
    {
      assert items[i].product.price * items[i].quantity >= 0;
    }
    SumOfNonNegative(items, ItemAmount);
  }

  /** Two lines, 10.00 twice and 5.50 once, add up to 25.50. */
  lemma SubtotalExample(p: Product, q: Product)
    requires p.price == 1000 && q.price == 550
    ensures Subtotal([CartItem(p, 2), CartItem(q, 1)]) == 2550
  {
    var items := [CartItem(p, 2), CartItem(q, 1)];
    var first := [CartItem(p, 2)];
    assert first[..0] == [];
    assert ItemAmount(CartItem(p, 2)) == 2000;
    assert SumOf(first, ItemAmount) == SumOf(first[..0], ItemAmount) + ItemAmount(first[0]);
    assert Subtotal(first) == 2000;
    assert items[..1] == first;
    assert ItemAmount(CartItem(q, 1)) == 550;
  }
}
