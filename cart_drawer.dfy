/** The cart drawer of src/components/CartDrawer.js: what it shows for a cart, and what its
    per-line buttons ask the cart store to do. */
module CartDrawer {
  import opened Js
  import opened Cart

  /** One rendered cart line. `amount` is `item.price * item.quantity`. */
  datatype LineView = LineView(id: string, name: string, image: Option<string>,
                               optionsText: string, quantity: int, amount: int)

  /** `Hidden` is the `null` a closed drawer renders. `emptyMessage` is shown for an empty
      cart and `footerTotal` (`cartTotal`) only for a non-empty one. */
  datatype View = Hidden | Drawer(lines: seq<LineView>, emptyMessage: Option<string>, footerTotal: Option<int>)

  const EmptyCart := "Your cart is empty"

  /** `Size: s`, then ` | ` when both are set, then `Color: c`; a falsy part renders nothing. */
  function OptionsText(o: AddOptions): string {
    (if Truthy(o.size) then "Size: " + o.size.value else "")
    + (if Truthy(o.size) && Truthy(o.color) then " | " else "")
    + (if Truthy(o.color) then "Color: " + o.color.value else "")
  }

  function ViewLine(item: CartItem): (v: LineView)
    ensures v.id == item.id && v.quantity == item.quantity
    ensures v.amount == item.product.price * item.quantity
  {
    LineView(item.id, item.product.name,
             if Truthy(item.product.image) then item.product.image else None,
             OptionsText(item.options), item.quantity, item.product.price * item.quantity)
  }

  function ViewLines(items: seq<CartItem>): (r: seq<LineView>)
    ensures |r| == |items|
    ensures forall i :: 0 <= i < |items| ==> r[i] == ViewLine(items[i])
  {
    if items == [] then [] else [ViewLine(items[0])] + ViewLines(items[1..])
  }

  function Render(isOpen: bool, items: seq<CartItem>): (v: View)
    ensures !isOpen <==> v.Hidden?
    ensures isOpen ==> v.lines == ViewLines(items)
    ensures isOpen ==> (v.emptyMessage.Some? <==> items == [])
    ensures isOpen && items == [] ==> v.emptyMessage == Some(EmptyCart)
    ensures isOpen ==> (v.footerTotal.Some? <==> items != [])
    ensures isOpen && items != [] ==> v.footerTotal == Some(Subtotal(items))
  {
    if !isOpen then Hidden
    else if items == [] then Drawer([], Some(EmptyCart), None)
    else Drawer(ViewLines(items), None, Some(Subtotal(items)))
  }

  function SumAmounts(lines: seq<LineView>): int {
    if lines == [] then 0 else SumAmounts(lines[..|lines| - 1]) + lines[|lines| - 1].amount
  }

  /** The footer total equals the sum of the amounts printed on the lines. */
  lemma {:induction false} FooterIsSumOfLines(items: seq<CartItem>)
    ensures SumAmounts(ViewLines(items)) == Subtotal(items)
    decreases |items|
  {
    if items != [] {
      var init := items[..|items| - 1];
      FooterIsSumOfLines(init);
      assert ViewLines(items)[..|items| - 1] == ViewLines(init);
    }
  }

  /** The three buttons on each line. */
  datatype Button = Minus | Plus | RemoveButton

  /** What pressing `b` on line `k` does to the cart. */
  function Press(items: seq<CartItem>, k: int, b: Button): seq<CartItem>
    requires 0 <= k < |items|
  {
    var item := items[k];
    match b
    case Minus => SetQuantity(items, item.id, if item.quantity - 1 > 1 then item.quantity - 1 else 1)
    case Plus => SetQuantity(items, item.id, item.quantity + 1)
    case RemoveButton => Remove(items, item.id)
  }

  /** No button of the drawer can bring a line below one unit, and none makes keys clash. */
  lemma PressKeepsCartWellFormed(items: seq<CartItem>, k: int, b: Button)
    requires 0 <= k < |items| && PositiveQuantities(items) && UniqueIds(items)
    ensures PositiveQuantities(Press(items, k, b))
    ensures UniqueIds(Press(items, k, b))
  {
    match b
    case Minus =>
      SetQuantityChangesOnlyMatching(items, items[k].id, if items[k].quantity - 1 > 1 then items[k].quantity - 1 else 1);
    case Plus =>
      SetQuantityChangesOnlyMatching(items, items[k].id, items[k].quantity + 1);
    case RemoveButton =>
      RemoveKeepsPositive(items, items[k].id);
      RemoveKeepsIdsUnique(items, items[k].id);
  }

  /** Plus adds one unit to the cart's count. */
  lemma PlusAddsOne(items: seq<CartItem>, k: int)
    requires 0 <= k < |items| && UniqueIds(items)
    ensures ItemCount(Press(items, k, Plus)) == ItemCount(items) + 1
  {
    SetQuantityCount(items, k, items[k].quantity + 1);
  }

  /** Minus takes one unit away, unless the line holds a single unit: then nothing changes. */
  lemma MinusTakesOne(items: seq<CartItem>, k: int)
    requires 0 <= k < |items| && UniqueIds(items) && items[k].quantity >= 1
    ensures items[k].quantity > 1 ==> ItemCount(Press(items, k, Minus)) == ItemCount(items) - 1
    ensures items[k].quantity == 1 ==> Press(items, k, Minus) == items
  {
    if items[k].quantity > 1 {
      SetQuantityCount(items, k, items[k].quantity - 1);
    } else {
      var r := Press(items, k, Minus);
      SetQuantityChangesOnlyMatching(items, items[k].id, 1);
      assert forall i :: 0 <= i < |items| ==> r[i] == items[i];
    }
  }

  /** Remove takes away all of the line's units. */
  lemma RemoveTakesLine(items: seq<CartItem>, k: int)
    requires 0 <= k < |items| && UniqueIds(items)
    ensures Press(items, k, RemoveButton) == items[..k] + items[k + 1..]
    ensures ItemCount(Press(items, k, RemoveButton)) == ItemCount(items) - items[k].quantity
  {
    RemoveLine(items, k);
  }
}
