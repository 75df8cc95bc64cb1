/** The shopping cart of src/contexts/CartContext.js: an ordered list of line items keyed
    by `${product.id}-${size}-${color}`, the single-slot toast that every add writes, and
    the two folds `cartCount` and `cartTotal`. Prices and quantities are integers. */
module Cart {
  import opened Js
  import Seqs

  /** A product as `addToCart` receives it. `id` is the field the line key reads; the
      catalogue's records are identified by `_id` (here `catalogueId`) and usually have
      no `id` at all. */
  datatype Product = Product(
    id: Option<string>,
    catalogueId: string,
    name: string,
    price: int,
    stock: Option<int>,
    image: Option<string>)

  /** The options bag `{ size, color, quantity }`; a key left out is `None`. */
  datatype AddOptions = AddOptions(size: Option<string>, color: Option<string>, quantity: Option<Num>)

  /** A cart line: the product's fields with `options`, `quantity`, and `id` overwritten
      by the line key. */
  datatype CartItem = CartItem(id: string, product: Product, options: AddOptions, quantity: int)

  datatype ToastType = Success | Error

  const SizeRequired := "Please select a size"
  const ColorRequired := "Please select a color"
  const QuantityInvalid := "Please enter a valid quantity"

  function AddedMessage(name: string): string {
    name + " added to cart!"
  }

  /** `!quantity || isNaN(quantity) || quantity < 1` fails exactly for these. */
  predicate ValidQuantity(q: Option<Num>) {
    q.Some? && q.value.Int? && q.value.n >= 1
  }

  /** The message of the first check that fails, in the order size, colour, quantity. */
  function AddError(o: AddOptions): (r: Option<string>)
    ensures r.None? <==> Truthy(o.size) && Truthy(o.color) && ValidQuantity(o.quantity)
    ensures !Truthy(o.size) ==> r == Some(SizeRequired)
    ensures Truthy(o.size) && !Truthy(o.color) ==> r == Some(ColorRequired)
    ensures Truthy(o.size) && Truthy(o.color) && !ValidQuantity(o.quantity) ==> r == Some(QuantityInvalid)
  {
    if !Truthy(o.size) then Some(SizeRequired)
    else if !Truthy(o.color) then Some(ColorRequired)
    else if !ValidQuantity(o.quantity) then Some(QuantityInvalid)
    else None
  }

  /** How a template literal renders an optional field. */
  function FieldText(v: Option<string>): string {
    if v.Some? then v.value else "undefined"
  }

  /** `${product.id}-${size}-${color}` */
  function LineKey(p: Product, size: string, color: string): string {
    FieldText(p.id) + "-" + size + "-" + color
  }

  /** The line `addToCart` builds for options that passed validation. */
  function NewLine(p: Product, o: AddOptions): (line: CartItem)
    requires AddError(o).None?
    ensures line.id == LineKey(p, o.size.value, o.color.value) && line.quantity == o.quantity.value.n
    ensures line.product == p && line.quantity >= 1
  {
    CartItem(LineKey(p, o.size.value, o.color.value), p, o, o.quantity.value.n)
  }

  /** No two lines share a key. */
  ghost predicate UniqueIds(items: seq<CartItem>) {
    forall i, j :: 0 <= i < j < |items| ==> items[i].id != items[j].id
  }

  predicate HasLine(items: seq<CartItem>, id: string) {
    exists i :: 0 <= i < |items| && items[i].id == id
  }

  /** `items.findIndex(item => item.id === id)` */
  function FindIndex(items: seq<CartItem>, id: string): (r: int)
    ensures -1 <= r < |items|
    ensures r >= 0 ==> items[r].id == id && forall i :: 0 <= i < r ==> items[i].id != id
    ensures r == -1 ==> forall i :: 0 <= i < |items| ==> items[i].id != id
  {
    Seqs.FindIndex(items, (item: CartItem) => item.id == id)
  }

  /** The list `setCartItems` computes from the previous one: the quantity of the line with
      the same key grows, or the line is appended. */
  function MergeLine(items: seq<CartItem>, line: CartItem): seq<CartItem> {
    var idx := FindIndex(items, line.id);
    if idx >= 0 then items[idx := items[idx].(quantity := items[idx].quantity + line.quantity)]
    else items + [line]
  }

  /** The cart after `addToCart(p, o)`. */
  function Add(items: seq<CartItem>, p: Product, o: AddOptions): seq<CartItem> {
    if AddError(o).Some? then items else MergeLine(items, NewLine(p, o))
  }

  /** `removeFromCart(id)` */
  function Remove(items: seq<CartItem>, id: string): seq<CartItem> {
    Seqs.Filter(items, (item: CartItem) => item.id != id)
  }

  /** `updateQuantity(id, quantity)` */
  function SetQuantity(items: seq<CartItem>, id: string, quantity: int): seq<CartItem> {
    Seqs.UpdateWhere(items, (item: CartItem) => item.id == id,
                     (item: CartItem) => item.(quantity := quantity))
  }

  /** `cartCount`: the sum of the quantities. */
  function ItemCount(items: seq<CartItem>): int {
    if items == [] then 0 else ItemCount(items[..|items| - 1]) + items[|items| - 1].quantity
  }

  /** `cartTotal`: the sum of price times quantity. */
  function Subtotal(items: seq<CartItem>): int {
    if items == [] then 0
    else Subtotal(items[..|items| - 1]) + items[|items| - 1].product.price * items[|items| - 1].quantity
  }

  // ---- adding ---------------------------------------------------------------------------

  /** A rejected add leaves the cart as it was. */
  lemma AddRejected(items: seq<CartItem>, p: Product, o: AddOptions)
    requires AddError(o).Some?
    ensures Add(items, p, o) == items
  {
  }

  /** Adding to a key that is present grows that line's quantity by exactly the requested
      amount; the list keeps its length and every other line. */
  lemma AddToExistingLine(items: seq<CartItem>, p: Product, o: AddOptions, k: int)
    requires UniqueIds(items) && AddError(o).None?
    requires 0 <= k < |items| && items[k].id == LineKey(p, o.size.value, o.color.value)
    ensures |Add(items, p, o)| == |items|
    ensures Add(items, p, o)[k] == items[k].(quantity := items[k].quantity + o.quantity.value.n)
    ensures forall i :: 0 <= i < |items| && i != k ==> Add(items, p, o)[i] == items[i]
  {
    var idx := FindIndex(items, NewLine(p, o).id);
    assert idx == k;
  }

  /** Adding a new key appends one line at the end and keeps every earlier line. */
  lemma AddNewLine(items: seq<CartItem>, p: Product, o: AddOptions)
    requires AddError(o).None? && !HasLine(items, LineKey(p, o.size.value, o.color.value))
    ensures Add(items, p, o) == items + [NewLine(p, o)]
  {
  }

  /** Adding never creates a second line with the same key. */
  lemma AddKeepsIdsUnique(items: seq<CartItem>, p: Product, o: AddOptions)
    requires UniqueIds(items)
    ensures UniqueIds(Add(items, p, o))
  {
    if AddError(o).None? {
      var line := NewLine(p, o);
      var idx := FindIndex(items, line.id);
      var r := Add(items, p, o);
      if idx < 0 {
        assert r == items + [line];
        assert forall i :: 0 <= i < |items| ==> r[i] == items[i];
      } else {
        assert forall i :: 0 <= i < |r| ==> r[i].id == items[i].id;
      }
    }
  }

  lemma {:induction false} ItemCountAppend(a: seq<CartItem>, b: seq<CartItem>)
    ensures ItemCount(a + b) == ItemCount(a) + ItemCount(b)
    decreases |b|
  {
    if b != [] {
      assert (a + b)[..|a + b| - 1] == a + b[..|b| - 1];
      ItemCountAppend(a, b[..|b| - 1]);
    } else {
      assert a + b == a;
    }
  }

  lemma {:induction false} SubtotalAppend(a: seq<CartItem>, b: seq<CartItem>)
    ensures Subtotal(a + b) == Subtotal(a) + Subtotal(b)
    decreases |b|
  {
    if b != [] {
      assert (a + b)[..|a + b| - 1] == a + b[..|b| - 1];
      SubtotalAppend(a, b[..|b| - 1]);
    } else {
      assert a + b == a;
    }
  }

  /** Replacing one line changes the count by the difference of the two quantities and the
      total by the difference of the two amounts. */
  lemma SumsAfterReplace(items: seq<CartItem>, k: int, line: CartItem)
    requires 0 <= k < |items|
    ensures ItemCount(items[k := line]) == ItemCount(items) - items[k].quantity + line.quantity
    ensures Subtotal(items[k := line])
         == Subtotal(items) - items[k].product.price * items[k].quantity + line.product.price * line.quantity
  {
    var pre, post := items[..k], items[k + 1..];
    assert items == pre + [items[k]] + post;
    assert items[k := line] == pre + [line] + post;
    ItemCountAppend(pre + [items[k]], post);
    ItemCountAppend(pre, [items[k]]);
    ItemCountAppend(pre + [line], post);
    ItemCountAppend(pre, [line]);
    SubtotalAppend(pre + [items[k]], post);
    SubtotalAppend(pre, [items[k]]);
    SubtotalAppend(pre + [line], post);
    SubtotalAppend(pre, [line]);
    assert ItemCount([items[k]]) == items[k].quantity by {
      assert [items[k]][..0] == [];
    }
    assert ItemCount([line]) == line.quantity by {
      assert [line][..0] == [];
    }
    assert Subtotal([items[k]]) == items[k].product.price * items[k].quantity by {
      assert [items[k]][..0] == [];
    }
    assert Subtotal([line]) == line.product.price * line.quantity by {
      assert [line][..0] == [];
    }
  }

  /** A successful add raises `cartCount` by exactly the requested quantity. */
  lemma AddRaisesCount(items: seq<CartItem>, p: Product, o: AddOptions)
    requires AddError(o).None?
    ensures ItemCount(Add(items, p, o)) == ItemCount(items) + o.quantity.value.n
  {
    var line := NewLine(p, o);
    var idx := FindIndex(items, line.id);
    if idx >= 0 {
      SumsAfterReplace(items, idx, items[idx].(quantity := items[idx].quantity + line.quantity));
    } else {
      ItemCountAppend(items, [line]);
      assert [line][..0] == [];
    }
  }

  /** Adding the same product, size and colour again and again, starting from a cart without
      that key, leaves exactly one line for it, whose quantity is the sum of the requested
      quantities; the rest of the cart is untouched. */
  function AddRepeatedly(items: seq<CartItem>, p: Product, o: AddOptions, qs: seq<int>): seq<CartItem>
    decreases |qs|
  {
    if qs == [] then items
    else AddRepeatedly(Add(items, p, o.(quantity := Some(Int(qs[0])))), p, o, qs[1..])
  }

  function Sum(qs: seq<int>): int {
    if qs == [] then 0 else qs[0] + Sum(qs[1..])
  }

  lemma {:induction false} RepeatedAddsMerge(items: seq<CartItem>, p: Product, o: AddOptions, qs: seq<int>)
    requires UniqueIds(items) && Truthy(o.size) && Truthy(o.color)
    requires |qs| > 0 && forall i :: 0 <= i < |qs| ==> qs[i] >= 1
    requires !HasLine(items, LineKey(p, o.size.value, o.color.value))
    ensures var r := AddRepeatedly(items, p, o, qs);
      |r| == |items| + 1 && r[..|items|] == items
      && r[|items|].id == LineKey(p, o.size.value, o.color.value)
      && r[|items|].quantity == Sum(qs)
  {
    var o1 := o.(quantity := Some(Int(qs[0])));
    AddNewLine(items, p, o1);
    var first := Add(items, p, o1);
    AddKeepsIdsUnique(items, p, o1);
    RepeatedAddsGrow(first, p, o, qs[1..], |items|);
  }

  /** Further adds of a key that sits at index `k` only grow that line. */
  lemma {:induction false} RepeatedAddsGrow(items: seq<CartItem>, p: Product, o: AddOptions, qs: seq<int>, k: int)
    requires UniqueIds(items) && Truthy(o.size) && Truthy(o.color)
    requires forall i :: 0 <= i < |qs| ==> qs[i] >= 1
    requires 0 <= k < |items| && items[k].id == LineKey(p, o.size.value, o.color.value)
    ensures var r := AddRepeatedly(items, p, o, qs);
      |r| == |items| && (forall i :: 0 <= i < |items| && i != k ==> r[i] == items[i])
      && r[k].id == items[k].id && r[k].quantity == items[k].quantity + Sum(qs)
    decreases |qs|
  {
    if qs != [] {
      var o1 := o.(quantity := Some(Int(qs[0])));
      AddToExistingLine(items, p, o1, k);
      var next := Add(items, p, o1);
      AddKeepsIdsUnique(items, p, o1);
      RepeatedAddsGrow(next, p, o, qs[1..], k);
    }
  }

  /** Catalogue products carry `_id` but no `id`, so two different products in the same size
      and colour get the same line key: adding the second grows the first one's line. */
  lemma CatalogueProductsShareLine(p1: Product, p2: Product, o1: AddOptions, o2: AddOptions)
    requires p1.id.None? && p2.id.None? && p1.catalogueId != p2.catalogueId
    requires AddError(o1).None? && AddError(o2).None?
    requires o1.size == o2.size && o1.color == o2.color
    ensures var r := Add(Add([], p1, o1), p2, o2);
      |r| == 1 && r[0].product == p1 && r[0].quantity == o1.quantity.value.n + o2.quantity.value.n
  {
    var first := Add([], p1, o1);
    assert first == [NewLine(p1, o1)];
    AddToExistingLine(first, p2, o2, 0);
  }

  // ---- removing and updating ------------------------------------------------------------

  /** `removeFromCart(id)` drops exactly the lines with that key and keeps the others in
      order; when no line has the key it changes nothing. */
  lemma RemoveDropsExactly(items: seq<CartItem>, id: string)
    ensures forall i :: 0 <= i < |Remove(items, id)| ==> Remove(items, id)[i].id != id
    ensures forall i :: 0 <= i < |items| && items[i].id != id ==> items[i] in Remove(items, id)
    ensures Seqs.Subsequence(Remove(items, id), items)
    ensures !HasLine(items, id) ==> Remove(items, id) == items
  {
    var keep := (item: CartItem) => item.id != id;
    Seqs.FilterIsSubsequence(items, keep);
    if !HasLine(items, id) {
      Seqs.FilterKeepsAll(items, keep);
    }
  }

  /** Removing lines never makes two keys clash. */
  lemma {:induction false} RemoveKeepsIdsUnique(items: seq<CartItem>, id: string)
    requires UniqueIds(items)
    ensures UniqueIds(Remove(items, id))
  {
    if items != [] {
      var keep := (item: CartItem) => item.id != id;
      var rest := Remove(items[1..], id);
      RemoveKeepsIdsUnique(items[1..], id);
      var r := Remove(items, id);
      if keep(items[0]) {
        assert r == [items[0]] + rest;
        forall j | 0 <= j < |rest|
          ensures rest[j].id != items[0].id
        {
          var m :| 0 <= m < |items[1..]| && items[1..][m] == rest[j];
          assert items[m + 1] == rest[j];
        }
      } else {
        assert r == rest;
      }
    }
  }

  /** In a cart with distinct keys, removing the key of line `k` leaves the other lines,
      and lowers the count by that line's quantity. */
  lemma RemoveLine(items: seq<CartItem>, k: int)
    requires UniqueIds(items) && 0 <= k < |items|
    ensures Remove(items, items[k].id) == items[..k] + items[k + 1..]
    ensures ItemCount(Remove(items, items[k].id)) == ItemCount(items) - items[k].quantity
  {
    RemoveAt(items, k);
    ItemCountAround(items, k);
    ItemCountAppend(items[..k], items[k + 1..]);
  }

  /** With distinct keys, line `k` is the only one the filter drops. */
  lemma RemoveAt(items: seq<CartItem>, k: int)
    requires UniqueIds(items) && 0 <= k < |items|
    ensures Remove(items, items[k].id) == items[..k] + items[k + 1..]
  {
    Seqs.FilterDropsOne(items, (item: CartItem) => item.id != items[k].id, k);
  }

  /** The count splits around line `k`. */
  lemma ItemCountAround(items: seq<CartItem>, k: int)
    requires 0 <= k < |items|
    ensures ItemCount(items) == ItemCount(items[..k]) + items[k].quantity + ItemCount(items[k + 1..])
  {
    var a, x, b := items[..k], items[k], items[k + 1..];
    assert items == a + [x] + b;
    ItemCountAppend(a + [x], b);
    ItemCountAppend(a, [x]);
    assert [x][..0] == [];
  }

  /** `updateQuantity(id, q)` sets the quantity of the matching lines to `q`, with no lower
      bound, and changes nothing else; keys stay as they were. */
  lemma SetQuantityChangesOnlyMatching(items: seq<CartItem>, id: string, q: int)
    ensures |SetQuantity(items, id, q)| == |items|
    ensures forall i :: 0 <= i < |items| ==>
      SetQuantity(items, id, q)[i] == if items[i].id == id then items[i].(quantity := q) else items[i]
    ensures UniqueIds(items) ==> UniqueIds(SetQuantity(items, id, q))
  {
  }

  /** On a cart with distinct keys, setting line `k` to `q` moves the count by the
      difference. */
  lemma SetQuantityCount(items: seq<CartItem>, k: int, q: int)
    requires UniqueIds(items) && 0 <= k < |items|
    ensures ItemCount(SetQuantity(items, items[k].id, q)) == ItemCount(items) - items[k].quantity + q
  {
    assert SetQuantity(items, items[k].id, q) == items[k := items[k].(quantity := q)];
    SumsAfterReplace(items, k, items[k].(quantity := q));
  }

  /** Every line holds at least one unit. The store itself does not enforce this. */
  ghost predicate PositiveQuantities(items: seq<CartItem>) {
    forall i :: 0 <= i < |items| ==> items[i].quantity >= 1
  }

  lemma AddKeepsPositive(items: seq<CartItem>, p: Product, o: AddOptions)
    requires PositiveQuantities(items)
    ensures PositiveQuantities(Add(items, p, o))
  {
  }

  lemma RemoveKeepsPositive(items: seq<CartItem>, id: string)
    requires PositiveQuantities(items)
    ensures PositiveQuantities(Remove(items, id))
  {
  }

  /** The store sets whatever quantity it is given: a call with 0 leaves a line with no units. */
  lemma SetQuantityHasNoLowerBound(items: seq<CartItem>, k: int)
    requires 0 <= k < |items|
    ensures SetQuantity(items, items[k].id, 0)[k].quantity == 0
    ensures !PositiveQuantities(SetQuantity(items, items[k].id, 0))
  {
  }

  // ---- the store ------------------------------------------------------------------------

  /** The `CartProvider` state: `cartItems` and the three toast slots. */
  class CartStore {
    var items: seq<CartItem>
    var showToast: bool
    var toastMessage: string
    var toastType: ToastType

    ghost predicate Valid()
      reads this
    {
      UniqueIds(items)
    }

    constructor ()
      ensures Valid()
      ensures items == [] && !showToast && toastMessage == "" && toastType == Success
    {
      items := [];
      showToast := false;
      toastMessage := "";
      toastType := Success;
    }

    /** Write one message into the toast slot, replacing whatever it held. */
    method ShowMessage(message: string, kind: ToastType)
      modifies this
      ensures items == old(items)
      ensures showToast && toastMessage == message && toastType == kind
    {
      toastMessage := message;
      toastType := kind;
      showToast := true;
    }

    /** `addToCart(product, options)` */
    method AddToCart(p: Product, o: AddOptions) returns (ok: bool)
      requires Valid()
      modifies this
      ensures Valid()
      ensures ok <==> AddError(o).None?
      ensures items == Add(old(items), p, o)
      ensures showToast
      ensures !ok ==> toastType == Error && toastMessage == AddError(o).value
      ensures ok ==> toastType == Success && toastMessage == AddedMessage(p.name)
    {
      if !Truthy(o.size) {
        ShowMessage(SizeRequired, Error);
        return false;
      }
      if !Truthy(o.color) {
        ShowMessage(ColorRequired, Error);
        return false;
      }
      if !ValidQuantity(o.quantity) {
        ShowMessage(QuantityInvalid, Error);
        return false;
      }
      ShowMessage(AddedMessage(p.name), Success);
      var line := CartItem(LineKey(p, o.size.value, o.color.value), p, o, o.quantity.value.n);
      var idx := FindIndex(items, line.id);
      if idx >= 0 {
        items := items[idx := items[idx].(quantity := items[idx].quantity + line.quantity)];
      } else {
        items := items + [line];
      }
      assert items == Add(old(items), p, o);
      AddKeepsIdsUnique(old(items), p, o);
      toastMessage := AddedMessage(p.name);
      showToast := true;
      return true;
    }

    /** `removeFromCart(id)` */
    method RemoveFromCart(id: string)
      requires Valid()
      modifies this
      ensures Valid()
      ensures items == Remove(old(items), id)
      ensures showToast == old(showToast) && toastMessage == old(toastMessage) && toastType == old(toastType)
    {
      RemoveKeepsIdsUnique(items, id);
      items := Remove(items, id);
    }

    /** `updateQuantity(id, quantity)` */
    method UpdateQuantity(id: string, quantity: int)
      requires Valid()
      modifies this
      ensures Valid()
      ensures items == SetQuantity(old(items), id, quantity)
      ensures showToast == old(showToast) && toastMessage == old(toastMessage) && toastType == old(toastType)
    {
      SetQuantityChangesOnlyMatching(items, id, quantity);
      items := SetQuantity(items, id, quantity);
    }

    /** `setShowToast(v)`; the toast component calls it with false to dismiss. */
    method SetShowToast(v: bool)
      modifies this
      ensures showToast == v
      ensures items == old(items) && toastMessage == old(toastMessage) && toastType == old(toastType)
    {
      showToast := v;
    }

    /** `cartCount` */
    function CartCount(): int
      reads this
    {
      ItemCount(items)
    }

    /** `cartTotal` */
    function CartTotal(): int
      reads this
    {
      Subtotal(items)
    }
  }
}
