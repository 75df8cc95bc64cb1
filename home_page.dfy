/** The storefront page of src/pages/HomePage.jsx: category tabs, the product grid with
    8 products per page and stock badges, and the options modal whose fields are checked
    on blur and whose "Add to Cart" button checks the stock and hands over to the cart
    store. The two fetches are modelled by the responses they deliver. */
module HomePage {
  import opened Js
  import opened Cart
  import Pagination
  import Seqs

  const ProductsPerPage := 8

  // ---- stock --------------------------------------------------------------------------

  /** `isProductInStock`: `product.stock && product.stock > 0`. */
  predicate InStock(p: Product) {
    p.stock.Some? && p.stock.value > 0
  }

  /** The badge `getStockStatus` picks. */
  datatype StockBadge = SoldOut | OnlyLeft(n: int) | Available

  function StockStatus(p: Product): (r: StockBadge)
    ensures r == SoldOut <==> p.stock.None? || p.stock.value == 0
    ensures r.OnlyLeft? ==> p.stock == Some(r.n) && r.n <= 5
    ensures r == Available ==> p.stock.Some? && p.stock.value > 5
  {
    if p.stock.None? || p.stock.value == 0 then SoldOut
    else if p.stock.value <= 5 then OnlyLeft(p.stock.value)
    else Available
  }

  function BadgeText(b: StockBadge): string {
    match b
    case SoldOut => "Sold Out"
    case OnlyLeft(n) => "Only " + IntToString(n) + " left"
    case Available => "Available"
  }

  /** With a stock count that is absent or not negative, the badge says "Sold Out" exactly
      when the "Select Options" button is disabled, and a product in stock shows how many are
      left up to 5. A negative count is not in stock but is shown as "Only n left". */
  lemma BadgeAgreesWithButton(p: Product)
    ensures (p.stock.None? || p.stock.value >= 0) ==> (StockStatus(p) == SoldOut <==> !InStock(p))
    ensures InStock(p) && p.stock.value <= 5 ==> StockStatus(p) == OnlyLeft(p.stock.value)
    ensures p.stock.Some? && p.stock.value < 0 ==> !InStock(p) && StockStatus(p) == OnlyLeft(p.stock.value)
  {
  }

  /** `qty > product.stock`: false when either side is NaN or the stock is missing. */
  predicate Exceeds(qty: Num, stock: Option<int>) {
    qty.Int? && stock.Some? && qty.n > stock.value
  }

  // ---- field validation ---------------------------------------------------------------

  datatype Field = SizeField | ColorField | QuantityField

  datatype FieldErrors = FieldErrors(size: string, color: string, quantity: string)

  const NoErrors := FieldErrors("", "", "")

  function SetError(e: FieldErrors, f: Field, msg: string): (r: FieldErrors)
    ensures f == SizeField ==> r == e.(size := msg)
    ensures f == ColorField ==> r == e.(color := msg)
    ensures f == QuantityField ==> r == e.(quantity := msg)
  {
    match f
    case SizeField => e.(size := msg)
    case ColorField => e.(color := msg)
    case QuantityField => e.(quantity := msg)
  }

  const AtLeastOne := "Quantity must be at least 1"

  function StockMessage(stock: int): string {
    "Only " + IntToString(stock) + " items available in stock"
  }

  /** `value === '' || isNaN(value)`: `isNaN` converts with `Number`. */
  predicate NotANumber(value: string) {
    value == "" || ToNumber(value).NaN?
  }

  /** `parseInt(value) < 1`, which is false when `parseInt` gives NaN. */
  predicate BelowOne(value: string) {
    ParseInt(value).Int? && ParseInt(value).n < 1
  }

  /** `selectedProduct && parseInt(value) > selectedProduct.stock` */
  predicate OverStock(value: string, selected: Option<Product>) {
    selected.Some? && Exceeds(ParseInt(value), selected.value.stock)
  }

  /** `validateField(name, value)`; `selected` is the product in the modal. */
  function ValidateField(f: Field, value: string, selected: Option<Product>): (r: string)
    ensures f != QuantityField ==> (r == "" <==> value != "")
    ensures f == SizeField && r != "" ==> r == SizeRequired
    ensures f == ColorField && r != "" ==> r == ColorRequired
    ensures f == QuantityField && NotANumber(value) ==> r == QuantityInvalid
    ensures f == QuantityField && !NotANumber(value) && BelowOne(value) ==> r == AtLeastOne
    ensures f == QuantityField && !NotANumber(value) && !BelowOne(value) && OverStock(value, selected)
            ==> r == StockMessage(selected.value.stock.value)
    ensures f == QuantityField && !NotANumber(value) && !BelowOne(value) && !OverStock(value, selected)
            ==> r == ""
  {
    match f
    case SizeField => if value == "" then SizeRequired else ""
    case ColorField => if value == "" then ColorRequired else ""
    case QuantityField => QuantityError(value, selected)
  }

  /** The `quantity` case of `validateField`. */
  function QuantityError(value: string, selected: Option<Product>): (r: string)
    ensures NotANumber(value) ==> r == QuantityInvalid
    ensures !NotANumber(value) && BelowOne(value) ==> r == AtLeastOne
    ensures !NotANumber(value) && !BelowOne(value) && OverStock(value, selected)
            ==> r == StockMessage(selected.value.stock.value)
    ensures !NotANumber(value) && !BelowOne(value) && !OverStock(value, selected) ==> r == ""
    ensures r == "" <==> !NotANumber(value) && !BelowOne(value) && !OverStock(value, selected)
  {
    if value == "" || ToNumber(value).NaN? then QuantityInvalid
    else
      var n := ParseInt(value);
      if n.Int? && n.n < 1 then AtLeastOne
      else if selected.Some? && Exceeds(n, selected.value.stock) then StockMessage(selected.value.stock.value)
      else ""
  }

  /** For a quantity typed as a plain integer, the field is accepted exactly when the number
      is at least 1 and, with a product selected whose stock is known, at most that stock;
      below 1 it says so, and above the stock it names the stock. */
  lemma ValidateQuantityNumeral(n: int, selected: Option<Product>)
    ensures ValidateField(QuantityField, IntToString(n), selected) == ""
      <==> n >= 1 && (selected.None? || selected.value.stock.None? || n <= selected.value.stock.value)
    ensures n < 1 ==> ValidateField(QuantityField, IntToString(n), selected) == AtLeastOne
    ensures n >= 1 && selected.Some? && selected.value.stock.Some? && n > selected.value.stock.value
      ==> ValidateField(QuantityField, IntToString(n), selected) == StockMessage(selected.value.stock.value)
  {
    ToNumberOfIntToString(n);
    ParseIntOfIntToString(n);
  }

  /** A quantity made only of white space passes the check on blur (`Number` reads it as 0
      and `parseInt` as NaN), and the cart store then rejects it. This is the handler's
      behaviour: the page's quantity field is a number input, which hands the handler ""
      for such text. */
  lemma BlankQuantityPassesBlur(value: string, selected: Option<Product>)
    requires value != "" && Blank(value)
    ensures ValidateField(QuantityField, value, selected) == ""
    ensures ToNumber(value) == Int(0)
    ensures AddError(AddOptions(Some("M"), Some("Red"), Some(ToNumber(value)))) == Some(QuantityInvalid)
  {
    TrimEmptyIffBlank(value);
    TrimStartShape(value);
  }

  // ---- categories and responses -------------------------------------------------------

  /** A category tab: `{ id, name, path }`. */
  datatype CategoryTab = CategoryTab(id: string, name: string, path: string)

  /** A category as the API delivers it. */
  datatype ApiCategory = ApiCategory(id: string, name: string)

  /** What a fetch ends with: a response body with `success` and an optional `data` array,
      or a thrown error. */
  datatype Response<T> = Answer(success: bool, data: Option<seq<T>>) | Threw

  predicate Usable<T>(r: Response<T>) {
    r.Answer? && r.success && r.data.Some?
  }

  const AllTab := CategoryTab("all", "All", "/products")
  const CategoriesFailed := "Failed to load categories. Please try again."
  const ProductsFailed := "Failed to load products. Please try again."

  function ToTab(c: ApiCategory): CategoryTab {
    CategoryTab(c.id, c.name, "/categories/" + ToLower(c.name))
  }

  function ToTabs(cs: seq<ApiCategory>): (r: seq<CategoryTab>)
    ensures |r| == |cs| && forall i :: 0 <= i < |cs| ==> r[i] == ToTab(cs[i])
  {
    if cs == [] then [] else [ToTab(cs[0])] + ToTabs(cs[1..])
  }

  /** The index of the first tab called `name`, or -1. */
  function FindTab(tabs: seq<CategoryTab>, name: string): (r: int)
    ensures -1 <= r < |tabs|
    ensures r >= 0 ==> tabs[r].name == name && forall i :: 0 <= i < r ==> tabs[i].name != name
    ensures r == -1 ==> forall i :: 0 <= i < |tabs| ==> tabs[i].name != name
  {
    Seqs.FindIndex(tabs, (t: CategoryTab) => t.name == name)
  }

  /** `categories.find(c => c.name === name)`, then its id or 'all'. */
  function CategoryIdFor(tabs: seq<CategoryTab>, name: string): string {
    var k := FindTab(tabs, name);
    if k < 0 then "all" else tabs[k].id
  }

  /** Picking "All" after the categories have loaded fetches every product. */
  lemma AllTabFetchesEverything(cs: seq<ApiCategory>)
    ensures CategoryIdFor([AllTab] + ToTabs(cs), "All") == "all"
  {
  }

  // ---- the grid -----------------------------------------------------------------------

  function TotalPages(products: seq<Product>): nat {
    Pagination.TotalPages(|products|, ProductsPerPage)
  }

  /** `products.slice(start, start + productsPerPage)` */
  function VisibleProducts(products: seq<Product>, page: int): seq<Product> {
    Pagination.Page(products, page, ProductsPerPage)
  }

  /** The pager is drawn only when there is more than one page. */
  predicate PagerShown(products: seq<Product>) {
    TotalPages(products) > 1
  }

  /** Switching category keeps the page number. From page 2 or later, a category with at
      most 8 products shows an empty grid and no pager to get back with. */
  lemma CategorySwitchStrandsPage(products: seq<Product>, page: int)
    requires 0 < |products| <= ProductsPerPage && page >= 2
    ensures VisibleProducts(products, page) == [] && !PagerShown(products)
  {
    Pagination.PageOutOfRange(products, page, ProductsPerPage);
  }

  /** The storefront checks the stock once per click, against the requested quantity and
      not against what the cart already holds: two adds of 3 from a stock of 5 both pass. */
  lemma StockCheckIsPerAdd(p: Product)
    requires p.stock == Some(5) && p.id.Some?
    ensures var o := AddOptions(Some("M"), Some("Black"), Some(ToNumber("3")));
      !Exceeds(ToNumber("3"), p.stock) && AddError(o).None?
      && var r := Add(Add([], p, o), p, o);
         |r| == 1 && r[0].quantity == 6 && r[0].quantity > p.stock.value
  {
    var o := AddOptions(Some("M"), Some("Black"), Some(ToNumber("3")));
    ToNumberOfIntToString(3);
    assert IntToString(3) == "3";
    var first := Add([], p, o);
    assert first == [NewLine(p, o)];
    AddToExistingLine(first, p, o, 0);
  }

  // ---- the page state -----------------------------------------------------------------

  class Storefront {
    const cart: CartStore
    var selected: Option<Product>
    var selectedTab: string
    var products: seq<Product>
    var currentPage: int
    var size: string
    var color: string
    var quantity: string
    var errors: FieldErrors
    var categories: seq<CategoryTab>
    var error: Option<string>

    ghost predicate Valid()
      reads this, cart
    {
      cart.Valid()
    }

    constructor (cart: CartStore)
      requires cart.Valid()
      ensures Valid() && this.cart == cart
      ensures selected.None? && selectedTab == "All" && products == [] && currentPage == 1
      ensures size == "" && color == "" && quantity == "" && errors == NoErrors
      ensures categories == [] && error.None?
    {
      this.cart := cart;
      selected := None;
      selectedTab := "All";
      products := [];
      currentPage := 1;
      size := "";
      color := "";
      quantity := "";
      errors := NoErrors;
      categories := [];
      error := None;
    }

    /** The end of `fetchCategories`: the "All" tab first, then one tab per category. */
    method LoadCategories(resp: Response<ApiCategory>)
      modifies this
      ensures Usable(resp) ==> categories == [AllTab] + ToTabs(resp.data.value)
                               && selectedTab == "All" && error.None?
      ensures !Usable(resp) ==> categories == old(categories) && selectedTab == old(selectedTab)
                                && error == Some(CategoriesFailed)
      ensures selected == old(selected) && products == old(products) && currentPage == old(currentPage)
      ensures size == old(size) && color == old(color) && quantity == old(quantity) && errors == old(errors)
    {
      error := None;
      if Usable(resp) {
        categories := [AllTab] + ToTabs(resp.data.value);
        selectedTab := "All";
      } else {
        error := Some(CategoriesFailed);
      }
    }

    /** The end of `fetchProducts`. The page number is left as it was. */
    method LoadProducts(resp: Response<Product>)
      modifies this
      ensures Usable(resp) ==> products == resp.data.value && error.None?
      ensures !Usable(resp) ==> products == old(products) && error == Some(ProductsFailed)
      ensures currentPage == old(currentPage) && categories == old(categories) && selectedTab == old(selectedTab)
      ensures selected == old(selected) && size == old(size) && color == old(color)
      ensures quantity == old(quantity) && errors == old(errors)
    {
      error := None;
      if Usable(resp) {
        products := resp.data.value;
      } else {
        error := Some(ProductsFailed);
      }
    }

    /** `handleCategoryChange(name)`: selects the tab and yields the category id to fetch. */
    method ChangeCategory(name: string) returns (categoryId: string)
      modifies this
      ensures selectedTab == name && categoryId == CategoryIdFor(categories, name)
      ensures categories == old(categories) && products == old(products) && currentPage == old(currentPage)
      ensures selected == old(selected) && size == old(size) && color == old(color)
      ensures quantity == old(quantity) && errors == old(errors) && error == old(error)
    {
      selectedTab := name;
      var i := 0;
      categoryId := "all";
      while i < |categories|
        invariant 0 <= i <= |categories|
        invariant forall j :: 0 <= j < i ==> categories[j].name != name
      {
        if categories[i].name == name {
          categoryId := categories[i].id;
          return;
        }
        i := i + 1;
      }
    }

    /** "Select Options" on a product card. */
    method SelectProduct(p: Product)
      modifies this
      ensures selected == Some(p)
      ensures products == old(products) && currentPage == old(currentPage) && categories == old(categories)
      ensures selectedTab == old(selectedTab) && error == old(error)
      ensures size == old(size) && color == old(color) && quantity == old(quantity) && errors == old(errors)
    {
      selected := Some(p);
    }

    /** `handleChange`: stores the value and clears that field's error. */
    method Change(f: Field, value: string)
      modifies this
      ensures size == (if f == SizeField then value else old(size))
      ensures color == (if f == ColorField then value else old(color))
      ensures quantity == (if f == QuantityField then value else old(quantity))
      ensures errors == SetError(old(errors), f, "")
      ensures selected == old(selected) && products == old(products) && currentPage == old(currentPage)
      ensures categories == old(categories) && selectedTab == old(selectedTab) && error == old(error)
    {
      if f == SizeField {
        size := value;
      } else if f == ColorField {
        color := value;
      } else {
        quantity := value;
      }
      errors := SetError(errors, f, "");
    }

    /** `handleBlur`: checks the field's current value and records the verdict. */
    method Blur(f: Field, value: string)
      modifies this
      ensures errors == SetError(old(errors), f, ValidateField(f, value, old(selected)))
      ensures size == old(size) && color == old(color) && quantity == old(quantity)
      ensures selected == old(selected) && products == old(products) && currentPage == old(currentPage)
      ensures categories == old(categories) && selectedTab == old(selectedTab) && error == old(error)
    {
      errors := SetError(errors, f, ValidateField(f, value, selected));
    }

    /** `handleClose`: closes the modal and resets its fields. */
    method Close()
      modifies this
      ensures selected.None? && size == "" && color == "" && quantity == "" && errors == NoErrors
      ensures products == old(products) && currentPage == old(currentPage) && categories == old(categories)
      ensures selectedTab == old(selectedTab) && error == old(error)
    {
      selected := None;
      size := "";
      color := "";
      quantity := "";
      errors := NoErrors;
    }

    /** `handleAddToCart`. It is reachable only from the modal, which is drawn only while a
        product is selected. */
    method AddToCart()
      requires Valid() && selected.Some?
      modifies this, cart
      ensures Valid()
      ensures var p := old(selected).value;
              var qty := ToNumber(old(quantity));
              var o := AddOptions(Some(old(size)), Some(old(color)), Some(qty));
              if Exceeds(qty, p.stock) then
                cart.items == old(cart.items) && cart.showToast == old(cart.showToast)
                && cart.toastMessage == old(cart.toastMessage) && cart.toastType == old(cart.toastType)
                && errors == old(errors).(quantity := StockMessage(p.stock.value))
                && selected == old(selected) && size == old(size) && color == old(color)
                && quantity == old(quantity)
              else
                cart.items == Add(old(cart.items), p, o) && cart.showToast
                && (AddError(o).None? ==>
                      selected.None? && size == "" && color == "" && quantity == ""
                      && errors == NoErrors && cart.toastMessage == AddedMessage(p.name))
                && (AddError(o).Some? ==>
                      selected == old(selected) && size == old(size) && color == old(color)
                      && quantity == old(quantity) && errors == old(errors)
                      && cart.toastType == Error && cart.toastMessage == AddError(o).value)
      ensures products == old(products) && currentPage == old(currentPage) && categories == old(categories)
      ensures selectedTab == old(selectedTab) && error == old(error)
    {
      var p := selected.value;
      var qty := ToNumber(quantity);
      if Exceeds(qty, p.stock) {
        errors := errors.(quantity := StockMessage(p.stock.value));
        return;
      }
      var ok := cart.AddToCart(p, AddOptions(Some(size), Some(color), Some(qty)));
      if ok {
        Close();
      }
    }

    /** The Previous button. */
    method PrevPage()
      modifies this
      ensures currentPage == Pagination.PrevPage(old(currentPage))
      ensures products == old(products) && selected == old(selected) && categories == old(categories)
      ensures selectedTab == old(selectedTab) && error == old(error) && errors == old(errors)
      ensures size == old(size) && color == old(color) && quantity == old(quantity)
    {
      currentPage := Pagination.PrevPage(currentPage);
    }

    /** The Next button. */
    method NextPage()
      modifies this
      ensures currentPage == Pagination.NextPage(old(currentPage), TotalPages(products))
      ensures products == old(products) && selected == old(selected) && categories == old(categories)
      ensures selectedTab == old(selectedTab) && error == old(error) && errors == old(errors)
      ensures size == old(size) && color == old(color) && quantity == old(quantity)
    {
      currentPage := Pagination.NextPage(currentPage, TotalPages(products));
    }

    /** A numbered page button. */
    method GoToPage(page: int)
      requires 1 <= page <= TotalPages(products)
      modifies this
      ensures currentPage == page
      ensures products == old(products) && selected == old(selected) && categories == old(categories)
      ensures selectedTab == old(selectedTab) && error == old(error) && errors == old(errors)
      ensures size == old(size) && color == old(color) && quantity == old(quantity)
    {
      currentPage := page;
    }
  }

  /** A successful add from the modal never asks for more than the product's known stock. */
  lemma AddedQuantityWithinStock(p: Product, size: string, color: string, quantity: string)
    requires p.stock.Some?
    requires !Exceeds(ToNumber(quantity), p.stock)
    requires AddError(AddOptions(Some(size), Some(color), Some(ToNumber(quantity)))).None?
    ensures 1 <= ToNumber(quantity).n <= p.stock.value
  {
  }
}
