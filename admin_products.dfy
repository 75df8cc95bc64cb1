/** The product management page of src/pages/admin/products.jsx: the effect that filters
    and sorts the product table, the sortable column headers (`_id`, `name`, `price` and
    `stock`), the edit form that sends only the fields that changed, the checks before a
    product is created, the check before a category is added, and the stock figures in the
    summary cards. API calls are recorded in `requests`; their results arrive as
    parameters. */
module AdminProducts {
  import opened Js
  import Seqs
  import Sorting

  datatype CategoryRef = CategoryRef(id: string, name: Option<string>)

  /** A product record of the admin API (`_id` is `id`). */
  datatype AdminProduct = AdminProduct(
    id: string,
    name: string,
    category: Option<CategoryRef>,
    price: int,
    stock: Option<int>,
    description: Option<string>)

  datatype Category = Category(id: string, name: string)

  // ---- filtering ----------------------------------------------------------------------

  /** The search test: the name, or a present category name, contains the term. */
  predicate MatchesSearch(p: AdminProduct, term: string) {
    ContainsIgnoreCase(p.name, term)
    || (p.category.Some? && Truthy(p.category.value.name) && ContainsIgnoreCase(p.category.value.name.value, term))
  }

  /** `product.category?._id === categoryFilter` */
  predicate InCategory(p: AdminProduct, categoryId: string) {
    p.category.Some? && p.category.value.id == categoryId
  }

  // ---- sorting ------------------------------------------------------------------------

  /** The keys `requestSort` accepts; `ByCategoryName` is the dotted key `category.name`.
      No header on the page sorts by `ByCategoryName`: that header is commented out. */
  datatype SortKey = ById | ByName | ByCategoryName | ByPrice | ByStock

  datatype Direction = Ascending | Descending

  datatype SortConfig = SortConfig(key: Option<SortKey>, direction: Direction)

  const InitialSort := SortConfig(None, Ascending)

  /** The value a product has in a column; walking `category.name` through a missing
      category gives undefined. */
  function KeyOf(p: AdminProduct, k: SortKey): Sorting.Key {
    match k
    case ById => Sorting.Text(p.id)
    case ByName => Sorting.Text(p.name)
    case ByCategoryName =>
      if p.category.Some? && p.category.value.name.Some? then Sorting.Text(p.category.value.name.value)
      else Sorting.Undefined
    case ByPrice => Sorting.Number(p.price)
    case ByStock => if p.stock.Some? then Sorting.Number(p.stock.value) else Sorting.Undefined
  }

  /** The comparator handed to `sort`. */
  function Compare(a: AdminProduct, b: AdminProduct, k: SortKey, d: Direction): (r: int)
    ensures r == -1 || r == 0 || r == 1
    ensures r == 0 <==> !Sorting.Less(KeyOf(a, k), KeyOf(b, k)) && !Sorting.Less(KeyOf(b, k), KeyOf(a, k))
    ensures d == Ascending ==> (r == -1 <==> Sorting.Less(KeyOf(a, k), KeyOf(b, k)))
    ensures d == Descending ==> (r == -1 <==> Sorting.Less(KeyOf(b, k), KeyOf(a, k)))
  {
    Sorting.LessAsymmetric(KeyOf(a, k), KeyOf(b, k));
    if Sorting.Less(KeyOf(a, k), KeyOf(b, k)) then (if d == Ascending then -1 else 1)
    else if Sorting.Less(KeyOf(b, k), KeyOf(a, k)) then (if d == Ascending then 1 else -1)
    else 0
  }

  /** Swapping the arguments negates the comparison. */
  lemma CompareAntisymmetric(a: AdminProduct, b: AdminProduct, k: SortKey, d: Direction)
    ensures Compare(a, b, k, d) == -Compare(b, a, k, d)
  {
    Sorting.LessAsymmetric(KeyOf(a, k), KeyOf(b, k));
  }

  function Before(k: SortKey, d: Direction): (AdminProduct, AdminProduct) -> bool {
    (a: AdminProduct, b: AdminProduct) => Compare(a, b, k, d) < 0
  }

  /** The comparator is consistent on every list of products. */
  lemma BeforeConsistent(elems: multiset<AdminProduct>, k: SortKey, d: Direction)
    ensures Sorting.Consistent(elems, Before(k, d))
  {
    var before := Before(k, d);
    forall a, b, c | a in elems && b in elems && c in elems && before(a, b) && before(b, c)
      ensures before(a, c)
    {
      if d == Ascending {
        Sorting.LessTransitive(KeyOf(a, k), KeyOf(b, k), KeyOf(c, k));
      } else {
        Sorting.LessTransitive(KeyOf(c, k), KeyOf(b, k), KeyOf(a, k));
      }
    }
    forall a, b | a in elems && b in elems && a != b && before(a, b)
      ensures !before(b, a)
    {
      CompareAntisymmetric(a, b, k, d);
    }
  }

  /** A product without a stock figure compares equal to every other product, so ties
      under the comparator are not transitive: with stocks 1, missing and 2 both neighbours
      tie with the middle one but not with each other. `sort` then has no single order to
      reach. */
  lemma MissingStockTies()
    ensures var a, u, c := AdminProduct("a", "A", None, 0, Some(1), None),
                           AdminProduct("u", "U", None, 0, None, None),
                           AdminProduct("c", "C", None, 0, Some(2), None);
      (Compare(a, u, ByStock, Ascending) == 0 && Compare(u, c, ByStock, Ascending) == 0
       && Compare(a, c, ByStock, Ascending) == -1)
  {
  }

  /** `requestSort(key)`: the same column again flips ascending to descending; anything else
      sorts ascending by the column. */
  function RequestSort(c: SortConfig, k: SortKey): (r: SortConfig)
    ensures r.key == Some(k)
    ensures r.direction == Descending <==> c.key == Some(k) && c.direction == Ascending
  {
    if c.key == Some(k) && c.direction == Ascending then SortConfig(Some(k), Descending)
    else SortConfig(Some(k), Ascending)
  }

  /** Clicking one column twice returns to where a click on it first led. */
  lemma RequestSortTwiceToggles(c: SortConfig, k: SortKey)
    requires c.key == Some(k)
    ensures RequestSort(RequestSort(c, k), k) == c
  {
  }

  /** `getSortIndicator(key)`: an arrow on the sorted column only. */
  function SortIndicator(c: SortConfig, k: SortKey): (r: Option<string>)
    ensures r.Some? <==> c.key == Some(k)
    ensures r.Some? ==> r.value == (if c.direction == Ascending then "\U{2191}" else "\U{2193}")
  {
    if c.key != Some(k) then None
    else if c.direction == Ascending then Some("\U{2191}") else Some("\U{2193}")
  }

  /** The table the effect computes from a non-empty product list. */
  function TableView(products: seq<AdminProduct>, term: string, categoryId: string, c: SortConfig): seq<AdminProduct> {
    var searched := if term != "" then Seqs.Filter(products, (p: AdminProduct) => MatchesSearch(p, term)) else products;
    var filtered := if categoryId != "" then Seqs.Filter(searched, (p: AdminProduct) => InCategory(p, categoryId)) else searched;
    if c.key.Some? then Sorting.Sort(filtered, Before(c.key.value, c.direction)) else filtered
  }

  predicate Shown(p: AdminProduct, term: string, categoryId: string) {
    (term == "" || MatchesSearch(p, term)) && (categoryId == "" || InCategory(p, categoryId))
  }

  /** The table holds exactly the products that pass both filters. */
  lemma TableViewMembers(products: seq<AdminProduct>, term: string, categoryId: string, c: SortConfig, x: AdminProduct)
    ensures x in TableView(products, term, categoryId, c) <==> x in products && Shown(x, term, categoryId)
  {
    var searched := if term != "" then Seqs.Filter(products, (p: AdminProduct) => MatchesSearch(p, term)) else products;
    var filtered := if categoryId != "" then Seqs.Filter(searched, (p: AdminProduct) => InCategory(p, categoryId)) else searched;
    if term != "" {
      Seqs.FilterMembers(products, (p: AdminProduct) => MatchesSearch(p, term), x);
    }
    if categoryId != "" {
      Seqs.FilterMembers(searched, (p: AdminProduct) => InCategory(p, categoryId), x);
    }
    if c.key.Some? {
      var sorted := Sorting.Sort(filtered, Before(c.key.value, c.direction));
      assert x in sorted <==> x in multiset(sorted);
      assert x in filtered <==> x in multiset(filtered);
    }
  }

  /** With a sort column, no shown product is placed after one that the comparator puts
      before it. */
  lemma TableViewSorted(products: seq<AdminProduct>, term: string, categoryId: string, c: SortConfig)
    requires c.key.Some?
    ensures Sorting.Ordered(TableView(products, term, categoryId, c), Before(c.key.value, c.direction))
  {
    var searched := if term != "" then Seqs.Filter(products, (p: AdminProduct) => MatchesSearch(p, term)) else products;
    var filtered := if categoryId != "" then Seqs.Filter(searched, (p: AdminProduct) => InCategory(p, categoryId)) else searched;
    BeforeConsistent(multiset(filtered), c.key.value, c.direction);
    Sorting.SortOrdered(filtered, Before(c.key.value, c.direction));
  }

  // ---- the edit form ------------------------------------------------------------------

  datatype ProductForm = ProductForm(name: string, category: string, price: string, stock: string, description: string)

  const EmptyForm := ProductForm("", "", "", "", "")

  datatype FormField = NameField | CategoryField | PriceField | StockField | DescriptionField

  /** `product.category?._id || ""` */
  function OriginalCategory(p: AdminProduct): string {
    if p.category.Some? then OrElse(Some(p.category.value.id), "") else ""
  }

  /** What `startEditing` puts in the form. `product.stock.toString()` needs a stock. */
  function FormOf(p: AdminProduct): (f: ProductForm)
    requires p.stock.Some?
    ensures f.price == IntToString(p.price) && f.stock == IntToString(p.stock.value)
  {
    ProductForm(p.name, OriginalCategory(p), IntToString(p.price), IntToString(p.stock.value),
                OrElse(p.description, ""))
  }

  /** One `data.append(key, value)`. */
  datatype Entry = Field(key: FormField, value: string) | Image(file: string)


  function ImageEntries(files: seq<string>): (r: seq<Entry>)
    ensures |r| == |files| && forall i :: 0 <= i < |files| ==> r[i] == Image(files[i])
  {
    if files == [] then [] else [Image(files[0])] + ImageEntries(files[1..])
  }

  /** The append made when one field differs. */
  function Diff(key: FormField, changed: bool, value: string): seq<Entry> {
    if changed then [Field(key, value)] else []
  }

  /** The update payload: each text field of `f` that differs from the original `o`, in
      form order, then the selected images. The comparisons of the source are against the
      original product's fields exactly as `startEditing` converted them, so `o` is
      `FormOf` of the original product. */
  function EditPayload(f: ProductForm, o: ProductForm, files: seq<string>): seq<Entry> {
    Diff(NameField, f.name != o.name, Trim(f.name))
    + Diff(CategoryField, f.category != o.category, f.category)
    + Diff(PriceField, f.price != o.price, f.price)
    + Diff(StockField, f.stock != o.stock, f.stock)
    + Diff(DescriptionField, f.description != o.description, Trim(f.description))
    + ImageEntries(files)
  }

  /** The keys of the text fields a payload carries. */
  function Keys(payload: seq<Entry>): set<FormField> {
    if payload == [] then {}
    else (if payload[0].Field? then {payload[0].key} else {}) + Keys(payload[1..])
  }

  predicate HasKey(payload: seq<Entry>, key: FormField) {
    key in Keys(payload)
  }

  predicate Sends(payload: seq<Entry>, key: FormField, value: string) {
    Field(key, value) in payload
  }

  lemma {:induction false} KeysAppend(a: seq<Entry>, b: seq<Entry>)
    ensures Keys(a + b) == Keys(a) + Keys(b)
  {
    if a != [] {
      assert (a + b)[0] == a[0];
      assert (a + b)[1..] == a[1..] + b;
      KeysAppend(a[1..], b);
    } else {
      assert a + b == b;
    }
  }

  lemma {:induction false} ImagesHaveNoKey(files: seq<string>)
    ensures Keys(ImageEntries(files)) == {}
  {
    if files != [] {
      ImagesHaveNoKey(files[1..]);
    }
  }

  lemma DiffKeys(key: FormField, changed: bool, value: string)
    ensures Keys(Diff(key, changed, value)) == if changed then {key} else {}
  {
  }

  lemma PiecesKeys(a: seq<Entry>, b: seq<Entry>, c: seq<Entry>, e: seq<Entry>, g: seq<Entry>, files: seq<string>)
    ensures Keys(a + b + c + e + g + ImageEntries(files)) == Keys(a) + Keys(b) + Keys(c) + Keys(e) + Keys(g)
  {
    KeysAppend(a, b);
    KeysAppend(a + b, c);
    KeysAppend(a + b + c, e);
    KeysAppend(a + b + c + e, g);
    KeysAppend(a + b + c + e + g, ImageEntries(files));
    ImagesHaveNoKey(files);
  }

  /** A payload of the five field appends, in form order, then images: it carries the key of
      each field that changed, with its value, and no other key. */
  lemma PayloadShape(c1: bool, v1: string, c2: bool, v2: string, c3: bool, v3: string,
                     c4: bool, v4: string, c5: bool, v5: string, files: seq<string>)
    ensures var d := Diff(NameField, c1, v1) + Diff(CategoryField, c2, v2) + Diff(PriceField, c3, v3)
                     + Diff(StockField, c4, v4) + Diff(DescriptionField, c5, v5) + ImageEntries(files);
      (HasKey(d, NameField) <==> c1) && (HasKey(d, CategoryField) <==> c2) && (HasKey(d, PriceField) <==> c3)
      && (HasKey(d, StockField) <==> c4) && (HasKey(d, DescriptionField) <==> c5)
  {
    var d := Diff(NameField, c1, v1) + Diff(CategoryField, c2, v2) + Diff(PriceField, c3, v3)
                     + Diff(StockField, c4, v4) + Diff(DescriptionField, c5, v5) + ImageEntries(files);
    var ks := (if c1 then {NameField} else {}) + (if c2 then {CategoryField} else {}) + (if c3 then {PriceField} else {})
      + (if c4 then {StockField} else {}) + (if c5 then {DescriptionField} else {});
    assert Keys(d) == ks by {
      PiecesKeys(Diff(NameField, c1, v1), Diff(CategoryField, c2, v2), Diff(PriceField, c3, v3),
                 Diff(StockField, c4, v4), Diff(DescriptionField, c5, v5), files);
      DiffKeys(NameField, c1, v1);
      DiffKeys(CategoryField, c2, v2);
      DiffKeys(PriceField, c3, v3);
      DiffKeys(StockField, c4, v4);
      DiffKeys(DescriptionField, c5, v5);
    }
    assert (NameField in ks <==> c1) && (CategoryField in ks <==> c2) && (PriceField in ks <==> c3) && (StockField in ks <==> c4) && (DescriptionField in ks <==> c5);
  }

  lemma PayloadSends(c1: bool, v1: string, c2: bool, v2: string, c3: bool, v3: string,
                     c4: bool, v4: string, c5: bool, v5: string, files: seq<string>)
    ensures var d := Diff(NameField, c1, v1) + Diff(CategoryField, c2, v2) + Diff(PriceField, c3, v3)
                     + Diff(StockField, c4, v4) + Diff(DescriptionField, c5, v5) + ImageEntries(files);
      (c1 ==> Sends(d, NameField, v1)) && (c2 ==> Sends(d, CategoryField, v2))
      && (c3 ==> Sends(d, PriceField, v3)) && (c4 ==> Sends(d, StockField, v4))
      && (c5 ==> Sends(d, DescriptionField, v5))
  {
  }

  /** The update payload carries exactly the keys of the fields that differ from the
      original, each with the value typed (the name and the description trimmed); the
      images carry no field. */
  lemma EditPayloadKeys(f: ProductForm, o: ProductForm, files: seq<string>)
    ensures var d := EditPayload(f, o, files);
      (HasKey(d, NameField) <==> f.name != o.name)
      && (HasKey(d, CategoryField) <==> f.category != o.category)
      && (HasKey(d, PriceField) <==> f.price != o.price)
      && (HasKey(d, StockField) <==> f.stock != o.stock)
      && (HasKey(d, DescriptionField) <==> f.description != o.description)
      && (f.name != o.name ==> Sends(d, NameField, Trim(f.name)))
      && (f.category != o.category ==> Sends(d, CategoryField, f.category))
      && (f.price != o.price ==> Sends(d, PriceField, f.price))
      && (f.stock != o.stock ==> Sends(d, StockField, f.stock))
      && (f.description != o.description ==> Sends(d, DescriptionField, Trim(f.description)))
  {
    PayloadShape(f.name != o.name, Trim(f.name), f.category != o.category, f.category,
                 f.price != o.price, f.price, f.stock != o.stock, f.stock,
                 f.description != o.description, Trim(f.description), files);
    PayloadSends(f.name != o.name, Trim(f.name), f.category != o.category, f.category,
                 f.price != o.price, f.price, f.stock != o.stock, f.stock,
                 f.description != o.description, Trim(f.description), files);
  }

  /** The payload is empty exactly when the form still holds the original and no image is
      selected. */
  lemma EditPayloadEmpty(f: ProductForm, o: ProductForm, files: seq<string>)
    ensures EditPayload(f, o, files) == [] <==> f == o && files == []
  {
  }

  // ---- creating -----------------------------------------------------------------------

  const AllFieldsRequired := "All fields are required"
  const ImageRequired := "At least one product image is required"
  const NumbersRequired := "Price and stock must be valid numbers"

  /** The checks `createProduct` makes before calling the API, in order. */
  function CreateError(f: ProductForm, files: seq<string>): (r: Option<string>)
    ensures r.None? <==> f.name != "" && f.price != "" && f.category != "" && f.stock != ""
                         && f.description != "" && files != []
                         && !ParseFloatIsNaN(f.price) && ParseInt(f.stock).Int?
    ensures (f.name == "" || f.price == "" || f.category == "" || f.stock == "" || f.description == "")
            ==> r == Some(AllFieldsRequired)
    ensures r == Some(ImageRequired)
            <==> f.name != "" && f.price != "" && f.category != "" && f.stock != "" && f.description != "" && files == []
    ensures r == Some(NumbersRequired)
            <==> f.name != "" && f.price != "" && f.category != "" && f.stock != "" && f.description != ""
                 && files != [] && (ParseFloatIsNaN(f.price) || ParseInt(f.stock).NaN?)
  {
    if f.name == "" || f.price == "" || f.category == "" || f.stock == "" || f.description == "" then
      Some(AllFieldsRequired)
    else if files == [] then Some(ImageRequired)
    else if ParseFloatIsNaN(f.price) || ParseInt(f.stock).NaN? then Some(NumbersRequired)
    else None
  }

  /** A stock such as "12 pcs" passes, because `parseInt` reads the leading digits. This is
      the check's behaviour: the page's stock fields are number inputs, which hand the
      handler "" for such text. */
  lemma StockWithTrailingTextPasses()
    ensures ParseInt("12 pcs") == Int(12)
    ensures CreateError(ProductForm("Tee", "c1", "5000", "12 pcs", "Cotton"), ["a.png"]).None?
  {
    assert TrimStart("12 pcs") == "12 pcs";
    assert DigitPrefix("12 pcs") == "12" by {
      DigitPrefixOfDigits("12", " pcs");
      assert "12" + " pcs" == "12 pcs";
    }
    assert DigitsValue("12") == 12 by {
      assert "12"[..1] == "1";
    }
    assert !ParseFloatIsNaN("5000") by {
      assert TrimStart("5000") == "5000";
    }
  }

  // ---- categories ---------------------------------------------------------------------

  const CategoryRejected := "Category name already exists or is invalid"
  const CategoryCreateFailed := "Failed to create category. Please try again."
  const ProductsLoadFailed := "Failed to load products. Please try again."
  const CategoriesLoadFailed := "Failed to load categories. Please try again."

  /** `newCategory.trim() && !categories.some(cat => cat.name === newCategory.trim())` */
  predicate CategoryNameAccepted(name: string, categories: seq<Category>) {
    Trim(name) != "" && forall i :: 0 <= i < |categories| ==> categories[i].name != Trim(name)
  }

  /** A blank name is refused, and so is the exact name of an existing category; the
      comparison is exact, so a name differing only in letter case is accepted. */
  lemma CategoryCheck(name: string, categories: seq<Category>)
    ensures Blank(name) ==> !CategoryNameAccepted(name, categories)
    ensures (exists i :: 0 <= i < |categories| && categories[i].name == Trim(name))
            ==> !CategoryNameAccepted(name, categories)
    ensures !Blank(name) && (forall i :: 0 <= i < |categories| ==> categories[i].name != Trim(name))
            ==> CategoryNameAccepted(name, categories)
  {
    TrimEmptyIffBlank(name);
  }

  lemma CaseDifferenceAccepted()
    ensures CategoryNameAccepted("shirts", [Category("c1", "Shirts")])
  {
    assert TrimStart("shirts") == "shirts";
    assert TrimEnd("shirts") == "shirts";
    assert "shirts"[0] != "Shirts"[0];
  }

  // ---- stock figures ------------------------------------------------------------------

  function StockOrZero(p: AdminProduct): int {
    if p.stock.Some? then p.stock.value else 0
  }

  /** "Total Stock": the sum of the stock counts, a missing one counting as 0. */
  function TotalStock(ps: seq<AdminProduct>): (r: int)
    ensures (forall i :: 0 <= i < |ps| ==> StockOrZero(ps[i]) >= 0) ==> r >= 0
  {
    if ps == [] then 0 else StockOrZero(ps[0]) + TotalStock(ps[1..])
  }

  /** "Low Stock Items": how many products hold fewer than 10, a missing count being 0. */
  function LowStockCount(ps: seq<AdminProduct>): (r: nat)
    ensures r <= |ps|
  {
    |Seqs.Filter(ps, (p: AdminProduct) => StockOrZero(p) < 10)|
  }

  /** No product counts as low exactly when every product holds at least 10. */
  lemma NoLowStock(ps: seq<AdminProduct>)
    ensures LowStockCount(ps) == 0 <==> forall i :: 0 <= i < |ps| ==> StockOrZero(ps[i]) >= 10
  {
    var r := Seqs.Filter(ps, (p: AdminProduct) => StockOrZero(p) < 10);
    if |r| > 0 {
      assert r[0] in ps;
    }
  }

  lemma {:induction false} TotalStockAppend(a: seq<AdminProduct>, b: seq<AdminProduct>)
    ensures TotalStock(a + b) == TotalStock(a) + TotalStock(b)
  {
    if a != [] {
      assert (a + b)[1..] == a[1..] + b;
      TotalStockAppend(a[1..], b);
    } else {
      assert a + b == b;
    }
  }

  // ---- the page state -----------------------------------------------------------------

  datatype ApiResult = Ok | Fail(message: string)

  datatype CategoryInput = CategoryNameInput | CategoryDescriptionInput | CategoryParentInput

  /** The API calls the page makes. */
  datatype Request =
    | CreateProductRequest(name: string, description: string, category: string, stock: int, images: seq<string>)
    | UpdateProductRequest(productId: string, payload: seq<Entry>)
    | CreateCategoryRequest(name: string, description: string, parent: Option<string>)
    | FetchProductsRequest
    | FetchCategoriesRequest

  /** The refetch a write's reply triggers: `fetch` after a success, nothing after a
      failure. */
  function RefetchOn(result: ApiResult, fetch: Request): seq<Request> {
    if result.Ok? then [fetch] else []
  }

  /** What `createProduct` sends for a form that passed its checks: the trimmed name and
      description, the category id, the parsed stock and the selected images. */
  function CreateRequestOf(f: ProductForm, files: seq<string>): Request
    requires CreateError(f, files).None?
  {
    CreateProductRequest(Trim(f.name), Trim(f.description), f.category, ParseInt(f.stock).n, files)
  }

  class ProductAdmin {
    var products: seq<AdminProduct>
    var filtered: seq<AdminProduct>
    var categories: seq<Category>
    var searchTerm: string
    var categoryFilter: string
    var sortConfig: SortConfig
    var editingId: Option<string>
    var original: Option<AdminProduct>
    var form: ProductForm
    var images: seq<string>
    var isAdding: bool
    var managingCategories: bool
    var newCategory: string
    var categoryDescription: string
    var categoryParent: string
    var error: Option<string>
    var success: Option<string>
    var requests: seq<Request>

    /** `handleSaveEdit` reads `originalProduct.stock`, so an edited product has one. */
    ghost predicate Valid()
      reads this
    {
      original.Some? ==> original.value.stock.Some?
    }

    constructor ()
      ensures Valid()
      ensures products == [] && filtered == [] && categories == [] && searchTerm == ""
      ensures categoryFilter == "" && sortConfig == InitialSort && editingId.None? && original.None?
      ensures form == EmptyForm && images == [] && !isAdding && !managingCategories && requests == []
      ensures newCategory == "" && categoryDescription == "" && categoryParent == ""
      ensures error.None? && success.None?
    {
      products := [];
      filtered := [];
      categories := [];
      searchTerm := "";
      categoryFilter := "";
      sortConfig := InitialSort;
      editingId := None;
      original := None;
      form := EmptyForm;
      images := [];
      isAdding := false;
      managingCategories := false;
      newCategory := "";
      categoryDescription := "";
      categoryParent := "";
      error := None;
      success := None;
      requests := [];
    }

    /** The end of `fetchProducts`: a usable response replaces the products and the table;
        anything else keeps them and sets the load error. `data` is the response's `data`
        array, absent when the call threw or answered without success. */
    method LoadProducts(data: Option<seq<AdminProduct>>)
      modifies this`products, this`filtered, this`error
      ensures data.Some? ==> products == data.value && filtered == data.value && error.None?
      ensures data.None? ==> products == old(products) && filtered == old(filtered) && error == Some(ProductsLoadFailed)
      ensures categories == old(categories) && searchTerm == old(searchTerm) && categoryFilter == old(categoryFilter)
      ensures sortConfig == old(sortConfig) && editingId == old(editingId) && original == old(original)
      ensures form == old(form) && images == old(images) && requests == old(requests) && success == old(success)
    {
      error := None;
      if data.Some? {
        products := data.value;
        filtered := data.value;
      } else {
        error := Some(ProductsLoadFailed);
      }
    }

    /** The end of `fetchCategories`, read the same way. */
    method LoadCategories(data: Option<seq<Category>>)
      modifies this`categories, this`error
      ensures data.Some? ==> categories == data.value && error.None?
      ensures data.None? ==> categories == old(categories) && error == Some(CategoriesLoadFailed)
      ensures products == old(products) && filtered == old(filtered) && searchTerm == old(searchTerm)
      ensures categoryFilter == old(categoryFilter) && sortConfig == old(sortConfig) && editingId == old(editingId)
      ensures original == old(original) && form == old(form) && images == old(images)
      ensures requests == old(requests) && success == old(success)
    {
      error := None;
      if data.Some? {
        categories := data.value;
      } else {
        error := Some(CategoriesLoadFailed);
      }
    }

    /** The filter-and-sort effect. It does nothing while there are no products. */
    method Refresh()
      modifies this`filtered
      ensures products == [] ==> filtered == old(filtered)
      ensures products != [] ==> filtered == TableView(products, searchTerm, categoryFilter, sortConfig)
      ensures products == old(products) && searchTerm == old(searchTerm) && categoryFilter == old(categoryFilter)
      ensures sortConfig == old(sortConfig) && editingId == old(editingId) && original == old(original)
      ensures form == old(form) && images == old(images) && requests == old(requests)
      ensures error == old(error) && success == old(success) && categories == old(categories)
    {
      if products == [] {
        return;
      }
      var result := products;
      var term, categoryId := searchTerm, categoryFilter;
      if term != "" {
        result := Seqs.Filter(result, (p: AdminProduct) => MatchesSearch(p, term));
      }
      if categoryId != "" {
        result := Seqs.Filter(result, (p: AdminProduct) => InCategory(p, categoryId));
      }
      if sortConfig.key.Some? {
        result := Sorting.Sort(result, Before(sortConfig.key.value, sortConfig.direction));
      }
      filtered := result;
    }

    /** The search box and its clear button. */
    method SetSearch(value: string)
      modifies this`searchTerm
      ensures searchTerm == value
      ensures products == old(products) && filtered == old(filtered) && categoryFilter == old(categoryFilter)
      ensures sortConfig == old(sortConfig) && editingId == old(editingId) && original == old(original)
      ensures form == old(form) && images == old(images) && requests == old(requests)
    {
      searchTerm := value;
    }

    /** The category select; "" shows every category. */
    method SetCategoryFilter(value: string)
      modifies this`categoryFilter
      ensures categoryFilter == value
      ensures products == old(products) && filtered == old(filtered) && searchTerm == old(searchTerm)
      ensures sortConfig == old(sortConfig) && editingId == old(editingId) && original == old(original)
      ensures form == old(form) && images == old(images) && requests == old(requests)
    {
      categoryFilter := value;
    }

    /** The "Add Product" button: opens the add panel on an empty form and leaves edit mode. */
    method OpenAddProduct()
      modifies this`isAdding, this`managingCategories, this`editingId, this`form, this`error
      ensures isAdding && !managingCategories && editingId.None? && form == EmptyForm && error.None?
      ensures products == old(products) && filtered == old(filtered) && original == old(original)
      ensures images == old(images) && requests == old(requests) && newCategory == old(newCategory)
    {
      isAdding := true;
      managingCategories := false;
      editingId := None;
      form := EmptyForm;
      error := None;
    }

    /** The "Manage Categories" button: toggles the category panel, closes the add panel and
        empties the new category's name. */
    method ToggleCategories()
      modifies this`managingCategories, this`isAdding, this`newCategory, this`error
      ensures managingCategories == !old(managingCategories) && !isAdding && newCategory == "" && error.None?
      ensures products == old(products) && filtered == old(filtered) && editingId == old(editingId)
      ensures original == old(original) && form == old(form) && images == old(images) && requests == old(requests)
    {
      managingCategories := !managingCategories;
      isAdding := false;
      newCategory := "";
      error := None;
    }

    /** The add panel's Cancel button. */
    method CancelAdd()
      modifies this`isAdding, this`form, this`images
      ensures !isAdding && form == EmptyForm && images == []
      ensures products == old(products) && filtered == old(filtered) && editingId == old(editingId)
      ensures original == old(original) && requests == old(requests) && error == old(error)
    {
      isAdding := false;
      form := EmptyForm;
      images := [];
    }

    /** The cancel button of a row being edited. */
    method CancelEdit()
      modifies this`editingId, this`form, this`images
      ensures editingId.None? && form == EmptyForm && images == []
      ensures products == old(products) && filtered == old(filtered) && original == old(original)
      ensures isAdding == old(isAdding) && requests == old(requests) && error == old(error)
    {
      editingId := None;
      form := EmptyForm;
      images := [];
    }

    /** The three inputs of the new-category form. */
    method ChangeCategoryInput(f: CategoryInput, value: string)
      modifies this`newCategory, this`categoryDescription, this`categoryParent
      ensures newCategory == (if f == CategoryNameInput then value else old(newCategory))
      ensures categoryDescription == (if f == CategoryDescriptionInput then value else old(categoryDescription))
      ensures categoryParent == (if f == CategoryParentInput then value else old(categoryParent))
      ensures products == old(products) && categories == old(categories) && form == old(form)
      ensures requests == old(requests) && error == old(error)
    {
      if f == CategoryNameInput {
        newCategory := value;
      } else if f == CategoryDescriptionInput {
        categoryDescription := value;
      } else {
        categoryParent := value;
      }
    }

    /** A click on one of the `_id`, `name`, `price` or `stock` headers. */
    method RequestSortBy(k: SortKey)
      modifies this`sortConfig
      ensures sortConfig == RequestSort(old(sortConfig), k)
      ensures products == old(products) && filtered == old(filtered) && searchTerm == old(searchTerm)
      ensures categoryFilter == old(categoryFilter) && editingId == old(editingId) && original == old(original)
      ensures form == old(form) && images == old(images) && requests == old(requests)
    {
      sortConfig := RequestSort(sortConfig, k);
    }

    /** `startEditing(product)` */
    method StartEditing(p: AdminProduct)
      requires p.stock.Some?
      modifies this`editingId, this`original, this`form
      ensures Valid()
      ensures editingId == Some(p.id) && original == Some(p) && form == FormOf(p)
      ensures products == old(products) && filtered == old(filtered) && images == old(images)
      ensures requests == old(requests) && error == old(error) && success == old(success)
    {
      editingId := Some(p.id);
      original := Some(p);
      form := FormOf(p);
    }

    /** `handleInputChange`: sets one form field. */
    method ChangeField(f: FormField, value: string)
      modifies this`form
      ensures form == match f
        case NameField => old(form).(name := value)
        case CategoryField => old(form).(category := value)
        case PriceField => old(form).(price := value)
        case StockField => old(form).(stock := value)
        case DescriptionField => old(form).(description := value)
      ensures editingId == old(editingId) && original == old(original) && images == old(images)
      ensures products == old(products) && filtered == old(filtered) && requests == old(requests)
    {
      match f
      case NameField => form := form.(name := value);
      case CategoryField => form := form.(category := value);
      case PriceField => form := form.(price := value);
      case StockField => form := form.(stock := value);
      case DescriptionField => form := form.(description := value);
    }

    /** `handleImageChange`: appends the picked files, if any. */
    method AddImages(files: seq<string>)
      modifies this`images
      ensures images == old(images) + files
      ensures form == old(form) && editingId == old(editingId) && original == old(original)
      ensures products == old(products) && filtered == old(filtered) && requests == old(requests)
    {
      if files != [] {
        images := images + files;
      }
    }

    /** The payload loop of `handleSaveEdit`. */
    static method BuildEditPayload(f: ProductForm, o: ProductForm, files: seq<string>)
      returns (data: seq<Entry>, hasChanges: bool)
      ensures data == EditPayload(f, o, files)
      ensures hasChanges <==> data != []
    {
      data, hasChanges := [], false;
      data, hasChanges := AppendChange(data, hasChanges, NameField, f.name != o.name, Trim(f.name));
      assert data == Diff(NameField, f.name != o.name, Trim(f.name));
      data, hasChanges := AppendChange(data, hasChanges, CategoryField, f.category != o.category, f.category);
      data, hasChanges := AppendChange(data, hasChanges, PriceField, f.price != o.price, f.price);
      data, hasChanges := AppendChange(data, hasChanges, StockField, f.stock != o.stock, f.stock);
      data, hasChanges := AppendChange(data, hasChanges, DescriptionField, f.description != o.description,
                                       Trim(f.description));
      if |files| > 0 {
        data := AppendImages(data, files);
        hasChanges := true;
      }
      EditPayloadEmpty(f, o, files);
    }

    /** One `if (…) { data.append(key, value); hasChanges = true; }` step of `handleSaveEdit`. */
    static method AppendChange(data: seq<Entry>, hasChanges: bool, key: FormField, changed: bool, value: string)
      returns (data': seq<Entry>, hasChanges': bool)
      ensures data' == data + Diff(key, changed, value)
      ensures hasChanges' <==> hasChanges || changed
    {
      data', hasChanges' := data, hasChanges;
      if changed {
        data' := data + [Field(key, value)];
        hasChanges' := true;
      }
    }

    /** `productImages.forEach(f => data.append("images", f))` */
    static method AppendImages(data: seq<Entry>, files: seq<string>) returns (r: seq<Entry>)
      ensures r == data + ImageEntries(files)
    {
      r := data;
      for i := 0 to |files|
        invariant r == data + ImageEntries(files[..i])
      {
        assert files[..i + 1] == files[..i] + [files[i]];
        ImageEntriesAppend(files[..i], files[i]);
        r := r + [Image(files[i])];
      }
      assert files[..|files|] == files;
    }

    /** `handleSaveEdit(productId)`: bails out without an original, leaves edit mode
        without a call when nothing changed, and otherwise sends the payload; only a
        successful update clears the form. */
    method SaveEdit(productId: string, result: ApiResult)
      requires Valid()
      modifies this`requests, this`error, this`success, this`editingId, this`form, this`images
      ensures Valid()
      ensures old(original).None? ==> editingId == old(editingId) && form == old(form)
                                       && requests == old(requests) && error == old(error)
                                       && images == old(images) && success == old(success)
      ensures old(original).Some? && EditPayload(old(form), FormOf(old(original).value), old(images)) == []
              ==> editingId.None? && requests == old(requests) && form == old(form)
                  && images == old(images) && error == old(error) && success == old(success)
      ensures old(original).Some? && EditPayload(old(form), FormOf(old(original).value), old(images)) != []
              ==> requests == old(requests) + [UpdateProductRequest(productId, EditPayload(old(form), FormOf(old(original).value), old(images)))]
                              + RefetchOn(result, FetchProductsRequest)
                  && (result.Ok? ==> editingId.None? && form == EmptyForm && images == []
                                     && error.None? && success == Some("Product updated successfully"))
                  && (result.Fail? ==> editingId == old(editingId) && form == old(form)
                                       && images == old(images) && error == Some(result.message)
                                       && success == old(success))
      ensures original == old(original) && products == old(products) && filtered == old(filtered)
    {
      if original.None? {
        return;
      }
      var data, hasChanges := BuildEditPayload(form, FormOf(original.value), images);
      if !hasChanges {
        editingId := None;
        return;
      }
      SendUpdate(productId, data, result);
    }

    /** `updateProduct`, and what `handleSaveEdit` does with its reply. */
    method SendUpdate(productId: string, data: seq<Entry>, result: ApiResult)
      modifies this`requests, this`error, this`success, this`editingId, this`form, this`images
      ensures requests == old(requests) + [UpdateProductRequest(productId, data)] + RefetchOn(result, FetchProductsRequest)
      ensures result.Ok? ==> (editingId.None? && form == EmptyForm && images == []
                              && error.None? && success == Some("Product updated successfully"))
      ensures result.Fail? ==> (editingId == old(editingId) && form == old(form)
                                && images == old(images) && error == Some(result.message)
                                && success == old(success))
      ensures original == old(original) && products == old(products) && filtered == old(filtered)
    {
      requests := requests + [UpdateProductRequest(productId, data)];
      error := None;
      if result.Ok? {
        requests := requests + [FetchProductsRequest];
        success := Some("Product updated successfully");
        editingId := None;
        form := EmptyForm;
        images := [];
      } else {
        error := Some(result.message);
      }
    }

    /** `createProduct`: the checks, then the call. */
    method CreateProduct(result: ApiResult)
      modifies this`requests, this`error, this`success, this`form, this`images, this`isAdding
      ensures var e := CreateError(old(form), old(images));
              e.Some? ==> (error == e && requests == old(requests) && form == old(form)
                           && images == old(images) && isAdding == old(isAdding) && success == old(success))
      ensures var e := CreateError(old(form), old(images));
              e.None? ==> (requests == old(requests) + [CreateRequestOf(old(form), old(images))]
                                       + RefetchOn(result, FetchProductsRequest)
                           && (result.Ok? ==> form == EmptyForm && images == [] && !isAdding && error.None?
                                              && success == Some("Product created successfully"))
                           && (result.Fail? ==> form == old(form) && images == old(images)
                                                && error == Some(result.message)
                                                && isAdding == old(isAdding) && success == old(success)))
      ensures editingId == old(editingId) && original == old(original) && products == old(products)
    {
      error := None;
      var e := CreateError(form, images);
      if e.Some? {
        error := e;
        return;
      }
      SendCreate(CreateRequestOf(form, images), result);
    }

    /** The API call `createProduct` makes and what its reply does to the page. */
    method SendCreate(request: Request, result: ApiResult)
      modifies this`requests, this`error, this`success, this`form, this`images, this`isAdding
      ensures requests == old(requests) + [request] + RefetchOn(result, FetchProductsRequest)
      ensures result.Ok? ==> (form == EmptyForm && images == [] && !isAdding && error == old(error)
                              && success == Some("Product created successfully"))
      ensures result.Fail? ==> (form == old(form) && images == old(images) && error == Some(result.message)
                                && isAdding == old(isAdding) && success == old(success))
      ensures editingId == old(editingId) && original == old(original) && products == old(products)
    {
      requests := requests + [request];
      if result.Ok? {
        requests := requests + [FetchProductsRequest];
        form := EmptyForm;
        images := [];
        isAdding := false;
        success := Some("Product created successfully");
      } else {
        error := Some(result.message);
      }
    }

    /** `handleAddCategory`, with `createCategory` when the name is accepted. */
    method AddCategory(result: ApiResult)
      modifies this`requests, this`error, this`success, this`newCategory, this`categoryDescription, this`categoryParent
      ensures !CategoryNameAccepted(old(newCategory), old(categories)) ==>
        error == Some(CategoryRejected) && requests == old(requests) && newCategory == old(newCategory)
        && categoryDescription == old(categoryDescription) && categoryParent == old(categoryParent)
        && success == old(success)
      ensures CategoryNameAccepted(old(newCategory), old(categories)) ==>
        requests == old(requests) + [CreateCategoryRequest(Trim(old(newCategory)), Trim(old(categoryDescription)),
                                                           if Trim(old(categoryParent)) != "" then Some(Trim(old(categoryParent))) else None)]
                    + RefetchOn(result, FetchCategoriesRequest)
        && (result.Ok? ==> newCategory == "" && categoryDescription == "" && categoryParent == ""
                           && error.None? && success == Some("Category created successfully"))
        && (result.Fail? ==> newCategory == old(newCategory) && error == Some(CategoryCreateFailed)
                             && categoryDescription == old(categoryDescription)
                             && categoryParent == old(categoryParent) && success == old(success))
      ensures categories == old(categories) && products == old(products) && form == old(form)
    {
      if !CategoryNameAccepted(newCategory, categories) {
        error := Some(CategoryRejected);
        return;
      }
      error := None;
      var parent := Trim(categoryParent);
      requests := requests + [CreateCategoryRequest(Trim(newCategory), Trim(categoryDescription),
                                                    if parent != "" then Some(parent) else None)];
      if result.Ok? {
        requests := requests + [FetchCategoriesRequest];
        newCategory := "";
        categoryDescription := "";
        categoryParent := "";
        success := Some("Category created successfully");
      } else {
        error := Some(CategoryCreateFailed);
      }
    }

    function TotalStockShown(): int
      reads this
    {
      TotalStock(products)
    }

    function LowStockShown(): nat
      reads this
    {
      LowStockCount(products)
    }
  }

  lemma ImageEntriesAppend(files: seq<string>, f: string)
    ensures ImageEntries(files + [f]) == ImageEntries(files) + [Image(f)]
  {
    var l := ImageEntries(files + [f]);
    assert |l| == |files| + 1;
    assert forall i :: 0 <= i < |files| ==> l[i] == Image(files[i]);
  }
}
