# IceDeluxeWears client state, modelled in Dafny

IceDeluxeWears is a React storefront for a clothing shop, with an admin area. It has no
business logic on its server side that this project looks at. What can be stated about it
is the client-side state logic inside its React handlers. This project lifts that logic out.
A `useState` slot becomes a field of a class, a handler becomes a method, and a pure helper
or render decision becomes a function. Contracts and lemmas then pin down what each piece
promises.

The modules follow the program's files:

- `Cart` (`src/contexts/CartContext.js`): the cart store. It holds an ordered list of line
  items keyed by `${product.id}-${size}-${color}` and a single-slot toast. `addToCart`
  validates in order: size, then colour, then quantity. It then either merges into an
  existing line or appends a new one. `removeFromCart` and `updateQuantity` are keyed by
  line id. `cartCount` and `cartTotal` are folds over the list.
- `CartDrawer` (`src/components/CartDrawer.js`): what the drawer renders for a cart. It also
  computes what the per-line buttons ask the store to do: a decrement clamped at 1, an
  increment, and a remove.
- `HomePage` (`src/pages/HomePage.jsx`):
  - the storefront's field validator, stock classifier and stock guard;
  - the product modal's state (size, colour, quantity, errors);
  - category switching, and pagination at 8 products per page.
- `PaymentVerify` (`src/pages/PaymentVerify.jsx`): the payment confirmation page's state
  machine. It runs `verifying`, then `success`, `failed` or `error`, and picks the reference
  from the query string or the route.
- `AdminProducts` (`src/pages/admin/products.jsx`):
  - the product table's filter, sort configuration and comparator;
  - edit mode and the change-detecting update payload;
  - the create-product and add-category validation, and the stock statistics.
- `AdminOrders` (`src/pages/admin/orderPage.jsx`): the order edit form, saving with its
  timeline entry, the order filter and pagination at 10 per page.
- `AdminCustomers` (`src/pages/admin/customer.jsx`): the customer filter, the sort comparator
  and `handleSort` (which no control on the page calls), the modals, and the local status update and delete. It paginates at 10
  per page.
- `AdminShipping` (`src/pages/admin/shipping.jsx`): the two shipping lists (Abuja zones and
  inter-state rates). It covers the edit slots, save, cancel, delete and add-new, and
  parsing of the areas and price inputs.
- `ChangePassword` (`src/pages/admin/changePassword.jsx`): the password-strength scorer, the
  form validator and the submit gate.
- `CreateUser` (`src/pages/admin/createUser.jsx`): the create-user validator, including its
  email pattern `^[^\s@]+@[^\s@]+\.[^\s@]+$`, plus the input, reset and create handlers.
- Shared modules:
  - `Js`: the JavaScript value semantics the pages rely on. That covers `Option` for
    missing values, numbers as `NaN` or an integer, `trim`, ASCII `toLowerCase`,
    `includes`, `Number`, `parseInt`, `slice`, `split`, `join` and integer-to-string;
  - `Seqs`: filter and update-where over lists;
  - `Sorting`: an ordered insertion standing for `Array.prototype.sort`;
  - `Pagination`: the page arithmetic.

Asynchronous calls are modelled at the boundary, with no client code. Each awaited API
result is a parameter of the method that models the code running after it. That result is
success with data, failure with an optional message, or a thrown error. Prices and
quantities are integers.

## Model

| member | source | states |
|---|---|---|
| Cart.AddError | src/contexts/CartContext.js:19-36 | an add is refused exactly when the size is falsy, the colour is falsy or the quantity is missing, NaN or below 1; the first failing check, in that order, names the message |
| Cart.NewLine | src/contexts/CartContext.js:44-49 | the line built for a valid add carries the key `${product.id}-${size}-${color}`, the product and the requested quantity, which is at least 1 |
| Cart.FindIndex | src/contexts/CartContext.js:51 | the result is the first index whose key matches, or -1 exactly when no line has the key |
| Cart.AddRejected | src/contexts/CartContext.js:19-36 | a refused add leaves the cart as it was |
| Cart.AddToExistingLine | src/contexts/CartContext.js:51-57 | adding a key that is present grows that line by exactly the requested quantity and keeps the length and every other line |
| Cart.AddNewLine | src/contexts/CartContext.js:51-59 | adding a key that is absent appends the new line after all existing ones |
| Cart.AddKeepsIdsUnique | src/contexts/CartContext.js:51-59 | adding never makes two lines share a key |
| Cart.ItemCountAppend | src/contexts/CartContext.js:82 | `cartCount` of two lists put together is the sum of their counts |
| Cart.SubtotalAppend | src/contexts/CartContext.js:85-88 | `cartTotal` of two lists put together is the sum of their totals |
| Cart.SumsAfterReplace | src/contexts/CartContext.js:82-88 | replacing one line moves count and total by the difference between the old and the new line |
| Cart.AddRaisesCount | src/contexts/CartContext.js:51-82 | a successful add raises `cartCount` by exactly the requested quantity, whether it merged or appended |
| Cart.RepeatedAddsMerge | src/contexts/CartContext.js:51-59 | repeated adds of one product, size and colour to a cart without that key leave one line for it, at the end, holding the sum of the quantities, and the earlier lines untouched |
| Cart.RepeatedAddsGrow | src/contexts/CartContext.js:52-56 | repeated adds of a key already at index k only grow line k, by the sum of the quantities |
| Cart.CatalogueProductsShareLine | src/contexts/CartContext.js:48 | two different catalogue products (which have `_id` but no `id`) in the same size and colour end up on one line keyed `undefined-…`, the first product's, holding both quantities |
| Cart.RemoveDropsExactly | src/contexts/CartContext.js:68-70 | `removeFromCart` keeps, in order, exactly the lines with another key, and changes nothing when no line has the key |
| Cart.RemoveKeepsIdsUnique | src/contexts/CartContext.js:68-70 | removing never makes two keys clash |
| Cart.RemoveLine | src/contexts/CartContext.js:68-82 | with distinct keys, removing line k's key leaves the other lines in order and lowers `cartCount` by line k's quantity |
| Cart.RemoveAt | src/contexts/CartContext.js:68 | with distinct keys, filtering out line k's key drops exactly line k |
| Cart.ItemCountAround | src/contexts/CartContext.js:82 | the item count splits into the lines before k, line k's quantity and the lines after |
| Cart.SetQuantityChangesOnlyMatching | src/contexts/CartContext.js:73-79 | `updateQuantity` sets the quantity of the matching lines, leaves every other line and the length alone, and keeps keys distinct |
| Cart.SetQuantityCount | src/contexts/CartContext.js:73-82 | with distinct keys, setting line k to q moves `cartCount` by q minus the old quantity |
| Cart.AddKeepsPositive | src/contexts/CartContext.js:31-59 | adds only ever add at least one unit, so a cart whose lines all hold a unit keeps that |
| Cart.RemoveKeepsPositive | src/contexts/CartContext.js:68-70 | removing keeps every remaining line's quantity |
| Cart.SetQuantityHasNoLowerBound | src/contexts/CartContext.js:73-79 | the store accepts 0: `updateQuantity(id, 0)` leaves a line with no units |
| Cart.CartStore.constructor | src/contexts/CartContext.js:8-11 | the cart starts empty with the toast hidden, an empty message and type "success" |
| Cart.CartStore.ShowMessage | src/contexts/CartContext.js:20-22 | the toast slot shows the given message and type; the cart is untouched |
| Cart.CartStore.AddToCart | src/contexts/CartContext.js:15-65 | returns true exactly when validation passes; the cart becomes `Add(old cart)`; the toast always shows, with the failed check's message and type error, or "<name> added to cart!" and type success |
| Cart.CartStore.RemoveFromCart | src/contexts/CartContext.js:68-70 | the cart becomes the filtered list; the toast slots are untouched |
| Cart.CartStore.UpdateQuantity | src/contexts/CartContext.js:73-79 | the cart becomes the mapped list; the toast slots are untouched |
| Cart.CartStore.SetShowToast | src/contexts/CartContext.js:100 | only the toast's visibility changes |
| CartDrawer.ViewLine | src/components/CartDrawer.js:40-94 | a rendered line keeps the item's key and quantity and shows price times quantity as its amount |
| CartDrawer.ViewLines | src/components/CartDrawer.js:40 | one rendered line per cart line, in cart order |
| CartDrawer.Render | src/components/CartDrawer.js:9-127 | a closed drawer renders nothing; an open one shows "Your cart is empty" exactly for an empty cart and the `cartTotal` footer exactly for a non-empty one |
| CartDrawer.FooterIsSumOfLines | src/components/CartDrawer.js:86-106 | the footer total equals the sum of the amounts printed on the lines |
| CartDrawer.PressKeepsCartWellFormed | src/components/CartDrawer.js:60-93 | no button of the drawer brings a line below one unit or makes keys clash |
| CartDrawer.PlusAddsOne | src/components/CartDrawer.js:72-75 | plus raises `cartCount` by one |
| CartDrawer.MinusTakesOne | src/components/CartDrawer.js:60-66 | minus lowers `cartCount` by one, except on a line with one unit, where `Math.max(1, …)` leaves the cart unchanged |
| CartDrawer.RemoveTakesLine | src/components/CartDrawer.js:88-90 | Remove drops that line only and lowers `cartCount` by its quantity |
| HomePage.StockStatus | src/pages/HomePage.jsx:119-127 | "Sold Out" exactly when the stock is missing or 0, "Only n left" only for a known stock of at most 5, "Available" only above 5 |
| HomePage.BadgeAgreesWithButton | src/pages/HomePage.jsx:114-127 | for a stock that is missing or not negative, the badge reads "Sold Out" exactly when the "Select Options" button is disabled; a product in stock with at most 5 left shows that count; a negative stock is out of stock yet badged "Only n left" |
| HomePage.SetError | src/pages/HomePage.jsx:169-182 | only the named field's error is replaced |
| HomePage.ValidateField | src/pages/HomePage.jsx:129-153 | size and colour are refused exactly when empty, with their own messages; a quantity that is empty or not a number gets the invalid-quantity message, else one that `parseInt` reads below 1 gets the at-least-1 message, else one above a selected product's stock gets the stock message naming that stock, and any other is accepted |
| HomePage.QuantityError | src/pages/HomePage.jsx:139-147 | the three checks in order: empty or NaN gives the invalid-quantity message, then `parseInt` below 1 the at-least-1 message, then more than the selected product's stock the stock message; the error is empty exactly when none of the three applies |
| HomePage.ValidateQuantityNumeral | src/pages/HomePage.jsx:139-147 | an integer numeral is accepted exactly when it is at least 1 and within the selected product's known stock; below 1 it gets "Quantity must be at least 1", above the stock the message naming the stock |
| HomePage.BlankQuantityPassesBlur | src/pages/HomePage.jsx:139-147 | a quantity of white space only passes the blur check, `Number` reads it as 0, and the cart store then refuses it as an invalid quantity; the page's number input hands the handler "" instead, so this shows the handler, not a reachable page state |
| HomePage.ToTabs | src/pages/HomePage.jsx:42-47 | one tab per category, in order, with path `/categories/` plus the lower-cased name |
| HomePage.FindTab | src/pages/HomePage.jsx:100 | the index of the first tab with the name, or -1 exactly when there is none |
| HomePage.AllTabFetchesEverything | src/pages/HomePage.jsx:50-53 | after the categories load, choosing "All" fetches with the id `all` |
| HomePage.CategorySwitchStrandsPage | src/pages/HomePage.jsx:97-104 | the page number survives a category switch, so from page 2 on a category with at most 8 products shows an empty grid and no pager |
| HomePage.StockCheckIsPerAdd | src/pages/HomePage.jsx:185-202 | the stock check looks only at the quantity of this click: two adds of 3 against a stock of 5 both pass and the cart line ends with 6 |
| HomePage.AddedQuantityWithinStock | src/pages/HomePage.jsx:185-202 | a quantity that passes the stock check and the cart store's checks is between 1 and the known stock |
| HomePage.Storefront.constructor | src/pages/HomePage.jsx:12-29 | the page starts with no product selected, tab "All", no products, page 1, empty fields and no errors |
| HomePage.Storefront.LoadCategories | src/pages/HomePage.jsx:32-66 | a usable response sets the tabs to "All" followed by one tab per category and selects "All"; anything else keeps the tabs and sets the load error |
| HomePage.Storefront.LoadProducts | src/pages/HomePage.jsx:69-93 | a usable response replaces the products and clears the error; anything else keeps them and sets the load error; the page number is kept either way |
| HomePage.Storefront.ChangeCategory | src/pages/HomePage.jsx:97-104 | selects the tab and yields the id of the first tab with that name, or `all` |
| HomePage.Storefront.SelectProduct | src/pages/HomePage.jsx:380 | opens the modal on the product |
| HomePage.Storefront.Change | src/pages/HomePage.jsx:156-173 | stores the value in its field and clears only that field's error |
| HomePage.Storefront.Blur | src/pages/HomePage.jsx:175-183 | records the verdict of `validateField` for that field only |
| HomePage.Storefront.Close | src/pages/HomePage.jsx:209-219 | deselects the product and empties the fields and errors |
| HomePage.Storefront.AddToCart | src/pages/HomePage.jsx:185-207 | a quantity above the known stock only sets the stock error; otherwise the cart store's add runs, and on success the modal is closed and reset, while on refusal the modal stays and the toast carries the refusal |
| HomePage.Storefront.PrevPage | src/pages/HomePage.jsx:405 | the page goes down by one but not below 1 |
| HomePage.Storefront.NextPage | src/pages/HomePage.jsx:429 | the page goes up by one but not past the last page |
| HomePage.Storefront.GoToPage | src/pages/HomePage.jsx:414 | a numbered button sets that page |
| PaymentVerify.PaymentReference | src/pages/PaymentVerify.jsx:20 | the `reference` query parameter when it is truthy, else the route's transaction id; the result is truthy exactly when one of them is |
| PaymentVerify.StatusAfter | src/pages/PaymentVerify.jsx:31-48 | a settled call never leaves "verifying"; it is "success" exactly when the reply's status is `success`, and "error" exactly when the call threw |
| PaymentVerify.ErrorAfter | src/pages/PaymentVerify.jsx:36-47 | an error text is written exactly when the verification did not succeed; it is the reply's or the error's message when truthy, else the fixed fallback of its kind, and never empty |
| PaymentVerify.RenderBody | src/pages/PaymentVerify.jsx:70-170 | the spinner shows exactly while verifying, the receipt exactly on success with details, and the failure panel with the error text exactly on "failed" or "error" |
| PaymentVerify.FailureAlwaysExplained | src/pages/PaymentVerify.jsx:161-169 | every settled call that did not succeed shows the failure panel with a non-empty explanation |
| PaymentVerify.PaymentVerifier.constructor | src/pages/PaymentVerify.jsx:9-12 | the page starts "verifying" with no details, reference or error |
| PaymentVerify.PaymentVerifier.Start | src/pages/PaymentVerify.jsx:15-29 | with a truthy reference it is stored and sent to the payment API; without one the status becomes "error" with "No payment reference found" and nothing is sent |
| PaymentVerify.PaymentVerifier.Settle | src/pages/PaymentVerify.jsx:31-48 | the status becomes `StatusAfter`; a success stores the returned details, any other outcome stores `ErrorAfter` and keeps the details |
| AdminProducts.Compare | src/pages/admin/products.jsx:364-381 | the comparator answers -1, 0 or 1; 0 exactly when neither value is below the other, and -1 exactly when the first value is below the second (ascending) or above it (descending) |
| AdminProducts.CompareAntisymmetric | src/pages/admin/products.jsx:364-381 | swapping the two products negates the answer |
| AdminProducts.BeforeConsistent | src/pages/admin/products.jsx:364-381 | the comparator's strict part, "sorts before", is transitive and asymmetric on every list of products; transitivity of ties is not claimed |
| AdminProducts.MissingStockTies | src/pages/admin/products.jsx:364-381 | a product without a stock ties with stocks 1 and 2 while those two are strictly ordered, so ties are not transitive |
| AdminProducts.RequestSort | src/pages/admin/products.jsx:520-526 | a header click always sorts by that column, descending exactly when that column was already sorted ascending |
| AdminProducts.RequestSortTwiceToggles | src/pages/admin/products.jsx:520-526 | two clicks on the sorted column bring the sort back to where it was |
| AdminProducts.SortIndicator | src/pages/admin/products.jsx:529-532 | an arrow shows exactly on the sorted column, up for ascending and down for descending |
| AdminProducts.TableViewMembers | src/pages/admin/products.jsx:342-385 | the table holds exactly the products whose name or category name contains the search term, ignoring case, and that lie in the chosen category |
| AdminProducts.TableViewSorted | src/pages/admin/products.jsx:363-382 | with a sort column the table has no inversion: no product comes after one that the comparator puts strictly before it |
| AdminProducts.FormOf | src/pages/admin/products.jsx:399-409 | the edit form holds the product's price and stock as decimal numerals |
| AdminProducts.ImageEntries | src/pages/admin/products.jsx:444 | one `images` entry per picked file, in order |
| AdminProducts.KeysAppend | src/pages/admin/products.jsx:419-444 | the fields a payload carries are those of its two halves together |
| AdminProducts.ImagesHaveNoKey | src/pages/admin/products.jsx:444 | image entries carry no text field |
| AdminProducts.DiffKeys | src/pages/admin/products.jsx:422-441 | a field append carries its key exactly when that field changed |
| AdminProducts.PayloadShape | src/pages/admin/products.jsx:419-446 | a payload of five field appends then images carries exactly the keys of the changed fields |
| AdminProducts.PayloadSends | src/pages/admin/products.jsx:419-446 | each changed field is sent with its value |
| AdminProducts.EditPayloadKeys | src/pages/admin/products.jsx:419-446 | the update payload carries exactly the fields that differ from the original product, with the name and description trimmed |
| AdminProducts.EditPayloadEmpty | src/pages/admin/products.jsx:419-453 | the payload is empty, so no update is sent, exactly when the form still matches the original and no image is picked |
| AdminProducts.CreateError | src/pages/admin/products.jsx:138-165 | a product is sent exactly when every field is filled, an image is picked, the price parses as a float and the stock as an integer; an empty field gives "All fields are required", a missing image alone gives the image message, and with every field and an image a price that is not a float or a stock that is not an integer gives the numbers message |
| AdminProducts.StockWithTrailingTextPasses | src/pages/admin/products.jsx:158-165 | a stock such as "12 pcs" passes, because `parseInt` reads its leading digits as 12; the page's number inputs hand the handler "" instead, so this shows the check, not a reachable page state |
| AdminProducts.CategoryCheck | src/pages/admin/products.jsx:468-474 | a blank name or the exact name of an existing category is refused; any other name is accepted |
| AdminProducts.CaseDifferenceAccepted | src/pages/admin/products.jsx:469 | with a category "Shirts", the name "shirts" is accepted |
| AdminProducts.TotalStock | src/pages/admin/products.jsx:933 | the total of non-negative stocks is not negative |
| AdminProducts.TotalStockAppend | src/pages/admin/products.jsx:933 | the total stock of two lists together is the sum of their totals |
| AdminProducts.LowStockCount | src/pages/admin/products.jsx:945 | the low-stock count is at most the number of products |
| AdminProducts.NoLowStock | src/pages/admin/products.jsx:945 | the count is 0 exactly when every product holds at least 10, a missing stock counting as 0 |
| AdminProducts.ProductAdmin.constructor | src/pages/admin/products.jsx:8-51 | the page starts with no products, no filters, no sort column, an empty form and no requests |
| AdminProducts.ProductAdmin.Refresh | src/pages/admin/products.jsx:342-385 | with no products the table is left as it was; otherwise it becomes the filtered and sorted view |
| AdminProducts.ProductAdmin.RequestSortBy | src/pages/admin/products.jsx:520-526 | a header click makes the sort `RequestSort` of the old one and changes no other field |
| AdminProducts.ProductAdmin.StartEditing | src/pages/admin/products.jsx:399-409 | the product becomes the one edited and the original, and the form is filled from it |
| AdminProducts.ProductAdmin.ChangeField | src/pages/admin/products.jsx:535-541 | only the named form field changes |
| AdminProducts.ProductAdmin.AddImages | src/pages/admin/products.jsx:544-548 | the picked files are appended to the images |
| AdminProducts.ProductAdmin.BuildEditPayload | src/pages/admin/products.jsx:419-446 | builds `EditPayload`, with `hasChanges` set exactly when it is not empty |
| AdminProducts.ProductAdmin.AppendChange | src/pages/admin/products.jsx:422-441 | one field step: the entry is appended exactly when the field changed, and the flag becomes set exactly when it was set or the field changed |
| AdminProducts.ProductAdmin.AppendImages | src/pages/admin/products.jsx:444 | appends one image entry per file, in order |
| AdminProducts.ProductAdmin.SaveEdit | src/pages/admin/products.jsx:412-463 | with no original nothing happens; with no change the edit ends without a call; otherwise the payload is sent, and only a successful update ends the edit, clears the form and images and requests the product list again |
| AdminProducts.ProductAdmin.SendUpdate | src/pages/admin/products.jsx:216-237 | the payload is sent once; a successful reply ends the edit, clears the form and images and is followed by a product-list request, a failed one keeps them and shows its message |
| AdminProducts.ProductAdmin.CreateProduct | src/pages/admin/products.jsx:138-214 | a failing check only sets its message; otherwise the trimmed fields and parsed stock are sent, and a success clears the form, the images and the add panel and requests the product list again |
| AdminProducts.ProductAdmin.SendCreate | src/pages/admin/products.jsx:187-212 | the request is sent once; a successful reply clears the form and the images, closes the add panel, shows the success message and is followed by a product-list request, a failed one keeps the form and shows its message |
| AdminProducts.ProductAdmin.AddCategory | src/pages/admin/products.jsx:97-135 | a refused name sets the refusal message and sends nothing; an accepted one is sent trimmed, with a blank parent left out; a success clears the three category fields and requests the category list again |
| AdminProducts.ProductAdmin.LoadProducts | src/pages/admin/products.jsx:75-95 | a usable response replaces the products and the table and clears the error; anything else keeps them and sets the load error |
| AdminProducts.ProductAdmin.LoadCategories | src/pages/admin/products.jsx:55-72 | a usable response replaces the categories and clears the error; anything else keeps them and sets the load error |
| AdminProducts.ProductAdmin.SetSearch | src/pages/admin/products.jsx:610-615 | sets only the search term |
| AdminProducts.ProductAdmin.SetCategoryFilter | src/pages/admin/products.jsx:626 | sets only the category filter |
| AdminProducts.ProductAdmin.OpenAddProduct | src/pages/admin/products.jsx:637-643 | opens the add panel on an empty form, closes the category panel, leaves edit mode and clears the error |
| AdminProducts.ProductAdmin.ToggleCategories | src/pages/admin/products.jsx:651-657 | toggles the category panel, closes the add panel, empties the new category's name and clears the error |
| AdminProducts.ProductAdmin.CancelAdd | src/pages/admin/products.jsx:902-906 | closes the add panel and empties the form and the images |
| AdminProducts.ProductAdmin.CancelEdit | src/pages/admin/products.jsx:1095-1100 | leaves edit mode and empties the form and the images |
| AdminProducts.ProductAdmin.ChangeCategoryInput | src/pages/admin/products.jsx:693-714 | sets only the named input of the new-category form |
| AdminOrders.FormFor | src/pages/admin/orderPage.jsx:240-248 | the edit form copies the order's status and payment status, and its tracking number and note when truthy, else "" |
| AdminOrders.StatusEntry | src/pages/admin/orderPage.jsx:262-266 | the appended entry reads "Status updated to" plus the new status, carries the save's date, and notes "Updated by admin" followed by ": " and the note only when the note is non-empty |
| AdminOrders.SaveChangesOnlySelected | src/pages/admin/orderPage.jsx:252-271 | a save rewrites the four edited fields of every order with the selected id and appends exactly one timeline entry to it; other orders and other fields stay as they were, and the list keeps its length |
| AdminOrders.UneditedSaveOnlyLogs | src/pages/admin/orderPage.jsx:240-271 | saving an untouched form seeded from an order with a tracking number and a note changes only its timeline, which gains one entry |
| AdminOrders.SavingTwiceLogsTwice | src/pages/admin/orderPage.jsx:260-268 | two saves of the same form append two entries; the log is not deduplicated |
| AdminOrders.FilteredExactly | src/pages/admin/orderPage.jsx:278-284 | an order is listed exactly when the status filter is 'all' or its status, and the search text occurs, ignoring case, in its id, customer name or e-mail; the listed orders keep their order |
| AdminOrders.InitialFiltersListAll | src/pages/admin/orderPage.jsx:36-40 | with the initial filters every order is listed |
| AdminOrders.ShownPageInRange | src/pages/admin/orderPage.jsx:286-288 | a page within range shows between 1 and 10 orders, all of them listed by the filter |
| AdminOrders.OrderAdmin.constructor | src/pages/admin/orderPage.jsx:27-54 | the page starts with no orders, the initial filters, page 1, no modal open and no selection |
| AdminOrders.OrderAdmin.LoadOrders | src/pages/admin/orderPage.jsx:56-66 | the mount effect stores the given orders and changes nothing else |
| AdminOrders.OrderAdmin.ViewOrder | src/pages/admin/orderPage.jsx:234-237 | selects the order and opens the detail modal |
| AdminOrders.OrderAdmin.CloseDetail | src/pages/admin/orderPage.jsx:544 | closes the detail modal only |
| AdminOrders.OrderAdmin.EditOrder | src/pages/admin/orderPage.jsx:240-249 | selects the order, fills the form with `FormFor` and opens the edit modal |
| AdminOrders.OrderAdmin.ChangeForm | src/pages/admin/orderPage.jsx:727-775 | changes only the named form field |
| AdminOrders.OrderAdmin.CloseEdit | src/pages/admin/orderPage.jsx:783 | hides the edit modal and keeps the selection and form |
| AdminOrders.OrderAdmin.Save | src/pages/admin/orderPage.jsx:252-276 | the orders become `SaveChanges` for the selected id and form, the edit modal closes and the selection is cleared |
| AdminOrders.OrderAdmin.SetSearch | src/pages/admin/orderPage.jsx:386 | sets the search text and keeps the page number |
| AdminOrders.OrderAdmin.SetStatusFilter | src/pages/admin/orderPage.jsx:394 | sets the status filter and keeps the page number |
| AdminOrders.OrderAdmin.Previous | src/pages/admin/orderPage.jsx:508 | one page back, never below 1 |
| AdminOrders.OrderAdmin.Next | src/pages/admin/orderPage.jsx:528 | one page on, never past the filtered list's last page |
| AdminOrders.OrderAdmin.GoToPage | src/pages/admin/orderPage.jsx:521 | a numbered button sets that page |
| AdminCustomers.Compare | src/pages/admin/customer.jsx:70-78 | the comparator never answers 0; ascending it answers 1 exactly when the first value is above the second, descending exactly when it is below |
| AdminCustomers.TiesGoBothWays | src/pages/admin/customer.jsx:70-78 | two customers with the same value in the column are each placed before the other, so the comparator is inconsistent on ties |
| AdminCustomers.BeforeConsistent | src/pages/admin/customer.jsx:70-78 | when no two customers share a value in the column, the comparator is a consistent strict order |
| AdminCustomers.RowsArePermutation | src/pages/admin/customer.jsx:63-78 | the sorted table holds the filtered customers, each as often as the filter keeps it |
| AdminCustomers.RowsMembers | src/pages/admin/customer.jsx:63-68 | a customer is in the table exactly when it is in the list, its name or e-mail contains the search ignoring case, and the status filter is 'all' or its status |
| AdminCustomers.RowsSorted | src/pages/admin/customer.jsx:70-78 | when no two customers share a value in the column, the table is strictly ascending by it, or strictly descending |
| AdminCustomers.ToggleSort | src/pages/admin/customer.jsx:87-94 | `handleSort(field)`: on the current column it flips the direction, on any other column it starts ascending |
| AdminCustomers.ToggleTwiceRestores | src/pages/admin/customer.jsx:87-94 | two clicks on the current column restore its direction |
| AdminCustomers.PageOf | src/pages/admin/customer.jsx:81-83 | the slice from `page * 10 - 10` to `page * 10` is the same page as the storefront's and orders' pagination |
| AdminCustomers.SetStatusOnlySelected | src/pages/admin/customer.jsx:126-128 | the status edit changes the status of the customers with that id and nothing else, keeping the list's length |
| AdminCustomers.DeleteExactly | src/pages/admin/customer.jsx:141 | delete keeps, in order, exactly the customers whose id differs |
| AdminCustomers.DeleteOne | src/pages/admin/customer.jsx:141 | with unique ids, deleting the customer at k removes just that entry |
| AdminCustomers.CustomerAdmin.constructor | src/pages/admin/customer.jsx:6-21 | the table starts empty on page 1, sorted by `createdAt` descending, with status filter 'all' and no modal open |
| AdminCustomers.CustomerAdmin.Load | src/pages/admin/customer.jsx:26-52 | a successful fetch replaces the list; a failed or thrown one leaves it |
| AdminCustomers.CustomerAdmin.SetSearch | src/pages/admin/customer.jsx:174 | sets the search text and keeps the page number |
| AdminCustomers.CustomerAdmin.SetStatusFilter | src/pages/admin/customer.jsx:180 | sets the status filter and keeps the page number |
| AdminCustomers.CustomerAdmin.SortBy | src/pages/admin/customer.jsx:87-94 | `handleSort` as written: the sort becomes `ToggleSort` of the old one; nothing on the page calls it |
| AdminCustomers.CustomerAdmin.OpenEdit | src/pages/admin/customer.jsx:96-104 | selects the customer, fills the form with its name, e-mail and status, and opens the edit modal |
| AdminCustomers.CustomerAdmin.OpenDelete | src/pages/admin/customer.jsx:106-109 | selects the customer and opens the delete modal |
| AdminCustomers.CustomerAdmin.CloseModals | src/pages/admin/customer.jsx:111-115 | closes both modals and clears the selection |
| AdminCustomers.CustomerAdmin.ChangeStatus | src/pages/admin/customer.jsx:340 | changes only the form's status |
| AdminCustomers.CustomerAdmin.EditSubmit | src/pages/admin/customer.jsx:117-135 | after a successful call the selected customer's status is replaced and the modals close; a thrown call changes nothing |
| AdminCustomers.CustomerAdmin.DeleteConfirm | src/pages/admin/customer.jsx:137-146 | after a successful call every customer with the selected id is removed and the modals close; a thrown call changes nothing |
| AdminCustomers.CustomerAdmin.Previous | src/pages/admin/customer.jsx:280 | one page back, never below 1 |
| AdminCustomers.CustomerAdmin.Next | src/pages/admin/customer.jsx:296 | one page on, never past the table's last page |
| AdminCustomers.CustomerAdmin.GoToPage | src/pages/admin/customer.jsx:289 | a numbered button sets that page |
| AdminShipping.ParseAreas | src/pages/admin/shipping.jsx:174 | the areas read from the input are never blank |
| AdminShipping.ParseZonePrice | src/pages/admin/shipping.jsx:184 | the price falls back to 0: text that does not parse gives 0, otherwise the parsed integer |
| AdminShipping.ShippingAdmin.constructor | src/pages/admin/shipping.jsx:5-22 | the page starts with the given zones and rates and nothing being edited |
| AdminShipping.ShippingAdmin.EditZone | src/pages/admin/shipping.jsx:39-42 | the zone becomes the one edited and the draft a copy of it |
| AdminShipping.ShippingAdmin.EditRate | src/pages/admin/shipping.jsx:39-42 | the rate becomes the one edited and the draft a copy of it |
| AdminShipping.ShippingAdmin.Save | src/pages/admin/shipping.jsx:44-56 | the draft replaces every entry of the edited list with the edited id, the other list is untouched, and editing ends |
| AdminShipping.ShippingAdmin.Cancel | src/pages/admin/shipping.jsx:58-61 | editing ends and both lists are kept |
| AdminShipping.ShippingAdmin.Delete | src/pages/admin/shipping.jsx:63-69 | removes the entries with that id from the named list only |
| AdminShipping.ShippingAdmin.AddNew | src/pages/admin/shipping.jsx:71-96 | appends a blank zone, or a blank rate with courier "GIG Logistics", with the given id to the named list and opens it for editing |
| AdminShipping.ShippingAdmin.ChangeZoneName | src/pages/admin/shipping.jsx:167 | sets only the draft zone's name |
| AdminShipping.ShippingAdmin.ChangeZoneAreas | src/pages/admin/shipping.jsx:174 | sets only the draft zone's areas, to `ParseAreas` of the text |
| AdminShipping.ShippingAdmin.ChangeZonePrice | src/pages/admin/shipping.jsx:184 | sets only the draft zone's price, to `ParseZonePrice` of the text |
| AdminShipping.ShippingAdmin.ChangeZoneTimeframe | src/pages/admin/shipping.jsx:194 | sets only the draft zone's timeframe |
| AdminShipping.ShippingAdmin.ChangeRateState | src/pages/admin/shipping.jsx:288 | sets only the draft rate's state |
| AdminShipping.ShippingAdmin.ChangeRatePrice | src/pages/admin/shipping.jsx:296 | sets only the draft rate's price, to `parseInt` of the text, which may be NaN |
| AdminShipping.ShippingAdmin.ChangeRateTimeframe | src/pages/admin/shipping.jsx:304 | sets only the draft rate's timeframe |
| AdminShipping.ShippingAdmin.ChangeCourier | src/pages/admin/shipping.jsx:311 | sets only the draft rate's courier |
| AdminShipping.ReplaceZoneOnlyEdited | src/pages/admin/shipping.jsx:46-48 | a zone save replaces exactly the zones with the edited id by the draft and keeps every other zone in place |
| AdminShipping.ReplaceRateOnlyEdited | src/pages/admin/shipping.jsx:50-52 | a rate save replaces exactly the rates with the edited id by the draft and keeps every other rate in place |
| AdminShipping.DeleteZoneExactly | src/pages/admin/shipping.jsx:65 | deleting keeps, in order, exactly the zones with another id |
| AdminShipping.DeleteRateExactly | src/pages/admin/shipping.jsx:67 | deleting keeps, in order, exactly the rates with another id |
| AdminShipping.AddThenCancelKeepsBlank | src/pages/admin/shipping.jsx:71-83 | after add then cancel, the blank zone stays at the end of the list |
| AdminShipping.SaveUntouchedZone | src/pages/admin/shipping.jsx:44-48 | saving an untouched draft of a zone whose id is unique leaves the zones as they were |
| AdminShipping.ParseAreasSmall | src/pages/admin/shipping.jsx:174 | an empty input gives no areas, and a single non-blank area without ", " gives just that area |
| AdminShipping.AreasRoundTrip | src/pages/admin/shipping.jsx:173-174 | reading back the input's `areas.join(', ')` text gives the same areas when none is blank or contains ", " |
| AdminShipping.ZonePriceOfNumeral | src/pages/admin/shipping.jsx:184 | typing a decimal numeral as the zone price stores that number |
| ChangePassword.PasswordStrength | src/pages/admin/changePassword.jsx:21-57 | the five checks in order compute exactly `StrengthOf`: an empty password scores 0 with no label, any other one point per criterion met, labelled by the table of six, with the hints of the missing criteria in their fixed order; the length criterion counts UTF-16 code units, as `length` does |
| ChangePassword.CriteriaCount | src/pages/admin/changePassword.jsx:27-40 | every criterion is either met or missing, so the two lists hold five entries together |
| ChangePassword.CriteriaUnfold | src/pages/admin/changePassword.jsx:27-40 | the met and the missing criteria are picked criterion by criterion, in the order of the checks |
| ChangePassword.StrengthFromMissing | src/pages/admin/changePassword.jsx:42-56 | a score and the hints of the missing criteria, adding up to five, give the label of that score and the missing-criteria feedback |
| ChangePassword.ScoreCountsCriteria | src/pages/admin/changePassword.jsx:24-40 | the score is between 0 and 5, is 5 minus the number missing, and a criterion is listed as missing exactly when the password does not meet it |
| ChangePassword.AmongMembers | src/pages/admin/changePassword.jsx:27-40 | a criterion is picked exactly when it is among those checked and its verdict is the one asked for |
| ChangePassword.EveryCriterion | src/pages/admin/changePassword.jsx:27-40 | each of the five criteria is checked |
| ChangePassword.NonEmptyNeverVeryWeak | src/pages/admin/changePassword.jsx:30-48 | every character is a lowercase letter, an uppercase letter, a digit or something else, so a non-empty password scores at least 1 and "Very Weak" is never shown |
| ChangePassword.GreatIffAllMet | src/pages/admin/changePassword.jsx:48-55 | "Great password!" and "Very Strong" each appear exactly when every criterion is met |
| ChangePassword.HintsSnoc | src/pages/admin/changePassword.jsx:25-40 | the hints of a longer list extend the hints of the shorter one by the new criterion's hint |
| ChangePassword.BarColor | src/pages/admin/changePassword.jsx:275-277 | the bar is red exactly for a score of at most 1 and green exactly from 4 up |
| ChangePassword.Set | src/pages/admin/changePassword.jsx:87-90 | only the named field takes the new value |
| ChangePassword.ErrorOf | src/pages/admin/changePassword.jsx:60-80 | each field's error, both ways: the current password is required; the new one is required, then at least 6 UTF-16 code units long, then different from the current one; the confirmation is required, then equal to the new password |
| ChangePassword.AcceptedIffNoErrors | src/pages/admin/changePassword.jsx:60-83 | the error map is empty exactly when every field is filled in, the new password is at least 6 UTF-16 code units long and differs from the current one, and the confirmation repeats it |
| ChangePassword.EmojiPasswordLength | src/pages/admin/changePassword.jsx:69 | three emoji are six code units, so they pass the 6-unit check but not the 8-unit strength criterion |
| ChangePassword.MessageAfter | src/pages/admin/changePassword.jsx:135-172 | a settled request always leaves a non-empty message, of kind `success` exactly when the server accepted; 401 says the current password is wrong, and an unreadable reply body ends as a network error |
| ChangePassword.TypingClearsOnlyThatError | src/pages/admin/changePassword.jsx:93-98 | typing blanks only that field's error; the other errors stay as they were |
| ChangePassword.ChangePasswordForm.constructor | src/pages/admin/changePassword.jsx:5-18 | the form starts blank, with no errors, no message, every password hidden and nothing sent |
| ChangePassword.ChangePasswordForm.ValidateForm | src/pages/admin/changePassword.jsx:60-83 | records exactly the per-field errors of `ErrorOf` and reports success exactly when the form is acceptable |
| ChangePassword.ChangePasswordForm.InputChange | src/pages/admin/changePassword.jsx:85-104 | sets the field, blanks its error when one is showing, and clears a showing status message |
| ChangePassword.ChangePasswordForm.ToggleVisibility | src/pages/admin/changePassword.jsx:106-111 | flips the visibility of that field only |
| ChangePassword.ChangePasswordForm.Submit | src/pages/admin/changePassword.jsx:113-133 | validates, and posts the current and new passwords exactly when the form is acceptable, clearing the message and setting loading |
| ChangePassword.ChangePasswordForm.Settle | src/pages/admin/changePassword.jsx:135-175 | the message becomes `MessageAfter`; a success blanks the form and hides every password; loading ends either way |
| CreateUser.IsEmailInWords | src/pages/admin/createUser.jsx:51 | the e-mail pattern matches exactly the text with no white space, a single `@` with something before it, and a `.` after the `@`, neither right after it nor last |
| CreateUser.EmailNotBlank | src/pages/admin/createUser.jsx:50-51 | an address that matches the pattern is never blank |
| CreateUser.TypicalEmail | src/pages/admin/createUser.jsx:51 | `ada@example.com` matches |
| CreateUser.EmailNeedsDot | src/pages/admin/createUser.jsx:51 | `ada@example` does not match |
| CreateUser.EmailNeedsLocalPart | src/pages/admin/createUser.jsx:51 | `@example.com` does not match |
| CreateUser.EmailHasNoSpace | src/pages/admin/createUser.jsx:51 | `ada @example.com` does not match |
| CreateUser.Set | src/pages/admin/createUser.jsx:61 | only the named field takes the new value |
| CreateUser.ErrorOf | src/pages/admin/createUser.jsx:47-53 | each field's error once later checks overwrite earlier ones: a blank name is required; only the empty e-mail is required, any other non-matching one is invalid; a password of 1 to 5 UTF-16 code units is too short, an empty one or a blank one of 6 or more is required; the role is never checked; a blank address reaches the check only through the handler, since the page's e-mail input strips surrounding white space |
| CreateUser.AcceptedIffNoErrors | src/pages/admin/createUser.jsx:47-56 | the error map is empty exactly when the name is not blank, the e-mail matches, and the password is at least 6 UTF-16 code units long and is not blank |
| CreateUser.EmojiPasswordLength | src/pages/admin/createUser.jsx:53 | a password of three emoji is six code units and is not too short |
| CreateUser.BlankFormErrors | src/pages/admin/createUser.jsx:22-53 | the fresh form fails with the name, e-mail and password required |
| CreateUser.UserAdmin.constructor | src/pages/admin/createUser.jsx:17-44 | the page starts with no users, the modal closed, a blank form with role "user", no errors or message, and one fetch of the users requested |
| CreateUser.UserAdmin.FetchSettled | src/pages/admin/createUser.jsx:29-40 | a reply with data replaces the users, a reply without data empties them, and a thrown call leaves them; no other field changes |
| CreateUser.UserAdmin.OpenModal | src/pages/admin/createUser.jsx:96 | opens the modal; no other field changes |
| CreateUser.UserAdmin.CloseModal | src/pages/admin/createUser.jsx:133 | closes the modal; no other field changes |
| CreateUser.UserAdmin.ValidateForm | src/pages/admin/createUser.jsx:47-56 | records exactly the per-field errors of `ErrorOf` and reports success exactly when the form is acceptable |
| CreateUser.UserAdmin.InputChange | src/pages/admin/createUser.jsx:59-63 | sets the field and blanks its error when one is showing; no other field changes |
| CreateUser.UserAdmin.Create | src/pages/admin/createUser.jsx:66-72 | validates, and posts the form exactly when it is acceptable, clearing the message and setting loading; the users, the modal, the fetch count and the password toggle stay |
| CreateUser.UserAdmin.CreateSettled | src/pages/admin/createUser.jsx:72-83 | a success names the posted user in the message, clears the form, closes the modal and fetches the users again; a failure shows the server's message or "Creation failed" and keeps the form and the modal; loading ends either way; the users, the errors, the requests and the password toggle stay |
| CreateUser.UserAdmin.Reset | src/pages/admin/createUser.jsx:86-90 | blanks the form, the errors and the message; no other field changes |
| CreateUser.UserAdmin.TogglePassword | src/pages/admin/createUser.jsx:172 | flips whether the password is shown; no other field changes |
| Pagination.TotalPages | src/pages/HomePage.jsx:224 | `Math.ceil(n / size)`: no pages exactly when there is nothing to show, and otherwise the smallest page count whose pages hold every entry |
| Pagination.PageInRange | src/pages/HomePage.jsx:227-228 | a page within range is the stretch starting at `(page - 1) * size`, holding between 1 and `size` entries |
| Pagination.PageOutOfRange | src/pages/HomePage.jsx:227-228 | page 0 and pages past the last one are empty |
| Pagination.FirstPagesPrefix | src/pages/HomePage.jsx:227-228 | pages 1 to k put together are the first `k * size` entries |
| Pagination.PagesCoverList | src/pages/HomePage.jsx:224-228 | reading every page in turn shows each entry exactly once, in order |
| Pagination.PrevPage | src/pages/HomePage.jsx:405 | `Math.max(page - 1, 1)`: one page back, never below 1 |
| Pagination.NextPage | src/pages/HomePage.jsx:429 | `Math.min(page + 1, totalPages)`: one page on, never past the last |
| Pagination.ButtonsStayInRange | src/pages/HomePage.jsx:398-429 | from a page within range both buttons lead to a page within range |
| Pagination.NextWithNoPages | src/pages/HomePage.jsx:429 | with nothing to show there are 0 pages and Next moves from page 1 to page 0 |
| Js.OrElse | src/pages/PaymentVerify.jsx:41 | a possibly missing string or its fallback: the value when it is truthy, else the fallback |
| Js.Length | src/pages/admin/changePassword.jsx:27 | `length` counts UTF-16 code units: at least one and at most two per character, and exactly one per character when none lies outside the Basic Multilingual Plane |
| Js.LengthOfEmoji | src/pages/admin/createUser.jsx:53 | three emoji are three characters but six code units |
| Js.TrimStartShape | src/pages/admin/changePassword.jsx:63 | `trimStart` removes a run of white space from the front and nothing else |
| Js.TrimEndShape | src/pages/admin/changePassword.jsx:63 | `trimEnd` removes a run of white space from the back and nothing else |
| Js.TrimEmptyIffBlank | src/pages/admin/changePassword.jsx:63 | `!s.trim()` holds exactly when every character of `s` is white space |
| Js.TrimUnchanged | src/pages/admin/products.jsx:469 | a string that neither starts nor ends with white space is its own trim |
| Js.ToLower | src/pages/admin/customer.jsx:64 | lower-casing keeps the length and maps each character on its own |
| Js.ContainsAt | src/pages/admin/customer.jsx:64 | `includes` holds exactly when the text occurs at some index |
| Js.NatToStringValue | src/pages/admin/products.jsx:405-406 | the decimal rendering of a number reads back as that number |
| Js.ParseIntOfDigits | src/pages/admin/products.jsx:158 | `parseInt` of a run of digits is its decimal value |
| Js.ParseIntOfNegDigits | src/pages/admin/shipping.jsx:296 | `parseInt` of a minus sign and digits is the negated value |
| Js.ParseIntOfIntToString | src/pages/admin/shipping.jsx:184 | `parseInt` reads back the rendering of any integer |
| Js.ToNumberOfIntToString | src/pages/HomePage.jsx:187 | `Number` reads back the rendering of any integer |
| Js.Slice | src/pages/HomePage.jsx:228 | `slice` never yields more entries than the list holds |
| Js.SliceWithin | src/pages/HomePage.jsx:228 | with bounds inside the list, `slice` is the plain stretch between them |
| Js.IndexOf | src/pages/admin/shipping.jsx:174 | the first index at which the separator occurs, or -1 when it occurs nowhere |
| Js.Split | src/pages/admin/shipping.jsx:174 | `split` always yields at least one piece |
| Js.SplitStep | src/pages/admin/shipping.jsx:174 | at the first occurrence of the separator, `split` yields the text before it and then splits the rest |
| Js.JoinSplit | src/pages/admin/shipping.jsx:173-174 | joining the pieces of a split with its separator gives the text back |
| Js.SplitJoin | src/pages/admin/shipping.jsx:173-174 | splitting pieces joined by a two-character separator gives the pieces back when none contains it |
| Seqs.Filter | src/pages/admin/shipping.jsx:65 | `filter` keeps only entries of the list that pass, and keeps every one that passes |
| Seqs.FilterMembers | src/pages/admin/customer.jsx:141 | an entry survives `filter` exactly when it is in the list and passes |
| Seqs.FilterIsSubsequence | src/pages/admin/customer.jsx:63 | `filter` keeps the surviving entries in their original order |
| Seqs.FilterKeepsAll | src/pages/admin/orderPage.jsx:278 | when every entry passes, `filter` changes nothing |
| Seqs.FilterDropsOne | src/contexts/CartContext.js:68-70 | when only the entry at j fails, `filter` removes just that entry |
| Seqs.FilterAppend | src/contexts/CartContext.js:68 | filtering a concatenation is filtering each part in turn |
| Seqs.UpdateWhere | src/pages/admin/customer.jsx:126-128 | `map(x => matches(x) ? f(x) : x)` keeps the length, rewrites the matching entries and keeps the others |
| Seqs.UpdateNothing | src/pages/admin/orderPage.jsx:253-270 | when nothing matches, the rewrite leaves the list as it was |
| Seqs.FindIndex | src/contexts/CartContext.js:51 | `findIndex`: the first index whose entry matches, or -1 exactly when no entry matches |
| Sorting.StrLessIrreflexive | src/pages/admin/customer.jsx:74-77 | no string is below itself under `<` |
| Sorting.StrLessTransitive | src/pages/admin/customer.jsx:74-77 | `<` on strings is transitive |
| Sorting.StrLessTotal | src/pages/admin/customer.jsx:74-77 | of two different strings one is below the other |
| Sorting.LessAsymmetric | src/pages/admin/products.jsx:374-379 | no two column values are each below the other |
| Sorting.LessTransitive | src/pages/admin/products.jsx:374-379 | `<` on column values is transitive |
| Sorting.LessTotal | src/pages/admin/products.jsx:374-379 | of two different strings, or two different numbers, one is below the other |
| Sorting.Sort | src/pages/admin/customer.jsx:70 | the sort returns the same entries, each as often |
| Sorting.InsertOrdered | src/pages/admin/customer.jsx:70 | inserting into an ordered list under a consistent comparator keeps it ordered |
| Sorting.SortOrdered | src/pages/admin/products.jsx:364 | sorting with a comparator that is consistent on the list yields its order |

## Left out

- Network, storage and navigation: `src/utils/endpoint.js`, `src/contexts/AuthContext.jsx` and the axios layer are not part of this model. Each API reply is a parameter of the method that handles it.
- `verifyPayment` is not defined in `src/utils/endpoint.js`, so its outcome is a parameter of `PaymentVerify.PaymentVerifier.Settle`: a success-status reply, another reply, or a thrown error.
- The effect that re-runs when `transactionId` changes is modelled as one call to `PaymentVerify.PaymentVerifier.Start` per run. React's scheduling is left out.
- Timers: the toast's 5000 ms auto-dismiss and the pages' success-message timeouts are left out. Dismissal is the explicit `setShowToast(false)`.
- Loading and spinner flags are left out: the storefront's, the products page's, the customers page's, and `loadingUsers` on the create-user page. None of them affects the data.
- Floating point: prices are integers. `toFixed`, `toLocaleString` and the amount-divided-by-100 display on the payment page are left out.
- Js.ToNumber: numerals are decimal integers only. Any numeral with a decimal point is `NaN` in the model: "2.5", where JavaScript gives 2.5, and also "5.0" and "5.", where JavaScript gives 5. Hexadecimal, exponent and `Infinity` forms are left out.
- Js.ParseInt: reads a decimal digit prefix only. The `0x` prefix that JavaScript accepts is left out.
- Js.ToLower: lower-cases ASCII letters only. JavaScript's full Unicode case mapping is left out.
- Strings are sequences of Unicode scalar values. The password length checks count UTF-16 code units through Js.Length, as `length` does. The regular-expression tests of the password criteria and of the e-mail pattern are modelled on characters. They give the same verdict on code units, because none of their classes names a character outside the Basic Multilingual Plane, and a negated class accepts both halves of a surrogate pair exactly when it accepts the pair.
- Sorting.StrLess: compares Dafny characters, which are Unicode scalar values. JavaScript compares UTF-16 code units, and the two orders differ only outside the Basic Multilingual Plane.
- Sorting.Sort: an insertion sort standing for `Array.prototype.sort`. Its contract states a permutation, ordered by the comparator. The engine's tie order is not modelled. For a comparator that never returns 0, the result on equal keys is unspecified in JavaScript, and the model fixes one such order.
- AdminProducts.TableViewSorted / AdminProducts.BeforeConsistent: when a stock is missing, its key is undefined and the comparator returns 0 against every product (AdminProducts.MissingStockTies). A missing category name does the same, but only under the `category.name` key, which no header on the page reaches. So it is not a consistent comparator and JavaScript's resulting order is implementation-defined. The model's insertion sort fixes one order, and the contracts state only that no strictly ordered pair is inverted.
- AdminProducts.ProductAdmin.RequestSortBy: the Category header and its cell are commented out (products.jsx:975-980 and 1118-1126), so only the `_id`, `name`, `price` and `stock` headers call `requestSort`; the method models `requestSort` as written, and `ByCategoryName` is kept because the function accepts that key.
- Cart.CartStore.AddToCart: the merge in the source mutates `updated[idx].quantity` in place, which also changes the line object shared with the previous state. The model replaces the line by value, so that aliasing is not captured.
- Date values: `Date.now()` ids in shipping and the `new Date()` timeline timestamps in orders are passed in as opaque parameters.
- AdminProducts.ProductAdmin.CreateProduct: the request models the fields and images but not the price. The price is sent through `parseFloat`, a floating-point value left out of this model.
- AdminProducts.ProductAdmin.StartEditing: requires the product to have a stock. The source calls `product.stock.toString()` and would throw without one, so the model leaves that throw out. AdminProducts.FormOf has the same precondition.
- FileReader image previews and the construction of `FormData` beyond the set of fields appended are left out.
- The products page's `deleteProduct`, `updateCategory`, `deleteCategory`, `handleSaveCategory` and `startEditingCategory` are API calls followed by a refetch, and are left out. After a successful create or update the model records the refetch request (the product list, or the category list after a category is created) but not the refetched data.
- The orders page's date-range select filters nothing in the source, and the content of its sample orders is left out.
- The customers page's mapping of `_id` to `id` is taken as already applied to the loaded list.
- HomePage.Storefront.AddToCart: requires a selected product, since the page renders the modal only then. It does not require stock. The disabled button is not modelled, so the stock guard itself is what the contract states.
- AdminOrders.OrderAdmin.Save: requires a selected order, which the edit modal is only opened with.
- AdminShipping.ShippingAdmin.Save: requires an item being edited, since the save button only exists then. The change-input methods require a draft of the matching kind (zone or rate).
- AdminCustomers.CustomerAdmin.Load / AdminCustomers.CustomerAdmin.EditSubmit / AdminCustomers.CustomerAdmin.DeleteConfirm: `getCustomers`, `updateCustomerStatus` and `deleteCustomer` are not defined in `src/utils/endpoint.js` either. As written, each call throws a `TypeError` inside its `try`, so the list stays empty and the edit and delete always take the `catch` branch and change nothing. The thrown outcome is the one the page reaches. The success branches of the three methods model the intended API.
- AdminCustomers.CustomerAdmin.SortBy: the page never wires `handleSort` to a control, since the table headers have no click handler. The only sort the page reaches is the initial `createdAt` descending one; the method models the handler as written.
- AdminCustomers.CustomerAdmin.EditSubmit and AdminCustomers.CustomerAdmin.DeleteConfirm: each requires its modal to be open, since the modal holds the only button that calls it.
- CreateUser.UserAdmin.CreateSettled: requires a create request to be in flight, as the page only settles one it sent.
- Colour and class lookups such as `getStatusColor` are left out, apart from the password-strength bar colour.
- The checkout, dashboard, invoice, receipt, routing, layout and toast-component files are not part of this model. None of them computes state beyond the cart's own total.
