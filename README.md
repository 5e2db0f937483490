# Shopping assistant tools — Dafny model

This project models the tool layer of a small conversational shopping
assistant (`tools.py`): the filtered catalog search, the process-wide
shopping cart with its add / remove / view tools, the checkout total, and the
two fixed lookup tables (delivery estimates and order statuses).

- `text.dfy` — `Wrappers.Option`, and module `Text`: `str.lower()` on ASCII
  letters, the substring test `needle in hay` (proved equal to the existential
  definition), and the decimal rendering of integers used in messages.
- `catalog.dfy` — module `Catalog`: `Product`, the four optional filters,
  the reference filter `Matching`, the result `Search` (first two matches),
  and the search loop `SearchProducts`, which is proved to compute `Search`.
- `cart.dfy` — module `CartStore`: the cart dict as a value (`CartState`:
  the entries plus the key insertion order, which is the order a Python dict
  is iterated in), the tool specifications `Add`, `Remove` and `View`, the
  delete branch as the source has it (`RemoveAsWritten`), and the class
  `Cart` whose fields hold the dict and whose methods change it in place.
- `checkout.dfy` — module `Checkout`: the total `Σ UnitPrice × Quantity`
  over a list of cart lines and the three checkout outcomes.
- `lookups.dfy` — module `Lookups`: `estimated_delivery_time` and
  `order_status` with their defaults.

Prices are Dafny `real` values (exact), quantities are unbounded `int`.
The replies of `add_to_cart` and `remove_from_cart` are rendered to their
exact texts by `Message()`, with each integer written in canonical decimal.
The replies of `view_cart` and `checkout` are kept as values: the lines and
the total, which the source formats from floats. Their fixed empty-cart texts,
"Cart is empty." and "Your cart is empty. Please add some items before
proceeding to checkout.", are written out in the doc comments of `ViewReply`
and `CheckoutReply` and are not produced as strings.

Default arguments are named constants: `estimated_delivery_time()` without a
country is `EstimatedDeliveryTime(DefaultCountry)` (Canada), and `checkout(cart)`
without the flag is `Checkout(lines, DefaultUserConfirmed)`, which is `false`.

`view_cart` has no `modifies` clause in the model (`Cart.ViewCart`), so the
verifier itself guarantees it leaves the cart unchanged.

The model follows the code where a cleaner design might differ: quantities
passed to `add_to_cart` and `remove_from_cart` are not validated (a
non-positive quantity is accepted and applied as written), and the cart is
never cleared by a confirmed checkout.

## Model

| member | source | states |
|---|---|---|
| `Text.IntToString` | tools.py:83 | the text is the canonical decimal form of the integer (no leading zeros, a `-` for negatives) and its digits have exactly the integer's value, as `str()` writes it in the f-strings |
| `Text.ContainsIsSubstring` | tools.py:48 | the executable substring test holds exactly when the needle occurs at some position of the text (Python's `in` on strings) |
| `Catalog.SearchProducts` | tools.py:24-61 | the filter loop (each failing filter skips the product, survivors are appended, the list is cut to two) returns exactly `Search(catalog, f)`, at most two products |
| `Catalog.MatchingIsFilter` | tools.py:46-58 | the matches are exactly the catalog's products that pass every filter: each match passes and comes from the catalog, every passing product is a match, each passing product occurs as often as in the catalog, and the matches are a subsequence of the catalog |
| `Catalog.SearchSound` | tools.py:47-58 | every returned product is from the catalog, contains the lower-cased description as a substring of its lower-cased description (when a non-empty description is given), has `UnitPrice >= min_price`, `UnitPrice <= max_price` and `Quantity >= quantity` for each supplied bound |
| `Catalog.SearchKeepsCatalogOrder` | tools.py:46-61 | the result is a subsequence of the catalog, so catalog order is kept |
| `Catalog.SearchIsFirstMatches` | tools.py:60-61 | the result is the prefix of the matches of length `min(2, #matches)` |
| `Catalog.SearchDecidedByFirstMatches` | tools.py:46-61 | once a catalog prefix holds two matches, products after it cannot change the result |
| `Catalog.SearchNoFilters` | tools.py:24-61 | with every filter absent the search returns the first two catalog entries |
| `Catalog.EmptyDescriptionImposesNothing` | tools.py:48 | an empty description string filters exactly like an absent one |
| `CartStore.AddToExistingLine` | tools.py:73-75 | adding to a present stock code raises that line's quantity by the amount and keeps its description, its unit price, the key order and every other line |
| `CartStore.AddNewLine` | tools.py:76-82 | adding a new stock code inserts exactly `{Description, UnitPrice, Quantity=quantity}` from the product, appended to the key order, and keeps every other line |
| `CartStore.AddPreservesWellFormed` | tools.py:72-82 | after an add the key order still lists each key of the dict exactly once |
| `CartStore.AddPreservesPositive` | tools.py:72-82 | adding a positive quantity keeps every line's quantity positive |
| `CartStore.AddTwiceAccumulates` | tools.py:72-83 | two adds of the same stock code give one line with the summed quantity and the description and price of the first insertion |
| `CartStore.AddReply.Message` | tools.py:83 | the reply is "Added <quantity> of <description> to cart." with the quantity in decimal |
| `CartStore.RemoveReply.Message` | tools.py:92-104 | the four replies are "Removed <q> of <description> from cart.", "Removed <description> from cart.", "Cannot remove <q>; only <held> available." and "Item not found in cart.", with quantities in decimal |
| `CartStore.WithoutMembers` | tools.py:99 | deleting a key from the key order drops exactly that key |
| `CartStore.RemoveUnknownCode` | tools.py:103-104 | a stock code not in the cart returns "Item not found in cart." and leaves the cart unchanged |
| `CartStore.RemoveTooMany` | tools.py:101-102 | asking for more than held returns the "Cannot remove q; only h available." status with the held amount and leaves the cart unchanged |
| `CartStore.RemoveFewer` | tools.py:93-96 | asking for less than held lowers that line by exactly the amount, keeps its description and price, and changes nothing else |
| `CartStore.RemoveAll` | tools.py:97-100 | asking for exactly the held amount deletes the key from the dict and the key order, keeps every other line, and reports the description the line had before deletion |
| `CartStore.WithoutSplits` | tools.py:99 | in a key order without repeats, deleting a key cuts out exactly its one position and keeps the rest in order |
| `CartStore.RemoveAllKeepsOrder` | tools.py:97-99 | after a line is deleted the remaining keys keep their relative order, which is the order `view_cart` lists them in |
| `CartStore.RemovePreservesWellFormed` | tools.py:85-104 | after a remove the key order still lists each key of the dict exactly once |
| `CartStore.RemovePreservesPositive` | tools.py:93-99 | a remove never leaves a line at zero or below: a line brought to zero is deleted |
| `CartStore.AddThenRemoveRestores` | tools.py:65-104 | from a cart of positive lines, removing the quantity just added (any integer amount) restores the cart exactly, key order included |
| `CartStore.RemoveAsWrittenDeleteRaises` | tools.py:97-100 | as written, removing exactly the held amount deletes the key and then raises `KeyError` instead of returning the message |
| `CartStore.RemoveAsWrittenAgreesElsewhere` | tools.py:85-104 | the code as written and the corrected remove change the cart identically on every input and return the same value outside the delete branch |
| `CartStore.ViewListsEveryLine` | tools.py:106-118 | the view lists one line per cart entry, at its key's position in insertion order, and is "Cart is empty." exactly when the cart is empty |
| `CartStore.RemoveAllHidesFromView` | tools.py:97-118 | after removing a line's whole quantity its key is gone from the listing order, the view has one line fewer, and it is empty exactly when that was the only line |
| `CartStore.Cart.constructor` | tools.py:63 | the cart starts empty |
| `CartStore.Cart.AddToCart` | tools.py:65-83 | updates the fields in place to exactly the state `Add` gives and returns its reply |
| `CartStore.Cart.RemoveFromCart` | tools.py:85-104 | updates the fields in place to exactly the state `Remove` gives (description captured before the delete) and returns its reply |
| `CartStore.Cart.ViewCart` | tools.py:106-118 | builds the listing in a loop over the keys in insertion order, equal to `View` of the current cart, without changing it |
| `Checkout.Checkout` | tools.py:122-136 | the empty-cart message exactly for an empty list; otherwise the confirmation prompt when not confirmed and the payment message when confirmed |
| `Checkout.QuoteAndConfirmationAgree` | tools.py:129-136 | the unconfirmed and the confirmed call on the same lines report the same total, `Σ UnitPrice × Quantity` |
| `Checkout.TotalAppend` | tools.py:129 | the total of two lists of lines put together is the sum of their totals |
| `Checkout.TotalNonNegative` | tools.py:129 | with non-negative prices and quantities the total is non-negative |
| `Checkout.TotalIgnoresOrder` | tools.py:129 | two insertion orders of the same distinct keys give the same total |
| `Checkout.CheckoutOfCart` | tools.py:122-136 | checking out a cart gives the empty-cart message exactly when the cart is empty, and the same reply for any two carts with the same entries |
| `Checkout.WorkedExample` | tools.py:65-136 | 4 then 1 of a product at 2.50 give one line of 5, a quote of 12.50, and removing all 5 empties the cart |
| `Checkout.CartSession` | tools.py:65-136 | driving one `Cart` object through add 4, add 1, an unconfirmed checkout (the default flag), remove 5 and view gives the quote 12.50 and then "Cart is empty.", from the methods' contracts alone |
| `Lookups.DeliveryTime` | tools.py:155-162 | UK gives 2-3, US and Canada 5-7, Australia 7-10 business days, any other country the default "7-10 business days" |
| `Lookups.EstimatedDeliveryTime` | tools.py:151-162 | the message is exactly "Estimated delivery time to " and the country, then ": ", then that country's estimate |
| `Lookups.DeliveryTimeIsTabled` | tools.py:151-162 | every estimate is one of the three table durations, and the default country Canada gets 5-7 business days |
| `Lookups.OrderStatus` | tools.py:165-179 | ids "1" to "6" give their table status and any other id gives "Order ID not found." (both directions) |

## Findings

| source | as written | input that shows it | evidently intended | confidence | as-written member | corrected member |
|---|---|---|---|---|---|---|
| tools.py:97-100 | the line is deleted with `del cart[stock_code]`, then the message reads `cart[stock_code]['Description']` from the dict it was just deleted from, raising `KeyError` (the line is gone, no message is returned) | a cart holding stock code "A" with quantity 5, then `remove_from_cart("A", 5)` | delete the line and return "Removed <description> from cart." with the description read before the delete | high; not executed | `CartStore.RemoveAsWrittenDeleteRaises` | `CartStore.RemoveAll` |

`CartStore.Remove` and `CartStore.Cart.RemoveFromCart` use the corrected
behaviour; `CartStore.RemoveAsWritten` keeps the code as written.

## Left out

- `load_products_from_json` (tools.py:9-22): file I/O; the catalog is a parameter of the search. Its failure path (returning an error string, which the search loop would then iterate) is not modelled.
- `json.dumps` of the search result (tools.py:61): the model returns the list of products.
- Float rendering: the `:.2f` totals of the checkout messages and the `${item['UnitPrice']}` text of each `view_cart` entry; `CheckoutReply` and `ViewReply` carry the total and the lines instead of the text.
- Floating point: prices are exact reals, so rounding in comparisons and in the checkout sum is not modelled.
- `Text.Lower`: only ASCII letters are lowered; Python's Unicode-wide `str.lower()` is not modelled.
- Missing or mistyped dictionary fields in `product_data` or in catalog records (a `KeyError` or `TypeError` in Python) cannot occur with the typed `Product` record.
- `checkout` is modelled over a list of cart lines, as its loop expects; calling it with the cart dict itself (whose iteration yields stock codes, not records) is not modelled.
- `payment_options` and `thank_you` (tools.py:139-149): constant strings with no behaviour.
- utils.py (tool-node error fallback, event printing, the console chat loop), data/convert_to_json.py (the CSV cleaning batch job) and shopping_assistant.py (the keyword dialogue stub) are not part of this model: framework calls and console I/O.
- Concurrent or multi-session use of the cart: the source is single-threaded and `Cart` is one object.
