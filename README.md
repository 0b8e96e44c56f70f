# herevemarket storefront: a Dafny model

This project models the order-taking core of the herevemarket grocery app and
proves properties of that model. The core has five parts:

- **`apiFetch`** (`src/services/api/client.ts`): the client's API helper. It builds the URL and
  the headers, classifies the answer, and produces the error message it
  throws with (`safeErrorMessage`). This is module `ApiClient`.
- **`getProducts`** (`src/services/api/products.ts`): it accepts three response shapes, maps each raw record to a
  `ProductDto` and drops products without an id. This is module `ProductsApi`.
- **The category screen's filter** (`src/screen/CategoryProductsScreen.tsx`). This is module `CategoryProducts`.
- **The backend `/products` route** (`backend/src/routes/products.js`):
  - `normalizeProduct`;
  - the listing of active products;
  - the validation and defaulting of a new product.

  This is module `BackendProducts`.
- **The home page component** (`src/screen/HomePage.tsx`):
  - loading products and categories with their fallbacks, and the campaign category;
  - category selection and swiping;
  - the cart details and total;
  - address and card saving and deleting;
  - the order payload and order submission, including the order id fallback.

  Pure helpers live in modules `Catalog` and `Checkout`. The component's
  state and event handlers form the class `HomePage.Storefront`. Each handler
  is a method, and its `ensures` gives the whole new state through
  `Snapshot()`.

Two shared modules support the rest:

- **`Js`** models the JavaScript values and coercions the code relies on:
  JSON values, `undefined` (as `None`), truthiness, `??`, `String(x)`,
  `Number(x)` on strings, and `trim`.
- **`Seqs`** holds `find`, `findIndex` and `filter` over sequences.

The network, the clock, `Math.random()` and `JSON.parse` are inputs to the
model. They are not computed. The database is not modelled: the stored
documents, already sorted by creation time, are an input to the listing.

## Model

| member | source | states |
|---|---|---|
| ApiClient.StripTrailingSlash | src/services/api/client.ts:12 | at most one trailing `/` is removed, and it is removed exactly when the base URL ends with one |
| ApiClient.BuildUrl | src/services/api/client.ts:12-14 | a path starting with `http` is used as is; otherwise the URL is the base without its trailing slash, then `/`, then the path without its leading slash |
| ApiClient.LeadingSlashIrrelevant | src/services/api/client.ts:13-14 | `"/x"` and `"x"` give the same URL |
| ApiClient.TrailingSlashIrrelevant | src/services/api/client.ts:12 | a base URL with or without a trailing slash gives the same URL |
| ApiClient.RelativeUrlShape | src/services/api/client.ts:12-14 | a relative path's URL is the stripped base, one `/`, and the path |
| ApiClient.Appended | src/services/api/client.ts:6 | appending a header adds its lower-cased name; a repeated name holds the old value, `, ` and the new value, and a new name holds the value alone; every other header is unchanged |
| ApiClient.InitEntries | src/services/api/client.ts:6 | every name of the init pairs is present, lower-cased |
| ApiClient.InitEntriesNames | src/services/api/client.ts:6 | the headers built from an init list have exactly the lower-cased names of its pairs |
| ApiClient.WithJsonDefault | src/services/api/client.ts:8-10 | Content-Type is present afterwards iff it was present before or there is a body; existing headers are kept; the only header added is Content-Type, with value `application/json` |
| ApiClient.Headers.constructor | src/services/api/client.ts:6 | the loop over the init pairs ends with exactly the entries `InitEntries` describes |
| ApiClient.Headers.Append | src/services/api/client.ts:6 | the new entries are the old ones with the pair appended |
| ApiClient.Headers.Set | src/services/api/client.ts:9 | the lower-cased name now maps to the value; nothing else changes |
| ApiClient.SafeErrorMessage | src/services/api/client.ts:60-75 | an empty body gives the status text; a JSON string body is itself the message; otherwise a non-empty `message` wins, then `error`, then the status text; an unparsable body gives the status text plus the body |
| ApiClient.ServerMessageWins | src/services/api/client.ts:68-69 | a non-empty `message` is chosen over `error` |
| ApiClient.Classify | src/services/api/client.ts:22-56 | a network error is rethrown; a non-2xx status fails with the safe error message; 204 or an empty body gives `null`; otherwise the parsed JSON, or a parse failure; each outcome is given with both directions of its condition |
| ApiClient.ApiFetch | src/services/api/client.ts:5-57 | it returns the URL `BuildUrl` gives, fresh headers equal to the init headers with the JSON default, and the classified result |
| ProductsApi.RawRecords | src/services/api/products.ts:43-49 | the records are a top-level array, else `data` if it is an array, else `data.data` if it is an array, else none |
| ProductsApi.IdSource | src/services/api/products.ts:54 | the id is the first non-nullish of `id`, `_id` and `clientId`, else `""` |
| ProductsApi.CategoryList | src/services/api/products.ts:58-62 | an array is kept; a truthy non-array becomes a one-element list; a falsy value becomes `[]` |
| ProductsApi.MapProduct | src/services/api/products.ts:53-65 | field by field: the id rendered as a string; the name or "Adsız Ürün"; a price that is non-zero only when it is the number `Number()` reads; `image ?? imageUrl`; the category list; the two flags by truthiness |
| ProductsApi.MapAll | src/services/api/products.ts:52-65 | mapping keeps the length and maps each record in place |
| ProductsApi.GetProducts | src/services/api/products.ts:43-66 | it throws iff a record is `null`; otherwise the result is a subsequence of the mapped records, every kept product has a non-empty id, and every mapped product with an id is kept |
| ProductsApi.GetProductsFrom | src/services/api/products.ts:35-49 | an empty answer gives `[]`; an `apiFetch` failure propagates; a JSON answer is read by `GetProducts` |
| ProductsApi.ShapeInvariance | src/services/api/products.ts:43-49 | the same records wrapped as `[...]`, `{data:[...]}` or `{data:{data:[...]}}` give the same products |
| ProductsApi.UnrecognisedShapeIsEmpty | src/services/api/products.ts:43-49 | any other shape gives an empty list and does not throw |
| ProductsApi.MapAllAppend | src/services/api/products.ts:52-65 | mapping distributes over concatenation |
| ProductsApi.ArrayResponse | src/services/api/products.ts:43-66 | for an array without `null`s, the result is exactly the mapped records that have an id, in order |
| ProductsApi.IdlessRecordIsDropped | src/services/api/products.ts:66 | a record whose id renders as `""` contributes nothing |
| ProductsApi.EmptyIdIsDropped | src/services/api/products.ts:54-66 | `id: ""` is not nullish, so `_id` is not consulted and the record is dropped |
| ProductsApi.NumericStringPrice | src/services/api/products.ts:56 | a decimal string price such as `"12.50"` is read as its value |
| ProductsApi.NonNumericStringPrice | src/services/api/products.ts:56 | a trimmed string price that starts with neither a digit, a decimal point nor a sign becomes `0` |
| CategoryProducts.CategoryTargets | src/screen/CategoryProductsScreen.tsx:30-33 | the targets are exactly the non-empty ones among the category id and name |
| CategoryProducts.FilteredProducts | src/screen/CategoryProductsScreen.tsx:35-39 | the result is a subsequence of the products; every product listed has a category among the targets; every such product is listed |
| CategoryProducts.FilteredProductsIdempotent | src/screen/CategoryProductsScreen.tsx:35-39 | filtering twice is filtering once |
| CategoryProducts.UntaggedNeverListed | src/screen/CategoryProductsScreen.tsx:35-39 | a product with no category is never listed |
| CategoryProducts.NoTargetsListsNothing | src/screen/CategoryProductsScreen.tsx:30-39 | an empty id and name list nothing |
| CategoryProducts.FilteredProductsAppend | src/screen/CategoryProductsScreen.tsx:35-39 | filtering distributes over concatenation, so order is kept |
| BackendProducts.NormalizeProduct | backend/src/routes/products.js:6-18 | id is `id`, else the object id text, else `""`; price is `Number(price) \|\| 0`; a non-array category becomes `[]`; image is `imageUrl` or `""`; `isActive` by truthiness; `createdAt` is the stored date or now |
| BackendProducts.Encode | backend/src/routes/products.js:28 | the JSON object has the six fixed keys, plus `name` exactly when the name is defined |
| BackendProducts.ListResponse | backend/src/routes/products.js:20-28 | `{data}` holds exactly the active documents, in order, normalized and encoded |
| BackendProducts.MatchesActive | backend/src/routes/products.js:22 | a document the `{ isActive: true }` query matches has a truthy `isActive` |
| BackendProducts.ListedProductsAreActive | backend/src/routes/products.js:22-26 | every listed product has `isActive: true` |
| BackendProducts.Default | backend/src/routes/products.js:36 | a destructuring default applies only to an undefined property |
| BackendProducts.CategoryInput | backend/src/routes/products.js:45 | an array is kept; a truthy value becomes `[value]`; a falsy value becomes `[]` |
| BackendProducts.BodyField | backend/src/routes/products.js:36 | a nullish body reads as `{}` |
| BackendProducts.CreateProduct | backend/src/routes/products.js:36-49 | rejected with 400 iff the name is falsy or the price is not a number; otherwise the name is trimmed, the price kept, the category normalized, `isActive` defaults to true only when absent, and the image URL and `createdAt` are defaulted |
| BackendProducts.CreatedProductRoundTrip | backend/src/routes/products.js:42-51 | the created product's normalized form carries back the name, price, category, image URL, active flag and database id |
| BackendProducts.StoredFrom | backend/src/routes/products.js:42-49 | the stored document has the accepted name and price and the database id, and the listing query matches it iff the product is active |
| BackendProducts.CreatedResponse | backend/src/routes/products.js:51 | the answer has status 201 and holds, under `data`, the stored name, price, active flag and the database id as `id` |
| BackendProducts.OmittedIsActiveIsListed | backend/src/routes/products.js:22-47 | a product created without `isActive` is matched by the listing query |
| BackendProducts.NullIsActiveIsInactive | backend/src/routes/products.js:36-47 | `isActive: null` is not defaulted and gives an inactive product |
| BackendProducts.MapProductOfEncoded | backend/src/routes/products.js:9-17 | the client reads an encoded normalized product back with its price, category and image unchanged |
| BackendProducts.ClientReadsListing | backend/src/routes/products.js:20-28 | the client never throws on the backend's listing, and keeps exactly the listed products whose id is non-empty |
| Catalog.EnsureCampaignCategory | src/screen/HomePage.tsx:121-136 | the result starts with the campaign category (created now), followed by the input's other categories, filtered and in order |
| Catalog.CampaignCategory | src/screen/HomePage.tsx:127-133 | the campaign category is active, created now, and on its own heads a valid category list |
| Catalog.EnsureCampaignCategoryIdempotent | src/screen/HomePage.tsx:121-136 | applying it twice is applying it once |
| Catalog.EnsureCampaignCategoryKeepsOthers | src/screen/HomePage.tsx:121-136 | the other categories are a subsequence of the input, and every non-campaign input category is kept |
| Catalog.LoadedProducts | src/screen/HomePage.tsx:602-611 | the fetched products when there are some, the fallback products otherwise; never empty |
| Catalog.LoadedCategories | src/screen/HomePage.tsx:613-623 | the campaign category heads the active fetched categories, or the fallback ones when none are active or the fetch threw |
| Catalog.LoadedCategoriesAreActive | src/screen/HomePage.tsx:617-620 | every loaded category is active |
| Catalog.SelectedCategory | src/screen/HomePage.tsx:642-645 | the first category with the selected id (no earlier category has it), or none when no category has it |
| Catalog.Tags | src/screen/HomePage.tsx:654-657 | each category entry rendered with `String` |
| Catalog.SelectedCategoryProducts | src/screen/HomePage.tsx:647-666 | no selection lists nothing; the campaign id lists the campaign products; otherwise a subsequence of the products that holds every product tagged with the selected id or with the selected category's name and nothing else (copies are counted by `SelectedCategoryProductsAppend`) |
| Catalog.SelectedCategoryProductsAppend | src/screen/HomePage.tsx:647-666 | the selection's products distribute over concatenation, so each product is kept or dropped on its own and repeated products keep every copy |
| Catalog.ListedByName | src/screen/HomePage.tsx:660-664 | a product tagged only by category name is listed under that category |
| Catalog.SwipeTarget | src/screen/HomePage.tsx:677-695 | a swipe of at most 50 does nothing; a right swipe moves to the previous category and a left swipe to the next, when there is one |
| Catalog.SwipeFromUnknownSelection | src/screen/HomePage.tsx:678-692 | with no matching selection (index -1), a left swipe selects the first category |
| Catalog.SwipeBackAndForth | src/screen/HomePage.tsx:677-695 | a right swipe followed by a left swipe returns to the same category |
| Checkout.ProductWithId | src/screen/HomePage.tsx:704 | the found product is the first in the catalogue with the id (no earlier product has it); none is found iff no product has the id |
| Checkout.CartDetails | src/screen/HomePage.tsx:702-707 | at most one line per cart entry, each with a catalogue product |
| Checkout.CartDetailsIsFilterThenMap | src/screen/HomePage.tsx:702-707 | the lines are the cart entries whose product is known, in order, each paired with its product |
| Checkout.CartDetailsAppend | src/screen/HomePage.tsx:702-707 | the cart details distribute over concatenation |
| Checkout.CartTotal | src/screen/HomePage.tsx:709 | an empty cart totals 0 |
| Checkout.FoldIsSum | src/screen/HomePage.tsx:709 | the `reduce` from an accumulator equals that accumulator plus the sum of price times quantity |
| Checkout.Fold | src/screen/HomePage.tsx:709 | with non-negative prices and quantities, the `reduce` never ends below its starting value |
| Checkout.SumAppend | src/screen/HomePage.tsx:709 | the sum distributes over concatenation |
| Checkout.CartTotalAppend | src/screen/HomePage.tsx:702-709 | the total of two carts placed one after the other is the sum of their totals |
| Checkout.SumNonNegative | src/screen/HomePage.tsx:709 | non-negative prices and quantities give a non-negative total |
| Checkout.UnknownEntryAddsNothing | src/screen/HomePage.tsx:702-709 | a cart entry for a product missing from the catalogue does not change the total |
| Checkout.TwoProductScenario | src/screen/HomePage.tsx:702-709 | 2 × 10 + 1 × 5 totals 25, with or without a stale entry and in either order |
| Checkout.AddressWithId | src/screen/HomePage.tsx:776 | the found address is the first with the id (no earlier address has it); none is found only when no address has it |
| Checkout.PaymentWithId | src/screen/HomePage.tsx:777 | the found payment method is the first with the id (no earlier method has it); none is found only when no method has it |
| Checkout.AddressWithIdAppend | src/screen/HomePage.tsx:758-763 | a saved address with a fresh id is the one selected by that id |
| Checkout.PaymentWithIdAppend | src/screen/HomePage.tsx:764-769 | a saved card with a fresh id is the one selected by that id |
| Checkout.OrderItemOf | src/screen/HomePage.tsx:151-156 | an order item carries the product's id, name and price, and the quantity |
| Checkout.BuildOrderPayload | src/screen/HomePage.tsx:145-172 | one item per line, in order; the given total; the address's title, detail and note; the payment's id and label; the current time |
| Checkout.ItemsSumOfLineItems | src/screen/HomePage.tsx:151-156 | the payload items sum to the same amount as the cart lines |
| Checkout.PayloadTotalMatchesItems | src/screen/HomePage.tsx:784 | the payload's `totalPrice` equals the sum of its items' price times quantity |
| Checkout.OrderToSend | src/screen/HomePage.tsx:771-784 | no order iff the cart has no lines or the selected address or payment method is not in its list; otherwise the payload of the cart lines at their total, with the selected address and payment, whose `totalPrice` equals its items' sum |
| Checkout.Last4 | src/screen/HomePage.tsx:765 | `slice(-4)` gives the last four characters, or the whole number when it is shorter |
| Checkout.CardDescription | src/screen/HomePage.tsx:765 | the description is `"**** "` followed by `Last4` of the number, at most nine characters |
| Checkout.CardDescriptionShape | src/screen/HomePage.tsx:765 | the description is `"**** "` followed by the last four digits |
| Checkout.RandomOrderNumber | src/screen/HomePage.tsx:799 | the fallback number lies in 100000..999999 |
| Checkout.ServerOrderId | src/screen/HomePage.tsx:787-799 | a server id exists iff the answer is ok, its body is readable and not `null`, and its `orderId` is truthy; the id is that `orderId` |
| Checkout.OrderIdAfter | src/screen/HomePage.tsx:787-806 | the order id is the server's truthy `orderId`, otherwise the random six-digit number as text |
| Checkout.FallbackOrderIdIsSixDigits | src/screen/HomePage.tsx:799-806 | the fallback id is six digits, not starting with 0 |
| Checkout.FallbackOrderIdReadsBack | src/screen/HomePage.tsx:799-806 | `Number()` of the fallback id gives back the drawn number |
| Checkout.ServerOrderIdScenario | src/screen/HomePage.tsx:798-799 | a server `orderId` of "778899" is used as is |
| HomePage.BackTarget | src/screen/HomePage.tsx:813-819 | every screen except home has a back target, and that target is home, cart, address or payment |
| HomePage.ForwardTargets | src/screen/HomePage.tsx:757-929 | every screen but the success screen has a forward move (category pill, floating cart, checkout, continue, add, save, submit), and none leads back to the same screen |
| HomePage.BackUndoesForward | src/screen/HomePage.tsx:813-819 | back undoes a forward move iff the move starts from home, the cart, the address list or the payment list |
| HomePage.FormSaveMatchesCancel | src/screen/HomePage.tsx:815-817 | saving the address or card form leads to the same screen as cancelling it |
| HomePage.Storefront.constructor | src/screen/HomePage.tsx:575-586 | home screen, nothing loaded, the campaign selected, no addresses, the default card selected, and an empty order id |
| HomePage.Storefront.LoadProducts | src/screen/HomePage.tsx:602-611 | only the products change, to `LoadedProducts`; they are never empty |
| HomePage.Storefront.LoadCategories | src/screen/HomePage.tsx:613-627 | the categories become `LoadedCategories`; an empty selection falls back to the campaign; nothing else changes |
| HomePage.Storefront.SelectCategory | src/screen/HomePage.tsx:856-859 | the category is selected and the category screen is shown, a forward move from home; nothing else changes |
| HomePage.Storefront.Swipe | src/screen/HomePage.tsx:677-697 | the selection moves to `SwipeTarget` when there is one; a changed selection names an existing category |
| HomePage.Storefront.OpenCart | src/screen/HomePage.tsx:927-929 | only the screen changes, to the cart, a forward move |
| HomePage.Storefront.Checkout | src/screen/HomePage.tsx:757 | the address screen, a forward move, is shown iff the cart has lines; otherwise nothing changes |
| HomePage.Storefront.Back | src/screen/HomePage.tsx:813-819 | only the screen changes, to its back target |
| HomePage.Storefront.ContinueFromAddresses | src/screen/HomePage.tsx:814 | only the screen changes, to payment, a forward move |
| HomePage.Storefront.ContinueFromPayment | src/screen/HomePage.tsx:816 | only the screen changes, to the summary, a forward move |
| HomePage.Storefront.OpenAddAddress | src/screen/HomePage.tsx:814 | only the screen changes, to the address form, a forward move |
| HomePage.Storefront.OpenAddCard | src/screen/HomePage.tsx:816 | only the screen changes, to the card form, a forward move |
| HomePage.Storefront.SelectAddress | src/screen/HomePage.tsx:814 | only the selected address id changes |
| HomePage.Storefront.SelectPayment | src/screen/HomePage.tsx:816 | only the selected payment id changes |
| HomePage.Storefront.SaveAddress | src/screen/HomePage.tsx:758-763 | the new address, whose id is the current time in milliseconds, is appended, its id becomes the selected address id and the address screen is shown, and nothing else changes |
| HomePage.Storefront.SaveCard | src/screen/HomePage.tsx:764-769 | the new card (id: the current time in milliseconds, label: the holder, description: the masked number) is appended, its id becomes the selected payment id and the payment screen is shown, and nothing else changes |
| HomePage.Storefront.DeleteAddress | src/screen/HomePage.tsx:814 | every address with the id is removed, the rest are kept in order, and no address with that id remains |
| HomePage.Storefront.DeletePayment | src/screen/HomePage.tsx:816 | every payment method with the id is removed, the rest are kept in order, and none with that id remains |
| HomePage.Storefront.SubmitOrder | src/screen/HomePage.tsx:771-810 | the order sent is `OrderToSend` of the cart lines and the selections; when none is sent nothing changes; otherwise the order id is set, the cart is emptied and the success screen, a forward move, is shown, whether or not the request succeeded |
| HomePage.SubmitAlwaysSucceeds | src/screen/HomePage.tsx:787-809 | once the guards pass, the order ends on the success screen with an empty cart and a truthy order id, whatever the network did |
| Js.Trim | backend/src/routes/products.js:43 | the trimmed text is the input with only leading and trailing white space removed, and it neither starts nor ends with white space |
| Js.TrimEmptyIffBlank | backend/src/routes/products.js:43 | the trimmed text is empty iff every character is white space |
| Js.TrimIdempotent | backend/src/routes/products.js:43 | trimming twice is trimming once |
| Js.NumberOrZero | src/services/api/products.ts:56 | `Number(x) \|\| 0`: the number when `Number()` reads one, else 0 |
| Js.ToNumber | src/services/api/products.ts:56 | `undefined` gives NaN, `null` gives 0, and a number is itself |
| Js.StringToNumber | src/services/api/products.ts:56 | a blank string reads as 0 |
| Js.NumberOfNatString | src/screen/HomePage.tsx:799 | `Number()` of a rendered natural number gives that number back |
| Js.NatToStringParsesBack | src/screen/HomePage.tsx:799 | a rendered natural number parses back to itself |
| Js.SixDigitRendering | src/screen/HomePage.tsx:799 | a number in 100000..999999 renders as six digits, not starting with 0 |
| Seqs.FilterIsSubsequence | src/screen/HomePage.tsx:647 | a filter's result is a subsequence of its input |
| Seqs.Filter | src/screen/HomePage.tsx:647 | every element kept satisfies the test, and every element of the input that satisfies it is kept |
| Seqs.Find | src/screen/HomePage.tsx:643 | `find` gives the element at `findIndex`, which satisfies the test; none is given only when no element satisfies it |
| Seqs.FindIndex | src/screen/HomePage.tsx:680 | `findIndex` gives the first index whose element satisfies the test, or -1 only when no element does |
| Seqs.FilterAppend | src/screen/HomePage.tsx:647 | filtering distributes over concatenation |
| Seqs.FilterIdempotent | src/screen/HomePage.tsx:647 | filtering twice is filtering once |

## Left out

- ApiClient.Appended: the model stores the header value as given, while the Fetch `Headers` object strips leading and trailing white space and throws a `TypeError` on an invalid name or value; the core passes only fixed, valid headers.
- Rendering, styles, animations, the deal slider, console logging and `Alert` pop-ups are not modelled. An alert is modelled as "nothing changes".
- The network call is an input: either a network error or a status and a body. `JSON.parse` is given as an input too, the parsed value or a parse failure, next to the body's text.
- The clock (`Date.now()`, `new Date().toISOString()`) and `Math.random()` are inputs.
- Floating point is modelled as real numbers. Rounding in prices and totals is not modelled.
- Js.StringToNumber: `Number()` is modelled for decimal text with an optional sign, fraction and exponent. `Infinity`, hexadecimal, octal and binary literals read as NaN here, unlike in JavaScript.
- Js.NumberToString: a non-integral number is rendered with at most 20 fraction digits. JavaScript's shortest round-trip form and its exponent notation are not modelled.
- The backend's database is not modelled. The listing takes every stored document, already sorted by `createdAt` descending, and applies the `{ isActive: true }` filter itself through `MatchesActive`. `Product.create`'s casting and `next(error)` are not modelled either.
- The cart store (`useCart`) is not part of this model. The home page holds its entries as a field, and only `clearCart` is modelled; `increase` and `decrease` are not.
- `product.categoryIds` in the home page filter is not modelled: `ProductDto`, as `getProducts` builds it, never has that field.
- `src/services/api/categories.ts` is not part of this model. Its result is an input to `LoadCategories`: the categories, `null`, or a throw.
- The loading flags, the swipe gesture's start threshold (20) and the scroll of the category bar are not modelled.
- React's stale closure in the swipe responder, which is created once and reads the first render's categories, is not modelled. The swipe uses the current state.
- `Headers` built from a `Headers` object or from a record are not modelled. Only a list of name and value pairs is; a record is the same list.
- The options spread into `fetch` other than the headers are not modelled.
- The code is followed where it is looser than a description of the app would suggest:
  - the continue buttons have no guard;
  - saved addresses and cards are not validated;
  - an order with a total of 0 is sent;
  - deleting the selected address or card does not change the selection;
  - the card description is `"**** "` followed by the last four characters;
  - a cart entry with quantity 0 still gives a line item.
- Js.IntToString: negative integers have no parse-back lemma. Only natural numbers are rendered and read back in this core.
- Checkout.Last4: a Dafny string counts Unicode scalar values, while `slice(-4)` counts UTF-16 code units. A card number with characters outside the Basic Multilingual Plane therefore keeps different characters in the model.
