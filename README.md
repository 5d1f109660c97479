# Shop state layer of the site template, in Dafny

This project models the shopping logic of a Next.js marketing and e-commerce site template
and proves properties of it. It covers:

- **The cart hook.** `CartStore` keeps the cart lines, the drawer flag, the stored copy of the
  lines and the current URL. `addItem` merges lines by id, `updateQuantity` and `removeItem`
  act on every line with the id, and `clearCart` empties the cart and its stored copy. The
  `total` text, the `itemCount` and the checkout items are derived from the lines. Two effects
  clear the cart on a return from checkout (`success=true` or a `session_id`) and otherwise
  load and save `localStorage`. Distinct ids are an invariant of the three list updates, and
  the count and the sum change exactly by the line touched.
- **The catalog hook.** Products become catalog entries. `categories` is sorted, distinct and
  exactly the truthy categories. The product list is searched, filtered by category and then
  sorted by price, and the two filter menus are derived.
- **The product-detail hook.** It derives the gallery, the sale and inventory details read
  from loose metadata, and the chain of variant selectors (parsed option groups, then brand,
  then the variant text). It also builds the quantity selector "1".."10" and the cart line
  with its `productId-variantId-quantity` id. The selections reach the checkout metadata
  through the cart's `label: value` parsing.
- **The checkout hook.** `checkout` builds the request, maps the server's outcome to a
  result and an error, manages the loading flag and navigates on success. `buyNow` builds the
  metadata of a one-line checkout.
- **The API record mappers** of `fetchProducts`, `fetchProduct` and `fetchBlogPosts`: the
  metadata normalisation loop, image, name and price fallbacks, and the empty results on
  missing configuration, a failed response, a `null` record in the list, or a currency code
  the price formatter rejects.
- **The contact mail helper.** The message precedence, the camelCase-to-"Title Case" field
  labels, the sender address and the error conditions of the send.
- **Pure helpers:**
  - the content-width widening, which parses `clamp(...)` and `...vw` as the two regular
    expressions do;
  - the line chart's y-axis label and width;
  - the descender test of the fill-width heading;
  - the quantity buttons of the cart line and of the product card, with the card's click
    routing and its choice of product source.

JavaScript values that the code leans on are modelled exactly where a property depends on
them:

- `parseFloat`, `parseInt`, `toFixed`, `Math.round`;
- `trim`, `split`, `toLowerCase`, `includes`, one-occurrence `replace`;
- `URLSearchParams.get`, `set` and `delete`;
- `filter` and a stable `sort`.

Numbers are exact reals, with `NaN` and the two infinities as separate cases.

Two modelled details follow the code rather than what a reader might expect:

- `variant.split(':')` keeps only the second `:`-segment as the value, so "Time: 10:30"
  gives "10". The read-back lemmas therefore require labels and values without ":".
- `price.replace("$", "").replace(",", "")` removes only the first "$" and the first ",",
  so "$1,234,567" does not parse to a million.

## Model

| member | source | states |
|---|---|---|
| Cart.Bumped | src/hooks/useCart.ts:87-91 | same length; every line with the id gets the added quantity, every other line is unchanged |
| Cart.Added | src/hooks/useCart.ts:83-94 | an id already in the cart bumps those lines by the new quantity; a new id is appended at the end; the ids in place are kept and the id is in the cart afterwards |
| Cart.WithQuantity | src/hooks/useCart.ts:98-102 | same length; the lines with the id get the new quantity, every other line is unchanged |
| Cart.Removed | src/hooks/useCart.ts:104-106 | no line with the id is left; what is left is a subsequence of the cart, in order, and every line with another id stays exactly as often as it was there |
| Cart.BumpedAbsent | src/hooks/useCart.ts:87-91 | bumping an id that is not in the cart changes nothing |
| Cart.AddedKeepsUnique | src/hooks/useCart.ts:83-94 | adding keeps the ids of the lines distinct |
| Cart.WithQuantityKeepsUnique | src/hooks/useCart.ts:98-102 | setting a quantity keeps the ids distinct |
| Cart.RemovedKeepsUnique | src/hooks/useCart.ts:104-106 | removing keeps the ids distinct |
| Cart.Count | src/hooks/useCart.ts:122-124 | the item count is at least the number of lines when every line has a quantity of at least one; `CountAppend`, `CountBumped`, `AddedCount`, `WithQuantityCount` and `RemovedCount` say how each operation moves it |
| Cart.CountAppend | src/hooks/useCart.ts:122-124 | appending a line raises the item count by its quantity |
| Cart.CountBumped | src/hooks/useCart.ts:122-124 | bumping the line at a position raises the item count by the added quantity |
| Cart.AddedCount | src/hooks/useCart.ts:83-94 | adding a line, new or not, raises the item count by its quantity |
| Cart.WithQuantityCount | src/hooks/useCart.ts:98-102 | setting the quantity of a line changes the item count by the difference |
| Cart.RemovedCount | src/hooks/useCart.ts:104-106 | removing a line lowers the item count by its quantity |
| Cart.Plus | src/hooks/useCart.ts:116 | the sum of `sum + …` in the reduction: two numbers add; `NaN` on either side gives `NaN` |
| Cart.Times | src/hooks/useCart.ts:116 | a price number times the quantity is their product; `NaN` stays `NaN` |
| Cart.MultipleIsProduct | src/hooks/useCart.ts:116 | the repeated sum used for a line's amount equals price times quantity |
| Cart.TimesIsLineAmount | src/hooks/useCart.ts:116 | the product of a readable price and a quantity is the line's amount |
| Cart.TotalOf | src/hooks/useCart.ts:114-118 | when every price reads as a number the reduction is the sum of the line amounts; one unreadable price makes it not a number, and `NaN` unless a price reads as an infinity |
| Cart.Total | src/hooks/useCart.ts:113-118 | with `$` and `,` removed: the sum of the line amounts when every price parses, `NaN` otherwise |
| Cart.PriceValueNotInfinite | src/hooks/useCart.ts:116 | no price text reads as an infinity with `parseFloat` |
| Cart.EmptyTotalText | src/hooks/useCart.ts:113-120 | an empty cart totals "0.00" |
| Cart.TotalTextNaN | src/hooks/useCart.ts:113-120 | one unparsable price makes the total text "NaN" |
| Cart.TotalTextParsesBack | src/hooks/useCart.ts:113-120 | the two-decimal total text reads back as the sum rounded to cents |
| Cart.TotalText | src/hooks/useCart.ts:113-120 | the total text is "NaN" when some price does not parse; otherwise it reads back as the sum of the line amounts rounded to cents (`EmptyTotalText`, `TotalTextNaN` and `TotalTextParsesBack` give the cases) |
| Cart.SumBumped | src/hooks/useCart.ts:87-91 | bumping a line raises the sum by the amount of the added quantity at that line's price |
| Cart.AddedSum | src/hooks/useCart.ts:83-94 | adding a new line raises the sum by its amount; adding to a present line raises it by the new quantity at the present line's price |
| Cart.RemovedSum | src/hooks/useCart.ts:104-106 | removing a line lowers the sum by its amount |
| Cart.Entry | src/hooks/useCart.ts:131-133 | an entry exists only with a non-empty key and value; its key is lower case and its value trimmed (its meaning for every string is `EntryMeaning`) |
| Cart.EntryMeaning | src/hooks/useCart.ts:131-133 | for every variant string: the key is the text before the first `:`, trimmed and lower-cased, the value the text between the first and the second `:` (or the end), trimmed, and there is no entry when either trims to nothing |
| Cart.EntryKeepsSecond | src/hooks/useCart.ts:131 | for `heading: value:more` only `value` is kept, the rest after the second `:` is dropped |
| Cart.EntryOfTime | src/hooks/useCart.ts:131-133 | "Time: 10:30" gives the entry `time` = "10" |
| Cart.EntryOfLabelled | src/hooks/useCart.ts:131-133 | a variant written `heading: value` gives the lower-cased heading and the value |
| Cart.Entries | src/hooks/useCart.ts:130-135 | one entry per variant string, in order |
| Cart.CollectKeys | src/hooks/useCart.ts:130-135 | a key is in the metadata exactly when some entry has it, and then some entry holds it with the value shown |
| Cart.MetadataKeys | src/hooks/useCart.ts:128-135 | the metadata keys are exactly the keys of the variants' entries, lower case, with trimmed values taken from an entry |
| Cart.MetadataOf | src/hooks/useCart.ts:128-135 | every key of the metadata is lower case and every value trimmed; `MetadataKeys` and `CollectKeys` say which keys and values there are |
| Cart.VariantMetadata | src/hooks/useCart.ts:130-135 | the `forEach` loop builds the metadata of the variants, later entries overwriting earlier ones |
| Cart.AsItemMetadata | src/hooks/useCart.ts:143 | the checkout metadata has the same keys and the same texts |
| Cart.CheckoutItemOf | src/hooks/useCart.ts:127-145 | product id, quantity, image and alt text copied from the line; metadata present exactly when the variants give at least one entry, and then those entries |
| Cart.CheckoutItemFor | src/hooks/useCart.ts:127-145 | the callback of `map` builds the line's checkout item |
| Cart.Cleaned | src/hooks/useCart.ts:57-60 | the cleaned URL keeps the path, drops the fragment and carries neither return marker |
| Cart.CleanedKeepsOthers | src/hooks/useCart.ts:57-60 | every other query parameter keeps its value |
| Cart.Loaded | src/hooks/useCart.ts:21-31 | the loaded cart is either empty or exactly the lines that were saved; a missing or unreadable copy gives no lines |
| Cart.ReturnSignal | src/hooks/useCart.ts:50-53 | a checkout return needs a `success` or a `session_id` parameter; `Cleaned` removes both, so the cleaned URL is no return |
| Cart.SuccessUrlSignals | src/hooks/useCheckout.ts:82-83 | the success URL the checkout hands to the payment page is recognised on the way back as a checkout return |
| Cart.CartStore.constructor | src/hooks/useCart.ts:44-45 | the first render has an empty, closed cart |
| Cart.CartStore.Mount | src/hooks/useCart.ts:47-67 | after a checkout return: empty cart, empty storage, cleaned URL; otherwise a non-empty stored cart is loaded and storage and URL are unchanged; the drawer flag is unchanged |
| Cart.CartStore.Persist | src/hooks/useCart.ts:69-81 | outside a checkout return the stored copy becomes the rendered lines, or is removed when there are none; during a return it is untouched; nothing else changes |
| Cart.CartStore.FirstRenders | src/hooks/useCart.ts:47-81 | a saved non-empty cart comes back and stays saved; otherwise the cart and its storage are empty; a checkout return leaves an empty cart and storage and a cleaned URL |
| Cart.CartStore.AddItem | src/hooks/useCart.ts:83-96 | the lines become `Added` of the old lines and the drawer opens |
| Cart.CartStore.UpdateQuantity | src/hooks/useCart.ts:98-102 | the lines become `WithQuantity` of the old lines; nothing else changes |
| Cart.CartStore.RemoveItem | src/hooks/useCart.ts:104-106 | the lines become `Removed` of the old lines; nothing else changes |
| Cart.CartStore.ClearCart | src/hooks/useCart.ts:108-111 | the cart and its stored copy are emptied |
| Cart.CartStore.SetIsOpen | src/hooks/useCart.ts:45 | only the drawer flag changes |
| Cart.CartStore.CheckoutItems | src/hooks/useCart.ts:126-146 | one checkout item per line, in order |
| Catalog.RatingOf | src/hooks/useProductCatalog.ts:38 | a truthy rating is kept; an absent, zero or `NaN` rating gives 0 |
| Catalog.ProductPath | src/hooks/useProductCatalog.ts:25-27 | the path starts with the base path and a slash, and the rest is the product id |
| Catalog.CatalogProducts | src/hooks/useProductCatalog.ts:29-43 | one catalog entry per fetched product, in order (none for no products) |
| Catalog.CatalogEntryFields | src/hooks/useProductCatalog.ts:32-42 | id, name, price, image and review count copied; the category is the brand; the alt text falls back to the name; an absent rating gives 0; the click leads to the base path and the id |
| Catalog.CategorySet | src/hooks/useProductCatalog.ts:46-51 | the set holds each truthy category once, and nothing else |
| Catalog.SortedCategories | src/hooks/useProductCatalog.ts:52 | a sorted rearrangement of the set's members, still without repeats |
| Catalog.DistinctPermutation | src/hooks/useProductCatalog.ts:52 | rearranging a list without repeats keeps it without repeats |
| Catalog.Categories | src/hooks/useProductCatalog.ts:45-53 | `categories` is sorted, has no repeats and holds exactly the truthy categories of the entries |
| Catalog.SortedDistinctIncreasing | src/hooks/useProductCatalog.ts:52 | the categories are in strictly increasing order |
| Catalog.Searched | src/hooks/useProductCatalog.ts:58-65 | an empty search keeps every entry; otherwise exactly the entries whose lower-cased name or category contains the lower-cased query are kept, in order, each as often as it occurs |
| Catalog.OfCategory | src/hooks/useProductCatalog.ts:67-69 | "All" keeps every entry; any other category keeps exactly the entries of that category, in order, each as often as it occurs |
| Catalog.FilteredProducts | src/hooks/useProductCatalog.ts:55-86 | the filtered list is part of the catalog: each entry occurs as often as in the catalog when it matches the search and the category, and not at all otherwise |
| Catalog.FilteredCounts | src/hooks/useProductCatalog.ts:58-69 | searching and then choosing a category keep each entry exactly as often as it occurs when it passes both, and drop it otherwise |
| Catalog.ByPriceConsistent | src/hooks/useProductCatalog.ts:71-83 | when every price parses, both price comparators are total and transitive |
| Catalog.SortedByPrice | src/hooks/useProductCatalog.ts:71-83 | sorting by price rearranges the entries and, when every price parses, puts them in order of price, rising or falling |
| Catalog.Sorted | src/hooks/useProductCatalog.ts:71-85 | the two price options sort by price up or down; any other option keeps the order; the result is always a rearrangement |
| Catalog.NewestKeepsOrder | src/hooks/useProductCatalog.ts:55-86 | with "Newest" the result is the filtered entries in their original order, a subsequence of the catalog; with no search and "All" it is the whole catalog |
| Catalog.PriceSortOrders | src/hooks/useProductCatalog.ts:55-86 | with a price sort the result is a rearrangement of the filtered entries, in order of price when every price parses |
| Catalog.CategoryMenu | src/hooks/useProductCatalog.ts:88-94 | for the catalog's categories, the category menu shows the current choice, its first option "All" keeps every entry, it offers every category of an entry in strictly increasing order, and choosing any of those keeps at least one entry of that category |
| Catalog.CategoryKeepsOne | src/hooks/useProductCatalog.ts:67-69 | choosing a category some entry has keeps that entry, so the result is not empty |
| Catalog.AllCategoryOfferedTwice | src/hooks/useProductCatalog.ts:88-94 | a brand named "All" is offered again after the first "All", and choosing it keeps every entry |
| Catalog.SortMenu | src/hooks/useProductCatalog.ts:95-100 | the sort menu shows the current choice; "Newest" keeps the order; the two price options rearrange the entries, rising and then falling in price when every price parses |
| Catalog.Filters | src/hooks/useProductCatalog.ts:88-101 | there are two menus, each with at least one option; `CategoryMenu`, `CategoryKeepsOne` and `SortMenu` state what they offer and what choosing does |
| Detail.Images | src/hooks/useProductDetail.ts:27-40 | no product, no images; a gallery gives one image per entry, in order, with the product's alt text or "name - Image n"; otherwise the main image alone with the alt text or the name |
| Detail.ImagesShown | src/hooks/useProductDetail.ts:27-40 | a product always shows at least one image, and without its own alt text no two gallery images share an alt text |
| Detail.GalleryAltsDiffer | src/hooks/useProductDetail.ts:33 | the numbered alt texts of two different positions differ |
| Detail.SaleText | src/hooks/useProductDetail.ts:52-58 | the shown sale price always starts with "$" |
| Detail.TruthyText | src/hooks/useProductDetail.ts:69-72 | present exactly when the key holds a truthy value, and then that value as text |
| Detail.Meta | src/hooks/useProductDetail.ts:42-74 | no product or no metadata gives all fields undefined; otherwise a sale price exactly when the product is on sale and has one, the ribbon, stock status and SKU when truthy, and the stock quantity when present, read as a number or with `parseInt` |
| Detail.SaleTextOfText | src/hooks/useProductDetail.ts:56-57 | a text sale price ends up with exactly one leading "$" of its own |
| Detail.SaleTextOfNumber | src/hooks/useProductDetail.ts:53-54 | a number sale price, read back as the shop reads prices, is the number rounded to cents |
| Detail.Trims | src/hooks/useProductDetail.ts:89-93 | each option trimmed, in order |
| Detail.Selected | src/hooks/useProductDetail.ts:97 | the stored choice for the label when it is truthy, else the first option |
| Detail.BeforeNull | src/hooks/useProductDetail.ts:87-112 | the longest prefix of the parsed groups without a `null` element |
| Detail.GroupVariantsFrom | src/hooks/useProductDetail.ts:87-112 | the selectors are exactly those of the usable groups before the first `null` element: the `i`-th selector is that of the `i`-th such group, one per group |
| Detail.GroupVariantsInOrder | src/hooks/useProductDetail.ts:87-112 | the selectors, in order, are those of the groups before the first `null` that have a name and options, one per group |
| Detail.GroupVariants | src/hooks/useProductDetail.ts:87-112 | at most one selector per option group; `GroupVariantsFrom` and `GroupVariantsInOrder` say which |
| Detail.PushGroups | src/hooks/useProductDetail.ts:79-112 | the loop pushes one selector per usable group, in order, and stops at a `null` element |
| Detail.VariantOptions | src/hooks/useProductDetail.ts:129-131 | the "Variant" selector always has at least one option |
| Detail.VariantsFrom | src/hooks/useProductDetail.ts:119-149 | the group selectors when there are any; else a fixed "Brand" selector; else a "Variant" selector from the variant text; none exactly when there are no groups, no brand and no variant |
| Detail.VariantList | src/hooks/useProductDetail.ts:76-150 | the memo builds the selectors of the fallback chain (none without a product) |
| Detail.VariantsWellFormed | src/hooks/useProductDetail.ts:76-150 | every selector has options and shows the stored choice for its label or its first option; the brand selector alone ignores changes |
| Detail.Variants | src/hooks/useProductDetail.ts:76-150 | no product gives no selectors; every selector offered is well formed (it has options and shows the stored choice or its first option); `VariantsFrom` says which selectors there are |
| Detail.ChoiceShows | src/hooks/useProductDetail.ts:103-108 | after a choice the selector shows it, and every other label keeps its choice |
| Detail.QuantityOptions | src/hooks/useProductDetail.ts:154 | ten options, "1" up to "10" |
| Detail.QuantityVariant | src/hooks/useProductDetail.ts:152-157 | the "Quantity" selector offers exactly "1" to "10" and shows `String(quantity)`; its options read as 1 to 10 and its shown choice reads as the selected quantity |
| Detail.QuantityShown | src/hooks/useProductDetail.ts:154-155 | the selected quantity is among the options exactly when it is between 1 and 10 |
| Detail.QuantityOptionsDistinct | src/hooks/useProductDetail.ts:154 | the ten options are all different |
| Detail.QuantityOption | src/hooks/useProductDetail.ts:156 | every option reads with `parseInt` as the quantity between 1 and 10 that it names |
| Detail.VariantTexts | src/hooks/useProductDetail.ts:162-164 | one "label: value" text per selection, in order |
| Detail.Values | src/hooks/useProductDetail.ts:170 | the selected values, in order |
| Detail.VariantId | src/hooks/useProductDetail.ts:170 | the selected values joined by "-", or "default" when that is empty (so without selections); never empty |
| Detail.LineVariants | src/hooks/useProductDetail.ts:162-168 | the selection texts; without selections the product's "Variant: …" text, or none |
| Detail.CreateCartItem | src/hooks/useProductDetail.ts:159-182 | no product, no line; otherwise product id, name, price, image, quantity and alt text or name copied, the variant texts, and the id `productId-variantId-quantity` |
| Detail.LineIdAffixes | src/hooks/useProductDetail.ts:173 | the line id starts with "productId-" and ends with "-quantity" |
| Detail.LineId | src/hooks/useProductDetail.ts:173 | the line id is the product id, a `-`, the variant id, a `-` and the quantity's digits, in that order, so it starts with "productId-" and ends with the quantity |
| Detail.QuantitiesMakeDifferentLines | src/hooks/useProductDetail.ts:173 | the same product and selections at two quantities give two line ids, so the cart keeps them as two lines |
| Detail.LabelledEntries | src/hooks/useProductDetail.ts:162-164 | the metadata entry each selection is meant to give: its lower-cased label and its value |
| Detail.TextsReadBack | src/hooks/useProductDetail.ts:162-164 | the cart reads each "label: value" text back as the lower-cased label and the value, when both are trimmed and without ":" |
| Detail.SelectionsReachCheckout | src/hooks/useProductDetail.ts:159-182 | with such labels, distinct once lower-cased, the checkout metadata holds every selection under its lower-cased label and nothing else |
| Detail.CollectedLabels | src/hooks/useProductDetail.ts:162-164 | the object filled from those entries has exactly the lower-cased labels as keys, each with its selection's value |
| Detail.DetailState.constructor | src/hooks/useProductDetail.ts:24-25 | quantity 1 and no selections at first |
| Detail.DetailState.Choose | src/hooks/useProductDetail.ts:103-108 | a recording selector stores the choice under its label; the quantity selector sets the quantity it names; nothing else changes |
| Detail.DetailState.ChooseQuantity | src/hooks/useProductDetail.ts:156 | the quantity becomes the option's number, between 1 and 10; the selections are unchanged |
| BlogApi.Slice30 | src/lib/api/blog.ts:95 | `content?.slice(0, 30)`: absent stays absent; present content gives its first 30 characters, or all of it when shorter |
| BlogApi.MapPost | src/lib/api/blog.ts:91-101 | each field of a record falls back to its default ("General", "Untitled", the placeholder image, "Anonymous", a fresh id, today's date); the excerpt falls back to the first 30 characters of the content (all of it when shorter), then to ""; a present author gives its name and its avatar, each with its fallback; category, title, image, author name and avatar are never empty |
| BlogApi.PostRecords | src/lib/api/blog.ts:84-89 | records exactly when `data` is a non-empty array, and then that array |
| BlogApi.FetchBlogPosts | src/lib/api/blog.ts:61-106 | with the API URL or project id unset, a failed response, no records or a `null` record (whose `post.id` throws into the `catch`), no posts; otherwise exactly one post per record, in order, each the record mapped with its fresh id |
| BlogApi.NullRecordYieldsNoPosts | src/lib/api/blog.ts:91-105 | a single `null` or `undefined` record among any others gives no posts at all |
| BlogApi.EmptyDataYieldsNoPosts | src/lib/api/blog.ts:84-89 | any body whose `data` is not a non-empty array (empty, `null`, an object, absent) gives no posts |
| Checkout.RequestFor | src/hooks/useCheckout.ts:45-55 | the request goes to exactly the API URL followed by `/stripe/project/checkout-session`, carries the project id and the items unchanged, and uses each redirect URL given, falling back to the current page for an empty or absent one |
| Checkout.ErrorOf | src/hooks/useCheckout.ts:58-75 | an error exactly when no session was created; a thrown error's message or "Failed to create checkout session"; a rejection's own message, or "Request failed with status " followed by a numeral that reads back as the status |
| Checkout.ResultOf | src/hooks/useCheckout.ts:34-75 | success exactly when the API is configured and the session was created, and then no error and the session URL; the missing-configuration message when unconfigured; otherwise the outcome's error |
| Checkout.NavigationOf | src/hooks/useCheckout.ts:67-69 | the browser moves exactly when the checkout succeeded with a non-empty session URL, and then to that URL |
| Checkout.BuyNowMetadata | src/hooks/useCheckout.ts:89-99 | with non-empty product metadata: exactly its keys other than `imageSrc`, `imageAlt` and `images`, with their values; otherwise `brand`, `variant`, `rating` and `reviewCount`, each present exactly when the product has it set |
| Checkout.BuyNowItem | src/hooks/useCheckout.ts:85-107 | an id alone gives an item with only id and quantity; a product gives its id, quantity, image and alt text, with metadata only when it is non-empty |
| Checkout.SuccessUrl | src/hooks/useCheckout.ts:82-83 | the current URL with the same path and fragment, whose `success` parameter reads `true` |
| Checkout.SuccessUrlKeepsOthers | src/hooks/useCheckout.ts:82-83 | every other query parameter of the current URL reads as before |
| Checkout.CheckoutState.constructor | src/hooks/useCheckout.ts:27-28 | not loading, no error, no navigation |
| Checkout.CheckoutState.Checkout | src/hooks/useCheckout.ts:30-79 | unconfigured: nothing is sent, the missing-configuration error is set and returned; configured: the request `RequestFor` builds is sent, the result is `ResultOf` the server's outcome, loading ends false, the browser moves only to `NavigationOf` the outcome, and the stored error is the result's error |
| Checkout.CheckoutState.BuyNow | src/hooks/useCheckout.ts:81-108 | checks out the one `BuyNowItem` (quantity 1 when omitted) with the success URL as redirect: unconfigured, nothing is sent, the configuration error is returned and the loading flag and page are kept; configured, the result is `ResultOf` the outcome, loading ends false and the browser moves only to `NavigationOf` it; the stored error is the result's |
| Checkout.CheckoutState.ClearError | src/hooks/useCheckout.ts:115 | the error is cleared and nothing else changes |
| ProductApi.NormalisedValue | src/lib/api/product.ts:111-115 | a value is dropped exactly when it is `null`/`undefined` (or `""` on the single-product path); text that `parseFloat` reads becomes that number, other text stays as it is, a number stays the same number |
| ProductApi.NormaliseMetadata | src/lib/api/product.ts:108-117 | the `forEach` loop builds exactly the object `Normalised` describes |
| ProductApi.AssignedKeys | src/lib/api/product.ts:110-116 | for any per-value rule, a key is in the built object exactly when some entry with that key has a surviving value |
| ProductApi.NormalisedKeys | src/lib/api/product.ts:108-117 | a metadata key is kept exactly when some entry with that key has a value that survives normalisation |
| ProductApi.AssignedAt | src/lib/api/product.ts:110-116 | an entry whose key comes back in no later entry ends up in the object with its own surviving value |
| ProductApi.NormalisedValueAt | src/lib/api/product.ts:108-117 | such an entry's key holds its normalised value |
| ProductApi.AssignedAvoids | src/lib/api/product.ts:110-116 | a value the rule never produces is never stored |
| ProductApi.NormalisedDropsEmpty | src/lib/api/product.ts:180 | on the single-product path no metadata value is the empty text |
| ProductApi.ListKeepsEmpty | src/lib/api/product.ts:112-114 | on the list path an empty text as the last entry of its key is kept as the empty text |
| ProductApi.EmptyStaysText | src/lib/api/product.ts:113-114 | `""` stays text on the list path, as `parseFloat("")` is `NaN` |
| ProductApi.RawLookup | src/lib/api/product.ts:136-139 | `metadata?.[key]` is nothing without metadata |
| ProductApi.MetaOrField | src/lib/api/product.ts:136-137 | a truthy metadata value wins, as text; otherwise the field, or "" |
| ProductApi.ImageSrc | src/lib/api/product.ts:119 | the main image is never empty, and is the first gallery image when that is non-empty |
| ProductApi.Images | src/lib/api/product.ts:121-123 | the gallery has at least one image: the record's images when non-empty, otherwise the main image alone |
| ProductApi.FormatPrice | src/lib/api/product.ts:69-77 | the formatter sees the amount in main units and the upper-cased currency; `FormatPriceIgnoresCase` says only the letters of the currency matter, not their case |
| ProductApi.FormatPriceIgnoresCase | src/lib/api/product.ts:69-77 | a currency code and its upper-case form format every amount the same way, including being rejected together |
| ProductApi.ListPrice | src/lib/api/product.ts:129-131 | the list endpoint uses the formatted default price when it has an amount, and has no price when `Intl.NumberFormat` rejects the currency; without an amount it uses `price`, else "$0" |
| ProductApi.SinglePrice | src/lib/api/product.ts:187-193 | the single-product endpoint uses `price`; else, with an amount, no price when `Intl.NumberFormat` rejects the currency and the formatted default price when it is non-empty; else "$0" |
| ProductApi.PricePrecedence | src/lib/api/product.ts:129-193 | the two endpoints agree on the price without a default amount, or without a `price`; with both, the list shows the default price and the single product its own `price` |
| ProductApi.MetadataField | src/lib/api/product.ts:140 | metadata is present exactly when the normalised object has a key, and is then that object |
| ProductApi.MapRecord | src/lib/api/product.ts:119-141 | id, name ("Untitled Product"), description, image, alt text, brand, variant, price id and metadata follow their fallbacks; the gallery is `Images` of the record; rating and review count come from truthy metadata values only; the name and main image are never empty and the gallery never is |
| ProductApi.PriceId | src/lib/api/product.ts:132 | the default price's id when truthy, else the record's `priceId` |
| ProductApi.MapListRecord | src/lib/api/product.ts:107-142 | a list record maps to a product exactly when its list price can be formatted, with that price and its empty metadata texts kept |
| ProductApi.MapSingleRecord | src/lib/api/product.ts:176-215 | the single record maps to a product exactly when its single-product price can be formatted, with that price and empty metadata texts dropped |
| ProductApi.ListRecords | src/lib/api/product.ts:100-105 | reading `data` of `null` or `undefined` gives none; otherwise `data.data` when truthy, else `data`, gives its elements exactly when it is a non-empty array |
| ProductApi.ListRecordsShapes | src/lib/api/product.ts:100-105 | records under `data` and under `data.data` are both found; an empty array gives none |
| ProductApi.SingleRecord | src/lib/api/product.ts:170-174 | the record is `data.data` when that is an object, else `data` when `data.data` is falsy and `data` is an object, else the response itself when both are falsy and it is an object; an array there reads as a record without fields; a scalar there, or a response that is `null` or `undefined`, gives none |
| ProductApi.SingleRecordShapes | src/lib/api/product.ts:170-174 | records at all three depths are found; `null` data falls back to the response, a scalar under `data` gives none |
| ProductApi.FetchProducts | src/lib/api/product.ts:79-146 | no configuration, a failed response, no records, a `null` record (whose `product.metadata` throws into the `catch`) or a currency `Intl.NumberFormat` rejects (whose `RangeError` lands in the same `catch`) give no products; otherwise exactly one product per record, in order, each the mapped record |
| ProductApi.NullRecordYieldsNoProducts | src/lib/api/product.ts:107-145 | a single `null` or `undefined` record among any others gives no products at all |
| ProductApi.RejectedCurrencyYieldsNoProducts | src/lib/api/product.ts:129-145 | one record with an amount in a currency `Intl.NumberFormat` rejects gives no products at all |
| ProductApi.FetchProduct | src/lib/api/product.ts:148-219 | no product without configuration, on a failed response or without an object; otherwise the mapped record, which is no product when its price formatting throws |
| ProductApi.RejectedCurrencyYieldsNoProduct | src/lib/api/product.ts:187-218 | a single record without a truthy `price` whose amount is in a rejected currency gives no product; with a truthy `price` the formatter is never used, so it does not matter what it does |
| ProductApi.FetchedProductsHaveImages | src/lib/api/product.ts:119-123 | every fetched product has a main image and a non-empty gallery |
| Contact.Spaced | src/utils/sendContactEmail.ts:20 | `replace(/([A-Z])/g, ' $1')`: every upper-case letter of the result has a space right before it, and taking the spaces out gives back the input with its own spaces taken out |
| Contact.SpacedCons | src/utils/sendContactEmail.ts:20 | the first character is replaced by itself with a space before it when upper case, and by itself otherwise, and the rest is spaced on its own |
| Contact.SpacedConcat | src/utils/sendContactEmail.ts:20 | the replacement works character by character: spacing two joined texts is spacing each, so with `SpacedCons` exactly one space goes before each upper-case letter and nothing else changes |
| Contact.CamelLabel | src/utils/sendContactEmail.ts:20 | a key of a lower-case word and a capitalised word gets its first character upper-cased and one space between the words |
| Contact.FirstNameLabel | src/utils/sendContactEmail.ts:20 | "firstName" becomes "First Name" |
| Contact.UnspacedConcat | src/utils/sendContactEmail.ts:20 | taking spaces out of two joined texts is taking them out of each |
| Contact.Label | src/utils/sendContactEmail.ts:20 | the field name starts with the key's first character upper-cased, and every later upper-case letter follows a space (the exact text is fixed by `SpacedCons` and `SpacedConcat`) |
| Contact.LabelUnspaced | src/utils/sendContactEmail.ts:20 | for a key without spaces, taking the inserted spaces out of its field name gives the key with its first character upper-cased |
| Contact.PushLines | src/utils/sendContactEmail.ts:17-23 | the `forEach` pushes exactly one line per non-blank field, in key order |
| Contact.PushLine | src/utils/sendContactEmail.ts:19-22 | one step pushes `Label: value` with the value trimmed, exactly when the value is not blank |
| Contact.ComposedMessage | src/utils/sendContactEmail.ts:7-31 | the trimmed `message` when it is not blank; else the form's own trimmed `message` field; else the field lines joined by a blank line; else the fixed sentence |
| Contact.CreateMessage | src/utils/sendContactEmail.ts:7-31 | the imperative `createMessage` gives exactly the composed message |
| Contact.MessageNotBlank | src/utils/sendContactEmail.ts:7-31 | the message sent is never empty and never ends with white space |
| Contact.ComposedNotBlank | src/utils/sendContactEmail.ts:7-31 | with a fallback that is not empty and does not end in white space, neither does the composed message |
| Contact.LinesNotBlank | src/utils/sendContactEmail.ts:17-27 | the joined field lines end with the last character of the last trimmed value |
| Contact.FromEmail | src/utils/sendContactEmail.ts:35 | the form's `email`, else the data's `email`, else "noreply@example.com"; never empty |
| Contact.MailEndpoint | src/utils/sendContactEmail.ts:44 | exactly the API URL, `/emails/projects/`, the project id and `/sendMail`; the project id reads back from between them |
| Contact.SendContactEmail | src/utils/sendContactEmail.ts:33-62 | unconfigured: it throws the configuration error and sends nothing; otherwise it posts the composed message, the sender and the form data to the mail endpoint, resolves exactly when the response is OK, and otherwise throws the body's `error` or "Failed to send email" |
| ContentWidth.NumRunEnd | src/providers/themeProvider/config/contentWidth.ts:31 | the end of the longest run of `[\d.]` characters from a position |
| ContentWidth.SpaceRunEnd | src/providers/themeProvider/config/contentWidth.ts:31 | the end of the longest run of white space from a position |
| ContentWidth.MatchShape | src/providers/themeProvider/config/contentWidth.ts:31 | a match at a position holds one captured text per group, each made of `[\d.]` characters |
| ContentWidth.FirstMatch | src/providers/themeProvider/config/contentWidth.ts:31 | the leftmost position where the pattern matches, no match at any earlier position |
| ContentWidth.Search | src/providers/themeProvider/config/contentWidth.ts:31 | `match` finds nothing exactly when the pattern matches at no position; otherwise it gives the groups of the leftmost match |
| ContentWidth.MatchRender | src/providers/themeProvider/config/contentWidth.ts:31 | text written in the pattern's form is matched where it is written, with the numbers it was written with |
| ContentWidth.NoLeadMatch | src/providers/themeProvider/config/contentWidth.ts:31 | a pattern that starts with a literal finds nothing in text without that literal's first character |
| ContentWidth.ClampSearch | src/providers/themeProvider/config/contentWidth.ts:31-35 | the three groups of the `clamp` pattern exactly when it matches, each a `[\d.]` text |
| ContentWidth.VwSearch | src/providers/themeProvider/config/contentWidth.ts:46-48 | the group of the `vw` pattern exactly when it matches, a `[\d.]` text |
| ContentWidth.Expanded | src/providers/themeProvider/config/contentWidth.ts:37-38 | `vw + (100 - vw) / 2` is `(vw + 100) / 2` for a number, and `NaN` otherwise |
| ContentWidth.ExpandedHalfway | src/providers/themeProvider/config/contentWidth.ts:37-38 | the widened width lies between the width and 100, halves the distance to 100, and is 100 only for 100 |
| ContentWidth.ClampTextMatches | src/providers/themeProvider/config/contentWidth.ts:31 | a width written `clamp(<a>rem, <b>vw, <c>rem)` is matched with exactly `a`, `b` and `c` |
| ContentWidth.VwTextMatches | src/providers/themeProvider/config/contentWidth.ts:31-48 | a width written `<b>vw` is not a `clamp` and is matched with exactly `b` |
| ContentWidth.UnmatchedUnchanged | src/providers/themeProvider/config/contentWidth.ts:54 | a width neither pattern matches comes back as it is |
| ContentWidth.ExpandedWidth | src/providers/themeProvider/config/contentWidth.ts:30-55 | the widening of one width; its meaning is given by `ExpandedClamp` (a `clamp` width), `ExpandedPlain` (a plain `vw` width) and `UnmatchedUnchanged` (anything else is returned as it is) |
| ContentWidth.ExpandedClamp | src/providers/themeProvider/config/contentWidth.ts:30-44 | a `clamp` width widens to a `clamp` whose bounds are the written bounds moved halfway to the viewport and whose middle is the widened `vw` |
| ContentWidth.ExpandedPlain | src/providers/themeProvider/config/contentWidth.ts:46-52 | a plain `vw` width widens to the widened `vw` |
| ContentWidth.DesktopVwReads | src/providers/themeProvider/config/contentWidth.ts:3-28 | each desktop preset's `vw` text is a `[\d.]` text reading as 70, 72.5, 75, 77.5, 80 or 82.5 |
| ContentWidth.NumeralReads | src/providers/themeProvider/config/contentWidth.ts:3-28 | a whole or half numeral is a `[\d.]` text and reads back as its value |
| ContentWidth.ContentWidth | src/providers/themeProvider/config/contentWidth.ts:3-28 | every preset's desktop width is a `clamp` the widening recognises, from 40rem to 100rem, with a preferred width reading as the preset's value; its mobile width is a plain `vw` width reading as 80, or 85 for the largest |
| ContentWidth.ExpandedDesktop | src/providers/themeProvider/config/contentWidth.ts:57-82 | every desktop preset widens to `clamp` bounds around 40rem and 100rem with the preferred width halfway between its own and 100vw |
| ContentWidth.ExpandedMobile | src/providers/themeProvider/config/contentWidth.ts:57-82 | every mobile preset widens to 90vw, or 92.5vw for the largest |
| ContentWidth.ExpandedContentWidth | src/providers/themeProvider/config/contentWidth.ts:57-82 | the widened presets; `ExpandedDesktop` and `ExpandedMobile` give each preset's widened desktop and mobile widths |
| ProductCartItem.HandleIncrement | src/components/ecommerce/cart/ProductCartItem.tsx:32-34 | asks for the line's quantity plus one, exactly when a quantity callback is given |
| ProductCartItem.HandleDecrement | src/components/ecommerce/cart/ProductCartItem.tsx:36-39 | asks for the quantity minus one exactly when a quantity callback is given and the quantity is above 1, so the request is never below 1 |
| ProductCartItem.HandleRemove | src/components/ecommerce/cart/ProductCartItem.tsx:41-43 | asks for the line's removal exactly when a remove callback is given |
| ProductCartItem.ButtonsKeepPositive | src/components/ecommerce/cart/ProductCartItem.tsx:32-43 | when the cart's `updateQuantity` or `removeItem` carries out a button's request, every quantity of a cart at 1 or more stays at 1 or more |
| ProductCartItem.SetKeepsPositive | src/components/ecommerce/cart/ProductCartItem.tsx:32-39 | setting a line to a quantity of 1 or more keeps every quantity at 1 or more |
| ProductCartItem.RemovalKeepsPositive | src/components/ecommerce/cart/ProductCartItem.tsx:41-43 | removing a line keeps every remaining quantity at 1 or more |
| ProductCartItem.MinusAtOne | src/components/ecommerce/cart/ProductCartItem.tsx:37 | at a quantity of 1 the minus button asks for nothing |
| ProductCartItem.Deliver | src/components/ecommerce/cart/ProductCartItem.tsx:21-43 | the cart's lines become those the request describes; nothing else in the store changes |
| FillWidth.HasDescenders | src/components/shared/FillWidthText/FillWidthText.tsx:11-14 | true exactly when some character of the text is one of `g j p q y` |
| FillWidth.EmptyHasNone | src/components/shared/FillWidthText/FillWidthText.tsx:14 | the empty text has no descenders |
| FillWidth.CapitalsHaveNone | src/components/shared/FillWidthText/FillWidthText.tsx:9-11 | an upper-cased text has no descenders |
| FillWidth.JoinedDescenders | src/components/shared/FillWidthText/FillWidthText.tsx:14 | two texts joined have descenders exactly when one of them has |
| FillWidth.LineHeight | src/components/shared/FillWidthText/FillWidthText.tsx:30-32 | 1.2 exactly when some character descends, 0.8 otherwise |
| FillWidth.CapitalsAreTight | src/components/shared/FillWidthText/FillWidthText.tsx:9-32 | a heading in capitals always gets the tight line height of 0.8 |
| LineChart.MaxValue | src/components/bento/BentoLineChart/utils.ts:22 | `Math.max` of the values: `-Infinity` for no data, otherwise a value of the data that no other value exceeds |
| LineChart.FormatNumber | src/components/bento/BentoLineChart/utils.ts:1-12 | from 100000 up, the millions to one place followed by "M"; from 1000 up, the thousands rounded to a tenth followed by "K"; below that, the number as printed |
| LineChart.MillionsText | src/components/bento/BentoLineChart/utils.ts:2-5 | a value of 100000 or more prints as `toFixed(1)` of its millions, then "M" |
| LineChart.MillionsReadBack | src/components/bento/BentoLineChart/utils.ts:2-5 | that label ends in "M", has at least four characters, and its numeral reads back as the millions rounded to one place |
| LineChart.ThousandsClose | src/components/bento/BentoLineChart/utils.ts:6-10 | the thousands shown are within half a tenth of the value in thousands, and between 1 and 100 |
| LineChart.Multiplier | src/components/bento/BentoLineChart/utils.ts:25-30 | 11 exactly for a label of two characters, 13 exactly for three, 9 otherwise |
| LineChart.FormattedMax | src/components/bento/BentoLineChart/utils.ts:23 | a percentage prints the maximum followed by "%"; otherwise the maximum as `formatNumber` prints it |
| LineChart.YAxisWidth | src/components/bento/BentoLineChart/utils.ts:18-33 | the label's length times its multiplier, so between 9 and 13 per character |
| LineChart.WidthOnlyFromValues | src/components/bento/BentoLineChart/utils.ts:22-32 | data with the same set of values, in any order and with any repetition, get the same width |
| LineChart.EmptyWidth | src/components/bento/BentoLineChart/utils.ts:22-32 | without data the label is "-Infinity": width 81, or 90 with the percent sign |
| LineChart.MillionsLabelWidth | src/components/bento/BentoLineChart/utils.ts:2-32 | a millions label is at least four characters long, so it is sized at 9 per character |
| LineChart.MillionsWidth | src/components/bento/BentoLineChart/utils.ts:18-33 | a maximum of 100000 or more sizes the axis at 9 per character of its label |
| ProductCardThree.InitialQuantity | src/components/sections/product/ProductCardThree.tsx:86 | `initialQuantity \|\| 1`: the counter starts at 1 exactly for an absent, zero or unit initial quantity, and at the given number for any other |
| ProductCardThree.InitialPositive | src/components/sections/product/ProductCardThree.tsx:86 | an absent or non-negative initial quantity starts the counter at 1 or more |
| ProductCardThree.Stepped | src/components/sections/product/ProductCardThree.tsx:88-102 | plus adds one; minus takes one away only above 1 |
| ProductCardThree.CounterStaysPositive | src/components/sections/product/ProductCardThree.tsx:95-102 | from 1 or more, any series of presses leaves the counter at 1 or more |
| ProductCardThree.PlusOnly | src/components/sections/product/ProductCardThree.tsx:88-93 | n presses of plus add exactly n |
| ProductCardThree.MinusOnly | src/components/sections/product/ProductCardThree.tsx:95-102 | n presses of minus take the counter down by n, but never below 1 |
| ProductCardThree.ProductClick | src/components/sections/product/ProductCardThree.tsx:208-214 | a product of the API opens `/shop/<id>`; any other runs its own click handler, when it has one |
| ProductCardThree.ProductPathReadsBack | src/components/sections/product/ProductCardThree.tsx:210 | the product's id reads back from the path after `/shop/` |
| ProductCardThree.ProductCardItem.constructor | src/components/sections/product/ProductCardThree.tsx:86 | the card starts at the initial quantity, with nothing handed to `onQuantityChange` yet |
| ProductCardThree.ProductCardItem.Increment | src/components/sections/product/ProductCardThree.tsx:88-93 | the quantity goes up by one and the new quantity is handed to `onQuantityChange` exactly when there is one; the last value handed out stays the quantity shown |
| ProductCardThree.ProductCardItem.Decrement | src/components/sections/product/ProductCardThree.tsx:95-102 | above 1 the quantity goes down by one and is handed out; at 1 or less nothing changes and nothing is handed out |
| ProductCardThree.ProductCardItem.Click | src/components/sections/product/ProductCardThree.tsx:104-110 | a product of the API with a buy callback buys the current quantity; otherwise the product's own click runs |
| ProductCardThree.CardProducts | src/components/sections/product/ProductCardThree.tsx:204-205 | the fetched products when there are any, else the products passed in |
| ProductCardThree.Section | src/components/sections/product/ProductCardThree.tsx:216-269 | a loading notice exactly while loading with no products passed in; nothing exactly when there is no product to show; otherwise cards for the fetched products (marked as from the API) or for the products passed in |
| ProductCardThree.SectionClick | src/components/sections/product/ProductCardThree.tsx:259-269 | a click on a card of the section does what the section's product click does |
| ProductCardThree.SectionNeverBuys | src/components/sections/product/ProductCardThree.tsx:259-269 | the section passes no buy callback, so a click never buys; for a product of the API it opens `/shop/<id>` |
| Numbers.NatToString | src/hooks/useProductDetail.ts:154 | `String(n)` of a whole number: decimal digits without a leading zero, reading as `n` |
| Numbers.ParseFloat | src/hooks/useCart.ts:116 | `parseFloat` gives a number or `NaN`, never an infinity |
| Numbers.PriceValue | src/hooks/useCart.ts:116 | a price without `$` or `,` reads as `parseFloat` of the price itself; `PriceValueNotInfinite` says it is never an infinity |
| Numbers.ParseIntOfIntToString | src/hooks/useProductDetail.ts:155-156 | `parseInt` reads the text of an integer back as that integer |
| Numbers.IntToStringInjective | src/hooks/useProductDetail.ts:173 | two integers with the same text are equal |
| Numbers.ToFixedParsesBack | src/hooks/useCart.ts:119 | the text `toFixed(f)` prints reads back with `parseFloat` as the number rounded half up to `f` places |
| Numbers.RoundedToClose | src/hooks/useCart.ts:119 | rounding to `f` places moves a number by at most half a unit of the last place |
| Numbers.Round | src/components/bento/BentoLineChart/utils.ts:8 | `Math.round` gives the integer within half of the number, halves rounding up |
| Numbers.Show | src/components/bento/BentoLineChart/utils.ts:11 | `String(n)`: a number prints through the number printer, `NaN` as "NaN" |
| Urls.KeyIndex | src/hooks/useCart.ts:50-51 | the position of the first parameter with the key, or the length when there is none |
| Urls.Get | src/hooks/useCart.ts:50-51 | `get` finds nothing exactly when no parameter has the key, and otherwise the value of the first parameter with the key |
| Urls.Delete | src/hooks/useCart.ts:58-59 | `delete` leaves no parameter with the key and keeps only parameters that were there (the exact result is `DeleteIsFilter`) |
| Urls.DeleteIsFilter | src/hooks/useCart.ts:58-59 | `delete` is a filter for the other keys: every other parameter stays, in order and as often as it occurs |
| Urls.Set | src/hooks/useCheckout.ts:82 | after `set` the key is present |
| Urls.GetDeletedOther | src/hooks/useCart.ts:58-59 | deleting one key leaves what every other key reads as |
| Urls.GetSet | src/hooks/useCheckout.ts:82 | after setting a key it reads as the value set |
| Urls.GetSetOther | src/hooks/useCheckout.ts:82 | setting one key leaves what every other key reads as |
| Seqs.Filter | src/hooks/useCart.ts:105 | `filter` keeps the elements that pass, each exactly as often as it occurs, drops the others, and adds nothing |
| Seqs.FilterIsSubseq | src/hooks/useCart.ts:105 | what `filter` keeps is in the original order |
| Seqs.SortBy | src/hooks/useProductCatalog.ts:72-76 | the sort rearranges its input |
| Seqs.SortBySorted | src/hooks/useProductCatalog.ts:72-76 | with a comparator total and transitive on the input, the sorted result is in order |
| Text.ToLower | src/hooks/useProductCatalog.ts:59 | `toLowerCase` maps each character, keeping the length |
| Text.TrimStart | src/hooks/useCart.ts:131 | what is left after the leading white space: a suffix of the text, with only white space before it, not starting with white space |
| Text.TrimEnd | src/hooks/useCart.ts:131 | what is left before the trailing white space: a prefix of the text, with only white space after it, not ending with white space |
| Text.Trim | src/hooks/useCart.ts:131 | `trim` is `trimStart` then `trimEnd`, both stated as the exact slice left after the white space at that end; the result neither starts nor ends with white space, and is empty only for blank text |
| Text.Split | src/hooks/useCart.ts:131 | `split` gives at least one part, none holding the separator, and the parts joined by it give the text back |
| Text.SplitHead | src/hooks/useCart.ts:131 | the first part runs up to the first separator, and after it the parts are those of the rest |
| Text.RemoveFirst | src/hooks/useCart.ts:116 | `replace` with a one-character text drops only the first occurrence, when there is one |
| Text.Contains | src/hooks/useProductCatalog.ts:62 | `includes` holds exactly when the needle occurs at some position |

## Left out

- Network and browser I/O are inputs, not effects.
  - `fetch` and the decoded body are a `Response` value; the mail and checkout servers are functions from the request sent to the outcome.
  - `localStorage` is the `Storage` field of `CartStore`. A `setItem` or `removeItem` that throws, and its `console.warn`, are not modelled.
  - `router.replace` and `router.push` are the URL or path they would be given; `window.location` is a parameter.
- Logging is not modelled: the `console.warn` and `console.error` calls of the blog API (blog.ts:66, 80 and 103) and of the variant parsing (useProductDetail.ts:115) only write to the console and change no result.
- Environment variables are a `Config` value.
- Floating point is not modelled: numbers are exact reals.
  - `toFixed` rounds the exact value half up, where JavaScript rounds the binary double; the two can differ on ties such as 1.005.
  - Sums of prices, `vw + (100 - vw) / 2` and `Math.round(x / 1000 * 10) / 10` are exact.
- `parseFloat` reads an optional sign, digits and one decimal point. Exponents and "Infinity" are left out; no price or width in the shop is written with them. (Like JavaScript, it reads "0x10" as 0.)
- Printing a non-integer number (`String`, template literals, `toString`) is the parameter `show`. `Intl.NumberFormat` in the product API is the parameter `intl`, which `FormatPrice` (the source's `formatPrice`) applies to the amount divided by 100 and the upper-cased currency. `intl` gives `None` where the formatter throws a `RangeError` (a currency code it does not know); the model carries that throw to the `catch` of both fetchers. Which codes are rejected is part of the parameter, not of the model, and a currency given as something other than text is not represented.
- `Math.random` fallback ids and `new Date()` are parameters.
- `JSON.parse` is left out in two places.
  - For the variant options it is a parameter giving the parsed groups or nothing; a thrown parse is "nothing".
  - For the stored cart, the stored text is already decoded: `Storage` is empty, a saved list of lines, or `Corrupt`, text that does not parse, which loads as an empty cart.
  - Stored text that parses to something other than a list of lines is left out. A stored `null` makes the `.length` check of the loading effect throw (useCart.ts:63), and a non-empty JSON string or a list of other values would become the cart as it is.
- JavaScript object key order is insertion order in the model. JavaScript lists integer-like keys (such as "42") first, for the selections and the form fields alike.
- Case mapping is ASCII only, and URL percent-encoding is not modelled.
- Strings are sequences of Unicode characters (code points), while JavaScript strings are sequences of UTF-16 code units. The two differ only for characters outside the Basic Multilingual Plane, such as emoji:
  - `content.slice(0, 30)` for a blog excerpt counts such a character once here, and twice in JavaScript;
  - the default `sort` of the categories compares code points here, and code units in JavaScript;
  - `key.charAt(0)` for a contact field label takes the whole character here, and only its first half in JavaScript.
- React is not modelled: rendering, memo caching, `useEffect` scheduling, the `typeof window` guard and the loading flags of the data hooks. The two cart effects are methods called with the state that the render saw, and `FirstRenders` composes the first two renders.
- Catalog.SortedByPrice: the price order is proved only when every price parses. With a `NaN` comparison JavaScript's `sort` order is implementation-defined; the model still proves the result is a rearrangement.
- Catalog.Sorted: it states a rearrangement and the comparator used, not the exact order among equal prices, beyond what `SortBy` computes.
- ProductCardThree.InitialQuantity: a negative initial quantity is kept as it is, as in the code. The counter lemmas then need a start of 1 or more.
- Detail.DetailState.Choose: `parseInt` of a value that is not one of the ten quantity options (which no select element offers) is not modelled.
- Cart.Entry: its own contract gives the shape of an entry only. Its meaning for every string is the lemma `EntryMeaning`, which `Entry` is not restated with, to keep the proofs that use it small.
- Contact.Label: its own contract fixes the first character and the space before each later capital. The exact text follows from `SpacedCons` and `SpacedConcat`, and is shown in `CamelLabel` and `FirstNameLabel`.
- Urls.Delete: its own contract says what is removed. That the other parameters stay in order and as often as they occur is the lemma `DeleteIsFilter`, which stays separate to keep the URL proofs small.
- The click callbacks of catalog entries and cards are modelled by the path or effect they produce, not as closures.
