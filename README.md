# Aurelie storefront client: a verified model

This project models the logic of the Aurelie jewellery storefront's React
client: the admin view's new-order detector, the data hooks' filters and
fallbacks, the analytics CSV export, the cart and checkout totals, catalogue
filtering and sorting, the bounded counters and rings (quantity stepper,
carousel index), the admin edit buffers (stock edits, image lists, carousel
and business-information forms), the user-agent classifiers with their
once-only tracking flags, and the application shell's navigation state.

Each source file of that logic has one module:

| module | source file |
|---|---|
| `OrderManagement` | src/frontend/src/components/admin/OrderManagement.tsx |
| `Queries` | src/frontend/src/hooks/useQueries.ts |
| `AnalyticsCsv` | src/frontend/src/components/admin/AnalyticsSection.tsx |
| `CartPage` | src/frontend/src/pages/CartPage.tsx |
| `CheckoutPage` | src/frontend/src/pages/CheckoutPage.tsx |
| `ProductsPage` | src/frontend/src/pages/ProductsPage.tsx |
| `ProductDetailPage` | src/frontend/src/pages/ProductDetailPage.tsx |
| `HomeCarousel` | src/frontend/src/components/HomeCarousel.tsx |
| `InventoryManagement` | src/frontend/src/components/admin/InventoryManagement.tsx |
| `OrdersPage` | src/frontend/src/pages/OrdersPage.tsx |
| `AdminDashboard` | src/frontend/src/pages/AdminDashboard.tsx |
| `AddProductModal` | src/frontend/src/components/admin/AddProductModal.tsx |
| `EditProductModal` | src/frontend/src/components/admin/EditProductModal.tsx |
| `CarouselManagement` | src/frontend/src/components/admin/CarouselManagement.tsx |
| `BusinessInfoModal` | src/frontend/src/components/admin/BusinessInfoModal.tsx |
| `ProductManagement` | src/frontend/src/components/admin/ProductManagement.tsx |
| `ProfileSetupModal` | src/frontend/src/components/ProfileSetupModal.tsx |
| `AnalyticsTracking` | src/frontend/src/hooks/useAnalytics.ts |
| `App` | src/frontend/src/App.tsx |

Shared modules: `Wrappers` (`Option`, `Result`), `Domain` (the records and
enumerations declared in src/frontend/src/backend.d.ts, plus the category,
material and status captions), `Text` (ASCII lower-casing, substring search,
join and split, decimal rendering and a code-point order on names), `Lists`
(`filter` and removal by index) and `Sorting` (an insertion sort proved to
return a sorted permutation, standing for `Array.prototype.sort`).

State that a component keeps in `useState`/`useRef` and changes through its
handlers is a class whose methods are proved against pure transition
functions or state descriptions (`Detector`, `Checkout`, `QuantityStepper`,
`Carousel`, `StockEditor`, `AddProductForm`, `EditProductForm`,
`CarouselForm`, `BusinessInfoForm`, `SessionStorage`, `VisitTracker`,
`InstallTracker`, `Shell`). Computations that are expressions (`filter`,
`map`, `reduce`, `join`) are functions with lemmas.

The new-order detector follows the code's effect order. Both effects run on
the same snapshot, the diff effect first. The diff effect replaces the
highlight set with the diff-detected ids (when there are any) and the backend
effect then adds every `isNew` id to that set. Each effect that flags
something schedules a clear; a fired clear empties the whole set, so an
earlier clear also removes a later batch (`EarlierClearWipesLaterBatch`).
Timers are abstract events: `pendingClears` counts the clears scheduled and
not yet fired.

The CSV writer is paired with an independent reader (`ParseTable`), and the
round trip is proved for every field content, including commas, quotes and
line feeds. With no data rows the writer's output ends in a line feed after
the header, which reads back as one extra empty record (`TableRoundTrip`).

In both product dialogs the size check on each chosen image only reports: the
`return` inside the `forEach` callback leaves the callback, not the handler,
so a file over 5 MiB is reported and still appended
(`OversizeFileStillAccepted`, `AddProductForm.HandleImageChange`). The model
keeps this behaviour as written.

## Model

| member | source | states |
|---|---|---|
| Queries.KeepNamed | src/frontend/src/hooks/useQueries.ts:349 | keeps exactly the records whose customer is present and named, never more than it was given |
| Queries.KeepNamedAppend | src/frontend/src/hooks/useQueries.ts:349 | filtering a concatenation is concatenating the filtered parts, so relative order is kept |
| Queries.KeepNamedIdentity | src/frontend/src/hooks/useQueries.ts:349 | a list whose records all have a named customer passes unchanged |
| Queries.OrdersForPolling | src/frontend/src/hooks/useQueries.ts:340-354 | no actor or a failed call gives the empty list; otherwise an order is returned iff the backend sent it and it has a named customer |
| Queries.AllOrdersAdmin | src/frontend/src/hooks/useQueries.ts:366-380 | no actor or a failed call gives the empty list; otherwise an order is returned iff the backend sent it and it has a named customer |
| Queries.AdminQueriesAgree | src/frontend/src/hooks/useQueries.ts:340-380 | the polling query and the all-orders query give the same list for the same backend answer |
| Queries.IsAdminQuery | src/frontend/src/hooks/useQueries.ts:51-60 | false without an actor; true without a backend call iff the lower-cased e-mail is the admin address; otherwise the backend decides |
| Queries.IsAdmin | src/frontend/src/hooks/useQueries.ts:51-60 | admin iff there is an actor and either the e-mail matches or the backend says so |
| Queries.AdminEmailAnyCase | src/frontend/src/hooks/useQueries.ts:55 | the admin address in mixed case is still recognised |
| Queries.CarouselItems | src/frontend/src/hooks/useQueries.ts:558-570 | the carousel list is always empty |
| Queries.CarouselMutation | src/frontend/src/hooks/useQueries.ts:572-625 | add, update and delete always fail, with "Actor not available" first and the not-implemented message otherwise |
| Domain.StatusLabel | src/frontend/src/components/admin/OrderManagement.tsx:15-21 | the badge reads "Pending" exactly for pending orders and for a status outside the table, which falls back to the pending entry |
| OrderManagement.OrderIds | src/frontend/src/components/admin/OrderManagement.tsx:44 | one identifier per polled record, position by position |
| OrderManagement.DiffNewIds | src/frontend/src/components/admin/OrderManagement.tsx:47 | an identifier is new iff it is in the current list and not in the previous one |
| OrderManagement.DiffNewIdsAppend | src/frontend/src/components/admin/OrderManagement.tsx:47 | the diff distributes over concatenation, so snapshot order is kept |
| OrderManagement.FlaggedIds | src/frontend/src/components/admin/OrderManagement.tsx:72-74 | an identifier is listed iff some record with it is marked isNew by the backend |
| OrderManagement.FlaggedIdsSnoc | src/frontend/src/components/admin/OrderManagement.tsx:72-74 | appending a record appends its id exactly when it is flagged |
| OrderManagement.DetectedByDiff | src/frontend/src/components/admin/OrderManagement.tsx:43-47 | nothing is detected on an empty snapshot or while the previous list is empty; otherwise exactly the ids absent from the previous list |
| OrderManagement.OnSnapshot | src/frontend/src/components/admin/OrderManagement.tsx:42-89 | an empty snapshot changes nothing; a non-empty one becomes the previous list; a notice is raised iff some id is new against a non-empty previous list, carrying the count; every flagged id ends highlighted; highlighted ids are exactly the diff-detected ones (or the old set) plus the flagged ones |
| OrderManagement.OnClear | src/frontend/src/components/admin/OrderManagement.tsx:59-62 | a fired clear empties the whole highlight set and the banner, and keeps the previous list |
| OrderManagement.InitialConsistent | src/frontend/src/components/admin/OrderManagement.tsx:28-31 | the banner is off and nothing is highlighted at mount |
| OrderManagement.OnSnapshotConsistent | src/frontend/src/components/admin/OrderManagement.tsx:42-89 | a snapshot keeps "banner on iff something highlighted, and highlights only with a clear pending" |
| OrderManagement.OnClearConsistent | src/frontend/src/components/admin/OrderManagement.tsx:84-87 | a clear keeps the same invariant |
| OrderManagement.EarlierClearWipesLaterBatch | src/frontend/src/components/admin/OrderManagement.tsx:84-87 | an order flagged by a later snapshot is highlighted; the next fired clear, scheduled by an earlier batch, removes its highlight while the later batch's own clear is still pending |
| OrderManagement.ColdStartFlagsNothing | src/frontend/src/components/admin/OrderManagement.tsx:46 | with an empty previous list a non-empty snapshot flags nothing and only records its ids |
| OrderManagement.SecondSnapshotDetectsNewOrder | src/frontend/src/components/admin/OrderManagement.tsx:46-52 | previous [1], next [1, 2]: order 2 alone is highlighted and one notice of count 1 is raised |
| OrderManagement.TwoNewOrdersOneNotice | src/frontend/src/components/admin/OrderManagement.tsx:48-52 | two arrivals in one snapshot give a single notice reporting 2 |
| OrderManagement.NoticeText | src/frontend/src/components/admin/OrderManagement.tsx:52 | the notice carries the count in decimal and the plural "s" exactly when the count exceeds one |
| OrderManagement.SortedOrders | src/frontend/src/components/admin/OrderManagement.tsx:191 | the cards are a permutation of the polled list, newest first |
| OrderManagement.AcceptRequest | src/frontend/src/components/admin/OrderManagement.tsx:115-120 | accepting an order asks for the same order to be marked shipped |
| OrderManagement.MutationFeedback | src/frontend/src/components/admin/OrderManagement.tsx:100-113 | success re-fetches; a failure shows its message, or the fallback when the message is empty |
| OrderManagement.Detector.constructor | src/frontend/src/components/admin/OrderManagement.tsx:28-31 | the detector starts in the initial state |
| OrderManagement.Detector.DetectByDiff | src/frontend/src/components/admin/OrderManagement.tsx:42-68 | the first effect's new state and notice are those of the diff step |
| OrderManagement.Detector.AddFlagged | src/frontend/src/components/admin/OrderManagement.tsx:71-89 | the second effect adds each flagged id to a copy of the set, as the flag step says |
| OrderManagement.Detector.ProcessSnapshot | src/frontend/src/components/admin/OrderManagement.tsx:42-89 | running both effects is the snapshot step |
| OrderManagement.Detector.ClearFired | src/frontend/src/components/admin/OrderManagement.tsx:59-62 | a fired timer is the clear step |
| OrdersPage.SortedOrders | src/frontend/src/pages/OrdersPage.tsx:44-46 | the customer's orders, a permutation of what was fetched, newest first |
| OrdersPage.CancelEligibility | src/frontend/src/pages/OrdersPage.tsx:66-69 | cancel is offered for completed and delivered orders and for no other status |
| OrdersPage.Card | src/frontend/src/pages/OrdersPage.tsx:114-118 | a card shows its order, its status caption (pending fallback included) and a cancel button iff the order may be cancelled |
| OrdersPage.View | src/frontend/src/pages/OrdersPage.tsx:71-114 | loading shows the skeleton; no orders shows the empty state; otherwise one card per order, in sorted order |
| OrdersPage.EveryOrderShown | src/frontend/src/pages/OrdersPage.tsx:44-46 | an order is on the page iff it was fetched |
| CartPage.FindProduct | src/frontend/src/pages/CartPage.tsx:27 | none iff no product has the id; otherwise the first product with that id |
| CartPage.JoinLines | src/frontend/src/pages/CartPage.tsx:26-32 | never more lines than cart items |
| CartPage.CartLines | src/frontend/src/pages/CartPage.tsx:23-33 | no cart or no products gives no lines; otherwise the cart items joined with their products |
| CartPage.JoinLinesAppend | src/frontend/src/pages/CartPage.tsx:26-32 | the join distributes over concatenation, so cart order is kept |
| CartPage.JoinLinesSingle | src/frontend/src/pages/CartPage.tsx:26-32 | a single item gives its line, or none when its product is missing |
| CartPage.JoinLinesMembers | src/frontend/src/pages/CartPage.tsx:26-32 | every line pairs a cart item with the product found for it, and every item whose product exists has its line |
| CartPage.TotalAppend | src/frontend/src/pages/CartPage.tsx:35-42 | the total of a concatenation is the sum of the totals |
| CartPage.TotalOfLines | src/frontend/src/pages/CartPage.tsx:35-42 | the empty total is 0 and each line adds price times quantity |
| CartPage.TotalZero | src/frontend/src/pages/CartPage.tsx:35-42 | the total is 0 iff every line's price times quantity is 0 |
| CartPage.View | src/frontend/src/pages/CartPage.tsx:66-117 | signed out shows login; then loading; an empty join shows the empty cart; otherwise the lines and their total |
| CheckoutPage.UpiUrlFields | src/frontend/src/pages/CheckoutPage.tsx:53-59 | when the encoder never emits '&', the payment link splits into exactly its five fields, and the amount field reads back as the cart total |
| CheckoutPage.Checkout.constructor | src/frontend/src/pages/CheckoutPage.tsx:19-20 | no order placed yet; pay-on-order selected |
| CheckoutPage.Checkout.SelectPayment | src/frontend/src/pages/CheckoutPage.tsx:156 | only the payment choice changes |
| CheckoutPage.Checkout.PlaceOrder | src/frontend/src/pages/CheckoutPage.tsx:43-51 | the placed flag is set by a successful call and never reset; a failure changes nothing |
| CheckoutPage.Checkout.View | src/frontend/src/pages/CheckoutPage.tsx:66-90 | placed shows the confirmation; otherwise an empty join shows the empty cart; otherwise the form with the cart lines, their total and the chosen payment method |
| ProductsPage.ComparatorIsTotalPreorder | src/frontend/src/pages/ProductsPage.tsx:60-64 | each of the three orderings is total and transitive, so sorting by it is well defined |
| ProductsPage.StepsAreFilters | src/frontend/src/pages/ProductsPage.tsx:45-58 | each step, whether it runs or is skipped, is the filter by its own condition |
| ProductsPage.FilterStepsCombine | src/frontend/src/pages/ProductsPage.tsx:42-58 | the three filters in sequence keep exactly what one filter on all active conditions keeps, in order |
| ProductsPage.FilteredProducts | src/frontend/src/pages/ProductsPage.tsx:42-67 | the shown list is a rearrangement of the products meeting every active condition |
| ProductsPage.FilteredProductsMembers | src/frontend/src/pages/ProductsPage.tsx:42-67 | a product is shown iff it is in the catalogue and matches the search (name or description, ignoring case), the category and the material |
| ProductsPage.FilteredProductsOrder | src/frontend/src/pages/ProductsPage.tsx:60-64 | "price-low" shows prices ascending, "price-high" descending, any other value names in order |
| ProductManagement.AdminSearch | src/frontend/src/components/admin/ProductManagement.tsx:34-37 | every listed product is in the catalogue and matches the name or its category label ignoring case, and every matching product is listed |
| ProductManagement.EmptySearchKeepsAll | src/frontend/src/components/admin/ProductManagement.tsx:34-37 | an empty search lists the whole catalogue unchanged |
| ProductManagement.LabelIsSearchable | src/frontend/src/components/admin/ProductManagement.tsx:16-37 | a headpiece is found by searching "Necklace", its category label |
| ProductDetailPage.MaxQuantity | src/frontend/src/pages/ProductDetailPage.tsx:83 | the cap is the smaller of the stock and 10 |
| ProductDetailPage.StepsStayInRange | src/frontend/src/pages/ProductDetailPage.tsx:181-192 | from a quantity in 1..cap, both buttons leave it in 1..cap |
| ProductDetailPage.DisabledMeansNoChange | src/frontend/src/pages/ProductDetailPage.tsx:181-192 | a button is disabled exactly when pressing it would not change the quantity |
| ProductDetailPage.StepsUndo | src/frontend/src/pages/ProductDetailPage.tsx:181-192 | minus undoes plus below the cap, and plus undoes minus above 1 |
| ProductDetailPage.AddToCartRequest | src/frontend/src/pages/ProductDetailPage.tsx:38-48 | no request when signed out; otherwise this product with the chosen quantity |
| ProductDetailPage.QuantityStepper.constructor | src/frontend/src/pages/ProductDetailPage.tsx:33 | the quantity starts at 1 |
| ProductDetailPage.QuantityStepper.Decrement | src/frontend/src/pages/ProductDetailPage.tsx:181 | the quantity becomes max(1, quantity - 1) |
| ProductDetailPage.QuantityStepper.Increment | src/frontend/src/pages/ProductDetailPage.tsx:191 | the quantity becomes min(cap, quantity + 1) |
| ProductDetailPage.QuantityStepper.AddToCart | src/frontend/src/pages/ProductDetailPage.tsx:38-48 | the request sent is the one for the current quantity |
| HomeCarousel.NextIndex | src/frontend/src/components/HomeCarousel.tsx:14 | the next index is always a valid slide |
| HomeCarousel.PreviousIndex | src/frontend/src/components/HomeCarousel.tsx:21 | the previous index is always a valid slide |
| HomeCarousel.PreviousUndoesNext | src/frontend/src/components/HomeCarousel.tsx:21-25 | left after right returns to the same slide |
| HomeCarousel.NextUndoesPrevious | src/frontend/src/components/HomeCarousel.tsx:21-25 | right after left returns to the same slide |
| HomeCarousel.AdvanceIsModular | src/frontend/src/components/HomeCarousel.tsx:13-15 | k ticks from slide i land on (i + k) mod n |
| HomeCarousel.FullTurn | src/frontend/src/components/HomeCarousel.tsx:13-15 | n ticks bring the carousel back to where it was |
| HomeCarousel.ClickTarget | src/frontend/src/components/HomeCarousel.tsx:28-32 | a click opens the item's URL iff it is non-empty |
| HomeCarousel.Carousel.constructor | src/frontend/src/components/HomeCarousel.tsx:8 | the first slide is shown first |
| HomeCarousel.Carousel.Tick | src/frontend/src/components/HomeCarousel.tsx:10-18 | with at least one item, a tick moves to the next slide |
| HomeCarousel.Carousel.GoToNext | src/frontend/src/components/HomeCarousel.tsx:24-26 | the right arrow moves to the next slide |
| HomeCarousel.Carousel.GoToPrevious | src/frontend/src/components/HomeCarousel.tsx:20-22 | the left arrow moves to the previous slide |
| HomeCarousel.Carousel.SelectDot | src/frontend/src/components/HomeCarousel.tsx:100-110 | a dot shows its own slide |
| InventoryManagement.EnteredStock | src/frontend/src/components/admin/InventoryManagement.tsx:20 | an unparsable entry counts as 0; otherwise the parsed number |
| InventoryManagement.Payload | src/frontend/src/components/admin/InventoryManagement.tsx:28-31 | one update per edited product, carrying exactly its entered stock |
| InventoryManagement.PayloadSize | src/frontend/src/components/admin/InventoryManagement.tsx:28-31 | the batch has exactly as many updates as edited products |
| InventoryManagement.DisplayedStock | src/frontend/src/components/admin/InventoryManagement.tsx:108 | an edited product shows its entry, any other its stored stock |
| InventoryManagement.ChangedNeedsEntry | src/frontend/src/components/admin/InventoryManagement.tsx:108-109 | only an edited product is marked changed, and with no edits nothing is |
| InventoryManagement.InventorySearch | src/frontend/src/components/admin/InventoryManagement.tsx:16-18 | exactly the catalogue products whose name contains the term, ignoring case, are listed |
| InventoryManagement.StockEditor.constructor | src/frontend/src/components/admin/InventoryManagement.tsx:14 | no edits at first |
| InventoryManagement.StockEditor.HandleStockChange | src/frontend/src/components/admin/InventoryManagement.tsx:20-26 | the product's entry is set (parse failure as 0) and every other entry kept |
| InventoryManagement.StockEditor.HandleSaveAll | src/frontend/src/components/admin/InventoryManagement.tsx:28-47 | no edits: nothing is sent; otherwise the whole batch is sent and the edits are dropped only when the backend accepts it |
| InventoryManagement.EditShowsValue | src/frontend/src/components/admin/InventoryManagement.tsx:20-26 | after an edit the edited row shows the new entry and every other row is unchanged |
| AdminDashboard.TotalRevenueAppend | src/frontend/src/pages/AdminDashboard.tsx:26-28 | the revenue of a concatenation is the sum of the revenues |
| AdminDashboard.TotalRevenueSum | src/frontend/src/pages/AdminDashboard.tsx:26-28 | no orders give 0 and each order adds its amount |
| AdminDashboard.TotalRevenueBound | src/frontend/src/pages/AdminDashboard.tsx:26-28 | no single order's amount exceeds the revenue |
| AdminDashboard.PendingCount | src/frontend/src/pages/AdminDashboard.tsx:30 | never more pending orders than orders |
| AdminDashboard.AllPending | src/frontend/src/pages/AdminDashboard.tsx:30 | every order is counted iff every order is pending |
| AdminDashboard.NonePending | src/frontend/src/pages/AdminDashboard.tsx:30 | the count is 0 iff no order is pending |
| AdminDashboard.LogoUrl | src/frontend/src/pages/AdminDashboard.tsx:32 | a logo address is passed on iff a logo exists and its address is non-empty |
| AdminDashboard.BusinessInfoDialog | src/frontend/src/pages/AdminDashboard.tsx:158-164 | the dialog is mounted iff it was asked for and the contact details have loaded, and then it gets those details and the logo address |
| Domain.StockBadgeOf | src/frontend/src/components/admin/ProductManagement.tsx:93-100 | a product shows "Out of Stock" iff its stock is zero, and otherwise its stock count; the products page uses the same test for its overlay and count (ProductsPage.tsx:174-191) |
| AddProductModal.OversizeNames | src/frontend/src/components/admin/AddProductModal.tsx:51-56 | every file over 5 MiB is reported by name, and there are never more reports than files |
| AddProductModal.OversizeNamesOnlyOversize | src/frontend/src/components/admin/AddProductModal.tsx:51-56 | every reported name belongs to a selected file over 5 MiB |
| AddProductModal.ReportOversize | src/frontend/src/components/admin/AddProductModal.tsx:51-56 | the loop's messages are exactly the oversize names in selection order |
| AddProductModal.CheckSubmit | src/frontend/src/components/admin/AddProductModal.tsx:77-85 | missing name, price or stock is reported first; then no images; otherwise the upload proceeds |
| AddProductModal.OversizeFileStillAccepted | src/frontend/src/components/admin/AddProductModal.tsx:51-58 | a 6 MiB file draws the size warning, and the selection is still accepted |
| AddProductModal.Apply | src/frontend/src/components/admin/AddProductModal.tsx:128-202 | a field change sets that field of the form data and every other field keeps its value |
| AddProductModal.FilledFormProceeds | src/frontend/src/components/admin/AddProductModal.tsx:74-85 | after name, price and stock are filled in on the empty form, a submit with images passes the checks |
| AddProductModal.AddProductForm.constructor | src/frontend/src/components/admin/AddProductModal.tsx:32-42 | empty fields, ring in 18K gold, no images and no previews |
| AddProductModal.AddProductForm.HandleFieldChange | src/frontend/src/components/admin/AddProductModal.tsx:128-202 | the form data takes the change; the images, previews and pending previews are unchanged |
| AddProductModal.AddProductForm.HandleImageChange | src/frontend/src/components/admin/AddProductModal.tsx:44-67 | a selection passing five images is refused whole; otherwise every file is appended, oversize ones included, each with a preview to come, and the warnings are the oversize names; the form data and previews are unchanged |
| AddProductModal.AddProductForm.PreviewLoaded | src/frontend/src/components/admin/AddProductModal.tsx:62-64 | a finished preview is appended and one fewer is pending; the files and the form data are unchanged |
| AddProductModal.AddProductForm.RemoveImage | src/frontend/src/components/admin/AddProductModal.tsx:69-72 | the same position is removed from the files and the previews, and the rest keep their order; the form data is unchanged |
| AddProductModal.AddProductForm.Submit | src/frontend/src/components/admin/AddProductModal.tsx:74-85 | the submit checks on the current form |
| EditProductModal.MergedImages | src/frontend/src/components/admin/EditProductModal.tsx:96-106 | the stored images come first, unchanged, followed by each new file's upload in order |
| EditProductModal.CheckSubmit | src/frontend/src/components/admin/EditProductModal.tsx:85-93 | the add dialog's checks with stored and new images counted together; no images only when both are empty |
| EditProductModal.EditProductForm.constructor | src/frontend/src/components/admin/EditProductModal.tsx:33-43 | the form starts from the product, with price and stock in decimal, its images as stored images and no new files |
| EditProductModal.EditProductForm.HandleNewImageChange | src/frontend/src/components/admin/EditProductModal.tsx:46-71 | refused whole when stored, new and chosen images pass five; otherwise every chosen file is appended with its warnings; the form data, stored images and previews are unchanged |
| EditProductModal.EditProductForm.PreviewLoaded | src/frontend/src/components/admin/EditProductModal.tsx:66-68 | a finished preview is appended and one fewer is pending; the files, stored images and form data are unchanged |
| EditProductModal.EditProductForm.RemoveExistingImage | src/frontend/src/components/admin/EditProductModal.tsx:73-75 | the stored image at that position is removed (any index outside the list changes nothing); the new files, previews and form data are unchanged |
| EditProductModal.EditProductForm.RemoveNewImage | src/frontend/src/components/admin/EditProductModal.tsx:77-80 | the same position is removed from the new files and their previews; the stored images and form data are unchanged |
| EditProductModal.EditProductForm.HandleFieldChange | src/frontend/src/components/admin/EditProductModal.tsx:139-213 | the form data takes the change; the stored images, new files, previews and pending previews are unchanged |
| EditProductModal.EditProductForm.Submit | src/frontend/src/components/admin/EditProductModal.tsx:82-106 | the checks on the current form, and on success the merged image list |
| CarouselManagement.SubmitRequest | src/frontend/src/components/admin/CarouselManagement.tsx:50-91 | refused iff there is neither a chosen image nor an edited item, or the URL is empty; otherwise an update of the edited item or an add, with the form's title and URL and the uploaded file or else the edited item's image |
| CarouselManagement.HandleDelete | src/frontend/src/components/admin/CarouselManagement.tsx:99-108 | nothing happens unless confirmed; a confirmed delete always fails |
| CarouselManagement.CarouselForm.constructor | src/frontend/src/components/admin/CarouselManagement.tsx:24-32 | the dialog starts closed and empty |
| CarouselManagement.CarouselForm.OpenAdd | src/frontend/src/components/admin/CarouselManagement.tsx:137 | only the dialog opens |
| CarouselManagement.CarouselForm.SetTitle | src/frontend/src/components/admin/CarouselManagement.tsx:220 | only the title changes |
| CarouselManagement.CarouselForm.SetUrl | src/frontend/src/components/admin/CarouselManagement.tsx:231 | only the URL changes |
| CarouselManagement.CarouselForm.HandleImageChange | src/frontend/src/components/admin/CarouselManagement.tsx:34-48 | a file over 10 MiB is refused and changes nothing; another file becomes the chosen image; no file changes nothing |
| CarouselManagement.CarouselForm.PreviewLoaded | src/frontend/src/components/admin/CarouselManagement.tsx:43-45 | only the preview changes |
| CarouselManagement.CarouselForm.HandleEdit | src/frontend/src/components/admin/CarouselManagement.tsx:110-119 | the item is being edited, its title and URL fill the form, no file is chosen, its image is the preview and the dialog opens |
| CarouselManagement.CarouselForm.HandleCloseModal | src/frontend/src/components/admin/CarouselManagement.tsx:121-127 | every field returns to the closed, empty state |
| CarouselManagement.CarouselForm.HandleSubmit | src/frontend/src/components/admin/CarouselManagement.tsx:50-97 | the method changes nothing; a refused form names its reason, and otherwise the save request is built and fails with the add/update mutation's message (CarouselMutation), so the dialog never resets |
| BusinessInfoModal.CheckLogo | src/frontend/src/components/admin/BusinessInfoModal.tsx:31-42 | a type outside PNG, JPEG, JPG and SVG is refused first; then a file over 5 MiB; otherwise accepted |
| BusinessInfoModal.LogoExamples | src/frontend/src/components/admin/BusinessInfoModal.tsx:31-42 | a GIF is refused for its type and a small SVG accepted |
| BusinessInfoModal.WithField | src/frontend/src/components/admin/BusinessInfoModal.tsx:92-94 | the named field takes the new value and every other field keeps its own |
| BusinessInfoModal.WithFieldRestores | src/frontend/src/components/admin/BusinessInfoModal.tsx:92-94 | typing the old value back restores the contact details exactly |
| BusinessInfoModal.BusinessInfoForm.constructor | src/frontend/src/components/admin/BusinessInfoModal.tsx:19-22 | the form starts from the stored details and the current logo, with no file and no progress |
| BusinessInfoModal.BusinessInfoForm.HandleLogoChange | src/frontend/src/components/admin/BusinessInfoModal.tsx:27-52 | no file changes nothing; a file is checked and kept only when accepted |
| BusinessInfoModal.BusinessInfoForm.PreviewLoaded | src/frontend/src/components/admin/BusinessInfoModal.tsx:48-50 | only the preview changes |
| BusinessInfoModal.BusinessInfoForm.HandleChange | src/frontend/src/components/admin/BusinessInfoModal.tsx:92-94 | the contact details become the one-field update, the rest of the form unchanged |
| BusinessInfoModal.BusinessInfoForm.ReportProgress | src/frontend/src/components/admin/BusinessInfoModal.tsx:65-67 | only the progress changes |
| BusinessInfoModal.BusinessInfoForm.HandleSubmit | src/frontend/src/components/admin/BusinessInfoModal.tsx:54-90 | the contact details are always sent first; the logo is sent second iff the first call succeeded and a file was chosen; the dialog closes iff every call made succeeded; progress ends at 0 |
| ProfileSetupModal.AdminAlertIffDedicated | src/frontend/src/components/ProfileSetupModal.tsx:21-54 | the admin notice shows iff the e-mail, ignoring case, is the dedicated admin address |
| ProfileSetupModal.Submit | src/frontend/src/components/ProfileSetupModal.tsx:23-42 | any empty field stops the submit; otherwise the profile is saved with the four values, and the admin message appears iff the address is the admin one |
| ProfileSetupModal.SavedAdminIsRecognised | src/frontend/src/components/ProfileSetupModal.tsx:33-34 | a profile saved with the admin message is recognised as admin by the admin query without asking the backend |
| AnalyticsTracking.BrowserName | src/frontend/src/hooks/useAnalytics.ts:16-21 | the first of Chrome, Firefox, Safari, Edge found is reported, else Unknown: one iff clause per outcome |
| AnalyticsTracking.DeviceType | src/frontend/src/hooks/useAnalytics.ts:26-29 | Mobile iff "mobile" appears in any case; Tablet iff "tablet" does and "mobile" does not; Desktop iff neither does |
| AnalyticsTracking.Platform | src/frontend/src/hooks/useAnalytics.ts:34-40 | the first of Win, Mac, Linux, Android, iOS found gives Windows, MacOS, Linux, Android or iOS, else Unknown: one iff clause per outcome |
| AnalyticsTracking.EdgeWithChromeIsChrome | src/frontend/src/hooks/useAnalytics.ts:16-21 | a Chromium Edge user agent is reported as Chrome |
| AnalyticsTracking.AndroidWithLinuxIsLinux | src/frontend/src/hooks/useAnalytics.ts:34-40 | an Android user agent that also names Linux is reported as Linux |
| AnalyticsTracking.Location | src/frontend/src/hooks/useAnalytics.ts:44-50 | the reported time zone, or "Unknown" when there is none |
| AnalyticsTracking.SessionLookup | src/frontend/src/hooks/useAnalytics.ts:5-11 | a stored non-empty id is returned and storage is unchanged; otherwise a fresh id is returned and stored under the session key |
| AnalyticsTracking.SessionIdStable | src/frontend/src/hooks/useAnalytics.ts:5-11 | a second lookup returns the first one's id and stores nothing new |
| AnalyticsTracking.SessionStorage.GetSessionId | src/frontend/src/hooks/useAnalytics.ts:5-11 | the id returned and the new storage are the lookup's |
| AnalyticsTracking.VisitsRecorded | src/frontend/src/hooks/useAnalytics.ts:54-68 | across any run of page changes at most one visit is recorded, the first page's, and none once tracked |
| AnalyticsTracking.VisitTracker.constructor | src/frontend/src/hooks/useAnalytics.ts:54 | nothing is tracked when the hook mounts |
| AnalyticsTracking.InstallTracker.constructor | src/frontend/src/hooks/useAnalytics.ts:73 | nothing is tracked when the hook mounts |
| AnalyticsTracking.VisitTracker.OnPage | src/frontend/src/hooks/useAnalytics.ts:54-68 | a visit with page, browser, device, location and session is recorded iff none was before; the flag is then set |
| AnalyticsTracking.InstallTracker.OnAppInstalled | src/frontend/src/hooks/useAnalytics.ts:72-98 | an install with version "1.0.0" is recorded iff none was before; the flag is then set |
| App.ViewProduct | src/frontend/src/App.tsx:35-38 | the product is selected and the detail page is current |
| App.GoTo | src/frontend/src/App.tsx:40-45 | the page is set; leaving for any page but product-detail drops the selection, product-detail keeps it; a consistent state stays consistent |
| App.GoToIdempotent | src/frontend/src/App.tsx:40-45 | navigating twice to a page is navigating once |
| App.BackClearsSelection | src/frontend/src/App.tsx:72-73 | back to products or on to the cart leaves no product selected |
| App.ReenterDetailKeepsProduct | src/frontend/src/App.tsx:42-44 | navigating to product-detail keeps the product last viewed |
| App.MainContent | src/frontend/src/App.tsx:63-90 | the detail page renders iff product-detail is current and the id is present and non-zero; otherwise that page shows nothing |
| App.ProductZeroNeverRenders | src/frontend/src/App.tsx:69 | viewing product 0 leaves the main area empty |
| App.ViewProductRenders | src/frontend/src/App.tsx:69 | viewing any other product renders its detail page |
| App.ProfileSetupOnlyWhenMissing | src/frontend/src/App.tsx:33 | the setup dialog opens iff signed in, the profile query has settled and answered null; never for a loaded profile or an unanswered query |
| App.HeaderIsAdmin | src/frontend/src/App.tsx:57 | the header gets admin links only on an explicit true |
| App.Shell.constructor | src/frontend/src/App.tsx:23-24 | home page, nothing selected |
| App.Shell.NavigateToProduct | src/frontend/src/App.tsx:35-38 | the new state is the view-product step, and is consistent |
| App.Shell.NavigateTo | src/frontend/src/App.tsx:40-45 | the new state is the navigation step, and consistency is kept |
| AnalyticsCsv.EscapeCsv | src/frontend/src/components/admin/AnalyticsSection.tsx:50-56 | a value without comma, double quote or line feed is written as it is; any other is wrapped in quotes with every quote doubled |
| AnalyticsCsv.CarriageReturnNotQuoted | src/frontend/src/components/admin/AnalyticsSection.tsx:52 | a carriage return alone does not trigger quoting |
| AnalyticsCsv.EncodeRows | src/frontend/src/components/admin/AnalyticsSection.tsx:59 | one encoded line per row, in order |
| AnalyticsCsv.ParseQuotedDoubled | src/frontend/src/components/admin/AnalyticsSection.tsx:53 | the reader undoes quote doubling: a doubled value followed by the closing quote reads back as the value |
| AnalyticsCsv.ParsePlainField | src/frontend/src/components/admin/AnalyticsSection.tsx:55 | an unquoted value reads back up to the next separator |
| AnalyticsCsv.FieldRoundTrip | src/frontend/src/components/admin/AnalyticsSection.tsx:50-56 | every escaped value reads back as itself, whatever it contains |
| AnalyticsCsv.RecordRoundTrip | src/frontend/src/components/admin/AnalyticsSection.tsx:58-59 | an encoded row reads back as its fields |
| AnalyticsCsv.RowsRoundTrip | src/frontend/src/components/admin/AnalyticsSection.tsx:59 | the line-joined rows read back as the rows |
| AnalyticsCsv.TableRoundTrip | src/frontend/src/components/admin/AnalyticsSection.tsx:49-61 | a table with rows reads back as the header followed by the rows; a table without rows reads back with one empty trailing record, from the line feed after the header |
| AnalyticsCsv.VisitRows | src/frontend/src/components/admin/AnalyticsSection.tsx:16-25 | one row per visit, as wide as the visit header |
| AnalyticsCsv.DownloadRows | src/frontend/src/components/admin/AnalyticsSection.tsx:28-38 | one row per install, as wide as the install header |
| AnalyticsCsv.IdCellPlain | src/frontend/src/components/admin/AnalyticsSection.tsx:18 | the id cell is the id in decimal, never quoted, and reads back as the id |
| AnalyticsCsv.ExportDocumentLayout | src/frontend/src/components/admin/AnalyticsSection.tsx:64-73 | the export is the summary marker and table, a blank line, the visits marker and table, a blank line, the installs marker and table |
| AnalyticsCsv.VisitsTableDecodes | src/frontend/src/components/admin/AnalyticsSection.tsx:16-25 | the visits table reads back as its header and one row per visit |
| AnalyticsCsv.ExportFileName | src/frontend/src/components/admin/AnalyticsSection.tsx:80 | the file name is "aurelie-analytics-", the part of the timestamp before the first 'T', and ".csv" |
| AnalyticsCsv.RecentFirst | src/frontend/src/components/admin/AnalyticsSection.tsx:191 | the last ten entries (all when fewer), newest first |
| BusinessInfoModal.ResetProgressEnablesSubmit | src/frontend/src/components/admin/BusinessInfoModal.tsx:267 | with progress back at 0 only a pending call disables submit; mid-upload it is disabled, at 100 it is not |
| OrderManagement.Card | src/frontend/src/components/admin/OrderManagement.tsx:242-247 | a card is marked new iff its id is highlighted or the backend flags it, offers Accept iff pending, and falls back to the pending caption |
| OrderManagement.ClearedCardsShowBackendFlag | src/frontend/src/components/admin/OrderManagement.tsx:59-62 | after a clear a card is marked new only by the backend flag |
| OrderManagement.DetectedCardsShowNew | src/frontend/src/components/admin/OrderManagement.tsx:47-49 | right after a snapshot every order new against a non-empty previous list is marked new |
| ProductsPage.SkippedStepsKeepAll | src/frontend/src/pages/ProductsPage.tsx:45-58 | a blank term and "all" keep every product, in order |
| AnalyticsTracking.NewSessionId | src/frontend/src/hooks/useAnalytics.ts:9 | a fresh id is never empty, so a later lookup finds it |

## Left out

- Rendering: JSX, styling, icons, toasts (other than the texts modelled), dialogs, `window.open`, `window.scrollTo` and the favicon update after a logo upload are not modelled.
- The query library (refetch intervals, refetch on focus or reconnect, caching, invalidation) and overlapping or out-of-order fetches are not modelled; each query function is modelled as one run.
- Timers are abstract events: the 15-second highlight clear (`OnClear`), the 5-second carousel tick (`Carousel.Tick`). The 500 ms refresh spinner, the manual refresh button and the last-refresh time have no stateable logic and are not modelled.
- Backend calls, uploads and their progress callbacks are parameters: whether a call succeeds (`succeeded`, `backendAccepts`, `contactAccepted`, `logoAccepted`, `saveSucceeds`) and the uploaded blob of a file (`upload`). Upload progress is modelled only in the business-information dialog.
- FileReader previews arrive asynchronously and in any order; a preview is an event (`PreviewLoaded`) carrying its data, and a counter tracks previews still to come. Which file a given preview belongs to is not modelled.
- Browser APIs are parameters: the user-agent string, the time zone, the session storage map, `Date.now` and the random part of a new session id.
- `encodeURIComponent` is a parameter (`encode`), `parseInt` an `Option<int>` parse result, and the locale time formatting a `formatTime` function.
- `Number(bigint)` conversions and floating-point sums: prices, quantities, totals, revenue, ids and timestamps are unbounded integers; the source loses precision beyond 2^53.
- useInternetIdentity and useActor are not part of this model; the identity and actor are booleans.
- Header.tsx, Footer.tsx, HomePage.tsx, RunningBanner.tsx and tailwind.config.js are not part of this model.
- src/frontend/src/types/navigation.ts is not part of this model; the page names are those used in App.tsx.
- ProductsPage.FilteredProducts: `localeCompare` is replaced by code-point lexicographic order (`Text.LexLe`), and the stability of the sort (the order of products with equal keys) is not stated.
- OrderManagement.SortedOrders: the order of orders with equal `createdAt` is not stated.
- OrdersPage.SortedOrders: the order of orders with equal `createdAt` is not stated.
- InventoryManagement.Payload: the batch is a set, so the order `Object.entries` gives the updates is not modelled.
- InventoryManagement.EnteredStock: a negative entry is kept as entered; what the backend does with it is not modelled.
- AnalyticsTracking.DeviceType: the case-insensitive match folds ASCII letters only.
- FilteredProductsMembers: the search ignores case for ASCII letters only (`Text.Lower`), whereas `toLowerCase` folds every Unicode letter; a product named with accented capitals is not found by its lower-case spelling in the model. Full Unicode case mapping is not modelled.
- AdminSearch: the name and category-label match folds ASCII letters only, for the same reason.
- InventorySearch: the name match folds ASCII letters only, for the same reason.
- CheckoutPage.UpiUrlFields: stated for any encoder that never emits '&', which `encodeURIComponent` does not.
- ProductDetailPage.QuantityStepper.Increment: requires stock above zero, because the controls are rendered only for products in stock.
- AnalyticsCsv.ExportDocument: the summary's export date is a parameter; building the download link and the Blob is not modelled.
