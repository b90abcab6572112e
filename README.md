# Shop catalogue: a verified model of its request, validation and toast logic

The repository is a catalogue of shops, products and categories. A React client talks to a Spring server. This project models, in Dafny, the parts of both that carry decisions:

- **List pages.** The home page, the products page, the categories page and the products panel of a shop's detail page. Each turns its page, sort, filter and search inputs into exactly one request, and shows the page that comes back. The home page debounces its inputs by 300 ms.
- **Request builders.** The client's shop service builds request URLs. The search API composes query parameters.
- **The shop form.** Name validation, editing the opening-hours list, and the create-or-edit dispatch.
- **The shop detail page.** The day sort, the day-name table and the delete flow.
- **Error toasts.** The response interceptor turns a failed call into an error toast. The provider keeps a single toast slot. The toaster keeps an `open` flag.
- **The server.** The list dispatch (search, one of three sorted listings, or id order), the shop constraints, the opening-hours overlap validator, and create, update and delete over a store of shops and their products.

Stateful parts are classes whose fields the methods update. Each method's `ensures` ties the new state to a pure step function (`ListStep`, `HomeStep`, `PanelStep`, `ProviderStep`, `OpenStep`, `Save`, `Update`, `DeleteById`). The properties are proved as lemmas about those functions.

Timers, network arrivals and user actions are explicit events. Calls into libraries are function-typed parameters:

- `encodeURIComponent` is `encode`.
- `JSON.stringify` is `stringify`.
- `LocalDate.parse` is `parse`, returning an optional date.
- The current date is `today`.

Some behaviour is modelled exactly as written, even where it looks surprising:

- `ShopDetails.handleDelete` sets loading before checking the route id. With no id it issues no request, and loading stays set (`ShopDetailsPage.ShopDetails.HandleDelete`).
- `getShopsFiltered` appends its filter string directly after the page size, with no separator. A filter that starts with a digit therefore changes the size. `ClientShopService.FilteredWithoutSeparator` shows that `"5"` turns size 9 into 95.
- The shop service of the client uses plain `axios`, not the instance with the interceptor. Only the category service's failures raise the interceptor's toast (`CategoriesPage.FailedFetchToastsAndKeepsList`).
- `OpeningHoursValidator` compares every pair with strict inequalities. It never checks an entry on its own, so a single entry that closes before it opens is valid.

## Model

| member | source | states |
|---|---|---|
| Paging.PageIndex | shop-client/src/pages/Products.tsx:43-45 | The 0-based page requested plus one is the UI page picked. |
| Paging.ReceivePageEffect | shop-client/src/pages/Products.tsx:29-36 | A success shows exactly the response's content, total pages and page number + 1. A failure leaves the view unchanged. |
| Paging.PickedPageIsShown | shop-client/src/pages/Home.tsx:55-58 | Receiving the page requested for UI page N shows page N. |
| Paging.ReceivePageKeepsValid | shop-client/src/pages/Categories.tsx:31-35 | Valid server responses keep the view consistent: loaded iff it shows a page ≥ 1. |
| Paging.PaginationHiddenIffLoadedEmpty | shop-client/src/pages/Products.tsx:89-101 | The pagination control is hidden exactly when a loaded list is empty; not-yet-loaded still shows it. |
| Paging.PickSamePageIsIgnored | shop-client/src/pages/Products.tsx:39-41 | Picking the already selected page changes nothing and fetches nothing, since the effect depends only on `pageSelected`. |
| Paging.PickOtherPageFetchesIt | shop-client/src/pages/Categories.tsx:39-45 | Picking another page selects N - 1, sets loading and requests exactly that page with the page size, keeping the view. |
| Paging.PickThenSettle | shop-client/src/pages/Products.tsx:28-45 | Pick then settle: loading cleared; success shows page N and the content; failure keeps the earlier items. |
| Paging.ListStepKeepsValid | shop-client/src/pages/Categories.tsx:28-45 | Every event keeps a list page's view valid. |
| ProductsPage.Products.constructor | shop-client/src/pages/Products.tsx:23-26 | Starts with no products, count 0, page 0, page 0 selected. |
| ProductsPage.Products.GetProducts | shop-client/src/pages/Products.tsx:28-37 | Sets loading and requests page `pageSelected` with size 9. |
| ProductsPage.Products.HandleChangePagination | shop-client/src/pages/Products.tsx:43-45 | New state and requests are one `Pick` step of the list machine. |
| ProductsPage.Products.Receive | shop-client/src/pages/Products.tsx:31-36 | New state is one `Settle` step: view updated as `ReceivePage`, loading cleared. |
| ProductsPage.Products.ShowsPagination | shop-client/src/pages/Products.tsx:89-101 | Pagination is shown iff the products are not a loaded empty list. |
| CategoriesPage.Categories.constructor | shop-client/src/pages/Categories.tsx:23-26 | Starts with no categories, count 0, page 0, page 0 selected. |
| CategoriesPage.Categories.GetCategories | shop-client/src/pages/Categories.tsx:28-37 | Sets loading and requests page `pageSelected` with size 9. |
| CategoriesPage.Categories.HandleChangePagination | shop-client/src/pages/Categories.tsx:43-45 | New state and requests are one `Pick` step of the list machine. |
| CategoriesPage.Categories.Receive | shop-client/src/pages/Categories.tsx:31-36 | New state is one `Settle` step: view updated, loading cleared. |
| CategoriesPage.Categories.ShowsPagination | shop-client/src/pages/Categories.tsx:89-101 | Pagination is shown iff the categories are not a loaded empty list. |
| CategoriesPage.FailedFetchToastsAndKeepsList | shop-client/src/services/CategoryService.ts:4-6 | A failed category fetch emits exactly one error toast through the interceptor, and settling it keeps the list shown. |
| HomePage.SearchParam | shop-client/src/pages/Home.tsx:42 | The search parameter is empty iff the query is; otherwise it is `&name=` + the encoded query. |
| HomePage.SortWins | shop-client/src/pages/Home.tsx:44-45 | With a sort, the request ignores the filters and is the sorted listing with `sort + searchParam`. |
| HomePage.UnsortedIsFiltered | shop-client/src/pages/Home.tsx:46-52 | Without a sort: filters give the filtered request with `filters + searchParam`; else a query gives the filtered request with only the search parameter; else the plain listing. |
| HomePage.SortedRequestUrl | shop-client/src/pages/Home.tsx:44-45 | With a sort, the URL reads back as page `pageSelected`, size 9 and `&sortBy=` + sort + search parameter. |
| HomePage.UnsortedRequestUrl | shop-client/src/pages/Home.tsx:46-52 | Without a sort, and with filters that are empty or do not start with a digit, the URL reads back as page `pageSelected`, size 9 and the filters + search parameter. |
| HomePage.RequestCarriesPageAndSize | shop-client/src/pages/Home.tsx:44-52 | Every request whose filters are empty or do not start with a digit is a GET whose URL parses back to page `pageSelected`, size 9 and the criteria in precedence order. |
| HomePage.SearchChangeRequestsFirstPage | shop-client/src/pages/Home.tsx:79-82 | After a search change the query is the new one and, when the filters are empty or do not start with a digit, the next request asks for page 0. |
| HomePage.DebounceFiresOnce | shop-client/src/pages/Home.tsx:63-69 | A burst of changes, each within 300 ms of the previous, followed by 300 ms of quiet, gives exactly one request, built from the latest inputs; the timer is then idle. |
| HomePage.IneffectiveChangeKeepsTimer | shop-client/src/pages/Home.tsx:63-69 | A change that leaves every dependency equal neither reschedules nor fetches. |
| HomePage.QuietTimeFetchesNothing | shop-client/src/pages/Home.tsx:63-69 | Time shorter than the pending delay fetches nothing and only counts the timer down. |
| HomePage.MountFetchesFirstPage | shop-client/src/pages/Home.tsx:29-36 | 300 ms after mounting, the plain listing of page 0, size 9 is requested once. |
| HomePage.Home.constructor | shop-client/src/pages/Home.tsx:29-36 | Initial fields: no shops, count 0, page 0, empty sort, filters and query, the mount timer pending. |
| HomePage.Home.Apply | shop-client/src/pages/Home.tsx:63-69 | An input change is one `Input` step of the debounce machine; the view is untouched. |
| HomePage.Home.HandleChangePagination | shop-client/src/pages/Home.tsx:71-73 | UI page N selects page N - 1, as an `Input` step. |
| HomePage.Home.HandleChangeSort | shop-client/src/pages/Home.tsx:75-77 | The sort becomes the chosen value, as an `Input` step. |
| HomePage.Home.SetFilters | shop-client/src/pages/Home.tsx:153 | The filters become the given string, as an `Input` step. |
| HomePage.Home.HandleSearchChange | shop-client/src/pages/Home.tsx:79-82 | The query becomes the value and page 0 is selected, as an `Input` step. |
| HomePage.Home.GetShops | shop-client/src/pages/Home.tsx:38-52 | Sets loading and returns the request chosen from the current inputs. |
| HomePage.Home.Elapse | shop-client/src/pages/Home.tsx:63-66 | Elapsed time is one `Elapse` step: the timer fires the fetch when it runs out. |
| HomePage.Home.Receive | shop-client/src/pages/Home.tsx:54-60 | Success shows content, total pages and page number + 1; loading is cleared either way. |
| HomePage.Home.ShowsPagination | shop-client/src/pages/Home.tsx:166 | Pagination is shown iff the shops are not a loaded empty list. |
| HomePage.Home.Unmount | shop-client/src/pages/Home.tsx:68 | Unmounting clears the pending timer. |
| ShopProductsPanel.ProductsRequest | shop-client/src/components/ShopProducts.tsx:27-31 | Page `pageSelected`, size 6, this shop; filtered by category iff a filter other than "Toutes les catégories" is chosen, with that category's id. |
| ShopProductsPanel.Trace | shop-client/src/components/ShopProducts.tsx:42-44 | One input snapshot per change. |
| ShopProductsPanel.EveryChangeFetches | shop-client/src/components/ShopProducts.tsx:42-44 | With no debounce, every change of shop, page or filter issues exactly one request, from the inputs after that change. |
| ShopProductsPanel.UnchangedInputsFetchNothing | shop-client/src/components/ShopProducts.tsx:42-44 | A change that leaves the inputs equal by value issues no request (React's by-reference comparison of the filter object is not modelled). |
| ShopProductsPanel.AllCategoriesIsNoFilter | shop-client/src/components/ShopProducts.tsx:27-31 | Choosing "Toutes les catégories" requests the same as no filter. |
| ShopProductsPanel.ShopProducts.constructor | shop-client/src/components/ShopProducts.tsx:17-21 | Page 0 of the given shop, no filter, nothing loaded. |
| ShopProductsPanel.ShopProducts.GetProducts | shop-client/src/components/ShopProducts.tsx:23-31 | Sets loading and returns the request for the current inputs. |
| ShopProductsPanel.ShopProducts.Change | shop-client/src/components/ShopProducts.tsx:42-44 | New inputs and requests are one panel step; loading set iff a request is issued. |
| ShopProductsPanel.ShopProducts.HandleChangePagination | shop-client/src/components/ShopProducts.tsx:46-48 | UI page N selects page N - 1, as a panel step. |
| ShopProductsPanel.ShopProducts.Receive | shop-client/src/components/ShopProducts.tsx:33-39 | Success shows content, total pages and page number + 1; loading cleared. |
| ClientShopService.GetShops | shop-client/src/services/ShopService.ts:6-8 | A GET with no body. |
| ClientShopService.GetShopsSorted | shop-client/src/services/ShopService.ts:10-12 | A GET with no body. |
| ClientShopService.GetShopsFiltered | shop-client/src/services/ShopService.ts:14-16 | A GET with no body. |
| ClientShopService.GetShopsWithParams | shop-client/src/services/ShopService.ts:21-23 | A GET with no body. |
| ClientShopService.GetShop | shop-client/src/services/ShopService.ts:25-27 | A GET with no body. |
| ClientShopService.CreateShop | shop-client/src/services/ShopService.ts:29-31 | A POST carrying the shop. |
| ClientShopService.EditShop | shop-client/src/services/ShopService.ts:33-38 | Fails with "id required" iff the shop's id is falsy; otherwise a PUT carrying the shop. |
| ClientShopService.DeleteShop | shop-client/src/services/ShopService.ts:40-42 | A DELETE with no body. |
| ClientShopService.ParseListUrl | shop-client/src/services/ShopService.ts:6-16 | A list URL parses back to its page, size and suffix when the suffix does not start with a digit. |
| ClientShopService.GetShopsUrl | shop-client/src/services/ShopService.ts:6-8 | The URL is `<base>/shops?page=P&size=S` and parses back to P and S. |
| ClientShopService.GetShopsSortedUrl | shop-client/src/services/ShopService.ts:10-12 | The URL is the list URL followed by `&sortBy=` + sort. |
| ClientShopService.GetShopsFilteredUrl | shop-client/src/services/ShopService.ts:14-16 | The URL is the list URL followed by the filters verbatim. |
| ClientShopService.FilteredWithoutSeparator | shop-client/src/services/ShopService.ts:14-16 | No separator is added: filters "5" after size 9 read back as size 95. |
| ClientShopService.GetShopsIsWithParams | shop-client/src/services/ShopService.ts:6-8 | The plain listing is `<base>/shops?` followed by `page=P&size=S`. |
| ClientShopService.SingleShopUrls | shop-client/src/services/ShopService.ts:25-27 | Get and delete target `<base>/shops/<id>`, which parses back to the id. |
| ClientShopService.EditTargetsCollection | shop-client/src/services/ShopService.ts:29-38 | With an id, edit is the create request with PUT instead of POST. |
| ShopsApi.ApiUrl | shop-client/src/api/shops.ts:3 | The configured URL if set, otherwise `http://localhost:8080`. |
| ShopsApi.SearchShops | shop-client/src/api/shops.ts:31 | The request goes to the API URL + `/api/v1/shops/search`. |
| ShopsApi.LookupAppend | shop-client/src/api/shops.ts:32-38 | Looking a key up in two spread parts finds the first part's entry first. |
| ShopsApi.LookupAbsent | shop-client/src/api/shops.ts:32-38 | A key on no entry is absent. |
| ShopsApi.SearchParamValues | shop-client/src/api/shops.ts:29-37 | `q` iff truthy; `inVacations` iff defined; `page` default 0 and `size` default 10, always sent; `sort` iff truthy. |
| ShopsApi.SearchParamsDistinct | shop-client/src/api/shops.ts:32-38 | No parameter is sent twice. |
| ShopsApi.FalseVacationsIsSent | shop-client/src/api/shops.ts:34 | `inVacations = false` is sent. |
| AxiosInstance.ErrorMessage | shop-client/src/api/axiosInstance.ts:11-20 | Truthy string data gives that string, other truthy data its serialisation; else a truthy error message; else the fallback. |
| AxiosInstance.Intercept | shop-client/src/api/axiosInstance.ts:8-31 | The outcome is passed on unchanged; a failure emits exactly one error toast and a success none. |
| AxiosInstance.ErrorMessageNonEmpty | shop-client/src/api/axiosInstance.ts:11-20 | The derived message is never empty, given a serialisation that is never empty. |
| AxiosInstance.EmptyBodyFallsThrough | shop-client/src/api/axiosInstance.ts:14-20 | An empty-string body falls through to the error's message or the fallback. |
| AxiosInstance.StructuredBodyIsSerialised | shop-client/src/api/axiosInstance.ts:15-17 | An object body is shown as its serialisation. |
| AxiosInstance.FailureOpensToaster | shop-client/src/api/axiosInstance.ts:21-29 | The toast a failure emits opens the toaster. |
| ToastContext.ProviderRunSnoc | shop-client/src/context/ToastProvider.tsx:24-44 | Running events one more step extends the run by one step. |
| ToastContext.LastWriteWins | shop-client/src/context/ToastProvider.tsx:25-32 | While mounted, the slot holds the last toast written by an event or by `setToast`, or the previous one if there was none. |
| ToastContext.NothingAfterTeardown | shop-client/src/context/ToastProvider.tsx:37-39 | After the listener is removed, no event changes anything. |
| ToastContext.ToastProvider.constructor | shop-client/src/context/ToastProvider.tsx:18-21 | The slot starts as a success toast with an empty message; the toaster is closed. |
| ToastContext.ToastProvider.OnShowToast | shop-client/src/context/ToastProvider.tsx:25-32 | A window toast replaces the slot with its severity and message and reaches the toaster. |
| ToastContext.ToastProvider.SetToast | shop-client/src/context/ToastProvider.tsx:44-47 | The context's setter writes the same slot and reaches the toaster. |
| ToastContext.ToastProvider.Unmount | shop-client/src/context/ToastProvider.tsx:37-39 | Teardown removes the listener. |
| ToasterView.OpenRunSnoc | shop-client/src/components/Toaster.tsx:13-22 | Running events one more step extends the run by one step. |
| ToasterView.OpenRunIsLastDecision | shop-client/src/components/Toaster.tsx:13-22 | `open` is decided by the last toast with a message or non-click-away close, else it stays as it was. |
| ToasterView.ClickAwayKeepsOpen | shop-client/src/components/Toaster.tsx:17-20 | Click-aways and empty toasts never close an open toaster. |
| ToasterView.NoDecision | shop-client/src/components/Toaster.tsx:13-20 | Such events decide nothing. |
| ToasterView.Toaster.constructor | shop-client/src/components/Toaster.tsx:11-15 | Starts closed, then opens only if the first toast has a message; shows the toast given. |
| ToasterView.Toaster.OnToastChange | shop-client/src/components/Toaster.tsx:13-15 | A toast with a message opens the toaster, an empty one leaves it; the toast is shown as given. |
| ToasterView.Toaster.HandleClose | shop-client/src/components/Toaster.tsx:17-22 | A click-away close changes nothing; any other close closes. |
| ToasterView.Toaster.AutoHide | shop-client/src/components/Toaster.tsx:25 | The auto-hide close closes the toaster. |
| ShopFormPage.Schema | shop-client/src/pages/ShopForm.tsx:30-32 | The name error is empty iff the name is non-empty, and is "Ce champ est requis" otherwise. |
| ShopFormPage.ValidIffNamed | shop-client/src/pages/ShopForm.tsx:111-115 | The form is valid iff every error is empty iff the name is non-empty. |
| ShopFormPage.ApplyEdit | shop-client/src/pages/ShopForm.tsx:95-98 | Setting one key of an entry changes that key only. |
| ShopFormPage.EditAtChangesOneEntry | shop-client/src/pages/ShopForm.tsx:93-101 | Editing entry i keeps the length, edits entry i and leaves every other entry unchanged. |
| ShopFormPage.WithoutRemovesOne | shop-client/src/pages/ShopForm.tsx:107-109 | Clearing entry i removes exactly it and keeps the rest in order; an out-of-range i changes nothing. |
| ShopFormPage.AddThenRemoveLast | shop-client/src/pages/ShopForm.tsx:103-109 | Adding the default entry and clearing it again gives back the list. |
| ShopFormPage.SubmitRequiresName | shop-client/src/pages/ShopForm.tsx:117-124 | Nothing is submitted iff the name is empty; an edit whose shop has no id throws "id required". |
| ShopFormPage.AddModeCreates | shop-client/src/pages/ShopForm.tsx:117-120 | In add mode a valid shop is posted to `/shops`. |
| ShopFormPage.EditModeEdits | shop-client/src/pages/ShopForm.tsx:121-122 | In edit mode a valid shop with an id is put to `/shops`. |
| ShopFormPage.SubmitToast | shop-client/src/pages/ShopForm.tsx:66-72 | Success gives the created/edited message; failure gives the server's `message` if present, otherwise the operation's fallback. |
| ShopFormPage.SubmitNavigation | shop-client/src/pages/ShopForm.tsx:67-82 | Navigation happens iff the call succeeded. |
| ShopFormPage.SubmitToastOpensToaster | shop-client/src/pages/ShopForm.tsx:63-91 | Every submission toast has a message and opens the toaster. |
| ShopFormPage.ShopForm.constructor | shop-client/src/pages/ShopForm.tsx:43-47 | Name empty, not in vacations, no opening hours, no errors. |
| ShopFormPage.ShopForm.Mount | shop-client/src/pages/ShopForm.tsx:49-61 | The shop is loaded iff the route has an id, with loading set. |
| ShopFormPage.ShopForm.ReceiveLoaded | shop-client/src/pages/ShopForm.tsx:53-59 | The loaded shop is shown with the route's id; loading cleared. |
| ShopFormPage.ShopForm.HandleChange | shop-client/src/pages/ShopForm.tsx:93-101 | The shop's opening hours become `EditAt` of the old ones; all else unchanged. |
| ShopFormPage.ShopForm.HandleClickAddHours | shop-client/src/pages/ShopForm.tsx:103-105 | The default entry (day 1, 09:00:00 to 18:00:00) is appended. |
| ShopFormPage.ShopForm.HandleClickClearHours | shop-client/src/pages/ShopForm.tsx:107-109 | Entry i is removed as `Without`. |
| ShopFormPage.ShopForm.Validate | shop-client/src/pages/ShopForm.tsx:111-115 | Errors become the schema's; the result is true iff the name is non-empty. |
| ShopFormPage.ShopForm.HandleSubmit | shop-client/src/pages/ShopForm.tsx:117-124 | The submission is `SubmitOutcome`; loading set iff something was attempted. |
| ShopFormPage.ShopForm.SettleSubmit | shop-client/src/pages/ShopForm.tsx:66-90 | Writes the submission toast to the context, navigates on success, clears loading. |
| ShopDetailsPage.DayName | shop-client/src/pages/ShopDetails.tsx:11-19 | A day has a name iff it is 1 to 7. |
| ShopDetailsPage.DayNamesDistinct | shop-client/src/pages/ShopDetails.tsx:11-19 | Distinct days have distinct names; 1 is Lundi and 7 Dimanche. |
| ShopDetailsPage.InsertDown | shop-client/src/pages/ShopDetails.tsx:30 | One insertion step: a prefix sorted by day grows by one entry, the entries being rearranged only. |
| ShopDetailsPage.SortByDay | shop-client/src/pages/ShopDetails.tsx:30 | After the in-place sort the entries are ordered by day and are a permutation of the originals. |
| ShopDetailsPage.DeleteToast | shop-client/src/pages/ShopDetails.tsx:47-53 | A success toast iff the delete succeeded, an error toast iff it failed; never empty. |
| ShopDetailsPage.ShopDetails.constructor | shop-client/src/pages/ShopDetails.tsx:26 | No shop shown. |
| ShopDetailsPage.ShopDetails.Mount | shop-client/src/pages/ShopDetails.tsx:35-37 | The shop is fetched iff the route has an id. |
| ShopDetailsPage.ShopDetails.ReceiveShop | shop-client/src/pages/ShopDetails.tsx:28-33 | The shown shop is the fetched one with its opening hours sorted by day and a permutation of the fetched ones. |
| ShopDetailsPage.ShopDetails.HandleDelete | shop-client/src/pages/ShopDetails.tsx:43-46 | Loading is always set; a delete request is issued iff the route has an id. |
| ShopDetailsPage.ShopDetails.SettleDelete | shop-client/src/pages/ShopDetails.tsx:47-56 | Home on success, the outcome's toast written either way, loading cleared. |
| OpeningHoursValidation.IsValid | shop-server/src/main/java/fr/fullstack/shopapp/validation/OpeningHoursValidator.java:11-32 | Valid iff the list is null, or no pair i < j on the same day has open_i < close_j and close_i > open_j. |
| OpeningHoursValidation.OverlapSymmetric | shop-server/src/main/java/fr/fullstack/shopapp/validation/OpeningHoursValidator.java:24 | Overlap does not depend on the order of the two entries. |
| OpeningHoursValidation.DifferentDaysNeverConflict | shop-server/src/main/java/fr/fullstack/shopapp/validation/OpeningHoursValidator.java:22 | Entries all on different days are valid. |
| OpeningHoursValidation.TouchingIsNoConflict | shop-server/src/main/java/fr/fullstack/shopapp/validation/OpeningHoursValidator.java:24 | An interval ending when another starts does not conflict, in either order. |
| OpeningHoursValidation.SingleEntryIsValid | shop-server/src/main/java/fr/fullstack/shopapp/validation/OpeningHoursValidator.java:16-31 | One entry is always valid, with no open-before-close check. |
| OpeningHoursValidation.SharedTimeIsConflict | shop-server/src/main/java/fr/fullstack/shopapp/validation/OpeningHoursValidator.java:22-26 | Same-day entries sharing an instant are rejected in either order. |
| OpeningHoursValidation.TwoPositionsCountTwice | shop-server/src/main/java/fr/fullstack/shopapp/validation/OpeningHoursValidator.java:16-29 | An entry at two positions occurs at least twice in the list. |
| OpeningHoursValidation.CountTwiceTwoPositions | shop-server/src/main/java/fr/fullstack/shopapp/validation/OpeningHoursValidator.java:16-29 | An entry occurring twice sits at two positions. |
| OpeningHoursValidation.NoOverlapIffPairFree | shop-server/src/main/java/fr/fullstack/shopapp/validation/OpeningHoursValidator.java:16-31 | The positional check equals the order-free one on the multiset of entries. |
| OpeningHoursValidation.ValidityIgnoresOrder | shop-server/src/main/java/fr/fullstack/shopapp/validation/OpeningHoursValidator.java:16-31 | Any rearrangement of a list is valid iff the list is. |
| ShopModel.NewShop | shop-server/src/main/java/fr/fullstack/shopapp/model/Shop.java:55-61 | A new shop has no opening hours, no id and no creation date. |
| ShopModel.NewShopValidIffNamed | shop-server/src/main/java/fr/fullstack/shopapp/model/Shop.java:41-57 | A new shop is valid iff its name is present with 1 to 255 characters. |
| ShopModel.MissingNameRejected | shop-server/src/main/java/fr/fullstack/shopapp/model/Shop.java:41-45 | A null or empty name is rejected. |
| ShopModel.ShopValidityIgnoresHoursOrder | shop-server/src/main/java/fr/fullstack/shopapp/model/Shop.java:55-57 | Reordering a shop's opening hours does not change its validity. |
| ShopModel.ViolationsIffInvalid | shop-server/src/main/java/fr/fullstack/shopapp/model/Shop.java:41-57 | No violation iff valid; each message iff its own constraint fails (null name only the not-null one). |
| ShopServer.TrimStartEmptyIffBlank | shop-server/src/main/java/fr/fullstack/shopapp/service/ShopService.java:81 | Stripping leading blanks leaves nothing iff the string is blank. |
| ShopServer.TrimEndKeepsFirst | shop-server/src/main/java/fr/fullstack/shopapp/service/ShopService.java:81 | Stripping trailing blanks keeps a non-blank first character. |
| ShopServer.TrimEmptyIffBlank | shop-server/src/main/java/fr/fullstack/shopapp/service/ShopService.java:81 | `trim()` is empty iff every character is at most a space. |
| ShopServer.ParseDate | shop-server/src/main/java/fr/fullstack/shopapp/service/ShopService.java:112-121 | A date is present iff the string is present and parses, and then it is the parsed date. |
| ShopServer.SearchIffCriterion | shop-server/src/main/java/fr/fullstack/shopapp/service/ShopService.java:79-94 | Search is chosen iff a non-blank name, a vacation flag or a parseable date is given, and receives all of them and the sort. |
| ShopServer.BlankNameAloneIsNoSearch | shop-server/src/main/java/fr/fullstack/shopapp/service/ShopService.java:81 | A blank name alone does not select search. |
| ShopServer.UnparseableDateIsAbsent | shop-server/src/main/java/fr/fullstack/shopapp/service/ShopService.java:112-121 | An unparseable date string is treated as absent. |
| ShopServer.OrderedListings | shop-server/src/main/java/fr/fullstack/shopapp/service/ShopService.java:95-104 | Without criteria: `name` is by name, `createdAt` by creation date, any other non-empty key by product count, none or empty by id. |
| ShopServer.SearchOverridesSort | shop-server/src/main/java/fr/fullstack/shopapp/service/ShopService.java:86-93 | A criterion selects search over any sort key, which is forwarded. |
| ShopServer.NotFoundMessageNamesId | shop-server/src/main/java/fr/fullstack/shopapp/service/ShopService.java:123-126 | "Shop with id X not found" identifies X. |
| ShopServer.FindById | shop-server/src/main/java/fr/fullstack/shopapp/service/ShopService.java:123-126 | Found iff stored, as stored; otherwise the not-found error for that id. |
| ShopServer.SaveKeepsValid | shop-server/src/main/java/fr/fullstack/shopapp/service/ShopService.java:33-43 | Saving keeps the store valid: every stored shop satisfies the constraints and every product's shop exists. |
| ShopServer.SaveThenFind | shop-server/src/main/java/fr/fullstack/shopapp/service/ShopService.java:33-43 | A saved shop is found under its returned id, as returned. |
| ShopServer.InvalidSaveChangesNothing | shop-server/src/main/java/fr/fullstack/shopapp/service/ShopService.java:33-43 | A shop breaking a constraint is refused with its violations and the store is unchanged. |
| ShopServer.InsertedShopHasNoProducts | shop-server/src/main/java/fr/fullstack/shopapp/model/Shop.java:59-61 | A newly inserted shop has no products. |
| ShopServer.UpdateOutcome | shop-server/src/main/java/fr/fullstack/shopapp/service/ShopService.java:60-68 | Unknown id: not-found error, nothing saved. Known id breaking a constraint: refused with its violations, nothing saved. Known valid id: the stored shop is replaced under the same id with its creation date kept, and nothing else changes. |
| ShopServer.DeleteDetachesEverything | shop-server/src/main/java/fr/fullstack/shopapp/service/ShopService.java:45-54 | After a delete no product references the shop, other products and shops are untouched, no product is removed. |
| ShopServer.DeleteKeepsValid | shop-server/src/main/java/fr/fullstack/shopapp/service/ShopService.java:45-54 | Deleting keeps the store valid. |
| ShopServer.ShopService.constructor | shop-server/src/main/java/fr/fullstack/shopapp/service/ShopService.java:27-31 | The store starts empty. |
| ShopServer.ShopService.GetShopById | shop-server/src/main/java/fr/fullstack/shopapp/service/ShopService.java:56-58 | The result is `FindById` of the store. |
| ShopServer.ShopService.CreateShop | shop-server/src/main/java/fr/fullstack/shopapp/service/ShopService.java:33-43 | New store and result are `Save` of the old store. |
| ShopServer.ShopService.UpdateShop | shop-server/src/main/java/fr/fullstack/shopapp/service/ShopService.java:60-68 | New store and result are `Update` of the old store. |
| ShopServer.ShopService.DeleteNestedRelations | shop-server/src/main/java/fr/fullstack/shopapp/service/ShopService.java:128-135 | The loop detaches every product of the shop and no other, as `Detach`. |
| ShopServer.ShopService.DeleteShopById | shop-server/src/main/java/fr/fullstack/shopapp/service/ShopService.java:45-54 | New store and error are `DeleteById` of the old store. |

## Left out

- Full-text search is not modelled: the index, its scoring and fuzzy matching. `ShopService.getShopList` is modelled up to the choice of listing; `Search(...)` records the arguments passed.
- The contents and order of each listing page are left out. Listings are named by their order (`ByNameAsc`, ...), and the pageable is not modelled.
- Controllers, the global exception handler and application start-up are left out. They are framework wrappers, and the shop controller's delete never calls the service.
- JPA flush, refresh, merge and transactions are modelled as atomic store updates. Hibernate's merge of an unknown id is modelled as an insert under the next id.
- The `@Formula` product and category counts are not modelled. They are SQL.
- The constraints on each opening-hours entry are not modelled. `OpeningHoursShop.java` is not part of this model, and the constraint on `inVacations` cannot fail on a primitive flag.
- ShopModel.NameValid: names are counted in characters. Java's `String` length counts UTF-16 units, which differ for characters outside the basic plane.
- ShopServer.ShopService.DeleteNestedRelations: iterates over the set of the shop's products rather than the list's order. The result does not depend on the order.
- ShopServer.Trim: Java's `trim` is modelled as stripping characters up to U+0020.
- The product and category services' request URLs are left out. The pages' requests are modelled as `PageQuery` and `ProductsQuery` values.
- `encodeURIComponent`, `JSON.stringify` and `LocalDate.parse` are uninterpreted parameters. The clock is a `today` parameter.
- Time formatting with `moment` and `dayjs` is left out. It is display only.
- Real timers, concurrency and the race between overlapping fetches are left out. Timers are `Elapse` events, and responses are `Receive` events applied in the order given.
- The Snackbar's 5000 ms timer is the `AutoHide` event; its duration is not modelled.
- Rendering is left out: layout, cards, search bar, alert markup.
- ShopFormPage.ShopForm.HandleChange: requires the index to lie within the list. JavaScript would create a sparse entry past the end, which the form never does.
- ClientTypes.ServerMessage: takes `error.response.data.message` only when it is a non-empty string. Other truthy values are not modelled.
- ShopDetailsPage.SortByDay: it is a stable insertion sort, as `Array.prototype.sort` is, but stability is not proved; only order and permutation are.
- HomePage.UnsortedRequestUrl, HomePage.RequestCarriesPageAndSize, HomePage.SearchChangeRequestsFirstPage: these assume filters that are empty or do not start with a digit. The filter component that produces them is not part of this model. A filter starting with a digit would run into the page size (see `ClientShopService.FilteredWithoutSeparator`).
- ShopProductsPanel.PanelStep, ShopProductsPanel.UnchangedInputsFetchNothing: the effect's dependencies are compared by value here. React compares the `filter` object by reference, so choosing a new but equal category re-fetches in the client, and the model issues no request.
- ShopServer.ServiceError: the server rethrows every failure as a plain exception carrying only its message, which the exception handler turns into a 500 response. The distinction between not-found and constraint-violation errors exists only in this model.
- The app-wide loading flag of the layout is modelled as each page's own `loading` field.
