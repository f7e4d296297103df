# Magnova ERP front end: refresh registry, role menu and purchase-order form

This project models, in Dafny, the decision logic of three parts of the
Magnova/Nova ERP web front end, and proves properties of that model.

- **Data-refresh registry** (`data_refresh.dfy`, module `DataRefresh`). The
  provider keeps one timestamp per kind of data: purchase orders, procurement,
  payments, logistics, inventory, invoices, dashboard and reports. Its
  purpose is to let a page re-fetch when its kind's timestamp moves.
  `triggerRefresh(types)` stamps
  the listed kinds. `triggerGlobalRefresh` stamps all eight. The six
  `refreshAfter*` helpers each pass a fixed list. The state is the class
  `RefreshRegistry`. The updater that copies the previous map and then
  overwrites entries in a loop is the method `Refreshed`. It is proved equal
  to the specification function `Stamp`, and the lemmas about the registry
  are stated about `Stamp`.
- **Sidebar menu** (`sidebar.dfy`, module `Sidebar`). A constant table of
  nine entries, each with the roles it is open to. The table is filtered by
  the signed-in user's role. The current entry is marked active, and each
  link gets a `data-testid` derived from its caption.
- **Purchase-order page** (`purchase_orders.dfy`, module `PurchaseOrders`).
  The create form's list of line items is the class `CreateForm`. It has
  add, remove and update operations and keeps the invariant that the list is
  never empty. The module also models the `items` the create request posts,
  the footer quantity total, the approve/reject request body, the status
  badge, and the rules that show the Create, Review and Remove controls.
- **`parseInt`** (`js_numbers.dfy`, module `JsNumbers`). The page reads
  quantities with JavaScript's `parseInt`. This module models it: leading
  white space, an optional sign, a `0x` prefix, and the longest digit run.
  It proves that `parseInt` reads back the decimal text of every integer.

`users.dfy` holds the signed-in user (role and organization), and
`wrappers.dfy` holds `Option`. In `Option`, `None` stands for `undefined`,
`null` or `NaN`.

Clock readings are parameters: each `Date.now()` call and the form's
default date. `parseFloat` is a parameter of the request-building functions,
and so is `parseInt`. Because of that, the page lemmas hold for any parser
with the stated properties, and `JsNumbers.ParseIntFormTexts` proves those
properties of the modelled `parseInt`.

The purchase-order statuses follow the page code: `Pending`, `Approved`,
`Rejected` and `Created`, with `Pending` the only one that can be reviewed.

## Model

| member | source | states |
|---|---|---|
| DataRefresh.InitialTimestamps | frontend/src/context/DataRefreshContext.js:15-24 | the initial map has exactly the eight kinds as keys, each holding its own clock reading |
| DataRefresh.RefreshRegistry.constructor | frontend/src/context/DataRefreshContext.js:15-24 | the registry starts with that map, so its key set is the eight kinds |
| DataRefresh.StampOne | frontend/src/context/DataRefreshContext.js:32-34 | stamping one name keeps the key set, puts `now` under that name when it is a key, and leaves every other key as it was |
| DataRefresh.Stamp | frontend/src/context/DataRefreshContext.js:29-37 | the updater `triggerRefresh` applies to the previous map: it never adds or drops a key (the values are given by `DataRefresh.StampFrame`) |
| DataRefresh.StampFrame | frontend/src/context/DataRefreshContext.js:27-37 | after `triggerRefresh(types, now)` the key set is unchanged (unknown names are ignored); a key holds `now` exactly when it is listed, and every other key keeps its previous timestamp; with the default empty list the map is unchanged |
| DataRefresh.Refreshed | frontend/src/context/DataRefreshContext.js:29-37 | the copy-then-overwrite loop computes `Stamp(prev, types, now)`: same keys, listed keys at `now`, the rest as before |
| DataRefresh.RefreshRegistry.TriggerRefresh | frontend/src/context/DataRefreshContext.js:27-38 | the registry's new map is `Stamp` of the old one, and it still has exactly the eight keys |
| DataRefresh.StampAppend | frontend/src/context/DataRefreshContext.js:27-37 | two refreshes in a row equal one refresh with the two lists joined |
| DataRefresh.StampSameNames | frontend/src/context/DataRefreshContext.js:31-35 | the result depends only on which names are listed, not on their order or repetition |
| DataRefresh.StampDuplicates | frontend/src/context/DataRefreshContext.js:31-35 | listing every name twice has the same effect as listing it once |
| DataRefresh.StampIdempotent | frontend/src/context/DataRefreshContext.js:27-37 | refreshing the same names at the same instant twice equals refreshing once |
| DataRefresh.GlobalRefresh | frontend/src/context/DataRefreshContext.js:41-53 | `triggerGlobalRefresh(now)` gives a map whose keys are exactly the eight kinds, all at `now` |
| DataRefresh.RefreshRegistry.TriggerGlobalRefresh | frontend/src/context/DataRefreshContext.js:41-53 | the registry's map becomes that global map |
| DataRefresh.StampAllIsGlobal | frontend/src/context/DataRefreshContext.js:27-53 | on the registry's map, a list that names every kind has the same effect as a global refresh |
| DataRefresh.AfterPOChange | frontend/src/context/DataRefreshContext.js:56-58 | the purchase-order helper lists exactly the eight kinds |
| DataRefresh.POChangeIsGlobal | frontend/src/context/DataRefreshContext.js:41-58 | `refreshAfterPOChange` has the same effect as `triggerGlobalRefresh` at the same instant |
| DataRefresh.RefreshRegistry.RefreshAfterPOChange | frontend/src/context/DataRefreshContext.js:56-58 | the registry's map after a purchase-order change is the global map |
| DataRefresh.AfterProcurementChange | frontend/src/context/DataRefreshContext.js:60-62 | the procurement helper lists procurement, inventory, dashboard and reports, all of them existing kinds |
| DataRefresh.RefreshRegistry.RefreshAfterProcurementChange | frontend/src/context/DataRefreshContext.js:60-62 | the registry's map is stamped with that list; dashboard and reports hold `now` |
| DataRefresh.AfterPaymentChange | frontend/src/context/DataRefreshContext.js:64-66 | the payment helper lists payments, dashboard and reports, all existing kinds |
| DataRefresh.RefreshRegistry.RefreshAfterPaymentChange | frontend/src/context/DataRefreshContext.js:64-66 | the registry's map is stamped with that list; dashboard and reports hold `now` |
| DataRefresh.AfterLogisticsChange | frontend/src/context/DataRefreshContext.js:68-70 | the logistics helper lists logistics, dashboard and reports, all existing kinds |
| DataRefresh.RefreshRegistry.RefreshAfterLogisticsChange | frontend/src/context/DataRefreshContext.js:68-70 | the registry's map is stamped with that list; dashboard and reports hold `now` |
| DataRefresh.AfterInventoryChange | frontend/src/context/DataRefreshContext.js:72-74 | the inventory helper lists inventory, dashboard and reports, all existing kinds |
| DataRefresh.RefreshRegistry.RefreshAfterInventoryChange | frontend/src/context/DataRefreshContext.js:72-74 | the registry's map is stamped with that list; dashboard and reports hold `now` |
| DataRefresh.AfterInvoiceChange | frontend/src/context/DataRefreshContext.js:76-78 | the invoice helper lists invoices, dashboard and reports, all existing kinds |
| DataRefresh.RefreshRegistry.RefreshAfterInvoiceChange | frontend/src/context/DataRefreshContext.js:76-78 | the registry's map is stamped with that list; dashboard and reports hold `now` |
| DataRefresh.StampAsWrittenAddsInherited | frontend/src/context/DataRefreshContext.js:32-33 | as written, naming an inherited Object.prototype name other than `__proto__` that is not yet a key adds it as a key holding `now` |
| DataRefresh.StampAsWrittenGrowsKeys | frontend/src/context/DataRefreshContext.js:32-33 | as written, `triggerRefresh(['toString'])` on the initial map adds a ninth key |
| DataRefresh.StampAsWrittenAgrees | frontend/src/context/DataRefreshContext.js:31-35 | as written and as intended agree on every list that names no Object.prototype member |
| DataRefresh.StampOneAsWritten | frontend/src/context/DataRefreshContext.js:32-34 | as written, one name becomes a key when it already is one or is an inherited Object.prototype name other than `__proto__`; every other key keeps its value |
| DataRefresh.StampAsWritten | frontend/src/context/DataRefreshContext.js:31-35 | as written, the loop never drops a key, but may add some (`DataRefresh.StampAsWrittenGrowsKeys`) |
| Sidebar.FilterByRole | frontend/src/components/Sidebar.js:39-41 | the filtered menu holds exactly the entries whose roles include the user's role, and it is a subsequence of the table (table order kept) |
| Sidebar.FilterByRoleCounts | frontend/src/components/Sidebar.js:39-41 | the filter keeps each visible entry exactly as many times as the list holds it, and no copy of any other entry |
| Sidebar.FilteredMenu | frontend/src/components/Sidebar.js:39-41 | the menu shown holds exactly the table entries whose roles include the signed-in user's role; with nobody signed in it holds nothing |
| Users.RoleOf | frontend/src/components/Sidebar.js:40 | `user?.role`: undefined when nobody is signed in, and otherwise the user's role |
| Sidebar.MenuItems | frontend/src/components/Sidebar.js:27-37 | the nine entries in display order, each with its path, caption and roles; constrained by `Sidebar.MenuRolesKnown`, `Sidebar.MenuPathsDistinct` and `Sidebar.DashboardForEveryRoleUsersForAdmin` |
| Sidebar.AdminSeesAll | frontend/src/components/Sidebar.js:27-41 | the Admin role sees all nine entries, in table order |
| Sidebar.DashboardForEveryRoleUsersForAdmin | frontend/src/components/Sidebar.js:28-36 | Dashboard is shown exactly to the seven roles, and Users exactly to Admin |
| Sidebar.MenuRolesKnown | frontend/src/components/Sidebar.js:27-37 | every role the table names is one of the seven roles |
| Sidebar.UnknownRoleSeesNothing | frontend/src/components/Sidebar.js:39-41 | with no user, or with a role no entry names, the menu is empty |
| Sidebar.MenuPathsDistinct | frontend/src/components/Sidebar.js:27-37 | no two table entries share a path |
| Sidebar.IsActive | frontend/src/components/Sidebar.js:63 | an entry is active when the location equals its path exactly; `Sidebar.AtMostOneActive` shows that at most one shown entry is |
| Sidebar.FilterKeepsDistinctPaths | frontend/src/components/Sidebar.js:39-41 | filtering a list with distinct paths keeps the paths distinct |
| Sidebar.AtMostOneActive | frontend/src/components/Sidebar.js:63 | an entry is active when its path equals the location exactly, and at most one shown entry is active |
| Sidebar.LowerChar | frontend/src/components/Sidebar.js:68 | lower-casing maps `A`-`Z` to `a`-`z` and leaves every other character alone |
| Sidebar.ToLower | frontend/src/components/Sidebar.js:68 | `toLowerCase` keeps the length and lower-cases each character |
| Sidebar.ReplaceFirstSpace | frontend/src/components/Sidebar.js:68 | `replace(' ', '-')` turns only the first space into `-` and keeps every other character |
| Sidebar.TestId | frontend/src/components/Sidebar.js:68 | the test id is `nav-` followed by the lower-cased caption with its first space, and only that one, replaced by `-` |
| PurchaseOrders.CreateForm.constructor | frontend/src/pages/PurchaseOrdersPage.js:146-150 | a new form has today's date, the head office and one blank row with quantity `'1'` |
| PurchaseOrders.CreateForm.ResetForm | frontend/src/pages/PurchaseOrdersPage.js:168-172 | a reset puts back today's date, the head office and one blank row |
| PurchaseOrders.CreateForm.AddLineItem | frontend/src/pages/PurchaseOrdersPage.js:206-208 | adding appends exactly one blank row at the end and leaves the existing rows as they were |
| PurchaseOrders.DropIndex | frontend/src/pages/PurchaseOrdersPage.js:211 | filtering out position `index` removes exactly that row and keeps the others in order; an index outside the list removes nothing |
| PurchaseOrders.RemovedItems | frontend/src/pages/PurchaseOrdersPage.js:210-213 | removal never leaves the list empty: removing the only row leaves one blank row; with more rows and a valid index the length drops by one and the other rows keep their order |
| PurchaseOrders.CreateForm.RemoveLineItem | frontend/src/pages/PurchaseOrdersPage.js:210-213 | the form's rows become `RemovedItems` of the old rows, and the list stays non-empty |
| PurchaseOrders.RemoveUndoesAdd | frontend/src/pages/PurchaseOrdersPage.js:206-213 | removing the row just added gives back the list it was added to |
| PurchaseOrders.WithField | frontend/src/pages/PurchaseOrdersPage.js:217 | writing a field sets that field and keeps every other field |
| PurchaseOrders.UpdatedItems | frontend/src/pages/PurchaseOrdersPage.js:215-219 | an update changes only the named field of the named row; the length, the other rows and the other fields are unchanged |
| PurchaseOrders.CreateForm.UpdateLineItem | frontend/src/pages/PurchaseOrdersPage.js:215-219 | the form's rows become `UpdatedItems` of the old rows |
| PurchaseOrders.UpdateUndone | frontend/src/pages/PurchaseOrdersPage.js:215-219 | writing a field's previous text back restores the list |
| PurchaseOrders.CanRemoveIffShrinks | frontend/src/pages/PurchaseOrdersPage.js:320 | the Remove button shows exactly when removing a row shortens the list, that is, when there is more than one row |
| PurchaseOrders.OrNull | frontend/src/pages/PurchaseOrdersPage.js:183-185 | storage, colour and IMEI are sent as `null` exactly when empty, and otherwise as typed |
| PurchaseOrders.QtyOrOne | frontend/src/pages/PurchaseOrdersPage.js:186 | the quantity is never 0: the parse when it is a non-zero number, and 1 when the parse fails or gives 0 |
| PurchaseOrders.RateOrZero | frontend/src/pages/PurchaseOrdersPage.js:187 | the rate is the parsed number, or 0 when the parse fails |
| PurchaseOrders.LineValue | frontend/src/pages/PurchaseOrdersPage.js:188 | `po_value` is the fallback quantity times the rate: 0 when the rate is 0, the rate itself for quantity 1 |
| PurchaseOrders.ToRequestItem | frontend/src/pages/PurchaseOrdersPage.js:177-189 | one request entry: the texts copied, empty optional texts as null, and `po_value` equal to the fallback quantity times the rate |
| PurchaseOrders.RequestItems | frontend/src/pages/PurchaseOrdersPage.js:177-189 | there is one entry per row, in row order, with `sl_no` running 1, 2, 3 and so on |
| PurchaseOrders.RequestItemsPrefix | frontend/src/pages/PurchaseOrdersPage.js:177-189 | the entries for the first n rows do not depend on the later rows |
| PurchaseOrders.BlankRowRequest | frontend/src/pages/PurchaseOrdersPage.js:177-189 | a new form's blank row is posted as entry 1, quantity 1, rate 0, value 0, with null storage, colour and IMEI |
| PurchaseOrders.BlankRowRequestParseInt | frontend/src/pages/PurchaseOrdersPage.js:177-189 | with the modelled `parseInt`, the blank row is posted as entry 1, quantity 1, rate 0, value 0 |
| PurchaseOrders.TotalQtyNaN | frontend/src/pages/PurchaseOrdersPage.js:248 | the footer total is NaN exactly when some row's quantity does not parse (an empty quantity counts as 0) |
| PurchaseOrders.TotalQtyIsRequestQtySum | frontend/src/pages/PurchaseOrdersPage.js:248 | once every quantity is accepted, the footer total is the row-by-row sum of the quantities the request sends, after their fallback to 1 |
| PurchaseOrders.SumQtyOfRequest | frontend/src/pages/PurchaseOrdersPage.js:177-189 | the quantities of the request entries add up to that same row-by-row sum |
| PurchaseOrders.QtyForTotal | frontend/src/pages/PurchaseOrdersPage.js:248 | a row's footer quantity is `parseInt` of its text, with an empty text read as `"0"` |
| PurchaseOrders.TotalQty | frontend/src/pages/PurchaseOrdersPage.js:248 | the `reduce` from 0: an empty list totals 0 and a single row totals its own footer quantity; `PurchaseOrders.TotalQtyNaN` gives when it is NaN |
| PurchaseOrders.TotalQtyMatchesRequest | frontend/src/pages/PurchaseOrdersPage.js:248 | once every quantity reads as a whole number of at least 1, the footer total equals the sum of the quantities the request sends |
| PurchaseOrders.TotalQtyMatchesRequestParseInt | frontend/src/pages/PurchaseOrdersPage.js:248 | the same, with the modelled `parseInt` as the parser |
| PurchaseOrders.ZeroQtyDiverges | frontend/src/pages/PurchaseOrdersPage.js:186-248 | a non-empty quantity text that reads as 0 counts 0 in the footer but is sent as quantity 1 |
| PurchaseOrders.ExponentQtyDiverges | frontend/src/pages/PurchaseOrdersPage.js:186-248 | the text `"0.5e1"` counts 0 in the footer and is sent as quantity 1 |
| PurchaseOrders.ApprovalPayload | frontend/src/pages/PurchaseOrdersPage.js:225-228 | the approval body carries the action; the rejection reason is sent exactly when the action is `reject`, and null otherwise |
| PurchaseOrders.StatusBadge | frontend/src/pages/PurchaseOrdersPage.js:238-246 | Approved, Pending, Rejected and Created get their own style, and every other status gets `status-created` |
| PurchaseOrders.StatusBadgeDistinguishesKnown | frontend/src/pages/PurchaseOrdersPage.js:238-246 | the four known statuses get four different styles |
| PurchaseOrders.CanCreate | frontend/src/pages/PurchaseOrdersPage.js:259 | the Create button shows to Magnova users in the Purchase or Admin role, so only to a signed-in user with one of the seven roles |
| PurchaseOrders.CanReview | frontend/src/pages/PurchaseOrdersPage.js:385 | the Review button shows on Pending orders to the Approver or Admin role, so only to a signed-in user with one of the seven roles |
| PurchaseOrders.CanRemove | frontend/src/pages/PurchaseOrdersPage.js:320 | the Remove button shows when there is more than one row; `PurchaseOrders.CanRemoveIffShrinks` ties this to removal shortening the list |
| PurchaseOrders.CreateReachableFromMenu | frontend/src/pages/PurchaseOrdersPage.js:259 | the Create button shows only to Magnova users in the Purchase or Admin role, and each such user has Purchase Orders in the sidebar |
| PurchaseOrders.ReviewReachableFromMenu | frontend/src/pages/PurchaseOrdersPage.js:385 | the Review button shows only on Pending orders for the Approver or Admin role, and each such user has Purchase Orders in the sidebar |
| JsNumbers.TrimStartDropsSpace | frontend/src/pages/PurchaseOrdersPage.js:186 | `parseInt` drops exactly the leading white space: what is left does not start with white space, and everything dropped is white space |
| JsNumbers.DigitRunLongest | frontend/src/pages/PurchaseOrdersPage.js:186 | `parseInt` reads the longest prefix of digits and stops at the first non-digit |
| JsNumbers.MinusSign | frontend/src/pages/PurchaseOrdersPage.js:186 | a leading minus sign negates the magnitude read after it, and leaves `NaN` as `NaN` |
| JsNumbers.UnsignedNumeral | frontend/src/pages/PurchaseOrdersPage.js:186 | a decimal numeral followed by nothing, or by text that does not start with a digit, `x` or `X`, reads as the numeral's value |
| JsNumbers.NegativeNumeral | frontend/src/pages/PurchaseOrdersPage.js:186 | a minus sign and a decimal numeral, followed by such text, read as the negated value |
| JsNumbers.ParseIntDecimal | frontend/src/pages/PurchaseOrdersPage.js:186 | `parseInt` reads back the decimal text of any integer when the text after it does not start with a digit, `x` or `X` |
| JsNumbers.ParseIntFormTexts | frontend/src/pages/PurchaseOrdersPage.js:186 | the blank row's `'1'` reads as 1 and the empty string reads as NaN |
| JsNumbers.ParseInt | frontend/src/pages/PurchaseOrdersPage.js:186 | `parseInt`: leading white space dropped, then a sign and the longest digit run; the empty text is NaN |
| JsNumbers.ParseIntExponentText | frontend/src/pages/PurchaseOrdersPage.js:186 | `parseInt` stops at the decimal point, so `"0.5e1"` reads as 0 |
| JsNumbers.ParseIntHexText | frontend/src/pages/PurchaseOrdersPage.js:186 | after a lone `0`, an `x` starts a hexadecimal prefix: `"0x1"` reads as 1, which is why the numeral lemmas exclude a following `x` or `X` |

## Findings

| source | as written | input that shows it | evidently intended | confidence | as-written member | corrected member |
|---|---|---|---|---|---|---|
| frontend/src/context/DataRefreshContext.js:32 | `type in updated` is also true for names every object inherits from Object.prototype, and the assignment that follows then creates that key | `triggerRefresh(['toString'])` leaves a map with nine keys, `toString` among them | only names that are already keys of the map are stamped, so the key set never changes | medium, not executed; the six helpers never pass such a name (`DataRefresh.StampAsWrittenAgrees`) | DataRefresh.StampAsWrittenGrowsKeys | DataRefresh.StampFrame |

The rest of the model uses the corrected behaviour: the test is for an own key.

## Left out

- React mechanics: `useState`, `useCallback`, the context object and the provider's rendering. The registry and form state are fields of a class, and a state update is a method call.
- Rendering: all JSX, dialogs, toasts, icons, the user card in the sidebar, the logout button, and the displayed dates.
- Consumers of the registry: the pages that read the timestamps are not modelled. The purchase-order page does not read them: it fetches its list when it mounts and after its own create and approve/reject actions.
- Network calls: `fetchPOs`, the POST in `handleCreate` and in `handleApproval`, and their error handling. The model builds the request bodies and does not send them.
- Clock and locale: every `Date.now()` call is a parameter. The form's `new Date().toISOString()` date is a `today` parameter. `toLocaleDateString` is not modelled.
- `parseFloat` and float arithmetic: the rate parser is a parameter, and rates and values are exact `real`s. The per-row value display, the `toFixed(2)` formatting and the `totalValue` footer sum are not modelled.
- JsNumbers.ParseInt: results are exact integers. JavaScript's loss of precision above 2^53, and the `Infinity` that very long digit strings give, are not modelled.
- Sidebar.ToLower: only ASCII `A`-`Z` are lower-cased, while JavaScript's `toLowerCase` maps all of Unicode. Every caption in the table is ASCII.
- PurchaseOrders.StatusBadge: a status that names an Object.prototype member would pick up the inherited property. That case is not modelled, because the statuses come from the server.
- PurchaseOrders.CreateForm.UpdateLineItem: the source's shallow copy shares the row object with the previous state and writes the field into it in place. The model updates a value copy, so the aliasing of the old state is not captured.
- PurchaseOrders.CreateForm.UpdateLineItem: requires a valid row index. The source would throw a TypeError on any other index, and its only caller passes the index of a rendered row.
- PurchaseOrders.TotalQtyMatchesRequest: holds only when every quantity text reads, under `parseInt`, as a whole number of at least 1. This is an assumption of the lemma, not something the form guarantees. The number input's `required` and `min="1"` check the numeric value, so they let through texts such as `"0.5e1"` (value 5), which `parseInt` reads as 0. For such a row the footer counts 0 while the request sends quantity 1 (`PurchaseOrders.ExponentQtyDiverges`). The browser's form validation itself is not modelled.
- The purchase-order create request's header fields. `purchase_office` is sent as typed and `notes` as `null`. `po_date` is sent as `new Date(poDate).toISOString()`, a date-to-text conversion this model leaves out together with the other clock and locale calls.
- The backend (IMEI scan state machine, shipment quantity limits, payment reconciliation) is not modelled; its HTTP integration tests cannot be checked against an implementation.
- `frontend/src/components/Header.js`, `frontend/src/components/Layout.js` and `frontend/src/pages/UsersPage.js`: pure markup with no decisions.
