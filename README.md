# Inventory console: client-side state logic

A model of the client-side state logic of a React inventory console for a
fabric trading business. The model covers four components:

- **SaleProduct** (`sale_product.dfy`): the sale dialog. It holds an ordered
  list of sale lines. Each line has a product, a colour, a category and a
  list of quantity slots. The operator edits the lines, looks at a review,
  and commits. The commit reduces each line to `saleYards` (the sum of its
  filled slots) and `salePieces` (the number of filled slots). It then
  issues one stock adjustment per line, in line order, and stops at the
  first rejected request.
- **MasterProductList** (`master_product_list.dfy`): the master summary. It
  collapses inventory rows into one summary per product name and sums their
  yards and pieces; a value that is not a number counts as 0. It also holds
  the "Add Item" dialog.
- **InventoryList** (`inventory_list.dfy`): the inventory table. It covers
  the product dropdown's unique names, the filter the dropdown applies,
  deleting a row, and the edit dialog.
- **AddInventory** (`add_inventory.dfy`): the add-inventory form. It covers
  the required-field guard, the numeric payload, and the reset to defaults.

`common.dfy` holds what these components share: the outcome of a backend
call, numeric form fields, the backend's records, and the list helpers
(left-to-right sum, filter, de-duplication).

Every backend call is modelled by its outcome, which the model takes as an
input. A fetch is `Fetch<T>`: `Ok(data)` or `Failed`. For a request whose
answer is only success or failure, the model takes a `bool`. The requests a
handler sends, and the alerts it raises, are the handler's out-parameters.
The state a component keeps in `useState` becomes the fields of a class.
Each handler becomes a method whose `ensures` give the whole new state. The
list reductions are functions, with lemmas that tie them to an independent
reference or to the edit operations.

Quantities are `real`. A `type="number"` input is `NumberInput`: `Blank`
(the empty string) or `Entered(v)`. A JSON amount read through
`Number(x) || 0` is `Amount`: `Numeric(v)`, or `NonNumeric` for anything
that becomes NaN.

## Model

| member | source | states |
|---|---|---|
| Common.FilterMembers | src/components/InventoryList.js:187 | `Array.prototype.filter`: the result is no longer than the input, and it holds exactly the input's elements that pass the test |
| Common.FilterConcat | src/components/InventoryList.js:257 | filtering splits over concatenation, so kept elements stay in their original order |
| Common.FilterKeepsAll | src/components/InventoryList.js:257 | a filter that rejects no element returns its input unchanged |
| Common.Dedup | src/components/InventoryList.js:41-42 | `[...new Set(s)]`: no value occurs twice, and the values are exactly those of `s` |
| Common.DedupOrder | src/components/InventoryList.js:41-42 | `[...new Set(s)]` lists the values in the order of their first occurrence in `s` |
| Common.SumConcat | src/components/SaleProduct.js:121 | the left-to-right `reduce` sum of two concatenated lists is the sum of their sums |
| SaleProduct.SaleQuantities | src/components/SaleProduct.js:120 | `filter(q => q !== "").map(Number)` yields at most one value per slot |
| SaleProduct.SaleQuantitiesConcat | src/components/SaleProduct.js:120 | the filled values of concatenated slot lists are the concatenation of their filled values |
| SaleProduct.PiecesAreFilledSlots | src/components/SaleProduct.js:120-122 | `salePieces` equals the number of slots minus the number of empty slots |
| SaleProduct.YardsAreSlotTotal | src/components/SaleProduct.js:120-121 | `saleYards` equals the total over all slots with each empty slot counting 0 |
| SaleProduct.SaleRequestFor | src/components/SaleProduct.js:119-130 | the adjustment for a line carries its product, colour and category, the total of its slots (empty slots count 0) as yards, and the count of its filled slots as pieces |
| SaleProduct.SetSlotEffect | src/components/SaleProduct.js:78-82 | setting one slot changes the line's yards by the new value minus the old one, and its pieces by the change in filled status of that slot only |
| SaleProduct.RemoveSlotEffect | src/components/SaleProduct.js:90-94 | removing slot `q` takes exactly that slot's value out of the yards, and one piece out if the slot was filled |
| SaleProduct.AddSlotKeepsTotals | src/components/SaleProduct.js:84-88 | for any line, the appended empty slot changes neither its yards nor its pieces |
| SaleProduct.SaleRequestsConcat | src/components/SaleProduct.js:118-131 | the loop issues its requests line by line: the requests for two blocks of lines, concatenated, are the requests for the whole list |
| SaleProduct.DispatchSales | src/components/SaleProduct.js:117-142 | the requests sent are a prefix of the per-line requests in line order. Every request before the last one sent was accepted. The result is success exactly when every line's request was accepted, and then every line was sent. Otherwise the last request sent is the first rejected one |
| SaleProduct.FindProductById | src/components/SaleProduct.js:24 | `find` by id gives nothing exactly when no summary has the id, and otherwise the first summary with that id |
| SaleProduct.Review | src/components/SaleProduct.js:164-199 | a review card shows the line's colour and category and its filled slot values, with the same total and the same piece count that the commit sends for the line. Its product name comes from the id lookup, or is empty when no summary matches |
| SaleProduct.TwoPieceLine | src/components/SaleProduct.js:120-122 | slots 10 and 15 give `saleYards` 25 and `salePieces` 2 |
| SaleProduct.SaleEditor.constructor | src/components/SaleProduct.js:10-21 | the editor starts with one blank line (empty product, colour and category, one empty slot), empty caches, not in review, not succeeded |
| SaleProduct.SaleEditor.HandleProductIdChange | src/components/SaleProduct.js:27-52 | the line takes the product id and loses its colour and category; the colour cache stores the fetched list under the id, or `[]` on failure; that product's category cache is reset to `{}`; other lines are unchanged |
| SaleProduct.SaleEditor.HandleColorChange | src/components/SaleProduct.js:53-75 | the line takes the colour and loses its category. The category cache for the line's product gets the fetched list under that colour, or `[]` on failure, and keeps the product's other colours |
| SaleProduct.SaleEditor.HandleCategoryChange | src/components/SaleProduct.js:27-29 | only the line's category changes |
| SaleProduct.SaleEditor.HandleQuantityChange | src/components/SaleProduct.js:78-82 | only slot `q` of line `p` changes; all lengths and all other slots and lines are unchanged |
| SaleProduct.SaleEditor.HandleAddQuantity | src/components/SaleProduct.js:84-88 | one empty slot is appended to the target line; nothing else changes |
| SaleProduct.SaleEditor.HandleRemoveQuantity | src/components/SaleProduct.js:90-94 | exactly slot `q` is removed, the rest keep their order, and the list is one shorter |
| SaleProduct.SaleEditor.HandleAddProduct | src/components/SaleProduct.js:96-101 | one blank line is appended |
| SaleProduct.SaleEditor.HandleRemoveProduct | src/components/SaleProduct.js:103-107 | exactly line `idx` is removed and the others keep their order; with more than one line (the only case the form offers), at least one line remains |
| SaleProduct.SaleEditor.HandleSubmit | src/components/SaleProduct.js:110-113 | enters review mode without changing the lines |
| SaleProduct.SaleEditor.HandleBack | src/components/SaleProduct.js:146 | leaves review mode without changing the lines |
| SaleProduct.SaleEditor.ReviewEntries | src/components/SaleProduct.js:164-202 | one review card per line, each showing the line's sale yards and pieces |
| SaleProduct.SaleEditor.HandleFinalSubmit | src/components/SaleProduct.js:116-143 | adjustments go out in line order and stop at the first rejection. `success` and the refresh happen only when every line was accepted. A rejection raises the failure alert and leaves `success` unchanged. The lines are never changed |
| MasterProductList.NamesAreRowNames | src/components/MasterProductList.js:28 | a name is among the row names exactly when some row has it |
| MasterProductList.FirstIdIsFirst | src/components/MasterProductList.js:29-35 | the recorded id is the product id of the first row with the name; there is none exactly when no row has the name |
| MasterProductList.AmountForAbsent | src/components/MasterProductList.js:37-38 | a name no row has totals 0 |
| MasterProductList.Collect | src/components/MasterProductList.js:41 | `Object.values` yields one value per listed key, the value stored under it |
| MasterProductList.CollectSum | src/components/MasterProductList.js:41 | the totals over the emitted values equal the totals over the dictionary's entries |
| MasterProductList.SumOverUnaffected | src/components/MasterProductList.js:29-36 | creating an entry under a new name does not change the sum over the existing entries |
| MasterProductList.SumOverUpdate | src/components/MasterProductList.js:37-38 | `+=` on one entry moves the sum over all entries by exactly the amount added |
| MasterProductList.EntriesStep | src/components/MasterProductList.js:27-39 | after one more row, every entry still has its name, its first id and its name's totals |
| MasterProductList.SumsStep | src/components/MasterProductList.js:27-39 | after one more row, the sum over all entries still equals the sum over all rows seen |
| MasterProductList.AddRow | src/components/MasterProductList.js:28-38 | the new dictionary is the old one with this row's name mapped to its entry (created on first sight with the row's product id and zero totals) plus the row's amounts; the key order grows, by that name, only on a new name |
| MasterProductList.GroupStep | src/components/MasterProductList.js:27-39 | one pass of the `forEach` body keeps the grouping invariant |
| MasterProductList.GroupDone | src/components/MasterProductList.js:41 | after the last row, the dictionary's values form a grouping of all rows |
| MasterProductList.GroupInventory | src/components/MasterProductList.js:26-41 | each distinct product name has exactly one summary, and every summary's name occurs in the rows. Each summary's id is that of the first row with its name. Its yards and pieces are the sums of `Number(x) \|\| 0` over its rows. Total yards and total pieces over all summaries equal those over all rows. No order is promised |
| MasterProductList.MasterProductPage.constructor | src/components/MasterProductList.js:12-18 | the page starts with no summaries, an empty name, the dialog closed and no message |
| MasterProductList.MasterProductPage.FetchAndGroup | src/components/MasterProductList.js:20-45 | a successful fetch replaces `masterData` with a grouping of the rows; a failed fetch leaves it unchanged |
| MasterProductList.MasterProductPage.HandleAddProductSubmit | src/components/MasterProductList.js:52-72 | an empty name only raises an alert: nothing is sent and no state changes. Otherwise the name is sent. On success the name is cleared, the dialog closes and the success message is set. On failure an alert is raised and the dialog closes |
| InventoryList.ProductNames | src/components/InventoryList.js:41 | one name per row, and a name occurs exactly when some row has that product name |
| InventoryList.UniqueProducts | src/components/InventoryList.js:41-42 | the dropdown's options have no duplicates and are exactly the product names of the fetched rows |
| InventoryList.Displayed | src/components/InventoryList.js:256-257 | with no product selected every row is shown; otherwise exactly the rows with the selected product name are shown |
| InventoryList.DisplayedKeepsOrder | src/components/InventoryList.js:256-257 | the shown rows keep the order of the rows |
| InventoryList.WithoutIdMembers | src/components/InventoryList.js:187 | the rows with the deleted id are removed and all other rows are kept |
| InventoryList.WithoutIdKeepsOrder | src/components/InventoryList.js:187 | the kept rows stay in their order |
| InventoryList.Merge | src/components/InventoryList.js:132-137 | the merged row is the selected row with `operationType`, `yards` and `pieces` overridden and every other field unchanged |
| InventoryList.InventoryPage.constructor | src/components/InventoryList.js:13-28 | the page starts with no rows, no selection, nothing pending and all dialogs closed |
| InventoryList.InventoryPage.Shown | src/components/InventoryList.js:256-257 | the table shows every row when no product is selected, otherwise exactly the selected product's rows |
| InventoryList.InventoryPage.FetchInventory | src/components/InventoryList.js:35-48 | a successful fetch replaces the rows and the unique names; a failed one changes nothing |
| InventoryList.InventoryPage.HandleEditClick | src/components/InventoryList.js:94-101 | the row is selected; operation type, yards and pieces are copied from it, `""` where missing; the edit dialog opens; nothing else changes |
| InventoryList.InventoryPage.HandleAddProductSubmit | src/components/InventoryList.js:103-122 | an empty name only raises an alert and sends nothing. Otherwise the name is sent, then cleared, and the dialog closes |
| InventoryList.InventoryPage.HandleOperationSubmit | src/components/InventoryList.js:124-169 | with no selected row nothing happens. Otherwise the merged row and the update request are built from the selection and the edit fields, the message is set, and the rows whose id is the pending delete selection `selectedDeleteId` (not the edited row) are dropped, as the handler is written; the merged row itself is not written back. The selection is then cleared, the dialog closes and a refetch is issued |
| InventoryList.InventoryPage.ConfirmDelete | src/components/InventoryList.js:173-176 | remembers the id and opens the confirmation |
| InventoryList.InventoryPage.HandleDelete | src/components/InventoryList.js:179-196 | the delete request always goes out and names the remembered id (`null` when none). On success exactly the rows with that id are removed. On either outcome `deletingId` ends as `null` and the matching message is set |
| AddInventory.Prepare | src/components/AddInventory.js:33-46 | nothing is sent exactly when some required field is empty. Otherwise the post carries name, colour, category and unit as entered, and yards and pieces as the numbers entered |
| AddInventory.ClearedIsIncomplete | src/components/AddInventory.js:48-53 | the reset form has the unit `"Meter"` and cannot be submitted again as it is |
| AddInventory.AddInventoryForm.constructor | src/components/AddInventory.js:5-12 | the form starts with the given product name, empty fields, no master products and the unit `"Meter"` |
| AddInventory.AddInventoryForm.FetchMasterProducts | src/components/AddInventory.js:14-23 | the list is the fetched one, or `[]` on failure or for a null body; the fields are unchanged |
| AddInventory.AddInventoryForm.InitialProductNameChanged | src/components/AddInventory.js:26-28 | a new non-empty `initialProductName` replaces the product name and changes nothing else; an empty one changes nothing |
| AddInventory.AddInventoryForm.HandleSubmit | src/components/AddInventory.js:30-59 | an incomplete form only raises an alert: nothing is sent and no field changes. An accepted post resets every field to `""`, resets the unit to `"Meter"` and calls `onItemAdded` once. A rejected post raises an alert, keeps the fields and does not call `onItemAdded` |

## Left out

- HTTP: URLs, headers and response shapes. Each call is modelled by its outcome, `Fetch<T>` or `accepted: bool`, and its request body is returned as a value.
- Asynchrony. Each handler runs atomically. The model does not capture the `await` between copying `products` and `setProducts` in `handleProductChange`, or the stale-response race it allows (src/components/SaleProduct.js:36-37, 75).
- Timers. The model leaves out the 500 ms delay before a delete, the 1.5 s success screen followed by `onClose`, and the 3 s message clearing. So `deletingId` is never seen holding the id while a delete is in flight.
- React rendering, JSX, modals, styling, and the state setters bound inline in JSX: the dropdown selection, typing into form fields, and the `onItemAdded` and `onClose` callbacks.
- Browser validation of `required` inputs. The sale form's selects and quantity fields are marked `required`, so the browser blocks the submit while one is empty. That check is not in the component's code and is not modelled. `HandleSubmit` models the handler alone.
- Shared record objects. `handleProductChange` and the quantity handlers copy the array shallowly and mutate the line records in place. The model replaces the line value instead; the resulting state is the same.
- `getCategories` (src/components/SaleProduct.js:25): it is never called.
- `onSaleSuccess`: assumed present and non-failing. The page passes the `fetchAndGroup` handler, which catches its own errors.
- Excel export in `downloadExcel` (src/components/InventoryList.js:54-92): it wraps a library that is not part of this model.
- IEEE floats: `Number` and `parseFloat` become exact `real` values, and a NaN amount is `NonNumeric`.
- JavaScript object-key order in `Object.values`. The model lists groups in first-seen order, but no contract states an order, because integer-like keys are enumerated first.
- Inherited property names. `MasterProductList.GroupInventory` uses a true dictionary. In the source, a product named like an `Object.prototype` member (for example `constructor`) would make `grouped[name]` truthy before first use.
- A row without a `product` object. In `fetchAndGroup` it would throw and leave `masterData` unchanged; every modelled row has a product.
- Inventory row fields that are only displayed (loaded, procured, sold and on-hold quantities) are not part of `InventoryItem`.
- `InventoryList.InventoryPage.HandleAddProductSubmit` and `InventoryList.InventoryPage.HandleOperationSubmit` take no outcome. The source does not await these requests, so a failed request never reaches their `catch` blocks.
- `InvoiceList`, `EditInventory`, `DeleteInventory` and `App`: these are presentational only.
- Invoices, unit prices and customers. None of these appear in the components' code.
