# Inventory ledger of a single-page stock tracker, in Dafny

The application records products, input (purchase) invoices and sales
through two channels, "151" and "168". It keeps them in one state object
with four collections: `products`, `inputInvoices`, `sales151` and
`sales168`. Stock is never stored. It is derived on demand: for each product,
the quantities received minus the quantities sold through both channels. Each
invoice contributes the quantity of its *first* line for the product. Before a
sale is recorded or edited, every line is checked against the stock available
for it. Before a product is deleted, every invoice line is scanned for a
reference to it.

The model is split into five modules:

- `Text` (`text.dfy`) models JavaScript's `String.prototype.trim`, which both forms apply to their input.
- `Dates` (`dates.dfy`) models the date-token check `validatePersianDate`. It proves that the check accepts exactly the `YYYY/MM/DD` renderings of in-range dates.
- `Ledger` (`ledger.dfy`) holds the records, the `find`/`reduce`/`filter`/`some` computations as functions, the inventory table, and the stock lemmas.
- `Forms` (`forms.dfy`) models the checks `saveInvoice` runs on the form: date present, date valid, at least one usable row.
- `Store` (`store.dfy`) models the state object as a class with four `seq` fields, plus one for settings. The handlers that change the state are methods:
  - the product form
  - `deleteProduct`
  - `saveInvoice`
  - the three invoice deletes
  - the merges of `loadData` and `restoreData`

  `validateInventory` is a read-only method whose loop is proved against the `Sufficient` rule.

Stock is specified by a reference sum, `Ledger.Total`. The source's left
folds, `Ledger.SumQty`, are proved equal to it, with and without an
exclusion id. The lemmas then say what each operation does to stock. The main
results are:

- Excluding an invoice in the availability check is the same as computing stock with that invoice deleted.
- An accepted sale never drives a product it names below zero.

Some behaviours of the code are easy to expect otherwise; the model follows the code:

- The inventory table lists products in stored order, not sorted by name.
- `validateInventory` returns only a boolean. The product, available and requested figures appear only in a notification.
- `saveInvoice` itself runs the availability check for sales, on add and on edit.
- A missing product or invoice on rename, delete or edit is ignored silently. No "not found" error is raised.
- "Editing a sale to the same quantities succeeds" holds only under conditions (`Ledger.ResavingSaleAccepted`). Without them it fails. It fails when a product in the sale is already below zero. It also fails when the sale names a product on two lines and the second line's quantity exceeds the stock plus the first line's.
- The same duplicate-line case lets a sale pass the check while the ledger counts only its first line (`Ledger.DuplicateLinesCountedOnce`).

## Model

| member | source | states |
|---|---|---|
| `Text.Trim` | script.js:600 | `trim()` on the product name: the result is empty exactly when the input is all white space, and otherwise neither starts nor ends with white space. |
| `Text.TrimIsSlice` | script.js:685 | `trim()` on the date keeps one contiguous run of the input, right after the leading white space, and everything outside that run is white space. |
| `Dates.ValidateIsRenderOfRange` | script.js:836-850 | `validatePersianDate` accepts a string exactly when it is the `YYYY/MM/DD` zero-padded rendering of a year in 1300..1500, a month in 1..12 and a day in 1..31. |
| `Dates.RenderAccepted` | script.js:836-850 | Every in-range year, month and day renders to a token the validator accepts (no month-length or leap-year check). |
| `Dates.ValuePad` | script.js:841-844 | `parseInt` of a zero-padded number gives the number back when it fits in the width. |
| `Dates.PadValue` | script.js:837-844 | Zero-padding the `parseInt` value of a digit run to its length gives the run back, so the pattern and the parsed numbers determine the string. |
| `Dates.TypicalDateAccepted` | script.js:836-850 | `1404/08/16` is accepted. |
| `Dates.ThirtyFirstAcceptedInAnyMonth` | script.js:846-847 | `1404/02/31` is accepted: day 31 passes in every month. |
| `Dates.MonthThirteenRejected` | script.js:845 | `1404/13/01` is rejected on the month. |
| `Dates.GregorianYearRejected` | script.js:505-506 | Every token of a year 2000-2999 fails the validator on the year; the add form's default (`2024/10/27`, or `2024/10/26` depending on the time zone) is one, so saving with the default is refused. |
| `Dates.Pad` | script.js:837 | A padded number has exactly the requested width and only digits. |
| `Dates.Render` | script.js:837 | A rendered date matches the pattern `^\d{4}\/\d{2}\/\d{2}$`. |
| `Ledger.FindLine` | script.js:403 | `items.find` by product id: the index of the first line for the product, none exactly when no line names it. |
| `Ledger.FindProduct` | script.js:790 | `products.find` by id: the first product with the id, none exactly when no product has it. |
| `Ledger.FindInvoice` | script.js:742 | `findIndex` by invoice id: the first invoice with the id, none (-1) exactly when no invoice has it. |
| `Ledger.Without` | script.js:243 | The invoice filter `id !== id`: keeps every invoice with another id and nothing with this one; identity when the id is absent, shorter when present. |
| `Ledger.WithoutSplit` | script.js:243 | The invoice filter keeps order and multiplicity: around any one invoice, the result is the filtered front, that invoice exactly when its id differs, then the filtered back. |
| `Ledger.WithoutAppend` | script.js:243 | The invoice filter distributes over concatenation. |
| `Ledger.WithoutProductSplit` | script.js:172 | The product filter keeps stored order and multiplicity in the same way. |
| `Ledger.WithoutProductAppend` | script.js:172 | The product filter distributes over concatenation. |
| `Ledger.WithoutProduct` | script.js:172 | The product filter: keeps every product with another id and none with this one; shorter when the id is present. |
| `Ledger.SumQtyIsTotal` | script.js:402-416 | The `reduce` fold equals the reference sum of first-line quantities; with a truthy exclusion id it equals the reference sum over the collection with that invoice filtered out. |
| `Ledger.AvailableIsStockExcluding` | script.js:794-812 | The available stock `validateInventory` computes for a product is the stock of the books with invoice `ex` removed from all three collections, and the current stock when `ex` is falsy. |
| `Ledger.TotalAppend` | script.js:402-406 | The sum over a concatenation is the sum of the two sums. |
| `Ledger.TotalUpdate` | script.js:749 | Replacing invoice `k` replaces its first-line quantity in the sum by the new invoice's. |
| `Ledger.TotalWithoutOnly` | script.js:795 | Filtering out the only invoice with an id removes exactly its first-line quantity from the sum. |
| `Ledger.StockAfterAppend` | script.js:730-736 | Appending an invoice raises stock by its first-line quantity for an input and lowers it by that amount for a sale. |
| `Ledger.StockAfterReplace` | script.js:749-766 | Replacing an invoice moves stock by the difference of the old and new first-line quantities, with the sign of the collection. |
| `Ledger.TotalWithout` | script.js:243 | Filtering out an id, however many invoices carry it, lowers the sum by exactly what those invoices held. |
| `Ledger.HeldQtyOnly` | script.js:243 | When one invoice alone carries the id, what the id holds is that invoice's first-line quantity. |
| `Ledger.StockAfterDelete` | script.js:238-249 | Deleting every invoice with an id takes what they held back out of stock: down for an input, up for a sale. |
| `Ledger.ExcludingOnlyInvoice` | script.js:795-807 | When the excluded id belongs to one invoice alone, excluding a sale makes available stock = current stock + that sale's first-line quantity. Excluding an input makes it current stock − that invoice's first-line quantity. |
| `Ledger.NotHeldElsewhere` | script.js:795-807 | An id held by one invoice alone is filtered from no other collection. |
| `Ledger.StockExcluding` | script.js:812 | Available stock with a truthy exclusion is input minus both sales sums, each over its filtered collection. |
| `Ledger.AcceptedSaleKeepsStock` | script.js:720-736 | A sale added after passing the check lowers the stock of each existing product it names by that product's first-line quantity and leaves it non-negative. |
| `Ledger.AcceptedEditKeepsStock` | script.js:740-761 | A sale edited after passing the check (own id excluded, id unique) leaves each existing product it names with non-negative stock. |
| `Ledger.ResavingSaleAccepted` | script.js:740-761 | Saving a sale again with its own lines passes the check when its id is unique, its lines name distinct products and none of those products is below zero. |
| `Ledger.DuplicateLinesCountedOnce` | script.js:788-821 | A sale of two lines of 5 against a stock of 6 passes the line-by-line check, and the ledger then shows stock 1, since only the first line counts. |
| `Ledger.SecondChannelSaleRejected` | script.js:788-821 | With 10 received, a channel-151 sale of 7 passes and leaves 3; a channel-168 sale of 4 is then refused. |
| `Ledger.Row` | script.js:400-427 | A table row: the name, total input = reference input sum, total sales = sum over both channels, final stock = their difference = `Stock`. |
| `Ledger.Inventory` | script.js:400-427 | `renderInventory`'s computation: exactly one row per product, in stored product order, each carrying that product's name, sums and stock. It is a function of the books and changes nothing. |
| `Ledger.StockBand` | script.js:431 | The colour band: critical exactly when stock ≤ 0, low exactly when 0 < stock ≤ 10, healthy exactly when stock > 10. |
| `Ledger.Used` | script.js:155-161 | The nested `some` over one collection is true exactly when some line of some invoice names the product. |
| `Ledger.IsProductUsed` | script.js:155-161 | The usage guard is true exactly when some line in one of the three collections names the product. |
| `Ledger.LinesStayResolved` | script.js:613-627 | Changing the product list while keeping every existing id leaves every invoice line pointing at an existing product. |
| `Ledger.UnusedRemovalKeepsLinesResolved` | script.js:153-173 | Removing a product the guard lets through leaves no line pointing at a missing product. |
| `Ledger.Books.With` | script.js:730-766 | Assigning one collection changes that collection and nothing else. |
| `Ledger.Books.Excluding` | script.js:795-807 | A falsy exclusion id leaves the books alone; a truthy one filters that id out of all three collections and keeps the products. |
| `Forms.KeptLines` | script.js:700-707 | Exactly the rows with a selected product and a positive quantity are kept. |
| `Forms.KeptLinesSplit` | script.js:700-707 | The row filter keeps form order and multiplicity: around any one row, the result is the filtered front, that row exactly when it is kept, then the filtered back. |
| `Forms.KeptLinesAppend` | script.js:700-707 | The row filter distributes over concatenation. |
| `Forms.CheckForm` | script.js:684-712 | In `saveInvoice`'s order: empty trimmed date, then a date failing `validatePersianDate`, then no usable row. Each is refused. Otherwise the trimmed date and the kept rows are accepted. |
| `Store.InventoryStore.ValidateInventory` | script.js:788-821 | Returns true exactly when every line whose product exists asks for no more than the stock available with invoice `ex` excluded, each line checked on its own. Lines naming unknown products never cause a refusal. |
| `Store.InventoryStore.AddProduct` | script.js:599-617 | Refuses an empty trimmed name and an exact duplicate name without change. Otherwise it appends exactly one product with the trimmed name. It keeps names distinct, ids distinct (for a fresh id) and every line resolved. |
| `Store.InventoryStore.RenameProduct` | script.js:599-628 | Refuses an empty trimmed name, ignores a missing id, and refuses a name held by a product with another id. Otherwise only that product's name changes. Ids, distinct names and resolved lines are kept. |
| `Store.RenameKeepsInvariants` | script.js:623-627 | Renaming to a name no other-id product holds keeps every id present and keeps ids and names distinct. |
| `Store.InventoryStore.DeleteProduct` | script.js:153-177 | Refused without change when any line references the id, and ignored when no product has it. Otherwise it removes exactly the products with that id. Invoices are untouched. |
| `Store.InventoryStore.DeleteInvoice` | script.js:238-249 | Removes every invoice with the id from the chosen collection (one of the three delete handlers) and nothing else; reports whether one was there. |
| `Store.InventoryStore.SaveInvoice` | script.js:684-785 | Refusals by the form checks, by a failed stock check (sales only), or because the edited id is missing change no collection. Input invoices are never stock-checked. Add appends exactly one invoice. Edit replaces the found index, keeping the length. Accepted sales leave the stock of the products they name non-negative. |
| `Store.InventoryStore.SetCollection` | script.js:730-736 | Assigning one collection changes it and nothing else. |
| `Store.InventoryStore.Load` | script.js:18 | `{ ...appState, ...data }`: each key the document has replaces the state's, each missing key keeps its value. |
| `Store.InventoryStore.Restore` | script.js:986-990 | A document missing any of the four collections is refused and the state is unchanged. Otherwise the four collections are replaced and settings only if present. Restoring the state's own backup changes nothing. |
| `Store.InventoryStore.constructor` | script.js:2-10 | The initial state: four empty collections and the default backup file name. |
| `Store.AppendKeepsInvariants` | script.js:608-615 | Appending a product whose name no product holds keeps every existing id present, keeps names distinct, and keeps ids distinct when its id is new. |
| `Store.LineFound` | script.js:403 | A line of a list is found by `find` under its own product id. |

## Left out

- DOM rendering, modals, tabs, the mobile menu, notifications and the injected CSS are presentation only. The message texts are reduced to the outcome values the methods return.
- `localStorage` reads and writes, `JSON.stringify`/`JSON.parse`, `Blob`, `FileReader` and downloads are I/O. `Load` and `Restore` take an already parsed document. A key that is present but `null` is not represented, so `None` means absent or falsy.
- The gist synchronisation (`GitHubGistManager`, including its merge at script.js:1241) makes HTTP calls to an external service. The service worker `sw.js` does cache and network I/O only.
- `generateId` is time- and random-based. The fresh id is a parameter. Where uniqueness matters, it appears as a hypothesis (`AddProduct`'s distinct-ids clause, `SaveInvoice`'s edit stock clause) instead of an assumption.
- The `localeCompare(..., 'fa')` sorting of display lists and invoice tables is locale collation. The inventory table itself is not sorted.
- `formatDateToPersian` depends on JavaScript `Date` and the local time zone: `new Date('2024-10-27')` is UTC midnight, so the form shows `2024/10/27` or `2024/10/26`. It is not modelled; `Dates.GregorianYearRejected` covers every token of that year.
- Confirmation dialogs defer deletes through a `window[...]` callback. The deletes are modelled as taking effect at once.
- The sample products seeded into an empty store at start-up (script.js:1405-1413) are initialisation glue.
- Quantities and sums are JavaScript numbers (IEEE doubles), exact only up to 2^53; the model uses unbounded integers, so it does not capture rounding of larger quantities or sums, nor a typed quantity beyond 2^53 that `parseInt` does not read back exactly.
- `parseInt` of the quantity field: rows arrive as parsed integers. A `NaN` quantity is any non-positive value, since both are dropped by the `quantity > 0` filter. Non-integer or non-numeric quantities in restored documents are not represented.
- `ValidateInventory` returns only the boolean the source returns. The product name, available and requested figures it shows in its notification are not returned.
