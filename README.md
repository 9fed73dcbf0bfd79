# Bookstore point of sale: a Dafny model

This project models the core of a small bookstore point-of-sale and inventory
system: an Express/MySQL back end (`book-store-api`), a React dashboard
(`book-store-app`) and a Python service that shapes association-rule bundle
recommendations (`apriori-service`).

What is modelled, file by file:

- **The store and its route handlers** (`database.dfy`, `transaction_routes.dfy`,
  `book_routes.dfy`, `bundle_routes.dfy`, `import_confirm.dfy`, `auth_routes.dfy`).
  The MySQL database is a `Database.State` value:
  - books with `stock_qty`;
  - bundles with their stock, `is_active` flag and `bundle_items`;
  - transactions and their item rows;
  - the append-only `stock_history` ledger;
  - customers and users;
  - the auto-increment counters.

  `Database.Db` is a class holding that state in fields. Each handler is a method
  that `modifies` the `Db`. Its contract ties the new state to a pure effect
  function of the old state. A DB transaction is a snapshot that the handler
  either keeps or restores, so a refused or failed request leaves the state as it
  was. Lemmas about the effect functions state the handlers' promises:
  - sale totals and stock decrements;
  - ledger entries;
  - the cascade of a forced book delete;
  - bundle item replacement and soft delete;
  - the checks of a bundle sale;
  - import replacement stock arithmetic;
  - the user-table rules.
- **Spreadsheet import helpers** (`import_helpers.dfy`, `similarity.dfy`,
  `import_preview.dfy`):
  - the Indonesian number parser;
  - the payment-method classifier;
  - the date decoder;
  - string similarity, where the one-row Levenshtein loop over an `array` is proved
    equal to the recursive edit distance;
  - threshold best-match selection;
  - the preview's grouping of rows into orders.
- **Session and page logic of the dashboard** (`auth_context.dfy`,
  `transaction_page.dfy`, `bundle_page.dfy`, `inventory_page.dfy`,
  `report_page.dfy`, `report_csv.dfy`, `today_sales_page.dfy`,
  `stock_update_modal.dfy`, `user_management_page.dfy`, `category_combobox.dfy`):
  - the page-access rule and the login/logout state of the session;
  - the sale draft cart (a class) and the bundle form handlers;
  - the list filters;
  - month bucketing, insight rules and CSV export of the report, with a reader
    proved to invert the CSV writer;
  - today's sales aggregation;
  - the stock modal's validation.
- **Apriori shaping** (`apriori_engine.dfy`):
  - grouping sale rows by transaction;
  - keeping multi-item baskets;
  - sorting rules by lift and keeping the top ten;
  - the recommendation summary.

  The mining itself is a parameter.
- Shared helpers: `wrappers.dfy` (`Option`, `Result`, API errors), `text.dfy`
  (the JavaScript string operations used: trimming, ASCII lower-casing,
  `includes`, `split`/`join`, `parseInt`/`parseFloat`/`Number`, integer
  rendering) and `lists.dfy` (`filter` and its laws).

Where the code and the system's design description disagree, the model follows
the code, except for the bundle sale's stock check, which is corrected (see
Findings below):
- **Sales carry no bundle lines.** `POST /transactions` records book lines only;
  a bundle is sold through `POST /bundles/:id/sell`.
- **Sales and imports do not check stock.** The model lets both drive stock
  negative (`TransactionRoutes.SaleStockAndLedger`,
  `ImportConfirm.ImportDrivesStockNegative`). Stock-out and bundle sale refuse
  insufficient stock.
- **Import confirm is atomic per batch, not per order.** One DB transaction covers
  the whole batch. An order that fails is recorded in `errors`, the loop goes on,
  and the writes that order made before it failed stay.
- **The last active owner is protected only on delete.** Through an update, the
  last active owner may still change their own role to admin, which leaves no
  active owner (`AuthRoutes.UpdateCanRemoveLastOwner`).
- **Bundle sale writes columns that do not exist.** The route reads and writes a
  `books.stock` column, and its `stock_history` insert names different columns
  from the ones the other routes use. The model gives the evidently intended
  semantics: `stock_qty` decreases, and the ledger records `-(quantity × n)` with
  the bundle's name as reason.

## Model

Specification functions (for example `AprioriEngine.ByBook`, `AprioriEngine.ByCategory`, `AprioriEngine.TopRules`, `AprioriEngine.InsightText`, `TransactionPage.Added` and `ReportPage.InsightsOf`) have no row of their own. Each is mapped to its source lines through the lemmas and methods whose contracts use it, and those members' rows cite the lines.

| member | source | states |
|---|---|---|
| Database.Log | book-store-api/routes/transactionRoutes.js:158-167 | the ledger only grows, by at most one entry, and that entry is the one inserted; the state is unchanged exactly when the insert fails (no stock_history table, or a missing book); no other table changes |
| Database.FindCustomer | book-store-api/routes/transactionRoutes.js:129-131 | the lookup finds a customer exactly when one has that name, and returns that customer's id |
| Database.CustomerForReuses | book-store-api/routes/transactionRoutes.js:125-136 | an existing customer is reused with nothing changed; otherwise exactly one customer with the name is appended under the next id |
| Database.Db.Restore | book-store-api/routes/transactionRoutes.js:176-179 | a rollback puts every table back to its value at the start of the DB transaction |
| Database.Db.AppendLedger | book-store-api/routes/transactionRoutes.js:159-167 | a ledger insert reports whether it succeeded, and the state is the specification function's |
| TransactionRoutes.RecordLine | book-store-api/routes/transactionRoutes.js:145-167 | one pass of the item loop: an item row, the stock decrement and the swallowed ledger insert, succeeding exactly when the book exists |
| TransactionRoutes.Open | book-store-api/routes/transactionRoutes.js:123-142 | the customer upsert and header insert produce exactly the state of the specification function |
| TransactionRoutes.RecordLines | book-store-api/routes/transactionRoutes.js:145-168 | the item loop succeeds exactly when the specification's fold over the lines does, with the same final state |
| TransactionRoutes.RecordSale | book-store-api/routes/transactionRoutes.js:104-187 | an empty or missing item list is a 400 with nothing written; any failure rolls every table back; success leaves the state of the sale effect |
| TransactionRoutes.ApplyLinesStopped | book-store-api/routes/transactionRoutes.js:145-168 | once one line fails the loop fails |
| TransactionRoutes.ApplyLinesSucceeds | book-store-api/routes/transactionRoutes.js:145-156 | the item loop succeeds exactly when every line names an existing book, and it adds or removes no book |
| TransactionRoutes.ApplyLinesFrame | book-store-api/routes/transactionRoutes.js:145-168 | the item loop changes only stock, item rows and the ledger |
| TransactionRoutes.ApplyLinesStock | book-store-api/routes/transactionRoutes.js:152-156 | every book loses exactly the sum of its lines' quantities, with no stock check; a book listed twice is decremented twice |
| TransactionRoutes.ApplyLinesRows | book-store-api/routes/transactionRoutes.js:146-150 | one item row per line, appended in line order |
| TransactionRoutes.ApplyLinesLedger | book-store-api/routes/transactionRoutes.js:158-167 | one 'Penjualan Stok' entry with change −quantity per line when the ledger table exists, none otherwise; a ledger failure never aborts the sale |
| TransactionRoutes.SaleSucceedsIff | book-store-api/routes/transactionRoutes.js:107-109 | the sale succeeds exactly when the item list is non-empty and every line names an existing book |
| TransactionRoutes.OpenSaleHeader | book-store-api/routes/transactionRoutes.js:137-142 | the header gets a fresh id, total Σ quantity × price and the payment method or 'cash'; only customers change besides it |
| TransactionRoutes.SaleHeader | book-store-api/routes/transactionRoutes.js:111-112 | a recorded sale adds one header whose total_amount is Σ quantity × price_at_sale, with the payment method or 'cash'; other headers, bundles and users are untouched |
| TransactionRoutes.SaleStockAndLedger | book-store-api/routes/transactionRoutes.js:144-168 | a recorded sale decrements every book by its lines' quantities and appends one item row and one ledger entry per line, in order |
| TransactionRoutes.SaleCustomer | book-store-api/routes/transactionRoutes.js:123-136 | no customer for a blank name; otherwise the customer named by the trimmed name, reused when it exists and appended otherwise |
| TransactionRoutes.DetailItems | book-store-api/routes/transactionRoutes.js:214-227 | the detail lines are at most the rows of the table |
| TransactionRoutes.GetDetail | book-store-api/routes/transactionRoutes.js:190-245 | 404 exactly for an unknown id; otherwise the header's id, transaction_date, total_amount and payment_method, and the LEFT JOIN's customer: its name and id exactly when the header names a customer whose row exists, and both null otherwise |
| TransactionRoutes.CustomerById | book-store-api/routes/transactionRoutes.js:204 | the LEFT JOIN finds a customer row exactly when one has the id, and returns a row with that id |
| TransactionRoutes.DetailSubtotals | book-store-api/routes/transactionRoutes.js:223-245 | every detail line is joined from an item row of the transaction: the book's ISBN, title and author, the row's quantity, the row's price_at_sale as unit price, and subtotal = quantity × that price |
| TransactionRoutes.DetailOfOtherRows | book-store-api/routes/transactionRoutes.js:226 | rows of other transactions contribute no detail line |
| TransactionRoutes.DetailItemsConcat | book-store-api/routes/transactionRoutes.js:214-227 | appending rows appends their detail lines |
| TransactionRoutes.DetailOfLines | book-store-api/routes/transactionRoutes.js:214-227 | the rows of a sale whose books exist give one detail line per line, in order, each with its line's book, quantity and price at sale, with subtotals summing to Σ quantity × price |
| TransactionRoutes.RecordedSaleDetail | book-store-api/routes/transactionRoutes.js:112-245 | the detail of a sale just recorded lists one line per submitted line, in order, each with that line's book, quantity and price as unit price, and its subtotals add up to the header's total_amount |
| TransactionRoutes.FilterParamsLength | book-store-api/routes/transactionRoutes.js:10-21 | the parameter list has one entry per date filter given, two for a search term and one for a category |
| TransactionRoutes.WherePlaceholders | book-store-api/routes/transactionRoutes.js:11-21 | every given filter adds exactly as many `?` placeholders to the WHERE clause as it pushes parameters |
| TransactionRoutes.BuildWhere | book-store-api/routes/transactionRoutes.js:10-21 | the loop that builds one half's WHERE clause and parameters yields the specification's clause and parameter list |
| TransactionRoutes.BranchOf | book-store-api/routes/transactionRoutes.js:84-93 | type 'OUT' selects the sales half, 'IN' the stock-in half, anything else the union |
| TransactionRoutes.ListParams | book-store-api/routes/transactionRoutes.js:84-93 | the final parameters are the chosen half's, or both halves' concatenated for the union, so they line up with the placeholders |
| BookRoutes.StockOutEffect | book-store-api/routes/bookRoutes.js:41-46 | the stock-out is refused with 400 'Stok tidak mencukupi' exactly when the book is missing or its stock is below the quantity |
| BookRoutes.StockOut | book-store-api/routes/bookRoutes.js:31-125 | a refusal leaves the database unchanged; otherwise the database is the stock-out effect's, and the sale id is returned exactly when a sale was recorded |
| BookRoutes.RecordStockOutSale | book-store-api/routes/bookRoutes.js:49-87 | the sale branch writes the header, its line, the decrement and the ledger entry, giving exactly the specification state |
| BookRoutes.StockOutStock | book-store-api/routes/bookRoutes.js:43-98 | an accepted stock-out takes exactly the quantity off the book, which stays non-negative, and leaves other books alone |
| BookRoutes.StockOutLedger | book-store-api/routes/bookRoutes.js:78-109 | an accepted stock-out appends one −quantity 'Penjualan Stok' ledger entry when the ledger table exists |
| BookRoutes.StockOutSaleRows | book-store-api/routes/bookRoutes.js:49-70 | the sale branch writes one 'cash' header of total quantity × price under the next id, and its one item line |
| BookRoutes.StockOutSale | book-store-api/routes/bookRoutes.js:49-98 | a sale is recorded exactly when create_transaction is set and the price is truthy; otherwise the sales tables are unchanged |
| BookRoutes.StockIn | book-store-api/routes/bookRoutes.js:128-153 | the handler leaves exactly the stock-in effect's state |
| BookRoutes.StockInAdds | book-store-api/routes/bookRoutes.js:133-146 | a stock-in adds the unchecked quantity to an existing book and logs a 'Penambahan Stok' entry; nothing else changes |
| BookRoutes.UpdateBook | book-store-api/routes/bookRoutes.js:156-171 | the handler leaves exactly the replace-row state |
| BookRoutes.UpdateBookEffect | book-store-api/routes/bookRoutes.js:160-165 | an edit overwrites all seven columns of an existing book and no other row; a missing id changes nothing |
| BookRoutes.PlainDeleteEffect | book-store-api/routes/bookRoutes.js:180-223 | a plain delete is a 409 BOOK_IN_USE exactly when the book exists and an item or ledger row names it; otherwise the book row is removed |
| BookRoutes.DeleteBook | book-store-api/routes/bookRoutes.js:174-229 | the delete is forced exactly when the force query parameter lower-cases to 'true'; a plain delete follows its effect, and a forced delete always succeeds with the cascade's state |
| BookRoutes.ForceQuery | book-store-api/routes/bookRoutes.js:176 | a delete is forced exactly when the parameter is the four letters of 'true' in any letter case ('TRUE', 'True'); an absent, empty, '1' or 'yes' parameter gives a plain delete |
| BookRoutes.ForceDeleteUnreferenced | book-store-api/routes/bookRoutes.js:190-208 | after a forced delete the book is gone and no item or ledger row names it |
| BookRoutes.ForceDeleteNoEmptySales | book-store-api/routes/bookRoutes.js:200-205 | after a forced delete every remaining transaction still has at least one item |
| BookRoutes.ForceDeleteKeepsOthers | book-store-api/routes/bookRoutes.js:197-208 | a forced delete keeps every item row of other books and every header that still has one; only the book leaves books |
| BookRoutes.EntriesOf | book-store-api/routes/bookRoutes.js:253-254 | the history rows all belong to the book |
| BookRoutes.EntriesOfMembers | book-store-api/routes/bookRoutes.js:253-254 | the book's rows are exactly the ledger rows naming the book |
| BookRoutes.InsertByDate | book-store-api/routes/bookRoutes.js:255 | inserting into the date order adds exactly that entry |
| BookRoutes.InsertByDateSorted | book-store-api/routes/bookRoutes.js:255 | inserting into a newest-first list keeps it newest first |
| BookRoutes.SortByDate | book-store-api/routes/bookRoutes.js:255 | the sort is a permutation of its input |
| BookRoutes.SortByDateSorted | book-store-api/routes/bookRoutes.js:255 | the sort's result is newest first |
| BookRoutes.StockHistory | book-store-api/routes/bookRoutes.js:243-269 | at most 100 rows, all the book's, newest first; none when the stock_history table is missing |
| BookRoutes.HistoryKeepsNewest | book-store-api/routes/bookRoutes.js:248-258 | all the book's rows when there are at most 100; otherwise 100 of them, with no row left out newer than a row returned |
| BundleRoutes.ItemOf | book-store-api/routes/bundleRoutes.js:90 | a stored item keeps its book and has quantity `item.quantity \|\| 1`, never 0 |
| BundleRoutes.ItemsOf | book-store-api/routes/bundleRoutes.js:86-91 | one stored row per submitted entry |
| BundleRoutes.ItemsOfAt | book-store-api/routes/bundleRoutes.js:86-91 | the i-th stored row is the i-th entry's row |
| BundleRoutes.AddItems | book-store-api/routes/bundleRoutes.js:86-91 | the insert loop touches only bundle items and adds no bundle |
| BundleRoutes.AddItemsAppends | book-store-api/routes/bundleRoutes.js:86-91 | inserting the entries of an existing bundle appends their rows to its items, in order, and changes nothing else |
| BundleRoutes.CreateEffect | book-store-api/routes/bundleRoutes.js:72-75 | a create is refused with 400 'Missing required fields' exactly when the name or price is falsy or the items are missing or empty |
| BundleRoutes.CreateStoresBundle | book-store-api/routes/bundleRoutes.js:77-91 | a created bundle takes the next id, is active, has the name, price and stock (0 when absent) and exactly the submitted rows with quantities defaulted; no other bundle changes |
| BundleRoutes.CreateBundle | book-store-api/routes/bundleRoutes.js:64-106 | a refusal writes nothing; otherwise the handler returns the new id and leaves the create effect's state |
| BundleRoutes.UpdateEffect | book-store-api/routes/bundleRoutes.js:109-146 | an update fails, rolling back, exactly when items is missing or rows are inserted for a missing bundle |
| BundleRoutes.UpdateReplacesItems | book-store-api/routes/bundleRoutes.js:118-134 | after an update the bundle's items are exactly the submitted ones and its name, price and stock the submitted ones; nothing else changes |
| BundleRoutes.UpdateBundle | book-store-api/routes/bundleRoutes.js:109-146 | a failure leaves the database unchanged; success leaves the update effect's state |
| BundleRoutes.DeleteBundle | book-store-api/routes/bundleRoutes.js:149-157 | the handler leaves exactly the deactivate state |
| BundleRoutes.DeleteDeactivates | book-store-api/routes/bundleRoutes.js:148-151 | a delete only clears the active flag, keeping the row and its items; the bundle then no longer shows |
| BundleRoutes.ItemViews | book-store-api/routes/bundleRoutes.js:15-20 | the joined item views are at most the bundle's rows |
| BundleRoutes.ActiveFrom | book-store-api/routes/bundleRoutes.js:9-11 | the listed bundles are active, shown with their joined items, and ordered newest first |
| BundleRoutes.ListedIffActive | book-store-api/routes/bundleRoutes.js:6-33 | the list shows a bundle exactly when it exists and is active |
| BundleRoutes.GetBundle | book-store-api/routes/bundleRoutes.js:36-61 | the detail is 404 'Bundle not found' exactly when the bundle is missing or inactive |
| BundleRoutes.GetAgreesWithList | book-store-api/routes/bundleRoutes.js:36-61 | the detail of a bundle exists exactly when the list shows it, and is the entry the list shows |
| BundleRoutes.JoinedItems | book-store-api/routes/bundleRoutes.js:185-191 | the sale's item rows are the bundle's rows whose book exists |
| BundleRoutes.JoinedItemsMembers | book-store-api/routes/bundleRoutes.js:185-191 | a row is joined exactly when it is the bundle's and its book exists |
| BundleRoutes.FirstShortFrom | book-store-api/routes/bundleRoutes.js:193-202 | the corrected scan finds no short row exactly when every row passes the route's own test (stock ≥ quantity × n) and its book also covers its whole demand over all rows; otherwise it finds the first row that fails |
| BundleRoutes.ApplySold | book-store-api/routes/bundleRoutes.js:209-221 | the decrement loop changes neither bundles nor the set of books |
| BundleRoutes.SoldEntries | book-store-api/routes/bundleRoutes.js:216-220 | one ledger entry per joined row |
| BundleRoutes.SellEffect | book-store-api/routes/bundleRoutes.js:169-202 | a refused sale returns its refusal and writes nothing, under the corrected stock check |
| BundleRoutes.ApplySoldStock | book-store-api/routes/bundleRoutes.js:209-214 | the loop takes Σ quantity × n off each existing book |
| BundleRoutes.ApplySoldLedger | book-store-api/routes/bundleRoutes.js:216-220 | the loop appends exactly the sold entries to the ledger |
| BundleRoutes.ApplySoldUntouched | book-store-api/routes/bundleRoutes.js:209-214 | a book no row names is left as it was |
| BundleRoutes.DemandCovered | book-store-api/routes/bundleRoutes.js:193-202 | under the corrected check, every row of a passing sale has its book's whole demand in stock |
| BundleRoutes.SellRefusals | book-store-api/routes/bundleRoutes.js:169-183 | an inactive or missing bundle is 404; bundle stock below the quantity is 400; both come before any book is looked at |
| BundleRoutes.SellStock | book-store-api/routes/bundleRoutes.js:204-214 | a successful sale takes n off the bundle and Σ quantity × n off each of its books, every touched book stays at or above zero, and no other book or bundle changes |
| BundleRoutes.SellLedger | book-store-api/routes/bundleRoutes.js:216-220 | a successful sale logs one entry per joined row, of −quantity × n, with a reason naming the bundle |
| BundleRoutes.SellBundle | book-store-api/routes/bundleRoutes.js:160-237 | the quantity defaults to 1; every refusal and failure leaves the database unchanged; success leaves the sell effect's state, with the corrected stock check |
| BundleRoutes.FirstShort | book-store-api/routes/bundleRoutes.js:194-202 | the stock check loop, with the route's per-row test and the cumulative test added, finds the corrected scan's first short row |
| BundleRoutes.RecordSoldRow | book-store-api/routes/bundleRoutes.js:210-220 | one pass of the decrement loop: the book update, then its ledger insert, which may fail |
| BundleRoutes.RecordSoldRows | book-store-api/routes/bundleRoutes.js:209-221 | the loop succeeds exactly when the ledger table exists or there are no rows, and then leaves the specification state |
| BundleRoutes.FirstShortAloneFrom | book-store-api/routes/bundleRoutes.js:194-202 | the route's scan: no short row exactly when every row's book has stock ≥ quantity × n, taken alone; otherwise the first row that has less |
| BundleRoutes.SellRefusalAgrees | book-store-api/routes/bundleRoutes.js:169-202 | when the joined rows name distinct books, the corrected check and the route's check refuse exactly the same sales with the same error |
| BundleRoutes.CorrectionOnlyAddsRefusals | book-store-api/routes/bundleRoutes.js:169-202 | every sale the route's check refuses, the corrected check refuses too |
| BundleRoutes.AsWrittenDrivesStockNegative | book-store-api/routes/bundleRoutes.js:193-214 | the per-row check as written lets a bundle listing one book twice through with stock for one row, and the sale drives that book to −1; the cumulative check refuses it |
| AuthRoutes.BearerToken | book-store-api/routes/authRoutes.js:13-17 | the token taken from the header is the second space-separated part, and only a non-empty one counts |
| AuthRoutes.BearerOfScheme | book-store-api/routes/authRoutes.js:13 | a header 'Bearer <token>' yields exactly that token |
| AuthRoutes.NoSpaceNoToken | book-store-api/routes/authRoutes.js:13-17 | no header, or a header without a space, yields no token |
| AuthRoutes.AuthorizeOutcomes | book-store-api/routes/authRoutes.js:12-34 | 401 without a token or with one jwt.verify rejects; 403 on an owner-only route for any role but owner; otherwise the verified claims pass |
| AuthRoutes.InsertUser | book-store-api/routes/authRoutes.js:206-209 | a user insert takes the next id and changes nothing else |
| AuthRoutes.InitDefaultUsers | book-store-api/routes/authRoutes.js:37-69 | the initialisation leaves exactly its effect's state |
| AuthRoutes.InitUsersResult | book-store-api/routes/authRoutes.js:40-64 | on an empty table exactly the default owner and admin are created, the owner active with password 'owner'; otherwise nothing changes, so a second run is a no-op |
| AuthRoutes.ActiveUserFrom | book-store-api/routes/authRoutes.js:86-95 | the lookup finds an active user with the name, or proves that none exists |
| AuthRoutes.Login | book-store-api/routes/authRoutes.js:77-137 | a refused login writes nothing; a successful one returns the signed token and claims and leaves the login effect's state |
| AuthRoutes.LoginOutcomes | book-store-api/routes/authRoutes.js:81-108 | a login succeeds exactly for an active user of that name whose password matches; unknown, inactive and wrong-password logins get the same 401; success changes only that user's last_login |
| AuthRoutes.UnknownUserRefused | book-store-api/routes/authRoutes.js:91-92 | without an active user of that name every password gets the shared 401 |
| AuthRoutes.CreateUser | book-store-api/routes/authRoutes.js:179-220 | a refusal writes nothing; otherwise the new id is returned and the state is the create effect's |
| AuthRoutes.CreateUserOutcomes | book-store-api/routes/authRoutes.js:183-209 | a create is refused without username or password, with a role other than owner or admin, or with a name in use (active or not); otherwise one active user is added under a fresh id, role admin by default, and names stay unique |
| AuthRoutes.UpdateColumns | book-store-api/routes/authRoutes.js:253-271 | the loop builds the specification's column list, in the route's order |
| AuthRoutes.ColumnsChangeSuppliedFields | book-store-api/routes/authRoutes.js:256-271 | the columns set exactly the supplied fields, an invalid role excepted, and never touch the password or last login |
| AuthRoutes.UpdateUser | book-store-api/routes/authRoutes.js:223-290 | a refusal writes nothing; otherwise the state is the update effect's |
| AuthRoutes.UpdateUserOutcomes | book-store-api/routes/authRoutes.js:229-282 | an update changes only the target and only its supplied fields; an owner cannot deactivate themselves; a new non-empty name must be unused, so names stay unique |
| AuthRoutes.UpdateCanRemoveLastOwner | book-store-api/routes/authRoutes.js:236-267 | the last-owner protection exists only on delete: the only active owner may demote themselves, leaving no active owner |
| AuthRoutes.ResetPassword | book-store-api/routes/authRoutes.js:293-328 | a refusal writes nothing; otherwise the state is the reset effect's |
| AuthRoutes.ChangePassword | book-store-api/routes/authRoutes.js:371-412 | a refusal writes nothing; otherwise the state is the change effect's |
| AuthRoutes.ShortPasswordsRefused | book-store-api/routes/authRoutes.js:298-381 | both password routes refuse a new password shorter than four characters with 400, before looking at the user |
| AuthRoutes.ChangePasswordRoundTrip | book-store-api/routes/authRoutes.js:390-404 | after a change the new password matches and, when different, the old one no longer does; a wrong current password is a 401 that changes nothing |
| AuthRoutes.ResetThenMatches | book-store-api/routes/authRoutes.js:306-320 | a reset of an existing user to a long enough password succeeds, and the new password then matches |
| AuthRoutes.DeleteUser | book-store-api/routes/authRoutes.js:331-368 | a refusal writes nothing; otherwise the state is the delete effect's |
| AuthRoutes.DeleteIsSoft | book-store-api/routes/authRoutes.js:359-360 | a delete keeps every row and only clears the target's is_active |
| AuthRoutes.DeleteOwners | book-store-api/routes/authRoutes.js:359-360 | the active owners after a delete are the same set less the deleted user |
| AuthRoutes.DeleteKeepsAnOwner | book-store-api/routes/authRoutes.js:347-357 | a successful delete never leaves the shop without an active owner if it had one |
| AuthRoutes.DeleteRefusals | book-store-api/routes/authRoutes.js:335-357 | a delete is refused for a missing user, for oneself, and for an owner while at most one owner is active; any other user can be deleted |
| AuthContext.CanAccessRule | book-store-app/src/context/AuthContext.jsx:104-113 | access is denied without a user, granted to an owner on every page, and for any other role denied on exactly 'reports' and 'users' |
| AuthContext.RolesExclusive | book-store-app/src/context/AuthContext.jsx:99-101 | no user is both owner and admin, and either role is authenticated |
| AuthContext.HeaderCarriesToken | book-store-app/src/context/AuthContext.jsx:22-29 | the default header 'Bearer <token>' for a truthy token is parsed by the server back to exactly that token; no token gives no header |
| AuthContext.ErrorText | book-store-app/src/context/AuthContext.jsx:69-94 | the shown error is the server's non-empty message, else the non-empty fallback |
| AuthContext.ChangePasswordOutcome | book-store-app/src/context/AuthContext.jsx:83-96 | success exactly when the request succeeds, with no error; otherwise a non-empty error |
| AuthContext.Session.constructor | book-store-app/src/context/AuthContext.jsx:18-20 | the provider starts with no user, the stored token, and loading |
| AuthContext.Session.Logout | book-store-app/src/context/AuthContext.jsx:76-81 | logout clears the stored token, the token and the user, after which no page is accessible and no header is sent |
| AuthContext.Session.Login | book-store-app/src/context/AuthContext.jsx:50-74 | a successful login stores and keeps the token and sets the user; a failure changes nothing and returns the server's message or 'Login gagal' |
| AuthContext.Session.Validate | book-store-app/src/context/AuthContext.jsx:32-48 | with a truthy stored token the user becomes GET /auth/me's answer, or the session is logged out when it fails; without one nothing changes; loading ends either way |
| ImportHelpers.Or | book-store-api/routes/importRoutes.js:203-220 | `a \|\| b` is truthy exactly when either is; it is a when a is truthy and b when a is falsy, which gives the column fallbacks |
| ImportHelpers.StripCurrency | book-store-api/routes/importRoutes.js:40 | stripping `[Rp\s]` leaves none of R, r, P, p or white space, adds no character, and keeps text that has none |
| ImportHelpers.CleanNumberText | book-store-api/routes/importRoutes.js:34-40 | the cleaned text has no R, r, P, p or white space |
| ImportHelpers.AbsentAndNumbers | book-store-api/routes/importRoutes.js:24-31 | null and undefined read as 0, and a number passes through unchanged |
| ImportHelpers.ParseFloatDigits | book-store-api/routes/importRoutes.js:60 | parseFloat of a digit string is its decimal value |
| ImportHelpers.ThousandsSeparators | book-store-api/routes/importRoutes.js:49-61 | dots with no comma are thousands separators: the value is the digits with the dots removed |
| ImportHelpers.DecimalComma | book-store-api/routes/importRoutes.js:52-61 | dotted digit groups, one comma and decimal digits read the comma as the decimal point, with or without dots |
| ImportHelpers.ParseExamples | book-store-api/routes/importRoutes.js:43 | "1.500.000" reads as 1500000 and "30.000,50" as 30000.5 |
| ImportHelpers.NoDigitsIsZero | book-store-api/routes/importRoutes.js:60-61 | text without any digit is unparseable and reads as 0 |
| ImportHelpers.EmptyIsCash | book-store-api/routes/importRoutes.js:171 | an empty payment text is cash |
| ImportHelpers.ClassifyIgnoresCase | book-store-api/routes/importRoutes.js:172 | the classifier ignores letter case |
| ImportHelpers.ClassifyPriority | book-store-api/routes/importRoutes.js:174-177 | qris wins whenever present; debit only without qris, transfer or bank; cash exactly when none of the earlier keywords but one of cod, tunai or cash is present |
| ImportHelpers.NoKeywordIsTransfer | book-store-api/routes/importRoutes.js:179 | text without any keyword defaults to transfer |
| ImportHelpers.ClassifyShopeePay | book-store-api/routes/importRoutes.js:179 | an e-wallet name such as 'ShopeePay' carries no keyword and is booked as a transfer |
| ImportHelpers.ClassifyQris | book-store-api/routes/importRoutes.js:172-174 | upper-case 'QRIS' is recognised |
| ImportHelpers.ParseExcelDate | book-store-api/routes/importRoutes.js:141-142 | a falsy cell, numeric 0 included, gives the current time |
| ImportHelpers.FieldMatches | book-store-api/routes/importRoutes.js:150 | a one- or two-digit day or month field before a separator is read whole |
| ImportHelpers.YearMatches | book-store-api/routes/importRoutes.js:150 | four digits are read as the year, whatever follows |
| ImportHelpers.NoTime | book-store-api/routes/importRoutes.js:152 | with nothing after the year, hour and minute are 0 |
| ImportHelpers.TimeMatches | book-store-api/routes/importRoutes.js:150-152 | ' HH:mm' after the year gives that hour and minute |
| ImportHelpers.DateOnlyMatches | book-store-api/routes/importRoutes.js:150-152 | 'D-M-YYYY', with either separator, matches with hour and minute 0 |
| ImportHelpers.DateTimeMatches | book-store-api/routes/importRoutes.js:150-152 | 'DD-MM-YYYY HH:mm' matches with all five fields |
| ImportHelpers.PatternIsLocal | book-store-api/routes/importRoutes.js:150-154 | a matching text is read as local time with the month shifted to a 0-based index |
| ImportHelpers.MatchDateFirst | book-store-api/routes/importRoutes.js:150 | the pattern search stops at the first position that matches |
| ImportHelpers.SerialIsAfterEpoch | book-store-api/routes/importRoutes.js:161-164 | a positive serial number n is 1899-12-30 plus n × 86,400,000 ms |
| ImportHelpers.ExcelDateFallbacks | book-store-api/routes/importRoutes.js:142 | zero, an empty cell or a missing one fall back to the current time |
| Similarity.DistStep | book-store-api/routes/importRoutes.js:88-92 | an inner cell of the edit-distance table is its diagonal for equal characters, else one more than the least of its three neighbours |
| Similarity.CellValue | book-store-api/routes/importRoutes.js:89-92 | the value the inner loop computes from lastValue, costs[j−1] and costs[j] is the table entry |
| Similarity.DistAtMostLonger | book-store-api/routes/importRoutes.js:81-98 | no prefix pair is further apart than the longer prefix |
| Similarity.DistAtLeastGap | book-store-api/routes/importRoutes.js:81-98 | a prefix pair is at least as far apart as their lengths differ |
| Similarity.DistOfSame | book-store-api/routes/importRoutes.js:81-98 | equal strings are at distance 0 |
| Similarity.FirstRow | book-store-api/routes/importRoutes.js:86-87 | the pass for i = 0 fills costs with row 0 of the table |
| Similarity.RowStep | book-store-api/routes/importRoutes.js:89-94 | storing lastValue in costs[j−1] advances the in-place row by one cell |
| Similarity.RowDone | book-store-api/routes/importRoutes.js:97 | storing lastValue in the last cell completes row i |
| Similarity.NextRow | book-store-api/routes/importRoutes.js:84-97 | the pass for i > 0 computes row i in place from row i − 1 |
| Similarity.Levenshtein | book-store-api/routes/importRoutes.js:81-98 | after the nested loop costs[s2.length] holds the Levenshtein distance of s1 and s2 |
| Similarity.LongerNonEmpty | book-store-api/routes/importRoutes.js:71-74 | two different cleaned strings have a non-empty longer one, so the early return for an empty longer string is never taken after the equality test |
| Similarity.CompareCleaned | book-store-api/routes/importRoutes.js:69-100 | the comparison of cleaned strings returns the specification score, its distance taken from the loop |
| Similarity.StringSimilarity | book-store-api/routes/importRoutes.js:65-101 | stringSimilarity returns the specification score of the lower-cased, trimmed strings |
| Similarity.ScoreOfEqual | book-store-api/routes/importRoutes.js:66-69 | texts equal after lower-casing and trimming score exactly 1 |
| Similarity.ContainmentRange | book-store-api/routes/importRoutes.js:77-79 | when one cleaned string contains the other the score is shorter/longer + 0.3, in [0.3, 1.3) |
| Similarity.DistanceRange | book-store-api/routes/importRoutes.js:100 | without containment the score (longer − distance)/longer is in [0, 1] |
| Similarity.ScoreRange | book-store-api/routes/importRoutes.js:65-101 | every score is in [0, 1.3) |
| Similarity.ContainingBeatsExact | book-store-api/routes/importRoutes.js:77-134 | a title that strictly contains the name and is under 10/7 of its length outscores a title equal to the name |
| Similarity.RemoveTags | book-store-api/routes/importRoutes.js:105 | removing the '[Bundle]' tags never lengthens the name |
| Similarity.RemoveTagsNoTag | book-store-api/routes/importRoutes.js:105 | a name without the tag is left as it is |
| Similarity.TagRemovedInFront | book-store-api/routes/importRoutes.js:105 | a tag in front of the name is removed |
| Similarity.ScoresOf | book-store-api/routes/importRoutes.js:113-129 | one score per catalogue name |
| Similarity.ScoreAt | book-store-api/routes/importRoutes.js:114-129 | the k-th score is the name scored against the k-th catalogue name |
| Similarity.SelectStep | book-store-api/routes/importRoutes.js:115-133 | one step of the selection keeps the best-so-far invariant |
| Similarity.Consider | book-store-api/routes/importRoutes.js:113-134 | one iteration scores candidate i and keeps it only if it beats the best so far |
| Similarity.SelectBest | book-store-api/routes/importRoutes.js:110-136 | no match exactly when no score reaches 0.5; otherwise the earliest candidate with the highest score |
| Similarity.FindBestMatch | book-store-api/routes/importRoutes.js:104-138 | the name is cleaned of '[Bundle]' tags, then the result is none exactly when no catalogue name scores 0.5, and otherwise the earliest best-scoring one |
| ImportPreview.UnitPrice | book-store-api/routes/importRoutes.js:227 | a positive quantity gives the price share with unitPrice × quantity = productPrice; otherwise the product price itself |
| ImportPreview.ItemOf | book-store-api/routes/importRoutes.js:217-228 | a line keeps its product name, and is a bundle exactly when the lower-cased name contains '[bundle]' |
| ImportPreview.IndexOfOrder | book-store-api/routes/importRoutes.js:206 | the lookup finds the group of the order number, or shows that none exists yet |
| ImportPreview.FirstWith | book-store-api/routes/importRoutes.js:206-215 | the first row carrying an order number |
| ImportPreview.AddRowOpens | book-store-api/routes/importRoutes.js:206-228 | a row with an order number opens a group when the order is new, and its line goes to its own order's group |
| ImportPreview.AddRowCounts | book-store-api/routes/importRoutes.js:222-228 | a row with an order number adds exactly one line |
| ImportPreview.SkipStep | book-store-api/routes/importRoutes.js:203-204 | a row without an order number changes no group and adds no line |
| ImportPreview.NumberedKeyed | book-store-api/routes/importRoutes.js:206-215 | a numbered row keeps the order numbers distinct and gives every numbered row a group |
| ImportPreview.OldGroupFilled | book-store-api/routes/importRoutes.js:206-222 | an existing group keeps its header and gains the row's line when the row is its order's |
| ImportPreview.NewGroupFilled | book-store-api/routes/importRoutes.js:206-215 | the first row of an order opens a group with its header and its line |
| ImportPreview.NumberedFilled | book-store-api/routes/importRoutes.js:206-228 | a numbered row keeps every group's header and gives its line to its own order's group only |
| ImportPreview.AddRowStep | book-store-api/routes/importRoutes.js:202-229 | one row keeps the groups keyed and filled, and adds a line exactly when it carries an order number |
| ImportPreview.GroupRowsSpec | book-store-api/routes/importRoutes.js:200-229 | exactly one group per distinct order number, none for rows without one; each header from the order's first row; lines are the order's rows' lines in row order; one line per numbered row |
| ImportPreview.GroupRowsFails | book-store-api/routes/importRoutes.js:202-229 | grouping fails exactly when a numbered row's line throws or an order's first row has a header that throws |
| ImportPreview.Group | book-store-api/routes/importRoutes.js:200-229 | the grouping loop builds exactly the specification's groups, in first-appearance order |
| ImportPreview.GroupRowsNext | book-store-api/routes/importRoutes.js:202 | the grouping of one more row extends the grouping so far |
| ImportPreview.ExistingFrom | book-store-api/routes/importRoutes.js:240-243 | the lookup finds a header with the order number, or shows none exists from k on |
| ImportPreview.ExistingId | book-store-api/routes/importRoutes.js:240-245 | the order replaces an existing header with its number, or none has that number |
| ImportPreview.MatchLine | book-store-api/routes/importRoutes.js:254-270 | one line is matched against the catalogue of its kind with the best-match selection |
| ImportPreview.MatchLines | book-store-api/routes/importRoutes.js:253-281 | the matching loop gives one line per item, in item order, each keeping its item and holding the earliest best match of its cleaned name at or above the threshold, or no match when none reaches it |
| ImportPreview.MatchOrders | book-store-api/routes/importRoutes.js:238-289 | each order is looked up by number and its lines matched; newOrders + replaceOrders = the number of groups |
| ImportPreview.Preview | book-store-api/routes/importRoutes.js:183-324 | with the catalogues read from the books table and the active bundles: a missing file and an empty sheet are 400s, a row that throws fails the request, and every other file succeeds; on success one order per group, looked up and matched, with totalOrders, newOrders + replaceOrders = totalOrders, totalItems, unmatchedItems and the warnings |
| ImportPreview.MatchPercentRange | book-store-api/routes/importRoutes.js:268 | `Math.round(score × 100)` of a score from the threshold 0.5 up to the bound 1.3 of the similarity is a percentage from 50 to 130 |
| ImportPreview.MatchedFromDatabase | book-store-api/routes/importRoutes.js:104-136 | with the catalogues read from the database, a matched line names an existing book under its title or an active bundle under its name, with the database's price and stock, and a score from 50 to 130 |
| ImportConfirm.RestoreOld | book-store-api/routes/importRoutes.js:356-370 | the restore loop changes only book and bundle stock |
| ImportConfirm.RestoreOldStock | book-store-api/routes/importRoutes.js:356-370 | every existing book and bundle gets back exactly the quantities of the old lines naming it |
| ImportConfirm.ReplaceOld | book-store-api/routes/importRoutes.js:349-383 | a replace changes only stock, item rows and headers |
| ImportConfirm.ReplaceOldEffect | book-store-api/routes/importRoutes.js:349-383 | after a replace the old header and all its lines are gone, every other line and header is kept, and each book and bundle has the old quantities added back |
| ImportConfirm.LineStep | book-store-api/routes/importRoutes.js:419-468 | a line fails exactly when its row insert fails (a matched book that no longer exists) |
| ImportConfirm.LineRows | book-store-api/routes/importRoutes.js:425-453 | one item row per line |
| ImportConfirm.ImportLinesEffect | book-store-api/routes/importRoutes.js:418-469 | the line loop fails exactly when a book line is matched to a missing book; otherwise one row per line, one stock update per matched line, each matched quantity taken off with no check, and headers, customers and the ledger untouched |
| ImportConfirm.ImportLinesFrame | book-store-api/routes/importRoutes.js:418-469 | the line loop changes only stock and item rows |
| ImportConfirm.ImportLinesRows | book-store-api/routes/importRoutes.js:425-453 | the rows appended are exactly the lines' rows, in order |
| ImportConfirm.ImportLinesStock | book-store-api/routes/importRoutes.js:431-460 | each book and bundle loses exactly the matched quantities of its lines, with no stock check |
| ImportConfirm.OrderHeaderKept | book-store-api/routes/importRoutes.js:406-479 | the header totals the lines' product prices and stays even when a line then fails: the failure is only caught, not rolled back |
| ImportConfirm.ReplaceNetStock | book-store-api/routes/importRoutes.js:349-467 | replacing an order leaves each book at old stock + old order's quantity − new order's quantity |
| ImportConfirm.NewOrderStock | book-store-api/routes/importRoutes.js:444-467 | a new order takes exactly its matched quantities off each book and records one stock update per matched line |
| ImportConfirm.ConfirmRun | book-store-api/routes/importRoutes.js:346-480 | imported + errors = the number of orders, and replaced counts the orders that replace |
| ImportConfirm.ConfirmEffect | book-store-api/routes/importRoutes.js:333-335 | the confirm is refused with 400 exactly when data is missing or empty |
| ImportConfirm.ConfirmErrors | book-store-api/routes/importRoutes.js:473-479 | every entry of errors is the number of a submitted order |
| ImportConfirm.ConfirmRunStep | book-store-api/routes/importRoutes.js:346-480 | each order's outcome is added to the earlier ones: a failed order adds its number to errors without stopping the loop, and a successful replace counts as both replaced and imported |
| ImportConfirm.ReplaceExisting | book-store-api/routes/importRoutes.js:349-383 | the replace step leaves exactly the replace state |
| ImportConfirm.RestoreOne | book-store-api/routes/importRoutes.js:357-369 | one old line gives its quantity back to its book and bundle |
| ImportConfirm.ImportLine | book-store-api/routes/importRoutes.js:419-468 | one line leaves the line step's state and reports its failure |
| ImportConfirm.ImportLinesInto | book-store-api/routes/importRoutes.js:418-469 | the line loop leaves the specification's state and outcome |
| ImportConfirm.ImportLinesStopped | book-store-api/routes/importRoutes.js:418-469 | once a line fails, the later lines change nothing |
| ImportConfirm.ImportOrder | book-store-api/routes/importRoutes.js:347-479 | the per-order try block leaves the specification's state and outcome |
| ImportConfirm.ConfirmImport | book-store-api/routes/importRoutes.js:327-497 | a refusal writes nothing; otherwise the whole batch commits with the loop's state and results |
| ImportConfirm.RunOrders | book-store-api/routes/importRoutes.js:346-480 | the order loop leaves the specification's state and results |
| ImportConfirm.ReimportExample | book-store-api/routes/importRoutes.js:349-460 | a book at 10: importing an order of 2 leaves 8, and re-importing it with 3 leaves 7 |
| ImportConfirm.ImportDrivesStockNegative | book-store-api/routes/importRoutes.js:455-460 | the import checks no stock: selling 3 of a book with 1 left leaves it at −2 |
| TransactionPage.FindIndex | book-store-app/src/pages/TransactionPage.jsx:146 | the index of the first entry for the book, or −1 exactly when there is none |
| TransactionPage.SafeQuantity | book-store-app/src/pages/TransactionPage.jsx:140 | the quantity used is at least 1 |
| TransactionPage.NormalisedQuantityParses | book-store-app/src/pages/TransactionPage.jsx:405-407 | after the blur handler the quantity parses to a positive number, normalising again keeps it, and the quantity used is unchanged |
| TransactionPage.DraftTotalUpdate | book-store-app/src/pages/TransactionPage.jsx:50-52 | replacing one entry changes the draft total by the difference of the entries' totals |
| TransactionPage.DraftTotalAppend | book-store-app/src/pages/TransactionPage.jsx:50-52 | appending an entry adds its total to the draft total |
| TransactionPage.AddedOutcome | book-store-app/src/pages/TransactionPage.jsx:137-171 | an add succeeds exactly when the book's merged quantity stays within its stock; the draft then keeps one entry per book, that entry holds the old quantity plus q, the other entries are kept, and a new book goes at the end |
| TransactionPage.MergeTotal | book-store-app/src/pages/TransactionPage.jsx:158-167 | a merge at the book's price raises the draft total by q × price |
| TransactionPage.AddedPriced | book-store-app/src/pages/TransactionPage.jsx:154-170 | when the book's entry carries the book's price, an add keeps every entry's total = quantity × unit price |
| TransactionPage.AddedDraftTotal | book-store-app/src/pages/TransactionPage.jsx:158-170 | when the book's entry, if any, has its total at the book's price, an add raises the draft total by q × price, whether it merges or appends |
| TransactionPage.AddToDraft | book-store-app/src/pages/TransactionPage.jsx:137-170 | the stock checks and the merge or append compute exactly the added draft, or refuse exactly when it does |
| TransactionPage.RemovedMembers | book-store-app/src/pages/TransactionPage.jsx:179-181 | removing keeps exactly the entries of other books |
| TransactionPage.RemovedOutcome | book-store-app/src/pages/TransactionPage.jsx:179-181 | removing a book drops exactly its entry: nothing changes without one, and with one the draft loses one entry and that entry's total |
| TransactionPage.Lines | book-store-app/src/pages/TransactionPage.jsx:192-196 | one request line per draft entry |
| TransactionPage.LinesMatchDraft | book-store-app/src/pages/TransactionPage.jsx:192-197 | the lines carry each entry's book, quantity and unit price in order |
| TransactionPage.LinesTotalMatch | book-store-app/src/pages/TransactionPage.jsx:192-197 | for entries whose totals are quantity × unit price, the total the server computes from the lines equals the draft total |
| TransactionPage.SubmitOutcome | book-store-app/src/pages/TransactionPage.jsx:183-197 | the request is refused only for an empty draft, and otherwise always names a payment method and a customer |
| TransactionPage.Draft.constructor | book-store-app/src/pages/TransactionPage.jsx:110-118 | the reset draft is empty, with no book selected, an empty search and quantity '1' |
| TransactionPage.Draft.AddItem | book-store-app/src/pages/TransactionPage.jsx:137-177 | without a selected book nothing changes; a short stock sets the error and keeps the draft; otherwise the draft becomes the added draft and the per-item fields are reset |
| TransactionPage.Draft.RemoveItem | book-store-app/src/pages/TransactionPage.jsx:179-181 | the draft becomes the removed draft |
| BundlePage.Without | book-store-app/src/pages/BundlePage.jsx:52-57 | removing keeps exactly the rows of other books |
| BundlePage.WithQuantity | book-store-app/src/pages/BundlePage.jsx:59-66 | a quantity change keeps the number of rows |
| BundlePage.WithBookOutcome | book-store-app/src/pages/BundlePage.jsx:40-50 | an added book is in the list once: a present book is not added again, an absent one goes at the end with quantity 1 |
| BundlePage.WithoutOutcome | book-store-app/src/pages/BundlePage.jsx:52-57 | removing a book drops only its row: the book is gone, every other row stays, and rows stay unique with positive quantities |
| BundlePage.WithQuantityOutcome | book-store-app/src/pages/BundlePage.jsx:59-66 | the book's row gets the new quantity, never below 1 (`Math.max(1, parseInt(q) \|\| 1)`), and other rows are left alone |
| BundlePage.FindBook | book-store-app/src/pages/BundlePage.jsx:84 | the lookup finds a catalogue book with the id, or shows none has it |
| BundlePage.TotalBookPriceNonNegative | book-store-app/src/pages/BundlePage.jsx:83-86 | with non-negative prices and positive quantities the total book price is never negative |
| BundlePage.TotalIgnoresUnknownBook | book-store-app/src/pages/BundlePage.jsx:83-86 | rows whose book is not in the catalogue add nothing to the total |
| BundlePage.BundleForm.constructor | book-store-app/src/pages/BundlePage.jsx:13-20 | a new bundle's form is empty, with no search and the dropdown closed |
| BundlePage.BundleForm.AddBook | book-store-app/src/pages/BundlePage.jsx:40-50 | the items become the added list, the search is cleared and the dropdown closed; the other fields stay |
| BundlePage.BundleForm.RemoveBook | book-store-app/src/pages/BundlePage.jsx:52-57 | the items become the removed list |
| BundlePage.BundleForm.QuantityChange | book-store-app/src/pages/BundlePage.jsx:59-66 | the items become the list with the book's quantity changed |
| BundlePage.BundleForm.Submit | book-store-app/src/pages/BundlePage.jsx:73-81 | the form is saved exactly when it has a name, a price and at least one item, with exactly its fields; otherwise the alert is shown; the stock is not checked |
| BundlePage.Sort | book-store-app/src/pages/BundlePage.jsx:617 | `sort()` is a permutation of its input |
| BundlePage.SortSorted | book-store-app/src/pages/BundlePage.jsx:617 | `sort()` orders by UTF-16 code units, ascending |
| BundlePage.SortedUnique | book-store-app/src/pages/BundlePage.jsx:617 | two sorted lists with the same elements are the same list |
| BundlePage.KeyIndependentOfSplit | book-store-app/src/pages/BundlePage.jsx:616-618 | the bundle key depends only on which items a recommendation holds, not on how they split or are ordered |
| BundlePage.Unmarked | book-store-app/src/pages/BundlePage.jsx:611 | unmarking keeps exactly the other keys |
| BundlePage.ToggleOutcome | book-store-app/src/pages/BundlePage.jsx:604-614 | a toggle flips the key's membership in the chosen list only; twice marks the same keys as before, restoring the lists exactly when the key was not marked |
| BundlePage.ToggleTwiceReorders | book-store-app/src/pages/BundlePage.jsx:604-614 | toggling a marked key twice moves it to the end of its list |
| BundlePage.FindByTitle | book-store-app/src/pages/BundlePage.jsx:553 | the lookup finds a catalogue book with the title, or shows none has it |
| BundlePage.QuickAddItems | book-store-app/src/pages/BundlePage.jsx:552-555 | at most one item per recommended title |
| BundlePage.QuickAddItemsOutcome | book-store-app/src/pages/BundlePage.jsx:552-560 | every quick-add item is one copy of a catalogue book whose title was recommended, and the list is empty exactly when no recommended title is in the catalogue |
| BundlePage.MarkStore.constructor | book-store-app/src/pages/BundlePage.jsx:480-483 | the marks are the saved ones, or two empty lists |
| BundlePage.MarkStore.ToggleMark | book-store-app/src/pages/BundlePage.jsx:604-614 | the marks become the toggled marks |
| BundlePage.MarkStore.QuickAdd | book-store-app/src/pages/BundlePage.jsx:549-584 | without a known title nothing is posted or marked; otherwise the body is posted and, once it succeeds, the sorted titles' key is marked among the book recommendations |
| BundlePage.QuickAddMarksItsRecommendation | book-store-app/src/pages/BundlePage.jsx:241-262 | a recommendation added through the quick-add modal is shown as marked afterwards: the key it marks is its own bundle key |
| BundlePage.BadgeMonotone | book-store-app/src/pages/BundlePage.jsx:355-363 | a higher lift never gets a weaker badge; only a lift of exactly 1 is optional; above 1 is recommended |
| InventoryPage.BySearchIsFilter | book-store-app/src/pages/InventoryPage.jsx:62-68 | the search step keeps exactly the books whose title or ISBN contains the term, ignoring case, and every book when the term is empty |
| InventoryPage.ByCategoryIsFilter | book-store-app/src/pages/InventoryPage.jsx:71-73 | the category step keeps exactly the books of that category, and every book when none is chosen |
| InventoryPage.ByStatusIsFilter | book-store-app/src/pages/InventoryPage.jsx:76-90 | the status step keeps exactly the books whose stock matches the status, and every book when none is chosen |
| InventoryPage.FilteredIsConjunction | book-store-app/src/pages/InventoryPage.jsx:58-93 | the chained filters are one filter by the conjunction of the filters that are set: order is kept and a book is shown exactly when it passes all of them |
| InventoryPage.NoFiltersShowAll | book-store-app/src/pages/InventoryPage.jsx:58-93 | with no search, category or status every book is shown, in order |
| InventoryPage.StockStatusesDisjoint | book-store-app/src/pages/InventoryPage.jsx:76-90 | 'tersedia', 'menipis' and 'habis' never overlap, cover every non-negative stock and match no negative stock |
| InventoryPage.ColorMatchesStatus | book-store-app/src/pages/InventoryPage.jsx:96-100 | red is exactly 'habis', green exactly 'tersedia', yellow exactly 'menipis' or a negative stock |
| UserManagementPage.FilteredUsersOutcome | book-store-app/src/pages/UserManagementPage.jsx:71-86 | the list keeps the users' order and holds exactly the users whose username or full name contains the search (ignoring case), whose role matches and whose active flag matches the status, each only when set |
| UserManagementPage.NoFiltersShowAll | book-store-app/src/pages/UserManagementPage.jsx:71-86 | with every filter empty the whole list is shown, in order |
| UserManagementPage.StatusViewsPartition | book-store-app/src/pages/UserManagementPage.jsx:81-83 | the 'active' and 'inactive' views split the otherwise filtered list: their sizes add up to it |
| UserManagementPage.UnknownStatusHidesAll | book-store-app/src/pages/UserManagementPage.jsx:81-83 | a status other than '', 'active' and 'inactive' hides every user |
| CategoryCombobox.FilteredOutcome | book-store-app/src/components/CategoryCombobox.jsx:23-27 | an empty query shows every option; any query shows, in their order, exactly the options whose text contains it, ignoring case |
| CategoryCombobox.Select | book-store-app/src/components/CategoryCombobox.jsx:29-33 | selecting an option emits it under 'category', makes it the query and closes the panel |
| CategoryCombobox.InputChange | book-store-app/src/components/CategoryCombobox.jsx:35-38 | typing makes the text the query and emits it; the panel is untouched |
| CategoryCombobox.KeyDown | book-store-app/src/components/CategoryCombobox.jsx:40-43 | Escape closes the panel, ArrowDown opens it, any other key changes nothing; the query never changes |
| CategoryCombobox.ValueChanged | book-store-app/src/components/CategoryCombobox.jsx:9-11 | a new value from the parent becomes the query (empty when there is none); the panel is untouched |
| CategoryCombobox.SelectedOptionStaysShown | book-store-app/src/components/CategoryCombobox.jsx:9-33 | after a selection is echoed back by the parent, the query is the option and the option is among those shown |
| StockUpdateModal.SubmitRefusals | book-store-app/src/components/StockUpdateModal.jsx:28-56 | a request is sent exactly when the quantity parses to a positive integer and, for stock-out, is within the stock and the price is non-empty and not at most 0; a bad quantity and a quantity over the stock each get their own refusal |
| StockUpdateModal.SubmitRequest | book-store-app/src/components/StockUpdateModal.jsx:24-63 | a sent request goes to stock-in exactly for 'IN', carries the positive quantity, and for stock-out the date, the parsed price (positive unless not a number) and the sale flag |
| StockUpdateModal.EndpointsDiffer | book-store-app/src/components/StockUpdateModal.jsx:24-26 | stock-in and stock-out go to different endpoints of the book |
| StockUpdateModal.StockOutAccepted | book-store-app/src/components/StockUpdateModal.jsx:28-64 | a stock-out the modal sends for the stock it shows is accepted by the stock-out route while the stock is unchanged, and records a sale whenever the price is a number |
| ReportCsv.Escape | book-store-app/src/pages/ReportPage.jsx:196 | escaping doubles every double quote: the text grows by exactly its number of quotes |
| ReportCsv.UnescapeEscape | book-store-app/src/pages/ReportPage.jsx:196 | the escaped text followed by a closing quote reads back as the text, leaving what follows |
| ReportCsv.UnquoteQuote | book-store-app/src/pages/ReportPage.jsx:196 | a quoted field reads back as the original value |
| ReportCsv.FieldsLine | book-store-app/src/pages/ReportPage.jsx:196 | a line of one or more quoted, comma-joined fields reads back as its fields |
| ReportCsv.ReadLineLine | book-store-app/src/pages/ReportPage.jsx:196 | any written line, including an empty row, reads back as its row |
| ReportCsv.CsvRoundTrip | book-store-app/src/pages/ReportPage.jsx:180-196 | reading the exported text back yields exactly the exported rows |
| ReportCsv.QuoteShape | book-store-app/src/pages/ReportPage.jsx:196 | a written field starts and ends with a quote, is as long as the value plus its quotes plus two, and is the value in quotes when it holds none |
| ReportCsv.EscapeNoQuote | book-store-app/src/pages/ReportPage.jsx:196 | escaping leaves a text without quotes unchanged |
| ReportPage.TotalRevenueConcat | book-store-app/src/pages/ReportPage.jsx:136 | the total revenue of two category lists is the sum of their totals |
| ReportPage.TotalRevenueNonNegative | book-store-app/src/pages/ReportPage.jsx:136 | with no negative revenue the total is not negative |
| ReportPage.Clamp | book-store-app/src/pages/ReportPage.jsx:140 | the month index is between 1 and 12: a month in range is kept, a lower one is 1, a higher one 12 |
| ReportPage.UnnamedMonthIsZero | book-store-app/src/pages/ReportPage.jsx:137-142 | a month that no row names has revenue 0 |
| ReportPage.LastRowWins | book-store-app/src/pages/ReportPage.jsx:139-142 | a month holds the revenue of the last row that names it |
| ReportPage.BucketsNonNegative | book-store-app/src/pages/ReportPage.jsx:137-142 | with no negative revenue in the rows, no month is negative |
| ReportPage.ChartOf | book-store-app/src/pages/ReportPage.jsx:143 | the chart has twelve points named 1 to 12 in order |
| ReportPage.MonthlyChartData | book-store-app/src/pages/ReportPage.jsx:137-144 | filling the twelve-slot array row by row and naming the slots gives the chart of the rows |
| ReportPage.Insights | book-store-app/src/pages/ReportPage.jsx:146-171 | pushing the tips in turn gives the insight list of the inputs |
| ReportPage.InsightsOutcome | book-store-app/src/pages/ReportPage.jsx:146-171 | the list is never empty; the drop and loyalty tips appear exactly when their rule fires, the dominant-category tip for a named category exactly when the total revenue is positive, and the fallback exactly when no rule fires |
| ReportPage.DropComparesLastTwoMonths | book-store-app/src/pages/ReportPage.jsx:149-157 | with no negative month the drop rule compares month 12 with month 11, whatever the current month |
| ReportPage.ExportRows | book-store-app/src/pages/ReportPage.jsx:180-194 | the export holds the summary block, a blank row, the monthly heading, header and one row per chart point, a blank row, the category header and one row per category, in that order |
| TodaySalesPage.RevenueConcat | book-store-app/src/pages/TodaySalesPage.jsx:68-70 | the revenue of two lists of sales is the sum of their revenues |
| TodaySalesPage.Average | book-store-app/src/pages/TodaySalesPage.jsx:86 | the average times the number of transactions is the revenue, and 0 when there are none |
| TodaySalesPage.JsNumberDigits | book-store-app/src/pages/TodaySalesPage.jsx:81 | a plain digit string is read by `Number` as its value |
| TodaySalesPage.JoinedQuantity | book-store-app/src/pages/TodaySalesPage.jsx:76-82 | a quantity joined with ',' from two or more parts that are digit strings once trimmed (the API's ', ' joins) counts as the sum of the numbers |
| TodaySalesPage.SummaryTotals | book-store-app/src/pages/TodaySalesPage.jsx:67-74 | the summary's revenue and transaction count are those of the book and bundle sales together |
| TodaySalesPage.SummaryCustomers | book-store-app/src/pages/TodaySalesPage.jsx:88-103 | there are no more distinct customers than transactions |
| TodaySalesPage.CustomersBound | book-store-app/src/pages/TodaySalesPage.jsx:88-92 | the set of named customers is no larger than the list of sales |
| TodaySalesPage.Find | book-store-app/src/pages/TodaySalesPage.jsx:115 | the lookup finds the bucket's entry, or reports that no entry has the bucket's name |
| TodaySalesPage.StepBuckets | book-store-app/src/pages/TodaySalesPage.jsx:112-120 | adding one sale changes only its own bucket's count and revenue, by 1 and by its total |
| TodaySalesPage.AddToEntry | book-store-app/src/pages/TodaySalesPage.jsx:118-119 | adding a sale to its existing entry keeps every entry equal to its bucket's tally |
| TodaySalesPage.NewEntry | book-store-app/src/pages/TodaySalesPage.jsx:115-119 | opening an entry for a new bucket keeps every entry equal to its bucket's tally |
| TodaySalesPage.NoBucketNoSales | book-store-app/src/pages/TodaySalesPage.jsx:115-117 | a bucket with no entry holds none of the sales seen |
| TodaySalesPage.PaymentBreakdown | book-store-app/src/pages/TodaySalesPage.jsx:107-127 | one entry per payment label, each label once and every sale's label present, each with its bucket's count and revenue; the counts add up to the number of sales and the revenues to their total |
| TodaySalesPage.BreakdownMatchesSummary | book-store-app/src/pages/TodaySalesPage.jsx:67-127 | the breakdown's counts and revenues add up to the summary's transactions and revenue |
| TodaySalesPage.HourlyOf | book-store-app/src/pages/TodaySalesPage.jsx:144-152 | the chart has sixteen points, for the hours 7 to 22 |
| TodaySalesPage.HourlySales | book-store-app/src/pages/TodaySalesPage.jsx:129-153 | tallying by hour in a table and reading hours 7 to 22 gives the chart of the sales |
| TodaySalesPage.HourlyCountsOpeningHours | book-store-app/src/pages/TodaySalesPage.jsx:129-153 | the chart counts every sale made between 7:00 and 22:59 once and no other sale |
| TodaySalesPage.MissingMethodIsTunai | book-store-app/src/pages/TodaySalesPage.jsx:113-114 | a sale with no payment method falls in the "Tunai" bucket, together with the cash sales |
| AprioriEngine.AddId | apriori-service/apriori_engine.py:12 | adding an id to an increasing list keeps it increasing and adds exactly that id |
| AprioriEngine.GroupIds | apriori-service/apriori_engine.py:12 | the group keys are strictly increasing |
| AprioriEngine.GroupIdsCover | apriori-service/apriori_engine.py:12-26 | every row's sale id is a group key |
| AprioriEngine.GroupIdsFromRows | apriori-service/apriori_engine.py:12-26 | every group key is the sale id of some row |
| AprioriEngine.Dedup | apriori-service/apriori_engine.py:27 | the result holds each value once, and exactly the input's values |
| AprioriEngine.TitlesOutcome | apriori-service/apriori_engine.py:12 | a sale's title list has one entry per row of the sale, and holds exactly those rows' titles |
| AprioriEngine.ByBookOutcome | apriori-service/apriori_engine.py:6-17 | no rows give no lists; each kept list has more than one title and is one sale's title list; every sale with more than one row has its list kept |
| AprioriEngine.ByCategoryOutcome | apriori-service/apriori_engine.py:20-33 | no rows give no lists; each kept list has at least two categories, none twice, and holds exactly one sale's categories; every sale with more than one distinct category has its list kept |
| AprioriEngine.SortByLift | apriori-service/apriori_engine.py:68 | sorting keeps the rules as a permutation of the input |
| AprioriEngine.InsertByLiftSorted | apriori-service/apriori_engine.py:68 | inserting a rule into a list in non-increasing lift keeps it in non-increasing lift |
| AprioriEngine.SortByLiftSorted | apriori-service/apriori_engine.py:68 | the sorted rules are in non-increasing lift |
| AprioriEngine.RunApriori | apriori-service/apriori_engine.py:36-88 | fewer than two transactions give no rules without mining; otherwise the result is the top rules of what the mining returns |
| AprioriEngine.TopRulesOrdered | apriori-service/apriori_engine.py:64-84 | at most ten rules, as many as mined up to ten, in non-increasing lift, each one of the mined rules |
| AprioriEngine.TopRulesAreTop | apriori-service/apriori_engine.py:68-72 | no mined rule left out has a higher lift than a rule kept |
| AprioriEngine.PercentRange | apriori-service/apriori_engine.py:94 | a confidence between 0 and 1 gives a percentage between 0 and 100 |
| AprioriEngine.InsightStartsWithPercent | apriori-service/apriori_engine.py:91-99 | the sentence starts with the confidence percentage, which reads back as a number |
| AprioriEngine.BundleOf | apriori-service/apriori_engine.py:120-127 | a bundle's items are the antecedent followed by the consequent |
| AprioriEngine.GenerateRecommendations | apriori-service/apriori_engine.py:102-142 | the totals count every rule; each list holds the first five rules of its kind, in their order, each with its items and its sentence |

## Left out

- HTTP plumbing is not modelled: Express routing, status codes, the JSON body limit and multer upload filtering. Handlers return a `Result` whose error carries the status and message.
- MySQL itself is not modelled: the connection pool, SQL text, `ALTER TABLE`/`CREATE TABLE IF NOT EXISTS`, collation and column defaults. The tables are maps and sequences.
- `stock_history` may be missing. `ledgerEnabled` stands for whether the table exists; a ledger insert that fails for another reason is not modelled.
- A rollback is modelled as restoring a snapshot. Concurrent requests and row locking are out of scope: the model is sequential.
- AuthRoutes: bcrypt and JWT are not modelled. A hash is an uninterpreted value compared by equality, and signing and verifying are parameters.
- AuthRoutes: `GET /auth/me` and `GET /auth/users` are plain reads and are not modelled.
- BookRoutes: `GET /books`, `POST /books` and the category routes are plain reads and inserts, and are not modelled.
- Spreadsheets are not read: XLSX parsing is a foreign library. Rows arrive as cells that are text, numbers or dates, and a cell's `String()` rendering is a parameter.
- Calendar arithmetic is not modelled. "Now", the JavaScript `Date` constructor and `getHours` are inputs. A parsed date is its fields, and a serial date is milliseconds since 1899-12-30.
- Floating point is not modelled. Prices, ratios, similarity scores, confidence and lift are `real`. `toFixed`, `round(x, 4)`, `formatRupiah` and `toLocaleString` are left out. The CSV export's rendering of a number is a parameter.
- Strings are sequences of characters. Lower-casing is ASCII only, lengths count characters rather than UTF-16 units, and string ordering is code-point order rather than `localeCompare`.
- JavaScript object key order is not modelled. The import preview and the payment breakdown keep groups in the order they first occur; JavaScript would list integer-like keys first.
- AprioriEngine.Dedup: keeps first occurrences, where Python's `list(set(x))` has no specified order.
- AprioriEngine.SortByLift: a stable sort. pandas' default sort does not promise stability, so ties in lift may come out in another order.
- BookRoutes.StockHistory: rows with the same date are kept in insertion order; SQL `ORDER BY` leaves their order open.
- TransactionRoutes.DetailItems: the item query has no `ORDER BY`, and the model returns the rows in insertion order. So the "in order" of `TransactionRoutes.RecordedSaleDetail` holds for that order only. The same applies to the bundle item queries behind `BundleRoutes.ItemViews` and `BundleRoutes.JoinedItems`.
- TransactionRoutes.CustomerById: the LEFT JOIN could pair a header with several customer rows of one id, and the route takes the first row SQL returns; the model takes the first in table order. The route gives out customer ids from one counter, so this does not arise.
- ImportPreview.ExistingId: the lookup of an existing order has no `ORDER BY`, and when several headers carry the number the route takes whichever SQL returns first; the model takes a header with the number found by a fixed search.
- ImportConfirm.ConfirmErrors: each entry of `errors` is modelled as the order number only; the route pushes an object that also carries the caught error's message.
- BundlePage.MarkStore.QuickAdd: `formData.items.sort()` sorts in place the item array its caller passed, which is the recommendation's own list, so that list is left sorted. The model computes the sorted key on a value and does not capture this aliasing.
- Apriori mining is not modelled: the one-hot encoding, `apriori` and `association_rules` of mlxtend. `AprioriEngine.RunApriori` takes the mining as a function parameter; `None` stands for an empty result or an exception.
- TransactionPage.Draft.AddItem: the typed quantity must parse as an integer. For text such as ".5", `Math.max(1, NaN)` gives NaN and the stock comparison lets it through; the input's blur handler normalises the text before it is used (`TransactionPage.NormalisedQuantityParses`).
- The remaining UI is not modelled: rendering, charts, modals, `localStorage` beyond the stored token, timers and auto-refresh, Blob downloads, `window.print` and the axios calls. Their results are inputs.
- CategoryCombobox: the click-outside and focus handlers only toggle the panel and are not modelled.
- BundleRoutes.SellBundle: sells under the corrected stock check. The route tests each joined row alone (stock < quantity × n); the model also refuses when a book's stock is below its demand over all of the bundle's rows. Both agree when the rows name distinct books (`BundleRoutes.SellRefusalAgrees`); the route's own check is `BundleRoutes.SellRefusalAsWritten`.
- BundleRoutes.SellEffect: uses the corrected stock check, as `BundleRoutes.SellBundle` does.
- BundleRoutes.FirstShort: the loop runs the route's per-row test and the cumulative test together.
- BundleRoutes.FirstShortFrom: specifies the corrected scan; the route's scan is `BundleRoutes.FirstShortAloneFrom`.
- BundleRoutes.DemandCovered: holds for the corrected check only; the route's check does not ensure it (`BundleRoutes.AsWrittenDrivesStockNegative`).
- Database.LogFails: the table definitions are not part of this model. The model assumes that `stock_history.book_id` and `transaction_items.book_id` are foreign keys to `books` (the only trace in the routes is the `ER_ROW_IS_REFERENCED_2` case of a book delete), that `bundle_items.bundle_id` is a foreign key to `bundles`, and that `bundle_items.book_id` is not one. `Database.ItemFails` and `Database.BundleItemFails` rest on the same assumption, and so do `TransactionRoutes.SaleSucceedsIff`, `ImportConfirm.LineStep` and `ImportConfirm.ImportLinesEffect` (a line naming a missing book fails), and `BookRoutes.DeleteBook` (a forced delete always succeeds).
- ImportPreview.Preview: the catalogues are the results of the books query and the active-bundles query, which have no `ORDER BY`; the model takes them in any order, and a tie in score goes to the earliest entry of that order. The percentage is `Math.round` taken on real numbers.
- BookRoutes.StockOut: `create_transaction` is modelled by its truthiness, a boolean.
- BookRoutes.DeleteBook: the `force` query parameter is absent or one string; a repeated parameter, which Express parses as an array that `String` joins with commas, is not modelled.
- AuthRoutes.UpdateUser: `is_active` is modelled as a boolean. A client that sends the database's numeric 0 is not caught by the `=== false` self-deactivation test, and MySQL stores it as inactive; the model does not capture this path.
- Bundle sale writes columns that do not exist (`books.stock`, and `stock_history` columns). These are not modelled; the model uses `stock_qty` and the ledger's own columns.

## Findings

| source | as written | input that shows it | evidently intended | confidence | as-written member | corrected member |
|---|---|---|---|---|---|---|
| book-store-api/routes/bundleRoutes.js:193-214 | each joined bundle row is checked alone against the book's stock, read before any decrement | with the SELECT's `bk.stock` read as `stock_qty` (as written the column does not exist and the route fails with 500 first): a bundle listing book 1 in two rows of quantity 1, book 1 with stock 1, selling 1 bundle: both rows pass and book 1 ends at −1 | a sale is refused when a row is short alone, as now, or when a book's stock is below its total demand over all of the bundle's rows, so no touched stock goes negative | not executed | BundleRoutes.AsWrittenDrivesStockNegative | BundleRoutes.SellStock |
