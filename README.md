# Rental inventory system: a verified model of the rental, payment and finance logic

This project models, in Dafny, the parts of the rental inventory system that change or aggregate its data:

- The route handlers:
  - `POST`/`GET /api/rentals` creates a rental and decrements item stock, or lists rentals with their payments.
  - `POST`/`GET /api/payments` records or lists payments.
  - `POST`/`GET /api/inventory` creates or lists items.
  - `GET /api/finance/stats` computes the four dashboard figures.
- The client logic of the dashboard pages:
  - the "New Rental" draft editor;
  - the rental list's balances, counters and status change;
  - the finance page's six-month chart, payment-method chart and average;
  - the search boxes, badge colours and add/edit dialogs of the inventory and customers pages.

The data (items, customers, rentals with their lines, payments) are Dafny datatypes. Money is integer cents.

The database is the class `Store.Database`. It has one `seq` table per model and unique ids. It performs the Prisma calls the routes make:

- each `create` fails on a taken id;
- the `availableQty` decrement fails on an unknown id.

The POST handlers are methods that modify it; the GET handlers are functions of its tables. The pages' pure computations are functions. Two pieces keep the source's imperative form:

- the in-place line edit of the draft editor is a class method;
- the two chart loops of the finance page are methods with loop invariants.

Each is proved against a specification function.

The model follows the code as written. In particular:

- `POST /api/rentals` checks no stock. It decrements `availableQty` one line at a time, with no transaction. A failing decrement leaves the rental row and the earlier decrements in place (`RentalsRoute.Post`, `RentalsRoute.NoStockCheck`).
- The rental's `totalAmount` and each line's `subtotal` are stored as the client sent them. Nothing recomputes them (`RentalsRoute.AmountsStoredAsSupplied`).
- The dashboard's pending amount and the rental list's "paid" column count payments of every status, not only `PAID` ones. Nothing is clamped at zero (`FinanceStats.PendingNotClamped`, `RentalsPage.TotalPaidIgnoresStatus`).
- The payment and item handlers validate nothing. Amounts and quantities may be zero or negative.

Modules, one per source file, plus shared ones:

| module | models |
|---|---|
| `Optional`, `Seqs`, `Text`, `Calendar`, `Http` | JavaScript's `||` defaults, `filter`/`slice`, `toLowerCase`/`includes`, `Date` months and `orderBy: { createdAt: 'desc' }`, the session and the JSON response |
| `Entities`, `Store` | the records and the database tables |
| `RentalsRoute`, `PaymentsRoute`, `InventoryRoute`, `FinanceStats` | the four route files |
| `NewRentalPage`, `RentalsPage`, `FinancePage`, `InventoryPage`, `CustomersPage` | the five dashboard pages |

## Model

| member | source | states |
|---|---|---|
| Optional.StringOr | app/api/payments/route.ts:50 | `s || fallback` on a string: a present non-empty value wins, absence and `""` give the fallback |
| Optional.NumberOrZero | app/api/rentals/route.ts:59 | `n || 0`: a present number is kept (a 0 stays 0), absence gives 0 |
| Text.Lower | app/dashboard/inventory/page.tsx:53-54 | `toLowerCase` keeps the length and lower-cases each character |
| Text.ContainsIffOccurs | app/dashboard/inventory/page.tsx:53-54 | `includes` holds exactly when the needle occurs at some position of the string |
| Text.ContainsEmpty | app/dashboard/customers/page.tsx:44 | every string includes the empty string |
| Text.DecimalRoundTrip | app/api/rentals/route.ts:49 | the decimal rendering of a number inside a template literal reads back as that number |
| Text.DecimalInjective | app/api/rentals/route.ts:49 | distinct numbers render as distinct strings |
| Seqs.Filter | app/dashboard/inventory/page.tsx:52-55 | `filter` keeps exactly the elements satisfying the predicate and never lengthens the list |
| Seqs.FilterIsSubsequence | app/dashboard/customers/page.tsx:43-47 | the result of `filter` is an order-preserving subsequence of its input |
| Seqs.RemoveAt | app/dashboard/rentals/new/page.tsx:103 | `filter((_, i) => i !== index)` removes exactly the element at `index`, and nothing when `index` is out of range |
| Seqs.Take | app/dashboard/finance/page.tsx:369 | `slice(0, n)` is the first `min(n, length)` elements |
| Calendar.SortNewestFirst | app/api/payments/route.ts:28 | `orderBy: { createdAt: 'desc' }` returns a permutation of the rows in which every row is at least as new as every later one |
| Calendar.AtOrAfterStartOf | app/api/finance/stats/route.ts:47-57 | `createdAt >= ` 00:00 on day 1 of the month holds exactly for instants in that month or later |
| Calendar.MonthsBefore | app/dashboard/finance/page.tsx:113-116 | the month meant by "`i` months before now" is exactly `i` months earlier, across year boundaries |
| Calendar.MonthsBeforeAsWrittenRepeatsMonth | app/dashboard/finance/page.tsx:113-116 | as written, on 31 March both `i = 1` and `i = 0` give March, and both `i = 4` and `i = 3` give December, where February and November were meant |
| Calendar.MonthsBeforeAsWrittenEarlyInMonth | app/dashboard/finance/page.tsx:113-116 | up to the 28th, `setMonth(getMonth() - i)` gives the intended month for every `i` |
| Entities.SumAmountsAppend | app/api/finance/stats/route.ts:20 | the `reduce` sum of amounts over two lists together is the sum of their sums |
| Entities.SumFilterDisjoint | app/api/finance/stats/route.ts:34-37 | summing a filter that is the union of two exclusive filters adds the two sums |
| Entities.SumFilterMonotone | app/api/finance/stats/route.ts:51-59 | with non-negative amounts, a stricter filter never sums to more |
| Store.IndexOfItem | app/dashboard/rentals/new/page.tsx:84 | the first row with the id, if any; none exactly when no row has it |
| Store.Database.CreateItem | app/api/inventory/route.ts:32-43 | `inventoryItem.create` appends the row exactly when its id is new, and keeps ids unique and the other tables unchanged |
| Store.Database.CreateRental | app/api/rentals/route.ts:52-80 | `rental.create` appends the rental exactly when its id is new; nothing else changes |
| Store.Database.CreatePayment | app/api/payments/route.ts:45-58 | `payment.create` appends the payment exactly when its id is new; nothing else changes |
| Store.Database.DecrementAvailable | app/api/rentals/route.ts:84-91 | `availableQty: { decrement }` succeeds exactly when the id exists, lowers that row by the amount with no lower bound, and changes nothing else |
| RentalsRoute.RentalNumber | app/api/rentals/route.ts:49 | `RNT-` followed by the clock reading's decimal digits |
| RentalsRoute.RentalNumbersDistinct | app/api/rentals/route.ts:49 | rentals created at different clock readings get different numbers |
| RentalsRoute.NewRental | app/api/rentals/route.ts:52-70 | the row written: deposit `|| 0`, status `|| 'PENDING'`, the caller as creator, the amounts and lines as supplied |
| RentalsRoute.AmountsStoredAsSupplied | app/api/rentals/route.ts:58-68 | a total that disagrees with the lines, and a subtotal that is not quantity times price, are both stored unchanged |
| RentalsRoute.DecrementAllEffect | app/api/rentals/route.ts:83-92 | after the loop each item's `availableQty` is lower by the total quantity of its lines, and nothing else changes |
| RentalsRoute.DecrementAllKeepsIds | app/api/rentals/route.ts:83-92 | the decrements change no item id |
| RentalsRoute.NoStockCheck | app/api/rentals/route.ts:83-92 | a line for 2 units of an item with 1 available leaves it at -1 |
| RentalsRoute.FirstUnknownLine | app/api/rentals/route.ts:83-92 | the first line, in order, whose item is missing; none when every line's item exists |
| RentalsRoute.FirstUnknownLineAt | app/api/rentals/route.ts:83-92 | the first unknown line is the first index whose item is missing after all earlier ones were found |
| RentalsRoute.DecrementLines | app/api/rentals/route.ts:83-92 | the loop succeeds exactly when every line's item exists; it applies the decrements in order and stops at the first unknown item, keeping the earlier ones |
| RentalsRoute.Post | app/api/rentals/route.ts:38-98 | 401 without a session and nothing changes; otherwise the rental is appended, then the stock is decremented; 200 only when every line's item exists, 500 with the rental and the earlier decrements kept otherwise |
| RentalsRoute.Views | app/api/rentals/route.ts:14-31 | each listed rental comes with exactly the payments recorded against it, of any status |
| RentalsRoute.Get | app/api/rentals/route.ts:6-31 | 401 without a session; otherwise every rental once, newest first, each with its payments |
| PaymentsRoute.NewPayment | app/api/payments/route.ts:45-54 | the row written: status `|| 'PAID'`, the caller as recorder, the other fields as supplied |
| PaymentsRoute.Get | app/api/payments/route.ts:6-29 | 401 unless the caller is an administrator; otherwise every payment once, newest first |
| PaymentsRoute.Post | app/api/payments/route.ts:36-62 | 401 without a session and nothing changes; otherwise exactly one payment is appended, or a 500 with nothing appended when the id is taken; items and rentals never change |
| InventoryRoute.NewItem | app/api/inventory/route.ts:32-43 | a new item starts with `availableQty == quantity`; status `|| 'AVAILABLE'`; the other fields as supplied |
| InventoryRoute.AvailableQtyInBodyIgnored | app/api/inventory/route.ts:37-38 | whatever `availableQty` the request carries, the created item is the same |
| InventoryRoute.NewItemWithinStock | app/api/inventory/route.ts:37-38 | with a non-negative quantity a new item has `0 <= availableQty <= quantity` |
| InventoryRoute.Get | app/api/inventory/route.ts:6-17 | 401 without a session; otherwise every item once, newest first |
| InventoryRoute.Post | app/api/inventory/route.ts:23-47 | 401 without a session and nothing changes; otherwise exactly one item is created, or a 500 with nothing created when the id is taken |
| FinanceStats.Get | app/api/finance/stats/route.ts:6-66 | 401 exactly for non-administrators; the active count never exceeds the number of rentals |
| FinanceStats.RevenuePartition | app/api/finance/stats/route.ts:14-20 | total revenue plus the sum of the non-`PAID` payments is the sum of all payments |
| FinanceStats.MonthlyAtMostTotal | app/api/finance/stats/route.ts:46-59 | with non-negative paid amounts, the current month's revenue never exceeds the total revenue |
| FinanceStats.UnpaidPaymentKeepsRevenue | app/api/finance/stats/route.ts:14-20 | a payment that is not `PAID` leaves the total revenue unchanged |
| FinanceStats.ActiveCountAfterAppend | app/api/finance/stats/route.ts:39-44 | a new `ACTIVE` rental adds one to the active count; any other status adds nothing |
| FinanceStats.OpenBalanceSplit | app/api/finance/stats/route.ts:34-37 | the pending `reduce` equals the open rentals' totals minus the payments recorded against them |
| FinanceStats.PaidAgainstDistinct | app/api/finance/stats/route.ts:34-37 | with unique rental ids, the per-rental payment sums add up to the sum of the payments against any of those rentals |
| FinanceStats.PendingAmountFormula | app/api/finance/stats/route.ts:23-37 | the pending amount is the `PENDING`/`ACTIVE` rentals' totals minus every payment, of any status, recorded against one of them |
| FinanceStats.PendingAfterPayment | app/api/finance/stats/route.ts:23-37 | recording a payment of any status lowers the pending amount by its amount when its rental is open, and leaves it unchanged otherwise |
| FinanceStats.PendingNotClamped | app/api/finance/stats/route.ts:34-37 | an overpaid pending rental makes the pending amount negative |
| NewRentalPage.Selectable | app/dashboard/rentals/new/page.tsx:55 | the selectable items are exactly the fetched ones with `availableQty > 0`, in their order |
| NewRentalPage.AddLine | app/dashboard/rentals/new/page.tsx:64-77 | no change without selectable items; otherwise the old lines plus one line for the first item at quantity 1 and its daily price, consistent |
| NewRentalPage.Edited | app/dashboard/rentals/new/page.tsx:79-97 | the item select takes the first matching item's name and daily price and keeps the quantity, or changes nothing for an unknown id; the quantity and price inputs set their field; other field names change nothing; `subtotal == quantity * pricePerUnit` is kept |
| NewRentalPage.SubmittedLines | app/dashboard/rentals/new/page.tsx:142-147 | each submitted line is the draft line without its name |
| NewRentalPage.NewRentalForm.constructor | app/dashboard/rentals/new/page.tsx:38-45 | the page starts with no items, no lines, empty fields and a zero deposit |
| NewRentalPage.NewRentalForm.FetchItems | app/dashboard/rentals/new/page.tsx:52-56 | the page's items become the in-stock fetched items |
| NewRentalPage.NewRentalForm.AddRentalItem | app/dashboard/rentals/new/page.tsx:64-77 | the lines become `AddLine` of the old ones; consistency is kept |
| NewRentalPage.NewRentalForm.UpdateRentalItem | app/dashboard/rentals/new/page.tsx:79-100 | the line at `index` is edited in place to `Edited` of the old line; every other line and the length stay; consistency is kept |
| NewRentalPage.NewRentalForm.RemoveRentalItem | app/dashboard/rentals/new/page.tsx:102-104 | the lines lose exactly the one at `index`; consistency is kept |
| NewRentalPage.NewRentalForm.HandleSubmit | app/dashboard/rentals/new/page.tsx:110-148 | nothing is sent exactly when no customer is selected or there are no lines; otherwise the form's fields, the sum of the subtotals as total, and the lines |
| NewRentalPage.TotalAppend | app/dashboard/rentals/new/page.tsx:106-108 | the total of two lists of lines is the sum of their totals |
| NewRentalPage.TotalAfterAdd | app/dashboard/rentals/new/page.tsx:64-77 | adding a line raises the total by the first selectable item's daily price |
| NewRentalPage.TotalAfterReplace | app/dashboard/rentals/new/page.tsx:79-100 | editing one line changes the total by the difference of its subtotals |
| NewRentalPage.TotalAfterRemove | app/dashboard/rentals/new/page.tsx:102-104 | removing a line lowers the total by its subtotal; an out-of-range index changes nothing |
| NewRentalPage.TotalOfConsistent | app/dashboard/rentals/new/page.tsx:106-108 | for consistent lines the total is the sum of quantity times unit price |
| NewRentalPage.SubtotalsSubmitted | app/dashboard/rentals/new/page.tsx:139-147 | the subtotals the server stores add up to the total the form sends |
| NewRentalPage.SubmittedDraftStored | app/dashboard/rentals/new/page.tsx:132-148 | a submitted draft is stored as a `PENDING` rental with the form's customer and deposit, whose total equals the sum of its stored lines' subtotals |
| RentalsPage.TotalPaid | app/dashboard/rentals/page.tsx:81-83 | a rental with no payments has paid 0 |
| RentalsPage.TotalPaidIgnoresStatus | app/dashboard/rentals/page.tsx:81-83 | every payment raises the paid amount by its amount, whatever its status |
| RentalsPage.OpenBalanceIsBalanceSum | app/dashboard/rentals/page.tsx:237-238 | the dashboard's open balance of a list of rentals is the sum of the balances this page shows for them |
| RentalsPage.PendingIsSumOfBalances | app/dashboard/rentals/page.tsx:237-238 | the dashboard's pending amount is the sum of the balances of the `PENDING` and `ACTIVE` rentals |
| RentalsPage.SeedRentalSettled | prisma/seed.ts:120-158 | the sample rental (2 x 50.00 + 50 x 2.50 + 6 x 15.00 = 315.00) paid by one payment of 315.00 has balance 0 |
| RentalsPage.StatusColor | app/dashboard/rentals/page.tsx:71-79 | a known status gets its colour, any other status the `PENDING` colour |
| RentalsPage.StatusColors | app/dashboard/rentals/page.tsx:71-79 | an unknown status looks like `PENDING`; the four known statuses have four different colours |
| RentalsPage.StatusCount | app/dashboard/rentals/page.tsx:185 | a status counter never exceeds the number of rentals |
| RentalsPage.CountsPartitionTotal | app/dashboard/rentals/page.tsx:178-201 | the three counters plus the rentals of other statuses make up the total, so the counters never add up to more than it |
| RentalsPage.OpenEditDialog | app/dashboard/rentals/page.tsx:85-89 | the dialog opens on the rental with its current status selected |
| RentalsPage.UpdateStatusRequest | app/dashboard/rentals/page.tsx:91-102 | nothing without a rental; otherwise `PUT /api/rentals/{id}` with the selected status, and a return date and `returnItems` exactly when the status is `COMPLETED` |
| RentalsPage.UnchangedDialogResendsStatus | app/dashboard/rentals/page.tsx:85-102 | saving unchanged resends the rental's status and asks for the items back only if it is already `COMPLETED` |
| FinancePage.ProcessMonthlyData | app/dashboard/finance/page.tsx:108-141 | six entries, oldest first; entry `k` is the `PAID` revenue and the rental count of the month `5 - k` months before now |
| FinancePage.LastIsCurrentMonth | app/dashboard/finance/page.tsx:112-116 | the last entry (`i = 0`) is the current month |
| FinancePage.MonthAtMostTotal | app/dashboard/finance/page.tsx:118-125 | with non-negative paid amounts, a month's bar never exceeds the total revenue |
| FinancePage.CurrentMonthMatchesStats | app/dashboard/finance/page.tsx:118-125 | with no payment dated after the current month, its bar equals the dashboard's monthly revenue |
| FinancePage.MonthRentalsAfterAppend | app/dashboard/finance/page.tsx:127-131 | a new rental adds one to the bar of its month, whatever its status |
| FinancePage.FirstUses | app/dashboard/finance/page.tsx:146-150 | the methods of a list of payments in the order they first appear: each used method exactly once, and no other |
| FinancePage.AddUp | app/dashboard/finance/page.tsx:146-150 | after the `forEach`, the keys are exactly `FirstUses` of the payments (each method once, in first-use order), each maps to the sum of its payments, and they add up to the sum of all |
| FinancePage.TallyKnown | app/dashboard/finance/page.tsx:149 | adding a payment of a method already present keeps the tally correct |
| FinancePage.TallyNew | app/dashboard/finance/page.tsx:149 | adding a payment of a new method appends its key and keeps the tally correct |
| FinancePage.MethodSumIsFilter | app/dashboard/finance/page.tsx:146-150 | adding up in list order gives the sum of the method's payments |
| FinancePage.ShareSumIsKeySum | app/dashboard/finance/page.tsx:152-155 | the chart's segments add up to the tally |
| FinancePage.SharesAreMethodTotals | app/dashboard/finance/page.tsx:152-155 | each segment's value is the sum of the `PAID` payments of its method |
| FinancePage.PaidMethods | app/dashboard/finance/page.tsx:146-150 | a method is in the tally exactly when some `PAID` payment uses it |
| FinancePage.ProcessPaymentMethodData | app/dashboard/finance/page.tsx:143-158 | one segment per method, in the order the methods first appear among the `PAID` payments, names distinct; a method appears exactly when some `PAID` payment uses it; its value is the sum of those payments; the segments add up to the total revenue |
| FinancePage.AverageTransaction | app/dashboard/finance/page.tsx:425 | 0 without payments; otherwise the total revenue divided by the number of payments of every status |
| FinancePage.AverageCountsUnpaid | app/dashboard/finance/page.tsx:425 | a `PAID` and a `PENDING` payment of 100.00 average 50.00 |
| FinancePage.RecentPayments | app/dashboard/finance/page.tsx:369 | the table shows the first ten payments of the list, or all when there are fewer |
| InventoryPage.FilteredItems | app/dashboard/inventory/page.tsx:52-56 | the shown items are an order-preserving subsequence of the list, and an item is shown exactly when the lower-cased term occurs in its lower-cased name or category |
| InventoryPage.EmptyTermKeepsAll | app/dashboard/inventory/page.tsx:52-55 | an empty search term shows every item |
| InventoryPage.SearchIgnoresCase | app/dashboard/inventory/page.tsx:53-54 | the term's case does not matter |
| InventoryPage.LongerTermNarrows | app/dashboard/inventory/page.tsx:52-55 | typing more characters never shows an item that was hidden |
| InventoryPage.CategoryBadgeColor | app/dashboard/inventory/page.tsx:167-176 | a known category gets its colour, any other the `OTHER` colour |
| InventoryPage.CategoryColors | app/dashboard/inventory/page.tsx:167-176 | an unknown category looks like `OTHER`; the five known categories have five different colours |
| InventoryPage.StatusBadgeColor | app/dashboard/inventory/page.tsx:178-186 | a known status gets its colour, any other the `AVAILABLE` colour |
| InventoryPage.StatusColors | app/dashboard/inventory/page.tsx:178-186 | an unknown status looks like `AVAILABLE`; the four known statuses have four different colours |
| InventoryPage.ResetForm | app/dashboard/inventory/page.tsx:76-88 | empty name and description, category `CANOPY`, status `AVAILABLE`, one unit available of one, zero prices, editing nothing |
| InventoryPage.OpenEditDialog | app/dashboard/inventory/page.tsx:90-103 | the item is copied into the form, an absent description as `""`, an absent weekly price as 0, and the dialog opens on it |
| InventoryPage.SubmitRequest | app/dashboard/inventory/page.tsx:109-116 | `PUT /api/inventory/{id}` when editing, `POST /api/inventory` otherwise, with the form as body |
| InventoryPage.ResetFormPostsDefaultItem | app/dashboard/inventory/page.tsx:76-88 | after a reset, saving creates one available `CANOPY` unit priced 0 |
| InventoryPage.PostedFormStartsFullyAvailable | app/dashboard/inventory/page.tsx:109-116 | a posted form creates an item with all its units available, whatever the form's available count; an empty status becomes `AVAILABLE` |
| InventoryPage.UnchangedEditResendsItem | app/dashboard/inventory/page.tsx:90-116 | saving an item unchanged sends it to its own URL with its own fields, an absent description as `""` and an absent weekly price as 0 |
| CustomersPage.FilteredCustomers | app/dashboard/customers/page.tsx:43-48 | the shown customers are an order-preserving subsequence of the list, and a customer is shown exactly when the search matches |
| CustomersPage.EmptyTermKeepsAll | app/dashboard/customers/page.tsx:43-47 | an empty search term shows every customer |
| CustomersPage.NoEmailMatchesNameOrPhone | app/dashboard/customers/page.tsx:46 | a customer without an email is shown exactly when the name or the phone matches |
| CustomersPage.PhoneSearchIsCaseSensitive | app/dashboard/customers/page.tsx:44-45 | the phone is searched as typed while the name ignores case |
| CustomersPage.ResetForm | app/dashboard/customers/page.tsx:68-76 | four empty fields, editing nothing |
| CustomersPage.OpenEditDialog | app/dashboard/customers/page.tsx:78-86 | name and phone copied, an absent email or address as `""`, and the dialog opens on the customer |
| CustomersPage.SubmitRequest | app/dashboard/customers/page.tsx:93-100 | `PUT /api/customers/{id}` when editing, `POST /api/customers` otherwise, with the form as body |
| CustomersPage.ResetFormPosts | app/dashboard/customers/page.tsx:68-100 | after a reset, saving posts four empty fields |
| CustomersPage.UnchangedEditResendsCustomer | app/dashboard/customers/page.tsx:78-100 | saving a customer unchanged sends it to its own URL with its own fields, an absent email or address as `""` |

## Findings

| source | as written | input that shows it | evidently intended | confidence | as-written member | corrected member |
|---|---|---|---|---|---|---|
| app/dashboard/finance/page.tsx:113-116 | `date.setMonth(date.getMonth() - i)` on today's date keeps the day of the month, and a day the target month lacks runs over into the next month | today is 31 March 2025: `i = 1` gives 3 March and `i = 4` gives 1 December, so the chart reads Oct, Dec, Dec, Jan, Mar, Mar, with no November and no February | the month `i` months before the current one | high (reasoned from the `Date` semantics, not executed) | Calendar.MonthsBeforeAsWrittenRepeatsMonth | Calendar.MonthsBefore |

`FinancePage.ProcessMonthlyData` uses the intended month. `Calendar.MonthsBeforeAsWrittenEarlyInMonth` proves that the code as written agrees with it up to the 28th of the month.

## Left out

- Database I/O, Prisma's `include` joins (customer, item and creator records), and the `error` bodies of the JSON responses. Failures are the single response `ServerError`.
- Foreign keys: the schema file is not part of this model. Creating a rental or payment does not check that the customer, item or rental exists. Only the item decrement fails on an unknown id.
- Sessions beyond "absent, or a user id and role". The page redirects for non-administrators (the finance page and the layouts) are not modelled.
- Concurrent requests. Two rentals racing for the same item are not a sequential property.
- Time: the clock is a parameter. A `Date` is a (year, month, offset) instant; time zones are not modelled.
- Floating point: money is integer cents, and the average transaction is a `real`. `parseInt`/`parseFloat` of the inputs (NaN, truncation), `toFixed` and `formatCurrency` are not modelled.
- JSX rendering, charts, toasts, routing, loading flags and the `useState`/`useEffect` plumbing.
- `app/layout.tsx`, `app/dashboard/layout.tsx` and `app/api/customers/route.ts`: the customers route only copies the fields after a session check.
- The `/api/*/[id]` handlers: the update and delete of rentals, items and customers. Only the request the rentals page sends is modelled.
- The item and customer delete buttons: they are a confirmation prompt and a `DELETE` request.
- `prisma/seed.ts`: its sample rental appears only as the test vector `RentalsPage.SeedRentalSettled`.
- Calendar.SortNewestFirst: the database may order rows with equal `createdAt` either way; the model fixes one order.
- RentalsRoute.RentalNumber: two rentals created in the same millisecond get the same number. Nothing in the model makes rental numbers unique.
- Text.Lower: lower-cases ASCII letters only. JavaScript also lower-cases other scripts.
- RentalsPage.StatusColor, InventoryPage.CategoryBadgeColor, InventoryPage.StatusBadgeColor: a key such as `constructor` finds a property of the JavaScript object prototype. The model treats it as unknown.
- FinancePage.ProcessPaymentMethodData: a payment method named like an inherited property of a plain object breaks the source's tally. With `constructor`, `methodCounts[m] || 0` reads the inherited function and the sum becomes a string concatenation. With `__proto__`, the assignment sets the prototype and the method is dropped. The model treats every name as an ordinary key.
- FinancePage.ProcessPaymentMethodData: `Object.entries` lists integer-like keys (e.g. a method named `"1"`) before the others. The model keeps first-use order for every key.
- NewRentalPage.NewRentalForm.UpdateRentalItem: the line object is shared with the previous React state and mutated in place. The model replaces the line in the sequence, so that aliasing is not captured.
