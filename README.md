# Personal finance manager: a Dafny model of its core

The system is a personal finance manager. Users register and sign in, then:

- record debit and credit transactions;
- set a monthly limit per spending category;
- keep recurring payments with calendar reminders;
- hold gold, stock and currency assets;
- see zakat and income-tax summaries;
- ask a keyword chat assistant for advice.

An Express backend keeps the data in PostgreSQL. A React client with a Redux store shows it.

This project models the decision logic of that system in Dafny and proves what it promises. There is one module per source file of the core:

- **Backend controllers and the asset service**: the tax brackets, the zakat threshold, validation, the budget upsert, the dashboard figures, and the calendar and recurring-payment tables. The database tables are fields of a class. Each handler is a method that returns the HTTP status and body it would send.
- **Client store slices**: each Redux slice is a class. Each reducer case (pending, fulfilled, rejected) is a method. Server answers are parameters.
- **Pages and components**: their handlers, their guards, the payloads they build and their display rules.

A few shared modules hold the JavaScript behaviour the core relies on:

- `Js`: Math.round, ASCII-only case mapping, trim, includes, number text;
- `Dates`, `IsoTime`: the proleptic Gregorian calendar, `getDay`, and `toISOString` with its inverse;
- `NumberText`: parseFloat, toFixed;
- `Grouping`, `Sorting`, `Lists`, `Tables`: group-by reduce, `ORDER BY`, filter by index, `SELECT ... LIMIT 1`.

Conventions:

- Money is `real`.
- A number that JavaScript could hold as NaN is `Option<real>`, with `None` for NaN.
- Instants are milliseconds on one local time line.
- The clock, random draws, prices and exchange rates, and every network reply are parameters.

## Model

| member | source | states |
|---|---|---|
| ZakatTaxController.CalculateAssetTotalsByType | backend/src/controllers/zakatTaxController.ts:32-63 | each asset's value is added to the total and to the one bucket (gold, cash, stock, currency) that its lower-cased type name selects; an unknown type adds to the total only |
| ZakatTaxController.TotalIsSumOfBuckets | backend/src/controllers/zakatTaxController.ts:41-60 | the total is the sum of the four buckets plus the assets of unknown types: every value is counted exactly once |
| ZakatTaxController.CalculateTax | backend/src/controllers/zakatTaxController.ts:65-97 | the tax of the six-bracket chain equals the marginal definition (each rate applied only to its slice of income); the rate is 0 exactly for incomes up to 600000 |
| ZakatTaxController.TaxContinuousAtBoundaries | backend/src/controllers/zakatTaxController.ts:70-94 | at 600000, 1200000, 2400000, 3600000 and 6000000 the formula of the bracket above gives the same tax as the one below |
| ZakatTaxController.TaxMonotone | backend/src/controllers/zakatTaxController.ts:70-94 | more income never means less tax, and tax is never negative |
| ZakatTaxController.TaxBelowTopRate | backend/src/controllers/zakatTaxController.ts:74-94 | the tax is below 35% of the income above the exempt 600000 |
| ZakatTaxController.NisaabThreshold | backend/src/controllers/zakatTaxController.ts:99-120 | the threshold is the latest tola price times 7.5; with no price row it is the error "Gold price not available" |
| ZakatTaxController.ZakatPayable | backend/src/controllers/zakatTaxController.ts:159-162 | zakat is 2.5% of the total when the total reaches the threshold, else exactly 0 |
| ZakatTaxController.ZakatMonotone | backend/src/controllers/zakatTaxController.ts:159-162 | for a fixed threshold, holding more (non-negative) assets never lowers the zakat |
| ZakatTaxController.TaxDueDate | backend/src/controllers/zakatTaxController.ts:165-167 | the due date is 31 July of the year after the current July-June fiscal year's start, and it lies after today |
| ZakatTaxController.CeilDiv | backend/src/controllers/zakatTaxController.ts:169 | Math.ceil of a division by a positive divisor: the least whole multiple not below the dividend |
| ZakatTaxController.DaysRemaining | backend/src/controllers/zakatTaxController.ts:168-169 | days_remaining is the count of calendar days from today to the due date, at least 1, so the clamp at 0 never applies |
| ZakatTaxController.GetZakatAndTaxSummary | backend/src/controllers/zakatTaxController.ts:145-214 | a falsy user id gets 401 before anything else; a missing price row is a server error; otherwise the summary carries the total and the cash, gold, currency and stock bucket sums, the threshold, the nisaab status and its basis (assets or none), the zakat, the income summed over the fixed 2024-07-01 to 2025-07-01 window (0 for NULL), its marginal tax with bracket and rate, the status and basis of the tax, the due date 31 July after the current fiscal year's start, and the calendar days left until it, at least 1 |
| AuthController.MissingRegisterFields | backend/src/controllers/authController.ts:22-25 | the missing-field list holds exactly the empty ones among full name, email and password, in that fixed order; it is empty iff all three are given |
| AuthController.MissingLoginFields | backend/src/controllers/authController.ts:104-106 | the login list holds exactly the empty ones among email and password, in that order |
| AuthController.FirstAt | backend/src/controllers/authController.ts:33 | the position of the first '@', or none when the address holds no '@' |
| AuthController.EmailCheckMatchesPattern | backend/src/controllers/authController.ts:33-34 | the model's e-mail check accepts exactly the strings the pattern `^[^\s@]+@[^\s@]+\.[^\s@]+$` matches (both directions) |
| AuthController.AcceptedEmailMatches | backend/src/controllers/authController.ts:33-34 | an accepted address splits into a plain local part, '@', a plain run, '.', and a plain run |
| AuthController.MatchedEmailAccepted | backend/src/controllers/authController.ts:33-34 | every address the pattern matches is accepted |
| AuthController.PasswordIssues | backend/src/controllers/authController.ts:39-52 | the issues are a length below 8 UTF-16 code units (as `.length` counts, an astral character counting two), no digit, no uppercase, no lowercase, each present iff its rule fails, in that order; the password is accepted iff the list is empty |
| AuthController.AstralPasswordIsLongEnough | backend/src/controllers/authController.ts:41 | "aB1" with three emoji is six characters but nine code units, so it passes the length rule and every other one |
| AuthController.UserStore.constructor | backend/src/controllers/authController.ts:61 | the users table starts empty with unique e-mails |
| AuthController.UserStore.FindByEmail | backend/src/controllers/authController.ts:61-63 | the lookup by e-mail finds a row holding that e-mail, or none when no row holds it |
| AuthController.FindFrom | backend/src/controllers/authController.ts:115-117 | the first row of a list holding the e-mail, or none |
| AuthController.UserStore.Register | backend/src/controllers/authController.ts:15-88 | missing fields give 400 with the list; the answer is 201 iff fields, e-mail and password pass and the e-mail is new, and then exactly one row is appended with the hashed password and a token for the new id; an existing e-mail gives 409; any other answer leaves the table unchanged |
| AuthController.UserStore.Login | backend/src/controllers/authController.ts:95-144 | missing fields give 400; an unknown e-mail and a wrong password both give 401 "Invalid credentials" and change nothing; the right password stamps only that user's last login and returns the token for their id |
| AuthController.UserStore.ForgotPassword | backend/src/controllers/authController.ts:154-212 | no e-mail or a malformed one gives 400; known and unknown addresses get the same 200 message; only a known user's row changes, to the token's digest expiring one hour from now; a failed mail gives 500 with the token already stored |
| AuthController.UserStore.ResetPassword | backend/src/controllers/authController.ts:219-287 | a missing field gives 400; a weak password gives 400 with the same four rules as registration; the answer is 200 iff the id and token digest match a row whose expiry is in the future, and then only that row changes: new hash, token fields cleared |
| BudgetController.MonthStart | backend/src/controllers/budgetController.ts:8-15 | the result is day 1 of the given date's month and year, or of today's month when no date is given; a valid date gives a valid month start |
| BudgetController.MonthStartIdempotent | backend/src/controllers/budgetController.ts:8-15 | normalising an already normalised month start changes nothing |
| BudgetController.FindCategory | backend/src/controllers/budgetController.ts:42-45 | the lookup finds a category exactly when one has that name, and the id it returns names that category |
| BudgetController.FindCategoryUnique | backend/src/controllers/budgetController.ts:42-45 | with unique category names, the id found is the only category of that name |
| BudgetController.WithCategory | backend/src/controllers/budgetController.ts:41-53 | an existing name returns its id and leaves the table alone; a new name is appended once and its fresh id returned; the budgets are untouched |
| BudgetController.CategoryInsertedOnce | backend/src/controllers/budgetController.ts:41-53 | looking the same name up twice inserts it at most once and both calls return the same id |
| BudgetController.FindBudget | backend/src/controllers/budgetController.ts:70 | a row is found exactly when one has the (user, category, month) key, and the row found has that key |
| BudgetController.UpsertKeepsValid | backend/src/controllers/budgetController.ts:58-77 | an upsert keeps the schema constraints (unique names, one budget per key, unique ids below the sequence) and adds a row only for a new key |
| BudgetController.UpsertLimitAtKey | backend/src/controllers/budgetController.ts:66-75 | after an upsert the key holds the new limit, whether it was inserted or updated |
| BudgetController.UpsertLimitElsewhere | backend/src/controllers/budgetController.ts:66-75 | an upsert leaves the limit of every other key as it was |
| BudgetController.UpsertSetsLimit | backend/src/controllers/budgetController.ts:58-77 | the combined upsert property: new limit at its key, all other keys unchanged, constraints kept, a row added only for a new key |
| BudgetController.FirstInvalid | backend/src/controllers/budgetController.ts:154-160 | the result is the position of the first entry with a missing category or a limit that is NaN or not above 0; every entry before it is valid, and the length means all are valid |
| BudgetController.UpsertAllKeepsValid | backend/src/controllers/budgetController.ts:153-168 | upserting a list of limits one after another keeps the schema constraints and existing categories keep their ids |
| BudgetController.UpsertAllLimitFor | backend/src/controllers/budgetController.ts:153-168 | after setting a list of limits, a category in the list holds the limit given last for it |
| BudgetController.UpsertAllSetsLastLimits | backend/src/controllers/budgetController.ts:153-168 | after setting a list of limits, every category named in it holds, for that user and month, the limit given last for it |
| BudgetController.BudgetOrderIsTotalPreorder | backend/src/controllers/budgetController.ts:103 | the listing order (month ascending, then category name ascending) is reflexive, transitive and total |
| BudgetController.BudgetQueryOrdered | backend/src/controllers/budgetController.ts:93-106 | the listing holds exactly the user's budgets (as a multiset) and is sorted by month and then category name |
| BudgetController.BudgetDb.constructor | backend/src/controllers/budgetController.ts:3 | the tables start empty and valid |
| BudgetController.BudgetDb.GetCategoryId | backend/src/controllers/budgetController.ts:41-53 | the tables and the returned id are those of the look-up-or-insert specification, and the constraints hold |
| BudgetController.BudgetDb.UpsertCategoryBudget | backend/src/controllers/budgetController.ts:58-77 | the tables become the upsert of the specification and the returned row is the inserted or updated one |
| BudgetController.BudgetDb.SetBudget | backend/src/controllers/budgetController.ts:141-177 | a body that is not an array gets 400 and nothing changes; otherwise the valid prefix of entries is upserted in order, the reply is 200 with one row per entry (its limit, the month start) exactly when all entries are valid, else the 400 message |
| BudgetController.BudgetDb.SetLimits | backend/src/controllers/budgetController.ts:153-177 | the loop over the entries: the tables become the in-order upsert of the entries before the first invalid one, one returned row per upserted entry carrying its limit and the month start, 200 with those rows exactly when no entry is invalid, else the 400 message |
| BudgetController.BudgetDb.GetBudget | backend/src/controllers/budgetController.ts:88-134 | one view per listed row in listing order, with its id, category id and name, limit and month, its spending for that category and month, and alert exactly when spent exceeds the limit |
| BudgetController.BudgetDb.DeleteBudget | backend/src/controllers/budgetController.ts:183-212 | a NaN id gets 400; otherwise exactly the user's budget with that id is removed, 404 when there is none (nothing changes), else one row fewer and the success message |
| BudgetController.DeleteKeepsValid | backend/src/controllers/budgetController.ts:193-205 | deleting by id and user keeps the constraints and removes at most one row, none exactly when no row matches |
| CalendarController.CalendarDb.constructor | backend/src/controllers/calendarController.ts:2 | the events table starts empty and valid (every id below the serial) |
| CalendarController.CalendarDb.GetCalendarEvents | backend/src/controllers/calendarController.ts:8-23 | 200 with exactly the caller's events (id, title, date, type) and no others, sorted by event date |
| CalendarController.CalendarDb.CreateCalendarEvent | backend/src/controllers/calendarController.ts:29-55 | a missing title or date gets 400 and nothing is stored; otherwise one event is added under the next serial id, with type 'custom' when none or an empty one is given, and 201 returns it |
| CalendarController.CalendarDb.UpdateCalendarEvent | backend/src/controllers/calendarController.ts:61-104 | an id that is not a number is a server error; an event the caller does not own gets 404; otherwise only that event changes, each given field replacing the stored one, and 200 returns it |
| CalendarController.CalendarDb.DeleteCalendarEvent | backend/src/controllers/calendarController.ts:110-129 | an id that is not a number is a server error; an event the caller does not own gets 404 and nothing changes; otherwise exactly that event is removed |
| CalendarController.Patched | backend/src/controllers/calendarController.ts:79-82 | a field given in the body replaces the stored one and a missing one keeps it; the owner never changes |
| CalendarController.ByDateIsTotalPreorder | backend/src/controllers/calendarController.ts:15 | ordering by event date is reflexive, transitive and total, so the listing's order is well defined |
| RecurringController.Reminder | backend/src/controllers/recurringController.ts:9-12 | the reminder instant lies exactly one day (86400000 ms) before the due instant |
| RecurringController.ReminderOnDayBefore | backend/src/controllers/recurringController.ts:9-12 | a payment due on day d is reminded on the previous calendar day at the same time of day |
| RecurringController.ReminderTitleInjective | backend/src/controllers/recurringController.ts:45 | different payment names give different reminder titles, so a title identifies the payment name |
| RecurringController.WithoutReminders | backend/src/controllers/recurringController.ts:100-106 | the delete removes exactly the user's 'recurring_payment' events with that title and keeps every other event unchanged |
| RecurringController.ByDueDateIsTotalPreorder | backend/src/controllers/recurringController.ts:135 | ordering by next due date is reflexive, transitive and total |
| RecurringController.RecurringDb.constructor | backend/src/controllers/recurringController.ts:4 | no payments, valid tables, sharing the given calendar table |
| RecurringController.RecurringDb.CreateRecurringPayment | backend/src/controllers/recurringController.ts:17-58 | a missing or falsy amount, name, frequency or due date gets 400 and changes nothing; otherwise the payment is stored under the next id and its reminder event is added to the calendar; every payment stays paired with its reminder |
| RecurringController.RecurringDb.UpdateRecurringPayment | backend/src/controllers/recurringController.ts:63-122 | an id that is not a number, or a body with a field left out, is a server error with nothing changed; a payment the caller does not own gets 404; otherwise the payment is replaced, the reminders with the old title are deleted and a new reminder is added, keeping the pairing when names are unique |
| RecurringController.RecurringDb.GetRecurringPayments | backend/src/controllers/recurringController.ts:127-143 | 200 with exactly the caller's payments, sorted by next due date |
| RecurringController.RecurringDb.DeleteRecurringPayment | backend/src/controllers/recurringController.ts:148-188 | a payment the caller does not own gets 404 and nothing changes; otherwise the payment and every reminder with its title go, and the other payments stay paired when names are unique |
| RecurringController.PairedAfterInsert | backend/src/controllers/recurringController.ts:28-51 | adding a payment together with its reminder keeps every payment paired with a reminder one day before it is due |
| RecurringController.OtherReminderKept | backend/src/controllers/recurringController.ts:100-106 | a payment of another user or another name keeps its reminder when one title's reminders are deleted |
| RecurringController.PairedAfterReplace | backend/src/controllers/recurringController.ts:84-115 | replacing a payment and its reminder keeps every payment paired, provided no user had two payments of the same name |
| RecurringController.PairedAfterDelete | backend/src/controllers/recurringController.ts:167-181 | deleting a payment with its reminders keeps the remaining payments paired when names are unique per user |
| RecurringController.SharedNameLosesReminder | backend/src/controllers/recurringController.ts:174-181 | with two payments of the same name, deleting one also deletes the other's reminder, because reminders are found by title only |
| DashboardController.DatesCompare | backend/src/controllers/dashboardController.ts:22-25 | two valid dates are equal or one has the smaller day number, and calendar order agrees with day-number order |
| DashboardController.WindowAsWrittenMissesLastDay | backend/src/controllers/dashboardController.ts:25-35 | the BETWEEN window as written holds a transaction exactly when it is in the current month and not on the last day, unless stamped at midnight of that day |
| DashboardController.LastDayTransactionMissed | backend/src/controllers/dashboardController.ts:25-35 | a debit at 10:00 on 31 January 2025 is in January but outside January's window as written |
| DashboardController.RecentShape | backend/src/controllers/dashboardController.ts:52-66 | the recent list has at most five entries, all the user's own transactions, newest first |
| DashboardController.RecentAreNewest | backend/src/controllers/dashboardController.ts:52-66 | no transaction of the user left out of the recent list is newer than a listed one |
| DashboardController.FallbackFindsNothingNew | backend/src/controllers/dashboardController.ts:70-140 | the DATE_TRUNC query and the EXTRACT fallback select the same budgets, so the fallback never finds a budget the first query missed |
| DashboardController.SameFilter | backend/src/controllers/dashboardController.ts:79-137 | filters by predicates that agree on every row return the same rows |
| DashboardController.Progress | backend/src/controllers/dashboardController.ts:194 | the progress is 0 without a positive budget total, else the spent share in percent rounded to the nearest integer |
| DashboardController.ProgressNotCapped | backend/src/controllers/dashboardController.ts:194 | spending twice the budget reads 200: the progress is not capped at 100 |
| DashboardController.AddToAdds | backend/src/controllers/dashboardController.ts:206 | adding an amount to a name's group raises that name's amount and the total by the amount and leaves other names alone |
| DashboardController.AddToNames | backend/src/controllers/dashboardController.ts:206 | adding to a group keeps one group per name: the names stay in order, and a new name is appended at the end |
| DashboardController.GroupsSum | backend/src/controllers/dashboardController.ts:197-209 | GROUP BY gives one group per category name whose amount is that name's debits of the month, and the groups add up to all the month's joined debits |
| DashboardController.EntryIsWholeSum | backend/src/controllers/dashboardController.ts:197-209 | with one group per name, a group's amount is the whole sum for its name |
| DashboardController.NoOtherEntry | backend/src/controllers/dashboardController.ts:197-209 | a name without a group has amount 0 |
| DashboardController.GroupNames | backend/src/controllers/dashboardController.ts:197-209 | GROUP BY opens a group for a name exactly when some debit of the month joins to a category of that name |
| DashboardController.SortDistinct | backend/src/controllers/dashboardController.ts:207 | ordering the groups by amount keeps one group per name |
| DashboardController.SortNames | backend/src/controllers/dashboardController.ts:207 | ordering the groups by amount keeps exactly the same names |
| DashboardController.InsertKeepsTotal | backend/src/controllers/dashboardController.ts:207 | inserting a group into the amount order adds its amount to the total |
| DashboardController.SortKeepsTotal | backend/src/controllers/dashboardController.ts:207-215 | sorting the groups by amount keeps their total |
| DashboardController.Percentage | backend/src/controllers/dashboardController.ts:220-221 | a category's percentage is 0 without a positive total, else its share of the total in percent rounded to the nearest integer |
| DashboardController.BudgetCards | backend/src/controllers/dashboardController.ts:96-116 | one card per budget row in row order, each with the row's id, limit, month, category name and the category's debits of the month |
| DashboardController.SumAmounts | backend/src/controllers/dashboardController.ts:212-215 | the loop's sum equals the total of the rows' amounts |
| DashboardController.CategoryBreakdown | backend/src/controllers/dashboardController.ts:197-222 | the total is the month's debits that join a category; each row's amount is its name's debits of the month with its percentage of that total; rows are in descending amount order; the amounts add up to the total; no name has two rows; a name has a row exactly when some joined debit of the month carries it, so every name with non-zero debits has one |
| DashboardController.GetDashboardData | backend/src/controllers/dashboardController.ts:14-256 | credit and debit totals over all the user's transactions with net cash as their difference; the five newest with their category names; at most five of the month's budgets, each card carrying the row's id, limit, category name, month and the category's debits of the month; budget total, month's debits and progress; the breakdown with the same guarantees as CategoryBreakdown (sum, distinct names, one row per debited name); all over the whole current month |
| AssetService.MetadataFailure | backend/src/services/assetService.ts:72-112 | metadata resolution fails exactly for a stock whose ticker the stock service does not know and for an asset type that is neither gold, stock nor currency |
| AssetService.NewMetadata | backend/src/services/assetService.ts:59-108 | the inserted metadata row belongs to the asset type, and a currency holding's row carries its currency code |
| AssetService.GoldMetadataIgnoresDetails | backend/src/services/assetService.ts:49-64 | gold metadata is looked up and inserted as tola/PKR whatever unit or currency the request gives |
| AssetService.NewMetadataMatches | backend/src/services/assetService.ts:53-109 | a metadata row inserted for a request is found by the same lookup the next time, so a second request reuses it |
| AssetService.CurrentOnCreate | backend/src/services/assetService.ts:133-154 | the value stored on creation is the live gold price per tola times the quantity, the stock's current value, the PKR rate times the quantity, or else the purchase value |
| AssetService.CurrentOnUpdate | backend/src/services/assetService.ts:210-222 | the value stored on update is the same for gold and stocks but a currency holding is valued in USD |
| AssetService.CreateAndUpdateAgree | backend/src/services/assetService.ts:133-218 | creating and updating value a gold or stock holding alike |
| AssetService.ValueCurrency | backend/src/services/assetService.ts:174-240 | value_currency is PKR for gold, the ticker's currency for a stock, and the currency code otherwise |
| AssetService.ByAcquiredDescIsTotalPreorder | backend/src/services/assetService.ts:272 | ordering by acquisition date, latest first, is reflexive, transitive and total |
| AssetService.RefreshedValue | backend/src/services/assetService.ts:285-294 | a refreshed gold value is the live price times the quantity, a stock's is its current value, anything else its USD conversion |
| AssetService.RefreshedBelow | backend/src/services/assetService.ts:284-298 | refreshing keeps the same asset ids |
| AssetService.RecordedBelowEntries | backend/src/services/assetService.ts:299-304 | after the refresh loop, today's history entry of each of the user's assets holds its refreshed value and every other entry is unchanged |
| AssetService.RefreshedStep | backend/src/services/assetService.ts:295-298 | refreshing one more id changes at most that id's current value, and only if it is the user's |
| AssetService.RecordedStep | backend/src/services/assetService.ts:299-304 | recording one more id adds at most that id's entry for today |
| AssetService.RefreshedNotYet | backend/src/services/assetService.ts:284-305 | an id the loop has not reached keeps its row |
| AssetService.RefreshedLinked | backend/src/services/assetService.ts:295-298 | refreshing values keeps every asset linked to its metadata and type |
| AssetService.AssetDb.constructor | backend/src/services/assetService.ts:2 | all four tables start empty and valid |
| AssetService.AssetDb.GetAssetTypeId | backend/src/services/assetService.ts:28-43 | the returned id is the first type with that name; an existing name changes nothing, a new one is inserted under the next id; no other table changes |
| AssetService.AssetDb.GetOrCreateMetadata | backend/src/services/assetService.ts:45-113 | the type table is left as it was when the type name exists, else gains exactly one row with the name under the next id; then a failure leaves the metadata table and its serial alone, an existing matching row is reused with nothing changed, or exactly one new row is inserted under the next serial; assets and history do not change |
| AssetService.AssetDb.CreateAsset | backend/src/services/assetService.ts:115-205 | the type table gains at most the request's type name under the next id, nothing else; a metadata failure changes no asset, no metadata row and no history; otherwise the metadata table and its serial become getOrCreateMetadata's (the matching row reused with nothing changed, or exactly one new row under the next serial) and one new asset under the next id with the request's quantity and purchase value, the creation value, acquisition date and value currency, plus today's history entry of that value |
| AssetService.AssetDb.UpdateAsset | backend/src/services/assetService.ts:207-255 | the type table gains at most the request's type name under the next id, nothing else; a metadata failure changes no asset, metadata row or history; without a failure the metadata table and its serial become getOrCreateMetadata's (the matching row reused, or exactly one new row under the next serial), even on 404; an asset the caller does not own gives 404 with assets and history unchanged; otherwise that asset is overwritten with the update value and today's history entry records it |
| AssetService.AssetDb.DeleteAsset | backend/src/services/assetService.ts:257-263 | an asset the caller does not own gives 404 and nothing changes; otherwise exactly that asset goes and no other table changes |
| AssetService.AssetDb.FetchUserAssets | backend/src/services/assetService.ts:265-277 | exactly the caller's assets, each joined with its type name and metadata, latest acquired first |
| AssetService.AssetDb.RefreshAssetValues | backend/src/services/assetService.ts:281-307 | every asset of the caller gets its refreshed value and today's history entry, other users' assets are untouched, and the reply is the refreshed listing latest acquired first |
| AssetService.AssetDb.RecordRefreshedValues | backend/src/services/assetService.ts:284-305 | the loop over the caller's assets leaves the assets and history equal to the refresh specification |
| AssetService.AssetDb.GetPortfolioSummary | backend/src/services/assetService.ts:309-344 | the answer is the summary of the caller's holdings |
| AssetService.Holdings | backend/src/services/assetService.ts:310-325 | one holding per asset id, with the asset's type name, purchase value and current value |
| AssetService.SqlSum | backend/src/services/assetService.ts:311-312 | a SQL SUM is NULL exactly when there are no rows |
| AssetService.RoundCents | backend/src/services/assetService.ts:331 | the result is a whole number of cents within half a cent of the value, a half cent rounding up |
| AssetService.RoundCentsUnique | backend/src/services/assetService.ts:331 | the whole number of cents within half a cent of a value (a half cent below excluded) is unique, so rounding to the cent is exactly the nearest-cent rule |
| AssetService.RoiOf | backend/src/services/assetService.ts:326-335 | the absolute roi is a whole number of cents within half a cent of the gain; the percentage is 0 without a positive purchase total, else the gain's rounded percentage of it |
| AssetService.RoiPercentageSign | backend/src/services/assetService.ts:326-335 | a positive roi percentage means a gain, and a gain or break-even never gives a negative percentage |
| AssetService.TypeNames | backend/src/services/assetService.ts:324 | no type name is listed twice |
| AssetService.TypeNamesExact | backend/src/services/assetService.ts:324 | the groups are exactly the type names that occur among the holdings |
| AssetService.Share | backend/src/services/assetService.ts:337-342 | a type's percentage is 0 without a positive current total, else its total's rounded share of it |
| AssetService.Distribution | backend/src/services/assetService.ts:337-342 | one entry per group, each the share of its type |
| AssetService.Summarize | backend/src/services/assetService.ts:309-344 | the totals are the SQL sums (NULL without assets), the roi is taken over the summed values, and the distribution covers the grouped types |
| AssetService.EmptyPortfolio | backend/src/services/assetService.ts:309-344 | a user without assets gets NULL totals, a zero roi and no distribution |
| AssetService.DistributionStep | backend/src/services/assetService.ts:316-325 | adding a holding adds its value and one to the entry of its type, if that type is listed |
| AssetService.AbsentType | backend/src/services/assetService.ts:316-325 | a type that does not occur has total 0 and count 0 |
| AssetService.NewTypeEntry | backend/src/services/assetService.ts:316-325 | listing one more type adds that type's total and count |
| AssetService.DistributionCoversPortfolio | backend/src/services/assetService.ts:310-325 | the distribution's totals add up to total_current and its counts to the number of assets |
| AssetService.TypeTotalBounded | backend/src/services/assetService.ts:319 | with no negative values, a type's total lies between 0 and the portfolio total |
| AssetService.SharePercentageBounded | backend/src/services/assetService.ts:337-342 | with no negative values every distribution percentage lies in 0..100 |
| BudgetService.CalculateBudgetStats | frontend/src/services/budgetService.ts:89-101 | the totals are the sums of the limits and of the spending, the remainder is their difference, and the percentage is 0 without a positive total budget, else the spent share rounded to an integer |
| BudgetService.EmptyStats | frontend/src/services/budgetService.ts:89-101 | no budgets give all four statistics 0 |
| BudgetService.SpentWithinLimits | frontend/src/services/budgetService.ts:90-91 | when no budget is overspent, the total spent lies between 0 and the total limit |
| BudgetService.StatsBounded | frontend/src/services/budgetService.ts:92-93 | when no budget is overspent, the spent percentage lies in 0..100 and the remainder is not negative |
| BudgetService.CurrentMonthStart | frontend/src/services/budgetService.ts:84-87 | the text is the year, a dash, two month digits and "-01" |
| BudgetService.CurrentMonthStartReadsBack | frontend/src/services/budgetService.ts:84-87 | the text reads back as the clock's year, its 1-based month and day 1 |
| BudgetSlice.KnownColor | frontend/src/store/slices/budgetSlice.ts:219-228 | each of the eight named categories has a fixed colour of the form #RRGGBB, and no other name has one |
| BudgetSlice.CategoryColor | frontend/src/store/slices/budgetSlice.ts:230-241 | a named category gets its fixed colour, any other name the drawn random colour |
| BudgetSlice.NamedCategoriesHaveFixedColors | frontend/src/store/slices/budgetSlice.ts:219-233 | a named category's colour does not depend on the random draw, and no two named categories share a colour |
| BudgetSlice.WithColors | frontend/src/store/slices/budgetSlice.ts:157-160 | every fetched budget is kept in order, unchanged, with its category's colour added |
| BudgetSlice.Plain | frontend/src/store/slices/budgetSlice.ts:157-161 | stripping the colours gives back the server's records in order |
| BudgetSlice.OrDefault | frontend/src/store/slices/budgetSlice.ts:162-163 | a missing, NaN or zero value falls back to the default, any other value is kept |
| BudgetSlice.OrDefaultNonZero | frontend/src/store/slices/budgetSlice.ts:162-163 | the result is 0 only when the default is 0 and the value was falsy, so the alert threshold is never 0 |
| BudgetSlice.WithLimit | frontend/src/store/slices/budgetSlice.ts:176 | only the limit at that position changes, to the amount; its colour and other fields and every other budget are kept |
| BudgetSlice.PlainAppend | frontend/src/store/slices/budgetSlice.ts:157-161 | stripping colours distributes over concatenation |
| BudgetSlice.TotalLimitAppend | frontend/src/store/slices/budgetSlice.ts:157-161 | the total limit of two lists together is the sum of their totals |
| BudgetSlice.SingleTotal | frontend/src/store/slices/budgetSlice.ts:157-161 | the total limit of one budget is its limit |
| BudgetSlice.TotalAround | frontend/src/store/slices/budgetSlice.ts:176-189 | the total limit of a list split around one position is the parts' totals plus that budget's limit |
| BudgetSlice.SavedTotalLimit | frontend/src/store/slices/budgetSlice.ts:174-179 | after a saved edit the total limit moves by exactly the change at that position |
| BudgetSlice.RemovedTotalLimit | frontend/src/store/slices/budgetSlice.ts:188-191 | after a removal the total limit drops by exactly the removed budget's limit |
| BudgetSlice.SaveBudgetThunk | frontend/src/store/slices/budgetSlice.ts:54-70 | the save fulfils with (index, amount) exactly when the budget at the index exists and the request succeeds, else it rejects with the save message |
| BudgetSlice.RemoveBudgetThunk | frontend/src/store/slices/budgetSlice.ts:72-83 | the removal fulfils with the index exactly when the budget at the index exists and the request succeeds, else it rejects with the delete message |
| BudgetSlice.BudgetStore.constructor | frontend/src/store/slices/budgetSlice.ts:29-43 | the initial state: no budgets, income 0, threshold 100, loading, no error, nothing being edited, empty forms |
| BudgetSlice.BudgetStore.SetEditingIndex | frontend/src/store/slices/budgetSlice.ts:127-132 | an index with no budget throws and changes nothing; otherwise the index is stored and a non-null index shows that budget's limit as the amount being edited |
| BudgetSlice.BudgetStore.SetNewBudgetAmount | frontend/src/store/slices/budgetSlice.ts:133-135 | the typed amount is stored |
| BudgetSlice.BudgetStore.SetShowAddCategory | frontend/src/store/slices/budgetSlice.ts:136-141 | closing the add form empties it, opening it keeps its contents |
| BudgetSlice.BudgetStore.SetNewCategory | frontend/src/store/slices/budgetSlice.ts:142-144 | the add form's contents are stored |
| BudgetSlice.BudgetStore.ClearBudgetError | frontend/src/store/slices/budgetSlice.ts:145-147 | the error is cleared |
| BudgetSlice.BudgetStore.FetchPending | frontend/src/store/slices/budgetSlice.ts:151-154 | loading starts and the error is cleared |
| BudgetSlice.BudgetStore.FetchFulfilled | frontend/src/store/slices/budgetSlice.ts:155-165 | the fetched budgets are stored in order with their colours, income and threshold fall back to 0 and 100 when falsy, and loading ends |
| BudgetSlice.BudgetStore.FetchRejected | frontend/src/store/slices/budgetSlice.ts:166-169 | loading ends and the rejection message becomes the error |
| BudgetSlice.BudgetStore.FormPending | frontend/src/store/slices/budgetSlice.ts:170-200 | the form is busy and the error is cleared |
| BudgetSlice.BudgetStore.FormRejected | frontend/src/store/slices/budgetSlice.ts:180-209 | the form is no longer busy, the message becomes the error, and the budgets are untouched |
| BudgetSlice.BudgetStore.SaveFulfilled | frontend/src/store/slices/budgetSlice.ts:174-179 | an index with no budget throws and changes nothing; otherwise only that limit changes, editing ends, the form is free and the total limit moves by the change |
| BudgetSlice.BudgetStore.RemoveFulfilled | frontend/src/store/slices/budgetSlice.ts:188-191 | exactly the budget at the index goes, the others keep their order, and the total limit drops by its limit; an index with no budget removes nothing |
| BudgetSlice.BudgetStore.AddCategoryFulfilled | frontend/src/store/slices/budgetSlice.ts:201-205 | the form is free, closed and emptied |
| BudgetSlice.BudgetStore.MonthlyIncomeFulfilled | frontend/src/store/slices/budgetSlice.ts:210-212 | the saved income is stored |
| BudgetSlice.BudgetStore.AlertThresholdFulfilled | frontend/src/store/slices/budgetSlice.ts:213-215 | the saved threshold is stored |
| CalendarSlice.FindIndexById | frontend/src/store/slices/calendarSlice.ts:87 | the result is the first position holding the id, and none exactly when no event has it |
| CalendarSlice.FirstIndex | frontend/src/store/slices/calendarSlice.ts:78-93 | for a key that occurs, the result is the position of its first occurrence |
| CalendarSlice.DedupProperties | frontend/src/store/slices/calendarSlice.ts:75-93 | with distinct ids, the loop keeps one event per title-and-date key, every key of the input is represented, each survivor is an input event with the smallest id among its key's events, and survivors are in the order of their keys' first occurrences |
| CalendarSlice.DedupEvents | frontend/src/store/slices/calendarSlice.ts:75-93 | the loop computes the de-duplication specification and, with distinct ids, keeps one event per key, the smallest-id one, for every key of the input |
| CalendarSlice.FindPayment | frontend/src/store/slices/calendarSlice.ts:130 | a found payment is listed and has the name, and none exactly when no payment has it |
| CalendarSlice.RecurringDataOf | frontend/src/store/slices/calendarSlice.ts:122-127 | the payment body takes the event's title and date, amount 0 when none is given and frequency "monthly" when none or an empty one is given |
| CalendarSlice.Retitles | frontend/src/store/slices/calendarSlice.ts:137-144 | one title-only update to "recurring_due" for every event that had the old title and for no other |
| CalendarSlice.SaveRequests | frontend/src/store/slices/calendarSlice.ts:115-235 | a new event whose title and day match a listed event is refused before anything is sent; otherwise a new recurring event creates a payment and then finds or creates its event, a new plain event is created, and an edit updates the selected event (after deleting its payment when it stops being recurring) with the new title |
| CalendarSlice.SaveEventThunk | frontend/src/store/slices/calendarSlice.ts:101-242 | the save rejects with the duplicate message when the requests are refused and with the save message when a request fails; otherwise it fulfils with the amount and the selected event's id, or the created event's id |
| CalendarSlice.RelatedIds | frontend/src/store/slices/calendarSlice.ts:260-264 | exactly the ids of the recurring events sharing the title |
| CalendarSlice.DeleteEventIds | frontend/src/store/slices/calendarSlice.ts:244-283 | no selection rejects; a recurring event with a payment of its name deletes every recurring event with its title; anything else deletes the selected event alone |
| CalendarSlice.DeleteIncludesSelected | frontend/src/store/slices/calendarSlice.ts:253-279 | a listed selected event is always among the deleted ids |
| CalendarSlice.DeleteRequests | frontend/src/store/slices/calendarSlice.ts:257-278 | after at most one payment deletion, one event deletion per deleted id, in order |
| CalendarSlice.DeleteAllRequests | frontend/src/store/slices/calendarSlice.ts:285-317 | one payment deletion per payment, then one event deletion per listed event, in order; none is skipped for an earlier failure |
| CalendarSlice.CalendarStore.constructor | frontend/src/store/slices/calendarSlice.ts:55-68 | the initial state: the clock's date, no events or payments, the amounts from session storage, closed modals, loading, no error, refresh key 0 |
| CalendarSlice.CalendarStore.SetCurrentDate | frontend/src/store/slices/calendarSlice.ts:323-325 | the date shown is stored |
| CalendarSlice.CalendarStore.SetIsModalOpen | frontend/src/store/slices/calendarSlice.ts:326-328 | the modal flag is stored |
| CalendarSlice.CalendarStore.SetIsDeleteAllModalOpen | frontend/src/store/slices/calendarSlice.ts:329-331 | the delete-all modal flag is stored |
| CalendarSlice.CalendarStore.SetSelectedEvent | frontend/src/store/slices/calendarSlice.ts:332-334 | the selected event is stored |
| CalendarSlice.CalendarStore.SaveEventAmount | frontend/src/store/slices/calendarSlice.ts:335-339 | one amount is set for the event and every other amount is kept |
| CalendarSlice.CalendarStore.ClearError | frontend/src/store/slices/calendarSlice.ts:340-342 | the error is cleared |
| CalendarSlice.CalendarStore.IncrementRefreshKey | frontend/src/store/slices/calendarSlice.ts:343-345 | the refresh key goes up by one |
| CalendarSlice.CalendarStore.FetchPending | frontend/src/store/slices/calendarSlice.ts:350-353 | loading starts and the error is cleared |
| CalendarSlice.CalendarStore.FetchFulfilled | frontend/src/store/slices/calendarSlice.ts:354-358 | the events and payments are stored and loading ends |
| CalendarSlice.CalendarStore.FetchRejected | frontend/src/store/slices/calendarSlice.ts:359-362 | loading ends and the message becomes the error |
| CalendarSlice.CalendarStore.SavePending | frontend/src/store/slices/calendarSlice.ts:365-368 | processing starts and the error is cleared |
| CalendarSlice.CalendarStore.SaveFulfilled | frontend/src/store/slices/calendarSlice.ts:369-381 | a truthy saved id with an amount records that amount, otherwise the amounts stay; the modal closes, the selection clears, processing ends and the refresh key goes up |
| CalendarSlice.CalendarStore.SaveRejected | frontend/src/store/slices/calendarSlice.ts:382-385 | the message becomes the error and processing ends |
| CalendarSlice.CalendarStore.DeletePending | frontend/src/store/slices/calendarSlice.ts:388-418 | deleting and processing start and the error is cleared |
| CalendarSlice.CalendarStore.DeleteFulfilled | frontend/src/store/slices/calendarSlice.ts:393-406 | exactly the deleted ids lose their amounts and the others keep theirs; the modal closes, the selection clears, the flags end and the refresh key goes up |
| CalendarSlice.CalendarStore.DeleteRejected | frontend/src/store/slices/calendarSlice.ts:407-431 | the message becomes the error and both flags end |
| CalendarSlice.CalendarStore.DeleteAllFulfilled | frontend/src/store/slices/calendarSlice.ts:419-426 | no amount is left, the delete-all modal closes, the flags end and the refresh key goes up |
| TransactionSlice.ReplaceById | frontend/src/store/slices/transactionSlice.ts:117-119 | every entry with the payload's id becomes the payload, every other entry is kept in place |
| TransactionSlice.RemoveById | frontend/src/store/slices/transactionSlice.ts:130 | exactly the entries without the id survive |
| TransactionSlice.ReplaceByIdKeepsIds | frontend/src/store/slices/transactionSlice.ts:117-119 | replacing keeps every position's id, so applying the same edit twice is applying it once |
| TransactionSlice.RemoveByIdAppend | frontend/src/store/slices/transactionSlice.ts:130 | removing by id distributes over concatenation, so survivors keep their order |
| TransactionSlice.RemoveByIdAbsent | frontend/src/store/slices/transactionSlice.ts:130 | a list without the id is left as it is |
| TransactionSlice.RemoveByIdIdempotent | frontend/src/store/slices/transactionSlice.ts:130 | removing the same id twice is removing it once |
| TransactionSlice.AddThenRemove | frontend/src/store/slices/transactionSlice.ts:106-131 | adding a transaction with a fresh id and then removing that id gives the list back |
| TransactionSlice.ThunkResult | frontend/src/store/slices/transactionSlice.ts:27-58 | a thunk fulfils with the server's answer when there is one and rejects with its message otherwise |
| TransactionSlice.RemoveThunk | frontend/src/store/slices/transactionSlice.ts:60-67 | the removal fulfils with the id it was given, not the server's answer, unless the request fails |
| TransactionSlice.TransactionStore.constructor | frontend/src/store/slices/transactionSlice.ts:19-25 | the initial state: no transactions, loading, no error, form hidden, nothing being edited |
| TransactionSlice.TransactionStore.ShowTransactionForm | frontend/src/store/slices/transactionSlice.ts:73-76 | the form opens for a new transaction |
| TransactionSlice.TransactionStore.HideTransactionForm | frontend/src/store/slices/transactionSlice.ts:77-80 | the form closes and nothing is being edited |
| TransactionSlice.TransactionStore.SetEditingTransaction | frontend/src/store/slices/transactionSlice.ts:81-84 | the form opens on the given transaction |
| TransactionSlice.TransactionStore.ClearTransactionError | frontend/src/store/slices/transactionSlice.ts:85-87 | the error is cleared |
| TransactionSlice.TransactionStore.FetchPending | frontend/src/store/slices/transactionSlice.ts:91-94 | loading starts and the error is cleared |
| TransactionSlice.TransactionStore.FetchFulfilled | frontend/src/store/slices/transactionSlice.ts:95-98 | loading ends and the list is the server's |
| TransactionSlice.TransactionStore.FetchRejected | frontend/src/store/slices/transactionSlice.ts:99-102 | loading ends and the message becomes the error |
| TransactionSlice.TransactionStore.MutationPending | frontend/src/store/slices/transactionSlice.ts:103-128 | only the error is cleared |
| TransactionSlice.TransactionStore.MutationRejected | frontend/src/store/slices/transactionSlice.ts:110-134 | the message becomes the error and the list is untouched |
| TransactionSlice.TransactionStore.AddFulfilled | frontend/src/store/slices/transactionSlice.ts:106-109 | the new transaction goes first, the old list follows unchanged, and the form closes |
| TransactionSlice.TransactionStore.EditFulfilled | frontend/src/store/slices/transactionSlice.ts:116-122 | the entries with the payload's id are replaced, the length and every other entry are kept, the form closes and editing ends |
| TransactionSlice.TransactionStore.RemoveFulfilled | frontend/src/store/slices/transactionSlice.ts:129-131 | every entry with the id goes and the rest keep their order |
| AssetSlice.WithoutAsset | frontend/src/store/slices/assetSlice.ts:257-259 | exactly the assets without the id survive |
| AssetSlice.WithoutAssetAbsent | frontend/src/store/slices/assetSlice.ts:257-259 | removing an id no asset has changes nothing |
| AssetSlice.WithoutAssetIdempotent | frontend/src/store/slices/assetSlice.ts:257-259 | removing the same id twice is removing it once |
| AssetSlice.StockHistoryFailed | frontend/src/store/slices/assetSlice.ts:81 | the stock-history failure message names the ticker |
| AssetSlice.IncludesAfter | frontend/src/store/slices/assetSlice.ts:81 | text placed between a prefix and a suffix is included in the whole |
| AssetSlice.MutationThunk | frontend/src/store/slices/assetSlice.ts:96-117 | a create or update fulfils with the server's record; a refusal rejects with the server's error text when it has one, else with the fallback message |
| AssetSlice.RemoveThunk | frontend/src/store/slices/assetSlice.ts:119-127 | the removal fulfils with the id it was given unless the request fails |
| AssetSlice.SomeGold | frontend/src/store/slices/assetSlice.ts:138 | true means some asset is gold, false means none is (type compared upper-cased) |
| AssetSlice.StockAssets | frontend/src/store/slices/assetSlice.ts:142 | the stock filter fails exactly when some asset has no type; otherwise it keeps exactly the stock assets in order |
| AssetSlice.PlanFetchAll | frontend/src/store/slices/assetSlice.ts:129-161 | a failed list fetch requests no history and rejects |
| AssetSlice.SomeGoldTyped | frontend/src/store/slices/assetSlice.ts:138 | when every asset has a type the gold check does not throw |
| AssetSlice.FetchAllRequests | frontend/src/store/slices/assetSlice.ts:129-161 | when every asset has a type the thunk fulfils, gold history is requested exactly when some asset is gold, and stock history exactly for a truthy ticker of the first stock asset |
| AssetSlice.FetchAllRejectsUntyped | frontend/src/store/slices/assetSlice.ts:129-161 | an asset without a type makes the thunk reject without requesting stock history |
| AssetSlice.AssetStore.constructor | frontend/src/store/slices/assetSlice.ts:29-42 | the initial state: no assets, summary or history, loading, no error, the form closed and nothing selected |
| AssetSlice.AssetStore.SetShowAddForm | frontend/src/store/slices/assetSlice.ts:168-173 | closing the add form forgets the chosen type; opening keeps it |
| AssetSlice.AssetStore.SetSelectedAssetType | frontend/src/store/slices/assetSlice.ts:174-177 | the type is stored and the add form closes |
| AssetSlice.AssetStore.SetEditingAsset | frontend/src/store/slices/assetSlice.ts:178-182 | the asset is stored, the details modal closes, and the chosen type is the asset's type upper-cased, none when it has no truthy type |
| AssetSlice.AssetStore.SetDetailsModalType | frontend/src/store/slices/assetSlice.ts:183-185 | the details modal type is stored |
| AssetSlice.AssetStore.ClearAssetError | frontend/src/store/slices/assetSlice.ts:186-188 | the error is cleared |
| AssetSlice.AssetStore.FetchPending | frontend/src/store/slices/assetSlice.ts:192-195 | loading starts and the error is cleared |
| AssetSlice.AssetStore.ListFulfilled | frontend/src/store/slices/assetSlice.ts:196-224 | the list is replaced by the fetched or refreshed one and loading ends |
| AssetSlice.AssetStore.ListRejected | frontend/src/store/slices/assetSlice.ts:200-228 | loading ends and the message becomes the error |
| AssetSlice.AssetStore.RefreshPending | frontend/src/store/slices/assetSlice.ts:218-220 | loading starts and the error is left as it is |
| AssetSlice.AssetStore.SummaryFulfilled | frontend/src/store/slices/assetSlice.ts:205-207 | the summary is stored |
| AssetSlice.AssetStore.GoldHistoryFulfilled | frontend/src/store/slices/assetSlice.ts:209-211 | the gold history is stored |
| AssetSlice.AssetStore.StockHistoryFulfilled | frontend/src/store/slices/assetSlice.ts:213-216 | the stock history and the ticker it belongs to are stored |
| AssetSlice.AssetStore.FormPending | frontend/src/store/slices/assetSlice.ts:230-246 | the form is busy and the error is cleared |
| AssetSlice.AssetStore.AddFulfilled | frontend/src/store/slices/assetSlice.ts:234-237 | the form is free and the chosen type is forgotten |
| AssetSlice.AssetStore.EditFulfilled | frontend/src/store/slices/assetSlice.ts:247-251 | the form is free, the chosen type is forgotten and editing ends |
| AssetSlice.AssetStore.FormRejected | frontend/src/store/slices/assetSlice.ts:238-255 | the form is free and the message becomes the error |
| AssetSlice.AssetStore.RemoveFulfilled | frontend/src/store/slices/assetSlice.ts:257-259 | exactly the assets with the id go and the rest keep their order |
| ChatbotSlice.LastTen | frontend/src/store/slices/chatbotSlice.ts:50 | the last min(10, n) messages, as a suffix of the log |
| ChatbotSlice.Serialize | frontend/src/store/slices/chatbotSlice.ts:19-26 | succeeds exactly when every timestamp is a valid date (toISOString throws otherwise); one record per message with the same id, content, sender and the timestamp's ISO text |
| ChatbotSlice.Deserialize | frontend/src/store/slices/chatbotSlice.ts:28-39 | a parsed non-array (or unparsable text) gives no messages; an array gives one message per record with its timestamp read back by the Date constructor |
| ChatbotSlice.Load | frontend/src/store/slices/chatbotSlice.ts:41-47 | no stored item gives an empty log; a stored item is deserialized |
| ChatbotSlice.SaveMessages | frontend/src/store/slices/chatbotSlice.ts:49-52 | stores the last ten messages, one record each, and throws exactly when one of those ten has an invalid timestamp |
| ChatbotSlice.SerializeRoundTrip | frontend/src/store/slices/chatbotSlice.ts:19-39 | for timestamps with four-digit years, deserializing the serialized log gives back the same messages |
| ChatbotSlice.ReloadRestoresLastTen | frontend/src/store/slices/chatbotSlice.ts:41-60 | after a save, loading the stored item restores exactly the last ten messages |
| ChatbotSlice.SendThunk | frontend/src/store/slices/chatbotSlice.ts:62-69 | a reply passes through unchanged; a failure is rejected with its message, or the fixed text when the message is empty |
| ChatbotSlice.MessageAt | frontend/src/store/slices/chatbotSlice.ts:79-84 | a message made at a clock reading carries that instant as its timestamp, the content and sender given, and the clock value plus the offset as its id |
| ChatbotSlice.ChatbotStore.constructor | frontend/src/store/slices/chatbotSlice.ts:54-60 | the log is the stored one, the intro shows exactly when it is empty, the input is empty, not loading and no error |
| ChatbotSlice.ChatbotStore.SetInputValue | frontend/src/store/slices/chatbotSlice.ts:75-77 | the input holds the text |
| ChatbotSlice.ChatbotStore.SetShowIntro | frontend/src/store/slices/chatbotSlice.ts:91-93 | the intro flag is the value given |
| ChatbotSlice.ChatbotStore.AddUserMessage | frontend/src/store/slices/chatbotSlice.ts:78-90 | one user message is appended, the input cleared, the intro hidden and the new log saved; when saving throws the state is unchanged |
| ChatbotSlice.ChatbotStore.ClearMessages | frontend/src/store/slices/chatbotSlice.ts:94-98 | the log is empty, the stored item removed and the intro shown |
| ChatbotSlice.ChatbotStore.SendPending | frontend/src/store/slices/chatbotSlice.ts:102-105 | loading with no error |
| ChatbotSlice.ChatbotStore.SendFulfilled | frontend/src/store/slices/chatbotSlice.ts:106-119 | loading ends and one ai message with the reply is appended and saved; when saving throws the state is unchanged |
| ChatbotSlice.ChatbotStore.SendRejected | frontend/src/store/slices/chatbotSlice.ts:120-135 | loading ends, the error is recorded and the fixed apology is appended as an ai message and saved; when saving throws the state is unchanged |
| ChatbotSlice.InvalidTimestampBlocksSaving | frontend/src/store/slices/chatbotSlice.ts:28-52 | a loaded record with an unreadable timestamp among the last ten makes every later save throw |
| ChatbotSlice.AppendSaved | frontend/src/store/slices/chatbotSlice.ts:49-52 | an appended valid message is saved, reloading gives the last ten of the new log, and all of it when it holds at most ten |
| ZakatTaxSlice.ZakatShown | frontend/src/store/slices/zakatTaxSlice.ts:114-132 | a summary with assets is kept as is; without assets the nisaab status says the threshold is not met and nothing is payable, every other figure kept |
| ZakatTaxSlice.TaxShown | frontend/src/store/slices/zakatTaxSlice.ts:134-147 | a summary with income is kept as is; without income the status says the threshold is not met and no tax is payable, every other field kept |
| ZakatTaxSlice.ShownIdempotent | frontend/src/store/slices/zakatTaxSlice.ts:114-147 | the adjustment preserves what it tests, so adjusting an adjusted summary changes nothing |
| ZakatTaxSlice.FetchThunk | frontend/src/store/slices/zakatTaxSlice.ts:88-95 | the service's summary passes through; a failure is rejected with its message, or the fixed text when the message is empty |
| ZakatTaxSlice.ZakatTaxStore.constructor | frontend/src/store/slices/zakatTaxSlice.ts:46-86 | the placeholder summaries, loading, no error and both data flags set |
| ZakatTaxSlice.ZakatTaxStore.ClearError | frontend/src/store/slices/zakatTaxSlice.ts:101-103 | the error is cleared |
| ZakatTaxSlice.ZakatTaxStore.FetchPending | frontend/src/store/slices/zakatTaxSlice.ts:107-110 | loading with no error |
| ZakatTaxSlice.ZakatTaxStore.FetchFulfilled | frontend/src/store/slices/zakatTaxSlice.ts:111-151 | loading ends; a payload with both parts stores the adjusted summaries with each flag set exactly when there are assets or income, so the flags agree with the summaries; a payload missing a part records the missing-data error and keeps the summaries and flags |
| ZakatTaxSlice.ZakatTaxStore.FetchRejected | frontend/src/store/slices/zakatTaxSlice.ts:152-155 | loading ends and the rejection's message is the error |
| ZakatTaxSlice.InitialFlagsDisagree | frontend/src/store/slices/zakatTaxSlice.ts:46-86 | the initial flags claim assets and income that the placeholder summaries do not have |
| AuthSlice.SignInThunk | frontend/src/store/slices/authSlice.ts:27-53 | a successful login or registration stores the answered token and user id and returns the data; a failure rejects with the request's fixed message and leaves the storage alone |
| AuthSlice.LogoutThunk | frontend/src/store/slices/authSlice.ts:55-64 | a successful logout removes both stored items; a failure rejects with the fixed message and keeps them |
| AuthSlice.ForgotThunk | frontend/src/store/slices/authSlice.ts:66-80 | any answered request resolves with the body's message or the fixed hint, whatever its status; only a failed request or body rejects |
| AuthSlice.ResetThunk | frontend/src/store/slices/authSlice.ts:82-107 | resolves exactly for an ok response, with its message or the success text; a non-ok response rejects with its message or the fixed text; a failed request with the generic error |
| AuthSlice.AuthStore.constructor | frontend/src/store/slices/authSlice.ts:19-25 | logged in exactly when the session is authenticated and unexpired; the reported user id and the stored token; not loading, no error |
| AuthSlice.AuthStore.CheckAuthStatus | frontend/src/store/slices/authSlice.ts:113-118 | logged in exactly when authenticated, with the id and token only then, so a signed-out store holds neither |
| AuthSlice.AuthStore.ClearError | frontend/src/store/slices/authSlice.ts:119-121 | the error is cleared |
| AuthSlice.AuthStore.Pending | frontend/src/store/slices/authSlice.ts:126-177 | loading with no error for every request but logout, which has no pending case |
| AuthSlice.AuthStore.Rejected | frontend/src/store/slices/authSlice.ts:136-184 | loading ends with the rejection's message as the error for every request but logout |
| AuthSlice.AuthStore.SignedIn | frontend/src/store/slices/authSlice.ts:130-150 | logged in as the answered user with its token, loading off |
| AuthSlice.AuthStore.LoggedOut | frontend/src/store/slices/authSlice.ts:156-160 | logged out with neither id nor token; loading untouched |
| AuthSlice.AuthStore.PasswordMailed | frontend/src/store/slices/authSlice.ts:166-180 | only loading goes off |
| RecurringCalendarPage.Lead | frontend/src/pages/RecurringCalendarPage.tsx:117-118 | the number of leading cells is a weekday number, 0 to 6 |
| RecurringCalendarPage.CellAt | frontend/src/pages/RecurringCalendarPage.tsx:113-153 | every cell of the grid is a valid calendar date |
| RecurringCalendarPage.GenerateCalendarDays | frontend/src/pages/RecurringCalendarPage.tsx:113-153 | the loops build exactly 42 cells, the i-th being CellAt of the month |
| RecurringCalendarPage.CellDayNumber | frontend/src/pages/RecurringCalendarPage.tsx:113-153 | the i-th cell is i days after the first cell, which lies Lead days before the 1st |
| RecurringCalendarPage.CellWeekday | frontend/src/pages/RecurringCalendarPage.tsx:113-153 | every grid starts on a Sunday, so the cell at index i falls on weekday i mod 7 |
| RecurringCalendarPage.GridShape | frontend/src/pages/RecurringCalendarPage.tsx:113-153 | Lead cells of the month before ending on its last day, then each day of the month once and in order and marked current, then the next month from the 1st; the 42 cells are consecutive dates |
| RecurringCalendarPage.HeadersMislabelCells | frontend/src/pages/RecurringCalendarPage.tsx:268 | under the Monday-first headers no cell sits under its own weekday: each header names the weekday after its cells' |
| RecurringCalendarPage.HeaderShift | frontend/src/pages/RecurringCalendarPage.tsx:268 | each written header names the weekday after its column's |
| RecurringCalendarPage.HeadersNameCells | frontend/src/pages/RecurringCalendarPage.tsx:267-269 | with Sunday-first headers every cell sits under the name of its own weekday |
| RecurringCalendarPage.MislabelExample | frontend/src/pages/RecurringCalendarPage.tsx:268 | January 2023 starts its grid with Sunday the 1st, under the header "Mon" |
| RecurringCalendarPage.FirstByKey | frontend/src/pages/RecurringCalendarPage.tsx:157-175 | keeping the first event of each (title, date) key never lengthens the list |
| RecurringCalendarPage.EventsOnDay | frontend/src/pages/RecurringCalendarPage.tsx:161-165 | exactly the events of the list that fall on the day, in their order |
| RecurringCalendarPage.FirstByKeyProperties | frontend/src/pages/RecurringCalendarPage.tsx:157-175 | no key kept twice, each kept event the first of the list with its key, and every key of the list kept |
| RecurringCalendarPage.GetEventsForDay | frontend/src/pages/RecurringCalendarPage.tsx:157-175 | the loop over the day's events keeps exactly the first event of each (title, date) key |
| RecurringCalendarPage.PrefixStep | frontend/src/pages/RecurringCalendarPage.tsx:166-172 | one more event is kept exactly when its key is new, and the seen keys grow by its key |
| RecurringCalendarPage.DayCellEvents | frontend/src/pages/RecurringCalendarPage.tsx:157-175 | a day cell shows only events of that day, no key twice, and a key for every event of the day |
| RecurringCalendarPage.GetEventAmount | frontend/src/pages/RecurringCalendarPage.tsx:177-191 | a truthy stored amount wins; otherwise the amount of the first payment titled like the first event with the id, else 0 |
| RecurringCalendarPage.AmountHasSource | frontend/src/pages/RecurringCalendarPage.tsx:177-191 | a non-zero amount is the stored amount of the event, or the amount of a recurring payment titled like an event with that id |
| RecurringCalendarPage.WeekEnd | frontend/src/pages/RecurringCalendarPage.tsx:99 | the end of the week lies after today's midnight and before the midnight seven days later |
| RecurringCalendarPage.WindowsNest | frontend/src/pages/RecurringCalendarPage.tsx:87-111 | every event of this week is also urgent, and none is both this week's and upcoming |
| RecurringCalendarPage.PaymentsThisMonth | frontend/src/pages/RecurringCalendarPage.tsx:201-206 | counts at most one per event |
| RecurringCalendarPage.Dispatches | frontend/src/pages/RecurringCalendarPage.tsx:72-85 | nothing is dispatched while processing; a save dispatches otherwise; a delete needs a selected event and no running delete; delete-all needs no running delete |
| CalendarGrid.LeadingBlanks | frontend/src/components/calender-recurring/CalendarGrid.tsx:37-39 | between 0 and 6 blank cells before the 1st |
| CalendarGrid.TrailingBlanks | frontend/src/components/calender-recurring/CalendarGrid.tsx:72-74 | between 0 and 6 blank cells after the last day |
| CalendarGrid.MonthDays | frontend/src/components/calender-recurring/CalendarGrid.tsx:12-14 | one valid date per day of the month, the i-th being day i + 1 |
| CalendarGrid.OneCellPerDay | frontend/src/components/calender-recurring/CalendarGrid.tsx:12-41 | each date of the month has a cell, and the cells run in calendar order |
| CalendarGrid.WholeWeeks | frontend/src/components/calender-recurring/CalendarGrid.tsx:37-74 | blanks and days together fill whole weeks |
| CalendarGrid.GetEventsForDay | frontend/src/components/calender-recurring/CalendarGrid.tsx:18-23 | exactly the events that fall on the day |
| CalendarGrid.KeepsDuplicates | frontend/src/components/calender-recurring/CalendarGrid.tsx:18-23 | two events with the same title and date on the day are both listed, unlike the recurring calendar page |
| BudgetManager.PercentUsed | frontend/src/components/BudgetManager.tsx:453 | a non-zero limit gives the rounded percentage; a zero limit gives an infinity of the spending's sign, or NaN when nothing is spent |
| BudgetManager.BarWidth | frontend/src/components/BudgetManager.tsx:468 | the bar is capped at 100; +Infinity draws a full bar; -Infinity and NaN stay as they are |
| BudgetManager.RowOf | frontend/src/components/BudgetManager.tsx:453-490 | a row's percentage, remaining amount, over-budget flag (spent above the limit), near-limit flag (percentage at least the threshold), bar width, and a sign with a non-negative amount that together give the remaining amount |
| BudgetManager.RowWithinLimit | frontend/src/components/BudgetManager.tsx:453-468 | a budget with a positive limit spent within it uses 0 to 100 percent, is not over budget, and its bar is exactly that wide |
| BudgetManager.OverBudgetIsNearLimit | frontend/src/components/BudgetManager.tsx:453-468 | with a positive limit and a threshold of at most 100, an overspent budget is flagged near its limit and fills its bar |
| BudgetManager.ProgressOf | frontend/src/components/BudgetManager.tsx:397-412 | the filled part is the spent percentage, filled and rest make 100, and the alert shows exactly when the percentage reaches the threshold |
| BudgetManager.ProgressWithinBar | frontend/src/components/BudgetManager.tsx:397-412 | when no budget is overspent both parts of the month's bar lie between 0 and 100 |
| BudgetManager.ZeroIncomeOnly | frontend/src/components/BudgetManager.tsx:99-189 | zero is an acceptable income but not an acceptable budget, every acceptable budget is an acceptable income, and zero is the only difference |
| BudgetManager.BudgetManagerContent.constructor | frontend/src/components/BudgetManager.tsx:18-29 | the initial state: no budgets, loading, no error, nothing edited, empty forms, income 0 and threshold 100 |
| BudgetManager.BudgetManagerContent.FetchBudgets | frontend/src/components/BudgetManager.tsx:59-80 | on an answer, the coloured budgets, the income (0 when falsy), the threshold (100 when falsy) and no error; on a failure everything kept and the load error shown; loading off afterwards |
| BudgetManager.BudgetManagerContent.HandleEdit | frontend/src/components/BudgetManager.tsx:88-91 | the row becomes the edited one and its limit is copied into the amount field |
| BudgetManager.BudgetManagerContent.SetNewBudgetAmount | frontend/src/components/BudgetManager.tsx:477 | the amount field holds the text |
| BudgetManager.BudgetManagerContent.HandleSave | frontend/src/components/BudgetManager.tsx:94-126 | an amount that is not above zero only sets the amount error; otherwise one call sets that category's limit for the budget's month, and on success only that row's limit changes and editing ends, on failure the update error shows |
| BudgetManager.BudgetManagerContent.HandleDelete | frontend/src/components/BudgetManager.tsx:129-142 | the row's budget id is deleted; on success exactly that row goes, on failure the list stays and the delete error shows |
| BudgetManager.BudgetManagerContent.SetShowAddCategory | frontend/src/components/BudgetManager.tsx:241-297 | the add form's visibility is the value given |
| BudgetManager.BudgetManagerContent.SetNewCategory | frontend/src/components/BudgetManager.tsx:308-318 | the form holds the category given |
| BudgetManager.BudgetManagerContent.HandleAddCategory | frontend/src/components/BudgetManager.tsx:145-177 | a blank name sets the name error, then an invalid amount the amount error, neither calling; otherwise one call for the current month, and on success a refetch and an emptied, closed form with no error, on failure the form kept and the add error shown |
| BudgetManager.BudgetManagerContent.HandleEditIncome | frontend/src/components/BudgetManager.tsx:180-183 | editing starts with the income copied into the field |
| BudgetManager.BudgetManagerContent.SetNewIncomeAmount | frontend/src/components/BudgetManager.tsx:360 | the income field holds the text |
| BudgetManager.BudgetManagerContent.HandleSaveIncome | frontend/src/components/BudgetManager.tsx:186-202 | a missing or negative income only sets the income error; otherwise it is sent, and on success it becomes the income and editing ends, on failure the income error shows |
| BudgetManager.BudgetManagerContent.SetShowAlertSettings | frontend/src/components/BudgetManager.tsx:234-259 | the settings' visibility is the value given |
| BudgetManager.BudgetManagerContent.SetAlertThreshold | frontend/src/components/BudgetManager.tsx:269 | the threshold is the number given |
| BudgetManager.BudgetManagerContent.HandleSaveAlertSettings | frontend/src/components/BudgetManager.tsx:205-219 | a threshold outside 0..200 only sets the threshold error; otherwise it is sent, and on success the settings close with no error; a failed request changes nothing |
| BudgetManager.BudgetManagerContent.Rows | frontend/src/components/BudgetManager.tsx:453-490 | one row per budget, each the row view of that budget under the current threshold |
| BudgetManager.SavedEditMovesRemaining | frontend/src/components/BudgetManager.tsx:94-126 | a saved edit changes the total limit by the difference at the edited row, and the month's remaining budget by the same amount |
| BudgetManager.SpentUnchanged | frontend/src/components/BudgetManager.tsx:113-117 | a saved edit leaves the total spent unchanged |
| BudgetManager.SameSpent | frontend/src/components/BudgetManager.tsx:222 | two lists that spend the same at every position spend the same in total |
| BudgetPanel.OnlyIncomeIsCredit | frontend/src/components/budget/BudgetManager.tsx:26-35 | "Income" is the one credit option; every option is named by its value, and each value has a fixed chart colour |
| BudgetPanel.SelectCategory | frontend/src/components/budget/BudgetManager.tsx:132 | a category button sets the form's name to the option's value and keeps its amount |
| BudgetPanel.HandleEdit | frontend/src/components/budget/BudgetManager.tsx:54-56 | setEditingIndex makes the row the edited one with its limit in the amount field; a row that is not there throws |
| BudgetPanel.HandleSave | frontend/src/components/budget/BudgetManager.tsx:58-66 | an amount that is not above zero dispatches nothing and changes nothing; otherwise on success only that row's limit changes and editing ends, and on failure (or a missing row) the list stays and the save error shows |
| BudgetPanel.HandleDelete | frontend/src/components/budget/BudgetManager.tsx:68-70 | on success exactly that row goes; on failure (or a missing row) the list stays and the delete error shows; the form is not loading afterwards |
| BudgetPanel.HandleAddCategory | frontend/src/components/budget/BudgetManager.tsx:72-89 | a blank name or an amount not above zero is ignored without a message; otherwise the category is added, and only a successful add empties and closes the form and refetches, whose result or load error the store then holds; a failed add keeps the list and form and shows the add error |
| BudgetPanel.Rows | frontend/src/components/budget/BudgetManager.tsx:250-266 | one row per stored budget, each the row view of that budget under the stored threshold |
| BudgetPanel.ProgressBar | frontend/src/components/budget/BudgetManager.tsx:195-214 | the filled part is calculateBudgetStats' percentage of the stored budgets, filled and rest make 100, and the alert shows exactly when it reaches the threshold |
| ResetPassword.FlagsOf | frontend/src/pages/ResetPassword.tsx:31-35 | the length flag holds exactly for at least 8 UTF-16 code units (as `.length` counts), the capital flag for a letter A-Z, the number flag for a digit 0-9 |
| ResetPassword.AstralPasswordMeetsLength | frontend/src/pages/ResetPassword.tsx:32 | a six-character password with three emoji is nine code units long and meets the length requirement |
| ResetPassword.NoLowerCaseRequired | frontend/src/pages/ResetPassword.tsx:31-35 | an upper-case-only password can meet every requirement |
| ResetPassword.ErrorsFrom | frontend/src/pages/ResetPassword.tsx:37-40 | each requirement is listed exactly when the password is non-empty and its flag is unset; at most three entries |
| ResetPassword.ErrorsEmptyIff | frontend/src/pages/ResetPassword.tsx:37-40 | with the password's own flags the list is empty exactly for an empty or a strong password |
| ResetPassword.EnabledMeansStrong | frontend/src/pages/ResetPassword.tsx:179 | with the list built from the password's own flags, the submit button is enabled exactly for a strong, confirmed password while not loading |
| ResetPassword.StaleFlagsAdmitShortPassword | frontend/src/pages/ResetPassword.tsx:30-43 | with the list built from the previous flags, shortening "Abcdefg1" to "Abcdefg" leaves no listed error and an enabled button for a password that is not strong |
| ResetPassword.EnabledHasNoHint | frontend/src/pages/ResetPassword.tsx:172-179 | an enabled button never comes with the mismatch hint, and the hint always disables it |
| ResetPassword.ReplyOutcome | frontend/src/pages/ResetPassword.tsx:73-84 | only an ok reply redirects to login; an ok reply shows its message or the success text, a refused one its message or the refusal text, a failed call the generic error |
| ResetPassword.ResetPasswordPage.constructor | frontend/src/pages/ResetPassword.tsx:10-23 | the initial state: empty fields and message, not loading, hidden password, no errors, no flags; consistent with the empty password |
| ResetPassword.ResetPasswordPage.TogglePasswordVisibility | frontend/src/pages/ResetPassword.tsx:25-27 | the password visibility flips |
| ResetPassword.ResetPasswordPage.SetConfirmPassword | frontend/src/pages/ResetPassword.tsx:167 | the confirmation field holds the text |
| ResetPassword.ResetPasswordPage.HandlePasswordChangeAsWritten | frontend/src/pages/ResetPassword.tsx:30-47 | a new password stores its flags but lists the errors of the flags held before; an unchanged password runs no effect |
| ResetPassword.ResetPasswordPage.HandlePasswordChange | frontend/src/pages/ResetPassword.tsx:30-47 | the password is stored with its own flags and the errors of those flags, so the page stays consistent |
| ResetPassword.ResetPasswordPage.HandleSubmit | frontend/src/pages/ResetPassword.tsx:49-85 | listed errors stop the submit silently; a mismatch only shows the mismatch message; otherwise the request carries the route's id and token and the new password, the reply decides the message and the redirect, and loading is off afterwards |
| DashboardPage.MountEffects | frontend/src/pages/DashboardPage.tsx:45-57 | the 800 ms timer always starts, and the data fetch exactly when the user is signed in |
| DashboardPage.ScreenOf | frontend/src/pages/DashboardPage.tsx:82-122 | loading (store or timer) shows the loading screen; else a non-empty error shows it; else the empty state shows the welcome screen and anything else the overview; exactly one applies |
| DashboardPage.AnyContentShowsOverview | frontend/src/pages/DashboardPage.tsx:97-122 | any recent transaction, budget or breakdown row shows the overview once loaded without error |
| DashboardPage.ExpenseData | frontend/src/pages/DashboardPage.tsx:103-111 | a non-empty breakdown is charted as is; otherwise the two-row sample; the chart is never empty |
| DashboardPage.TotalExpense | frontend/src/pages/DashboardPage.tsx:113 | a reported non-zero total is used; a missing, NaN or zero one falls back to 4500; never zero |
| DashboardPage.SampleMatchesFallback | frontend/src/pages/DashboardPage.tsx:103-113 | the sample's amounts add up to the fallback total and its percentages to 100, and with no data the chart shows exactly that |
| DashboardPage.CalculatePercentage | frontend/src/pages/DashboardPage.tsx:77-80 | 0 for a zero limit, else the rounded percentage capped at 100 |
| DashboardPage.PercentageBounds | frontend/src/pages/DashboardPage.tsx:77-80 | with a positive limit and non-negative spending the percentage lies in 0..100 and grows with spending |
| DashboardPage.PercentageIsBarWidth | frontend/src/pages/DashboardPage.tsx:77-80 | for a non-zero limit the dashboard's percentage equals the width of the budget manager's bar for the same budget |
| DashboardPage.BarWidth | frontend/src/pages/DashboardPage.tsx:229 | a positive percentage is drawn at that width, anything else at the 8 px minimum |
| DashboardPage.TransactionLabel | frontend/src/pages/DashboardPage.tsx:168 | the vendor, or the category when there is no vendor |
| ChatbotPage.TopicOf | frontend/src/pages/ChatbotPage.tsx:92-103 | budgeting words win over saving words, which win over investing words; each topic holds exactly under its condition, and the general one when no keyword appears |
| ChatbotPage.AiResponse | frontend/src/pages/ChatbotPage.tsx:92-103 | always one of the four fixed replies, the one of the query's topic |
| ChatbotPage.LowerOfUpper | frontend/src/pages/ChatbotPage.tsx:94 | lower-casing an upper-cased text is lower-casing the text |
| ChatbotPage.AiResponseIgnoresCase | frontend/src/pages/ChatbotPage.tsx:92-103 | the query in capitals, or in lower case, gets the same answer |
| ChatbotPage.LowerOfLower | frontend/src/pages/ChatbotPage.tsx:94 | lower-casing is idempotent |
| ChatbotPage.IncludesPrefixPart | frontend/src/pages/ChatbotPage.tsx:94-98 | a text that includes p + q includes p |
| ChatbotPage.InvestingKeywordRedundant | frontend/src/pages/ChatbotPage.tsx:98 | a query mentions investing exactly when it includes "invest": the longer keyword adds nothing |
| ChatbotPage.ChatbotPage.constructor | frontend/src/pages/ChatbotPage.tsx:47-49 | empty input, no messages, the intro shown |
| ChatbotPage.ChatbotPage.SetInputValue | frontend/src/pages/ChatbotPage.tsx:47 | the input holds the text |
| ChatbotPage.ChatbotPage.HandleSubmit | frontend/src/pages/ChatbotPage.tsx:60-90 | a blank input submits nothing and changes nothing; otherwise the intro hides, one user message with the input is appended, the input clears and the text is the pending query |
| ChatbotPage.ChatbotPage.DeliverReply | frontend/src/pages/ChatbotPage.tsx:81-89 | one ai message answering the submitted query is appended |
| ChatbotPage.ChatbotPage.HandleExampleClick | frontend/src/pages/ChatbotPage.tsx:105-107 | only the input changes, to the example's text |
| TransactionSummary.NetWorthIsIncomeMinusExpenses | frontend/src/components/transaction/TransactionSummary.tsx:9-36 | net worth is income minus expenses minus the amounts of transactions that are neither credits nor debits |
| TransactionSummary.NetWorthOfCreditsAndDebits | frontend/src/components/transaction/TransactionSummary.tsx:9-36 | when every transaction is a credit or a debit, net worth is exactly income minus expenses |
| TransactionSummary.OtherAmountsZero | frontend/src/components/transaction/TransactionSummary.tsx:9-18 | with only credits and debits nothing is counted outside income and expenses |
| TransactionSummary.SumAppend | frontend/src/components/transaction/TransactionSummary.tsx:20-36 | the sum over a concatenation is the sum of the two sums |
| TransactionSummary.NetWorthAppend | frontend/src/components/transaction/TransactionSummary.tsx:9-18 | net worth over a concatenation is the sum of the two net worths |
| TransactionSummary.NaNAmountCountsAsZero | frontend/src/components/transaction/TransactionSummary.tsx:11-33 | a transaction whose amount is not a number changes none of net worth, income and expenses |
| TransactionSummary.WholeCurrencyReadsBack | frontend/src/components/transaction/TransactionSummary.tsx:38-46 | the text of a whole amount is "$", a minus sign exactly for a negative amount, then digits with no point that denote its absolute value |
| TransactionSummary.FractionCurrencyReadsBack | frontend/src/components/transaction/TransactionSummary.tsx:38-46 | the text of any other amount is "$", a minus sign exactly for a negative amount, then digits with a point three places from the end that denote its absolute value in rounded hundredths |
| TransactionItem.CategoryColor | frontend/src/components/transaction/TransactionItem.tsx:12-25 | a category of the table gets its class, any other the gray one |
| TransactionItem.KnownCategories | frontend/src/components/transaction/TransactionItem.tsx:13-22 | exactly the eight named categories have their own class |
| TransactionItem.DateTextReadsBack | frontend/src/components/transaction/TransactionItem.tsx:28-29 | the date text has slashes at positions 2 and 5 and its three digit fields denote the day, the month and the year |
| TransactionItem.FormatAmountUnsigned | frontend/src/components/transaction/TransactionItem.tsx:31-40 | an amount and its negation read the same, and a digit, never a minus sign, follows "PKR " |
| TransactionItem.WholeAmountReadsBack | frontend/src/components/transaction/TransactionItem.tsx:31-40 | the digits after "PKR " of a whole amount denote its absolute value |
| TransactionItem.Heading | frontend/src/components/transaction/TransactionItem.tsx:57 | the vendor when it is truthy, else the category |
| TransactionsPage.GroupedTransactions | frontend/src/pages/TransactionsPage.tsx:27-37 | the group labels are distinct, each group holds exactly the transactions with its label in input order and is non-empty, and every transaction lands in the group of its label |
| TransactionsPage.SameDayOtherYearSameGroup | frontend/src/pages/TransactionsPage.tsx:28-29 | two transactions share a group exactly when they fall on the same month and day, whatever their years |
| TransactionsPage.HandleUpdate | frontend/src/pages/TransactionsPage.tsx:47-50 | nothing is dispatched without a transaction being edited; otherwise an edit of that transaction's id with the form's input |
| TransactionsPage.SubmitRoutes | frontend/src/pages/TransactionsPage.tsx:43-95 | a submission always dispatches, an edit exactly while a transaction is being edited, and carries the form's input |
| TransactionList.GroupTransactionsByDate | frontend/src/components/TransactionList.tsx:38-50 | the labels are distinct, each group holds exactly the transactions with its label in input order and is non-empty, and every transaction is in the group of its label |
| TransactionList.CategoryBgColorDefault | frontend/src/components/TransactionList.tsx:60-81 | each of the eight named types has a class other than gray; every other type, "expense" included, is gray |
| TransactionList.GreenIffNotExpense | frontend/src/components/TransactionList.tsx:55-63 | the green class marks exactly the income type, the one type that is not an expense |
| TransactionModal.OfferedIn | frontend/src/components/TransactionModal.tsx:235-237 | only options of the list whose type matches the selected transaction type are offered |
| TransactionModal.OfferedIncome | frontend/src/components/TransactionModal.tsx:235-237 | for the income type exactly the Income button is offered |
| TransactionModal.OfferedExpense | frontend/src/components/TransactionModal.tsx:235-237 | for any other type exactly the seven expense buttons are offered, in their order |
| TransactionModal.OfferedAgree | frontend/src/components/TransactionModal.tsx:235-237 | every offered button's type agrees with the selected type |
| TransactionModal.OfferedInAppend | frontend/src/components/TransactionModal.tsx:235-237 | filtering a concatenation is concatenating the filtered parts |
| TransactionModal.TransactionModal.constructor | frontend/src/components/TransactionModal.tsx:28-37 | the empty form dated today and the expense type, which agree |
| TransactionModal.TransactionModal.Open | frontend/src/components/TransactionModal.tsx:39-62 | an edited transaction's six fields are copied with the income type exactly for an income category; without one the form is reset; the form and the type agree afterwards |
| TransactionModal.TransactionModal.HandleChange | frontend/src/components/TransactionModal.tsx:64-70 | the amount input stores what parseFloat reads, every other input its raw text, and nothing else changes |
| TransactionModal.TransactionModal.HandleCategorySelect | frontend/src/components/TransactionModal.tsx:72-79 | the category, its type and the transaction type change together, so they agree |
| TransactionModal.TransactionModal.HandleTransactionTypeSelect | frontend/src/components/TransactionModal.tsx:81-94 | the type is the one selected; the category is cleared and retyped exactly when its type disagrees with the new type, otherwise the form is unchanged |
| TransactionModal.TransactionModal.Submit | frontend/src/components/TransactionModal.tsx:96-100 | the form is handed to onSave as it stands |
| TransactionForm.OnlyIncomeIsCredit | frontend/src/components/transaction/TransactionForm.tsx:14-23 | among the category options only Income is a credit; every other option is a debit |
| TransactionForm.InitialFromEditing | frontend/src/pages/TransactionsPage.tsx:97 | the stored record handed to the form as it stands gives no transactionDate and no category initial value |
| TransactionForm.InitialFromEditingCorrected | frontend/src/pages/TransactionsPage.tsx:97 | read from the record's own fields, the initial values carry its date and its category |
| TransactionForm.TransactionForm.constructor | frontend/src/components/transaction/TransactionForm.tsx:31-36 | each field starts from its initial value when present: title from the vendor, the amount's text, the date, the category, the type or "debit" |
| TransactionForm.TransactionForm.HandleCategorySelect | frontend/src/components/transaction/TransactionForm.tsx:38-41 | the category and its debit or credit type are set together |
| TransactionForm.TransactionForm.SetTitle | frontend/src/components/transaction/TransactionForm.tsx:93 | the title holds the text |
| TransactionForm.TransactionForm.SetAmount | frontend/src/components/transaction/TransactionForm.tsx:116 | the amount field holds the text |
| TransactionForm.TransactionForm.ChangeDate | frontend/src/components/transaction/TransactionForm.tsx:128 | a picked day is stored as the ISO text of its UTC midnight; an empty or malformed value throws and the date stays |
| TransactionForm.TransactionForm.Submit | frontend/src/components/transaction/TransactionForm.tsx:43-55 | the record handed to onSubmit is the one SubmittedRecord gives for the current fields |
| TransactionForm.SubmittedRecord | frontend/src/components/transaction/TransactionForm.tsx:46-52 | the parsed amount, the category, the title as vendor and the type; the chosen date, or the current instant when none is chosen |
| TransactionForm.UntouchedFormRoundTrip | frontend/src/components/transaction/TransactionForm.tsx:31-55 | opening the form on a complete input with a date and a type and submitting it untouched hands back that input |
| TransactionForm.EditLosesDateAndCategory | frontend/src/components/transaction/TransactionForm.tsx:34-51 | as written, saving an untouched edit sends the current instant as the date and an empty category, whatever the stored transaction held |
| TransactionForm.EditLosesDateExample | frontend/src/components/transaction/TransactionForm.tsx:34-51 | a stored transaction dated 2024-01-15 is re-dated to the moment of the edit |
| TransactionForm.EditKeepsDateAndCategory | frontend/src/components/transaction/TransactionForm.tsx:34-51 | with the record's own fields read, saving an untouched edit keeps the stored date and a non-empty category |
| TransactionForm.PickedInstant | frontend/src/components/transaction/TransactionForm.tsx:128 | a picked text is an instant exactly when it is a date, and then it is that day's UTC midnight |
| TransactionForm.FormatDateForInput | frontend/src/components/transaction/TransactionForm.tsx:57-61 | the empty text stays empty; a text that is not a date throws; any other shows the date part of its instant's ISO text |
| TransactionForm.DatePartOfIso | frontend/src/components/transaction/TransactionForm.tsx:60 | the date part before "T" of an ISO text is its first ten characters, the instant's calendar date |
| TransactionForm.PickedDateShown | frontend/src/components/transaction/TransactionForm.tsx:57-128 | picking a day of a four-digit year stores an instant whose input text denotes the same day again |
| EventModal.PayloadOf | frontend/src/components/EventModal.tsx:50-62 | the type is "recurring_due" exactly for a recurring event and "custom" otherwise; the frequency is sent exactly for a recurring event; the amount, title and date as entered; the id exactly when an event is edited, and then its id |
| EventModal.EventModal.constructor | frontend/src/components/EventModal.tsx:26-31 | empty title, date and amount, not recurring, monthly |
| EventModal.EventModal.Open | frontend/src/components/EventModal.tsx:34-48 | editing copies the title and the event's day and marks the form recurring exactly for a recurring type, keeping amount and frequency; a new event starts empty on today, with no amount, not recurring and monthly |
| EventModal.EventModal.SetTitle | frontend/src/components/EventModal.tsx:84 | the title holds the text |
| EventModal.EventModal.SetDate | frontend/src/components/EventModal.tsx:97 | the date holds the text |
| EventModal.EventModal.SetAmount | frontend/src/components/EventModal.tsx:109 | the amount holds the value entered |
| EventModal.EventModal.ToggleRecurring | frontend/src/components/EventModal.tsx:122 | the recurring flag flips |
| EventModal.EventModal.SetFrequency | frontend/src/components/EventModal.tsx:136 | the frequency holds the choice |
| EventModal.EventModal.Submit | frontend/src/components/EventModal.tsx:50-62 | the payload handed to onSave is the one PayloadOf gives for the current fields |
| EventModal.AsEventData | frontend/src/store/slices/calendarSlice.ts:101-113 | the store reads the payload field by field, with the date as the instant it denotes |
| EventModal.UntouchedEditKeepsRecurrence | frontend/src/components/EventModal.tsx:34-62 | saving an edited event untouched keeps its id, title and recurrence, a recurring one now typed "recurring_due" and any other "custom" |
| EventModal.RecurringPaymentFromDialog | frontend/src/store/slices/calendarSlice.ts:122-127 | the recurring payment built from a recurring submission carries the title, the date, the chosen frequency (monthly when none) and the amount, 0 when left empty |
| AssetList.GroupsDisjoint | frontend/src/components/assets/AssetList.tsx:32-34 | an asset belongs to at most one of the gold, stock and currency groups |
| AssetList.GroupMembers | frontend/src/components/assets/AssetList.tsx:32-34 | each group holds exactly the assets of its type, whatever the case of the type's text |
| AssetList.CardOf | frontend/src/components/assets/AssetList.tsx:75-137 | an empty group shows no card; otherwise the first asset, the group's summed value and its summed quantity (as numbers, the intended reading; see Findings), always 0 on the currency card |
| AssetList.DetailsModalShown | frontend/src/components/assets/AssetList.tsx:151-179 | a type's details modal shows exactly when that type is selected and its group is not empty |
| AssetList.TotalValuePrepend | frontend/src/components/assets/AssetList.tsx:79 | the value total of a list is its first asset's value plus the rest's total |
| AssetList.ValuesPartition | frontend/src/components/assets/AssetList.tsx:32-125 | the three groups' value totals and the value of the other assets add up to the value of all the assets |
| AssetList.PlusText | frontend/src/components/assets/AssetList.tsx:80 | JavaScript `+` with a text operand always gives text, appending the operand to the accumulated text |
| AssetList.QuantityTotalAsWritten | frontend/src/components/assets/AssetList.tsx:80 | reducing no quantities gives the starting number 0 |
| AssetList.ReduceFromText | frontend/src/components/assets/AssetList.tsx:80 | once the accumulator is text, the reduce appends every quantity's text to it in order |
| AssetList.QuantityTotalConcatenates | frontend/src/components/assets/AssetList.tsx:80 | the as-written quantity total of a non-empty group is "0" followed by the quantities' texts, not their sum |
| AssetList.GoldQuantityConcatenated | frontend/src/components/assets/AssetList.tsx:80 | quantities 2.5 and 1 show "02.51 tola" as written, while the numeric card total is 3.5 |
| AssetList.TotalQuantityAppend | frontend/src/components/assets/AssetList.tsx:80 | summed as numbers, the quantity total of two lists together is the sum of their totals |
| AssetForm.PayloadOf | frontend/src/components/assets/AssetForm.tsx:47-58 | the payload carries a unit exactly for gold and a ticker exactly for stock, and the form's other values unchanged |
| AssetForm.RequestOf | frontend/src/components/assets/AssetForm.tsx:60-64 | an edited asset is updated under its own id, a new one is created, with the same payload |
| AssetForm.AssetForm.constructor | frontend/src/components/assets/AssetForm.tsx:17-30 | a new asset starts at quantity and value 0, today, GRAM, no ticker or name and USD; an edited one starts from its own values with those defaults for missing details |
| AssetForm.AssetForm.HandleChange | frontend/src/components/assets/AssetForm.tsx:32-38 | only the named field changes: a parsed number for quantity and value, the text for the others |
| AssetForm.AssetForm.Submit | frontend/src/components/assets/AssetForm.tsx:40-76 | the request is the one for the current fields; a failed call shows the fixed error and calls onSubmitEnd, a successful one closes the form; loading ends either way |
| AssetForm.UntouchedGoldEdit | frontend/src/components/assets/AssetForm.tsx:17-64 | submitting an untouched gold edit updates that asset with its own quantity, value and unit and no ticker |
| AssetsPage.DetailsOf | frontend/src/pages/AssetsPage.tsx:65-76 | gold sends only its unit, stock its ticker and name, currency its code and the currency's name |
| AssetsPage.DetailsFieldsByKind | frontend/src/pages/AssetsPage.tsx:65-76 | each details field is present exactly for the asset types that use it |
| AssetsPage.AssetsPage.constructor | frontend/src/pages/AssetsPage.tsx:27-40 | the page starts on gold with zero quantity and value, GRAM, empty texts, no assets, nothing loading and no error |
| AssetsPage.AssetsPage.FetchAssets | frontend/src/pages/AssetsPage.tsx:47-58 | a failed load keeps the list and sets the load error; an answer replaces the list (a null answer by the empty list) and clears the error; loading ends |
| AssetsPage.AssetsPage.SetAssetType | frontend/src/pages/AssetsPage.tsx:108 | only the asset type changes, to the chosen one |
| AssetsPage.AssetsPage.SetQuantity | frontend/src/pages/AssetsPage.tsx:123 | only the quantity changes, to the parsed number |
| AssetsPage.AssetsPage.SetPurchaseValue | frontend/src/pages/AssetsPage.tsx:134 | only the purchase value changes, to the parsed number |
| AssetsPage.AssetsPage.SetUnit | frontend/src/pages/AssetsPage.tsx:145 | only the gold unit changes, to the chosen one |
| AssetsPage.AssetsPage.SetTicker | frontend/src/pages/AssetsPage.tsx:163 | only the ticker changes, to the typed text |
| AssetsPage.AssetsPage.SetName | frontend/src/pages/AssetsPage.tsx:172 | only the name changes, to the typed text |
| AssetsPage.AssetsPage.SetCurrencyCode | frontend/src/pages/AssetsPage.tsx:187 | only the currency code changes, to the typed text |
| AssetsPage.AssetsPage.SetCurrencyName | frontend/src/pages/AssetsPage.tsx:196 | only the currency's name changes, to the typed text |
| AssetsPage.AssetsPage.HandleSubmit | frontend/src/pages/AssetsPage.tsx:60-96 | the create request carries the current fields and the details of their type; success resets every field but the type and refetches the list, failure keeps the fields and sets the create error; submitting ends |
| Grouping.GroupBy | frontend/src/pages/TransactionsPage.tsx:27-37 | the reduce yields one group per distinct label, each holding exactly the transactions with that label in input order, and every transaction lands in its label's group |
| Grouping.GroupAllPartitions | frontend/src/components/TransactionList.tsx:39-50 | the grouping object partitions the list by label: distinct keys, non-empty groups, nothing lost |
| DayLabels.MonthDayLabelInjective | frontend/src/pages/TransactionsPage.tsx:28-29 | two dates share a "Mon d" label exactly when they share month and day, whatever the year |
| Lists.WithoutIndexSplice | frontend/src/store/slices/budgetSlice.ts:189 | filtering out a valid position removes exactly that row and keeps the others in order; an index out of range changes nothing |
| IsoTime.IsoRoundTrip | frontend/src/store/slices/chatbotSlice.ts:23-33 | reading back the ISO text of an instant before the year 10000 gives the same instant |
| NumberText.Fixed2TextReadsBack | frontend/src/components/transaction/TransactionSummary.tsx:45 | the two-decimal text carries the sign of the amount and denotes its hundredths rounded half up |
| Js.Utf16LengthAppend | backend/src/controllers/authController.ts:41 | the code-unit length of a concatenation is the sum of the parts' lengths |
| Js.Utf16LengthBmp | backend/src/controllers/authController.ts:41 | without astral characters the code-unit length is the character count, so the length rule then counts characters |
| Js.RoundMonotone | frontend/src/pages/DashboardPage.tsx:79 | Math.round never decreases as its argument grows |

## Left out

- Time zones and daylight saving: local time and UTC are one time line, so `toISOString` of a local midnight is that midnight.
- Years outside 1 to 9999: date texts are modelled for four-digit years only.
- JSON encoding and HTTP plumbing: replies are a status with a body value. Request bodies arrive already parsed, and `undefined` or `null` fields are `None`.
- SQL text and connection handling: each query is modelled by its effect on the tables. `Promise.all` and the order in which awaited calls finish are not modelled; calls happen in program order.
- The currency, gold and stock price services, bcrypt, SHA-256 reset tokens, JWT and the mailer: their answers are parameters.
- Random category colours (budgetSlice.ts:230-241, BudgetManager.tsx:44-56): the draw is a parameter. Only the fixed colours of the named categories are proved.
- Timers: the 800 ms dashboard timer, the chatbot reply delay, the 500 ms wait before the calendar duplicate check and the two-second redirect after a reset are events or flags. No time passes in the model.
- localStorage and sessionStorage: the stored chat log is a text parameter and its save is a returned value. The auth token's validity is a parameter.
- `window.confirm` before a delete, and the page reload after an asset is saved: the user's answer is a parameter, and the reload is the `Closed` ending.
- Presentation: styling classes other than the colour tables, the DonutChart's dash arithmetic, recharts, `toLocaleString` currency formatting, and the `required` attributes of inputs.
- frontend/src/components/budget-manager.tsx: a prototype on fixed sample data whose row arithmetic repeats BudgetManager.tsx.
- TransactionList's default no-op `onEdit` and `onDelete` callbacks: they have no behaviour to state.
- The backend transaction controller, the route files and the other controllers: these are not part of this model.
- Number.prototype.toString of a float: a number copied into a text field is kept as the number, because parseFloat reads JavaScript's shortest round-trip text back to the same number.
- BudgetController.BudgetDb.SetBudget: when the body is not an array, the handler answers 400 with no writes. The source then goes on and fails on the headers it already sent; the model stops at the 400.
- RecurringCalendarPage.PaymentsThisMonth: the contract only bounds the count by the number of events. What is counted is the filter in its body.
- RecurringCalendarPage: month navigation is not modelled; the grid is a function of the shown month. Events are keyed by (title, date) pairs rather than the concatenated key text, which can only merge more events.
- RecurringCalendarPage.GetEventAmount: an amount stored as NaN is modelled as a missing one.
- BudgetManager.BudgetManagerContent.HandleEdit, HandleSave and HandleDelete require a row index that is rendered, because the buttons exist only for rendered rows.
- BudgetManager.BudgetManagerContent.HandleSaveAlertSettings: the threshold is a parsed number and is never NaN. The input's `min` and `max` are the only source of it.
- TransactionModal.TransactionModal.HandleTransactionTypeSelect requires one of the two values its two buttons pass.
- EventModal: the amount field is its parsed value, with `None` for the empty field.
- ResetPassword: the message colour, which tests the message text, is not modelled.
- DashboardPage: formatCurrency, formatDate and the `|| 0` props of the summary cards are display formatting.
- ZakatTaxController.GetZakatAndTaxSummary: the income is summed over the fixed window 2024-07-01 up to 2025-07-01 that zakatTaxController.ts:124-125 hard-codes, not over the current fiscal year; the model takes that sum as the parameter `incomeSum` and promises nothing about other years.
- Non-ASCII case mapping: `Js.ToLower` and `Js.ToUpper` change only the ASCII letters and keep the length, while JavaScript also maps other letters and can lengthen a text ("ß" to "SS", "ſ" and the "ﬆ" ligature to "S" and "ST"). The asset type tests of AssetList and AssetSlice, the chatbot's keyword topics and the zakat bucket choice follow JavaScript only on ASCII text.
- AssetList.CardOf: sums quantity and current_value as numbers, standing for the intended card (see Findings); as written these fields arrive as text and `+` joins them, which QuantityTotalAsWritten models for the quantity shown. ValuesPartition and TotalValuePrepend hold under the numeric reading; the value total is never shown, since AssetCard does not read its totalValue prop.
- BudgetSlice.KnownColor: looks a name up among the table's own entries only; in JavaScript the names of inherited object members ("constructor", "toString" and the like) find a function value, which the page would then use as a colour (frontend/src/store/slices/budgetSlice.ts:231-232), and the model gives those names the random colour instead.
- Locale and collation: `DayLabels` writes English short month names where the page asks the runtime's default locale, and `Sorting.StrLe` orders names by character code where PostgreSQL uses the database's collation; both depend on the deployment, not on the code.
- TransactionsPage imports `../components/TransactionForm`, `../components/TransactionItem` and `../components/TransactionSummary`; no TransactionForm or TransactionItem file exists at those paths in the repository, and the top-level TransactionSummary.tsx takes other props than the page passes. The model takes the page to render the components/transaction/ files, whose props match what the page passes; the TransactionForm finding rests on that reading.

## Findings

| source | as written | input that shows it | evidently intended | confidence | as-written member | corrected member |
|---|---|---|---|---|---|---|
| backend/src/controllers/dashboardController.ts:25-35 | the month's window is `BETWEEN` the first day at midnight and the last day at midnight, so a transaction on the month's last day after midnight is left out of the budget spent and the category breakdown | a debit at 10:00 on 31 January 2025, with the dashboard asked for in January | the window covers the whole last day | not executed | DashboardController.WindowAsWrittenMissesLastDay, DashboardController.LastDayTransactionMissed | DashboardController.GetDashboardData |
| frontend/src/pages/ResetPassword.tsx:37-42 | the error list is built from the requirement flags of the previous password, so the submit button can be enabled for a password that fails a requirement | type "Abcdefg1", delete its last character, and confirm with "Abcdefg" | the list describes the current password, so an enabled button means a strong password | not executed | ResetPassword.ResetPasswordPage.HandlePasswordChangeAsWritten, ResetPassword.StaleFlagsAdmitShortPassword | ResetPassword.ResetPasswordPage.HandlePasswordChange, ResetPassword.EnabledMeansStrong |
| frontend/src/components/transaction/TransactionForm.tsx:34-35 | the form reads `transactionDate` and `category` from its initial values, but the page passes the stored record (TransactionsPage.tsx:97), taking the page's `../components/TransactionForm` import to be this file (see Left out), whose fields are `transaction_date` and `category_name`. An untouched edit is saved with the current instant and an empty category. | edit a transaction dated 2024-01-15 and save it unchanged | the edit starts from the record's own date and category | not executed | TransactionForm.InitialFromEditing, TransactionForm.EditLosesDateAndCategory, TransactionForm.EditLosesDateExample | TransactionForm.InitialFromEditingCorrected, TransactionForm.EditKeepsDateAndCategory |
| frontend/src/pages/RecurringCalendarPage.tsx:268 | the headers run Mon to Sun, but the grid is padded with the Sunday-first `getDay()` (line 118), so every cell sits under the name of the weekday after its own | January 2023: Sunday the 1st is the first cell, under "Mon" | Sunday-first headers, as CalendarGrid.tsx:16 has | not executed | RecurringCalendarPage.HeadersMislabelCells, RecurringCalendarPage.MislabelExample | RecurringCalendarPage.HeadersNameCells |
| frontend/src/components/assets/AssetList.tsx:80 | the gold and stock cards total the quantities with `reduce((sum, asset) => sum + asset.quantity, 0)`, but the DECIMAL columns of the uncast `SELECT a.*` (backend/src/services/assetService.ts:267) reach the page as text, so `+` joins texts after the starting 0 and AssetCard.tsx:54 shows that text | two gold holdings stored with quantities 2.5 and 1: the card reads "02.51 tola" | the card shows the numeric total, 3.5 tola | not executed | AssetList.QuantityTotalAsWritten, AssetList.QuantityTotalConcatenates, AssetList.GoldQuantityConcatenated | AssetList.CardOf, AssetList.TotalQuantityAppend |
