# Car dealership back office — a verified model of its core

This project models the server-side logic of a car-dealership back office in Dafny. Staff
with four roles work on one shared store of cars, expenses, customers, sales and users:

- OWNER, SALESPERSON, MECHANIC and VIEWER are the roles.
- The request handlers list the store with filters, create cars, customers and expenses,
  register users, and record sales.
- The dashboard and the sales report aggregate rows already fetched.

The model covers:

- **Sale recording** (`SalesRoute.RecordSale`). This is the one handler that changes three
  entities at once:
  - It runs its checks in order: session, role, body, car lookup, "already sold".
  - It computes the profit from the car's expenses at the moment of sale.
  - One transaction then inserts the sale, marks the car SOLD and marks the customer
    SOLD. The contract says all three writes happen, or the store is left unchanged.
- **The store** (`Store.Store`). A class with one field per table. Its invariant
  (`Store.Consistent`) is kept by every write handler. It says:
  - ids match their keys, and VINs, plates and user emails are unique;
  - expenses point at existing cars and users;
  - every recorded sale is fully applied, and a car is sold at most once.
- **The list handlers** for cars, sales, customers and expenses. Each builds its filter
  step by step. A parameter applies only when given (present and non-empty); an enum
  parameter applies only when it names a member. The cars list adds sorting and paging.
  The car object of every listed car and sale has its `purchasePrice` removed for
  SALESPERSON. The other keys of the cars listing (a sold car's included sale) and of the
  sales listing, and the sales report, still let a salesperson work the price out (see
  Findings).
- **The create handlers** for cars, customers, expenses and users. Each has its role gate,
  its value normalisation (`|| null`) and its unique or foreign-key failures.
- **The dashboard** (`DashboardStats`). Over the fetched rows it computes inventory value,
  old stock, the month's revenue and profit, averages, the best-selling make (a counting
  loop plus a first-wins maximum), the most profitable sale and the six-month trend.
- **The sales report**: its rows and summary.
- **The validators** (the zod schemas) and **the error classifier**, which maps thrown
  errors to HTTP statuses.

Conventions:

- Money is `real`; the JavaScript numbers are doubles, and rounding is not modelled.
- Instants on the dashboard are integer milliseconds. Stored dates are the validated
  strings.
- Query results, "now", the database-generated id of a new row, bcrypt hashing and the
  email syntax check are inputs to the model. So is whether `new Date(text)` gives a
  valid date (the `isDate` parameter). The validators accept any non-empty date text;
  the handlers turn it into a `Date`, and an Invalid Date makes Prisma throw a validation
  error before any row is written.
- A request body is a map from field names to JSON values.

Two choices follow the handlers' own code:

- The sale handler refuses a car only when it already has a sale
  (src/app/api/sales/route.ts:107); a car whose status is SOLD without a sale row is not
  refused. The model does the same (`Store.CarHasSale`). The refusal is a 400.
- The enumerations come from the validators and the colour/label tables, not from the
  type declarations in src/types/index.ts, which disagree with them.

## Model

| member | source | states |
|---|---|---|
| SalesRoute.RecordSale | src/app/api/sales/route.ts:80-160 | 401 without a session; 403 exactly for VIEWER and MECHANIC, whatever the body and store; a validation failure is reported; 404 iff the car id is unknown; "already sold" iff the car has a sale; an unparseable sale date is an Invalid Date error with no status; otherwise the sale is created iff the transaction can commit; on success the new sale's fields, its stored profit, the one appended sale, the car set to SOLD and the customer set to SOLD; on every other outcome the store is unchanged; the store invariant is kept |
| SalesRoute.RecordValidSale | src/app/api/sales/route.ts:97-154 | after validation: not-found / already-sold / failed / created classification; created iff the car exists unsold, the sale date is a valid date and the rows can be inserted; profit = sale price − purchase price − the car's expense total at sale time; a failure is the Invalid Date error iff the date is invalid, and otherwise a Prisma known-request error whose code is P2002 exactly when the new id is taken; all three writes or none |
| SalesRoute.CommitSale | src/app/api/sales/route.ts:120-154 | the transaction: an Invalid Date fails first, then a taken id (P2002), then a missing customer or seller (P2003); it commits iff none of these holds, and then the store has exactly the one new sale, the car SOLD and the customer SOLD; a failure leaves the store unchanged; the store invariant is kept |
| SalesRoute.SellerOf | src/app/api/sales/route.ts:126 | the seller is the one given in the body when non-empty, otherwise the caller |
| SalesRoute.SaleStatus | src/app/api/sales/route.ts:83-159 | 201 exactly for a created sale; a validation or database error yields no status, because the catch block does not return the classifier's response |
| SalesRoute.IsValidPaymentStatus | src/app/api/sales/route.ts:9-11 | true iff the text is the wire name of some payment status |
| SalesRoute.BuildSaleWhere | src/app/api/sales/route.ts:20-35 | the date filter exists iff a bound is given, each bound set independently from its own parameter; the payment-status filter exists iff the parameter is a valid status, and it is that status |
| SalesRoute.ViewSale | src/app/api/sales/route.ts:50-68 | the listed profit is recomputed from the car's current expenses; the expense total is their sum; all other sale fields are unchanged; the car is redacted for the caller's role |
| SalesRoute.ViewSales | src/app/api/sales/route.ts:50-70 | one view per fetched sale, same order |
| SalesRoute.ListedProfitDrift | src/app/api/sales/route.ts:50-55 | the listed profit equals the stored profit minus the expenses recorded against the car after the sale |
| SalesRoute.RecordedExpenseLowersListedProfit | src/app/api/expenses/route.ts:188-198 | recording an expense leaves the sale row and its stored profit as they were, while the listed profit of the sale of that car drops by the amount; an expense of another car changes neither |
| SalesRoute.SalespersonListingRevealsPrice | src/app/api/sales/route.ts:50-68 | as written: with the car redacted, sale price − listed profit − expense total is still the purchase price, so two sales that differ only in purchase price are listed differently to a salesperson |
| SalesRoute.GuardedViewSale | src/app/api/sales/route.ts:50-68 | the corrected listing: the profit is withheld exactly from SALESPERSON along with the purchase price; every other key is as the listing sends it, and every other role also gets the listed profit |
| SalesRoute.GuardedListingHidesPurchasePrice | src/app/api/sales/route.ts:60-66 | with the corrected listing, what a salesperson receives does not depend on the car's purchase price or the sale's stored profit |
| Store.Redact | src/app/api/cars/route.ts:84-89 | purchasePrice is omitted iff the role is SALESPERSON and is otherwise the car's own; id, details and status pass through unchanged |
| Store.RedactRoundTrip | src/app/api/cars/route.ts:87-88 | every role but SALESPERSON can rebuild the full car from the redacted car object; from a salesperson's car object it cannot be rebuilt |
| Store.RedactionHidesPurchasePrice | src/app/api/sales/route.ts:60-66 | the redacted car object a salesperson receives does not depend on the purchase price |
| Store.CarExpenses | src/app/api/sales/route.ts:98-101 | every expense fetched with a car is a stored expense of that car, and every stored expense of that car is fetched |
| Store.CarExpenseTotalAppend | src/app/api/sales/route.ts:114-117 | a car's expense total over two batches of expenses is the sum of the two totals |
| Store.ExpenseTotalAfterAppend | src/app/api/expenses/route.ts:188-198 | recording an expense raises its car's total by its amount and leaves every other car's total unchanged |
| Store.SaleCommitConsistent | src/app/api/sales/route.ts:121-154 | committing a sale of an unsold car, with a fresh id and an existing customer and seller, keeps the store invariant |
| Store.CarInsertConsistent | src/app/api/cars/route.ts:120-130 | inserting a car with a fresh id and no VIN or plate clash keeps the store invariant |
| Store.CustomerInsertConsistent | src/app/api/customers/route.ts:114-122 | inserting a customer with a fresh id keeps the store invariant |
| Store.ExpenseAppendConsistent | src/app/api/expenses/route.ts:182-198 | appending an expense with a fresh id, an existing car and an existing or null author keeps the store invariant |
| Store.UserInsertConsistent | src/app/api/auth/register/route.ts:12-32 | inserting a user with a fresh id and an unused email keeps the store invariant |
| Access.GatesNested | src/app/api/sales/route.ts:87-92 | whoever may sell may write; MECHANIC is exactly the role that may write but not sell; VIEWER is exactly the role that may do neither |
| CarsRoute.IsValidCarStatus | src/app/api/cars/route.ts:10-12 | true iff the text is the wire name of some car status |
| CarsRoute.BuildCarWhere | src/app/api/cars/route.ts:21-53 | status only when it is a valid status; make when given; the targetPrice range exists iff a bound is given, with gte iff minPrice is given and lte iff maxPrice is given (parsed); search gives exactly the four conditions on make, model, vin and licensePlate |
| CarsRoute.ListOrdering | src/app/api/cars/route.ts:27-28 | sorts by createdAt, descending, unless given |
| CarsRoute.PageWindow | src/app/api/cars/route.ts:72-73 | page and limit default to 1 and 50 when not given; skip + take = page · take, so skip = (page − 1) · limit |
| CarsRoute.TotalPages | src/app/api/cars/route.ts:96 | the ceiling of total / limit: enough pages for every row, and one fewer would not be |
| CarsRoute.LastPageIsLast | src/app/api/cars/route.ts:72-73 | the last page starts before the end of the result and the page after it starts at or past the end |
| CarsRoute.ListCar | src/app/api/cars/route.ts:79-90 | totalExpenses is the sum of the car's expense amounts; the car is redacted for the role; its expenses and its included sale pass through |
| CarsRoute.Listing | src/app/api/cars/route.ts:92-97 | one item per fetched car, in order, with total, page and the page count |
| CarsRoute.SalespersonListingIgnoresPrices | src/app/api/cars/route.ts:87-88 | two fetches that differ only in the cars' purchase prices, with the same included sales, give a salesperson the same listing |
| CarsRoute.CarsListingRevealsPrice | src/app/api/cars/route.ts:58-90 | as written: for a sold car with no expense recorded since the sale, sale price − stored profit − expense total in a salesperson's listing is the purchase price, so two such cars differing only in purchase price are listed differently |
| CarsRoute.GuardedListCar | src/app/api/cars/route.ts:79-90 | the corrected item: the included sale's stored profit is withheld exactly from SALESPERSON (and sent to every other role); the sale's other keys, the redacted car, the expenses and their total are as the listing sends them |
| CarsRoute.GuardedListing | src/app/api/cars/route.ts:79-97 | the corrected response: one corrected item per fetched car, in order, with the listing's total, page and page count |
| CarsRoute.GuardedCarListingHidesPurchasePrice | src/app/api/cars/route.ts:58-90 | with the corrected listing, what a salesperson receives does not depend on any car's purchase price or any stored sale profit |
| CarsRoute.CarCreateError | src/app/api/cars/route.ts:133-145 | P2002 gives 400 with the VIN/plate message; any other error goes to the shared classifier; the status is always the classifier's |
| Common.NumberOrNull | src/app/api/cars/route.ts:124 | JavaScript `value or null` on a number: a missing or zero number is stored as null and any other number is kept; the sale handler applies the same rule to the commission (src/app/api/sales/route.ts:131) |
| CarsRoute.NewCar | src/app/api/cars/route.ts:120-125 | the stored car carries the new id and the validated status, purchase price, VIN and plate, with the minimum price passed through `Common.NumberOrNull` |
| CarsRoute.CreateCar | src/app/api/cars/route.ts:103-147 | 401/403 for no session or VIEWER/MECHANIC; validation issues give 400 with one detail per issue; an unparseable purchase date gives the classifier's 400 and no change; a clash on id, VIN or plate gives 400 with the VIN/plate message and no change; otherwise exactly that car is added; the store invariant is kept |
| CarsRoute.InsertCar | src/app/api/cars/route.ts:120-145 | after validation: an unparseable purchase date gives the classifier's 400 "Invalid data provided" and leaves the store unchanged; otherwise a clash on id, VIN or plate gives 400 with the VIN/plate message and leaves the store unchanged; otherwise exactly the new car is added and the store invariant is kept |
| CustomersRoute.IsValidCustomerStatus | src/app/api/customers/route.ts:9-11 | true iff the text names a customer status |
| CustomersRoute.IsValidLeadSource | src/app/api/customers/route.ts:13-15 | true iff the text names a lead source |
| CustomersRoute.BuildCustomerWhere | src/app/api/customers/route.ts:24-57 | status and leadSource only when valid members; search gives exactly the name, phone and email conditions; the follow-up window exists iff the parameter is exactly "true", starts at the start of today and spans one day |
| CustomersRoute.NewCustomer | src/app/api/customers/route.ts:114-121 | an empty or missing email and an empty or missing follow-up date are stored as null; the other values are kept |
| CustomersRoute.CreateCustomer | src/app/api/customers/route.ts:97-128 | 403 only for VIEWER; validation issues go to the classifier; a non-empty follow-up date that is no valid date gives the classifier's 400 and no change; a taken id is a unique violation; otherwise exactly that customer is added; the store invariant is kept |
| ExpensesRoute.IsValidExpenseType | src/app/api/expenses/route.ts:109-111 | true iff the text names an expense type |
| ExpensesRoute.BuildExpenseWhere | src/app/api/expenses/route.ts:120-139 | carId filter iff given; type only when valid; date bounds inclusive and set independently |
| ExpensesRoute.ResolvedUserId | src/app/api/expenses/route.ts:182-186 | the author is the caller iff the caller's user row exists, otherwise null |
| ExpensesRoute.NewExpense | src/app/api/expenses/route.ts:188-193 | the stored expense carries the new id, the validated car, type, amount, date, description and vendor, and the resolved author |
| ExpensesRoute.CreateExpense | src/app/api/expenses/route.ts:164-204 | 403 only for VIEWER; validation issues go to the classifier; an unparseable date gives the classifier's 400 and no change; then a taken id is P2002; an unknown car is P2003 (400); otherwise exactly that expense is appended; the store invariant is kept |
| SalesReport.SellerLabel | src/app/api/reports/sales/route.ts:46 | the seller's name when it is non-empty, otherwise "N/A" |
| SalesReport.ReportRowOf | src/app/api/reports/sales/route.ts:38-53 | a row's expenses are the sum of the car's expense amounts; profit + purchase price + expenses = sale price; id, prices, customer and seller are taken from the sale |
| SalesReport.ReportRows | src/app/api/reports/sales/route.ts:38-54 | one row per fetched sale, same length and order |
| SalesReport.ReportProfitMatchesListing | src/app/api/reports/sales/route.ts:39-40 | the report shows the same profit for a sale as the sales listing |
| SalesReport.Summarize | src/app/api/reports/sales/route.ts:56-68 | totalSales is the row count; revenue and profit are 0 for no rows; avgProfit is 0 for no rows and otherwise totalProfit / totalSales |
| SalesReport.TotalsIdentity | src/app/api/reports/sales/route.ts:56-58 | summing the per-row identity: total profit = total revenue − Σ purchase prices − total expenses |
| SalesReport.SummaryProfitIdentity | src/app/api/reports/sales/route.ts:56-66 | the same identity for the report's own summary, with totalSales equal to the number of fetched sales |
| SalesReport.ReportRevealsPurchasePrice | src/app/api/reports/sales/route.ts:8-13 | as written: the report, open to every signed-in role, carries each car's purchase price, so two sales that differ only in purchase price give different rows |
| SalesReport.GuardedReportRowOf | src/app/api/reports/sales/route.ts:38-53 | the corrected row: purchase price and profit are withheld exactly from SALESPERSON; every other role gets them as the report sends them; the other keys are the report's |
| SalesReport.GuardedReportOf | src/app/api/reports/sales/route.ts:38-66 | the corrected report: one corrected row per fetched sale; the summary's count, revenue and expenses are the report's, and its total and average profit are withheld exactly from SALESPERSON |
| SalesReport.GuardedReportHidesPurchasePrice | src/app/api/reports/sales/route.ts:38-66 | with the corrected report, what a salesperson receives does not depend on any car's purchase price or any sale's stored profit |
| RegisterRoute.Register | src/app/api/auth/register/route.ts:7-45 | a validation failure goes to the classifier and changes nothing; a used email gives 400 and no change; a taken id is a unique violation; otherwise exactly one user is added, with the validated name, email, role and phone and with the hash of the password; the response holds only id, name, email and role; the store invariant is kept |
| DashboardStats.InventoryValueDecomposes | src/app/api/dashboard/stats/route.ts:607-610 | inventory value = Σ purchase prices + Σ per-car expense totals over the cars in stock |
| DashboardStats.InventoryValueOrderFree | src/app/api/dashboard/stats/route.ts:607-610 | the inventory value does not depend on the order of the fetched cars |
| DashboardStats.InventoryValueRemove | src/app/api/dashboard/stats/route.ts:607-610 | taking one car out of the fetched cars lowers the inventory value by exactly that car's purchase price plus its expenses |
| DashboardStats.InventoryValueAtLeastCost | src/app/api/dashboard/stats/route.ts:607-610 | with no negative expense, the inventory is worth at least its summed cost basis |
| DashboardStats.OldIndicesSnoc | src/app/api/dashboard/stats/route.ts:612-614 | one more car in stock adds its position to the old positions exactly when it was bought before the cutoff |
| DashboardStats.OldInventoryCount | src/app/api/dashboard/stats/route.ts:612-614 | the count is the number of positions whose car was bought before the cutoff; it never exceeds the number of cars in stock; it is 0 iff no car was bought before the cutoff, and it is all of them iff every car was |
| DashboardStats.ProfitIsRevenueLessCosts | src/app/api/dashboard/stats/route.ts:616-623 | the summed recomputed profit = revenue − the cost basis and expenses of the cars sold |
| DashboardStats.ThisMonth | src/app/api/dashboard/stats/route.ts:616-623 | the month's count is its row count and its profit is its revenue less its costs |
| DashboardStats.ThisMonthIgnoresStoredProfit | src/app/api/dashboard/stats/route.ts:620-623 | the month summary does not depend on the stored profits of the sales |
| DashboardStats.DaysToSell | src/app/api/dashboard/stats/route.ts:628-632 | the whole days from purchase to sale, rounded down (floor division by a day of milliseconds) |
| DashboardStats.AvgDaysToSell | src/app/api/dashboard/stats/route.ts:625-635 | 0 with no recent sales; otherwise the mean times the count equals the summed days |
| DashboardStats.AvgProfit | src/app/api/dashboard/stats/route.ts:637-641 | 0 with no recent sales; otherwise the mean times the count equals the summed stored profits |
| DashboardStats.NullProfitCountsAsZero | src/app/api/dashboard/stats/route.ts:639 | a null stored profit changes the average exactly as a stored 0 would |
| DashboardStats.Round | src/app/api/dashboard/stats/route.ts:705-706 | the integer nearest the value, halves rounded up |
| DashboardStats.FirstOccurrences | src/app/api/dashboard/stats/route.ts:643-647 | the tally's keys are the distinct makes, without repeats, in order of first sale |
| DashboardStats.CountMakes | src/app/api/dashboard/stats/route.ts:643-646 | the tally has an entry for exactly the makes sold, each holding the number of sales of that make; its key order is first-occurrence order |
| DashboardStats.MakeCountsSumToSales | src/app/api/dashboard/stats/route.ts:643-646 | the make counts add up to the number of sales |
| DashboardStats.BestEntry | src/app/api/dashboard/stats/route.ts:647-649 | none iff the tally is empty; otherwise a key of the tally with its count |
| DashboardStats.BestSellingMakeIsFirstMost | src/app/api/dashboard/stats/route.ts:647-649 | null iff there are no sales; otherwise a sold make with its true count, no make sold more, and every make first sold earlier sold strictly less, so ties go to the first make encountered |
| DashboardStats.MostProfitableSale | src/app/api/dashboard/stats/route.ts:651-667 | null iff there are no sales this month; otherwise a sale of the month, labelled "make model", whose recomputed profit is at least every sale's and strictly above every earlier sale's, so the first maximum wins |
| DashboardStats.TrendOffsets | src/app/api/dashboard/stats/route.ts:502-517 | six windows, i − 5 months from now for i = 0..5, oldest first |
| DashboardStats.MonthlyTrend | src/app/api/dashboard/stats/route.ts:669-685 | six points; each point's sales is its window's row count, and its revenue and profit use the month-summary formulas |
| DashboardStats.TrendEndsWithThisMonth | src/app/api/dashboard/stats/route.ts:669-685 | the trend's months run consecutively and end at the current month; over the same sales, its last point agrees with the month summary |
| DashboardStats.ComputeStats | src/app/api/dashboard/stats/route.ts:687-724 | lowStock iff fewer than 5 cars are in stock; old inventory ≤ cars in stock; both averages are 0 with no recent sales; each field is the corresponding reduction, the best make being the one the counting loop yields |
| Common.FirstArgMax | src/app/api/dashboard/stats/route.ts:653-666 | the index of a largest score, with every earlier score strictly smaller (a left fold that switches only on a strictly larger score) |
| Common.BuildDateRange | src/app/api/reports/sales/route.ts:20-26 | the date filter exists iff either bound is given; each bound is set from its own parameter alone |
| Common.NatToString | src/app/api/reports/sales/route.ts:44 | a non-empty string of decimal digits, starting with '0' only for 0 |
| Common.IntToString | src/app/api/reports/sales/route.ts:44 | non-empty; starts with '-' iff the number is negative, and every other character is a decimal digit; no leading zero on a non-negative number other than 0 |
| Common.Join | src/lib/error-handler.ts:16 | joining nothing gives "", and joining one part gives that part |
| Enums.ParseRole | src/lib/validations.ts:14 | recognises exactly the four role names |
| Enums.ParseCarStatus | src/lib/validations.ts:39-41 | recognises exactly the five car status names |
| Enums.ParseCustomerStatus | src/lib/validations.ts:65-74 | recognises exactly the six customer status names |
| Enums.ParseLeadSource | src/lib/validations.ts:56-64 | recognises exactly the seven lead source names |
| Enums.ParsePaymentMethod | src/lib/validations.ts:89 | recognises exactly the four payment method names |
| Enums.ParsePaymentStatus | src/lib/validations.ts:90-92 | recognises exactly the three payment status names |
| Enums.ParseExpenseType | src/lib/validations.ts:128-135 | recognises exactly the six expense type names |
| Utils.CalculateProfit | src/lib/utils.ts:45-51 | profit + purchase price + expenses = sale price; with non-negative expenses the profit never exceeds sale price − purchase price |
| Utils.ColorOr | src/lib/utils.ts:67 | the mapped class for a key present with a non-empty class, otherwise the grey default |
| Utils.GetCarStatusColor | src/lib/utils.ts:59-68 | each of the five statuses gets its own class, different from the default; any other text gets the grey default |
| Utils.GetCustomerStatusColor | src/lib/utils.ts:70-80 | each of the six statuses gets its own class; any other text gets the grey default |
| Utils.GetPaymentStatusColor | src/lib/utils.ts:82-89 | each of the three statuses gets its own class; any other text gets the grey default |
| Utils.GetPriorityColor | src/lib/utils.ts:91-99 | a known priority gets its mapped class; the class differs from the default iff the priority is MEDIUM, HIGH or URGENT (LOW maps to grey) |
| Utils.CarStatusColorsDistinct | src/lib/utils.ts:59-68 | distinct car statuses get distinct colours |
| Utils.CustomerStatusColorsDistinct | src/lib/utils.ts:70-80 | distinct customer statuses get distinct colours |
| Utils.PaymentStatusColorsDistinct | src/lib/utils.ts:82-89 | distinct payment statuses get distinct colours |
| Utils.CarStatusLabelsMatchEnum | src/lib/utils.ts:102-108 | every car status the validator accepts has a label, and every label key is such a status |
| Utils.CustomerStatusLabelsMatchEnum | src/lib/utils.ts:110-117 | the same for customer statuses |
| Utils.LeadSourceLabelsMatchEnum | src/lib/utils.ts:119-127 | the same for lead sources |
| Utils.PaymentLabelsMatchEnums | src/lib/utils.ts:129-140 | the same for payment methods and payment statuses |
| Utils.ExpenseTypeLabelsMatchEnum | src/lib/utils.ts:142-149 | the same for expense types |
| Utils.PriorityTablesAgree | src/lib/utils.ts:151-156 | the priority labels and the priority colours know the same four priorities |
| Validations.RequiredString | src/lib/validations.ts:10 | a value iff the field is a string; no issue iff it is a string at least `min` long |
| Validations.EmailString | src/lib/validations.ts:11 | no issue iff the field is a string that passes the email check |
| Validations.OptionalString | src/lib/validations.ts:15 | no issue iff the field is absent or a string; the value is the string or nothing |
| Validations.NullableString | src/lib/validations.ts:75-76 | no issue iff the field is absent, null or a string; null and absent both give nothing |
| Validations.EnumField | src/lib/validations.ts:89 | no issue iff the field is a string naming a member; the value is that member |
| Validations.EnumDefault | src/lib/validations.ts:90-92 | an absent field gives the default; a present one must name a member |
| Validations.NonNegativeNumber | src/lib/validations.ts:31 | a value iff the field is a number; no issue iff it is also at least 0 |
| Validations.ToNumber | src/lib/validations.ts:85 | Number(): undefined is NaN, null is 0, a number is itself |
| Validations.StringToNumber | src/lib/validations.ts:85 | Number() of the empty string is 0 |
| Validations.NatDigitsRoundTrip | src/lib/validations.ts:85 | the digits of a whole number read back, as an unsigned decimal, as that number |
| Validations.NatTextRoundTrip | src/lib/validations.ts:85 | the decimal text of a whole number converts back to that number |
| Validations.IntTextRoundTrip | src/lib/validations.ts:85 | the decimal text of any integer, a leading '-' included, converts back to that integer |
| Validations.RegisterFieldIssues | src/lib/validations.ts:9-16 | no field issue iff every field has its type, the name has at least 2 characters, the email passes the email check and the password has at least 6; the password-mismatch issue is never among the field issues |
| Validations.ParseRegister | src/lib/validations.ts:8-20 | accepts iff the schema's conditions hold (name ≥ 2, valid email, password ≥ 6, role a member, password = confirmation); the mismatch issue, at path confirmPassword, is reported iff the fields are well-typed and the two passwords differ |
| Validations.YearField | src/lib/validations.ts:25-29 | accepts only an integer in [1900, current year + 1] |
| Validations.MinimumPriceField | src/lib/validations.ts:38 | accepts an absent minimum price or a number ≥ 0 |
| Validations.ParseCar | src/lib/validations.ts:22-44 | accepts iff every field has its type and bound: year an integer in [1900, current year + 1]; mileage, purchasePrice and targetPrice ≥ 0; status defaults to AVAILABLE |
| Validations.CustomerEmailField | src/lib/validations.ts:49-54 | null, absent, "" or a valid address are accepted |
| Validations.ParseCustomer | src/lib/validations.ts:46-77 | accepts iff the schema's conditions hold; status defaults to NEW_LEAD; email and followUpDate are kept as given |
| Validations.SalePriceField | src/lib/validations.ts:83-87 | "", null or a missing value is refused as required; otherwise Number(value), which must be a number ≥ 0 |
| Validations.CommissionField | src/lib/validations.ts:93-97 | "", null or a missing value becomes null and is accepted; otherwise Number(value), which must not be NaN |
| Validations.ParseSale | src/lib/validations.ts:79-98 | accepts iff the schema's conditions hold; a blank sale price is refused as required; the price is Number(value) ≥ 0; paymentStatus defaults to PENDING; a blank commission gives none |
| Validations.AmountField | src/lib/validations.ts:136 | no issue iff Number(amount) is a number ≥ 0 |
| Validations.ParseExpense | src/lib/validations.ts:126-140 | accepts iff the schema's conditions hold; the amount is Number(value) ≥ 0; the description is non-empty |
| Validations.AmountCoercion | src/lib/validations.ts:136 | an amount sent as null or "" is accepted as 0, while a missing amount is refused |
| ErrorHandler.IssueDetails | src/lib/error-handler.ts:15-18 | one detail per issue, whose field is the path joined by "." and whose message is the issue's |
| ErrorHandler.UniqueTargetText | src/lib/error-handler.ts:27-28 | the target fields joined by ", ", or "fields" when there is no target or it joins to "" |
| ErrorHandler.HandleApiError | src/lib/error-handler.ts:9-63 | the status is 400, 404 or 500; 404 iff P2025; 500 iff the error is none of: a Zod error, a Prisma validation error, P2002, P2025, P2003; Zod errors carry their details; the P2002 message names the target |
| ErrorHandler.GetErrorMessage | src/lib/error-handler.ts:73-84 | an Error's message, else a string itself, else an object's string `error` field, else the default text |
| ErrorHandler.HandleClientError | src/lib/error-handler.ts:101-104 | the message shown is the one extracted from the error, whatever the context |
| ErrorHandler.ServerMessageReachesClient | src/lib/error-handler.ts:73-84 | handed a server error response body, the client extracts the server's error text |

## Left out

- HTTP plumbing is not modelled: NextResponse, request parsing, session lookup (the
  session is an `Option<Session>` input), and the 401 branches of the read handlers.
- Prisma itself is not modelled. Query results of the read handlers are inputs. Filters
  are modelled as the `where` values the handlers build. Sorting, `skip`/`take`, `groupBy`
  and the `include` shapes are not executed.
- `Promise.all` on the dashboard is modelled as a sequence of inputs.
- The sale handler's existence and already-sold checks run outside the transaction. Two
  concurrent requests can both pass them. The model is sequential and claims nothing
  under concurrency.
- Calendar arithmetic is not modelled: the month windows built with
  `new Date(y, m, 0, 23, 59, 59)` and the local midnight of "today". Window bounds are
  inputs or month offsets. The 60-day cutoff is 60 days of milliseconds, ignoring
  daylight-saving changes. The last second of a month after 23:59:59 falls in no window
  in the code, and this is not modelled either.
- `toLocaleString` month labels, date-fns formatting and Intl currency and number
  formatting are left out.
- Floating point is not modelled. Money is `real`, so sums are exact. `Math.round` and the
  floor are exact on reals and integers.
- CarsRoute.PageWindow: page and limit are taken as already-parsed integers. The NaN that
  `parseInt` gives for non-numeric text is not modelled.
- CarsRoute.TotalPages requires limit > 0. The code divides by any limit, giving
  Infinity or NaN.
- CarsRoute.BuildCarWhere: `parseFloat` is an uninterpreted function parameter.
- Validations.StringToNumber covers the decimal forms with an optional sign. It treats as
  NaN the whitespace, exponent, hexadecimal and Infinity forms that `Number()` also
  accepts. Validations.ToNumber treats every array and object as NaN, although
  `Number([])` is 0.
- Validations: the default zod messages are abbreviated ("Required", "Invalid input").
  The email syntax check is a parameter.
- Bcrypt hashing is a function parameter. Nothing is claimed about it beyond the stored
  password being its output.
- DashboardStats.CountMakes uses the key order of a JavaScript object: insertion order.
  Integer-like keys (a make named "2") would be enumerated first in JavaScript; that is
  not modelled.
- Utils: prototype keys such as "toString" would find an inherited property in a
  JavaScript object table. The model's tables have only their own keys.
- DashboardStats.CountMakes: the tally is a plain JavaScript object. A make named
  "constructor" or "toString" would start from the inherited function, not from 0, and
  "__proto__" is never stored as an own key. The model's map has only its own keys.
- DashboardStats.BestSellingMake: it reads the tally built by CountMakes, so the same
  prototype-key cases are not modelled.
- CarsRoute.ListCar: the photos, the included sale's customer and the `_count` figures
  that the code also passes through are not modelled; none of them carries a price.
- Store.RedactRoundTrip: speaks of the redacted car object only. The sales listing and
  the sales report carry the price in other keys; see Findings.
- Store.RedactionHidesPurchasePrice: speaks of the redacted car object only, for the same
  reason; the listing-wide and report-wide statements are under Findings.
- SalesRoute.SaleStatus: a validation or database error in the sale handler is passed to
  the classifier but no response is returned. The model records the error and no status.
- ErrorHandler.UniqueTargetText: the P2002 target is taken to be a list. A target given
  as a single string is not modelled.
- Customer follow-ups on the dashboard and the cars-by-status counts are database counts,
  so they are inputs.
- Sale deletion, car updates and the other `[id]` handlers are not modelled. They are not
  part of the modelled core.
- Logging (`logError`, `console.error`) is left out; it has no effect on any response.
- src/types/index.ts is not part of this model (type declarations only).
- Store.CarKeysUnique assumes the VIN and the plate are unique columns. The schema file is
  not part of this model, but the car handler's own P2002 message implies both columns
  are unique.

## Findings

| source | as written | input that shows it | evidently intended | confidence | as-written member | corrected member |
|---|---|---|---|---|---|---|
| src/app/api/sales/route.ts:50-68 | the listing removes the car's purchasePrice for SALESPERSON but still sends salePrice, the recomputed profit and totalExpenses | any sale listed to a salesperson: salePrice − profit − totalExpenses is the car's purchase price | a salesperson never learns a purchase price, so the profit is withheld from salespeople too | not executed | SalesRoute.SalespersonListingRevealsPrice | SalesRoute.GuardedViewSale, SalesRoute.GuardedListingHidesPurchasePrice |
| src/app/api/cars/route.ts:58-90 | the cars listing removes purchasePrice for SALESPERSON but spreads each car's included sale, stored profit and all, next to totalExpenses | a sold car with no expense recorded since its sale, listed to a salesperson: sale.salePrice − sale.profit − totalExpenses is its purchase price | a salesperson never learns a purchase price, so the included sale's profit is withheld from salespeople too | not executed | CarsRoute.CarsListingRevealsPrice | CarsRoute.GuardedListing, CarsRoute.GuardedCarListingHidesPurchasePrice |
| src/app/api/reports/sales/route.ts:8-13 | the report checks only for a session and sends every row's purchasePrice and profit to any role | a salesperson requesting the report of any period with a sale | the report's purchase prices and profit figures are withheld from salespeople | not executed | SalesReport.ReportRevealsPurchasePrice | SalesReport.GuardedReportOf, SalesReport.GuardedReportHidesPurchasePrice |
