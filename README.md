# FinanceFlow business rules in Dafny

FinanceFlow is a personal-finance dashboard. It keeps holdings (cash,
investments, crypto, property, debts, receivables), income and expense
transactions under user-defined categories, monthly budgets, and a small kanban
board of tasks. Most of it is user interface. This project models the business rules
its components contain, and proves what those rules promise:

- **Debt and receivable settlement** (`DebtSettlement`). The payment dialog
  computes the amount paid and the holding's new balance, in rupiah or in coin
  units. It writes the holding, then appends a ledger entry if recording is
  on. `Store` is an in-memory stand-in for the two tables. `DebtDialog` holds
  the form, and `DebtDialog.HandleUpdate` makes the two writes in the order
  the code does. The pure rule `Compute` is the specification the method is
  proved against.
- **Asset editing** (`AssetEditing`). This covers:
  - when the unit-price fields apply;
  - the rounded initial and current values and the profit or loss;
  - the saved row, which nulls the unit columns outside unit mode;
  - the form handlers: open, change of type, coin selection and applying a
    fetched price. They are methods of `EditAssetForm`.
- **Aggregations**:
  - budget totals, percentages and messages (`BudgetList`);
  - the seven-day income and expense bars and the per-type asset pie
    (`DashboardCharts`);
  - monthly buckets sorted by month, with their balance (`MonthlyChart`);
  - per-category totals, percentages, names, colours and the descending sort
    (`CategoryBreakdown`).

  The shared insertion-ordered group-and-sum fold is in `Grouping`.
- **Filters, partitions and small state machines**:
  - the transaction list's search, type and category filters
    (`TransactionList`);
  - the kanban board's columns and moves (`TaskBoard`);
  - the add-transaction form's guards and resets (`AddTransaction`);
  - the category manager's name validation and income and expense lists
    (`CategoryManager`).

`Common` holds the shared pieces:
- `Option`;
- `NumberField`, the text of a number input: blank, or a typed number;
- rounding, clamping and absolute value;
- JavaScript's `trim`, ASCII `toLowerCase` and `includes`.

`Types` holds the stored records. `Seqs` holds an order-preserving filter.

Money and quantities are exact `real`s. JavaScript's `Math.round(x)` is
`(x + 0.5).Floor`, which agrees with it on negative numbers too. Clock reads, the
signed-in user and the answers of database writes are parameters.

Where the description of the system and the code disagree, the model follows
the code. The settlement's two writes are described as one update, but the
code does not roll back the holding when the ledger insert fails.
`DebtDialog.HandleUpdate` states that outcome (`LedgerWriteFailed`, with the
holding already written).

## Model

| member | source | states |
|---|---|---|
| DebtSettlement.Compute | src/components/assets/update-debt-dialog.tsx:74-100 | Whatever is paid, the new value is never negative, and a non-negative quantity stays non-negative |
| DebtSettlement.FullPaymentClears | src/components/assets/update-debt-dialog.tsx:82-85 | A full payment pays the whole current value, and sets the new value and the new quantity to 0 |
| DebtSettlement.RupiahPayment | src/components/assets/update-debt-dialog.tsx:92-98 | A partial payment in rupiah pays exactly the input, with no cap at the balance. The new value is max(0, value - input). A coin-based holding with a positive price keeps quantity x price == value; any other holding keeps its quantity |
| DebtSettlement.UnitsPayment | src/components/assets/update-debt-dialog.tsx:88-91 | A partial payment in units at a positive price pays input x price. The new quantity is max(0, quantity - input), and the new value is the new quantity x price |
| DebtSettlement.UnitsWithoutPriceAreRupiah | src/components/assets/update-debt-dialog.tsx:88-94 | With no positive price, a units payment falls through to the rupiah rule and gives the same settlement |
| DebtSettlement.UnitsAgreeWithRupiah | src/components/assets/update-debt-dialog.tsx:88-98 | When value == quantity x price, paying u units and paying u x price rupiah give the same amount paid and the same new value; for a coin-based holding, the same settlement |
| DebtSettlement.ScaleMax0 | src/components/assets/update-debt-dialog.tsx:90-94 | Clamping at 0 commutes with scaling by a positive price, which is why the two partial-payment modes agree |
| DebtSettlement.DescriptionInjective | src/components/assets/update-debt-dialog.tsx:121 | The entry text "Bayar/Terima <name> (Lunas/Cicil)" determines the direction, the holding's name and the payment type |
| DebtSettlement.EntryDirection | src/components/assets/update-debt-dialog.tsx:82-122 | The ledger entry for a settlement is an expense exactly for a debt and income otherwise. It records the amount Compute says was paid: the whole value for a full payment, the input for a partial payment in rupiah, and input x price for a partial payment in units at a positive price |
| DebtSettlement.ConfirmEnabledHasCategory | src/components/assets/update-debt-dialog.tsx:248 | When confirm is enabled with recording on, the entry carries the chosen category, and a partial payment has an amount typed in |
| DebtSettlement.Patched | src/components/assets/update-debt-dialog.tsx:103-110 | The holding with the id gets the new value, quantity and timestamp. Every other holding is unchanged, and a missing id changes nothing |
| DebtSettlement.Store.UpdateAsset | src/components/assets/update-debt-dialog.tsx:103-112 | A failed update changes nothing. A successful one patches the row, and the ledger is untouched either way |
| DebtSettlement.Store.InsertTransaction | src/components/assets/update-debt-dialog.tsx:116-124 | A successful insert appends the entry at the end. A failed one changes nothing, and holdings are untouched either way |
| DebtSettlement.DebtDialog.Open | src/components/assets/update-debt-dialog.tsx:59-64 | Opening clears the amount and sets the mode to units exactly for a coin-linked holding. The other choices are kept |
| DebtSettlement.DebtDialog.HandleUpdate | src/components/assets/update-debt-dialog.tsx:67-135 | With no session nothing is written. A failed holding write stops before the ledger. Otherwise the holding gets Compute's new value, with a quantity only when it has a coin. The ledger entry is appended only when recording is on and the insert succeeds. Each outcome is reported, and nothing is rolled back |
| DebtSettlement.ScenarioFullDebt | src/components/assets/update-debt-dialog.tsx:82-85 | A debt of 1,000,000 paid in full goes to 0, and is recorded as an expense of 1,000,000 |
| DebtSettlement.ScenarioPartialReceivable | src/components/assets/update-debt-dialog.tsx:92-94 | A receivable of 200,000 paid 50,000 goes to 150,000, and is recorded as income of 50,000 in the chosen category |
| DebtSettlement.ScenarioUnitDebt | src/components/assets/update-debt-dialog.tsx:88-91 | A debt of 2 coins at 30,000,000, paid 0.5 coin, pays 15,000,000 and leaves 1.5 coins worth 45,000,000 |
| AssetEditing.FindCoin | src/components/assets/edit-asset-dialog.tsx:142 | The result is the first listed coin with the id: it has the id, and no coin before it does. None means no listed coin has that id |
| AssetEditing.ShowCryptoFields | src/components/assets/edit-asset-dialog.tsx:91-97 | The unit fields always show for crypto and investments and never for spending accounts, cash, property or other holdings. For a debt or a receivable they show exactly when the unit-mode switch is on |
| AssetEditing.InitialValue | src/components/assets/edit-asset-dialog.tsx:123-126 | 0 when the quantity or the buy price is 0. Otherwise quantity x buy price rounded to a whole number, within half a unit |
| AssetEditing.CurrentValue | src/components/assets/edit-asset-dialog.tsx:128-134 | In unit mode: 0 when the quantity or the price is 0, otherwise quantity x price rounded to a whole number. Outside unit mode it is the amount typed, made non-negative |
| AssetEditing.ScenarioValuation | src/components/assets/edit-asset-dialog.tsx:123-136 | 0.5 units bought at 500,000,000 and now at 600,000,000 give 250,000,000, 300,000,000 and a profit of 50,000,000 |
| AssetEditing.ProfitLoss | src/components/assets/edit-asset-dialog.tsx:136 | In unit mode with a quantity and both prices, the profit or loss is quantity x (current price - buy price) to within one rupiah of rounding. It is 0 when the current price equals the buy price |
| AssetEditing.PayloadOutsideUnitMode | src/components/assets/edit-asset-dialog.tsx:169-178 | Outside unit mode, quantity, buy price, current price, initial value and coin are null, and the value is the amount typed, made non-negative |
| AssetEditing.PayloadInUnitMode | src/components/assets/edit-asset-dialog.tsx:169-178 | In unit mode, quantity, initial value and coin are saved, a price of 0 is saved as null, and the value is a whole number (0 when there is no current price) |
| AssetEditing.ReopenKeepsMode | src/components/assets/edit-asset-dialog.tsx:114 | Saving and reopening shows the same mode, provided a debt or receivable in unit mode has a coin chosen |
| AssetEditing.ReopenLosesModeWithoutCoin | src/components/assets/edit-asset-dialog.tsx:114 | A debt in unit mode saved with no coin reopens in rupiah mode |
| AssetEditing.CoinNameShape | src/components/assets/edit-asset-dialog.tsx:144-145 | For a coin whose name starts with a capital letter, the name is "<Pinjaman/Piutang> <coin> (<symbol>)", or "<coin> (<symbol>)" when there is no prefix |
| AssetEditing.FieldOf | src/components/assets/edit-asset-dialog.tsx:107-109 | A stored number reads back as that number, and a missing one as 0 |
| AssetEditing.EditAssetForm.Open | src/components/assets/edit-asset-dialog.tsx:101-115 | A closed dialog changes nothing. Opening loads every field from the holding, and switches unit mode on exactly when it has a coin |
| AssetEditing.EditAssetForm.ChangeType | src/components/assets/edit-asset-dialog.tsx:211-213 | The type changes, and unit mode is cleared unless the new type is a debt or a receivable. Nothing else changes |
| AssetEditing.EditAssetForm.SetCryptoBased | src/components/assets/edit-asset-dialog.tsx:226-231 | The unit-mode switch changes only that flag |
| AssetEditing.EditAssetForm.SelectCoin | src/components/assets/edit-asset-dialog.tsx:140-147 | The coin id is always set. A coin in the picker's list (the popular coins, as the constructor states) also renames the holding, and an unlisted id changes nothing else |
| AssetEditing.EditAssetForm.ApplyFetchedPrice | src/components/assets/edit-asset-dialog.tsx:150-156 | With a coin chosen and a non-zero price, only the current price is replaced. Otherwise nothing changes |
| Grouping.Upsert | src/components/finance/dashboard-charts.tsx:54 | Adding v under k appends k only if it is new, raises k's total and the grand total by v, and leaves every other key's total unchanged |
| Grouping.GroupSums | src/components/reports/category-breakdown.tsx:26-30 | The keys are those of the items in order of first appearance, each total is the sum of that key's amounts, and the grand total is the sum of all amounts |
| Grouping.GroupSumsSpec | src/components/finance/dashboard-charts.tsx:52-56 | Each key appears once, exactly the keys that some item has appear, and each entry's total is the sum for its key |
| Grouping.FirstKeysIn | src/components/reports/category-breakdown.tsx:26-30 | A key is listed exactly when some item has it |
| Grouping.FirstKeysDistinct | src/components/reports/category-breakdown.tsx:26-30 | No key is listed twice |
| BudgetList.TotalsAppend | src/components/budget/budget-list.tsx:36-37 | Total budget and total spent are additive over concatenation |
| BudgetList.OverallPercentage | src/components/budget/budget-list.tsx:38 | With a positive total budget, r x total == spent x 100, otherwise 0 |
| BudgetList.Percentage | src/components/budget/budget-list.tsx:70 | With a positive amount, r x amount == spent x 100, otherwise 0 |
| BudgetList.OverBudgetIff | src/components/budget/budget-list.tsx:70-71 | A budget is over exactly when its amount is positive and the spent amount exceeds it |
| BudgetList.Progress | src/components/budget/budget-list.tsx:62 | The bar is at most 100, equals the percentage up to 100, and is 100 above it |
| BudgetList.Message | src/components/budget/budget-list.tsx:118-120 | The over message shows exactly when the budget is over, with a positive excess of spent - amount. Otherwise the remaining amount - spent is shown, never negative for a positive amount |
| BudgetList.GreenIffWithinBudget | src/components/budget/budget-list.tsx:56-57 | With a positive budget, the remaining total is green exactly when the overall percentage is at most 100 |
| BudgetList.NoneOverMeansTotalWithin | src/components/budget/budget-list.tsx:36-38 | When no budget is overspent, the total spent is within the total budget and the overall percentage is at most 100 |
| DashboardCharts.Last7Days | src/components/finance/dashboard-charts.tsx:30-34 | Seven consecutive days, oldest first, ending today |
| DashboardCharts.Last7DaysDistinct | src/components/finance/dashboard-charts.tsx:30-34 | The seven days strictly ascend |
| DashboardCharts.DayTotalIsMatchingSum | src/components/finance/dashboard-charts.tsx:37-43 | A day's filtered-then-summed total equals the sum of the amounts of that type dated that day |
| DashboardCharts.OtherDaysContributeNothing | src/components/finance/dashboard-charts.tsx:37 | Adding transactions dated other days does not change a day's totals |
| DashboardCharts.DayBarsCoverTheDay | src/components/finance/dashboard-charts.tsx:38-43 | A day's income and expense bars together sum every amount dated that day |
| DashboardCharts.DailyData | src/components/finance/dashboard-charts.tsx:36-50 | There is one point per date, in order, holding that date's income and expense totals |
| DashboardCharts.UnlistedKindsFallBack | src/components/finance/dashboard-charts.tsx:58-60 | Debt, receivable and spending account are labelled by their raw type and coloured like "other" |
| DashboardCharts.LabelInjective | src/components/finance/dashboard-charts.tsx:21-27 | No two types share a label |
| DashboardCharts.ItemsOfSums | src/components/finance/dashboard-charts.tsx:54 | The fold's items sum to the total value, and per type to that type's total |
| DashboardCharts.KindGroupsSpec | src/components/finance/dashboard-charts.tsx:52-56 | One group per type, each type once, with the sum of that type's values |
| DashboardCharts.KindGroupIff | src/components/finance/dashboard-charts.tsx:52-56 | A type has a group exactly when some asset has that type |
| DashboardCharts.SliceAt | src/components/finance/dashboard-charts.tsx:57-61 | Every slice is the label, total and colour of a type that some asset has |
| DashboardCharts.SliceNamesDistinct | src/components/finance/dashboard-charts.tsx:52-61 | No two slices share a name |
| DashboardCharts.SliceForEachKindHeld | src/components/finance/dashboard-charts.tsx:52-61 | A slice named for a type exists exactly when some asset has that type |
| DashboardCharts.SlicesSumToTotal | src/components/finance/dashboard-charts.tsx:52-56 | The slices sum to the total value of all assets, with debts counted unsigned |
| MonthlyChart.MonthKey | src/components/reports/monthly-chart.tsx:14 | The key is the first seven characters of the date, or the whole date when it is shorter |
| MonthlyChart.Add | src/components/reports/monthly-chart.tsx:18-22 | Adding a transaction keeps the month and raises income + expense by its amount |
| MonthlyChart.AddTo | src/components/reports/monthly-chart.tsx:14-23 | The transaction's month gains a bucket if it was missing, and gets the transaction added. Every other month is unchanged, and the grand sum rises by the amount |
| MonthlyChart.AddToDistinct | src/components/reports/monthly-chart.tsx:15-17 | Folding in a transaction keeps every month in one bucket |
| MonthlyChart.MonthlyData | src/components/reports/monthly-chart.tsx:13-24 | Months are distinct, the buckets sum to all amounts, and each month's bucket holds its income and its non-income total |
| MonthlyChart.MonthlyDataMonths | src/components/reports/monthly-chart.tsx:13-24 | A month has a bucket exactly when some transaction is dated in it |
| MonthlyChart.StrLessTransitive | src/components/reports/monthly-chart.tsx:27 | The comparison that orders months is transitive |
| MonthlyChart.StrLessTotal | src/components/reports/monthly-chart.tsx:27 | Any two different keys are ordered one way or the other |
| MonthlyChart.SortByMonth | src/components/reports/monthly-chart.tsx:26-27 | The result is a permutation of the buckets, sorted by month |
| MonthlyChart.SortedDistinctAscends | src/components/reports/monthly-chart.tsx:26-27 | Sorted distinct months strictly ascend |
| MonthlyChart.PointOf | src/components/reports/monthly-chart.tsx:28-33 | A point carries the bucket's month, income and expense, with balance = income - expense |
| MonthlyChart.ChartDataSpec | src/components/reports/monthly-chart.tsx:26-33 | Every point holds its month's income and expense and the balance, and the months strictly ascend |
| MonthlyChart.ChartMonths | src/components/reports/monthly-chart.tsx:26-33 | A month is charted exactly when some transaction is dated in it |
| MonthlyChart.ChartEmptyIff | src/components/reports/monthly-chart.tsx:42 | The chart is empty exactly when there are no transactions |
| CategoryBreakdown.KeyOf | src/components/reports/category-breakdown.tsx:27 | A missing or empty category id is keyed "uncategorized", and any other id is its own key |
| CategoryBreakdown.ItemsOfSums | src/components/reports/category-breakdown.tsx:28 | The fold's items sum to all amounts, and per key to that key's amounts |
| CategoryBreakdown.TotalIsAllAmounts | src/components/reports/category-breakdown.tsx:32 | The total of the category totals is the sum of all amounts |
| CategoryBreakdown.CategoryTotalsSpec | src/components/reports/category-breakdown.tsx:26-30 | Each key appears once, and each total is the sum of that key's amounts |
| CategoryBreakdown.CategoryKeyIff | src/components/reports/category-breakdown.tsx:26-30 | A key has a total exactly when some transaction has that key |
| CategoryBreakdown.Find | src/components/reports/category-breakdown.tsx:36 | Finds the first category with the id, and None exactly when none has it |
| CategoryBreakdown.NameFor | src/components/reports/category-breakdown.tsx:38 | The name of the matching category, or "Tanpa Kategori" when there is none or its name is empty |
| CategoryBreakdown.UncategorizedIsUnnamed | src/components/reports/category-breakdown.tsx:36-38 | The uncategorized row is named "Tanpa Kategori" when no category has that id |
| CategoryBreakdown.ColourAt | src/components/reports/category-breakdown.tsx:41 | The colour is the palette entry at index mod 8 |
| CategoryBreakdown.ColoursCycle | src/components/reports/category-breakdown.tsx:14-23 | Colours repeat every eight rows |
| CategoryBreakdown.PercentOf | src/components/reports/category-breakdown.tsx:40 | With a positive total, p x total == amount x 100, otherwise 0 |
| CategoryBreakdown.Unsorted | src/components/reports/category-breakdown.tsx:34-43 | One row per total, in order, with its name, amount, percentage and colour, by its position before sorting |
| CategoryBreakdown.Insert | src/components/reports/category-breakdown.tsx:44 | Inserting a row adds exactly that row: the result is the old rows plus it, as a multiset |
| CategoryBreakdown.InsertDescending | src/components/reports/category-breakdown.tsx:44 | Inserting into a list in non-increasing amount keeps it so |
| CategoryBreakdown.SortDescending | src/components/reports/category-breakdown.tsx:44 | The result is a permutation of the rows, in non-increasing amount, with the same sums |
| CategoryBreakdown.BreakdownSorted | src/components/reports/category-breakdown.tsx:34-44 | The breakdown is a permutation of the unsorted rows, in non-increasing amount |
| CategoryBreakdown.BreakdownConserves | src/components/reports/category-breakdown.tsx:26-44 | The breakdown's amounts sum to all transaction amounts |
| CategoryBreakdown.WholeShares | src/components/reports/category-breakdown.tsx:32-40 | Rows whose percentages are shares of their own positive sum have percentages summing to 100 |
| CategoryBreakdown.PercentagesSumTo100 | src/components/reports/category-breakdown.tsx:32-44 | With a positive total, the percentages sum to exactly 100 |
| CategoryBreakdown.BreakdownRow | src/components/reports/category-breakdown.tsx:34-44 | Every row shown is, for some category total, that key's name, its amount, its percentage and its pre-sort colour |
| TransactionList.FilteredSpec | src/components/transactions/transaction-list.tsx:44-51 | The result is an order-preserving sub-list holding exactly the transactions that pass search, type and category |
| TransactionList.TypeFilterSpec | src/components/transactions/transaction-list.tsx:48 | A chosen type keeps only that type, and "all" lets every type through |
| TransactionList.CategoryFilterSpec | src/components/transactions/transaction-list.tsx:49 | A chosen category keeps only that category id, and "all" lets every category through |
| TransactionList.EmptySearch | src/components/transactions/transaction-list.tsx:45-47 | The empty search matches exactly the transactions with a description or a category |
| TransactionList.SearchIgnoresCase | src/components/transactions/transaction-list.tsx:46-47 | Lower-casing the search text does not change what matches |
| TransactionList.SearchOccurs | src/components/transactions/transaction-list.tsx:46 | The search matches when its lower-cased text occurs in the lower-cased description |
| TransactionList.EmptyText | src/components/transactions/transaction-list.tsx:160-162 | One message for no transactions at all, another for none matching |
| TransactionList.EmptyStateSpec | src/components/transactions/transaction-list.tsx:160-162 | An empty list yields nothing. An empty result means every transaction failed a filter, and the two messages differ exactly when there are transactions |
| TaskBoard.Position | src/components/tasks/task-board.tsx:29-33 | Each status has its own column, in the order To Do, In Progress, Done |
| TaskBoard.TitleInjective | src/components/tasks/task-board.tsx:29-33 | The columns' headings "To Do", "In Progress" and "Done" are distinct, so each heading names one status |
| TaskBoard.ColumnSpec | src/components/tasks/task-board.tsx:65 | A column holds, in input order, exactly those tasks whose status is its own |
| TaskBoard.ExactlyOneColumn | src/components/tasks/task-board.tsx:64-65 | A task is in the column of its status and no other |
| TaskBoard.ColumnsCoverAll | src/components/tasks/task-board.tsx:64-65 | The three columns together hold as many cards as there are tasks |
| TaskBoard.NextStatus | src/components/tasks/task-board.tsx:106 | There is no next status exactly for Done, and otherwise it is the next column |
| TaskBoard.NextStatusReachesDone | src/components/tasks/task-board.tsx:106 | To Do goes to In Progress, In Progress goes to Done, and Done has no next status |
| TaskBoard.MoveOptions | src/components/tasks/task-board.tsx:126-140 | Exactly the two other statuses, in column order |
| TaskBoard.PlaceholderIff | src/components/tasks/task-board.tsx:71-86 | The badge is 0, and the placeholder shows, exactly when no task has the column's status |
| AddTransaction.AnyOfKindIff | src/components/transactions/add-transaction-dialog.tsx:57-58 | Some category has the type exactly when one at some index does |
| AddTransaction.CanAddIff | src/components/transactions/add-transaction-dialog.tsx:57-60 | Adding is possible exactly when there is an income category, an expense category and an asset |
| AddTransaction.FilteredCategoriesSpec | src/components/transactions/add-transaction-dialog.tsx:62 | The select offers, in order, exactly the categories of the chosen type |
| AddTransaction.RowFor | src/components/transactions/add-transaction-dialog.tsx:76-84 | The row carries the chosen type, amount, category, asset and date, and the description is null exactly when blank |
| AddTransaction.SentRowIsComplete | src/components/transactions/add-transaction-dialog.tsx:67-70 | A row that passed the guard has a category and an asset |
| AddTransaction.AddTransactionForm.constructor | src/components/transactions/add-transaction-dialog.tsx:32-40 | The form starts closed, as an empty expense dated today with no assets, and adding is not yet possible |
| AddTransaction.AddTransactionForm.Open | src/components/transactions/add-transaction-dialog.tsx:46-55 | The dialog opens, and the asset list is replaced only when the query returned data |
| AddTransaction.AddTransactionForm.SelectType | src/components/transactions/add-transaction-dialog.tsx:135-149 | Switching type clears the chosen category and changes nothing else. The select then offers exactly the new type's categories |
| AddTransaction.AddTransactionForm.ResetForm | src/components/transactions/add-transaction-dialog.tsx:96-103 | The form is reset to an empty expense dated today |
| AddTransaction.AddTransactionForm.Submit | src/components/transactions/add-transaction-dialog.tsx:64-94 | A missing category or asset sends nothing and changes nothing. No session sends nothing and leaves loading set. Otherwise the row is sent; success closes and resets the form, and failure keeps it. When the button is disabled but not saving, nothing is sent. When it is enabled and the amount and date are filled, a signed-in user's row is sent |
| AddTransaction.AddTransactionForm.SubmitDisabled | src/components/transactions/add-transaction-dialog.tsx:230 | While the submit button is enabled, the row the form would send has a category and an asset, for any user |
| CategoryManager.BlankIff | src/components/transactions/category-manager.tsx:40 | A name is blank exactly when it is empty or all white space |
| CategoryManager.CategoryForm.SelectKind | src/components/transactions/category-manager.tsx:34 | The type select changes only the type |
| CategoryManager.CategoryForm.AddCategory | src/components/transactions/category-manager.tsx:38-55 | A blank name sends nothing and changes nothing. No session leaves loading set. Otherwise the trimmed name is sent with the type, and the name is cleared. When the button is disabled but not saving, nothing is sent and the name stays. When it is enabled, a signed-in user's category is sent |
| CategoryManager.CategoryForm.AddDisabled | src/components/transactions/category-manager.tsx:100 | When not saving, the add button is disabled exactly when the name is empty or all white space |
| CategoryManager.SentNameIsClean | src/components/transactions/category-manager.tsx:48 | A sent name is non-empty, neither starts nor ends with white space, and is already trimmed |
| CategoryManager.CategoriesOfSpec | src/components/transactions/category-manager.tsx:62-63 | Each list holds, in order, exactly the categories of its type |
| CategoryManager.Partition | src/components/transactions/category-manager.tsx:62-63 | The two lists are disjoint and together have as many entries as there are categories |
| CategoryManager.EmptyStateIff | src/components/transactions/category-manager.tsx:149 | The empty state shows exactly when both lists are empty |
| Common.Round | src/components/assets/edit-asset-dialog.tsx:125 | Math.round: the nearest integer, with halves rounded up |
| Common.Trim | src/components/transactions/category-manager.tsx:48 | Neither end of the trimmed name is white space |
| Common.TrimIsInfix | src/components/transactions/category-manager.tsx:48 | Trimming keeps the infix after the leading white space, and every character cut from either end is white space |
| Common.TrimEmptyIff | src/components/transactions/category-manager.tsx:40 | A string trims to empty exactly when every character is white space |
| Common.TrimIdempotent | src/components/transactions/category-manager.tsx:48 | Trimming twice is trimming once |
| Common.Lower | src/components/transactions/transaction-list.tsx:46 | Lower-casing keeps the length and maps each character |
| Common.ContainsIff | src/components/transactions/transaction-list.tsx:46 | `includes` holds exactly when the text occurs at some position |

## Left out

- Database and session I/O is not modelled: queries, inserts, updates, deletes, `auth.getUser` and `router.refresh`. The signed-in user, and whether a write fails, are parameters. The settlement's tables are the in-memory `Store`.
- The category and asset fetches that fill the dialogs are left out. `AddTransactionForm.Open` takes the fetched list as a parameter.
- The network request of the price refresh is left out, with its `fetchingPrice` flag and failure popup. Only the rule that applies a returned price is modelled.
- Alerts, and the dialog's own open/close state, are left out except where a guard reads them. `loading` is modelled where the source sets it: add-transaction and category forms. The settlement dialog's `loading` appears only as an input of `ConfirmDisabled`.
- IEEE floating point is not modelled; money and quantities are exact reals. `Number(x) || 0` and `parseFloat` are already-parsed fields (`NumberField`), and a number input never yields NaN.
- `Common.Lower` folds ASCII letters only; full Unicode case mapping is not modelled.
- ISO date formatting, time zones and `toLocaleDateString` are not modelled. `DashboardCharts.Last7Days` works over day numbers, and `DailyData` takes the formatted dates as a parameter.
- `localeCompare` is not modelled. Month keys (YYYY-MM) are ordered by code units, which is the same order for such keys.
- In `Object.entries`, integer-like keys come first. The model keeps first-insertion order, which is what happens for the category ids, type names and YYYY-MM keys in use.
- CategoryBreakdown.SortDescending: the sort is modelled as a stable insertion sort, but only its order and permutation are proved, not which way ties fall.
- A signed net worth is not modelled; no modelled file computes one.
- AssetEditing.CoinNameShape: the name is derived for every coin with a capitalised name, which covers the whole list, but it is not stated coin by coin.
- The settlement's holding write with an unknown id changes nothing, as an `eq("id", …)` update of no row does.
- Rendering and formatting are not modelled: JSX, charts, currency formatting, `toFixed`, badges' colours and priorities.
- The kanban board's status write and delete handlers, and the other delete handlers, are left out; they are plain database calls.
- The browser's required-field check, which keeps an empty amount or date from submitting, is modelled as the first guard of `AddTransactionForm.Submit`.
- The other files (add-asset and add-budget dialogs, the asset list, recent transactions, navigation, pages and the auth callback) are left out; they hold no business rule.
