# Finance-App core in Dafny

This project models the logic core of Finance-App, a personal-finance app. It has two parts. The Android client keeps accounts, transactions, budgets and categories in a local Room database and shows statistics over them. The Ktor server stores users, accounts, transactions and budgets in tables, and every user's rows are kept apart from everyone else's.

The model covers these parts of the app:

- the view models' pure calculations: statistics, budget consumption, the transaction-list filter and the form validators;
- the view models' step-by-step state updates: the form setters, `saveTransaction`, `saveAccount`, `saveBudget`, `login` and `register`, as classes with `modifies` clauses;
- the `java.util.Calendar` range helpers, as an imperative `Calendar` class over a civil calendar;
- the client `TransactionDao` queries and `TransactionRepository`;
- the five entity mappers;
- the `AuthDataStore` preferences map;
- the four server repositories, as classes over rows;
- the server amount validator and its test cases.

Conventions and assumptions:

- Money is an integer number of minor units. Percentages are `real`. The server validator works on `real` amounts, as its test cases use fractions.
- A date is an integer count of epoch milliseconds in UTC, over the proleptic Gregorian calendar.
- A week runs Monday to Sunday, because the app formats dates in the uk-UA locale.
- The Statistics and Budget windows end at 23:59:59.000. Their code never sets MILLISECOND on the end instant after zeroing it for the start.
- The Transactions and Home windows end at 23:59:59.999.
- `TruncatedWindowMissesLastSecond` shows that the .000 end leaves out the last 999 ms of the last day.
- The server schema's `varchar` widths and `decimal(15, 2)` amounts are guards on every insert and update: a value too wide for its column raises `ColumnOverflow` and writes nothing.
- Some outside behaviour becomes function-typed parameters:
  - parsing `toDoubleOrNull` is `parse: string -> Option<int>`;
  - the email pattern is `matchesEmail`;
  - BCrypt is `hashpw` with a `salt`, and `checkpw`;
  - `Instant.parse` is `parseInstant: string -> Result<int>`;
  - the server API is `api`;
  - the wall clock is `now`.
- A thrown exception that a view model catches becomes a fault parameter: `StorageFault` on save, `fault: Option<string>` in the accounts screen, and `ApiOutcome.Unreachable` for login and register.
- Reactive flows become methods that take a snapshot of the data as parameters.
- SQL `ORDER BY date DESC` is modelled by a stable descending sort. Rows with equal dates keep their table order.

## Model

| member | source | states |
|---|---|---|
| Statistics.GetDateRangeForPeriod | app/src/main/java/com/finance/manager/ui/viewmodel/StatisticsViewModel.kt:249-308 | The Calendar set sequence yields exactly PeriodWindow(period, now). |
| Statistics.PeriodWindowBounds | app/src/main/java/com/finance/manager/ui/viewmodel/StatisticsViewModel.kt:249-308 | Every window starts at midnight no later than now, holds now's day and ends at 23:59:59.000. WEEK runs Monday to Sunday (six days later), MONTH from day 1 to the last day of now's month, YEAR from January 1 to December 31. |
| Statistics.CategoryExpenses | app/src/main/java/com/finance/manager/ui/viewmodel/StatisticsViewModel.kt:134-156 | The breakdown is sorted non-increasing by amount. |
| Statistics.CategoryExpensesEmpty | app/src/main/java/com/finance/manager/ui/viewmodel/StatisticsViewModel.kt:139-142 | The breakdown is empty iff the total expense is 0. |
| Statistics.CategoryExpensesIds | app/src/main/java/com/finance/manager/ui/viewmodel/StatisticsViewModel.kt:145-154 | It has one entry per distinct expense category id: no id twice, and c appears iff some EXPENSE has categoryId c. |
| Statistics.CategoryEntryFields | app/src/main/java/com/finance/manager/ui/viewmodel/StatisticsViewModel.kt:145-151 | Each entry's amount is the sum of its category's expenses. Its percentage is amount/total*100. Its category is the one found by id, or the "Інше"/"#999999"/EXPENSE placeholder with that id. |
| Statistics.CategoryExpensesSum | app/src/main/java/com/finance/manager/ui/viewmodel/StatisticsViewModel.kt:145-150 | The entry amounts sum to the total expense. |
| Statistics.CategoryPercentagesSum | app/src/main/java/com/finance/manager/ui/viewmodel/StatisticsViewModel.kt:151 | With a non-zero total, the percentages sum to exactly 100. |
| Statistics.CategoryExpensesStable | app/src/main/java/com/finance/manager/ui/viewmodel/StatisticsViewModel.kt:145-154 | Entries with equal amounts keep their groupBy first-appearance order. |
| Statistics.DistinctCategoryIds | app/src/main/java/com/finance/manager/ui/viewmodel/StatisticsViewModel.kt:145 | groupBy keys: no duplicates, and exactly the category ids present. |
| Statistics.DistinctCategoryIdsOrder | app/src/main/java/com/finance/manager/ui/viewmodel/StatisticsViewModel.kt:145 | groupBy keys appear in order of their first occurrence. |
| Statistics.WeekSeriesShape | app/src/main/java/com/finance/manager/ui/viewmodel/StatisticsViewModel.kt:170-197 | The week series is 7 buckets labelled Пн..Нд. Bucket i holds exactly the transactions dated on day i of their Monday-first week (the membership comes from WeekBucketMember). |
| Statistics.WeekBucketMember | app/src/main/java/com/finance/manager/ui/viewmodel/StatisticsViewModel.kt:179-183 | Bucket i holds exactly the transactions on weekday i, Monday first. |
| Statistics.MonthSeriesShape | app/src/main/java/com/finance/manager/ui/viewmodel/StatisticsViewModel.kt:199-221 | The month series has daysInMonth(now) buckets with day keys 1..n and their decimal labels. |
| Statistics.YearSeriesShape | app/src/main/java/com/finance/manager/ui/viewmodel/StatisticsViewModel.kt:223-246 | The year series is 12 buckets labelled Січ..Гру for months 1..12. |
| Statistics.SeriesBuckets | app/src/main/java/com/finance/manager/ui/viewmodel/StatisticsViewModel.kt:158-246 | The income and expense columns of a series sum to the per-bucket totals. |
| Statistics.WeekSeriesTotals | app/src/main/java/com/finance/manager/ui/viewmodel/StatisticsViewModel.kt:170-197 | The week buckets sum to the income and expense totals. |
| Statistics.MonthSeriesTotals | app/src/main/java/com/finance/manager/ui/viewmodel/StatisticsViewModel.kt:199-221 | For transactions inside the month window, the day buckets sum to the totals. |
| Statistics.YearSeriesTotals | app/src/main/java/com/finance/manager/ui/viewmodel/StatisticsViewModel.kt:223-246 | The month buckets sum to the totals. |
| Statistics.PeriodSeriesTotals | app/src/main/java/com/finance/manager/ui/viewmodel/StatisticsViewModel.kt:158-168 | Over the window-filtered list, the buckets of every period sum to totalIncome and totalExpense. |
| Statistics.CalculateStatistics | app/src/main/java/com/finance/manager/ui/viewmodel/StatisticsViewModel.kt:97-132 | The method's result is StatisticsFor(...). |
| Statistics.StatisticsWindow | app/src/main/java/com/finance/manager/ui/viewmodel/StatisticsViewModel.kt:103-104 | A transaction is kept iff its date lies in the inclusive window. |
| Statistics.StatisticsConsistent | app/src/main/java/com/finance/manager/ui/viewmodel/StatisticsViewModel.kt:103-127 | Over the filtered list, totalIncome and totalExpense are the INCOME and EXPENSE sums and difference is their difference. topCategories is the first min(5,n) breakdown entries. The series sum to the totals. |
| Statistics.StatisticsViewModel.LoadData | app/src/main/java/com/finance/manager/ui/viewmodel/StatisticsViewModel.kt:71-85 | The state becomes the statistics for the stored period. |
| Statistics.StatisticsViewModel.OnPeriodChange | app/src/main/java/com/finance/manager/ui/viewmodel/StatisticsViewModel.kt:87-95 | The state becomes the statistics for the new period. |
| Budgets.GetDateRangeForBudget | app/src/main/java/com/finance/manager/ui/viewmodel/BudgetViewModel.kt:131-191 | The Calendar set sequence, anchored at budget.startDate, yields BudgetWindow(budget). |
| Budgets.BudgetWindowShape | app/src/main/java/com/finance/manager/ui/viewmodel/BudgetViewModel.kt:131-191 | The window is the month, Monday..Sunday week or year containing startDate, from 00:00:00.000 to 23:59:59.000. |
| Budgets.SpentIsFold | app/src/main/java/com/finance/manager/ui/viewmodel/BudgetViewModel.kt:107-111 | spent is the sum over transactions that are in the category, of type EXPENSE, and dated inside the inclusive window. |
| Budgets.SpentPercentage | app/src/main/java/com/finance/manager/ui/viewmodel/BudgetViewModel.kt:113-117 | percentage*amount = spent*100 when amount > 0, and exactly 0 otherwise. It lies in [0,100] when 0 <= spent <= amount. |
| Budgets.BudgetSpentFields | app/src/main/java/com/finance/manager/ui/viewmodel/BudgetViewModel.kt:89-128 | The result has the budget, the found category or the "Невідома категорія"/"#999999"/EXPENSE placeholder, spent, the percentage, and isExceeded iff spent > amount. |
| Budgets.CalculateBudgetSpent | app/src/main/java/com/finance/manager/ui/viewmodel/BudgetViewModel.kt:89-128 | The method's result is BudgetSpentFor(...). |
| Budgets.BudgetsWithSpent | app/src/main/java/com/finance/manager/ui/viewmodel/BudgetViewModel.kt:73-75 | One BudgetWithSpent per budget, in order. |
| Budgets.BudgetViewModel.LoadBudgets | app/src/main/java/com/finance/manager/ui/viewmodel/BudgetViewModel.kt:64-87 | The state holds one result per budget and isLoading is false. |
| Budgets.BudgetViewModel.InitAddBudgetForm | app/src/main/java/com/finance/manager/ui/viewmodel/BudgetViewModel.kt:194-206 | The form gets its defaults and only the EXPENSE categories. |
| Budgets.BudgetViewModel.OnCategorySelect | app/src/main/java/com/finance/manager/ui/viewmodel/BudgetViewModel.kt:208-214 | Sets the category and clears only categoryError. |
| Budgets.BudgetViewModel.OnLimitAmountChange | app/src/main/java/com/finance/manager/ui/viewmodel/BudgetViewModel.kt:216-222 | Sets the amount and clears only amountError. |
| Budgets.BudgetViewModel.OnPeriodChange | app/src/main/java/com/finance/manager/ui/viewmodel/BudgetViewModel.kt:224-227 | Sets only the period. |
| Budgets.BudgetViewModel.SaveBudget | app/src/main/java/com/finance/manager/ui/viewmodel/BudgetViewModel.kt:229-267 | Both errors can be set together, and nothing is saved when either is set. Otherwise the budget has the selected category, the parsed amount, the form's period and startDate = now. |
| TransactionsFilter.GetCurrentWeekDateRange | app/src/main/java/com/finance/manager/ui/viewmodel/TransactionsViewModel.kt:167-188 | Monday 00:00:00.000 to Sunday 23:59:59.999 of now's week. |
| TransactionsFilter.GetCurrentMonthDateRange | app/src/main/java/com/finance/manager/ui/viewmodel/TransactionsViewModel.kt:190-209 | The 1st to the last day 23:59:59.999 of now's month. |
| TransactionsFilter.GetLastMonthDateRange | app/src/main/java/com/finance/manager/ui/viewmodel/TransactionsViewModel.kt:211-230 | The whole previous calendar month. |
| TransactionsFilter.ThisWeekContains | app/src/main/java/com/finance/manager/ui/viewmodel/TransactionsViewModel.kt:167-188 | A date is in THIS_WEEK iff it falls in the same Monday-first week as now. |
| TransactionsFilter.ThisMonthContains | app/src/main/java/com/finance/manager/ui/viewmodel/TransactionsViewModel.kt:190-209 | A date is in THIS_MONTH iff it has now's year and month. |
| TransactionsFilter.LastMonthContains | app/src/main/java/com/finance/manager/ui/viewmodel/TransactionsViewModel.kt:211-230 | A date is in LAST_MONTH iff it is in the month before now's month. January rolls back to December of the previous year. |
| TransactionsFilter.ApplyFiltersFor | app/src/main/java/com/finance/manager/ui/viewmodel/TransactionsViewModel.kt:82-112 | The output is sorted non-increasing by date and is no longer than the input. |
| TransactionsFilter.ApplyFilters | app/src/main/java/com/finance/manager/ui/viewmodel/TransactionsViewModel.kt:78-113 | The step-by-step reassignment of `filtered` equals ApplyFiltersFor. |
| TransactionsFilter.ApplyFiltersCount | app/src/main/java/com/finance/manager/ui/viewmodel/TransactionsViewModel.kt:82-112 | Each transaction occurs as often as in the input if it matches every active filter, and zero times otherwise. |
| TransactionsFilter.ApplyFiltersMember | app/src/main/java/com/finance/manager/ui/viewmodel/TransactionsViewModel.kt:82-112 | The filters combine with AND: t is in the output iff t is in the input and matches them all. |
| TransactionsFilter.DefaultFiltersPermute | app/src/main/java/com/finance/manager/ui/viewmodel/TransactionsViewModel.kt:78-112 | With the default filters, the output is a date-sorted permutation of the input. |
| TransactionsFilter.TypeFilterExact | app/src/main/java/com/finance/manager/ui/viewmodel/TransactionsViewModel.kt:85-87 | A type filter keeps exactly the transactions of that type. |
| TransactionsFilter.CategoryFilterExact | app/src/main/java/com/finance/manager/ui/viewmodel/TransactionsViewModel.kt:90-92 | A category filter keeps exactly the transactions in that category. |
| TransactionsFilter.TransactionsViewModel.LoadData | app/src/main/java/com/finance/manager/ui/viewmodel/TransactionsViewModel.kt:56-76 | The state holds the filtered list for the current filters and the categories. |
| TransactionsFilter.TransactionsViewModel.UpdateFilters | app/src/main/java/com/finance/manager/ui/viewmodel/TransactionsViewModel.kt:134-149 | Stores the filters and the list filtered by them. |
| TransactionsFilter.TransactionsViewModel.OnTypeFilterChange | app/src/main/java/com/finance/manager/ui/viewmodel/TransactionsViewModel.kt:116-120 | Only the type field of the filters changes. |
| TransactionsFilter.TransactionsViewModel.OnCategoryFilterChange | app/src/main/java/com/finance/manager/ui/viewmodel/TransactionsViewModel.kt:122-126 | Only the category field of the filters changes. |
| TransactionsFilter.TransactionsViewModel.OnPeriodFilterChange | app/src/main/java/com/finance/manager/ui/viewmodel/TransactionsViewModel.kt:128-132 | Only the period field of the filters changes. |
| TransactionsFilter.TransactionsViewModel.ResetFilters | app/src/main/java/com/finance/manager/ui/viewmodel/TransactionsViewModel.kt:162-165 | Resets to type none, category none, period ALL. |
| Home.AmountErrorOf | app/src/main/java/com/finance/manager/ui/viewmodel/HomeViewModel.kt:219-225 | Checked in order: blank gives "Введіть суму", unparseable gives "Невірний формат суми", <= 0 gives "Сума має бути більше 0", otherwise no error. |
| Home.AccountErrorOf | app/src/main/java/com/finance/manager/ui/viewmodel/HomeViewModel.kt:227-229 | An error iff no account is selected. |
| Home.CategoryErrorOf | app/src/main/java/com/finance/manager/ui/viewmodel/HomeViewModel.kt:230-232 | An error iff no category is selected. |
| Home.ErrorsReportedTogether | app/src/main/java/com/finance/manager/ui/viewmodel/HomeViewModel.kt:227-237 | All three errors are written together. The save proceeds iff none is set, and then the amount is positive. |
| Home.NewTransaction | app/src/main/java/com/finance/manager/ui/viewmodel/HomeViewModel.kt:243-252 | The transaction has exactly the form's account, category, amount, date, note and type, with a fresh id. |
| Home.AdjustedBalance | app/src/main/java/com/finance/manager/ui/viewmodel/HomeViewModel.kt:252-263 | INCOME raises the balance by the amount. EXPENSE lowers it by the amount. |
| Home.AccountsAfterSaveLookup | app/src/main/java/com/finance/manager/ui/viewmodel/HomeViewModel.kt:252-263 | After the save, only the selected account's balance changes, by the signed amount. Every other account reads as before. |
| Home.TotalBalanceAfterSave | app/src/main/java/com/finance/manager/ui/viewmodel/HomeViewModel.kt:252-263 | The total balance changes by exactly the signed amount. |
| Home.SavedAccountsBalance | app/src/main/java/com/finance/manager/ui/viewmodel/HomeViewModel.kt:252-263 | The account rows the save writes, read as domain accounts, are ChangeBalance by the signed amount, so the total balance moves by exactly that amount. A missing account leaves them as they were. |
| Home.GetCurrentMonthDateRange | app/src/main/java/com/finance/manager/ui/viewmodel/HomeViewModel.kt:115-135 | The 1st 00:00:00.000 to the last day 23:59:59.999 of now's month. |
| Home.HomeStateMeaning | app/src/main/java/com/finance/manager/ui/viewmodel/HomeViewModel.kt:62-90 | totalBalance is the sum of the balances. monthIncome and monthExpense are the month's sums by type. recent holds at most 5 transactions. |
| Home.HomeViewModel.LoadData | app/src/main/java/com/finance/manager/ui/viewmodel/HomeViewModel.kt:62-85 | The state becomes HomeStateFor the snapshot. |
| Home.HomeViewModel.Refresh | app/src/main/java/com/finance/manager/ui/viewmodel/HomeViewModel.kt:138-141 | Only isLoading is set. |
| Home.HomeViewModel.OnTransactionTypeChange | app/src/main/java/com/finance/manager/ui/viewmodel/HomeViewModel.kt:148-154 | Sets the type, clears selectedCategoryId and loads the categories of that type. |
| Home.HomeViewModel.InitAddTransactionForm | app/src/main/java/com/finance/manager/ui/viewmodel/HomeViewModel.kt:167-183 | The form gets its defaults and the EXPENSE categories. |
| Home.HomeViewModel.OnAccountsLoaded | app/src/main/java/com/finance/manager/ui/viewmodel/HomeViewModel.kt:175-179 | Selects the first account only when none is selected. |
| Home.HomeViewModel.OnAmountChange | app/src/main/java/com/finance/manager/ui/viewmodel/HomeViewModel.kt:185-190 | Sets the amount and clears only amountError. |
| Home.HomeViewModel.OnAccountSelect | app/src/main/java/com/finance/manager/ui/viewmodel/HomeViewModel.kt:192-197 | Sets the account and clears only accountError. |
| Home.HomeViewModel.OnCategorySelect | app/src/main/java/com/finance/manager/ui/viewmodel/HomeViewModel.kt:199-204 | Sets the category and clears only categoryError. |
| Home.HomeViewModel.OnNoteChange | app/src/main/java/com/finance/manager/ui/viewmodel/HomeViewModel.kt:206-208 | Sets only the note. |
| Home.HomeViewModel.OnDateChange | app/src/main/java/com/finance/manager/ui/viewmodel/HomeViewModel.kt:210-212 | Sets only the date. |
| Home.HomeViewModel.SaveTransaction | app/src/main/java/com/finance/manager/ui/viewmodel/HomeViewModel.kt:215-276 | On any error, the errors are written and nothing is stored. On success, one transaction row is appended, the selected account's balance is adjusted (untouched if the account is missing) and the form is reset. A storage fault writes its message and stops where it strikes. |
| AccountForm.NameErrorOf | app/src/main/java/com/finance/manager/ui/viewmodel/AccountViewModel.kt:101-105 | Blank gives "Введіть назву рахунку". Otherwise a length under 2 gives the min-length error. Otherwise no error. |
| AccountForm.BalanceErrorOf | app/src/main/java/com/finance/manager/ui/viewmodel/AccountViewModel.kt:107-113 | Blank, unparseable and negative each give their own error, and 0 is accepted. |
| AccountForm.NewAccount | app/src/main/java/com/finance/manager/ui/viewmodel/AccountViewModel.kt:126-135 | The account takes the form's name, balance, type, colour and icon, the user id and the currency "UAH". |
| AccountForm.AddedAccountReads | app/src/main/java/com/finance/manager/ui/viewmodel/AccountViewModel.kt:126-139 | The inserted account reads back by its new id. Other ids read as before. |
| AccountForm.AccountViewModel.constructor | app/src/main/java/com/finance/manager/ui/viewmodel/AccountViewModel.kt:21-29 | The form defaults are CARD, "#667EEA" and "account_balance_wallet", with empty fields. |
| AccountForm.AccountViewModel.LoadAccounts | app/src/main/java/com/finance/manager/ui/viewmodel/AccountViewModel.kt:52-63 | The state holds the accounts and isLoading is false. |
| AccountForm.AccountViewModel.InitAddAccountForm | app/src/main/java/com/finance/manager/ui/viewmodel/AccountViewModel.kt:66-68 | Restores the default form. |
| AccountForm.AccountViewModel.OnNameChange | app/src/main/java/com/finance/manager/ui/viewmodel/AccountViewModel.kt:70-75 | Sets the name and clears only nameError. |
| AccountForm.AccountViewModel.OnBalanceChange | app/src/main/java/com/finance/manager/ui/viewmodel/AccountViewModel.kt:77-82 | Sets the balance and clears only balanceError. |
| AccountForm.AccountViewModel.OnTypeChange | app/src/main/java/com/finance/manager/ui/viewmodel/AccountViewModel.kt:84-86 | Sets only the type. |
| AccountForm.AccountViewModel.OnColorChange | app/src/main/java/com/finance/manager/ui/viewmodel/AccountViewModel.kt:88-90 | Sets only the colour. |
| AccountForm.AccountViewModel.OnIconChange | app/src/main/java/com/finance/manager/ui/viewmodel/AccountViewModel.kt:92-94 | Sets only the icon. |
| AccountForm.AccountViewModel.SaveAccount | app/src/main/java/com/finance/manager/ui/viewmodel/AccountViewModel.kt:97-149 | Both errors are set together and nothing is saved while either is set. On success, exactly one row is appended with id lastId+1, it reads back as the new account, and the form is reset. A fault leaves the table unchanged. |
| AccountForm.AccountViewModel.DeleteAccount | app/src/main/java/com/finance/manager/ui/viewmodel/AccountViewModel.kt:152-160 | Removes the row with that id. On a fault the table is unchanged. |
| AccountForm.AccountViewModel.UpdateAccount | app/src/main/java/com/finance/manager/ui/viewmodel/AccountViewModel.kt:163-171 | Replaces the row with that id. On a fault the table is unchanged. |
| Auth.ValidateEmail | app/src/main/java/com/finance/manager/ui/viewmodel/AuthViewModel.kt:219-225 | Blank is checked before the pattern. There is no error iff the email is non-blank and matches. |
| Auth.ValidatePassword | app/src/main/java/com/finance/manager/ui/viewmodel/AuthViewModel.kt:227-233 | Blank gives the empty error, then a length under 6 gives the min-6 error, otherwise no error. |
| Auth.ValidateName | app/src/main/java/com/finance/manager/ui/viewmodel/AuthViewModel.kt:235-241 | Blank first, then a length under 2. |
| Auth.ValidateConfirmPassword | app/src/main/java/com/finance/manager/ui/viewmodel/AuthViewModel.kt:243-249 | Blank gives "Підтвердіть пароль". Otherwise a mismatch gives "Паролі не співпадають". |
| Auth.PasswordPasses | app/src/main/java/com/finance/manager/ui/viewmodel/AuthViewModel.kt:227-233 | Any password of 6 or more characters with a non-blank character passes. |
| Auth.RegisterPassesConfirms | app/src/main/java/com/finance/manager/ui/viewmodel/AuthViewModel.kt:160-176 | Passing registration means a valid email, a name of length 2 or more, and a confirmation equal to a password of at least 6 characters. |
| Auth.OutcomeState | app/src/main/java/com/finance/manager/ui/viewmodel/AuthViewModel.kt:90-126 | Success iff the server accepted. A refusal gives its message. A network failure gives the connection-error prefix plus the message. Loading is always off. |
| Auth.SessionAfterReads | app/src/main/java/com/finance/manager/ui/viewmodel/AuthViewModel.kt:104-116 | After an accepted login, the store reads logged in with the user's id, email and name. Otherwise it is unchanged. |
| Auth.AuthViewModel.IsLoggedIn | app/src/main/java/com/finance/manager/ui/viewmodel/AuthViewModel.kt:60 | It reads the store's isLoggedIn flag. |
| Auth.AuthViewModel.OnLoginEmailChange | app/src/main/java/com/finance/manager/ui/viewmodel/AuthViewModel.kt:63-68 | Sets the email and clears only emailError. |
| Auth.AuthViewModel.OnLoginPasswordChange | app/src/main/java/com/finance/manager/ui/viewmodel/AuthViewModel.kt:70-75 | Sets the password and clears only passwordError. |
| Auth.AuthViewModel.Login | app/src/main/java/com/finance/manager/ui/viewmodel/AuthViewModel.kt:77-127 | A validation error is written to the form, with no request and no state change. Otherwise the auth state and session follow the server outcome. |
| Auth.AuthViewModel.OnRegisterNameChange | app/src/main/java/com/finance/manager/ui/viewmodel/AuthViewModel.kt:130-135 | Sets the name and clears only nameError. |
| Auth.AuthViewModel.OnRegisterEmailChange | app/src/main/java/com/finance/manager/ui/viewmodel/AuthViewModel.kt:137-142 | Sets the email and clears only emailError. |
| Auth.AuthViewModel.OnRegisterPasswordChange | app/src/main/java/com/finance/manager/ui/viewmodel/AuthViewModel.kt:144-149 | Sets the password and clears only passwordError. |
| Auth.AuthViewModel.OnRegisterConfirmPasswordChange | app/src/main/java/com/finance/manager/ui/viewmodel/AuthViewModel.kt:151-156 | Sets the confirmation and clears only confirmPasswordError. |
| Auth.AuthViewModel.Register | app/src/main/java/com/finance/manager/ui/viewmodel/AuthViewModel.kt:158-216 | All four validator results are written together, and the method stops on any error. Otherwise the state follows the server outcome. |
| Auth.AuthViewModel.ResetAuthState | app/src/main/java/com/finance/manager/ui/viewmodel/AuthViewModel.kt:252-254 | Restores the default AuthState. |
| Auth.AuthViewModel.Logout | app/src/main/java/com/finance/manager/ui/viewmodel/AuthViewModel.kt:257-261 | Clears the store, which then reads logged out. |
| AuthStore.SaveUserDataReads | app/src/main/java/com/finance/manager/data/local/AuthDataStore.kt:32-39 | After saveUserData, isLoggedIn is true and userId, email and name read back. Currency and theme are kept. |
| AuthStore.EmptyStoreReads | app/src/main/java/com/finance/manager/data/local/AuthDataStore.kt:42-94 | Missing keys read as not logged in, no user id, currency "UAH" and theme "system". |
| AuthStore.SaveCurrencyReads | app/src/main/java/com/finance/manager/data/local/AuthDataStore.kt:73-77 | saveCurrency changes only the currency. |
| AuthStore.SaveThemeReads | app/src/main/java/com/finance/manager/data/local/AuthDataStore.kt:85-89 | saveTheme changes only the theme. |
| AuthStore.AuthDataStore.SaveUserData | app/src/main/java/com/finance/manager/data/local/AuthDataStore.kt:32-39 | Writes the four keys, which then read back. |
| AuthStore.AuthDataStore.Logout | app/src/main/java/com/finance/manager/data/local/AuthDataStore.kt:66-70 | Clears every key, so currency and theme fall back to "UAH" and "system". |
| AuthStore.AuthDataStore.SaveCurrency | app/src/main/java/com/finance/manager/data/local/AuthDataStore.kt:73-77 | Sets the currency key only. |
| AuthStore.AuthDataStore.SaveTheme | app/src/main/java/com/finance/manager/data/local/AuthDataStore.kt:85-89 | Sets the theme key only. |
| TransactionStore.GetAll | app/src/main/java/com/finance/manager/data/local/dao/TransactionDao.kt:20-26 | The user's rows, ordered by date descending. |
| TransactionStore.GetAllCount | app/src/main/java/com/finance/manager/data/local/dao/TransactionDao.kt:20-26 | Exactly the rows whose account belongs to the user, each as often as stored. |
| TransactionStore.GetAllMember | app/src/main/java/com/finance/manager/data/local/dao/TransactionDao.kt:20-26 | A row is returned iff its account belongs to the user. |
| TransactionStore.GetByDateRange | app/src/main/java/com/finance/manager/data/local/dao/TransactionDao.kt:29-35 | The result is date-descending. |
| TransactionStore.GetByDateRangeMember | app/src/main/java/com/finance/manager/data/local/dao/TransactionDao.kt:29-35 | Returns exactly the user's rows with startDate <= date <= endDate (BETWEEN is inclusive at both ends). |
| TransactionStore.GetByCategory | app/src/main/java/com/finance/manager/data/local/dao/TransactionDao.kt:38-44 | The result is date-descending. |
| TransactionStore.GetByCategoryMember | app/src/main/java/com/finance/manager/data/local/dao/TransactionDao.kt:38-44 | Returns exactly the user's rows in the given category. |
| TransactionStore.GetRecent | app/src/main/java/com/finance/manager/data/local/dao/TransactionDao.kt:47-54 | The first min(limit, n) rows of the getAll order. |
| TransactionStore.GetSumByType | app/src/main/java/com/finance/manager/data/local/dao/TransactionDao.kt:57-64 | Null iff no row matches the user, type and inclusive range. Otherwise the sum of the matching amounts. |
| TransactionStore.TransactionDao.Insert | app/src/main/java/com/finance/manager/data/local/dao/TransactionDao.kt:10-11 | REPLACE insert: any row with the same id is overwritten. Id 0 gets the next id. |
| TransactionStore.TransactionDao.Update | app/src/main/java/com/finance/manager/data/local/dao/TransactionDao.kt:13-14 | Replaces the row with that id. |
| TransactionStore.TransactionDao.Delete | app/src/main/java/com/finance/manager/data/local/dao/TransactionDao.kt:16-17 | Removes the row with that id. |
| TransactionStore.InsertFresh | app/src/main/java/com/finance/manager/data/local/dao/TransactionDao.kt:10-11 | A fresh id appends exactly one row. |
| TransactionStore.InsertLookup | app/src/main/java/com/finance/manager/data/local/dao/TransactionDao.kt:10-11 | After an insert, the new id reads the row and other ids read as before. |
| TransactionStore.UpdateLookup | app/src/main/java/com/finance/manager/data/local/dao/TransactionDao.kt:13-14 | After an update, only that id's row changes. |
| TransactionStore.DeleteLookup | app/src/main/java/com/finance/manager/data/local/dao/TransactionDao.kt:16-17 | After a delete, the id reads nothing and other ids read as before. |
| TransactionStore.SumByTypeOfRange | app/src/main/java/com/finance/manager/data/local/dao/TransactionDao.kt:57-64 | The sum defaulted to 0 equals the filtered sum over the range query. |
| ClientTransactions.AddTransaction | app/src/main/java/com/finance/manager/data/repository/TransactionRepository.kt:25-30 | amount <= 0 gives the IllegalArgumentException error and inserts nothing. Otherwise exactly one row is inserted and the DAO's id is returned. |
| ClientTransactions.UpdateTransaction | app/src/main/java/com/finance/manager/data/repository/TransactionRepository.kt:32-34 | Replaces the mapped row. |
| ClientTransactions.DeleteTransaction | app/src/main/java/com/finance/manager/data/repository/TransactionRepository.kt:36-38 | Removes the mapped row. |
| ClientTransactions.DefaultRecentIsFirstTen | app/src/main/java/com/finance/manager/data/repository/TransactionRepository.kt:60-64 | With the default limit of 10, the recent transactions are the first min(10, n) of getAllTransactions, in that order. |
| ClientTransactions.AllTransactionsSorted | app/src/main/java/com/finance/manager/data/repository/TransactionRepository.kt:19-23 | The mapped list keeps the DAO order, date descending. |
| ClientTransactions.ToDomainSorted | app/src/main/java/com/finance/manager/data/repository/TransactionRepository.kt:19-23 | Mapping each entity keeps the date-descending order. |
| ClientTransactions.KindSumToDomain | app/src/main/java/com/finance/manager/data/repository/TransactionRepository.kt:67-79 | The SQL sum by type name equals the domain sum by type. |
| ClientTransactions.SumByTypeIsRangeSum | app/src/main/java/com/finance/manager/data/repository/TransactionRepository.kt:67-79 | getSumByType with null mapped to 0 is the sum of that type over getTransactionsByDateRange. |
| AccountStore.ChangeBalance | app/src/main/java/com/finance/manager/ui/viewmodel/HomeViewModel.kt:252-263 | Length is kept. Only the account with that id changes, by the delta. |
| AccountStore.TotalBalanceUpdate | app/src/main/java/com/finance/manager/ui/viewmodel/HomeViewModel.kt:88-90 | Changing one account's balance by a delta changes the total by the delta. |
| AccountStore.AccountDao.GetAccountById | app/src/main/java/com/finance/manager/data/local/dao/AccountDao.kt:22-23 | None iff no row has that id. Otherwise the stored account with that id. |
| AccountStore.AccountDao.AddAccount | app/src/main/java/com/finance/manager/data/local/dao/AccountDao.kt:10-11 | REPLACE insert of the mapped account. Id 0 gets the next id. |
| AccountStore.AccountDao.UpdateAccount | app/src/main/java/com/finance/manager/data/local/dao/AccountDao.kt:13-14 | Replaces the row with that id. |
| AccountStore.AccountDao.DeleteAccount | app/src/main/java/com/finance/manager/data/local/dao/AccountDao.kt:16-17 | Removes the row with that id. |
| AccountStore.UpdateAccountLookup | app/src/main/java/com/finance/manager/data/local/dao/AccountDao.kt:13-14 | After an update, only that id reads differently. |
| AccountStore.StoredAccounts | app/src/main/java/com/finance/manager/data/local/entity/AccountEntity.kt:34-43 | Each stored row maps to the domain account at the same position. |
| AccountStore.StoredAccountIds | app/src/main/java/com/finance/manager/data/local/entity/AccountEntity.kt:34-43 | A row and its domain account share an id, so unique row ids give unique account ids. |
| AccountStore.ReplaceStoredAccounts | app/src/main/java/com/finance/manager/data/local/dao/AccountDao.kt:13-14 | With unique ids, updating an account to its balance plus a delta changes the domain accounts exactly as ChangeBalance does. |
| Entities.TransactionToDomain | app/src/main/java/com/finance/manager/data/local/entity/TransactionEntity.kt:40-48 | Fails iff the type is not an enum name. Otherwise it inverts toEntity. |
| Entities.TransactionEntityFields | app/src/main/java/com/finance/manager/data/local/entity/TransactionEntity.kt:50-58 | The type is stored by name and the date as its milliseconds. The other fields are copied. |
| Entities.TransactionRoundTrip | app/src/main/java/com/finance/manager/data/local/entity/TransactionEntity.kt:40-58 | toDomain(toEntity(t)) == t. |
| Entities.TransactionEntityRoundTrip | app/src/main/java/com/finance/manager/data/local/entity/TransactionEntity.kt:40-58 | toEntity(toDomain(e)) == e for e.type INCOME or EXPENSE. |
| Entities.TransactionsToDomain | app/src/main/java/com/finance/manager/data/repository/TransactionRepository.kt:19-23 | Mapping a list fails iff one row fails. Otherwise it keeps length and order. |
| Entities.AccountToDomain | app/src/main/java/com/finance/manager/data/local/entity/AccountEntity.kt:34-43 | Fails iff the type is not CASH, CARD or BANK. Otherwise it inverts toEntity. |
| Entities.AccountRoundTrip | app/src/main/java/com/finance/manager/data/local/entity/AccountEntity.kt:34-54 | toDomain(toEntity(a)) == a. |
| Entities.AccountEntityRoundTrip | app/src/main/java/com/finance/manager/data/local/entity/AccountEntity.kt:34-54 | toEntity(toDomain(e)) == e for a known type. |
| Entities.BudgetToDomain | app/src/main/java/com/finance/manager/data/local/entity/BudgetEntity.kt:33-40 | Fails iff the period is not MONTH, WEEK or YEAR. Otherwise it inverts toEntity. |
| Entities.BudgetRoundTrip | app/src/main/java/com/finance/manager/data/local/entity/BudgetEntity.kt:33-49 | toDomain(toEntity(b)) == b. |
| Entities.BudgetEntityRoundTrip | app/src/main/java/com/finance/manager/data/local/entity/BudgetEntity.kt:33-49 | toEntity(toDomain(e)) == e for a known period. |
| Entities.CategoryToDomain | app/src/main/java/com/finance/manager/data/local/entity/CategoryEntity.kt:18-24 | Fails iff the type is not a TransactionType name. Otherwise it inverts toEntity. |
| Entities.CategoryRoundTrip | app/src/main/java/com/finance/manager/data/local/entity/CategoryEntity.kt:18-32 | toDomain(toEntity(c)) == c. |
| Entities.CategoryEntityRoundTrip | app/src/main/java/com/finance/manager/data/local/entity/CategoryEntity.kt:18-32 | toEntity(toDomain(e)) == e for a known type. |
| Entities.UserToDomain | app/src/main/java/com/finance/manager/data/local/entity/UserEntity.kt:19-26 | Fails iff the role is not USER or ADMIN. Otherwise it inverts toEntity and copies passwordHash verbatim. |
| Entities.UserRoundTrip | app/src/main/java/com/finance/manager/data/local/entity/UserEntity.kt:19-34 | toDomain(toEntity(u)) == u, and the hash is kept. |
| Entities.UserEntityRoundTrip | app/src/main/java/com/finance/manager/data/local/entity/UserEntity.kt:19-34 | toEntity(toDomain(e)) == e for a known role. |
| Domain.TransactionTypeOf | app/src/main/java/com/finance/manager/data/local/entity/TransactionEntity.kt:47 | valueOf: returns the constant with that name, and None iff no name matches. |
| Domain.AccountTypeOf | app/src/main/java/com/finance/manager/data/local/entity/AccountEntity.kt:40 | valueOf for AccountType. |
| Domain.BudgetPeriodOf | app/src/main/java/com/finance/manager/data/local/entity/BudgetEntity.kt:38 | valueOf for BudgetPeriod. |
| Domain.UserRoleOf | app/src/main/java/com/finance/manager/data/local/entity/UserEntity.kt:24 | valueOf for UserRole. |
| Domain.NamesRoundTrip | app/src/main/java/com/finance/manager/data/local/entity/TransactionEntity.kt:40-56 | valueOf(name) returns the constant, for every enum. |
| Domain.FindCategory | app/src/main/java/com/finance/manager/ui/viewmodel/BudgetViewModel.kt:94 | `find`: the first category with that id, and None iff there is none. |
| ServerUsers.UserRepository.Create | server/src/main/kotlin/com/finance/server/repository/UserRepository.kt:12-40 | Returns null and changes nothing when the email exists. Otherwise a name over 100, email over 255 or hash over 255 characters throws and changes nothing. Otherwise one row is appended with the next id, the hashed password, and role ADMIN iff the table was empty. Emails stay unique. |
| ServerUsers.UserRepository.Insert | server/src/main/kotlin/com/finance/server/repository/UserRepository.kt:27-32 | The insert appends the row under the next id and keeps ids and emails unique and the first row the only ADMIN. |
| ServerUsers.FoundIffTaken | server/src/main/kotlin/com/finance/server/repository/UserRepository.kt:14-17 | The email lookup finds a user exactly when some stored user has that email. |
| ServerUsers.UserRepository.FindByEmailAndPassword | server/src/main/kotlin/com/finance/server/repository/UserRepository.kt:43-57 | Some iff a user has that email and the password checks. The result is that user. |
| ServerUsers.UserRepository.FindById | server/src/main/kotlin/com/finance/server/repository/UserRepository.kt:60-71 | Some iff a user has that id. The result is that user. |
| ServerUsers.UserRepository.GetAll | server/src/main/kotlin/com/finance/server/repository/UserRepository.kt:74-83 | Every stored user as a response without the password hash. The model lists them in table (insertion) order; SQL gives this select no order. |
| ServerUsers.FindUser | server/src/main/kotlin/com/finance/server/repository/UserRepository.kt:44-56 | Null when the email is absent or the check fails. Otherwise that user. |
| ServerUsers.WithEmailSingle | server/src/main/kotlin/com/finance/server/repository/UserRepository.kt:14-17 | With unique emails, at most one row has a given email. |
| ServerUsers.WithIdSingle | server/src/main/kotlin/com/finance/server/repository/UserRepository.kt:60-71 | With unique ids, at most one row has a given id. |
| ServerUsers.LoginFindsUser | server/src/main/kotlin/com/finance/server/repository/UserRepository.kt:43-57 | A stored user with a matching password is found by email and password. |
| ServerUsers.OneAdministrator | server/src/main/kotlin/com/finance/server/repository/UserRepository.kt:23-24 | In a table built by create, exactly the first user is ADMIN. |
| ServerAccounts.AccountRepository.GetAllByUserId | server/src/main/kotlin/com/finance/server/repository/AccountRepository.kt:13-16 | Only the user's rows, and all of them. The model lists them in table (insertion) order; SQL gives this select no order. |
| ServerAccounts.AccountRepository.GetById | server/src/main/kotlin/com/finance/server/repository/AccountRepository.kt:19-23 | Some iff a row matches both id and userId. |
| ServerAccounts.AccountRepository.Create | server/src/main/kotlin/com/finance/server/repository/AccountRepository.kt:26-47 | A name over 100, currency over 3, type over 50, colour over 7 or icon over 50 characters, or a balance beyond decimal(15, 2), throws and changes nothing. Otherwise exactly one row is appended with the next id and echoes the request fields. It then reads back, and other users' lists are unchanged. |
| ServerAccounts.DefaultRequestStorable | server/src/main/kotlin/com/finance/server/database/Tables.kt:21-34 | The column defaults fit the schema, so a request with only a name is stored iff the name has at most 100 characters. |
| ServerAccounts.CreateResponseEchoes | server/src/main/kotlin/com/finance/server/repository/AccountRepository.kt:37-46 | The response echoes the request's name, balance, currency, type, colour and icon. |
| ServerAccounts.AccountRepository.Update | server/src/main/kotlin/com/finance/server/repository/AccountRepository.kt:50-60 | A value too wide for its column throws and changes nothing. Otherwise the result is true iff an owned row with that id existed. Only that row changes, and other users' rows are unchanged. |
| ServerAccounts.AccountRepository.Delete | server/src/main/kotlin/com/finance/server/repository/AccountRepository.kt:63-65 | True iff such an owned row existed. Only it is removed, and other users are unaffected. |
| ServerTransactions.TransactionRepository.GetAllByUserId | server/src/main/kotlin/com/finance/server/repository/TransactionRepository.kt:13-17 | Exactly the user's rows, ordered by date descending. |
| ServerTransactions.ListingMeaning | server/src/main/kotlin/com/finance/server/repository/TransactionRepository.kt:13-17 | The listing is date-descending and holds exactly the user's rows. |
| ServerTransactions.RequestDate | server/src/main/kotlin/com/finance/server/repository/TransactionRepository.kt:21 | Uses the request date when present (parsed) and now otherwise; update (line 47) takes its date the same way. |
| ServerTransactions.TransactionRepository.Create | server/src/main/kotlin/com/finance/server/repository/TransactionRepository.kt:20-43 | A parse failure changes nothing. Then an amount beyond decimal(15, 2) or a type over 20 characters throws and changes nothing. Otherwise one row is appended with the next id and the chosen date, and echoed. |
| ServerTransactions.TransactionRepository.Update | server/src/main/kotlin/com/finance/server/repository/TransactionRepository.kt:46-58 | A parse failure, and then a value too wide for its column, changes nothing. Otherwise the result is true iff (id, userId) matched, and only that row changes. |
| ServerTransactions.TransactionRepository.Delete | server/src/main/kotlin/com/finance/server/repository/TransactionRepository.kt:61-63 | True iff an owned row was removed. |
| ServerBudgets.DefaultPeriodStorable | server/src/main/kotlin/com/finance/server/models/Models.kt:98-103 | A request without a period takes "MONTH", which fits its column, so it is stored iff its limit fits decimal(15, 2). |
| ServerBudgets.BudgetRepository.GetAllByUserId | server/src/main/kotlin/com/finance/server/repository/BudgetRepository.kt:13-16 | Exactly the user's budgets. The model lists them in table (insertion) order; SQL gives this select no order. |
| ServerBudgets.BudgetRepository.Create | server/src/main/kotlin/com/finance/server/repository/BudgetRepository.kt:19-38 | A parse failure changes nothing. Then a limit beyond decimal(15, 2) or a period over 20 characters throws and changes nothing. Otherwise one row is inserted with the given category, limit, period and parsed startDate, and echoed with the next id. |
| ServerBudgets.BudgetRepository.Update | server/src/main/kotlin/com/finance/server/repository/BudgetRepository.kt:41-51 | A parse failure, and then a value too wide for its column, changes nothing. Otherwise the result is true iff (id, userId) matched, and other rows are unchanged. |
| ServerBudgets.BudgetRepository.Delete | server/src/main/kotlin/com/finance/server/repository/BudgetRepository.kt:54-56 | True iff an owned row was removed. |
| Tables.ScopedUpdateMatched | server/src/main/kotlin/com/finance/server/repository/AccountRepository.kt:50-60 | An owner-scoped update rewrites exactly the matched row. |
| Tables.ScopedUpdateOthers | server/src/main/kotlin/com/finance/server/repository/AccountRepository.kt:50-60 | An owner-scoped update leaves other users' rows unchanged. |
| Tables.ScopedDeleteGone | server/src/main/kotlin/com/finance/server/repository/AccountRepository.kt:63-65 | After an owner-scoped delete, no row matches (id, userId). |
| Tables.ScopedDeleteOthers | server/src/main/kotlin/com/finance/server/repository/AccountRepository.kt:63-65 | An owner-scoped delete leaves other users' rows unchanged. |
| Tables.ScopedDeleteCount | server/src/main/kotlin/com/finance/server/repository/AccountRepository.kt:63-65 | The delete removes exactly the matched rows. |
| Tables.InsertNextKey | server/src/main/kotlin/com/finance/server/repository/AccountRepository.kt:27-35 | Appending the next id keeps the ids unique and issued. |
| Tables.MatchedRows | server/src/main/kotlin/com/finance/server/repository/AccountRepository.kt:19-23 | The row a (id, userId) lookup finds is a stored row with that id and owner. Under unique ids there is one iff such a row exists. |
| Tables.OwnedListing | server/src/main/kotlin/com/finance/server/repository/AccountRepository.kt:13-16 | The listing by userId is made of the user's stored rows, and every row of the user is listed. |
| Validation.IsValidTransactionAmount | server/src/test/kotlin/com/finance/server/ValidationTest.kt:11-13 | True iff the amount is greater than 0. |
| Validation.ValidateTransactionAmount | server/src/test/kotlin/com/finance/server/ValidationTest.kt:16-22 | Fails iff the amount is at most 0, with "Transaction amount must be greater than 0". |
| Validation.ValidatorAgreesWithPredicate | server/src/test/kotlin/com/finance/server/ValidationTest.kt:11-22 | The validator accepts exactly the amounts the predicate accepts. |
| Validation.ValidationTestCases | server/src/test/kotlin/com/finance/server/ValidationTest.kt:24-110 | 100.0 accepted; 0.0 and -50.0 rejected; 0.0 and -100.0 fail with the message; 250.5 passes. |
| JavaCalendar.Calendar.SetDayOfWeek | app/src/main/java/com/finance/manager/ui/viewmodel/StatisticsViewModel.kt:255-263 | set(DAY_OF_WEEK, w) moves to weekday w of the same Monday-first week. |
| JavaCalendar.Calendar.AddMonths | app/src/main/java/com/finance/manager/ui/viewmodel/TransactionsViewModel.kt:213 | add(MONTH, n) shifts year*12+month by n and clamps the day to the month's length. |
| JavaCalendar.PreviousMonth | app/src/main/java/com/finance/manager/ui/viewmodel/TransactionsViewModel.kt:211-230 | Adding -1 month gives the previous month. January goes to December of the previous year. |
| JavaCalendar.MonthWindowOfContains | app/src/main/java/com/finance/manager/ui/viewmodel/TransactionsViewModel.kt:190-230 | A .999-ended month window holds exactly the instants of that year and month. |
| JavaCalendar.WeekWindowContains | app/src/main/java/com/finance/manager/ui/viewmodel/TransactionsViewModel.kt:167-188 | A .999-ended week window holds exactly the instants of that week. |
| JavaCalendar.TruncatedWindowMissesLastSecond | app/src/main/java/com/finance/manager/ui/viewmodel/StatisticsViewModel.kt:263-267 | A .000-ended window misses the last instants of its last day. |
| JavaCalendar.WeekWindowShape | app/src/main/java/com/finance/manager/ui/viewmodel/StatisticsViewModel.kt:253-269 | The week window runs from a Monday at 00:00:00.000 to the Sunday six days later at 23:59:59 plus the end milliseconds, and holds the anchor's day. |
| JavaCalendar.MonthWindowShape | app/src/main/java/com/finance/manager/ui/viewmodel/StatisticsViewModel.kt:271-287 | The month window runs from day 1 of the anchor's month at midnight to its last day (getActualMaximum) at 23:59:59 plus the end milliseconds, and holds the anchor. |
| JavaCalendar.YearWindowShape | app/src/main/java/com/finance/manager/ui/viewmodel/StatisticsViewModel.kt:289-305 | The year window runs from January 1 at midnight to December 31 at 23:59:59 plus the end milliseconds of the anchor's year, and holds the anchor. |
| JavaCalendar.FebruaryWindowEnd | app/src/main/java/com/finance/manager/ui/viewmodel/StatisticsViewModel.kt:281 | getActualMaximum(DAY_OF_MONTH) in February is 29 in leap years and 28 otherwise. |
| DateRanges.WeekRange | app/src/main/java/com/finance/manager/ui/viewmodel/StatisticsViewModel.kt:253-270 | The Monday..Sunday set sequence on a Calendar yields WeekWindow(time, end millis). |
| DateRanges.MonthRange | app/src/main/java/com/finance/manager/ui/viewmodel/StatisticsViewModel.kt:271-288 | The day-1..last-day set sequence yields the month window. |
| DateRanges.YearRange | app/src/main/java/com/finance/manager/ui/viewmodel/StatisticsViewModel.kt:289-306 | The day-of-year 1..max set sequence yields the year window. |
| CivilCalendar.CivilRoundTrip | app/src/main/java/com/finance/manager/ui/viewmodel/StatisticsViewModel.kt:205-208 | A valid (year, month, day) converted to a day number and back is the same date, so DAY_OF_MONTH and MONTH read back correctly. |
| CivilCalendar.MondayOfWeekDay | app/src/main/java/com/finance/manager/ui/viewmodel/StatisticsViewModel.kt:181-184 | The day k places after a day's Monday is in the same week and has weekday index k. |
| Ledger.KindsPartition | app/src/main/java/com/finance/manager/ui/viewmodel/StatisticsViewModel.kt:113-118 | INCOME plus EXPENSE sums equal the whole sum. |
| Ledger.BucketsPartition | app/src/main/java/com/finance/manager/ui/viewmodel/StatisticsViewModel.kt:170-246 | Buckets over distinct keys that cover every transaction sum to the whole. |
| Sorting.SortDesc | app/src/main/java/com/finance/manager/ui/viewmodel/StatisticsViewModel.kt:154 | sortedByDescending returns a sorted permutation. |
| Sorting.SortDescStable | app/src/main/java/com/finance/manager/ui/viewmodel/StatisticsViewModel.kt:154 | The sort is stable: elements with the same key keep their order. |
| Lists.Take | app/src/main/java/com/finance/manager/ui/viewmodel/StatisticsViewModel.kt:121 | take(n) is the first min(n, size) elements. |

## Left out

- I/O and concurrency. Calls are sequential and see a snapshot. Kotlin Flow, `combine`, `collectLatest`, `viewModelScope.launch` and StateFlow emission are not modelled, and neither is the intermediate `isLoading = true` state between a launch and its result.
- Double, Float and BigDecimal arithmetic, `toDoubleOrNull` and `toFloat`. Money is unbounded integer minor units, percentages are exact `real`, and parsing is a parameter. `Long` width and overflow are not modelled.
- Timezones, DST and locale. Dates are UTC epoch milliseconds, and `firstDayOfWeek` is assumed to be Monday.
- The email regex, BCrypt, `Instant.parse`, `Instant.now` and the server API are function-typed parameters. Their behaviour is not modelled.
- `Instant.toString`: server responses carry the date as its millisecond value, not an ISO string.
- The HTTP layer: routes, JWT, CORS and the database connection. Exposed `transaction {}` isolation is not modelled.
- Database-managed timestamps (`createdAt`, `updatedAt`), foreign-key enforcement and cascades. The order SQL gives rows with equal dates is unspecified; the model keeps table order.
- Row order of the unordered server listings: the selects of `UserRepository.getAll`, `AccountRepository.getAllByUserId` and `BudgetRepository.getAllByUserId` have no `ORDER BY`, so PostgreSQL may return their rows in any order, and an update can move a row. The model returns them in table (insertion) order, and the equalities that `ServerAccounts.AccountRepository.Create` and `ServerBudgets.BudgetRepository.Create` state about the user's list after an append describe that modelled order, not an order the database promises. Membership and the count of the listings do not depend on this choice.
- String `length` counts `char`s; UTF-16 surrogate pairs are not modelled. `isBlank` uses a fixed set of whitespace characters.
- The Compose UI, DateUtils.kt, ProfileViewModel and the other DAOs and repositories. They only render or delegate to Room.
- `deleteBudget` and `deleteTransaction` in the Budget and Transactions view models: each only calls a repository delete and swallows any exception. The deletes themselves are modelled as `TransactionStore.TransactionDao.Delete` and the server `Delete` methods.
- Home.HomeViewModel.LoadData: requires that every stored recent row maps to a domain transaction, because otherwise `valueOf` throws inside a flow and the source gives no state.
- Statistics.StatisticsViewModel.LoadData: takes one `now` for the window and the month series, where the source reads the clock twice.
- ServerTransactions.TransactionRepository.Find and ServerBudgets.BudgetRepository.Find: lookups used only to state contracts. The source has no getById for these tables.
- Column types of the server schema: a value longer than its `varchar` width or an amount beyond `decimal(15, 2)` is modelled as a failure before any row is written, for an update whether or not a row matches. The message of the exception is one fixed string, and length counts `char`s, not code points. Whether the database's id sequence skips a value on a rejected insert is not modelled: a rejected insert takes no id.
- The category prepopulation in AppDatabase is not modelled.
