# SafeNest dashboard client — a verified model

SafeNest's web client signs a user in, fetches one comprehensive record of the
user's profile, income, debts, expenses and financial-knowledge ratings, turns it
into the dashboard's view of the user, and lets the user add or edit single entities
in modal forms. This project models that client-side logic in Dafny and proves what
it promises:

- **Numbers and text** (`Js`, `Numeric`, `Text`): JavaScript values
  (`undefined`, `null`, booleans, numbers with NaN, strings) and their truthiness;
  the currency clean-up `String(v || '0').replace(/[^0-9.-]+/g, "")`, then `parseFloat`;
  the income total with its NaN guard, and the debt total without one.
- **The user context** (`UserContext`, `ExpenseSummary`, `KnowledgeTransform`,
  `GoalTransform`, `Http`): the snapshot built from a response, including
  - the latest `YYYY-MM` month and its per-category totals,
  - the all-time per-category totals and the top spending category,
  - the knowledge map keyed by category and the goal list with humanised titles;
  and the fetch lifecycle that replaces the snapshot or records an error.
- **Authentication** (`AuthContext`, `LoginPage`): the logged-in flag, the login and
  registration handlers, and the error messages they build from a failed response.
- **Derived display data** (`FinancialProfile`, `TransactionList`, `TransactionsPage`):
  which values the profile card shows, the pie slices of the latest month, the
  dividers and fallback text, the transaction table's category filter and colours,
  and the expense-to-row mapping with its use of cached data.
- **Modal forms** (`KnowledgeModal`, `ProfileModal`, `DebtModal`, `IncomeModal`,
  `ExpenseModal`, with `Forms`): edit-mode detection, form initialisation, payload
  normalisation (`'' → null`, `parse || 0`, `parse || null`), the guards that stop a
  submit before any remote call, and the create-or-update choice.

React state is modelled as classes whose methods update their fields. A handler
that awaits a remote call is split into the part that runs before the call and a
`Settled` method that receives the call's outcome. Remote calls, `parseFloat`,
`parseInt(·, 10)`, number printing and date parsing are parameters. The engine's
primitives are fields of a `Js.Engine` value. A parsed date is handed in as its
`getTime()` value with its local year and month.

Object key order is modelled by an insertion-ordered dictionary (`Dictionary.Dict`).
Assigning an existing key keeps its place, as it does in JavaScript. A goals object
is taken as a sequence of entries already in the engine's enumeration order.

## Model

| member | source | states |
|---|---|---|
| Numeric.Strip | src/context/UserContext.jsx:105 | The result holds only digits, `.` and `-`. It is an order-preserving subsequence of the input, and it keeps every such character exactly as often as the input has it. |
| Numeric.StripKeeps | src/context/UserContext.jsx:105 | A string made only of digits, `.` and `-` comes back unchanged. |
| Numeric.StripIdempotent | src/context/UserContext.jsx:105 | Stripping twice gives the same as stripping once. |
| Numeric.FalsyReadsAsZero | src/context/UserContext.jsx:105 | A falsy value is read as the text `"0"`. |
| Numeric.TotalMonthlyIncome | src/context/UserContext.jsx:104-107 | Meaning of `IncomeTotal`. The reduce loop computes the income total: the sum of the guarded amounts, and 0 for a missing list. |
| Numeric.UnparsableIncomeCountsZero | src/context/UserContext.jsx:104-107 | A list whose entries all fail to parse totals 0. |
| Numeric.IncomeTotalAppend | src/context/UserContext.jsx:104-107 | Adding one record adds exactly its guarded amount to the total. |
| Numeric.NumberSumMeaning | src/context/UserContext.jsx:173 | The sum of the balances is NaN exactly when some balance is NaN. Otherwise it is the sum of their values. |
| Numeric.DebtTotalMeaning | src/context/UserContext.jsx:172-177 | Meaning of `DebtTotal`. The shown debt total is 0 when some balance fails to parse, because `formatCurrency` renders NaN as 0. Otherwise it is the sum of the balances. |
| KnowledgeTransform.Knowledge | src/context/UserContext.jsx:13-23 | The reduce yields a well-formed dictionary: its keys are distinct and are exactly the entries' domain. |
| KnowledgeTransform.KnowledgeMeaning | src/context/UserContext.jsx:11-24 | There is one key per distinct category, in order of first appearance. A category has an entry exactly when some record carries it. The entry is built from the last such record, so a later record overrides an earlier one. |
| KnowledgeTransform.TransformKnowledge | src/context/UserContext.jsx:11-24 | The result is a well-formed dictionary. It has an entry for a category exactly when the list is present and some record carries that category, so a missing or empty list gives `{}`. |
| KnowledgeTransform.EntriesNameTheirCategory | src/context/UserContext.jsx:12-21 | For any input, including a missing or empty list (which gives `{}`), every entry's `apiCategory` is its own key and its level text starts with `"Level "`. |
| GoalTransform.Upper | src/context/UserContext.jsx:36 | `toUpperCase` on a character keeps whether it is a `\w` character and yields no lower-case letter. A lower-case letter moves down 32 code points to its capital, and any other character is unchanged. |
| GoalTransform.HumanizeMeaning | src/context/UserContext.jsx:35-37 | The title has the key's length. A space stands exactly where the key had `_`, and no `_` remains. Every word begins with the key's own character at that place, upper-cased. Every other character is the key's own. |
| GoalTransform.HumanizeIdempotent | src/context/UserContext.jsx:36 | Humanising a title again leaves it unchanged. |
| GoalTransform.GoalOf | src/context/UserContext.jsx:31-39 | A produced goal has `id` equal to its key. The entry throws exactly when its value is `null`, because `typeof null` is `'object'` and reading `.title` then fails. |
| GoalTransform.GoalList | src/context/UserContext.jsx:27-40 | The list succeeds exactly when no value is `null`, and a failure carries the TypeError's message. On success there is one goal per entry, in order, each with `id` equal to its key and equal to that entry's goal. |
| GoalTransform.TransformGoals | src/context/UserContext.jsx:27-40 | A non-object or empty object gives `[]`. An object fails exactly when one of its values is `null`; otherwise it gives one goal per entry, in order, each with its key as id. |
| GoalTransform.GoalShapes | src/context/UserContext.jsx:32-39 | A string value becomes the description under the humanised key. An object with a truthy title and description keeps both. An object without them gets the title `"Goal Detail"` and the description `"[object Object]"`. Any other non-null value gets the title `"Goal Detail"` and its `String` form. |
| ExpenseSummary.Summarize | src/context/UserContext.jsx:130-134 | The reduce yields a well-formed dictionary. |
| ExpenseSummary.SummarizeMeaning | src/context/UserContext.jsx:130-134 | There is one key per distinct category, in order of first appearance, and each key maps to the total of that category's amounts. |
| ExpenseSummary.SummarizeByCategory | src/context/UserContext.jsx:139-144 | The reduce written as a loop computes the same summary. |
| ExpenseSummary.LatestMonthMeaning | src/context/UserContext.jsx:111-125 | There is no latest month exactly when no expense is validly dated. Otherwise it is the month of a dated expense whose time is the greatest. When a later time never falls in an earlier month, no dated expense has a later month. |
| ExpenseSummary.InsertNewest | src/context/UserContext.jsx:122 | Inserting into a newest-first list keeps it newest first and adds exactly that expense, which comes first or after the old head. |
| ExpenseSummary.SortNewestFirst | src/context/UserContext.jsx:122 | The sort yields a newest-first permutation of its input. |
| ExpenseSummary.SortKeepsNewestFirst | src/context/UserContext.jsx:122 | A list that is already newest first comes back unchanged. |
| ExpenseSummary.InsertKeepsTies | src/context/UserContext.jsx:122 | Inserting an expense keeps the expenses of any one time in the order they have with the new expense put in front. |
| ExpenseSummary.SortIsStable | src/context/UserContext.jsx:122 | The sort is stable: the expenses of any one time come out in their input order, as with `Array.prototype.sort`. |
| ExpenseSummary.NewestDatedMembers | src/context/UserContext.jsx:112-122 | The sorted list holds exactly the expenses with a truthy timestamp that parses to a valid date. |
| ExpenseSummary.FilterKeepsNewestFirst | src/context/UserContext.jsx:127-129 | Keeping only the latest month's expenses leaves them newest first. |
| ExpenseSummary.MonthKeyMeaning | src/context/UserContext.jsx:126 | The key is the year, `-`, then two digits that read back as the 1-based month. |
| ExpenseSummary.LatestMonthSummaryMeaning | src/context/UserContext.jsx:127-134 | Meaning of `LatestMonthSummary`. The latest-month summary counts exactly the expenses dated in the latest month, taken newest first. It has one key per distinct category among them, in the order their newest expenses come, with that category's total. |
| ExpenseSummary.SummaryCategories | src/context/UserContext.jsx:130-134 | A summary's keys are exactly the categories of its expenses. |
| ExpenseSummary.LatestKeysAreAllTimeKeys | src/context/UserContext.jsx:127-144 | Every category of the latest-month summary is also a key of the all-time summary. |
| ExpenseSummary.FirstMaxIndex | src/context/UserContext.jsx:189 | The index picked holds the largest value, and every earlier value is smaller: where a stable descending sort puts its head. |
| ExpenseSummary.TopCategoryFallback | src/context/UserContext.jsx:188-190 | The three-level choice over the two summaries: the first-largest latest-month key, else the first-largest all-time key, else `'N/A'`. |
| ExpenseSummary.LatestMonthSummaryEmptyIff | src/context/UserContext.jsx:111-135 | The latest-month summary is empty exactly when no expense is validly dated. |
| ExpenseSummary.AllTimeSummaryEmptyIff | src/context/UserContext.jsx:138-144 | Meaning of `AllTimeSummary`. The all-time summary is empty exactly when the expense list is missing or empty. |
| ExpenseSummary.TopSpendingCategoryMeaning | src/context/UserContext.jsx:188-190 | Meaning of `TopSpendingCategory`. The top category is the first-largest category of the latest month when some expense is validly dated. Otherwise it is the first-largest all-time category when there are expenses, and `'N/A'` when there are none. A tie goes to the key entered first: in the latest month that is the category of the newer expense. |
| ExpenseSummary.LatestOfTwo | src/context/UserContext.jsx:112-129 | Two expenses of one month, the second newer: the latest month holds both, the newer first. |
| ExpenseSummary.SummarizeTwo | src/context/UserContext.jsx:130-134 | Two items of distinct categories give a summary keyed by the two categories in item order, each with its own amount. |
| ExpenseSummary.TopOfEqualPair | src/context/UserContext.jsx:189 | Of two keys with equal totals, the top key is the one entered first. |
| ExpenseSummary.NewerExpenseSummarisedFirst | src/context/UserContext.jsx:112-134 | Two expenses of one month and equal amount, listed older first: the latest-month summary lists the newer one's category first. |
| ExpenseSummary.NewerExpenseWinsTie | src/context/UserContext.jsx:122-189 | So the newer expense's category is the top spending category. For example, Food 10 on 2024-03-01 and then Rent 10 on 2024-03-15 give `'Rent'`. |
| UserContext.DetailedDebtsMeaning | src/context/UserContext.jsx:179-184 | Each listed debt keeps its id. Its name is the account name, or `'N/A'` when that is falsy. It has a minimum payment exactly when the received one is truthy. |
| UserContext.BuildUserMeaning | src/context/UserContext.jsx:151-203 | Meaning of `BuildUser`. Building the snapshot fails exactly when a goal value is `null`. On success:<br>- name and email fall back to the previous snapshot;<br>- membership fields are carried over;<br>- income shows exactly when the total is positive;<br>- the debt count is the number of debts received, the debt list is their mapping and the raw debts are the received list;<br>- `liabilities` and `totalDebt` are both the debt total;<br>- the top category follows the rule above;<br>- goals, knowledge, both expense summaries and the latest-month key are the transforms of the received data. |
| UserContext.SnapshotReflectsData | src/context/UserContext.jsx:110-185 | In a built snapshot, each listed debt keeps the received id and takes its name or `'N/A'`. The latest-month summary is empty exactly when no expense carries a valid date. |
| Http.FailureMessage | src/context/UserContext.jsx:97-99 | A `null` body gives the TypeError message for reading `detail`. Any other body gives the prefix, then digits that read back as the status, then ` - ` and the `String` text of the detail. An unreadable body's detail is `HTTP error <status>`. |
| Http.FailureMessageNamesStatus | src/context/UserContext.jsx:99 | Two equal messages built from non-null bodies name the same status. |
| UserContext.UserProvider.constructor | src/context/UserContext.jsx:44-83 | The provider starts with the default snapshot, loading and with no error. |
| UserContext.UserProvider.OnLoginChange | src/context/UserContext.jsx:86-94 | Logged out: loading ends, nothing is fetched, and snapshot and error are untouched. Logged in: a fetch starts, loading and with the error cleared. |
| UserContext.FetchResultMeaning | src/context/UserContext.jsx:95-207 | Only a received record can replace the snapshot. A rejected request keeps its own message. A failed response's message starts with `Failed to fetch user data: `. A `null` body fails with `Cannot read properties of null (reading 'income')`. |
| UserContext.UserProvider.FetchSettled | src/context/UserContext.jsx:95-209 | Success replaces the whole snapshot and leaves the error. Failure keeps the previous snapshot and records the error message. Loading ends either way. |
| UserContext.UseUser | src/context/UserContext.jsx:225-231 | Inside a provider it returns the provider's value; outside one it fails with the fixed message. |
| AuthContext.AuthProvider.constructor | src/context/AuthContext.jsx:8 | A session starts logged out. |
| AuthContext.AuthProvider.Login | src/context/AuthContext.jsx:10 | After `login` the user is logged in, whatever the state before, and nothing else is recorded. |
| AuthContext.AuthProvider.Logout | src/context/AuthContext.jsx:11 | After `logout` the user is logged out, whatever the state before. |
| AuthContext.UseAuth | src/context/AuthContext.jsx:22-28 | Inside a provider it returns the provider's value; outside one it fails with the fixed message. |
| LoginPage.StatusMessage | src/pages/LoginPage.jsx:36 | The message is the prefix followed only by digits, and those digits read back as the status. |
| Http.ArrayTextLength | src/pages/LoginPage.jsx:36 | `String(array)` of validation objects is empty exactly for the empty array. Otherwise it has 16 characters per entry, less one. |
| LoginPage.ItemsTextMeaning | src/pages/LoginPage.jsx:101-102 | One entry gives `loc.join(' -> ') + ': ' + msg`. Each further entry appends `'; '` and its own text. A non-empty list never gives the empty text. |
| LoginPage.LoginErrorShown | src/pages/LoginPage.jsx:33-44 | Meaning of `LoginFailure`. What a failed login shows:<br>- a falsy detail gives `Login failed with status: ` and digits that read back as the status;<br>- a non-empty string detail is shown as it is;<br>- an array of *n* entries shows *n* `[object Object]` texts;<br>- an empty array leaves the message empty, so the fallback shows;<br>- a plain object shows `[object Object]`. |
| LoginPage.RegisterErrorShown | src/pages/LoginPage.jsx:96-116 | Meaning of `RegisterFailure`. What a failed registration shows:<br>- a falsy detail gives `Registration failed with status: ` and digits that read back as the status;<br>- a non-empty string detail is shown as it is;<br>- a non-empty array shows its entries' texts joined by `'; '`;<br>- an empty array shows the fallback;<br>- a plain object shows `[object Object]`. |
| LoginPage.Page.constructor | src/pages/LoginPage.jsx:15-17 | The page starts with no error, not loading and in sign-in mode. |
| LoginPage.Page.Start | src/pages/LoginPage.jsx:21-22 | Either handler starts loading with the error cleared (also lines 52-53). |
| LoginPage.Page.LoginSettled | src/pages/LoginPage.jsx:33-47 | Only a readable ok response calls `login`, and it leaves the error as it was (cleared when the handler started). Anything else leaves the flag alone and shows the thrown message, or the fallback when that is empty. A `null` body throws on reading `detail`, or `user_id` when the response is ok. Loading ends either way. |
| LoginPage.Page.RegisterSettled | src/pages/LoginPage.jsx:96-119 | The same for registration, with its own message and fallback. |
| LoginPage.Page.ToggleFormMode | src/pages/LoginPage.jsx:122-125 | Switching forms flips the registering flag and clears the error. |
| FinancialProfile.IsValidValueIff | src/components/features/profile/FinancialProfile.jsx:14-16 | A value is hidden exactly when it is `null`, `undefined`, `'N/A'` or all white space once converted to a string. |
| FinancialProfile.InsertDesc | src/components/features/profile/FinancialProfile.jsx:26 | Inserting into a non-increasing list keeps it non-increasing and adds exactly the one slice. |
| FinancialProfile.SortDesc | src/components/features/profile/FinancialProfile.jsx:26 | The sort yields a non-increasing permutation of its input. |
| FinancialProfile.PieSlicesBound | src/components/features/profile/FinancialProfile.jsx:22-27 | An absent summary draws no slices. There are never more slices than categories. |
| FinancialProfile.PieSlicesSound | src/components/features/profile/FinancialProfile.jsx:22-26 | Meaning of `PieSlices`. The slices are in non-increasing order. Each is a category of the summary, valued at the absolute value of its total, and strictly positive. |
| FinancialProfile.PieSlicesComplete | src/components/features/profile/FinancialProfile.jsx:23-25 | Every category with a non-zero total has exactly one slice. |
| FinancialProfile.ValidItems | src/components/features/profile/FinancialProfile.jsx:42 | The shown items are an order-preserving subsequence of the raw items. An item is shown exactly when its value is valid (also line 51). |
| FinancialProfile.LayoutMeaning | src/components/features/profile/FinancialProfile.jsx:61-159 | Meaning of `Layout`. The card shows the sections with content in order, with a divider between each two of them. So a divider precedes a section exactly when an earlier one is shown. The fallback text shows, alone, exactly when all four sections are empty. |
| FinancialProfile.BlockInLayout | src/components/features/profile/FinancialProfile.jsx:61-159 | A layout holds each section exactly when it has content and the fallback exactly when none has, and never the loading line. |
| FinancialProfile.AnyValid | src/components/features/profile/FinancialProfile.jsx:42 | Some item is shown exactly when some item has a valid value. |
| FinancialProfile.Card | src/components/features/profile/FinancialProfile.jsx:18-19 | The loading line shows exactly when there is no profile, and then alone. |
| FinancialProfile.CardShows | src/components/features/profile/FinancialProfile.jsx:33-165 | Once a profile has arrived, the overview shows exactly when one of its values is valid, and the habits likewise. The fallback text shows exactly when no overview or habit value is valid, there are no debts and there are no slices. |
| TransactionList.CategoriesMeaning | src/components/features/transactions/TransactionList.jsx:15-20 | Without transactions the options are `['all']`. Otherwise `'all'` comes first, and the rest are strictly ascending and are exactly the effective categories present. |
| TransactionList.FilteredTransactionsMeaning | src/components/features/transactions/TransactionList.jsx:22-28 | Meaning of `FilteredTransactions`. `'all'` returns the list unchanged. Any other selection returns, in order, exactly the rows filed under it, each as often as it occurs. |
| TransactionList.AmountColor | src/components/features/transactions/TransactionList.jsx:34-40 | Red exactly for a negative amount. Green exactly for a positive income amount. The neutral class otherwise. |
| TransactionList.RowMatchesColumns | src/components/features/transactions/TransactionList.jsx:74-121 | Every transaction row has one cell per header, and each cell sits under the head of its kind. The "Actions" head and cell appear together, when an edit or delete handler is given. |
| TransactionList.EmptyRowColSpan | src/components/features/transactions/TransactionList.jsx:127 | The empty-state row spans exactly the table's columns: 5 when an edit or delete handler is given, and 4 when neither is. |
| TransactionsPage.MapExpensesMeaning | src/pages/TransactionsPage.jsx:24-31 | Meaning of `MapExpense`. There is one row per expense, in order. Each row has:<br>- the expense's id, description and category;<br>- the type `'expense'`;<br>- `'N/A'` as its date exactly when the timestamp is falsy, and the timestamp to localise otherwise;<br>- an amount that is never positive, so it never takes the income colour. |
| TransactionsPage.NonZeroExpenseIsRed | src/pages/TransactionsPage.jsx:29 | An amount that parses to a non-zero number is shown in red. |
| TransactionsPage.Page.constructor | src/pages/TransactionsPage.jsx:10-12 | The page starts with no rows, loading and with no error. |
| TransactionsPage.Page.OnContextChange | src/pages/TransactionsPage.jsx:16-70 | While the context loads nothing happens. With no context error the cached expenses become the rows, no request is made and loading ends. With an error a request starts. |
| TransactionsPage.Page.FetchSettled | src/pages/TransactionsPage.jsx:39-61 | The fetched expenses become the rows, or the error is recorded with its message. A `null` body records the TypeError of `data.map`. Loading ends either way. |
| Js.OrZero | src/components/modals/AddEditDebtModal.jsx:69 | `parse \|\| 0`: non-zero exactly when the parse is truthy, and then equal to it. |
| Js.OrNull | src/components/modals/AddEditDebtModal.jsx:72 | `parse \|\| null`: a value exactly when the parse is truthy, and never 0. |
| KnowledgeModal.KnowledgeLevelsAreOneToFive | src/components/modals/AddEditKnowledgeModal.jsx:14-20 | The level options are exactly the levels 1 to 5, in order. |
| KnowledgeModal.DefaultCategoriesSorted | src/components/modals/AddEditKnowledgeModal.jsx:10-12 | The fallback holds the seven listed categories, strictly ascending. |
| KnowledgeModal.AvailableCategories | src/components/modals/AddEditKnowledgeModal.jsx:38-55 | A failed load, or one that yields no category, gives the fallback. Otherwise the options are strictly ascending and are exactly the categories loaded. |
| KnowledgeModal.DigitRun | src/components/modals/AddEditKnowledgeModal.jsx:61 | The run is made of digits and is not followed by a digit. |
| KnowledgeModal.FirstDigits | src/components/modals/AddEditKnowledgeModal.jsx:61 | A match is a non-empty run of digits taken from the text. No digit comes before it and none follows it, so it is the leftmost whole run. There is no match exactly when the text has no digit. |
| KnowledgeModal.LevelRoundTrip | src/components/modals/AddEditKnowledgeModal.jsx:61-62 | Meaning of `LevelOf`. The text `"Level n"` that the user context produces reads back as the number `n`. |
| KnowledgeModal.Modal.constructor | src/components/modals/AddEditKnowledgeModal.jsx:29-33 | The modal starts with an empty form, not loading, with no error, and with no load made yet. |
| KnowledgeModal.Modal.InitialOptions | src/components/modals/AddEditKnowledgeModal.jsx:32 | Before any load the category options are the fallback list. |
| KnowledgeModal.Modal.Open | src/components/modals/AddEditKnowledgeModal.jsx:57-71 | Covers `CategoryDisabled`. On opening, definitions start loading and the error is cleared, so the category select is disabled. Edit mode fills the category and the extracted level; otherwise the form is emptied. |
| KnowledgeModal.Modal.DefinitionsLoaded | src/components/modals/AddEditKnowledgeModal.jsx:38-55 | The load result (or its failure) now decides the options, and loading ends. From then on the category select is disabled exactly in edit mode. |
| KnowledgeModal.Modal.Change | src/components/modals/AddEditKnowledgeModal.jsx:76-79 | A chosen level is stored as `parseInt(value, 10)` and a category as typed. Nothing else changes. |
| KnowledgeModal.Modal.Submit | src/components/modals/AddEditKnowledgeModal.jsx:81-101 | Covers `Forms.UserIdOf`, the guard's user id. Without a user id, or with a falsy category or level, it sets the matching message, stops loading and calls nothing. Otherwise it calls with exactly the category and the level, and stays loading. |
| KnowledgeModal.Modal.Settled | src/components/modals/AddEditKnowledgeModal.jsx:103-112 | It reports success exactly when nothing was thrown. A failure shows its message or the fallback. Loading ends either way. |
| ProfileModal.PayloadOf | src/components/modals/EditProfileModal.jsx:50-57 | An empty number field is sent as `null`, and a filled one as `parseInt(field, 10)` of its text. A status is sent as typed when it is not empty, never as `''`, and as `null` otherwise. |
| ProfileModal.UnchangedFormPayload | src/components/modals/EditProfileModal.jsx:20-58 | Saving an unchanged form sends `null` for every falsy stored value. Truthy numbers are reparsed and truthy statuses are kept. |
| ProfileModal.ZeroChildrenBecomesNull | src/components/modals/EditProfileModal.jsx:23-54 | A stored `num_children` of 0 is submitted as `null`. |
| ProfileModal.Modal.constructor | src/components/modals/EditProfileModal.jsx:9-17 | The modal starts with an empty form, not loading and with no error. |
| ProfileModal.Modal.Load | src/components/modals/EditProfileModal.jsx:19-37 | The form fills from the nested profile when there is one, else from the flat fields. With no data it is kept. |
| ProfileModal.Modal.Change | src/components/modals/EditProfileModal.jsx:41-44 | The named field takes the typed value, and nothing else changes. |
| ProfileModal.Modal.Submit | src/components/modals/EditProfileModal.jsx:46-59 | There is no guard: the form's payload is always handed over, with loading on and the error cleared. |
| ProfileModal.Modal.Settled | src/components/modals/EditProfileModal.jsx:59-65 | A failure shows its message or the fallback. Loading ends either way. |
| DebtModal.UnchangedFormPayload | src/components/modals/AddEditDebtModal.jsx:29-76 | Meaning of `FormOf` and `PayloadOf` together. Saving an unchanged debt sends its name back (`null` when it had none), its balance back (0 when it had none) and its minimum payment back (`null` when it had none), for an engine that parses the numbers it prints back to themselves. |
| DebtModal.Modal.constructor | src/components/modals/AddEditDebtModal.jsx:12-21 | The modal starts with an empty form, not loading and with no error. |
| DebtModal.Modal.Open | src/components/modals/AddEditDebtModal.jsx:26-45 | Edit mode fills the form from the debt; otherwise the form is emptied. The error is cleared. |
| DebtModal.Modal.Change | src/components/modals/AddEditDebtModal.jsx:50-53 | The named field takes the typed value, and nothing else changes. |
| DebtModal.Modal.Submit | src/components/modals/AddEditDebtModal.jsx:55-85 | Covers `Forms.UserIdOf` and `Forms.SaveCallFor`. Without a user id it sets the message, stops loading and calls nothing. Otherwise it updates by `debt.id` in edit mode and creates otherwise, with the normalised payload. |
| DebtModal.Modal.Settled | src/components/modals/AddEditDebtModal.jsx:86-92 | It reports success exactly when nothing was thrown. A failure shows its message or the fallback. Loading ends either way. |
| IncomeModal.UnchangedFormPayload | src/components/modals/AddEditIncomeModal.jsx:27-64 | Saving an unchanged income keeps a truthy source and description, sends a missing description as `null`, and sends the amount parsed back from its text. |
| IncomeModal.Modal.constructor | src/components/modals/AddEditIncomeModal.jsx:12-20 | The modal starts with an empty form, not loading and with no error. |
| IncomeModal.Modal.Open | src/components/modals/AddEditIncomeModal.jsx:24-36 | Edit mode fills the form from the income; otherwise the form is emptied. The error is cleared. |
| IncomeModal.Modal.Change | src/components/modals/AddEditIncomeModal.jsx:41-44 | The named field takes the typed value, and nothing else changes. |
| IncomeModal.Modal.Submit | src/components/modals/AddEditIncomeModal.jsx:46-73 | Covers `Forms.UserIdOf` and `Forms.SaveCallFor`. Without a user id it sets the message, stops loading and calls nothing. Otherwise it updates by `income_id` in edit mode and creates otherwise. |
| IncomeModal.Modal.Settled | src/components/modals/AddEditIncomeModal.jsx:74-80 | It reports success exactly when nothing was thrown. A failure shows its message or the fallback. Loading ends either way. |
| ExpenseModal.ExpenseCategoriesSorted | src/components/modals/AddEditExpenseModal.jsx:12-17 | The options are the twenty listed categories, strictly ascending. |
| ExpenseModal.EditedAmountIsPositive | src/components/modals/AddEditExpenseModal.jsx:44-82 | Saving an edited row with a non-zero amount unchanged sends its absolute amount back, which is strictly positive, for an engine that parses the number it prints back to itself. |
| ExpenseModal.Modal.constructor | src/components/modals/AddEditExpenseModal.jsx:22-31 | The modal starts with an empty form dated today, not loading and with no error. |
| ExpenseModal.Modal.Open | src/components/modals/AddEditExpenseModal.jsx:35-53 | Edit mode fills the form from the row. A row dated `'N/A'`, or whose date does not convert, throws the RangeError `Invalid time value` instead and changes neither the form nor the error. Add mode empties the form, dated today. Where nothing is thrown the error is cleared. |
| ExpenseModal.Modal.Change | src/components/modals/AddEditExpenseModal.jsx:58-61 | The named field takes the typed value, and nothing else changes. |
| ExpenseModal.Modal.Submit | src/components/modals/AddEditExpenseModal.jsx:63-94 | Covers `Forms.UserIdOf` and `Forms.SaveCallFor`. Without a user id it sets the message, stops loading and calls nothing. Otherwise it updates by `expense.id` in edit mode and creates otherwise. |
| ExpenseModal.Modal.Settled | src/components/modals/AddEditExpenseModal.jsx:95-102 | It reports success exactly when nothing was thrown. A failure shows its message or the fallback. Loading ends either way. |

## Behaviour worth knowing

Four things the code does that are easy to miss:

- **Logout.** Logging out does not reset the user snapshot. The provider's effect only sets `loading` to false (src/context/UserContext.jsx:87-90).
- **NaN in debt amounts.** Debt balances are parsed without the NaN guard that income and expense amounts get. A balance that does not parse makes the debt sum NaN, and `formatCurrency` shows that as 0. A listed debt's `amount` can be NaN (src/context/UserContext.jsx:173, 182).
- **No identity.** `login` records no identity: it ignores the `{ userId, email }` the login page passes (src/context/AuthContext.jsx:10). The user data fetch always uses `DEFAULT_USER_ID`.
- **`detail` is not always verbatim.** A login `detail` that is an array is shown as `String(array)`, that is `[object Object]` texts. An empty array shows the fallback message. A plain object shows `[object Object]`, on both the login and registration paths.

## Left out

- **Engine primitives.** `parseFloat`, `parseInt(·, 10)` and `Number.prototype.toString` are abstract fields of `Js.Engine`. Lemmas that need them to agree state that as a precondition.
- **`formatCurrency`.** `Intl.NumberFormat` is not modelled. A shown amount is the number it would render, with NaN rendered as 0 as src/utils/formatters.js does.
- **Dates and time zones.** `new Date(...)`, local `getFullYear`/`getMonth`, `toLocaleDateString` and the ISO conversions of the expense modal are not modelled. An expense comes with what its timestamp parses to: nothing for an invalid date, else its `getTime()` value and its local `(year, month)`. A row's date is kept as its timestamp. The modal's date texts are parameters, and the conversion of a row's localized date back to an ISO date is `None` when it does not parse.
- ExpenseSummary.LatestMonthMeaning: proves "no dated expense has a later month" only for inputs where a later time never falls in an earlier month. Time and month come in separately, so the model cannot derive this from the calendar.
- **The latest month's display label** (FinancialProfile.jsx:29-31): it is locale formatting only.
- **Key enumeration order.** Integer-like keys enumerate first in JavaScript objects. For the summaries and the knowledge map the model uses plain insertion order. The goals object is taken as an already ordered entry list.
- **String sort order.** `.sort()` compares UTF-16 code units. The model compares characters, which agrees except for characters outside the Basic Multilingual Plane.
- **Network and API calls.** `fetch`, `src/apiService.js` and the undefined income and knowledge API functions are replaced by the outcome each call can have, passed to the `Settled` methods. The request URLs and `DEFAULT_USER_ID` are not modelled.
- **Randomness.** The random registration user id (LoginPage.jsx:57) is not modelled. The email and password inputs are not modelled either.
- **Stale closures.** The user context's fetch reads `user` from the render that scheduled it. The model reads the provider's current snapshot.
- **Placeholder fields.** The snapshot's fields that are always `'N/A'` (net worth, assets, DTI, savings habits and the like) are not part of `UserContext.UserView`.
- **The profile card's input.** `FinancialProfile.ProfileView` is the card's own input and is not derived from `UserView`, because it holds the formatted currency strings, which are opaque here.
- **JSON edge cases.** A `detail` is a scalar, an array of validation objects or a plain object. An array of other values is not modelled. Each `loc` part of a validation error is taken as its text. Goal values that are arrays are not modelled: `typeof` calls them objects, so they would take the record branch with `String(array)` as description. A successful body that is neither `null` nor of the expected shape is not modelled: an expenses body that is not an array would make `data.map` throw "is not a function", and a user-data body that is not an object reads every field as `undefined`. The texts of the TypeError and RangeError messages are V8's wording.
- **`null` records.** The income, debt, expense and knowledge lists hold records only (src/context/UserContext.jsx:14, 105, 113, 173). A `null` element would make the reduce or map throw a TypeError, and the fetch would fail with that message. This is not modelled.
- **Infinity.** `Js.Number` is NaN or a finite real. `parseFloat` of a text like `"1e999"` yields Infinity in JavaScript, and that is not modelled.
- ExpenseModal.Modal.Open: returns the RangeError instead of raising it. What React then does with an exception thrown in an effect is not modelled.
- **Rendering.** Routing, layout, presentational components, the recharts pie and its colours, and the insights page (static mock data) are not modelled.
- FinancialProfile.SortDesc: does not state that slices of equal value keep their order, which the source's stable sort guarantees. Only the order of values and the permutation are proved.
- **Inherited property names.** The summaries and the knowledge map are built on plain objects, which inherit `Object.prototype`'s properties. An API category named after an inherited property (`constructor`, `toString`, `__proto__`, …) misbehaves in JavaScript, and the model treats it as an ordinary key. `acc["constructor"] || 0` reads the inherited function, so the category total becomes a string. Assigning to `__proto__` sets the prototype instead of adding a key. The modals' own category lists contain no such name.
- KnowledgeModal.LevelRoundTrip: reads the digits as an exact integer. `parseInt` loses precision beyond 2^53, which is not modelled.
- ExpenseSummary.MonthKeyMeaning: `padStart(2, '0')` is modelled for the 1-based month, which always has one or two digits. The year is rendered with `String`, and years outside 0-9999 are not treated specially.
