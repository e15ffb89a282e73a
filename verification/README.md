# Ledger with a chat assistant: a Dafny model of its core

The application is a personal ledger. A left panel shows:
- an entry form and the records of the selected day;
- a report with a date range, a filtered list and a per-category chart.

A right panel is a chat with a language-model assistant. The assistant can add, query and delete records and can ask for a printed report through four tools. A floating calculator can be driven by keys, by mouse, or by the assistant through an arithmetic expression. Records live in a local store:
- it reseeds itself with generated demo data once per day;
- it announces every change with a window `db-update` event.

The interface speaks English, Traditional Chinese and Simplified Chinese.

The model has one Dafny module per core source file, and two shared modules.

**Shared modules**
- `LedgerTypes`: the record, the category lists, and the window event log (`EventBus`).
- `Text` and `Seqs`: digit strings, lower-casing, `Array.prototype.filter`, and a left fold.

**`DbService`: the local-storage store**
- Each operation is a pure function over a `StoreState` snapshot: `InitSpec`, `LoadSpec`, `AddSpec`, `UpdateSpec`, `DeleteSpec`, `QuerySpec` and `ForceResetSpec`.
- The `LedgerStore` class updates its fields and the shared event log exactly as those functions say.
- The environment supplies three things as an `Env`: the date `today`, the demo data a reseed would write, and a possible storage failure.

**`GeminiService`: the assistant**
- The tool declarations, `getTodayString`, and the dispatcher of the four tools.
- The `sendMessage` loop. The language model is a finite script of replies; each scripted call carries what its store call sees.

**`DemoData`: the demo-data generator**
- A loop over days. Randomness is an oracle `rng: nat -> real` with values in [0, 1).

**`LanguageContext` and `Translations`**
- The language provider and the Chinese detectors.
- The translation table and its lookup helpers.

**The three components**
- `Calculator`: the `Panel` class holds the display state.
- `LeftPanel`: totals, report and aggregation functions, and the `EntryForm` class.
- `RightPanel`: the `ChatPanel` class.

React state updates are modelled as assignments to the fields of these classes, in the order they take effect.

## Model

| member | source | states |
|---|---|---|
| LedgerTypes.Create | services/dbService.ts:170-174 | the new record carries the caller's date, type, category, amount and description, plus the given id and createdAt |
| LedgerTypes.Merge | services/dbService.ts:217 | `{ ...record, ...updates }`: every field present in the update wins, every absent one is kept, and id and createdAt never change |
| LedgerTypes.CategoriesOf | constants.ts:22-25 | each transaction type has a non-empty category list |
| LedgerTypes.EventBus.Dispatch | services/dbService.ts:176 | dispatching an event appends exactly that event to the window log |
| Text.NatToString | services/demoDataService.ts:80 | `String(n)` is a non-empty digit string with no leading zero, one character long exactly when n < 10 |
| Text.ParseNatToString | services/demoDataService.ts:80 | reading back `String(n)` gives n |
| Text.NatToStringInjective | services/demoDataService.ts:54 | distinct counters give distinct id strings |
| Text.Pad2 | services/geminiService.ts:72-73 | `padStart(2, '0')` of a number below 100 is two digits that read back as the number |
| Text.Lower | services/dbService.ts:302 | lower-casing keeps the length and lower-cases exactly the ASCII capitals, position by position |
| Seqs.Filter | services/dbService.ts:242 | the filtered list holds exactly the elements that satisfy the predicate and is no longer than the input |
| Seqs.FilterIsSubsequence | services/dbService.ts:291-305 | a filtered list keeps the input's order (it is a subsequence) |
| Seqs.FilterKeepsAll | services/dbService.ts:242-243 | filtering keeps the length exactly when every element satisfies the predicate, and then returns the input itself |
| Seqs.FilterFilter | services/dbService.ts:292-303 | filtering twice equals filtering once by the conjunction |
| Seqs.FilterAppend | services/dbService.ts:242 | filtering distributes over concatenation |
| Seqs.FilterMultiset | components/LeftPanel.tsx:220 | an element occurs in a filtered list as often as in the input when it satisfies the predicate, otherwise never |
| Seqs.ThreadSplit | services/geminiService.ts:170-222 | threading a state through a list of steps equals threading through a prefix, then through the rest from the state the prefix left |
| DbService.Versioned | services/dbService.ts:30-52 | the marker `init` checks is today's date followed by a three-character version suffix |
| DbService.InitSpec | services/dbService.ts:18-57 | a first `init` stores the versioned marker and reseeds with one `db-update` exactly when the stored marker differs from it; an initialized store is left alone |
| DbService.LoadSpec | services/dbService.ts:91-121 | `getAll` runs `init` (which reseeds when the stored marker is stale, even over stored records), then reseeds if nothing is stored, with at most one `db-update`, and returns the stored list; an initialised store with data is returned unchanged |
| DbService.FindIndex | services/dbService.ts:214 | `findIndex` gives the first position holding the id, or none exactly when no record has it |
| DbService.AddSpec | services/dbService.ts:168-178 | `add` on a snapshot: load, then append the created record and dispatch `db-update`, or report the write failure (its meaning is `AddAppendsOne`) |
| DbService.UpdateSpec | services/dbService.ts:212-222 | `update` on a snapshot: null for a missing id, otherwise the merge stored at the first match with one `db-update`, or the write failure (its meaning is `UpdateMissingIsNoop` and `UpdatePresentReplacesOne`) |
| DbService.DeleteSpec | services/dbService.ts:240-247 | `delete` on a snapshot: false when the filter removed nothing, otherwise the filtered list stored with one `db-update`, or the write failure (its meaning is `DeleteSpecMeaning`) |
| DbService.QuerySpec | services/dbService.ts:289-305 | `query` on a snapshot: the loaded list through the four optional filters (its meaning is `QueryMeaning`) |
| DbService.ForceResetSpec | services/dbService.ts:310-321 | `forceReset` on a snapshot: demo data and the plain date stored, one `db-update` (its meaning is `ForceResetThenReloadReseeds`) |
| DbService.AddAppendsOne | services/dbService.ts:168-178 | a successful `add` appends exactly one record at the end, with the given fields, id and createdAt; earlier records are unchanged and one `db-update` follows; a storage failure changes nothing further and is reported |
| DbService.AddOnLoadedStore | services/dbService.ts:169-176 | on a loaded store, `add` appends the new record and dispatches only `db-update` |
| DbService.UpdateMissingIsNoop | services/dbService.ts:213-215 | `update` of an id that is not present returns null and changes neither the store nor the event log |
| DbService.UpdatePresentReplacesOne | services/dbService.ts:213-222 | `update` of a present id replaces only the first record with that id by the record overlaid with the update; the length, the id, createdAt and every other position are kept, and one `db-update` follows |
| DbService.DeleteSpecMeaning | services/dbService.ts:241-247 | `delete` returns false exactly when no record has the id, and then changes nothing; otherwise it stores the other records in order, none with the id, and dispatches one `db-update` |
| DbService.DeleteTwice | services/dbService.ts:241-247 | a second `delete` of the same id returns false and dispatches nothing |
| DbService.MatchingIsFilter | services/dbService.ts:289-305 | the four optional filter stages together equal one filter by the conjunction of the filters that are present |
| DbService.QueryMeaning | services/dbService.ts:289-305 | `query` returns an order-preserving subsequence of `getAll` holding exactly the records within the date bounds (string comparison), of the filter type, and whose lower-cased category contains the lower-cased filter text; with no filter it returns `getAll` unchanged |
| DbService.InitReseedsOnNewDay | services/dbService.ts:18-57 | a first `init` reseeds if and only if the stored marker is not today's versioned marker; a second `init` is a no-op |
| DbService.SameDayReloadKeepsData | services/dbService.ts:50-121 | reloading on the same day keeps the stored data and dispatches nothing |
| DbService.ForceResetThenReloadReseeds | services/dbService.ts:310-321 | `forceReset` reseeds and stores the plain date, so the first `init` of a new instance (a page reload) on that day sees a different marker and reseeds; the instance that reset is already initialised and keeps the reset data with no further event |
| DbService.LedgerStore.Init | services/dbService.ts:18-25 | the store's state and the event log move as `InitSpec` says |
| DbService.LedgerStore.DoInit | services/dbService.ts:27-57 | the marker becomes today's versioned marker; the store reseeds with one `db-update` exactly when the old marker differed |
| DbService.LedgerStore.ResetWithDemoData | services/dbService.ts:60-89 | the demo list is stored and one `db-update` is dispatched |
| DbService.LedgerStore.GetAll | services/dbService.ts:91-121 | returns and leaves the state that `LoadSpec` gives |
| DbService.LedgerStore.GetAllSync | services/dbService.ts:126-128 | returns the cached list |
| DbService.LedgerStore.RefreshCache | services/dbService.ts:131-134 | the cache becomes the loaded list |
| DbService.LedgerStore.Add | services/dbService.ts:168-178 | state, events and result are those of `AddSpec` |
| DbService.LedgerStore.Update | services/dbService.ts:212-222 | state, events and result are those of `UpdateSpec` |
| DbService.LedgerStore.Delete | services/dbService.ts:240-247 | state, events and result are those of `DeleteSpec` |
| DbService.LedgerStore.Query | services/dbService.ts:289-305 | the result is the loaded list filtered by the query |
| DbService.LedgerStore.ForceReset | services/dbService.ts:310-321 | state as `ForceResetSpec`, with exactly one `db-update` |
| GeminiService.ToolsAreWellFormed | services/geminiService.ts:6-66 | the four declarations carry the four tool names in order, each is an object schema whose required parameters are declared, and the names are distinct |
| GeminiService.TodayString | services/geminiService.ts:69-75 | `getTodayString` is the year, a dash, the month (1-based) as two digits, a dash, and the day as two digits |
| GeminiService.TodayStringInjective | services/geminiService.ts:69-75 | different dates give different strings |
| GeminiService.DispatchSpec | services/geminiService.ts:171-221 | one call of the inner loop: the response carries the call's tool name and the event log only grows (its per-tool meaning is `AddTransactionMeaning`, `QueryTransactionsMeaning`, `DeleteTransactionMeaning`, `PrintReportMeaning`, `UnknownToolUntouched`) |
| GeminiService.CallName | services/geminiService.ts:170-218 | a call is an unknown tool exactly when its name is none of the four tool names |
| GeminiService.UnknownToolUntouched | services/geminiService.ts:172-218 | a call with an unknown name answers `{error: "Unknown tool"}` and leaves the store and the events untouched |
| GeminiService.AddTransactionMeaning | services/geminiService.ts:175-187 | `addTransaction` adds the record built from the call (description defaulting to `""`), then dispatches `ai-transaction-added` with the call's date and the new id; a store failure becomes `{error: message}` with no add event |
| GeminiService.DeleteTransactionMeaning | services/geminiService.ts:190-213 | `deleteTransaction` answers `Deleted` exactly when a record had the id and no failure occurred, `ID not found` exactly when none had it, an error exactly on a failure; `ai-transaction-deleted` is dispatched exactly on success |
| GeminiService.DeletePresence | services/dbService.ts:241-247 | `delete` gives false when the id is absent, the failure when storing fails, true otherwise, and dispatches nothing but `db-update` |
| GeminiService.PrintReportMeaning | services/geminiService.ts:199-209 | `printReport` never touches the store, dispatches `ai-print-report` with its three arguments and answers success with the fixed message |
| GeminiService.QueryTransactionsMeaning | services/geminiService.ts:188-189 | `queryTransactions` answers exactly the records matching the filters and changes the world only as loading does |
| GeminiService.RunCallsSplit | services/geminiService.ts:170-222 | the calls of one turn all run, in order, each on the world the previous one left, with one response per call |
| GeminiService.RunCallsIsThread | services/geminiService.ts:170-222 | the inner loop threads the world through the dispatcher |
| GeminiService.FirstResponse | services/geminiService.ts:224-227 | the response sent back to the model is the first call's, computed on the world as it was before the turn |
| GeminiService.Converse | services/geminiService.ts:164-231 | the `while` loop from the latest reply: an API error ends it, a reply without calls answers its text or the fallback, otherwise the calls run and the first response is sent (its meaning is `ConverseShape`, `ReplyWithoutCalls`, `OneToolTurn`) |
| GeminiService.SendSpec | services/geminiService.ts:160-232 | `sendMessage`: the user's text is sent, then the loop runs on the first reply (its meaning is `ConverseShape` and `OneToolTurn`) |
| GeminiService.ConverseShape | services/geminiService.ts:167-231 | the loop only appends function responses to what was sent, consumes the script from its front, only extends the event log, and a successful answer is never empty |
| GeminiService.ReplyWithoutCalls | services/geminiService.ts:164-231 | a reply without calls ends the loop at once with its text, or the fixed fallback when the text is empty |
| GeminiService.OneToolTurn | services/geminiService.ts:164-231 | a turn of calls followed by a plain reply runs every call, sends only the first response back, and returns the second reply's text or the fallback |
| GeminiService.GeminiAgent.StartChat | services/geminiService.ts:150-158 | creates a session with the model name, the system instruction and the tools |
| GeminiService.GeminiAgent.Send | services/geminiService.ts:164-227 | records the message as sent and takes the next scripted reply |
| GeminiService.GeminiAgent.Dispatch | services/geminiService.ts:171-221 | the store, the events and the response are those of `DispatchSpec` |
| GeminiService.GeminiAgent.RunCalls | services/geminiService.ts:168-222 | the world and the responses are those of `RunCallsSpec` |
| GeminiService.GeminiAgent.SendMessage | services/geminiService.ts:160-232 | a session is created only when none exists (so at most once), and the conversation and the answer are those of `SendSpec` |
| DemoData.RandomBetween | services/demoDataService.ts:41-43 | `randomBetween(min, max)` lies in [min, max] for a random value in [0, 1) |
| DemoData.RandomFromArray | services/demoDataService.ts:45-47 | `randomFromArray` returns an element of the array |
| DemoData.ExpenseRange | services/demoDataService.ts:24-32 | an expense category's amount range, or [10, 100] without one, is a positive interval |
| DemoData.IncomeRange | services/demoDataService.ts:34-39 | an income category's amount range, or [50, 500] without one, is a positive interval |
| DemoData.SalaryRecord | services/demoDataService.ts:76-87 | a salary income on the day, in [3000, 8000] on the 1st and in [1500, 4000] on the 15th |
| DemoData.RentRecord | services/demoDataService.ts:90-101 | a rent expense in [800, 2000] on the day |
| DemoData.ExtraIncomeRecord | services/demoDataService.ts:105-117 | an income that is never Salary, with an amount in its category's range or [50, 500] |
| DemoData.ExpenseRecord | services/demoDataService.ts:122-135 | an expense that is never Rent, with an amount in its category's range or [10, 100] |
| DemoData.GenerateDay | services/demoDataService.ts:59-137 | one day's block is empty (skipped) or has salary and rent heads as the day requires, then an optional extra income and one to three random expenses, all stamped with the day's date and timestamp and numbered on from the counter |
| DemoData.GenerateHead | services/demoDataService.ts:76-102 | the 1st gets salary then rent, the 15th salary only |
| DemoData.GenerateTail | services/demoDataService.ts:104-136 | an optional extra income followed by one to three random expenses |
| DemoData.GenerateExpenses | services/demoDataService.ts:120-136 | one to three random expenses with consecutive ids |
| DemoData.GenerateDemoTransactions | services/demoDataService.ts:49-143 | the output is the days' blocks in order, one block per day from three months ago to today, each well formed, and the k-th record has id `String(k + 1)` |
| DemoData.DayStructure | services/demoDataService.ts:63-136 | the 1st and the 15th are never skipped and get exactly one salary; other days none; the 1st exactly one rent, other days none; a kept day has one to three random expenses |
| DemoData.AmountRanges | services/demoDataService.ts:76-135 | salary on the 1st is in [3000, 8000] and on the 15th in [1500, 4000]; every other amount is within its category's range or the fallback |
| DemoData.TailAmounts | services/demoDataService.ts:104-136 | the random part of a day is never Salary or Rent and its amounts are in range |
| DemoData.IdsUnique | services/demoDataService.ts:54-128 | ids are pairwise distinct |
| DemoData.FlattenInDayOrder | services/demoDataService.ts:57-139 | records appear day by day in order; all records of a day share that day's date string and timestamp |
| LanguageContext.ContainsChinese | i18n/LanguageContext.tsx:101-103 | some character lies in U+4E00–U+9FFF |
| LanguageContext.IsSimplifiedChinese | i18n/LanguageContext.tsx:107-120 | some character of the Simplified class and none of the Traditional class (its meaning is `PureSimplifiedIsSimplified` and `TraditionalOrNeitherIsNotSimplified`) |
| LanguageContext.LoadSpec | i18n/LanguageContext.tsx:40-48 | the mount effect: a valid saved code is applied with the flag read as `"true"`, otherwise the state is kept (its meaning is `LoadMeaning` and `SaveThenLoad`) |
| LanguageContext.ClassesDisjointAndCjk | i18n/LanguageContext.tsx:109-111 | the Simplified and Traditional character classes share no character, and every character of either lies in U+4E00–U+9FFF |
| LanguageContext.SimplifiedImpliesChinese | i18n/LanguageContext.tsx:101-117 | text classified as Simplified always contains Chinese |
| LanguageContext.PureSimplifiedIsSimplified | i18n/LanguageContext.tsx:113-117 | non-empty text made only of Simplified-only characters is Simplified |
| LanguageContext.TraditionalOrNeitherIsNotSimplified | i18n/LanguageContext.tsx:113-119 | one Traditional character anywhere, or no Simplified one, makes a text not Simplified |
| LanguageContext.ParseLanguage | i18n/LanguageContext.tsx:44 | a saved string is accepted exactly when it is `en`, `zh-TW` or `zh-CN`, and the accepted language has that code |
| LanguageContext.ParseCode | i18n/LanguageContext.tsx:44-52 | the code a language is saved under is accepted back as that language |
| LanguageContext.LoadMeaning | i18n/LanguageContext.tsx:36-47 | a valid saved language is applied with the manual flag saved as `"true"`; anything else leaves English and no manual choice |
| LanguageContext.SaveThenLoad | i18n/LanguageContext.tsx:40-58 | what `setLanguage` and `setIsManuallySet` store is what the next mount loads |
| LanguageContext.LanguageProvider.Load | i18n/LanguageContext.tsx:40-48 | the mount effect moves the language and the flag as `LoadSpec` says |
| LanguageContext.LanguageProvider.SetLanguage | i18n/LanguageContext.tsx:50-53 | the language and its stored value both become the chosen one; the flag is unchanged |
| LanguageContext.LanguageProvider.HandleSetManually | i18n/LanguageContext.tsx:55-58 | the flag becomes the value and `"true"`/`"false"` is stored to match |
| Translations.Resolve | i18n/translations.ts:385-395 | the entry in the chosen language when it is non-empty, otherwise the English entry |
| Translations.Items | i18n/translations.ts:394-400 | an array entry gives a copy of its items, a string entry a one-element list |
| Translations.HeadOfItems | i18n/translations.ts:384-400 | `t` is the first element of what `tArray` returns, or `""` when that is empty |
| Translations.Fallback | i18n/translations.ts:384-391 | an empty entry falls back to English; a non-empty string is used as is; an array entry is used whole |
| Translations.T | i18n/translations.ts:384-391 | `t(key, lang)`: the first item of the resolved entry, or `""` (its meaning is `LookupIsRowLookup` and `HeadOfItems`) |
| Translations.TArray | i18n/translations.ts:394-400 | `tArray(key, lang)`: the items of the resolved entry (its meaning is `LookupIsRowLookup`) |
| Translations.LookupIsRowLookup | i18n/translations.ts:384-400 | `t` and `tArray` read the key's row of the table through the fallback |
| Translations.WeekdaysHaveSeven | i18n/translations.ts:134-138 | `weekdaysShort` has seven entries in every language |
| Translations.CategoryMapIsEnglish | i18n/translations.ts:404-419 | each of the 14 mapped category keys has its own English name as the English entry |
| Translations.CategoryName | i18n/translations.ts:403-426 | a mapped category gives its translation, an inherited property name gives `None` for the `TypeError` that `t` throws, any other name gives itself (its meaning is `EnglishCategoryNamesAreIdentity` and `UnmappedCategoriesUnchanged`) |
| Translations.EnglishCategoryNamesAreIdentity | i18n/translations.ts:403-426 | `getCategoryName(c)` throws exactly when c is a property name every object inherits (`constructor`, `toString`, …); for any other c the English name is c itself |
| Translations.UnmappedCategoriesUnchanged | i18n/translations.ts:421-425 | Health, Rent and Freelance are outside the map and come back unchanged in every language |
| Calculator.Classify | components/Calculator.tsx:240-328 | the label tests of `simulateButtonPress` in source order, any label with a digit typing that label (its meaning is `KeypadMatchesSimulatedPress`) |
| Calculator.PerformOperationSpec | components/Calculator.tsx:159-195 | `performOperation`: store the value, or fold it into the pending one and show the result; record the operator and wait (its meaning is `OperatorPressMeaning`) |
| Calculator.CalculateSpec | components/Calculator.tsx:197-224 | `calculate`: unchanged unless an operator and a pending value exist, else show the result, clear both, wait (its meaning is `CalculateMeaning`) |
| Calculator.Press | components/Calculator.tsx:118-224 | what one button does to the display state (its meaning is `PressKeepsPendingConsistent` and `RunLabelsAppend`) |
| Calculator.KeyAction | components/Calculator.tsx:334-436 | the keyboard map from `KeyboardEvent.key` to a button and its highlighted label (its meaning is `KeyboardMatchesButtons`) |
| Calculator.Apply | components/Calculator.tsx:169-182 | the operator's arithmetic; division by a zero operand yields 0 |
| Calculator.RunLabelsAppend | components/Calculator.tsx:461-485 | pressing two sequences of buttons in a row is pressing their concatenation |
| Calculator.KeypadMatchesSimulatedPress | components/Calculator.tsx:531-633 | every on-screen button does what simulating a press of its caption does |
| Calculator.OperatorPressMeaning | components/Calculator.tsx:159-195 | an operator press with no pending value stores the current value; with a pending operator it computes and shows the intermediate result; the new operator is always recorded and waiting becomes true |
| Calculator.DigitAfterOperatorStartsOperand | components/Calculator.tsx:118-195 | the digit after an operator replaces the display and keeps the operator pending |
| Calculator.InputDecimalMeaning | components/Calculator.tsx:131-138 | the display gains a `.` (or becomes `0.` when waiting), never a second one, and a repeat press changes nothing |
| Calculator.CalculateMeaning | components/Calculator.tsx:197-224 | `calculate` is a no-op exactly when operator or pending value is null; otherwise the result is shown, both are cleared and waiting becomes true; pressing again changes nothing |
| Calculator.PressKeepsPendingConsistent | components/Calculator.tsx:140-224 | every press keeps "a pending value has a pending operator" |
| Calculator.DigitRun | components/Calculator.tsx:467 | the greedy `\d+` at the start of a text: all digits, followed by a non-digit or the end |
| Calculator.NumberLength | components/Calculator.tsx:467 | the greedy `\d+\.?\d*` matches a number text that cannot be extended |
| Calculator.Tokenize | components/Calculator.tsx:467 | every token is a number text or an operator character |
| Calculator.TokenizeKeepsDigitsAndOperators | components/Calculator.tsx:467 | the tokens keep every digit and operator character of the expression, in order, and skip everything else |
| Calculator.TokenizeBinary | components/Calculator.tsx:467 | `a op b` tokenizes into the two numbers around the operator |
| Calculator.AiLabelsBinary | components/Calculator.tsx:463-485 | the assistant presses C, the digits of a, the operator (`*` as ×, `/` as ÷), the digits of b, then = |
| Calculator.TypeNumber | components/Calculator.tsx:118-138 | typing a number digit by digit on a fresh display shows exactly that number |
| Calculator.AiArithmetic | components/Calculator.tsx:446-498 | an assistant calculation of `a op b` ends showing the operator applied to a and b, with nothing pending and waiting true |
| Calculator.KeyboardMatchesButtons | components/Calculator.tsx:334-436 | every key the keyboard handler handles does what pressing the button it highlights does |
| Calculator.Clamp | components/Calculator.tsx:45-50 | a coordinate is kept within [0, limit]: never negative, never above a non-negative limit, unchanged when already inside |
| Calculator.DragPosition | components/Calculator.tsx:40-80 | a dragged position is always non-negative and at most viewport minus panel size whenever that bound is non-negative |
| Calculator.Panel.constructor | components/Calculator.tsx:9-12 | the display starts at `0` with nothing pending |
| Calculator.Panel.InputDigit | components/Calculator.tsx:118-129 | the state moves as a digit press |
| Calculator.Panel.InputDecimal | components/Calculator.tsx:131-138 | the state moves as a decimal press |
| Calculator.Panel.ClearAll | components/Calculator.tsx:140-145 | display `0`, no pending value or operator, not waiting |
| Calculator.Panel.ClearEntry | components/Calculator.tsx:147-149 | only the display changes, to `0` |
| Calculator.Panel.ToggleSign | components/Calculator.tsx:151-153 | the state moves as a sign press |
| Calculator.Panel.InputPercent | components/Calculator.tsx:155-157 | the state moves as a percent press |
| Calculator.Panel.PerformOperation | components/Calculator.tsx:159-195 | the state moves as an operator press |
| Calculator.Panel.Calculate | components/Calculator.tsx:197-224 | the state moves as an equals press |
| Calculator.Panel.SimulateButtonPress | components/Calculator.tsx:240-328 | the state moves as pressing the captioned button |
| Calculator.Panel.HandleKeyDown | components/Calculator.tsx:331-436 | keys are ignored while closed, while the assistant drives the calculator or while typing in a field; otherwise a handled key presses its button |
| Calculator.Panel.PressTokens | components/Calculator.tsx:469-483 | the token loop presses every token's buttons in order |
| Calculator.Panel.AiCalculate | components/Calculator.tsx:457-498 | the handler presses C, the tokens and =, and reports the display |
| LeftPanel.TypeTotal | components/LeftPanel.tsx:221-228 | the conditional reduce of `totalIncome` and `totalExpense`, left to right from 0 (its meaning is `TypeTotalIsFilteredSum`) |
| LeftPanel.ReportBalance | components/LeftPanel.tsx:850-856 | the report's reduce adding income and subtracting expense amounts, left to right from 0 (its meaning is `ReportBalanceIsDifference`) |
| LeftPanel.AmountSumAppend | components/LeftPanel.tsx:221-228 | amount sums add over concatenation |
| LeftPanel.TypeTotalIsFilteredSum | components/LeftPanel.tsx:221-228 | `totalIncome` (`totalExpense`) is the amount sum of the income (expense) records |
| LeftPanel.ReportBalanceIsDifference | components/LeftPanel.tsx:850-856 | the report balance reduce equals income total minus expense total |
| LeftPanel.DailyTransactions | components/LeftPanel.tsx:220 | exactly the records dated the selected day, in their order |
| LeftPanel.DailyTransactionsCounts | components/LeftPanel.tsx:220 | each record of the selected day is kept as often as it occurs, every other record never |
| LeftPanel.EndOfDay | components/LeftPanel.tsx:257-263 | `endOfDay` is the last millisecond of the same day |
| LeftPanel.CustomRange | components/LeftPanel.tsx:248-265 | the start is the earlier date and the end the end of the later date's day, with an unreadable date read as now |
| LeftPanel.CustomRangeSymmetric | components/LeftPanel.tsx:257-263 | entering the two dates in either order gives the same range |
| LeftPanel.InsertSorted | components/LeftPanel.tsx:273 | inserting into a list sorted by date descending keeps it sorted |
| LeftPanel.SortByDateDesc | components/LeftPanel.tsx:273 | the sort yields a permutation of its input in descending date order |
| LeftPanel.ReportTransactions | components/LeftPanel.tsx:268-273 | the filtered list is a permutation of the records within [start, end], sorted by date descending |
| LeftPanel.ReportMembership | components/LeftPanel.tsx:268-272 | a record is listed exactly when its date parses and lies within [start, end] |
| LeftPanel.KeySumUpdate | components/LeftPanel.tsx:278-282 | updating one category's totals changes the sum over categories by exactly that difference |
| LeftPanel.OwnCategories | components/LeftPanel.tsx:279 | the categories that get an own entry are the records' categories minus the inherited property names |
| LeftPanel.OwnCategoryTotal | components/LeftPanel.tsx:279-281 | dropping the records of inherited categories leaves every other category's totals unchanged |
| LeftPanel.AggStep | components/LeftPanel.tsx:278-281 | the `forEach` body as a function of the aggregation: a new category opens an entry at the end of the key order, a known one accumulates, an inherited name is skipped (its meaning is `AggStepKeepsInv`) |
| LeftPanel.ChartOf | components/LeftPanel.tsx:284-287 | one entry per key in key order, carrying the key's income and expense totals |
| LeftPanel.AggStepKeepsInv | components/LeftPanel.tsx:277-283 | one `forEach` step keeps the invariant over the records seen whose category is not an inherited property name: distinct keys, one per such category, each holding that category's income and expense totals, summing to those records' type totals; a record of an inherited category changes nothing |
| LeftPanel.ChartMeaning | components/LeftPanel.tsx:284-287 | from an aggregation of a list of records, `Object.keys(agg).map` yields one entry per category of that list with that category's totals, and the entries sum to the list's income and expense totals |
| LeftPanel.AddRecord | components/LeftPanel.tsx:278-282 | one record creates its category's entry if absent and adds its amount to the income or expense side, except that an inherited property name finds a truthy value and gets no entry |
| LeftPanel.Aggregate | components/LeftPanel.tsx:276-288 | one chart entry per category of the filtered records that is not an inherited property name, names distinct, each with the category's income and expense totals; the entries sum to the income and expense totals of the records of those categories, so to the filtered totals when no category is such a name |
| LeftPanel.EditThenSaveIsIdentity | components/LeftPanel.tsx:170-217 | editing a record and saving the unchanged form gives back the same record when the amount text reads back as the amount |
| LeftPanel.ResetPicksFirstExpenseCategory | components/LeftPanel.tsx:82-88 | the reset form is an expense in the first expense category |
| LeftPanel.EntryForm.constructor | components/LeftPanel.tsx:81-88 | the form starts empty, as an expense in Food, not editing |
| LeftPanel.EntryForm.HandleSubmit | components/LeftPanel.tsx:170-198 | an empty amount does nothing; otherwise an edit updates the record and leaves editing, a new entry adds one, and the form resets to expense/Food |
| LeftPanel.EntryForm.HandleEdit | components/LeftPanel.tsx:206-217 | editing fills the form from the record, selects its date and switches to the entry view |
| LeftPanel.EntryForm.SelectType | components/LeftPanel.tsx:534-557 | switching the type sets the category to the first category of that type |
| RightPanel.Greeting | components/RightPanel.tsx:116-118 | `getInitialGreeting`: the six greeting entries of the language joined by blank lines and line breaks |
| RightPanel.InterimText | components/RightPanel.tsx:179-196 | an interim result is converted only for Chinese heard in Traditional mode (its meaning is `InterimMatchesFinal`) |
| RightPanel.AutoLanguage | components/RightPanel.tsx:236-245 | the language switches only when not set manually and the input contains Chinese, to `zh-CN` exactly when the input is Simplified, else `zh-TW` |
| RightPanel.SimplifiedInputSwitchesToZhCN | components/RightPanel.tsx:236-245 | Simplified input switches a non-manual language to `zh-CN` |
| RightPanel.ReplyText | components/RightPanel.tsx:256-272 | the agent's text on success, the fixed error text on failure |
| RightPanel.ReplyNeverEmpty | components/RightPanel.tsx:256-272 | the model message after a send is never empty |
| RightPanel.SpeechSpec | components/RightPanel.tsx:147-166 | a non-Chinese transcript is kept; in `zh-CN` a Chinese one is kept; otherwise it is converted; the language changes only in English, without a manual choice, and then to `zh-TW` |
| RightPanel.InterimMatchesFinal | components/RightPanel.tsx:179-196 | the interim text differs from the final one only for Chinese speech in English whose conversion changes it |
| RightPanel.ChatPanel.constructor | components/RightPanel.tsx:120-142 | the transcript starts as the single greeting, with an empty input |
| RightPanel.ChatPanel.LanguageEffect | components/RightPanel.tsx:129-137 | the transcript resets to the single greeting in the current language |
| RightPanel.ChatPanel.SwitchLanguage | components/RightPanel.tsx:129-137 | changing the language stores it and resets the transcript to the new greeting |
| RightPanel.ChatPanel.HandleSelect | components/RightPanel.tsx:30-34 | selecting a language sets it, marks the choice manual and stores both |
| RightPanel.ChatPanel.BeginSend | components/RightPanel.tsx:233-252 | a blank input or a running send does nothing; otherwise the language auto-switches, the user message is appended, the input clears and loading starts |
| RightPanel.ChatPanel.FinishSend | components/RightPanel.tsx:254-275 | exactly one model message is appended and loading ends |
| RightPanel.ChatPanel.HandleSend | components/RightPanel.tsx:233-276 | a blank input or a running send changes nothing; otherwise the agent gets the input and exactly one model message ends the transcript, after the user message or after a fresh greeting when the language switched |
| RightPanel.ChatPanel.HandleKeyDown | components/RightPanel.tsx:278-283 | Enter without Shift sends; any other key changes nothing |
| RightPanel.ChatPanel.HandleSpeechResult | components/RightPanel.tsx:147-166 | input and language move as `SpeechSpec` says; a language change is stored and resets the transcript |
| RightPanel.ChatPanel.OnRecognitionResult | components/RightPanel.tsx:179-196 | a final result is handled as speech; an interim one only updates the input |
| RightPanel.ChatPanel.ToggleListening | components/RightPanel.tsx:211-223 | without speech support nothing happens; otherwise listening flips, and starting clears the input |
| RightPanel.ChatPanel.OnRecognitionEnd | components/RightPanel.tsx:198-205 | an error or the end of recognition stops listening |

## Left out

- The Supabase branches of the store and services/supabaseClient.ts are not modelled. They are calls into a foreign client; only the local-storage branch is.
- `init` memoises a pending promise (`initPromise`). Calls are sequential in the model, so concurrent callers are not modelled.
- The `@google/genai` client is a finite script of replies. A reply may be an API error, which `sendMessage` throws. The system-instruction text is a prompt to the model and is kept as an opaque string.
- The dispatcher casts `args.type` to a transaction type without checking it. The model's transaction type has only the two legal values, so other strings cannot arise.
- `Number(args.amount)` and `parseFloat` are parameters or assume a numeric argument; NaN and Infinity are not modelled.
- Random ids (`Math.random().toString(36)`), `Date.now()` and `new Date()` are parameters.
- LeftPanel.EndOfDay: instants are read as wall-clock milliseconds with day boundaries at multiples of 86400000; the local time zone and daylight-saving changes that date-fns `endOfDay` and `new Date()` observe are not modelled.
- A decoded tool call always carries the parameters its declaration marks as required. A reply that omits one passes `undefined` into the store (`db.add` with a missing field, `db.delete(undefined)` answering `ID not found`); that case is not modelled.
- The demo generator's random draws are an oracle of values in [0, 1). The date arithmetic of `subMonths` and `format` is abstracted to a day-of-month function and a date-string function over millisecond day stamps.
- Storage write failures are a `fault` parameter. A failure while reseeding is not modelled.
- Lower-casing covers ASCII capitals only. String comparison of dates is lexicographic on characters (UTF-16 code units in the source).
- The date-fns week, month and year report ranges, the labels and `format` are not modelled; only the custom range is. Dates are parsed by one `parseDate` parameter, used for both `parseISO` and `new Date`, so time-zone differences between the two are not modelled.
- `Object.keys` orders integer-like keys first. The model keeps first-seen order.
- Amounts, totals and calculator values are exact reals. IEEE-754 double rounding is not modelled, so the sum identities below hold for exact arithmetic only.
- LeftPanel.ReportBalanceIsDifference: holds for exact reals only; with doubles, income 0.1, expense 0.3, income 0.2 reduce to 2.7755575615628914e-17 while the income total minus the expense total is 5.551115123125783e-17.
- LeftPanel.Aggregate: its entry sums equal the type totals for exact reals only; with doubles, expenses A 0.1, B 0.1, A 1.1 total 1.3 while the entries (A 1.2000000000000002, B 0.1) add up to 1.3000000000000003.
- LeftPanel.ChartMeaning: the entry sums are stated for exact reals only, as for `Aggregate`.
- LeftPanel.AggStepKeepsInv: the key sums track the type totals for exact reals only, as for `Aggregate`.
- LeftPanel.AddRecord: for a category named after an inherited property the source adds the amount to the inherited value itself (a function, or `Object.prototype` for `__proto__`), making its `income` or `expense` NaN. The model only drops the record from the aggregation; the write to that shared value is not modelled.
- Translations.CategoryName: the `TypeError` thrown for an inherited property name is `None`; what the caller's render does with the exception is not modelled.
- LeftPanel.SortByDateDesc: stability of `Array.prototype.sort` is not proved; the contract states sortedness and permutation only.
- The LeftPanel listeners for assistant events, printing, and the delete confirmation dialog are not modelled.
- The recognition handler is re-created only when the language changes, so the source reads `isManuallySet` as of the last language change. The model reads the current flag.
- The Web Speech API, scrolling, message ids from `Date.now()`, and the OpenCC converter are not modelled; the converter is the `convert` parameter.
- When a send switches the language, the greeting reset runs between the user message and the reply. The model keeps this order, so the user message is replaced by the greeting.
- The calculator's `formatDisplay`, centring on first open, highlight timers, the copy button and the `ai-calculator-result` timer are not modelled. `parseFloat` and `String` of numbers are the `parse` and `show` parameters.
- The calculator's nested React state updaters are modelled as applied in sequence.
- The per-language completeness of the translation table (every key has all three entries) is not stated as a lemma; lookups are proved row by row.
- The provider's bound `t`, `tArray` and `getCategoryName` are the module functions applied to the current language.
- A saved language that is the empty string counts as absent, as in the source; this is covered by `ParseLanguage`.
