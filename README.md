# Personal Finance Tracker — a verified model of its core

The Personal Finance Tracker keeps a user's incomes and expenses. A React/TypeScript
front end lists them month by month, edits them through forms and draws net-income
charts. A Django back end stores the rows and computes the chart series and the list
of upcoming recurring expenses.

This project models, in Dafny:

- on the front end:
  - the value objects (`DateDelta`, `DateField`, the item, income and expense models);
  - their JSON serializers and deserializers;
  - the category tag tables and their lookups;
  - the string helpers;
  - the item list with its running totals;
  - the add/edit forms and the amount-input filter;
  - the budget and goal inputs;
  - the chart's tick labels and scale buttons;
  - the state machine of the Income and Expense pages.
- on the back end:
  - the Income and Expense model fields and the interval validator;
  - the decimal storage of amounts;
  - the money-flow and absolute net-income series;
  - the net-income endpoint;
  - the upcoming-expenses endpoint.
- where the two tiers meet (module `CrossTier`):
  - the choice lists and the tag tables agree;
  - a front-end interval text passes the back-end validator and parser;
  - a back-end chart label becomes the tick the front end shows.

JavaScript numbers are `JsNum = Num(int) | NaN`. Amounts are whole cents. The clock
(`today`), the HTTP layer and the database are parameters of the model: a page
receives a response status and body, and a view receives the user's rows as
sequences.

## Model

| member | source | states |
|---|---|---|
| JsText.NatToString | frontend/src/services/models.tsx:17-21 | the decimal text of a natural number is a non-empty digit string, with one digit exactly when the number is below 10 |
| JsText.DigitsValueOfNatToString | frontend/src/services/models.tsx:50-53 | reading a natural number's decimal text back gives the number |
| JsText.DigitsValueLeadingZero | frontend/src/services/models.tsx:45 | a leading '0' does not change the value of a digit string (so a padded month or day still reads back) |
| JsText.IntToString | backend/app/views.py:296-308 | an f-string integer starts with '-' exactly when it is negative, and the rest is digits |
| JsText.NumToString | frontend/src/services/models.tsx:17-21 | `${x}` of a number starts with a sign or a digit; that of NaN does not |
| JsText.IntTextRoundTrip | backend/app/views.py:296-308 | the digits of an integer's text read back as its magnitude |
| JsText.ToNumber | frontend/src/services/models.tsx:52 | unary `+` on text yields NaN or a non-negative number |
| JsText.NumTextRoundTrip | frontend/src/services/models.tsx:52 | `+` applied to the text of a non-negative number or NaN gives that value back |
| JsText.PadStart2 | frontend/src/services/models.tsx:45 | `padStart(2, '0')` leaves text of length ≥ 2 alone, else left-fills it with '0' to length 2 and keeps the text as its suffix |
| JsText.PaddedNumTextRoundTrip | frontend/src/services/models.tsx:45 | a padded month or day still reads back as the same number |
| JsText.Split | frontend/src/services/models.tsx:51 | `split` always returns at least one part |
| JsText.SplitFree | frontend/src/services/models.tsx:51 | text without the separator splits into itself alone |
| JsText.SplitCons | frontend/src/services/models.tsx:51 | splitting `a + sep + b`, where `a` has no separator, gives `a` followed by the parts of `b` |
| JsText.Split2 | frontend/src/services/models.tsx:51 | two separator-free texts joined by the separator split back into exactly those two |
| JsText.Split3 | frontend/src/services/models.tsx:51 | three separator-free texts joined by the separator split back into exactly those three |
| JsText.SplitJoin | frontend/src/services/models.tsx:51 | joining the parts of a split with the separator restores the text, and no part contains the separator |
| JsText.Slice | frontend/src/components/LineChart.tsx:232 | `slice(a, b)` is `s[a..b]` when in range and is never longer than `s` |
| JsText.CharAt0 | frontend/src/util/utils.tsx:4 | `charAt(0)` has length 1, or 0 for the empty string |
| JsText.ToUpper | frontend/src/util/utils.tsx:4 | `toUpperCase` on ASCII text: keeps the length and upper-cases each letter a-z |
| JsText.ToLower | frontend/src/util/utils.tsx:4 | `toLowerCase` on ASCII text: keeps the length and lower-cases each letter A-Z |
| JsText.ToUpperOfUpper | frontend/src/components/Expense/Categories.tsx:39 | text without lower-case letters is its own upper case |
| JsText.Add | frontend/src/components/ItemList.tsx:124 | `+` on numbers is a number exactly when both operands are, and then it is their sum (NaN propagates) |
| JsText.Sub | frontend/src/components/ItemList.tsx:145 | `-` is a number exactly when both operands are, and then it is their difference |
| Models.PartNumber | frontend/src/services/models.tsx:52 | a missing split part (`undefined`) reads as NaN; a present one as `+part` |
| Models.DeltaToString | frontend/src/services/models.tsx:17-21 | the three deltas joined by '-', unpadded; `DeltaTextRoundTrip` shows that splitting reads it back |
| Models.DateToString | frontend/src/services/models.tsx:43-47 | the year, then month and day padded to two digits, joined by '-'; `DateTextRoundTrip` shows that `convertDateToField` reads it back |
| Models.GetBrief | frontend/src/services/models.tsx:39-41 | month '.' day, unpadded; `BriefReadsBack` states what it shows |
| Models.ConvertDateToField | frontend/src/services/models.tsx:50-53 | `+` of the first three '-'-separated parts, a missing part NaN; partners `DateTextRoundTrip` and `NegativeYearDoesNotRoundTrip` |
| Models.ConvertTextToDelta | frontend/src/services/deserializers.tsx:19-20 | the same split-and-read on the interval text; partner `DeltaTextRoundTrip` |
| Models.NumTextHasNoDash | frontend/src/services/models.tsx:43-47 | the text of a non-negative number or NaN, padded or not, contains no '-' |
| Models.DateTextRoundTrip | frontend/src/services/models.tsx:43-53 | `convertDateToField(d.toString())` gives back `d` when every component is non-negative or NaN |
| Models.DeltaTextRoundTrip | frontend/src/services/models.tsx:17-21 | splitting `DateDelta.toString()` on '-' and reading the parts gives back the delta when every component is non-negative or NaN |
| Models.NegativeYearParts | frontend/src/services/models.tsx:43-51 | the text of year -5 begins with '-', so its split has an extra, empty, first part |
| Models.NegativeYearDoesNotRoundTrip | frontend/src/services/models.tsx:43-53 | the date -5/1/2 converts back as year 0, month 5, day 1 |
| Models.BriefReadsBack | frontend/src/services/models.tsx:39-41 | `getBrief` has two parts around '.', and they read back as the month and the day |
| Models.DefaultDeltaText | frontend/src/services/models.tsx:7-21 | the default interval's text is "0-0-0" |
| Models.NewItem | frontend/src/services/models.tsx:65-81 | the item constructor stores every argument in its own field |
| Models.NewIncome | frontend/src/services/models.tsx:88-100 | the income constructor stores the source as the tag and the type as `fixed`, and every other argument in its own field |
| Models.NewExpense | frontend/src/services/models.tsx:106-118 | the expense constructor stores the category as the tag and the type as `recurring`, and every other argument in its own field |
| Models.DefaultItem | frontend/src/services/models.tsx:65-73 | a default item has id null, user 0, empty description, tag "none", amount 0, the zero interval and today's date |
| Models.DefaultIncome | frontend/src/services/models.tsx:88-96 | a default income is the default item, not fixed |
| Models.DefaultExpense | frontend/src/services/models.tsx:106-114 | a default expense is the default item, not recurring |
| AmountInput.FirstNonDigit | frontend/src/components/Expense/AddExpense.tsx:96 | the position of the first non-digit: everything before it is a digit |
| AmountInput.AmountPattern | frontend/src/components/Expense/AddExpense.tsx:96 | `^(\d*\.{0,1}\d{0,2}$)` matched against the whole text; characterised by `PatternIsDigitsAndOneDot` and `PatternAtFirstNonDigit` |
| AmountInput.PatternAtFirstNonDigit | frontend/src/components/Expense/AddExpense.tsx:96 | the amount pattern `^(\d*\.{0,1}\d{0,2}$)` matches exactly when the text splits correctly at its first non-digit |
| AmountInput.PatternIsDigitsAndOneDot | frontend/src/components/Expense/AddExpense.tsx:96 | the pattern matches exactly digit strings with at most one '.' and at most two digits after it |
| AmountInput.FractionCents | frontend/src/components/Expense/AddExpense.tsx:98 | up to two fraction digits give fewer than 100 cents |
| AmountInput.ParseFloat | frontend/src/components/Expense/AddExpense.tsx:98 | `parseFloat` of accepted text is a number exactly when the text matches the pattern and has a digit, and it is never negative |
| AmountInput.ParseFloatOfDigits | frontend/src/components/Expense/AddExpense.tsx:98 | `parseFloat` of a whole number's text is that number of units, i.e. n·100 cents |
| AmountInput.FractionOfPadded | frontend/src/components/Expense/AddExpense.tsx:98 | the two-digit zero-padded text of c < 100 is read as exactly c cents after the '.' |
| AmountInput.ParseSplit | frontend/src/components/Expense/AddExpense.tsx:98 | digits, a '.', and at most two digits (with a digit on one side) read as the integer digits' value in hundreds plus the fraction's cents |
| AmountInput.ParseFloatOfCents | frontend/src/components/Expense/AddExpense.tsx:98 | the text "n.cc" of n units and c < 100 cents reads back as n·100 + c cents |
| AmountInput.ParseFloatOfTenths | frontend/src/components/Expense/AddExpense.tsx:98 | one digit d after the '.' counts tenths: "n.d" is n·100 + 10·d cents |
| AmountInput.ParseFloatOfFraction | frontend/src/components/Expense/AddExpense.tsx:98 | without integer digits, ".de" for digits d and e is 10·d + e cents |
| AmountInput.ParseFloatTrailingDot | frontend/src/components/Expense/AddExpense.tsx:98 | a trailing '.' adds nothing: "n." is n·100 cents |
| Serializers.SerializeIncome | frontend/src/services/serializers.tsx:21-31 | the JSON has exactly the keys user, amount, source, description, type, interval and date (no id), each holding its model field, with interval and date as their texts |
| Serializers.SerializeExpense | frontend/src/services/serializers.tsx:47-57 | as for incomes, with `category` for the tag and `type` for `recurring` |
| Serializers.NewIncomeSerializer | frontend/src/services/serializers.tsx:13-18 | the serializer keeps its model, and `data()` is the model's JSON |
| Serializers.NewExpenseSerializer | frontend/src/services/serializers.tsx:41-44 | the serializer keeps its model, and `data()` is the model's JSON |
| Deserializers.ReadId | frontend/src/services/deserializers.tsx:24 | a missing id becomes null; a present numeric id is kept |
| Deserializers.ReadUser | frontend/src/services/deserializers.tsx:25 | a missing user becomes 0; a numeric user is kept |
| Deserializers.ReadAmount | frontend/src/services/deserializers.tsx:26 | a missing amount is NaN; a number is kept; a string goes through `parseFloat` |
| Deserializers.ReadText | frontend/src/services/deserializers.tsx:27-28 | a missing text field takes the constructor default; a present one must be a string and is kept; any other value is an error |
| Deserializers.ReadFlag | frontend/src/services/deserializers.tsx:29 | a missing type is false; a present one must be a boolean and is kept |
| Deserializers.ReadSplitText | frontend/src/services/deserializers.tsx:19-21 | the interval and date must be strings, since `split` on anything else throws; the error names the key |
| Deserializers.DeserializeIncome | frontend/src/services/deserializers.tsx:18-33 | succeeds exactly on well-typed JSON; a bad interval is reported first; every field of the result comes from its key, with interval and date split on '-' |
| Deserializers.DeserializeExpense | frontend/src/services/deserializers.tsx:48-63 | as for incomes, with `category` and `recurring` |
| Deserializers.NewIncomeDeserializer | frontend/src/services/deserializers.tsx:13-16 | construction succeeds exactly when deserializing does; it keeps the JSON and `data()` is the model |
| Deserializers.NewExpenseDeserializer | frontend/src/services/deserializers.tsx:43-46 | the same for expenses |
| Deserializers.DeserializeList | frontend/src/services/deserializers.tsx:76-78 | on success there is one model per element, in order; on failure the error is the first failing element's, and every element before it succeeded |
| Deserializers.DeserializeListOkIffAll | frontend/src/services/deserializers.tsx:76-78 | the list decodes exactly when every element does |
| Deserializers.IncomeListData | frontend/src/services/deserializers.tsx:81-89 | the income list decodes exactly when every element does, into the element-wise incomes |
| Deserializers.ExpenseListData | frontend/src/services/deserializers.tsx:91-99 | the same for expenses |
| Wire.IncomeRoundTrip | frontend/src/services/serializers.tsx:21-31 | deserializing a serialized income with readable dates gives the income back, except that its id becomes null |
| Wire.ExpenseRoundTrip | frontend/src/services/serializers.tsx:47-57 | the same for expenses |
| Wire.IncomeEchoWithId | frontend/src/services/deserializers.tsx:18-33 | when the server echoes the JSON with an id added, the deserialized income is the original carrying that id |
| Wire.ExpenseEchoWithId | frontend/src/services/deserializers.tsx:48-63 | the same for expenses |
| Wire.NegativeYearIsLost | frontend/src/services/deserializers.tsx:21-22 | an income dated year -5 comes back from the wire dated 0/5/1 |
| Utils.StandardizeString | frontend/src/util/utils.tsx:3-5 | on ASCII text: keeps the length, upper-cases the first character and lower-cases the rest |
| Utils.StandardizeEmpty | frontend/src/util/utils.tsx:3-5 | the empty string stays empty |
| Utils.StandardizeFood | frontend/src/util/utils.tsx:3-5 | "FOOD" becomes "Food" |
| Utils.StandardizeIdempotent | frontend/src/util/utils.tsx:3-5 | standardizing twice is the same as once |
| Utils.GetKeys | frontend/src/util/utils.tsx:7-9 | `Object.keys` lists the entries' keys in order |
| Utils.GetValues | frontend/src/util/utils.tsx:11-13 | `Object.values` lists the entries' values in order |
| Utils.AsMapLookup | frontend/src/util/utils.tsx:7-13 | with distinct keys, each entry's key looks up that entry's value |
| Utils.KeysValuesAligned | frontend/src/util/utils.tsx:7-13 | keys and values have the same length, and the i-th key maps to the i-th value |
| TagTable.Get | frontend/src/components/Expense/Categories.tsx:40 | indexing the table finds a value exactly when the key is present, and the value is that key's entry |
| TagTable.GetAt | frontend/src/components/Expense/Categories.tsx:40 | in a table with distinct keys, each key finds its own entry |
| TagTable.LookupTag | frontend/src/components/Expense/Categories.tsx:38-43 | null exactly when the upper-cased tag is not a key; undefined exactly when the upper-cased tag is a key but the tag as written is not; otherwise the element stored under the tag |
| TagTable.BackgroundColor | frontend/src/components/Expense/Categories.tsx:27-32 | null exactly when the upper-cased tag is not a key; the inline background exactly for inline-styled elements; a thrown error for class-styled elements and for a tag present only in upper case |
| TagTable.AllTags | frontend/src/components/Expense/Categories.tsx:49-62 | one clickable copy per entry, in table order, each with a pointer cursor and reporting its own key |
| TagTable.Keys | frontend/src/components/Expense/Categories.tsx:51 | the table's keys in order |
| TagTable.HasKeyIffInKeys | frontend/src/components/Expense/Categories.tsx:39 | `in` on the table agrees with membership in its key list |
| TagTable.UpperKeyFound | frontend/src/components/Expense/Categories.tsx:38-43 | an upper-case key of a table with distinct keys looks up its own element |
| TagTable.OtherSpellingAbsent | frontend/src/components/Expense/Categories.tsx:38-43 | a spelling whose upper case is a key, but which is not itself a key, yields undefined |
| ExpenseCategories.ExpenseTableShape | frontend/src/components/Expense/Categories.tsx:6-21 | the table has the 14 listed keys in order, distinct and upper case |
| ExpenseCategories.ExpenseKeysListed | frontend/src/components/Expense/Categories.tsx:6-21 | the keys are DEBT … OTHER in source order |
| ExpenseCategories.ExpenseKeysDistinct | frontend/src/components/Expense/Categories.tsx:6-21 | no key repeats |
| ExpenseCategories.ExpenseKeysUpper | frontend/src/components/Expense/Categories.tsx:6-21 | every key is its own upper case |
| ExpenseCategories.GetExpenseTag | frontend/src/components/Expense/Categories.tsx:38-43 | null exactly for tags whose upper case is no category; undefined exactly for other spellings of a category; otherwise a table element stored under the tag |
| ExpenseCategories.GetTagBackgroundColor | frontend/src/components/Expense/Categories.tsx:27-32 | null exactly for unknown tags; a missing-element error exactly when the tag element is undefined; a missing-style error exactly for a class-styled key; a colour only from an inline style |
| ExpenseCategories.ClassStyledKeys | frontend/src/components/Expense/Categories.tsx:10-18 | exactly FOOD, INSURANCE, SAVING, SHOPPING and SUBSCRIPTION are styled by class |
| ExpenseCategories.ColorDefinedExactlyForInline | frontend/src/components/Expense/Categories.tsx:27-32 | the colour lookup succeeds on a key exactly when it is not class-styled, and then it returns a colour |
| ExpenseCategories.KeyFound | frontend/src/components/Expense/Categories.tsx:38-43 | every category key finds its own element |
| ExpenseCategories.FoodFound | frontend/src/components/Expense/Categories.tsx:10 | "FOOD" finds the Food element |
| ExpenseCategories.LowerFoodAbsent | frontend/src/components/Expense/Categories.tsx:39-40 | "food" passes the upper-case test but indexes nothing (undefined) |
| ExpenseCategories.UnknownTagIsNull | frontend/src/components/Expense/Categories.tsx:41-42 | an unknown tag yields null |
| ExpenseCategories.FoodHasNoColor | frontend/src/components/Expense/Categories.tsx:29 | asking for FOOD's colour throws, since that element has no style |
| ExpenseCategories.DebtColor | frontend/src/components/Expense/Categories.tsx:7 | DEBT's colour is "papayawhip" |
| ExpenseCategories.GetAllExpenseTags | frontend/src/components/Expense/Categories.tsx:49-62 | 14 clickable tags in table order, each reporting its key, with a pointer cursor |
| IncomeCategories.IncomeTableShape | frontend/src/components/Income/Categories.tsx:6-15 | the table has the 8 listed keys in order, distinct and upper case |
| IncomeCategories.IncomeKeysListed | frontend/src/components/Income/Categories.tsx:6-15 | the keys in source order |
| IncomeCategories.IncomeKeysDistinct | frontend/src/components/Income/Categories.tsx:6-15 | no key repeats |
| IncomeCategories.IncomeKeysUpper | frontend/src/components/Income/Categories.tsx:6-15 | every key is its own upper case |
| IncomeCategories.GetIncomeTag | frontend/src/components/Income/Categories.tsx:32-37 | null exactly for tags whose upper case is no source; undefined exactly for other spellings; otherwise a table element stored under the tag |
| IncomeCategories.GetTagBackgroundColor | frontend/src/components/Income/Categories.tsx:21-26 | null exactly for unknown tags; a missing-element error exactly when the element is undefined; a missing-style error exactly for a class-styled key; a colour only from an inline style |
| IncomeCategories.ClassStyledKeys | frontend/src/components/Income/Categories.tsx:6-15 | exactly the listed keys are styled by class |
| IncomeCategories.ColorDefinedExactlyForInline | frontend/src/components/Income/Categories.tsx:21-26 | the colour lookup succeeds on a key exactly when it is not class-styled, and then it returns a colour |
| IncomeCategories.KeyFound | frontend/src/components/Income/Categories.tsx:32-37 | every source key finds its own element |
| IncomeCategories.SalaryFound | frontend/src/components/Income/Categories.tsx:32-37 | "SALARY" finds the Salary element |
| IncomeCategories.LowerSalaryAbsent | frontend/src/components/Income/Categories.tsx:33-34 | "salary" yields undefined |
| IncomeCategories.UnknownTagIsNull | frontend/src/components/Income/Categories.tsx:35-36 | an unknown tag yields null |
| IncomeCategories.BusinessHasNoColor | frontend/src/components/Income/Categories.tsx:23 | asking for BUSINESS's colour throws |
| IncomeCategories.SalaryColor | frontend/src/components/Income/Categories.tsx:6-15 | SALARY's colour is "lemonchiffon" |
| IncomeCategories.GetAllIncomeTags | frontend/src/components/Income/Categories.tsx:43-56 | 8 clickable tags in table order, each reporting its key |
| ItemList.GetTag | frontend/src/components/ItemList.tsx:17-23 | the income lookup wins unless it is null; then the expense lookup is the answer (undefined does not fall through) |
| ItemList.GetTagNull | frontend/src/components/ItemList.tsx:17-23 | no tag is shown exactly when the upper-cased tag is neither an income nor an expense key |
| ItemList.SharedKeysResolveToIncome | frontend/src/components/ItemList.tsx:18-19 | INVESTMENT and OTHER, keys of both tables, show the income tags |
| ItemList.ExpenseKeyFallsThrough | frontend/src/components/ItemList.tsx:20-21 | FOOD shows the expense tag |
| ItemList.Amounts | frontend/src/components/ItemList.tsx:124 | the amounts of the items, in order |
| ItemList.FiniteSuffix | frontend/src/components/ItemList.tsx:124 | a suffix of finite amounts is finite |
| ItemList.SumFinite | frontend/src/components/ItemList.tsx:123-124 | the total is a number exactly when every amount is (one NaN poisons it) |
| ItemList.SumFront | frontend/src/components/ItemList.tsx:123-124 | the left-to-right total equals head plus the total of the rest |
| ItemList.SuffixFirst | frontend/src/components/ItemList.tsx:144 | the whole suffix totals the whole list |
| ItemList.SuffixLast | frontend/src/components/ItemList.tsx:144 | the last suffix totals the last amount |
| ItemList.SuffixStep | frontend/src/components/ItemList.tsx:144-145 | each suffix total is its first amount plus the next suffix total |
| ItemList.RemainingStep | frontend/src/components/ItemList.tsx:145 | subtracting row k's amount from the running total gives the running total of row k+1 |
| ItemList.FirstRowShowsTotal | frontend/src/components/ItemList.tsx:144 | the first row shows the total of all items |
| ItemList.LastRowShowsOwnAmount | frontend/src/components/ItemList.tsx:144-145 | with finite amounts the last row shows its own amount |
| ItemList.ConsecutiveRowsDiffer | frontend/src/components/ItemList.tsx:144-145 | with finite amounts the totals shown in rows k and k+1 differ by row k's amount |
| ItemList.TotalAmount | frontend/src/components/ItemList.tsx:123-124 | the `forEach` loop computes the sum of the amounts |
| ItemList.Sum | frontend/src/components/ItemList.tsx:123-124 | the amounts added first to last from 0, NaN absorbing; `SumFinite` and `SumFront` state its properties |
| ItemList.Remaining | frontend/src/components/ItemList.tsx:143-150 | the total row k is handed: the suffix sum from k when every amount is a number, else NaN; partners `RemainingStep`, `FirstRowShowsTotal`, `LastRowShowsOwnAmount` |
| ItemList.ItemRow | frontend/src/components/ItemList.tsx:38-44 | once its effect has run, a row shows its item and running total, and is expanded exactly when its id is the clicked one |
| ItemList.Cell.View | frontend/src/components/ItemList.tsx:46-111 | the row as drawn from the component's own `clicked` state |
| ItemList.Cell.constructor | frontend/src/components/ItemList.tsx:35-36 | both `t` and `clicked` start false |
| ItemList.Cell.Effect | frontend/src/components/ItemList.tsx:38-44 | the buttons show exactly when the row's id is the clicked id, so the row is drawn as `ItemRow` gives it, and `t` is lowered |
| ItemList.Cell.RowClick | frontend/src/components/ItemList.tsx:55 | a click raises `t`, hands the row's id to the list and leaves `clicked` alone |
| ItemList.Cell.Collapse | frontend/src/components/ItemList.tsx:102-104 | the collapse button hides the buttons whatever the clicked id |
| ItemList.CollapseThenClick | frontend/src/components/ItemList.tsx:38-104 | after a collapse the row is hidden though the clicked id still names it; a second click reruns the effect on the same id and shows the buttons again |
| ItemList.RowStep | frontend/src/components/ItemList.tsx:143-157 | one `map` step appends the row for item k and advances the running total |
| ItemList.RenderRows | frontend/src/components/ItemList.tsx:143-157 | the `map` loop produces every item's row with the running total of its suffix |
| ItemList.RenderItemList | frontend/src/components/ItemList.tsx:121-160 | the "No items available" view exactly for an empty list; otherwise one row per item, row i showing the total from item i on |
| PageCommon.PrevMonth | frontend/src/pages/Expense.tsx:238-250 | January goes back to December of the previous year; other months go to the previous month |
| PageCommon.NextMonth | frontend/src/pages/Expense.tsx:257-269 | December goes on to January of the next year; other months go to the next month |
| PageCommon.PagingKeepsMonthInRange | frontend/src/pages/Expense.tsx:238-269 | both arrows keep the month within 1..12 |
| PageCommon.ArrowsAreInverse | frontend/src/pages/Expense.tsx:238-269 | left then right, and right then left, return to the same month |
| PageCommon.ArrowsStepOneMonth | frontend/src/pages/Expense.tsx:238-269 | each arrow moves exactly one month on the calendar |
| PageCommon.ModifyTargetId | frontend/src/pages/Expense.tsx:112 | the update target is the id, or -1 when the id is null or 0 (falsy) |
| PageCommon.FindById | frontend/src/pages/Expense.tsx:206 | `find` returns the first element with the id, or nothing when none has it |
| ExpensePage.Page.constructor | frontend/src/pages/Expense.tsx:23-41 | the page starts at today's month, with no category, not loaded, no error, an empty list, mode "none", the form closed and a default expense |
| ExpensePage.Page.FetchRequest | frontend/src/pages/Expense.tsx:272-278 | the effect fetches exactly when the list is not loaded, for user 2 and the page's year, month and category |
| ExpensePage.Page.OnFetchResponse | frontend/src/pages/Expense.tsx:51-66 | a 200 with a decodable body replaces the list and marks it loaded; a body that fails to decode is a thrown error; any other response sets "Unable to fetch data."; nothing else changes |
| ExpensePage.Page.OnRejected | frontend/src/pages/Expense.tsx:68-72 | a rejected request stores the thrown error and changes nothing else |
| ExpensePage.Page.CloseError | frontend/src/pages/Expense.tsx:328-334 | closing the pop-up clears the error only |
| ExpensePage.Page.AddExpense | frontend/src/pages/Expense.tsx:78-81 | the active expense's user becomes 2 and a create request carries its JSON |
| ExpensePage.Page.ModifyExpense | frontend/src/pages/Expense.tsx:111-114 | an update request for the active expense's id (or -1) carries its JSON |
| ExpensePage.Page.Reset | frontend/src/pages/Expense.tsx:120-123 | after a successful change the list reloads, the form closes and the active expense is reset |
| ExpensePage.Page.OnChangeResponse | frontend/src/pages/Expense.tsx:82-99 | the expected status resets the page; any other stores the given error message; nothing else changes |
| ExpensePage.Page.OnAddResponse | frontend/src/pages/Expense.tsx:82-99 | 201 resets the page; any other status sets "Unable to add data." |
| ExpensePage.Page.OnModifyResponse | frontend/src/pages/Expense.tsx:115-131 | 200 resets the page; any other status sets "Unable to modify data." |
| ExpensePage.Page.OnDeleteResponse | frontend/src/pages/Expense.tsx:144-169 | 204 resets the page; any other status sets "Unable to delete data." |
| ExpensePage.Page.FormSubmit | frontend/src/pages/Expense.tsx:179-186 | mode "add" sends a create for user 2, mode "edit" an update for the active id, any other mode nothing |
| ExpensePage.Page.FormCancel | frontend/src/pages/Expense.tsx:193-196 | the form closes and the active expense resets |
| ExpensePage.Page.EditClick | frontend/src/pages/Expense.tsx:204-210 | the form opens in edit mode on the first listed expense with the id, or keeps the active expense when none has it |
| ExpensePage.Page.AddClick | frontend/src/pages/Expense.tsx:322 | the form opens in add mode, keeping the active expense |
| ExpensePage.Page.DeleteClick | frontend/src/pages/Expense.tsx:218-221 | a delete request for the id is sent and the form closes |
| ExpensePage.Page.TagClick | frontend/src/pages/Expense.tsx:228-231 | the category filter is set and the list reloads |
| ExpensePage.Page.MonthLeftClick | frontend/src/pages/Expense.tsx:238-250 | the page moves to the previous month and reloads |
| ExpensePage.Page.MonthRightClick | frontend/src/pages/Expense.tsx:257-269 | the page moves to the next month and reloads |
| ExpensePage.RightThenLeft | frontend/src/pages/Expense.tsx:238-278 | right then left returns to the same month and re-fetches it |
| IncomePage.Page.constructor | frontend/src/pages/Income.tsx:23-41 | as for the expense page, with a default income |
| IncomePage.Page.FetchRequest | frontend/src/pages/Income.tsx:271-277 | fetches exactly when not loaded, for user 2 and the page's month and source |
| IncomePage.Page.OnFetchResponse | frontend/src/pages/Income.tsx:46-74 | a 200 with a decodable body replaces the list; a decoding failure is a thrown error; any other response sets "Unable to fetch data." |
| IncomePage.Page.OnRejected | frontend/src/pages/Income.tsx:46-74 | a rejected request stores the thrown error only |
| IncomePage.Page.CloseError | frontend/src/pages/Income.tsx:332 | closing the pop-up clears the error only |
| IncomePage.Page.AddIncome | frontend/src/pages/Income.tsx:79-82 | the active income's user becomes 2 and a create request carries its JSON |
| IncomePage.Page.ModifyIncome | frontend/src/pages/Income.tsx:112-115 | an update request for the active income's id (or -1) carries its JSON |
| IncomePage.Page.Reset | frontend/src/pages/Income.tsx:121-124 | the list reloads, the form closes and the active income is reset |
| IncomePage.Page.OnChangeResponse | frontend/src/pages/Income.tsx:83-100 | the expected status resets the page; any other stores the given message |
| IncomePage.Page.OnAddResponse | frontend/src/pages/Income.tsx:79-106 | 201 resets the page; any other status sets "Unable to add data." |
| IncomePage.Page.OnModifyResponse | frontend/src/pages/Income.tsx:112-139 | 200 resets the page; any other status sets "Unable to edit data." |
| IncomePage.Page.OnDeleteResponse | frontend/src/pages/Income.tsx:145-170 | 204 resets the page; any other status sets "Unable to delete data." |
| IncomePage.Page.FormSubmit | frontend/src/pages/Income.tsx:180-187 | "add" creates, "edit" updates, any other mode sends nothing |
| IncomePage.Page.FormCancel | frontend/src/pages/Income.tsx:194-197 | the form closes and the active income resets |
| IncomePage.Page.EditClick | frontend/src/pages/Income.tsx:205-211 | edit mode on the first listed income with the id, or the old one kept |
| IncomePage.Page.AddClick | frontend/src/pages/Income.tsx:321 | add mode, keeping the active income |
| IncomePage.Page.DeleteClick | frontend/src/pages/Income.tsx:219-222 | a delete request is sent and the form closes |
| IncomePage.Page.TagClick | frontend/src/pages/Income.tsx:229-232 | the source filter is set and the list reloads |
| IncomePage.Page.MonthLeftClick | frontend/src/pages/Income.tsx:239-250 | previous month, reload |
| IncomePage.Page.MonthRightClick | frontend/src/pages/Income.tsx:257-268 | next month, reload |
| IncomePage.RightThenLeft | frontend/src/pages/Income.tsx:239-277 | right then left returns to the same month and re-fetches it |
| AddExpense.InitialValues | frontend/src/components/Expense/AddExpense.tsx:17-21 | the form opens on the expense's description, tag, amount, date text and recurring flag |
| AddExpense.SaveDate | frontend/src/components/Expense/AddExpense.tsx:23-29 | saving writes the form's amount, category, item and flag into the expense, converts the date text and keeps id, user and interval |
| AddExpense.UneditedSaveKeepsExpense | frontend/src/components/Expense/AddExpense.tsx:17-29 | opening and saving without edits leaves an expense with a readable date unchanged |
| AddExpense.UneditedSaveLosesNegativeYear | frontend/src/components/Expense/AddExpense.tsx:20-28 | opening and saving an expense dated -5/1/2 re-dates it 0/5/1 |
| AddExpense.Form.constructor | frontend/src/components/Expense/AddExpense.tsx:17-21 | the form's state is the initial values of the active expense |
| AddExpense.Form.OnItemChange | frontend/src/components/Expense/AddExpense.tsx:52 | only the description changes |
| AddExpense.Form.OnCategoryChange | frontend/src/components/Expense/AddExpense.tsx:68 | only the category changes |
| AddExpense.Form.OnSpendingChange | frontend/src/components/Expense/AddExpense.tsx:95-100 | text matching the amount pattern sets the amount to its `parseFloat`; other text changes nothing |
| AddExpense.Form.OnDateChange | frontend/src/components/Expense/AddExpense.tsx:117 | only the date text changes |
| AddExpense.Form.OnRecurringChange | frontend/src/components/Expense/AddExpense.tsx:129-134 | only the recurring flag changes |
| AddExpense.Form.HandleSave | frontend/src/components/Expense/AddExpense.tsx:31-34 | the form's values are saved into the page's active expense, then the page submits: a create, an update or nothing as the mode says |
| AddIncome.InitialValues | frontend/src/components/Income/AddIncome.tsx:18-22 | the form opens on the income's description, tag, amount, date text and fixed flag |
| AddIncome.SaveDate | frontend/src/components/Income/AddIncome.tsx:24-30 | saving writes the form into the income, converts the date and keeps id, user and interval |
| AddIncome.UneditedSaveKeepsIncome | frontend/src/components/Income/AddIncome.tsx:18-30 | an unedited save leaves an income with a readable date unchanged |
| AddIncome.UneditedSaveLosesNegativeYear | frontend/src/components/Income/AddIncome.tsx:21-29 | an unedited save re-dates -5/1/2 as 0/5/1 |
| AddIncome.Form.constructor | frontend/src/components/Income/AddIncome.tsx:18-22 | the form's state is the initial values of the active income |
| AddIncome.Form.OnItemChange | frontend/src/components/Income/AddIncome.tsx:53 | only the description changes |
| AddIncome.Form.OnCategoryChange | frontend/src/components/Income/AddIncome.tsx:69 | only the source changes |
| AddIncome.Form.OnSpendingChange | frontend/src/components/Income/AddIncome.tsx:92-97 | pattern text sets the amount to its `parseFloat`; other text changes nothing |
| AddIncome.Form.OnDateChange | frontend/src/components/Income/AddIncome.tsx:114 | only the date text changes |
| AddIncome.Form.OnFixedChange | frontend/src/components/Income/AddIncome.tsx:126-131 | only the fixed flag changes |
| AddIncome.Form.HandleSave | frontend/src/components/Income/AddIncome.tsx:32-35 | the form is saved into the active income, then the page submits as its mode says |
| ExpenseBudget.BudgetInput.constructor | frontend/src/components/Budget/ExpenseBudget.tsx:6 | the budget text starts empty |
| ExpenseBudget.BudgetInput.OnChange | frontend/src/components/Budget/ExpenseBudget.tsx:17-22 | the text is replaced exactly when the new text matches the amount pattern |
| ExpenseBudget.BudgetInput.Save | frontend/src/components/Budget/ExpenseBudget.tsx:26 | the saved budget is `parseFloat` of the text, a number exactly when the text has a digit |
| IncomeGoal.GoalInput.constructor | frontend/src/components/Budget/IncomeGoal.tsx:5 | the goal text starts empty |
| IncomeGoal.GoalInput.OnChange | frontend/src/components/Budget/IncomeGoal.tsx:16-21 | the text is replaced exactly when the new text matches the amount pattern |
| IncomeGoal.GoalInput.Save | frontend/src/components/Budget/IncomeGoal.tsx:25 | the saved goal is `parseFloat` of the text, a number exactly when the text has a digit |
| LineChart.PartOr | frontend/src/components/LineChart.tsx:231-232 | a present slice is itself; a missing one renders as "undefined" |
| LineChart.YearSuffix | frontend/src/components/LineChart.tsx:232 | the year is characters 3..5 of the second slice, or "undefined" when there is none |
| LineChart.WeekText | frontend/src/components/LineChart.tsx:248-251 | the week label always shows |
| LineChart.DayText | frontend/src/components/LineChart.tsx:252-256 | a shown day label is the label itself |
| LineChart.TickLabel | frontend/src/components/LineChart.tsx:228-258 | an unknown scale shows no tick; the "3m" scale always shows one |
| LineChart.TickBranches | frontend/src/components/LineChart.tsx:229-256 | each scale's tick is its own branch applied to the label split on ',' |
| LineChart.CommaHead | frontend/src/components/LineChart.tsx:230 | a comma-free head followed by ", " splits off as the first slice |
| LineChart.LabelSlices | frontend/src/components/LineChart.tsx:230-233 | a label "n, rest" splits into "n" and " rest", and "n" reads back as n |
| LineChart.SeasonTick | frontend/src/components/LineChart.tsx:229-235 | a quarter index below 4 shows its season and the year's characters 3..5 |
| LineChart.SeasonText | frontend/src/components/LineChart.tsx:229-235 | the '3y' branch on the label's slices; `SeasonTick` states what it shows |
| LineChart.MonthYearText | frontend/src/components/LineChart.tsx:236-242 | the '1y' branch on the label's slices; `MonthYearTick` states what it shows |
| LineChart.MonthText | frontend/src/components/LineChart.tsx:243-247 | the '6m' branch on the label's slices; `MonthTick` states what it shows |
| LineChart.MonthYearTick | frontend/src/components/LineChart.tsx:236-242 | month m shows its three-letter name and the year characters |
| LineChart.MonthTick | frontend/src/components/LineChart.tsx:243-247 | month m shows its three-letter name |
| LineChart.OutOfRangeIndexHidden | frontend/src/components/LineChart.tsx:233-246 | an index of 13 or more shows no tick on the 3y, 1y and 6m scales |
| LineChart.WeekTick | frontend/src/components/LineChart.tsx:248-251 | "d, m, year" shows "d. m" |
| LineChart.WeekSlices | frontend/src/components/LineChart.tsx:249 | a three-part label splits into its three parts, the later ones with their leading space |
| LineChart.DayTick | frontend/src/components/LineChart.tsx:252-257 | day d shows exactly when d is 1 or a multiple of 5 |
| LineChart.ButtonGroup.constructor | frontend/src/components/LineChart.tsx:97-125 | the third button ("6m") starts highlighted, and the parent is told "6m" |
| LineChart.ButtonGroup.Effect | frontend/src/components/LineChart.tsx:107-125 | for a cleared memo, the effect highlights exactly the selected button, records it and notifies its value |
| LineChart.ButtonGroup.Click | frontend/src/components/LineChart.tsx:130-143 | clicking selects and highlights the button; the parent is notified only when the selection changes |
| LineChart.ClickTwice | frontend/src/components/LineChart.tsx:107-143 | two clicks on different new buttons notify both values in order |
| Dates.DaysInMonth | backend/app/views.py:365 | months have 28 to 31 days, and February has 29 exactly in leap years |
| Dates.LessTransitive | backend/app/views.py:351 | date order is transitive |
| Dates.DayBefore | backend/app/views.py:365 | `relativedelta(days=-1)` gives a valid, earlier date |
| Dates.DayBeforeIsPredecessor | backend/app/views.py:365 | no date lies strictly between a day and the day before it |
| Dates.DayAfter | backend/app/views.py:478 | one day on gives a valid, later date |
| Dates.AddDays | backend/app/views.py:478 | adding n days gives a valid date, later whenever n > 0 |
| Dates.SubDays | backend/app/views.py:337 | subtracting n days gives a valid date, earlier whenever n > 0 |
| Dates.ShiftMonths | backend/app/views.py:319 | `relativedelta(months=k)` moves the month number by k and clamps the day to the new month |
| Dates.MonthNumberOrder | backend/app/views.py:364 | a later month number is a later date |
| Dates.ShiftMonthsOrder | backend/app/views.py:364 | moving forward in months gives a later date, backward an earlier one, zero the same date |
| Dates.Weekday | backend/app/views.py:339 | `date.weekday()` is below 7 (Monday 0); its partner lemmas below tie it to the calendar |
| Dates.YearKeyStep | backend/app/views.py:339 | the year term of Sakamoto's formula grows by 2 into a leap year and by 1 otherwise |
| Dates.SakamotoSumDayBefore | backend/app/views.py:339 | Sakamoto's sum drops by 1 modulo 7 from any valid date to the day before, across month and year ends |
| Dates.WeekdayDayBefore | backend/app/views.py:339 | the day before any valid date falls on the previous weekday |
| Dates.WeekdaySubDays | backend/app/views.py:339 | n days back moves the weekday back by n modulo 7 |
| Dates.SubDaysAdd | backend/app/views.py:337 | going back a + b days is going back a days and then b |
| Dates.LastMonday | backend/app/views.py:339 | `relativedelta(weekday=MO(-1))` gives a valid Monday on or before the day |
| Dates.LastMondayWithinWeek | backend/app/views.py:339 | that Monday is at most six days back, and a Monday is its own last Monday |
| Dates.NoMondayAfterLast | backend/app/views.py:339 | no day after that Monday, up to the date, is a Monday |
| Dates.KnownMondays | backend/app/views.py:339 | 1 January 2024 and 3 January 2000 are Mondays, and the last Monday of 7 January 2024 is 1 January 2024 |
| Views.AggregateSum | backend/app/views.py:351 | `aggregate(Sum)` is the sum of the amounts in the window, or None when that sum is 0 because the window is empty |
| Views.AggregateSumNone | backend/app/views.py:351 | the aggregate is None exactly when no row falls in the window |
| Views.WindowNetIsNetIn | backend/app/views.py:371-377 | a past window's net is the window's incomes minus its expenses |
| Views.CurrentNet | backend/app/views.py:354-356 | the current window's net: income minus expense only when both sums are truthy, else 0; `CurrentWindowHidesOneSidedNet` exhibits the difference |
| Views.WindowNet | backend/app/views.py:371-377 | an earlier window's net, a falsy sum counting as 0; `WindowNetIsNetIn` states what it is |
| Views.CurrentWindowHidesOneSidedNet | backend/app/views.py:354-356 | in the current window, a single income with no expense shows 0, whereas a past window shows the amount |
| Views.TruncDiv3 | backend/app/views.py:299 | `int(x / 3)` truncates toward zero |
| Views.Label | backend/app/views.py:296-308 | an unknown scale gives the empty label |
| Views.QuarterLabel | backend/app/views.py:298-299 | the 3y label is the quarter index 0..3 and the year, and the months of a quarter share it |
| Views.ScaleOrDefault | backend/app/views.py:458-460 | a missing or empty scale parameter means "6m" |
| Views.PlanFor | backend/app/views.py:319-347 | there is a plan exactly for the five scales, and it starts on or before today with a nonzero step |
| Views.Back | backend/app/views.py:364 | one interval back is a valid date, strictly earlier for a nonzero step |
| Views.Start | backend/app/views.py:381 | every window start is a valid date |
| Views.End | backend/app/views.py:365 | every window end is a valid date |
| Views.WindowsOrdered | backend/app/views.py:360-381 | every window starts on or before its end |
| Views.Keys | backend/app/views.py:358 | a dictionary's keys, in insertion order |
| Views.IndexOf | backend/app/views.py:379 | the first position holding the key |
| Views.PutAssigns | backend/app/views.py:379 | assigning a new key appends it; assigning a present key replaces its value in place and keeps the order |
| Views.Put | backend/app/views.py:379 | `d[k] = v` on an insertion-ordered dict; `PutAssigns` states its semantics |
| Views.Assigned | backend/app/views.py:358-381 | the dict a sequence of assignments builds; `AssignedDistinct` states it for distinct keys |
| Views.Reverse | backend/app/views.py:384 | `dict(reversed(items))` lists the entries back to front |
| Views.Listed | backend/app/views.py:358-381 | n windows give n+1 entries |
| Views.AssignedDistinct | backend/app/views.py:358-381 | with distinct labels the dictionary is the plain list of (label, value) pairs |
| Views.AbsoluteStep | backend/app/views.py:364-379 | one loop pass assigns the previous window's net under its label |
| Views.AbsoluteNetIncomeList | backend/app/views.py:311-385 | an unknown scale is an error; otherwise the result is the reversed dictionary of each window's net under its label |
| Views.AbsoluteListEntries | backend/app/views.py:358-384 | with distinct labels, entry n-k of the result is window k's label and net |
| Views.NetIncomeAsWritten | backend/app/views.py:280-288 | the endpoint as written fails exactly when either aggregate is None, and otherwise answers net income up to the day |
| Views.NetIncomeFailsWithoutIncomes | backend/app/views.py:285-286 | a user with one expense and no income gets a type error instead of the negative net |
| Views.NetIncome | backend/app/views.py:280-288 | the corrected net income treats an empty aggregate as 0, and agrees with the as-written endpoint whenever that succeeds |
| Views.SumUpToSplit | backend/app/views.py:445 | the sum up to e minus the sum over [s, e] is the sum up to the day before s |
| Views.FlowIsNetIncome | backend/app/views.py:433-451 | after k windows the running "so far" value is the net income up to the end of window k |
| Views.Flow | backend/app/views.py:440-448 | the running value after k passes: the net so far less the first k windows' nets; `FlowIsNetIncome` states what it is |
| Views.FlowNext | backend/app/views.py:437-448 | if window i's running value is the net income up to its end, so is window i+1's |
| Views.WindowRemoval | backend/app/views.py:445 | net up to e minus the net of window [s, e] is net up to the day before s |
| Views.FlowStep | backend/app/views.py:437-451 | one pass moves the window back by one interval and subtracts that window's net |
| Views.FlowRecorded | backend/app/views.py:447-448 | one pass assigns the new running value under the label of the day before the window |
| Views.FlowPass | backend/app/views.py:433-451 | one loop pass preserves the loop invariant: start, end, running value and dictionary are those of the next window |
| Views.FlowWindows | backend/app/views.py:433-451 | the loop builds the dictionary of running values under their labels |
| Views.MoneyFlow | backend/app/views.py:387-455 | corrected version, starting from the net income with missing sums read as 0: an unknown scale is an error; otherwise the result is the reversed dictionary of running net incomes |
| Views.MoneyFlowAsWritten | backend/app/views.py:387-455 | as written: a missing income or expense sum up to today raises TypeError for every scale; otherwise an unknown scale is an error and the result is the corrected money flow's |
| Views.MoneyFlowEntries | backend/app/views.py:400-454 | with distinct labels, the last entry is today's net income, and entry n-k is the net income up to the end of window k |
| Views.GraphData | backend/app/views.py:457-465 | corrected version, over the corrected money flow: both series succeed exactly for a known scale, a missing scale succeeds as "6m", and each series is its view's result |
| Views.GraphDataAsWritten | backend/app/views.py:457-465 | as written: the request fails with TypeError for a user without income or without expense up to today, whatever the scale; otherwise it succeeds exactly for a known or missing scale, with both series |
| Upcoming.ParseInterval | backend/app/views.py:477 | the interval parses exactly when it has three '-' parts that are integer literals, and gives their values |
| Upcoming.NatTextIsLiteral | backend/app/views.py:477 | a natural number's text is an integer literal without a leading zero or '-' |
| Upcoming.CanonicalIntervalParses | backend/app/views.py:477 | "y-m-d" parses as (y, m, d) |
| Upcoming.DefaultIntervalIsZero | backend/app/views.py:477 | "0-0-0" parses as the zero interval |
| Upcoming.RepeatedZeroPartIsZero | backend/app/views.py:477 | `eval("00")` is 0, so "0-0-00" also parses as the zero interval |
| Upcoming.MalformedIntervalsRejected | backend/app/views.py:477 | "01-0-0" (a leading zero) and "1-2" (two parts) are rejected |
| Upcoming.AddInterval | backend/app/views.py:478-480 | adding the zero interval keeps the date; any other interval moves it strictly later |
| Upcoming.Iterate | backend/app/views.py:479-480 | the date after n passes of `expense.date += interval` is a valid date |
| Upcoming.FirstNotBeforeUnique | backend/app/views.py:479-480 | there is only one first step of a date's progression that is not before today |
| Upcoming.ZeroIntervalStaysInPast | backend/app/views.py:479-480 | with the zero interval a past date never advances (the loop would not end) |
| Upcoming.AdvanceDate | backend/app/views.py:479-480 | the loop stops at the first step of the progression not before today, and leaves a date that is not in the past unchanged |
| Upcoming.Recurring | backend/app/views.py:473 | exactly the rows of type True are kept |
| Upcoming.AdvanceAll | backend/app/views.py:476-480 | succeeds exactly when every interval parses, then every date is advanced; otherwise it names a row whose interval is bad |
| Upcoming.Due | backend/app/views.py:486 | exactly the rows dated from today to 30 days on are kept |
| Upcoming.Insert | backend/app/views.py:487 | inserting adds the row and keeps every other row |
| Upcoming.InsertAbove | backend/app/views.py:487 | inserting keeps every row on or after a common lower bound |
| Upcoming.InsertSorted | backend/app/views.py:487 | inserting into a date-sorted list keeps it sorted |
| Upcoming.SortByDate | backend/app/views.py:487 | `order_by('date')` is a permutation of its rows |
| Upcoming.SortByDateSorted | backend/app/views.py:487 | `order_by('date')` is sorted by date |
| Upcoming.UpcomingExpenses | backend/app/views.py:470-489 | on a bad interval nothing is written; otherwise every recurring row is advanced and written back, and the answer is those due within 30 days, sorted by date |
| BackendModels.TokDigits | backend/app/models.py:10 | each alternative of the three interval fields is a digit string |
| BackendModels.FullMatchBounds | backend/app/models.py:6-9 | an anchored match has at most 10 years, 11 months and 30 days |
| BackendModels.IntervalValidator | backend/app/models.py:10 | as written: the pattern found anywhere in the text, with nothing anchoring its end; `ValidatorAcceptsThirtyOneDays` exhibits the gap |
| BackendModels.IntervalFullMatch | backend/app/models.py:5-10 | corrected: exactly three '-'-separated fields of at most 10 years, 11 months and 30 days; `FullMatchBounds` states the bounds |
| BackendModels.IntervalFieldValid | backend/app/models.py:50 | corrected column: blank, or at most 10 characters in the intended format |
| BackendModels.IntervalFieldValidAsWritten | backend/app/models.py:82 | the column as written: blank, or at most 10 characters that pass the searching validator; `FieldValidIsStricter` relates the two |
| BackendModels.FullMatchPassesValidator | backend/app/models.py:10 | text matching the whole pattern also passes the validator |
| BackendModels.TwoDigitText | backend/app/models.py:10 | a two-digit number's text is its tens digit then its units digit |
| BackendModels.NoDashInNatText | backend/app/models.py:10 | a natural number's text has no '-' |
| BackendModels.YearTokOfText | backend/app/models.py:10 | 0..10 matches the year field |
| BackendModels.MonthTokOfText | backend/app/models.py:10 | 0..11 matches the month field |
| BackendModels.DayTokOfText | backend/app/models.py:10 | 0..30 matches the day field |
| BackendModels.CanonicalIntervalFullMatch | backend/app/models.py:6-10 | every in-range "y-m-d" matches the whole pattern |
| BackendModels.CanonicalIntervalAccepted | backend/app/models.py:10 | every in-range "y-m-d" passes the validator |
| BackendModels.ZeroIntervalAccepted | backend/app/models.py:10 | "0-0-0" is accepted |
| BackendModels.ValidatorAcceptsThirtyOneDays | backend/app/models.py:9-10 | the validator accepts "0-0-31", which the whole pattern rejects |
| BackendModels.ValidatorAcceptsSurroundingText | backend/app/models.py:10 | the validator accepts "every 1-2-3 days" |
| BackendModels.FieldValidIsStricter | backend/app/models.py:50 | every interval the corrected check accepts, the field as written accepts too |
| BackendModels.ChoiceKeys | backend/app/models.py:30-39 | the stored keys of a choice list, in order |
| BackendModels.DefaultRow | backend/app/tests.py:116-123 | a default row has amount 0, tag "OTHER", empty description and type False |
| BackendModels.DefaultTagIsAChoice | backend/app/models.py:47 | the default "OTHER" is one of the choices of both models |
| BackendModels.DefaultRowsFit | backend/app/models.py:46-50 | the default row fits every column bound of both models |
| BackendModels.Pow10 | backend/app/models.py:46 | a power of ten is at least 1 |
| BackendModels.RoundHalfEven | backend/app/models.py:46 | the result is within half a unit of the quotient, and ties go to the even neighbour |
| BackendModels.StoreAmount | backend/app/models.py:46 | a stored amount is the cents rounded half to even, with at most ten digits; too many digits is an error |
| BackendModels.StoreExactCents | backend/app/tests.py:133 | an amount with two decimals is stored unchanged |
| BackendModels.HalfCentTies | backend/app/tests.py:140-147 | 0.005 is stored as 0.00 and 0.015 as 0.02 |
| CrossTier.ExpenseChoiceAt | backend/app/models.py:56-71 | a back-end choice matching table entry j is shown by that tag with the choice's label |
| CrossTier.ExpenseChoiceShown | backend/app/models.py:56-71 | every back-end category choice is a front-end tag whose text is the choice's label |
| CrossTier.ExpenseKeyStored | backend/app/models.py:56-71 | every front-end category is a storable back-end choice |
| CrossTier.ExpenseChoicesShown | backend/app/tests.py:150-165 | the 14 choices and the 14 tags name the same keys, and each choice shows with its own label |
| CrossTier.IncomeChoiceAt | backend/app/models.py:30-39 | a back-end source choice matching table entry j is shown by that tag with its label |
| CrossTier.IncomeChoiceShown | backend/app/models.py:30-39 | every back-end source choice is a front-end tag with the choice's label |
| CrossTier.IncomeKeyStored | backend/app/models.py:30-39 | every front-end source is a storable back-end choice |
| CrossTier.IncomeChoicesShown | backend/app/models.py:30-39 | the 8 choices and the 8 tags name the same keys, each with its own label |
| CrossTier.FrontIntervalAccepted | backend/app/models.py:10 | an in-range front-end interval's text passes the validator and parses back in the upcoming-expenses view |
| CrossTier.DefaultDeltaRoundTrip | backend/app/models.py:50 | the default interval "0-0-0" is valid and parses as zero |
| CrossTier.NoCommaInIntText | backend/app/views.py:299 | an integer's text has no ',' |
| CrossTier.YearDigits | backend/app/views.py:299 | a year's two last digits as text |
| CrossTier.FourDigitYearSuffix | frontend/src/components/LineChart.tsx:232 | for four-digit years the tick shows the year's last two digits |
| CrossTier.SeasonOfLabel | backend/app/views.py:298-299 | a 3y label shows as its season and year suffix |
| CrossTier.MonthYearOfLabel | backend/app/views.py:300-301 | a 1y label shows as the month's short name and year suffix |
| CrossTier.MonthOfLabel | backend/app/views.py:302-303 | a 6m label shows as the month's short name |
| CrossTier.WeekOfLabel | backend/app/views.py:304-305 | a 3m label shows as "day. month" |
| CrossTier.DayOfLabel | backend/app/views.py:306-307 | a 1m label shows exactly on day 1 and on multiples of 5 |
| CrossTier.TicksOfLabels | frontend/src/components/LineChart.tsx:228-258 | every back-end label shows as the tick its scale's branch prescribes |

## Left out

- The HTTP layer (axios services, Django REST framework, URL routing, serializers on the back end) is not modelled: requests are values and responses are a status and a body passed in.
- React rendering, hooks and `setState` batching are not modelled: each handler applies its state changes at once, and an effect is a method called explicitly.
- The clock is a parameter (`today`) everywhere; `new Date()` supplies the default date of a new model.
- The ORM and the database are in-memory sequences of rows; a query filter is a function over them, and `bulk_update` is the returned `written` sequence.
- Floating point is not modelled: amounts are whole cents, and text outside the amount pattern reads as NaN instead of partially parsing.
- Unary `+` reads only digit strings, with NaN for anything else; fractions, signs, exponents, whitespace and hex literals are not modelled, as none of them fit a date or interval part this code produces.
- Upcoming.ParseInterval: an interval part is read only as a decimal integer literal, as Python 3's `eval` reads one: "00" is 0 and is accepted (Upcoming.RepeatedZeroPartIsZero; "0-0-00" also passes the searching validator), while "01" is a syntax error and is rejected. Any other expression `eval` would evaluate, such as "1+1" or " 1", is a parse error here.
- Aliasing is not modelled: the list element being edited and the page's active model are separate values, so `saveDate` changes the active model only.
- Deserializers.ReadText, ReadFlag, ReadId and ReadUser: a JSON value of the wrong type (for `id` a string or other non-number, for `user` also an explicit null, which does not take the default 0) is an error here, while the source stores it unchecked through `as string`/`as boolean`/`as number`; so Deserializers.DeserializeIncome and Deserializers.DeserializeExpense reject JSON the source accepts.
- Views.MoneyFlowEntries and Views.AbsoluteListEntries: stated only for windows whose labels are distinct (for instance the 1y scale, whose windows step two months and label by month, is not proved distinct); with a repeated label the dictionary keeps the first position and the later value.
- Upcoming.AdvanceAll and Upcoming.UpcomingExpenses: require that no recurring row has a zero interval and a past date, since the source's `while` loop never ends for it. That case can arise: the front end's default interval is "0-0-0" (CrossTier.DefaultDeltaRoundTrip), and a zero step never moves a past date (Upcoming.ZeroIntervalStaysInPast). The source gives no sign of what the view should do instead, so the model states no corrected behaviour.
- Upcoming.SortByDate: the order among rows with the same date is not stated, as the database does not define it.
- Views.AbsoluteNetIncomeList and Views.MoneyFlow: an unknown scale is `Err(UnknownScale)`; in the source the error branch calls `ResourceWarning({}, status=...)`, a built-in exception constructor that takes no keyword arguments, so it raises TypeError and the request fails. The model keeps the cause apart from the TypeError of a missing sum.
- Views.MoneyFlow and Views.GraphData: start from the corrected net income, in which a missing sum counts as 0; the code as written is Views.MoneyFlowAsWritten and Views.GraphDataAsWritten.
- Django's `Decimal` arithmetic on sums is integer cents; `StoreAmount` models the column's rounding and digit limit.
- The User model, authentication, the budget service and the dashboard pages (`Budget.tsx` and other pages) are not part of this model.
- The `Item` component's tag and brief are functions of the row; its edit and delete buttons are the page's `EditClick` and `DeleteClick`.
- ItemList.ItemRow: gives a row as drawn right after its effect has run; the collapse button in between, which hides the buttons while the clicked id still names the row, is modelled by ItemList.Cell and ItemList.CollapseThenClick, not by ItemRow or RenderItemList.
- JsText.ToUpper, JsText.ToLower and Utils.StandardizeString: case mapping covers the ASCII letters only. JavaScript maps Unicode letters as well, and some change length ("ß" upper-cases to "SS"), or map onto a key ("ſaving" upper-cases to "SAVING", which the source then fails to find under its own spelling). So the length-keeping and idempotence contracts hold for JavaScript only on ASCII text, and the tag lookups follow the ASCII mapping.
- BackendModels.IsWordChar: `\b` in the interval validator counts ASCII letters, digits and '_' as word characters; Python 3's `re` counts every Unicode letter and digit, so text such as "é1-2-3" that the source rejects is accepted by BackendModels.IntervalValidator.

## Findings

| source | as written | input that shows it | evidently intended | confidence | as-written member | corrected member |
|---|---|---|---|---|---|---|
| backend/app/views.py:280-288 | tests the aggregate dict, which is always truthy, and then adds or subtracts its `amount__sum`, which is None when no row matches (line 398 subtracts without any test) | a user with one expense and no income: `net_income += None` raises TypeError | an empty aggregate counts as 0, as the `if` tests suggest | high (not executed) | Views.NetIncomeAsWritten, Views.NetIncomeFailsWithoutIncomes, Views.MoneyFlowAsWritten, Views.GraphDataAsWritten | Views.NetIncome, Views.MoneyFlow, Views.GraphData |
| backend/app/models.py:10 | the `RegexValidator` searches for the pattern anywhere in the text, and nothing anchors its end, so the day field may match only a prefix of a longer number | "0-0-31" passes, as does "every 1-2-3 days" | the whole text is y-m-d with y ≤ 10, m ≤ 11 and d ≤ 30, as the comment on lines 5-9 says | high (not executed) | BackendModels.IntervalValidator, BackendModels.ValidatorAcceptsThirtyOneDays | BackendModels.IntervalFullMatch, BackendModels.FullMatchBounds |
