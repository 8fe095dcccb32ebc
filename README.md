# Financial Sankey generator — the income-statement engine

This project models the engine of `app.py`, a small app that draws a
simplified income statement as a Sankey diagram. The engine turns a table
of `(name, value, type)` rows into the label list and the three parallel
link lists (source index, target index, value) that the chart receives.
It has four parts:

- **The row classifier and bucketer** (`Classification`, `Bucketing`).
  The type column is lower-cased and searched for keyword substrings in a
  fixed priority order:
  - revenue: `rev`, `gelir`;
  - cost of revenue: `cog`, `cost`, `maliyet`;
  - expense: `exp`, `gider`, `tax`, `vergi`.

  Revenue and expense rows are stored by name in insertion-ordered
  dictionaries (`OrderedDicts`), where a repeated name replaces the value
  in place. Cost rows are summed. Rows of no known type are dropped.
- **The totals** (`Aggregates`): total revenue, gross profit, total
  expenses and net income. They are never clamped.
- **The label registry `get_idx`** (`Sankey.Register`,
  `Sankey.SankeyBuilder.GetIdx`): it appends a label if it is absent and
  returns the label's first position (`Lists.IndexOf`).
- **The flow builder** (`Sankey.SankeyBuilder`, `Sankey.BuildSankey`).
  It registers the three aggregate captions and appends links in a fixed
  order, only when their value is positive:
  1. each revenue source into Total Revenue;
  2. Total Revenue to COGS;
  3. Total Revenue to Gross Profit;
  4. Gross Profit to each expense;
  5. Gross Profit to Net Income.

`IncomeStatement.Run` chains the three parts as the upload loop alone
would. The mutating code keeps its form:
- the row loop is the method `Bucketing.LoadRows`;
- the label and link lists are the fields of the class
  `Sankey.SankeyBuilder`;
- the two item loops are `SankeyBuilder.AddItems`.

Each method is proved equal to a fold over its input: `Bucketed`,
`ItemFlows` and `Build`. The properties are proved about those folds. The
main ones are:
- classification priority and case-insensitivity;
- last-write-wins bucketing;
- the cost of revenue is the sum of every cost row;
- `get_idx` is idempotent and keeps labels distinct;
- every link index is in range, every link value is positive, and the
  three link lists have equal length;
- the exact flow list, in order (`ExpectedFlows`);
- the link count and the label set.

Behaviour worth noting:
- **Aggregate labels.** The Total Revenue, COGS and Gross Profit captions
  are registered before any link exists, whatever the values. An input
  with nothing positive still has these three labels, and Total Revenue is
  always at position 0 (`IncomeStatement.EmptyStatementKeepsAggregateLabels`,
  `Sankey.BuildLabelsDistinct`).
- **Expense links when gross profit is not positive.** Expense links are
  emitted even when gross profit is not positive: only the Total
  Revenue→Gross Profit link (app.py:184) and the Net Income link
  (app.py:198) check the sign of a total
  (`IncomeStatement.LossStillEmitsExpenseFlows`).
- **Repeated names.** A name that repeats within revenue or within
  expenses counts once, with its last value. Total revenue is the sum over
  the dictionary, not over the rows
  (`IncomeStatement.RepeatedRevenueNameCountsOnce`).
- **Priority catches captions.** Priority matching classifies the
  application's own cost caption "Cost of Revenue (COGS)", used as a type,
  as revenue (`Classification.CostOfRevenueCaptionIsRevenue`).

## Model

| member | source | states |
|---|---|---|
| Lists.IndexOf | app.py:159 | `labels.index(name)`: the result holds `name` and no earlier position does |
| Lists.IndexOfDistinct | app.py:156-159 | in a duplicate-free label list the index of a label is its only position |
| Classification.LowerChar | app.py:97 | ASCII `lower()` of one character: upper-case letters map to the matching lower-case letter, everything else is unchanged |
| Classification.Lower | app.py:97 | `str(row[2]).lower()`: same length, each character lower-cased in place |
| Classification.Contains | app.py:99-103 | Python `k in s` on strings holds exactly when `k` occurs at some position of `s` |
| Classification.ContainsAny | app.py:99-103 | an `or`-chain of substring tests holds exactly when some keyword of the list occurs |
| Classification.Classify | app.py:97-104 | the category is Revenue iff a revenue keyword occurs in the lower-cased type; CostOfRevenue iff no revenue keyword and some cost keyword; Expense iff neither of those and some expense keyword; Unknown iff none |
| Classification.LowerIdempotent | app.py:97 | lower-casing twice equals lower-casing once |
| Classification.ClassifyIgnoresCase | app.py:97-104 | classifying the lower-cased type gives the same category as classifying the type |
| Classification.ClassifySameLower | app.py:97-104 | two types with the same lower-case form get the same category |
| Classification.RevenueKeywordWins | app.py:99-100 | a type containing `rev` or `gelir` is revenue whatever other keywords it contains |
| Classification.CostKeywordBeatsExpense | app.py:101-104 | with no revenue keyword, any cost keyword makes the row cost of revenue, even if an expense keyword is present |
| Classification.NotMentioned | app.py:99-104 | keywords longer than the type, or starting with a character the type lacks, do not occur in it |
| Classification.TemplateRevenue | app.py:69 | the template's type `Revenue` classifies as revenue |
| Classification.TemplateCogs | app.py:69 | the template's type `COGS` classifies as cost of revenue |
| Classification.TemplateExpense | app.py:69 | the template's type `Expense` classifies as expense |
| Classification.RevAt | app.py:99 | a type that has `rev` in any letter case at some position is revenue |
| Classification.CostOfRevenueCaptionIsRevenue | app.py:99-101 | the type "Cost of Revenue (COGS)" classifies as revenue, because the revenue test comes first |
| Classification.EmptyTypeIsUnknown | app.py:99-104 | an empty type matches no branch, so its row is dropped |
| OrderedDicts.EmptyValid | app.py:55-57 | the empty dictionaries the script starts from are well formed |
| OrderedDicts.Put | app.py:100 | `d[k] = v`: `k` maps to `v`; other keys keep their values; a present key keeps its position; a new key is appended; keys stay distinct |
| OrderedDicts.Items | app.py:166 | `d.items()` lists each key, in key order, with its value |
| OrderedDicts.ItemsPutNew | app.py:100 | storing a new name appends exactly one pair to the items |
| OrderedDicts.SumPut | app.py:141 | after `d[k] = v` the sum of values grows by `v` minus the value `k` had, if any |
| Aggregates.ComputeTotals | app.py:141-144 | total revenue and total expenses are the dictionary sums; gross profit is total revenue minus cost of revenue; net income is gross profit minus total expenses, with no clamping |
| Bucketing.AddRow | app.py:99-104 | one row: revenue and expense rows replace or append their name in their own dictionary only; cost rows add their value to the cost only; unknown rows change nothing |
| Bucketing.Bucketed | app.py:94-104 | the buckets after any prefix of the rows are well-formed dictionaries |
| Bucketing.LoadRows | app.py:94-104 | the row loop ends with exactly the buckets of the fold over all rows |
| Bucketing.UnknownRowsIgnored | app.py:99-104 | dropping every row of unknown type leaves all buckets unchanged |
| Bucketing.CogsIsCategorySum | app.py:101-102 | the cost of revenue is the sum of the values of all cost rows, repeated names included |
| Bucketing.LastWriteWins | app.py:100-104 | a name is a key of the revenue or expense dictionary iff some row of that category has the name, and its value is the one from the last such row |
| Bucketing.RepeatedNameKeepsKeys | app.py:100-104 | a row whose name is already a key leaves the key list unchanged in order and length, and sets the value |
| Bucketing.ItemsWhenNamesDistinct | app.py:94-104 | with distinct names in a category, the dictionary items are that category's rows, in input order |
| Bucketing.TotalWhenNamesDistinct | app.py:141-143 | with distinct names, the dictionary total is the sum over all rows of the category |
| Sankey.Register | app.py:156-159 | `get_idx`: the returned position holds the label; the old list is a prefix of the new one; the list grows by one exactly when the label was absent, and the new label goes at the end; no duplicate is introduced |
| Sankey.RegisterTwice | app.py:156-159 | a second `get_idx` of the same label leaves the list unchanged and returns the same position |
| Sankey.RegisterUnique | app.py:156-159 | in a duplicate-free list the position returned is the only one holding the label |
| Sankey.RegisterAllFresh | app.py:156-159 | N new distinct labels get positions `n..n+N-1` in first-seen order and are appended in that order |
| Sankey.LabelSetRegister | app.py:156-159 | `get_idx` adds its label to the set of labels and nothing else |
| Sankey.LinkFlows | app.py:169-171 | the three appends of one link to existing labels add exactly one flow at the end and keep the lists aligned |
| Sankey.ItemEdges | app.py:167 | every flow emitted for an item loop has a positive value |
| Sankey.ExpectedFlows | app.py:164-202 | every flow of the intended diagram has a positive value |
| Sankey.ItemStepSpec | app.py:167-171 | one loop iteration keeps every index in range, only appends labels, adds the item's name iff its value is positive, and appends that item's flow |
| Sankey.ItemFlowsSpec | app.py:166-171 | an item loop keeps every index in range and appends exactly one flow per positive item, in item order, into or out of the hub |
| Sankey.ItemFlowsLabels | app.py:166-171 | an item loop only appends labels, keeps them duplicate-free, and adds exactly the names of the positive items |
| Sankey.ItemEdgesCount | app.py:166-171 | an item loop emits as many flows as there are positive items |
| Sankey.CostAndProfitLinksSpec | app.py:177-187 | the COGS flow is appended iff cost of revenue is positive, then the Gross Profit flow iff gross profit is positive, both out of Total Revenue |
| Sankey.NetIncomeLinkSpec | app.py:197-202 | the Net Income label is registered and its flow from Gross Profit appended iff net income is positive |
| Sankey.RevenueSideFlows | app.py:164-187 | before the expense loop, Total Revenue is at position 0 and the flows are the revenue flows, then the guarded COGS flow, then the guarded Gross Profit flow |
| Sankey.RevenueSideLabels | app.py:164-175 | before the expense loop the labels are duplicate-free and are exactly Total Revenue, COGS, Gross Profit and the positive revenue names |
| Sankey.ExpenseSideSpec | app.py:189-202 | the expense loop and the net-income step append one flow from Gross Profit per positive expense, then the guarded Net Income flow, and add only those labels |
| Sankey.BuildFlows | app.py:164-202 | every index of the built graph is in range, and its flows read through the labels are exactly the intended diagram: revenue sources, COGS, Gross Profit, expenses, Net Income, each only when positive |
| Sankey.BuildLabelsDistinct | app.py:156-175 | the built label list has no duplicate and starts with Total Revenue |
| Sankey.BuildLabelSet | app.py:164-202 | the labels are the three aggregate captions, the positive revenue and expense names, and Net Income iff net income is positive: no other label exists |
| Sankey.BuildWellFormed | app.py:164-202 | the built graph has no duplicate label, no dangling index, link lists of equal length, and only positive values |
| Sankey.BuildLinkCount | app.py:164-202 | the number of links is the positive revenue items plus the positive expense items plus one per true guard (COGS, gross profit, net income) |
| Sankey.SankeyBuilder.constructor | app.py:150-153 | the label list and the three link lists start empty |
| Sankey.SankeyBuilder.GetIdx | app.py:156-159 | the new label list and the returned index are those of `Register`; the link lists are untouched |
| Sankey.SankeyBuilder.AddLink | app.py:169-171 | one index is appended to each of the two index lists and one value to the value list |
| Sankey.SankeyBuilder.AddItems | app.py:166-171 | the loop leaves the builder in the state of the item fold from its old state |
| Sankey.BuildSankey | app.py:150-202 | the step-by-step construction yields the graph of `Build`, which is well formed and has exactly the intended flows |
| IncomeStatement.Run | app.py:94-202 | bucketing, totals and construction compose as the upload loop alone would; the graph is well formed; gross profit is total revenue minus the sum of all cost rows |
| IncomeStatement.TotalsFromRows | app.py:141-144 | with no repeated names, each total is the plain sum over the rows of its category |
| IncomeStatement.RepeatedRevenueNameCountsOnce | app.py:100 | two revenue rows named "A" (100 then 50) leave one key and total revenue 50, though the rows add up to 150 |
| IncomeStatement.ProfitableStatement | app.py:164-202 | the default manual figures (sources 100 and 50, cost 60, expense 20) give gross profit 90, net income 70, and the six flows in order |
| IncomeStatement.LossStillEmitsExpenseFlows | app.py:178-195 | with cost above revenue there is no Gross Profit or Net Income flow, but the positive expense still flows out of Gross Profit |
| IncomeStatement.EmptyStatementKeepsAggregateLabels | app.py:164-175 | with nothing positive there are no links, but the labels are Total Revenue, COGS and Gross Profit, in that order |
| IncomeStatement.SharedNameFlows | app.py:166-202 | a revenue source and an expense with the same name give four flows in order |
| IncomeStatement.SharedNameSharesNode | app.py:156-195 | a name that is both a revenue source and an expense is one node: the revenue link leaves the index the expense link enters |

## Left out

- The Streamlit interface is not modelled: page setup, language choice, tabs, widgets and the success, error and warning messages. It is presentation only.
- The manual-input tab is left out. It stores two revenue entries and one expense entry by name, which are more rows. It also overwrites the cost of revenue with a widget value, which the model does not capture, so `Run` models the upload path.
- IncomeStatement.Run: the body of the manual tab runs on every execution, after the upload loop (app.py:122-135). In the program the cost of revenue is therefore always the widget value (app.py:127), so uploaded cost rows never reach the totals, and the three manual entries are added to or replace dictionary entries (for example an uploaded `R&D` expense of 8.3 becomes 20.0). `Run`'s gross-profit clause describes the upload loop alone.
- Reading the uploaded CSV or Excel file is not modelled. This covers pandas parsing, the column renaming, `str()` and `float()` of the cells, the exception handler and the template download. Rows arrive already typed as `Row(name, value, rowType)`.
- Plotly figure construction and rendering are not modelled, nor is the `total_revenue > 0` gate that decides whether the chart is shown. They are foreign rendering code. The model stops at the four lists handed to the chart.
- The translation table is not modelled. The four aggregate captions are the parameter `Captions`, so every property holds in both languages.
- Values are `real`. IEEE floating-point rounding of the sums and differences is not modelled.
- Classification.Lower: lower-cases ASCII letters only, while Python's `str.lower()` also folds non-ASCII letters. Python turns `İ` into `i` followed by a combining dot, so a type containing `VERGİ` is an expense row in the program and an unknown row in the model; `GELİR`, `GİDER` and `MALİYET` are unknown in both.
- Streamlit's re-execution of the script and its `@st.cache_data` caching are not modelled. They are runtime plumbing with no logic of their own.
