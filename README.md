# Controladoria: a verified model of the finance dashboard's core

Controladoria is a small finance dashboard for construction companies. A
company records INCOME and EXPENSE transactions, each one dated, filed under a
category and optionally under a project. An expense can also be split into
monthly installments. The dashboard shows several views of these
transactions:

- the totals of what has already happened;
- the profit of each project;
- a month-by-month series;
- the share of each expense category;
- a forecast of the rows still to come.

A period selector (month, week or everything) picks the window the lists
show, and long lists are paged.

This project models that core in Dafny and proves what it promises:

- **`Dashboard`** (`dashboard.dfy`) covers the aggregators of
  `src/lib/utils.ts`: `calculateTotals`, `calculateProfitByProject`,
  `calculateMonthlyData`, `calculateExpenseByCategory`, `calculateForecast`
  and the class-name joiner `cn`. Each grouping operation is a method whose
  loop fills a map the way the source's `forEach` fills its `Map`. Each
  method is proved equal to a specification function. The lemmas show what
  those functions guarantee:
  - one entry per key;
  - each entry holds exactly its key's income and expense;
  - every key of the input is present and no other;
  - the promised sort order;
  - nothing is lost: the entries add up to the input's totals;
  - percentages add up to 100;
  - the totals and the forecast together account for every row.
- **`Grouping`** (`grouping.dfy`) is the specification that all four
  groupings share: keys in order of first appearance, and per-key income and
  expense.
- **`PeriodSelection`** (`period_selector.dfy`) covers the
  `usePeriodSelector` hook. The hook's state is a class whose navigation
  methods are proved against a pure state machine. The lemmas cover:
  - Monday-to-Sunday weeks;
  - month ends;
  - the week caption;
  - back and forward being inverse;
  - consecutive periods tiling the calendar without gaps;
  - "today" always lying inside the shown period.
- **`Pagination`** (`pagination.dfy`) covers the page-button list of the
  `Pagination` component, built by pushing onto a list as the component
  does. It also covers the "start–end of total" item bounds and when the bar
  and its arrows are shown.
- **`Installments`** (`installments.dfy`) covers the row builder of
  `createTransaction`: the company check, the installment count, the rounded
  share, the numbered descriptions and the monthly dates.
- **`Validation`** (`validations.dfy`) covers the Zod schemas for projects,
  categories and transactions, and `formatZodErrors`.
- **Supporting modules:**
  - `Calendar`: civil dates, JavaScript's `setDate`/`setMonth` arithmetic and `getDay`.
  - `Text`: `join`, `toString`, `padStart`.
  - `Lists`: `filter`, `map`, `sort`, sums.
  - `Domain`: the record shapes of `src/types/index.ts`.

Conventions:

- Money is integer cents and percentages are reals.
- A date is a `(year, month, day)` triple. The order of triples is the order
  of the ISO strings the source compares.
- The clock is a parameter: `today` in the dashboard, and `now`/`today` in
  the selector.

The dates of an installment plan need a note. The code dates each
installment `i` months after the start date. It does not date it one month
after the previous installment. For a start day from 29 to 31 the two
differ, because JavaScript's `setMonth` rolls a missing day over into the
following month. The model follows the code, and
`Installments.DatedFromStartNotFromPrevious` shows the difference:

- 31 January plus one month is 3 March;
- 31 January plus two months is 31 March;
- 3 March plus one more month is 3 April.

## Model

| member | source | states |
|---|---|---|
| Dashboard.CalculateTotals | src/lib/utils.ts:29-42 | the profit is always income minus expense |
| Dashboard.FutureRowsNeverCount | src/lib/utils.ts:30-31 | a row dated after today, wherever it stands, changes none of the totals |
| Dashboard.PastRowCounts | src/lib/utils.ts:31-39 | a row dated today or earlier adds its amount to the income total if INCOME, otherwise to the expense total |
| Dashboard.PastOrFuture | src/lib/utils.ts:31 | every row is either past (`<= today`) or future (`> today`), never both |
| Dashboard.TotalsAndForecastPartition | src/lib/utils.ts:29-42 | past income plus forecast income is all income, and likewise for expense: no row is lost or counted twice between the two views |
| Dashboard.TallyProjects | src/lib/utils.ts:45-68 | the `forEach` loop leaves exactly the specified per-project map and the projects in order of first appearance |
| Dashboard.CalculateProfitByProject | src/lib/utils.ts:44-71 | the result equals the specification `ProfitByProject` (entries in first-appearance order, sorted by descending profit) |
| Dashboard.ProjectEntryStep | src/lib/utils.ts:61-67 | one more row adds its amount to its project's income or expense and recomputes the profit |
| Dashboard.ProfitByProjectDistinct | src/lib/utils.ts:51-58 | no two entries share a `project_id` |
| Dashboard.ProfitByProjectCoversInput | src/lib/utils.ts:47-59 | every `project_id` of the input has an entry |
| Dashboard.ProfitByProjectOnlyInputIds | src/lib/utils.ts:47-59 | every entry's `project_id` occurs in the input |
| Dashboard.ProfitByProjectEntries | src/lib/utils.ts:61-70 | every entry holds the summed INCOME and non-INCOME amounts of its project and their difference, and entries run from highest to lowest profit |
| Dashboard.ProfitByProjectConserves | src/lib/utils.ts:61-67 | entry incomes add up to all INCOME amounts and entry expenses to all other amounts |
| Dashboard.TallyMonths | src/lib/utils.ts:76-90 | the loop leaves exactly the specified per-month map and the months in order of first appearance |
| Dashboard.CalculateMonthlyData | src/lib/utils.ts:73-93 | the result equals the specification `MonthlyDataOf` |
| Dashboard.MonthlyDataEntries | src/lib/utils.ts:83-89 | every entry holds its month's income, expense and their difference |
| Dashboard.MonthlyDataOnlyInputMonths | src/lib/utils.ts:77-81 | every entry's month is the month of some row |
| Dashboard.MonthlyDataCoversInput | src/lib/utils.ts:77-81 | the month of every row has an entry |
| Dashboard.MonthlyDataAscending | src/lib/utils.ts:92 | months are distinct and strictly ascending |
| Dashboard.MonthlyDataConserves | src/lib/utils.ts:83-89 | monthly incomes and expenses add up to the input's INCOME and non-INCOME totals |
| Dashboard.TallyCategories | src/lib/utils.ts:101-104 | the loop leaves exactly the per-category sums of the expense rows, in first-appearance order |
| Dashboard.CalculateExpenseByCategory | src/lib/utils.ts:95-113 | the result equals the specification `ExpenseByCategory` |
| Dashboard.CategoryTalliedEntry | src/lib/utils.ts:103 | over expense rows, the map holds each category's summed amount |
| Dashboard.ExpenseByCategoryEntries | src/lib/utils.ts:98-112 | each entry holds its category's summed EXPENSE amount and `value/total·100` (0 when the total is not positive), and entries run from largest to smallest value |
| Dashboard.ExpenseByCategoryOnlyExpenses | src/lib/utils.ts:98-102 | every category shown is the category of some EXPENSE row |
| Dashboard.ExpenseByCategoryCoversExpenses | src/lib/utils.ts:98-104 | the category of every EXPENSE row has an entry |
| Dashboard.ExpenseByCategoryDistinct | src/lib/utils.ts:103-106 | no category appears twice |
| Dashboard.ExpenseByCategoryConserves | src/lib/utils.ts:99-104 | category values add up to the total of all EXPENSE amounts |
| Dashboard.ExpenseByCategoryShares | src/lib/utils.ts:110 | with a positive total the percentages add up to exactly 100, otherwise every percentage is 0 |
| Dashboard.TallyForecast | src/lib/utils.ts:123-136 | the loop leaves exactly the per-month income and expense of the future rows, in first-appearance order |
| Dashboard.CalculateForecast | src/lib/utils.ts:115-139 | the result equals the specification `Forecast` over the rows dated after today |
| Dashboard.ForecastEntries | src/lib/utils.ts:130-135 | each forecast entry holds its month's income and expense over the future rows |
| Dashboard.ForecastMonthFromFuture | src/lib/utils.ts:121-128 | every forecast month is the month of some row dated after today |
| Dashboard.FutureMonthNotEarlier | src/lib/utils.ts:121 | a row dated after today falls in today's month or a later one |
| Dashboard.ForecastMonthsAhead | src/lib/utils.ts:121-138 | forecast months strictly ascend and none lies before today's month |
| Dashboard.MonthlyDataOrderIndependent | src/lib/utils.ts:73-93 | the same rows in any order give exactly the same monthly list |
| Dashboard.ForecastOrderIndependent | src/lib/utils.ts:115-139 | the same rows in any order give exactly the same forecast |
| Dashboard.ExpenseByCategoryOrderIndependent | src/lib/utils.ts:95-113 | the same rows in any order give the same category entries, as a multiset (ties in value may be listed in another order) |
| Dashboard.ProfitByProjectOrderIndependent | src/lib/utils.ts:44-71 | when rows of one project carry one project name, the same rows in any order give the same project entries, as a multiset (ties in profit may be listed in another order) |
| Dashboard.ClassNamesSkipsFalsy | src/lib/utils.ts:141-143 | an `undefined`, `false` or empty argument, wherever it stands, changes nothing |
| Dashboard.ClassNamesConcat | src/lib/utils.ts:142 | the classes of two argument lists, each with a class, are joined by exactly one space |
| Dashboard.ClassNamesEmpty | src/lib/utils.ts:142 | the result is empty exactly when no argument is a non-empty string |
| Grouping.Keys | src/lib/utils.ts:51-59 | the keys of the map, in insertion order, are pairwise distinct |
| Grouping.KeysCover | src/lib/utils.ts:51-59 | the key list holds the key of every row and only keys of rows |
| Grouping.FirstWithIffKey | src/lib/utils.ts:48-58 | a first row with key `k`, whose name the entry keeps, exists exactly when `k` is a listed key |
| Grouping.GroupIncomeSum | src/lib/utils.ts:62-63 | the per-key incomes add up to the income of the whole list |
| Grouping.GroupExpenseSum | src/lib/utils.ts:64-65 | the per-key expenses add up to the expense of the whole list |
| Grouping.SumWherePartition | src/lib/utils.ts:31 | splitting rows by a condition and its negation splits every sum |
| Grouping.MapValues | src/lib/utils.ts:70 | `Array.from(map.values())` in insertion order is the key list mapped through the entries |
| Grouping.GroupSumsPermutation | src/lib/utils.ts:47-68 | a key's summed income and expense do not depend on the order of the rows |
| Grouping.KeysPermutation | src/lib/utils.ts:51-59 | reordering the rows only reorders the map's keys |
| Lists.SortBy | src/lib/utils.ts:70 | the sort returns a sorted permutation of its input |
| Lists.Filter | src/lib/utils.ts:31 | the filter keeps only elements satisfying the predicate |
| Lists.SumOfPermutation | src/lib/utils.ts:70 | sorting does not change any sum over the entries |
| Lists.StrictlySortedUnique | src/lib/utils.ts:92 | two lists strictly ascending by the same key and holding the same elements are equal, so a sort by distinct months fixes the list |
| Lists.FilterPermutation | src/lib/utils.ts:98 | filtering a reordering of the rows gives a reordering of the filtered rows |
| Lists.MapPermutation | src/lib/utils.ts:106-111 | mapping a reordering gives a reordering of the mapped list |
| Calendar.DaysInMonth | src/hooks/usePeriodSelector.ts:65 | months have 28 to 31 days, and February has 29 exactly in leap years |
| Calendar.Weekday | src/hooks/usePeriodSelector.ts:14 | `getDay` lies in 0..6 |
| Calendar.WeekdayExamples | src/hooks/usePeriodSelector.ts:14 | the weekday count agrees with the calendar: 2024-01-15 is a Monday, 2024-01-14 a Sunday, 2000-02-29 a Tuesday, 1970-01-01 a Thursday |
| Calendar.AddDays | src/hooks/usePeriodSelector.ts:17 | `setDate(getDate() + k)` gives a valid date |
| Calendar.AddDaysNumber | src/hooks/usePeriodSelector.ts:17 | moving `k` days moves the day count by exactly `k` |
| Calendar.AddDaysAdd | src/hooks/usePeriodSelector.ts:17-20 | moving `a` days and then `b` days is moving `a + b` days |
| Calendar.WeekdayAddDays | src/hooks/usePeriodSelector.ts:14-17 | moving `k` days advances the weekday by `k` modulo 7 |
| Calendar.NotAfterIffDayNumber | src/lib/utils.ts:31 | the string order of ISO dates is the order of their day counts |
| Calendar.DayNumberInjective | src/hooks/usePeriodSelector.ts:16-20 | a valid date is determined by its day count |
| Calendar.AddMonths | src/app/actions.ts:158-159 | `setMonth(getMonth() + i)` gives a valid date |
| Calendar.AddMonthsSpec | src/app/actions.ts:158-159 | the result lies in the month `i` months later, keeping the day when it exists and otherwise rolling the excess days into the next month |
| Calendar.AddMonthsKeepsShortDays | src/app/actions.ts:158-159 | a day up to the 28th is kept, and the month moves by exactly `i` |
| Text.Join | src/lib/validations.ts:30 | joining no parts gives "" and joining one part gives that part |
| Text.JoinAppend | src/lib/utils.ts:142 | joining two non-empty lists is joining each with one separator between |
| Text.JoinLength | src/lib/utils.ts:142 | the joined length is the parts' total plus one separator per gap |
| Text.ParseNatToString | src/hooks/usePeriodSelector.ts:31-35 | `toString` of a natural number reads back as the number |
| Text.Pad2 | src/hooks/usePeriodSelector.ts:31-34 | `padStart(2, '0')` keeps the string at the end and fills the front with zeros up to length 2 |
| Text.Pad2TwoDigits | src/hooks/usePeriodSelector.ts:31-34 | a number below 100 pads to exactly two digits that read back as the number |
| PeriodSelection.MondayOffset | src/hooks/usePeriodSelector.ts:14-15 | the shift is between −6 and 0 and lands on a Monday, so a Sunday belongs to the week before |
| PeriodSelection.WeekRange | src/hooks/usePeriodSelector.ts:13-22 | both ends of the week are valid dates |
| PeriodSelection.WeekRangeSpec | src/hooks/usePeriodSelector.ts:13-22 | the week starts on a Monday and ends on the Sunday six days later, and it holds the date |
| PeriodSelection.WeekRangeOfMonday | src/hooks/usePeriodSelector.ts:13-17 | a Monday starts its own week |
| PeriodSelection.WeekRangeIdempotent | src/hooks/usePeriodSelector.ts:55-72 | the week of a week's start is the same week, so storing the start as anchor shows the intended week |
| PeriodSelection.WeekRangeShift | src/hooks/usePeriodSelector.ts:89-110 | moving a date by a week moves its week by a week |
| PeriodSelection.WeeksTile | src/hooks/usePeriodSelector.ts:13-22 | the previous week ends the day before this week starts |
| PeriodSelection.MonthEnd | src/hooks/usePeriodSelector.ts:65 | day 0 of the next month is the last day of this month |
| PeriodSelection.MonthRange | src/hooks/usePeriodSelector.ts:63-70 | the month runs from its 1st to its last day, both in the selected year and month |
| PeriodSelection.FebruaryEnd | src/hooks/usePeriodSelector.ts:65 | February ends on the 29th in leap years and on the 28th otherwise |
| PeriodSelection.WeekLabelFields | src/hooks/usePeriodSelector.ts:30-37 | the caption `DD/MM — DD/MM/YYYY` reads back as the start day, start month, end day, end month and end year |
| PeriodSelection.RangeOf | src/hooks/usePeriodSelector.ts:59-78 | 'all' shows 1900-01-01..2100-12-31 and month mode shows the selected month |
| PeriodSelection.WeekModeStartsAtAnchor | src/hooks/usePeriodSelector.ts:72-77 | in week mode, a Monday anchor starts the seven days shown |
| PeriodSelection.AllRangeIgnoresState | src/hooks/usePeriodSelector.ts:60-61 | the 'all' window does not depend on the rest of the state |
| PeriodSelection.Back | src/hooks/usePeriodSelector.ts:80-95 | the mode is kept; 'all' changes nothing; month mode goes one month back (December of the year before from January); week mode goes 7 days back |
| PeriodSelection.Forward | src/hooks/usePeriodSelector.ts:97-112 | the mode is kept; 'all' changes nothing; month mode goes one month on (January of the next year from December); week mode goes 7 days on |
| PeriodSelection.Today | src/hooks/usePeriodSelector.ts:114-119 | the mode is kept, year and month become today's, and the anchor is the Monday on or before today, less than 7 days back |
| PeriodSelection.Initial | src/hooks/usePeriodSelector.ts:51-57 | the selector opens in month mode on the current month, with a Monday anchor |
| PeriodSelection.BackForwardRoundTrip | src/hooks/usePeriodSelector.ts:80-112 | going back then forward, or forward then back, returns to the same state |
| PeriodSelection.NavigationKeepsMonday | src/hooks/usePeriodSelector.ts:89-110 | navigation keeps the anchor on a Monday |
| PeriodSelection.BackTiles | src/hooks/usePeriodSelector.ts:80-95 | the previous period ends the day before the current one begins |
| PeriodSelection.ForwardTiles | src/hooks/usePeriodSelector.ts:97-112 | the next period begins the day after the current one ends |
| PeriodSelection.TodayIsShown | src/hooks/usePeriodSelector.ts:114-119 | after going to today, the month or week shown holds today |
| PeriodSelection.PeriodSelector.constructor | src/hooks/usePeriodSelector.ts:51-57 | the hook's initial state is `Initial(now)` and valid |
| PeriodSelection.PeriodSelector.SetPeriodMode | src/hooks/usePeriodSelector.ts:51 | only the mode changes |
| PeriodSelection.PeriodSelector.GoBack | src/hooks/usePeriodSelector.ts:80-95 | the new state is `Back` of the old one and stays valid |
| PeriodSelection.PeriodSelector.GoForward | src/hooks/usePeriodSelector.ts:97-112 | the new state is `Forward` of the old one and stays valid |
| PeriodSelection.PeriodSelector.GoToday | src/hooks/usePeriodSelector.ts:114-119 | the new state is `Today` of the old one and stays valid |
| Pagination.Span | src/components/ui/Pagination.tsx:29 | the buttons `lo..hi`, in order, or none when `lo > hi` |
| Pagination.PushSpan | src/components/ui/Pagination.tsx:33-35 | the push loop appends exactly the buttons `lo..hi` |
| Pagination.GetPages | src/components/ui/Pagination.tsx:26-40 | the pushed list equals the specification `PageList` |
| Pagination.NumbersOfLongList | src/components/ui/Pagination.tsx:31-37 | beyond five pages the page numbers are 1, the window around the current page, and the last page |
| Pagination.PageNumbersAscending | src/components/ui/Pagination.tsx:26-40 | the listed page numbers strictly ascend and lie within 1..totalPages |
| Pagination.ShortListIsComplete | src/components/ui/Pagination.tsx:28-29 | up to five pages, every page is listed in order without '...' |
| Pagination.LongListEnds | src/components/ui/Pagination.tsx:31-37 | beyond five pages the list starts with page 1 and ends with the last page |
| Pagination.AtMostSeven | src/components/ui/Pagination.tsx:26-40 | never more than seven buttons |
| Pagination.EllipsisCount | src/components/ui/Pagination.tsx:32-36 | the number of '...' is whether the current page is past 3 plus whether it is more than two before the last |
| Pagination.LongListLayout | src/components/ui/Pagination.tsx:31-37 | the exact position of page 1, each '...', the window and the last page |
| Pagination.EllipsisPlacement | src/components/ui/Pagination.tsx:32-36 | for a current page in range, the leading '...' is there iff it is past 3 and the trailing one iff it is more than two before the last |
| Pagination.CurrentPageShown | src/components/ui/Pagination.tsx:33-35 | the current page and its in-range neighbours are always listed |
| Pagination.EllipsisHidesPages | src/components/ui/Pagination.tsx:32-36 | every '...' sits between two page numbers with at least one page skipped |
| Pagination.ItemBounds | src/components/ui/Pagination.tsx:22-23 | the last item shown never exceeds the item count, and a page shows fewer than `perPage`+1 items |
| Pagination.ItemBoundsInRange | src/components/ui/Pagination.tsx:22-23 | a page that holds items shows a non-empty run within 1..totalItems |
| Pagination.ItemBoundsTile | src/components/ui/Pagination.tsx:22-23 | consecutive full pages show consecutive runs of items |
| Pagination.Render | src/components/ui/Pagination.tsx:20-117 | no bar iff at most one page; "previous" is disabled iff on page 1, "next" iff on the last page; the buttons are `PageList` |
| Installments.StoredProjectId | src/app/actions.ts:166 | a missing or empty project id is stored as null, any other as given |
| Installments.InstallmentCount | src/app/actions.ts:149 | the count is at least 1, and above 1 exactly when a count above 1 was submitted, which it then equals |
| Installments.RoundedShareNearest | src/app/actions.ts:153 | the rounded share is within half a cent of the exact quotient |
| Installments.RoundedShareExact | src/app/actions.ts:153 | an evenly dividing amount is split exactly |
| Installments.BuildRows | src/app/actions.ts:143-199 | the `for` loop builds exactly the rows of `Plan` |
| Installments.NoCompanyNoRows | src/app/actions.ts:143-147 | nothing is built exactly when there is no company id |
| Installments.SingleRowWhenNoInstallments | src/app/actions.ts:189-199 | without a count above 1, one row carries the submitted fields and no installment fields |
| Installments.SplitRows | src/app/actions.ts:151-173 | a split has `n` rows numbered 1..n, all in one group, each for the same rounded share, with `(i/n)` descriptions, copied fields and the date `i` months after the start |
| Installments.SplitTotalNearAmount | src/app/actions.ts:153-163 | the rows of a split add up to the amount to within half a cent per row |
| Installments.SplitDescriptionsDistinct | src/app/actions.ts:162 | no two rows of a split share a description |
| Installments.SplitDatesMonthly | src/app/actions.ts:157-159 | a start day up to the 28th is kept, and the rows fall in consecutive months |
| Installments.DatedFromStartNotFromPrevious | src/app/actions.ts:158-159 | dating from the start differs from chaining month steps: 31 Jan gives 3 Mar and 31 Mar, while chaining gives 3 Apr |
| Installments.ThreeInstallmentsExample | src/app/actions.ts:149-173 | 1200.00 in three installments from 2024-01-15 gives 400.00 on the 15th of January, February and March, described "(1/3)".."(3/3)" |
| Validation.DateShapeExamples | src/lib/validations.ts:18 | the date pattern checks shape only: `2024-13-45` passes, `2024-1-15` and trailing text fail |
| Validation.ProjectRule | src/lib/validations.ts:3-6 | a project passes iff its name is non-empty, otherwise it reports "Nome é obrigatório" |
| Validation.CategoryRule | src/lib/validations.ts:8-13 | a category passes iff its name is non-empty and its type is INCOME or EXPENSE, with one issue per broken rule |
| Validation.InstallmentIssues | src/lib/validations.ts:24 | an absent count gives no issue, and a present one at most one, on the installments field |
| Validation.InstallmentRule | src/lib/validations.ts:24 | a count passes iff it is absent or a whole number from 1 to 120 |
| Validation.InstallmentExamples | src/lib/validations.ts:24 | 0.5 reports only the integer issue, which stops the field; 0 reports the minimum issue, 1.5 the integer issue, 121 the maximum issue, and 120 passes |
| Validation.TransactionRule | src/lib/validations.ts:15-25 | a transaction passes iff every field rule holds |
| Validation.TransactionIssueCount | src/lib/validations.ts:15-27 | a transaction has at most six issues (one per field) and an update at most five |
| Validation.UpdateOmitsInstallments | src/lib/validations.ts:27 | an update is checked as a creation without installment count, whatever count it carries |
| Validation.InstallmentIssuesComeLast | src/lib/validations.ts:15-27 | the creation issues start with exactly the update issues |
| Validation.FormatSmall | src/lib/validations.ts:29-31 | no issues give "" and one issue gives its message alone |
| Validation.FormatAppend | src/lib/validations.ts:29-31 | the text of two groups of issues is their texts joined by ", " |
| Validation.FormatExample | src/lib/validations.ts:29-31 | an empty description and a zero amount give both messages, in field order, separated by ", " |

## Left out

- The clock: `new Date()` in `calculateTotals`, `calculateForecast` and the selector is a `today`/`now` parameter. The UTC shift of `toISOString()` is not modelled either; dates are civil dates with no time of day or time zone.
- Floating point: amounts are integer cents, so `Number(t.amount)` sums are exact, and percentages are exact reals.
- Installments.RoundedShare: computes `Math.round` on exact cents, so the binary rounding error of `(amount / n) * 100` is not modelled.
- Dashboard.MonthlyDataAscending and Dashboard.ForecastMonthsAhead: months are compared as (year, month) pairs, which agrees with the `localeCompare` sorts of `calculateMonthlyData` and `calculateForecast` on `YYYY-MM` only for four-digit years and months 1 to 12, which both lemmas require.
- Lists.SortBy: an insertion sort whose contract promises sortedness and permutation only; the order it gives two entries with equal profit, value or month is not stated, while JavaScript's sort keeps their insertion order.
- `getMonthLabel` (the `toLocaleDateString('pt-BR')` month caption), `formatCurrency`, `formatDate` and `formatMonthYear`: locale formatting is outside the model; the month caption is kept as `MonthName(year, month0)`.
- The `modes` list of the hook and all rendering markup and styles of the pagination bar, beyond which buttons are shown and disabled.
- `createTransaction`'s database insert, its error path returning `null`, `revalidatePath` and the company lookup: the company id is an input; `crypto.randomUUID()` is a `groupId` parameter.
- Installments.Plan: the installment count is taken as an integer; a fractional count (which validation rejects before this point) is not modelled.
- Validation: payloads already have the schema's field types, so type errors (a string amount, a missing field) are not modelled; `project_id` and the project description accept any value, as the schemas do.
- Validation.InstallmentIssues: the three messages are the validation library's own default English texts, which the schema does not override; that a failed integer check stops the range checks for the field is likewise the library's behaviour, not something the schema states.
- Validation.DateShape: `\d` is taken as an ASCII digit.
- Dashboard.ProfitByProjectOrderIndependent: requires rows of one project to carry one project name (`NamesAgree`); otherwise the entry's name comes from the group's first row, which depends on the order.
- PeriodSelection.MonthRange: `new Date(year, month, 1)` reads years 0 to 99 as 1900 to 1999; that mapping is not modelled, so a selected year below 100 is taken literally.
