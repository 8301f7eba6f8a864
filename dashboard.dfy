/**
 * The dashboard aggregator: totals of what has already happened, profit per
 * project, the monthly series, the expense distribution by category and the
 * forecast of future rows.
 *
 * The source reads the current date from the clock; here `today` is a
 * parameter. Each grouping operation is a method whose loop fills a map the
 * way the source's `forEach` fills its `Map`, and whose result is tied to a
 * function of the input; the lemmas state what those functions promise.
 */
module Dashboard {
  import opened Calendar
  import opened Domain
  import opened Lists
  import opened Grouping
  import Text

  // ----- calculateTotals -----

  datatype Totals = Totals(totalIncome: int, totalExpense: int, totalProfit: int)

  /** `t.date <= today`: the row has already happened. */
  function PastOf(today: Date): Transaction -> bool {
    (t: Transaction) => NotAfter(t.date, today)
  }

  /** `t.date > today`: the row is still to come. */
  function FutureOf(today: Date): Transaction -> bool {
    (t: Transaction) => Before(today, t.date)
  }

  function CalculateTotals(txs: seq<Transaction>, today: Date): (r: Totals)
    ensures r.totalProfit == r.totalIncome - r.totalExpense
  {
    var past := Filter(txs, PastOf(today));
    var income := SumWhere(past, IsIncome);
    var expense := SumWhere(past, IsExpense);
    Totals(income, expense, income - expense)
  }

  /** A row dated after today, wherever it stands in the list, changes no total. */
  lemma FutureRowsNeverCount(a: seq<Transaction>, t: Transaction, b: seq<Transaction>, today: Date)
    requires Before(today, t.date)
    ensures CalculateTotals(a + [t] + b, today) == CalculateTotals(a + b, today)
  {
    var p := PastOf(today);
    FilterAppend(a + [t], b, p);
    FilterAppend(a, [t], p);
    FilterAppend(a, b, p);
    assert Filter([t], p) == [] by {
      assert [t][..0] == [];
    }
    assert Filter(a, p) + [] == Filter(a, p);
  }

  /** A row dated today or earlier adds its amount to the income or the expense total. */
  lemma PastRowCounts(a: seq<Transaction>, t: Transaction, today: Date)
    requires NotAfter(t.date, today)
    ensures var before, after := CalculateTotals(a, today), CalculateTotals(a + [t], today);
      after.totalIncome == before.totalIncome + (if t.kind == INCOME then t.amount else 0)
      && after.totalExpense == before.totalExpense + (if t.kind == EXPENSE then t.amount else 0)
  {
    var p := PastOf(today);
    var past := Filter(a + [t], p);
    assert (a + [t])[..|a|] == a;
    assert past == Filter(a, p) + [t];
    SumWhereStep(past, IsIncome);
    SumWhereStep(past, IsExpense);
    assert past[..|past| - 1] == Filter(a, p);
  }

  // ----- calculateProfitByProject -----

  /** The grouping key: `t.project_id`, where a row without project is the `None` group. */
  function ProjectKey(t: Transaction): Option<string> {
    t.projectId
  }

  /** `t.project?.name || 'Sem projeto'`. */
  function ProjectName(t: Transaction): string {
    if t.project.Some? && t.project.value.name != "" then t.project.value.name else "Sem projeto"
  }

  /** The entry of one project: the name is taken from the first row of the group. */
  function ProjectEntry(s: seq<Transaction>, k: Option<string>): ProjectProfit {
    var income, expense := Income(s, ProjectKey, k), Expense(s, ProjectKey, k);
    var name := match FirstWith(s, ProjectKey, k)
      case Some(t) => ProjectName(t)
      case None => "Sem projeto";
    ProjectProfit(k, name, income, expense, income - expense)
  }

  function ProjectEntryOf(s: seq<Transaction>): Option<string> -> ProjectProfit {
    k => ProjectEntry(s, k)
  }

  function ProfitDescending(e: ProjectProfit): int { -e.profit }

  /** The entries in the order their projects first appear, sorted by descending profit. */
  function ProfitByProject(s: seq<Transaction>): seq<ProjectProfit> {
    SortBy(Map(Keys(s, ProjectKey), ProjectEntryOf(s)), ProfitDescending)
  }

  /** What the source does to a project's entry for one more row. */
  function AddToProjectEntry(e: ProjectProfit, t: Transaction): ProjectProfit {
    var income := if t.kind == INCOME then e.income + t.amount else e.income;
    var expense := if t.kind == INCOME then e.expense else e.expense + t.amount;
    e.(income := income, expense := expense, profit := income - expense)
  }

  lemma ProjectEntryStep(done: seq<Transaction>, t: Transaction, k: Option<string>)
    ensures ProjectEntry(done + [t], k) ==
      if ProjectKey(t) != k then ProjectEntry(done, k)
      else if k in Keys(done, ProjectKey) then AddToProjectEntry(ProjectEntry(done, k), t)
      else AddToProjectEntry(ProjectProfit(k, ProjectName(t), 0, 0, 0), t)
  {
    GroupStep(done, t, ProjectKey, k);
    FirstWithIffKey(done, ProjectKey, k);
    var first := FirstWith(done, ProjectKey, k);
    if ProjectKey(t) == k {
      if first.Some? {
        assert FirstWith(done + [t], ProjectKey, k) == first;
      } else {
        AbsentKeyIsZero(done, ProjectKey, k);
        assert FirstWith(done + [t], ProjectKey, k) == Some(t);
      }
    }
  }

  /** The project map with an empty entry opened for the row's project if it has none. */
  function OpenProject(m: map<Option<string>, ProjectProfit>, t: Transaction): map<Option<string>, ProjectProfit> {
    if t.projectId in m then m else m[t.projectId := ProjectProfit(t.projectId, ProjectName(t), 0, 0, 0)]
  }

  /** The map the source's loop has built after the rows `s`. */
  function ProjectTallied(s: seq<Transaction>): map<Option<string>, ProjectProfit> {
    if s == [] then map[]
    else
      var t := s[|s| - 1];
      var m := OpenProject(ProjectTallied(s[..|s| - 1]), t);
      m[t.projectId := AddToProjectEntry(m[t.projectId], t)]
  }

  lemma ProjectTalliedStep(p: seq<Transaction>, t: Transaction)
    ensures var m := OpenProject(ProjectTallied(p), t);
      ProjectTallied(p + [t]) == m[t.projectId := AddToProjectEntry(m[t.projectId], t)]
  {
    assert (p + [t])[..|p|] == p;
  }

  lemma {:induction false} ProjectTalliedDomain(s: seq<Transaction>, k: Option<string>)
    ensures k in ProjectTallied(s) <==> k in Keys(s, ProjectKey)
    decreases |s|
  {
    if s != [] {
      var p, t := s[..|s| - 1], s[|s| - 1];
      ProjectTalliedDomain(p, k);
      KeysStep(p, t, ProjectKey);
      assert p + [t] == s;
    }
  }

  lemma {:induction false} ProjectTalliedEntry(s: seq<Transaction>, k: Option<string>)
    requires k in ProjectTallied(s)
    ensures ProjectTallied(s)[k] == ProjectEntry(s, k)
    decreases |s|
  {
    var p, t := s[..|s| - 1], s[|s| - 1];
    assert p + [t] == s;
    ProjectEntryStep(p, t, k);
    ProjectTalliedDomain(p, k);
    if k in ProjectTallied(p) {
      ProjectTalliedEntry(p, k);
    }
  }

  /** Every project the loop listed has its entry in the loop's map. */
  lemma ProjectTalliedOrder(s: seq<Transaction>)
    ensures var m, ks := ProjectTallied(s), Keys(s, ProjectKey);
      forall j :: 0 <= j < |ks| ==> ks[j] in m && m[ks[j]] == ProjectEntry(s, ks[j])
  {
    var ks := Keys(s, ProjectKey);
    forall j | 0 <= j < |ks|
      ensures ks[j] in ProjectTallied(s) && ProjectTallied(s)[ks[j]] == ProjectEntry(s, ks[j])
    {
      ProjectTalliedDomain(s, ks[j]);
      ProjectTalliedEntry(s, ks[j]);
    }
  }

  /** What the loop's next row does to its map and to its list of projects. */
  lemma ProjectLoopStep(txs: seq<Transaction>, i: nat)
    requires i < |txs|
    ensures var m, t := OpenProject(ProjectTallied(txs[..i]), txs[i]), txs[i];
      && ProjectTallied(txs[..i + 1]) == m[t.projectId := AddToProjectEntry(m[t.projectId], t)]
      && Keys(txs[..i + 1], ProjectKey) ==
           if t.projectId in ProjectTallied(txs[..i]) then Keys(txs[..i], ProjectKey) else Keys(txs[..i], ProjectKey) + [t.projectId]
  {
    var t := txs[i];
    assert txs[..i + 1] == txs[..i] + [t];
    KeysStep(txs[..i], t, ProjectKey);
    ProjectTalliedDomain(txs[..i], t.projectId);
    ProjectTalliedStep(txs[..i], t);
  }

  /** The source's `forEach` over the rows, filling the project map. */
  method TallyProjects(txs: seq<Transaction>) returns (entries: map<Option<string>, ProjectProfit>, order: seq<Option<string>>)
    ensures entries == ProjectTallied(txs)
    ensures order == Keys(txs, ProjectKey)
  {
    entries := map[];
    order := [];
    for i := 0 to |txs|
      invariant entries == ProjectTallied(txs[..i])
      invariant order == Keys(txs[..i], ProjectKey)
    {
      var t := txs[i];
      ProjectLoopStep(txs, i);
      var projectId := t.projectId;
      if projectId !in entries {
        entries := entries[projectId := ProjectProfit(projectId, ProjectName(t), 0, 0, 0)];
        order := order + [projectId];
      }
      var entry := entries[projectId];
      if t.kind == INCOME {
        entry := entry.(income := entry.income + t.amount);
      } else {
        entry := entry.(expense := entry.expense + t.amount);
      }
      entry := entry.(profit := entry.income - entry.expense);
      assert entry == AddToProjectEntry(entries[projectId], t);
      entries := entries[projectId := entry];
    }
    assert txs[..|txs|] == txs;
  }

  method CalculateProfitByProject(txs: seq<Transaction>) returns (r: seq<ProjectProfit>)
    ensures r == ProfitByProject(txs)
  {
    var entries, order := TallyProjects(txs);
    ProjectTalliedOrder(txs);
    var values := MapValues(order, entries, ProjectEntryOf(txs));
    r := SortBy(values, ProfitDescending);
  }

  function ProjectIdOf(e: ProjectProfit): Option<string> { e.projectId }
  function IncomeField(e: ProjectProfit): int { e.income }
  function ExpenseField(e: ProjectProfit): int { e.expense }

  /** No two entries share a `project_id`. */
  lemma ProfitByProjectDistinct(s: seq<Transaction>)
    ensures DistinctBy(ProfitByProject(s), ProjectIdOf)
  {
    var ks := Keys(s, ProjectKey);
    var m := Map(ks, ProjectEntryOf(s));
    assert DistinctBy(m, ProjectIdOf) by {
      forall i, j | 0 <= i < j < |m|
        ensures ProjectIdOf(m[i]) != ProjectIdOf(m[j])
      {
        assert m[i].projectId == ks[i] && m[j].projectId == ks[j];
      }
    }
    PermutationKeepsDistinct(m, ProfitByProject(s), ProjectIdOf);
  }

  /** Some entry of `r` is the one of project `id`. */
  predicate HasProjectEntry(r: seq<ProjectProfit>, id: Option<string>) {
    exists j :: 0 <= j < |r| && r[j].projectId == id
  }

  /** Some row of `s` belongs to project `id`. */
  predicate HasProjectRow(s: seq<Transaction>, id: Option<string>) {
    exists i :: 0 <= i < |s| && s[i].projectId == id
  }

  lemma ProjectIdHasEntry(s: seq<Transaction>, i: nat)
    requires i < |s|
    ensures HasProjectEntry(ProfitByProject(s), s[i].projectId)
  {
    var ks := Keys(s, ProjectKey);
    KeyListed(s, ProjectKey, i);
    var x :| 0 <= x < |ks| && ks[x] == ProjectKey(s[i]);
    MapSortKeeps(ks, ProjectEntryOf(s), ProfitDescending, x);
    var j :| 0 <= j < |ProfitByProject(s)| && ProfitByProject(s)[j] == ProjectEntry(s, ks[x]);
    assert ProfitByProject(s)[j].projectId == s[i].projectId;
  }

  /** Every `project_id` of the input has an entry. */
  lemma ProfitByProjectCoversInput(s: seq<Transaction>)
    ensures forall i :: 0 <= i < |s| ==> HasProjectEntry(ProfitByProject(s), s[i].projectId)
  {
    forall i | 0 <= i < |s|
      ensures HasProjectEntry(ProfitByProject(s), s[i].projectId)
    {
      ProjectIdHasEntry(s, i);
    }
  }

  lemma EntryIdFromInput(s: seq<Transaction>, j: nat)
    requires j < |ProfitByProject(s)|
    ensures HasProjectRow(s, ProfitByProject(s)[j].projectId)
  {
    var ks := Keys(s, ProjectKey);
    MapSortFrom(ks, ProjectEntryOf(s), ProfitDescending, j);
    var x :| 0 <= x < |ks| && ProfitByProject(s)[j] == ProjectEntry(s, ks[x]);
    KeyWitness(s, ProjectKey, x);
    var i :| 0 <= i < |s| && ProjectKey(s[i]) == ks[x];
    assert s[i].projectId == ProfitByProject(s)[j].projectId;
  }

  /** Every entry's `project_id` occurs in the input. */
  lemma ProfitByProjectOnlyInputIds(s: seq<Transaction>)
    ensures forall j :: 0 <= j < |ProfitByProject(s)| ==> HasProjectRow(s, ProfitByProject(s)[j].projectId)
  {
    forall j | 0 <= j < |ProfitByProject(s)|
      ensures HasProjectRow(s, ProfitByProject(s)[j].projectId)
    {
      EntryIdFromInput(s, j);
    }
  }

  /**
   * Every entry holds the income and the expense of its project's rows
   * (any row that is not INCOME counts as expense) and their difference as
   * profit; the entries run from the highest profit to the lowest.
   */
  lemma ProfitByProjectEntries(s: seq<Transaction>)
    ensures var r := ProfitByProject(s);
      && (forall j :: 0 <= j < |r| ==>
            && r[j].income == Income(s, ProjectKey, r[j].projectId)
            && r[j].expense == Expense(s, ProjectKey, r[j].projectId)
            && r[j].profit == r[j].income - r[j].expense)
      && (forall i, j :: 0 <= i < j < |r| ==> r[i].profit >= r[j].profit)
  {
    var m := Map(Keys(s, ProjectKey), ProjectEntryOf(s));
    var r := ProfitByProject(s);
    forall j | 0 <= j < |r|
      ensures r[j] == ProjectEntry(s, r[j].projectId)
    {
      SortByFrom(m, ProfitDescending, j);
    }
  }

  /** The incomes of the entries add up to all INCOME amounts, and the expenses to all others. */
  lemma ProfitByProjectConserves(s: seq<Transaction>)
    ensures SumOf(ProfitByProject(s), IncomeField) == SumWhere(s, IsIncome)
    ensures SumOf(ProfitByProject(s), ExpenseField) == SumWhere(s, IsExpense)
  {
    var ks := Keys(s, ProjectKey);
    var m := Map(ks, ProjectEntryOf(s));
    SumOfPermutation(ProfitByProject(s), m, IncomeField);
    SumOfPermutation(ProfitByProject(s), m, ExpenseField);
    SumOfMap(ks, ProjectEntryOf(s), IncomeField, IncomeOf(s, ProjectKey));
    SumOfMap(ks, ProjectEntryOf(s), ExpenseField, ExpenseOf(s, ProjectKey));
    GroupIncomeSum(s, ProjectKey);
    GroupExpenseSum(s, ProjectKey);
  }

  // ----- calculateMonthlyData -----

  /** `t.date.substring(0, 7)`: the year and month of the row. */
  function MonthKey(t: Transaction): YearMonth {
    YearMonth(t.date.year, t.date.month)
  }

  /** The entry of one month over the rows `s`. */
  function MonthEntry(s: seq<Transaction>, k: YearMonth): MonthlyData {
    var income, expense := Income(s, MonthKey, k), Expense(s, MonthKey, k);
    MonthlyData(k, income, expense, income - expense)
  }

  function MonthEntryOf(s: seq<Transaction>): YearMonth -> MonthlyData {
    k => MonthEntry(s, k)
  }

  /** The sort key standing for the `YYYY-MM` string order. */
  function MonthOrder(e: MonthlyData): int {
    MonthOrdinal(e.month.year, e.month.month)
  }

  /** One entry per month met, ascending by month. */
  function MonthlyDataOf(s: seq<Transaction>): seq<MonthlyData> {
    SortBy(Map(Keys(s, MonthKey), MonthEntryOf(s)), MonthOrder)
  }

  /** What the source does to a month's entry for one more row. */
  function AddToMonthEntry(e: MonthlyData, t: Transaction): MonthlyData {
    var income := if t.kind == INCOME then e.income + t.amount else e.income;
    var expense := if t.kind == INCOME then e.expense else e.expense + t.amount;
    e.(income := income, expense := expense, profit := income - expense)
  }

  /** The month map with an empty entry opened for the row's month if it has none. */
  function OpenMonth(m: map<YearMonth, MonthlyData>, t: Transaction): map<YearMonth, MonthlyData> {
    if MonthKey(t) in m then m else m[MonthKey(t) := MonthlyData(MonthKey(t), 0, 0, 0)]
  }

  /** The map the source's loop has built after the rows `s`. */
  function MonthTallied(s: seq<Transaction>): map<YearMonth, MonthlyData> {
    if s == [] then map[]
    else
      var t := s[|s| - 1];
      var m := OpenMonth(MonthTallied(s[..|s| - 1]), t);
      m[MonthKey(t) := AddToMonthEntry(m[MonthKey(t)], t)]
  }

  lemma {:induction false} MonthTalliedDomain(s: seq<Transaction>, k: YearMonth)
    ensures k in MonthTallied(s) <==> k in Keys(s, MonthKey)
    decreases |s|
  {
    if s != [] {
      var p, t := s[..|s| - 1], s[|s| - 1];
      MonthTalliedDomain(p, k);
      KeysStep(p, t, MonthKey);
      assert p + [t] == s;
    }
  }

  lemma {:induction false} MonthTalliedEntry(s: seq<Transaction>, k: YearMonth)
    requires k in MonthTallied(s)
    ensures MonthTallied(s)[k] == MonthEntry(s, k)
    decreases |s|
  {
    var p, t := s[..|s| - 1], s[|s| - 1];
    assert p + [t] == s;
    GroupStep(p, t, MonthKey, k);
    MonthTalliedDomain(p, k);
    if k in MonthTallied(p) {
      MonthTalliedEntry(p, k);
    } else {
      AbsentKeyIsZero(p, MonthKey, k);
    }
  }

  /** Every month the loop listed has its entry in the loop's map. */
  lemma MonthTalliedOrder(s: seq<Transaction>)
    ensures var m, ks := MonthTallied(s), Keys(s, MonthKey);
      forall j :: 0 <= j < |ks| ==> ks[j] in m && m[ks[j]] == MonthEntry(s, ks[j])
  {
    var ks := Keys(s, MonthKey);
    forall j | 0 <= j < |ks|
      ensures ks[j] in MonthTallied(s) && MonthTallied(s)[ks[j]] == MonthEntry(s, ks[j])
    {
      MonthTalliedDomain(s, ks[j]);
      MonthTalliedEntry(s, ks[j]);
    }
  }

  lemma MonthTalliedStep(p: seq<Transaction>, t: Transaction)
    ensures var m := OpenMonth(MonthTallied(p), t);
      MonthTallied(p + [t]) == m[MonthKey(t) := AddToMonthEntry(m[MonthKey(t)], t)]
  {
    assert (p + [t])[..|p|] == p;
  }

  /** What the loop's next row does to its map and to its list of months. */
  lemma MonthLoopStep(txs: seq<Transaction>, i: nat)
    requires i < |txs|
    ensures var m, t := OpenMonth(MonthTallied(txs[..i]), txs[i]), txs[i];
      && MonthTallied(txs[..i + 1]) == m[MonthKey(t) := AddToMonthEntry(m[MonthKey(t)], t)]
      && Keys(txs[..i + 1], MonthKey) ==
           if MonthKey(t) in MonthTallied(txs[..i]) then Keys(txs[..i], MonthKey) else Keys(txs[..i], MonthKey) + [MonthKey(t)]
  {
    var t := txs[i];
    assert txs[..i + 1] == txs[..i] + [t];
    KeysStep(txs[..i], t, MonthKey);
    MonthTalliedDomain(txs[..i], MonthKey(t));
    MonthTalliedStep(txs[..i], t);
  }

  /** The source's `forEach` over the rows, filling the month map. */
  method TallyMonths(txs: seq<Transaction>) returns (entries: map<YearMonth, MonthlyData>, order: seq<YearMonth>)
    ensures entries == MonthTallied(txs)
    ensures order == Keys(txs, MonthKey)
  {
    entries := map[];
    order := [];
    for i := 0 to |txs|
      invariant entries == MonthTallied(txs[..i])
      invariant order == Keys(txs[..i], MonthKey)
    {
      var t := txs[i];
      MonthLoopStep(txs, i);
      var month := MonthKey(t);
      if month !in entries {
        entries := entries[month := MonthlyData(month, 0, 0, 0)];
        order := order + [month];
      }
      var entry := entries[month];
      if t.kind == INCOME {
        entry := entry.(income := entry.income + t.amount);
      } else {
        entry := entry.(expense := entry.expense + t.amount);
      }
      entry := entry.(profit := entry.income - entry.expense);
      assert entry == AddToMonthEntry(entries[month], t);
      entries := entries[month := entry];
    }
    assert txs[..|txs|] == txs;
  }

  method CalculateMonthlyData(txs: seq<Transaction>) returns (r: seq<MonthlyData>)
    ensures r == MonthlyDataOf(txs)
  {
    var entries, order := TallyMonths(txs);
    MonthTalliedOrder(txs);
    var values := MapValues(order, entries, MonthEntryOf(txs));
    r := SortBy(values, MonthOrder);
  }

  function MonthOf(e: MonthlyData): YearMonth { e.month }
  function MonthIncome(e: MonthlyData): int { e.income }
  function MonthExpense(e: MonthlyData): int { e.expense }

  /** Every entry holds its month's income, its expense and their difference. */
  lemma MonthlyDataEntries(s: seq<Transaction>)
    ensures var r := MonthlyDataOf(s);
      forall j :: 0 <= j < |r| ==> r[j] == MonthEntry(s, r[j].month)
  {
    var m := Map(Keys(s, MonthKey), MonthEntryOf(s));
    var r := MonthlyDataOf(s);
    forall j | 0 <= j < |r|
      ensures r[j] == MonthEntry(s, r[j].month)
    {
      SortByFrom(m, MonthOrder, j);
    }
  }

  /** Some entry of `r` is the one of month `k`. */
  predicate HasMonthEntry(r: seq<MonthlyData>, k: YearMonth) {
    exists j :: 0 <= j < |r| && r[j].month == k
  }

  /** Some row of `s` falls in month `k`. */
  predicate HasMonthRow(s: seq<Transaction>, k: YearMonth) {
    exists i :: 0 <= i < |s| && MonthKey(s[i]) == k
  }

  lemma EntryMonthFromInput(s: seq<Transaction>, j: nat)
    requires j < |MonthlyDataOf(s)|
    ensures HasMonthRow(s, MonthlyDataOf(s)[j].month)
  {
    var ks := Keys(s, MonthKey);
    MapSortFrom(ks, MonthEntryOf(s), MonthOrder, j);
    var x :| 0 <= x < |ks| && MonthlyDataOf(s)[j] == MonthEntry(s, ks[x]);
    KeyWitness(s, MonthKey, x);
    var i :| 0 <= i < |s| && MonthKey(s[i]) == ks[x];
    assert MonthKey(s[i]) == MonthlyDataOf(s)[j].month;
  }

  /** Every entry's month is the month of some row. */
  lemma MonthlyDataOnlyInputMonths(s: seq<Transaction>)
    ensures forall j :: 0 <= j < |MonthlyDataOf(s)| ==> HasMonthRow(s, MonthlyDataOf(s)[j].month)
  {
    forall j | 0 <= j < |MonthlyDataOf(s)|
      ensures HasMonthRow(s, MonthlyDataOf(s)[j].month)
    {
      EntryMonthFromInput(s, j);
    }
  }

  lemma MonthHasEntry(s: seq<Transaction>, i: nat)
    requires i < |s|
    ensures HasMonthEntry(MonthlyDataOf(s), MonthKey(s[i]))
  {
    var ks := Keys(s, MonthKey);
    KeyListed(s, MonthKey, i);
    var x :| 0 <= x < |ks| && ks[x] == MonthKey(s[i]);
    MapSortKeeps(ks, MonthEntryOf(s), MonthOrder, x);
    var j :| 0 <= j < |MonthlyDataOf(s)| && MonthlyDataOf(s)[j] == MonthEntry(s, ks[x]);
    assert MonthlyDataOf(s)[j].month == MonthKey(s[i]);
  }

  /** The month of every row has an entry. */
  lemma MonthlyDataCoversInput(s: seq<Transaction>)
    ensures forall i :: 0 <= i < |s| ==> HasMonthEntry(MonthlyDataOf(s), MonthKey(s[i]))
  {
    forall i | 0 <= i < |s|
      ensures HasMonthEntry(MonthlyDataOf(s), MonthKey(s[i]))
    {
      MonthHasEntry(s, i);
    }
  }

  /** For rows with valid months, each month appears once and the months strictly ascend. */
  lemma MonthlyDataAscending(s: seq<Transaction>)
    requires forall i :: 0 <= i < |s| ==> 1 <= s[i].date.month <= 12
    ensures var r := MonthlyDataOf(s);
      forall i, j :: 0 <= i < j < |r| ==> MonthOrder(r[i]) < MonthOrder(r[j])
  {
    var ks := Keys(s, MonthKey);
    var m := Map(ks, MonthEntryOf(s));
    var r := MonthlyDataOf(s);
    MonthlyDataOnlyInputMonths(s);
    assert DistinctBy(m, MonthOf) by {
      forall i, j | 0 <= i < j < |m|
        ensures MonthOf(m[i]) != MonthOf(m[j])
      {
        assert m[i].month == ks[i] && m[j].month == ks[j];
      }
    }
    PermutationKeepsDistinct(m, r, MonthOf);
    forall i, j | 0 <= i < j < |r|
      ensures MonthOrder(r[i]) != MonthOrder(r[j])
    {
      assert MonthOf(r[i]) != MonthOf(r[j]);
      assert 1 <= r[i].month.month <= 12 && 1 <= r[j].month.month <= 12;
    }
    SortedKeysDistinctStrict(r, MonthOrder);
  }

  /** The monthly incomes add up to all INCOME amounts, and the expenses to all others. */
  lemma MonthlyDataConserves(s: seq<Transaction>)
    ensures SumOf(MonthlyDataOf(s), MonthIncome) == SumWhere(s, IsIncome)
    ensures SumOf(MonthlyDataOf(s), MonthExpense) == SumWhere(s, IsExpense)
  {
    var ks := Keys(s, MonthKey);
    var m := Map(ks, MonthEntryOf(s));
    SumOfPermutation(MonthlyDataOf(s), m, MonthIncome);
    SumOfPermutation(MonthlyDataOf(s), m, MonthExpense);
    SumOfMap(ks, MonthEntryOf(s), MonthIncome, IncomeOf(s, MonthKey));
    SumOfMap(ks, MonthEntryOf(s), MonthExpense, ExpenseOf(s, MonthKey));
    GroupIncomeSum(s, MonthKey);
    GroupExpenseSum(s, MonthKey);
  }

  // ----- calculateExpenseByCategory -----

  /** `t.category?.name || 'Sem categoria'`. */
  function CategoryKey(t: Transaction): string {
    if t.category.Some? && t.category.value.name != "" then t.category.value.name else "Sem categoria"
  }

  /** The EXPENSE rows. */
  function Expenses(s: seq<Transaction>): seq<Transaction> {
    Filter(s, IsExpense)
  }

  /** `total > 0 ? (value / total) * 100 : 0`. */
  function Percentage(value: int, total: int): real {
    if total > 0 then (value as real / total as real) * 100.0 else 0.0
  }

  /** The entry of one category over the expense rows `e` whose amounts add up to `total`. */
  function CategoryEntry(e: seq<Transaction>, total: int, k: string): CategoryDistribution {
    var value := Expense(e, CategoryKey, k);
    CategoryDistribution(k, value, Percentage(value, total))
  }

  function CategoryEntryOf(e: seq<Transaction>, total: int): string -> CategoryDistribution {
    k => CategoryEntry(e, total, k)
  }

  function ValueDescending(c: CategoryDistribution): int { -c.value }

  /** One entry per category of the expense rows, from the largest amount to the smallest. */
  function ExpenseByCategory(s: seq<Transaction>): seq<CategoryDistribution> {
    var e := Expenses(s);
    SortBy(Map(Keys(e, CategoryKey), CategoryEntryOf(e, SumOf(e, Amount))), ValueDescending)
  }

  /** The map the source's loop has built after the rows `s`: the summed amount per category. */
  function CategoryTallied(s: seq<Transaction>): map<string, int> {
    if s == [] then map[]
    else
      var t := s[|s| - 1];
      var m := CategoryTallied(s[..|s| - 1]);
      var k := CategoryKey(t);
      m[k := (if k in m then m[k] else 0) + t.amount]
  }

  lemma {:induction false} CategoryTalliedDomain(s: seq<Transaction>, k: string)
    ensures k in CategoryTallied(s) <==> k in Keys(s, CategoryKey)
    decreases |s|
  {
    if s != [] {
      var p, t := s[..|s| - 1], s[|s| - 1];
      CategoryTalliedDomain(p, k);
      KeysStep(p, t, CategoryKey);
      assert p + [t] == s;
    }
  }

  /** Over expense rows, the loop's map holds each category's summed amount. */
  lemma {:induction false} CategoryTalliedEntry(s: seq<Transaction>, k: string)
    requires forall i :: 0 <= i < |s| ==> s[i].kind == EXPENSE
    requires k in CategoryTallied(s)
    ensures CategoryTallied(s)[k] == Expense(s, CategoryKey, k)
    decreases |s|
  {
    var p, t := s[..|s| - 1], s[|s| - 1];
    assert p + [t] == s;
    GroupStep(p, t, CategoryKey, k);
    CategoryTalliedDomain(p, k);
    if k in CategoryTallied(p) {
      CategoryTalliedEntry(p, k);
    } else {
      AbsentKeyIsZero(p, CategoryKey, k);
    }
  }

  /** What the loop's next row does to its map and to its list of categories. */
  lemma CategoryLoopStep(e: seq<Transaction>, i: nat)
    requires i < |e|
    ensures var m, k := CategoryTallied(e[..i]), CategoryKey(e[i]);
      && CategoryTallied(e[..i + 1]) == m[k := (if k in m then m[k] else 0) + e[i].amount]
      && Keys(e[..i + 1], CategoryKey) == if k in m then Keys(e[..i], CategoryKey) else Keys(e[..i], CategoryKey) + [k]
  {
    var t := e[i];
    assert e[..i + 1] == e[..i] + [t];
    assert (e[..i] + [t])[..i] == e[..i];
    KeysStep(e[..i], t, CategoryKey);
    CategoryTalliedDomain(e[..i], CategoryKey(t));
  }

  /** Every category the loop listed has its summed amount in the loop's map. */
  lemma CategoryTalliedOrder(e: seq<Transaction>)
    requires forall i :: 0 <= i < |e| ==> e[i].kind == EXPENSE
    ensures var m, ks := CategoryTallied(e), Keys(e, CategoryKey);
      forall j :: 0 <= j < |ks| ==> ks[j] in m && m[ks[j]] == Expense(e, CategoryKey, ks[j])
  {
    var ks := Keys(e, CategoryKey);
    forall j | 0 <= j < |ks|
      ensures ks[j] in CategoryTallied(e) && CategoryTallied(e)[ks[j]] == Expense(e, CategoryKey, ks[j])
    {
      CategoryTalliedDomain(e, ks[j]);
      CategoryTalliedEntry(e, ks[j]);
    }
  }

  /** The source's `forEach` over the expense rows, filling the category map. */
  method TallyCategories(e: seq<Transaction>) returns (values: map<string, int>, order: seq<string>)
    ensures values == CategoryTallied(e)
    ensures order == Keys(e, CategoryKey)
  {
    values := map[];
    order := [];
    for i := 0 to |e|
      invariant values == CategoryTallied(e[..i])
      invariant order == Keys(e[..i], CategoryKey)
    {
      var t := e[i];
      CategoryLoopStep(e, i);
      var name := CategoryKey(t);
      if name !in values {
        order := order + [name];
      }
      values := values[name := (if name in values then values[name] else 0) + t.amount];
    }
    assert e[..|e|] == e;
  }

  method CalculateExpenseByCategory(txs: seq<Transaction>) returns (r: seq<CategoryDistribution>)
    ensures r == ExpenseByCategory(txs)
  {
    var expenses := Filter(txs, IsExpense);
    var total := SumOf(expenses, Amount);
    var values, order := TallyCategories(expenses);
    CategoryTalliedOrder(expenses);
    var rows: seq<CategoryDistribution> := [];
    for j := 0 to |order|
      invariant rows == Map(order[..j], CategoryEntryOf(expenses, total))
    {
      assert order[..j + 1][..j] == order[..j];
      var name := order[j];
      var value := values[name];
      var percentage := if total > 0 then (value as real / total as real) * 100.0 else 0.0;
      rows := rows + [CategoryDistribution(name, value, percentage)];
    }
    assert order[..|order|] == order;
    r := SortBy(rows, ValueDescending);
  }

  function CategoryValue(c: CategoryDistribution): int { c.value }
  function CategoryShare(c: CategoryDistribution): real { c.percentage }
  function CategoryName(c: CategoryDistribution): string { c.name }

  /** The sum of all EXPENSE amounts, as the source's `total`. */
  function ExpenseTotal(s: seq<Transaction>): int {
    SumOf(Expenses(s), Amount)
  }

  /**
   * Every entry holds the summed amount of its category's EXPENSE rows and
   * that amount's share of all expenses; the entries run from the largest
   * amount to the smallest.
   */
  lemma ExpenseByCategoryEntries(s: seq<Transaction>)
    ensures var r := ExpenseByCategory(s);
      && (forall j :: 0 <= j < |r| ==>
            && r[j].value == Expense(Expenses(s), CategoryKey, r[j].name)
            && r[j].percentage == Percentage(r[j].value, ExpenseTotal(s)))
      && (forall i, j :: 0 <= i < j < |r| ==> r[i].value >= r[j].value)
  {
    var e := Expenses(s);
    var ks := Keys(e, CategoryKey);
    var r := ExpenseByCategory(s);
    forall j | 0 <= j < |r|
      ensures r[j] == CategoryEntry(e, ExpenseTotal(s), r[j].name)
    {
      MapSortFrom(ks, CategoryEntryOf(e, ExpenseTotal(s)), ValueDescending, j);
    }
  }

  /** Every category named in the result is the category of some EXPENSE row. */
  lemma ExpenseByCategoryOnlyExpenses(s: seq<Transaction>, j: nat)
    requires j < |ExpenseByCategory(s)|
    ensures exists i :: 0 <= i < |s| && s[i].kind == EXPENSE && CategoryKey(s[i]) == ExpenseByCategory(s)[j].name
  {
    var e := Expenses(s);
    var ks := Keys(e, CategoryKey);
    MapSortFrom(ks, CategoryEntryOf(e, ExpenseTotal(s)), ValueDescending, j);
    var x :| 0 <= x < |ks| && ExpenseByCategory(s)[j] == CategoryEntry(e, ExpenseTotal(s), ks[x]);
    KeyWitness(e, CategoryKey, x);
    var y :| 0 <= y < |e| && CategoryKey(e[y]) == ks[x];
    FilterFrom(s, IsExpense, y);
    var i :| 0 <= i < |s| && s[i] == e[y] && IsExpense(s[i]);
  }

  /** The category of every EXPENSE row has an entry. */
  lemma ExpenseByCategoryCoversExpenses(s: seq<Transaction>, i: nat)
    requires i < |s| && s[i].kind == EXPENSE
    ensures exists j :: 0 <= j < |ExpenseByCategory(s)| && ExpenseByCategory(s)[j].name == CategoryKey(s[i])
  {
    var e := Expenses(s);
    var ks := Keys(e, CategoryKey);
    FilterKeeps(s, IsExpense, i);
    var y :| 0 <= y < |e| && e[y] == s[i];
    KeyListed(e, CategoryKey, y);
    var x :| 0 <= x < |ks| && ks[x] == CategoryKey(e[y]);
    MapSortKeeps(ks, CategoryEntryOf(e, ExpenseTotal(s)), ValueDescending, x);
    var j :| 0 <= j < |ExpenseByCategory(s)| && ExpenseByCategory(s)[j] == CategoryEntry(e, ExpenseTotal(s), ks[x]);
    assert ExpenseByCategory(s)[j].name == CategoryKey(s[i]);
  }

  /** No category appears twice. */
  lemma ExpenseByCategoryDistinct(s: seq<Transaction>)
    ensures DistinctBy(ExpenseByCategory(s), CategoryName)
  {
    var e := Expenses(s);
    var ks := Keys(e, CategoryKey);
    var m := Map(ks, CategoryEntryOf(e, ExpenseTotal(s)));
    assert DistinctBy(m, CategoryName) by {
      forall i, j | 0 <= i < j < |m|
        ensures CategoryName(m[i]) != CategoryName(m[j])
      {
        assert m[i].name == ks[i] && m[j].name == ks[j];
      }
    }
    PermutationKeepsDistinct(m, ExpenseByCategory(s), CategoryName);
  }

  lemma {:induction false} FilterAll<T>(s: seq<T>, p: T -> bool)
    requires forall i :: 0 <= i < |s| ==> p(s[i])
    ensures Filter(s, p) == s
    decreases |s|
  {
    if s != [] {
      FilterAll(s[..|s| - 1], p);
    }
  }

  /** The category amounts add up to the sum of all EXPENSE amounts. */
  lemma ExpenseByCategoryConserves(s: seq<Transaction>)
    ensures SumOf(ExpenseByCategory(s), CategoryValue) == ExpenseTotal(s)
  {
    var e := Expenses(s);
    var ks := Keys(e, CategoryKey);
    var f := CategoryEntryOf(e, ExpenseTotal(s));
    SumOfPermutation(ExpenseByCategory(s), Map(ks, f), CategoryValue);
    SumOfMap(ks, f, CategoryValue, ExpenseOf(e, CategoryKey));
    GroupExpenseSum(e, CategoryKey);
    FilterAll(e, IsExpense);
  }

  /**
   * When the expenses add up to more than zero the shares add up to 100;
   * otherwise every share is 0.
   */
  lemma ExpenseByCategoryShares(s: seq<Transaction>)
    ensures ExpenseTotal(s) > 0 ==> SumOfReal(ExpenseByCategory(s), CategoryShare) == 100.0
    ensures ExpenseTotal(s) <= 0 ==> forall j :: 0 <= j < |ExpenseByCategory(s)| ==> ExpenseByCategory(s)[j].percentage == 0.0
  {
    var total := ExpenseTotal(s);
    ExpenseByCategoryEntries(s);
    if total > 0 {
      SumOfShares(ExpenseByCategory(s), CategoryValue, CategoryShare, total as real);
      ExpenseByCategoryConserves(s);
      assert (total as real / total as real) * 100.0 == 100.0;
    }
  }

  // ----- calculateForecast -----

  /** The rows dated after today. */
  function FutureRows(s: seq<Transaction>, today: Date): seq<Transaction> {
    Filter(s, FutureOf(today))
  }

  /** The forecast entry of one month over the future rows `f`. */
  function ForecastEntry(f: seq<Transaction>, k: YearMonth): ForecastData {
    ForecastData(k, Income(f, MonthKey, k), Expense(f, MonthKey, k))
  }

  function ForecastEntryOf(f: seq<Transaction>): YearMonth -> ForecastData {
    k => ForecastEntry(f, k)
  }

  function ForecastOrder(e: ForecastData): int {
    MonthOrdinal(e.month.year, e.month.month)
  }

  /** One entry per month that has rows after today, ascending by month. */
  function Forecast(s: seq<Transaction>, today: Date): seq<ForecastData> {
    var f := FutureRows(s, today);
    SortBy(Map(Keys(f, MonthKey), ForecastEntryOf(f)), ForecastOrder)
  }

  /** What the source does to a forecast entry for one more row. */
  function AddToForecastEntry(e: ForecastData, t: Transaction): ForecastData {
    if t.kind == INCOME then e.(income := e.income + t.amount) else e.(expense := e.expense + t.amount)
  }

  function OpenForecast(m: map<YearMonth, ForecastData>, t: Transaction): map<YearMonth, ForecastData> {
    if MonthKey(t) in m then m else m[MonthKey(t) := ForecastData(MonthKey(t), 0, 0)]
  }

  /** The map the source's loop has built after the rows `s`. */
  function ForecastTallied(s: seq<Transaction>): map<YearMonth, ForecastData> {
    if s == [] then map[]
    else
      var t := s[|s| - 1];
      var m := OpenForecast(ForecastTallied(s[..|s| - 1]), t);
      m[MonthKey(t) := AddToForecastEntry(m[MonthKey(t)], t)]
  }

  lemma {:induction false} ForecastTalliedDomain(s: seq<Transaction>, k: YearMonth)
    ensures k in ForecastTallied(s) <==> k in Keys(s, MonthKey)
    decreases |s|
  {
    if s != [] {
      var p, t := s[..|s| - 1], s[|s| - 1];
      ForecastTalliedDomain(p, k);
      KeysStep(p, t, MonthKey);
      assert p + [t] == s;
    }
  }

  lemma {:induction false} ForecastTalliedEntry(s: seq<Transaction>, k: YearMonth)
    requires k in ForecastTallied(s)
    ensures ForecastTallied(s)[k] == ForecastEntry(s, k)
    decreases |s|
  {
    var p, t := s[..|s| - 1], s[|s| - 1];
    assert p + [t] == s;
    GroupStep(p, t, MonthKey, k);
    ForecastTalliedDomain(p, k);
    if k in ForecastTallied(p) {
      ForecastTalliedEntry(p, k);
    } else {
      AbsentKeyIsZero(p, MonthKey, k);
    }
  }

  /** Every month the loop listed has its entry in the loop's map. */
  lemma ForecastTalliedOrder(s: seq<Transaction>)
    ensures var m, ks := ForecastTallied(s), Keys(s, MonthKey);
      forall j :: 0 <= j < |ks| ==> ks[j] in m && m[ks[j]] == ForecastEntry(s, ks[j])
  {
    var ks := Keys(s, MonthKey);
    forall j | 0 <= j < |ks|
      ensures ks[j] in ForecastTallied(s) && ForecastTallied(s)[ks[j]] == ForecastEntry(s, ks[j])
    {
      ForecastTalliedDomain(s, ks[j]);
      ForecastTalliedEntry(s, ks[j]);
    }
  }

  /** What the loop's next row does to its map and to its list of months. */
  lemma ForecastLoopStep(f: seq<Transaction>, i: nat)
    requires i < |f|
    ensures var m, t := OpenForecast(ForecastTallied(f[..i]), f[i]), f[i];
      && ForecastTallied(f[..i + 1]) == m[MonthKey(t) := AddToForecastEntry(m[MonthKey(t)], t)]
      && Keys(f[..i + 1], MonthKey) ==
           if MonthKey(t) in ForecastTallied(f[..i]) then Keys(f[..i], MonthKey) else Keys(f[..i], MonthKey) + [MonthKey(t)]
  {
    var t := f[i];
    assert f[..i + 1] == f[..i] + [t];
    assert (f[..i] + [t])[..i] == f[..i];
    KeysStep(f[..i], t, MonthKey);
    ForecastTalliedDomain(f[..i], MonthKey(t));
  }

  /** The source's `forEach` over the future rows, filling the month map. */
  method TallyForecast(f: seq<Transaction>) returns (entries: map<YearMonth, ForecastData>, order: seq<YearMonth>)
    ensures entries == ForecastTallied(f)
    ensures order == Keys(f, MonthKey)
  {
    entries := map[];
    order := [];
    for i := 0 to |f|
      invariant entries == ForecastTallied(f[..i])
      invariant order == Keys(f[..i], MonthKey)
    {
      var t := f[i];
      ForecastLoopStep(f, i);
      var month := MonthKey(t);
      if month !in entries {
        entries := entries[month := ForecastData(month, 0, 0)];
        order := order + [month];
      }
      var entry := entries[month];
      if t.kind == INCOME {
        entry := entry.(income := entry.income + t.amount);
      } else {
        entry := entry.(expense := entry.expense + t.amount);
      }
      assert entry == AddToForecastEntry(entries[month], t);
      entries := entries[month := entry];
    }
    assert f[..|f|] == f;
  }

  method CalculateForecast(txs: seq<Transaction>, today: Date) returns (r: seq<ForecastData>)
    ensures r == Forecast(txs, today)
  {
    var future := Filter(txs, FutureOf(today));
    var entries, order := TallyForecast(future);
    ForecastTalliedOrder(future);
    var values := MapValues(order, entries, ForecastEntryOf(future));
    r := SortBy(values, ForecastOrder);
  }

  function ForecastMonth(e: ForecastData): YearMonth { e.month }
  function ForecastIncome(e: ForecastData): int { e.income }
  function ForecastExpense(e: ForecastData): int { e.expense }

  /** Every forecast entry holds its month's income and expense over the rows after today. */
  lemma ForecastEntries(s: seq<Transaction>, today: Date)
    ensures var r := Forecast(s, today);
      forall j :: 0 <= j < |r| ==> r[j] == ForecastEntry(FutureRows(s, today), r[j].month)
  {
    var f := FutureRows(s, today);
    var r := Forecast(s, today);
    forall j | 0 <= j < |r|
      ensures r[j] == ForecastEntry(f, r[j].month)
    {
      MapSortFrom(Keys(f, MonthKey), ForecastEntryOf(f), ForecastOrder, j);
    }
  }

  /** Some row of `s` dated after `today` falls in month `k`. */
  predicate HasFutureRow(s: seq<Transaction>, today: Date, k: YearMonth) {
    exists i :: 0 <= i < |s| && Before(today, s[i].date) && MonthKey(s[i]) == k
  }

  /** Every forecast month is the month of one of the future rows. */
  lemma ForecastMonthOfFutureRow(s: seq<Transaction>, today: Date, j: nat)
    requires j < |Forecast(s, today)|
    ensures HasMonthRow(FutureRows(s, today), Forecast(s, today)[j].month)
  {
    var f := FutureRows(s, today);
    var ks := Keys(f, MonthKey);
    MapSortFrom(ks, ForecastEntryOf(f), ForecastOrder, j);
    var x :| 0 <= x < |ks| && Forecast(s, today)[j] == ForecastEntry(f, ks[x]);
    KeyWitness(f, MonthKey, x);
    var y :| 0 <= y < |f| && MonthKey(f[y]) == ks[x];
    assert MonthKey(f[y]) == Forecast(s, today)[j].month;
  }

  lemma FutureRowOfInput(s: seq<Transaction>, today: Date, k: YearMonth)
    requires HasMonthRow(FutureRows(s, today), k)
    ensures HasFutureRow(s, today, k)
  {
    var f := FutureRows(s, today);
    var y :| 0 <= y < |f| && MonthKey(f[y]) == k;
    FilterFrom(s, FutureOf(today), y);
    var i :| 0 <= i < |s| && s[i] == f[y] && FutureOf(today)(s[i]);
    assert Before(today, s[i].date) && MonthKey(s[i]) == k;
  }

  /** Every forecast month is the month of a row dated after today. */
  lemma ForecastMonthFromFuture(s: seq<Transaction>, today: Date, j: nat)
    requires j < |Forecast(s, today)|
    ensures HasFutureRow(s, today, Forecast(s, today)[j].month)
  {
    ForecastMonthOfFutureRow(s, today, j);
    FutureRowOfInput(s, today, Forecast(s, today)[j].month);
  }

  /** A row dated after today falls in today's month or a later one. */
  lemma FutureMonthNotEarlier(today: Date, d: Date)
    requires 1 <= today.month <= 12 && 1 <= d.month <= 12
    requires Before(today, d)
    ensures MonthOrdinal(today.year, today.month) <= MonthOrdinal(d.year, d.month)
  {
  }

  /**
   * For valid months: the forecast months strictly ascend and none lies
   * before today's month.
   */
  lemma ForecastMonthsAhead(s: seq<Transaction>, today: Date)
    requires 1 <= today.month <= 12
    requires forall i :: 0 <= i < |s| ==> 1 <= s[i].date.month <= 12
    ensures var r := Forecast(s, today);
      && (forall j :: 0 <= j < |r| ==> MonthOrdinal(today.year, today.month) <= ForecastOrder(r[j]))
      && (forall i, j :: 0 <= i < j < |r| ==> ForecastOrder(r[i]) < ForecastOrder(r[j]))
  {
    var f := FutureRows(s, today);
    var ks := Keys(f, MonthKey);
    var m := Map(ks, ForecastEntryOf(f));
    var r := Forecast(s, today);
    forall j | 0 <= j < |r|
      ensures MonthOrdinal(today.year, today.month) <= ForecastOrder(r[j]) && 1 <= r[j].month.month <= 12
    {
      ForecastMonthFromFuture(s, today, j);
      var i :| 0 <= i < |s| && Before(today, s[i].date) && MonthKey(s[i]) == r[j].month;
      FutureMonthNotEarlier(today, s[i].date);
    }
    assert DistinctBy(m, ForecastMonth) by {
      forall i, j | 0 <= i < j < |m|
        ensures ForecastMonth(m[i]) != ForecastMonth(m[j])
      {
        assert m[i].month == ks[i] && m[j].month == ks[j];
      }
    }
    PermutationKeepsDistinct(m, r, ForecastMonth);
    forall i, j | 0 <= i < j < |r|
      ensures ForecastOrder(r[i]) != ForecastOrder(r[j])
    {
      assert ForecastMonth(r[i]) != ForecastMonth(r[j]);
    }
    SortedKeysDistinctStrict(r, ForecastOrder);
  }

  /** Every row is either already past (`<= today`) or still to come (`> today`), never both. */
  lemma PastOrFuture(today: Date)
    ensures forall t :: FutureOf(today)(t) == !PastOf(today)(t)
  {
  }

  /**
   * The dashboard's totals and its forecast split the rows between them:
   * past income plus forecast income is all income, and likewise for
   * expenses.
   */
  lemma TotalsAndForecastPartition(s: seq<Transaction>, today: Date)
    ensures CalculateTotals(s, today).totalIncome + SumOf(Forecast(s, today), ForecastIncome) == SumWhere(s, IsIncome)
    ensures CalculateTotals(s, today).totalExpense + SumOf(Forecast(s, today), ForecastExpense) == SumWhere(s, IsExpense)
  {
    var f := FutureRows(s, today);
    var ks := Keys(f, MonthKey);
    var m := Map(ks, ForecastEntryOf(f));
    SumOfPermutation(Forecast(s, today), m, ForecastIncome);
    SumOfPermutation(Forecast(s, today), m, ForecastExpense);
    SumOfMap(ks, ForecastEntryOf(f), ForecastIncome, IncomeOf(f, MonthKey));
    SumOfMap(ks, ForecastEntryOf(f), ForecastExpense, ExpenseOf(f, MonthKey));
    GroupIncomeSum(f, MonthKey);
    GroupExpenseSum(f, MonthKey);
    PastOrFuture(today);
    SumWherePartition(s, PastOf(today), FutureOf(today), IsIncome);
    SumWherePartition(s, PastOf(today), FutureOf(today), IsExpense);
  }

  // ----- The order of the rows -----

  /** Every row of `s'` is a row of `s` with a valid month when the rows are the same and `s`'s months are valid. */
  lemma ValidMonthsTransfer(s: seq<Transaction>, s': seq<Transaction>)
    requires multiset(s) == multiset(s')
    requires forall i :: 0 <= i < |s| ==> 1 <= s[i].date.month <= 12
    ensures forall i :: 0 <= i < |s'| ==> 1 <= s'[i].date.month <= 12
  {
    forall i | 0 <= i < |s'|
      ensures 1 <= s'[i].date.month <= 12
    {
      assert s'[i] in multiset(s);
      var j :| 0 <= j < |s| && s[j] == s'[i];
    }
  }

  /** The monthly series does not depend on the order of the rows: the same rows give the same list. */
  lemma MonthlyDataOrderIndependent(s: seq<Transaction>, s': seq<Transaction>)
    requires multiset(s) == multiset(s')
    requires forall i :: 0 <= i < |s| ==> 1 <= s[i].date.month <= 12
    ensures MonthlyDataOf(s) == MonthlyDataOf(s')
  {
    ValidMonthsTransfer(s, s');
    var ks := Keys(s, MonthKey);
    forall j | 0 <= j < |ks|
      ensures MonthEntry(s, ks[j]) == MonthEntry(s', ks[j])
    {
      GroupSumsPermutation(s, s', MonthKey, ks[j]);
    }
    assert Map(ks, MonthEntryOf(s)) == Map(ks, MonthEntryOf(s'));
    KeysPermutation(s, s', MonthKey);
    MapPermutation(ks, Keys(s', MonthKey), MonthEntryOf(s'));
    MonthlyDataAscending(s);
    MonthlyDataAscending(s');
    StrictlySortedUnique(MonthlyDataOf(s), MonthlyDataOf(s'), MonthOrder);
  }

  /** The forecast does not depend on the order of the rows: the same rows give the same list. */
  lemma ForecastOrderIndependent(s: seq<Transaction>, s': seq<Transaction>, today: Date)
    requires multiset(s) == multiset(s')
    requires 1 <= today.month <= 12
    requires forall i :: 0 <= i < |s| ==> 1 <= s[i].date.month <= 12
    ensures Forecast(s, today) == Forecast(s', today)
  {
    ValidMonthsTransfer(s, s');
    var f, f' := FutureRows(s, today), FutureRows(s', today);
    FilterPermutation(s, s', FutureOf(today));
    var ks := Keys(f, MonthKey);
    forall j | 0 <= j < |ks|
      ensures ForecastEntry(f, ks[j]) == ForecastEntry(f', ks[j])
    {
      GroupSumsPermutation(f, f', MonthKey, ks[j]);
    }
    assert Map(ks, ForecastEntryOf(f)) == Map(ks, ForecastEntryOf(f'));
    KeysPermutation(f, f', MonthKey);
    MapPermutation(ks, Keys(f', MonthKey), ForecastEntryOf(f'));
    ForecastMonthsAhead(s, today);
    ForecastMonthsAhead(s', today);
    StrictlySortedUnique(Forecast(s, today), Forecast(s', today), ForecastOrder);
  }

  /**
   * The category distribution does not depend on the order of the rows: the
   * same rows give the same entries, possibly with ties in value listed in
   * another order.
   */
  lemma ExpenseByCategoryOrderIndependent(s: seq<Transaction>, s': seq<Transaction>)
    requires multiset(s) == multiset(s')
    ensures multiset(ExpenseByCategory(s)) == multiset(ExpenseByCategory(s'))
  {
    var e, e' := Expenses(s), Expenses(s');
    FilterPermutation(s, s', IsExpense);
    SumOfPermutation(e, e', Amount);
    var total := SumOf(e, Amount);
    var ks := Keys(e, CategoryKey);
    forall j | 0 <= j < |ks|
      ensures CategoryEntry(e, total, ks[j]) == CategoryEntry(e', total, ks[j])
    {
      GroupSumsPermutation(e, e', CategoryKey, ks[j]);
    }
    assert Map(ks, CategoryEntryOf(e, total)) == Map(ks, CategoryEntryOf(e', total));
    KeysPermutation(e, e', CategoryKey);
    MapPermutation(ks, Keys(e', CategoryKey), CategoryEntryOf(e', total));
  }

  /** Rows of the same project carry the same joined project name, as rows joined on `project_id` do. */
  predicate NamesAgree(s: seq<Transaction>) {
    forall t, u :: t in s && u in s && t.projectId == u.projectId ==> ProjectName(t) == ProjectName(u)
  }

  /** A listed project's entry is the same for the same rows in another order. */
  lemma ProjectEntrySameRows(s: seq<Transaction>, s': seq<Transaction>, k: Option<string>)
    requires multiset(s) == multiset(s')
    requires NamesAgree(s)
    requires k in Keys(s, ProjectKey)
    ensures ProjectEntry(s, k) == ProjectEntry(s', k)
  {
    GroupSumsPermutation(s, s', ProjectKey, k);
    KeyTransfers(s, s', ProjectKey, k);
    FirstWithIffKey(s, ProjectKey, k);
    FirstWithIffKey(s', ProjectKey, k);
    var u := FirstWith(s', ProjectKey, k).value;
    assert u in multiset(s);
  }

  /**
   * When rows of one project carry one name, the profit list does not depend
   * on the order of the rows: the same rows give the same entries, possibly
   * with ties in profit listed in another order.
   */
  lemma ProfitByProjectOrderIndependent(s: seq<Transaction>, s': seq<Transaction>)
    requires multiset(s) == multiset(s')
    requires NamesAgree(s)
    ensures multiset(ProfitByProject(s)) == multiset(ProfitByProject(s'))
  {
    var ks := Keys(s, ProjectKey);
    forall j | 0 <= j < |ks|
      ensures ProjectEntry(s, ks[j]) == ProjectEntry(s', ks[j])
    {
      ProjectEntrySameRows(s, s', ks[j]);
    }
    assert Map(ks, ProjectEntryOf(s)) == Map(ks, ProjectEntryOf(s'));
    KeysPermutation(s, s', ProjectKey);
    MapPermutation(ks, Keys(s', ProjectKey), ProjectEntryOf(s'));
  }

  // ----- cn -----

  /** A `cn` argument is kept when JavaScript reads it as true: a non-empty string. */
  predicate Truthy(c: Option<string>) {
    c.Some? && c.value != ""
  }

  function ClassText(c: Option<string>): string {
    if c.Some? then c.value else ""
  }

  /**
   * `cn(...classes)`: the non-empty class names, in order, separated by one
   * space; `undefined` and `false` arguments are `None`.
   */
  function ClassNames(cs: seq<Option<string>>): string {
    Text.Join(Map(Filter(cs, Truthy), ClassText), " ")
  }

  /** A falsy argument, wherever it stands, changes nothing. */
  lemma ClassNamesSkipsFalsy(a: seq<Option<string>>, c: Option<string>, b: seq<Option<string>>)
    requires !Truthy(c)
    ensures ClassNames(a + [c] + b) == ClassNames(a + b)
  {
    FilterAppend(a + [c], b, Truthy);
    FilterAppend(a, [c], Truthy);
    FilterAppend(a, b, Truthy);
    assert Filter([c], Truthy) == [] by {
      assert [c][..0] == [];
    }
    assert Filter(a, Truthy) + [] == Filter(a, Truthy);
  }

  /** The classes of two argument lists, each with some class, are joined by one space. */
  lemma ClassNamesConcat(a: seq<Option<string>>, b: seq<Option<string>>)
    requires Filter(a, Truthy) != [] && Filter(b, Truthy) != []
    ensures ClassNames(a + b) == ClassNames(a) + " " + ClassNames(b)
  {
    FilterAppend(a, b, Truthy);
    MapAppend(Filter(a, Truthy), Filter(b, Truthy), ClassText);
    Text.JoinAppend(Map(Filter(a, Truthy), ClassText), Map(Filter(b, Truthy), ClassText), " ");
  }

  /** The result is empty exactly when no argument is a non-empty string. */
  lemma ClassNamesEmpty(cs: seq<Option<string>>)
    ensures ClassNames(cs) == "" <==> forall i :: 0 <= i < |cs| ==> !Truthy(cs[i])
  {
    var kept := Filter(cs, Truthy);
    var parts := Map(kept, ClassText);
    if exists i :: 0 <= i < |cs| && Truthy(cs[i]) {
      var i :| 0 <= i < |cs| && Truthy(cs[i]);
      FilterKeeps(cs, Truthy, i);
      Text.JoinLength(parts, " ");
      PartsNonEmpty(parts);
    } else {
      if kept != [] {
        FilterFrom(cs, Truthy, 0);
      }
    }
  }

  /** Non-empty parts have a positive total length. */
  lemma PartsNonEmpty(parts: seq<string>)
    requires parts != []
    requires forall i :: 0 <= i < |parts| ==> parts[i] != ""
    ensures Text.TotalLength(parts) > 0
  {
    assert Text.TotalLength(parts) >= |parts[|parts| - 1]|;
  }
}
