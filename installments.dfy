/**
 * Creating a transaction: either one row, or, when an installment count
 * above 1 is given, one row per installment sharing a group id, each a
 * month after the first, each for the rounded share of the amount.
 *
 * Amounts are integer cents. Dates are civil dates; the database insert,
 * the company lookup and the random group id are inputs here.
 */
module Installments {
  import opened Calendar
  import opened Domain
  import Text
  import Lists

  /** What the form submits. */
  datatype TransactionInput = TransactionInput(
    description: string,
    amount: int,
    date: Date,
    kind: string,
    projectId: Option<string>,
    categoryId: string,
    installments: Option<int>)

  /** A row handed to the insert. */
  datatype NewRow = NewRow(
    description: string,
    amount: int,
    date: Date,
    kind: string,
    projectId: Option<string>,
    categoryId: string,
    companyId: string,
    installmentGroupId: Option<string>,
    installmentNumber: Option<int>,
    totalInstallments: Option<int>)

  /** `project_id || null`: a missing or empty id is stored as null. */
  function StoredProjectId(p: Option<string>): (r: Option<string>)
    ensures r.Some? <==> p.Some? && p.value != ""
    ensures r.Some? ==> r == p
  {
    if p.Some? && p.value != "" then p else None
  }

  /** `installments && installments > 1 ? installments : 1`. */
  function InstallmentCount(installments: Option<int>): (n: int)
    ensures n >= 1
    ensures n > 1 <==> installments.Some? && installments.value > 1
    ensures n > 1 ==> n == installments.value
  {
    if installments.Some? && installments.value > 1 then installments.value else 1
  }

  /**
   * `Math.round((amount / n) * 100) / 100` on an amount of `amount` cents:
   * the share in cents, rounded to the nearest cent with halves going up.
   */
  function RoundedShare(amount: int, n: int): int
    requires n >= 1
  {
    (2 * amount + n) / (2 * n)
  }

  /** The share is within half a cent of the exact quotient: `|n · share − amount| ≤ n / 2`. */
  lemma RoundedShareNearest(amount: int, n: int)
    requires n >= 1
    ensures -n < 2 * (n * RoundedShare(amount, n) - amount) <= n
  {
    var q, m := (2 * amount + n) / (2 * n), (2 * amount + n) % (2 * n);
    assert 2 * amount + n == 2 * n * q + m && 0 <= m < 2 * n;
  }

  /** An amount that divides evenly is split exactly. */
  lemma RoundedShareExact(amount: int, n: int)
    requires n >= 1 && amount % n == 0
    ensures RoundedShare(amount, n) == amount / n
  {
    var k := amount / n;
    var q, m := RoundedShare(amount, n), (2 * amount + n) % (2 * n);
    assert amount == n * k;
    assert 2 * n * q + m == 2 * n * k + n && 0 <= m < 2 * n;
    if q > k {
      MulAtLeast(2 * n, q - k);
    } else if q < k {
      MulAtLeast(2 * n, k - q);
    }
  }

  lemma MulAtLeast(a: int, b: int)
    requires a >= 1 && b >= 1
    ensures a * b >= a
  {
    assert a * b == a * (b - 1) + a;
  }

  /** `"<description> (i/n)"`. */
  function NumberedDescription(description: string, i: int, n: int): string {
    description + " (" + Text.IntToString(i) + "/" + Text.IntToString(n) + ")"
  }

  /** Row `i` (from 0) of a split into `n` installments. */
  function SplitRow(data: TransactionInput, company: string, groupId: string, n: int, i: nat): NewRow
    requires ValidDate(data.date) && n >= 1
  {
    NewRow(
      NumberedDescription(data.description, i + 1, n),
      RoundedShare(data.amount, n),
      AddMonths(data.date, i),
      data.kind,
      StoredProjectId(data.projectId),
      data.categoryId,
      company,
      Some(groupId),
      Some(i + 1),
      Some(n))
  }

  /** The one row of a transaction without installments. */
  function SingleRow(data: TransactionInput, company: string): NewRow {
    NewRow(data.description, data.amount, data.date, data.kind, StoredProjectId(data.projectId),
      data.categoryId, company, None, None, None)
  }

  /** The rows `createTransaction` inserts, or `None` when there is no company to file them under. */
  function Plan(data: TransactionInput, companyId: Option<string>, groupId: string): Option<seq<NewRow>>
    requires ValidDate(data.date)
  {
    if companyId.None? || companyId.value == "" then None
    else
      var n := InstallmentCount(data.installments);
      if n > 1 then Some(seq(n, i requires 0 <= i < n => SplitRow(data, companyId.value, groupId, n, i)))
      else Some([SingleRow(data, companyId.value)])
  }

  /** The row-building part of `createTransaction`, with its `for` loop pushing one row per installment. */
  method BuildRows(data: TransactionInput, companyId: Option<string>, groupId: string) returns (rows: Option<seq<NewRow>>)
    requires ValidDate(data.date)
    ensures rows == Plan(data, companyId, groupId)
  {
    if companyId.None? || companyId.value == "" {
      return None;
    }
    var company := companyId.value;
    var n := InstallmentCount(data.installments);
    if n > 1 {
      var amount := RoundedShare(data.amount, n);
      var acc: seq<NewRow> := [];
      for i := 0 to n
        invariant |acc| == i
        invariant forall j :: 0 <= j < i ==> acc[j] == SplitRow(data, company, groupId, n, j)
      {
        var date := AddMonths(data.date, i);
        acc := acc + [NewRow(
          NumberedDescription(data.description, i + 1, n),
          amount,
          date,
          data.kind,
          StoredProjectId(data.projectId),
          data.categoryId,
          company,
          Some(groupId),
          Some(i + 1),
          Some(n))];
      }
      assert acc == seq(n, i requires 0 <= i < n => SplitRow(data, company, groupId, n, i));
      rows := Some(acc);
    } else {
      rows := Some([SingleRow(data, company)]);
    }
  }

  // ----- What a plan promises -----

  /** Without a company nothing is built. */
  lemma NoCompanyNoRows(data: TransactionInput, companyId: Option<string>, groupId: string)
    requires ValidDate(data.date)
    ensures Plan(data, companyId, groupId).None? <==> companyId.None? || companyId.value == ""
  {
  }

  /** Without a count above 1, one row carries the submitted fields and no installment fields. */
  lemma SingleRowWhenNoInstallments(data: TransactionInput, company: string, groupId: string)
    requires ValidDate(data.date) && company != ""
    requires data.installments.None? || data.installments.value <= 1
    ensures var p := Plan(data, Some(company), groupId);
      p.Some? && |p.value| == 1
      && p.value[0].description == data.description && p.value[0].amount == data.amount
      && p.value[0].date == data.date && p.value[0].companyId == company
      && p.value[0].installmentGroupId.None? && p.value[0].installmentNumber.None?
      && p.value[0].totalInstallments.None?
  {
  }

  /**
   * A split into `n` rows: numbered 1 to `n` in order, all in one group,
   * all for the same rounded share, with type, category, company and the
   * stored project copied to every row.
   */
  lemma SplitRows(data: TransactionInput, company: string, groupId: string)
    requires ValidDate(data.date) && company != ""
    requires data.installments.Some? && data.installments.value > 1
    ensures var p := Plan(data, Some(company), groupId);
      var n := data.installments.value;
      p.Some? && |p.value| == n
      && forall i :: 0 <= i < n ==>
        p.value[i].installmentNumber == Some(i + 1) && p.value[i].totalInstallments == Some(n)
        && p.value[i].installmentGroupId == Some(groupId)
        && p.value[i].amount == RoundedShare(data.amount, n)
        && p.value[i].kind == data.kind && p.value[i].categoryId == data.categoryId
        && p.value[i].companyId == company && p.value[i].projectId == StoredProjectId(data.projectId)
        && p.value[i].description == NumberedDescription(data.description, i + 1, n)
        && p.value[i].date == AddMonths(data.date, i)
  {
  }

  /** The rows of one split add up to the amount to within half a cent per row. */
  lemma SplitTotalNearAmount(data: TransactionInput, company: string, groupId: string)
    requires ValidDate(data.date) && company != ""
    requires data.installments.Some? && data.installments.value > 1
    ensures var rows := Plan(data, Some(company), groupId).value;
      var n := data.installments.value;
      var total := Lists.SumOf(rows, RowAmount);
      -n <= 2 * (total - data.amount) <= n
  {
    var n := data.installments.value;
    var rows := Plan(data, Some(company), groupId).value;
    var share := RoundedShare(data.amount, n);
    SumOfConstant(rows, share);
    RoundedShareNearest(data.amount, n);
  }

  function RowAmount(r: NewRow): int { r.amount }

  lemma {:induction false} SumOfConstant(rows: seq<NewRow>, c: int)
    requires forall i :: 0 <= i < |rows| ==> rows[i].amount == c
    ensures Lists.SumOf(rows, RowAmount) == |rows| * c
    decreases |rows|
  {
    if rows != [] {
      SumOfConstant(rows[..|rows| - 1], c);
    }
  }

  /** No two rows of a split share a description. */
  lemma SplitDescriptionsDistinct(description: string, n: int, i: int, j: int)
    requires 1 <= i && 1 <= j && i != j
    ensures NumberedDescription(description, i, n) != NumberedDescription(description, j, n)
  {
    var a, b := NumberedDescription(description, i, n), NumberedDescription(description, j, n);
    if a == b {
      var si, sj := Text.NatToString(i), Text.NatToString(j);
      if |si| <= |sj| {
        DigitsThenSlash(description, si, sj, Text.IntToString(n));
      } else {
        DigitsThenSlash(description, sj, si, Text.IntToString(n));
      }
      Text.NatToStringInjective(i, j);
    }
  }

  /** Two descriptions that agree agree on the number before the slash. */
  lemma DigitsThenSlash(description: string, si: string, sj: string, sn: string)
    requires |si| <= |sj|
    requires forall c :: 0 <= c < |si| ==> Text.IsDigit(si[c])
    requires forall c :: 0 <= c < |sj| ==> Text.IsDigit(sj[c])
    requires description + " (" + si + "/" + sn + ")" == description + " (" + sj + "/" + sn + ")"
    ensures si == sj
  {
    var a := description + " (" + si + "/" + sn + ")";
    var b := description + " (" + sj + "/" + sn + ")";
    var k := |description| + 2;
    assert forall c :: 0 <= c < |si| ==> a[k + c] == si[c];
    assert forall c :: 0 <= c < |sj| ==> b[k + c] == sj[c];
    if |si| < |sj| {
      assert false;
    }
    assert si == sj;
  }

  /** A start day up to the 28th is kept in every row, and the rows fall in consecutive months. */
  lemma SplitDatesMonthly(data: TransactionInput, company: string, groupId: string, i: int)
    requires ValidDate(data.date) && company != "" && data.date.day <= 28
    requires data.installments.Some? && 0 <= i < data.installments.value && data.installments.value > 1
    ensures var row := Plan(data, Some(company), groupId).value[i];
      row.date.day == data.date.day
      && MonthOrdinal(row.date.year, row.date.month) == MonthOrdinal(data.date.year, data.date.month) + i
  {
    AddMonthsKeepsShortDays(data.date, i);
  }

  /**
   * Each row is dated from the start date, not from the row before it: for
   * a start on the 31st the two differ, and the month after a short month
   * can be skipped altogether.
   */
  lemma DatedFromStartNotFromPrevious()
    ensures AddMonths(Date(2023, 1, 31), 1) == Date(2023, 3, 3)
    ensures AddMonths(Date(2023, 1, 31), 2) == Date(2023, 3, 31)
    ensures AddMonths(AddMonths(Date(2023, 1, 31), 1), 1) == Date(2023, 4, 3)
  {
  }

  /** 1200.00 in three installments from 2024-01-15: 400.00 on the 15th of January, February and March. */
  lemma ThreeInstallmentsExample(groupId: string)
    ensures var data := TransactionInput("Obra", 120000, Date(2024, 1, 15), "EXPENSE", None, "c", Some(3));
      var p := Plan(data, Some("co"), groupId);
      p.Some? && |p.value| == 3
      && p.value[0].date == Date(2024, 1, 15) && p.value[1].date == Date(2024, 2, 15)
      && p.value[2].date == Date(2024, 3, 15)
      && p.value[0].amount == 40000 && p.value[1].amount == 40000 && p.value[2].amount == 40000
      && p.value[0].description == "Obra (1/3)" && p.value[2].description == "Obra (3/3)"
  {
    var data := TransactionInput("Obra", 120000, Date(2024, 1, 15), "EXPENSE", None, "c", Some(3));
    RoundedShareExact(120000, 3);
    assert Text.NatToString(1) == "1" && Text.NatToString(3) == "3";
  }
}
