/**
 * The records the dashboard passes around: stored transactions with their
 * joined project and category, and the shapes of the aggregated views.
 * Amounts are integer cents.
 */
module Domain {
  import opened Calendar

  datatype Option<+T> = None | Some(value: T)

  datatype TransactionType = INCOME | EXPENSE

  datatype Project = Project(
    id: string,
    name: string,
    description: Option<string>,
    startDate: Option<string>,
    endDate: Option<string>,
    companyId: string)

  datatype Category = Category(id: string, name: string, kind: TransactionType, companyId: string)

  /** A stored transaction row, with the `project` and `category` the query joins in. */
  datatype Transaction = Transaction(
    id: string,
    description: string,
    amount: int,
    date: Date,
    kind: TransactionType,
    projectId: Option<string>,
    categoryId: string,
    companyId: string,
    installmentGroupId: Option<string>,
    installmentNumber: Option<int>,
    totalInstallments: Option<int>,
    project: Option<Project>,
    category: Option<Category>)

  /** The `YYYY-MM` prefix of an ISO date. */
  datatype YearMonth = YearMonth(year: int, month: int)

  datatype ProjectProfit = ProjectProfit(
    projectId: Option<string>,
    projectName: string,
    income: int,
    expense: int,
    profit: int)

  datatype MonthlyData = MonthlyData(month: YearMonth, income: int, expense: int, profit: int)

  datatype CategoryDistribution = CategoryDistribution(name: string, value: int, percentage: real)

  datatype ForecastData = ForecastData(month: YearMonth, income: int, expense: int)
}
