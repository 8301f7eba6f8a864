/**
 * The field rules the forms are checked against before anything is stored,
 * and the one-line error text shown when a check fails.
 *
 * A payload here already has the field types the schemas ask for (strings,
 * numbers, optional values); what is checked is each field's content. The
 * issues of one payload come in the order of the schema's fields, at most
 * one per field.
 */
module Validation {
  import opened Domain
  import Text
  import Lists

  /** One failed rule: the field it concerns and the message shown for it. */
  datatype Issue = Issue(path: string, message: string)

  const NameRequired := "Nome é obrigatório"
  const TypeMessage := "Tipo deve ser INCOME ou EXPENSE"
  const DescriptionRequired := "Descrição é obrigatória"
  const AmountPositive := "Valor deve ser maior que zero"
  const DateFormat := "Data inválida (formato: YYYY-MM-DD)"
  const CategoryRequired := "Categoria é obrigatória"

  /** The validation library's own texts for the installment count, which the schema does not override. */
  const NotAnInteger := "Invalid input: expected int, received number"
  const TooSmall := "Too small: expected number to be >=1"
  const TooBig := "Too big: expected number to be <=120"

  /** The field of `path` fails with `message` when `ok` is false. */
  function Check(ok: bool, path: string, message: string): (r: seq<Issue>)
    ensures ok <==> r == []
    ensures !ok ==> r == [Issue(path, message)]
  {
    if ok then [] else [Issue(path, message)]
  }

  /** `z.enum(['INCOME', 'EXPENSE'])`. */
  predicate IsTransactionType(s: string) {
    s == "INCOME" || s == "EXPENSE"
  }

  predicate IsAsciiDigit(c: char) {
    '0' <= c <= '9'
  }

  /** `/^\d{4}-\d{2}-\d{2}$/`: four digits, a dash, two digits, a dash, two digits, and nothing else. */
  predicate DateShape(s: string) {
    |s| == 10
    && IsAsciiDigit(s[0]) && IsAsciiDigit(s[1]) && IsAsciiDigit(s[2]) && IsAsciiDigit(s[3])
    && s[4] == '-'
    && IsAsciiDigit(s[5]) && IsAsciiDigit(s[6])
    && s[7] == '-'
    && IsAsciiDigit(s[8]) && IsAsciiDigit(s[9])
  }

  /** The pattern checks the shape only: a month 13 and a day 45 pass, a one-digit month does not. */
  lemma DateShapeExamples()
    ensures DateShape("2024-01-15")
    ensures DateShape("2024-13-45")
    ensures !DateShape("2024-1-15")
    ensures !DateShape("2024-01-15 ")
    ensures !DateShape("15/01/2024")
  {
  }

  // ----- Projects -----

  datatype ProjectInput = ProjectInput(name: string, description: Option<string>)

  /** `ProjectSchema`: a name is required, the description is optional. */
  function ProjectIssues(p: ProjectInput): seq<Issue> {
    Check(|p.name| >= 1, "name", NameRequired)
  }

  lemma ProjectRule(p: ProjectInput)
    ensures ProjectIssues(p) == [] <==> p.name != ""
    ensures p.name == "" ==> ProjectIssues(p) == [Issue("name", NameRequired)]
  {
  }

  // ----- Categories -----

  datatype CategoryInput = CategoryInput(name: string, kind: string)

  /** `CategorySchema`: a name and a type of INCOME or EXPENSE. */
  function CategoryIssues(c: CategoryInput): seq<Issue> {
    Check(|c.name| >= 1, "name", NameRequired) + Check(IsTransactionType(c.kind), "type", TypeMessage)
  }

  lemma CategoryRule(c: CategoryInput)
    ensures CategoryIssues(c) == [] <==> c.name != "" && IsTransactionType(c.kind)
    ensures |CategoryIssues(c)| == (if c.name == "" then 1 else 0) + (if IsTransactionType(c.kind) then 0 else 1)
  {
  }

  // ----- Transactions -----

  /** A transaction form; numbers are JavaScript numbers, so an installment count may have a fraction. */
  datatype TransactionPayload = TransactionPayload(
    description: string,
    amount: real,
    date: string,
    kind: string,
    projectId: Option<string>,
    categoryId: string,
    installments: Option<real>)

  predicate IsInteger(x: real) {
    x == x.Floor as real
  }

  /**
   * `z.number().int().min(1).max(120).optional()`: an absent count passes; a
   * present one is put through the checks in order. A failed integer check
   * stops the field there, so the range checks apply to whole numbers only.
   */
  function InstallmentIssues(installments: Option<real>): (r: seq<Issue>)
    ensures installments.None? ==> r == []
    ensures |r| <= 1
    ensures forall i :: 0 <= i < |r| ==> r[i].path == "installments"
  {
    if installments.None? then []
    else
      var x := installments.value;
      if !IsInteger(x) then [Issue("installments", NotAnInteger)]
      else Check(x >= 1.0, "installments", TooSmall) + Check(x <= 120.0, "installments", TooBig)
  }

  /** The rules `TransactionSchema` and `TransactionUpdateSchema` share, in field order. */
  function CommonIssues(t: TransactionPayload): seq<Issue> {
    Check(|t.description| >= 1, "description", DescriptionRequired)
    + Check(t.amount > 0.0, "amount", AmountPositive)
    + Check(DateShape(t.date), "date", DateFormat)
    + Check(IsTransactionType(t.kind), "type", TypeMessage)
    + Check(|t.categoryId| >= 1, "category_id", CategoryRequired)
  }

  /** `TransactionSchema`. */
  function TransactionIssues(t: TransactionPayload): seq<Issue> {
    CommonIssues(t) + InstallmentIssues(t.installments)
  }

  /** `TransactionUpdateSchema`: the same schema with the installment count omitted. */
  function TransactionUpdateIssues(t: TransactionPayload): seq<Issue> {
    CommonIssues(t)
  }

  /** An installment count passes exactly when it is absent or a whole number from 1 to 120. */
  lemma InstallmentRule(installments: Option<real>)
    ensures InstallmentIssues(installments) == [] <==>
      installments.None? || (IsInteger(installments.value) && 1.0 <= installments.value <= 120.0)
  {
  }

  /** A transaction passes exactly when every field rule holds. */
  lemma TransactionRule(t: TransactionPayload)
    ensures TransactionIssues(t) == [] <==>
      t.description != "" && t.amount > 0.0 && DateShape(t.date) && IsTransactionType(t.kind)
      && t.categoryId != ""
      && (t.installments.None? || (IsInteger(t.installments.value) && 1.0 <= t.installments.value <= 120.0))
  {
    InstallmentRule(t.installments);
  }

  /** Each field reports at most one issue, so a transaction has at most six. */
  lemma TransactionIssueCount(t: TransactionPayload)
    ensures |TransactionIssues(t)| <= 6
    ensures |TransactionUpdateIssues(t)| <= 5
  {
  }

  /** An update is checked as a creation with no installment count, whatever count it carries. */
  lemma UpdateOmitsInstallments(t: TransactionPayload)
    ensures TransactionUpdateIssues(t) == TransactionIssues(t.(installments := None))
    ensures TransactionUpdateIssues(t) == [] <==> TransactionIssues(t.(installments := None)) == []
  {
  }

  /** Installments never change the verdict on the other fields: their issues come last. */
  lemma InstallmentIssuesComeLast(t: TransactionPayload)
    ensures TransactionIssues(t)[..|TransactionUpdateIssues(t)|] == TransactionUpdateIssues(t)
  {
  }

  // ----- Error text -----

  function Message(i: Issue): string { i.message }

  /** `formatZodErrors`: the messages in issue order, separated by ", ". */
  function FormatZodErrors(issues: seq<Issue>): string {
    Text.Join(Lists.Map(issues, Message), ", ")
  }

  /** No issues give the empty text and one issue gives its message alone. */
  lemma FormatSmall(issues: seq<Issue>)
    ensures issues == [] ==> FormatZodErrors(issues) == ""
    ensures |issues| == 1 ==> FormatZodErrors(issues) == issues[0].message
  {
  }

  /** The text for two groups of issues is their two texts joined by ", ". */
  lemma FormatAppend(a: seq<Issue>, b: seq<Issue>)
    requires a != [] && b != []
    ensures FormatZodErrors(a + b) == FormatZodErrors(a) + ", " + FormatZodErrors(b)
  {
    Lists.MapAppend(a, b, Message);
    Text.JoinAppend(Lists.Map(a, Message), Lists.Map(b, Message), ", ");
  }

  /** A count of 0.5 breaks two rules but reports only the integer one, which stops the field. */
  lemma InstallmentExamples()
    ensures InstallmentIssues(Some(0.5)) == [Issue("installments", NotAnInteger)]
    ensures InstallmentIssues(Some(0.0)) == [Issue("installments", TooSmall)]
    ensures InstallmentIssues(Some(1.5)) == [Issue("installments", NotAnInteger)]
    ensures InstallmentIssues(Some(121.0)) == [Issue("installments", TooBig)]
    ensures InstallmentIssues(Some(120.0)) == []
  {
    assert !IsInteger(0.5) && !IsInteger(1.5) by {
      assert (0.5).Floor == 0 && (1.5).Floor == 1;
    }
    assert IsInteger(121.0) && IsInteger(120.0) && IsInteger(0.0) by {
      assert (121.0).Floor == 121 && (120.0).Floor == 120 && (0.0).Floor == 0;
    }
  }

  /** A form with an empty description and a zero amount shows both messages, in field order. */
  lemma FormatExample()
    ensures FormatZodErrors(TransactionIssues(TransactionPayload("", 0.0, "2024-01-15", "EXPENSE", None, "c", None)))
      == DescriptionRequired + ", " + AmountPositive
  {
    var t := TransactionPayload("", 0.0, "2024-01-15", "EXPENSE", None, "c", None);
    assert TransactionIssues(t) == [Issue("description", DescriptionRequired)] + [Issue("amount", AmountPositive)];
    FormatAppend([Issue("description", DescriptionRequired)], [Issue("amount", AmountPositive)]);
  }
}
