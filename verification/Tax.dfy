/** Mixed-use splits and Schedule C of lib/tax-reporting.ts. */
module Tax {
  import opened Common

  datatype Row = Row(
    id: string,
    direction: string,
    book: string,
    category: string,
    subcategory: Option<string>,
    amountMinor: int,
    businessUsePercent: Option<real>)

  // ---------- Splitting a mixed row ----------

  /** `Math.round`: halves go up. */
  function Round(x: real): int { (x + 0.5).Floor }

  function Abs(n: int): (r: int)
    ensures r >= 0 && (r == n || r == -n)
  {
    if n < 0 then -n else n
  }

  function BusinessAmount(row: Row): int {
    var amount := Abs(row.amountMinor);
    if row.book == "business" then amount
    else if row.book == "mixed" && row.businessUsePercent.Some?
      then Round(amount as real * row.businessUsePercent.value / 100.0)
    else 0
  }

  function PersonalAmount(row: Row): int {
    var amount := Abs(row.amountMinor);
    if row.book == "personal" then amount
    else if row.book == "mixed" && row.businessUsePercent.Some?
      then Round(amount as real * (100.0 - row.businessUsePercent.value) / 100.0)
    else 0
  }

  predicate HalfAway(x: real) { x - x.Floor as real == 0.5 }

  /** Rounding a number and its complement to `n` gives `n`, or one more when both are halves. */
  lemma ComplementsRound(n: int, x: real)
    ensures Round(x) + Round(n as real - x) == n + if HalfAway(x) then 1 else 0
  {
    var f := x.Floor;
    var d := x - f as real;
    assert (x + 0.5).Floor == f + if d >= 0.5 then 1 else 0;
    assert n as real - x + 0.5 == (n - f) as real + (0.5 - d);
    assert (n as real - x + 0.5).Floor == n - f + if d <= 0.5 then 0 else -1;
  }

  /** The business share before rounding. */
  function ExactShare(row: Row): real
    requires row.businessUsePercent.Some?
  {
    Abs(row.amountMinor) as real * row.businessUsePercent.value / 100.0
  }

  /** The two shares of a mixed row add up to its amount, or to one more exactly when the business share is a half. */
  lemma MixedSplit(row: Row)
    requires row.book == "mixed" && row.businessUsePercent.Some?
    ensures BusinessAmount(row) + PersonalAmount(row)
              == Abs(row.amountMinor) + if HalfAway(ExactShare(row)) then 1 else 0
  {
    var a := Abs(row.amountMinor);
    var x := ExactShare(row);
    var y := a as real * (100.0 - row.businessUsePercent.value) / 100.0;
    assert y == a as real - x;
    assert BusinessAmount(row) == Round(x) && PersonalAmount(row) == Round(y);
    ComplementsRound(a, x);
  }

  /** `n` is the whole number nearest to `percent` per cent of `amount`, the upper one of two. */
  ghost predicate IsPercentOf(n: int, percent: real, amount: int) {
    -50.0 < 100.0 * n as real - amount as real * percent <= 50.0
  }

  /** A row of one book counts there in full and in the other not at all; a mixed row is split by its percentage. */
  lemma SharesByBook(row: Row)
    ensures var amount := if row.amountMinor < 0 then -row.amountMinor else row.amountMinor;
            && (row.book == "business" ==> BusinessAmount(row) == amount && PersonalAmount(row) == 0)
            && (row.book == "personal" ==> BusinessAmount(row) == 0 && PersonalAmount(row) == amount)
            && (row.book == "mixed" && row.businessUsePercent.Some? ==>
                  && IsPercentOf(BusinessAmount(row), row.businessUsePercent.value, amount)
                  && IsPercentOf(PersonalAmount(row), 100.0 - row.businessUsePercent.value, amount))
            && ((row.book == "mixed" && row.businessUsePercent.None?)
                || (row.book != "business" && row.book != "personal" && row.book != "mixed") ==>
                  BusinessAmount(row) == 0 && PersonalAmount(row) == 0)
  {
    assert "business"[0] != "personal"[0] && "business"[0] != "mixed"[0] && "personal"[0] != "mixed"[0];
  }

  /** Neither share is negative or above the amount when the percentage is one. */
  lemma SharesWithinAmount(row: Row)
    requires row.businessUsePercent.Some? ==> 0.0 <= row.businessUsePercent.value <= 100.0
    ensures 0 <= BusinessAmount(row) <= Abs(row.amountMinor)
    ensures 0 <= PersonalAmount(row) <= Abs(row.amountMinor)
  {
  }

  // ---------- Schedule C ----------

  datatype LineValue = LineValue(amountMinor: int, ids: seq<string>)

  datatype Line =
    | ContractLabor | Wages | Insurance | TaxesAndLicenses | Travel | Meals | Utilities | OfficeSupplies | OtherExpenses

  datatype Detail = Detail(category: string, value: LineValue)

  datatype ScheduleC = ScheduleC(
    grossReceipts: LineValue,
    contractLabor: LineValue,
    wages: LineValue,
    insurance: LineValue,
    taxesAndLicenses: LineValue,
    travel: LineValue,
    meals: LineValue,
    utilities: LineValue,
    officeSupplies: LineValue,
    otherExpenses: LineValue,
    otherExpenseDetails: seq<Detail>)

  function SumBusiness(rows: seq<Row>): int {
    if rows == [] then 0 else SumBusiness(rows[..|rows| - 1]) + BusinessAmount(rows[|rows| - 1])
  }

  function Ids(rows: seq<Row>): seq<string> {
    seq(|rows|, i requires 0 <= i < |rows| => rows[i].id)
  }

  function LineOver(rows: seq<Row>, p: Row -> bool): LineValue {
    var selected := Filter(rows, p);
    LineValue(SumBusiness(selected), Ids(selected))
  }

  predicate IsBusinessRow(row: Row) { row.book == "business" || row.book == "mixed" }

  predicate IsIncome(row: Row) { row.direction == "income" }

  predicate ExpenseIn(row: Row, categories: seq<string>, subcategories: seq<string>) {
    && row.direction == "expense"
    && row.category in categories
    && (|subcategories| == 0 || OrElse(row.subcategory, "") in subcategories)
  }

  function ExpenseLine(categories: seq<string>, subcategories: seq<string>): Row -> bool {
    (row: Row) => ExpenseIn(row, categories, subcategories)
  }

  predicate OnTaxesAndLicenses(row: Row) {
    row.direction == "expense" && row.category == "taxes" && row.subcategory != Some("estimated_tax")
  }

  predicate OnOfficeSupplies(row: Row) {
    row.direction == "expense"
      && (row.category == "office_business" || (row.category == "shopping" && row.subcategory == Some("supplies")))
  }

  const OTHER_CATEGORIES: seq<string> := ["software_services", "subscriptions", "banking_fees", "education"]

  function BuildScheduleC(accepted: seq<Row>): ScheduleC {
    var rows := Filter(accepted, IsBusinessRow);
    ScheduleC(
      LineOver(rows, IsIncome),
      LineOver(rows, ExpenseLine(["payroll_contractors"], ["contractor"])),
      LineOver(rows, ExpenseLine(["payroll_contractors"], ["payroll"])),
      LineOver(rows, ExpenseLine(["insurance"], [])),
      LineOver(rows, OnTaxesAndLicenses),
      LineOver(rows, ExpenseLine(["travel"], [])),
      LineOver(rows, ExpenseLine(["meals"], [])),
      LineOver(rows, ExpenseLine(["utilities"], [])),
      LineOver(rows, OnOfficeSupplies),
      LineOver(rows, ExpenseLine(OTHER_CATEGORIES, [])),
      seq(|OTHER_CATEGORIES|, i requires 0 <= i < |OTHER_CATEGORIES| =>
        Detail(OTHER_CATEGORIES[i], LineOver(rows, ExpenseLine([OTHER_CATEGORIES[i]], [])))))
  }

  function NetProfit(c: ScheduleC): int {
    c.grossReceipts.amountMinor
    - (c.contractLabor.amountMinor + c.wages.amountMinor + c.insurance.amountMinor + c.taxesAndLicenses.amountMinor
       + c.travel.amountMinor + c.meals.amountMinor + c.utilities.amountMinor + c.officeSupplies.amountMinor
       + c.otherExpenses.amountMinor)
  }

  // ---------- One row, one line ----------

  /** The line an expense belongs to, read off its category; None for expenses Schedule C does not list. */
  function LineOf(row: Row): Option<Line> {
    if row.direction != "expense" then None
    else if row.category == "payroll_contractors" && row.subcategory == Some("contractor") then Some(ContractLabor)
    else if row.category == "payroll_contractors" && row.subcategory == Some("payroll") then Some(Wages)
    else if row.category == "insurance" then Some(Insurance)
    else if row.category == "taxes" && row.subcategory != Some("estimated_tax") then Some(TaxesAndLicenses)
    else if row.category == "travel" then Some(Travel)
    else if row.category == "meals" then Some(Meals)
    else if row.category == "utilities" then Some(Utilities)
    else if row.category == "office_business" || (row.category == "shopping" && row.subcategory == Some("supplies"))
      then Some(OfficeSupplies)
    else if row.category == "software_services" || row.category == "subscriptions" || row.category == "banking_fees"
      || row.category == "education" then Some(OtherExpenses)
    else None
  }

  function OnLine(line: Line): Row -> bool { (row: Row) => LineOf(row) == Some(line) }

  predicate IsListedExpense(row: Row) { LineOf(row).Some? }

  function LineValueOf(c: ScheduleC, line: Line): LineValue {
    match line
    case ContractLabor => c.contractLabor
    case Wages => c.wages
    case Insurance => c.insurance
    case TaxesAndLicenses => c.taxesAndLicenses
    case Travel => c.travel
    case Meals => c.meals
    case Utilities => c.utilities
    case OfficeSupplies => c.officeSupplies
    case OtherExpenses => c.otherExpenses
  }

  /** Each line holds exactly the business expenses that belong to it, so no row is on two lines. */
  lemma LinesHoldTheirRows(accepted: seq<Row>, line: Line)
    ensures LineValueOf(BuildScheduleC(accepted), line) == LineOver(Filter(accepted, IsBusinessRow), OnLine(line))
  {
    var rows := Filter(accepted, IsBusinessRow);
    match line
    case ContractLabor => FilterSame(rows, ExpenseLine(["payroll_contractors"], ["contractor"]), OnLine(line));
    case Wages => FilterSame(rows, ExpenseLine(["payroll_contractors"], ["payroll"]), OnLine(line));
    case Insurance => FilterSame(rows, ExpenseLine(["insurance"], []), OnLine(line));
    case TaxesAndLicenses => FilterSame(rows, OnTaxesAndLicenses, OnLine(line));
    case Travel => FilterSame(rows, ExpenseLine(["travel"], []), OnLine(line));
    case Meals => FilterSame(rows, ExpenseLine(["meals"], []), OnLine(line));
    case Utilities => FilterSame(rows, ExpenseLine(["utilities"], []), OnLine(line));
    case OfficeSupplies => FilterSame(rows, OnOfficeSupplies, OnLine(line));
    case OtherExpenses => OtherLineHoldsItsRows(rows);
  }

  lemma OtherLineHoldsItsRows(rows: seq<Row>)
    ensures LineOver(rows, ExpenseLine(OTHER_CATEGORIES, [])) == LineOver(rows, OnLine(OtherExpenses))
  {
    assert OTHER_CATEGORIES[0] == "software_services" && OTHER_CATEGORIES[1] == "subscriptions";
    assert OTHER_CATEGORIES[2] == "banking_fees" && OTHER_CATEGORIES[3] == "education";
    forall row | row in rows ensures ExpenseLine(OTHER_CATEGORIES, [])(row) <==> OnLine(OtherExpenses)(row) {
    }
    FilterSame(rows, ExpenseLine(OTHER_CATEGORIES, []), OnLine(OtherExpenses));
  }

  /** The rows Schedule C is made of. */
  ghost predicate OnSchedule(row: Row) { row.book == "business" || row.book == "mixed" }

  ghost function ScheduledOn(line: Line): Row -> bool { (row: Row) => OnSchedule(row) && LineOf(row) == Some(line) }

  ghost function ScheduledIncome(): Row -> bool { (row: Row) => OnSchedule(row) && row.direction == "income" }

  ghost function ScheduledExpense(listed: Option<bool>): Row -> bool {
    (row: Row) =>
      OnSchedule(row) && row.direction == "expense" && (listed.Some? ==> (LineOf(row).Some? <==> listed.value))
  }

  /** A line reports these rows: the sum of their business shares, and their ids in order. */
  ghost predicate Reports(value: LineValue, rows: seq<Row>) {
    && value.amountMinor == SumBusiness(rows)
    && |value.ids| == |rows| && forall i :: 0 <= i < |rows| ==> value.ids[i] == rows[i].id
  }

  /** Each expense line reports exactly the accepted rows of its categories, and gross receipts the income. */
  lemma LineReportsItsRows(accepted: seq<Row>, line: Line)
    ensures Reports(LineValueOf(BuildScheduleC(accepted), line), Filter(accepted, ScheduledOn(line)))
    ensures Reports(BuildScheduleC(accepted).grossReceipts, Filter(accepted, ScheduledIncome()))
  {
    LinesHoldTheirRows(accepted, line);
    FilterTwice(accepted, IsBusinessRow, OnLine(line), ScheduledOn(line));
    FilterTwice(accepted, IsBusinessRow, IsIncome, ScheduledIncome());
  }

  /** No ledger row is reported on two expense lines. */
  lemma LinesShareNoRow(accepted: seq<Row>, a: Line, b: Line, id: string)
    requires forall i, j :: 0 <= i < j < |accepted| ==> accepted[i].id != accepted[j].id
    requires id in LineValueOf(BuildScheduleC(accepted), a).ids && id in LineValueOf(BuildScheduleC(accepted), b).ids
    ensures a == b
  {
    LinesHoldTheirRows(accepted, a);
    LinesHoldTheirRows(accepted, b);
    var rows := Filter(accepted, IsBusinessRow);
    var x := RowOfId(Filter(rows, OnLine(a)), id);
    var y := RowOfId(Filter(rows, OnLine(b)), id);
    var i :| 0 <= i < |accepted| && accepted[i] == x;
    var j :| 0 <= j < |accepted| && accepted[j] == y;
  }

  lemma RowOfId(rows: seq<Row>, id: string) returns (row: Row)
    requires id in Ids(rows)
    ensures row in rows && row.id == id
  {
    var i :| 0 <= i < |rows| && Ids(rows)[i] == id;
    row := rows[i];
  }

  // ---------- Conservation ----------

  lemma {:induction false} SumBusinessAppend(rows: seq<Row>, row: Row)
    ensures SumBusiness(rows + [row]) == SumBusiness(rows) + BusinessAmount(row)
  {
    assert (rows + [row])[..|rows|] == rows;
  }

  /** Splitting a selection by two exclusive conditions splits its sum. */
  lemma {:induction false} SumSplits(rows: seq<Row>, whole: Row -> bool, p: Row -> bool, q: Row -> bool)
    requires forall r :: r in rows ==> (whole(r) <==> p(r) || q(r)) && !(p(r) && q(r))
    ensures SumBusiness(Filter(rows, whole)) == SumBusiness(Filter(rows, p)) + SumBusiness(Filter(rows, q))
  {
    if rows != [] {
      var (front, row) := (rows[..|rows| - 1], rows[|rows| - 1]);
      SumSplits(front, whole, p, q);
      SumBusinessAppend(Filter(front, whole), row);
      SumBusinessAppend(Filter(front, p), row);
      SumBusinessAppend(Filter(front, q), row);
    }
  }

  ghost function ScheduledIn(category: string): Row -> bool {
    (row: Row) => OnSchedule(row) && row.direction == "expense" && row.category == category
  }

  /** The details of the other expenses: four categories, each with exactly its rows. */
  lemma DetailsReportTheirRows(accepted: seq<Row>, i: nat)
    ensures var details := BuildScheduleC(accepted).otherExpenseDetails;
            && |details| == 4
            && details[0].category == "software_services" && details[1].category == "subscriptions"
            && details[2].category == "banking_fees" && details[3].category == "education"
            && (i < 4 ==> Reports(details[i].value, Filter(accepted, ScheduledIn(details[i].category))))
  {
    if i < 4 {
      CategoryReportsItsRows(accepted, OTHER_CATEGORIES[i]);
    }
  }

  lemma CategoryReportsItsRows(accepted: seq<Row>, category: string)
    ensures Reports(LineOver(Filter(accepted, IsBusinessRow), ExpenseLine([category], [])),
                    Filter(accepted, ScheduledIn(category)))
  {
    assert [category][0] == category;
    FilterTwice(accepted, IsBusinessRow, ExpenseLine([category], []), ScheduledIn(category));
  }

  /** Other expenses are the sum of their details. */
  lemma OtherExpensesAreTheirDetails(accepted: seq<Row>)
    ensures var c := BuildScheduleC(accepted);
            && |c.otherExpenseDetails| == 4
            && c.otherExpenses.amountMinor
            == c.otherExpenseDetails[0].value.amountMinor + c.otherExpenseDetails[1].value.amountMinor
             + c.otherExpenseDetails[2].value.amountMinor + c.otherExpenseDetails[3].value.amountMinor
  {
    var rows := Filter(accepted, IsBusinessRow);
    var o := OTHER_CATEGORIES;
    DetailsSplit(rows, o, [o[0], o[1]], [o[2], o[3]]);
    DetailsSplit(rows, [o[0], o[1]], [o[0]], [o[1]]);
    DetailsSplit(rows, [o[2], o[3]], [o[2]], [o[3]]);
  }

  lemma DetailsSplit(rows: seq<Row>, whole: seq<string>, left: seq<string>, right: seq<string>)
    requires whole == left + right && forall c :: c in left ==> c !in right
    ensures LineOver(rows, ExpenseLine(whole, [])).amountMinor
         == LineOver(rows, ExpenseLine(left, [])).amountMinor + LineOver(rows, ExpenseLine(right, [])).amountMinor
  {
    SumSplits(rows, ExpenseLine(whole, []), ExpenseLine(left, []), ExpenseLine(right, []));
  }

  function SumLines(c: ScheduleC, lines: seq<Line>): int {
    if lines == [] then 0 else SumLines(c, lines[..|lines| - 1]) + LineValueOf(c, lines[|lines| - 1]).amountMinor
  }

  const ALL_LINES: seq<Line> := [ContractLabor, Wages, Insurance, TaxesAndLicenses, Travel, Meals, Utilities,
                                 OfficeSupplies, OtherExpenses]

  function OnSome(lines: seq<Line>): Row -> bool { (row: Row) => LineOf(row).Some? && LineOf(row).value in lines }

  lemma {:induction false} LinesAddUp(accepted: seq<Row>, lines: seq<Line>)
    requires forall i, j :: 0 <= i < j < |lines| ==> lines[i] != lines[j]
    ensures SumLines(BuildScheduleC(accepted), lines)
              == SumBusiness(Filter(Filter(accepted, IsBusinessRow), OnSome(lines)))
  {
    var rows := Filter(accepted, IsBusinessRow);
    if lines == [] {
      FilterNone(rows, OnSome(lines));
    } else {
      var (front, line) := (lines[..|lines| - 1], lines[|lines| - 1]);
      LinesAddUp(accepted, front);
      LinesHoldTheirRows(accepted, line);
      assert lines == front + [line];
      SumSplits(rows, OnSome(lines), OnSome(front), OnLine(line));
    }
  }

  lemma NetProfitByLines(c: ScheduleC)
    ensures NetProfit(c) == c.grossReceipts.amountMinor - SumLines(c, ALL_LINES)
  {
    var l := ALL_LINES;
    assert l[..8][..7] == l[..7] && l[..7][..6] == l[..6] && l[..6][..5] == l[..5] && l[..5][..4] == l[..4];
    assert l[..4][..3] == l[..3] && l[..3][..2] == l[..2] && l[..2][..1] == l[..1] && l[..1][..0] == [];
    assert SumLines(c, l[..1]) == c.contractLabor.amountMinor;
    assert SumLines(c, l[..2]) == SumLines(c, l[..1]) + c.wages.amountMinor;
    assert SumLines(c, l[..3]) == SumLines(c, l[..2]) + c.insurance.amountMinor;
    assert SumLines(c, l[..4]) == SumLines(c, l[..3]) + c.taxesAndLicenses.amountMinor;
    assert SumLines(c, l[..5]) == SumLines(c, l[..4]) + c.travel.amountMinor;
    assert SumLines(c, l[..6]) == SumLines(c, l[..5]) + c.meals.amountMinor;
    assert SumLines(c, l[..7]) == SumLines(c, l[..6]) + c.utilities.amountMinor;
    assert SumLines(c, l[..8]) == SumLines(c, l[..7]) + c.officeSupplies.amountMinor;
    assert SumLines(c, l) == SumLines(c, l[..8]) + c.otherExpenses.amountMinor;
  }

  /**
   * Net profit is business income minus the listed business expenses, each counted once; it is income minus all
   * business expenses exactly when the unlisted ones come to nothing.
   */
  lemma NetProfitConserves(accepted: seq<Row>)
    ensures var income := SumBusiness(Filter(accepted, ScheduledIncome()));
            && NetProfit(BuildScheduleC(accepted))
               == income - SumBusiness(Filter(accepted, ScheduledExpense(Some(true))))
            && (NetProfit(BuildScheduleC(accepted)) == income - SumBusiness(Filter(accepted, ScheduledExpense(None)))
                <==> SumBusiness(Filter(accepted, ScheduledExpense(Some(false)))) == 0)
  {
    var rows := Filter(accepted, IsBusinessRow);
    NetProfitByLines(BuildScheduleC(accepted));
    LinesAddUp(accepted, ALL_LINES);
    AllLinesAreListed(rows);
    FilterTwice(accepted, IsBusinessRow, IsIncome, ScheduledIncome());
    FilterTwice(accepted, IsBusinessRow, IsListedExpense, ScheduledExpense(Some(true)));
    SumSplits(accepted, ScheduledExpense(None), ScheduledExpense(Some(true)), ScheduledExpense(Some(false)));
  }

  lemma AllLinesAreListed(rows: seq<Row>)
    ensures Filter(rows, OnSome(ALL_LINES)) == Filter(rows, IsListedExpense)
  {
    forall row | row in rows ensures OnSome(ALL_LINES)(row) <==> IsListedExpense(row) {
    }
    FilterSame(rows, OnSome(ALL_LINES), IsListedExpense);
  }
}
