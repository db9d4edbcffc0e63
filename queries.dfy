/**
 The statement builders of the expense-analytics layer. Each f-string is a
 `Shape`: the text before `WHERE 1=1 `, the composed filter, and the text
 after it, the hard-coded restriction that shares the filter's line kept
 apart. A builder with a numeric parameter renders `int(n)` into its shape;
 `months_for_categories` renders its quoted name list into its restriction.
 */
module AnalyticsQueries {
  import opened Wrappers
  import opened Text
  import opened Decimal
  import opened FilterComposer
  import opened CategoryList

  /** The always-true condition that every composed filter extends. */
  const BaseCondition := "WHERE 1=1 "

  /**
   `Once`: `select`, the base condition, the filter, `restriction` (the rest
   of the filter's line, possibly empty) and `rest`. `Twice`: the filter is
   spliced behind the base condition in a subquery and again in the outer
   query, with `between` in between.
   */
  datatype Shape =
    | Once(select: string, restriction: string, rest: string)
    | Twice(select: string, between: string, rest: string)

  /** The f-string with `filter` in every `{wrap_where(where_clause)}` field. */
  function Compose(s: Shape, filter: string): string {
    match s
    case Once(select, restriction, rest) => select + BaseCondition + filter + restriction + rest
    case Twice(select, between, rest) => select + BaseCondition + filter + between + BaseCondition + filter + rest
  }

  /** The text right behind the (first) filter. */
  function Follower(s: Shape): string {
    match s
    case Once(_, restriction, _) => restriction
    case Twice(_, between, _) => between
  }

  /** `LIMIT {int(limit)};` and the closing indentation. */
  function LimitClause(limit: int): string {
    "\n    LIMIT " + Render(limit) + ";\n    "
  }

  /** `HAVING occurrences >= {int(min_occurrences)}` */
  function HavingClause(minOccurrences: int): string {
    "\n    HAVING occurrences >= " + Render(minOccurrences)
  }

  /** ` AND category IN ({cats})` */
  function CategoryRestriction(categories: seq<string>): string {
    " AND category IN (" + QuotedList(categories) + ")"
  }

  const TransportationOnly := " AND category = 'Transportation'"
  const CashbackOnly := " AND cashback > 0"
  const GroceryOnly := " AND category='Grocery'"

  const TopCategoriesOrder := "\n    GROUP BY category\n    ORDER BY total_spent DESC"
  const CashbackOrder := "\n    ORDER BY cashback DESC"
  const TopTransactionsOrder := "\n    ORDER BY amount DESC"
  /** `GROUP BY category`, in `recurring_expenses` and `category_contribution_pct`. */
  const GroupByCategory := "\n    GROUP BY category"
  const RecurringOrder := "\n    ORDER BY occurrences DESC;\n    "

  /** The two contribution statements share the text between their filters and their ordering. */
  const ContributionOuter := "),2) AS pct_contribution,\n           ROUND(SUM(amount),2) AS total_spent\n    FROM expenses\n    "
  const ContributionOrder := "\n    ORDER BY pct_contribution DESC;\n    "
  /** The end of `category_contribution_pct`: grouped by category, then ordered. */
  const ContributionTail := GroupByCategory + ContributionOrder

  /** The two half-year statements around their month comparison. */
  const HalfCase := "\n    SELECT CASE WHEN CAST(strftime('%m', date) AS INTEGER) "
  const HalfColumns := " THEN 'H1' ELSE 'H2' END AS half,\n           ROUND(SUM(amount),2) AS total_spent\n    FROM expenses\n    "
  const HalfGroup := "\n    GROUP BY half;\n    "

  const TotalByCategoryShape := Once(
    "\n    SELECT category, ROUND(SUM(amount),2) AS total_spent, COUNT(*) AS txn_count\n    FROM expenses\n    ",
    "",
    "\n    GROUP BY category\n    ORDER BY total_spent DESC;\n    ")

  function TotalByCategory(whereClause: Option<string> := Some("")): (r: string)
    ensures Contains(r, BaseCondition + WrapWhere(whereClause))
    ensures EndsWith(r, BaseCondition + WrapWhere(whereClause) + TotalByCategoryShape.rest)
  {
    ComposeFollows(TotalByCategoryShape, WrapWhere(whereClause));
    ComposeOnceEnds(TotalByCategoryShape, WrapWhere(whereClause));
    Compose(TotalByCategoryShape, WrapWhere(whereClause))
  }

  const TotalByPaymentModeShape := Once(
    "\n    SELECT payment_mode, ROUND(SUM(amount),2) AS total_spent, COUNT(*) AS txn_count\n    FROM expenses\n    ",
    "",
    "\n    GROUP BY payment_mode;\n    ")

  function TotalByPaymentMode(whereClause: Option<string> := Some("")): (r: string)
    ensures Contains(r, BaseCondition + WrapWhere(whereClause))
    ensures EndsWith(r, BaseCondition + WrapWhere(whereClause) + TotalByPaymentModeShape.rest)
  {
    ComposeFollows(TotalByPaymentModeShape, WrapWhere(whereClause));
    ComposeOnceEnds(TotalByPaymentModeShape, WrapWhere(whereClause));
    Compose(TotalByPaymentModeShape, WrapWhere(whereClause))
  }

  /** The one single-line statement. */
  const TotalCashbackShape := Once(
    "SELECT ROUND(SUM(cashback),2) AS total_cashback FROM expenses ",
    "",
    ";")

  function TotalCashback(whereClause: Option<string> := Some("")): (r: string)
    ensures Contains(r, BaseCondition + WrapWhere(whereClause))
    ensures EndsWith(r, BaseCondition + WrapWhere(whereClause) + TotalCashbackShape.rest)
  {
    ComposeFollows(TotalCashbackShape, WrapWhere(whereClause));
    ComposeOnceEnds(TotalCashbackShape, WrapWhere(whereClause));
    Compose(TotalCashbackShape, WrapWhere(whereClause))
  }

  const MonthlySpendingShape := Once(
    "\n    SELECT CAST(strftime('%m', date) AS INTEGER) AS month,\n           ROUND(SUM(amount),2) AS total_spent\n    FROM expenses\n    ",
    "",
    "\n    GROUP BY month\n    ORDER BY month;\n    ")

  function MonthlySpending(whereClause: Option<string> := Some("")): (r: string)
    ensures Contains(r, BaseCondition + WrapWhere(whereClause))
    ensures EndsWith(r, BaseCondition + WrapWhere(whereClause) + MonthlySpendingShape.rest)
  {
    ComposeFollows(MonthlySpendingShape, WrapWhere(whereClause));
    ComposeOnceEnds(MonthlySpendingShape, WrapWhere(whereClause));
    Compose(MonthlySpendingShape, WrapWhere(whereClause))
  }

  const TopCategoriesSelect := "\n    SELECT category, ROUND(SUM(amount),2) AS total_spent\n    FROM expenses\n    "

  function TopCategoriesShape(limit: int): Shape {
    Once(TopCategoriesSelect, "", TopCategoriesOrder + LimitClause(limit))
  }

  function TopCategories(limit: int := 5, whereClause: Option<string> := Some("")): (r: string)
    ensures Contains(r, BaseCondition + WrapWhere(whereClause))
    ensures EndsWith(r, LimitClause(limit))
    ensures EndsWith(r, BaseCondition + WrapWhere(whereClause) + (TopCategoriesOrder + LimitClause(limit)))
  {
    ComposeFollows(TopCategoriesShape(limit), WrapWhere(whereClause));
    ComposeOnceEnds(TopCategoriesShape(limit), WrapWhere(whereClause));
    ComposeClosing(TopCategoriesSelect, "", TopCategoriesOrder, LimitClause(limit), LimitClause(limit), WrapWhere(whereClause));
    Compose(TopCategoriesShape(limit), WrapWhere(whereClause))
  }

  const TransportByPaymentShape := Once(
    "\n    SELECT payment_mode, ROUND(SUM(amount),2) AS total_spent\n    FROM expenses\n    ",
    TransportationOnly,
    "\n    GROUP BY payment_mode;\n    ")

  function TransportByPayment(whereClause: Option<string> := Some("")): (r: string)
    ensures Contains(r, BaseCondition + WrapWhere(whereClause) + TransportationOnly)
    ensures EndsWith(r, BaseCondition + WrapWhere(whereClause) + TransportationOnly + TransportByPaymentShape.rest)
  {
    ComposeFollows(TransportByPaymentShape, WrapWhere(whereClause));
    ComposeOnceEnds(TransportByPaymentShape, WrapWhere(whereClause));
    Compose(TransportByPaymentShape, WrapWhere(whereClause))
  }

  const CashbackTransactionsSelect := "\n    SELECT id, date, category, payment_mode, amount, cashback\n    FROM expenses\n    "

  function CashbackTransactionsShape(limit: int): Shape {
    Once(CashbackTransactionsSelect, CashbackOnly, CashbackOrder + LimitClause(limit))
  }

  function CashbackTransactions(limit: int := 200, whereClause: Option<string> := Some("")): (r: string)
    ensures Contains(r, BaseCondition + WrapWhere(whereClause) + CashbackOnly)
    ensures EndsWith(r, LimitClause(limit))
    ensures EndsWith(r, BaseCondition + WrapWhere(whereClause) + CashbackOnly + (CashbackOrder + LimitClause(limit)))
  {
    ComposeFollows(CashbackTransactionsShape(limit), WrapWhere(whereClause));
    ComposeOnceEnds(CashbackTransactionsShape(limit), WrapWhere(whereClause));
    ComposeClosing(CashbackTransactionsSelect, CashbackOnly, CashbackOrder, LimitClause(limit), LimitClause(limit), WrapWhere(whereClause));
    Compose(CashbackTransactionsShape(limit), WrapWhere(whereClause))
  }

  const MonthsForCategoriesSelect :=
    "\n    SELECT CAST(strftime('%m', date) AS INTEGER) AS month, category, ROUND(SUM(amount),2) AS total_spent\n    FROM expenses\n    "
  const MonthsForCategoriesOrder := "\n    GROUP BY month, category\n    ORDER BY month, total_spent DESC;\n    "

  function MonthsForCategoriesShape(categories: seq<string>): Shape {
    Once(MonthsForCategoriesSelect, CategoryRestriction(categories), MonthsForCategoriesOrder)
  }

  /** `categories` has no default: the caller always passes the list. */
  function MonthsForCategories(categories: seq<string>, whereClause: Option<string> := Some("")): (r: string)
    ensures Contains(r, BaseCondition + WrapWhere(whereClause) + CategoryRestriction(categories))
    ensures EndsWith(r, BaseCondition + WrapWhere(whereClause) + CategoryRestriction(categories) + MonthsForCategoriesOrder)
  {
    ComposeFollows(MonthsForCategoriesShape(categories), WrapWhere(whereClause));
    ComposeOnceEnds(MonthsForCategoriesShape(categories), WrapWhere(whereClause));
    Compose(MonthsForCategoriesShape(categories), WrapWhere(whereClause))
  }

  const RecurringExpensesSelect :=
    "\n    SELECT category, COUNT(*) AS occurrences, GROUP_CONCAT(DISTINCT CAST(strftime('%m', date) AS INTEGER)) AS months\n    FROM expenses\n    "

  function RecurringExpensesShape(minOccurrences: int): Shape {
    Once(RecurringExpensesSelect, "", GroupByCategory + HavingClause(minOccurrences) + RecurringOrder)
  }

  function RecurringExpenses(minOccurrences: int := 2, whereClause: Option<string> := Some("")): (r: string)
    ensures Contains(r, BaseCondition + WrapWhere(whereClause))
    ensures Contains(r, HavingClause(minOccurrences) + RecurringOrder)
    ensures EndsWith(r, BaseCondition + WrapWhere(whereClause) + (GroupByCategory + HavingClause(minOccurrences) + RecurringOrder))
  {
    var h := HavingClause(minOccurrences);
    ComposeFollows(RecurringExpensesShape(minOccurrences), WrapWhere(whereClause));
    ComposeOnceEnds(RecurringExpensesShape(minOccurrences), WrapWhere(whereClause));
    ComposeSplice(RecurringExpensesSelect, "", GroupByCategory, h, h, RecurringOrder, WrapWhere(whereClause));
    Compose(RecurringExpensesShape(minOccurrences), WrapWhere(whereClause))
  }

  const MonthlyCashbackShape := Once(
    "\n    SELECT CAST(strftime('%m', date) AS INTEGER) AS month, ROUND(SUM(cashback),2) AS total_cashback\n    FROM expenses\n    ",
    "",
    "\n    GROUP BY month\n    ORDER BY month;\n    ")

  function MonthlyCashback(whereClause: Option<string> := Some("")): (r: string)
    ensures Contains(r, BaseCondition + WrapWhere(whereClause))
    ensures EndsWith(r, BaseCondition + WrapWhere(whereClause) + MonthlyCashbackShape.rest)
  {
    ComposeFollows(MonthlyCashbackShape, WrapWhere(whereClause));
    ComposeOnceEnds(MonthlyCashbackShape, WrapWhere(whereClause));
    Compose(MonthlyCashbackShape, WrapWhere(whereClause))
  }

  /** The filter appears twice: in the grand-total subquery and in the outer query. */
  const CategoryContributionPctShape := Twice(
    "\n    SELECT category,\n           ROUND(100.0 * SUM(amount) / (SELECT SUM(amount) FROM expenses ",
    ContributionOuter,
    ContributionTail)

  function CategoryContributionPct(whereClause: Option<string> := Some("")): (r: string)
    ensures Contains(r, BaseCondition + WrapWhere(whereClause) + ContributionOuter)
    ensures EndsWith(r, BaseCondition + WrapWhere(whereClause) + ContributionTail)
  {
    var s := CategoryContributionPctShape;
    ComposeFollows(s, WrapWhere(whereClause));
    ComposeTwiceEnds(s.select, s.between, s.rest, WrapWhere(whereClause));
    Compose(s, WrapWhere(whereClause))
  }

  const AvgTxnByCategoryShape := Once(
    "\n    SELECT category, ROUND(AVG(amount),2) AS avg_amount, COUNT(*) AS txn_count\n    FROM expenses\n    ",
    "",
    "\n    GROUP BY category\n    ORDER BY avg_amount DESC;\n    ")

  function AvgTxnByCategory(whereClause: Option<string> := Some("")): (r: string)
    ensures Contains(r, BaseCondition + WrapWhere(whereClause))
    ensures EndsWith(r, BaseCondition + WrapWhere(whereClause) + AvgTxnByCategoryShape.rest)
  {
    ComposeFollows(AvgTxnByCategoryShape, WrapWhere(whereClause));
    ComposeOnceEnds(AvgTxnByCategoryShape, WrapWhere(whereClause));
    Compose(AvgTxnByCategoryShape, WrapWhere(whereClause))
  }

  const TopTransactionsSelect := "\n    SELECT id, date, category, payment_mode, amount\n    FROM expenses\n    "

  function TopTransactionsShape(limit: int): Shape {
    Once(TopTransactionsSelect, "", TopTransactionsOrder + LimitClause(limit))
  }

  function TopTransactions(limit: int := 10, whereClause: Option<string> := Some("")): (r: string)
    ensures Contains(r, BaseCondition + WrapWhere(whereClause))
    ensures EndsWith(r, LimitClause(limit))
    ensures EndsWith(r, BaseCondition + WrapWhere(whereClause) + (TopTransactionsOrder + LimitClause(limit)))
  {
    ComposeFollows(TopTransactionsShape(limit), WrapWhere(whereClause));
    ComposeOnceEnds(TopTransactionsShape(limit), WrapWhere(whereClause));
    ComposeClosing(TopTransactionsSelect, "", TopTransactionsOrder, LimitClause(limit), LimitClause(limit), WrapWhere(whereClause));
    Compose(TopTransactionsShape(limit), WrapWhere(whereClause))
  }

  const WeekdaySpendingShape := Once(
    "\n    SELECT CAST(strftime('%w', date) AS INTEGER) AS weekday, ROUND(SUM(amount),2) AS total_spent, COUNT(*) AS txn_count\n    FROM expenses\n    ",
    "",
    "\n    GROUP BY weekday\n    ORDER BY weekday;\n    ")

  function WeekdaySpending(whereClause: Option<string> := Some("")): (r: string)
    ensures Contains(r, BaseCondition + WrapWhere(whereClause))
    ensures EndsWith(r, BaseCondition + WrapWhere(whereClause) + WeekdaySpendingShape.rest)
  {
    ComposeFollows(WeekdaySpendingShape, WrapWhere(whereClause));
    ComposeOnceEnds(WeekdaySpendingShape, WrapWhere(whereClause));
    Compose(WeekdaySpendingShape, WrapWhere(whereClause))
  }

  const CompareH1H2Shape := Once(HalfCase + "<= 6" + HalfColumns, "", HalfGroup)

  function CompareH1H2(whereClause: Option<string> := Some("")): (r: string)
    ensures Contains(r, BaseCondition + WrapWhere(whereClause))
    ensures EndsWith(r, BaseCondition + WrapWhere(whereClause) + CompareH1H2Shape.rest)
  {
    ComposeFollows(CompareH1H2Shape, WrapWhere(whereClause));
    ComposeOnceEnds(CompareH1H2Shape, WrapWhere(whereClause));
    Compose(CompareH1H2Shape, WrapWhere(whereClause))
  }

  /** The statement of `CompareH1H2` with the month comparison written `<=6`. */
  const H1VsH2SpendingShape := Once(HalfCase + "<=6" + HalfColumns, "", HalfGroup)

  function H1VsH2Spending(whereClause: Option<string> := Some("")): (r: string)
    ensures Contains(r, BaseCondition + WrapWhere(whereClause))
    ensures EndsWith(r, BaseCondition + WrapWhere(whereClause) + H1VsH2SpendingShape.rest)
  {
    ComposeFollows(H1VsH2SpendingShape, WrapWhere(whereClause));
    ComposeOnceEnds(H1VsH2SpendingShape, WrapWhere(whereClause));
    Compose(H1VsH2SpendingShape, WrapWhere(whereClause))
  }

  const GroceryWeekendPatternShape := Once(
    "\n    SELECT CASE WHEN CAST(strftime('%w', date) AS INTEGER) IN (0,6) THEN 'Weekend' ELSE 'Weekday' END AS day_type,\n           ROUND(SUM(amount),2) AS total_spent\n    FROM expenses\n    ",
    GroceryOnly,
    "\n    GROUP BY day_type;\n    ")

  function GroceryWeekendPattern(whereClause: Option<string> := Some("")): (r: string)
    ensures Contains(r, BaseCondition + WrapWhere(whereClause) + GroceryOnly)
    ensures EndsWith(r, BaseCondition + WrapWhere(whereClause) + GroceryOnly + GroceryWeekendPatternShape.rest)
  {
    ComposeFollows(GroceryWeekendPatternShape, WrapWhere(whereClause));
    ComposeOnceEnds(GroceryWeekendPatternShape, WrapWhere(whereClause));
    Compose(GroceryWeekendPatternShape, WrapWhere(whereClause))
  }

  /** Like `CategoryContributionPct`, with the product written the other way round and no `GROUP BY`. */
  const CategoryContributionShape := Twice(
    "\n    SELECT category,\n           ROUND(SUM(amount)*100.0 / (SELECT SUM(amount) FROM expenses ",
    ContributionOuter,
    ContributionOrder)

  function CategoryContribution(whereClause: Option<string> := Some("")): (r: string)
    ensures Contains(r, BaseCondition + WrapWhere(whereClause) + ContributionOuter)
    ensures EndsWith(r, BaseCondition + WrapWhere(whereClause) + ContributionOrder)
  {
    var s := CategoryContributionShape;
    ComposeFollows(s, WrapWhere(whereClause));
    ComposeTwiceEnds(s.select, s.between, s.rest, WrapWhere(whereClause));
    Compose(s, WrapWhere(whereClause))
  }

  /** The (first) filter sits behind the base condition and before the text that follows it. */
  lemma ComposeFollows(s: Shape, filter: string)
    ensures Contains(Compose(s, filter), BaseCondition + filter + Follower(s))
    ensures Contains(Compose(s, filter), BaseCondition + filter)
  {
    var x := Compose(s, filter);
    match s
    case Once(a, r, z) =>
      assert x == a + (BaseCondition + filter + r) + z;
      ContainsMiddle(a, BaseCondition + filter + r, z);
      ContainsPrefix(x, BaseCondition + filter, r);
    case Twice(a, m, z) =>
      assert x == a + (BaseCondition + filter + m) + (BaseCondition + filter + z);
      ContainsMiddle(a, BaseCondition + filter + m, BaseCondition + filter + z);
      ContainsPrefix(x, BaseCondition + filter, m);
  }

  /**
   A statement with one filter ends with the base condition, the filter, the
   restriction and the rest of the shape: nothing is spliced in after the filter.
   */
  lemma ComposeOnceEnds(s: Shape, filter: string)
    requires s.Once?
    ensures EndsWith(Compose(s, filter), BaseCondition + filter + s.restriction + s.rest)
    ensures s.restriction == "" ==> EndsWith(Compose(s, filter), BaseCondition + filter + s.rest)
  {
    var t := BaseCondition + filter + s.restriction + s.rest;
    assert Compose(s, filter) == s.select + t;
    EndsWithAppend(s.select, t);
    if s.restriction == "" {
      assert t == BaseCondition + filter + s.rest;
    }
  }

  /** With an empty composed filter, the base condition runs straight into the rest. */
  lemma ComposeUnfiltered(select: string, rest: string, filter: string)
    requires filter == ""
    ensures EndsWith(Compose(Once(select, "", rest), filter), BaseCondition + rest)
  {
    assert Compose(Once(select, "", rest), filter) == select + (BaseCondition + rest);
    EndsWithAppend(select, BaseCondition + rest);
  }

  /** With two filters, the second is again behind the base condition and closes with `rest`. */
  lemma ComposeTwiceEnds(select: string, between: string, rest: string, filter: string)
    ensures EndsWith(Compose(Twice(select, between, rest), filter), BaseCondition + filter + rest)
  {
    var p := select + BaseCondition + filter + between;
    assert Compose(Twice(select, between, rest), filter) == p + (BaseCondition + filter + rest);
    EndsWithAppend(p, BaseCondition + filter + rest);
  }

  /** A shape determines the filter it was composed with. */
  lemma ComposeDeterminesFilter(s: Shape, f: string, g: string)
    ensures Compose(s, f) == Compose(s, g) <==> f == g
  {
    match s
    case Once(a, r, z) =>
      SpliceCancel(a + BaseCondition, f, g, r + z);
      assert Compose(s, f) == a + BaseCondition + f + (r + z);
      assert Compose(s, g) == a + BaseCondition + g + (r + z);
    case Twice(a, m, z) =>
      var x := Compose(s, f);
      var y := Compose(s, g);
      var k := |a + BaseCondition|;
      if x == y {
        assert |f| == |g|;
        assert x[k..k + |f|] == f;
        assert y[k..k + |g|] == g;
      }
  }

  /** A filter that starts with a space leaves two spaces after `WHERE 1=1`. */
  lemma ComposeLeadingSpace(s: Shape, filter: string)
    requires filter != "" && filter[0] == ' '
    ensures Contains(Compose(s, filter), BaseCondition + " ")
  {
    ComposeFollows(s, filter);
    assert BaseCondition + filter == (BaseCondition + " ") + filter[1..] by {
      assert filter == " " + filter[1..];
    }
    ContainsPrefix(Compose(s, filter), BaseCondition + " ", filter[1..]);
  }

  /**
   A filter that is not blank is separated from `WHERE 1=1` by two spaces: the
   one ending the base condition and the one starting the composed filter.
   */
  lemma ComposeDoubleSpace(s: Shape, whereClause: Option<string>)
    requires !AllSpace(Fragment(whereClause))
    ensures Contains(Compose(s, WrapWhere(whereClause)), BaseCondition + " ")
  {
    WrapWhereShape(whereClause);
    ComposeLeadingSpace(s, WrapWhere(whereClause));
  }

  /** A restriction is recovered from the statement it was composed into. */
  lemma ComposeDeterminesRestriction(select: string, r1: string, r2: string, rest: string, filter: string)
    ensures Compose(Once(select, r1, rest), filter) == Compose(Once(select, r2, rest), filter) <==> r1 == r2
  {
    SpliceCancel(select + BaseCondition + filter, r1, r2, rest);
  }

  /**
   A statement whose `rest` closes with `closing` ends with it, and for a fixed
   filter the closing text is recovered from the statement.
   */
  lemma ComposeClosing(select: string, restriction: string, body: string, c1: string, c2: string, filter: string)
    ensures EndsWith(Compose(Once(select, restriction, body + c1), filter), c1)
    ensures Compose(Once(select, restriction, body + c1), filter) == Compose(Once(select, restriction, body + c2), filter)
      <==> c1 == c2
  {
    var p := select + BaseCondition + filter + restriction + body;
    assert Compose(Once(select, restriction, body + c1), filter) == p + c1;
    assert Compose(Once(select, restriction, body + c2), filter) == p + c2;
    EndsWithAppend(p, c1);
    PrefixCancel(p, c1, c2);
  }

  /**
   A clause between two fixed texts of `rest` occurs in the statement, directly
   followed by the text after it, and for
   a fixed filter it is recovered from the statement.
   */
  lemma ComposeSplice(select: string, restriction: string, before: string, h1: string, h2: string, after: string, filter: string)
    ensures Contains(Compose(Once(select, restriction, before + h1 + after), filter), h1 + after)
    ensures Compose(Once(select, restriction, before + h1 + after), filter) == Compose(Once(select, restriction, before + h2 + after), filter)
      <==> h1 == h2
  {
    var p := select + BaseCondition + filter + restriction + before;
    assert Compose(Once(select, restriction, before + h1 + after), filter) == p + h1 + after;
    assert Compose(Once(select, restriction, before + h2 + after), filter) == p + h2 + after;
    assert p + h1 + after == p + (h1 + after) + "";
    ContainsMiddle(p, h1 + after, "");
    SpliceCancel(p, h1, h2, after);
  }

  /**
   A statement whose `select` has a comparison `c` after a fixed `lead` starts
   with `lead + c`, and everything after the comparison is the statement of the
   shape without the lead and the comparison.
   */
  lemma ComposeAfterComparison(lead: string, c: string, select: string, rest: string, filter: string)
    ensures var x := Compose(Once(lead + c + select, "", rest), filter);
      && StartsWith(x, lead + c)
      && x[|lead + c|..] == Compose(Once(select, "", rest), filter)
  {
    var y := Compose(Once(select, "", rest), filter);
    assert Compose(Once(lead + c + select, "", rest), filter) == (lead + c) + y;
  }

  /** Distinct limits give distinct `LIMIT` clauses. */
  lemma LimitClauseInjective(m: int, n: int)
    ensures LimitClause(m) == LimitClause(n) <==> m == n
  {
    SpliceCancel("\n    LIMIT ", Render(m), Render(n), ";\n    ");
    RenderInjective(m, n);
  }

  /** Distinct thresholds give distinct `HAVING` clauses. */
  lemma HavingClauseInjective(m: int, n: int)
    ensures HavingClause(m) == HavingClause(n) <==> m == n
  {
    PrefixCancel("\n    HAVING occurrences >= ", Render(m), Render(n));
    RenderInjective(m, n);
  }

  /** No names give the restriction `AND category IN ()`. */
  lemma CategoryRestrictionEmpty()
    ensures CategoryRestriction([]) == " AND category IN ()"
  {
    QuotedListEmpty([]);
  }

  /** The `IN` restriction determines the quoted list inside it. */
  lemma CategoryRestrictionDeterminesList(a: seq<string>, b: seq<string>)
    ensures CategoryRestriction(a) == CategoryRestriction(b) <==> QuotedList(a) == QuotedList(b)
  {
    SpliceCancel(" AND category IN (", QuotedList(a), QuotedList(b), ")");
  }
}
