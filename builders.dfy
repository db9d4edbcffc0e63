/**
 Properties of single statement builders that relate several calls: the
 `LIMIT` and `HAVING` clauses determine their integer and render the
 defaults, the category list is spliced in unescaped, and the two half-year
 statements differ only in how their month comparison is spaced. What one
 call promises (where the filter, the restriction and the closing clause sit)
 is in each builder's own contract.
 */
module BuilderFacts {
  import opened Wrappers
  import opened Text
  import opened Decimal
  import opened FilterComposer
  import opened CategoryList
  import opened AnalyticsQueries

  /** For a fixed filter, the `top_categories` statement determines its limit. */
  lemma TopCategoriesDeterminesLimit(m: int, n: int, whereClause: Option<string>)
    ensures TopCategories(m, whereClause) == TopCategories(n, whereClause) <==> m == n
  {
    ComposeClosing(TopCategoriesSelect, "", TopCategoriesOrder, LimitClause(m), LimitClause(n), WrapWhere(whereClause));
    LimitClauseInjective(m, n);
  }

  /** For a fixed filter, the `cashback_transactions` statement determines its limit. */
  lemma CashbackTransactionsDeterminesLimit(m: int, n: int, whereClause: Option<string>)
    ensures CashbackTransactions(m, whereClause) == CashbackTransactions(n, whereClause) <==> m == n
  {
    ComposeClosing(CashbackTransactionsSelect, CashbackOnly, CashbackOrder, LimitClause(m), LimitClause(n), WrapWhere(whereClause));
    LimitClauseInjective(m, n);
  }

  /** For a fixed filter, the `top_transactions` statement determines its limit. */
  lemma TopTransactionsDeterminesLimit(m: int, n: int, whereClause: Option<string>)
    ensures TopTransactions(m, whereClause) == TopTransactions(n, whereClause) <==> m == n
  {
    ComposeClosing(TopTransactionsSelect, "", TopTransactionsOrder, LimitClause(m), LimitClause(n), WrapWhere(whereClause));
    LimitClauseInjective(m, n);
  }

  /** For a fixed filter, the `recurring_expenses` statement determines its threshold. */
  lemma RecurringExpensesDeterminesThreshold(m: int, n: int, whereClause: Option<string>)
    ensures RecurringExpenses(m, whereClause) == RecurringExpenses(n, whereClause) <==> m == n
  {
    ComposeSplice(RecurringExpensesSelect, "", GroupByCategory, HavingClause(m), HavingClause(n), RecurringOrder, WrapWhere(whereClause));
    HavingClauseInjective(m, n);
  }

  /** A blank filter adds nothing: the base condition runs straight into the grouping. */
  lemma TopCategoriesUnfiltered(limit: int, whereClause: Option<string>)
    requires AllSpace(Fragment(whereClause))
    ensures EndsWith(TopCategories(limit, whereClause), BaseCondition + (TopCategoriesOrder + LimitClause(limit)))
  {
    WrapWhereCases(whereClause);
    ComposeUnfiltered(TopCategoriesSelect, TopCategoriesOrder + LimitClause(limit), WrapWhere(whereClause));
  }

  /** By default `top_categories` keeps 5 rows. */
  lemma TopCategoriesDefault()
    ensures EndsWith(TopCategories(), LimitClause(5)) && LimitClause(5) == "\n    LIMIT 5;\n    "
  {
    assert LimitClause(5) == "\n    LIMIT 5;\n    " by {
      assert Render(5) == "5";
    }
  }

  /** By default `top_categories` has no filter: `WHERE 1=1 ` runs straight into the grouping. */
  lemma TopCategoriesDefaultUnfiltered()
    ensures EndsWith(TopCategories(), BaseCondition + (TopCategoriesOrder + LimitClause(5)))
  {
    TopCategoriesUnfiltered(5, Some(""));
  }

  /** By default `cashback_transactions` keeps 200 rows. */
  lemma CashbackTransactionsDefault()
    ensures EndsWith(CashbackTransactions(), LimitClause(200)) && LimitClause(200) == "\n    LIMIT 200;\n    "
  {
    assert LimitClause(200) == "\n    LIMIT 200;\n    " by {
      assert Render(200) == "200";
    }
  }

  /** By default `top_transactions` keeps 10 rows. */
  lemma TopTransactionsDefault()
    ensures EndsWith(TopTransactions(), LimitClause(10)) && LimitClause(10) == "\n    LIMIT 10;\n    "
  {
    assert LimitClause(10) == "\n    LIMIT 10;\n    " by {
      assert Render(10) == "10";
    }
  }

  /** By default `recurring_expenses` keeps categories seen at least twice. */
  lemma RecurringExpensesDefault()
    ensures Contains(RecurringExpenses(), HavingClause(2) + RecurringOrder)
      && HavingClause(2) == "\n    HAVING occurrences >= 2"
      && RecurringOrder == "\n    ORDER BY occurrences DESC;\n    "
  {
    assert HavingClause(2) == "\n    HAVING occurrences >= 2" by {
      assert Render(2) == "2";
    }
  }

  /** An empty category list gives the restriction `AND category IN ()`. */
  lemma MonthsForCategoriesEmpty(whereClause: Option<string>)
    ensures Contains(MonthsForCategories([], whereClause), CategoryRestriction([]))
      && CategoryRestriction([]) == " AND category IN ()"
  {
    CategoryRestrictionEmpty();
    ContainsSuffix(MonthsForCategories([], whereClause), BaseCondition + WrapWhere(whereClause), CategoryRestriction([]));
  }


  /** For quote-free names, the statement determines the list of categories, order included. */
  lemma MonthsForCategoriesDeterminesList(a: seq<string>, b: seq<string>, whereClause: Option<string>)
    requires AllQuoteFree(a) && AllQuoteFree(b)
    ensures MonthsForCategories(a, whereClause) == MonthsForCategories(b, whereClause) <==> a == b
  {
    var s := MonthsForCategoriesShape(a);
    ComposeDeterminesRestriction(s.select, CategoryRestriction(a), CategoryRestriction(b), s.rest, WrapWhere(whereClause));
    CategoryRestrictionDeterminesList(a, b);
    QuotedListInjective(a, b);
  }

  /** Names are not escaped: the one category `a','b` selects the same as the two categories `a` and `b`. */
  lemma MonthsForCategoriesQuoteInName(a: string, b: string, whereClause: Option<string>)
    ensures MonthsForCategories([a + "','" + b], whereClause) == MonthsForCategories([a, b], whereClause)
  {
    QuoteInName(a, b);
  }

  /**
   The two half-year statements agree after the month comparison and differ in
   it: `<= 6` in `compare_h1_h2`, `<=6` in `h1_vs_h2_spending`.
   */
  lemma HalfYearComparison(whereClause: Option<string>)
    ensures StartsWith(CompareH1H2(whereClause), HalfCase + "<= 6")
    ensures StartsWith(H1VsH2Spending(whereClause), HalfCase + "<=6")
    ensures CompareH1H2(whereClause)[|HalfCase| + 4..] == H1VsH2Spending(whereClause)[|HalfCase| + 3..]
    ensures CompareH1H2(whereClause) != H1VsH2Spending(whereClause)
  {
    var f := WrapWhere(whereClause);
    ComposeAfterComparison(HalfCase, "<= 6", HalfColumns, HalfGroup, f);
    ComposeAfterComparison(HalfCase, "<=6", HalfColumns, HalfGroup, f);
  }
}
