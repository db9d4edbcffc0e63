# Expense analytics: the SQL statement builders

This project models the statement-builder layer of the expense-analytics
application (`analytics_queries.py`) and proves properties of it. The layer
has two parts, both pure string functions.

- `wrap_where` turns an optional user filter into the text that follows the
  base condition `WHERE 1=1 `. It strips the filter. An empty or blank
  filter gives nothing. A filter that already starts with `AND ` (in any
  letter case) gets one leading space. Any other filter gets ` AND ` in front.
- Eighteen builders each return one SQL statement. In each statement the
  composed filter sits behind `WHERE 1=1 `, in two places for the two
  contribution statements. Some builders also splice in an `int(...)`-rendered
  `LIMIT` or `HAVING` value, or a quoted `IN (...)` list of categories.

Module layout:

- `Wrappers`: `Option`. `None` models Python's `None`.
- `Text`: Python's `strip()` (with Python's whitespace set), `upper()`,
  `startswith` and `join` on `seq<char>`, and facts about substrings.
- `Decimal`: `str(int(n))` with its inverse.
- `FilterComposer`: `wrap_where`. `Continuation` is its branching on the
  stripped text.
- `CategoryList`: the quoted, comma-joined name list of
  `months_for_categories`, with a parser that inverts it on quote-free names.
- `AnalyticsQueries`: the builders. Each f-string is a `Shape` holding
  - the text before the base condition;
  - the text after the filter;
  - for `Once`, the hard-coded restriction that shares the filter's line;
  - for `Twice`, the text between the two filters.

  The statement is `Compose(shape, WrapWhere(whereClause))`. The statement
  texts are copied from the source, including their indentation and newlines.
- `BuilderFacts`: properties that relate several builder calls.

The filter parameter is `Option<string>`. Its default `""` is `Some("")`;
`None` gives the same result (`where_clause or ""`).

The f-strings write `WHERE 1=1 ` (with its trailing space) before a
composed filter that itself starts with a space, so a statement reads
`WHERE 1=1  AND category='Food'`, with two spaces. With no filter, the
trailing space stays. `ComposeDoubleSpace` states this.

## Model

| member | source | states |
|---|---|---|
| FilterComposer.Fragment | analytics_queries.py:4 | `where_clause or ""`: the filter text, `""` for `None` |
| FilterComposer.AndPrefixed | analytics_queries.py:8 | the text starts with `a`/`A`, `n`/`N`, `d`/`D` and a space |
| FilterComposer.Continuation | analytics_queries.py:5-11 | renders a stripped filter: `""` for empty, one space before an `AND `-led filter, ` AND ` before any other |
| FilterComposer.WrapWhere | analytics_queries.py:2-11 | renders `wrap_where(where_clause)`: the continuation of the stripped filter |
| FilterComposer.WrapWhereCases | analytics_queries.py:2-11 | a blank (or missing) filter gives `""`; a stripped filter `t` that starts with `and ` in any case gives `" " + t`; any other gives `" AND " + t` |
| FilterComposer.ContinuationCases | analytics_queries.py:5-11 | the three branches on the stripped text, with the upper-casing test replaced by the letters it accepts |
| FilterComposer.UpperStartsWithAnd | analytics_queries.py:8 | `t.upper().startswith("AND ")` holds exactly when `t` starts with `a`/`A`, `n`/`N`, `d`/`D` and a space |
| FilterComposer.WrapWhereShape | analytics_queries.py:4-11 | the result is empty exactly for a blank filter; otherwise it is one space and an `AND `-led condition with no whitespace at either end, and it ends with the stripped filter |
| FilterComposer.ContinuationIdempotent | analytics_queries.py:4-11 | framing a stripped text, stripping the result and framing again gives the first framing back |
| FilterComposer.WrapWhereIdempotent | analytics_queries.py:2-11 | `wrap_where(wrap_where(x)) == wrap_where(x)` |
| FilterComposer.WrapWhereFixedPoints | analytics_queries.py:2-11 | `wrap_where` leaves `s` unchanged exactly when `s` is empty or is a space followed by a stripped `AND `-led condition, which is exactly the set of values it returns |
| FilterComposer.WrapWherePadded | analytics_queries.py:4-11 | for a filter that is whitespace, a non-empty stripped `t` and whitespace, the result is `" " + t` or `" AND " + t` by the `AND` test on `t` |
| FilterComposer.WrapWhereBareAnd | analytics_queries.py:8-11 | the filter `AND` alone has no space after it, so it gets a second `AND`: `" AND AND"` |
| FilterComposer.WrapWhereIgnoresPadding | analytics_queries.py:4 | whitespace around any filter does not change the composed filter |
| Text.IsSpace | analytics_queries.py:4 | the code points Python's `str.isspace()` accepts |
| Text.ToUpper | analytics_queries.py:8 | upper-cases one ASCII letter and leaves every other character unchanged |
| Text.Upper | analytics_queries.py:8 | `upper()`: each character upper-cased by `ToUpper`, length kept |
| Text.StartsWith | analytics_queries.py:8 | `startswith`: the prefix is the first characters of the text |
| Text.Join | analytics_queries.py:73 | `sep.join(parts)`: the parts in order, `sep` between neighbours, `""` for no parts |
| Text.Strip | analytics_queries.py:4 | `strip()` returns text with no whitespace at either end and is no longer than its input |
| Text.TrimStart | analytics_queries.py:4 | the result is a suffix of the input; what it drops is all whitespace; it does not start with whitespace |
| Text.TrimEnd | analytics_queries.py:4 | the result is a prefix of the input; what it drops is all whitespace; it does not end with whitespace |
| Text.StripPadding | analytics_queries.py:4 | every text is whitespace, then its `strip()`, then whitespace |
| Text.StripPadded | analytics_queries.py:4 | `strip()` returns exactly the stripped core of any whitespace padding |
| Text.StripEmpty | analytics_queries.py:4-5 | `strip()` is empty exactly for all-whitespace input |
| Text.StripIgnoresPadding | analytics_queries.py:4 | adding whitespace around any text does not change its `strip()` |
| Text.StripStripped | analytics_queries.py:4 | text without whitespace at either end is its own `strip()` |
| Text.StripIdempotent | analytics_queries.py:4 | stripping twice is stripping once |
| Decimal.Digits | analytics_queries.py:51 | the digits of a natural number are non-empty decimal digits, with a leading `0` only for zero |
| Decimal.Render | analytics_queries.py:51 | `str(int(n))` is non-empty, starts with `-` exactly for negative `n`, and is otherwise all digits |
| Decimal.DigitsRoundTrip | analytics_queries.py:51 | the digits read back as the number |
| Decimal.RenderRoundTrip | analytics_queries.py:51 | the rendered integer parses back to itself |
| Decimal.RenderInjective | analytics_queries.py:51 | two integers render to the same text exactly when they are equal |
| CategoryList.Quote | analytics_queries.py:73 | `f"'{c}'"`: one name between single quotes, unescaped |
| CategoryList.QuotedNames | analytics_queries.py:73 | the list comprehension: every name quoted, in order |
| CategoryList.QuotedList | analytics_queries.py:73 | `",".join` of the quoted names: the text inside `IN (...)` |
| CategoryList.NameLength | analytics_queries.py:73 | the length of the run of non-quote characters at the start of a text: that prefix is quote-free and ends at a quote or at the end |
| CategoryList.QuotedListCons | analytics_queries.py:73 | a list of two or more names renders as the first quoted name, a comma, and the rendering of the rest |
| CategoryList.ParseItemsStep | analytics_queries.py:73 | reading one quoted quote-free name, followed by the end or by a comma and more |
| CategoryList.ParseItemsRoundTrip | analytics_queries.py:73 | a non-empty list of quote-free names is read back from its rendering |
| CategoryList.QuotedListRoundTrip | analytics_queries.py:73 | `ParseQuotedList` inverts the rendering on quote-free names, the empty list included |
| CategoryList.QuotedListInjective | analytics_queries.py:73 | on quote-free names, two lists render alike exactly when they are equal, in order |
| CategoryList.QuotedListEmpty | analytics_queries.py:73 | the rendering is empty exactly for the empty list |
| CategoryList.QuoteInName | analytics_queries.py:73 | names are not escaped: the one name `a','b` renders exactly as the two names `a` and `b` |
| AnalyticsQueries.Compose | analytics_queries.py:13-177 | renders an f-string: its text with the composed filter in each `{wrap_where(where_clause)}` field, once or twice |
| AnalyticsQueries.LimitClause | analytics_queries.py:51 | renders `LIMIT {int(limit)};` with the line break before it and the closing indentation |
| AnalyticsQueries.HavingClause | analytics_queries.py:90 | renders `HAVING occurrences >= {int(min_occurrences)}` with the line break before it |
| AnalyticsQueries.CategoryRestriction | analytics_queries.py:77 | renders ` AND category IN ({cats})` around the quoted list |
| AnalyticsQueries.TopCategoriesShape | analytics_queries.py:44-52 | the f-string of `top_categories` around its rendered limit |
| AnalyticsQueries.CashbackTransactionsShape | analytics_queries.py:62-69 | the f-string of `cashback_transactions` around its rendered limit |
| AnalyticsQueries.MonthsForCategoriesShape | analytics_queries.py:71-80 | the f-string of `months_for_categories` around its `IN` restriction |
| AnalyticsQueries.RecurringExpensesShape | analytics_queries.py:82-92 | the f-string of `recurring_expenses` around its rendered threshold |
| AnalyticsQueries.TopTransactionsShape | analytics_queries.py:124-131 | the f-string of `top_transactions` around its rendered limit |
| AnalyticsQueries.TotalByCategory | analytics_queries.py:13-20 | the composed filter follows `WHERE 1=1 `; after the filter, the statement is exactly the rest of the f-string (`GROUP BY category`, the ordering) |
| AnalyticsQueries.TotalByPaymentMode | analytics_queries.py:22-28 | the composed filter follows `WHERE 1=1 `; after the filter, the statement is exactly the rest of the f-string (`GROUP BY payment_mode;`) |
| AnalyticsQueries.TotalCashback | analytics_queries.py:30-31 | the composed filter follows `WHERE 1=1 ` and the statement ends with it and `;` |
| AnalyticsQueries.MonthlySpending | analytics_queries.py:33-42 | the composed filter follows `WHERE 1=1 `; after the filter, the statement is exactly the rest of the f-string (`GROUP BY month`, `ORDER BY month;`) |
| AnalyticsQueries.TopCategories | analytics_queries.py:44-52 | the statement ends with `WHERE 1=1 `, the composed filter, the grouping and ordering, and `LIMIT {int(limit)};` with the closing indentation |
| AnalyticsQueries.TransportByPayment | analytics_queries.py:54-60 | the statement ends with `WHERE 1=1 `, the composed filter, ` AND category = 'Transportation'` and `GROUP BY payment_mode;` |
| AnalyticsQueries.CashbackTransactions | analytics_queries.py:62-69 | the statement ends with `WHERE 1=1 `, the composed filter, ` AND cashback > 0`, `ORDER BY cashback DESC` and `LIMIT {int(limit)};` |
| AnalyticsQueries.MonthsForCategories | analytics_queries.py:71-80 | the statement ends with `WHERE 1=1 `, the composed filter, ` AND category IN (...)` with the quoted names, and the grouping and ordering |
| AnalyticsQueries.RecurringExpenses | analytics_queries.py:82-92 | the statement ends with `WHERE 1=1 `, the composed filter, `GROUP BY category`, `HAVING occurrences >= {int(min_occurrences)}` and `ORDER BY occurrences DESC;`, the threshold closed by the ordering |
| AnalyticsQueries.MonthlyCashback | analytics_queries.py:94-101 | the composed filter follows `WHERE 1=1 `; after the filter, the statement is exactly the rest of the f-string (`GROUP BY month`, `ORDER BY month;`) |
| AnalyticsQueries.CategoryContributionPct | analytics_queries.py:103-112 | the subquery's `WHERE 1=1 ` is followed by the composed filter and the text closing the subquery; the statement ends with the same `WHERE 1=1 ` and composed filter, then `GROUP BY category` and the ordering |
| AnalyticsQueries.AvgTxnByCategory | analytics_queries.py:115-122 | the composed filter follows `WHERE 1=1 `; after the filter, the statement is exactly the rest of the f-string (`GROUP BY category`, the ordering) |
| AnalyticsQueries.TopTransactions | analytics_queries.py:124-131 | the statement ends with `WHERE 1=1 `, the composed filter, `ORDER BY amount DESC` and `LIMIT {int(limit)};` |
| AnalyticsQueries.WeekdaySpending | analytics_queries.py:133-141 | the composed filter follows `WHERE 1=1 `; after the filter, the statement is exactly the rest of the f-string (`GROUP BY weekday`, `ORDER BY weekday;`) |
| AnalyticsQueries.CompareH1H2 | analytics_queries.py:143-150 | the composed filter follows `WHERE 1=1 `; after the filter, the statement is exactly the rest of the f-string (`GROUP BY half;`) |
| AnalyticsQueries.H1VsH2Spending | analytics_queries.py:151-158 | the composed filter follows `WHERE 1=1 `; after the filter, the statement is exactly the rest of the f-string (`GROUP BY half;`) |
| AnalyticsQueries.GroceryWeekendPattern | analytics_queries.py:160-167 | the statement ends with `WHERE 1=1 `, the composed filter, ` AND category='Grocery'` and `GROUP BY day_type;` |
| AnalyticsQueries.CategoryContribution | analytics_queries.py:169-177 | the same composed filter closes both conditions; the outer one is followed directly by `ORDER BY pct_contribution DESC;`, with no `GROUP BY` between |
| AnalyticsQueries.ComposeFollows | analytics_queries.py:13-177 | in every statement shape the (first) composed filter follows `WHERE 1=1 ` and is followed by the shape's restriction or inter-filter text |
| AnalyticsQueries.ComposeUnfiltered | analytics_queries.py:13-177 | with an empty composed filter, a one-filter statement ends with `WHERE 1=1 ` followed directly by the rest of the f-string, the trailing space kept |
| AnalyticsQueries.ComposeTwiceEnds | analytics_queries.py:106-112 | a statement with two filters ends with `WHERE 1=1 `, the same filter again, and the shape's closing text |
| AnalyticsQueries.ComposeDeterminesFilter | analytics_queries.py:13-177 | for every shape, two composed filters give the same statement exactly when they are equal: the filter is the only part that varies with `where_clause` |
| AnalyticsQueries.ComposeLeadingSpace | analytics_queries.py:17 | a composed filter starting with a space leaves two spaces after `WHERE 1=1` |
| AnalyticsQueries.ComposeDoubleSpace | analytics_queries.py:2-17 | for any non-blank filter, every statement holds `WHERE 1=1` followed by two spaces |
| AnalyticsQueries.ComposeDeterminesRestriction | analytics_queries.py:77 | for a fixed filter, the restriction (such as the `IN` list) is recovered from the statement |
| AnalyticsQueries.ComposeClosing | analytics_queries.py:44-52 | a statement ends with its closing clause, and for a fixed filter the closing clause is recovered from the statement |
| AnalyticsQueries.ComposeSplice | analytics_queries.py:88-92 | a clause between fixed texts after the filter occurs in the statement, directly followed by the text after it, and is recovered from it |
| AnalyticsQueries.ComposeOnceEnds | analytics_queries.py:13-177 | a statement with one filter ends with `WHERE 1=1 `, the composed filter, the restriction and the rest of the f-string, so nothing follows the filter but that text |
| AnalyticsQueries.ComposeAfterComparison | analytics_queries.py:143-158 | a statement starts with its leading text and the month comparison, and after the comparison it is the statement without them |
| AnalyticsQueries.LimitClauseInjective | analytics_queries.py:51 | distinct limits give distinct `LIMIT` clauses |
| AnalyticsQueries.HavingClauseInjective | analytics_queries.py:90 | distinct thresholds give distinct `HAVING` clauses |
| AnalyticsQueries.CategoryRestrictionEmpty | analytics_queries.py:77 | no names give ` AND category IN ()` |
| AnalyticsQueries.CategoryRestrictionDeterminesList | analytics_queries.py:77 | the `IN` restriction determines the quoted list inside it |
| BuilderFacts.TopCategoriesDeterminesLimit | analytics_queries.py:44-52 | for a fixed filter, two limits give the same statement exactly when they are equal |
| BuilderFacts.CashbackTransactionsDeterminesLimit | analytics_queries.py:62-69 | for a fixed filter, two limits give the same statement exactly when they are equal |
| BuilderFacts.TopTransactionsDeterminesLimit | analytics_queries.py:124-131 | for a fixed filter, two limits give the same statement exactly when they are equal |
| BuilderFacts.RecurringExpensesDeterminesThreshold | analytics_queries.py:82-92 | for a fixed filter, two thresholds give the same statement exactly when they are equal |
| BuilderFacts.TopCategoriesDefault | analytics_queries.py:44-52 | with no arguments the statement ends with `LIMIT 5;` |
| BuilderFacts.TopCategoriesUnfiltered | analytics_queries.py:44-52 | for a blank or missing filter, the statement ends with `WHERE 1=1 ` followed directly by the grouping, the ordering and `LIMIT {int(limit)};` |
| BuilderFacts.TopCategoriesDefaultUnfiltered | analytics_queries.py:44-52 | with no arguments nothing is added after `WHERE 1=1 `: the default `where_clause` is an empty filter |
| BuilderFacts.CashbackTransactionsDefault | analytics_queries.py:62-69 | with no arguments the statement ends with `LIMIT 200;` |
| BuilderFacts.TopTransactionsDefault | analytics_queries.py:124-131 | with no arguments the statement ends with `LIMIT 10;` |
| BuilderFacts.RecurringExpensesDefault | analytics_queries.py:82-92 | with no arguments the statement holds `HAVING occurrences >= 2` directly followed by `ORDER BY occurrences DESC;` |
| BuilderFacts.MonthsForCategoriesEmpty | analytics_queries.py:71-80 | an empty category list gives ` AND category IN ()` in the statement |
| BuilderFacts.MonthsForCategoriesDeterminesList | analytics_queries.py:71-80 | for quote-free names and a fixed filter, two lists give the same statement exactly when they are equal, in order |
| BuilderFacts.MonthsForCategoriesQuoteInName | analytics_queries.py:71-80 | the one category `a','b` gives the same statement as the two categories `a` and `b` |
| BuilderFacts.HalfYearComparison | analytics_queries.py:143-158 | `compare_h1_h2` compares with `<= 6` and `h1_vs_h2_spending` with `<=6`; after the comparison the two statements are identical, and the statements differ |

## Left out

- `Text.Upper` upper-cases ASCII letters only. Python's `str.upper()` maps all
  of Unicode and can change the length of the text (`ß` becomes `SS`). The
  model keeps the `AND ` test exact for `a`/`A`, `n`/`N`, `d`/`D` and a space.
  It does not consider non-ASCII letters whose upper case could begin with
  `AND `.
- `Text.Strip` uses the code points Python's `str.isspace()` accepts. Unicode
  database updates beyond that fixed list are not modelled.
- `int(...)` is modelled on integers only. Its coercion of floats
  (truncation), numeric strings and booleans, and its errors on other values,
  are not modelled: the parameters are `int`.
- `Decimal.Render`: it is total. Python (3.11 and later) raises `ValueError`
  when `f"{int(n)}"` formats an integer of more than 4300 digits, and that
  error is not modelled. So `LimitClause`, `HavingClause` and the
  `top_categories`, `cashback_transactions`, `top_transactions` and
  `recurring_expenses` builders return a statement where the source raises.
- `where_clause` is a string or `None`. Other values that Python's `or` would
  pass through are not modelled.
- Each builder's relation to the others and to every filter is proved for
  every `Shape` (`ComposeFollows`, `ComposeDeterminesFilter`,
  `ComposeDoubleSpace`). Each builder is one application of `Compose` to its
  shape, and there is no separate lemma per builder for these.
- `AnalyticsQueries.CategoryContribution`: the contract shows that no
  `GROUP BY` sits between the outer filter and the ordering. It does not
  state that `GROUP BY` appears nowhere in the statement.
- What the statements compute when SQLite runs them (`strftime`, `ROUND`,
  `SUM` over floating point, `GROUP_CONCAT`) is not modelled. Neither is any
  claim about query results, such as percentages adding up to 100.
- `streamlit_app.py`, `analytics_charts.py`, `data_simulation.py` and
  `init_db.py` are not part of this model: they are user interface,
  charting, random data generation and database I/O.
