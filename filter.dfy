/**
 `wrap_where`: turns the optional user filter into the text that follows the
 base condition `WHERE 1=1 ` in every statement of the catalog.
 */
module FilterComposer {
  import opened Wrappers
  import opened Text

  /** `where_clause or ""`: `None` and the empty string both give "". */
  function Fragment(whereClause: Option<string>): string {
    match whereClause
    case None => ""
    case Some(s) => s
  }

  /**
   The fragment is already framed as a continuation: it starts with `and`, in
   any letter case, followed by a space.
   */
  predicate AndPrefixed(t: string) {
    && |t| >= 4
    && (t[0] == 'a' || t[0] == 'A')
    && (t[1] == 'n' || t[1] == 'N')
    && (t[2] == 'd' || t[2] == 'D')
    && t[3] == ' '
  }

  /** The branches of `wrap_where` on the trimmed filter `t`. */
  function Continuation(t: string): string {
    if t == "" then ""
    else if StartsWith(Upper(t), "AND ") then " " + t
    else " AND " + t
  }

  /**
   The composed filter: `where_clause or ""`, stripped, then framed by
   `Continuation`. Its cases are `WrapWhereCases`, the shape of what it
   returns is `WrapWhereShape`.
   */
  function WrapWhere(whereClause: Option<string>): string {
    Continuation(Strip(Fragment(whereClause)))
  }

  /**
   Nothing for a blank filter; otherwise one space and a condition that
   starts with `AND ` (the caller's own, or one put in front), has no
   whitespace at either end, and ends with the trimmed filter.
   */
  lemma WrapWhereShape(whereClause: Option<string>)
    ensures var r := WrapWhere(whereClause);
      && (r == "" <==> AllSpace(Fragment(whereClause)))
      && (r != "" ==> r[0] == ' ' && AndPrefixed(r[1..]) && Stripped(r[1..]))
      && (r != "" ==> EndsWith(r, Strip(Fragment(whereClause))))
  {
    var t := Strip(Fragment(whereClause));
    StripEmpty(Fragment(whereClause));
    UpperStartsWithAnd(t);
    Framings(t);
  }

  /** The two ways of framing a trimmed filter `t` as a continuation. */
  lemma Framings(t: string)
    ensures (" " + t)[1..] == t && EndsWith(" " + t, t)
    ensures (" AND " + t)[1..] == "AND " + t && AndPrefixed("AND " + t) && EndsWith(" AND " + t, t)
    ensures Stripped(t) && t != [] ==> Stripped("AND " + t)
  {
    assert (" AND " + t)[1..] == "AND " + t;
    assert (" " + t)[1..] == t;
  }

  /** `t.upper().startswith("AND ")` holds exactly when `t` is `AndPrefixed`. */
  lemma UpperStartsWithAnd(t: string)
    ensures StartsWith(Upper(t), "AND ") <==> AndPrefixed(t)
  {
    if |t| >= 4 {
      var u := Upper(t);
      assert u[..4] == [u[0], u[1], u[2], u[3]];
      assert "AND " == ['A', 'N', 'D', ' '];
    }
  }

  /** The branches of `Continuation`, stated without reference to upper-casing. */
  lemma ContinuationCases(t: string)
    ensures t == "" ==> Continuation(t) == ""
    ensures t != "" && AndPrefixed(t) ==> Continuation(t) == " " + t
    ensures t != "" && !AndPrefixed(t) ==> Continuation(t) == " AND " + t
  {
    UpperStartsWithAnd(t);
  }

  /** The three cases, each stated without reference to upper-casing. */
  lemma WrapWhereCases(whereClause: Option<string>)
    ensures AllSpace(Fragment(whereClause)) ==> WrapWhere(whereClause) == ""
    ensures var t := Strip(Fragment(whereClause));
      !AllSpace(Fragment(whereClause)) && AndPrefixed(t) ==> WrapWhere(whereClause) == " " + t
    ensures var t := Strip(Fragment(whereClause));
      !AllSpace(Fragment(whereClause)) && !AndPrefixed(t) ==> WrapWhere(whereClause) == " AND " + t
  {
    StripEmpty(Fragment(whereClause));
    ContinuationCases(Strip(Fragment(whereClause)));
  }

  /** A space in front of a non-blank stripped text is exactly what `strip()` takes off. */
  lemma StripLeadingSpace(s: string)
    requires s != "" && s[0] == ' ' && Stripped(s[1..]) && s[1..] != ""
    ensures Strip(s) == s[1..] && !AllSpace(s)
  {
    assert s == [s[0]] + s[1..] + [];
    StripPadded([s[0]], s[1..], []);
    StripEmpty(s);
  }

  /** Framing a stripped text, stripping the result and framing again changes nothing. */
  lemma ContinuationIdempotent(t: string)
    requires Stripped(t)
    ensures Continuation(Strip(Continuation(t))) == Continuation(t)
  {
    ContinuationCases(t);
    if t != "" {
      var u := if AndPrefixed(t) then t else "AND " + t;
      assert Continuation(t) == " " + u by {
        Framings(t);
      }
      assert AndPrefixed(u) && Stripped(u) by {
        Framings(t);
      }
      assert Strip(" " + u) == u by {
        assert (" " + u)[1..] == u;
        StripLeadingSpace(" " + u);
      }
      ContinuationCases(u);
    }
  }

  /** Composing an already composed filter gives it back unchanged. */
  lemma WrapWhereIdempotent(whereClause: Option<string>)
    ensures WrapWhere(Some(WrapWhere(whereClause))) == WrapWhere(whereClause)
  {
    ContinuationIdempotent(Strip(Fragment(whereClause)));
  }

  /**
   The strings `wrap_where` can return are exactly the ones it leaves alone:
   its image is the set of its fixed points.
   */
  lemma WrapWhereFixedPoints(s: string)
    ensures WrapWhere(Some(s)) == s <==> (s == "" || (s[0] == ' ' && AndPrefixed(s[1..]) && Stripped(s[1..])))
  {
    if s != "" && s[0] == ' ' && AndPrefixed(s[1..]) && Stripped(s[1..]) {
      assert WrapWhere(Some(s)) == s by {
        StripLeadingSpace(s);
        WrapWhereCases(Some(s));
        assert " " + s[1..] == s;
      }
    } else if s != "" {
      assert WrapWhere(Some(s)) != s by {
        WrapWhereShape(Some(s));
      }
    }
  }

  /** `wrap_where` on a blank-padded filter: the padding goes, the three cases decide the rest. */
  lemma WrapWherePadded(whereClause: Option<string>, p: string, t: string, q: string)
    requires Fragment(whereClause) == p + t + q
    requires AllSpace(p) && AllSpace(q) && Stripped(t) && t != []
    ensures WrapWhere(whereClause) == if AndPrefixed(t) then " " + t else " AND " + t
  {
    StripPadded(p, t, q);
    StripEmpty(p + t + q);
    WrapWhereCases(whereClause);
  }

  /** A filter that says only `AND` is not framed as a continuation and gets a second `AND`. */
  lemma WrapWhereBareAnd(whereClause: Option<string>)
    requires Fragment(whereClause) == "AND"
    ensures WrapWhere(whereClause) == " AND AND"
  {
    assert "" + "AND" + "" == "AND";
    WrapWherePadded(whereClause, "", "AND", "");
  }

  /** Whitespace around the filter makes no difference to the composed filter. */
  lemma WrapWhereIgnoresPadding(p: string, t: string, q: string)
    requires AllSpace(p) && AllSpace(q)
    ensures WrapWhere(Some(p + t + q)) == WrapWhere(Some(t))
  {
    StripIgnoresPadding(p, t, q);
    assert Fragment(Some(p + t + q)) == p + t + q;
  }
}
