/**
 The `IN (...)` list of `months_for_categories`: every name wrapped in single
 quotes, in input order, joined by `,`, with no escaping. A list of names
 without quotes can be read back from its rendering; a name holding a quote
 can pass for several names.
 */
module CategoryList {
  import opened Wrappers
  import opened Text

  /** `f"'{c}'"` */
  function Quote(name: string): string {
    "'" + name + "'"
  }

  /** The list comprehension `[f"'{c}'" for c in categories]`. */
  function QuotedNames(names: seq<string>): seq<string> {
    seq(|names|, i requires 0 <= i < |names| => Quote(names[i]))
  }

  /** `",".join(...)` of the quoted names: the text spliced between the parentheses. */
  function QuotedList(names: seq<string>): string {
    Join(",", QuotedNames(names))
  }

  predicate QuoteFree(name: string) {
    forall i :: 0 <= i < |name| ==> name[i] != '\''
  }

  predicate AllQuoteFree(names: seq<string>) {
    forall i :: 0 <= i < |names| ==> QuoteFree(names[i])
  }

  /** The length of the run of non-quote characters that starts `s`. */
  function NameLength(s: string): (n: nat)
    ensures n <= |s|
    ensures n < |s| ==> s[n] == '\''
    ensures QuoteFree(s[..n])
    decreases |s|
  {
    if s == [] || s[0] == '\'' then 0
    else
      var k := NameLength(s[1..]);
      assert s[..k + 1] == [s[0]] + s[1..][..k];
      1 + k
  }

  /**
   Reads `'n1','n2',...,'nk'` (k at least one) back into its names; any other
   text is rejected.
   */
  function ParseItems(s: string): Option<seq<string>>
    decreases |s|
  {
    if s == [] || s[0] != '\'' then None
    else
      var body := s[1..];
      var n := NameLength(body);
      if n == |body| then None
      else
        var rest := body[n + 1..];
        if rest == [] then Some([body[..n]])
        else if rest[0] != ',' then None
        else match ParseItems(rest[1..])
          case None => None
          case Some(names) => Some([body[..n]] + names)
  }

  /** The inverse of `QuotedList`: the empty text is the empty list. */
  function ParseQuotedList(s: string): Option<seq<string>> {
    if s == [] then Some([]) else ParseItems(s)
  }

  lemma {:induction false} NameLengthPrefix(c: string, t: string)
    requires QuoteFree(c) && t != [] && t[0] == '\''
    ensures NameLength(c + t) == |c|
    decreases |c|
  {
    if c == [] {
      assert c + t == t;
    } else {
      assert (c + t)[1..] == c[1..] + t;
      NameLengthPrefix(c[1..], t);
    }
  }

  /** A list of two or more names renders as its first quoted name, a comma, and the rest. */
  lemma QuotedListCons(names: seq<string>)
    requires |names| > 1
    ensures QuotedList(names) == Quote(names[0]) + "," + QuotedList(names[1..])
  {
    assert QuotedNames(names)[1..] == QuotedNames(names[1..]);
  }

  /** One quoted name, then either the end of the text or a comma and more. */
  lemma ParseItemsStep(name: string, tail: string)
    requires QuoteFree(name) && (tail == "" || tail[0] == ',')
    ensures ParseItems(Quote(name) + tail) ==
      if tail == "" then Some([name])
      else match ParseItems(tail[1..])
        case None => None
        case Some(names) => Some([name] + names)
  {
    var s := Quote(name) + tail;
    var body := s[1..];
    assert body == name + ("'" + tail);
    NameLengthPrefix(name, "'" + tail);
    assert body[..|name|] == name;
    assert body[|name| + 1..] == tail;
  }

  /** Reading the rendering of a non-empty list of quote-free names gives the list back. */
  lemma {:induction false} ParseItemsRoundTrip(names: seq<string>)
    requires names != [] && AllQuoteFree(names)
    ensures ParseItems(QuotedList(names)) == Some(names)
    decreases |names|
  {
    var name := names[0];
    if |names| == 1 {
      assert QuotedList(names) == Quote(name) + "" by {
        assert QuotedNames(names) == [Quote(name)];
      }
      ParseItemsStep(name, "");
      assert [name] == names;
    } else {
      var rest := names[1..];
      var tail := "," + QuotedList(rest);
      assert AllQuoteFree(rest) by {
        forall i | 0 <= i < |rest| ensures QuoteFree(rest[i]) {
          assert rest[i] == names[i + 1];
        }
      }
      ParseItemsRoundTrip(rest);
      assert QuotedList(names) == Quote(name) + tail by {
        QuotedListCons(names);
      }
      assert ParseItems(Quote(name) + tail) == Some([name] + rest) by {
        ParseItemsStep(name, tail);
        assert tail[1..] == QuotedList(rest);
      }
      assert [name] + rest == names;
    }
  }

  /** `ParseQuotedList` inverts `QuotedList` on quote-free names, the empty list included. */
  lemma QuotedListRoundTrip(names: seq<string>)
    requires AllQuoteFree(names)
    ensures ParseQuotedList(QuotedList(names)) == Some(names)
  {
    if names == [] {
    } else {
      ParseItemsRoundTrip(names);
      assert QuotedNames(names)[0] == Quote(names[0]);
    }
  }

  /** On quote-free names the rendering loses nothing: distinct lists give distinct texts. */
  lemma QuotedListInjective(a: seq<string>, b: seq<string>)
    requires AllQuoteFree(a) && AllQuoteFree(b)
    ensures QuotedList(a) == QuotedList(b) <==> a == b
  {
    QuotedListRoundTrip(a);
    QuotedListRoundTrip(b);
  }

  /** The list is empty exactly when there are no names: the statement then says `IN ()`. */
  lemma QuotedListEmpty(names: seq<string>)
    ensures QuotedList(names) == "" <==> names == []
  {
    if names != [] {
      var q := QuotedNames(names);
      assert q[0] == Quote(names[0]);
      if |q| > 1 {
        assert QuotedList(names)[0] == '\'';
      }
    }
  }

  /**
   Names are quoted, not escaped: the one name `a','b` renders exactly as the
   two names `a` and `b`.
   */
  lemma QuoteInName(a: string, b: string)
    ensures QuotedList([a + "','" + b]) == QuotedList([a, b])
  {
    QuotedListCons([a, b]);
    assert [a, b][1..] == [b];
    assert QuotedList([b]) == Quote(b);
    assert QuotedList([a + "','" + b]) == Quote(a + "','" + b);
    assert "','" == "'" + "," + "'";
  }
}
