/** What the parser makes of missing, odd and wrong parameters. */
module PaginationQueries {
  import opened Prelude
  import opened Pagination

  // ------------------------------------------------------------------ defaults

  const NONE: Query := Query(None, None, None, None, None)

  const FIRST: Page := Page(1, 100, Asc, ParamParts(None, None), ParamParts(None, None))

  lemma Numerals()
    ensures ParseInt("1", I32_MIN, I32_MAX) == Some(1) && ParseInt("100", I64_MIN, I64_MAX) == Some(100)
    ensures AllDigits("1")
  {
    assert Value("") == 0;
    assert "1"[..0] == "" && Value("1") == 1;
    assert "10"[..1] == "1" && Value("10") == 10;
    assert "100"[..2] == "10" && Value("100") == 100;
  }

  /** A missing parameter stands for the first page, a hundred entries, ascending order, or no bound. */
  lemma MissingParameters(q: Query)
    requires FromQuery(q).Ok?
    ensures var p := FromQuery(q).value;
      && (q.page.None? ==> p.page == 1) && (q.count.None? ==> p.count == 100) && (q.order.None? ==> p.order == Asc)
      && (q.from.None? ==> p.from == ParamParts(None, None)) && (q.to.None? ==> p.to == ParamParts(None, None))
  {
    Numerals();
  }

  /** A query without parameters is accepted. */
  lemma EmptyQuery()
    ensures FromQuery(NONE) == Ok(FIRST)
  {
    Numerals();
  }

  // ------------------------------------------------------------------ which parameter is blamed

  /** The queries with one parameter of `q` alone, in the order in which they are looked at. */
  function Singly(q: Query): seq<Query> {
    [NONE.(count := q.count), NONE.(page := q.page), NONE.(order := q.order), NONE.(from := q.from), NONE.(to := q.to)]
  }

  /** A parameter alone is taken, or blamed, just as its own parser says. */
  lemma ParameterAlone(q: Query)
    ensures FromQuery(NONE.(count := q.count))
         == if CountParam(q.count).Ok? then Ok(FIRST.(count := CountParam(q.count).value))
            else Err(CountParam(q.count).error)
    ensures FromQuery(NONE.(page := q.page))
         == if PageParam(q.page).Ok? then Ok(FIRST.(page := PageParam(q.page).value)) else Err(PageParam(q.page).error)
    ensures FromQuery(NONE.(order := q.order))
         == if OrderParam(q.order).Ok? then Ok(FIRST.(order := OrderParam(q.order).value))
            else Err(OrderParam(q.order).error)
    ensures FromQuery(NONE.(from := q.from))
         == if RangeParam(q.from).Ok? then Ok(FIRST.(from := RangeParam(q.from).value))
            else Err(RangeParam(q.from).error)
    ensures FromQuery(NONE.(to := q.to))
         == if RangeParam(q.to).Ok? then Ok(FIRST.(to := RangeParam(q.to).value)) else Err(RangeParam(q.to).error)
  {
    Numerals();
    EmptyQuery();
  }

  /**
   A query is refused for the first parameter that is refused alone, and as that one would be; if each is
   fine alone, then only for a range that is the wrong way round.
   */
  lemma FirstWrongParameterDecides(q: Query)
    ensures FromQuery(q).Err? ==>
      || (FromQuery(q) == Err(MalformedRange) && forall k :: 0 <= k < 5 ==> FromQuery(Singly(q)[k]).Ok?)
      || exists k :: 0 <= k < 5 && FromQuery(q) == FromQuery(Singly(q)[k])
                     && forall j :: 0 <= j < k ==> FromQuery(Singly(q)[j]).Ok?
    ensures (exists k :: 0 <= k < 5 && FromQuery(Singly(q)[k]).Err?) ==> FromQuery(q).Err?
  {
    ParameterAlone(q);
    Numerals();
    var s := Singly(q);
    assert FromQuery(q).Err? && CountParam(q.count).Err? ==> FromQuery(q) == FromQuery(s[0]);
    assert FromQuery(q).Err? && CountParam(q.count).Ok? && PageParam(q.page).Err? ==> FromQuery(q) == FromQuery(s[1]);
    assert FromQuery(q).Err? && CountParam(q.count).Ok? && PageParam(q.page).Ok? && OrderParam(q.order).Err?
      ==> FromQuery(q) == FromQuery(s[2]);
  }

  // ------------------------------------------------------------------ odd texts

  /** An accepted page is what its digits say; there is no sign. */
  lemma PageIsItsDigits(s: string)
    ensures PageParam(Some(s)).Ok? <==> s != "" && AllDigits(s) && 1 <= Value(s) <= 21_474_836
    ensures PageParam(Some(s)).Ok? ==> PageParam(Some(s)).value == Value(s)
  {
    if s != "" && AllDigits(s) {
      assert IsDigit(s[0]);
    }
  }

  /** An empty page has no digit that is wrong, and is called too large. */
  lemma EmptyPageIsTooLarge()
    ensures PageParam(Some("")) == Err(PageTooLarge) && CountParam(Some("")) == Err(CountNotInteger)
  {
  }

  /** A count may carry a sign, so that a negative one is too small; a page may not. */
  lemma SignedNumbers(n: nat)
    requires n <= I64_MAX
    ensures CountParam(Some("+" + Decimal(n))) == CountParam(Some(Decimal(n)))
    ensures CountParam(Some("-" + Decimal(n))) == Err(CountTooSmall)
    ensures PageParam(Some("-" + Decimal(n))) == PageParam(Some("+" + Decimal(n))) == Err(PageNotInteger)
  {
    DecimalValue(n);
    assert ("+" + Decimal(n))[1..] == Decimal(n) && ("-" + Decimal(n))[1..] == Decimal(n);
    assert IsDigit(Decimal(n)[0]);
    assert '-' in "-" + Decimal(n) && '+' in "+" + Decimal(n);
  }

  /** The two words, and no other, are orders. */
  lemma OrdersAre(s: string)
    ensures OrderParam(Some(s)) == if s == "asc" then Ok(Asc) else if s == "desc" then Ok(Desc)
                                   else Err(OrderNotAllowed)
  {
  }

  // ------------------------------------------------------------------ ranges

  /** A text for a height or an index: an optional sign and digits, not negative, within 31 bits. */
  predicate IsHeight(s: string) {
    match ParseInt(s, I32_MIN, I32_MAX)
    case Some(n) => n >= 0
    case None => false
  }

  /** Parts that hold no colon are what a text splits into. */
  lemma RangeOfOne(s: string)
    requires ':' !in s
    ensures RangeParam(Some(s)).Ok? <==> IsHeight(s)
    ensures IsHeight(s) ==> RangeParam(Some(s)) == Ok(ParamParts(ParseInt(s, I32_MIN, I32_MAX), None))
  {
    SplitPlain(s, ':');
  }

  lemma RangeOfTwo(s: string, t: string)
    requires ':' !in s && ':' !in t
    ensures RangeParam(Some(s + ":" + t)).Ok? <==> IsHeight(s) && IsHeight(t)
    ensures IsHeight(s) && IsHeight(t) ==>
      RangeParam(Some(s + ":" + t)) == Ok(ParamParts(ParseInt(s, I32_MIN, I32_MAX), ParseInt(t, I32_MIN, I32_MAX)))
  {
    SplitJoined(s, t, ':');
  }

  lemma {:induction false} SplitFirst(s: string, t: string, separator: char)
    requires separator !in s
    ensures Split(s + [separator] + t, separator) == [s] + Split(t, separator)
  {
    var u := s + [separator] + t;
    if s == "" {
      assert u[1..] == t;
    } else {
      assert u[1..] == s[1..] + [separator] + t;
      SplitFirst(s[1..], t, separator);
      assert [s[0]] + s[1..] == s;
    }
  }

  /** A second colon spoils a range, whatever is in it. */
  lemma RangeOfThree(s: string, t: string, u: string)
    requires ':' !in s && ':' !in t && ':' !in u
    ensures RangeParam(Some(s + ":" + (t + ":" + u))) == Err(MalformedRange)
  {
    SplitFirst(s, t + ":" + u, ':');
    SplitJoined(t, u, ':');
  }
}
