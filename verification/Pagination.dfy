/** The paging parameters of a request: their parser, and the printer that adds them to a URL. */
module Pagination {
  import opened Prelude

  datatype Order = Asc | Desc

  /** A block height, and a transaction index within the block. */
  datatype ParamParts = ParamParts(height: Option<int>, index: Option<int>)

  datatype Page = Page(page: int, count: int, order: Order, from: ParamParts, to: ParamParts)

  datatype Query = Query(
    page: Option<string>,
    count: Option<string>,
    order: Option<string>,
    from: Option<string>,
    to: Option<string>)

  datatype Error =
    | PageNotInteger
    | PageTooSmall
    | PageTooLarge
    | CountNotInteger
    | CountTooSmall
    | CountTooLarge
    | OrderNotAllowed
    | MalformedRange

  const I32_MIN := -0x8000_0000
  const I32_MAX := 0x7fff_ffff
  const I64_MIN := -0x8000_0000_0000_0000
  const I64_MAX := 0x7fff_ffff_ffff_ffff
  const MAX_PAGE := 21_474_836

  // ------------------------------------------------------------------ decimal numbers

  predicate IsDigit(c: char) {
    '0' <= c <= '9'
  }

  predicate AllDigits(s: string) {
    forall c <- s :: IsDigit(c)
  }

  /** The value of a string of digits. */
  function Value(s: string): nat
    requires AllDigits(s)
  {
    if s == "" then 0
    else
      var last := s[|s| - 1];
      assert IsDigit(last);
      10 * Value(s[..|s| - 1]) + (last as int - '0' as int)
  }

  /** `str::parse` of a signed integer type: an optional sign, digits, and a value within the bounds. */
  function ParseInt(s: string, min: int, max: int): Option<int> {
    var signed := s != "" && (s[0] == '+' || s[0] == '-');
    var digits := if signed then s[1..] else s;
    if digits == "" || !AllDigits(digits) then None
    else
      var v: int := if signed && s[0] == '-' then -(Value(digits) as int) else Value(digits);
      if min <= v <= max then Some(v) else None
  }

  /** `to_string` of a number that is not negative. */
  function Decimal(n: nat): (s: string)
    ensures s != "" && AllDigits(s)
  {
    var digit := ['0' + (n % 10) as char];
    if n < 10 then digit else Decimal(n / 10) + digit
  }

  lemma {:induction false} DecimalValue(n: nat)
    ensures Value(Decimal(n)) == n
  {
    var s := Decimal(n);
    if n >= 10 {
      DecimalValue(n / 10);
      assert s[..|s| - 1] == Decimal(n / 10);
    } else {
      assert s[..|s| - 1] == "";
    }
  }

  /** `to_string` of a number. */
  function Text(n: int): string {
    if n < 0 then "-" + Decimal(-n) else Decimal(n)
  }

  lemma ParseUndoesText(n: int, min: int, max: int)
    requires min <= n <= max
    ensures ParseInt(Text(n), min, max) == Some(n)
  {
    if n < 0 {
      DecimalValue(-n);
      assert Text(n)[1..] == Decimal(-n);
    } else {
      DecimalValue(n);
      assert IsDigit(Text(n)[0]);
    }
  }

  // ------------------------------------------------------------------ the parser

  function OrElse(param: Option<string>, default: string): string {
    if param.Some? then param.value else default
  }

  function OrderParam(param: Option<string>): Result<Order, Error> {
    var order := OrElse(param, "asc");
    if order == "asc" then Ok(Asc) else if order == "desc" then Ok(Desc) else Err(OrderNotAllowed)
  }

  function PageParam(param: Option<string>): Result<int, Error> {
    var page := OrElse(param, "1");
    if !AllDigits(page) then Err(PageNotInteger)
    else
      match ParseInt(page, I32_MIN, I32_MAX)
      case None => Err(PageTooLarge)
      case Some(n) => if n < 1 then Err(PageTooSmall) else if n > MAX_PAGE then Err(PageTooLarge) else Ok(n)
  }

  function CountParam(param: Option<string>): Result<int, Error> {
    match ParseInt(OrElse(param, "100"), I64_MIN, I64_MAX)
    case None => Err(CountNotInteger)
    case Some(n) => if n < 1 then Err(CountTooSmall) else if n > 100 then Err(CountTooLarge) else Ok(n)
  }

  /** `str::split`: the parts between the separators, at least one. */
  function Split(s: string, separator: char): (parts: seq<string>)
    ensures parts != []
  {
    if s == "" then [""]
    else
      var rest := Split(s[1..], separator);
      if s[0] == separator then [""] + rest else [[s[0]] + rest[0]] + rest[1..]
  }

  /** A number that is not negative. */
  function RangeValue(s: string): Option<int> {
    match ParseInt(s, I32_MIN, I32_MAX)
    case Some(n) => if 0 <= n <= I32_MAX then Some(n) else None
    case None => None
  }

  function RangeParam(param: Option<string>): Result<ParamParts, Error> {
    match param
    case None => Ok(ParamParts(None, None))
    case Some(s) =>
      var parts := Split(s, ':');
      var height := RangeValue(parts[0]);
      if height.None? then Err(MalformedRange)
      else if |parts| == 1 then Ok(ParamParts(height, None))
      else if |parts| == 2 then
        var index := RangeValue(parts[1]);
        if index.None? then Err(MalformedRange) else Ok(ParamParts(height, index))
      else Err(MalformedRange)
  }

  /** The first parameter that is wrong decides the error: count, page, order, from, to, then the range as a whole. */
  function FromQuery(q: Query): Result<Page, Error> {
    var count := CountParam(q.count);
    if count.Err? then Err(count.error)
    else
      var page := PageParam(q.page);
      if page.Err? then Err(page.error)
      else
        var order := OrderParam(q.order);
        if order.Err? then Err(order.error)
        else
          var from := RangeParam(q.from);
          if from.Err? then Err(from.error)
          else
            var to := RangeParam(q.to);
            if to.Err? then Err(to.error)
            else if Reversed(from.value, to.value) then Err(MalformedRange)
            else Ok(Page(page.value, count.value, order.value, from.value, to.value))
  }

  predicate Reversed(from: ParamParts, to: ParamParts) {
    to.height.Some? && from.height.Some? && from.height.value > to.height.value
  }

  // ------------------------------------------------------------------ the printer

  datatype Pair = Pair(key: string, value: string)

  function OrderText(order: Order): string {
    if order.Asc? then "asc" else "desc"
  }

  function RangeText(height: int, index: Option<int>): string {
    if index.Some? then Text(height) + ":" + Text(index.value) else Text(height)
  }

  function RangePairs(key: string, p: ParamParts): seq<Pair> {
    if p.height.Some? then [Pair(key, RangeText(p.height.value, p.index))] else []
  }

  /** The pairs that the printer appends. */
  function Printed(p: Page): seq<Pair> {
    [Pair("page", Text(p.page)), Pair("count", Text(p.count)), Pair("order", OrderText(p.order))]
    + RangePairs("from", p.from) + RangePairs("to", p.to)
  }

  class Url {
    var pairs: seq<Pair>

    constructor (pairs: seq<Pair>)
      ensures this.pairs == pairs
    {
      this.pairs := pairs;
    }

    method AppendPair(key: string, value: string)
      modifies this
      ensures pairs == old(pairs) + [Pair(key, value)]
    {
      pairs := pairs + [Pair(key, value)];
    }

    method AppendRange(key: string, p: ParamParts)
      modifies this
      ensures pairs == old(pairs) + RangePairs(key, p)
    {
      if p.height.Some? {
        var text := Text(p.height.value);
        if p.index.Some? {
          text := text + ":" + Text(p.index.value);
        }
        AppendPair(key, text);
      }
    }

    method ApplyPagination(p: Page)
      modifies this
      ensures pairs == old(pairs) + Printed(p)
    {
      AppendPair("page", Text(p.page));
      AppendPair("count", Text(p.count));
      AppendPair("order", OrderText(p.order));
      AppendRange("from", p.from);
      AppendRange("to", p.to);
    }
  }

  // ------------------------------------------------------------------ what the parser accepts

  predicate ValidParts(p: ParamParts) {
    && (p.height.Some? ==> 0 <= p.height.value <= I32_MAX)
    && (p.index.Some? ==> p.height.Some? && 0 <= p.index.value <= I32_MAX)
  }

  /** The index takes no part in the comparison of the two ends. */
  predicate Valid(p: Page) {
    && 1 <= p.page <= MAX_PAGE && 1 <= p.count <= 100
    && ValidParts(p.from) && ValidParts(p.to)
    && (p.from.height.Some? && p.to.height.Some? ==> p.from.height.value <= p.to.height.value)
  }

  lemma ParsedIsValid(q: Query)
    ensures FromQuery(q).Ok? ==> Valid(FromQuery(q).value)
  {
  }

  // ------------------------------------------------------------------ round trip

  /** The parameters of a URL; a missing one is `None`. */
  function Lookup(pairs: seq<Pair>, key: string): Option<string> {
    if pairs == [] then None
    else if pairs[0].key == key then Some(pairs[0].value)
    else Lookup(pairs[1..], key)
  }

  function QueryOf(pairs: seq<Pair>): Query {
    Query(Lookup(pairs, "page"), Lookup(pairs, "count"), Lookup(pairs, "order"), Lookup(pairs, "from"),
          Lookup(pairs, "to"))
  }

  lemma {:induction false} SplitPlain(s: string, separator: char)
    requires separator !in s
    ensures Split(s, separator) == [s]
  {
    if s != "" {
      SplitPlain(s[1..], separator);
      assert [s[0]] + s[1..] == s;
    }
  }

  lemma {:induction false} SplitJoined(s: string, t: string, separator: char)
    requires separator !in s && separator !in t
    ensures Split(s + [separator] + t, separator) == [s, t]
  {
    var u := s + [separator] + t;
    if s == "" {
      assert u[1..] == t;
      SplitPlain(t, separator);
    } else {
      assert u[1..] == s[1..] + [separator] + t;
      SplitJoined(s[1..], t, separator);
      assert [s[0]] + s[1..] == s;
    }
  }

  lemma NoColon(n: int)
    ensures ':' !in Text(n)
  {
    var digits := Decimal(if n < 0 then -n else n);
    assert forall c <- digits :: IsDigit(c);
  }

  lemma RangeRoundTrip(p: ParamParts)
    requires ValidParts(p) && p.height.Some?
    ensures RangeParam(Some(RangeText(p.height.value, p.index))) == Ok(p)
  {
    NoColon(p.height.value);
    ParseUndoesText(p.height.value, I32_MIN, I32_MAX);
    if p.index.Some? {
      NoColon(p.index.value);
      ParseUndoesText(p.index.value, I32_MIN, I32_MAX);
      SplitJoined(Text(p.height.value), Text(p.index.value), ':');
    } else {
      SplitPlain(Text(p.height.value), ':');
    }
  }

  lemma {:induction false} LookupAppend(a: seq<Pair>, b: seq<Pair>, key: string)
    ensures Lookup(a + b, key) == if Lookup(a, key).Some? then Lookup(a, key) else Lookup(b, key)
  {
    if a == [] {
      assert a + b == b;
    } else {
      assert (a + b)[1..] == a[1..] + b;
      LookupAppend(a[1..], b, key);
    }
  }

  lemma LookupRange(key: string, p: ParamParts, other: string)
    ensures Lookup(RangePairs(key, p), other)
         == if key == other && p.height.Some? then Some(RangeText(p.height.value, p.index)) else None
  {
  }

  lemma LookupNumbers(p: Page, key: string)
    ensures var first := [Pair("page", Text(p.page)), Pair("count", Text(p.count)), Pair("order", OrderText(p.order))];
      Lookup(first, key)
      == if key == "page" then Some(Text(p.page)) else if key == "count" then Some(Text(p.count))
         else if key == "order" then Some(OrderText(p.order)) else None
  {
    var first := [Pair("page", Text(p.page)), Pair("count", Text(p.count)), Pair("order", OrderText(p.order))];
    LookupAppend([first[0]], [first[1], first[2]], key);
    LookupAppend([first[1]], [first[2]], key);
    assert [first[0]] + [first[1], first[2]] == first && [first[1]] + [first[2]] == [first[1], first[2]];
  }

  lemma LookupPrinted(p: Page, key: string)
    ensures Lookup(Printed(p), key)
         == if key == "page" then Some(Text(p.page)) else if key == "count" then Some(Text(p.count))
            else if key == "order" then Some(OrderText(p.order))
            else if key == "from" && p.from.height.Some? then Some(RangeText(p.from.height.value, p.from.index))
            else if key == "to" && p.to.height.Some? then Some(RangeText(p.to.height.value, p.to.index))
            else None
  {
    var first := [Pair("page", Text(p.page)), Pair("count", Text(p.count)), Pair("order", OrderText(p.order))];
    LookupNumbers(p, key);
    LookupAppend(first, RangePairs("from", p.from), key);
    LookupAppend(first + RangePairs("from", p.from), RangePairs("to", p.to), key);
    LookupRange("from", p.from, key);
    LookupRange("to", p.to, key);
  }

  /** Parsing what the printer appends gives the same parameters again, exactly when they are valid. */
  lemma ParserUndoesPrinter(p: Page)
    ensures FromQuery(QueryOf(Printed(p))) == Ok(p) <==> Valid(p)
  {
    if Valid(p) {
      ValidSurvives(p);
    } else {
      ParsedIsValid(QueryOf(Printed(p)));
    }
  }

  lemma ValidSurvives(p: Page)
    requires Valid(p)
    ensures FromQuery(QueryOf(Printed(p))) == Ok(p)
  {
    LookupPrinted(p, "page");
    LookupPrinted(p, "count");
    LookupPrinted(p, "order");
    LookupPrinted(p, "from");
    LookupPrinted(p, "to");
    ParseUndoesText(p.page, I32_MIN, I32_MAX);
    ParseUndoesText(p.count, I64_MIN, I64_MAX);
    if p.from.height.Some? {
      RangeRoundTrip(p.from);
    }
    if p.to.height.Some? {
      RangeRoundTrip(p.to);
    }
  }

  /** Whatever query the parameters came from, printing and parsing them again changes nothing. */
  lemma RoundTrip(q: Query)
    requires FromQuery(q).Ok?
    ensures var p := FromQuery(q).value; Valid(p) && FromQuery(QueryOf(Printed(p))) == Ok(p)
  {
    ParsedIsValid(q);
    ParserUndoesPrinter(FromQuery(q).value);
  }

  /** The parser returns exactly the valid parameters. */
  lemma AcceptedIffValid(p: Page)
    ensures Valid(p) <==> exists q :: FromQuery(q) == Ok(p)
  {
    if Valid(p) {
      ParserUndoesPrinter(p);
    }
    if q :| FromQuery(q) == Ok(p) {
      ParsedIsValid(q);
    }
  }

  /** How a plain number fares: an overlong one is too large as a page, and no integer at all as a count. */
  lemma ErrorsOfNumbers(n: nat)
    ensures PageParam(Some(Decimal(n)))
         == if n < 1 then Err(PageTooSmall) else if n > MAX_PAGE then Err(PageTooLarge) else Ok(n)
    ensures CountParam(Some(Decimal(n)))
         == if n > I64_MAX then Err(CountNotInteger)
            else if n < 1 then Err(CountTooSmall) else if n > 100 then Err(CountTooLarge) else Ok(n)
  {
    DecimalValue(n);
    assert IsDigit(Decimal(n)[0]);
  }
}
