/** The chart URLs: the client's normaliser, the request it sends, and the server's validator. */
module Charts {
  import opened Schema
  import opened Calendar
  import opened JsNumbers

  const MAX_DAYS := 366

  // ----- Query parameters -----

  type Pairs = seq<(string, string)>

  function Get(ps: Pairs, name: string): Option<string> {
    if ps == [] then None else if ps[0].0 == name then Some(ps[0].1) else Get(ps[1..], name)
  }

  function Count(ps: Pairs, name: string): nat {
    if ps == [] then 0 else (if ps[0].0 == name then 1 else 0) + Count(ps[1..], name)
  }

  // `a ?? b`
  function Else(a: Option<string>, b: Option<string>): Option<string> {
    if a.Some? then a else b
  }

  // ----- Ids -----

  predicate DecimalPattern(s: string) {
    |s| >= 1 && '1' <= s[0] <= '9' && forall i :: 0 <= i < |s| ==> IsDigit(s[i])
  }

  function Decimal(s: string): nat
    requires forall i :: 0 <= i < |s| ==> IsDigit(s[i])
  {
    if s == "" then 0 else assert IsDigit(s[|s| - 1]); Decimal(s[..|s| - 1]) * 10 + (s[|s| - 1] - '0') as int
  }

  // `String(n)`
  function Digits(n: nat): string {
    if n < 10 then [Digit(n)] else Digits(n / 10) + [Digit(n)]
  }

  // The client's `safeId`; the server's `parseId` throws where this is None for a present value.
  function SafeId(value: Option<string>): Option<nat> {
    if value.Some? && DecimalPattern(value.value) && Decimal(value.value) <= MAX_SAFE then Some(Decimal(value.value)) else None
  }

  lemma {:induction false} DigitsRead(n: nat)
    ensures forall i :: 0 <= i < |Digits(n)| ==> IsDigit(Digits(n)[i])
    ensures Decimal(Digits(n)) == n && |Digits(n)| >= 1 && (n > 0 ==> Digits(n)[0] != '0')
    decreases n
  {
    if n >= 10 {
      DigitsRead(n / 10);
      assert Digits(n)[..|Digits(n)| - 1] == Digits(n / 10);
    } else {
      assert Digits(n)[..0] == "";
    }
  }

  lemma IdsReadBack(n: nat)
    requires 1 <= n <= MAX_SAFE
    ensures SafeId(Some(Digits(n))) == Some(n)
  {
    DigitsRead(n);
  }

  lemma {:induction false} LeadingDigit(s: string)
    requires DecimalPattern(s)
    ensures Decimal(s) >= 1
    decreases |s|
  {
    if |s| == 1 { assert s[..0] == ""; } else { LeadingDigit(s[..|s| - 1]); }
  }

  // ----- The client -----

  datatype ChartRequest = ChartRequest(range: string, feedId: Option<nat>, categoryId: Option<nat>,
                                       startDate: Option<string>, endDate: Option<string>)

  predicate IsRange(s: string) {
    s == "30" || s == "90" || s == "365" || s == "custom"
  }

  // Clock readings from 1970-01-30 to 9999-12-31.
  predicate ClockOk(now: int) {
    29 <= now / DAY_MS <= LAST
  }

  function DefaultCustomDates(now: int): (string, string) {
    (IsoDate(UtcToday(now) - 29 * DAY_MS), IsoDate(UtcToday(now)))
  }

  predicate CustomOk(start: Option<int>, end: Option<int>, today: int) {
    start.Some? && end.Some? && end.value >= start.value && end.value <= today
    && (end.value - start.value) / DAY_MS + 1 <= MAX_DAYS
  }

  function ParseChartState(ps: Pairs, now: int, parse: string -> Option<int>): ChartRequest {
    var named := Get(ps, "range");
    var range := if named.Some? && IsRange(named.value) then named.value else "30";
    var feedId := SafeId(Else(Get(ps, "feed"), Get(ps, "feedId")));
    var categoryId := if feedId.None? then SafeId(Else(Get(ps, "category"), Get(ps, "categoryId"))) else None;
    if range != "custom" then ChartRequest(range, feedId, categoryId, None, None)
    else
      var start := DateTimestamp(Else(Get(ps, "start"), Get(ps, "startDate")), parse);
      var end := DateTimestamp(Else(Get(ps, "end"), Get(ps, "endDate")), parse);
      if CustomOk(start, end, UtcToday(now))
      then ChartRequest(range, feedId, categoryId, Some(IsoDate(start.value)), Some(IsoDate(end.value)))
      else ChartRequest(range, feedId, categoryId, Some(DefaultCustomDates(now).0), Some(DefaultCustomDates(now).1))
  }

  function ScopePairs(r: ChartRequest, feed: string, category: string): Pairs {
    if r.feedId.Some? then [(feed, Digits(r.feedId.value))]
    else if r.categoryId.Some? then [(category, Digits(r.categoryId.value))] else []
  }

  function DatePairs(r: ChartRequest, start: string, end: string): Pairs {
    if r.range == "custom" && r.startDate.Some? && r.endDate.Some? then [(start, r.startDate.value), (end, r.endDate.value)] else []
  }

  function CanonicalPairs(r: ChartRequest): Pairs {
    (if r.range != "30" then [("range", r.range)] else []) + ScopePairs(r, "feed", "category") + DatePairs(r, "start", "end")
  }

  function RequestPairs(r: ChartRequest): Pairs {
    [("range", r.range)] + ScopePairs(r, "feed_id", "category_id") + DatePairs(r, "start_date", "end_date")
  }

  // ----- The server -----

  datatype Scope = Feed(id: nat) | Category(id: nat) | All
  datatype ParsedChartQuery = ParsedChartQuery(startAt: int, endAt: int, scope: Scope)

  predicate AllowedKey(k: string) {
    k == "range" || k == "feed_id" || k == "category_id" || k == "start_date" || k == "end_date"
  }

  predicate KeysOk(ps: Pairs) {
    forall i :: 0 <= i < |ps| ==> AllowedKey(ps[i].0) && Count(ps, ps[i].0) == 1
  }

  // The part of the validator after the key loop; None where it throws.
  function Validated(ps: Pairs, now: int, parse: string -> Option<int>): Option<ParsedChartQuery> {
    var feed, category := Get(ps, "feed_id"), Get(ps, "category_id");
    if (feed.Some? && SafeId(feed).None?) || (category.Some? && SafeId(category).None?) || (feed.Some? && category.Some?) then None
    else
      var scope := if feed.Some? then Feed(SafeId(feed).value) else if category.Some? then Category(SafeId(category).value) else All;
      var range := if Get(ps, "range").Some? then Get(ps, "range").value else "30";
      var today := UtcToday(now);
      if range == "custom" then
        var start, end := DateTimestamp(Get(ps, "start_date"), parse), DateTimestamp(Get(ps, "end_date"), parse);
        if start.None? || end.None? || end.value < start.value || end.value > today then None
        else
          var endAt := end.value + DAY_MS;
          if endAt - start.value < DAY_MS || endAt - start.value > MAX_DAYS * DAY_MS then None
          else Some(ParsedChartQuery(start.value, endAt, scope))
      else if !IsRange(range) || Get(ps, "start_date").Some? || Get(ps, "end_date").Some? then None
      else
        var days := if range == "30" then 30 else if range == "90" then 90 else 365;
        Some(ParsedChartQuery(today - (days - 1) * DAY_MS, today + DAY_MS, scope))
  }

  function QueryOf(ps: Pairs, now: int, parse: string -> Option<int>): Option<ParsedChartQuery> {
    if KeysOk(ps) then Validated(ps, now, parse) else None
  }

  method ParseChartQuery(ps: Pairs, now: int, parse: string -> Option<int>) returns (query: Option<ParsedChartQuery>)
    ensures query == QueryOf(ps, now, parse)
  {
    for i := 0 to |ps|
      invariant forall j :: 0 <= j < i ==> AllowedKey(ps[j].0) && Count(ps, ps[j].0) == 1
    {
      if !AllowedKey(ps[i].0) || Count(ps, ps[i].0) != 1 {
        return None;
      }
    }
    query := Validated(ps, now, parse);
  }

  // ----- URLSearchParams -----

  function SetPair(ps: Pairs, name: string, value: string): Pairs {
    if ps == [] then [(name, value)]
    else if ps[0].0 == name then [(name, value)] + Without(ps[1..], name)
    else [ps[0]] + SetPair(ps[1..], name, value)
  }

  function Without(ps: Pairs, name: string): Pairs {
    if ps == [] then [] else (if ps[0].0 == name then [] else [ps[0]]) + Without(ps[1..], name)
  }

  lemma {:induction false} SetAppends(ps: Pairs, name: string, value: string)
    requires Get(ps, name).None?
    ensures SetPair(ps, name, value) == ps + [(name, value)]
    decreases |ps|
  {
    if ps != [] {
      SetAppends(ps[1..], name, value);
      assert ps == [ps[0]] + ps[1..];
    }
  }

  class SearchParams {
    var pairs: Pairs

    constructor ()
      ensures pairs == []
    {
      pairs := [];
    }

    method Set(name: string, value: string)
      modifies this
      ensures pairs == SetPair(old(pairs), name, value)
    {
      pairs := SetPair(pairs, name, value);
    }
  }

  method CanonicalChartSearch(r: ChartRequest) returns (search: string)
    ensures search == Serialise(CanonicalPairs(r))
  {
    hide Get, SetPair;
    var parameters := new SearchParams();
    if r.range != "30" {
      SetOnto([], "range", r.range);
      parameters.Set("range", r.range);
    }
    if r.feedId.Some? {
      SetOnto(parameters.pairs, "feed", Digits(r.feedId.value));
      parameters.Set("feed", Digits(r.feedId.value));
    } else if r.categoryId.Some? {
      SetOnto(parameters.pairs, "category", Digits(r.categoryId.value));
      parameters.Set("category", Digits(r.categoryId.value));
    }
    if r.range == "custom" && r.startDate.Some? && r.endDate.Some? {
      SetOnto(parameters.pairs, "start", r.startDate.value);
      parameters.Set("start", r.startDate.value);
      SetOnto(parameters.pairs, "end", r.endDate.value);
      parameters.Set("end", r.endDate.value);
    }
    assert parameters.pairs == CanonicalPairs(r);
    search := Serialise(parameters.pairs);
  }

  // The query of `getCharts`.
  method ChartQuery(r: ChartRequest) returns (pairs: Pairs)
    ensures pairs == RequestPairs(r)
  {
    hide Get, SetPair;
    var query := new SearchParams();
    SetOnto([], "range", r.range);
    query.Set("range", r.range);
    if r.feedId.Some? {
      SetOnto(query.pairs, "feed_id", Digits(r.feedId.value));
      query.Set("feed_id", Digits(r.feedId.value));
    } else if r.categoryId.Some? {
      SetOnto(query.pairs, "category_id", Digits(r.categoryId.value));
      query.Set("category_id", Digits(r.categoryId.value));
    }
    if r.range == "custom" && r.startDate.Some? && r.endDate.Some? {
      SetOnto(query.pairs, "start_date", r.startDate.value);
      query.Set("start_date", r.startDate.value);
      SetOnto(query.pairs, "end_date", r.endDate.value);
      query.Set("end_date", r.endDate.value);
    }
    pairs := query.pairs;
  }

  // Setting a name that is not there yet appends it.
  lemma SetOnto(ps: Pairs, name: string, value: string)
    requires forall i :: 0 <= i < |ps| ==> ps[i].0 != name
    ensures SetPair(ps, name, value) == ps + [(name, value)]
  {
    NotThere(ps, name);
    SetAppends(ps, name, value);
  }

  lemma {:induction false} NotThere(ps: Pairs, name: string)
    requires forall i :: 0 <= i < |ps| ==> ps[i].0 != name
    ensures Get(ps, name) == None
    decreases |ps|
  {
    if ps != [] { NotThere(ps[1..], name); }
  }

  // ----- application/x-www-form-urlencoded, for names and values that need no escapes -----

  function Serialise(ps: Pairs): string {
    if ps == [] then "" else ps[0].0 + "=" + ps[0].1 + (if |ps| == 1 then "" else "&" + Serialise(ps[1..]))
  }

  // The text before the first `c`, and what follows it.
  function Before(s: string, c: char): string {
    if s == "" || s[0] == c then "" else [s[0]] + Before(s[1..], c)
  }

  function Past(s: string, c: char): (rest: string)
    ensures |rest| <= |s| && (s != "" ==> |rest| < |s|)
  {
    if s == "" then "" else if s[0] == c then s[1..] else Past(s[1..], c)
  }

  // Pieces between ampersands, each cut at its first equals sign; empty pieces are skipped.
  function ParseForm(s: string): Pairs
    decreases |s|
  {
    if s == "" then []
    else
      var piece := Before(s, '&');
      (if piece == "" then [] else [(Before(piece, '='), Past(piece, '='))]) + ParseForm(Past(s, '&'))
  }

  predicate Plain(s: string) {
    forall i :: 0 <= i < |s| ==> s[i] != '&' && s[i] != '=' && s[i] != '%' && s[i] != '+'
  }

  predicate PlainPairs(ps: Pairs) {
    forall i :: 0 <= i < |ps| ==> Plain(ps[i].0) && Plain(ps[i].1)
  }

  lemma {:induction false} CutAt(a: string, c: char, b: string)
    requires forall i :: 0 <= i < |a| ==> a[i] != c
    ensures Before(a + [c] + b, c) == a && Past(a + [c] + b, c) == b
    decreases |a|
  {
    if a != "" {
      assert (a + [c] + b)[1..] == a[1..] + [c] + b;
      CutAt(a[1..], c, b);
    } else {
      assert ("" + [c] + b)[1..] == b;
    }
  }

  lemma {:induction false} NoCut(a: string, c: char)
    requires forall i :: 0 <= i < |a| ==> a[i] != c
    ensures Before(a, c) == a && Past(a, c) == ""
    decreases |a|
  {
    if a != "" { NoCut(a[1..], c); }
  }

  lemma {:induction false} FormReadsBack(ps: Pairs)
    requires PlainPairs(ps)
    ensures ParseForm(Serialise(ps)) == ps
    decreases |ps|
  {
    if ps != [] {
      var name, value := ps[0].0, ps[0].1;
      var piece := name + "=" + value;
      CutAt(name, '=', value);
      if |ps| == 1 {
        NoCut(piece, '&');
        assert Serialise(ps) == piece;
        assert ParseForm("") == [];
        assert ps == [(name, value)];
      } else {
        FormReadsBack(ps[1..]);
        assert Serialise(ps) == piece + ['&'] + Serialise(ps[1..]);
        CutAt(piece, '&', Serialise(ps[1..]));
        assert ps == [(name, value)] + ps[1..];
      }
    }
  }

  // ----- What the normaliser produces -----

  ghost predicate DayText(text: Option<string>, day: int) {
    FIRST <= day <= LAST && text == Some(TextOf(day))
  }

  // A window of 1 to 366 days that ends no later than the day `today`.
  ghost predicate Window(start: int, end: int, today: int) {
    start <= end <= today && end - start + 1 <= MAX_DAYS
  }

  // A state in normal form, with its days when it is custom.
  ghost predicate Normal(r: ChartRequest, start: int, end: int, today: int) {
    && IsRange(r.range)
    && (r.feedId.Some? ==> 1 <= r.feedId.value <= MAX_SAFE && r.categoryId.None?)
    && (r.categoryId.Some? ==> 1 <= r.categoryId.value <= MAX_SAFE)
    && (if r.range == "custom" then DayText(r.startDate, start) && DayText(r.endDate, end) && Window(start, end, today)
        else r.startDate.None? && r.endDate.None?)
  }

  lemma SafeIdRange(value: Option<string>)
    ensures SafeId(value).Some? ==> 1 <= SafeId(value).value <= MAX_SAFE
  {
    if SafeId(value).Some? { LeadingDigit(value.value); }
  }

  lemma DefaultsAreDays(now: int)
    requires ClockOk(now)
    ensures var today := now / DAY_MS;
      && DefaultCustomDates(now) == (TextOf(today - 29), TextOf(today)) && Window(today - 29, today, today)
  {
    assert UtcToday(now) / DAY_MS == now / DAY_MS;
    assert (UtcToday(now) - 29 * DAY_MS) / DAY_MS == now / DAY_MS - 29;
    hide TextOf;
  }

  lemma CustomWindow(s: int, e: int, now: int)
    requires s % DAY_MS == 0 && e % DAY_MS == 0
    ensures CustomOk(Some(s), Some(e), UtcToday(now)) <==> Window(s / DAY_MS, e / DAY_MS, now / DAY_MS)
    ensures s == s / DAY_MS * DAY_MS && e == e / DAY_MS * DAY_MS
  {
    var a, b, today := s / DAY_MS, e / DAY_MS, now / DAY_MS;
    assert s == a * DAY_MS && e == b * DAY_MS && UtcToday(now) == today * DAY_MS;
    assert (e - s) / DAY_MS == b - a by { assert e - s == (b - a) * DAY_MS; }
  }

  // Every URL whatsoever is normalised.
  lemma Normalised(ps: Pairs, now: int, parse: string -> Option<int>) returns (start: int, end: int)
    requires ClockOk(now) && ParsesDates(parse)
    ensures Normal(ParseChartState(ps, now, parse), start, end, now / DAY_MS)
  {
    hide TextOf, IsoDate, UtcToday, SafeId, DateTimestamp, DefaultCustomDates, ParsesDates;
    var s := DateTimestamp(Else(Get(ps, "start"), Get(ps, "startDate")), parse);
    var e := DateTimestamp(Else(Get(ps, "end"), Get(ps, "endDate")), parse);
    SafeIdRange(Else(Get(ps, "feed"), Get(ps, "feedId")));
    SafeIdRange(Else(Get(ps, "category"), Get(ps, "categoryId")));
    ReadsOnlyDates(Else(Get(ps, "start"), Get(ps, "startDate")), parse);
    ReadsOnlyDates(Else(Get(ps, "end"), Get(ps, "endDate")), parse);
    DefaultsAreDays(now);
    if CustomOk(s, e, UtcToday(now)) {
      start, end := s.value / DAY_MS, e.value / DAY_MS;
      CustomWindow(s.value, e.value, now);
      ReadsDates(start, parse);
      ReadsDates(end, parse);
    } else {
      start, end := now / DAY_MS - 29, now / DAY_MS;
    }
  }

  // ----- A normal form reads back as itself -----

  lemma {:induction false} GetOfSum(a: Pairs, b: Pairs, name: string)
    ensures Get(a + b, name) == Else(Get(a, name), Get(b, name))
    decreases |a|
  {
    if a == [] {
      assert a + b == b;
    } else {
      assert (a + b)[1..] == a[1..] + b;
      GetOfSum(a[1..], b, name);
    }
  }

  lemma ScopeGets(r: ChartRequest, feed: string, category: string, name: string)
    requires feed != category
    ensures Get(ScopePairs(r, feed, category), name) ==
      if name == feed && r.feedId.Some? then Some(Digits(r.feedId.value))
      else if name == category && r.feedId.None? && r.categoryId.Some? then Some(Digits(r.categoryId.value))
      else None
  {
    hide Digits;
  }

  lemma DateGets(r: ChartRequest, start: string, end: string, name: string)
    requires start != end
    ensures Get(DatePairs(r, start, end), name) ==
      if r.range == "custom" && r.startDate.Some? && r.endDate.Some? then
        if name == start then r.startDate else if name == end then r.endDate else None
      else None
  {
    if r.range == "custom" && r.startDate.Some? && r.endDate.Some? {
      GetOfOne(start, r.startDate.value, name);
      GetOfOne(end, r.endDate.value, name);
      GetOfSum([(start, r.startDate.value)], [(end, r.endDate.value)], name);
      assert DatePairs(r, start, end) == [(start, r.startDate.value)] + [(end, r.endDate.value)];
    }
  }

  lemma GetOfOne(n: string, v: string, name: string)
    ensures Get([(n, v)], name) == if n == name then Some(v) else None
  {}

  lemma ThreeGets(a: Pairs, b: Pairs, c: Pairs, name: string)
    ensures Get(a + b + c, name) == Else(Get(a, name), Else(Get(b, name), Get(c, name)))
  {
    GetOfSum(a + b, c, name);
    GetOfSum(a, b, name);
  }

  lemma CanonicalGets(r: ChartRequest, name: string)
    ensures Get(CanonicalPairs(r), name) ==
      if name == "range" then (if r.range != "30" then Some(r.range) else None)
      else if name == "feed" || name == "category" then Get(ScopePairs(r, "feed", "category"), name)
      else if name == "start" || name == "end" then Get(DatePairs(r, "start", "end"), name)
      else None
  {
    var range: Pairs := if r.range != "30" then [("range", r.range)] else [];
    ThreeGets(range, ScopePairs(r, "feed", "category"), DatePairs(r, "start", "end"), name);
    ScopeGets(r, "feed", "category", name);
    DateGets(r, "start", "end", name);
    assert Get(range, name) == if name == "range" && r.range != "30" then Some(r.range) else None;
    hide ScopePairs, DatePairs;
  }

  lemma ScopeReadsBack(r: ChartRequest)
    requires r.feedId.Some? ==> 1 <= r.feedId.value <= MAX_SAFE && r.categoryId.None?
    requires r.categoryId.Some? ==> 1 <= r.categoryId.value <= MAX_SAFE
    ensures var ps := CanonicalPairs(r);
      && SafeId(Else(Get(ps, "feed"), Get(ps, "feedId"))) == r.feedId
      && (r.feedId.None? ==> SafeId(Else(Get(ps, "category"), Get(ps, "categoryId"))) == r.categoryId)
  {
    CanonicalGets(r, "feed");
    CanonicalGets(r, "feedId");
    CanonicalGets(r, "category");
    CanonicalGets(r, "categoryId");
    ScopeGets(r, "feed", "category", "feed");
    ScopeGets(r, "feed", "category", "category");
    hide CanonicalPairs, ScopePairs, Digits, Get;
    if r.feedId.Some? { IdsReadBack(r.feedId.value); }
    if r.categoryId.Some? { IdsReadBack(r.categoryId.value); }
  }

  lemma DatesReadBack(r: ChartRequest)
    requires r.range == "custom" && r.startDate.Some? && r.endDate.Some?
    ensures var ps := CanonicalPairs(r);
      Else(Get(ps, "start"), Get(ps, "startDate")) == r.startDate && Else(Get(ps, "end"), Get(ps, "endDate")) == r.endDate
  {
    CanonicalGets(r, "start");
    CanonicalGets(r, "startDate");
    CanonicalGets(r, "end");
    CanonicalGets(r, "endDate");
    DateGets(r, "start", "end", "start");
    DateGets(r, "start", "end", "end");
  }

  // Read back at another time, a normal form is itself exactly when its window has not slipped into the future.
  lemma ReadsBack(r: ChartRequest, start: int, end: int, today: int, now: int, parse: string -> Option<int>)
    requires Normal(r, start, end, today) && ClockOk(now) && ParsesDates(parse)
    ensures ParseChartState(CanonicalPairs(r), now, parse) == r <==> r.range != "custom" || end <= now / DAY_MS
  {
    hide CanonicalPairs, Get, SafeId, TextOf, IsoDate, UtcToday, DateTimestamp, DefaultCustomDates, ParsesDates, CustomOk;
    ScopeReadsBack(r);
    CanonicalGets(r, "range");
    DefaultsAreDays(now);
    if r.range == "custom" {
      DatesReadBack(r);
      ReadsDates(start, parse);
      ReadsDates(end, parse);
      Multiples(start);
      Multiples(end);
      CustomWindow(start * DAY_MS, end * DAY_MS, now);
      if end > now / DAY_MS && TextOf(end) == TextOf(now / DAY_MS) { OneDayPerText(end, now / DAY_MS); }
    }
  }

  lemma Multiples(day: int)
    ensures day * DAY_MS % DAY_MS == 0 && day * DAY_MS / DAY_MS == day
  {}

  // ----- One redirect is enough -----

  lemma PlainDigits(n: nat)
    ensures Plain(Digits(n))
  {
    DigitsRead(n);
    assert forall c :: IsDigit(c) ==> c != '&' && c != '=' && c != '%' && c != '+';
  }

  lemma PlainDay(text: Option<string>, day: int)
    requires DayText(text, day)
    ensures Plain(text.value)
  {
    assert DatePattern(text.value);
    assert forall c :: IsDigit(c) ==> c != '&' && c != '=' && c != '%' && c != '+';
    hide TextOf;
  }

  lemma PlainSum(a: Pairs, b: Pairs)
    requires PlainPairs(a) && PlainPairs(b)
    ensures PlainPairs(a + b)
  {
    hide Plain;
  }

  lemma PlainRange(s: string)
    requires IsRange(s)
    ensures Plain(s)
  {}

  lemma CanonicalIsPlain(r: ChartRequest, start: int, end: int, today: int)
    requires Normal(r, start, end, today)
    ensures PlainPairs(CanonicalPairs(r))
  {
    var range: Pairs := if r.range != "30" then [("range", r.range)] else [];
    PlainRange(r.range);
    assert Plain("range") && Plain("feed") && Plain("category") && Plain("start") && Plain("end");
    if r.feedId.Some? { PlainDigits(r.feedId.value); }
    if r.categoryId.Some? { PlainDigits(r.categoryId.value); }
    if r.range == "custom" {
      PlainDay(r.startDate, start);
      PlainDay(r.endDate, end);
    }
    hide Plain, Digits, TextOf, IsRange;
    PlainSum(range, ScopePairs(r, "feed", "category"));
    PlainSum(range + ScopePairs(r, "feed", "category"), DatePairs(r, "start", "end"));
  }

  // The loader redirects any URL to its canonical search; loading that, at the same time or later, finds
  // the very same state and search, and redirects no more.  A clock that went backwards past the end of a
  // custom window is the only thing that could make it redirect again.
  lemma SettlesAfterOneRedirect(ps: Pairs, now: int, later: int, parse: string -> Option<int>)
    requires ClockOk(now) && ClockOk(later) && ParsesDates(parse)
    ensures var state := ParseChartState(ps, now, parse);
      var search := Serialise(CanonicalPairs(state));
      var next := ParseChartState(ParseForm(search), later, parse);
      && ParseForm(search) == CanonicalPairs(state)
      && (now <= later ==> next == state && Serialise(CanonicalPairs(next)) == search)
      && (next != state ==> state.range == "custom" && later < now)
  {
    var state := ParseChartState(ps, now, parse);
    var start, end := Normalised(ps, now, parse);
    CanonicalIsPlain(state, start, end, now / DAY_MS);
    FormReadsBack(CanonicalPairs(state));
    ReadsBack(state, start, end, now / DAY_MS, later, parse);
    if now <= later { DaysFollow(now, later); } else { DaysFollow(later, now); }
    hide ParseChartState, CanonicalPairs, Serialise, ParseForm, TextOf, ParsesDates, PlainPairs;
  }

  // ----- The server accepts what the client asks -----

  lemma RequestGets(r: ChartRequest, name: string)
    ensures Get(RequestPairs(r), name) ==
      if name == "range" then Some(r.range)
      else if name == "feed_id" || name == "category_id" then Get(ScopePairs(r, "feed_id", "category_id"), name)
      else if name == "start_date" || name == "end_date" then Get(DatePairs(r, "start_date", "end_date"), name)
      else None
  {
    var range: Pairs := [("range", r.range)];
    ThreeGets(range, ScopePairs(r, "feed_id", "category_id"), DatePairs(r, "start_date", "end_date"), name);
    ScopeGets(r, "feed_id", "category_id", name);
    DateGets(r, "start_date", "end_date", name);
    assert Get(range, name) == if name == "range" then Some(r.range) else None;
    hide ScopePairs, DatePairs;
  }

  // How often a name occurs among the pairs, one for each of the names given.
  lemma {:induction false} CountNames(ps: Pairs, names: seq<string>, name: string)
    requires |ps| == |names| && forall i :: 0 <= i < |ps| ==> ps[i].0 == names[i]
    requires forall i, j :: 0 <= i < j < |names| ==> names[i] != names[j]
    ensures Count(ps, name) == if name in names then 1 else 0
    decreases |ps|
  {
    if ps != [] {
      CountNames(ps[1..], names[1..], name);
      assert names == [names[0]] + names[1..];
      assert name == names[0] ==> name !in names[1..];
    }
  }

  lemma RequestKeysOk(r: ChartRequest)
    ensures KeysOk(RequestPairs(r))
  {
    var scope: seq<string> := if r.feedId.Some? then ["feed_id"] else if r.categoryId.Some? then ["category_id"] else [];
    var dates: seq<string> := if r.range == "custom" && r.startDate.Some? && r.endDate.Some? then ["start_date", "end_date"] else [];
    var ps, names := RequestPairs(r), ["range"] + scope + dates;
    hide Count, Digits;
    forall i | 0 <= i < |ps|
      ensures AllowedKey(ps[i].0) && Count(ps, ps[i].0) == 1
    {
      CountNames(ps, names, ps[i].0);
      assert names[i] == ps[i].0;
    }
  }

  function ScopeOf(r: ChartRequest): Scope {
    if r.feedId.Some? then Feed(r.feedId.value) else if r.categoryId.Some? then Category(r.categoryId.value) else All
  }

  function Days(range: string): int {
    if range == "30" then 30 else if range == "90" then 90 else 365
  }

  // The two were written apart and agree: whatever the URL was, the request built from its state is
  // accepted, for the same scope, and for the whole days the state names, unless the server's clock is
  // behind the end of a custom window.
  lemma RequestAccepted(r: ChartRequest, start: int, end: int, today: int, now: int, parse: string -> Option<int>)
    requires Normal(r, start, end, today) && ParsesDates(parse)
    ensures var query := QueryOf(RequestPairs(r), now, parse);
      && (query.Some? <==> r.range != "custom" || end <= now / DAY_MS)
      && (query.Some? ==>
        && query.value.scope == ScopeOf(r)
        && (if r.range == "custom" then query.value.startAt == start * DAY_MS && query.value.endAt == (end + 1) * DAY_MS
            else query.value.startAt == (now / DAY_MS - Days(r.range) + 1) * DAY_MS && query.value.endAt == (now / DAY_MS + 1) * DAY_MS))
  {
    hide RequestPairs, ScopePairs, DatePairs, Get, KeysOk, SafeId, Digits, TextOf, IsoDate, DateTimestamp, ParsesDates;
    RequestKeysOk(r);
    RequestGets(r, "range");
    RequestGets(r, "feed_id");
    RequestGets(r, "category_id");
    RequestGets(r, "start_date");
    RequestGets(r, "end_date");
    ScopeGets(r, "feed_id", "category_id", "feed_id");
    ScopeGets(r, "feed_id", "category_id", "category_id");
    DateGets(r, "start_date", "end_date", "start_date");
    DateGets(r, "start_date", "end_date", "end_date");
    if r.feedId.Some? { IdsReadBack(r.feedId.value); }
    if r.categoryId.Some? { IdsReadBack(r.categoryId.value); }
    if r.range == "custom" {
      ReadsDates(start, parse);
      ReadsDates(end, parse);
    }
  }

  // In days: the window is whole days, at least 1 and at most 366 of them.
  lemma WindowIsWholeDays(ps: Pairs, now: int, later: int, parse: string -> Option<int>, serverParse: string -> Option<int>)
    requires ClockOk(now) && now <= later && ParsesDates(parse) && ParsesDates(serverParse)
    ensures var state := ParseChartState(ps, now, parse);
      var query := QueryOf(RequestPairs(state), later, serverParse);
      && query.Some? && query.value.scope == ScopeOf(state)
      && query.value.startAt % DAY_MS == 0 && query.value.endAt % DAY_MS == 0
      && 1 <= (query.value.endAt - query.value.startAt) / DAY_MS <= MAX_DAYS
  {
    hide ParseChartState, QueryOf, RequestPairs, ParsesDates, TextOf;
    var state := ParseChartState(ps, now, parse);
    var start, end := Normalised(ps, now, parse);
    RequestAccepted(state, start, end, now / DAY_MS, later, serverParse);
    DaysFollow(now, later);
    var query := QueryOf(RequestPairs(state), later, serverParse).value;
    if state.range == "custom" {
      WholeDays(start, end + 1);
    } else {
      WholeDays(later / DAY_MS - Days(state.range) + 1, later / DAY_MS + 1);
    }
  }

  // Whoever asks, with whatever pairs: what the server accepts is a window of whole days, at least 1 and at
  // most 366 of them, that ends no later than the end of its own day.
  lemma AcceptedIsWholeDays(ps: Pairs, now: int, parse: string -> Option<int>)
    requires ParsesDates(parse) && QueryOf(ps, now, parse).Some?
    ensures var query := QueryOf(ps, now, parse).value;
      && query.startAt % DAY_MS == 0 && query.endAt % DAY_MS == 0
      && 1 <= (query.endAt - query.startAt) / DAY_MS <= MAX_DAYS
      && query.endAt <= UtcToday(now) + DAY_MS
  {
    hide DateTimestamp, SafeId, Get, ParsesDates, TextOf;
    var start, end := DateTimestamp(Get(ps, "start_date"), parse), DateTimestamp(Get(ps, "end_date"), parse);
    ReadsOnlyDates(Get(ps, "start_date"), parse);
    ReadsOnlyDates(Get(ps, "end_date"), parse);
    var query := QueryOf(ps, now, parse).value;
    if Get(ps, "range") == Some("custom") {
      WindowOf(start.value, end.value + DAY_MS);
      DayEnds(end.value);
    } else {
      var today := now / DAY_MS;
      Multiples(today);
      DayEnds(today * DAY_MS);
      DaysBack(today, 29);
      DaysBack(today, 89);
      DaysBack(today, 364);
      WindowOf(query.startAt, query.endAt);
    }
  }

  lemma DayEnds(t: int)
    requires t % DAY_MS == 0
    ensures (t + DAY_MS) % DAY_MS == 0
  {}

  lemma DaysBack(day: int, n: int)
    ensures (day * DAY_MS - n * DAY_MS) % DAY_MS == 0
  {
    Multiples(day - n);
  }

  lemma WindowOf(s: int, e: int)
    requires DAY_MS <= e - s <= MAX_DAYS * DAY_MS
    ensures 1 <= (e - s) / DAY_MS <= MAX_DAYS
  {}

  lemma WholeDays(a: int, b: int)
    ensures a * DAY_MS % DAY_MS == 0 && b * DAY_MS % DAY_MS == 0 && (b * DAY_MS - a * DAY_MS) / DAY_MS == b - a
  {
    Multiples(a);
    Multiples(b);
    Multiples(b - a);
  }

  lemma DaysFollow(now: int, later: int)
    requires now <= later
    ensures now / DAY_MS <= later / DAY_MS
  {}
}
