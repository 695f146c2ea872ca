/** What the chart code makes of a query, told on the name-value pairs themselves: exactly which requests the
    server accepts and what for, and exactly what state the client reads from a URL. */
module ChartReading {
  import opened Schema
  import opened Calendar
  import opened JsNumbers
  import opened Charts

  // ----- Vocabulary -----

  ghost predicate Absent(ps: Pairs, name: string) {
    forall i :: 0 <= i < |ps| ==> ps[i].0 != name
  }

  // The first pair of that name holds the value.
  ghost predicate First(ps: Pairs, name: string, value: string) {
    exists i :: 0 <= i < |ps| && ps[i] == (name, value) && forall j :: 0 <= j < i ==> ps[j].0 != name
  }

  ghost predicate Distinct(ps: Pairs) {
    forall i, j :: 0 <= i < j < |ps| ==> ps[i].0 != ps[j].0
  }

  lemma {:induction false} GetIsFirst(ps: Pairs, name: string)
    ensures Get(ps, name).None? <==> Absent(ps, name)
    ensures Get(ps, name).Some? ==> First(ps, name, Get(ps, name).value)
    decreases |ps|
  {
    if ps != [] && ps[0].0 != name {
      GetIsFirst(ps[1..], name);
      assert ps == [ps[0]] + ps[1..];
      if Get(ps, name).Some? {
        var v := Get(ps, name).value;
        var i :| 0 <= i < |ps[1..]| && ps[1..][i] == (name, v) && forall j :: 0 <= j < i ==> ps[1..][j].0 != name;
        assert ps[i + 1] == (name, v);
        assert forall j :: 0 < j < i + 1 ==> ps[j] == ps[1..][j - 1];
      } else {
        assert forall i :: 0 < i < |ps| ==> ps[i] == ps[1..][i - 1];
      }
    } else if ps != [] {
      assert ps[0] == (name, Get(ps, name).value);
    }
  }

  lemma OneFirst(ps: Pairs, name: string, v: string, w: string)
    requires First(ps, name, v) && First(ps, name, w)
    ensures v == w
  {
    var i :| 0 <= i < |ps| && ps[i] == (name, v) && forall j :: 0 <= j < i ==> ps[j].0 != name;
    var k :| 0 <= k < |ps| && ps[k] == (name, w) && forall j :: 0 <= j < k ==> ps[j].0 != name;
    assert i == k;
  }

  lemma GetIs(ps: Pairs, name: string, v: string)
    ensures Get(ps, name) == Some(v) <==> First(ps, name, v)
  {
    GetIsFirst(ps, name);
    if First(ps, name, v) {
      var i :| 0 <= i < |ps| && ps[i] == (name, v);
      assert ps[i].0 == name;
      OneFirst(ps, name, v, Get(ps, name).value);
    }
  }

  // ----- Ids -----

  lemma DigitBack(c: char)
    requires IsDigit(c)
    ensures 0 <= (c - '0') as int < 10 && Digit((c - '0') as int) == c
  {}

  lemma {:induction false} DigitsOfDecimal(s: string)
    requires DecimalPattern(s)
    ensures Digits(Decimal(s)) == s
    decreases |s|
  {
    var n := |s| - 1;
    var d := (s[n] - '0') as int;
    DigitBack(s[n]);
    if n == 0 {
      assert s[..0] == "";
      assert Decimal(s) == d && s == [Digit(d)];
    } else {
      DigitsOfDecimal(s[..n]);
      LeadingDigit(s[..n]);
      var high := Decimal(s[..n]);
      assert Decimal(s) == high * 10 + d;
      RemainderIs(high * 10 + d, 10, high, d);
      assert s == s[..n] + [s[n]];
    }
  }

  // An id is read exactly from its decimal text without leading zeros.
  lemma SafeIdIs(v: string, n: nat)
    ensures SafeId(Some(v)) == Some(n) <==> 1 <= n <= 9_007_199_254_740_991 && v == Digits(n)
  {
    if SafeId(Some(v)) == Some(n) {
      LeadingDigit(v);
      DigitsOfDecimal(v);
    }
    if 1 <= n <= MAX_SAFE { IdsReadBack(n); }
  }

  lemma DateIs(v: string, day: int, parse: string -> Option<int>)
    requires ParsesDates(parse)
    ensures DateTimestamp(Some(v), parse) == Some(day * 86_400_000) <==> FIRST <= day <= LAST && v == TextOf(day)
  {
    hide DateTimestamp, ParsesDates, TextOf;
    Multiples(day);
    ReadsOnlyDates(Some(v), parse);
    if FIRST <= day <= LAST { ReadsDates(day, parse); }
  }

  // ----- Dates -----

  lemma TwoCharacters(n: int)
    requires 0 <= n < 100
    ensures Decimal([Digit(n / 10), Digit(n)]) == n
  {
    DecimalOfDigit("", n / 10);
    DecimalOfDigit([Digit(n / 10)], n);
    assert "" + [Digit(n / 10)] == [Digit(n / 10)] && [Digit(n / 10)] + [Digit(n)] == [Digit(n / 10), Digit(n)];
    assert Decimal("") == 0;
  }

  lemma DecimalOfDigit(s: string, n: int)
    requires n >= 0 && forall i :: 0 <= i < |s| ==> IsDigit(s[i])
    ensures IsDigit(Digit(n)) && Decimal(s + [Digit(n)]) == Decimal(s) * 10 + n % 10
  {
    var t := s + [Digit(n)];
    assert t[..|s|] == s && t[|s|] == Digit(n);
  }

  lemma IsADigit(n: int)
    ensures IsDigit(Digit(n))
  {}

  lemma FourCharacters(n: int)
    requires 0 <= n < 10_000
    ensures Decimal([Digit(n / 1000), Digit(n / 100), Digit(n / 10), Digit(n)]) == n
  {
    hide Decimal, Digit;
    var high := [Digit(n / 1000), Digit(n / 100)];
    assert n / 100 / 10 == n / 1000;
    TwoCharacters(n / 100);
    IsADigit(n / 1000);
    IsADigit(n / 100);
    IsADigit(n / 10);
    DecimalOfDigit(high, n / 10);
    DecimalOfDigit(high + [Digit(n / 10)], n);
    assert high + [Digit(n / 10)] + [Digit(n)] == [Digit(n / 1000), Digit(n / 100), Digit(n / 10), Digit(n)];
    Places(n);
  }

  lemma Places(n: int)
    requires 0 <= n < 10_000
    ensures n == (n / 100 * 10 + n / 10 % 10) * 10 + n % 10
  {}

  lemma Pieces(d: Date)
    requires Proper(d)
    ensures var s := DateText(d);
      && s[..4] == [Digit(d.year / 1000), Digit(d.year / 100), Digit(d.year / 10), Digit(d.year)]
      && s[5..7] == [Digit(d.month / 10), Digit(d.month)] && s[8..] == [Digit(d.day / 10), Digit(d.day)]
      && s[4] == s[7] == '-'
  {
    hide Digit;
  }

  // A date is written year, month, day, each in decimal.
  lemma DateSpelled(d: Date)
    requires Proper(d)
    ensures var s := DateText(d);
      && DatePattern(s) && Decimal(s[..4]) == d.year && Decimal(s[5..7]) == d.month && Decimal(s[8..]) == d.day
  {
    DateLooks(d);
    Pieces(d);
    FourCharacters(d.year);
    TwoCharacters(d.month);
    TwoCharacters(d.day);
    hide Decimal, Digit, DateText, DatePattern;
  }

  lemma DateLooks(d: Date)
    requires Proper(d)
    ensures var s := DateText(d); DatePattern(s) && forall i :: 0 <= i < 10 && i != 4 && i != 7 ==> IsDigit(s[i])
  {}

  lemma TextAt(d: Date)
    requires Proper(d)
    ensures FIRST <= DayNumber(d) <= LAST && TextOf(DayNumber(d)) == DateText(d)
  {
    DatesAreDays(d);
    hide DateOf, DayNumber, DateText;
  }

  const EPOCH := Date(1970, 1, 1)
  const LEAP_DAY := Date(2000, 2, 29)
  const NO_LEAP_DAY := Date(2100, 3, 1)   // the day after 2100-02-28

  lemma DayNumbers()
    ensures DayNumber(EPOCH) == 0 && DayNumber(LEAP_DAY) == 11_016 && DayNumber(NO_LEAP_DAY) == 47_541
    ensures Tomorrow(Date(2100, 2, 28)) == NO_LEAP_DAY
  {}

  lemma DayTexts()
    ensures DateText(EPOCH) == "1970-01-01" && DateText(LEAP_DAY) == "2000-02-29" && DateText(NO_LEAP_DAY) == "2100-03-01"
  {}

  // The epoch, a leap day, and the end of February in a century without one.
  lemma KnownDays()
    ensures TextOf(0) == "1970-01-01" && TextOf(11_016) == "2000-02-29" && TextOf(47_541) == "2100-03-01"
  {
    DayNumbers();
    DayTexts();
    hide TextOf, DayNumber, DateText;
    TextAt(EPOCH);
    TextAt(LEAP_DAY);
    TextAt(NO_LEAP_DAY);
  }

  // ----- The server -----

  lemma {:induction false} CountIs(ps: Pairs, name: string)
    ensures Count(ps, name) == 0 <==> Absent(ps, name)
    ensures Count(ps, name) <= 1 <==> forall i, j :: 0 <= i < j < |ps| && ps[i].0 == name ==> ps[j].0 != name
    decreases |ps|
  {
    if ps != [] {
      CountIs(ps[1..], name);
      assert forall i :: 0 < i < |ps| ==> ps[i] == ps[1..][i - 1];
      assert forall i :: 0 <= i < |ps| - 1 ==> ps[1..][i] == ps[i + 1];
    }
  }

  ghost predicate KnownNames(ps: Pairs) {
    forall i :: 0 <= i < |ps| ==> ps[i].0 in {"range", "feed_id", "category_id", "start_date", "end_date"}
  }

  lemma KeysAre(ps: Pairs)
    ensures KeysOk(ps) <==> KnownNames(ps) && Distinct(ps)
  {
    forall i | 0 <= i < |ps|
      ensures Count(ps, ps[i].0) == 1 <==> forall j, k :: 0 <= j < k < |ps| && ps[j].0 == ps[i].0 ==> ps[k].0 != ps[j].0
    {
      CountIs(ps, ps[i].0);
    }
    hide Count;
  }

  // With distinct names it is enough that the pair is there.
  lemma GetIsThere(ps: Pairs, name: string, v: string)
    requires Distinct(ps)
    ensures Get(ps, name) == Some(v) <==> (name, v) in ps
    ensures Get(ps, name) == None <==> Absent(ps, name)
  {
    GetIs(ps, name, v);
    GetIsFirst(ps, name);
    if (name, v) in ps {
      var i :| 0 <= i < |ps| && ps[i] == (name, v);
      assert forall j :: 0 <= j < i ==> ps[j].0 != ps[i].0;
    }
  }

  ghost predicate Id53(n: nat) {
    1 <= n <= 9_007_199_254_740_991
  }

  ghost predicate ScopeSaid(ps: Pairs, scope: Scope) {
    match scope
    case Feed(n) => Id53(n) && ("feed_id", Digits(n)) in ps && Absent(ps, "category_id")
    case Category(n) => Id53(n) && ("category_id", Digits(n)) in ps && Absent(ps, "feed_id")
    case All => Absent(ps, "feed_id") && Absent(ps, "category_id")
  }

  // The last 30, 90 or 365 days, today included.
  ghost predicate RecentSaid(ps: Pairs, today: int, startAt: int, endAt: int) {
    && Absent(ps, "start_date") && Absent(ps, "end_date")
    && endAt == (today + 1) * 86_400_000
    && ((startAt == (today - 29) * 86_400_000 && (Absent(ps, "range") || ("range", "30") in ps))
        || (startAt == (today - 89) * 86_400_000 && ("range", "90") in ps)
        || (startAt == (today - 364) * 86_400_000 && ("range", "365") in ps))
  }

  // From the day `start` to the day `end`, at most 366 of them, none in the future.
  ghost predicate CustomSaid(ps: Pairs, today: int, start: int, end: int, startAt: int, endAt: int) {
    && ("range", "custom") in ps
    && FIRST <= start <= end <= today && end <= LAST && end - start < 366
    && ("start_date", TextOf(start)) in ps && ("end_date", TextOf(end)) in ps
    && startAt == start * 86_400_000 && endAt == (end + 1) * 86_400_000
  }

  lemma ScopeIs(ps: Pairs, scope: Scope)
    requires Distinct(ps)
    ensures var feed, category := Get(ps, "feed_id"), Get(ps, "category_id");
      ScopeSaid(ps, scope) <==>
        && (feed.Some? ==> SafeId(feed).Some?) && (category.Some? ==> SafeId(category).Some?) && !(feed.Some? && category.Some?)
        && scope == if feed.Some? then Feed(SafeId(feed).value) else if category.Some? then Category(SafeId(category).value) else All
  {
    hide Digits, SafeId, Get;
    IdIs(ps, "feed_id");
    IdIs(ps, "category_id");
  }

  lemma IdIs(ps: Pairs, name: string)
    requires Distinct(ps)
    ensures var id := SafeId(Get(ps, name));
      && (Get(ps, name).None? <==> Absent(ps, name))
      && (Get(ps, name).None? ==> id.None?)
      && (forall n: nat :: (id == Some(n) <==> Id53(n) && (name, Digits(n)) in ps))
  {
    hide Digits, Get;
    GetIsFirst(ps, name);
    forall n: nat
      ensures SafeId(Get(ps, name)) == Some(n) <==> Id53(n) && (name, Digits(n)) in ps
    {
      GetIsThere(ps, name, Digits(n));
      if Get(ps, name).Some? { SafeIdIs(Get(ps, name).value, n); }
      hide SafeId;
    }
  }

  // What the validator makes of its two dates.
  ghost predicate CustomRead(ps: Pairs, now: int, parse: string -> Option<int>, startAt: int, endAt: int) {
    var start, end := DateTimestamp(Get(ps, "start_date"), parse), DateTimestamp(Get(ps, "end_date"), parse);
    && start.Some? && end.Some? && start.value <= end.value <= UtcToday(now)
    && DAY_MS <= end.value + DAY_MS - start.value <= MAX_DAYS * DAY_MS
    && startAt == start.value && endAt == end.value + DAY_MS
  }

  lemma WindowIs(s: int, e: int, now: int)
    ensures s * DAY_MS <= e * DAY_MS <= UtcToday(now) && DAY_MS <= e * DAY_MS + DAY_MS - s * DAY_MS <= MAX_DAYS * DAY_MS
      <==> s <= e <= now / DAY_MS && e - s < 366
  {}

  lemma SaidIsRead(ps: Pairs, now: int, parse: string -> Option<int>, s: int, e: int, startAt: int, endAt: int)
    requires Distinct(ps) && ParsesDates(parse) && CustomSaid(ps, now / DAY_MS, s, e, startAt, endAt)
    ensures CustomRead(ps, now, parse, startAt, endAt) && Get(ps, "range") == Some("custom")
  {
    hide Get, DateTimestamp, ParsesDates, TextOf, UtcToday;
    GetIsThere(ps, "range", "custom");
    GetIsThere(ps, "start_date", TextOf(s));
    GetIsThere(ps, "end_date", TextOf(e));
    DateIs(TextOf(s), s, parse);
    DateIs(TextOf(e), e, parse);
    WindowIs(s, e, now);
  }

  lemma ReadIsSaid(ps: Pairs, now: int, parse: string -> Option<int>, startAt: int, endAt: int) returns (s: int, e: int)
    requires Distinct(ps) && ParsesDates(parse) && CustomRead(ps, now, parse, startAt, endAt) && Get(ps, "range") == Some("custom")
    ensures CustomSaid(ps, now / DAY_MS, s, e, startAt, endAt)
  {
    hide Get, DateTimestamp, ParsesDates, TextOf, UtcToday;
    ReadsOnlyDates(Get(ps, "start_date"), parse);
    ReadsOnlyDates(Get(ps, "end_date"), parse);
    s, e := startAt / DAY_MS, (endAt - DAY_MS) / DAY_MS;
    assert startAt == s * DAY_MS && endAt - DAY_MS == e * DAY_MS;
    GetIsThere(ps, "range", "custom");
    GetIsThere(ps, "start_date", TextOf(s));
    GetIsThere(ps, "end_date", TextOf(e));
    WindowIs(s, e, now);
  }

  // What the validator makes of a fixed range.
  lemma RecentIs(ps: Pairs, now: int, startAt: int, endAt: int)
    requires Distinct(ps)
    ensures var range := if Get(ps, "range").Some? then Get(ps, "range").value else "30";
      RecentSaid(ps, now / DAY_MS, startAt, endAt) <==>
        && Get(ps, "start_date").None? && Get(ps, "end_date").None? && endAt == UtcToday(now) + DAY_MS
        && (range == "30" || range == "90" || range == "365")
        && startAt == UtcToday(now) - ((if range == "30" then 30 else if range == "90" then 90 else 365) - 1) * DAY_MS
  {
    GetIsThere(ps, "range", "30");
    GetIsThere(ps, "range", "90");
    GetIsThere(ps, "range", "365");
    GetIsThere(ps, "start_date", "");
    GetIsThere(ps, "end_date", "");
    hide Get;
  }

  // A request is accepted, for that scope and window, exactly when it says so in known, distinct names.
  lemma AcceptsExactly(ps: Pairs, now: int, parse: string -> Option<int>, query: ParsedChartQuery)
    requires ParsesDates(parse)
    ensures QueryOf(ps, now, parse) == Some(query) <==>
      && KnownNames(ps) && Distinct(ps) && ScopeSaid(ps, query.scope)
      && (RecentSaid(ps, now / 86_400_000, query.startAt, query.endAt)
          || exists s, e :: CustomSaid(ps, now / 86_400_000, s, e, query.startAt, query.endAt))
  {
    hide Get, KeysOk, ScopeSaid, RecentSaid, CustomSaid, KnownNames, ParsesDates, SafeId, UtcToday, DateTimestamp;
    KeysAre(ps);
    if KeysOk(ps) {
      ScopeIs(ps, query.scope);
      RecentIs(ps, now, query.startAt, query.endAt);
      if CustomRead(ps, now, parse, query.startAt, query.endAt) && Get(ps, "range") == Some("custom") {
        var s, e := ReadIsSaid(ps, now, parse, query.startAt, query.endAt);
      }
      if s, e :| CustomSaid(ps, now / DAY_MS, s, e, query.startAt, query.endAt) {
        SaidIsRead(ps, now, parse, s, e, query.startAt, query.endAt);
      }
      ValidatedIs(ps, now, parse, query);
    }
  }

  lemma ValidatedIs(ps: Pairs, now: int, parse: string -> Option<int>, query: ParsedChartQuery)
    ensures Validated(ps, now, parse) == Some(query) <==>
      var feed, category := Get(ps, "feed_id"), Get(ps, "category_id");
      var range := if Get(ps, "range").Some? then Get(ps, "range").value else "30";
      && (feed.Some? ==> SafeId(feed).Some?) && (category.Some? ==> SafeId(category).Some?) && !(feed.Some? && category.Some?)
      && query.scope == (if feed.Some? then Feed(SafeId(feed).value) else if category.Some? then Category(SafeId(category).value) else All)
      && (if range == "custom" then CustomRead(ps, now, parse, query.startAt, query.endAt)
          else
            && Get(ps, "start_date").None? && Get(ps, "end_date").None? && query.endAt == UtcToday(now) + DAY_MS
            && (range == "30" || range == "90" || range == "365")
            && query.startAt == UtcToday(now) - ((if range == "30" then 30 else if range == "90" then 90 else 365) - 1) * DAY_MS)
  {
    hide Get, SafeId, DateTimestamp, UtcToday;
  }

  // ----- The client -----

  // The value of the name, or where that is absent, of its older spelling.
  ghost predicate Said(ps: Pairs, name: string, older: string, value: string) {
    First(ps, name, value) || (Absent(ps, name) && First(ps, older, value))
  }

  ghost predicate IdSaid(ps: Pairs, name: string, older: string, n: nat) {
    Id53(n) && Said(ps, name, older, Digits(n))
  }

  lemma SaidIs(ps: Pairs, name: string, older: string, v: string)
    ensures Else(Get(ps, name), Get(ps, older)) == Some(v) <==> Said(ps, name, older, v)
  {
    hide Get, First, Absent;
    GetIs(ps, name, v);
    GetIs(ps, older, v);
    GetIsFirst(ps, name);
    if Get(ps, name).Some? && First(ps, name, v) { GetIs(ps, name, v); }
  }

  lemma IdSaidIs(ps: Pairs, name: string, older: string, n: nat)
    ensures SafeId(Else(Get(ps, name), Get(ps, older))) == Some(n) <==> IdSaid(ps, name, older, n)
  {
    hide Get, Digits, Said;
    var id := Else(Get(ps, name), Get(ps, older));
    SaidIs(ps, name, older, Digits(n));
    if id.Some? { SafeIdIs(id.value, n); }
  }

  ghost predicate WindowSaid(ps: Pairs, today: int, start: int, end: int) {
    && FIRST <= start <= end <= today && end <= LAST && end - start < 366
    && Said(ps, "start", "startDate", TextOf(start)) && Said(ps, "end", "endDate", TextOf(end))
  }

  // The scope of the state: a feed if the URL names one by a proper id, else a category if it names one.
  lemma ScopeOfState(ps: Pairs, now: int, parse: string -> Option<int>, n: nat)
    ensures var state := ParseChartState(ps, now, parse);
      && (state.feedId == Some(n) <==> IdSaid(ps, "feed", "feedId", n))
      && (state.categoryId == Some(n) <==> state.feedId == None && IdSaid(ps, "category", "categoryId", n))
  {
    IdSaidIs(ps, "feed", "feedId", n);
    IdSaidIs(ps, "category", "categoryId", n);
    hide Get, SafeId, Else, IdSaid, DateTimestamp, IsoDate, UtcToday, DefaultCustomDates, CustomOk;
  }

  // Its range: the one the URL names, and 30 days for anything else.
  lemma RangeOfState(ps: Pairs, now: int, parse: string -> Option<int>)
    ensures var range := ParseChartState(ps, now, parse).range;
      && range in {"30", "90", "365", "custom"}
      && (range != "30" ==> First(ps, "range", range))
      && (forall named :: named in {"90", "365", "custom"} && First(ps, "range", named) ==> range == named)
  {
    GetIsFirst(ps, "range");
    GetIs(ps, "range", "90");
    GetIs(ps, "range", "365");
    GetIs(ps, "range", "custom");
    hide Get, First, SafeId, Else, DateTimestamp, IsoDate, UtcToday, DefaultCustomDates, CustomOk;
  }

  // Its dates, for a custom range: the window the URL names if that is proper, else the last 30 days.
  lemma DatesOfState(ps: Pairs, now: int, parse: string -> Option<int>)
    requires ClockOk(now) && ParsesDates(parse)
    ensures var state, today := ParseChartState(ps, now, parse), now / 86_400_000;
      && (state.range != "custom" ==> state.startDate == state.endDate == None)
      && (state.range == "custom" ==>
            && (forall s, e :: WindowSaid(ps, today, s, e) ==> state.startDate == Some(TextOf(s)) && state.endDate == Some(TextOf(e)))
            && ((forall s, e :: !WindowSaid(ps, today, s, e)) ==>
                  state.startDate == Some(TextOf(today - 29)) && state.endDate == Some(TextOf(today))))
  {
    hide TextOf, IsoDate, UtcToday, SafeId, DateTimestamp, DefaultCustomDates, ParsesDates, Get, Else, Said;
    DefaultsAreDays(now);
    var start, end := DateTimestamp(Else(Get(ps, "start"), Get(ps, "startDate")), parse), DateTimestamp(Else(Get(ps, "end"), Get(ps, "endDate")), parse);
    if CustomOk(start, end, UtcToday(now)) {
      var a, b := ReadWindow(ps, now, parse);
    }
    forall s, e | WindowSaid(ps, now / DAY_MS, s, e)
      ensures CustomOk(start, end, UtcToday(now)) && IsoDate(start.value) == TextOf(s) && IsoDate(end.value) == TextOf(e)
    {
      NamedWindow(ps, now, parse, s, e);
    }
  }

  lemma NamedWindow(ps: Pairs, now: int, parse: string -> Option<int>, s: int, e: int)
    requires ParsesDates(parse) && WindowSaid(ps, now / DAY_MS, s, e)
    ensures var start, end := DateTimestamp(Else(Get(ps, "start"), Get(ps, "startDate")), parse), DateTimestamp(Else(Get(ps, "end"), Get(ps, "endDate")), parse);
      CustomOk(start, end, UtcToday(now)) && IsoDate(start.value) == TextOf(s) && IsoDate(end.value) == TextOf(e)
  {
    hide TextOf, IsoDate, UtcToday, DateTimestamp, ParsesDates, Get, Else, Said, CustomOk;
    SaidIs(ps, "start", "startDate", TextOf(s));
    SaidIs(ps, "end", "endDate", TextOf(e));
    ReadsDates(s, parse);
    ReadsDates(e, parse);
    Multiples(s);
    Multiples(e);
    CustomWindow(s * DAY_MS, e * DAY_MS, now);
  }

  lemma ReadWindow(ps: Pairs, now: int, parse: string -> Option<int>) returns (s: int, e: int)
    requires ParsesDates(parse)
    requires CustomOk(DateTimestamp(Else(Get(ps, "start"), Get(ps, "startDate")), parse),
                      DateTimestamp(Else(Get(ps, "end"), Get(ps, "endDate")), parse), UtcToday(now))
    ensures WindowSaid(ps, now / DAY_MS, s, e)
  {
    hide TextOf, IsoDate, UtcToday, DateTimestamp, ParsesDates, Get, Else, Said;
    var first, last := Else(Get(ps, "start"), Get(ps, "startDate")), Else(Get(ps, "end"), Get(ps, "endDate"));
    ReadsOnlyDates(first, parse);
    ReadsOnlyDates(last, parse);
    var start, end := DateTimestamp(first, parse).value, DateTimestamp(last, parse).value;
    s, e := start / DAY_MS, end / DAY_MS;
    CustomWindow(start, end, now);
    SaidIs(ps, "start", "startDate", TextOf(s));
    SaidIs(ps, "end", "endDate", TextOf(e));
  }
}
