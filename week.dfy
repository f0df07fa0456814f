/** The week of one client's usage shown by the client modal
    (`openClientModal` and `dateToKey` in App): the seven days before and
    including today, and one record per day read from that day's usage. */
module Week {
  import opened JsValues
  import opened Api

  // ---------------------------------------------------------------------------
  // Dates

  /** A local calendar date: `getFullYear()`, `getMonth()` (0 for January)
      and `getDate()`. */
  datatype CivilDate = CivilDate(year: int, month: int, day: int)

  predicate ValidDate(d: CivilDate) {
    0 <= d.year && 0 <= d.month < 12 && 1 <= d.day <= 31
  }

  /** The local calendar: the date of each local day number, and today's
      day number. */
  datatype Calendar = Calendar(civil: int -> CivilDate, today: int)

  /** `dateToKey(d)`: `YYYY-MM-DD` with month and day padded to two digits. */
  function DateToKey(d: CivilDate): string {
    IntToString(d.year) + "-" + Pad2(d.month + 1) + "-" + Pad2(d.day)
  }

  /** `String(n).padStart(2, '0')` */
  function Pad2(n: int): string {
    var t := IntToString(n);
    if |t| >= 2 then t else "0" + t
  }

  /** The two digits of a number below 100. */
  function TwoDigits(n: nat): (s: string)
    requires n < 100
    ensures |s| == 2
  {
    [DigitChar(n / 10), DigitChar(n % 10)]
  }

  lemma PaddedTwo(n: nat)
    requires 1 <= n < 100
    ensures Pad2(n) == TwoDigits(n)
  {
    if n >= 10 {
      assert NatToString(n) == NatToString(n / 10) + [DigitChar(n % 10)];
    } else {
      assert NatToString(n) == [DigitChar(n)];
    }
  }

  /** The part of a valid date's key after the year. */
  function KeyTail(d: CivilDate): (s: string)
    requires ValidDate(d)
    ensures |s| == 6
  {
    "-" + TwoDigits(d.month + 1) + "-" + TwoDigits(d.day)
  }

  /** A valid date's key is its year's digits, then the month and the day as
      two digits each, joined by dashes. */
  lemma DateKeyDigits(d: CivilDate)
    requires ValidDate(d)
    ensures DateToKey(d) == NatToString(d.year) + KeyTail(d)
  {
    PaddedTwo(d.month + 1);
    PaddedTwo(d.day);
  }

  /** Two concatenations with equally long second parts agree part by part. */
  lemma SplitEqual<T>(a1: seq<T>, a2: seq<T>, b1: seq<T>, b2: seq<T>)
    requires a1 + a2 == b1 + b2 && |a2| == |b2|
    ensures a1 == b1 && a2 == b2
  {
    assert a1 == (a1 + a2)[..|a1|];
    assert b1 == (b1 + b2)[..|b1|];
    assert a2 == (a1 + a2)[|a1|..];
    assert b2 == (b1 + b2)[|b1|..];
  }

  lemma TwoDigitsInjective(m: nat, n: nat)
    requires m < 100 && n < 100 && TwoDigits(m) == TwoDigits(n)
    ensures m == n
  {
    assert TwoDigits(m)[0] == TwoDigits(n)[0] && TwoDigits(m)[1] == TwoDigits(n)[1];
    assert m / 10 == n / 10 && m % 10 == n % 10;
  }

  /** Different valid dates have different keys. */
  lemma DateKeyInjective(a: CivilDate, b: CivilDate)
    requires ValidDate(a) && ValidDate(b) && DateToKey(a) == DateToKey(b)
    ensures a == b
  {
    DateKeyDigits(a);
    DateKeyDigits(b);
    SplitEqual(NatToString(a.year), KeyTail(a), NatToString(b.year), KeyTail(b));
    DigitsValueOfNatToString(a.year);
    DigitsValueOfNatToString(b.year);
    var ta := KeyTail(a);
    var tb := KeyTail(b);
    assert ta[1..3] == TwoDigits(a.month + 1) && tb[1..3] == TwoDigits(b.month + 1);
    assert ta[4..] == TwoDigits(a.day) && tb[4..] == TwoDigits(b.day);
    TwoDigitsInjective(a.month + 1, b.month + 1);
    TwoDigitsInjective(a.day, b.day);
  }

  /** The date `i` days before today. */
  function DayBack(cal: Calendar, i: int): CivilDate {
    cal.civil(cal.today - i)
  }

  /** The seven days of the week shown, today first, each written by
      `format` (`dateToKey`). */
  function WeekKeys(cal: Calendar, format: CivilDate -> string): (days: seq<string>)
    ensures |days| == 7
    ensures forall i :: 0 <= i < 7 ==> days[i] == format(cal.civil(cal.today - i))
  {
    seq(7, i requires 0 <= i < 7 => format(cal.civil(cal.today - i)))
  }

  /** On a calendar that gives seven different valid dates for the last seven
      days, the week lists seven different keys. */
  lemma WeekKeysDistinct(cal: Calendar)
    requires forall i :: 0 <= i < 7 ==> ValidDate(DayBack(cal, i))
    requires forall i, j :: 0 <= i < j < 7 ==> DayBack(cal, i) != DayBack(cal, j)
    ensures var days := WeekKeys(cal, DateToKey);
      forall i, j :: 0 <= i < j < 7 ==> days[i] != days[j]
  {
    var days := WeekKeys(cal, DateToKey);
    forall i, j | 0 <= i < j < 7
      ensures days[i] != days[j]
    {
      if days[i] == days[j] {
        DateKeyInjective(DayBack(cal, i), DayBack(cal, j));
      }
    }
  }

  /** The loop of `openClientModal` that lists the days. */
  method WeekDays(cal: Calendar, format: CivilDate -> string) returns (days: seq<string>)
    ensures days == WeekKeys(cal, format)
  {
    days := [];
    var i := 0;
    while i < 7
      invariant 0 <= i <= 7
      invariant |days| == i
      invariant forall j :: 0 <= j < i ==> days[j] == format(cal.civil(cal.today - j))
    {
      days := days + [format(cal.civil(cal.today - i))];
      i := i + 1;
    }
  }

  // ---------------------------------------------------------------------------
  // The records

  /** One day of the client's week. */
  datatype DayRecord = DayRecord(date: string, totalRx: Value, totalTx: Value, totalRxHuman: Value, totalTxHuman: Value)

  /** The record of a day without usage for the client. */
  function ZeroDay(date: string): DayRecord {
    DayRecord(date, Num(0.0), Num(0.0), Str("0 MB"), Str("0 MB"))
  }

  /** `items.find(x => x.user === user)`; reading `user` of null or undefined
      throws. */
  function FindUser(items: seq<Value>, user: Value): (r: Completion<Option<Value>>)
    ensures r == Normal(None) <==>
      forall i :: 0 <= i < |items| ==> !Nullish(items[i]) && !StrictEquals(Get(items[i], "user"), user)
    ensures r.Normal? && r.value.Some? ==> r.value.value in items && StrictEquals(Get(r.value.value, "user"), user)
  {
    if items == [] then Normal(None)
    else if Nullish(items[0]) then Throw(ReadError(items[0], "user"))
    else if StrictEquals(Get(items[0], "user"), user) then Normal(Some(items[0]))
    else
      match FindUser(items[1..], user)
      case Throw(m) => Throw(m)
      case Normal(found) =>
        assert forall i :: 1 <= i < |items| ==> items[i] == items[1..][i - 1];
        Normal(found)
  }

  /** `item` is neither null, undefined nor the client's: the search reads
      past it. */
  predicate Skipped(item: Value, user: Value) {
    !Nullish(item) && !StrictEquals(Get(item, "user"), user)
  }

  /** The search reads past every item of `items`. */
  predicate Passed(items: seq<Value>, user: Value) {
    forall j :: 0 <= j < |items| ==> Skipped(items[j], user)
  }

  /** A null or undefined item at `i`, after items the search reads past. */
  predicate StopsAt(items: seq<Value>, user: Value, i: int) {
    0 <= i < |items| && Nullish(items[i]) && Passed(items[..i], user)
  }

  /** The search throws exactly when a null or undefined item comes before
      the client's. */
  lemma {:induction false} FindUserThrows(items: seq<Value>, user: Value)
    ensures FindUser(items, user).Throw? <==> exists i :: StopsAt(items, user, i)
  {
    if items == [] {
    } else if Nullish(items[0]) {
      assert StopsAt(items, user, 0);
    } else if !Skipped(items[0], user) {
    } else {
      var rest := items[1..];
      assert FindUser(items, user).Throw? == FindUser(rest, user).Throw?;
      FindUserThrows(rest, user);
      StopsAtShift(items, user);
    }
  }

  /** Past a first item the search reads past, it stops where it stops in
      the rest. */
  lemma StopsAtShift(items: seq<Value>, user: Value)
    requires |items| > 0 && Skipped(items[0], user)
    ensures (exists i :: StopsAt(items, user, i)) <==> (exists i :: StopsAt(items[1..], user, i))
  {
    var rest := items[1..];
    forall i | StopsAt(rest, user, i) ensures StopsAt(items, user, i + 1) {
      assert items[..i + 1] == [items[0]] + rest[..i];
    }
    forall i | StopsAt(items, user, i) ensures StopsAt(rest, user, i - 1) {
      assert i > 0 && rest[..i - 1] == items[1..i];
      assert items[..i][0] == items[0];
    }
  }

  const FindMissing := "(r.value.daily || []).find is not a function"

  /** The usage rows of a settled day, `r.value.daily || []`. */
  function DailyOf(shape: Shape): (daily: Value)
    ensures !daily.Arr? <==> Truthy(shape.daily) && !shape.daily.Arr?
  {
    Or(shape.daily, Arr([]))
  }

  /** The record of day `date` from the settled request for it. */
  function DayOf(date: string, result: Completion<Shape>, user: Value): (r: Completion<DayRecord>)
    ensures result.Throw? ==> r == Normal(ZeroDay(date))
    ensures r.Normal? ==> r.value.date == date
    ensures result.Normal? && DailyOf(result.value).Arr? && FindUser(DailyOf(result.value).items, user) == Normal(None) ==>
      r == Normal(ZeroDay(date))
    ensures result.Normal? && DailyOf(result.value).Arr? ==>
      var found := FindUser(DailyOf(result.value).items, user);
      found.Normal? && found.value.Some? && Truthy(found.value.value) ==>
        var x := found.value.value;
        r == Normal(DayRecord(date, Get(x, "totalRx"), Get(x, "totalTx"), Get(x, "totalRxHuman"), Get(x, "totalTxHuman")))
    ensures r.Throw? <==>
      result.Normal? && (!DailyOf(result.value).Arr? || FindUser(DailyOf(result.value).items, user).Throw?)
  {
    match result
    case Throw(_) => Normal(ZeroDay(date))
    case Normal(shape) =>
      var daily := DailyOf(shape);
      if !daily.Arr? then Throw(FindMissing)
      else
        match FindUser(daily.items, user)
        case Throw(m) => Throw(m)
        case Normal(found) =>
          if found.Some? && Truthy(found.value) then
            var x := found.value;
            Normal(DayRecord(date, Get(x, "totalRx"), Get(x, "totalTx"), Get(x, "totalRxHuman"), Get(x, "totalTxHuman")))
          else Normal(ZeroDay(date))
  }

  function DayFn(user: Value): ((string, Completion<Shape>)) -> Completion<DayRecord> {
    (p: (string, Completion<Shape>)) => DayOf(p.0, p.1, user)
  }

  /** Each day paired with its settled request. */
  function Settled(days: seq<string>, results: seq<Completion<Shape>>): (pairs: seq<(string, Completion<Shape>)>)
    requires |days| == |results|
    ensures |pairs| == |days| && forall i :: 0 <= i < |days| ==> pairs[i] == (days[i], results[i])
  {
    seq(|days|, i requires 0 <= i < |days| => (days[i], results[i]))
  }

  /** The `week` of `openClientModal`: one record per day and its settled
      request; a throw while reading them leaves the week empty. */
  function ClientWeek(days: seq<string>, results: seq<Completion<Shape>>, user: Value): seq<DayRecord>
    requires |days| == |results|
  {
    match MapThrow(Settled(days, results), DayFn(user))
    case Throw(_) => []
    case Normal(week) => week
  }

  /** The week has a record per day or none. Record i is dated with day i; a
      day whose request failed, or whose usage does not list the client,
      reads zero, shown as "0 MB". */
  lemma ClientWeekDay(days: seq<string>, results: seq<Completion<Shape>>, user: Value, i: nat)
    requires |days| == |results| && i < |days|
    ensures var week := ClientWeek(days, results, user);
      |week| == |days| || week == []
    ensures var week := ClientWeek(days, results, user);
      week != [] ==>
        && week[i].date == days[i]
        && (results[i].Throw? ==> week[i] == ZeroDay(days[i]))
        && ((results[i].Normal? && DailyOf(results[i].value).Arr? &&
             FindUser(DailyOf(results[i].value).items, user) == Normal(None)) ==> week[i] == ZeroDay(days[i]))
    ensures var week := ClientWeek(days, results, user);
      week != [] && results[i].Normal? && DailyOf(results[i].value).Arr? ==>
        var found := FindUser(DailyOf(results[i].value).items, user);
        found.Normal? && found.value.Some? && Truthy(found.value.value) ==>
          var x := found.value.value;
          week[i] == DayRecord(days[i], Get(x, "totalRx"), Get(x, "totalTx"), Get(x, "totalRxHuman"), Get(x, "totalTxHuman"))
  {
    MapThrowShape(Settled(days, results), DayFn(user));
  }

  /** A week of at least one day is empty exactly when some settled day's
      `daily` is truthy but not an array, or lists a null or undefined item
      before the client's. */
  lemma ClientWeekEmpty(days: seq<string>, results: seq<Completion<Shape>>, user: Value)
    requires |days| == |results| && |days| > 0
    ensures ClientWeek(days, results, user) == [] <==>
      exists i :: 0 <= i < |days| && results[i].Normal? &&
        var daily := DailyOf(results[i].value);
        !daily.Arr? || exists k :: StopsAt(daily.items, user, k)
  {
    MapThrowShape(Settled(days, results), DayFn(user));
    forall i | 0 <= i < |days| && results[i].Normal? && DailyOf(results[i].value).Arr? {
      FindUserThrows(DailyOf(results[i].value).items, user);
    }
  }

  /** The parameters of one day's request. */
  function DayParams(date: string): Value {
    Obj([("date", Str(date)), ("maxSamples", Num(5.0))])
  }

  /** Each day's request asks for the usage of that day, five samples at
      most. */
  lemma DayRequest(base: Query, secret: Value, date: string)
    ensures var q := RequestQuery(base, secret, Str("user_usage"), DayParams(date));
      Param(q, "date") == Some(date) && Param(q, "maxSamples") == Some("5")
  {
    DayEntries(date);
    RequestQueryReads(base, secret, Str("user_usage"), DayParams(date), "date");
    RequestQueryReads(base, secret, Str("user_usage"), DayParams(date), "maxSamples");
  }

  /** The day parameters leave the secret and the sheet as they are. */
  lemma DayRequestSheet(base: Query, secret: Value, date: string)
    ensures var q := RequestQuery(base, secret, Str("user_usage"), DayParams(date));
      Param(q, "sheet") == Some("user_usage") && Param(q, "key") == Some(ToStr(secret))
  {
    DayEntries(date);
    RequestQueryReads(base, secret, Str("user_usage"), DayParams(date), "sheet");
    RequestQueryReads(base, secret, Str("user_usage"), DayParams(date), "key");
  }

  lemma DayEntries(date: string)
    ensures var entries := ParamEntries(DayParams(date));
      && LastSet(entries, "date") == Some(Str(date))
      && LastSet(entries, "maxSamples") == Some(Num(5.0))
      && LastSet(entries, "sheet") == None && LastSet(entries, "key") == None
      && ToStr(Num(5.0)) == "5"
  {
    assert ParamEntries(DayParams(date)) == [("date", Str(date)), ("maxSamples", Num(5.0))];
    NumberTextOfNat(5);
  }
}
