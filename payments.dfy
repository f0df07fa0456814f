/** `adaptPaymentsResponse` (App.jsx): turns the payments endpoint's body,
    either the grouped form `{ userPaymentsByMonth, monthlySummary }` or a
    legacy list of sheet rows, into today's and the overall totals, a pending
    count, the flat list of rows and the latest payment of each client. */
module Payments {
  import opened JsValues
  import opened Ordering

  /** The date oracles: the engine's date parser, the ISO day
      (`toISOString().slice(0, 10)`) of a time value, and today's ISO day. */
  datatype Clock = Clock(parse: DateParser, isoDay: int -> string, today: string)

  /** `parseDateTime(dateVal, timeVal)`: the date and time read together, else
      the date alone, else the time alone; a falsy part is not tried. */
  function ParseDateTime(dateVal: Value, timeVal: Value, parse: DateParser): Option<int> {
    if !Truthy(dateVal) && !Truthy(timeVal) then None
    else if Truthy(dateVal) && Truthy(timeVal) && parse(ToStr(dateVal) + " " + ToStr(timeVal)).Some? then
      parse(ToStr(dateVal) + " " + ToStr(timeVal))
    else if Truthy(dateVal) && parse(ToStr(dateVal)).Some? then parse(ToStr(dateVal))
    else if Truthy(timeVal) && parse(ToStr(timeVal)).Some? then parse(ToStr(timeVal))
    else None
  }

  /** No date comes out exactly when no attempt that is made parses; the
      combined reading wins, and a missing part leaves the other to decide. */
  lemma ParseDateTimeAttempts(dateVal: Value, timeVal: Value, parse: DateParser)
    ensures var r := ParseDateTime(dateVal, timeVal, parse);
      && (r.None? <==>
           && (!(Truthy(dateVal) && Truthy(timeVal)) || parse(ToStr(dateVal) + " " + ToStr(timeVal)).None?)
           && (!Truthy(dateVal) || parse(ToStr(dateVal)).None?)
           && (!Truthy(timeVal) || parse(ToStr(timeVal)).None?))
      && (Truthy(dateVal) && Truthy(timeVal) && parse(ToStr(dateVal) + " " + ToStr(timeVal)).Some? ==>
           r == parse(ToStr(dateVal) + " " + ToStr(timeVal)))
      && (r.Some? && !Truthy(timeVal) ==> r == parse(ToStr(dateVal)))
      && (r.Some? && !Truthy(dateVal) ==> r == parse(ToStr(timeVal)))
  {
  }

  // ---------------------------------------------------------------------------
  // The grouped response

  /** One entry of the flat list. `amount` is already `Number(..) || 0`. */
  datatype Payment = Payment(name: Value, phone: Value, amount: real, date: Value, time: Value,
                             txnId: Value, dateObj: Option<int>, groupMonth: string)

  /** The entry for payment `p` of month `monthKey` under the phone key `phone`;
      reading a field of `null` or `undefined` throws. */
  function PaymentOf(p: Value, phone: string, monthKey: string, parse: DateParser): (r: Completion<Payment>)
    ensures r.Throw? <==> Nullish(p)
    ensures r.Normal? ==> r.value.groupMonth == monthKey
  {
    if Nullish(p) then Throw(ReadError(p, "date"))
    else
      var dateVal := Coalesce(Coalesce(Get(p, "date"), Get(p, "DATE")), Str(monthKey));
      var timeVal := Coalesce(Coalesce(Get(p, "time"), Get(p, "TIME")), Str(""));
      Normal(Payment(
        Or(Or(Get(p, "name"), Get(p, "NAME")), Str("")),
        Or(Or(Get(p, "phone"), Get(p, "PHONE")), Str(phone)),
        NumberOr0(Coalesce(Get(p, "amount"), Get(p, "AMOUNT"))),
        dateVal,
        timeVal,
        Coalesce(Coalesce(Get(p, "txnId"), Get(p, "TXNID")), Null),
        ParseDateTime(dateVal, timeVal, parse),
        monthKey))
  }

  function PaymentFn(phone: string, monthKey: string, parse: DateParser): Value -> Completion<Payment> {
    (p: Value) => PaymentOf(p, phone, monthKey, parse)
  }

  /** `grp && Array.isArray(grp.payments)`: the payments of a month group,
      or none. */
  function GroupList(grp: Value): seq<Value> {
    if Truthy(grp) && Get(grp, "payments").Arr? then Get(grp, "payments").items else []
  }

  /** The entries of one phone's month groups, in order. */
  function MonthFn(phone: string, parse: DateParser): ((string, Value)) -> Completion<seq<Payment>> {
    (month: (string, Value)) => MapThrow(GroupList(month.1), PaymentFn(phone, month.0, parse))
  }

  /** `Object.entries(months || {})` */
  function MonthsOf(months: Value): seq<(string, Value)> {
    Entries(Or(months, Obj([])))
  }

  function PhoneFn(parse: DateParser): ((string, Value)) -> Completion<seq<Payment>> {
    (phone: (string, Value)) => ConcatMap(MonthsOf(phone.1), MonthFn(phone.0, parse))
  }

  /** The flat list for `Object.entries(grouped)`. */
  function FlatPayments(phones: seq<(string, Value)>, parse: DateParser): Completion<seq<Payment>> {
    ConcatMap(phones, PhoneFn(parse))
  }

  /** How many payments the month groups of `grouped` list. */
  function MonthCount(month: (string, Value)): nat {
    |GroupList(month.1)|
  }

  function PhoneCount(phone: (string, Value)): nat {
    SumLen(MonthsOf(phone.1), MonthCount)
  }

  /** The flat list has exactly one entry per payment of every phone's every month. */
  lemma FlatPaymentsCount(phones: seq<(string, Value)>, parse: DateParser)
    ensures FlatPayments(phones, parse).Normal? ==>
      |FlatPayments(phones, parse).value| == SumLen(phones, PhoneCount)
  {
    forall phone | phone in phones && PhoneFn(parse)(phone).Normal?
      ensures |PhoneFn(parse)(phone).value| == PhoneCount(phone)
    {
      PhoneLength(phone.0, MonthsOf(phone.1), parse);
    }
    ConcatMapLength(phones, PhoneFn(parse), PhoneCount);
  }

  lemma PhoneLength(phone: string, months: seq<(string, Value)>, parse: DateParser)
    ensures ConcatMap(months, MonthFn(phone, parse)).Normal? ==>
      |ConcatMap(months, MonthFn(phone, parse)).value| == SumLen(months, MonthCount)
  {
    forall month | month in months && MonthFn(phone, parse)(month).Normal?
      ensures |MonthFn(phone, parse)(month).value| == MonthCount(month)
    {
      MapThrowShape(GroupList(month.1), PaymentFn(phone, month.0, parse));
    }
    ConcatMapLength(months, MonthFn(phone, parse), MonthCount);
  }

  /** The innermost `forEach`: the entries of one month group. */
  method FlattenMonth(payments: seq<Value>, phone: string, monthKey: string, parse: DateParser)
    returns (r: Completion<seq<Payment>>)
    ensures r == MapThrow(payments, PaymentFn(phone, monthKey, parse))
  {
    var out: seq<Payment> := [];
    var k := 0;
    while k < |payments|
      invariant 0 <= k <= |payments|
      invariant MapThrow(payments[..k], PaymentFn(phone, monthKey, parse)) == Normal(out)
    {
      var entry := PaymentOf(payments[k], phone, monthKey, parse);
      MapThrowNext(payments, PaymentFn(phone, monthKey, parse), k, out);
      if entry.Throw? {
        return Throw(entry.message);
      }
      out := out + [entry.value];
      k := k + 1;
    }
    assert payments[..k] == payments;
    return Normal(out);
  }

  /** The middle `forEach`: the entries of one phone's months. */
  method FlattenPhone(months: seq<(string, Value)>, phone: string, parse: DateParser)
    returns (r: Completion<seq<Payment>>)
    ensures r == ConcatMap(months, MonthFn(phone, parse))
  {
    var out: seq<Payment> := [];
    var j := 0;
    while j < |months|
      invariant 0 <= j <= |months|
      invariant ConcatMap(months[..j], MonthFn(phone, parse)) == Normal(out)
    {
      var part := FlattenMonth(GroupList(months[j].1), phone, months[j].0, parse);
      ConcatMapNext(months, MonthFn(phone, parse), j, out);
      if part.Throw? {
        return Throw(part.message);
      }
      out := out + part.value;
      j := j + 1;
    }
    assert months[..j] == months;
    return Normal(out);
  }

  /** The nested `forEach` loops that build `flatPayments`. */
  method FlattenGrouped(grouped: Value, parse: DateParser) returns (r: Completion<seq<Payment>>)
    ensures r == FlatPayments(Entries(grouped), parse)
  {
    var phones := Entries(grouped);
    var flat: seq<Payment> := [];
    var i := 0;
    while i < |phones|
      invariant 0 <= i <= |phones|
      invariant FlatPayments(phones[..i], parse) == Normal(flat)
    {
      var part := FlattenPhone(MonthsOf(phones[i].1), phones[i].0, parse);
      ConcatMapNext(phones, PhoneFn(parse), i, flat);
      if part.Throw? {
        return Throw(part.message);
      }
      flat := flat + part.value;
      i := i + 1;
    }
    assert phones[..i] == phones;
    return Normal(flat);
  }

  /** The sum of the amounts. */
  function AmountSum(ps: seq<Payment>): real {
    if ps == [] then 0.0 else AmountSum(ps[..|ps| - 1]) + ps[|ps| - 1].amount
  }

  /** `p.date && String(p.date).slice(0, 10) === todayISO` */
  predicate PaidToday(p: Payment, today: string) {
    Truthy(p.date) && SliceTo(ToStr(p.date), 10) == today
  }

  function TodaySum(ps: seq<Payment>, today: string): real {
    if ps == [] then 0.0
    else TodaySum(ps[..|ps| - 1], today) + (if PaidToday(ps[|ps| - 1], today) then ps[|ps| - 1].amount else 0.0)
  }

  /** The totals loop of the grouped path. */
  method GroupedTotals(flat: seq<Payment>, today: string) returns (total: real, todayTotal: real)
    ensures total == AmountSum(flat)
    ensures todayTotal == TodaySum(flat, today)
  {
    total, todayTotal := 0.0, 0.0;
    var i := 0;
    while i < |flat|
      invariant 0 <= i <= |flat|
      invariant total == AmountSum(flat[..i])
      invariant todayTotal == TodaySum(flat[..i], today)
    {
      var p := flat[i];
      total := total + p.amount;
      if PaidToday(p, today) {
        todayTotal := todayTotal + p.amount;
      }
      assert flat[..i + 1][..i] == flat[..i];
      i := i + 1;
    }
    assert flat[..i] == flat;
  }

  /** With no negative amounts, today's total lies between 0 and the total. */
  lemma {:induction false} TodayWithinTotal(ps: seq<Payment>, today: string)
    requires forall p :: p in ps ==> p.amount >= 0.0
    ensures 0.0 <= TodaySum(ps, today) <= AmountSum(ps)
  {
    if ps != [] {
      assert forall p :: p in ps[..|ps| - 1] ==> p in ps;
      TodayWithinTotal(ps[..|ps| - 1], today);
    }
  }

  /** `(p.phone || p.name || 'Unknown').toString()` */
  function PaymentKey(p: Payment): string {
    ToStr(Or(Or(p.phone, p.name), Str("Unknown")))
  }

  /** `p.dateObj ? p.dateObj.getTime() : 0` */
  function Ts(p: Payment): int {
    if p.dateObj.Some? then p.dateObj.value else 0
  }

  /** `ts > (byPhone[key].__ts || 0)` */
  predicate PaymentLater(x: Payment, kept: Payment) {
    Ts(x) > Ts(kept)
  }

  /** The `byPhone` loop: a key's first entry is stored, and replaced only by
      a strictly later one. */
  method LatestByPhone(flat: seq<Payment>) returns (order: seq<string>, byPhone: map<string, Payment>)
    ensures Latest(order, byPhone) == LatestPerKey(flat, PaymentKey, PaymentLater)
  {
    order, byPhone := [], map[];
    var i := 0;
    while i < |flat|
      invariant 0 <= i <= |flat|
      invariant Latest(order, byPhone) == LatestPerKey(flat[..i], PaymentKey, PaymentLater)
    {
      var p := flat[i];
      var key := PaymentKey(p);
      assert flat[..i + 1][..i] == flat[..i];
      if key !in byPhone {
        order := order + [key];
        byPhone := byPhone[key := p];
      } else if Ts(p) > Ts(byPhone[key]) {
        byPhone := byPhone[key := p];
      }
      i := i + 1;
    }
    assert flat[..i] == flat;
  }

  /** The comparator of `latestPerClient`: newest first when both are dated,
      otherwise a tie. */
  function RecentOrder(a: Payment, b: Payment): int {
    if a.dateObj.Some? && b.dateObj.Some? then Sign((b.dateObj.value - a.dateObj.value) as real) else 0
  }

  function GroupedRecent(flat: seq<Payment>): seq<Payment> {
    Sort(KeptValues(flat, PaymentKey, PaymentLater), RecentOrder)
  }

  /** `recent` holds exactly one entry per client key of the flat list. */
  lemma GroupedRecentOnePerKey(flat: seq<Payment>)
    ensures var r := GroupedRecent(flat);
      && |r| == |FirstAppearance(flat, PaymentKey)|
      && (forall x, y :: x in r && y in r && PaymentKey(x) == PaymentKey(y) ==> x == y)
      && (forall x :: x in r ==> x in flat)
      && (forall p :: p in flat ==> exists y :: y in r && PaymentKey(y) == PaymentKey(p))
  {
    SortPermutes(KeptValues(flat, PaymentKey, PaymentLater), RecentOrder);
    OnePerKey(flat, PaymentKey, PaymentLater, GroupedRecent(flat));
  }

  /** The entry kept for a client is the first of its payments with the
      greatest timestamp (undated payments count as 0). */
  lemma GroupedRecentIsLatest(flat: seq<Payment>, x: Payment)
    requires x in GroupedRecent(flat)
    ensures var w := WithKey(flat, PaymentKey, PaymentKey(x));
      exists i :: IsFirstMax(w, Ts, i) && x == w[i]
  {
    var d := LatestPerKey(flat, PaymentKey, PaymentLater);
    var v := KeptValues(flat, PaymentKey, PaymentLater);
    SortMembers(v, RecentOrder);
    assert x in v;
    var i :| 0 <= i < |v| && v[i] == x;
    var k := d.order[i];
    assert PaymentKey(x) == k;
    KeptIsFirstMax(flat, PaymentKey, PaymentLater, Ts, k);
  }

  /** When every payment is dated, `recent` runs newest first. */
  lemma GroupedRecentNewestFirst(flat: seq<Payment>)
    requires forall p :: p in flat ==> p.dateObj.Some?
    ensures var r := GroupedRecent(flat);
      forall i, j :: 0 <= i < j < |r| ==> Ts(r[i]) >= Ts(r[j])
  {
    var v := KeptValues(flat, PaymentKey, PaymentLater);
    var r := GroupedRecent(flat);
    var S := set p | p in flat;
    var key := (p: Payment) => Some(Ts(p) as real);
    OnePerKey(flat, PaymentKey, PaymentLater, v);
    NumericConsistent(RecentOrder, key, true, S);
    SortSorted(v, RecentOrder, S);
    SortMembers(v, RecentOrder);
    NumericSorted(r, RecentOrder, key, true);
  }

  // ---------------------------------------------------------------------------
  // The legacy list of rows

  /** A row of the legacy list with the fields the adapter derives from it.
      `dt` is the sort time: the parsed date, else `TIMESTAMP`'s; `None`
      stands for `null` and for NaN, which the comparator reads as 0. */
  datatype LegacyRow = LegacyRow(original: Value, name: string, phone: string, amount: real,
                                 date: Value, time: Value, dateObj: Option<int>, dt: Option<int>)

  /** `adaptPaymentsResponse`'s reading of a legacy row; reading a field
      of `null` or `undefined` throws. */
  function LegacyRowOf(r: Value, parse: DateParser): (x: Completion<LegacyRow>)
    ensures x.Throw? <==> Nullish(r)
  {
    if Nullish(r) then Throw(ReadError(r, "AMOUNT")) else Normal(RowFields(r, parse))
  }

  /** The fields derived from a row that is an object: the name falls back to
      the phone and then to `'Unknown'`, so it is never empty. */
  function RowFields(r: Value, parse: DateParser): (x: LegacyRow)
    requires !Nullish(r)
    ensures x.original == r && x.name != ""
  {
    var amount := NumberOr0(Coalesce(Coalesce(Get(r, "AMOUNT"), Get(r, "amount")), Num(0.0)));
    var dateVal := Coalesce(Get(r, "DATE"), Get(r, "date"));
    var timeVal := Coalesce(Get(r, "TIME"), Get(r, "time"));
    var dt := ParseDateTime(dateVal, timeVal, parse);
    var phoneText := ToStr(Or(Or(Get(r, "PHONE"), Get(r, "phone")), Str("")));
    var nameText := ToStr(Or(Or(Get(r, "NAME"), Get(r, "name")), Str("")));
    var phone := Trim(phoneText);
    var rawName := Trim(nameText);
    var name := if rawName != "" then rawName else if phone != "" then phone else "Unknown";
    var stamp := if dt.Some? then dt
                 else if Truthy(Get(r, "TIMESTAMP")) then DateValue(Get(r, "TIMESTAMP"), parse)
                 else None;
    LegacyRow(r, name, phone, amount, dateVal, timeVal, dt, stamp)
  }

  function RowFn(parse: DateParser): Value -> Completion<LegacyRow> {
    (r: Value) => LegacyRowOf(r, parse)
  }

  /** `phone || name` */
  function RowKey(x: LegacyRow): string {
    if x.phone != "" then x.phone else x.name
  }

  /** `x.dt || 0` */
  function DtKey(x: LegacyRow): int {
    if x.dt.Some? then x.dt.value else 0
  }

  predicate DtLater(x: LegacyRow, kept: LegacyRow) {
    DtKey(x) > DtKey(kept)
  }

  /** `(a, b) => (b.dt || 0) - (a.dt || 0)` */
  function DtOrder(a: LegacyRow, b: LegacyRow): int {
    Sign((DtKey(b) - DtKey(a)) as real)
  }

  predicate RowToday(x: LegacyRow, clock: Clock) {
    x.dateObj.Some? && clock.isoDay(x.dateObj.value) == clock.today
  }

  /** `r.BALANCE === '' || r.BALANCE == null` */
  predicate RowPending(x: LegacyRow) {
    Get(x.original, "BALANCE") == Str("") || Nullish(Get(x.original, "BALANCE"))
  }

  function RowAmountSum(xs: seq<LegacyRow>): real {
    if xs == [] then 0.0 else RowAmountSum(xs[..|xs| - 1]) + xs[|xs| - 1].amount
  }

  function RowTodaySum(xs: seq<LegacyRow>, clock: Clock): real {
    if xs == [] then 0.0
    else RowTodaySum(xs[..|xs| - 1], clock) + (if RowToday(xs[|xs| - 1], clock) then xs[|xs| - 1].amount else 0.0)
  }

  function PendingCount(xs: seq<LegacyRow>): (n: nat)
    ensures n <= |xs|
  {
    if xs == [] then 0 else PendingCount(xs[..|xs| - 1]) + (if RowPending(xs[|xs| - 1]) then 1 else 0)
  }

  /** What the legacy `forEach` accumulates. */
  datatype Tally = Tally(total: real, today: real, pending: nat, order: seq<string>,
                         groups: map<string, seq<LegacyRow>>)

  /** One turn of the legacy loop, on the row `x`. */
  function Push(t: Tally, x: LegacyRow, clock: Clock): Tally {
    var key := RowKey(x);
    Tally(t.total + x.amount,
          t.today + (if RowToday(x, clock) then x.amount else 0.0),
          t.pending + (if RowPending(x) then 1 else 0),
          if key in t.groups then t.order else t.order + [key],
          t.groups[key := if key in t.groups then t.groups[key] + [x] else [x]])
  }

  /** The loop run over the rows `xs`. */
  function TallyFold(xs: seq<LegacyRow>, clock: Clock): Tally {
    if xs == [] then Tally(0.0, 0.0, 0, [], map[])
    else Push(TallyFold(xs[..|xs| - 1], clock), xs[|xs| - 1], clock)
  }

  /** The loop sums the amounts over all rows and over today's rows, and
      counts the rows whose balance is blank. */
  lemma {:induction false} TallyFoldSums(xs: seq<LegacyRow>, clock: Clock)
    ensures var t := TallyFold(xs, clock);
      t.total == RowAmountSum(xs) && t.today == RowTodaySum(xs, clock) && t.pending == PendingCount(xs)
  {
    if xs != [] {
      TallyFoldSums(xs[..|xs| - 1], clock);
    }
  }

  /** The loop lists the client keys in order of first appearance and groups
      under each key exactly that key's rows, in list order. */
  lemma {:induction false} TallyFoldGroups(xs: seq<LegacyRow>, clock: Clock)
    ensures var t := TallyFold(xs, clock);
      && t.order == FirstAppearance(xs, RowKey)
      && (forall k :: k in t.groups <==> k in t.order)
      && (forall k :: k in t.groups ==> t.groups[k] == WithKey(xs, RowKey, k))
  {
    if xs != [] {
      var n := |xs| - 1;
      var front := xs[..n];
      assert front + [xs[n]] == xs;
      TallyFoldGroups(front, clock);
      var t := TallyFold(front, clock);
      var u := TallyFold(xs, clock);
      assert u == Push(t, xs[n], clock);
      forall k | k in u.groups ensures u.groups[k] == WithKey(xs, RowKey, k) {
        WithKeyPush(front, xs[n], RowKey, k);
        if k !in t.groups {
          WithKeyAbsent(front, RowKey, k);
        }
      }
    }
  }

  /** The body of the legacy `forEach` callback, once the row is read. */
  method AddRow(t: Tally, x: LegacyRow, clock: Clock) returns (u: Tally)
    ensures u == Push(t, x, clock)
  {
    var total, today, pending, order, groups := t.total, t.today, t.pending, t.order, t.groups;
    total := total + x.amount;
    today := today + if RowToday(x, clock) then x.amount else 0.0;
    pending := pending + if RowPending(x) then 1 else 0;
    var key := RowKey(x);
    if key in groups {
      groups := groups[key := groups[key] + [x]];
    } else {
      order := order + [key];
      groups := groups[key := [x]];
    }
    u := Tally(total, today, pending, order, groups);
  }

  /** The reads at the top of the legacy `forEach` callback, row by row; the
      first row that is `null` or `undefined` throws. */
  method ReadLegacyRows(rows: seq<Value>, parse: DateParser) returns (c: Completion<seq<LegacyRow>>)
    ensures c == MapThrow(rows, RowFn(parse))
  {
    var xs: seq<LegacyRow> := [];
    var i := 0;
    while i < |rows|
      invariant 0 <= i <= |rows|
      invariant MapThrow(rows[..i], RowFn(parse)) == Normal(xs)
    {
      var row := LegacyRowOf(rows[i], parse);
      MapThrowNext(rows, RowFn(parse), i, xs);
      if row.Throw? {
        return Throw(row.message);
      }
      xs := xs + [row.value];
      i := i + 1;
    }
    assert rows[..i] == rows;
    return Normal(xs);
  }

  /** The accumulation of the legacy `forEach` loop over the rows read. */
  method LegacyPass(xs: seq<LegacyRow>, clock: Clock) returns (t: Tally)
    ensures t == TallyFold(xs, clock)
  {
    t := Tally(0.0, 0.0, 0, [], map[]);
    var i := 0;
    while i < |xs|
      invariant 0 <= i <= |xs|
      invariant t == TallyFold(xs[..i], clock)
    {
      t := AddRow(t, xs[i], clock);
      assert xs[..i + 1][..i] == xs[..i];
      i := i + 1;
    }
    assert xs[..i] == xs;
  }

  /** The fields `latestPerClient` keeps of a row. */
  datatype LatestRow = LatestRow(name: string, phone: string, amount: real, date: Value, time: Value,
                                 dateObj: Option<int>, raw: Value)

  function ToLatest(x: LegacyRow): LatestRow {
    LatestRow(x.name, x.phone, x.amount, x.date, x.time, x.dateObj, x.original)
  }

  /** `a.dateObj ? a.dateObj.getTime() : 0` */
  function LatestTime(x: LatestRow): int {
    if x.dateObj.Some? then x.dateObj.value else 0
  }

  /** `(a, b) => db - da` */
  function LatestOrder(a: LatestRow, b: LatestRow): int {
    Sign((LatestTime(b) - LatestTime(a)) as real)
  }

  /** `groups[k].slice().sort(..)[0]` */
  function HeadOfGroup(list: seq<LegacyRow>): LegacyRow
    requires |list| > 0
  {
    Sort(list, DtOrder)[0]
  }

  /** Every key has a group and no group is empty. */
  predicate GroupsNonEmpty(order: seq<string>, groups: map<string, seq<LegacyRow>>) {
    forall k :: k in order ==> k in groups && |groups[k]| > 0
  }

  lemma TallyGroupsNonEmpty(xs: seq<LegacyRow>, clock: Clock)
    ensures var t := TallyFold(xs, clock); GroupsNonEmpty(t.order, t.groups)
  {
    var t := TallyFold(xs, clock);
    TallyFoldGroups(xs, clock);
    forall k | k in t.order ensures k in t.groups && |t.groups[k]| > 0 {
      var x :| x in xs && RowKey(x) == k;
      assert x in WithKey(xs, RowKey, k);
    }
  }

  /** The head of each key's group, keys in order. */
  function HeadsOf(order: seq<string>, groups: map<string, seq<LegacyRow>>): (r: seq<LatestRow>)
    requires GroupsNonEmpty(order, groups)
    ensures |r| == |order|
  {
    if order == [] then []
    else
      var n := |order| - 1;
      HeadsOf(order[..n], groups) + [ToLatest(HeadOfGroup(groups[order[n]]))]
  }

  lemma {:induction false} HeadsOfAt(order: seq<string>, groups: map<string, seq<LegacyRow>>, i: nat)
    requires GroupsNonEmpty(order, groups) && i < |order|
    ensures HeadsOf(order, groups)[i] == ToLatest(HeadOfGroup(groups[order[i]]))
  {
    var n := |order| - 1;
    if i < n {
      HeadsOfAt(order[..n], groups, i);
    }
  }

  /** The `Object.keys(groups).map(..)` loop: one head per group. */
  method GroupHeads(order: seq<string>, groups: map<string, seq<LegacyRow>>) returns (heads: seq<LatestRow>)
    requires GroupsNonEmpty(order, groups)
    ensures heads == HeadsOf(order, groups)
  {
    heads := [];
    var i := 0;
    while i < |order|
      invariant 0 <= i <= |order|
      invariant heads == HeadsOf(order[..i], groups)
    {
      heads := heads + [ToLatest(HeadOfGroup(groups[order[i]]))];
      assert order[..i + 1][..i] == order[..i];
      i := i + 1;
    }
    assert order[..i] == order;
  }

  /** The legacy `recent`: the group heads, newest first. */
  function LegacyRecent(xs: seq<LegacyRow>, clock: Clock): seq<LatestRow> {
    var t := TallyFold(xs, clock);
    TallyGroupsNonEmpty(xs, clock);
    Sort(HeadsOf(t.order, t.groups), LatestOrder)
  }

  /** The row a group's sort puts first is the group's first row with the
      greatest sort time: the sort is stable and the comparator consistent. */
  lemma HeadOfGroupIsFirstMax(list: seq<LegacyRow>)
    requires |list| > 0
    ensures exists i :: IsFirstMax(list, DtKey, i) && HeadOfGroup(list) == list[i]
  {
    var S := set x | x in list;
    var key := (x: LegacyRow) => Some(DtKey(x) as real);
    NumericConsistent(DtOrder, key, true, S);
    SortHeadIsKeepLatest(list, DtOrder, DtLater, S);
    KeepLatestIsFirstMax(list, DtLater, DtKey);
  }

  /** The legacy `recent` runs newest first by parsed date, undated rows as 0. */
  lemma LegacyRecentNewestFirst(xs: seq<LegacyRow>, clock: Clock)
    ensures var r := LegacyRecent(xs, clock);
      forall i, j :: 0 <= i < j < |r| ==> LatestTime(r[i]) >= LatestTime(r[j])
  {
    var r := LegacyRecent(xs, clock);
    var t := TallyFold(xs, clock);
    TallyGroupsNonEmpty(xs, clock);
    var heads := HeadsOf(t.order, t.groups);
    var key := (x: LatestRow) => Some(LatestTime(x) as real);
    var H := set x | x in heads;
    NumericConsistent(LatestOrder, key, true, H);
    SortSorted(heads, LatestOrder, H);
    SortMembers(heads, LatestOrder);
    NumericSorted(r, LatestOrder, key, true);
  }

  /** `y` is, for one client key, that key's first row with the greatest sort time. */
  ghost predicate LatestOfSomeKey(xs: seq<LegacyRow>, y: LatestRow) {
    exists k :: k in FirstAppearance(xs, RowKey) &&
      (exists i :: IsFirstMax(WithKey(xs, RowKey, k), DtKey, i) && y == ToLatest(WithKey(xs, RowKey, k)[i]))
  }

  /** The legacy `recent` holds one row per client key, each the key's first
      row with the greatest sort time. */
  lemma LegacyRecentOnePerKey(xs: seq<LegacyRow>, clock: Clock)
    ensures |LegacyRecent(xs, clock)| == |FirstAppearance(xs, RowKey)|
    ensures forall y :: y in LegacyRecent(xs, clock) ==> LatestOfSomeKey(xs, y)
  {
    var r := LegacyRecent(xs, clock);
    var t := TallyFold(xs, clock);
    TallyFoldGroups(xs, clock);
    TallyGroupsNonEmpty(xs, clock);
    var heads := HeadsOf(t.order, t.groups);
    SortMembers(heads, LatestOrder);
    forall y | y in r ensures LatestOfSomeKey(xs, y) {
      var n :| 0 <= n < |heads| && heads[n] == y;
      var k := t.order[n];
      HeadsOfAt(t.order, t.groups, n);
      HeadOfGroupIsFirstMax(WithKey(xs, RowKey, k));
    }
  }

  // ---------------------------------------------------------------------------
  // The adapter

  datatype RecentRows = FromPayments(payments: seq<Payment>) | FromRows(rows: seq<LatestRow>)
  datatype RawRows = Flat(entries: seq<Payment>) | Original(values: seq<Value>)

  /** The adapter's result record. */
  datatype Adapted = Adapted(today: real, total: real, pending: nat, recent: RecentRows,
                             rawRows: RawRows, grouped: Value, monthlySummary: Value)

  const EmptyAdapted := Adapted(0.0, 0.0, 0, FromRows([]), Original([]), Obj([]), Obj([]))

  /** `resp && (resp.data || resp) ? (resp.data || resp) : null` */
  function Payload(resp: Value): Value {
    if Truthy(resp) then Or(Get(resp, "data"), resp) else Null
  }

  /** The test for the grouped form. */
  predicate IsGrouped(payload: Value) {
    && Truthy(payload) && IsObjectType(payload) && !payload.Arr?
    && (Truthy(Get(payload, "userPaymentsByMonth")) || Truthy(Get(payload, "monthlySummary")))
  }

  /** The legacy rows: the payload if it is an array, else its `data` array, else none. */
  function LegacyRows(payload: Value): seq<Value> {
    if payload.Arr? then payload.items
    else if Truthy(payload) && Get(payload, "data").Arr? then Get(payload, "data").items
    else []
  }

  function GroupedOf(payload: Value): Value {
    Or(Get(payload, "userPaymentsByMonth"), Obj([]))
  }

  function SummaryOf(payload: Value): Value {
    Or(Get(payload, "monthlySummary"), Obj([]))
  }

  /** What `adaptPaymentsResponse(resp)` returns, or the error it throws. */
  function Adapt(resp: Value, clock: Clock): (r: Completion<Adapted>)
    ensures var payload := Payload(resp);
      IsGrouped(payload) && r.Normal? ==>
        && r.value.pending == 0
        && r.value.rawRows.Flat?
        && |r.value.rawRows.entries| == SumLen(Entries(GroupedOf(payload)), PhoneCount)
        && r.value.total == AmountSum(r.value.rawRows.entries)
        && r.value.grouped == GroupedOf(payload)
        && r.value.monthlySummary == SummaryOf(payload)
    ensures var payload := Payload(resp);
      !IsGrouped(payload) && LegacyRows(payload) == [] ==> r == Normal(EmptyAdapted)
    ensures var payload := Payload(resp);
      !IsGrouped(payload) && LegacyRows(payload) != [] ==>
        && (r.Throw? <==> exists i :: 0 <= i < |LegacyRows(payload)| && Nullish(LegacyRows(payload)[i]))
        && (r.Normal? ==> r.value.rawRows == Original(LegacyRows(payload))
                          && r.value.pending <= |LegacyRows(payload)|)
    ensures var payload := Payload(resp);
      IsGrouped(payload) ==> r == AdaptGrouped(payload, clock)
    ensures var payload := Payload(resp);
      !IsGrouped(payload) && LegacyRows(payload) != [] ==> r == AdaptLegacy(LegacyRows(payload), clock)
  {
    var payload := Payload(resp);
    if IsGrouped(payload) then AdaptGrouped(payload, clock)
    else
      var rows := LegacyRows(payload);
      if rows == [] then Normal(EmptyAdapted) else AdaptLegacy(rows, clock)
  }

  /** The grouped branch: the flat list of payments, its totals and its
      latest payment per phone, newest first. */
  function AdaptGrouped(payload: Value, clock: Clock): (r: Completion<Adapted>)
    ensures r.Normal? ==>
      && r.value.pending == 0
      && r.value.rawRows.Flat?
      && |r.value.rawRows.entries| == SumLen(Entries(GroupedOf(payload)), PhoneCount)
      && r.value.total == AmountSum(r.value.rawRows.entries)
      && r.value.grouped == GroupedOf(payload)
      && r.value.monthlySummary == SummaryOf(payload)
      && r.value.today == TodaySum(r.value.rawRows.entries, clock.today)
      && r.value.recent == FromPayments(GroupedRecent(r.value.rawRows.entries))
  {
    FlatPaymentsCount(Entries(GroupedOf(payload)), clock.parse);
    match FlatPayments(Entries(GroupedOf(payload)), clock.parse)
    case Throw(m) => Throw(m)
    case Normal(flat) =>
      Normal(Adapted(TodaySum(flat, clock.today), AmountSum(flat), 0, FromPayments(GroupedRecent(flat)),
                     Flat(flat), GroupedOf(payload), SummaryOf(payload)))
  }

  /** The legacy branch over a list of rows that is not empty. */
  function AdaptLegacy(rows: seq<Value>, clock: Clock): (r: Completion<Adapted>)
    ensures r.Throw? <==> exists i :: 0 <= i < |rows| && Nullish(rows[i])
    ensures r.Normal? ==> r.value.rawRows == Original(rows) && r.value.pending <= |rows|
    ensures r.Normal? ==>
      && MapThrow(rows, RowFn(clock.parse)).Normal?
      && var xs := MapThrow(rows, RowFn(clock.parse)).value;
      && r.value.total == RowAmountSum(xs)
      && r.value.today == RowTodaySum(xs, clock)
      && r.value.pending == PendingCount(xs)
      && r.value.recent == FromRows(LegacyRecent(xs, clock))
  {
    MapThrowShape(rows, RowFn(clock.parse));
    match MapThrow(rows, RowFn(clock.parse))
    case Throw(m) => Throw(m)
    case Normal(xs) =>
      var t := TallyFold(xs, clock);
      TallyFoldSums(xs, clock);
      Normal(Adapted(t.today, t.total, t.pending, FromRows(LegacyRecent(xs, clock)),
                     Original(rows), Obj([]), Obj([])))
  }

  /** `adaptPaymentsResponse(resp)`. */
  method AdaptPaymentsResponse(resp: Value, clock: Clock) returns (r: Completion<Adapted>)
    ensures r == Adapt(resp, clock)
  {
    var payload := Payload(resp);
    if IsGrouped(payload) {
      r := AdaptGroupedPayload(payload, clock);
      return;
    }
    var rows := LegacyRows(payload);
    if rows == [] {
      return Normal(EmptyAdapted);
    }
    r := AdaptLegacyRows(rows, clock);
  }

  /** The grouped branch of `adaptPaymentsResponse`. */
  method AdaptGroupedPayload(payload: Value, clock: Clock) returns (r: Completion<Adapted>)
    ensures r == AdaptGrouped(payload, clock)
  {
    var grouped := GroupedOf(payload);
    var monthlySummary := SummaryOf(payload);
    var flat := FlattenGrouped(grouped, clock.parse);
    if flat.Throw? {
      return Throw(flat.message);
    }
    var total, today := GroupedTotals(flat.value, clock.today);
    var order, byPhone := LatestByPhone(flat.value);
    var latest := KeptInOrder(Latest(order, byPhone));
    var recent := Sort(latest, RecentOrder);
    return Normal(Adapted(today, total, 0, FromPayments(recent), Flat(flat.value), grouped, monthlySummary));
  }

  /** The legacy branch of `adaptPaymentsResponse`, over rows that are not
      empty. */
  method AdaptLegacyRows(rows: seq<Value>, clock: Clock) returns (r: Completion<Adapted>)
    ensures r == AdaptLegacy(rows, clock)
  {
    var read := ReadLegacyRows(rows, clock.parse);
    if read.Throw? {
      return Throw(read.message);
    }
    var t := LegacyPass(read.value, clock);
    TallyGroupsNonEmpty(read.value, clock);
    var heads := GroupHeads(t.order, t.groups);
    var recent := Sort(heads, LatestOrder);
    return Normal(Adapted(t.today, t.total, t.pending, FromRows(recent), Original(rows), Obj([]), Obj([])));
  }
}
