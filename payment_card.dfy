/** The payments overview card (PaymentOverviewCard): the total, the latest
    payment of every client and the months listed newest first. */
module PaymentCard {
  import opened JsValues
  import opened Ordering

  /** `parseDateTime(s)`: none for a falsy or unparsable value. */
  function ParseDateTimeValue(s: Value, parse: DateParser): (r: Option<int>)
    ensures !Truthy(s) ==> r.None?
    ensures Truthy(s) ==> r == DateValue(s, parse)
  {
    if !Truthy(s) then None else DateValue(s, parse)
  }

  /** `formatDate(s)` and `formatTime(s)`: the locale text of the parsed date,
      or `invalid` when there is none. */
  function FormatParsed(s: Value, parse: DateParser, locale: int -> string, invalid: string): (text: string)
    ensures ParseDateTimeValue(s, parse).None? ==> text == invalid
    ensures ParseDateTimeValue(s, parse).Some? ==> text == locale(ParseDateTimeValue(s, parse).value)
  {
    match ParseDateTimeValue(s, parse)
    case None => invalid
    case Some(t) => locale(t)
  }

  /** `formatMonthLabel(month, year)` */
  function MonthLabel(month: Value, year: Value): (text: string)
    ensures !Truthy(month) || !Truthy(year) ==> text == "Invalid Date"
    ensures Truthy(month) && Truthy(year) ==> text == ToStr(month) + " " + ToStr(year)
  {
    if !Truthy(month) || !Truthy(year) then "Invalid Date" else ToStr(month) + " " + ToStr(year)
  }

  /** The date and the time of a payment are shown together or not at all:
      both read invalid exactly when `parseDateTime` gives null, and
      otherwise both are locale texts of the same instant. */
  lemma ShownDateTime(s: Value, parse: DateParser, dateText: int -> string, timeText: int -> string)
    requires forall t :: dateText(t) != "Invalid Date"
    requires forall t :: timeText(t) != "Invalid Time"
    ensures var date := FormatParsed(s, parse, dateText, "Invalid Date");
      date == "Invalid Date" <==> !Truthy(s) || DateValue(s, parse).None?
    ensures var time := FormatParsed(s, parse, timeText, "Invalid Time");
      time == "Invalid Time" <==> !Truthy(s) || DateValue(s, parse).None?
    ensures Truthy(s) && DateValue(s, parse).Some? ==>
      && FormatParsed(s, parse, dateText, "Invalid Date") == dateText(DateValue(s, parse).value)
      && FormatParsed(s, parse, timeText, "Invalid Time") == timeText(DateValue(s, parse).value)
  {
  }

  // ---------------------------------------------------------------------------
  // The totals and the latest payment per client

  /** The TypeError V8 raises when `const { clientName, .. } = payment` meets
      null or undefined. */
  function DestructureError(p: Value): string {
    "Cannot destructure property 'clientName' of 'payment' as it is " + (if p.Null? then "null" else "undefined") + "."
  }

  const NotAFunction := "payments.forEach is not a function"
  const NullToObject := "Cannot convert undefined or null to object"

  /** Destructuring one payment: only null and undefined throw. */
  function CheckPayment(p: Value): (r: Completion<Value>)
    ensures r.Throw? <==> Nullish(p)
    ensures r.Normal? ==> r.value == p
  {
    if Nullish(p) then Throw(DestructureError(p)) else Normal(p)
  }

  /** `payments.forEach(..)` over one group of the object form: the group
      must be an array. */
  function GroupFn(g: Value): Completion<seq<Value>> {
    if Nullish(g) then Throw(ReadError(g, "forEach"))
    else if !g.Arr? then Throw(NotAFunction)
    else MapThrow(g.items, CheckPayment)
  }

  /** The payments the card walks, in order, or the error the walk throws:
      the array itself, every group of an object, or none for anything else. */
  function CardPayments(data: Value): Completion<seq<Value>> {
    if data.Arr? then MapThrow(data.items, CheckPayment)
    else if data.Null? then Throw(NullToObject)
    else if IsObjectType(data) then ConcatMap(Values(data), GroupFn)
    else Normal([])
  }

  /** `Number(amount) || 0` */
  function Amount(p: Value): real {
    NumberOr0(Get(p, "amount"))
  }

  function AmountTotal(ps: seq<Value>): real {
    if ps == [] then 0.0 else AmountTotal(ps[..|ps| - 1]) + Amount(ps[|ps| - 1])
  }

  lemma AmountTotalPush(ps: seq<Value>, p: Value)
    ensures AmountTotal(ps + [p]) == AmountTotal(ps) + Amount(p)
  {
    assert (ps + [p])[..|ps|] == ps;
  }

  /** The property key `latestPayments[clientName]`. */
  function ClientKey(p: Value): string {
    ToStr(Get(p, "clientName"))
  }

  /** `new Date(a.date_time) > new Date(b.date_time)`: false when either
      date is invalid. */
  predicate DateAfter(a: Value, b: Value, parse: DateParser) {
    var da, db := DateValue(Get(a, "date_time"), parse), DateValue(Get(b, "date_time"), parse);
    da.Some? && db.Some? && da.value > db.value
  }

  /** Whether `p` replaces the stored payment `kept`. */
  function CardLater(parse: DateParser): (Value, Value) -> bool {
    (p: Value, kept: Value) => !Truthy(kept) || DateAfter(p, kept, parse)
  }

  datatype Tally = Tally(total: real, latest: Latest<Value>)

  function TallyOf(ps: seq<Value>, parse: DateParser): Tally {
    Tally(AmountTotal(ps), LatestPerKey(ps, ClientKey, CardLater(parse)))
  }

  /** The memo's result: the total, the latest payments and the groups. */
  datatype CardState = CardState(total: real, latest: Latest<Value>, grouped: Value)

  /** What the memo computes for `data`, or the error it throws. */
  function CardOf(data: Value, parse: DateParser): Completion<CardState> {
    match CardPayments(data)
    case Throw(m) => Throw(m)
    case Normal(ps) =>
      var t := TallyOf(ps, parse);
      Normal(CardState(t.total, t.latest, if !data.Arr? && IsObjectType(data) then data else Obj([])))
  }

  /** A walk that does not throw passes over the payments themselves. */
  lemma CheckedAll(ps: seq<Value>)
    ensures MapThrow(ps, CheckPayment).Throw? <==> exists i :: 0 <= i < |ps| && Nullish(ps[i])
    ensures MapThrow(ps, CheckPayment).Normal? ==> MapThrow(ps, CheckPayment).value == ps
  {
    MapThrowShape(ps, CheckPayment);
  }

  /** One payment of the loop body: the tally of the first `k` payments
      becomes that of the first `k + 1`. */
  method Visit(t: Tally, payments: seq<Value>, k: nat, parse: DateParser) returns (u: Tally)
    requires k < |payments| && t == TallyOf(payments[..k], parse)
    ensures u == TallyOf(payments[..k + 1], parse)
  {
    var p := payments[k];
    ghost var seen := payments[..k];
    var order, kept := RecordLatest(t.latest.order, t.latest.kept, p, seen, ClientKey, CardLater(parse));
    u := Tally(t.total + Amount(p), Latest(order, kept));
    TallyPush(seen, p, parse, order, kept);
    TakeNext(payments, k);
  }

  /** The tally after one more payment: its amount is added and the per-client
      step is applied. */
  lemma TallyPush(seen: seq<Value>, p: Value, parse: DateParser, order: seq<string>, kept: map<string, Value>)
    requires Latest(order, kept) == LatestPerKey(seen + [p], ClientKey, CardLater(parse))
    ensures Tally(AmountTotal(seen) + Amount(p), Latest(order, kept)) == TallyOf(seen + [p], parse)
  {
    AmountTotalPush(seen, p);
  }

  lemma TakeNext<T>(s: seq<T>, k: nat)
    requires k < |s|
    ensures s[..k] + [s[k]] == s[..k + 1]
  {
  }

  /** The tally of `payments.forEach(..)` over payments that are all
      present. */
  method TallyPayments(payments: seq<Value>, parse: DateParser) returns (t: Tally)
    ensures t == TallyOf(payments, parse)
  {
    t := Tally(0.0, Latest([], map[]));
    var k := 0;
    while k < |payments|
      invariant 0 <= k <= |payments|
      invariant t == TallyOf(payments[..k], parse)
    {
      t := Visit(t, payments, k, parse);
      k := k + 1;
    }
    assert payments[..k] == payments;
  }

  /** The destructuring of `payments.forEach(..)`: the payments, or the error
      of the first one that is null or undefined. */
  method CheckPayments(payments: seq<Value>) returns (r: Completion<seq<Value>>)
    ensures r == MapThrow(payments, CheckPayment)
  {
    var k := 0;
    while k < |payments|
      invariant 0 <= k <= |payments|
      invariant forall j :: 0 <= j < k ==> !Nullish(payments[j])
    {
      if Nullish(payments[k]) {
        MapThrowFirst(payments, CheckPayment, k);
        return Throw(DestructureError(payments[k]));
      }
      k := k + 1;
    }
    CheckedAll(payments);
    return Normal(payments);
  }

  /** The walk over the groups of the object form, collecting their
      payments; each group must be an array of non-null payments. */
  method CollectGroups(groups: seq<Value>) returns (r: Completion<seq<Value>>)
    ensures r == ConcatMap(groups, GroupFn)
  {
    var flat: seq<Value> := [];
    var g := 0;
    while g < |groups|
      invariant 0 <= g <= |groups|
      invariant ConcatMap(groups[..g], GroupFn) == Normal(flat)
    {
      var part: Completion<seq<Value>>;
      if Nullish(groups[g]) {
        part := Throw(ReadError(groups[g], "forEach"));
      } else if !groups[g].Arr? {
        part := Throw(NotAFunction);
      } else {
        part := CheckPayments(groups[g].items);
      }
      ConcatMapNext(groups, GroupFn, g, flat);
      if part.Throw? {
        return Throw(part.message);
      }
      flat := flat + part.value;
      g := g + 1;
    }
    assert groups[..g] == groups;
    return Normal(flat);
  }

  /** The `useMemo` block of the card: the payments are walked for their
      errors first and then tallied, which ends the same way as the single
      walk, since a throw discards the partial tally. */
  method Summarize(data: Value, parse: DateParser) returns (r: Completion<CardState>)
    ensures r == CardOf(data, parse)
  {
    if data.Arr? {
      var checked := CheckPayments(data.items);
      if checked.Throw? {
        return Throw(checked.message);
      }
      CheckedAll(data.items);
      var t := TallyPayments(data.items, parse);
      return Normal(CardState(t.total, t.latest, Obj([])));
    } else if data.Null? {
      return Throw(NullToObject);
    } else if IsObjectType(data) {
      var flat := CollectGroups(Values(data));
      if flat.Throw? {
        return Throw(flat.message);
      }
      var t := TallyPayments(flat.value, parse);
      return Normal(CardState(t.total, t.latest, data));
    }
    return Normal(CardState(0.0, Latest([], map[]), Obj([])));
  }

  /** The total adds up every payment's amount, and the latest payments hold
      one payment per client, each one of that client's payments. */
  lemma CardTotals(data: Value, parse: DateParser)
    requires CardOf(data, parse).Normal?
    ensures var c := CardOf(data, parse).value;
      var ps := CardPayments(data).value;
      && c.total == AmountTotal(ps)
      && c.latest.order == FirstAppearance(ps, ClientKey)
      && (forall k :: k in c.latest.kept ==> ClientKey(c.latest.kept[k]) == k && c.latest.kept[k] in ps)
  {
  }

  /** Each client's kept payment is the first of its payments with the
      latest date, when every payment is an object with a valid date: a tie
      keeps the earlier one. */
  lemma LatestIsFirstLatest(ps: seq<Value>, parse: DateParser, k: string)
    requires forall p :: p in ps ==> Truthy(p) && DateValue(Get(p, "date_time"), parse).Some?
    requires k in TallyOf(ps, parse).latest.kept
    ensures var w := WithKey(ps, ClientKey, k);
      exists i :: IsFirstMax(w, DateKey(parse), i) && TallyOf(ps, parse).latest.kept[k] == w[i]
  {
    DatesDecide(ps, parse);
    KeptIsFirstMax(ps, ClientKey, CardLater(parse), DateKey(parse), k);
  }

  /** Among present payments with valid dates, a payment replaces another
      exactly when its date is later. */
  lemma DatesDecide(ps: seq<Value>, parse: DateParser)
    requires forall p :: p in ps ==> Truthy(p) && DateValue(Get(p, "date_time"), parse).Some?
    ensures forall x, y :: x in ps && y in ps ==> (CardLater(parse)(x, y) <==> DateKey(parse)(x) > DateKey(parse)(y))
  {
  }

  /** The time of a payment's `date_time`, 0 when it is invalid. */
  function DateKey(parse: DateParser): Value -> int {
    (p: Value) => var d := DateValue(Get(p, "date_time"), parse); if d.Some? then d.value else 0
  }

  /** An array of payments walks every payment; the object form walks the
      groups in order and keeps the object as the groups. */
  lemma CardPaymentsOf(data: Value)
    ensures data.Arr? ==>
      (CardPayments(data).Throw? <==> exists i :: 0 <= i < |data.items| && Nullish(data.items[i]))
    ensures data.Arr? && CardPayments(data).Normal? ==> CardPayments(data).value == data.items
    ensures data.Obj? && (forall g :: g in Values(data) ==> g.Arr? && forall p :: p in g.items ==> !Nullish(p)) ==>
      CardPayments(data).Normal? && |CardPayments(data).value| == SumLen(Values(data), GroupSize)
  {
    if data.Arr? {
      CheckedAll(data.items);
    }
    if data.Obj? && (forall g :: g in Values(data) ==> g.Arr? && forall p :: p in g.items ==> !Nullish(p)) {
      GroupsWalked(Values(data));
    }
  }

  function GroupSize(g: Value): nat {
    if g.Arr? then |g.items| else 0
  }

  lemma {:induction false} GroupsWalked(groups: seq<Value>)
    requires forall g :: g in groups ==> g.Arr? && forall p :: p in g.items ==> !Nullish(p)
    ensures ConcatMap(groups, GroupFn).Normal?
    ensures |ConcatMap(groups, GroupFn).value| == SumLen(groups, GroupSize)
  {
    if groups != [] {
      var n := |groups| - 1;
      assert forall g :: g in groups[..n] ==> g in groups;
      GroupsWalked(groups[..n]);
      CheckedAll(groups[n].items);
    }
  }

  /** The record the payments adapter returns starts with the number
      `today`, so the object branch calls `forEach` on a number and throws. */
  lemma AdapterRecordThrows(today: real, rest: seq<(string, Value)>, parse: DateParser)
    ensures CardOf(Obj([("today", Num(today))] + rest), parse) == Throw(NotAFunction)
  {
    var data := Obj([("today", Num(today))] + rest);
    assert Values(data)[0] == Num(today);
    ConcatMapPrefix(Values(data), GroupFn, 1);
  }

  // ---------------------------------------------------------------------------
  // The months

  /** `key.split(" ")` read as `[month, year]`: a missing year reads as
      "undefined". */
  function MonthYear(key: string): (string, string) {
    match IndexOf(key, ' ')
    case None => (key, "undefined")
    case Some(i) =>
      var rest := key[i + 1..];
      match IndexOf(rest, ' ')
      case None => (key[..i], rest)
      case Some(j) => (key[..i], rest[..j])
  }

  /** `const [month, year] = key.split(" ")`: a key without a space has no
      year. */
  function MonthKeyParts(key: string): (Value, Value) {
    match IndexOf(key, ' ')
    case None => (Str(key), Undefined)
    case Some(i) => (Str(key[..i]), Str(MonthYear(key).1))
  }

  /** The header of a month's group: `formatMonthLabel(month, year)`. */
  function MonthHeader(key: string): string {
    var parts := MonthKeyParts(key);
    MonthLabel(parts.0, parts.1)
  }

  /** A key "month year" the backend writes is shown as it is. */
  lemma MonthHeaderOfKey(month: string, year: string)
    requires month != "" && ' ' !in month
    requires year != "" && ' ' !in year
    ensures MonthHeader(month + " " + year) == month + " " + year
  {
    IndexOfJoined(month, year);
  }

  /** A key of one word has no year, so its header reads "Invalid Date". */
  lemma MonthHeaderOfWord(key: string)
    requires ' ' !in key
    ensures MonthHeader(key) == "Invalid Date"
  {
  }

  /** `new Date(`${month} 1, ${year}`)` as a number, NaN as none. */
  function MonthTime(parse: DateParser): string -> Option<real> {
    (key: string) =>
      var my := MonthYear(key);
      match parse(my.0 + " 1, " + my.1)
      case None => None
      case Some(t) => Some(t as real)
  }

  /** `(a, b) => dateB - dateA` */
  function NewestFirst(parse: DateParser): (string, string) -> int {
    (a: string, b: string) => NumericOrder(MonthTime(parse)(a), MonthTime(parse)(b), true)
  }

  /** `Object.keys(groupedPayments).sort(..)` */
  function SortedMonths(grouped: Value, parse: DateParser): seq<string> {
    Sort(KeysOf(Entries(grouped)), NewestFirst(parse))
  }

  /** The months are the keys of the groups, each once, newest first when
      every key names a month the date parser reads. */
  lemma SortedMonthsNewestFirst(grouped: Value, parse: DateParser)
    requires forall k :: k in KeysOf(Entries(grouped)) ==> MonthTime(parse)(k).Some?
    ensures multiset(SortedMonths(grouped, parse)) == multiset(KeysOf(Entries(grouped)))
    ensures OrderedByKey(SortedMonths(grouped, parse), MonthTime(parse), true)
  {
    SortPermutes(KeysOf(Entries(grouped)), NewestFirst(parse));
    SortByNumber(KeysOf(Entries(grouped)), NewestFirst(parse), MonthTime(parse), true);
  }
}
