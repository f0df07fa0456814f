/** The two normalisers the dashboard applies to fresh responses before it
    stores them (App.jsx): the interface totals, and the router health
    record that the health card then reads. */
module Normalize {
  import opened JsValues
  import opened Units
  import opened RouterHealth

  // ---------------------------------------------------------------------------
  // normalizeIfaceTotals

  /** `Number(t[k1] ?? t[k2] ?? t[k3] ?? 0) || 0`: the first key present wins,
      and NaN counts as 0. */
  function Megabytes(t: Value, k1: string, k2: string, k3: string): real {
    NumberOr0(Coalesce(Coalesce(Coalesce(Get(t, k1), Get(t, k2)), Get(t, k3)), Num(0.0)))
  }

  /** The six properties the normaliser writes, in the order it writes them:
      the two numbers, then a display text for each direction (the record's
      own when truthy, else the given text), twice over. */
  function TotalsProps(t: Value, rx: real, tx: real, rxText: string, txText: string): (props: seq<(string, Value)>)
    ensures KeysOf(props) == ["RX_MB", "TX_MB", "RX_HUMAN", "TX_HUMAN", "RX", "TX"]
  {
    [("RX_MB", Num(rx)), ("TX_MB", Num(tx)),
     ("RX_HUMAN", Or(Get(t, "RX_HUMAN"), Str(rxText))),
     ("TX_HUMAN", Or(Get(t, "TX_HUMAN"), Str(txText))),
     ("RX", Or(Get(t, "RX"), Str(rxText))),
     ("TX", Or(Get(t, "TX"), Str(txText)))]
  }

  /** `{...t, RX_MB, TX_MB, RX_HUMAN, TX_HUMAN, RX, TX}` */
  function TotalsLiteral(t: Value, rx: real, tx: real, rxText: string, txText: string): seq<(string, Value)> {
    Extend(Entries(t), TotalsProps(t, rx, tx, rxText, txText))
  }

  /** The record the normaliser reads: the default `{}` for a missing argument. */
  function TotalsRecord(raw: Value): Value {
    if raw.Undefined? then Obj([]) else raw
  }

  function RxOf(t: Value): real {
    Megabytes(t, "RX_MB", "RX", "rx")
  }

  function TxOf(t: Value): real {
    Megabytes(t, "TX_MB", "TX", "tx")
  }

  /** The properties written for record `t`: the fallback texts are the
      formatted numbers. */
  function PropsOf(t: Value): seq<(string, Value)> {
    TotalsProps(t, RxOf(t), TxOf(t), FormatMB(Num(RxOf(t))), FormatMB(Num(TxOf(t))))
  }

  /** `normalizeIfaceTotals(rawTotals = {})`: the record with the received
      and transmitted megabytes as numbers and a display text for each.
      Reading a property of `null` throws. */
  function NormalizeIfaceTotals(raw: Value): Completion<Value> {
    var t := TotalsRecord(raw);
    if t.Null? then Throw(ReadError(t, "RX_MB"))
    else
      Normal(Obj(TotalsLiteral(t, RxOf(t), TxOf(t), FormatMB(Num(RxOf(t))), FormatMB(Num(TxOf(t))))))
  }

  lemma FormatMBNonEmpty(v: Value)
    ensures FormatMB(v) != ""
  {
  }

  lemma PropsDistinct(props: seq<(string, Value)>)
    requires KeysOf(props) == ["RX_MB", "TX_MB", "RX_HUMAN", "TX_HUMAN", "RX", "TX"]
    ensures forall j, k :: 0 <= j < k < |props| ==> props[j].0 != props[k].0
  {
  }

  /** Each of the six properties holds the value written for it. */
  lemma TotalsNamed(t: Value, rx: real, tx: real, rxText: string, txText: string, i: nat)
    requires i < 6
    ensures var props := TotalsProps(t, rx, tx, rxText, txText);
      && Lookup(TotalsLiteral(t, rx, tx, rxText, txText), props[i].0) == props[i].1
      && HasKey(TotalsLiteral(t, rx, tx, rxText, txText), props[i].0)
  {
    var props := TotalsProps(t, rx, tx, rxText, txText);
    PropsDistinct(props);
    ExtendNamed(Entries(t), props, i);
    ExtendKeys(Entries(t), props, props[i].0);
  }

  /** What the normalised totals hold: each of the six properties with the
      value written for it, every other property of the record unchanged,
      and no property besides the record's own and the six. Only `null`
      throws. */
  lemma IfaceTotalsFields(raw: Value)
    ensures NormalizeIfaceTotals(raw).Throw? <==> raw.Null?
    ensures !raw.Null? ==>
      var t := TotalsRecord(raw);
      var props := PropsOf(t);
      var o := NormalizeIfaceTotals(raw).value;
      && o.Obj?
      && (forall i :: 0 <= i < |props| ==> Lookup(o.entries, props[i].0) == props[i].1)
      && (forall k :: k !in KeysOf(props) ==> Lookup(o.entries, k) == Lookup(Entries(t), k))
      && (forall k :: HasKey(o.entries, k) <==> k in KeysOf(props) || HasKey(Entries(t), k))
  {
    if !raw.Null? {
      var t := TotalsRecord(raw);
      var rx, tx, rxText, txText := RxOf(t), TxOf(t), FormatMB(Num(RxOf(t))), FormatMB(Num(TxOf(t)));
      var props := TotalsProps(t, rx, tx, rxText, txText);
      var e := TotalsLiteral(t, rx, tx, rxText, txText);
      forall i | 0 <= i < |props| ensures Lookup(e, props[i].0) == props[i].1 {
        TotalsNamed(t, rx, tx, rxText, txText, i);
      }
      forall k | k !in KeysOf(props) ensures Lookup(e, k) == Lookup(Entries(t), k) {
        ExtendOther(Entries(t), props, k);
      }
      forall k ensures HasKey(e, k) <==> k in KeysOf(props) || HasKey(Entries(t), k) {
        ExtendKeys(Entries(t), props, k);
      }
    }
  }

  /** The four display properties are never falsy. */
  lemma IfaceTotalsShown(raw: Value)
    requires !raw.Null?
    ensures var o := NormalizeIfaceTotals(raw).value.entries;
      Truthy(Lookup(o, "RX_HUMAN")) && Truthy(Lookup(o, "TX_HUMAN")) &&
      Truthy(Lookup(o, "RX")) && Truthy(Lookup(o, "TX"))
  {
    var t := TotalsRecord(raw);
    var rx, tx, rxText, txText := RxOf(t), TxOf(t), FormatMB(Num(RxOf(t))), FormatMB(Num(TxOf(t)));
    FormatMBNonEmpty(Num(rx));
    FormatMBNonEmpty(Num(tx));
    LiteralShown(t, rx, tx, rxText, txText);
  }

  lemma LiteralShown(t: Value, rx: real, tx: real, rxText: string, txText: string)
    requires rxText != "" && txText != ""
    ensures var e := TotalsLiteral(t, rx, tx, rxText, txText);
      Truthy(Lookup(e, "RX_HUMAN")) && Truthy(Lookup(e, "TX_HUMAN")) &&
      Truthy(Lookup(e, "RX")) && Truthy(Lookup(e, "TX"))
  {
    TotalsNamed(t, rx, tx, rxText, txText, 2);
    TotalsNamed(t, rx, tx, rxText, txText, 3);
    TotalsNamed(t, rx, tx, rxText, txText, 4);
    TotalsNamed(t, rx, tx, rxText, txText, 5);
  }

  /** The literal reads back the numbers and display texts it was written with. */
  lemma LiteralStable(t: Value, rx: real, tx: real, rxText: string, txText: string)
    requires rxText != "" && txText != ""
    ensures var o := Obj(TotalsLiteral(t, rx, tx, rxText, txText));
      && RxOf(o) == rx && TxOf(o) == tx
      && TotalsProps(o, rx, tx, rxText, txText) == TotalsProps(t, rx, tx, rxText, txText)
  {
    TotalsNamed(t, rx, tx, rxText, txText, 0);
    TotalsNamed(t, rx, tx, rxText, txText, 1);
    LiteralShown(t, rx, tx, rxText, txText);
    TotalsNamed(t, rx, tx, rxText, txText, 2);
    TotalsNamed(t, rx, tx, rxText, txText, 3);
    TotalsNamed(t, rx, tx, rxText, txText, 4);
    TotalsNamed(t, rx, tx, rxText, txText, 5);
  }

  /** Writing the literal again over its own result changes nothing. */
  lemma LiteralIdempotent(t: Value, rx: real, tx: real, rxText: string, txText: string)
    requires rxText != "" && txText != ""
    ensures var e := TotalsLiteral(t, rx, tx, rxText, txText);
      TotalsLiteral(Obj(e), rx, tx, rxText, txText) == e
  {
    var e := TotalsLiteral(t, rx, tx, rxText, txText);
    var props := TotalsProps(t, rx, tx, rxText, txText);
    LiteralStable(t, rx, tx, rxText, txText);
    forall i | 0 <= i < |props| ensures HasKey(e, props[i].0) && Lookup(e, props[i].0) == props[i].1 {
      TotalsNamed(t, rx, tx, rxText, txText, i);
    }
    ExtendUnchanged(e, props);
    assert Entries(Obj(e)) == e;
  }

  /** Normalising normalised totals gives them back unchanged. */
  lemma IfaceTotalsIdempotent(raw: Value)
    ensures var r := NormalizeIfaceTotals(raw);
      r.Normal? ==> NormalizeIfaceTotals(r.value) == r
  {
    var t := TotalsRecord(raw);
    if !t.Null? {
      var rx, tx := RxOf(t), TxOf(t);
      FormatMBNonEmpty(Num(rx));
      FormatMBNonEmpty(Num(tx));
      LiteralStable(t, rx, tx, FormatMB(Num(rx)), FormatMB(Num(tx)));
      LiteralIdempotent(t, rx, tx, FormatMB(Num(rx)), FormatMB(Num(tx)));
    }
  }

  // ---------------------------------------------------------------------------
  // normalizeRouterHealth

  /** `a || b || '—'` */
  function OrDash(a: Value, b: Value): Value {
    Or(Or(a, b), Str(Dash))
  }

  /** The record built from a sheet row (the first of `data`) or from a flat
      response: the first truthy of the usual spellings of each reading, or
      the dash, and the source record itself. */
  function RowRecord(row: Value): Value {
    Obj([("uptime", Or(Or(Or(Get(row, "Uptime"), Get(row, "uptime")), Get(row, "Timestamp")), Str(Dash))),
         ("cpu", OrDash(Get(row, "CPU"), Get(row, "cpu"))),
         ("memory", OrDash(Get(row, "Memory"), Get(row, "memory"))),
         ("rawRow", row)])
  }

  function FlatRecord(resp: Value): Value {
    Obj([("uptime", OrDash(Get(resp, "Uptime"), Get(resp, "uptime"))),
         ("cpu", OrDash(Get(resp, "CPU"), Get(resp, "cpu"))),
         ("memory", OrDash(Get(resp, "Memory"), Get(resp, "memory"))),
         ("rawRow", resp)])
  }

  /** Whether a response carries its readings at the top level. */
  predicate IsFlat(resp: Value) {
    Truthy(Get(resp, "uptime")) || Truthy(Get(resp, "Uptime")) ||
    Truthy(Get(resp, "cpu")) || Truthy(Get(resp, "memory"))
  }

  /** `normalizeRouterHealth(routerResp)`: an object under `data` as it is;
      the first row of a non-empty array under `data` as a record; a flat
      response as a record; anything else as it is, with a falsy response
      read as `{}`. A first row that is null or undefined throws. */
  function NormalizeRouterHealth(resp: Value): Completion<Value> {
    if !Truthy(resp) then Normal(Obj([]))
    else
      var d := Get(resp, "data");
      if Truthy(d) && IsObjectType(d) && !d.Arr? then Normal(d)
      else if d.Arr? && |d.items| > 0 then
        var row := d.items[0];
        if Nullish(row) then Throw(ReadError(row, "Uptime")) else Normal(RowRecord(row))
      else if IsFlat(resp) then Normal(FlatRecord(resp))
      else Normal(resp)
  }

  /** Only a non-empty `data` array whose first row is null or undefined
      throws, and a normalised record is never falsy. */
  lemma RouterHealthOutcome(resp: Value)
    ensures var d := Get(resp, "data");
      NormalizeRouterHealth(resp).Throw? <==>
        Truthy(resp) && d.Arr? && |d.items| > 0 && Nullish(d.items[0])
    ensures NormalizeRouterHealth(resp).Normal? ==> Truthy(NormalizeRouterHealth(resp).value)
  {
  }

  /** An object under `data` is the record, unchanged. */
  lemma RouterHealthData(resp: Value)
    requires Truthy(resp) && Get(resp, "data").Obj?
    ensures NormalizeRouterHealth(resp) == Normal(Get(resp, "data"))
  {
  }

  /** The card reads a record built from a row under the default name, with
      the row's readings in the spellings the normaliser prefers. */
  lemma RowRecordRead(row: Value)
    ensures var r := RowRecord(row);
      && HealthData(r) == r
      && RouterName(r) == Str("Router")
      && UptimeRaw(r) == Or(Or(Or(Get(row, "Uptime"), Get(row, "uptime")), Get(row, "Timestamp")), Str(Dash))
      && CpuRaw(r) == OrDash(Get(row, "CPU"), Get(row, "cpu"))
      && MemoryRaw(r) == OrDash(Get(row, "Memory"), Get(row, "memory"))
  {
    RecordRead(RowRecord(row).entries);
  }

  /** The same for a record built from a flat response. */
  lemma FlatRecordRead(resp: Value)
    ensures var r := FlatRecord(resp);
      && HealthData(r) == r
      && RouterName(r) == Str("Router")
      && UptimeRaw(r) == OrDash(Get(resp, "Uptime"), Get(resp, "uptime"))
      && CpuRaw(r) == OrDash(Get(resp, "CPU"), Get(resp, "cpu"))
      && MemoryRaw(r) == OrDash(Get(resp, "Memory"), Get(resp, "memory"))
  {
    RecordRead(FlatRecord(resp).entries);
  }

  /** What the card reads from a record with the keys `uptime`, `cpu`,
      `memory` and `rawRow`, in that order. */
  lemma RecordRead(e: seq<(string, Value)>)
    requires |e| == 4 && e[0].0 == "uptime" && e[1].0 == "cpu" && e[2].0 == "memory" && e[3].0 == "rawRow"
    ensures Lookup(e, "name") == Undefined && Lookup(e, "router") == Undefined
    ensures Lookup(e, "uptime") == e[0].1 && Lookup(e, "cpu") == e[1].1 && Lookup(e, "memory") == e[2].1
  {
    LookupAbsent(e, "name");
    LookupAbsent(e, "router");
    LookupAt(e, "uptime", 0);
    LookupAt(e, "cpu", 1);
    LookupAt(e, "memory", 2);
  }

  /** The dash the normaliser fills in is shown as the dash. */
  lemma DashShown(now: int, parse: DateParser)
    ensures UptimeText(Str(Dash), now, parse) == Dash
    ensures CpuText(Str(Dash)) == Dash
    ensures MemoryText(Str(Dash)) == Dash
  {
    assert !IsSpace(Dash[0]);
    TrimOfTrimmed(Dash);
    ContainsChar(Dash, 'T');
    ContainsChar(Dash, '%');
    assert IndexOf(Dash, '.') == None;
    assert StringToNumber(Dash) == None;
  }
}
