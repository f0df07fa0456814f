/** The active sessions table (ActiveSessionsTable): its totals line, the
    search over the interface rows and the order they are listed in. */
module Sessions {
  import opened JsValues
  import opened Units
  import opened Ordering
  import opened Normalize
  import opened RouterHealth

  /** `Array.isArray(data) ? data : []`, with the default `[]` for a
      missing argument. */
  function Rows(data: Value): (rows: seq<Value>)
    ensures data.Arr? ==> rows == data.items
    ensures !data.Arr? ==> rows == []
  {
    if data.Arr? then data.items else []
  }

  /** `parseTs(ts)`: the time value of the trimmed text with its first space
      read as `T`, or none for a falsy or unparsable value. */
  function ParseTs(ts: Value, parse: DateParser): (r: Option<int>)
    ensures !Truthy(ts) ==> r.None?
    ensures Truthy(ts) ==> r == parse(ReplaceFirst(Trim(ToStr(ts)), ' ', 'T'))
  {
    if !Truthy(ts) then None else parse(ReplaceFirst(Trim(ToStr(ts)), ' ', 'T'))
  }

  /** A "date time" text with no white space at its ends and no space in the
      date is read as the ISO form "dateTtime". */
  lemma ParseTsOfDateTime(date: string, time: string, parse: DateParser)
    requires date != [] && !IsSpace(date[0]) && ' ' !in date
    requires time != [] && !IsSpace(time[|time| - 1])
    ensures ParseTs(Str(date + " " + time), parse) == parse(date + "T" + time)
  {
    var s := date + " " + time;
    assert ToStr(Str(s)) == s;
    TrimOfTrimmed(s);
    IndexOfJoined(date, time);
    assert ReplaceFirst(s, ' ', 'T') == date + "T" + time;
  }

  // ---------------------------------------------------------------------------
  // totalsToDisplay

  datatype TotalsText = TotalsText(rxStr: Value, txStr: Value, rxMB: real, txMB: real)

  /** The text for one direction: the record's `HUMAN` text, else its raw
      text, else the formatted number, with 0 written "0 MB". */
  function DirectionText(human: Value, raw: Value, mb: real): Value {
    Or(Or(human, raw), Str(if mb != 0.0 then FmtMbHuman(Num(mb)) else "0 MB"))
  }

  /** `totalsToDisplay(t)` */
  function TotalsToDisplay(t: Value): TotalsText {
    if !Truthy(t) then TotalsText(Str("0 MB"), Str("0 MB"), 0.0, 0.0)
    else
      var rx, tx := Megabytes(t, "RX_MB", "RX", "rx"), Megabytes(t, "TX_MB", "TX", "tx");
      TotalsText(DirectionText(Get(t, "RX_HUMAN"), Get(t, "RX"), rx),
                 DirectionText(Get(t, "TX_HUMAN"), Get(t, "TX"), tx), rx, tx)
  }

  /** The texts are never falsy; without a text of its own a direction shows
      its number in the unit `fmtMbHuman` picks, or "0 MB" for zero. */
  lemma TotalsTextShown(t: Value)
    ensures var d := TotalsToDisplay(t);
      Truthy(d.rxStr) && Truthy(d.txStr)
    ensures var d := TotalsToDisplay(t);
      Truthy(t) && !Truthy(Get(t, "RX_HUMAN")) && !Truthy(Get(t, "RX")) ==>
        d.rxStr == Str(if d.rxMB == 0.0 then "0 MB" else Render(HumanMBScale(d.rxMB)))
  {
  }

  /** The table shows the totals the normaliser wrote: its display texts and
      the numbers it read. */
  lemma TotalsOfNormalized(raw: Value)
    requires !raw.Null?
    ensures var o := NormalizeIfaceTotals(raw).value;
      var t := TotalsRecord(raw);
      TotalsToDisplay(o) == TotalsText(Lookup(o.entries, "RX_HUMAN"), Lookup(o.entries, "TX_HUMAN"), RxOf(t), TxOf(t))
  {
    var t := TotalsRecord(raw);
    var rx, tx := RxOf(t), TxOf(t);
    FormatMBNonEmpty(Num(rx));
    FormatMBNonEmpty(Num(tx));
    LiteralStable(t, rx, tx, FormatMB(Num(rx)), FormatMB(Num(tx)));
    LiteralShown(t, rx, tx, FormatMB(Num(rx)), FormatMB(Num(tx)));
  }

  // ---------------------------------------------------------------------------
  // The search

  /** The search term: trimmed and lower-cased. */
  function Term(search: string): string {
    ToLower(Trim(search))
  }

  /** The human-readable sizes the search also looks at: the row's own, else
      the formatted `RX_MB`/`TX_MB` when present, else the empty string. */
  function SearchProps(r: Value): (props: seq<(string, Value)>)
    ensures KeysOf(props) == ["RX_HUMAN", "TX_HUMAN"]
  {
    [("RX_HUMAN", Or(Get(r, "RX_HUMAN"), Str(if Get(r, "RX_MB").Undefined? then "" else FmtMbHuman(Get(r, "RX_MB"))))),
     ("TX_HUMAN", Or(Get(r, "TX_HUMAN"), Str(if Get(r, "TX_MB").Undefined? then "" else FmtMbHuman(Get(r, "TX_MB")))))]
  }

  /** `Object.values({...r, RX_HUMAN, TX_HUMAN})` */
  function SearchValues(r: Value): seq<Value> {
    ValuesOf(Extend(Entries(r), SearchProps(r)))
  }

  /** `String(v || '').toLowerCase().includes(term)` */
  predicate ValueMatches(v: Value, term: string) {
    Contains(ToLower(ToStr(Or(v, Str("")))), term)
  }

  predicate RowMatches(r: Value, term: string) {
    exists v :: v in SearchValues(r) && ValueMatches(v, term)
  }

  /** The search as a filter predicate over the rows. */
  function Matcher(term: string): Value -> bool {
    (r: Value) => RowMatches(r, term)
  }

  /** The rows the search keeps: all of them for an empty term. */
  function Filtered(rows: seq<Value>, term: string): (kept: seq<Value>)
    ensures |kept| <= |rows|
  {
    if term == "" then rows else Keep(rows, Matcher(term))
  }

  /** A row is kept exactly when it is one of the rows and matches (or the
      term is empty), and no row is kept more often than it occurs. */
  lemma FilteredMembers(rows: seq<Value>, term: string)
    ensures forall r :: r in Filtered(rows, term) <==> r in rows && (term == "" || RowMatches(r, term))
    ensures multiset(Filtered(rows, term)) <= multiset(rows)
  {
    KeepMembers(rows, Matcher(term));
  }

  /** The searched values are the row's own values and the two sizes. */
  lemma SearchValuesFrom(r: Value)
    ensures forall v :: v in SearchValues(r) ==>
      v in ValuesOf(Entries(r)) || v == SearchProps(r)[0].1 || v == SearchProps(r)[1].1
  {
    var props := SearchProps(r);
    ExtendValues(Entries(r), props);
    assert ValuesOf(props) == [props[0].1, props[1].1];
  }

  /** Both sizes are searched. */
  lemma SearchValuesHoldSizes(r: Value, i: nat)
    requires i < 2
    ensures SearchProps(r)[i].1 in SearchValues(r)
  {
    var e := Entries(r);
    var props := SearchProps(r);
    var x := Extend(e, props);
    assert forall j, k :: 0 <= j < k < |props| ==> props[j].0 != props[k].0 by {
      assert KeysOf(props) == ["RX_HUMAN", "TX_HUMAN"];
    }
    ExtendNamed(e, props, i);
    ExtendKeys(e, props, props[i].0);
    assert props[i].0 in KeysOf(props);
    LookupIsValue(x, props[i].0);
  }

  /** Every field of the row other than the two sizes is searched. */
  lemma SearchValuesHoldField(r: Value, k: string)
    requires k != "RX_HUMAN" && k != "TX_HUMAN" && HasKey(Entries(r), k)
    ensures Lookup(Entries(r), k) in SearchValues(r)
  {
    var e := Entries(r);
    var props := SearchProps(r);
    ExtendOther(e, props, k);
    ExtendKeys(e, props, k);
    LookupIsValue(Extend(e, props), k);
  }

  /** A row matches when one of its own fields, or one of the synthesised
      sizes, contains the term, and only then. */
  lemma RowMatchesFields(r: Value, term: string)
    ensures RowMatches(r, term) ==>
      (exists v :: v in ValuesOf(Entries(r)) && ValueMatches(v, term)) ||
      ValueMatches(SearchProps(r)[0].1, term) || ValueMatches(SearchProps(r)[1].1, term)
    ensures ValueMatches(SearchProps(r)[0].1, term) || ValueMatches(SearchProps(r)[1].1, term) ==>
      RowMatches(r, term)
    ensures forall k ::
      (k != "RX_HUMAN" && k != "TX_HUMAN" && HasKey(Entries(r), k) && ValueMatches(Lookup(Entries(r), k), term))
      ==> RowMatches(r, term)
  {
    SearchValuesFrom(r);
    SearchValuesHoldSizes(r, 0);
    SearchValuesHoldSizes(r, 1);
    forall k | k != "RX_HUMAN" && k != "TX_HUMAN" && HasKey(Entries(r), k) ensures Lookup(Entries(r), k) in SearchValues(r) {
      SearchValuesHoldField(r, k);
    }
  }

  // ---------------------------------------------------------------------------
  // The order

  /** The number a row is sorted by on a numeric column: `Number(r[key] ?? 0)`. */
  function RowNumber(key: string, r: Value): Option<real> {
    ToNumber(Coalesce(Get(r, key), Num(0.0)))
  }

  /** The text a row is sorted by on another column: `String(r[key] ?? '')`. */
  function RowText(key: string, r: Value): string {
    ToStr(Coalesce(Get(r, key), Str("")))
  }

  function NumericKey(key: string): Value -> Option<real> {
    (r: Value) => RowNumber(key, r)
  }

  /** `sortKey === 'RX_MB' || sortKey === 'TX_MB'` */
  predicate IsNumericColumn(sortKey: string) {
    sortKey == "RX_MB" || sortKey == "TX_MB"
  }

  /** The comparison of two rows: numeric on `RX_MB` and `TX_MB`, else the
      locale comparison `collate` of the texts, in descending or ascending
      order. */
  function CompareRows(sortKey: string, desc: bool, collate: (string, string) -> int, a: Value, b: Value): int {
    if IsNumericColumn(sortKey) then NumericOrder(RowNumber(sortKey, a), RowNumber(sortKey, b), desc)
    else if desc then collate(RowText(sortKey, b), RowText(sortKey, a))
    else collate(RowText(sortKey, a), RowText(sortKey, b))
  }

  function RowOrder(sortKey: string, desc: bool, collate: (string, string) -> int): (Value, Value) -> int {
    (a: Value, b: Value) => CompareRows(sortKey, desc, collate, a, b)
  }

  /** The rows as listed: the search, then the sort. */
  function Listed(rows: seq<Value>, search: string, sortKey: string, desc: bool,
                  collate: (string, string) -> int): seq<Value> {
    Sort(Filtered(rows, Term(search)), RowOrder(sortKey, desc, collate))
  }

  /** The `filtered` memo: a copy of the rows, filtered when the term is not
      empty, then sorted in place. The rows themselves are left alone. A row
      that is null or undefined makes the table's render throw. */
  method FilterSessions(rows: array<Value>, search: string, sortKey: string, desc: bool,
                        collate: (string, string) -> int) returns (list: array<Value>)
    requires forall i :: 0 <= i < rows.Length ==> !Nullish(rows[i])
    ensures fresh(list)
    ensures rows[..] == old(rows[..])
    ensures list[..] == Listed(rows[..], search, sortKey, desc, collate)
  {
    var s := Term(search);
    list := new Value[rows.Length](i reads rows requires 0 <= i < rows.Length => rows[i]);
    assert list[..] == rows[..];
    if s != "" {
      var kept := Keep(list[..], Matcher(s));
      list := new Value[|kept|](i requires 0 <= i < |kept| => kept[i]);
      assert list[..] == kept;
    }
    SortInPlace(list, RowOrder(sortKey, desc, collate));
  }

  /** The listed rows are the kept rows, each as often as it is kept, and
      with a blank search they are all the rows. */
  lemma ListedPermutes(rows: seq<Value>, search: string, sortKey: string, desc: bool,
                       collate: (string, string) -> int)
    ensures var listed := Listed(rows, search, sortKey, desc, collate);
      multiset(listed) == multiset(Filtered(rows, Term(search))) && multiset(listed) <= multiset(rows)
    ensures Trim(search) == "" ==> multiset(Listed(rows, search, sortKey, desc, collate)) == multiset(rows)
  {
    SortPermutes(Filtered(rows, Term(search)), RowOrder(sortKey, desc, collate));
    FilteredMembers(rows, Term(search));
    assert Trim(search) == "" ==> Term(search) == "";
  }

  /** A non-blank search lists exactly the rows that match it. */
  lemma ListedMembers(rows: seq<Value>, search: string, sortKey: string, desc: bool,
                      collate: (string, string) -> int)
    requires Trim(search) != ""
    ensures forall r :: r in Listed(rows, search, sortKey, desc, collate) <==>
      r in rows && RowMatches(r, Term(search))
  {
    var term := Term(search);
    assert term != "" by { assert |term| == |Trim(search)|; }
    SortMembers(Filtered(rows, term), RowOrder(sortKey, desc, collate));
    FilteredMembers(rows, term);
  }

  /** Sorted on a numeric column whose values are all numbers, the rows are
      listed by that number, largest first when descending. */
  lemma ListedByNumber(rows: seq<Value>, search: string, sortKey: string, desc: bool,
                       collate: (string, string) -> int)
    requires IsNumericColumn(sortKey)
    requires forall r :: r in rows ==> NumericKey(sortKey)(r).Some?
    ensures OrderedByKey(Listed(rows, search, sortKey, desc, collate), NumericKey(sortKey), desc)
  {
    var compare := RowOrder(sortKey, desc, collate);
    var key := NumericKey(sortKey);
    var kept := Filtered(rows, Term(search));
    FilteredMembers(rows, Term(search));
    assert forall a, b :: compare(a, b) == NumericOrder(key(a), key(b), desc);
    SortByNumber(kept, compare, key, desc);
  }

  /** The texts a text column shows for a set of rows. */
  ghost function Texts(sortKey: string, S: set<Value>): set<string> {
    set r | r in S :: RowText(sortKey, r)
  }

  /** On a text column the row comparator is consistent wherever the locale
      comparison is consistent on the rows' texts, in either direction. */
  lemma TextOrderConsistent(sortKey: string, desc: bool, collate: (string, string) -> int, S: set<Value>)
    requires !IsNumericColumn(sortKey)
    requires ConsistentOn(collate, Texts(sortKey, S))
    ensures ConsistentOn(RowOrder(sortKey, desc, collate), S)
  {
    var compare := RowOrder(sortKey, desc, collate);
    forall a, b | a in S && b in S
      ensures compare(a, b) > 0 <==> compare(b, a) < 0
    {
      assert RowText(sortKey, a) in Texts(sortKey, S);
      assert RowText(sortKey, b) in Texts(sortKey, S);
    }
    forall a, b, c | a in S && b in S && c in S && compare(a, b) <= 0 && compare(b, c) <= 0
      ensures compare(a, c) <= 0
    {
      var ta, tb, tc := RowText(sortKey, a), RowText(sortKey, b), RowText(sortKey, c);
      assert ta in Texts(sortKey, S) && tb in Texts(sortKey, S) && tc in Texts(sortKey, S);
      if desc {
        assert collate(tc, tb) <= 0 && collate(tb, ta) <= 0;
      } else {
        assert collate(ta, tb) <= 0 && collate(tb, tc) <= 0;
      }
    }
  }

  /** Sorted on a text column, with a locale comparison that is consistent on
      the rows' texts, the rows are listed in the order of their texts,
      reversed when descending. */
  lemma ListedByText(rows: seq<Value>, search: string, sortKey: string, desc: bool,
                     collate: (string, string) -> int)
    requires !IsNumericColumn(sortKey)
    requires ConsistentOn(collate, Texts(sortKey, Elements(rows)))
    ensures var l := Listed(rows, search, sortKey, desc, collate);
      forall i, j :: 0 <= i < j < |l| ==>
        (if desc then collate(RowText(sortKey, l[j]), RowText(sortKey, l[i]))
         else collate(RowText(sortKey, l[i]), RowText(sortKey, l[j]))) <= 0
  {
    var compare := RowOrder(sortKey, desc, collate);
    var kept := Filtered(rows, Term(search));
    FilteredMembers(rows, Term(search));
    TextOrderConsistent(sortKey, desc, collate, Elements(rows));
    SortSorted(kept, compare, Elements(rows));
  }

  // ---------------------------------------------------------------------------
  // One row of the table

  datatype Cells = Cells(iface: Value, rx: Value, tx: Value, time: Option<int>)

  /** The megabytes of a row: `Number(r[k1] ?? r[k2] ?? 0) || 0`. */
  function RowMegabytes(r: Value, k1: string, k2: string): real {
    NumberOr0(Coalesce(Coalesce(Get(r, k1), Get(r, k2)), Num(0.0)))
  }

  /** The cells a listed row renders. */
  function RowCells(r: Value, parse: DateParser): (c: Cells)
    ensures Truthy(c.iface) && Truthy(c.rx) && Truthy(c.tx)
  {
    Cells(Or(Or(Or(Get(r, "Interface"), Get(r, "iface")), Get(r, "interface")), Str(Dash)),
          Or(Get(r, "RX_HUMAN"), Str(FmtMbHuman(Num(RowMegabytes(r, "RX_MB", "RX"))))),
          Or(Get(r, "TX_HUMAN"), Str(FmtMbHuman(Num(RowMegabytes(r, "TX_MB", "TX"))))),
          ParseTs(Or(Or(Get(r, "Timestamp"), Get(r, "Time")), Get(r, "timestamp")), parse))
  }
}
