/** The router health card (RouterHealthPanel): which record it shows, and
    how it turns the loosely typed uptime, CPU and memory readings of that
    record into display text. */
module RouterHealth {
  import opened JsValues
  import opened Units

  /** The record the card reads: the first element of an array (or `{}` when
      that element is falsy or the array is empty), otherwise the value
      itself, with a falsy value replaced by `{}`. */
  function HealthData(healthData: Value): (data: Value)
    ensures Truthy(data)
    ensures healthData.Arr? && healthData.items == [] ==> data == Obj([])
    ensures healthData.Arr? && healthData.items != [] && Truthy(healthData.items[0]) ==>
              data == healthData.items[0]
    ensures !healthData.Arr? && Truthy(healthData) ==> data == healthData
  {
    match healthData
    case Arr(items) => if items == [] then Obj([]) else Or(items[0], Obj([]))
    case _ => Or(healthData, Obj([]))
  }

  /** `data.name || data.router || 'Router'` */
  function RouterName(data: Value): (name: Value)
    ensures Truthy(name)
    ensures Truthy(Get(data, "name")) ==> name == Get(data, "name")
    ensures !Truthy(Get(data, "name")) && !Truthy(Get(data, "router")) ==> name == Str("Router")
  {
    Or(Or(Get(data, "name"), Get(data, "router")), Str("Router"))
  }

  /** A reading the card shows: neither `null`, `undefined` nor `''`. */
  predicate Present(raw: Value) {
    !Nullish(raw) && raw != Str("")
  }

  /** The placeholder shown for a missing reading. */
  const Dash: string := "—"

  // ---------------------------------------------------------------------------
  // Uptime

  /** The first of `uptime`, `Uptime`, `uptimeSeconds`, `uptime_secs` that is
      neither null nor undefined. */
  function UptimeRaw(data: Value): Value {
    Coalesce(Coalesce(Coalesce(Coalesce(Get(data, "uptime"), Get(data, "Uptime")),
                               Get(data, "uptimeSeconds")), Get(data, "uptime_secs")), Null)
  }

  /** Whole seconds from `start` to `now` (both in milliseconds), rounded down. */
  function ElapsedSeconds(now: int, start: int): (e: int)
    ensures e * 1000 <= now - start < e * 1000 + 1000
  {
    var q := Floor((now - start) as real / 1000.0);
    assert q as real * 1000.0 <= (now - start) as real < q as real * 1000.0 + 1000.0;
    q
  }

  /** The uptime text: a number, or digits only, is a count of seconds; a
      string with a `T` is a start time (its first space read as `T`) whose
      elapsed time is shown when positive; anything else is shown as it is.
      `Number(Number(x))` is `Number(x)`, so the seconds are handed on as read. */
  function UptimeText(raw: Value, now: int, parse: DateParser): string {
    if !Present(raw) then Dash
    else
      var s := ToStr(raw);
      if raw.Num? || (s != "" && IsDigits(s)) then SecondsToDhms(raw)
      else if Contains(s, "T") then
        match parse(ReplaceFirst(s, ' ', 'T'))
        case Some(t) =>
          var e := ElapsedSeconds(now, t);
          if e > 0 then SecondsToDhms(Num(e as real)) else s
        case None => s
      else s
  }

  /** `p` is the days, hours, minutes and seconds of `n` seconds. */
  predicate Decomposition(p: Dhms, n: nat) {
    && p.days >= 0
    && 0 <= p.hours < 24 && 0 <= p.minutes < 60 && 0 <= p.seconds < 60
    && p.days * 86400 + p.hours * 3600 + p.minutes * 60 + p.seconds == n
  }

  /** A duration shown for `n` seconds lists the parts of its decomposition. */
  ghost predicate ShowsDuration(text: string, n: nat) {
    exists p: Dhms :: Decomposition(p, n) && text == Join(DhmsParts(p), " ")
  }

  lemma DurationOfSeconds(n: nat)
    ensures ShowsDuration(SecondsToDhms(Num(n as real)), n)
  {
    DhmsDecomposes(n);
    assert NumberOr0(Num(n as real)) == n as real;
    var p := DhmsOf(n as real);
    assert Decomposition(p, n);
  }

  /** A numeric uptime of `n` seconds is shown as that duration. */
  lemma UptimeOfNumber(n: nat, now: int, parse: DateParser)
    ensures ShowsDuration(UptimeText(Num(n as real), now, parse), n)
  {
    DurationOfSeconds(n);
  }

  /** A string of digits is read as that many seconds. */
  lemma UptimeOfDigits(s: string, now: int, parse: DateParser)
    requires s != "" && IsDigits(s)
    ensures ShowsDuration(UptimeText(Str(s), now, parse), DigitsValue(s))
  {
    assert ToStr(Str(s)) == s && Present(Str(s));
    assert UptimeText(Str(s), now, parse) == SecondsToDhms(Str(s));
    DigitStringToNumber(s);
    assert NumberOr0(Str(s)) == DigitsValue(s) as real == NumberOr0(Num(DigitsValue(s) as real));
    DurationOfSeconds(DigitsValue(s));
  }

  /** A start time: the elapsed whole seconds when positive, else the text. */
  lemma UptimeOfTimestamp(s: string, now: int, parse: DateParser, t: int)
    requires !IsDigits(s) && Contains(s, "T")
    requires parse(ReplaceFirst(s, ' ', 'T')) == Some(t)
    ensures ElapsedSeconds(now, t) > 0 ==>
              ShowsDuration(UptimeText(Str(s), now, parse), ElapsedSeconds(now, t))
    ensures ElapsedSeconds(now, t) <= 0 ==> UptimeText(Str(s), now, parse) == s
  {
    assert ToStr(Str(s)) == s && Present(Str(s));
    var e := ElapsedSeconds(now, t);
    assert UptimeText(Str(s), now, parse) == if e > 0 then SecondsToDhms(Num(e as real)) else s;
    if e > 0 {
      DurationOfSeconds(e);
    }
  }

  /** Text that is neither digits nor a parsable start time is shown as it is. */
  lemma UptimeOfOtherText(s: string, now: int, parse: DateParser)
    requires s != "" && !IsDigits(s)
    requires !Contains(s, "T") || parse(ReplaceFirst(s, ' ', 'T')).None?
    ensures UptimeText(Str(s), now, parse) == s
  {
  }

  // ---------------------------------------------------------------------------
  // CPU and memory

  /** The first of `cpu`, `CPU`, `cpuPct` that is neither null nor undefined. */
  function CpuRaw(data: Value): Value {
    Coalesce(Coalesce(Coalesce(Get(data, "cpu"), Get(data, "CPU")), Get(data, "cpuPct")), Null)
  }

  /** The first of `memory`, `Memory`, `mem` that is neither null nor undefined. */
  function MemoryRaw(data: Value): Value {
    Coalesce(Coalesce(Coalesce(Get(data, "memory"), Get(data, "Memory")), Get(data, "mem")), Null)
  }

  /** `String(raw).trim()` */
  function Reading(raw: Value): string {
    Trim(ToStr(raw))
  }

  /** The CPU text: a reading with `%` as it is, a numeric one with `%`
      appended, anything else as it is. */
  function CpuText(raw: Value): string {
    if !Present(raw) then Dash else CpuOfReading(Reading(raw))
  }

  function CpuOfReading(s: string): string {
    if Contains(s, "%") then s
    else match StringToNumber(s)
      case Some(n) => NumberText(n) + "%"
      case None => s
  }

  /** The memory text: a reading with `%` as it is; a numeric one as a
      percentage up to 100 and as a number of bytes above; anything else as
      it is. */
  function MemoryText(raw: Value): string {
    if !Present(raw) then Dash else MemoryOfReading(Reading(raw))
  }

  function MemoryOfReading(s: string): string {
    if Contains(s, "%") then s
    else match StringToNumber(s)
      case Some(n) => MemoryFigure(n)
      case None => s
  }

  /** A numeric memory reading: a percentage up to 100, bytes above. */
  function MemoryFigure(n: real): string {
    if n <= 100.0 then NumberText(n) + "%" else FmtBytes(Num(n))
  }

  /** A one-character string occurs in `s` exactly when that character does. */
  lemma {:induction false} ContainsChar(s: string, c: char)
    ensures Contains(s, [c]) <==> c in s
  {
    if s != [] {
      ContainsChar(s[1..], c);
      assert c in s <==> s[0] == c || c in s[1..];
    }
  }

  /** Trimming removes only white space, so a visible character survives it. */
  lemma TrimKeeps(s: string, c: char)
    requires c in s && !IsSpace(c)
    ensures c in Trim(s)
  {
    var i :| 0 <= i < |s| && s[i] == c;
    var a := TrimStart(s);
    var k := |s| - |a|;
    assert !IsSpace(s[i]);
    assert k <= i;
    assert a == s[k..];
    assert a[i - k] == c;
    var b := TrimEnd(a);
    assert !IsSpace(a[i - k]);
    assert i - k < |b|;
    assert b == a[..|b|];
    assert b[i - k] == c;
  }

  /** Every character of the trimmed string is one of the string's. */
  lemma TrimmedFrom(s: string, c: char)
    ensures c in Trim(s) ==> c in s
  {
    var a := TrimStart(s);
    var b := TrimEnd(a);
    var k := |s| - |a|;
    assert a == s[k..];
    assert b == a[..|b|];
    assert forall j :: 0 <= j < |b| ==> b[j] == s[k + j];
  }

  /** Digits have no white space at their ends, so trimming keeps them. */
  lemma TrimDigits(s: string)
    requires IsDigits(s)
    ensures Trim(s) == s && '%' !in s
  {
    TrimOfTrimmed(s);
  }

  /** A non-empty string is shown from its trimmed reading. */
  lemma TextOfStr(s: string)
    requires s != ""
    ensures CpuText(Str(s)) == CpuOfReading(Trim(s))
    ensures MemoryText(Str(s)) == MemoryOfReading(Trim(s))
  {
    assert Present(Str(s)) && Reading(Str(s)) == Trim(s);
  }

  /** A reading with a `%` in it is shown trimmed and otherwise unchanged. */
  lemma PercentPassesThrough(s: string)
    requires '%' in s
    ensures CpuText(Str(s)) == Trim(s)
    ensures MemoryText(Str(s)) == Trim(s)
  {
    TextOfStr(s);
    TrimKeeps(s, '%');
    ContainsChar(Trim(s), '%');
  }

  /** The reading of a whole number is its digits. */
  lemma ReadingOfNat(n: nat)
    ensures Reading(Num(n as real)) == NatToString(n)
    ensures StringToNumber(NatToString(n)) == Some(n as real)
    ensures !Contains(NatToString(n), "%")
  {
    NumberTextOfNat(n);
    TrimDigits(NatToString(n));
    DigitStringToNumber(NatToString(n));
    DigitsValueOfNatToString(n);
    ContainsChar(NatToString(n), '%');
  }

  /** A whole CPU figure gets a `%` appended. */
  lemma CpuOfNat(n: nat)
    ensures CpuText(Num(n as real)) == NatToString(n) + "%"
  {
    ReadingOfNat(n);
    NumericCpu(Num(n as real), n as real);
    NumberTextOfNat(n);
  }

  /** A numeric reading without `%` shows as the CPU figure with `%`. */
  lemma NumericCpu(raw: Value, x: real)
    requires Present(raw) && !Contains(Reading(raw), "%")
    requires StringToNumber(Reading(raw)) == Some(x)
    ensures CpuText(raw) == NumberText(x) + "%"
  {
    assert CpuText(raw) == CpuOfReading(Reading(raw));
  }

  /** A numeric memory reading without `%` shows as a percentage up to 100
      and as a number of bytes above. */
  lemma NumericMemory(raw: Value, x: real)
    requires Present(raw) && !Contains(Reading(raw), "%")
    requires StringToNumber(Reading(raw)) == Some(x)
    ensures x <= 100.0 ==> MemoryText(raw) == NumberText(x) + "%"
    ensures x > 100.0 ==> MemoryText(raw) == Render(BytesScale(x))
  {
    assert MemoryText(raw) == MemoryOfReading(Reading(raw)) == MemoryFigure(x);
    assert NumberOr0(Num(x)) == x;
  }

  /** A CPU reading of digits is shown as its value with a `%`: leading
      zeros are dropped. */
  lemma CpuOfDigits(s: string)
    requires s != "" && IsDigits(s)
    ensures CpuText(Str(s)) == NatToString(DigitsValue(s)) + "%"
  {
    TextOfStr(s);
    TrimDigits(s);
    CpuReadingOfDigits(s);
  }

  lemma CpuReadingOfDigits(s: string)
    requires s != "" && IsDigits(s) && '%' !in s
    ensures CpuOfReading(s) == NatToString(DigitsValue(s)) + "%"
  {
    ContainsChar(s, '%');
    DigitStringToNumber(s);
    NumberTextOfNat(DigitsValue(s));
  }

  /** A reading of white space only is the number 0, so it shows as "0%". */
  lemma CpuOfBlank(s: string)
    requires s != "" && forall i :: 0 <= i < |s| ==> IsSpace(s[i])
    ensures CpuText(Str(s)) == "0%"
  {
    TextOfStr(s);
    assert TrimStart(s) == [];
    CpuOfEmptyReading();
  }

  lemma CpuOfEmptyReading()
    ensures CpuOfReading([]) == "0%"
  {
    TrimOfTrimmed([]);
    assert StringToNumber([]) == Some(0.0);
    NumberTextOfNat(0);
    assert NatToString(0) + "%" == "0%";
  }

  /** A reading that is not a number and has no `%` is shown trimmed. */
  lemma CpuOfText(s: string)
    requires s != "" && '%' !in s && StringToNumber(Trim(s)).None?
    ensures CpuText(Str(s)) == Trim(s)
    ensures MemoryText(Str(s)) == Trim(s)
  {
    TextOfStr(s);
    TrimmedFrom(s, '%');
    ContainsChar(Trim(s), '%');
  }

  /** A whole memory figure up to 100 is a percentage. */
  lemma MemoryOfPercentage(n: nat)
    requires n <= 100
    ensures MemoryText(Num(n as real)) == NatToString(n) + "%"
  {
    ReadingOfNat(n);
    NumericMemory(Num(n as real), n as real);
    NumberTextOfNat(n);
  }

  /** A whole memory figure above 100 is a number of bytes, written in the
      largest unit it reaches. */
  lemma MemoryOfBytes(n: nat)
    requires n > 100
    ensures MemoryText(Num(n as real)) == Render(BytesScale(n as real))
  {
    ReadingOfNat(n);
    NumericMemory(Num(n as real), n as real);
  }

  // ---------------------------------------------------------------------------
  // The card

  datatype Panel = Panel(name: Value, uptime: string, cpu: string, memory: string)

  /** Everything the card shows for `healthData` at time `now` (milliseconds). */
  function PanelOf(healthData: Value, now: int, parse: DateParser): Panel {
    var data := HealthData(healthData);
    Panel(RouterName(data), UptimeText(UptimeRaw(data), now, parse),
          CpuText(CpuRaw(data)), MemoryText(MemoryRaw(data)))
  }

  /** An array shows its first record, and an empty one shows the defaults. */
  lemma PanelOfArray(items: seq<Value>, now: int, parse: DateParser)
    ensures items == [] ==>
              PanelOf(Arr(items), now, parse) == Panel(Str("Router"), Dash, Dash, Dash)
    ensures items != [] && Truthy(items[0]) && !items[0].Arr? ==>
              PanelOf(Arr(items), now, parse) == PanelOf(items[0], now, parse)
  {
  }
}
