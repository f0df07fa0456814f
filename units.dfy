/** The dashboard's human-readable sizes and durations: `formatMB` (App),
    `fmtMbHuman` (ActiveSessionsTable), `fmtBytes` and `secondsToDhms`
    (RouterHealthPanel). A size is first chosen as a quantity (a figure in a
    unit) and then written out. */
module Units {
  import opened JsValues

  datatype Unit = B | KB | MB | GB

  function UnitBytes(u: Unit): (r: nat)
    ensures r >= 1
  {
    match u
    case B => 1
    case KB => 1024
    case MB => 1048576
    case GB => 1073741824
  }

  function UnitName(u: Unit): string {
    match u
    case B => "B"
    case KB => "KB"
    case MB => "MB"
    case GB => "GB"
  }

  /** How a figure is written: `x.toFixed(digits)`, `Math.round(x)`, or `String(x)`. */
  datatype Figure = Fixed(x: real, digits: nat) | Rounded(x: real) | Plain(x: real)

  datatype Quantity = Quantity(figure: Figure, unit: Unit)

  function FigureText(f: Figure): string {
    match f
    case Fixed(x, digits) => ToFixed(x, digits)
    case Rounded(x) => IntToString(Round(x))
    case Plain(x) => NumberText(x)
  }

  /** `figure + ' ' + unit` */
  function Render(q: Quantity): string {
    FigureText(q.figure) + " " + UnitName(q.unit)
  }

  /** The number of bytes a quantity stands for before its figure is rounded. */
  function Magnitude(q: Quantity): real {
    q.figure.x * UnitBytes(q.unit) as real
  }

  // ---------------------------------------------------------------------------
  // formatMB (App.jsx)

  /** The quantity `formatMB` writes for a finite, non-null amount of MB:
      the same amount in GB above 1024 MB, in MB above 1 MB, else in whole KB. */
  function MBScale(n: real): (q: Quantity)
    ensures Magnitude(q) == n * UnitBytes(MB) as real
    ensures q.unit == GB <==> n > 1024.0
    ensures q.unit == MB <==> 1.0 < n <= 1024.0
    ensures q.unit == KB <==> n <= 1.0
    ensures q.unit == KB <==> q.figure.Rounded?
    ensures q.unit != KB ==> q.figure.Fixed? && q.figure.digits == 2
  {
    if n > 1024.0 then Quantity(Fixed(n / 1024.0, 2), GB)
    else if n > 1.0 then Quantity(Fixed(n, 2), MB)
    else Quantity(Rounded(n * 1024.0), KB)
  }

  /** `formatMB(mb)`: a non-finite value, `null` and `undefined` read as "0 MB". */
  function FormatMBQuantity(mb: Value): Quantity {
    match ToNumber(mb)
    case None => Quantity(Plain(0.0), MB)
    case Some(n) => if mb.Null? then Quantity(Plain(0.0), MB) else MBScale(n)
  }

  function FormatMB(mb: Value): string {
    Render(FormatMBQuantity(mb))
  }

  /** A positive amount is written with a figure between 1 and 1024 in MB, above 1 in GB. */
  lemma FormatMBFigureRange(n: real)
    requires n > 1.0
    ensures var q := MBScale(n);
      q.figure.x > 1.0 && (q.unit == MB ==> q.figure.x <= 1024.0)
  {
  }

  /** Zero is written in KB by the code: "0 KB", not "0 MB". */
  lemma FormatMBZero()
    ensures FormatMB(Num(0.0)) == "0 KB"
    ensures FormatMB(Null) == "0 MB"
  {
  }

  lemma FormatMBExample()
    ensures FormatMB(Num(1536.0)) == "1.50 GB"
  {
    var q := FormatMBQuantity(Num(1536.0));
    assert q == Quantity(Fixed(1.5, 2), GB);
    TwoDecimals(1.5, 1, 50);
    assert NatToString(50) == "50" by { assert NatToString(5) == "5"; }
    assert FigureText(q.figure) == "1.50";
    assert Render(q) == "1.50" + " " + "GB";
  }

  /** `x.toFixed(2)` for an `x` of exactly `whole` units and `cents` hundredths. */
  lemma TwoDecimals(x: real, whole: nat, cents: nat)
    requires cents < 100 && x * 100.0 == (whole * 100 + cents) as real
    ensures ToFixed(x, 2) == NatToString(whole) + "." + PadStart(NatToString(cents), 2, '0')
  {
    var units := whole * 100 + cents;
    HundredthsUnits(x, units);
    HundredthsText(units);
    assert units / 100 == whole && units % 100 == cents;
  }

  lemma HundredthsUnits(x: real, units: nat)
    requires x >= 0.0 && x * 100.0 == units as real
    ensures FixedUnits(x, 2) == units
  {
    assert Pow10(2) == 100;
  }

  lemma HundredthsText(units: nat)
    ensures FixedText(units, 2) == NatToString(units / 100) + "." + PadStart(NatToString(units % 100), 2, '0')
  {
    assert Pow10(2) == 100;
  }

  // ---------------------------------------------------------------------------
  // fmtMbHuman (ActiveSessionsTable.jsx)

  /** The quantity `fmtMbHuman` writes for an amount of MB: GB from 1024 MB
      on, MB from 1 MB on, else whole KB. */
  function HumanMBScale(n: real): (q: Quantity)
    ensures Magnitude(q) == n * UnitBytes(MB) as real
    ensures q.unit == GB <==> n >= 1024.0
    ensures q.unit == MB <==> 1.0 <= n < 1024.0
    ensures q.unit == KB <==> n < 1.0
    ensures q.unit == KB <==> q.figure.Rounded?
    ensures q.unit != KB ==> q.figure.Fixed? && q.figure.digits == 2
  {
    if n >= 1024.0 then Quantity(Fixed(n / 1024.0, 2), GB)
    else if n >= 1.0 then Quantity(Fixed(n, 2), MB)
    else Quantity(Rounded(n * 1024.0), KB)
  }

  /** `fmtMbHuman(mb)`: NaN reads as 0. */
  function FmtMbHuman(mb: Value): (text: string)
    ensures text != ""
  {
    Render(HumanMBScale(NumberOr0(mb)))
  }

  /** At exactly 1024 MB the two MB formatters disagree on the unit. */
  lemma FormatMBAtBoundary()
    ensures FormatMB(Num(1024.0)) == "1024.00 MB"
  {
    assert FormatMBQuantity(Num(1024.0)) == Quantity(Fixed(1024.0, 2), MB);
    RenderAtBoundary();
  }

  lemma RenderAtBoundary()
    ensures Render(Quantity(Fixed(1024.0, 2), MB)) == "1024.00 MB"
  {
    RenderFixed(1024.0, 2, MB);
    Fixed1024();
    assert "1024.00" + " " + "MB" == "1024.00 MB";
  }

  lemma RenderFixed(x: real, digits: nat, u: Unit)
    ensures Render(Quantity(Fixed(x, digits), u)) == ToFixed(x, digits) + " " + UnitName(u)
  {
  }

  lemma FmtMbHumanAtBoundary()
    ensures FmtMbHuman(Num(1024.0)) == "1.00 GB"
  {
    assert HumanMBScale(NumberOr0(Num(1024.0))) == Quantity(Fixed(1.0, 2), GB);
    RenderFixed(1.0, 2, GB);
    Fixed1();
    assert "1.00" + " " + "GB" == "1.00 GB";
  }

  lemma Fixed1024()
    ensures ToFixed(1024.0, 2) == "1024.00"
  {
    FixedWhole(1024);
    Digits1024();
    assert "1024" + ".00" == "1024.00";
  }

  /** A whole number is written with its digits and two zero decimals. */
  lemma FixedWhole(n: nat)
    ensures ToFixed(n as real, 2) == NatToString(n) + ".00"
  {
    HundredthsUnits(n as real, n * 100);
    assert Pow10(2) == 100;
    assert WholeUnits(n * 100, 100) == n;
    assert ZeroPadded(0, 2) == "00";
  }

  lemma Digits1024()
    ensures NatToString(1024) == "1024"
  {
    assert NatToString(10) == "10";
    assert NatToString(102) == NatToString(10) + "2";
    assert NatToString(1024) == NatToString(102) + "4";
  }

  lemma Fixed2()
    ensures ToFixed(2.0, 2) == "2.00"
  {
    TwoDecimals(2.0, 2, 0);
  }

  lemma Fixed1()
    ensures ToFixed(1.0, 2) == "1.00"
  {
    TwoDecimals(1.0, 1, 0);
  }

  // ---------------------------------------------------------------------------
  // fmtBytes (RouterHealthPanel.jsx)

  /** The quantity `fmtBytes` writes for a number of bytes: GB from 2^30
      bytes on, MB from 2^20 on (two decimals), whole KB from 1024 on,
      otherwise the plain number of bytes. */
  function BytesScale(n: real): (q: Quantity)
    ensures Magnitude(q) == n
    ensures q.unit == GB <==> n >= 1073741824.0
    ensures q.unit == MB <==> 1048576.0 <= n < 1073741824.0
    ensures q.unit == KB <==> 1024.0 <= n < 1048576.0
    ensures q.unit == B <==> n < 1024.0
    ensures q.unit == B <==> q.figure.Plain?
    ensures q.unit == KB ==> q.figure.Fixed? && q.figure.digits == 0
    ensures q.unit in {MB, GB} ==> q.figure.Fixed? && q.figure.digits == 2
  {
    if n >= 1073741824.0 then Quantity(Fixed(n / 1073741824.0, 2), GB)
    else if n >= 1048576.0 then Quantity(Fixed(n / 1048576.0, 2), MB)
    else if n >= 1024.0 then Quantity(Fixed(n / 1024.0, 0), KB)
    else Quantity(Plain(n), B)
  }

  /** `fmtBytes(bytes)`: NaN reads as 0. */
  function FmtBytes(bytes: Value): string {
    Render(BytesScale(NumberOr0(bytes)))
  }

  lemma FmtBytesGigabytes()
    ensures FmtBytes(Num(2147483648.0)) == "2.00 GB"
  {
    var q := BytesScale(NumberOr0(Num(2147483648.0)));
    assert q == Quantity(Fixed(2.0, 2), GB);
    Fixed2();
    assert Render(q) == "2.00" + " " + "GB";
  }

  lemma FmtBytesSmall()
    ensures FmtBytes(Num(512.0)) == "512 B"
  {
    var r := BytesScale(NumberOr0(Num(512.0)));
    assert r == Quantity(Plain(512.0), B);
    NumberTextOfNat(512);
    assert NatToString(512) == "512" by { assert NatToString(51) == "51"; }
    assert Render(r) == "512" + " " + "B";
  }

  // ---------------------------------------------------------------------------
  // secondsToDhms (RouterHealthPanel.jsx)

  /** JavaScript's `%` on numbers: the remainder takes the dividend's sign. */
  function JsRem(x: real, m: real): real
    requires m > 0.0
  {
    x - m * Trunc(x / m) as real
  }

  datatype Dhms = Dhms(days: int, hours: int, minutes: int, seconds: int)

  /** The four components `secondsToDhms` computes. */
  function DhmsOf(sec: real): Dhms {
    Dhms(Floor(sec / 86400.0), Floor(JsRem(sec, 86400.0) / 3600.0),
         Floor(JsRem(sec, 3600.0) / 60.0), Floor(JsRem(sec, 60.0)))
  }

  /** The non-zero day, hour and minute parts; seconds only when none shows. */
  function DhmsParts(p: Dhms): (parts: seq<string>)
    ensures parts != []
  {
    var shown := (if p.days != 0 then [IntToString(p.days) + "d"] else [])
      + (if p.hours != 0 then [IntToString(p.hours) + "h"] else [])
      + (if p.minutes != 0 then [IntToString(p.minutes) + "m"] else []);
    if shown == [] then [IntToString(p.seconds) + "s"] else shown
  }

  /** `secondsToDhms(sec)`: NaN reads as 0 seconds. */
  function SecondsToDhms(sec: Value): string {
    Join(DhmsParts(DhmsOf(NumberOr0(sec))), " ")
  }

  lemma FloorQuotient(n: int, m: int)
    requires n >= 0 && m > 0
    ensures Floor(n as real / m as real) == n / m
  {
    var q, r := n / m, n % m;
    assert (n as real) == (q as real) * (m as real) + (r as real);
    assert n as real / m as real == q as real + r as real / m as real;
    assert 0.0 <= r as real / m as real < 1.0;
  }

  lemma RemOfNat(n: int, m: int)
    requires n >= 0 && m > 0
    ensures JsRem(n as real, m as real) == (n % m) as real
  {
    FloorQuotient(n, m);
  }

  /** For a whole number of seconds each component is a quotient of
      remainders of whole numbers. */
  lemma DhmsOfNat(n: nat)
    ensures DhmsOf(n as real) == Dhms(n / 86400, (n % 86400) / 3600, (n % 3600) / 60, n % 60)
  {
    FloorQuotient(n, 86400);
    RemOfNat(n, 86400);
    FloorQuotient(n % 86400, 3600);
    RemOfNat(n, 3600);
    FloorQuotient(n % 3600, 60);
    RemOfNat(n, 60);
    assert Floor((n % 60) as real) == n % 60;
  }

  /** For a whole number of seconds the components are a days, hours,
      minutes, seconds decomposition of it. */
  lemma {:induction false} DhmsDecomposes(n: nat)
    ensures var p := DhmsOf(n as real);
      && p.days >= 0
      && 0 <= p.hours < 24 && 0 <= p.minutes < 60 && 0 <= p.seconds < 60
      && p.days * 86400 + p.hours * 3600 + p.minutes * 60 + p.seconds == n
  {
    DhmsOfNat(n);
    ModOfMod(n);
  }

  lemma ModOfMod(n: nat)
    ensures (n / 86400) * 86400 + ((n % 86400) / 3600) * 3600 + ((n % 3600) / 60) * 60 + n % 60 == n
  {
    var d, r := n / 86400, n % 86400;
    var h, r2 := r / 3600, r % 3600;
    assert n % 3600 == r2 by {
      assert n == (d * 24 + h) * 3600 + r2;
    }
    var mi, s := r2 / 60, r2 % 60;
    assert n % 60 == s by {
      assert n == (d * 1440 + h * 60 + mi) * 60 + s;
    }
  }

  lemma FloorOf(x: real, q: int)
    requires q as real <= x < q as real + 1.0
    ensures Floor(x) == q
  {}

  lemma CastMul(a: int, b: int)
    ensures (a * b) as real == a as real * b as real
  {}

  lemma DivSplit(a: real, b: real, m: real)
    requires m > 0.0
    ensures (a * m + b) / m == a + b / m
  {}

  lemma DivBelowOne(y: real, m: real)
    requires 0.0 <= y < m
    ensures 0.0 <= y / m < 1.0
  {}

  /** A whole amount and a fraction, split by the quotient and remainder of
      the whole amount. */
  lemma WholeSplit(k: int, f: real, m: int)
    requires k >= 0 && 0.0 <= f < 1.0 && m > 0
    ensures k as real + f == (k / m) as real * m as real + ((k % m) as real + f)
    ensures 0.0 <= (k % m) as real + f < m as real
  {
    assert k == (k / m) * m + k % m;
    CastMul(k / m, m);
  }

  /** `Math.floor((q * m + y) / m)` is `q` when `0 <= y < m`. */
  lemma FloorOfSplit(x: real, q: int, y: real, m: real)
    requires 0.0 <= y < m && x == q as real * m + y
    ensures Floor(x / m) == q
  {
    DivSplit(q as real, y, m);
    DivBelowOne(y, m);
    FloorOf(x / m, q);
  }

  /** A non-negative amount plus a fraction below one has the quotient of the
      whole amount. */
  lemma FloorShift(k: int, f: real, m: int)
    requires k >= 0 && 0.0 <= f < 1.0 && m > 0
    ensures Floor((k as real + f) / m as real) == k / m
  {
    WholeSplit(k, f, m);
    FloorOfSplit(k as real + f, k / m, (k % m) as real + f, m as real);
  }

  /** JavaScript's `%` keeps the fraction of a non-negative dividend. */
  lemma RemShift(k: int, f: real, m: int)
    requires k >= 0 && 0.0 <= f < 1.0 && m > 0
    ensures JsRem(k as real + f, m as real) == (k % m) as real + f
  {
    FloorShift(k, f, m);
    WholeSplit(k, f, m);
    assert Trunc((k as real + f) / m as real) == k / m;
  }

  /** For any non-negative number of seconds the components are those of its
      whole seconds, so they decompose `Math.floor(sec)`. */
  lemma DhmsOfSeconds(sec: real)
    requires sec >= 0.0
    ensures DhmsOf(sec) == DhmsOf(Floor(sec) as real)
    ensures var p := DhmsOf(sec);
      && p.days >= 0
      && 0 <= p.hours < 24 && 0 <= p.minutes < 60 && 0 <= p.seconds < 60
      && p.days * 86400 + p.hours * 3600 + p.minutes * 60 + p.seconds == Floor(sec)
  {
    var n := Floor(sec);
    var f := sec - n as real;
    assert sec == n as real + f;
    FloorShift(n, f, 86400);
    RemShift(n, f, 86400);
    FloorShift(n % 86400, f, 3600);
    RemShift(n, f, 3600);
    FloorShift(n % 3600, f, 60);
    RemShift(n, f, 60);
    assert Floor((n % 60) as real + f) == n % 60;
    DhmsOfNat(n);
    DhmsDecomposes(n);
  }

  /** One part of the duration: the number and its unit letter. */
  function Part(x: int, unit: char): string {
    IntToString(x) + [unit]
  }

  /** The place of a part's unit in "d h m s". */
  function UnitRank(part: string): int {
    if part == [] then 4
    else match part[|part| - 1]
      case 'd' => 0
      case 'h' => 1
      case 'm' => 2
      case 's' => 3
      case _ => 4
  }

  /** The text shows the day, hour and minute parts that are not zero, in that
      order, and the seconds exactly when none of them shows. */
  lemma DhmsPartsListed(p: Dhms)
    ensures var parts := DhmsParts(p);
      && (Part(p.days, 'd') in parts <==> p.days != 0)
      && (Part(p.hours, 'h') in parts <==> p.hours != 0)
      && (Part(p.minutes, 'm') in parts <==> p.minutes != 0)
      && (Part(p.seconds, 's') in parts <==> p.days == 0 && p.hours == 0 && p.minutes == 0)
      && (forall i :: 0 <= i < |parts| ==>
            parts[i] in [Part(p.days, 'd'), Part(p.hours, 'h'), Part(p.minutes, 'm'), Part(p.seconds, 's')])
      && (forall i, j :: 0 <= i < j < |parts| ==> UnitRank(parts[i]) < UnitRank(parts[j]))
  {
    var d, h, m, s := Part(p.days, 'd'), Part(p.hours, 'h'), Part(p.minutes, 'm'), Part(p.seconds, 's');
    assert UnitRank(d) == 0 && UnitRank(h) == 1 && UnitRank(m) == 2 && UnitRank(s) == 3;
    assert IntToString(p.days) + "d" == d && IntToString(p.hours) + "h" == h;
    assert IntToString(p.minutes) + "m" == m && IntToString(p.seconds) + "s" == s;
  }

  /** `Number(sec) || 0` turns NaN and 0 into no time at all: "0s". */
  lemma SecondsToDhmsOfNothing(sec: Value)
    requires ToNumber(sec).None? || ToNumber(sec) == Some(0.0)
    ensures SecondsToDhms(sec) == "0s"
  {
    assert NumberOr0(sec) == 0.0;
    NoTimeText();
  }

  lemma NoTimeText()
    ensures Join(DhmsParts(DhmsOf(0.0)), " ") == "0s"
  {
    DhmsOfNat(0);
    assert IntToString(0) == [DigitChar(0)] == "0";
  }

  /** Under a minute the duration shows its seconds. */
  lemma SecondsToDhmsUnderAMinute(n: nat)
    requires n < 60
    ensures SecondsToDhms(Num(n as real)) == NatToString(n) + "s"
  {
    DhmsOfNat(n);
    assert n / 86400 == 0 && n % 86400 == n && n / 3600 == 0 && n % 3600 == n && n / 60 == 0 && n % 60 == n;
    var p := DhmsOf(n as real);
    assert p == Dhms(0, 0, 0, n);
    assert DhmsParts(p) == [NatToString(n) + "s"];
  }

  lemma SecondsToDhmsExample()
    ensures SecondsToDhms(Num(90061.0)) == "1d 1h 1m"
    ensures SecondsToDhms(Num(7200.0)) == "2h"
  {
    DhmsDecomposes(90061);
    assert DhmsOf(90061.0) == Dhms(1, 1, 1, 1);
    DhmsDecomposes(7200);
    assert DhmsOf(7200.0) == Dhms(0, 2, 0, 0);
  }
}
