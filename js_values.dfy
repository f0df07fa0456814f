/** JavaScript values as the dashboard sees them: parsed JSON payloads,
    property reads, truthiness, `||` and `??`, and the coercions `Number(..)`
    and `String(..)` that the normalisers apply to untyped fields. */
module JsValues {

  datatype Option<+T> = None | Some(value: T)

  /** A JavaScript value. An object is its list of own enumerable properties
      in property order; `Host` is a non-JSON host object (an AbortSignal, a
      function) whose `String(..)` is "[object <tag>]". JSON has no infinite
      numbers, so every `Num` is finite. */
  datatype Value =
    | Undefined
    | Null
    | Bool(b: bool)
    | Num(n: real)
    | Str(s: string)
    | Arr(items: seq<Value>)
    | Obj(entries: seq<(string, Value)>)
    | Host(tag: string)

  /** The engine's date parser, `new Date(s).getTime()`, left abstract: `None`
      is an invalid date, `Some(t)` a time value in milliseconds. */
  type DateParser = string -> Option<int>

  /** The completion of an evaluation: its value, or the message of the error
      it threw. */
  datatype Completion<T> = Normal(value: T) | Throw(message: string)

  /** `s.map(f)` where `f` may throw: the first throw, in order, ends it. */
  function MapThrow<A, B>(s: seq<A>, f: A -> Completion<B>): Completion<seq<B>> {
    if s == [] then Normal([])
    else
      var n := |s| - 1;
      match MapThrow(s[..n], f)
      case Throw(m) => Throw(m)
      case Normal(front) =>
        match f(s[n])
        case Throw(m) => Throw(m)
        case Normal(b) => Normal(front + [b])
  }

  /** Running `f` on each element in order and concatenating what it returns;
      the first throw ends it. */
  function ConcatMap<A, B>(s: seq<A>, f: A -> Completion<seq<B>>): Completion<seq<B>> {
    if s == [] then Normal([])
    else
      var n := |s| - 1;
      match ConcatMap(s[..n], f)
      case Throw(m) => Throw(m)
      case Normal(front) =>
        match f(s[n])
        case Throw(m) => Throw(m)
        case Normal(b) => Normal(front + b)
  }

  /** The map throws exactly when `f` throws on some element; otherwise it
      holds `f`'s result for each element, in order. */
  lemma {:induction false} MapThrowShape<A, B>(s: seq<A>, f: A -> Completion<B>)
    ensures var r := MapThrow(s, f);
      && (r.Normal? ==> |r.value| == |s| && forall i :: 0 <= i < |s| ==> f(s[i]) == Normal(r.value[i]))
      && (r.Throw? <==> exists i :: 0 <= i < |s| && f(s[i]).Throw?)
  {
    if s != [] {
      var n := |s| - 1;
      MapThrowShape(s[..n], f);
      if MapThrow(s[..n], f).Throw? {
        var i :| 0 <= i < n && f(s[..n][i]).Throw?;
        assert f(s[i]).Throw?;
      }
    }
  }

  /** The next element after a prefix that does not throw: its error is the
      whole result's, or its result extends the prefix's by one. */
  lemma MapThrowNext<A, B>(s: seq<A>, f: A -> Completion<B>, i: nat, out: seq<B>)
    requires i < |s| && MapThrow(s[..i], f) == Normal(out)
    ensures f(s[i]).Throw? ==> MapThrow(s, f) == Throw(f(s[i]).message)
    ensures f(s[i]).Normal? ==> MapThrow(s[..i + 1], f) == Normal(out + [f(s[i]).value])
  {
    assert s[..i + 1][..i] == s[..i];
    if f(s[i]).Throw? {
      MapThrowPrefix(s, f, i + 1);
    }
  }

  /** The next element after a prefix that does not throw: its error is the
      whole result's, or its part extends the result. */
  lemma ConcatMapNext<A, B>(s: seq<A>, f: A -> Completion<seq<B>>, i: nat, out: seq<B>)
    requires i < |s| && ConcatMap(s[..i], f) == Normal(out)
    ensures f(s[i]).Throw? ==> ConcatMap(s, f) == Throw(f(s[i]).message)
    ensures f(s[i]).Normal? ==> ConcatMap(s[..i + 1], f) == Normal(out + f(s[i]).value)
  {
    assert s[..i + 1][..i] == s[..i];
    if f(s[i]).Throw? {
      ConcatMapPrefix(s, f, i + 1);
    }
  }

  /** Once a prefix throws, the whole evaluation throws the same error. */
  lemma {:induction false} MapThrowPrefix<A, B>(s: seq<A>, f: A -> Completion<B>, n: nat)
    requires n <= |s| && MapThrow(s[..n], f).Throw?
    ensures MapThrow(s, f) == MapThrow(s[..n], f)
  {
    if n < |s| {
      assert s[..|s| - 1][..n] == s[..n];
      MapThrowPrefix(s[..|s| - 1], f, n);
    } else {
      assert s[..n] == s;
    }
  }

  lemma {:induction false} ConcatMapPrefix<A, B>(s: seq<A>, f: A -> Completion<seq<B>>, n: nat)
    requires n <= |s| && ConcatMap(s[..n], f).Throw?
    ensures ConcatMap(s, f) == ConcatMap(s[..n], f)
  {
    if n < |s| {
      assert s[..|s| - 1][..n] == s[..n];
      ConcatMapPrefix(s[..|s| - 1], f, n);
    } else {
      assert s[..n] == s;
    }
  }

  /** The map throws the error of the first element that throws. */
  lemma MapThrowFirst<A, B>(s: seq<A>, f: A -> Completion<B>, k: nat)
    requires k < |s| && f(s[k]).Throw?
    requires forall j :: 0 <= j < k ==> f(s[j]).Normal?
    ensures MapThrow(s, f) == Throw(f(s[k]).message)
  {
    MapThrowShape(s[..k], f);
    assert MapThrow(s[..k], f).Normal? by {
      forall j | 0 <= j < k ensures f(s[..k][j]).Normal? {
        assert s[..k][j] == s[j];
      }
    }
    assert s[..k + 1][..k] == s[..k];
    MapThrowPrefix(s, f, k + 1);
  }

  /** The sum of `len` over `s`. */
  function SumLen<A>(s: seq<A>, len: A -> nat): nat {
    if s == [] then 0 else SumLen(s[..|s| - 1], len) + len(s[|s| - 1])
  }

  /** When each part has the length `len` promises, so does the whole. */
  lemma {:induction false} ConcatMapLength<A, B>(s: seq<A>, f: A -> Completion<seq<B>>, len: A -> nat)
    requires forall x :: x in s && f(x).Normal? ==> |f(x).value| == len(x)
    ensures ConcatMap(s, f).Normal? ==> |ConcatMap(s, f).value| == SumLen(s, len)
  {
    if s != [] {
      var n := |s| - 1;
      assert forall x :: x in s[..n] ==> x in s;
      ConcatMapLength(s[..n], f, len);
    }
  }

  /** JavaScript truthiness: `undefined`, `null`, `false`, `0` and `''` are falsy. */
  predicate Truthy(v: Value) {
    match v
    case Undefined => false
    case Null => false
    case Bool(b) => b
    case Num(n) => n != 0.0
    case Str(s) => s != ""
    case _ => true
  }

  predicate Nullish(v: Value) {
    v.Undefined? || v.Null?
  }

  /** `typeof v === 'object'` (true of `null` as well). */
  predicate IsObjectType(v: Value) {
    v.Null? || v.Arr? || v.Obj? || v.Host?
  }

  /** `a || b` */
  function Or(a: Value, b: Value): Value {
    if Truthy(a) then a else b
  }

  /** `a ?? b` */
  function Coalesce(a: Value, b: Value): Value {
    if Nullish(a) then b else a
  }

  /** `a === b` for the values a JSON payload can produce: primitives compare by
      value; two objects read from different payloads are never the same
      reference, so they compare unequal. */
  predicate StrictEquals(a: Value, b: Value) {
    match (a, b)
    case (Undefined, Undefined) => true
    case (Null, Null) => true
    case (Bool(x), Bool(y)) => x == y
    case (Num(x), Num(y)) => x == y
    case (Str(x), Str(y)) => x == y
    case _ => false
  }

  // ---------------------------------------------------------------------------
  // Properties of objects

  predicate HasKey(entries: seq<(string, Value)>, key: string) {
    entries != [] && (entries[0].0 == key || HasKey(entries[1..], key))
  }

  /** The own property named `key`, or `undefined`. */
  function Lookup(entries: seq<(string, Value)>, key: string): (r: Value)
    ensures !HasKey(entries, key) ==> r == Undefined
  {
    if entries == [] then Undefined
    else if entries[0].0 == key then entries[0].1
    else Lookup(entries[1..], key)
  }

  /** The first property named `key` gives the value read. */
  lemma {:induction false} LookupAt(entries: seq<(string, Value)>, key: string, i: nat)
    requires i < |entries| && entries[i].0 == key
    requires forall j :: 0 <= j < i ==> entries[j].0 != key
    ensures Lookup(entries, key) == entries[i].1
  {
    if i > 0 {
      LookupAt(entries[1..], key, i - 1);
    }
  }

  /** An object without a property named `key` reads `undefined` there. */
  lemma {:induction false} LookupAbsent(entries: seq<(string, Value)>, key: string)
    requires forall j :: 0 <= j < |entries| ==> entries[j].0 != key
    ensures Lookup(entries, key) == Undefined
  {
    if entries != [] {
      LookupAbsent(entries[1..], key);
    }
  }

  /** The property assignment `o[key] = val` on an object's own properties: an
      existing property keeps its place and takes the new value, a new one is
      appended at the end; no other property changes. */
  function Assign(entries: seq<(string, Value)>, key: string, val: Value): seq<(string, Value)> {
    if entries == [] then [(key, val)]
    else if entries[0].0 == key then [(key, val)] + entries[1..]
    else [entries[0]] + Assign(entries[1..], key, val)
  }

  /** After the assignment `key` holds `val`, every other key what it held,
      and the keys are the old ones and `key`; a new key goes at the end. */
  lemma {:induction false} AssignFacts(entries: seq<(string, Value)>, key: string, val: Value, k: string)
    ensures Lookup(Assign(entries, key, val), key) == val
    ensures k != key ==> Lookup(Assign(entries, key, val), k) == Lookup(entries, k)
    ensures HasKey(Assign(entries, key, val), k) <==> k == key || HasKey(entries, k)
    ensures !HasKey(entries, key) ==> Assign(entries, key, val) == entries + [(key, val)]
  {
    if entries != [] && entries[0].0 != key {
      AssignFacts(entries[1..], key, val, k);
    }
  }

  /** Assigning a property the value it already has changes nothing. */
  lemma {:induction false} AssignExisting(entries: seq<(string, Value)>, key: string)
    requires HasKey(entries, key)
    ensures Assign(entries, key, Lookup(entries, key)) == entries
  {
    if entries[0].0 != key {
      AssignExisting(entries[1..], key);
    }
  }

  /** The keys of a list of properties, in order. */
  function KeysOf(props: seq<(string, Value)>): (keys: seq<string>)
    ensures |keys| == |props| && forall i :: 0 <= i < |props| ==> keys[i] == props[i].0
  {
    seq(|props|, i requires 0 <= i < |props| => props[i].0)
  }

  /** An object has a property exactly when its name is among its keys. */
  lemma {:induction false} HasKeyOf(entries: seq<(string, Value)>, key: string)
    ensures HasKey(entries, key) <==> key in KeysOf(entries)
  {
    if entries != [] {
      HasKeyOf(entries[1..], key);
      assert KeysOf(entries) == [entries[0].0] + KeysOf(entries[1..]);
    }
  }

  /** The object literal `{...o, k1: v1, ..., kn: vn}`: the properties
      assigned one after another onto the spread properties of `o`. */
  function Extend(entries: seq<(string, Value)>, props: seq<(string, Value)>): seq<(string, Value)>
    decreases |props|
  {
    if props == [] then entries else Extend(Assign(entries, props[0].0, props[0].1), props[1..])
  }

  /** A property the literal does not name keeps the spread value. */
  lemma {:induction false} ExtendOther(entries: seq<(string, Value)>, props: seq<(string, Value)>, key: string)
    requires key !in KeysOf(props)
    ensures Lookup(Extend(entries, props), key) == Lookup(entries, key)
    decreases |props|
  {
    if props != [] {
      assert KeysOf(props[1..]) == KeysOf(props)[1..];
      AssignFacts(entries, props[0].0, props[0].1, key);
      ExtendOther(Assign(entries, props[0].0, props[0].1), props[1..], key);
    }
  }

  /** The literal has the spread properties and the ones it names, no others. */
  lemma {:induction false} ExtendKeys(entries: seq<(string, Value)>, props: seq<(string, Value)>, key: string)
    ensures HasKey(Extend(entries, props), key) <==> HasKey(entries, key) || key in KeysOf(props)
    decreases |props|
  {
    if props != [] {
      assert KeysOf(props) == [props[0].0] + KeysOf(props[1..]);
      AssignFacts(entries, props[0].0, props[0].1, key);
      ExtendKeys(Assign(entries, props[0].0, props[0].1), props[1..], key);
    }
  }

  /** With distinct names, each named property holds the value the literal gives it. */
  lemma {:induction false} ExtendNamed(entries: seq<(string, Value)>, props: seq<(string, Value)>, i: nat)
    requires i < |props|
    requires forall j, k :: 0 <= j < k < |props| ==> props[j].0 != props[k].0
    ensures Lookup(Extend(entries, props), props[i].0) == props[i].1
    decreases |props|
  {
    var rest := props[1..];
    if i == 0 {
      assert props[0].0 !in KeysOf(rest);
      AssignFacts(entries, props[0].0, props[0].1, props[0].0);
      ExtendOther(Assign(entries, props[0].0, props[0].1), rest, props[0].0);
    } else {
      assert rest[i - 1] == props[i];
      ExtendNamed(Assign(entries, props[0].0, props[0].1), rest, i - 1);
    }
  }

  /** A literal that only restates properties the object already has with
      those values is the object itself. */
  lemma {:induction false} ExtendUnchanged(entries: seq<(string, Value)>, props: seq<(string, Value)>)
    requires forall i :: 0 <= i < |props| ==>
               HasKey(entries, props[i].0) && Lookup(entries, props[i].0) == props[i].1
    ensures Extend(entries, props) == entries
    decreases |props|
  {
    if props != [] {
      AssignExisting(entries, props[0].0);
      assert Assign(entries, props[0].0, props[0].1) == entries;
      ExtendUnchanged(entries, props[1..]);
    }
  }

  /** The property read `v.key` of a named (non-index) key on a value that
      is not null or undefined (reading a property of those throws a
      TypeError, which each caller models itself). Arrays and strings have
      `length`; numbers, booleans and host objects have none of the keys
      read here. */
  function Get(v: Value, key: string): Value {
    match v
    case Obj(entries) => Lookup(entries, key)
    case Arr(items) => if key == "length" then Num(|items| as real) else Undefined
    case Str(s) => if key == "length" then Num(|s| as real) else Undefined
    case _ => Undefined
  }

  /** The TypeError message V8 gives for reading `key` from `null` or `undefined`. */
  function ReadError(v: Value, key: string): string {
    "Cannot read properties of " + ToStr(v) + " (reading '" + key + "')"
  }

  /** `Object.entries(v)` for a value that is not null or undefined. */
  function Entries(v: Value): (r: seq<(string, Value)>)
    ensures v.Obj? ==> r == v.entries
    ensures v.Arr? ==> |r| == |v.items| && forall i :: 0 <= i < |r| ==> r[i].1 == v.items[i]
    ensures !v.Obj? && !v.Arr? && !v.Str? ==> r == []
  {
    match v
    case Obj(entries) => entries
    case Arr(items) => seq(|items|, i requires 0 <= i < |items| => (NatToString(i), items[i]))
    case Str(s) => seq(|s|, i requires 0 <= i < |s| => (NatToString(i), Str([s[i]])))
    case _ => []
  }

  /** The values of a list of properties, in order. */
  function ValuesOf(entries: seq<(string, Value)>): (r: seq<Value>)
    ensures |r| == |entries| && forall i :: 0 <= i < |r| ==> r[i] == entries[i].1
  {
    seq(|entries|, i requires 0 <= i < |entries| => entries[i].1)
  }

  /** `Object.values(v)` for a value that is not null or undefined. */
  function Values(v: Value): seq<Value> {
    ValuesOf(Entries(v))
  }

  /** The value read for a key the object has is one of its values. */
  lemma {:induction false} LookupIsValue(entries: seq<(string, Value)>, key: string)
    requires HasKey(entries, key)
    ensures Lookup(entries, key) in ValuesOf(entries)
  {
    if entries[0].0 != key {
      LookupIsValue(entries[1..], key);
      assert ValuesOf(entries[1..]) == ValuesOf(entries)[1..];
    } else {
      assert ValuesOf(entries)[0] == entries[0].1;
    }
  }

  /** An assignment brings in no value but the one assigned. */
  lemma {:induction false} AssignValues(entries: seq<(string, Value)>, key: string, val: Value)
    ensures forall w :: w in ValuesOf(Assign(entries, key, val)) ==> w in ValuesOf(entries) || w == val
  {
    var r := Assign(entries, key, val);
    if entries == [] {
    } else if entries[0].0 == key {
      assert ValuesOf(r) == [val] + ValuesOf(entries[1..]);
      assert ValuesOf(entries) == [entries[0].1] + ValuesOf(entries[1..]);
    } else {
      AssignValues(entries[1..], key, val);
      assert ValuesOf(r) == [entries[0].1] + ValuesOf(Assign(entries[1..], key, val));
      assert ValuesOf(entries) == [entries[0].1] + ValuesOf(entries[1..]);
    }
  }

  /** An object literal holds only the spread values and the ones it names. */
  lemma {:induction false} ExtendValues(entries: seq<(string, Value)>, props: seq<(string, Value)>)
    ensures forall w :: w in ValuesOf(Extend(entries, props)) ==> w in ValuesOf(entries) || w in ValuesOf(props)
    decreases |props|
  {
    if props != [] {
      var e1 := Assign(entries, props[0].0, props[0].1);
      AssignValues(entries, props[0].0, props[0].1);
      ExtendValues(e1, props[1..]);
      assert ValuesOf(props) == [props[0].1] + ValuesOf(props[1..]);
    }
  }

  // ---------------------------------------------------------------------------
  // Characters and strings

  predicate IsDigit(c: char) {
    '0' <= c <= '9'
  }

  predicate IsDigits(s: string) {
    forall i :: 0 <= i < |s| ==> IsDigit(s[i])
  }

  /** The ECMAScript WhiteSpace and LineTerminator code points, which `trim` removes. */
  predicate IsSpace(c: char) {
    c == ' ' || c == '\t' || c == '\n' || c == '\U{000B}' || c == '\U{000C}' || c == '\r' ||
    c == '\U{00A0}' || c == '\U{1680}' || ('\U{2000}' <= c <= '\U{200A}') ||
    c == '\U{2028}' || c == '\U{2029}' || c == '\U{202F}' || c == '\U{205F}' ||
    c == '\U{3000}' || c == '\U{FEFF}'
  }

  function TrimStart(s: string): (r: string)
    ensures |r| <= |s| && r == s[|s| - |r|..]
    ensures r == [] || !IsSpace(r[0])
    ensures forall i :: 0 <= i < |s| - |r| ==> IsSpace(s[i])
  {
    if s != [] && IsSpace(s[0]) then
      var r := TrimStart(s[1..]);
      assert r == s[1..][|s| - 1 - |r|..] == s[|s| - |r|..];
      assert forall i :: 1 <= i < |s| - |r| ==> s[i] == s[1..][i - 1];
      r
    else s
  }

  function TrimEnd(s: string): (r: string)
    ensures |r| <= |s| && r == s[..|r|]
    ensures r == [] || !IsSpace(r[|r| - 1])
    ensures forall i :: |r| <= i < |s| ==> IsSpace(s[i])
  {
    if s != [] && IsSpace(s[|s| - 1]) then
      var r := TrimEnd(s[..|s| - 1]);
      assert r == s[..|s| - 1][..|r|] == s[..|r|];
      assert forall i :: |r| <= i < |s| - 1 ==> s[i] == s[..|s| - 1][i];
      r
    else s
  }

  /** `s.trim()`: `s` without its leading and trailing white space. */
  function Trim(s: string): (r: string)
    ensures |r| <= |s|
    ensures r == [] || (!IsSpace(r[0]) && !IsSpace(r[|r| - 1]))
  {
    TrimEnd(TrimStart(s))
  }

  /** Trimming leaves a string with no white space at its ends unchanged. */
  lemma TrimOfTrimmed(s: string)
    requires s == [] || (!IsSpace(s[0]) && !IsSpace(s[|s| - 1]))
    ensures Trim(s) == s
  {
    assert TrimStart(s) == s;
  }

  /** Trimming is idempotent. */
  lemma TrimIdempotent(s: string)
    ensures Trim(Trim(s)) == Trim(s)
  {
    TrimOfTrimmed(Trim(s));
  }

  function LowerChar(c: char): char {
    if 'A' <= c <= 'Z' then (c as int + 32) as char else c
  }

  /** `s.toLowerCase()` on the ASCII letters. */
  function ToLower(s: string): (r: string)
    ensures |r| == |s| && forall i :: 0 <= i < |s| ==> r[i] == LowerChar(s[i])
  {
    if s == [] then [] else [LowerChar(s[0])] + ToLower(s[1..])
  }

  /** `s.includes(t)` */
  predicate Contains(s: string, t: string) {
    t <= s || (s != [] && Contains(s[1..], t))
  }

  /** `s.indexOf(c)` for a one-character `c`, as an option. */
  function IndexOf(s: string, c: char): (r: Option<nat>)
    ensures r.Some? ==> r.value < |s| && s[r.value] == c && forall j :: 0 <= j < r.value ==> s[j] != c
    ensures r.None? ==> forall j :: 0 <= j < |s| ==> s[j] != c
  {
    if s == [] then None
    else if s[0] == c then Some(0)
    else match IndexOf(s[1..], c)
      case Some(i) => Some(i + 1)
      case None => None
  }

  /** The first space of two pieces joined by a space, when the first has
      none, is the joining one. */
  lemma IndexOfJoined(a: string, b: string)
    requires ' ' !in a
    ensures IndexOf(a + " " + b, ' ') == Some(|a|)
    ensures (a + " " + b)[..|a|] == a && (a + " " + b)[|a| + 1..] == b
  {
    var s := a + " " + b;
    assert s[|a|] == ' ';
    assert forall j :: 0 <= j < |a| ==> s[j] == a[j];
  }

  /** `s.replace(from, to)` with one-character strings: only the first occurrence changes. */
  function ReplaceFirst(s: string, from: char, to: char): string {
    match IndexOf(s, from)
    case Some(i) => s[..i] + [to] + s[i + 1..]
    case None => s
  }

  /** `s.slice(0, n)` */
  function SliceTo(s: string, n: nat): (r: string)
    ensures r <= s
    ensures |r| == if |s| <= n then |s| else n
  {
    if |s| <= n then s else s[..n]
  }

  /** `s.padStart(width, c)` */
  function PadStart(s: string, width: nat, c: char): (r: string)
    ensures |r| == if |s| >= width then |s| else width
    ensures r[|r| - |s|..] == s
    ensures forall i :: 0 <= i < |r| - |s| ==> r[i] == c
  {
    if |s| >= width then s else seq(width - |s|, _ => c) + s
  }

  /** `parts.join(sep)` */
  function Join(parts: seq<string>, sep: string): string {
    if parts == [] then ""
    else if |parts| == 1 then parts[0]
    else parts[0] + sep + Join(parts[1..], sep)
  }

  // ---------------------------------------------------------------------------
  // Integers and their decimal digits

  function DigitChar(d: nat): char
    requires d < 10
  {
    ('0' as int + d) as char
  }

  function DigitOf(c: char): nat
    requires IsDigit(c)
  {
    c as int - '0' as int
  }

  function Pow10(n: nat): (r: nat)
    ensures r >= 1
  {
    if n == 0 then 1 else 10 * Pow10(n - 1)
  }

  /** The value of a string of decimal digits. */
  function DigitsValue(s: string): nat
    requires IsDigits(s)
  {
    if s == [] then 0 else 10 * DigitsValue(s[..|s| - 1]) + DigitOf(s[|s| - 1])
  }

  /** The decimal digits of `n`, without leading zeros. */
  function NatToString(n: nat): (r: string)
    ensures r != [] && IsDigits(r)
    ensures |r| == 1 || r[0] != '0'
  {
    if n < 10 then [DigitChar(n)] else NatToString(n / 10) + [DigitChar(n % 10)]
  }

  /** Reading back the digits `NatToString` writes gives the number again. */
  lemma {:induction false} DigitsValueOfNatToString(n: nat)
    ensures DigitsValue(NatToString(n)) == n
  {
    if n >= 10 {
      var r := NatToString(n);
      DigitsValueOfNatToString(n / 10);
      assert r[..|r| - 1] == NatToString(n / 10);
    }
  }

  /** A canonical digit string is what `NatToString` writes for its value. */
  lemma {:induction false} NatToStringDigitsValue(s: string)
    requires s != [] && IsDigits(s) && (s == "0" || s[0] != '0')
    ensures NatToString(DigitsValue(s)) == s
  {
    if |s| > 1 {
      var p := s[..|s| - 1];
      assert p[0] == s[0];
      assert p != "0";
      NatToStringDigitsValue(p);
      LeadingDigitPositive(p);
      var v := DigitsValue(s);
      assert v / 10 == DigitsValue(p) && v % 10 == DigitOf(s[|s| - 1]);
      assert s == p + [s[|s| - 1]];
    } else {
      assert s == [s[0]];
    }
  }

  lemma {:induction false} LeadingDigitPositive(s: string)
    requires s != [] && IsDigits(s) && s[0] != '0'
    ensures DigitsValue(s) >= 1
  {
    if |s| > 1 {
      LeadingDigitPositive(s[..|s| - 1]);
    }
  }

  function IntToString(i: int): string {
    if i < 0 then "-" + NatToString(-i) else NatToString(i)
  }

  // ---------------------------------------------------------------------------
  // Number(..)

  /** The value of an unsigned decimal literal: `ddd`, `ddd.ddd`, `.ddd` or `ddd.`. */
  function UnsignedDecimal(s: string): (r: Option<real>)
    ensures r.Some? ==> r.value >= 0.0
    ensures s != [] && IsDigits(s) ==> r == Some(DigitsValue(s) as real)
  {
    match IndexOf(s, '.')
    case None => if s != [] && IsDigits(s) then Some(DigitsValue(s) as real) else None
    case Some(i) =>
      var whole, frac := s[..i], s[i + 1..];
      if IsDigits(whole) && IsDigits(frac) && |whole| + |frac| > 0 then
        Some(DigitsValue(whole) as real + DigitsValue(frac) as real / Pow10(|frac|) as real)
      else None
  }

  /** `Number(s)` for a string: white space around a signed decimal literal is
      ignored and the empty string is 0; anything else is NaN (`None`). */
  function StringToNumber(s: string): Option<real> {
    var t := Trim(s);
    if t == "" then Some(0.0)
    else if t[0] == '-' then
      (match UnsignedDecimal(t[1..])
       case Some(v) => Some(-v)
       case None => None)
    else if t[0] == '+' then UnsignedDecimal(t[1..])
    else UnsignedDecimal(t)
  }

  /** A digit string reads back as the number it spells. */
  lemma DigitStringToNumber(s: string)
    requires s != [] && IsDigits(s)
    ensures StringToNumber(s) == Some(DigitsValue(s) as real)
  {
    TrimOfTrimmed(s);
  }

  /** `Number(v)`; `None` is NaN. */
  function ToNumber(v: Value): (r: Option<real>)
    ensures v.Num? ==> r == Some(v.n)
    ensures v.Null? ==> r == Some(0.0)
    ensures v.Undefined? || v.Obj? || v.Host? ==> r.None?
  {
    match v
    case Undefined => None
    case Null => Some(0.0)
    case Bool(b) => Some(if b then 1.0 else 0.0)
    case Num(n) => Some(n)
    case Str(s) => StringToNumber(s)
    case Arr(_) => StringToNumber(ToStr(v))
    case Obj(_) => None
    case Host(_) => None
  }

  /** `Number(v) || 0`: NaN becomes 0. */
  function NumberOr0(v: Value): (r: real)
    ensures ToNumber(v).Some? ==> r == ToNumber(v).value
    ensures ToNumber(v).None? ==> r == 0.0
  {
    match ToNumber(v)
    case Some(n) => n
    case None => 0.0
  }

  /** `String(n)` for a finite number: the integer part, then the fraction to
      at most twenty digits. */
  function NumberText(x: real): string
    decreases if x < 0.0 then 1 else 0
  {
    if x < 0.0 then "-" + NumberText(-x)
    else
      var w := x.Floor;
      var f := x - w as real;
      NatToString(w) + (if f == 0.0 then "" else "." + FractionDigits(f, 20))
  }

  function FractionDigits(f: real, fuel: nat): string
    requires 0.0 <= f < 1.0
    decreases fuel
  {
    if f == 0.0 || fuel == 0 then ""
    else
      var d := (f * 10.0).Floor;
      [DigitChar(d)] + FractionDigits(f * 10.0 - d as real, fuel - 1)
  }

  /** An integral number prints as its digits. */
  lemma NumberTextOfNat(n: nat)
    ensures NumberText(n as real) == NatToString(n)
  {
    assert (n as real).Floor == n;
  }
  /** `Number` reads back a whole number from the text `String` writes for
      it, so a count sent as text reads as the count. */
  lemma NumberOfNumberText(n: nat)
    ensures ToNumber(Str(ToStr(Num(n as real)))) == Some(n as real)
    ensures NumberOr0(Str(ToStr(Num(n as real)))) == n as real
  {
    NumberTextOfNat(n);
    DigitStringToNumber(NatToString(n));
    DigitsValueOfNatToString(n);
  }


  /** `String(v)` */
  function ToStr(v: Value): string
    decreases v
  {
    match v
    case Undefined => "undefined"
    case Null => "null"
    case Bool(b) => if b then "true" else "false"
    case Num(n) => NumberText(n)
    case Str(s) => s
    case Arr(items) =>
      Join(seq(|items|, i requires 0 <= i < |items| =>
                 if Nullish(items[i]) then "" else ToStr(items[i])), ",")
    case Obj(_) => "[object Object]"
    case Host(tag) => "[object " + tag + "]"
  }

  /** `x.toFixed(digits)` on the exact value of `x`: the nearest multiple of
      10^-digits, the larger one on a tie, written with exactly `digits`
      fraction digits. */
  function ToFixed(x: real, digits: nat): string
    decreases if x < 0.0 then 1 else 0
  {
    if x < 0.0 then "-" + ToFixed(-x, digits)
    else FixedText(FixedUnits(x, digits), digits)
  }

  /** The number of 10^-digits units nearest to a non-negative `x`. */
  function FixedUnits(x: real, digits: nat): (n: nat)
    requires x >= 0.0
  {
    var p := Pow10(digits) as real;
    assert x * p >= 0.0;
    (x * p + 0.5).Floor
  }

  /** `n` units of 10^-digits written with exactly `digits` fraction digits. */
  function FixedText(n: nat, digits: nat): string {
    var p := Pow10(digits);
    var whole := WholeUnits(n, p);
    NatToString(whole) + (if digits == 0 then "" else "." + ZeroPadded(n - whole * p, digits))
  }

  function WholeUnits(n: nat, p: nat): (q: nat)
    requires p >= 1
    ensures q * p <= n
  {
    n / p
  }

  function ZeroPadded(n: nat, width: nat): string {
    PadStart(NatToString(n), width, '0')
  }

  /** `Math.round(x)`: the nearest integer, halves rounded up. */
  function Round(x: real): (r: int)
    ensures x - 0.5 < r as real <= x + 0.5
  {
    (x + 0.5).Floor
  }

  /** `Math.floor(x)` */
  function Floor(x: real): (r: int)
    ensures r as real <= x < r as real + 1.0
  {
    x.Floor
  }

  /** Truncation toward zero, as `ToIntegerOrInfinity` does. */
  function Trunc(x: real): int {
    if x >= 0.0 then x.Floor else -((-x).Floor)
  }

  /** `new Date(v).getTime()`: strings (and objects, through their string
      form) go to the parser; numbers are time values, clipped to the range
      the Date object can hold. */
  function DateValue(v: Value, parse: DateParser): Option<int> {
    match v
    case Str(s) => parse(s)
    case Arr(_) => parse(ToStr(v))
    case Obj(_) => parse(ToStr(v))
    case Host(_) => parse(ToStr(v))
    case _ =>
      match ToNumber(v)
      case None => None
      case Some(n) => if -8640000000000000.0 <= n <= 8640000000000000.0 then Some(Trunc(n)) else None
  }
}
