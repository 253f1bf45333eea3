/** The JavaScript values the payload normaliser handles: what a parsed JSON
    payload can hold, plus `undefined`, `NaN` and `Date` objects. Truthiness,
    `String(x)`, `String.prototype.trim` and property reads are defined here. */
module JsValue {
  import opened Wrappers
  import opened Digits
  import opened Calendar

  /** An object is the ordered list of its `Object.entries` pairs. Numbers
      are exact reals; infinities are not modelled. */
  datatype Value =
    | Undefined
    | Null
    | Bool(b: bool)
    | Num(x: real)
    | NaN
    | Str(s: string)
    | Arr(elems: seq<Value>)
    | Obj(entries: seq<(string, Value)>)
    | DateObj(date: CalDate)

  /** The parts of the JavaScript engine that the model leaves open: the
      current local day, the generic `new Date(string)` parser (`None` for an
      invalid date), the text of a number that is not a whole number below
      10^21, and the `toString` text of a `Date`. */
  datatype Engine = Engine(
    today: CalDate,
    parseDate: string -> Option<CalDate>,
    numberText: real -> string,
    dateText: CalDate -> string)

  /** JavaScript truthiness: `undefined`, `null`, `false`, `0`, `NaN` and the
      empty string are falsy; everything else is truthy. */
  predicate Truthy(v: Value) {
    match v
    case Undefined => false
    case Null => false
    case Bool(b) => b
    case Num(x) => x != 0.0
    case NaN => false
    case Str(s) => s != ""
    case _ => true
  }

  /** Exactly six values are falsy. */
  lemma FalsyValues(v: Value)
    ensures !Truthy(v) <==> v == Undefined || v == Null || v == Bool(false) || v == Num(0.0)
                            || v == NaN || v == Str("")
  {
  }

  predicate IsWholeNumber(x: real) {
    x.Floor as real == x
  }

  /** `String(x)` for a number. */
  function NumberText(eng: Engine, x: real): (s: string)
    ensures IsWholeNumber(x) && 0.0 <= x < 1_000_000_000_000_000_000_000.0 ==>
              AllDigits(s) && DigitsToNat(s) == x.Floor
  {
    var n := x.Floor;
    NatToDigitsRoundTrip(if n >= 0 then n else -n);
    if IsWholeNumber(x) && -1_000_000_000_000_000_000_000.0 < x < 1_000_000_000_000_000_000_000.0
    then IntToString(n)
    else eng.numberText(x)
  }

  /** Elements joined by commas, as `Array.prototype.join` does. */
  function JoinWithCommas(parts: seq<string>): (s: string)
    ensures |parts| == 1 ==> s == parts[0]
  {
    if |parts| == 0 then ""
    else if |parts| == 1 then parts[0]
    else parts[0] + "," + JoinWithCommas(parts[1..])
  }

  /** `String(v)`. An array is the comma-joined text of its elements, with
      `null` and `undefined` elements written as nothing. */
  function ToJsString(eng: Engine, v: Value): string
    decreases v
  {
    match v
    case Undefined => "undefined"
    case Null => "null"
    case Bool(b) => if b then "true" else "false"
    case Num(x) => NumberText(eng, x)
    case NaN => "NaN"
    case Str(s) => s
    case Arr(es) =>
      JoinWithCommas(seq(|es|, i requires 0 <= i < |es| =>
        if es[i].Undefined? || es[i].Null? then "" else ToJsString(eng, es[i])))
    case Obj(_) => "[object Object]"
    case DateObj(d) => eng.dateText(d)
  }

  /** A one-element array has the text of its element, unless that element
      is `null` or `undefined`. */
  lemma SingleElementText(eng: Engine, x: Value)
    ensures ToJsString(eng, Arr([x])) == if x.Undefined? || x.Null? then "" else ToJsString(eng, x)
  {
    var parts := seq(1, i requires 0 <= i < 1 =>
      if [x][i].Undefined? || [x][i].Null? then "" else ToJsString(eng, [x][i]));
    assert parts[0] == if x.Undefined? || x.Null? then "" else ToJsString(eng, x);
  }

  /** White space and line terminators that `trim` removes. */
  predicate IsJsWhitespace(c: char) {
    || c == '\t' || c == '\n' || c == '\U{000B}' || c == '\U{000C}' || c == '\r'
    || c == ' ' || c == '\U{00A0}' || c == '\U{1680}'
    || ('\U{2000}' <= c <= '\U{200A}')
    || c == '\U{2028}' || c == '\U{2029}' || c == '\U{202F}' || c == '\U{205F}'
    || c == '\U{3000}' || c == '\U{FEFF}'
  }

  predicate NoWhitespace(s: string) {
    forall k :: 0 <= k < |s| ==> !IsJsWhitespace(s[k])
  }

  /** `s` with its leading white space removed. */
  function TrimStart(s: string): (r: string)
    ensures |r| <= |s| && r == s[|s| - |r|..]
    ensures forall k :: 0 <= k < |s| - |r| ==> IsJsWhitespace(s[k])
    ensures r != [] ==> !IsJsWhitespace(r[0])
  {
    if |s| > 0 && IsJsWhitespace(s[0]) then TrimStart(s[1..]) else s
  }

  /** `s` with its trailing white space removed. */
  function TrimEnd(s: string): (r: string)
    ensures |r| <= |s| && r == s[..|r|]
    ensures forall k :: |r| <= k < |s| ==> IsJsWhitespace(s[k])
    ensures r != [] ==> !IsJsWhitespace(r[|r| - 1])
  {
    if |s| > 0 && IsJsWhitespace(s[|s| - 1]) then TrimEnd(s[..|s| - 1]) else s
  }

  /** `String.prototype.trim`: the middle of `s` after removing white space at
      both ends; the result neither starts nor ends with white space. */
  function Trim(s: string): (r: string)
    ensures exists i, j :: 0 <= i <= j <= |s| && r == s[i..j]
                           && (forall k :: 0 <= k < i ==> IsJsWhitespace(s[k]))
                           && (forall k :: j <= k < |s| ==> IsJsWhitespace(s[k]))
    ensures r != [] ==> !IsJsWhitespace(r[0]) && !IsJsWhitespace(r[|r| - 1])
  {
    var t := TrimStart(s);
    var r := TrimEnd(t);
    var i := |s| - |t|;
    assert r == s[i..i + |r|];
    r
  }

  /** Text without white space is left unchanged by `trim`. */
  lemma TrimNoWhitespace(s: string)
    requires NoWhitespace(s)
    ensures Trim(s) == s
  {
    assert |s| > 0 ==> !IsJsWhitespace(s[0]) && !IsJsWhitespace(s[|s| - 1]);
    assert TrimStart(s) == s;
  }

  /** Leading white space is skipped up to the first other character. */
  lemma {:induction false} TrimStartSkips(ws: string, rest: string)
    requires forall k :: 0 <= k < |ws| ==> IsJsWhitespace(ws[k])
    requires rest != [] ==> !IsJsWhitespace(rest[0])
    ensures TrimStart(ws + rest) == rest
  {
    if ws != [] {
      assert (ws + rest)[1..] == ws[1..] + rest;
      TrimStartSkips(ws[1..], rest);
    }
  }

  /** Trailing white space is dropped back to the last other character. */
  lemma {:induction false} TrimEndSkips(rest: string, ws: string)
    requires forall k :: 0 <= k < |ws| ==> IsJsWhitespace(ws[k])
    requires rest != [] ==> !IsJsWhitespace(rest[|rest| - 1])
    ensures TrimEnd(rest + ws) == rest
  {
    if ws != [] {
      assert (rest + ws)[..|rest + ws| - 1] == rest + ws[..|ws| - 1];
      TrimEndSkips(rest, ws[..|ws| - 1]);
    } else {
      assert rest + ws == rest;
    }
  }

  /** `trim` removes exactly the white space around a text that neither
      starts nor ends with white space. */
  lemma TrimSurrounded(before: string, t: string, after: string)
    requires forall k :: 0 <= k < |before| ==> IsJsWhitespace(before[k])
    requires forall k :: 0 <= k < |after| ==> IsJsWhitespace(after[k])
    requires t != [] ==> !IsJsWhitespace(t[0]) && !IsJsWhitespace(t[|t| - 1])
    ensures Trim(before + t + after) == t
  {
    assert before + t + after == before + (t + after);
    if t == [] {
      assert t + after == after;
      TrimStartSkips(before + after, []);
      assert before + after + [] == before + after;
      assert forall k :: 0 <= k < |before + after| ==> IsJsWhitespace((before + after)[k]);
      TrimEndSkips([], []);
    } else {
      TrimStartSkips(before, t + after);
      TrimEndSkips(t, after);
    }
  }

  /** Trimming twice is trimming once. */
  lemma TrimIdempotent(s: string)
    ensures Trim(Trim(s)) == Trim(s)
  {
    var r := Trim(s);
    assert TrimStart(r) == r;
  }

  /** The value stored under `key` in a list of entries: the first entry with
      that key, or `undefined`. */
  function Lookup(entries: seq<(string, Value)>, key: string): (v: Value)
    ensures (forall k :: 0 <= k < |entries| ==> entries[k].0 != key) ==> v == Undefined
    ensures forall k :: (0 <= k < |entries| && entries[k].0 == key
                         && forall i :: 0 <= i < k ==> entries[i].0 != key) ==> v == entries[k].1
  {
    LookupFrom(entries, key, 0)
  }

  /** `Lookup` over the entries from index `n` on. */
  function LookupFrom(entries: seq<(string, Value)>, key: string, n: nat): (v: Value)
    requires n <= |entries|
    ensures (forall k :: n <= k < |entries| ==> entries[k].0 != key) ==> v == Undefined
    ensures forall k :: (n <= k < |entries| && entries[k].0 == key
                         && forall i :: n <= i < k ==> entries[i].0 != key) ==> v == entries[k].1
    decreases |entries| - n
  {
    if n == |entries| then Undefined
    else if entries[n].0 == key then entries[n].1
    else LookupFrom(entries, key, n + 1)
  }

  /** The property read `v[key]` on a value that is neither `null` nor
      `undefined` (and, for `null`/`undefined`, optional chaining `v?.[key]`):
      only plain objects carry the keys the normaliser asks for. */
  function Get(v: Value, key: string): (r: Value)
    ensures !v.Obj? ==> r == Undefined
  {
    if v.Obj? then Lookup(v.entries, key) else Undefined
  }

  /** The operator `key in v` on an object. */
  predicate HasProperty(v: Value, key: string)
  {
    v.Obj? && exists k :: 0 <= k < |v.entries| && v.entries[k].0 == key
  }

  /** A missing property reads as `undefined`. */
  lemma MissingPropertyIsUndefined(v: Value, key: string)
    requires !HasProperty(v, key)
    ensures Get(v, key) == Undefined
  {
  }

  /** A key that passes the `in` test reads as a value stored under it. */
  lemma PresentPropertyIsStored(v: Value, key: string)
    requires HasProperty(v, key)
    ensures v.Obj? && exists k :: 0 <= k < |v.entries| && v.entries[k].0 == key && Get(v, key) == v.entries[k].1
  {
    var k := FirstKeyIndex(v.entries, key, 0);
    assert Get(v, key) == Lookup(v.entries, key) == v.entries[k].1;
  }

  /** The first index, from `n` on, of an entry under `key`. */
  lemma {:induction false} FirstKeyIndex(entries: seq<(string, Value)>, key: string, n: nat) returns (k: nat)
    requires n <= |entries|
    requires forall i :: 0 <= i < n ==> entries[i].0 != key
    requires exists j :: n <= j < |entries| && entries[j].0 == key
    ensures n <= k < |entries| && entries[k].0 == key
    ensures forall i :: 0 <= i < k ==> entries[i].0 != key
    decreases |entries| - n
  {
    if entries[n].0 == key {
      k := n;
    } else {
      k := FirstKeyIndex(entries, key, n + 1);
    }
  }
}
