/**
 * The slice of JavaScript semantics the tile server leans on: JSON-like
 * values and their truthiness, `String(v)`, `String.prototype.split` on a
 * one-character separator, `Array.prototype.join`, `parseInt` without a
 * radix and `replace` with a string pattern; the first position of a
 * character is used to state what `split` does.
 */
module Js {

  datatype Option<T> = None | Some(value: T)

  /** A value as it arrives in a request body, a query string or a parsed document. */
  datatype Json =
    | Undefined
    | Null
    | Bool(b: bool)
    | Num(n: int)
    | Str(s: string)
    | Arr(items: seq<Json>)
    | Obj(fields: map<string, Json>)

  /** A plain JavaScript object: own enumerable properties and their values. */
  type Doc = map<string, Json>

  /** `!!v` */
  predicate Truthy(v: Json) {
    match v
    case Undefined => false
    case Null => false
    case Bool(b) => b
    case Num(n) => n != 0
    case Str(s) => s != ""
    case Arr(_) => true
    case Obj(_) => true
  }

  /** `d[k]`: a missing property reads as undefined. */
  function Get(d: Doc, k: string): Json {
    if k in d then d[k] else Undefined
  }

  /** `v || fallback` */
  function Or(v: Json, fallback: Json): Json {
    if Truthy(v) then v else fallback
  }

  // ---------------------------------------------------------------------
  // Numbers and their text

  /** A number as `parseInt` produces it; -0 is folded into 0 (same falsiness, same `String`). */
  datatype Number = NaN | Int(i: int)

  predicate NumberTruthy(x: Number) {
    x.Int? && x.i != 0
  }

  predicate IsDecimal(c: char) {
    '0' <= c <= '9'
  }

  function DigitChar(d: nat): (c: char)
    requires d < 10
    ensures IsDecimal(c)
  {
    ((48 + d) as char)
  }

  /** Decimal text of a natural number, most significant digit first. */
  function NatToString(n: nat): (s: string)
    ensures |s| >= 1
    ensures forall i :: 0 <= i < |s| ==> IsDecimal(s[i])
  {
    if n < 10 then [DigitChar(n)] else NatToString(n / 10) + [DigitChar(n % 10)]
  }

  /** `String(n)` for an integer below 10^21 in magnitude. */
  function IntToString(n: int): string {
    if n < 0 then "-" + NatToString(-n) else NatToString(n)
  }

  /** `String(x)` for a number produced by `parseInt`. */
  function NumberText(x: Number): string {
    match x
    case NaN => "NaN"
    case Int(i) => IntToString(i)
  }

  /** Every character of a number's text is a digit, '-', 'N' or 'a'. */
  predicate NumberChar(c: char) {
    IsDecimal(c) || c == '-' || c == 'N' || c == 'a'
  }

  lemma NumberTextChars(x: Number)
    ensures forall i :: 0 <= i < |NumberText(x)| ==> NumberChar(NumberText(x)[i])
  {
    if x.Int? && x.i < 0 {
      var s := NatToString(-x.i);
      assert NumberText(x) == "-" + s;
      forall i | 0 <= i < |NumberText(x)| ensures NumberChar(NumberText(x)[i]) {
        if i > 0 { assert NumberText(x)[i] == s[i - 1]; }
      }
    }
  }

  /** A character that is none of those never occurs in a number's text. */
  lemma NumberTextAvoids(x: Number, c: char)
    requires !NumberChar(c)
    ensures c !in NumberText(x)
  {
    NumberTextChars(x);
  }

  // ---------------------------------------------------------------------
  // parseInt

  predicate IsSpace(c: char) {
    c == ' ' || c == '\t' || c == '\n' || c == '\r' || c == '\U{000B}' || c == '\U{000C}'
  }

  function TrimStart(s: string): string {
    if |s| > 0 && IsSpace(s[0]) then TrimStart(s[1..]) else s
  }

  /** The value of `c` as a digit in base `radix` (10 or 16), if it is one. */
  function DigitValue(c: char, radix: nat): Option<nat> {
    if '0' <= c <= '9' && (c as int) - 48 < radix then Some((c as int) - 48)
    else if radix == 16 && 'a' <= c <= 'f' then Some((c as int) - 87)
    else if radix == 16 && 'A' <= c <= 'F' then Some((c as int) - 55)
    else None
  }

  /** Length of the longest prefix of `s` made of base-`radix` digits. */
  function DigitRun(s: string, radix: nat): (k: nat)
    ensures k <= |s|
  {
    if |s| > 0 && DigitValue(s[0], radix).Some? then 1 + DigitRun(s[1..], radix) else 0
  }

  /** The value of a string of base-`radix` digits, read most significant first. */
  function DigitsValue(s: string, radix: nat): nat
    requires DigitRun(s, radix) >= |s|
  {
    if |s| == 0 then 0
    else
      DigitRunPrefix(s, |s| - 1, radix);
      DigitRunAt(s, |s| - 1, radix);
      DigitsValue(s[..|s| - 1], radix) * radix + DigitValue(s[|s| - 1], radix).value
  }

  /** Every character inside the digit run is a digit. */
  lemma {:induction false} DigitRunAt(s: string, k: nat, radix: nat)
    requires k < DigitRun(s, radix)
    ensures DigitValue(s[k], radix).Some?
  {
    if k > 0 {
      DigitRunAt(s[1..], k - 1, radix);
    }
  }

  /** Every prefix of a digit run is a digit run. */
  lemma {:induction false} DigitRunPrefix(s: string, k: nat, radix: nat)
    requires k <= DigitRun(s, radix)
    ensures DigitRun(s[..k], radix) == k
  {
    if k > 0 {
      assert s[..k][1..] == s[1..][..k - 1];
      DigitRunPrefix(s[1..], k - 1, radix);
    }
  }

  /**
   * The unsigned part of `parseInt`: an optional "0x"/"0X" that switches to
   * base 16, then the longest run of digits; no digit at all gives None.
   */
  function ParseDigits(u: string): Option<nat> {
    var hex := |u| >= 2 && u[0] == '0' && (u[1] == 'x' || u[1] == 'X');
    var radix := if hex then 16 else 10;
    var digits := if hex then u[2..] else u;
    var k := DigitRun(digits, radix);
    if k == 0 then None
    else
      DigitRunPrefix(digits, k, radix);
      Some(DigitsValue(digits[..k], radix))
  }

  /** `parseInt(s)` with no radix argument: leading white space, an optional sign, then the digits. */
  function ParseInt(s: string): Number {
    var t := TrimStart(s);
    var negative := |t| > 0 && t[0] == '-';
    var u := if |t| > 0 && (t[0] == '-' || t[0] == '+') then t[1..] else t;
    match ParseDigits(u)
    case None => NaN
    case Some(v) => Int(if negative then 0 - v else v)
  }

  lemma {:induction false} DecimalRun(s: string)
    requires forall i :: 0 <= i < |s| ==> IsDecimal(s[i])
    ensures DigitRun(s, 10) == |s|
  {
    if |s| > 0 {
      DecimalRun(s[1..]);
    }
  }

  lemma {:induction false} NatToStringValue(n: nat)
    ensures DigitRun(NatToString(n), 10) == |NatToString(n)| && DigitsValue(NatToString(n), 10) == n
  {
    var s := NatToString(n);
    DecimalRun(s);
    if n >= 10 {
      var p := NatToString(n / 10);
      assert s[..|s| - 1] == p;
      NatToStringValue(n / 10);
    }
  }

  /** A run of decimal digits reads as its value. */
  lemma ParseDigitsDecimal(s: string)
    requires |s| >= 1 && forall i :: 0 <= i < |s| ==> IsDecimal(s[i])
    ensures DigitRun(s, 10) == |s|
    ensures ParseDigits(s) == Some(DigitsValue(s, 10))
  {
    DecimalRun(s);
    assert !(|s| >= 2 && s[0] == '0' && (s[1] == 'x' || s[1] == 'X'));
    assert s[..|s|] == s;
  }

  lemma ParseUnsigned(s: string)
    requires |s| >= 1 && forall i :: 0 <= i < |s| ==> IsDecimal(s[i])
    ensures DigitRun(s, 10) == |s|
    ensures ParseInt(s) == Int(DigitsValue(s, 10))
  {
    ParseDigitsDecimal(s);
    assert !IsSpace(s[0]);
    assert TrimStart(s) == s;
  }

  lemma ParseNegative(s: string)
    requires |s| >= 1 && forall i :: 0 <= i < |s| ==> IsDecimal(s[i])
    ensures DigitRun(s, 10) == |s|
    ensures ParseInt("-" + s) == Int(0 - DigitsValue(s, 10))
  {
    ParseDigitsDecimal(s);
    var t := "-" + s;
    assert !IsSpace(t[0]);
    assert TrimStart(t) == t;
    assert t[1..] == s;
  }

  /** `parseInt(String(n)) === n`: the text a key carries reads back as the same number. */
  lemma ParseIntOfNumberText(x: Number)
    ensures ParseInt(NumberText(x)) == x
  {
    match x
    case NaN =>
      assert NumberText(x)[0] == 'N';
    case Int(n) =>
      var m: nat := if n < 0 then -n else n;
      NatToStringValue(m);
      if n < 0 {
        ParseNegative(NatToString(m));
      } else {
        ParseUnsigned(NatToString(m));
      }
  }

  // ---------------------------------------------------------------------
  // split and join

  /** `s.split(sep)` for a one-character separator: never empty, no part holds `sep`. */
  function Split(s: string, sep: char): (parts: seq<string>)
    ensures |parts| >= 1
    ensures forall i :: 0 <= i < |parts| ==> sep !in parts[i]
  {
    if s == [] then [""]
    else
      var rest := Split(s[1..], sep);
      if s[0] == sep then [""] + rest else [[s[0]] + rest[0]] + rest[1..]
  }

  /** `parts.join(sep)` */
  function Join(parts: seq<string>, sep: char): string {
    if |parts| == 0 then ""
    else if |parts| == 1 then parts[0]
    else parts[0] + [sep] + Join(parts[1..], sep)
  }

  /** The first position of `c` in `s`, None when it does not occur. */
  function IndexOf(s: string, c: char): (r: Option<nat>)
    ensures r.None? ==> c !in s
    ensures r.Some? ==> r.value < |s| && s[r.value] == c && c !in s[..r.value]
  {
    if s == [] then None
    else if s[0] == c then Some(0)
    else
      match IndexOf(s[1..], c)
      case None => None
      case Some(i) => assert s[..i + 1] == [s[0]] + s[1..][..i]; Some(i + 1)
  }

  /** Splitting cuts at the first separator and splits the rest again. */
  lemma {:induction false} SplitAtFirst(s: string, sep: char)
    ensures IndexOf(s, sep).None? ==> Split(s, sep) == [s]
    ensures IndexOf(s, sep).Some? ==>
      var i := IndexOf(s, sep).value;
      Split(s, sep) == [s[..i]] + Split(s[i + 1..], sep)
  {
    if s != [] && s[0] != sep {
      SplitAtFirst(s[1..], sep);
      match IndexOf(s[1..], sep)
      case None =>
        assert [s[0]] + s[1..] == s;
      case Some(i) =>
        assert s[..i + 1] == [s[0]] + s[1..][..i];
        assert s[i + 2..] == s[1..][i + 1..];
    }
  }

  /** Text without the separator is a single part. */
  lemma SplitSingle(s: string, sep: char)
    requires sep !in s
    ensures Split(s, sep) == [s]
  {
    SplitAtFirst(s, sep);
  }

  /** A separator between two texts splits them apart. */
  lemma {:induction false} SplitConcat(x: string, y: string, sep: char)
    ensures Split(x + [sep] + y, sep) == Split(x, sep) + Split(y, sep)
  {
    if x == [] {
      assert x + [sep] + y == [sep] + y;
      assert ([sep] + y)[1..] == y;
    } else {
      assert (x + [sep] + y)[1..] == x[1..] + [sep] + y;
      SplitConcat(x[1..], y, sep);
    }
  }

  /** Appending a separator and a part free of it adds that part. */
  lemma SplitStep(front: string, parts: seq<string>, x: string, sep: char)
    requires Split(front, sep) == parts
    requires sep !in x
    ensures Split(front + [sep] + x, sep) == parts + [x]
  {
    SplitConcat(front, x, sep);
    SplitSingle(x, sep);
  }

  /** A prefix free of the separator merges into the first part. */
  lemma {:induction false} SplitPrefix(x: string, tail: string, sep: char)
    requires sep !in x
    ensures Split(x + tail, sep) == [x + Split(tail, sep)[0]] + Split(tail, sep)[1..]
  {
    if x == [] {
      assert x + tail == tail;
      var parts := Split(tail, sep);
      assert x + parts[0] == parts[0];
      assert [parts[0]] + parts[1..] == parts;
    } else {
      assert (x + tail)[1..] == x[1..] + tail;
      SplitPrefix(x[1..], tail, sep);
      assert [x[0]] + (x[1..] + Split(tail, sep)[0]) == x + Split(tail, sep)[0];
    }
  }

  /** Joining parts that do not hold the separator and splitting again gives the parts back. */
  lemma {:induction false} SplitJoin(parts: seq<string>, sep: char)
    requires |parts| >= 1
    requires forall i :: 0 <= i < |parts| ==> sep !in parts[i]
    ensures Split(Join(parts, sep), sep) == parts
  {
    if |parts| == 1 {
      SplitPrefix(parts[0], "", sep);
      assert parts[0] + "" == parts[0];
    } else {
      var rest := Join(parts[1..], sep);
      SplitJoin(parts[1..], sep);
      assert ([sep] + rest)[1..] == rest;
      assert Split([sep] + rest, sep) == [""] + parts[1..];
      assert Join(parts, sep) == parts[0] + ([sep] + rest);
      SplitPrefix(parts[0], [sep] + rest, sep);
      assert parts[0] + "" == parts[0];
      assert [parts[0]] + parts[1..] == parts;
    }
  }

  lemma {:induction false} JoinCons(a: string, parts: seq<string>, sep: char)
    requires |parts| >= 1
    ensures Join([a + parts[0]] + parts[1..], sep) == a + Join(parts, sep)
  {
    var q := [a + parts[0]] + parts[1..];
    if |parts| > 1 {
      assert q[1..] == parts[1..];
    }
  }

  /** Splitting and joining again gives the text back. */
  lemma {:induction false} JoinSplit(s: string, sep: char)
    ensures Join(Split(s, sep), sep) == s
  {
    if s != [] {
      var rest := Split(s[1..], sep);
      JoinSplit(s[1..], sep);
      if s[0] == sep {
        assert ([""] + rest)[1..] == rest;
        assert Join([""] + rest, sep) == "" + [sep] + Join(rest, sep);
        assert s == [s[0]] + s[1..];
      } else {
        JoinCons([s[0]], rest, sep);
        assert s == [s[0]] + s[1..];
      }
    }
  }

  /** Joining one more part adds the separator and that part. */
  lemma {:induction false} JoinSnoc(parts: seq<string>, x: string, sep: char)
    requires |parts| >= 1
    ensures Join(parts + [x], sep) == Join(parts, sep) + [sep] + x
  {
    if |parts| == 1 {
      assert (parts + [x])[1..] == [x];
    } else {
      assert (parts + [x])[1..] == parts[1..] + [x];
      JoinSnoc(parts[1..], x, sep);
    }
  }

  // ---------------------------------------------------------------------
  // String(v) and replace

  /** `String(v)`: what concatenating a value into text produces. */
  function ToText(v: Json): string
    decreases v, 1
  {
    match v
    case Undefined => "undefined"
    case Null => "null"
    case Bool(b) => if b then "true" else "false"
    case Num(n) => IntToString(n)
    case Str(s) => s
    case Arr(items) => Join(seq(|items|, i requires 0 <= i < |items| => ItemText(items[i])), ',')
    case Obj(_) => "[object Object]"
  }

  /** An array element as `Array.prototype.join` writes it: null and undefined are empty. */
  function ItemText(v: Json): string
    decreases v, 2
  {
    if v.Undefined? || v.Null? then "" else ToText(v)
  }

  predicate OccursAt(s: string, pat: string, i: nat) {
    i + |pat| <= |s| && s[i..i + |pat|] == pat
  }

  /** The first position at which `pat` occurs in `s` at or after `from`. */
  function Find(s: string, pat: string, from: nat): (r: Option<nat>)
    ensures r.Some? ==> from <= r.value && OccursAt(s, pat, r.value)
    ensures forall j :: from <= j && (r.None? || j < r.value) ==> !OccursAt(s, pat, j)
    decreases |s| + 1 - from
  {
    if from + |pat| > |s| then None
    else if OccursAt(s, pat, from) then Some(from)
    else Find(s, pat, from + 1)
  }

  /**
   * `s.replace(pat, rep)` with a string pattern: only the first occurrence is
   * replaced and the rest of the text is kept as it was.
   */
  function ReplaceFirst(s: string, pat: string, rep: string): (r: string)
    ensures (forall j: nat :: !OccursAt(s, pat, j)) ==> r == s
    ensures forall i: nat :: OccursAt(s, pat, i) && (forall j: nat :: j < i ==> !OccursAt(s, pat, j)) ==>
      r == s[..i] + rep + s[i + |pat|..]
  {
    match Find(s, pat, 0)
    case None => s
    case Some(i) => s[..i] + rep + s[i + |pat|..]
  }
}
