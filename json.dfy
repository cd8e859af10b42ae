/** JSON values as the Flask backend and the React client see them, with the two
    languages' notions of truthiness and the string operations both sides use. */
module Json {

  /** A JSON value; Undefined is what a JavaScript property lookup yields for a
      key the object does not have (it never occurs inside a JSON document). */
  datatype Value =
    | Null
    | Undefined
    | Bool(b: bool)
    | Int(n: int)
    | Str(s: string)
    | List(elems: seq<Value>)
    | Object(fields: map<string, Value>)

  datatype Option<T> = None | Some(value: T)

  // ---------------------------------------------------------------------------
  // Truthiness and lookups

  /** Python's `bool(v)`: None, False, 0, '' and empty containers are false. */
  predicate PyTruthy(v: Value) {
    match v
    case Null => false
    case Undefined => false
    case Bool(b) => b
    case Int(n) => n != 0
    case Str(s) => s != ""
    case List(elems) => |elems| > 0
    case Object(fields) => |fields| > 0
  }

  /** JavaScript's `Boolean(v)`: arrays and objects are truthy even when empty. */
  predicate JsTruthy(v: Value) {
    match v
    case Null => false
    case Undefined => false
    case Bool(b) => b
    case Int(n) => n != 0
    case Str(s) => s != ""
    case List(_) => true
    case Object(_) => true
  }

  /** Python's `v in [None, '']`, the backend's test for a missing field. */
  predicate PyBlank(v: Value) {
    v == Null || v == Str("")
  }

  /** Python's `d.get(k)`: None when the key is absent. */
  function Get(d: map<string, Value>, k: string): (r: Value)
    ensures k !in d ==> r == Null
    ensures k in d ==> r == d[k]
  {
    if k in d then d[k] else Null
  }

  /** JavaScript's `v?.k` for the record keys this program reads: a property of
      an object, and undefined for anything else. */
  function Prop(v: Value, k: string): (r: Value)
    ensures v.Object? && k in v.fields ==> r == v.fields[k]
    ensures !(v.Object? && k in v.fields) ==> r == Undefined
  {
    if v.Object? && k in v.fields then v.fields[k] else Undefined
  }

  /** JavaScript's `a || b`: truthy iff either operand is, and then the first
      truthy one; a falsy result is `b`. */
  function JsOr(a: Value, b: Value): (r: Value)
    ensures JsTruthy(r) <==> JsTruthy(a) || JsTruthy(b)
    ensures JsTruthy(r) ==> r == (if JsTruthy(a) then a else b)
    ensures !JsTruthy(r) ==> r == b
  {
    if JsTruthy(a) then a else b
  }

  // ---------------------------------------------------------------------------
  // Characters and case

  predicate IsUpperAscii(c: char) { 'A' <= c <= 'Z' }

  /** ASCII lower-casing of one character; every other character is kept. */
  function LowerChar(c: char): char {
    if IsUpperAscii(c) then (c as int + 32) as char else c
  }

  /** `s.toLowerCase()` / `s.lower()` restricted to ASCII letters. */
  function Lower(s: string): (r: string)
    ensures |r| == |s|
  {
    seq(|s|, i requires 0 <= i < |s| => LowerChar(s[i]))
  }

  /** Lower-casing twice is lower-casing once, and no upper-case letter survives. */
  lemma LowerIdempotent(s: string)
    ensures Lower(Lower(s)) == Lower(s)
    ensures forall i :: 0 <= i < |s| ==> !IsUpperAscii(Lower(s)[i])
  {
  }

  /** The characters Python's `str.isspace()` accepts. */
  predicate IsPySpace(c: char) {
    || ('\t' <= c <= '\r') || ('\U{1C}' <= c <= '\U{1F}') || c == ' '
    || c == '\U{85}' || c == '\U{A0}' || c == '\U{1680}'
    || ('\U{2000}' <= c <= '\U{200A}') || c == '\U{2028}' || c == '\U{2029}'
    || c == '\U{202F}' || c == '\U{205F}' || c == '\U{3000}'
  }

  function StripLeading(s: string): (r: string)
    decreases |s|
  {
    if |s| > 0 && IsPySpace(s[0]) then StripLeading(s[1..]) else s
  }

  function StripTrailing(s: string): (r: string)
    decreases |s|
  {
    if |s| > 0 && IsPySpace(s[|s| - 1]) then StripTrailing(s[..|s| - 1]) else s
  }

  /** Python's `s.strip()` with no argument. */
  function Strip(s: string): string {
    StripTrailing(StripLeading(s))
  }

  /** What strip promises: the result is a slice `s[i..j]` whose ends are not
      white space, and everything cut away is white space. */
  lemma {:induction false} StripSpec(s: string)
    ensures exists i, j :: (0 <= i <= j <= |s| && Strip(s) == s[i..j]
                            && (forall k :: 0 <= k < i ==> IsPySpace(s[k]))
                            && (forall k :: j <= k < |s| ==> IsPySpace(s[k])))
    ensures Strip(s) != [] ==> !IsPySpace(Strip(s)[0]) && !IsPySpace(Strip(s)[|Strip(s)| - 1])
  {
    var i := StripLeadingSpec(s);
    var t := s[i..];
    var j := StripTrailingSpec(t);
    assert Strip(s) == s[i..i + j];
    forall k | i + j <= k < |s| ensures IsPySpace(s[k]) {
      assert s[k] == t[k - i];
    }
  }

  lemma {:induction false} StripLeadingSpec(s: string) returns (i: nat)
    ensures i <= |s| && StripLeading(s) == s[i..]
    ensures forall k :: 0 <= k < i ==> IsPySpace(s[k])
    ensures i < |s| ==> !IsPySpace(s[i])
    decreases |s|
  {
    if |s| > 0 && IsPySpace(s[0]) {
      var i' := StripLeadingSpec(s[1..]);
      i := i' + 1;
      assert s[1..][i'..] == s[i..];
      forall k | 0 < k < i ensures IsPySpace(s[k]) {
        assert s[k] == s[1..][k - 1];
      }
    } else {
      i := 0;
    }
  }

  lemma {:induction false} StripTrailingSpec(s: string) returns (j: nat)
    ensures j <= |s| && StripTrailing(s) == s[..j]
    ensures forall k :: j <= k < |s| ==> IsPySpace(s[k])
    ensures j > 0 ==> !IsPySpace(s[j - 1])
    decreases |s|
  {
    if |s| > 0 && IsPySpace(s[|s| - 1]) {
      var p := s[..|s| - 1];
      j := StripTrailingSpec(p);
      assert p[..j] == s[..j];
      forall k | j <= k < |s| ensures IsPySpace(s[k]) {
        if k < |s| - 1 { assert s[k] == p[k]; }
      }
    } else {
      j := |s|;
      assert s[..j] == s;
    }
  }

  /** Leading white space never survives strip's left half. */
  lemma {:induction false} StripLeadingSpaces(pre: string, x: string)
    requires forall k :: 0 <= k < |pre| ==> IsPySpace(pre[k])
    ensures StripLeading(pre + x) == StripLeading(x)
    decreases |pre|
  {
    if |pre| > 0 {
      assert (pre + x)[0] == pre[0];
      assert (pre + x)[1..] == pre[1..] + x;
      StripLeadingSpaces(pre[1..], x);
    } else {
      assert pre + x == x;
    }
  }

  /** Stripping the left of a concatenation: when `s` is all white space the
      strip continues into `t`, otherwise `t` is kept whole. */
  lemma {:induction false} StripLeadingAppend(s: string, t: string)
    ensures StripLeading(s + t) == (if StripLeading(s) == "" then StripLeading(t) else StripLeading(s) + t)
    decreases |s|
  {
    if |s| == 0 {
      assert s + t == t;
    } else if IsPySpace(s[0]) {
      assert (s + t)[1..] == s[1..] + t;
      StripLeadingAppend(s[1..], t);
    }
  }

  /** Trailing white space never survives strip's right half. */
  lemma {:induction false} StripTrailingSpaces(x: string, post: string)
    requires forall k :: 0 <= k < |post| ==> IsPySpace(post[k])
    ensures StripTrailing(x + post) == StripTrailing(x)
    decreases |post|
  {
    if |post| > 0 {
      var p := post[..|post| - 1];
      assert (x + post)[..|x + post| - 1] == x + p;
      StripTrailingSpaces(x, p);
    } else {
      assert x + post == x;
    }
  }

  /** White space around a text does not change what strip returns. */
  lemma StripIgnoresSurroundingSpace(pre: string, s: string, post: string)
    requires forall k :: 0 <= k < |pre| ==> IsPySpace(pre[k])
    requires forall k :: 0 <= k < |post| ==> IsPySpace(post[k])
    ensures Strip(pre + s + post) == Strip(s)
  {
    assert pre + s + post == pre + (s + post);
    StripLeadingSpaces(pre, s + post);
    StripLeadingAppend(s, post);
    if StripLeading(s) == "" {
      StripLeadingSpaces(post, "");
      assert post + "" == post;
    } else {
      StripTrailingSpaces(StripLeading(s), post);
    }
  }

  /** Lower-casing neither creates nor removes white space. */
  lemma LowerCharSpace(c: char)
    ensures IsPySpace(LowerChar(c)) == IsPySpace(c)
  {
  }

  lemma {:induction false} StripLeadingLower(s: string)
    ensures StripLeading(Lower(s)) == Lower(StripLeading(s))
    decreases |s|
  {
    if |s| > 0 {
      LowerCharSpace(s[0]);
      assert Lower(s)[1..] == Lower(s[1..]);
      StripLeadingLower(s[1..]);
    }
  }

  lemma {:induction false} StripTrailingLower(s: string)
    ensures StripTrailing(Lower(s)) == Lower(StripTrailing(s))
    decreases |s|
  {
    if |s| > 0 {
      LowerCharSpace(s[|s| - 1]);
      assert Lower(s)[..|s| - 1] == Lower(s[..|s| - 1]);
      StripTrailingLower(s[..|s| - 1]);
    }
  }

  /** Strip and lower-case commute. */
  lemma StripLower(s: string)
    ensures Strip(Lower(s)) == Lower(Strip(s))
  {
    StripLeadingLower(s);
    StripTrailingLower(StripLeading(s));
  }

  // ---------------------------------------------------------------------------
  // Substrings and joining

  /** `needle` occurs in `hay` starting at position `i`. */
  predicate OccursAt(hay: string, needle: string, i: int) {
    0 <= i <= |hay| - |needle| && hay[i..i + |needle|] == needle
  }

  /** JavaScript's `hay.includes(needle)`. */
  predicate Contains(hay: string, needle: string) {
    exists i :: 0 <= i <= |hay| && OccursAt(hay, needle, i)
  }

  /** `sep.join(parts)` in Python, `parts.join(sep)` in JavaScript. */
  function Join(parts: seq<string>, sep: string): string {
    if |parts| == 0 then ""
    else if |parts| == 1 then parts[0]
    else parts[0] + sep + Join(parts[1..], sep)
  }

  // ---------------------------------------------------------------------------
  // Decimal numbers

  function DigitChar(d: nat): char
    requires d < 10
  {
    ('0' as int + d) as char
  }

  function NatToString(n: nat): (r: string)
    decreases n
  {
    if n < 10 then [DigitChar(n)] else NatToString(n / 10) + [DigitChar(n % 10)]
  }

  /** The decimal text of an integer, as `String(n)` and `str(n)` print it. */
  function IntToString(n: int): string {
    if n < 0 then "-" + NatToString(-n) else NatToString(n)
  }

  predicate IsDigit(c: char) { '0' <= c <= '9' }

  function DigitValue(c: char): nat
    requires IsDigit(c)
  {
    c as int - '0' as int
  }

  /** Reads back a string of decimal digits. */
  function ParseNat(s: string): nat
    requires forall k :: 0 <= k < |s| ==> IsDigit(s[k])
    decreases |s|
  {
    if |s| == 0 then 0 else 10 * ParseNat(s[..|s| - 1]) + DigitValue(s[|s| - 1])
  }

  /** NatToString writes only digits, without a leading zero, and reading them
      back gives the number. */
  lemma {:induction false} NatToStringRoundTrip(n: nat)
    ensures |NatToString(n)| > 0
    ensures forall k :: 0 <= k < |NatToString(n)| ==> IsDigit(NatToString(n)[k])
    ensures NatToString(n)[0] == '0' ==> n == 0
    ensures ParseNat(NatToString(n)) == n
    decreases n
  {
    if n >= 10 {
      NatToStringRoundTrip(n / 10);
      var r := NatToString(n);
      assert r[..|r| - 1] == NatToString(n / 10);
    }
  }

  // ---------------------------------------------------------------------------
  // JavaScript String(v)

  /** JavaScript's `String(v)`: arrays print their elements joined by commas,
      with null and undefined elements printed as empty. */
  function JsString(v: Value): string
    decreases v
  {
    match v
    case Null => "null"
    case Undefined => "undefined"
    case Bool(b) => if b then "true" else "false"
    case Int(n) => IntToString(n)
    case Str(s) => s
    case List(elems) =>
      Join(seq(|elems|, i requires 0 <= i < |elems| =>
        if elems[i].Null? || elems[i].Undefined? then "" else JsString(elems[i])), ",")
    case Object(_) => "[object Object]"
  }

  // ---------------------------------------------------------------------------
  // encodeURIComponent

  /** The characters encodeURIComponent leaves as they are. */
  predicate IsUriUnreserved(c: char) {
    ('A' <= c <= 'Z') || ('a' <= c <= 'z') || ('0' <= c <= '9')
    || c == '-' || c == '_' || c == '.' || c == '!' || c == '~'
    || c == '*' || c == '\'' || c == '(' || c == ')'
  }

  predicate IsUpperHexDigit(c: char) { ('0' <= c <= '9') || ('A' <= c <= 'F') }

  function HexDigit(d: nat): (c: char)
    requires d < 16
    ensures IsUpperHexDigit(c)
  {
    if d < 10 then ('0' as int + d) as char else ('A' as int + d - 10) as char
  }

  /** `%XX` for one byte, with upper-case hexadecimal digits. */
  function PercentByte(b: nat): (r: string)
    requires b < 256
    ensures |r| == 3 && r[0] == '%' && IsUpperHexDigit(r[1]) && IsUpperHexDigit(r[2])
  {
    ['%', HexDigit(b / 16), HexDigit(b % 16)]
  }

  /** The UTF-8 encoding of one Unicode scalar value. */
  function Utf8(c: char): (bytes: seq<nat>)
    ensures 1 <= |bytes| <= 4
    ensures forall k :: 0 <= k < |bytes| ==> bytes[k] < 256
  {
    var cp := c as int;
    if cp < 0x80 then [cp]
    else if cp < 0x800 then [0xC0 + cp / 0x40, 0x80 + cp % 0x40]
    else if cp < 0x10000 then [0xE0 + cp / 0x1000, 0x80 + (cp / 0x40) % 0x40, 0x80 + cp % 0x40]
    else [0xF0 + cp / 0x40000, 0x80 + (cp / 0x1000) % 0x40, 0x80 + (cp / 0x40) % 0x40, 0x80 + cp % 0x40]
  }

  function PercentBytes(bytes: seq<nat>): (r: string)
    requires forall k :: 0 <= k < |bytes| ==> bytes[k] < 256
    ensures |r| == 3 * |bytes|
  {
    if |bytes| == 0 then "" else PercentByte(bytes[0]) + PercentBytes(bytes[1..])
  }

  function EncodeChar(c: char): string {
    if IsUriUnreserved(c) then [c] else PercentBytes(Utf8(c))
  }

  /** JavaScript's `encodeURIComponent(s)`. */
  function EncodeUriComponent(s: string): string {
    if |s| == 0 then "" else EncodeChar(s[0]) + EncodeUriComponent(s[1..])
  }

  /** The characters an encoded component can contain. */
  predicate IsEncodedChar(c: char) {
    IsUriUnreserved(c) || c == '%' || IsUpperHexDigit(c)
  }

  lemma {:induction false} PercentBytesAlphabet(bytes: seq<nat>)
    requires forall k :: 0 <= k < |bytes| ==> bytes[k] < 256
    ensures forall k :: 0 <= k < |PercentBytes(bytes)| ==> IsEncodedChar(PercentBytes(bytes)[k])
  {
    if |bytes| > 0 {
      PercentBytesAlphabet(bytes[1..]);
      var head, tail := PercentByte(bytes[0]), PercentBytes(bytes[1..]);
      assert PercentBytes(bytes) == head + tail;
      forall k | 0 <= k < |head + tail| ensures IsEncodedChar((head + tail)[k]) {
        if k >= 3 { assert (head + tail)[k] == tail[k - 3]; }
      }
    }
  }

  /** Every character of an encoded component is unreserved, a percent sign or
      a hexadecimal digit; in particular it never holds a `/`, so it stays one
      path segment. */
  lemma {:induction false} EncodeUriComponentAlphabet(s: string)
    ensures forall k :: 0 <= k < |EncodeUriComponent(s)| ==> IsEncodedChar(EncodeUriComponent(s)[k])
    ensures forall k :: 0 <= k < |EncodeUriComponent(s)| ==> EncodeUriComponent(s)[k] != '/'
  {
    if |s| > 0 {
      EncodeUriComponentAlphabet(s[1..]);
      var head, tail := EncodeChar(s[0]), EncodeUriComponent(s[1..]);
      if !IsUriUnreserved(s[0]) { PercentBytesAlphabet(Utf8(s[0])); }
      assert EncodeUriComponent(s) == head + tail;
      forall k | 0 <= k < |head + tail| ensures IsEncodedChar((head + tail)[k]) {
        if k >= |head| { assert (head + tail)[k] == tail[k - |head|]; }
      }
    }
  }

  /** A string made of unreserved characters is encoded as itself. */
  lemma {:induction false} EncodeUriComponentUnreserved(s: string)
    requires forall k :: 0 <= k < |s| ==> IsUriUnreserved(s[k])
    ensures EncodeUriComponent(s) == s
  {
    if |s| > 0 {
      EncodeUriComponentUnreserved(s[1..]);
      assert s == [s[0]] + s[1..];
    }
  }
}
