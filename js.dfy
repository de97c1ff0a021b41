/**
 * The few JavaScript runtime notions the handler's decisions depend on:
 * values and their truthiness, the `||` operator, `String.prototype.trim`,
 * `String.prototype.length` (UTF-16 code units), `Array.prototype.join`,
 * decimal rendering of a count inside a template string, and error objects.
 */
module Js {
  import opened Wrappers

  /** A JavaScript value as the handler can observe it. Arrays and objects are
      `Composite`: only their identity is modelled, not their contents. */
  datatype JsValue =
    | Undefined
    | Null
    | Bool(b: bool)
    | Num(n: real)
    | Str(s: string)
    | Composite(id: nat)

  /** ToBoolean: what `if (v)`, `v || w` and `filter(Boolean)` test. NaN is not modelled. */
  predicate Truthy(v: JsValue) {
    match v
    case Undefined => false
    case Null => false
    case Bool(b) => b
    case Num(n) => n != 0.0
    case Str(s) => s != ""
    case Composite(_) => true
  }

  /** Index of the operand that `vs[0] || vs[1] || ... || vs[n-1]` evaluates to:
      the first truthy operand, or the last operand when none before it is truthy. */
  function OrIndex(vs: seq<JsValue>): (k: nat)
    requires |vs| > 0
    ensures k < |vs|
    ensures forall j :: 0 <= j < k ==> !Truthy(vs[j])
    ensures k < |vs| - 1 ==> Truthy(vs[k])
  {
    if |vs| == 1 || Truthy(vs[0]) then 0 else 1 + OrIndex(vs[1..])
  }

  /** The value of `vs[0] || vs[1] || ... || vs[n-1]`. */
  function Or(vs: seq<JsValue>): JsValue
    requires |vs| > 0
  {
    vs[OrIndex(vs)]
  }

  /** A thrown error object: the properties the handler's catch blocks read
      (`err.response.data`, `err.data`, `err.message`) and the object itself,
      which is `Composite(identity)`. An absent property is `Undefined`. */
  datatype ErrorObject = ErrorObject(responseData: JsValue, data: JsValue, message: JsValue, identity: nat)

  /** An environment variable interpolated into a template string: an unset
      variable is rendered as the text "undefined". */
  function EnvText(v: Option<string>): string {
    match v
    case None => "undefined"
    case Some(s) => s
  }

  /** `process.env.X || ''`: an unset variable reads as the empty string. */
  function OrEmpty(v: Option<string>): string {
    match v
    case None => ""
    case Some(s) => s
  }

  /** The characters `String.prototype.trim` removes: WhiteSpace (tab, vertical
      tab, form feed, zero-width no-break space and the Zs space separators) and
      LineTerminator (line feed, carriage return, U+2028, U+2029). */
  predicate IsWhiteSpace(c: char) {
    var n := c as int;
    n == 0x09 || n == 0x0A || n == 0x0B || n == 0x0C || n == 0x0D || n == 0x20 ||
    n == 0xA0 || n == 0x1680 || (0x2000 <= n <= 0x200A) || n == 0x2028 || n == 0x2029 ||
    n == 0x202F || n == 0x205F || n == 0x3000 || n == 0xFEFF
  }

  /** Number of white-space characters at the start of `s`. */
  function LeadingWhiteSpace(s: string): (k: nat)
    ensures k <= |s|
    ensures forall i :: 0 <= i < k ==> IsWhiteSpace(s[i])
    ensures k < |s| ==> !IsWhiteSpace(s[k])
  {
    if s == [] || !IsWhiteSpace(s[0]) then 0 else 1 + LeadingWhiteSpace(s[1..])
  }

  /** Index at which the white space that ends `s` begins. */
  function TrailingWhiteSpaceStart(s: string): (e: nat)
    ensures e <= |s|
    ensures forall i :: e <= i < |s| ==> IsWhiteSpace(s[i])
    ensures e > 0 ==> !IsWhiteSpace(s[e - 1])
  {
    if s == [] || !IsWhiteSpace(s[|s| - 1]) then |s| else TrailingWhiteSpaceStart(s[..|s| - 1])
  }

  /** `s.trim()`: `s` without its leading and trailing white space. */
  function Trim(s: string): string {
    var rest := s[LeadingWhiteSpace(s)..];
    rest[..TrailingWhiteSpaceStart(rest)]
  }

  /** Trimming removes a white-space prefix and a white-space suffix, and
      what remains neither starts nor ends with white space. */
  lemma TrimShape(s: string)
    ensures var t := Trim(s);
      && (t == [] || (!IsWhiteSpace(t[0]) && !IsWhiteSpace(t[|t| - 1])))
      && exists b, e ::
        && 0 <= b <= e <= |s| && t == s[b..e]
        && (forall i :: 0 <= i < b ==> IsWhiteSpace(s[i]))
        && (forall i :: e <= i < |s| ==> IsWhiteSpace(s[i]))
  {
    var b := LeadingWhiteSpace(s);
    var rest := s[b..];
    var e := TrailingWhiteSpaceStart(rest);
    assert forall i :: b + e <= i < |s| ==> s[i] == rest[i - b];
    assert Trim(s) == s[b..b + e];
  }

  /** Trimming leaves nothing exactly when every character is white space. */
  lemma TrimEmptyIff(s: string)
    ensures Trim(s) == [] <==> forall i :: 0 <= i < |s| ==> IsWhiteSpace(s[i])
  {
  }

  /** UTF-16 code units of one character: two for a character outside the Basic
      Multilingual Plane (a surrogate pair), one otherwise. */
  function CodeUnits(c: char): nat {
    if c as int > 0xFFFF then 2 else 1
  }

  /** `s.length` in JavaScript: the number of UTF-16 code units of `s`. */
  function Utf16Length(s: string): (n: nat)
    ensures |s| <= n <= 2 * |s|
  {
    if s == [] then 0 else CodeUnits(s[0]) + Utf16Length(s[1..])
  }

  /** For text inside the Basic Multilingual Plane (Hangul, ASCII) the
      JavaScript length is the number of characters. */
  lemma {:induction false} Utf16LengthBmp(s: string)
    requires forall i :: 0 <= i < |s| ==> s[i] as int <= 0xFFFF
    ensures Utf16Length(s) == |s|
  {
    if s != [] {
      assert forall i :: 0 <= i < |s[1..]| ==> s[1..][i] == s[i + 1];
      Utf16LengthBmp(s[1..]);
    }
  }

  /** The JavaScript length of a concatenation is the sum of the lengths. */
  lemma {:induction false} Utf16LengthAppend(a: string, b: string)
    ensures Utf16Length(a + b) == Utf16Length(a) + Utf16Length(b)
  {
    if a == [] {
      assert a + b == b;
    } else {
      assert (a + b)[0] == a[0] && (a + b)[1..] == a[1..] + b;
      Utf16LengthAppend(a[1..], b);
    }
  }

  /** `\d` in a regular expression without the `u` flag: an ASCII digit. */
  predicate IsDigit(c: char) {
    '0' <= c <= '9'
  }

  function DigitChar(d: nat): (c: char)
    requires d < 10
    ensures IsDigit(c)
  {
    ('0' as int + d) as char
  }

  /** The decimal text that `${n}` produces for a non-negative integer `n`:
      digits only, with no leading zero. */
  function DecimalString(n: nat): (s: string)
    ensures |s| >= 1
    ensures forall i :: 0 <= i < |s| ==> IsDigit(s[i])
    ensures |s| > 1 ==> s[0] != '0'
  {
    if n < 10 then [DigitChar(n)] else DecimalString(n / 10) + [DigitChar(n % 10)]
  }

  /** The number a string of decimal digits denotes (a non-digit counts as 0). */
  function DecimalValue(s: string): nat {
    if s == [] then 0
    else
      var c := s[|s| - 1];
      10 * DecimalValue(s[..|s| - 1]) + (if IsDigit(c) then c as int - '0' as int else 0)
  }

  /** Reading back the rendered decimal gives the number. */
  lemma {:induction false} DecimalRoundTrip(n: nat)
    ensures DecimalValue(DecimalString(n)) == n
  {
    if n >= 10 {
      var s := DecimalString(n);
      assert s[..|s| - 1] == DecimalString(n / 10);
      DecimalRoundTrip(n / 10);
    }
  }

  /** `parts.join(sep)`. */
  function Join(parts: seq<string>, sep: string): string {
    if parts == [] then ""
    else if |parts| == 1 then parts[0]
    else parts[0] + sep + Join(parts[1..], sep)
  }

  /** Cutting `s` at every occurrence of `c` (the inverse of joining with `[c]`). */
  function Split(s: string, c: char): (parts: seq<string>)
    ensures |parts| >= 1
  {
    if s == [] then [""]
    else if s[0] == c then [""] + Split(s[1..], c)
    else
      var rest := Split(s[1..], c);
      [[s[0]] + rest[0]] + rest[1..]
  }

  lemma {:induction false} SplitNoSeparator(a: string, c: char)
    requires c !in a
    ensures Split(a, c) == [a]
  {
    if a != [] {
      assert a[0] in a && forall x :: x in a[1..] ==> x in a;
      SplitNoSeparator(a[1..], c);
      assert [a[0]] + a[1..] == a;
    }
  }

  lemma {:induction false} SplitAtFirst(a: string, c: char, b: string)
    requires c !in a
    ensures Split(a + [c] + b, c) == [a] + Split(b, c)
  {
    if a == [] {
      assert a + [c] + b == [c] + b;
      assert ([c] + b)[1..] == b;
    } else {
      assert a[0] in a && forall x :: x in a[1..] ==> x in a;
      assert (a + [c] + b)[0] == a[0] && (a + [c] + b)[1..] == a[1..] + [c] + b;
      SplitAtFirst(a[1..], c, b);
      assert [a[0]] + a[1..] == a;
    }
  }

  /** Splitting a join at the separator gives the parts back, provided no part
      contains the separator. */
  lemma {:induction false} SplitJoin(parts: seq<string>, c: char)
    requires |parts| >= 1
    requires forall i :: 0 <= i < |parts| ==> c !in parts[i]
    ensures Split(Join(parts, [c]), c) == parts
  {
    if |parts| == 1 {
      SplitNoSeparator(parts[0], c);
    } else {
      SplitJoin(parts[1..], c);
      SplitAtFirst(parts[0], c, Join(parts[1..], [c]));
      assert [parts[0]] + parts[1..] == parts;
    }
  }
}
