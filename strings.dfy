// Text helpers with the JavaScript semantics the sources rely on:
// ASCII case folding for toLowerCase, substring search for includes,
// the ECMAScript white-space set for trim, and split on one character.

module Strings {

  /** Names every plain object inherits from `Object.prototype`. */
  const ObjectPrototypeNames: set<string> := {
    "constructor", "hasOwnProperty", "isPrototypeOf", "propertyIsEnumerable",
    "toString", "toLocaleString", "valueOf", "__proto__", "__defineGetter__",
    "__defineSetter__", "__lookupGetter__", "__lookupSetter__"}

  /** ASCII lower-casing of one character (other characters are unchanged). */
  function LowerChar(c: char): (r: char)
    ensures 'A' <= c <= 'Z' ==> r as int == c as int + 32
    ensures !('A' <= c <= 'Z') ==> r == c
  {
    if 'A' <= c <= 'Z' then (c as int + 32) as char else c
  }

  /** ASCII upper-casing of one character (other characters are unchanged). */
  function UpperChar(c: char): (r: char)
    ensures 'a' <= c <= 'z' ==> r as int == c as int - 32
    ensures !('a' <= c <= 'z') ==> r == c
  {
    if 'a' <= c <= 'z' then (c as int - 32) as char else c
  }

  function ToLower(s: string): (r: string)
    ensures |r| == |s|
    ensures forall i :: 0 <= i < |s| ==> r[i] == LowerChar(s[i])
  {
    if s == [] then [] else [LowerChar(s[0])] + ToLower(s[1..])
  }

  lemma ToLowerAppend(a: string, b: string)
    ensures ToLower(a + b) == ToLower(a) + ToLower(b)
  {
    var l, x, y := ToLower(a + b), ToLower(a), ToLower(b);
    forall i | 0 <= i < |l|
      ensures l[i] == (x + y)[i]
    {
      if i < |a| {
        assert (a + b)[i] == a[i] && (x + y)[i] == x[i];
      } else {
        assert (a + b)[i] == b[i - |a|] && (x + y)[i] == y[i - |a|];
      }
    }
    assert l == x + y;
  }

  /** `JavaScript's startsWith`: prefix test. */
  predicate StartsWith(s: string, p: string) {
    |p| <= |s| && s[..|p|] == p
  }

  /** `JavaScript's includes` on strings: `t` occurs in `s` at some position. */
  predicate Contains(s: string, t: string) {
    exists i | 0 <= i <= |s| - |t| :: t <= s[i..]
  }

  /** Case-insensitive substring test: `s.toLowerCase().includes(t.toLowerCase())`. */
  predicate ContainsCI(s: string, t: string) {
    Contains(ToLower(s), ToLower(t))
  }

  lemma ContainsEmpty(s: string)
    ensures Contains(s, "")
  {
    assert "" <= s[0..];
  }

  lemma ContainsSelf(s: string)
    ensures Contains(s, s)
  {
    assert s <= s[0..];
  }

  /** The characters JavaScript's `trim` removes: WhiteSpace and LineTerminator. */
  predicate IsJsSpace(c: char) {
    var n := c as int;
    n == 0x09 || n == 0x0A || n == 0x0B || n == 0x0C || n == 0x0D || n == 0x20
    || n == 0xA0 || n == 0x1680 || (0x2000 <= n <= 0x200A) || n == 0x2028
    || n == 0x2029 || n == 0x202F || n == 0x205F || n == 0x3000 || n == 0xFEFF
  }

  function TrimStart(s: string): (r: string)
    ensures |r| <= |s|
    ensures r == [] || !IsJsSpace(r[0])
    ensures forall i :: 0 <= i < |s| - |r| ==> IsJsSpace(s[i])
  {
    if s != [] && IsJsSpace(s[0]) then TrimStart(s[1..]) else s
  }

  function TrimEnd(s: string): (r: string)
    ensures |r| <= |s|
    ensures r == [] || !IsJsSpace(r[|r| - 1])
    ensures forall i :: |r| <= i < |s| ==> IsJsSpace(s[i])
  {
    if s != [] && IsJsSpace(s[|s| - 1]) then TrimEnd(s[..|s| - 1]) else s
  }

  /** Trimming the start leaves a suffix of the text. */
  lemma {:induction false} TrimStartSuffix(s: string)
    ensures TrimStart(s) == s[|s| - |TrimStart(s)|..]
  {
    if s != [] && IsJsSpace(s[0]) {
      TrimStartSuffix(s[1..]);
    }
  }

  /** Trimming the end leaves a prefix of the text. */
  lemma {:induction false} TrimEndPrefix(s: string)
    ensures TrimEnd(s) == s[..|TrimEnd(s)|]
  {
    if s != [] && IsJsSpace(s[|s| - 1]) {
      TrimEndPrefix(s[..|s| - 1]);
    }
  }

  /** JavaScript's `trim`: no leading or trailing white space is left. */
  function Trim(s: string): (r: string)
    ensures |r| <= |s|
    ensures r == [] || (!IsJsSpace(r[0]) && !IsJsSpace(r[|r| - 1]))
  {
    TrimEndPrefix(TrimStart(s));
    TrimEnd(TrimStart(s))
  }

  /** JavaScript's `s.split(d)` for a one-character separator. */
  function Split(s: string, d: char): (r: seq<string>)
    ensures |r| >= 1
    ensures forall k :: 0 <= k < |r| ==> d !in r[k]
  {
    if s == [] then [""]
    else if s[0] == d then [""] + Split(s[1..], d)
    else
      var rest := Split(s[1..], d);
      [[s[0]] + rest[0]] + rest[1..]
  }

  /** Joins parts with the separator between consecutive parts. */
  function Join(parts: seq<string>, d: char): string
    requires |parts| >= 1
  {
    if |parts| == 1 then parts[0] else parts[0] + [d] + Join(parts[1..], d)
  }

  /** Splitting and joining again gives back the original text. */
  lemma {:induction false} JoinSplit(s: string, d: char)
    ensures Join(Split(s, d), d) == s
  {
    if s == [] {
    } else if s[0] == d {
      var rest := Split(s[1..], d);
      JoinSplit(s[1..], d);
      assert Split(s, d) == [""] + rest;
      assert ([""] + rest)[1..] == rest;
      assert [d] + s[1..] == s;
    } else {
      var rest := Split(s[1..], d);
      JoinSplit(s[1..], d);
      JoinPrepend(s[0], rest, d);
      assert [s[0]] + s[1..] == s;
    }
  }

  /** Prepending a character to the first part prepends it to the joined text. */
  lemma JoinPrepend(c: char, parts: seq<string>, d: char)
    requires |parts| >= 1
    ensures Join([[c] + parts[0]] + parts[1..], d) == [c] + Join(parts, d)
  {
    var r := [[c] + parts[0]] + parts[1..];
    assert r[0] == [c] + parts[0] && r[1..] == parts[1..];
    if |parts| > 1 {
      assert Join(r, d) == [c] + parts[0] + [d] + Join(parts[1..], d);
    }
  }

  /** Text with no separator splits into itself alone. */
  lemma {:induction false} SplitNoSeparator(s: string, d: char)
    requires d !in s
    ensures Split(s, d) == [s]
  {
    if s != [] {
      SplitNoSeparator(s[1..], d);
      assert [s[0]] + s[1..] == s;
    }
  }

  /** The first part of a split is the text up to the first separator. */
  lemma {:induction false} SplitHead(s: string, d: char)
    ensures |Split(s, d)[0]| <= |s| && Split(s, d)[0] == s[..|Split(s, d)[0]|]
    ensures |Split(s, d)[0]| == |s| || s[|Split(s, d)[0]|] == d
  {
    if s != [] && s[0] != d {
      SplitHead(s[1..], d);
    }
  }

  /** Text with exactly one separator splits into the two sides. */
  lemma {:induction false} SplitAround(a: string, d: char, b: string)
    requires d !in a && d !in b
    ensures Split(a + [d] + b, d) == [a, b]
  {
    var s := a + [d] + b;
    if a == [] {
      assert s[1..] == b;
      SplitNoSeparator(b, d);
    } else {
      assert s[0] == a[0];
      assert s[1..] == a[1..] + [d] + b;
      SplitAround(a[1..], d, b);
      assert [a[0]] + a[1..] == a;
    }
  }

  /** Text without white space at either end is its own trim. */
  lemma TrimUnchanged(s: string)
    requires s != [] && !IsJsSpace(s[0]) && !IsJsSpace(s[|s| - 1])
    ensures Trim(s) == s
  {
    assert TrimStart(s) == s;
    assert TrimEnd(s) == s;
  }

  /** `padStart(n, c)`. */
  function PadStart(s: string, n: nat, c: char): (r: string)
    ensures |r| == if |s| >= n then |s| else n
    ensures s <= r[|r| - |s|..] && r[|r| - |s|..] == s
    ensures forall i :: 0 <= i < |r| - |s| ==> r[i] == c
    decreases n - |s|
  {
    if |s| >= n then s else PadStart([c] + s, n, c)
  }

  /** A lower-case hexadecimal digit, 0-9a-f. */
  predicate IsHexDigit(c: char) {
    '0' <= c <= '9' || 'a' <= c <= 'f'
  }

  /** The digit of value `d`: 0-9, then a-f. */
  function DigitChar(d: nat): (c: char)
    requires d < 16
    ensures IsHexDigit(c)
    ensures d < 10 ==> c as int == '0' as int + d
    ensures d >= 10 ==> c as int == 'a' as int + (d - 10)
  {
    if d < 10 then ('0' as int + d) as char else ('a' as int + (d - 10)) as char
  }

  /** Base-b spelling of a natural number without leading zeros, digits 0-9a-f. */
  function NatToBase(n: nat, b: nat): (r: string)
    requires 2 <= b <= 16
    ensures |r| >= 1 && IsHexDigit(r[0])
    decreases n
  {
    if n < b then [DigitChar(n)] else NatToBase(n / b, b) + [DigitChar(n % b)]
  }

  /** `Number.prototype.toString()` on a non-negative integer. */
  function NatToString(n: nat): (r: string)
    ensures |r| >= 1
  {
    NatToBase(n, 10)
  }

  /** `Number.prototype.toString()` on an integer. */
  function IntToString(i: int): (r: string)
    ensures |r| >= 1
    ensures i < 0 <==> r[0] == '-'
  {
    if i < 0 then "-" + NatToString(-i) else NatToString(i)
  }

  /** The number of base-b digits grows only with the value: below b^k it is at most k. */
  lemma {:induction false} NatToBaseLength(n: nat, b: nat, k: nat)
    requires 2 <= b <= 16 && k >= 1 && n < Pow(b, k)
    ensures |NatToBase(n, b)| <= k
    decreases k
  {
    assert Pow(b, 1) == b;
    if n >= b {
      assert k >= 2;
      assert Pow(b, k) == b * Pow(b, k - 1);
      DivBelow(n, b, Pow(b, k - 1));
      NatToBaseLength(n / b, b, k - 1);
    }
  }

  lemma DivBelow(n: nat, b: nat, p: nat)
    requires b > 0 && n < b * p
    ensures n / b < p
  {
  }

  function Pow(b: nat, k: nat): (r: nat)
  {
    if k == 0 then 1 else b * Pow(b, k - 1)
  }

  /** Every character of a base-16 spelling is a lower-case hex digit. */
  predicate IsLowerHex(s: string) {
    forall i :: 0 <= i < |s| ==> IsHexDigit(s[i])
  }

  lemma {:induction false} NatToBaseHex(n: nat)
    ensures IsLowerHex(NatToBase(n, 16))
    decreases n
  {
    if n >= 16 {
      NatToBaseHex(n / 16);
    }
  }
}
