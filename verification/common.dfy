/**
 * Values shared by every part of the client model: an optional value, the JSON
 * values a server reply decodes to (with JavaScript's notion of truthiness), and
 * the string operations the client applies to user input and to server text.
 */
module Common {

  datatype Option<+T> = None | Some(value: T)

  /** A JSON value as produced by `response.json()`. Numbers are modelled as integers. */
  datatype Json =
    | Null
    | Bool(b: bool)
    | Num(n: int)
    | Str(s: string)
    | Arr(items: seq<Json>)
    | Obj(fields: map<string, Json>)

  /** JavaScript truthiness of a JSON value: the falsy ones are `null`, `false`, `0` and `""`. */
  predicate Truthy(v: Json)
    ensures !Truthy(v) <==> v in {Null, Bool(false), Num(0), Str("")}
  {
    match v
    case Null => false
    case Bool(b) => b
    case Num(n) => n != 0
    case Str(s) => s != ""
    case Arr(_) => true
    case Obj(_) => true
  }

  /** Truthiness of a value that may be `undefined` (None). */
  predicate Present(v: Option<Json>) {
    v.Some? && Truthy(v.value)
  }

  /** `x || ""` for a property holding text: any value that is not a string reads as "". */
  function TextOr(v: Option<Json>): (s: string)
    ensures v.Some? && v.value.Str? ==> s == v.value.s
    ensures !(v.Some? && v.value.Str?) ==> s == ""
  {
    if v.Some? && v.value.Str? then v.value.s else ""
  }

  /**
   * Property read `v.k` on a value that is neither null nor undefined: an object
   * field when it exists, `undefined` (None) otherwise. Reading a property of
   * `null` throws in JavaScript; callers decide that case before calling.
   */
  function Prop(v: Json, k: string): (r: Option<Json>)
    requires !v.Null?
    ensures r.Some? <==> v.Obj? && k in v.fields
    ensures r.Some? ==> r.value == v.fields[k]
  {
    if v.Obj? && k in v.fields then Some(v.fields[k]) else None
  }

  /** `a || b`: the left operand when it is truthy, the right one otherwise. */
  function Or(a: Option<Json>, b: Json): (r: Json)
    ensures Present(a) ==> r == a.value
    ensures !Present(a) ==> r == b
  {
    if Present(a) then a.value else b
  }

  /** Outcome of JavaScript's `v.includes(needle)`: None when the call throws. */
  function JsIncludes(v: Json, needle: string): (r: Option<bool>)
    ensures r.Some? <==> v.Str? || v.Arr?
    ensures v.Str? ==> r == Some(Includes(v.s, needle))
    ensures v.Arr? ==> r == Some(Str(needle) in v.items)
  {
    match v
    case Str(s) => Some(Includes(s, needle))
    case Arr(items) => Some(Str(needle) in items)
    case _ => None
  }

  // ---------------------------------------------------------------- characters

  /** The characters matched by `\s` in a JavaScript regular expression and removed by `trim()`. */
  predicate IsSpace(c: char) {
    c == ' ' || c == '\t' || c == '\n' || c == '\r' || c as int == 0x0B || c as int == 0x0C
    || c as int == 0xA0 || c as int == 0x1680 || (0x2000 <= c as int <= 0x200A)
    || c as int == 0x2028 || c as int == 0x2029 || c as int == 0x202F || c as int == 0x205F
    || c as int == 0x3000 || c as int == 0xFEFF
  }

  /** The characters a regular-expression `.` does not match. */
  predicate IsLineTerminator(c: char) {
    c == '\n' || c == '\r' || c as int == 0x2028 || c as int == 0x2029
  }

  function LowerChar(c: char): char {
    if 'A' <= c <= 'Z' then (c as int + 32) as char else c
  }

  function UpperChar(c: char): char {
    if 'a' <= c <= 'z' then (c as int - 32) as char else c
  }

  /** ASCII lower-casing, character by character: only `A`-`Z` change. */
  function LowerAscii(s: string): (r: string)
    ensures |r| == |s|
    ensures forall i :: 0 <= i < |s| ==> r[i] == LowerChar(s[i])
    ensures forall i :: 0 <= i < |s| ==> if 'A' <= s[i] <= 'Z' then 'a' <= r[i] <= 'z' && r[i] as int == s[i] as int + 32 else r[i] == s[i]
  {
    if s == [] then [] else [LowerChar(s[0])] + LowerAscii(s[1..])
  }

  /** ASCII upper-casing, character by character: only `a`-`z` change. */
  function UpperAscii(s: string): (r: string)
    ensures |r| == |s|
    ensures forall i :: 0 <= i < |s| ==> r[i] == UpperChar(s[i])
    ensures forall i :: 0 <= i < |s| ==> if 'a' <= s[i] <= 'z' then 'A' <= r[i] <= 'Z' && r[i] as int == s[i] as int - 32 else r[i] == s[i]
  {
    if s == [] then [] else [UpperChar(s[0])] + UpperAscii(s[1..])
  }

  // ---------------------------------------------------------------- UTF-16 lengths

  /** A character outside the Basic Multilingual Plane: JavaScript stores it as two UTF-16 code units. */
  predicate Astral(c: char) {
    c as int >= 0x1_0000
  }

  /** The number of UTF-16 code units of a character. */
  function Units(c: char): nat {
    if Astral(c) then 2 else 1
  }

  /** `s.length`: the number of UTF-16 code units, between one and two per character. */
  function JsLength(s: string): (n: nat)
    ensures |s| <= n <= 2 * |s|
  {
    if s == [] then 0 else Units(s[0]) + JsLength(s[1..])
  }

  /** The length JavaScript reports is the number of characters exactly when none is astral. */
  lemma {:induction false} JsLengthCountsAstral(s: string)
    ensures JsLength(s) == |s| <==> forall i :: 0 <= i < |s| ==> !Astral(s[i])
  {
    if s != [] {
      JsLengthCountsAstral(s[1..]);
      assert forall i :: 1 <= i < |s| ==> s[i] == s[1..][i - 1];
    }
  }

  /**
   * The longest prefix of `s` whose characters lie whole within its first `n`
   * UTF-16 code units.
   */
  function UnitPrefix(s: string, n: nat): (r: string)
    ensures r <= s && JsLength(r) <= n
    ensures r != s ==> n < JsLength(r) + Units(s[|r|])
  {
    if s == [] || n < Units(s[0]) then []
    else
      var r := [s[0]] + UnitPrefix(s[1..], n - Units(s[0]));
      assert r[1..] == UnitPrefix(s[1..], n - Units(s[0]));
      r
  }

  // ---------------------------------------------------------------- trimming

  /** `s` with its leading white space removed. */
  function TrimStart(s: string): (r: string)
    ensures |r| <= |s|
    decreases |s|
  {
    if |s| > 0 && IsSpace(s[0]) then TrimStart(s[1..]) else s
  }

  /** What `TrimStart` leaves: a suffix of `s` that does not start with white space, behind only white space. */
  lemma {:induction false} TrimStartFacts(s: string)
    ensures TrimStart(s) == s[|s| - |TrimStart(s)|..]
    ensures TrimStart(s) == [] || !IsSpace(TrimStart(s)[0])
    ensures forall i :: 0 <= i < |s| - |TrimStart(s)| ==> IsSpace(s[i])
    decreases |s|
  {
    if |s| > 0 && IsSpace(s[0]) {
      TrimStartFacts(s[1..]);
      assert s[1..][|s| - 1 - |TrimStart(s)|..] == s[|s| - |TrimStart(s)|..];
      forall i | 0 <= i < |s| - |TrimStart(s)|
        ensures IsSpace(s[i])
      {
        if i > 0 {
          assert s[i] == s[1..][i - 1];
        }
      }
    }
  }

  /** `s` with its trailing white space removed. */
  function TrimEnd(s: string): (r: string)
    ensures |r| <= |s|
    decreases |s|
  {
    if |s| > 0 && IsSpace(s[|s| - 1]) then TrimEnd(s[..|s| - 1]) else s
  }

  /** What `TrimEnd` leaves: a prefix of `s` that does not end with white space, followed only by white space. */
  lemma {:induction false} TrimEndFacts(s: string)
    ensures TrimEnd(s) == s[..|TrimEnd(s)|]
    ensures TrimEnd(s) == [] || !IsSpace(TrimEnd(s)[|TrimEnd(s)| - 1])
    ensures forall i :: |TrimEnd(s)| <= i < |s| ==> IsSpace(s[i])
    decreases |s|
  {
    if |s| > 0 && IsSpace(s[|s| - 1]) {
      var t := s[..|s| - 1];
      TrimEndFacts(t);
      assert t[..|TrimEnd(s)|] == s[..|TrimEnd(s)|];
      forall i | |TrimEnd(s)| <= i < |s|
        ensures IsSpace(s[i])
      {
        if i < |s| - 1 {
          assert s[i] == t[i];
        }
      }
    }
  }

  predicate Blank(s: string) {
    forall i :: 0 <= i < |s| ==> IsSpace(s[i])
  }

  /**
   * JavaScript's `s.trim()`: no longer than `s`, neither starting nor ending
   * with white space, and empty exactly when `s` is all white space.
   */
  function Trim(s: string): (r: string)
    ensures |r| <= |s|
    ensures r == [] || (!IsSpace(r[0]) && !IsSpace(r[|r| - 1]))
    ensures r == [] <==> Blank(s)
  {
    var t := TrimStart(s);
    TrimStartFacts(s);
    TrimEndFacts(t);
    assert t != [] ==> s[|s| - |t|] == t[0];
    TrimEnd(t)
  }

  /** A text that neither starts nor ends with white space is its own trimmed form. */
  lemma TrimmedAlready(s: string)
    requires s != [] && !IsSpace(s[0]) && !IsSpace(s[|s| - 1])
    ensures Trim(s) == s
  {
  }

  /** The trimmed text sits inside `s`. */
  lemma TrimShape(s: string)
    ensures exists k :: 0 <= k && OccursAt(s, Trim(s), k)
  {
    var t := TrimStart(s);
    var r := TrimEnd(t);
    TrimStartFacts(s);
    TrimEndFacts(t);
    var k := |s| - |t|;
    assert r == t[..|r|] && t == s[k..];
    assert r == s[k..k + |r|];
    assert Trim(s) == r;
    assert OccursAt(s, r, k);
  }

  // ---------------------------------------------------------------- substrings

  /** `sub` occurs in `s` starting at position `i`. */
  predicate OccursAt(s: string, sub: string, i: nat) {
    i + |sub| <= |s| && s[i..i + |sub|] == sub
  }

  /** JavaScript's `s.includes(sub)` on strings. */
  predicate Includes(s: string, sub: string) {
    exists i :: 0 <= i <= |s| - |sub| && OccursAt(s, sub, i)
  }

  /** No character of `s` is `c`. */
  predicate Lacks(s: string, c: char) {
    forall i :: 0 <= i < |s| ==> s[i] != c
  }

  lemma LacksNotIncluded(s: string, c: char)
    requires Lacks(s, c)
    ensures !Includes(s, [c])
  {
    forall i | 0 <= i <= |s| - 1
      ensures !OccursAt(s, [c], i)
    {
      assert s[i] != c;
    }
  }

  /** Leftmost position, from `k` on, at which `sep` occurs in `s`. */
  function FindFrom(s: string, sep: string, k: nat): (r: Option<nat>)
    requires |sep| > 0
    ensures r.Some? ==> k <= r.value && OccursAt(s, sep, r.value)
    ensures r.Some? ==> forall i :: k <= i < r.value ==> !OccursAt(s, sep, i)
    ensures r.None? ==> forall i :: k <= i ==> !OccursAt(s, sep, i)
    decreases |s| - k
  {
    if k + |sep| > |s| then None
    else if OccursAt(s, sep, k) then Some(k)
    else FindFrom(s, sep, k + 1)
  }

  /** Leftmost position at which `sep` occurs in `s`. */
  function FindFirst(s: string, sep: string): (r: Option<nat>)
    requires |sep| > 0
    ensures r.Some? ==> OccursAt(s, sep, r.value)
    ensures r.Some? ==> forall i :: 0 <= i < r.value ==> !OccursAt(s, sep, i)
    ensures r.None? <==> !Includes(s, sep)
  {
    FindFrom(s, sep, 0)
  }

  // ---------------------------------------------------------------- join and split

  /** JavaScript's `xs.join(sep)`: the first part opens it and the last one closes it. */
  function Join(xs: seq<string>, sep: string): (r: string)
    ensures |xs| == 0 ==> r == ""
    ensures |xs| > 0 ==> xs[0] <= r && |xs[|xs| - 1]| <= |r| && r[|r| - |xs[|xs| - 1]|..] == xs[|xs| - 1]
    decreases |xs|
  {
    if |xs| == 0 then ""
    else if |xs| == 1 then xs[0]
    else xs[0] + sep + Join(xs[1..], sep)
  }

  /** JavaScript's `s.split(sep)` for a non-empty separator. */
  function Split(s: string, sep: string): (r: seq<string>)
    requires |sep| > 0
    ensures |r| > 0
    decreases |s|
  {
    match FindFirst(s, sep)
    case None => [s]
    case Some(i) => [s[..i]] + Split(s[i + |sep|..], sep)
  }

  /** `xs.filter(Boolean)` on strings: the non-empty ones, in order. */
  function NonEmpty(xs: seq<string>): (r: seq<string>)
    ensures |r| <= |xs|
    ensures forall i :: 0 <= i < |r| ==> r[i] != "" && r[i] in xs
  {
    if xs == [] then []
    else if xs[0] == "" then NonEmpty(xs[1..])
    else [xs[0]] + NonEmpty(xs[1..])
  }

  /**
   * A separator of one character, or of two different characters, cannot occur
   * straddling the end of a part that does not contain it.
   */
  predicate SimpleSeparator(sep: string) {
    |sep| == 1 || (|sep| == 2 && sep[0] != sep[1])
  }

  /** The first occurrence of a simple separator in `x + sep + rest` is the one after `x`. */
  lemma SeparatorAfterPrefix(x: string, sep: string, rest: string)
    requires SimpleSeparator(sep)
    requires !Includes(x, sep)
    ensures FindFirst(x + sep + rest, sep) == Some(|x|)
  {
    var s := x + sep + rest;
    assert s[|x|..|x| + |sep|] == sep;
    assert OccursAt(s, sep, |x|);
    forall i | 0 <= i < |x|
      ensures !OccursAt(s, sep, i)
    {
      if i + |sep| <= |x| {
        assert s[i..i + |sep|] == x[i..i + |sep|];
        assert !OccursAt(x, sep, i);
      } else {
        assert s[i + 1] == sep[0];
      }
    }
  }

  /** A part free of the separator is split off the front. */
  lemma SplitOnce(x: string, sep: string, rest: string)
    requires SimpleSeparator(sep) && !Includes(x, sep)
    ensures Split(x + sep + rest, sep) == [x] + Split(rest, sep)
  {
    SeparatorAfterPrefix(x, sep, rest);
    var s := x + sep + rest;
    assert s[..|x|] == x;
    assert s[|x| + |sep|..] == rest;
  }

  /** A string that does not contain `sep` is not split. */
  lemma NoSeparatorNoSplit(x: string, sep: string)
    requires |sep| > 0 && !Includes(x, sep)
    ensures Split(x, sep) == [x]
  {
  }

  /** Splitting a join gives back the parts, provided no part contains the separator. */
  lemma {:induction false} SplitJoin(xs: seq<string>, sep: string)
    requires SimpleSeparator(sep)
    requires |xs| > 0
    requires forall i :: 0 <= i < |xs| ==> !Includes(xs[i], sep)
    ensures Split(Join(xs, sep), sep) == xs
    decreases |xs|
  {
    if |xs| == 1 {
      NoSeparatorNoSplit(xs[0], sep);
    } else {
      var tail := xs[1..];
      assert forall i :: 0 <= i < |tail| ==> tail[i] == xs[i + 1];
      SplitJoin(tail, sep);
      SplitJoinStep(xs[0], tail, sep);
      assert [xs[0]] + xs[1..] == xs;
    }
  }

  /** One more part in front of a join that splits back: the join still splits back. */
  lemma SplitJoinStep(x: string, tail: seq<string>, sep: string)
    requires SimpleSeparator(sep) && !Includes(x, sep) && |tail| > 0
    requires Split(Join(tail, sep), sep) == tail
    ensures Split(Join([x] + tail, sep), sep) == [x] + tail
  {
    var rest := Join(tail, sep);
    assert ([x] + tail)[1..] == tail;
    assert Join([x] + tail, sep) == x + sep + rest;
    SplitOnce(x, sep, rest);
  }

  lemma {:induction false} NonEmptyKeeps(xs: seq<string>)
    requires forall i :: 0 <= i < |xs| ==> xs[i] != ""
    ensures NonEmpty(xs) == xs
  {
    if xs != [] {
      NonEmptyKeeps(xs[1..]);
      assert [xs[0]] + xs[1..] == xs;
    }
  }

  // ---------------------------------------------------------------- numbers

  function DigitChar(d: nat): char
    requires d < 10
  {
    ['0', '1', '2', '3', '4', '5', '6', '7', '8', '9'][d]
  }

  /** Decimal rendering of a natural number, as in a template literal `${n}`. */
  function NatToString(n: nat): (r: string)
    ensures |r| > 0
    ensures forall i :: 0 <= i < |r| ==> '0' <= r[i] <= '9'
    ensures n < 10 ==> |r| == 1
    decreases n
  {
    if n < 10 then [DigitChar(n)] else NatToString(n / 10) + [DigitChar(n % 10)]
  }

  function DigitValue(c: char): nat
    requires '0' <= c <= '9'
  {
    c as int - '0' as int
  }

  /** Value of a string of decimal digits. */
  function ParseDigits(s: string): nat
    requires forall i :: 0 <= i < |s| ==> '0' <= s[i] <= '9'
    decreases |s|
  {
    if s == [] then 0 else 10 * ParseDigits(s[..|s| - 1]) + DigitValue(s[|s| - 1])
  }

  /** Different numbers have different decimal renderings. */
  lemma NatToStringInjective()
    ensures forall i: nat, j: nat :: NatToString(i) == NatToString(j) ==> i == j
  {
    forall i: nat, j: nat | NatToString(i) == NatToString(j)
      ensures i == j
    {
      NatToStringRoundTrip(i);
      NatToStringRoundTrip(j);
    }
  }

  /** Reading back the decimal rendering gives the number. */
  lemma {:induction false} NatToStringRoundTrip(n: nat)
    ensures ParseDigits(NatToString(n)) == n
    decreases n
  {
    var r := NatToString(n);
    if n < 10 {
      assert r[..0] == [];
    } else {
      NatToStringRoundTrip(n / 10);
      assert r[..|r| - 1] == NatToString(n / 10);
    }
  }
}
