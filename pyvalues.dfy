/**
  The part of Python's value semantics the plugin relies on: the values a
  decoded JSON document or a plugin configuration can hold, their
  truthiness, `str()` of them, and the string operations `str.strip()`,
  `str.split(sep)`, `str.replace(c, '')` and `int(str)`.
 */
module PyValues {

  datatype Option<+T> = None | Some(value: T)

  /** A Python value as produced by `json.loads` or held in a configuration
      dictionary. A float is opaque: it carries the text `str()` gives for it
      and whether it is non-zero. */
  datatype Value =
    | Null
    | Bool(b: bool)
    | Int(i: int)
    | Float(text: string, nonzero: bool)
    | Str(s: string)
    | List(elems: seq<Value>)
    | Dict(fields: map<string, Value>)

  /** Python truthiness: `None`, `False`, zero, and empty strings, lists and
      dictionaries are false; everything else is true. */
  predicate Truthy(v: Value)
    ensures v.Null? ==> !Truthy(v)
    ensures v.Bool? ==> (Truthy(v) <==> v.b)
    ensures v.Int? ==> (Truthy(v) <==> v.i != 0)
    ensures v.Float? ==> (Truthy(v) <==> v.nonzero)
    ensures v.Str? ==> (Truthy(v) <==> |v.s| > 0)
    ensures v.List? ==> (Truthy(v) <==> |v.elems| > 0)
    ensures v.Dict? ==> (Truthy(v) <==> |v.fields| > 0)
  {
    match v
    case Null => false
    case Bool(b) => b
    case Int(i) => i != 0
    case Float(_, nz) => nz
    case Str(s) => s != []
    case List(e) => e != []
    case Dict(f) => f != map[]
  }

  /** `d.get(key, default)` on a dictionary. */
  function Get(fields: map<string, Value>, key: string, default: Value): (v: Value)
    ensures key in fields ==> v == fields[key]
    ensures key !in fields ==> v == default
  {
    if key in fields then fields[key] else default
  }

  lemma ConcatAssoc<T>(x: seq<T>, y: seq<T>, z: seq<T>)
    ensures x + (y + z) == (x + y) + z
  {
  }

  lemma ConcatEmpty<T>(x: seq<T>)
    ensures x + [] == x && [] + x == x
  {
  }

  // ---------------------------------------------------------------------
  // Decimal digits and str() of integers

  predicate IsDigit(c: char) {
    '0' <= c <= '9'
  }

  function DigitValue(c: char): (d: nat)
    requires IsDigit(c)
    ensures d < 10
  {
    (c as int) - ('0' as int)
  }

  function DigitChar(d: nat): (c: char)
    requires d < 10
    ensures IsDigit(c) && DigitValue(c) == d
  {
    (('0' as int) + d) as char
  }

  /** `str(n)` for a non-negative integer: its decimal digits, no leading zero. */
  function NatToString(n: nat): (s: string)
    ensures |s| > 0
    ensures forall i :: 0 <= i < |s| ==> IsDigit(s[i])
    ensures |s| > 1 ==> s[0] != '0'
    decreases n
  {
    if n < 10 then [DigitChar(n)] else NatToString(n / 10) + [DigitChar(n % 10)]
  }

  /** `str(i)` for any integer. */
  function IntToString(i: int): (s: string)
    ensures |s| > 0
    ensures forall k :: 0 <= k < |s| ==> IsDigit(s[k]) || (k == 0 && s[k] == '-')
    ensures (s[0] == '-') <==> i < 0
  {
    if i < 0 then "-" + NatToString(-i) else NatToString(i)
  }

  /** `str(v)`. Containers are rendered as a fixed placeholder instead of
      Python's `repr` of their elements. */
  function Show(v: Value): (shown: string)
    ensures v.Null? ==> shown == "None"
    ensures v.Bool? ==> shown == if v.b then "True" else "False"
    ensures v.Int? ==> shown == IntToString(v.i)
    ensures v.Str? ==> shown == v.s
  {
    match v
    case Null => "None"
    case Bool(b) => if b then "True" else "False"
    case Int(i) => IntToString(i)
    case Float(text, _) => text
    case Str(s) => s
    case List(_) => "[...]"
    case Dict(_) => "{...}"
  }

  // ---------------------------------------------------------------------
  // Whitespace and str.strip()

  /** Python's `str.isspace()` for one character: the Unicode characters of
      category Zs and of bidirectional class WS, B or S. */
  predicate IsSpace(c: char) {
    || '\U{9}' <= c <= '\U{D}'
    || '\U{1C}' <= c <= '\U{20}'
    || c == '\U{85}' || c == '\U{A0}' || c == '\U{1680}'
    || '\U{2000}' <= c <= '\U{200A}'
    || c == '\U{2028}' || c == '\U{2029}' || c == '\U{202F}' || c == '\U{205F}'
    || c == '\U{3000}'
  }

  predicate AllSpace(s: string) {
    forall i :: 0 <= i < |s| ==> IsSpace(s[i])
  }

  /** Neither the first nor the last character is whitespace. */
  predicate Stripped(s: string) {
    s == [] || (!IsSpace(s[0]) && !IsSpace(s[|s| - 1]))
  }

  /** The index of the first non-whitespace character at or after `i`
      (the length of `s` when there is none). */
  function SpaceEnd(s: string, i: nat): (j: nat)
    requires i <= |s|
    ensures i <= j <= |s|
    ensures forall k :: i <= k < j ==> IsSpace(s[k])
    ensures j == |s| || !IsSpace(s[j])
    decreases |s| - i
  {
    if i < |s| && IsSpace(s[i]) then SpaceEnd(s, i + 1) else i
  }

  /** The index just past the last non-whitespace character in
      `s[lo..j]` (`lo` when there is none). */
  function SpaceStart(s: string, lo: nat, j: nat): (k: nat)
    requires lo <= j <= |s|
    ensures lo <= k <= j
    ensures forall m :: k <= m < j ==> IsSpace(s[m])
    ensures k == lo || !IsSpace(s[k - 1])
    decreases j
  {
    if j > lo && IsSpace(s[j - 1]) then SpaceStart(s, lo, j - 1) else j
  }

  /** `s.strip()`: the piece of `s` from its first to its last
      non-whitespace character, empty when there is none. */
  function Strip(s: string): (r: string)
    ensures Stripped(r) && |r| <= |s|
  {
    var lo := SpaceEnd(s, 0);
    var hi := SpaceStart(s, lo, |s|);
    assert hi > lo ==> s[lo..hi][0] == s[lo] && s[lo..hi][hi - lo - 1] == s[hi - 1];
    s[lo..hi]
  }

  /** Stripping adds no character. */
  lemma StripKeepsOut(s: string, c: char)
    requires c !in s
    ensures c !in Strip(s)
  {
    var lo := SpaceEnd(s, 0);
    var r := Strip(s);
    forall k | 0 <= k < |r| ensures r[k] != c {
      assert r[k] == s[lo + k];
    }
  }

  lemma {:induction false} SpaceEndAt(s: string, i: nat, j: nat)
    requires i <= j <= |s|
    requires forall k :: i <= k < j ==> IsSpace(s[k])
    requires j == |s| || !IsSpace(s[j])
    ensures SpaceEnd(s, i) == j
    decreases j - i
  {
    if i < j {
      SpaceEndAt(s, i + 1, j);
    }
  }

  lemma {:induction false} SpaceStartAt(s: string, lo: nat, j: nat, k: nat)
    requires lo <= k <= j <= |s|
    requires forall m :: k <= m < j ==> IsSpace(s[m])
    requires k == lo || !IsSpace(s[k - 1])
    ensures SpaceStart(s, lo, j) == k
    decreases j - k
  {
    if k < j {
      SpaceStartAt(s, lo, j - 1, k);
    }
  }

  /** Stripping removes exactly the whitespace padding around a piece that is
      already stripped; in particular `Strip` leaves a stripped string alone. */
  lemma StripPadded(p: string, s: string, q: string)
    requires AllSpace(p) && AllSpace(q) && Stripped(s)
    ensures Strip(p + s + q) == s
  {
    var x := p + s + q;
    forall k | 0 <= k < |p| ensures x[k] == p[k] { }
    forall k | |p| + |s| <= k < |x| ensures x[k] == q[k - |p| - |s|] { }
    if s == [] {
      SpaceEndAt(x, 0, |x|);
    } else {
      assert x[|p|] == s[0] && x[|p| + |s| - 1] == s[|s| - 1];
      SpaceEndAt(x, 0, |p|);
      SpaceStartAt(x, |p|, |x|, |p| + |s|);
      assert x[|p|..|p| + |s|] == s;
    }
  }

  lemma StripStripped(s: string)
    requires Stripped(s)
    ensures Strip(s) == s
  {
    StripPadded([], s, []);
    assert [] + s + [] == s;
  }

  // ---------------------------------------------------------------------
  // str.replace(c, '') for a single character

  /** `s.replace(c, '')`: `s` with every occurrence of `c` removed. */
  function RemoveAll(s: string, c: char): (r: string)
    ensures c !in r
    ensures c !in s ==> r == s
    decreases |s|
  {
    if s == [] then []
    else if s[0] == c then RemoveAll(s[1..], c)
    else [s[0]] + RemoveAll(s[1..], c)
  }

  /** Removing a character from a concatenation removes it from each part. */
  lemma {:induction false} RemoveAllConcat(s: string, t: string, c: char)
    ensures RemoveAll(s + t, c) == RemoveAll(s, c) + RemoveAll(t, c)
    decreases |s|
  {
    if s == [] {
      assert s + t == t;
    } else {
      assert (s + t)[0] == s[0];
      assert (s + t)[1..] == s[1..] + t;
      RemoveAllConcat(s[1..], t, c);
    }
  }

  // ---------------------------------------------------------------------
  // str.split(sep)

  /** The number of occurrences of `c` in `s`. */
  function Count(s: string, c: char): (n: nat)
    decreases |s|
  {
    if s == [] then 0 else (if s[0] == c then 1 else 0) + Count(s[1..], c)
  }

  /** `s.split(sep)` for a one-character separator: the pieces between the
      separators, one more than there are separators, none holding one. */
  function Split(s: string, sep: char): (parts: seq<string>)
    ensures |parts| == Count(s, sep) + 1
    ensures forall i :: 0 <= i < |parts| ==> sep !in parts[i]
    decreases |s|
  {
    if s == [] then [[]]
    else
      var rest := Split(s[1..], sep);
      if s[0] == sep then [[]] + rest
      else [[s[0]] + rest[0]] + rest[1..]
  }

  /** `sep.join(parts)`. */
  function Join(parts: seq<string>, sep: char): (joined: string)
    decreases |parts|
  {
    if parts == [] then []
    else if |parts| == 1 then parts[0]
    else parts[0] + [sep] + Join(parts[1..], sep)
  }

  /** Joining the pieces of a split gives back the original string. */
  lemma {:induction false} JoinSplit(s: string, sep: char)
    ensures Join(Split(s, sep), sep) == s
    decreases |s|
  {
    if s != [] {
      var rest := Split(s[1..], sep);
      JoinSplit(s[1..], sep);
      if s[0] == sep {
        assert ([[]] + rest)[1..] == rest;
      } else {
        var parts := [[s[0]] + rest[0]] + rest[1..];
        assert parts[1..] == rest[1..];
        if |rest| > 1 {
          assert Join(rest, sep) == rest[0] + [sep] + Join(rest[1..], sep);
        }
      }
    }
  }

  lemma {:induction false} SplitNone(s: string, sep: char)
    requires sep !in s
    ensures Split(s, sep) == [s]
    decreases |s|
  {
    if s != [] {
      SplitNone(s[1..], sep);
      assert [s[0]] + s[1..] == s;
    }
  }

  /** A string with exactly one separator splits into the two sides. */
  lemma {:induction false} SplitOnce(a: string, b: string, sep: char)
    requires sep !in a && sep !in b
    ensures Split(a + [sep] + b, sep) == [a, b]
    decreases |a|
  {
    var s := a + [sep] + b;
    if a == [] {
      assert s[1..] == b;
      SplitNone(b, sep);
    } else {
      assert s[1..] == a[1..] + [sep] + b;
      SplitOnce(a[1..], b, sep);
      assert [a[0]] + a[1..] == a;
    }
  }

  // ---------------------------------------------------------------------
  // int(str)

  /** The digit string that `int()` accepts after the sign: decimal digits,
      with single underscores allowed between two digits. It starts and ends
      with a digit, and every underscore is followed by a digit. */
  predicate ValidDigits(d: string) {
    && |d| > 0
    && DigitChars(d)
    && IsDigit(d[0]) && IsDigit(d[|d| - 1])
    && forall i, j {:trigger d[i], d[j]} :: 0 <= i < |d| && j == i + 1 < |d| && d[i] == '_' ==> IsDigit(d[j])
  }

  predicate DigitChars(d: string) {
    forall i :: 0 <= i < |d| ==> IsDigit(d[i]) || d[i] == '_'
  }

  /** The value of a string of digits and underscores, ignoring the underscores. */
  function DecimalValue(d: string): (n: nat)
    requires DigitChars(d)
  {
    DecimalPrefix(d, |d|)
  }

  /** The value of the first `k` characters of `d`. */
  function DecimalPrefix(d: string, k: nat): (n: nat)
    requires k <= |d| && DigitChars(d)
    decreases k
  {
    if k == 0 then 0
    else if d[k - 1] == '_' then DecimalPrefix(d, k - 1)
    else 10 * DecimalPrefix(d, k - 1) + DigitValue(d[k - 1])
  }

  lemma {:induction false} DecimalPrefixExtend(t: string, u: string, k: nat)
    requires k <= |t| && DigitChars(t) && DigitChars(t + u)
    ensures DecimalPrefix(t + u, k) == DecimalPrefix(t, k)
    decreases k
  {
    if k > 0 {
      assert (t + u)[k - 1] == t[k - 1];
      DecimalPrefixExtend(t, u, k - 1);
    }
  }

  function ParseUnsigned(d: string): (r: Option<nat>) {
    if ValidDigits(d) then Some(DecimalValue(d)) else None
  }

  /** The four ASCII information separators U+001C-U+001F: `str.isspace()`
      counts them as whitespace, but `int()` skips only the ASCII whitespace
      `" \t\n\v\f\r"` and the non-ASCII whitespace characters, so one of
      them anywhere in the text makes `int()` raise. */
  predicate IsSeparator(c: char) {
    '\U{1C}' <= c <= '\U{1F}'
  }

  predicate NoSeparator(s: string) {
    forall i :: 0 <= i < |s| ==> !IsSeparator(s[i])
  }

  /** The whitespace `int()` skips around the number. */
  predicate AllIntSpace(s: string) {
    forall i :: 0 <= i < |s| ==> IsSpace(s[i]) && !IsSeparator(s[i])
  }

  /** What `int()` accepts once the whitespace is stripped: digits, or one
      sign followed by digits. */
  predicate IntLiteral(t: string) {
    || ValidDigits(t)
    || (|t| > 1 && (t[0] == '+' || t[0] == '-') && ValidDigits(t[1..]))
  }

  /** Python's `int(s)` on a string, with `None` for the `ValueError` case:
      surrounding whitespace is ignored, one optional `+` or `-` sign, then
      the digits. */
  function ParseInt(s: string): (r: Option<int>)
    ensures AllSpace(s) ==> r.None?
    ensures !NoSeparator(s) ==> r.None?
  {
    if !NoSeparator(s) then None
    else if AllSpace(s) then
      StripPadded(s, [], []);
      assert s + [] + [] == s;
      ParseNumber(Strip(s))
    else
      ParseNumber(Strip(s))
  }

  /** What `int()` reads once the whitespace is stripped: an optional sign,
      then the digits. */
  function ParseNumber(t: string): (r: Option<int>) {
    if |t| > 0 && (t[0] == '-' || t[0] == '+') then
      match ParseUnsigned(t[1..])
      case None => None
      case Some(n) => Some(if t[0] == '-' then -(n as int) else n as int)
    else
      match ParseUnsigned(t)
      case None => None
      case Some(n) => Some(n)
  }

  lemma {:induction false} NatToStringValue(n: nat)
    ensures ValidDigits(NatToString(n))
    ensures DecimalValue(NatToString(n)) == n
    decreases n
  {
    var s := NatToString(n);
    DigitsValid(s);
    if n >= 10 {
      var t := NatToString(n / 10);
      var c := DigitChar(n % 10);
      assert s == t + [c];
      NatToStringValue(n / 10);
      DecimalPrefixExtend(t, [c], |t|);
      assert s[|s| - 1] == c;
    } else {
      OneDigit(DigitChar(n));
    }
  }

  lemma IntToStringStripped(i: int)
    ensures Stripped(IntToString(i))
  {
    if i < 0 {
      var d := NatToString(-i);
      assert IntToString(i)[|IntToString(i)| - 1] == d[|d| - 1];
    }
  }

  lemma ParseNumberNat(n: nat)
    ensures ParseNumber(NatToString(n)) == Some(n)
  {
    var d := NatToString(n);
    NatToStringValue(n);
    assert IsDigit(d[0]);
    ParseNumberDigits(d);
  }

  lemma ParseNumberNegative(n: nat)
    requires n > 0
    ensures ParseNumber("-" + NatToString(n)) == Some(-(n as int))
  {
    var d := NatToString(n);
    var t := "-" + d;
    assert t[0] == '-' && t[1..] == d;
    NatToStringValue(n);
  }

  /** `int(str(i)) == i` for every integer. */
  lemma ParseIntShow(i: int)
    ensures ParseInt(IntToString(i)) == Some(i)
  {
    IntToStringStripped(i);
    StripStripped(IntToString(i));
    if i < 0 {
      ParseNumberNegative(-i);
    } else {
      ParseNumberNat(i);
    }
  }

  /** `int()` ignores whitespace around the number. */
  lemma ParseIntPadded(p: string, s: string, q: string)
    requires AllIntSpace(p) && AllIntSpace(q) && Stripped(s)
    ensures ParseInt(p + s + q) == ParseInt(s)
  {
    StripPadded(p, s, q);
    StripStripped(s);
    var x := p + s + q;
    if NoSeparator(s) {
      forall k | 0 <= k < |x| ensures !IsSeparator(x[k]) {
        if k < |p| {
          assert x[k] == p[k];
        } else if k < |p| + |s| {
          assert x[k] == s[k - |p|];
        } else {
          assert x[k] == q[k - |p| - |s|];
        }
      }
    } else {
      var k :| 0 <= k < |s| && IsSeparator(s[k]);
      assert x[|p| + k] == s[k];
    }
  }

  /** `int()` succeeds exactly on a text without information separators
      whose stripped form is digits with at most one sign in front. */
  lemma ParseIntAccepts(s: string)
    ensures ParseInt(s).Some? <==> NoSeparator(s) && IntLiteral(Strip(s))
  {
    var t := Strip(s);
    if NoSeparator(s) && !AllSpace(s) && |t| > 0 && (t[0] == '+' || t[0] == '-') {
      assert !ValidDigits(t);
    }
  }

  /** An explicit sign before the digits: `+` keeps the value, `-` negates it. */
  lemma ParseIntSigned(d: string)
    requires ValidDigits(d)
    ensures ParseInt("+" + d) == Some(DecimalValue(d))
    ensures ParseInt("-" + d) == Some(-(DecimalValue(d) as int))
  {
    SignedStripped('+', d);
    SignedStripped('-', d);
  }

  lemma SignedStripped(sign: char, d: string)
    requires sign == '+' || sign == '-'
    requires ValidDigits(d)
    ensures ParseInt([sign] + d) == Some(if sign == '-' then -(DecimalValue(d) as int) else DecimalValue(d) as int)
  {
    var t := [sign] + d;
    assert t[0] == sign && t[|t| - 1] == d[|d| - 1];
    assert t[1..] == d;
    assert NoSeparator(t) by {
      forall k | 0 <= k < |t| ensures !IsSeparator(t[k]) {
        if k > 0 {
          assert t[k] == d[k - 1];
        }
      }
    }
    assert !AllSpace(t) by { assert !IsSpace(t[0]); }
    StripStripped(t);
  }

  /** Texts `int()` rejects: letters, a trailing letter, a double or leading
      underscore, a bare sign, and an information separator as padding. */
  lemma ParseIntRejects()
    ensures ParseInt("abc").None? && ParseInt("12a").None? && ParseInt("1__0").None?
    ensures ParseInt("_1").None? && ParseInt("+").None? && ParseInt("\U{1C}5").None?
  {
    RejectsLetters();
    RejectsUnderscores();
    RejectsBareSign();
    assert IsSeparator("\U{1C}5"[0]);
  }

  lemma RejectsLetters()
    ensures ParseInt("abc").None? && ParseInt("12a").None?
  {
    StripStripped("abc");
    StripStripped("12a");
  }

  lemma RejectsUnderscores()
    ensures ParseInt("1__0").None? && ParseInt("_1").None?
  {
    StripStripped("1__0");
    assert "1__0"[1] == '_' && "1__0"[2] == '_';
    StripStripped("_1");
  }

  lemma RejectsBareSign()
    ensures ParseInt("+").None?
  {
    StripStripped("+");
    assert "+"[1..] == [];
  }

  predicate AllDigits(d: string) {
    forall i :: 0 <= i < |d| ==> IsDigit(d[i])
  }

  lemma DigitsValid(d: string)
    requires |d| > 0 && AllDigits(d)
    ensures ValidDigits(d) && Stripped(d)
  {
    assert IsDigit(d[0]) && IsDigit(d[|d| - 1]);
  }

  lemma ParseNumberDigits(d: string)
    requires ValidDigits(d) && IsDigit(d[0])
    ensures ParseNumber(d) == Some(DecimalValue(d))
  {
  }

  /** `int()` reads a plain run of decimal digits, leading zeros included. */
  lemma ParseDigits(d: string)
    requires |d| > 0 && AllDigits(d)
    ensures DigitChars(d) && ParseInt(d) == Some(DecimalValue(d))
  {
    DigitsValid(d);
    StripStripped(d);
    assert IsDigit(d[0]);
    ParseNumberDigits(d);
  }

  lemma OneDigit(a: char)
    requires IsDigit(a)
    ensures AllDigits([a]) && DecimalValue([a]) == DigitValue(a)
  {
    assert DecimalPrefix([a], 0) == 0;
    assert DecimalPrefix([a], 1) == DigitValue(a);
  }

  lemma TwoDigits(a: char, b: char)
    requires IsDigit(a) && IsDigit(b)
    ensures AllDigits([a, b]) && DecimalValue([a, b]) == 10 * DigitValue(a) + DigitValue(b)
  {
    assert DecimalPrefix([a, b], 1) == DigitValue(a);
  }
}
