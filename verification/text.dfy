/** String helpers the page components rely on, over `seq<char>`:
    ASCII case mapping, substring search, trimming, joining, the
    `replace('_', ' ').replace(/\b\w/g, upper)` label formatting, and the
    decimal rendering of integers inside template strings. */
module Text {

  predicate IsAsciiUpper(c: char) { 'A' <= c <= 'Z' }
  predicate IsAsciiLower(c: char) { 'a' <= c <= 'z' }
  predicate IsDigit(c: char) { '0' <= c <= '9' }

  /** The `\w` class of a non-Unicode regular expression. */
  predicate IsWordChar(c: char) {
    IsAsciiUpper(c) || IsAsciiLower(c) || IsDigit(c) || c == '_'
  }

  function LowerChar(c: char): (d: char)
    ensures IsAsciiUpper(c) ==> IsAsciiLower(d)
    ensures !IsAsciiUpper(c) ==> d == c
  {
    if IsAsciiUpper(c) then (c as int + 32) as char else c
  }

  function UpperChar(c: char): (d: char)
    ensures IsAsciiLower(c) ==> IsAsciiUpper(d)
    ensures !IsAsciiLower(c) ==> d == c
  {
    if IsAsciiLower(c) then (c as int - 32) as char else c
  }

  /** `toLowerCase()`, on the ASCII letters. */
  function ToLower(s: string): (r: string)
    ensures |r| == |s|
    ensures forall i :: 0 <= i < |s| ==> r[i] == LowerChar(s[i])
  {
    seq(|s|, i requires 0 <= i < |s| => LowerChar(s[i]))
  }

  predicate StartsWith(s: string, prefix: string) {
    |prefix| <= |s| && s[..|prefix|] == prefix
  }

  /** `s.includes(sub)`, defined by scanning from the left. */
  predicate Contains(s: string, sub: string)
    decreases |s|
  {
    StartsWith(s, sub) || (|s| > 0 && Contains(s[1..], sub))
  }

  /** The independent reference: some window of `s` equals `sub`. */
  ghost predicate OccursAt(s: string, sub: string, i: int) {
    0 <= i && i + |sub| <= |s| && s[i..i + |sub|] == sub
  }

  lemma {:induction false} ContainsIffOccurs(s: string, sub: string)
    ensures Contains(s, sub) <==> exists i :: OccursAt(s, sub, i)
    decreases |s|
  {
    if StartsWith(s, sub) {
      assert OccursAt(s, sub, 0);
    } else if |s| == 0 {
      assert |sub| > 0;
    } else {
      ContainsIffOccurs(s[1..], sub);
      if Contains(s[1..], sub) {
        var i :| OccursAt(s[1..], sub, i);
        assert s[i + 1..i + 1 + |sub|] == s[1..][i..i + |sub|];
        assert OccursAt(s, sub, i + 1);
      }
      if exists i :: OccursAt(s, sub, i) {
        var i :| OccursAt(s, sub, i);
        assert i >= 1;
        assert s[1..][i - 1..i - 1 + |sub|] == s[i..i + |sub|];
        assert OccursAt(s[1..], sub, i - 1);
      }
    }
  }

  /** Every string includes the empty string: an empty search matches. */
  lemma EmptyIsContained(s: string)
    ensures Contains(s, "")
  {
    assert StartsWith(s, "");
  }

  /** Lower-casing both sides keeps an occurrence: a case-insensitive
      search finds every exact substring. */
  lemma ContainsLowered(s: string, sub: string)
    requires Contains(s, sub)
    ensures Contains(ToLower(s), ToLower(sub))
  {
    ContainsIffOccurs(s, sub);
    var i :| OccursAt(s, sub, i);
    assert ToLower(s)[i..i + |sub|] == ToLower(sub);
    assert OccursAt(ToLower(s), ToLower(sub), i);
    ContainsIffOccurs(ToLower(s), ToLower(sub));
  }

  /** The characters `String.prototype.trim` strips: the white space and
      line terminators of ECMAScript (ASCII spaces and controls, the
      no-break space, the byte order mark, and the Unicode space
      separators). */
  predicate IsSpace(c: char) {
    c == ' ' || c == '\t' || c == '\n' || c == '\r' || c == '\U{0B}' || c == '\U{0C}'
    || c == '\U{A0}' || c == '\U{FEFF}' || c == '\U{1680}' || ('\U{2000}' <= c <= '\U{200A}')
    || c == '\U{2028}' || c == '\U{2029}' || c == '\U{202F}' || c == '\U{205F}' || c == '\U{3000}'
  }

  predicate IsBlank(s: string) {
    forall i :: 0 <= i < |s| ==> IsSpace(s[i])
  }

  function TrimStart(s: string): (r: string)
    ensures |r| <= |s| && r == s[|s| - |r|..]
    ensures |r| > 0 ==> !IsSpace(r[0])
    ensures IsBlank(s[..|s| - |r|])
    decreases |s|
  {
    if |s| > 0 && IsSpace(s[0]) then
      var r := TrimStart(s[1..]);
      assert s[..|s| - |r|] == [s[0]] + s[1..][..|s[1..]| - |r|];
      r
    else s
  }

  function TrimEnd(s: string): (r: string)
    ensures |r| <= |s| && r == s[..|r|]
    ensures |r| > 0 ==> !IsSpace(r[|r| - 1])
    ensures IsBlank(s[|r|..])
    decreases |s|
  {
    if |s| > 0 && IsSpace(s[|s| - 1]) then
      var r := TrimEnd(s[..|s| - 1]);
      assert s[|r|..] == s[..|s| - 1][|r|..] + [s[|s| - 1]];
      r
    else s
  }

  /** `s.trim()`. */
  function Trim(s: string): string {
    TrimEnd(TrimStart(s))
  }

  /** A string trims to the empty string exactly when it is all spaces. */
  lemma TrimEmptyIffBlank(s: string)
    ensures Trim(s) == "" <==> IsBlank(s)
  {
    var t := TrimStart(s);
    if Trim(s) == "" {
      assert IsBlank(t[0..]);
      assert s == s[..|s| - |t|] + t;
    }
  }

  /** `parts.join(sep)`. */
  function Join(parts: seq<string>, sep: string): (r: string)
    ensures |parts| == 0 ==> r == ""
    ensures |parts| == 1 ==> r == parts[0]
  {
    if |parts| == 0 then ""
    else if |parts| == 1 then parts[0]
    else Join(parts[..|parts| - 1], sep) + sep + parts[|parts| - 1]
  }

  /** Joining at least two parts puts the first part, then the separator,
      then the join of the rest. */
  lemma {:induction false} JoinFront(parts: seq<string>, sep: string)
    requires |parts| >= 2
    ensures Join(parts, sep) == parts[0] + sep + Join(parts[1..], sep)
    decreases |parts|
  {
    var n := |parts|;
    if n > 2 {
      var init := parts[..n - 1];
      JoinFront(init, sep);
      assert init[1..] == parts[1..][..n - 2];
      assert init[0] == parts[0];
    } else {
      assert parts[..1] == [parts[0]];
      assert parts[1..] == [parts[1]];
    }
  }

  /** A character in neither the parts nor the separator is not in their
      join. */
  lemma {:induction false} NotInJoin(parts: seq<string>, sep: string, c: char)
    requires c !in sep
    requires forall i :: 0 <= i < |parts| ==> c !in parts[i]
    ensures c !in Join(parts, sep)
    decreases |parts|
  {
    if |parts| >= 2 {
      NotInJoin(parts[..|parts| - 1], sep, c);
    }
  }

  /** `s.split(c)` with a one-character separator. */
  function Split(s: string, c: char): (parts: seq<string>)
    ensures |parts| >= 1
    ensures forall i :: 0 <= i < |parts| ==> c !in parts[i]
    decreases |s|
  {
    var k := IndexOfChar(s, c);
    if k < 0 then [s] else [s[..k]] + Split(s[k + 1..], c)
  }

  /** Splitting a join at its separator gives the parts back, as long as
      no part holds the separator. */
  lemma {:induction false} SplitJoin(parts: seq<string>, c: char)
    requires |parts| >= 1
    requires forall i :: 0 <= i < |parts| ==> c !in parts[i]
    ensures Split(Join(parts, [c]), c) == parts
    decreases |parts|
  {
    if |parts| >= 2 {
      JoinFront(parts, [c]);
      var rest := Join(parts[1..], [c]);
      var s := parts[0] + [c] + rest;
      var p0 := parts[0];
      assert s[|p0|] == c;
      assert s[..|p0|] == p0;
      var k := IndexOfChar(s, c);
      assert k == |p0|;
      assert s[k + 1..] == rest;
      SplitJoin(parts[1..], c);
    }
  }

  /** `s.indexOf(c)`: the first position holding `c`, or -1. */
  function IndexOfChar(s: string, c: char): (k: int)
    ensures -1 <= k < |s|
    ensures k == -1 <==> c !in s
    ensures k >= 0 ==> s[k] == c && c !in s[..k]
  {
    if |s| == 0 then -1
    else if s[0] == c then 0
    else
      var k := IndexOfChar(s[1..], c);
      assert s == [s[0]] + s[1..];
      if k == -1 then -1
      else
        assert s[..k + 1] == [s[0]] + s[1..][..k];
        k + 1
  }

  /** `s.replace(from, to)` with a one-character pattern: only the first
      occurrence is replaced, every other character is kept. */
  function ReplaceFirst(s: string, from: char, to: char): (r: string)
    ensures |r| == |s|
    ensures from !in s ==> r == s
    ensures from in s ==> exists k :: 0 <= k < |s| && s[k] == from && from !in s[..k]
                                      && r == s[k := to]
  {
    var k := IndexOfChar(s, from);
    if k < 0 then s else s[k := to]
  }

  /** The first occurrence is the one replaced: with `from` absent from
      the prefix, the character after it is swapped and the rest kept. */
  lemma ReplaceFirstAt(a: string, b: string, from: char, to: char)
    requires from !in a
    ensures ReplaceFirst(a + [from] + b, from, to) == a + [to] + b
  {
    var s := a + [from] + b;
    assert s[|a|] == from && s[..|a|] == a;
    assert IndexOfChar(s, from) == |a|;
    assert s[|a| := to] == a + [to] + b;
  }

  /** Cutting at the first occurrence of a character is unambiguous: two
      strings that each put `c` right after a `c`-free prefix agree on the
      prefix and on the rest. */
  lemma SplitAtFirstChar(a: string, x: string, b: string, y: string, c: char)
    requires c !in a && c !in b
    requires a + [c] + x == b + [c] + y
    ensures a == b && x == y
  {
    var s := a + [c] + x;
    assert s[|a|] == c && s[..|a|] == a;
    assert IndexOfChar(s, c) == |a|;
    var t := b + [c] + y;
    assert t[|b|] == c && t[..|b|] == b;
    assert IndexOfChar(t, c) == |b|;
    assert s[|a| + 1..] == x;
    assert t[|b| + 1..] == y;
  }

  /** Whether position `i` of `s` starts a word (`\b\w`). */
  predicate StartsWord(s: string, i: int)
    requires 0 <= i < |s|
  {
    IsWordChar(s[i]) && (i == 0 || !IsWordChar(s[i - 1]))
  }

  /** `s.replace(/\b\w/g, l => l.toUpperCase())`. */
  function CapitalizeWords(s: string): (r: string)
    ensures |r| == |s|
    ensures forall i :: 0 <= i < |s| && StartsWord(s, i) ==> r[i] == UpperChar(s[i])
    ensures forall i :: 0 <= i < |s| && !StartsWord(s, i) ==> r[i] == s[i]
  {
    seq(|s|, i requires 0 <= i < |s| => if StartsWord(s, i) then UpperChar(s[i]) else s[i])
  }

  /** Capitalising only re-cases: the words stay where they were, every
      word now starts with no lower-case letter, the letters agree with the
      input up to case, and capitalising again changes nothing. */
  lemma CapitalizeWordsRecases(s: string)
    ensures var r := CapitalizeWords(s);
            && (forall i :: 0 <= i < |s| ==> (StartsWord(r, i) <==> StartsWord(s, i)))
            && (forall i :: 0 <= i < |s| && StartsWord(r, i) ==> !IsAsciiLower(r[i]))
            && ToLower(r) == ToLower(s)
            && CapitalizeWords(r) == r
  {
    var r := CapitalizeWords(s);
    assert forall i :: 0 <= i < |s| ==> (IsWordChar(r[i]) <==> IsWordChar(s[i]));
    assert forall i :: 0 <= i < |s| ==> (StartsWord(r, i) <==> StartsWord(s, i));
    forall i | 0 <= i < |s|
      ensures LowerChar(r[i]) == LowerChar(s[i])
    {
      if StartsWord(s, i) && IsAsciiLower(s[i]) {
        assert r[i] == (s[i] as int - 32) as char;
      }
    }
    assert ToLower(r) == ToLower(s);
  }

  /** The label formatting used for roles and project statuses:
      first underscore becomes a space, then word-initial letters are
      upper-cased. */
  function FormatLabel(s: string): string {
    CapitalizeWords(ReplaceFirst(s, '_', ' '))
  }

  /** Label formatting changes nothing but the first underscore and the
      letter case: lower-casing the label gives the lower-cased input with
      its first underscore turned into a space. */
  lemma FormatLabelOnlyRecases(s: string)
    ensures |FormatLabel(s)| == |s|
    ensures ToLower(FormatLabel(s)) == ToLower(ReplaceFirst(s, '_', ' '))
  {
    var t := ReplaceFirst(s, '_', ' ');
    var r := FormatLabel(s);
    forall i | 0 <= i < |t|
      ensures LowerChar(r[i]) == LowerChar(t[i])
    {
      if StartsWord(t, i) && IsAsciiLower(t[i]) {
        assert r[i] == (t[i] as int - 32) as char;
      }
    }
  }

  /** The date part of an ISO timestamp: `s.split('T')[0]`. */
  function DatePart(s: string): (d: string)
    ensures d == Split(s, 'T')[0]
    ensures 'T' !in d && StartsWith(s, d)
    ensures d == s <==> 'T' !in s
    ensures |d| < |s| ==> s[|d|] == 'T'
  {
    var k := IndexOfChar(s, 'T');
    if k < 0 then s else s[..k]
  }

  /** A date followed by a time yields the date. */
  lemma DatePartOfTimestamp(date: string, time: string)
    requires 'T' !in date
    ensures DatePart(date + "T" + time) == date
  {
    var s := date + "T" + time;
    assert s[|date|] == 'T';
    assert s[..|date|] == date;
  }

  /** Decimal digits of a natural number, most significant first. */
  function NatToString(n: nat): (r: string)
    ensures |r| > 0
    ensures forall i :: 0 <= i < |r| ==> IsDigit(r[i])
    decreases n
  {
    if n < 10 then [('0' as int + n) as char]
    else NatToString(n / 10) + [('0' as int + n % 10) as char]
  }

  /** `${n}` for an integer. */
  function IntToString(n: int): (r: string)
    ensures |r| > 0
  {
    if n < 0 then "-" + NatToString(-n) else NatToString(n)
  }

  /** Reads back a string of decimal digits. */
  function DigitsValue(s: string): nat
    requires forall i :: 0 <= i < |s| ==> IsDigit(s[i])
  {
    if |s| == 0 then 0
    else
      assert IsDigit(s[|s| - 1]);
      DigitsValue(s[..|s| - 1]) * 10 + (s[|s| - 1] as int - '0' as int)
  }

  lemma {:induction false} NatToStringRoundTrip(n: nat)
    ensures DigitsValue(NatToString(n)) == n
    decreases n
  {
    if n >= 10 {
      NatToStringRoundTrip(n / 10);
      var s := NatToString(n);
      assert s[..|s| - 1] == NatToString(n / 10);
    }
  }

  /** Distinct numbers render differently. */
  lemma NatToStringInjective(m: nat, n: nat)
    requires NatToString(m) == NatToString(n)
    ensures m == n
  {
    NatToStringRoundTrip(m);
    NatToStringRoundTrip(n);
  }
}
