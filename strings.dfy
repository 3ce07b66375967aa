/** Text operations the generator and the fetcher rely on, with Python's meaning. */
module Strings {
  import opened Wrappers

  /** Python's str.isspace(): the characters that str.strip() without arguments removes. */
  predicate IsSpace(c: char) {
    c == ' ' || '\t' <= c <= '\r' || '\U{1C}' <= c <= '\U{1F}' || c == '\U{85}' || c == '\U{A0}'
    || c == '\U{1680}' || '\U{2000}' <= c <= '\U{200A}' || c == '\U{2028}' || c == '\U{2029}'
    || c == '\U{202F}' || c == '\U{205F}' || c == '\U{3000}'
  }

  ghost predicate AllSpace(s: string) {
    forall k :: 0 <= k < |s| ==> IsSpace(s[k])
  }

  /** str.lstrip(): the longest suffix of s that does not start with whitespace. */
  function TrimStart(s: string): (r: string)
    ensures |r| <= |s| && r == s[|s| - |r|..]
    ensures AllSpace(s[..|s| - |r|])
    ensures r != [] ==> !IsSpace(r[0])
  {
    if s != [] && IsSpace(s[0]) then
      var r := TrimStart(s[1..]);
      assert s[..|s| - |r|] == [s[0]] + s[1..][..|s| - 1 - |r|];
      r
    else
      s
  }

  /** str.rstrip(): the longest prefix of s that does not end with whitespace. */
  function TrimEnd(s: string): (r: string)
    ensures |r| <= |s| && r == s[..|r|]
    ensures AllSpace(s[|r|..])
    ensures r != [] ==> !IsSpace(r[|r| - 1])
  {
    if s != [] && IsSpace(s[|s| - 1]) then
      var r := TrimEnd(s[..|s| - 1]);
      assert s[|r|..] == s[..|s| - 1][|r|..] + [s[|s| - 1]];
      r
    else
      s
  }

  /** r is what str.strip() leaves of s: s with whitespace cut from both ends, and nothing more. */
  ghost predicate IsStripOf(s: string, r: string) {
    exists i :: StripAt(s, r, i)
  }

  /** r is s[i..i + |r|], only whitespace surrounds it in s, and it neither starts nor ends with whitespace. */
  ghost predicate StripAt(s: string, r: string, i: nat) {
    i + |r| <= |s| && r == s[i..i + |r|] && AllSpace(s[..i]) && AllSpace(s[i + |r|..])
    && (r != [] ==> !IsSpace(r[0]) && !IsSpace(r[|r| - 1]))
  }

  /** str.strip(): leading whitespace is dropped one character at a time, then trailing whitespace. */
  function Strip(s: string): string {
    if s != [] && IsSpace(s[0]) then Strip(s[1..]) else TrimEnd(s)
  }

  /** Strip(s) is what str.strip() leaves of s. */
  lemma StripIsStrip(s: string)
    ensures IsStripOf(s, Strip(s))
  {
    StripIsTrimmed(s);
    TrimmedIsStripAt(s, TrimStart(s), TrimEnd(TrimStart(s)));
  }

  /** Cutting leading whitespace to t and then trailing whitespace to r strips s to r. */
  lemma TrimmedIsStripAt(s: string, t: string, r: string)
    requires |t| <= |s| && t == s[|s| - |t|..] && AllSpace(s[..|s| - |t|])
    requires t != [] ==> !IsSpace(t[0])
    requires |r| <= |t| && r == t[..|r|] && AllSpace(t[|r|..])
    requires r != [] ==> !IsSpace(r[|r| - 1])
    ensures StripAt(s, r, |s| - |t|)
  {
    var i := |s| - |t|;
    assert s[i..][..|r|] == r;
    assert s[i + |r|..] == t[|r|..];
    assert r != [] ==> r[0] == t[0];
  }

  lemma {:induction false} StripIsTrimmed(s: string)
    ensures Strip(s) == TrimEnd(TrimStart(s))
  {
    if s != [] && IsSpace(s[0]) {
      StripIsTrimmed(s[1..]);
    }
  }

  /** TrimStart stops at the first non-space character. */
  lemma {:induction false} TrimStartAt(s: string, i: nat)
    requires i <= |s| && AllSpace(s[..i]) && (i < |s| ==> !IsSpace(s[i]))
    ensures TrimStart(s) == s[i..]
  {
    if i > 0 {
      assert s[..i][0] == s[0];
      assert s[1..][..i - 1] == s[..i][1..];
      assert i - 1 < |s| - 1 ==> s[1..][i - 1] == s[i];
      TrimStartAt(s[1..], i - 1);
      assert s[1..][i - 1..] == s[i..];
    }
  }

  /** TrimEnd stops after the last non-space character. */
  lemma {:induction false} TrimEndAt(s: string, j: nat)
    requires j <= |s| && AllSpace(s[j..]) && (j > 0 ==> !IsSpace(s[j - 1]))
    ensures TrimEnd(s) == s[..j]
  {
    if j < |s| {
      var t := s[..|s| - 1];
      assert s[j..][|s| - 1 - j] == s[|s| - 1];
      assert t[j..] == s[j..][..|s| - 1 - j];
      assert j > 0 ==> t[j - 1] == s[j - 1];
      TrimEndAt(t, j);
      assert t[..j] == s[..j];
    }
  }

  /** The strip of a string is unique: IsStripOf determines Strip's result completely. */
  lemma {:induction false} StripUnique(s: string, r: string)
    requires IsStripOf(s, r)
    ensures r == Strip(s)
  {
    StripUniqueTrimmed(s, r);
    StripIsTrimmed(s);
  }

  lemma StripUniqueTrimmed(s: string, r: string)
    requires IsStripOf(s, r)
    ensures r == TrimEnd(TrimStart(s))
  {
    var i: nat :| StripAt(s, r, i);
    if r == [] {
      StripAtEmpty(s, i);
    } else {
      StripAtNonEmpty(s, r, i);
    }
  }

  lemma StripAtEmpty(s: string, i: nat)
    requires StripAt(s, [], i)
    ensures TrimStart(s) == []
  {
    assert AllSpace(s[..|s|]) by {
      forall k | 0 <= k < |s| ensures IsSpace(s[k]) {
        if k < i { assert s[..i][k] == s[k]; } else { assert s[i..][k - i] == s[k]; }
      }
    }
    TrimStartAt(s, |s|);
  }

  lemma StripAtNonEmpty(s: string, r: string, i: nat)
    requires StripAt(s, r, i) && r != []
    ensures TrimEnd(TrimStart(s)) == r
  {
    assert s[i] == r[0];
    TrimStartAt(s, i);
    StripTail(s[i..], r);
  }

  /** Trailing whitespace after a piece that does not end in whitespace is cut by TrimEnd. */
  lemma StripTail(t: string, r: string)
    requires r != [] && |r| <= |t| && r == t[..|r|] && AllSpace(t[|r|..]) && !IsSpace(r[|r| - 1])
    ensures TrimEnd(t) == r
  {
    assert t[|r| - 1] == r[|r| - 1];
    TrimEndAt(t, |r|);
  }

  /** Stripping keeps only characters of its input. */
  lemma StripKeeps(s: string, c: char)
    requires c !in s
    ensures c !in Strip(s)
  {
    StripIsStrip(s);
    var i: nat :| StripAt(s, Strip(s), i);
  }

  /** str.lower() restricted to ASCII letters. */
  function LowerChar(c: char): char {
    if 'A' <= c <= 'Z' then (c as int - 'A' as int + 'a' as int) as char else c
  }

  function Lower(s: string): (r: string)
    ensures |r| == |s| && forall k :: 0 <= k < |s| ==> r[k] == LowerChar(s[k])
  {
    seq(|s|, k requires 0 <= k < |s| => LowerChar(s[k]))
  }

  /** str.upper() restricted to ASCII letters. */
  function UpperChar(c: char): char {
    if 'a' <= c <= 'z' then (c as int - 'a' as int + 'A' as int) as char else c
  }

  function Upper(s: string): (r: string)
    ensures |r| == |s| && forall k :: 0 <= k < |s| ==> r[k] == UpperChar(s[k])
  {
    seq(|s|, k requires 0 <= k < |s| => UpperChar(s[k]))
  }

  /** Upper case keeps every character that is not a lower-case ASCII letter out. */
  lemma UpperKeeps(s: string, c: char)
    requires c !in s && !('A' <= c <= 'Z')
    ensures c !in Upper(s)
  {
  }

  /** str.startswith(p) */
  predicate StartsWith(s: string, p: string) {
    |p| <= |s| && s[..|p|] == p
  }

  /** p in s, for strings: p occurs as a contiguous piece of s. */
  predicate Contains(s: string, p: string) {
    exists i | 0 <= i <= |s| - |p| :: OccursAt(s, p, i)
  }

  predicate OccursAt(s: string, p: string, i: nat) {
    i + |p| <= |s| && s[i..i + |p|] == p
  }

  lemma ContainsMiddle(a: string, b: string, c: string)
    ensures Contains(a + b + c, b)
  {
    assert (a + b + c)[|a|..|a| + |b|] == b;
    assert OccursAt(a + b + c, b, |a|);
  }

  /** A piece of b is a piece of any text that has b in it. */
  lemma ContainsWithin(a: string, b: string, c: string, p: string)
    requires Contains(b, p)
    ensures Contains(a + b + c, p)
  {
    var i :| 0 <= i <= |b| - |p| && OccursAt(b, p, i);
    assert (a + b + c)[|a| + i..|a| + i + |p|] == b[i..i + |p|];
    assert OccursAt(a + b + c, p, |a| + i);
  }

  /** s with the prefix p removed, if s starts with p. */
  function DropPrefix(p: string, s: string): (r: Option<string>)
    ensures r.Some? <==> StartsWith(s, p)
    ensures r.Some? ==> s == p + r.value
  {
    if StartsWith(s, p) then Some(s[|p|..]) else None
  }

  /** s with the suffix p removed, if s ends with p. */
  function DropSuffix(p: string, s: string): (r: Option<string>)
    ensures r.Some? <==> (|p| <= |s| && s[|s| - |p|..] == p)
    ensures r.Some? ==> s == r.value + p
  {
    if |p| <= |s| && s[|s| - |p|..] == p then Some(s[..|s| - |p|]) else None
  }

  lemma DropPrefixOf(p: string, x: string)
    ensures DropPrefix(p, p + x) == Some(x)
  {
    assert (p + x)[..|p|] == p;
    assert (p + x)[|p|..] == x;
  }

  lemma DropSuffixOf(p: string, x: string)
    ensures DropSuffix(p, x + p) == Some(x)
  {
    assert (x + p)[|x + p| - |p|..] == p;
    assert (x + p)[..|x|] == x;
  }

  /** str.partition(c) when c occurs: the text before the first c and the text after it. */
  function SplitAtFirst(c: char, s: string): (r: Option<(string, string)>)
    ensures r.None? <==> c !in s
    ensures r.Some? ==> s == r.value.0 + [c] + r.value.1 && c !in r.value.0
  {
    if s == [] then None
    else if s[0] == c then Some(([], s[1..]))
    else match SplitAtFirst(c, s[1..])
      case None => None
      case Some((before, after)) => Some(([s[0]] + before, after))
  }

  lemma {:induction false} SplitAtFirstOf(c: char, a: string, b: string)
    requires c !in a
    ensures SplitAtFirst(c, a + [c] + b) == Some((a, b))
  {
    if a == [] {
      assert a + [c] + b == [c] + b;
    } else {
      assert (a + [c] + b)[1..] == a[1..] + [c] + b;
      SplitAtFirstOf(c, a[1..], b);
      assert [a[0]] + a[1..] == a;
    }
  }

  /** str.split('\n'): the lines of s, the last one being what follows the final newline. */
  function Lines(s: string): (r: seq<string>)
    ensures |r| >= 1
    decreases |s|
  {
    match SplitAtFirst('\n', s)
    case None => [s]
    case Some((line, rest)) => [line] + Lines(rest)
  }

  /** The text of a sequence of lines, each ended by a newline. */
  function JoinLines(ls: seq<string>): string {
    if ls == [] then "" else ls[0] + "\n" + JoinLines(ls[1..])
  }

  ghost predicate NoNewlines(ls: seq<string>) {
    forall k :: 0 <= k < |ls| ==> '\n' !in ls[k]
  }

  /** Splitting joined lines gives the lines back, and an empty last line. */
  lemma {:induction false} LinesOfJoin(ls: seq<string>)
    requires NoNewlines(ls)
    ensures Lines(JoinLines(ls)) == ls + [""]
  {
    if ls != [] {
      SplitAtFirstOf('\n', ls[0], JoinLines(ls[1..]));
      LinesOfJoin(ls[1..]);
      assert ls == [ls[0]] + ls[1..];
    }
  }

  lemma NoNewlinesAppend(a: seq<string>, b: seq<string>)
    requires NoNewlines(a) && NoNewlines(b)
    ensures NoNewlines(a + b)
  {
    forall k | 0 <= k < |a + b| ensures '\n' !in (a + b)[k] {
      if k < |a| { assert (a + b)[k] == a[k]; } else { assert (a + b)[k] == b[k - |a|]; }
    }
  }

  lemma JoinLinesSnoc(ls: seq<string>, l: string)
    ensures JoinLines(ls + [l]) == JoinLines(ls) + l + "\n"
  {
    JoinLinesAppend(ls, [l]);
    assert [l][1..] == [];
  }

  lemma {:induction false} JoinLinesAppend(a: seq<string>, b: seq<string>)
    ensures JoinLines(a + b) == JoinLines(a) + JoinLines(b)
  {
    if a == [] {
      assert a + b == b;
    } else {
      assert (a + b)[1..] == a[1..] + b;
      JoinLinesAppend(a[1..], b);
    }
  }

  /** Text whose last line is empty is its other lines, each ended by a newline. */
  lemma {:induction false} LinesJoined(s: string)
    ensures Lines(s)[|Lines(s)| - 1] == "" ==> s == JoinLines(Lines(s)[..|Lines(s)| - 1])
    decreases |s|
  {
    match SplitAtFirst('\n', s)
    case None =>
    case Some((line, rest)) =>
      LinesJoined(rest);
      var ls := Lines(s);
      assert ls == [line] + Lines(rest);
      if ls[|ls| - 1] == "" {
        assert ls[..|ls| - 1] == [line] + Lines(rest)[..|Lines(rest)| - 1];
      }
  }

  /** The number a string of decimal digits spells, most significant digit first. */
  function DigitsValue(s: string): int {
    if s == [] then 0 else DigitsValue(s[..|s| - 1]) * 10 + (s[|s| - 1] as int - '0' as int)
  }

  /** str(n): the decimal digits of n, most significant first, without leading zeros. */
  function Decimal(n: nat): (r: string)
    ensures |r| >= 1 && (forall k :: 0 <= k < |r| ==> '0' <= r[k] <= '9')
    ensures |r| > 1 ==> r[0] != '0'
    ensures DigitsValue(r) == n
  {
    if n < 10 then
      var r := [(n + '0' as int) as char];
      assert r[..0] == [];
      r
    else
      var high := Decimal(n / 10);
      var r := high + [(n % 10 + '0' as int) as char];
      assert r[..|r| - 1] == high;
      r
  }

  ghost predicate IsDecimal(s: string) {
    |s| >= 1 && (forall k :: 0 <= k < |s| ==> '0' <= s[k] <= '9') && (|s| > 1 ==> s[0] != '0')
  }

  /** A digit string that does not start with 0 spells a positive number. */
  lemma {:induction false} LeadingDigitValue(s: string)
    requires |s| >= 1 && (forall k :: 0 <= k < |s| ==> '0' <= s[k] <= '9') && s[0] != '0'
    ensures DigitsValue(s) >= 1
    decreases |s|
  {
    if |s| > 1 {
      var p := s[..|s| - 1];
      assert p[0] == s[0];
      LeadingDigitValue(p);
    }
  }

  lemma LastDigit(high: int, d: int)
    requires high >= 1 && 0 <= d < 10
    ensures (high * 10 + d) / 10 == high && (high * 10 + d) % 10 == d && high * 10 + d >= 10
  {
  }

  /** Decimal is the only way to write a number in digits without leading zeros. */
  lemma {:induction false} DecimalUnique(s: string)
    requires IsDecimal(s)
    ensures DigitsValue(s) >= 0 && s == Decimal(DigitsValue(s))
    decreases |s|
  {
    if |s| > 1 {
      var p, last := s[..|s| - 1], s[|s| - 1];
      assert p[0] == s[0];
      assert IsDecimal(p);
      LeadingDigitValue(p);
      DecimalUnique(p);
      var d := last as int - '0' as int;
      assert DigitsValue(s) == DigitsValue(p) * 10 + d;
      LastDigit(DigitsValue(p), d);
      DecimalStep(DigitsValue(s));
      assert (d + '0' as int) as char == last;
      assert s == p + [last];
    }
  }

  lemma DecimalStep(n: nat)
    requires n >= 10
    ensures Decimal(n) == Decimal(n / 10) + [(n % 10 + '0' as int) as char]
  {
  }

  /** The text html followed by each of the texts in turn. */
  function AppendAll(html: string, texts: seq<string>): string {
    if texts == [] then html else AppendAll(html, texts[..|texts| - 1]) + texts[|texts| - 1]
  }

  lemma TakeAll(texts: seq<string>)
    ensures texts[..|texts|] == texts
  {
  }

  /** One more step of a loop that appends texts[i]. */
  lemma AppendAllStep(html: string, texts: seq<string>, i: nat)
    requires i < |texts|
    ensures AppendAll(html, texts[..i + 1]) == AppendAll(html, texts[..i]) + texts[i]
  {
    assert texts[..i + 1][..i] == texts[..i];
  }

  /** Appending two lists of texts is appending the first, then the second. */
  lemma {:induction false} AppendAllConcat(html: string, a: seq<string>, b: seq<string>)
    ensures AppendAll(html, a + b) == AppendAll(AppendAll(html, a), b)
    decreases |b|
  {
    if b == [] {
      assert a + b == a;
    } else {
      var n := |b| - 1;
      assert (a + b)[..|a + b| - 1] == a + b[..n];
      AppendAllConcat(html, a, b[..n]);
    }
  }
}
