/** String operations with the meaning Python gives them on `str`:
    substring tests, `split`, `join`, `strip`, `count`, slicing, and
    case conversion (ASCII letters only). */
module Text {

  datatype Option<+T> = None | Some(value: T)

  /** `sub` occurs in `s` starting at index `i`. */
  predicate OccursAt(s: string, sub: string, i: nat) {
    i + |sub| <= |s| && s[i..i + |sub|] == sub
  }

  /** Python's `sub in s`. */
  predicate Contains(s: string, sub: string) {
    exists i | 0 <= i <= |s| :: OccursAt(s, sub, i)
  }

  /** Python's `s.startswith(p)`. */
  predicate StartsWith(s: string, p: string) {
    OccursAt(s, p, 0)
  }

  /** Index of the first occurrence of `sub` in `s` at or after `from`. */
  function FindFrom(s: string, sub: string, from: nat): (r: Option<nat>)
    ensures r.Some? ==> from <= r.value && OccursAt(s, sub, r.value)
    ensures r.Some? ==> forall j | from <= j < r.value :: !OccursAt(s, sub, j)
    ensures r.None? ==> forall j | from <= j :: !OccursAt(s, sub, j)
    decreases |s| - from
  {
    if from + |sub| > |s| then None
    else if OccursAt(s, sub, from) then Some(from)
    else FindFrom(s, sub, from + 1)
  }

  /** Python's `s.find(sub)`, with `None` for -1. */
  function Find(s: string, sub: string): (r: Option<nat>)
    ensures r.Some? ==> OccursAt(s, sub, r.value) && forall j | 0 <= j < r.value :: !OccursAt(s, sub, j)
    ensures r.None? <==> !Contains(s, sub)
  {
    FindFrom(s, sub, 0)
  }

  lemma OccursInPrefix(s: string, sub: string, i: nat, j: nat)
    requires i <= |s| && OccursAt(s[..i], sub, j)
    ensures OccursAt(s, sub, j)
  {
    assert s[..i][j..j + |sub|] == s[j..j + |sub|];
  }

  lemma OccursInSuffix(s: string, sub: string, i: nat, j: nat)
    requires i <= |s| && OccursAt(s[i..], sub, j)
    ensures OccursAt(s, sub, i + j)
  {
    assert s[i..][j..j + |sub|] == s[i + j..i + j + |sub|];
  }

  /** Python's `s.split(sep)` for a non-empty separator. */
  function Split(s: string, sep: string): (parts: seq<string>)
    requires |sep| > 0
    ensures |parts| >= 1
    ensures |parts| >= 2 <==> Contains(s, sep)
    decreases |s|
  {
    match Find(s, sep)
    case None => [s]
    case Some(i) => [s[..i]] + Split(s[i + |sep|..], sep)
  }

  /** No piece `split` returns contains the separator. */
  lemma {:induction false} SplitPiecesAvoidSeparator(s: string, sep: string)
    requires |sep| > 0
    ensures forall k | 0 <= k < |Split(s, sep)| :: !Contains(Split(s, sep)[k], sep)
    decreases |s|
  {
    match Find(s, sep)
    case None =>
    case Some(i) =>
      var head, rest := s[..i], s[i + |sep|..];
      BeforeFirstAvoids(s, sep, i);
      SplitPiecesAvoidSeparator(rest, sep);
      var parts := Split(s, sep);
      assert parts == [head] + Split(rest, sep);
      assert forall k | 1 <= k < |parts| :: parts[k] == Split(rest, sep)[k - 1];
  }

  /** The text before the first occurrence does not contain the separator. */
  lemma BeforeFirstAvoids(s: string, sep: string, i: nat)
    requires |sep| > 0 && Find(s, sep) == Some(i)
    ensures i <= |s| && !Contains(s[..i], sep)
  {
    forall j | 0 <= j <= i ensures !OccursAt(s[..i], sep, j) {
      if OccursAt(s[..i], sep, j) { OccursInPrefix(s, sep, i, j); }
    }
  }

  /** Python's `sep.join(parts)`. */
  function Join(parts: seq<string>, sep: string): (r: string)
    ensures |parts| == 1 ==> r == parts[0]
    decreases |parts|
  {
    if parts == [] then ""
    else if |parts| == 1 then parts[0]
    else parts[0] + sep + Join(parts[1..], sep)
  }

  /** Splitting and joining back with the same separator gives the text back. */
  lemma {:induction false} JoinSplit(s: string, sep: string)
    requires |sep| > 0
    ensures Join(Split(s, sep), sep) == s
    decreases |s|
  {
    SplitStep(s, sep);
    match Find(s, sep)
    case None =>
    case Some(i) =>
      var rest := s[i + |sep|..];
      JoinSplit(rest, sep);
      JoinCons(s[..i], Split(rest, sep), sep);
      AroundOccurrence(s, sep, i);
  }

  lemma JoinCons(head: string, tail: seq<string>, sep: string)
    requires |tail| >= 1
    ensures Join([head] + tail, sep) == head + sep + Join(tail, sep)
  {
    assert ([head] + tail)[1..] == tail;
  }

  /** A text is what precedes an occurrence, the occurrence, and what follows. */
  lemma AroundOccurrence(s: string, sub: string, i: nat)
    requires OccursAt(s, sub, i)
    ensures s == s[..i] + sub + s[i + |sub|..]
  {
    assert s == s[..i] + s[i..i + |sub|] + s[i + |sub|..];
  }

  /** Python's `s.count(sub)` for a non-empty `sub`: the number of
      non-overlapping occurrences, which is one less than the number of
      pieces `split` cuts the text into. */
  function Count(s: string, sub: string): (n: nat)
    requires |sub| > 0
    ensures n == 0 <==> !Contains(s, sub)
    ensures n >= 2 <==> TwoApart(s, sub)
  {
    SplitThree(s, sub);
    |Split(s, sub)| - 1
  }

  /** `sub` occurs twice, the second occurrence starting where the first has ended. */
  predicate TwoApart(s: string, sub: string) {
    exists i, j | 0 <= i && i + |sub| <= j <= |s| :: OccursAt(s, sub, i) && OccursAt(s, sub, j)
  }

  /** `split` cuts the text into three pieces or more exactly when the
      separator occurs twice without overlapping. */
  lemma SplitThree(s: string, sep: string)
    requires |sep| > 0
    ensures |Split(s, sep)| >= 3 <==> TwoApart(s, sep)
  {
    SplitStep(s, sep);
    if Find(s, sep).None? {
      assert forall i | 0 <= i <= |s| :: !OccursAt(s, sep, i);
    } else {
      var f := Find(s, sep).value;
      var rest := s[f + |sep|..];
      assert |Split(s, sep)| == 1 + |Split(rest, sep)|;
      SecondOccurrence(s, sep, f);
    }
  }

  /** After the first occurrence at `f`, the rest of the text holds the
      separator exactly when the text holds it twice without overlap. */
  lemma SecondOccurrence(s: string, sep: string, f: nat)
    requires |sep| > 0 && Find(s, sep) == Some(f)
    ensures f + |sep| <= |s|
    ensures Contains(s[f + |sep|..], sep) <==> TwoApart(s, sep)
  {
    var rest := s[f + |sep|..];
    if Contains(rest, sep) {
      var j :| 0 <= j <= |rest| && OccursAt(rest, sep, j);
      SecondFromRest(s, sep, f, j);
    }
    if TwoApart(s, sep) {
      var i, j :| 0 <= i && i + |sep| <= j <= |s| && OccursAt(s, sep, i) && OccursAt(s, sep, j);
      RestFromSecond(s, sep, f, i, j);
    }
  }

  lemma SecondFromRest(s: string, sep: string, f: nat, j: nat)
    requires OccursAt(s, sep, f) && OccursAt(s[f + |sep|..], sep, j)
    ensures TwoApart(s, sep)
  {
    OccursInSuffix(s, sep, f + |sep|, j);
    assert f + |sep| <= f + |sep| + j <= |s|;
  }

  lemma RestFromSecond(s: string, sep: string, f: nat, i: nat, j: nat)
    requires |sep| > 0 && Find(s, sep) == Some(f)
    requires i + |sep| <= j <= |s| && OccursAt(s, sep, i) && OccursAt(s, sep, j)
    ensures Contains(s[f + |sep|..], sep)
  {
    assert f <= i;
    var rest := s[f + |sep|..];
    assert rest[j - f - |sep|..j - f] == s[j..j + |sep|];
    assert OccursAt(rest, sep, j - f - |sep|);
  }

  /** Python's `s[:n]`. */
  function Take(s: string, n: nat): (r: string)
    ensures |r| <= n && |r| <= |s| && r == s[..|r|]
    ensures |s| <= n ==> r == s
  {
    if |s| <= n then s else s[..n]
  }

  /** Python's `str.isspace` on one character (the characters Unicode
      classifies as whitespace or as a line or record separator). */
  predicate IsSpace(c: char) {
    || '\t' <= c <= '\r'
    || '\U{1C}' <= c <= ' '
    || c == '\U{85}' || c == '\U{A0}' || c == '\U{1680}'
    || '\U{2000}' <= c <= '\U{200A}'
    || c == '\U{2028}' || c == '\U{2029}' || c == '\U{202F}'
    || c == '\U{205F}' || c == '\U{3000}'
  }

  function TrimStart(s: string): (r: string)
    ensures |r| <= |s| && r == s[|s| - |r|..]
    ensures r == [] || !IsSpace(r[0])
    ensures forall k | 0 <= k < |s| - |r| :: IsSpace(s[k])
  {
    if s != [] && IsSpace(s[0]) then TrimStart(s[1..]) else s
  }

  function TrimEnd(s: string): (r: string)
    ensures |r| <= |s| && r == s[..|r|]
    ensures r == [] || !IsSpace(r[|r| - 1])
    ensures forall k | |r| <= k < |s| :: IsSpace(s[k])
  {
    if s != [] && IsSpace(s[|s| - 1]) then TrimEnd(s[..|s| - 1]) else s
  }

  /** Python's `s.strip()`: the longest slice of `s` that neither starts nor
      ends with whitespace, obtained by removing whitespace only. */
  function Strip(s: string): (r: string)
    ensures exists i, j | 0 <= i <= j <= |s| ::
      && r == s[i..j]
      && (forall k | 0 <= k < i :: IsSpace(s[k]))
      && (forall k | j <= k < |s| :: IsSpace(s[k]))
    ensures r == [] || (!IsSpace(r[0]) && !IsSpace(r[|r| - 1]))
  {
    var t := TrimEnd(s);
    var r := TrimStart(t);
    StripSlice(s, t, r);
    r
  }

  /** Trimming the end and then the start leaves a slice with only
      whitespace around it. */
  lemma StripSlice(s: string, t: string, r: string)
    requires |t| <= |s| && t == s[..|t|] && forall k | |t| <= k < |s| :: IsSpace(s[k])
    requires t == [] || !IsSpace(t[|t| - 1])
    requires |r| <= |t| && r == t[|t| - |r|..] && forall k | 0 <= k < |t| - |r| :: IsSpace(t[k])
    requires r == [] || !IsSpace(r[0])
    ensures exists i, j | 0 <= i <= j <= |s| ::
      && r == s[i..j]
      && (forall k | 0 <= k < i :: IsSpace(s[k]))
      && (forall k | j <= k < |s| :: IsSpace(s[k]))
    ensures r == [] || (!IsSpace(r[0]) && !IsSpace(r[|r| - 1]))
  {
    var i, j := |t| - |r|, |t|;
    assert r == s[i..j];
    assert forall k | 0 <= k < i :: IsSpace(s[k]) by {
      forall k | 0 <= k < i ensures IsSpace(s[k]) {
        assert s[k] == t[k];
      }
    }
    if r != [] {
      assert r[|r| - 1] == t[|t| - 1];
    }
  }

  function LowerChar(c: char): char {
    if 'A' <= c <= 'Z' then (c as int + 32) as char else c
  }

  function UpperChar(c: char): char {
    if 'a' <= c <= 'z' then (c as int - 32) as char else c
  }

  /** Python's `s.lower()` on ASCII letters. */
  function Lower(s: string): (r: string)
    ensures |r| == |s| && forall k | 0 <= k < |s| :: r[k] == LowerChar(s[k])
  {
    seq(|s|, k requires 0 <= k < |s| => LowerChar(s[k]))
  }

  /** Python's `s.upper()` on ASCII letters. */
  function Upper(s: string): (r: string)
    ensures |r| == |s| && forall k | 0 <= k < |s| :: r[k] == UpperChar(s[k])
  {
    seq(|s|, k requires 0 <= k < |s| => UpperChar(s[k]))
  }

  function DigitChar(d: nat): char
    requires d < 10
  {
    ('0' as int + d) as char
  }

  /** Python's `str(n)` for a natural number. */
  function NatToString(n: nat): (r: string)
    ensures |r| >= 1 && forall k | 0 <= k < |r| :: '0' <= r[k] <= '9'
  {
    if n < 10 then [DigitChar(n)] else NatToString(n / 10) + [DigitChar(n % 10)]
  }

  /** The empty text contains only the empty string. */
  lemma EmptyContainsNothing(sub: string)
    requires |sub| > 0
    ensures !Contains("", sub)
  {
  }

  /** Splitting the empty text gives one empty piece. */
  lemma SplitOfEmpty(sep: string)
    requires |sep| > 0
    ensures Split("", sep) == [""]
  {
    EmptyContainsNothing(sep);
    assert Find("", sep).None?;
  }

  /** One step of `Split`: the text before the first separator, then the
      pieces of the text after it. */
  lemma SplitStep(s: string, sep: string)
    requires |sep| > 0
    ensures Find(s, sep).None? ==> Split(s, sep) == [s]
    ensures Find(s, sep).Some? ==>
      && Find(s, sep).value + |sep| <= |s|
      && Split(s, sep) == [s[..Find(s, sep).value]] + Split(s[Find(s, sep).value + |sep|..], sep)
  {
  }

  /** The one-character text "\n" stands at `j` exactly when `s[j]` is a newline. */
  lemma NewlineAt(s: string, j: nat)
    requires j < |s|
    ensures OccursAt(s, "\n", j) <==> s[j] == '\n'
  {
    assert s[j..j + 1][0] == s[j];
  }

  /** Where the first newline is, character by character. */
  lemma FindNewline(s: string)
    ensures Find(s, "\n").None? ==> forall j | 0 <= j < |s| :: s[j] != '\n'
    ensures Find(s, "\n").Some? ==>
      && Find(s, "\n").value < |s| && s[Find(s, "\n").value] == '\n'
      && forall j | 0 <= j < Find(s, "\n").value :: s[j] != '\n'
  {
    forall j | 0 <= j < |s| ensures OccursAt(s, "\n", j) <==> s[j] == '\n' {
      NewlineAt(s, j);
    }
  }
}
