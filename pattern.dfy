/** The fragment of Python's `re` syntax the scoring script's regular expressions use:
    literals (optionally under `re.IGNORECASE`), the classes `\s`, `\w`,
    `[\w\-]` and `["']`, and the quantifiers `+`, `*` and `?`. A pattern is
    a sequence of tokens matched left to right with backtracking, so a
    match exists exactly when some way of consuming the quantified runs
    lets every following token match. */
module Pattern {
  import opened Text

  datatype CharClass =
    | Space        // \s
    | Word         // \w
    | WordOrDash   // [\w\-]
    | Quote        // ["']

  predicate IsWordChar(c: char) {
    'a' <= c <= 'z' || 'A' <= c <= 'Z' || '0' <= c <= '9' || c == '_'
  }

  predicate InClass(c: char, cls: CharClass) {
    match cls
    case Space => IsSpace(c)
    case Word => IsWordChar(c)
    case WordOrDash => IsWordChar(c) || c == '-'
    case Quote => c == '"' || c == '\''
  }

  datatype Token =
    | Lit(text: string, fold: bool)   // literal text; `fold` is re.IGNORECASE
    | Plus(cls: CharClass)            // one or more
    | Star(cls: CharClass)            // zero or more
    | Opt(cls: CharClass)             // zero or one

  /** The literal `t` stands at index `i` of `s`, compared case-insensitively when `fold`. */
  predicate LitAt(s: string, i: nat, t: string, fold: bool) {
    i + |t| <= |s| && if fold then Lower(s[i..i + |t|]) == Lower(t) else s[i..i + |t|] == t
  }

  /** Some prefix of `s[i..]` matches the pattern. */
  predicate MatchAt(s: string, i: nat, pat: seq<Token>)
    requires i <= |s|
    decreases |pat|, |s| - i
  {
    if pat == [] then true
    else match pat[0]
      case Lit(t, fold) => LitAt(s, i, t, fold) && MatchAt(s, i + |t|, pat[1..])
      case Plus(c) => i < |s| && InClass(s[i], c) && MatchAt(s, i + 1, [Star(c)] + pat[1..])
      case Star(c) => MatchAt(s, i, pat[1..]) || (i < |s| && InClass(s[i], c) && MatchAt(s, i + 1, pat))
      case Opt(c) => MatchAt(s, i, pat[1..]) || (i < |s| && InClass(s[i], c) && MatchAt(s, i + 1, pat[1..]))
  }

  /** `re.search(pat, s)` succeeds. */
  predicate Search(s: string, pat: seq<Token>) {
    exists i | 0 <= i <= |s| :: MatchAt(s, i, pat)
  }

  /** Under `re.MULTILINE`, `^` matches at index 0 and just after every newline. */
  predicate AtLineStart(s: string, i: nat) {
    i == 0 || (i <= |s| && s[i - 1] == '\n')
  }

  /** `re.search("^" + pat, s, re.MULTILINE)` succeeds. */
  predicate SearchLines(s: string, pat: seq<Token>) {
    exists i | 0 <= i <= |s| :: AtLineStart(s, i) && MatchAt(s, i, pat)
  }

  /** The number of line starts in `s[from..]` at which the pattern matches. */
  function CountLineMatchesFrom(s: string, pat: seq<Token>, from: nat): (n: nat)
    requires from <= |s| + 1
    ensures n <= |s| + 1 - from
    ensures n == 0 <==> forall i | from <= i <= |s| :: !(AtLineStart(s, i) && MatchAt(s, i, pat))
    decreases |s| + 1 - from
  {
    if from > |s| then 0
    else
      var here := if AtLineStart(s, from) && MatchAt(s, from, pat) then 1 else 0;
      here + CountLineMatchesFrom(s, pat, from + 1)
  }

  /** `len(re.findall("^" + pat, s, re.MULTILINE))`, counted as the number of
      line starts at which the pattern matches. The two agree for a pattern
      that starts with a literal whose first character is not whitespace and
      that holds no newline, followed by a `\s+` run, such as `^FROM\s+`.
      `findall` resumes scanning where a match ends, so the only line starts
      it skips lie inside a match. None lies inside the literal, which holds
      no newline. A line start inside the whitespace run begins with
      whitespace, where the literal cannot match. So every matching line
      start is found. This argument is not stated as a lemma. */
  function CountLineMatches(s: string, pat: seq<Token>): (n: nat)
    ensures n > 0 <==> SearchLines(s, pat)
  {
    CountLineMatchesFrom(s, pat, 0)
  }

  /** Lower-casing commutes with slicing. */
  lemma LowerSlice(s: string, i: nat, j: nat)
    requires i <= j <= |s|
    ensures Lower(s)[i..j] == Lower(s[i..j])
  {
  }

  /** Whatever the pattern matches contains each of its literals, in the
      lower-cased text for a literal under `re.IGNORECASE`. */
  lemma {:induction false} MatchedLiteralOccurs(s: string, i: nat, pat: seq<Token>, p: nat)
    requires i <= |s| && p < |pat| && pat[p].Lit?
    requires MatchAt(s, i, pat)
    ensures if pat[p].fold then Contains(Lower(s), Lower(pat[p].text)) else Contains(s, pat[p].text)
    decreases |pat|, |s| - i
  {
    match pat[0]
    case Lit(t, fold) =>
      if p == 0 {
        if fold {
          LowerSlice(s, i, i + |t|);
          assert OccursAt(Lower(s), Lower(t), i);
        } else {
          assert OccursAt(s, t, i);
        }
      } else {
        MatchedLiteralOccurs(s, i + |t|, pat[1..], p - 1);
      }
    case Plus(c) =>
      var next := [Star(c)] + pat[1..];
      assert next[p] == pat[p];
      MatchedLiteralOccurs(s, i + 1, next, p);
    case Star(c) =>
      if MatchAt(s, i, pat[1..]) {
        MatchedLiteralOccurs(s, i, pat[1..], p - 1);
      } else {
        MatchedLiteralOccurs(s, i + 1, pat, p);
      }
    case Opt(c) =>
      if MatchAt(s, i, pat[1..]) {
        MatchedLiteralOccurs(s, i, pat[1..], p - 1);
      } else {
        MatchedLiteralOccurs(s, i + 1, pat[1..], p - 1);
      }
  }

  /** A text in which the pattern is found contains each of its literals. */
  lemma SearchFindsLiteral(s: string, pat: seq<Token>, p: nat)
    requires p < |pat| && pat[p].Lit? && Search(s, pat)
    ensures if pat[p].fold then Contains(Lower(s), Lower(pat[p].text)) else Contains(s, pat[p].text)
  {
    var i :| 0 <= i <= |s| && MatchAt(s, i, pat);
    MatchedLiteralOccurs(s, i, pat, p);
  }

  /** The same, for a pattern found at a line start. */
  lemma SearchLinesFindsLiteral(s: string, pat: seq<Token>, p: nat)
    requires p < |pat| && pat[p].Lit? && SearchLines(s, pat)
    ensures if pat[p].fold then Contains(Lower(s), Lower(pat[p].text)) else Contains(s, pat[p].text)
  {
    var i :| 0 <= i <= |s| && AtLineStart(s, i) && MatchAt(s, i, pat);
    MatchedLiteralOccurs(s, i, pat, p);
  }

  /** Nothing matches in the empty text once a pattern needs a character. */
  lemma {:induction false} NoMatchInEmpty(pat: seq<Token>)
    requires pat != [] && (pat[0].Plus? || (pat[0].Lit? && pat[0].text != []))
    ensures !Search("", pat) && !SearchLines("", pat)
  {
    assert !MatchAt("", 0, pat);
  }

  // ---------------------------------------------------------------- what the patterns mean

  /** Every character of `s[m..j]` belongs to the class. */
  predicate RunOf(s: string, cls: CharClass, m: nat, j: nat)
    requires m <= j <= |s|
  {
    forall k | m <= k < j :: InClass(s[k], cls)
  }

  /** `c*` followed by the rest of a pattern matches exactly when some run of
      class characters, of any length, is followed by a match of the rest:
      backtracking tries every length. */
  lemma {:induction false} StarThenRest(s: string, m: nat, cls: CharClass, rest: seq<Token>)
    requires m <= |s|
    ensures MatchAt(s, m, [Star(cls)] + rest) <==>
      exists j | m <= j <= |s| :: RunOf(s, cls, m, j) && MatchAt(s, j, rest)
    decreases |s| - m
  {
    var pat := [Star(cls)] + rest;
    assert pat[0] == Star(cls) && pat[1..] == rest;
    if m < |s| {
      StarThenRest(s, m + 1, cls, rest);
    }
    if MatchAt(s, m, pat) {
      if MatchAt(s, m, rest) {
        assert RunOf(s, cls, m, m);
      } else {
        var j :| m + 1 <= j <= |s| && RunOf(s, cls, m + 1, j) && MatchAt(s, j, rest);
        assert RunOf(s, cls, m, j);
      }
    }
    if exists j | m <= j <= |s| :: RunOf(s, cls, m, j) && MatchAt(s, j, rest) {
      var j :| m <= j <= |s| && RunOf(s, cls, m, j) && MatchAt(s, j, rest);
      if j > m {
        assert RunOf(s, cls, m + 1, j);
      }
    }
  }

  /** `c+` followed by the rest of a pattern: a non-empty run of class
      characters, then a match of the rest. */
  lemma PlusThenRest(s: string, m: nat, cls: CharClass, rest: seq<Token>)
    requires m <= |s|
    ensures MatchAt(s, m, [Plus(cls)] + rest) <==>
      exists j | m < j <= |s| :: RunOf(s, cls, m, j) && MatchAt(s, j, rest)
  {
    var pat := [Plus(cls)] + rest;
    assert pat[0] == Plus(cls) && pat[1..] == rest;
    if m < |s| {
      StarThenRest(s, m + 1, cls, rest);
      if exists j | m < j <= |s| :: RunOf(s, cls, m, j) && MatchAt(s, j, rest) {
        var j :| m < j <= |s| && RunOf(s, cls, m, j) && MatchAt(s, j, rest);
        assert InClass(s[m], cls) && RunOf(s, cls, m + 1, j);
      }
    }
  }

  /** A literal followed by the rest of a pattern. */
  lemma LitThenRest(s: string, i: nat, t: string, fold: bool, rest: seq<Token>)
    requires i <= |s|
    ensures MatchAt(s, i, [Lit(t, fold)] + rest) <==> LitAt(s, i, t, fold) && MatchAt(s, i + |t|, rest)
  {
    assert ([Lit(t, fold)] + rest)[0] == Lit(t, fold) && ([Lit(t, fold)] + rest)[1..] == rest;
  }

  /** Under `re.MULTILINE`, `^\s+key`: a line starts with a non-empty run of
      whitespace (which may itself run over line breaks) followed by `key`. */
  predicate IndentedKey(s: string, key: string) {
    exists i, j | 0 <= i < j <= |s| :: AtLineStart(s, i) && RunOf(s, Space, i, j) && OccursAt(s, key, j)
  }

  lemma IndentedKeyAt(s: string, i: nat, key: string)
    requires i <= |s|
    ensures MatchAt(s, i, [Plus(Space), Lit(key, false)]) <==>
      exists j | i < j <= |s| :: RunOf(s, Space, i, j) && OccursAt(s, key, j)
  {
    assert [Plus(Space), Lit(key, false)] == [Plus(Space)] + [Lit(key, false)];
    PlusThenRest(s, i, Space, [Lit(key, false)]);
    forall j | i < j <= |s| ensures MatchAt(s, j, [Lit(key, false)]) <==> OccursAt(s, key, j) {
      LitThenRest(s, j, key, false, []);
      assert [Lit(key, false)] + [] == [Lit(key, false)];
    }
  }

  /** The multiline search for `^\s+key` succeeds exactly when the key stands indented at a line start. */
  lemma SearchIndentedKey(s: string, key: string)
    ensures SearchLines(s, [Plus(Space), Lit(key, false)]) <==> IndentedKey(s, key)
  {
    forall i | 0 <= i <= |s|
      ensures MatchAt(s, i, [Plus(Space), Lit(key, false)]) <==>
        exists j | i < j <= |s| :: RunOf(s, Space, i, j) && OccursAt(s, key, j)
    {
      IndentedKeyAt(s, i, key);
    }
  }

  /** `kw\s+` under `re.IGNORECASE` at `i`: the keyword in any letter case,
      then a whitespace character. */
  predicate KeywordThenSpace(s: string, i: nat, kw: string) {
    i + |kw| < |s| && LitAt(s, i, kw, true) && IsSpace(s[i + |kw|])
  }

  lemma KeywordThenSpaceAt(s: string, i: nat, kw: string)
    requires i <= |s|
    ensures MatchAt(s, i, [Lit(kw, true), Plus(Space)]) <==> KeywordThenSpace(s, i, kw)
  {
    assert [Lit(kw, true), Plus(Space)] == [Lit(kw, true)] + [Plus(Space)];
    LitThenRest(s, i, kw, true, [Plus(Space)]);
    if i + |kw| <= |s| {
      assert [Plus(Space)] == [Plus(Space)] + [];
      PlusThenRest(s, i + |kw|, Space, []);
      if i + |kw| < |s| && IsSpace(s[i + |kw|]) {
        assert RunOf(s, Space, i + |kw|, i + |kw| + 1);
      }
    }
  }

  /** `kw\s+arg` under `re.IGNORECASE`, matched at `i`: the keyword, a
      non-empty run of whitespace, then the argument, all in any letter case. */
  predicate ArgAfter(s: string, i: nat, kw: string, arg: string) {
    exists j | i + |kw| < j <= |s| :: LitAt(s, i, kw, true) && RunOf(s, Space, i + |kw|, j) && LitAt(s, j, arg, true)
  }

  lemma KeywordThenArgAt(s: string, i: nat, kw: string, arg: string)
    requires i <= |s|
    ensures MatchAt(s, i, [Lit(kw, true), Plus(Space), Lit(arg, true)]) <==> ArgAfter(s, i, kw, arg)
  {
    assert [Lit(kw, true), Plus(Space), Lit(arg, true)] == [Lit(kw, true)] + ([Plus(Space)] + [Lit(arg, true)]);
    LitThenRest(s, i, kw, true, [Plus(Space)] + [Lit(arg, true)]);
    if i + |kw| <= |s| {
      PlusThenRest(s, i + |kw|, Space, [Lit(arg, true)]);
      forall j | i + |kw| < j <= |s| ensures MatchAt(s, j, [Lit(arg, true)]) <==> LitAt(s, j, arg, true) {
        LitThenRest(s, j, arg, true, []);
        assert [Lit(arg, true)] + [] == [Lit(arg, true)];
      }
    }
  }

  /** The search for `kw\s+arg` succeeds exactly when the keyword and its
      argument stand somewhere, apart by whitespace. */
  predicate KeywordThenArg(s: string, kw: string, arg: string) {
    exists i | 0 <= i <= |s| :: ArgAfter(s, i, kw, arg)
  }

  lemma SearchKeywordThenArg(s: string, kw: string, arg: string)
    ensures Search(s, [Lit(kw, true), Plus(Space), Lit(arg, true)]) <==> KeywordThenArg(s, kw, arg)
  {
    forall i | 0 <= i <= |s|
      ensures MatchAt(s, i, [Lit(kw, true), Plus(Space), Lit(arg, true)]) <==> ArgAfter(s, i, kw, arg)
    {
      KeywordThenArgAt(s, i, kw, arg);
    }
  }

  /** A line start at which the pattern matches. */
  predicate LineMatch(s: string, pat: seq<Token>, i: nat) {
    i <= |s| && AtLineStart(s, i) && MatchAt(s, i, pat)
  }

  /** At least two matching line starts are counted from `from` on exactly
      when there are two of them. */
  lemma {:induction false} CountTwoLineMatches(s: string, pat: seq<Token>, from: nat)
    requires from <= |s| + 1
    ensures CountLineMatchesFrom(s, pat, from) >= 2 <==>
      exists i, j | from <= i < j <= |s| :: LineMatch(s, pat, i) && LineMatch(s, pat, j)
    decreases |s| + 1 - from
  {
    if from <= |s| {
      CountTwoLineMatches(s, pat, from + 1);
      var rest := CountLineMatchesFrom(s, pat, from + 1);
      if LineMatch(s, pat, from) {
        if rest >= 1 {
          var j :| from + 1 <= j <= |s| && AtLineStart(s, j) && MatchAt(s, j, pat);
          assert LineMatch(s, pat, from) && LineMatch(s, pat, j);
        }
        if exists i, j | from <= i < j <= |s| :: LineMatch(s, pat, i) && LineMatch(s, pat, j) {
          var i, j :| from <= i < j <= |s| && LineMatch(s, pat, i) && LineMatch(s, pat, j);
          assert AtLineStart(s, j) && MatchAt(s, j, pat);
        }
      } else {
        if exists i, j | from <= i < j <= |s| :: LineMatch(s, pat, i) && LineMatch(s, pat, j) {
          var i, j :| from <= i < j <= |s| && LineMatch(s, pat, i) && LineMatch(s, pat, j);
          assert from + 1 <= i;
        }
      }
    }
  }
}
