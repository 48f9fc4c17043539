/**
 * The text side of mention rewriting: finding the `<@id>` and `<@!id>`
 * tokens the pattern `(<@!?(\d+)>)` matches, scanned left to right as
 * `re.finditer` does, and Python's `str.replace`.
 */
module Mentions {
  import opened Wrappers
  import opened Numerals

  predicate IsDigit(c: char) {
    '0' <= c <= '9'
  }

  /** How many digits start at `j`. */
  function DigitRun(s: string, j: nat): (n: nat)
    requires j <= |s|
    ensures j + n <= |s|
    decreases |s| - j
  {
    if j < |s| && IsDigit(s[j]) then 1 + DigitRun(s, j + 1) else 0
  }

  /** One match: the whole token (group 1) and the number its digits spell (group 2). */
  datatype Mention = Mention(token: string, id: nat)

  /** The digits between `<@` or `<@!` and the closing `>`. */
  function TokenDigits(tok: string): string
    requires |tok| >= 4
  {
    if tok[2] == '!' then tok[3..|tok| - 1] else tok[2..|tok| - 1]
  }

  /** `tok` is a whole match of `<@!?(\d+)>`. */
  predicate IsToken(tok: string) {
    |tok| >= 4 && tok[0] == '<' && tok[1] == '@' && tok[|tok| - 1] == '>'
    && var d := TokenDigits(tok);
       |d| >= 1 && forall j :: 0 <= j < |d| ==> IsDigit(d[j])
  }

  /** The match that starts at `i`, if any. */
  function TokenAt(s: string, i: nat): (r: Option<Mention>)
    requires i <= |s|
    ensures r.Some? ==> 4 <= |r.value.token| && i + |r.value.token| <= |s|
    ensures r.Some? ==> r.value.token == s[i..i + |r.value.token|]
    ensures r.Some? ==> r.value.token[0] == '<' && r.value.token[|r.value.token| - 1] == '>'
  {
    if i + 1 < |s| && s[i] == '<' && s[i + 1] == '@' then
      var k := if i + 2 < |s| && s[i + 2] == '!' then i + 3 else i + 2;
      var n := DigitRun(s, k);
      if n >= 1 && k + n < |s| && s[k + n] == '>' then
        Some(Mention(s[i..k + n + 1], ValueOf(s[k..k + n], Dec)))
      else None
    else None
  }

  /** The scan `re.finditer` makes from position `i`: a match is skipped over whole. */
  function MatchesFrom(s: string, i: nat): (ms: seq<Mention>)
    requires i <= |s|
    ensures forall k :: 0 <= k < |ms| ==> |ms[k].token| >= 4
    decreases |s| - i
  {
    if i == |s| then []
    else
      match TokenAt(s, i)
      case Some(m) => [m] + MatchesFrom(s, i + |m.token|)
      case None => MatchesFrom(s, i + 1)
  }

  function Matches(s: string): (ms: seq<Mention>)
    ensures forall k :: 0 <= k < |ms| ==> |ms[k].token| >= 4
  {
    MatchesFrom(s, 0)
  }

  /** `s` holds `t` at position `i`. */
  predicate OccursAt(s: string, t: string, i: nat) {
    i + |t| <= |s| && s[i..i + |t|] == t
  }

  /** Python's `s.replace(t, r)`: every non-overlapping occurrence, leftmost first. */
  function Replace(s: string, t: string, r: string): string
    requires |t| > 0
  {
    ReplaceFrom(s, t, r, 0)
  }

  /** `s[k:].replace(t, r)`: an occurrence at `k` is replaced and skipped, anything else is copied. */
  function ReplaceFrom(s: string, t: string, r: string, k: nat): string
    requires |t| > 0 && k <= |s|
    decreases |s| - k
  {
    if |s| - k < |t| then s[k..]
    else if OccursAt(s, t, k) then r + ReplaceFrom(s, t, r, k + |t|)
    else [s[k]] + ReplaceFrom(s, t, r, k + 1)
  }

  // ----- lemmas -----

  /** `DigitRun` counts the longest run of digits: each counted character is a digit, the next is not. */
  lemma {:induction false} DigitRunMaximal(s: string, j: nat)
    requires j <= |s|
    ensures forall i :: j <= i < j + DigitRun(s, j) ==> IsDigit(s[i])
    ensures j + DigitRun(s, j) == |s| || !IsDigit(s[j + DigitRun(s, j)])
    decreases |s| - j
  {
    if j < |s| && IsDigit(s[j]) {
      DigitRunMaximal(s, j + 1);
    }
  }

  /** A run of digits `d` at `k` that is followed by a non-digit is the whole run. */
  lemma {:induction false} DigitRunExact(s: string, k: nat, d: string)
    requires k + |d| < |s| && s[k..k + |d|] == d
    requires forall j :: 0 <= j < |d| ==> IsDigit(d[j])
    requires !IsDigit(s[k + |d|])
    ensures DigitRun(s, k) == |d|
    decreases |d|
  {
    if |d| > 0 {
      assert s[k] == d[0];
      assert s[k + 1..k + |d|] == d[1..];
      DigitRunExact(s, k + 1, d[1..]);
    }
  }

  /** A match found at `i` is a token of the pattern, and its number is the value of its digits. */
  lemma TokenAtSound(s: string, i: nat)
    requires i <= |s|
    ensures TokenAt(s, i).Some? ==>
              IsToken(TokenAt(s, i).value.token)
              && TokenAt(s, i).value.id == ValueOf(TokenDigits(TokenAt(s, i).value.token), Dec)
  {
    if TokenAt(s, i).Some? {
      var k := if i + 2 < |s| && s[i + 2] == '!' then i + 3 else i + 2;
      var n := DigitRun(s, k);
      assert i + 1 < |s| && s[i] == '<' && s[i + 1] == '@' && n >= 1 && k + n < |s| && s[k + n] == '>';
      TokenAtWhen(s, i, k, n);
      DigitRunMaximal(s, k);
      ShapeToken(s, i, k, n);
    }
  }

  /** `<@` or `<@!`, then `n >= 1` digits, then `>` at `i` form a token whose digits are those `n`. */
  lemma ShapeToken(s: string, i: nat, k: nat, n: nat)
    requires i + 1 < |s| && s[i] == '<' && s[i + 1] == '@'
    requires k == if i + 2 < |s| && s[i + 2] == '!' then i + 3 else i + 2
    requires n >= 1 && k + n < |s| && s[k + n] == '>'
    requires forall j :: k <= j < k + n ==> IsDigit(s[j])
    ensures IsToken(s[i..k + n + 1]) && TokenDigits(s[i..k + n + 1]) == s[k..k + n]
  {
    var tok := s[i..k + n + 1];
    var d := s[k..k + n];
    assert tok[2] == s[i + 2];
    SliceOfSlice(s, i, k + n + 1, k - i, k + n - i);
    assert TokenDigits(tok) == d;
    forall j | 0 <= j < |d|
      ensures IsDigit(d[j])
    {
      assert d[j] == s[k + j];
    }
  }

  /** Every token of the pattern that starts at `i` is the match found there, with its number. */
  lemma TokenAtComplete(s: string, i: nat, n: nat)
    requires i + n <= |s| && IsToken(s[i..i + n])
    ensures TokenAt(s, i) == Some(Mention(s[i..i + n], ValueOf(TokenDigits(s[i..i + n]), Dec)))
  {
    var k := if i + 2 < |s| && s[i + 2] == '!' then i + 3 else i + 2;
    TokenShape(s, i, n, k);
    TokenAtWhen(s, i, k, i + n - 1 - k);
  }

  /** A token of the pattern at `i`, read character by character. */
  lemma TokenShape(s: string, i: nat, n: nat, k: nat)
    requires i + n <= |s| && IsToken(s[i..i + n])
    requires k == if i + 2 < |s| && s[i + 2] == '!' then i + 3 else i + 2
    ensures i + 1 < |s| && s[i] == '<' && s[i + 1] == '@'
    ensures k < i + n - 1 && s[i + n - 1] == '>' && DigitRun(s, k) == i + n - 1 - k
    ensures s[k..i + n - 1] == TokenDigits(s[i..i + n])
  {
    var tok := s[i..i + n];
    var d := TokenDigits(tok);
    assert tok[2] == s[i + 2];
    SliceOfSlice(s, i, i + n, k - i, n - 1);
    assert d == s[k..i + n - 1];
    assert s[i + n - 1] == tok[n - 1];
    DigitRunExact(s, k, d);
  }

  /** The match at `i` when `<@` or `<@!` there is followed by `m >= 1` digits and `>`. */
  lemma TokenAtWhen(s: string, i: nat, k: nat, m: nat)
    requires i + 1 < |s| && s[i] == '<' && s[i + 1] == '@'
    requires k == if i + 2 < |s| && s[i + 2] == '!' then i + 3 else i + 2
    requires k + m < |s| && m >= 1 && DigitRun(s, k) == m && s[k + m] == '>'
    ensures TokenAt(s, i) == Some(Mention(s[i..k + m + 1], ValueOf(s[k..k + m], Dec)))
  {
  }

  /**
   * The scan from `i` reports the first token at or after `i` first, then
   * goes on after it: no token is skipped and the leftmost one wins.
   */
  lemma {:induction false} MatchesFromFirst(s: string, i: nat, j: nat, m: Mention)
    requires i <= j < |s| && TokenAt(s, j) == Some(m)
    requires forall k :: i <= k < j ==> TokenAt(s, k).None?
    ensures MatchesFrom(s, i) == [m] + MatchesFrom(s, j + |m.token|)
    decreases j - i, 1
  {
    if i == j {
      ScanTakes(s, i, m);
    } else {
      SkipToFirst(s, i, j, m);
    }
  }

  /** The step of `MatchesFromFirst` before the first token: position `i` starts none. */
  lemma {:induction false} SkipToFirst(s: string, i: nat, j: nat, m: Mention)
    requires i < j < |s| && TokenAt(s, j) == Some(m)
    requires forall k :: i <= k < j ==> TokenAt(s, k).None?
    ensures MatchesFrom(s, i) == [m] + MatchesFrom(s, j + |m.token|)
    decreases j - i, 0
  {
    ScanSkips(s, i);
    MatchesFromFirst(s, i + 1, j, m);
  }

  /** A scan from `i` finds nothing exactly when no token starts at or after `i`. */
  lemma {:induction false} NoMatchesFrom(s: string, i: nat)
    requires i <= |s|
    ensures MatchesFrom(s, i) == [] <==> forall j :: i <= j < |s| ==> TokenAt(s, j).None?
    decreases |s| - i
  {
    if i < |s| {
      NoMatchesFrom(s, i + 1);
    }
  }

  /** `finditer` finds nothing exactly when no position starts a token. */
  lemma NoMatches(s: string)
    ensures Matches(s) == [] <==> forall j :: 0 <= j < |s| ==> TokenAt(s, j).None?
  {
    NoMatchesFrom(s, 0);
  }

  /** Every match the scan reports is a token of the text. */
  lemma MatchesOccur(s: string, i: nat)
    requires i <= |s|
    ensures forall m :: m in MatchesFrom(s, i) ==> exists j :: i <= j < |s| && TokenAt(s, j) == Some(m)
  {
    forall m | m in MatchesFrom(s, i) ensures exists j :: i <= j < |s| && TokenAt(s, j) == Some(m) {
      MatchOccurs(s, i, m);
    }
  }

  /** One match the scan from `i` reports is a token at or after `i`. */
  lemma {:induction false} MatchOccurs(s: string, i: nat, m: Mention)
    requires i <= |s| && m in MatchesFrom(s, i)
    ensures exists j :: i <= j < |s| && TokenAt(s, j) == Some(m)
    decreases |s| - i, 1
  {
    assert i < |s|;
    if TokenAt(s, i).None? {
      ScanSkips(s, i);
      MatchOccurs(s, i + 1, m);
    } else {
      OccursFromToken(s, i, m, TokenAt(s, i).value);
    }
  }

  /** The step of `MatchOccurs` at a token `m0`: `m` is that token or comes from the scan after it. */
  lemma {:induction false} OccursFromToken(s: string, i: nat, m: Mention, m0: Mention)
    requires i < |s| && TokenAt(s, i) == Some(m0) && m in MatchesFrom(s, i)
    ensures exists j :: i <= j < |s| && TokenAt(s, j) == Some(m)
    decreases |s| - i, 0
  {
    ScanTakes(s, i, m0);
    if m != m0 {
      var next := i + |m0.token|;
      assert next <= |s|;
      assert m in MatchesFrom(s, next);
      MatchOccurs(s, next, m);
    }
  }

  /** A token at `i` is reported, and the scan resumes after it. */
  lemma ScanTakes(s: string, i: nat, m: Mention)
    requires i < |s| && TokenAt(s, i) == Some(m)
    ensures MatchesFrom(s, i) == [m] + MatchesFrom(s, i + |m.token|)
  {
  }

  /** With no token at `i`, the scan moves on one character. */
  lemma ScanSkips(s: string, i: nat)
    requires i < |s| && TokenAt(s, i).None?
    ensures MatchesFrom(s, i) == MatchesFrom(s, i + 1)
  {
  }

  /** Replacing a string that does not occur changes nothing. */
  lemma ReplaceAbsent(s: string, t: string, r: string)
    requires |t| > 0
    requires forall j :: 0 <= j < |s| ==> !OccursAt(s, t, j)
    ensures Replace(s, t, r) == s
  {
    AbsentFrom(s, t, r, 0);
  }

  lemma {:induction false} AbsentFrom(s: string, t: string, r: string, k: nat)
    requires |t| > 0 && k <= |s|
    requires forall j :: k <= j < |s| ==> !OccursAt(s, t, j)
    ensures ReplaceFrom(s, t, r, k) == s[k..]
    decreases |s| - k
  {
    if |s| - k < |t| {
      ShortTail(s, t, r, k);
    } else {
      assert !OccursAt(s, t, k);
      SkipOne(s, t, r, k);
      AbsentFrom(s, t, r, k + 1);
      ConsSlice(s, k, |s|);
      Concat([s[k]], ReplaceFrom(s, t, r, k + 1), [s[k]], s[k + 1..], ReplaceFrom(s, t, r, k), s[k..]);
    }
  }

  /** Replacing a string by itself changes nothing. */
  lemma ReplaceSame(s: string, t: string)
    requires |t| > 0
    ensures Replace(s, t, t) == s
  {
    SameFrom(s, t, 0);
  }

  lemma {:induction false} SameFrom(s: string, t: string, k: nat)
    requires |t| > 0 && k <= |s|
    ensures ReplaceFrom(s, t, t, k) == s[k..]
    decreases |s| - k, 1
  {
    if |s| - k < |t| {
      ShortTail(s, t, t, k);
    } else if OccursAt(s, t, k) {
      SameAt(s, t, k);
    } else {
      SameSkip(s, t, k);
    }
  }

  /** An occurrence of `t` replaced by `t` gives back the same text. */
  lemma {:induction false} SameAt(s: string, t: string, k: nat)
    requires |t| > 0 && OccursAt(s, t, k)
    ensures ReplaceFrom(s, t, t, k) == s[k..]
    decreases |s| - k, 0
  {
    TakeOne(s, t, t, k);
    SameFrom(s, t, k + |t|);
    SplitSlice(s, k, k + |t|);
    Concat(t, ReplaceFrom(s, t, t, k + |t|), s[k..k + |t|], s[k + |t|..], ReplaceFrom(s, t, t, k), s[k..]);
  }

  lemma {:induction false} SameSkip(s: string, t: string, k: nat)
    requires |t| > 0 && k + |t| <= |s| && !OccursAt(s, t, k)
    ensures ReplaceFrom(s, t, t, k) == s[k..]
    decreases |s| - k, 0
  {
    SkipOne(s, t, t, k);
    SameFrom(s, t, k + 1);
    ConsSlice(s, k, |s|);
    Concat([s[k]], ReplaceFrom(s, t, t, k + 1), [s[k]], s[k + 1..], ReplaceFrom(s, t, t, k), s[k..]);
  }

  /**
   * The text before the first occurrence is kept, the occurrence becomes
   * `r`, and the text after it is replaced the same way.
   */
  lemma ReplaceFirst(s: string, t: string, r: string, i: nat)
    requires |t| > 0 && OccursAt(s, t, i)
    requires forall j :: 0 <= j < i ==> !OccursAt(s, t, j)
    ensures Replace(s, t, r) == s[..i] + r + ReplaceFrom(s, t, r, i + |t|)
  {
    FirstFrom(s, t, r, 0, i);
    assert s[0..i] == s[..i];
  }

  lemma {:induction false} FirstFrom(s: string, t: string, r: string, k: nat, i: nat)
    requires |t| > 0 && k <= i && OccursAt(s, t, i)
    requires forall j :: k <= j < i ==> !OccursAt(s, t, j)
    ensures ReplaceFrom(s, t, r, k) == s[k..i] + r + ReplaceFrom(s, t, r, i + |t|)
    decreases i - k
  {
    if k == i {
      TakeOne(s, t, r, k);
      assert s[k..i] == [];
    } else {
      assert !OccursAt(s, t, k);
      SkipOne(s, t, r, k);
      FirstFrom(s, t, r, k + 1, i);
      ConsSlice(s, k, i);
      Regroup(s[k], s[k + 1..i], r, ReplaceFrom(s, t, r, i + |t|), s[k..i],
              ReplaceFrom(s, t, r, k + 1), ReplaceFrom(s, t, r, k));
    }
  }

  /** Once `t` no longer fits, the rest of the text is copied. */
  lemma ShortTail(s: string, t: string, r: string, k: nat)
    requires |t| > 0 && k <= |s| && |s| - k < |t|
    ensures ReplaceFrom(s, t, r, k) == s[k..]
  {
  }

  /** An occurrence at `k` becomes `r`, and the scan goes on after it. */
  lemma TakeOne(s: string, t: string, r: string, k: nat)
    requires |t| > 0 && OccursAt(s, t, k)
    ensures ReplaceFrom(s, t, r, k) == r + ReplaceFrom(s, t, r, k + |t|)
  {
  }

  /** Where no occurrence starts at `k` but one still fits, the character at `k` is copied. */
  lemma SkipOne(s: string, t: string, r: string, k: nat)
    requires |t| > 0 && k + |t| <= |s| && !OccursAt(s, t, k)
    ensures ReplaceFrom(s, t, r, k) == [s[k]] + ReplaceFrom(s, t, r, k + 1)
  {
  }

  lemma SplitSlice(s: string, k: nat, m: nat)
    requires k <= m <= |s|
    ensures s[k..m] + s[m..] == s[k..]
  {
  }

  lemma SliceOfSlice(s: string, i: nat, j: nat, a: nat, b: nat)
    requires i <= j <= |s| && a <= b <= j - i
    ensures s[i..j][a..b] == s[i + a..i + b]
  {
    var x, y := s[i..j][a..b], s[i + a..i + b];
    assert |x| == |y|;
    forall k | 0 <= k < |x|
      ensures x[k] == y[k]
    {
      assert x[k] == s[i + a + k];
    }
  }

  lemma ConsSlice(s: string, k: nat, i: nat)
    requires k < i <= |s|
    ensures s[k..i] == [s[k]] + s[k + 1..i]
  {
  }

  /** Two concatenations of equal parts are equal. */
  lemma Concat(a: string, b: string, a2: string, b2: string, z: string, c: string)
    requires z == a + b && a == a2 && b == b2 && c == a2 + b2
    ensures z == c
  {
  }

  /** Moving one character into the first part of a three-part concatenation. */
  lemma Regroup(c: char, a: string, r: string, x: string, p: string, y: string, z: string)
    requires y == a + r + x && z == [c] + y && p == [c] + a
    ensures z == p + r + x
  {
  }

  /** The scan of a two-mention message, token by token. */
  lemma TwoMentions()
    ensures Matches("hi <@12> <@!7>") == [Mention("<@12>", 12), Mention("<@!7>", 7)]
  {
    var s := "hi <@12> <@!7>";
    FirstToken(s);
    SecondToken(s);
    assert MatchesFrom(s, 14) == [];
    assert MatchesFrom(s, 9) == [Mention("<@!7>", 7)];
    assert TokenAt(s, 8).None?;
    assert MatchesFrom(s, 3) == [Mention("<@12>", 12), Mention("<@!7>", 7)];
    assert TokenAt(s, 0).None? && TokenAt(s, 1).None? && TokenAt(s, 2).None?;
  }

  lemma FirstToken(s: string)
    requires s == "hi <@12> <@!7>"
    ensures TokenAt(s, 3) == Some(Mention("<@12>", 12))
  {
    assert DigitRun(s, 7) == 0;
    assert DigitRun(s, 6) == 1;
    assert DigitRun(s, 5) == 2;
    assert s[5..7] == "12" && s[3..8] == "<@12>";
    assert ValueOf("12", Dec) == 12 by {
      assert "12"[..1] == "1" && "1"[..0] == [];
    }
  }

  lemma SecondToken(s: string)
    requires s == "hi <@12> <@!7>"
    ensures TokenAt(s, 9) == Some(Mention("<@!7>", 7))
  {
    assert DigitRun(s, 13) == 0;
    assert DigitRun(s, 12) == 1;
    assert s[12..13] == "7" && s[9..14] == "<@!7>";
    assert ValueOf("7", Dec) == 7 by { assert "7"[..0] == []; }
  }
}
