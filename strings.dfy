/**
 * The JavaScript string operations the core relies on, as pure functions:
 * `startsWith`, `split` with a literal separator, `join`, `trim` and a
 * literal global `replace`.
 */
module Strings {
  import opened Wrappers

  /** An optional JavaScript string is truthy when it is present and not empty. */
  predicate Truthy(s: Option<string>) {
    s.Some? && s.value != ""
  }

  predicate StartsWith(s: string, prefix: string) {
    |prefix| <= |s| && s[..|prefix|] == prefix
  }

  /** `pat` occurs in `s` at position `k`. */
  predicate OccursAt(s: string, pat: string, k: int) {
    0 <= k && k + |pat| <= |s| && s[k..k + |pat|] == pat
  }

  predicate Contains(s: string, pat: string) {
    exists k | 0 <= k <= |s| :: OccursAt(s, pat, k)
  }

  /** The leftmost position at or after `from` where `pat` occurs in `s`. */
  function FindFrom(s: string, pat: string, from: nat): Option<nat>
    requires |pat| > 0
    decreases |s| - from
  {
    if from + |pat| > |s| then None
    else if s[from..from + |pat|] == pat then Some(from)
    else FindFrom(s, pat, from + 1)
  }

  /** The position found is at or after `from`, and `pat` occurs there. */
  lemma {:induction false} FindFromFound(s: string, pat: string, from: nat)
    requires |pat| > 0 && FindFrom(s, pat, from).Some?
    ensures var k := FindFrom(s, pat, from).value; from <= k && OccursAt(s, pat, k)
    decreases |s| - from
  {
    if s[from..from + |pat|] != pat {
      FindFromFound(s, pat, from + 1);
    }
  }

  /** Nothing occurs between `from` and the position found. */
  lemma {:induction false} FindFromNoEarlier(s: string, pat: string, from: nat, j: int)
    requires |pat| > 0 && FindFrom(s, pat, from).Some?
    requires from <= j < FindFrom(s, pat, from).value
    ensures !OccursAt(s, pat, j)
    decreases |s| - from
  {
    if j > from {
      FindFromNoEarlier(s, pat, from + 1, j);
    }
  }

  /** When nothing is found, nothing occurs at or after `from`. */
  lemma {:induction false} FindFromNone(s: string, pat: string, from: nat, j: int)
    requires |pat| > 0 && FindFrom(s, pat, from).None? && from <= j
    ensures !OccursAt(s, pat, j)
    decreases |s| - from
  {
    if from + |pat| <= |s| && j > from {
      FindFromNone(s, pat, from + 1, j);
    }
  }

  /** An occurrence with none before it, from `from` on, is the one found. */
  lemma {:induction false} FindFromIs(s: string, pat: string, from: nat, k: nat)
    requires |pat| > 0 && from <= k && OccursAt(s, pat, k)
    requires forall j :: from <= j < k ==> !OccursAt(s, pat, j)
    ensures FindFrom(s, pat, from) == Some(k)
    decreases k - from
  {
    if from < k {
      assert !OccursAt(s, pat, from);
      FindFromIs(s, pat, from + 1, k);
    }
  }

  /** The leftmost position at which `pat` occurs in `s` (`indexOf`). */
  function FirstOccurrence(s: string, pat: string): (r: Option<nat>)
    requires |pat| > 0
    ensures r.Some? ==> OccursAt(s, pat, r.value)
  {
    var r := FindFrom(s, pat, 0);
    if r.Some? then FindFromFound(s, pat, 0); r else r
  }

  /** No occurrence comes before the first one, and there is none at all when none is found. */
  lemma FirstOccurrenceFirst(s: string, pat: string, j: int)
    requires |pat| > 0 && 0 <= j
    ensures FirstOccurrence(s, pat).Some? && j < FirstOccurrence(s, pat).value ==> !OccursAt(s, pat, j)
    ensures FirstOccurrence(s, pat).None? ==> !OccursAt(s, pat, j)
  {
    if FirstOccurrence(s, pat).Some? && j < FirstOccurrence(s, pat).value {
      FindFromNoEarlier(s, pat, 0, j);
    }
    if FirstOccurrence(s, pat).None? {
      FindFromNone(s, pat, 0, j);
    }
  }

  /** An occurrence with none before it is the first one. */
  lemma FirstOccurrenceIs(s: string, pat: string, k: nat)
    requires |pat| > 0
    requires OccursAt(s, pat, k)
    requires forall j :: 0 <= j < k ==> !OccursAt(s, pat, j)
    ensures FirstOccurrence(s, pat) == Some(k)
  {
    FindFromIs(s, pat, 0, k);
  }

  /** Appending text never moves an occurrence that is already complete. */
  lemma FirstOccurrenceAppend(p: string, c: string, pat: string)
    requires |pat| > 0 && FirstOccurrence(p, pat).Some?
    ensures FirstOccurrence(p + c, pat) == FirstOccurrence(p, pat)
  {
    var k := FirstOccurrence(p, pat).value;
    assert (p + c)[k..k + |pat|] == p[k..k + |pat|];
    forall j | 0 <= j < k
      ensures !OccursAt(p + c, pat, j)
    {
      FirstOccurrenceFirst(p, pat, j);
      assert (p + c)[j..j + |pat|] == p[j..j + |pat|];
    }
    FirstOccurrenceIs(p + c, pat, k);
  }

  function Join(parts: seq<string>, sep: string): string {
    if |parts| == 0 then ""
    else if |parts| == 1 then parts[0]
    else parts[0] + sep + Join(parts[1..], sep)
  }

  /**
   * `s.split(sep)`: the pieces between the leftmost non-overlapping
   * occurrences of `sep`. There is always at least one piece, the pieces
   * rejoined give `s` back, and no piece contains the separator.
   */
  function Split(s: string, sep: string): (r: seq<string>)
    requires |sep| > 0
    ensures |r| >= 1
    decreases |s|
  {
    match FirstOccurrence(s, sep)
    case None => [s]
    case Some(k) => [s[..k]] + Split(s[k + |sep|..], sep)
  }

  lemma JoinCons(x: string, rest: seq<string>, sep: string)
    requires |rest| >= 1
    ensures Join([x] + rest, sep) == x + sep + Join(rest, sep)
  {
    assert ([x] + rest)[1..] == rest;
  }

  /** Rejoining the pieces of a split with the separator gives the text back. */
  lemma {:induction false} JoinSplit(s: string, sep: string)
    requires |sep| > 0
    ensures Join(Split(s, sep), sep) == s
    decreases |s|
  {
    match FirstOccurrence(s, sep)
    case None =>
    case Some(k) =>
      var rest := s[k + |sep|..];
      JoinSplit(rest, sep);
      SplitAt(s, sep, k);
      JoinCons(s[..k], Split(rest, sep), sep);
      Reassemble(s, sep, k);
  }

  /** Cutting out an occurrence and putting it back gives the text back. */
  lemma Reassemble(s: string, pat: string, k: nat)
    requires OccursAt(s, pat, k)
    ensures s[..k] + pat + s[k + |pat|..] == s
  {
    assert s[k..k + |pat|] == pat;
    assert s == s[..k] + s[k..k + |pat|] + s[k + |pat|..];
  }

  /** The text before the first occurrence holds no occurrence. */
  lemma BeforeFirstIsFree(s: string, sep: string, k: nat)
    requires |sep| > 0 && FirstOccurrence(s, sep) == Some(k)
    ensures !Contains(s[..k], sep)
  {
    forall j | 0 <= j <= k ensures !OccursAt(s[..k], sep, j) {
      if j + |sep| <= k {
        FirstOccurrenceFirst(s, sep, j);
        assert s[..k][j..j + |sep|] == s[j..j + |sep|];
      }
    }
  }

  lemma NotFoundIsFree(s: string, sep: string)
    requires |sep| > 0 && FirstOccurrence(s, sep).None?
    ensures !Contains(s, sep)
  {
    forall j | 0 <= j <= |s| ensures !OccursAt(s, sep, j) {
      FirstOccurrenceFirst(s, sep, j);
    }
  }

  /** No piece of a split contains the separator. */
  lemma {:induction false} SplitPiecesFree(s: string, sep: string)
    requires |sep| > 0
    ensures forall i :: 0 <= i < |Split(s, sep)| ==> !Contains(Split(s, sep)[i], sep)
    decreases |s|
  {
    match FirstOccurrence(s, sep)
    case None =>
      NotFoundIsFree(s, sep);
    case Some(k) =>
      BeforeFirstIsFree(s, sep, k);
      SplitPiecesFree(s[k + |sep|..], sep);
      SplitAt(s, sep, k);
  }

  lemma SplitWithout(s: string, sep: string)
    requires |sep| > 0 && !Contains(s, sep)
    ensures Split(s, sep) == [s]
  {
  }

  /**
   * Splitting `p + c` re-splits only the last piece of `p`: the complete
   * pieces of `p` survive unchanged. This is why a carry-over buffer that
   * keeps only the last piece loses nothing.
   */
  lemma SplitAt(s: string, sep: string, k: nat)
    requires |sep| > 0 && FirstOccurrence(s, sep) == Some(k)
    ensures Split(s, sep) == [s[..k]] + Split(s[k + |sep|..], sep)
  {
  }

  /** The first piece of `p + c` equals that of `p` once `p` holds a separator. */
  lemma SplitAppendStep(p: string, c: string, sep: string, k: nat)
    requires |sep| > 0 && FirstOccurrence(p, sep) == Some(k)
    ensures Split(p + c, sep) == [p[..k]] + Split(p[k + |sep|..] + c, sep)
  {
    FirstOccurrenceAppend(p, c, sep);
    SplitAt(p + c, sep, k);
    assert (p + c)[..k] == p[..k];
    assert (p + c)[k + |sep|..] == p[k + |sep|..] + c;
  }

  /** Putting a piece in front of a list of pieces commutes with dropping the last one. */
  lemma ConsButLast(a: seq<string>, b: seq<string>, r: seq<string>, r': seq<string>, h: string, u: seq<string>)
    requires |r'| >= 1 && r == [h] + r'
    requires a == [h] + b && b == r'[..|r'| - 1] + u
    ensures r[|r| - 1] == r'[|r'| - 1]
    ensures a == r[..|r| - 1] + u
  {
    assert r[..|r| - 1] == [h] + r'[..|r'| - 1];
  }

  lemma {:induction false} SplitAppend(p: string, c: string, sep: string)
    requires |sep| > 0
    ensures var r := Split(p, sep);
      Split(p + c, sep) == r[..|r| - 1] + Split(r[|r| - 1] + c, sep)
    decreases |p|
  {
    match FirstOccurrence(p, sep)
    case None =>
    case Some(k) =>
      var p' := p[k + |sep|..];
      var r' := Split(p', sep);
      SplitAppendStep(p, c, sep, k);
      SplitAt(p, sep, k);
      SplitAppend(p', c, sep);
      ConsButLast(Split(p + c, sep), Split(p' + c, sep), Split(p, sep), r', p[..k], Split(r'[|r'| - 1] + c, sep));
  }

  /**
   * A piece `x` is clean for `sep` when, followed by `sep`, the first
   * occurrence of `sep` is the one just after `x` (for "\n\n": `x` holds no
   * "\n\n" and does not end in "\n").
   */
  predicate Clean(x: string, sep: string)
    requires |sep| > 0
  {
    FirstOccurrence(x + sep, sep) == Some(|x|)
  }

  lemma SplitClean(x: string, sep: string, y: string)
    requires |sep| > 0 && Clean(x, sep)
    ensures Split(x + sep + y, sep) == [x] + Split(y, sep)
  {
    FirstOccurrenceAppend(x + sep, y, sep);
    assert (x + sep + y)[..|x|] == x;
    assert (x + sep + y)[|x| + |sep|..] == y;
  }

  /** Split undoes Join when every piece but the last is clean and the last has no separator. */
  lemma {:induction false} SplitJoin(xs: seq<string>, sep: string)
    requires |sep| > 0 && |xs| >= 1
    requires forall i :: 0 <= i < |xs| - 1 ==> Clean(xs[i], sep)
    requires !Contains(xs[|xs| - 1], sep)
    ensures Split(Join(xs, sep), sep) == xs
  {
    if |xs| == 1 {
      SplitWithout(xs[0], sep);
    } else {
      SplitJoin(xs[1..], sep);
      SplitClean(xs[0], sep, Join(xs[1..], sep));
      assert [xs[0]] + xs[1..] == xs;
    }
  }

  lemma NoNewlineClean(x: string)
    requires forall i :: 0 <= i < |x| ==> x[i] != '\n'
    ensures Clean(x, "\n\n") && !Contains(x, "\n\n")
  {
    var s := x + "\n\n";
    assert OccursAt(s, "\n\n", |x|) by { assert s[|x|..|x| + 2] == "\n\n"; }
    forall j | 0 <= j < |x|
      ensures !OccursAt(s, "\n\n", j)
    {
      assert s[j] == x[j];
    }
    FirstOccurrenceIs(s, "\n\n", |x|);
    forall j | 0 <= j <= |x| ensures !OccursAt(x, "\n\n", j) {
      if j + 2 <= |x| {
        assert x[j..j + 2][0] == x[j];
      }
    }
  }

  /** A piece without the character `c` is clean for the one-character separator `c`. */
  lemma NoCharClean(x: string, c: char)
    requires forall i :: 0 <= i < |x| ==> x[i] != c
    ensures Clean(x, [c]) && !Contains(x, [c])
  {
    var s := x + [c];
    assert OccursAt(s, [c], |x|) by { assert s[|x|..|x| + 1] == [c]; }
    forall j | 0 <= j < |x|
      ensures !OccursAt(s, [c], j)
    {
      assert s[j..j + 1][0] == s[j] == x[j];
    }
    FirstOccurrenceIs(s, [c], |x|);
    forall j | 0 <= j <= |x| ensures !OccursAt(x, [c], j) {
      if j + 1 <= |x| {
        assert x[j..j + 1][0] == x[j];
      }
    }
  }

  /** A number's `toString()` for an integer. */
  function NatToString(n: nat): (s: string)
    ensures |s| >= 1 && forall i :: 0 <= i < |s| ==> '0' <= s[i] <= '9'
  {
    if n < 10 then [('0' as int + n) as char]
    else NatToString(n / 10) + [('0' as int + n % 10) as char]
  }

  function IntToString(n: int): (s: string)
    ensures |s| >= 1
  {
    if n < 0 then "-" + NatToString(-n) else NatToString(n)
  }

  /**
   * The characters JavaScript's `trim` removes: the WhiteSpace and
   * LineTerminator code points of sections 12.2 and 12.3 of ECMA-262.
   */
  predicate IsJsSpace(c: char) {
    c == ' ' || c == '\t' || c == '\n' || c == '\r' || c == '\U{000B}' || c == '\U{000C}'
    || c == '\U{00A0}' || c == '\U{1680}' || ('\U{2000}' <= c <= '\U{200A}')
    || c == '\U{2028}' || c == '\U{2029}' || c == '\U{202F}' || c == '\U{205F}'
    || c == '\U{3000}' || c == '\U{FEFF}'
  }

  predicate AllSpace(s: string) {
    forall k :: 0 <= k < |s| ==> IsJsSpace(s[k])
  }

  /** The number of white-space characters `s` starts with. */
  function LeadingSpace(s: string): (n: nat)
    ensures n <= |s| && AllSpace(s[..n])
    ensures n < |s| ==> !IsJsSpace(s[n])
  {
    if |s| > 0 && IsJsSpace(s[0]) then 1 + LeadingSpace(s[1..]) else 0
  }

  /** The number of white-space characters `s` ends with. */
  function TrailingSpace(s: string): (n: nat)
    ensures n <= |s| && AllSpace(s[|s| - n..])
    ensures n < |s| ==> !IsJsSpace(s[|s| - n - 1])
  {
    if |s| > 0 && IsJsSpace(s[|s| - 1]) then 1 + TrailingSpace(s[..|s| - 1]) else 0
  }

  /** `r` is `s` with the first `i` characters and a suffix removed, all of them white space. */
  predicate SpaceAt(s: string, r: string, i: int) {
    0 <= i <= |s| - |r| && r == s[i..i + |r|] && AllSpace(s[..i]) && AllSpace(s[i + |r|..])
  }

  /** `r` is `s` with a white-space prefix and a white-space suffix removed. */
  predicate SpaceBounded(s: string, r: string) {
    exists i :: 0 <= i <= |s| && SpaceAt(s, r, i)
  }

  /**
   * `s.trim()`: `s` without its leading and trailing white space, so
   * blank exactly when `s` is all white space, and otherwise starting and
   * ending with a character that is not white space.
   */
  function Trim(s: string): (r: string)
    ensures SpaceBounded(s, r)
    ensures r == "" <==> AllSpace(s)
    ensures |r| > 0 ==> !IsJsSpace(r[0]) && !IsJsSpace(r[|r| - 1])
  {
    var i := LeadingSpace(s);
    var j := TrailingSpace(s[i..]);
    TrimBounded(s, i, j);
    TrimBlank(s, i, j);
    TrimEnds(s, i, j);
    s[i..|s| - j]
  }

  lemma TrimBounded(s: string, i: nat, j: nat)
    requires i + j <= |s| && AllSpace(s[..i]) && AllSpace(s[i..][|s| - i - j..])
    ensures SpaceAt(s, s[i..|s| - j], i)
  {
    var r := s[i..|s| - j];
    assert s[i..i + |r|] == r;
    assert s[i + |r|..] == s[i..][|s| - i - j..];
  }

  lemma TrimBlank(s: string, i: nat, j: nat)
    requires i + j <= |s| && AllSpace(s[..i]) && (i < |s| ==> !IsJsSpace(s[i])) && AllSpace(s[i..][|s| - i - j..])
    ensures s[i..|s| - j] == "" <==> AllSpace(s)
  {
    if i + j == |s| {
      assert s[i..][|s| - i - j..] == s[i..];
      SpaceSuffixAt(s, i, i);
      assert s[..i] == s;
    }
  }

  lemma TrimEnds(s: string, i: nat, j: nat)
    requires i + j <= |s| && (i < |s| ==> !IsJsSpace(s[i]))
    requires j < |s| - i ==> !IsJsSpace(s[i..][|s| - i - j - 1])
    ensures var r := s[i..|s| - j]; |r| > 0 ==> !IsJsSpace(r[0]) && !IsJsSpace(r[|r| - 1])
  {
  }

  /** A white-space prefix `s[..m]` has white space at every index below `m`. */
  lemma SpacePrefixAt(s: string, m: nat, k: nat)
    requires m <= |s|
    ensures AllSpace(s[..m]) && k < m ==> IsJsSpace(s[k])
  {
    if AllSpace(s[..m]) && k < m {
      assert s[..m][k] == s[k];
    }
  }

  /** A white-space suffix `s[m..]` has white space at every index from `m` on. */
  lemma SpaceSuffixAt(s: string, m: nat, k: nat)
    requires m <= |s|
    ensures AllSpace(s[m..]) && m <= k < |s| ==> IsJsSpace(s[k])
  {
    if AllSpace(s[m..]) && m <= k < |s| {
      assert s[m..][k - m] == s[k];
    }
  }

  /**
   * The trimmed text is the only stretch of `s` between white space that
   * neither starts nor ends with white space.
   */
  lemma TrimUnique(s: string, r: string)
    requires SpaceBounded(s, r)
    requires |r| > 0 ==> !IsJsSpace(r[0]) && !IsJsSpace(r[|r| - 1])
    ensures r == Trim(s)
  {
    var t := Trim(s);
    var i :| 0 <= i <= |s| && SpaceAt(s, r, i);
    var m :| 0 <= m <= |s| && SpaceAt(s, t, m);
    BlankWithin(s, r, i);
    if r != [] && t != [] {
      SameStretch(s, r, i, t, m);
    }
  }

  /** A stretch between white space is blank exactly when all of `s` is white space. */
  lemma BlankWithin(s: string, r: string, i: int)
    requires SpaceAt(s, r, i)
    requires |r| > 0 ==> !IsJsSpace(r[0])
    ensures r == [] <==> AllSpace(s)
  {
    if r == [] {
      forall k | 0 <= k < |s| ensures IsJsSpace(s[k]) {
        SpacePrefixAt(s, i, k);
        SpaceSuffixAt(s, i, k);
      }
    } else {
      assert r[0] == s[i];
    }
  }

  /** Two non-blank stretches between white space that start and end with other characters coincide. */
  lemma SameStretch(s: string, r: string, i: int, t: string, m: int)
    requires SpaceAt(s, r, i) && SpaceAt(s, t, m)
    requires |r| > 0 && !IsJsSpace(r[0]) && !IsJsSpace(r[|r| - 1])
    requires |t| > 0 && !IsJsSpace(t[0]) && !IsJsSpace(t[|t| - 1])
    ensures r == t
  {
    assert r[0] == s[i] && t[0] == s[m];
    assert r[|r| - 1] == s[i + |r| - 1] && t[|t| - 1] == s[m + |t| - 1];
    SpacePrefixAt(s, m, i);
    SpacePrefixAt(s, i, m);
    SpaceSuffixAt(s, i + |r|, m + |t| - 1);
    SpaceSuffixAt(s, m + |t|, i + |r| - 1);
  }

  /** A replacement string with no `$`, so no replacement pattern. */
  predicate NoDollar(rep: string) {
    forall i :: 0 <= i < |rep| ==> rep[i] != '$'
  }

  /**
   * The text a replacement string stands for at one match, for a pattern
   * without capture groups (the GetSubstitution operation of ECMA-262):
   * `$$` is a `$`, `$&` the match, `` $` `` the text before it and `$'`
   * the text after it; any other `$` stays as it is.
   */
  function Substitution(rep: string, matched: string, before: string, after: string): string
    decreases |rep|
  {
    if rep == [] then ""
    else if |rep| >= 2 && rep[0] == '$' && rep[1] in "$&`'" then
      var inserted := if rep[1] == '$' then "$" else if rep[1] == '&' then matched
                      else if rep[1] == '`' then before else after;
      inserted + Substitution(rep[2..], matched, before, after)
    else [rep[0]] + Substitution(rep[1..], matched, before, after)
  }

  /** A replacement without `$` is inserted as it is. */
  lemma {:induction false} SubstitutionLiteral(rep: string, matched: string, before: string, after: string)
    requires NoDollar(rep)
    ensures Substitution(rep, matched, before, after) == rep
    decreases |rep|
  {
    if rep != [] {
      assert rep[0] != '$';
      SubstitutionLiteral(rep[1..], matched, before, after);
      assert [rep[0]] + rep[1..] == rep;
    }
  }

  /**
   * Replacing from the leftmost occurrence on, in the text `s` that follows
   * the already scanned `before`; `` $` `` and `$'` see the whole text.
   */
  function ReplaceFrom(before: string, s: string, pat: string, rep: string): string
    requires |pat| > 0
    decreases |s|
  {
    match FirstOccurrence(s, pat)
    case None => s
    case Some(k) =>
      s[..k] + Substitution(rep, pat, before + s[..k], s[k + |pat|..])
      + ReplaceFrom(before + s[..k + |pat|], s[k + |pat|..], pat, rep)
  }

  /** With a literal replacement, every occurrence becomes the replacement: the split pieces joined by it. */
  lemma {:induction false} ReplaceFromLiteral(before: string, s: string, pat: string, rep: string)
    requires |pat| > 0 && NoDollar(rep)
    ensures ReplaceFrom(before, s, pat, rep) == Join(Split(s, pat), rep)
    decreases |s|
  {
    match FirstOccurrence(s, pat)
    case None =>
    case Some(k) =>
      var front, rest := s[..k], s[k + |pat|..];
      var tail := Split(rest, pat);
      ReplaceFromLiteral(before + s[..k + |pat|], rest, pat, rep);
      SubstitutionLiteral(rep, pat, before + front, rest);
      ReplaceFromStep(before, s, pat, rep, k);
      SplitAt(s, pat, k);
      JoinCons(front, tail, rep);
  }

  /** `$&` puts every match back, so the text comes out unchanged. */
  lemma {:induction false} ReplaceFromMatch(before: string, s: string, pat: string)
    requires |pat| > 0
    ensures ReplaceFrom(before, s, pat, "$&") == s
    decreases |s|
  {
    match FirstOccurrence(s, pat)
    case None =>
    case Some(k) =>
      var front, rest := s[..k], s[k + |pat|..];
      ReplaceFromMatch(before + s[..k + |pat|], rest, pat);
      SubstitutionMatch(pat, before + front, rest);
      ReplaceFromStep(before, s, pat, "$&", k);
      Reassemble(s, pat, k);
  }

  /** One step of the scan: the text up to the occurrence, its substitution, and the rest replaced. */
  lemma ReplaceFromStep(before: string, s: string, pat: string, rep: string, k: nat)
    requires |pat| > 0 && FirstOccurrence(s, pat) == Some(k)
    ensures ReplaceFrom(before, s, pat, rep) == s[..k] + Substitution(rep, pat, before + s[..k], s[k + |pat|..])
      + ReplaceFrom(before + s[..k + |pat|], s[k + |pat|..], pat, rep)
  {
  }

  lemma SubstitutionMatch(matched: string, before: string, after: string)
    ensures Substitution("$&", matched, before, after) == matched
  {
    assert "$&"[2..] == [];
  }

  /**
   * `s.replace(/pat/g, rep)` for a literal pattern and a replacement string:
   * every leftmost non-overlapping occurrence is replaced by what `rep`
   * stands for there. Without an occurrence the text is unchanged; a
   * replacement without `$` joins the split pieces.
   */
  function ReplaceAll(s: string, pat: string, rep: string): (r: string)
    requires |pat| > 0
    ensures !Contains(s, pat) ==> r == s
    ensures NoDollar(rep) ==> r == Join(Split(s, pat), rep)
  {
    if NoDollar(rep) then
      ReplaceFromLiteral("", s, pat, rep);
      ReplaceFrom("", s, pat, rep)
    else ReplaceFrom("", s, pat, rep)
  }

  /** A replacement of exactly `$&` leaves the text as it was. */
  lemma ReplaceMatchReference(s: string, pat: string)
    requires |pat| > 0
    ensures ReplaceAll(s, pat, "$&") == s
  {
    ReplaceFromMatch("", s, pat);
  }
}
