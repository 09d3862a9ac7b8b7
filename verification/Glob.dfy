/** The one pattern matcher of the gateway (internal/glob/glob.go): literal text in which "*" stands
    for any run of characters. The greedy matcher is proved to decide the meaning of the pattern. */
module Glob {

  /** What a pattern means, character by character. */
  predicate Matches(pattern: string, s: string) {
    if pattern == "" then s == ""
    else if pattern[0] == '*' then
      exists k {:trigger Matches(pattern[1..], s[k..])} :: 0 <= k <= |s| && Matches(pattern[1..], s[k..])
    else s != "" && s[0] == pattern[0] && Matches(pattern[1..], s[1..])
  }

  // ----- the library calls

  predicate HasPrefix(s: string, t: string) { t <= s }

  predicate HasSuffix(s: string, t: string) { |t| <= |s| && s[|s| - |t|..] == t }

  predicate OccursAt(s: string, t: string, i: int) {
    0 <= i <= |s| - |t| && s[i..i + |t|] == t
  }

  /** The leftmost occurrence of `t` in `s`, or -1. */
  function Index(s: string, t: string): int {
    if OccursAt(s, t, 0) then 0
    else if s == "" then -1
    else
      var r := Index(s[1..], t);
      if r < 0 then -1 else r + 1
  }

  lemma OccursShift(s: string, t: string, i: nat)
    requires s != "" && i > 0
    ensures OccursAt(s, t, i) == OccursAt(s[1..], t, i - 1)
  {
    if i <= |s| - |t| {
      assert s[1..][i - 1..i - 1 + |t|] == s[i..i + |t|];
    }
  }

  lemma {:induction false} IndexOccurs(s: string, t: string)
    ensures Index(s, t) == -1 || OccursAt(s, t, Index(s, t))
  {
    if !OccursAt(s, t, 0) && s != "" {
      IndexOccurs(s[1..], t);
      if Index(s, t) > 0 {
        OccursShift(s, t, Index(s, t));
      }
    }
  }

  lemma {:induction false} IndexIsLeftmost(s: string, t: string, i: nat)
    requires OccursAt(s, t, i)
    ensures 0 <= Index(s, t) <= i
  {
    if !OccursAt(s, t, 0) {
      OccursShift(s, t, i);
      IndexIsLeftmost(s[1..], t, i - 1);
    }
  }

  ghost predicate IsLeftmost(s: string, t: string, i: int) {
    && (i == -1 || OccursAt(s, t, i))
    && (forall k :: OccursAt(s, t, k) ==> 0 <= i <= k)
  }

  lemma IndexMeaning(s: string, t: string)
    ensures IsLeftmost(s, t, Index(s, t))
  {
    IndexOccurs(s, t);
    forall k | OccursAt(s, t, k) ensures 0 <= Index(s, t) <= k {
      IndexIsLeftmost(s, t, k);
    }
  }

  /** The pieces of a pattern between its stars; always at least one. */
  function Split(pattern: string): (parts: seq<string>)
    ensures |parts| >= 1
    ensures |parts| == 1 <==> '*' !in pattern
    ensures |parts| == 1 ==> parts == [pattern]
  {
    if pattern == "" then [""]
    else
      var rest := Split(pattern[1..]);
      assert [pattern[0]] + pattern[1..] == pattern;
      if pattern[0] == '*' then [""] + rest
      else [[pattern[0]] + rest[0]] + rest[1..]
  }

  // ----- specificity

  predicate HasWildcard(pattern: string) { '*' in pattern }

  function LiteralPrefix(pattern: string): string {
    if pattern == "" || pattern[0] == '*' then "" else [pattern[0]] + LiteralPrefix(pattern[1..])
  }

  /** Negative when `a` is more specific than `b`, positive when less, zero for a tie. */
  function Compare(a: string, b: string): int {
    if HasWildcard(a) != HasWildcard(b) then (if !HasWildcard(a) then -1 else 1)
    else
      var la, lb := |LiteralPrefix(a)|, |LiteralPrefix(b)|;
      if la > lb then -1 else if la < lb then 1 else 0
  }

  /** The literal prefix is the text before the first star. */
  lemma {:induction false} LiteralPrefixMeaning(pattern: string)
    ensures LiteralPrefix(pattern) == Split(pattern)[0] && '*' !in LiteralPrefix(pattern)
    ensures |LiteralPrefix(pattern)| <= |pattern|
    ensures if HasWildcard(pattern) then |LiteralPrefix(pattern)| < |pattern| && pattern[|LiteralPrefix(pattern)|] == '*'
            else LiteralPrefix(pattern) == pattern
  {
    if pattern != "" && pattern[0] != '*' {
      LiteralPrefixMeaning(pattern[1..]);
    }
  }

  /** Every match starts with it. */
  lemma {:induction false} MatchesStartWithPrefix(pattern: string, s: string)
    requires Matches(pattern, s)
    ensures LiteralPrefix(pattern) <= s
  {
    if pattern != "" && pattern[0] != '*' {
      MatchesStartWithPrefix(pattern[1..], s[1..]);
    }
  }

  // ----- the meaning in pieces

  /** `s` is head, gap, middle, gap, ..., tail. */
  predicate SplitsAs(parts: seq<string>, s: string)
    requires |parts| >= 1
    decreases |parts|, 0
  {
    if |parts| == 1 then s == parts[0]
    else parts[0] <= s && AfterGap(parts[1..], s[|parts[0]|..])
  }

  predicate AfterGap(parts: seq<string>, s: string)
    requires |parts| >= 1
    decreases |parts|, 1
  {
    exists k {:trigger SplitsAs(parts, s[k..])} :: 0 <= k <= |s| && SplitsAs(parts, s[k..])
  }

  lemma DropTwice(s: string, i: nat, j: nat)
    requires i + j <= |s|
    ensures s[i..][j..] == s[i + j..] && s[i..][..j] == s[i..i + j]
  {
  }

  lemma {:induction false} MeaningInPieces(pattern: string, s: string)
    ensures Matches(pattern, s) <==> SplitsAs(Split(pattern), s)
    decreases |pattern|
  {
    if pattern != "" {
      var rest := Split(pattern[1..]);
      if pattern[0] == '*' {
        assert Split(pattern)[1..] == rest && s[0..] == s;
        forall k | 0 <= k <= |s| ensures Matches(pattern[1..], s[k..]) <==> SplitsAs(rest, s[k..]) {
          MeaningInPieces(pattern[1..], s[k..]);
        }
      } else if s != "" && s[0] == pattern[0] {
        MeaningInPieces(pattern[1..], s[1..]);
        FirstLetter(rest, Split(pattern), s);
      }
    }
  }

  lemma PrefixOfRest(head: string, s: string)
    requires s != ""
    ensures [s[0]] + head <= s <==> head <= s[1..]
    ensures head <= s[1..] ==> s[1 + |head|..] == s[1..][|head|..]
    ensures [s[0]] + head == s <==> head == s[1..]
  {
    assert [s[0]] + s[1..] == s;
    if [s[0]] + head <= s {
      assert ([s[0]] + head)[1..] == head;
      assert s[1..][..|head|] == s[..1 + |head|][1..];
    }
  }

  /** The first letter of the head is matched by the first letter of the text. */
  lemma FirstLetter(rest: seq<string>, parts: seq<string>, s: string)
    requires |rest| >= 1 && |parts| == |rest| && s != ""
    requires parts[0] == [s[0]] + rest[0] && parts[1..] == rest[1..]
    ensures SplitsAs(parts, s) <==> SplitsAs(rest, s[1..])
  {
    PrefixOfRest(rest[0], s);
  }

  /** A longer gap can always be left before the same pieces. */
  lemma GapGrows(parts: seq<string>, s: string, d: nat)
    requires |parts| >= 1 && d <= |s| && AfterGap(parts, s[d..])
    ensures AfterGap(parts, s)
  {
    var k :| 0 <= k <= |s[d..]| && SplitsAs(parts, s[d..][k..]);
    DropTwice(s, d, k);
    assert SplitsAs(parts, s[d + k..]);
  }

  lemma FirstPiece(parts: seq<string>, s: string, k: nat)
    requires |parts| >= 2 && k <= |s| && SplitsAs(parts, s[k..])
    ensures OccursAt(s, parts[0], k) && AfterGap(parts[1..], s[k + |parts[0]|..])
  {
    DropTwice(s, k, |parts[0]|);
  }

  lemma LaterChoice(rest: seq<string>, s: string, i: nat, k: nat)
    requires |rest| >= 1 && i <= k <= |s| && AfterGap(rest, s[k..])
    ensures AfterGap(rest, s[i..])
  {
    DropTwice(s, i, k - i);
    GapGrows(rest, s[i..], k - i);
  }

  lemma LeftmostIsAMatch(parts: seq<string>, s: string, i: nat)
    requires |parts| >= 2 && OccursAt(s, parts[0], i) && AfterGap(parts[1..], s[i + |parts[0]|..])
    ensures AfterGap(parts, s)
  {
    DropTwice(s, i, |parts[0]|);
    assert SplitsAs(parts, s[i..]);
  }

  /** The leftmost choice of a middle piece loses no match. */
  lemma LeftmostSuffices(parts: seq<string>, s: string, i: int)
    requires |parts| >= 2 && IsLeftmost(s, parts[0], i)
    ensures AfterGap(parts, s) <==> i >= 0 && AfterGap(parts[1..], s[i + |parts[0]|..])
  {
    if AfterGap(parts, s) {
      var k :| 0 <= k <= |s| && SplitsAs(parts, s[k..]);
      FirstPiece(parts, s, k);
      LaterChoice(parts[1..], s, i + |parts[0]|, k + |parts[0]|);
    } else if i >= 0 && AfterGap(parts[1..], s[i + |parts[0]|..]) {
      LeftmostIsAMatch(parts, s, i);
    }
  }

  lemma TailSuffices(tail: string, s: string)
    ensures AfterGap([tail], s) <==> HasSuffix(s, tail)
  {
    if AfterGap([tail], s) {
      var k :| 0 <= k <= |s| && SplitsAs([tail], s[k..]);
      assert s[k..] == tail && k == |s| - |tail|;
    } else if HasSuffix(s, tail) {
      assert SplitsAs([tail], s[|s| - |tail|..]);
    }
  }

  /** The matcher. */
  method Match(pattern: string, str: string) returns (b: bool)
    ensures b <==> Matches(pattern, str)
  {
    MeaningInPieces(pattern, str);
    var parts := Split(pattern);
    if |parts| == 1 {
      return pattern == str;
    }
    var head, tail := parts[0], parts[|parts| - 1];
    if !HasPrefix(str, head) {
      return false;
    }
    var s := str[|head|..];
    var j := 1;
    while j < |parts| - 1
      invariant 1 <= j <= |parts| - 1
      invariant Matches(pattern, str) <==> AfterGap(parts[j..], s)
    {
      var mid := parts[j];
      var i := Index(s, mid);
      ghost var rest := parts[j..];
      IndexMeaning(s, mid);
      LeftmostSuffices(rest, s, i);
      assert rest[0] == mid && rest[1..] == parts[j + 1..];
      if i < 0 {
        return false;
      }
      s := s[i + |mid|..];
      j := j + 1;
    }
    assert parts[j..] == [tail];
    TailSuffices(tail, s);
    b := |s| >= |tail| && HasSuffix(s, tail);
  }
}
