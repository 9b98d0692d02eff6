/** The fence stripper of the roadmap handler: the global regular-expression
    replacement  text.replace(/```json\n?|```\n?/g, '')  as a recursive
    function, with the facts that make it safe to apply to any reply. */
module Fences {

  /** Three backticks, the markdown code-fence marker. */
  const Fence: string := "```"

  /** The first alternative of the pattern, without its optional newline. */
  const JsonFence: string := "```json"

  predicate StartsWith(s: string, p: string) {
    |p| <= |s| && s[..|p|] == p
  }

  /** `p` occurs in `s` starting at index `i`. */
  predicate OccursAt(p: string, s: string, i: int) {
    0 <= i && i + |p| <= |s| && s[i..i + |p|] == p
  }

  /** `p` is a contiguous substring of `s`. */
  predicate Occurs(p: string, s: string)
    decreases |s|
  {
    StartsWith(s, p) || (|s| > 0 && Occurs(p, s[1..]))
  }

  /** `a` is obtained from `b` by deleting characters. */
  predicate IsSubsequence(a: string, b: string)
    decreases |b|
  {
    a == [] || (|b| > 0 && ((a[0] == b[0] && IsSubsequence(a[1..], b[1..])) || IsSubsequence(a, b[1..])))
  }

  /** 1 when `s` has a line feed at index `k`: the greedy `\n?`. */
  function NewlineAt(s: string, k: nat): nat
  {
    if k < |s| && s[k] == '\n' then 1 else 0
  }

  /** Length of the match of the pattern at the start of `s`, 0 when it does
      not match there. The alternatives are tried in order, so "```json" wins
      over "```", and each takes a following line feed when there is one. */
  function MatchLength(s: string): (n: nat)
    ensures n == 0 <==> !StartsWith(s, Fence)
    ensures n != 0 ==> n <= |s| && s[..n] in {"```json\n", "```json", "```\n", "```"}
    ensures StartsWith(s, "```json\n") ==> n == 8
    ensures StartsWith(s, JsonFence) ==> n >= 7
    ensures StartsWith(s, "```\n") ==> n >= 4
  {
    assert StartsWith(s, "```json\n") ==> s[..7] == s[..8][..7] && s[7] == '\n';
    assert StartsWith(s, "```\n") ==> s[..3] == s[..4][..3] && s[3] == '\n';
    if StartsWith(s, JsonFence) then
      assert s[..3] == s[..7][..3];
      assert 7 < |s| ==> s[..8] == s[..7] + [s[7]];
      7 + NewlineAt(s, 7)
    else if StartsWith(s, Fence) then
      assert 3 < |s| ==> s[..4] == s[..3] + [s[3]];
      3 + NewlineAt(s, 3)
    else 0
  }

  /** The replacement: scanning left to right, every match is deleted and
      scanning resumes after it; a character where no match starts is kept. */
  function StripFences(s: string): (r: string)
    ensures |r| <= |s|
    decreases |s|
  {
    if s == [] then []
    else
      var n := MatchLength(s);
      if n != 0 then StripFences(s[n..]) else [s[0]] + StripFences(s[1..])
  }

  // ---------------------------------------------------------------------------
  // Substrings

  lemma {:induction false} OccursIffSomeIndex(p: string, s: string)
    ensures Occurs(p, s) <==> exists i :: OccursAt(p, s, i)
    decreases |s|
  {
    if StartsWith(s, p) {
      assert OccursAt(p, s, 0);
    } else if |s| != 0 {
      OccursIffSomeIndex(p, s[1..]);
      if Occurs(p, s[1..]) {
        var i :| OccursAt(p, s[1..], i);
        assert s[1..][i..i + |p|] == s[i + 1..i + 1 + |p|];
        assert OccursAt(p, s, i + 1);
      }
      if exists i :: OccursAt(p, s, i) {
        var i :| OccursAt(p, s, i);
        assert s[1..][i - 1..i - 1 + |p|] == s[i..i + |p|];
        assert OccursAt(p, s[1..], i - 1);
      }
    }
  }

  /** A witness index gives an occurrence. */
  lemma OccursAtGivesOccurs(p: string, s: string, i: int)
    requires OccursAt(p, s, i)
    ensures Occurs(p, s)
  {
    OccursIffSomeIndex(p, s);
  }

  // ---------------------------------------------------------------------------
  // Facts about StripFences

  /** A subsequence of a suffix is a subsequence of the whole. */
  lemma {:induction false} SubsequenceOfSuffix(a: string, b: string, k: nat)
    requires k <= |b| && IsSubsequence(a, b[k..])
    ensures IsSubsequence(a, b)
    decreases k
  {
    if k > 0 {
      assert b[1..][k - 1..] == b[k..];
      SubsequenceOfSuffix(a, b[1..], k - 1);
    }
  }

  /** The stripper only deletes characters. */
  lemma {:induction false} StripIsSubsequence(s: string)
    ensures IsSubsequence(StripFences(s), s)
    decreases |s|
  {
    if s != [] {
      var n := MatchLength(s);
      StripIsSubsequence(s[if n != 0 then n else 1..]);
      if n != 0 {
        SubsequenceOfSuffix(StripFences(s), s, n);
      } else {
        assert ([s[0]] + StripFences(s[1..]))[1..] == StripFences(s[1..]);
      }
    }
  }

  /** Where no match starts, a fence occurs in `s` exactly when it occurs
      after the first character. */
  lemma OccursPastHead(s: string)
    requires s != [] && !StartsWith(s, Fence)
    ensures Occurs(Fence, s) <==> Occurs(Fence, s[1..])
  {
  }

  /** The stripper changes its input exactly when the input holds a fence. */
  lemma {:induction false} StripIdentityIff(s: string)
    ensures StripFences(s) == s <==> !Occurs(Fence, s)
    decreases |s|
  {
    if s != [] {
      var n := MatchLength(s);
      if n != 0 {
        assert |StripFences(s)| <= |s[n..]| < |s|;
      } else {
        StripIdentityIff(s[1..]);
        OccursPastHead(s);
        var r := StripFences(s);
        assert r == [s[0]] + StripFences(s[1..]);
        assert r[1..] == StripFences(s[1..]);
        assert s == [s[0]] + s[1..];
      }
    }
  }

  /** Text with no fence passes through unchanged. */
  lemma StripNoFenceIsIdentity(s: string)
    requires !Occurs(Fence, s)
    ensures StripFences(s) == s
  {
    StripIdentityIff(s);
  }

  /** The output is strictly shorter exactly when the input holds a fence. */
  lemma {:induction false} StripShorterIff(s: string)
    ensures |StripFences(s)| < |s| <==> Occurs(Fence, s)
    decreases |s|
  {
    if s != [] {
      var n := MatchLength(s);
      if n != 0 {
        assert |StripFences(s)| <= |s[n..]| < |s|;
      } else {
        StripShorterIff(s[1..]);
        OccursPastHead(s);
      }
    }
  }

  /** A kept text that does not open with two backticks is stripped to a
      text that does not open with two backticks either. */
  lemma NoDoubleTickAtStart(t: string)
    requires !StartsWith(t, "``")
    ensures !StartsWith(StripFences(t), "``")
  {
  }

  /** Where no match starts, the first character is kept. */
  lemma StripKeepsHead(s: string)
    requires s != [] && !StartsWith(s, Fence)
    ensures StripFences(s) == [s[0]] + StripFences(s[1..])
  {
  }

  /** Splitting off the first character of a concatenation. */
  lemma ConsConcat(a: string, x: string)
    requires a != []
    ensures a + x == [a[0]] + (a[1..] + x)
  {
  }

  /** A fence occurs in `[c] + t` when it starts at `c` or occurs in `t`. */
  lemma OccursCons(c: char, t: string)
    ensures Occurs(Fence, [c] + t) <==> StartsWith([c] + t, Fence) || Occurs(Fence, t)
  {
    assert ([c] + t)[1..] == t;
  }

  /** The stripped text never holds a fence: no match of the pattern survives,
      and deleting a match never joins backticks into a new fence. */
  lemma {:induction false} StripRemovesEveryFence(s: string)
    ensures !Occurs(Fence, StripFences(s))
    decreases |s|
  {
    if s != [] {
      var n := MatchLength(s);
      if n != 0 {
        StripRemovesEveryFence(s[n..]);
      } else {
        var t := s[1..];
        var tail := StripFences(t);
        StripRemovesEveryFence(t);
        OccursCons(s[0], tail);
        if s[0] == '`' {
          assert !StartsWith(t, "``") by {
            assert !StartsWith(s, Fence);
            assert |s| < 3 || s[..3] != Fence;
          }
          NoDoubleTickAtStart(t);
        }
        var r := [s[0]] + tail;
        assert !StartsWith(r, Fence) by {
          assert s[0] != '`' || !StartsWith(tail, "``");
          assert |r| < 3 || r[..3] == [s[0]] + tail[..2];
        }
      }
    }
  }

  /** Stripping twice is stripping once. */
  lemma StripIdempotent(s: string)
    ensures StripFences(StripFences(s)) == StripFences(s)
  {
    StripRemovesEveryFence(s);
    StripIdentityIff(StripFences(s));
  }

  /** No fence can straddle the seam between `a` and `b`: `a` does not end in
      a backtick, or `b` does not start with one (an empty `b` included). */
  predicate CleanSeam(a: string, b: string) {
    a == [] || a[|a| - 1] != '`' || b == [] || b[0] != '`'
  }

  /** No match starts at the front of a fence-free text followed across a
      clean seam by anything. */
  lemma CleanPrefixStart(a: string, b: string)
    requires a != [] && !Occurs(Fence, a) && CleanSeam(a, b)
    ensures !StartsWith(a + b, Fence)
  {
    var s := a + b;
    if |a| >= 3 {
      assert s[..3] == a[..3];
      assert !StartsWith(a, Fence);
    } else if a[|a| - 1] != '`' {
      assert s[|a| - 1] == a[|a| - 1] != '`';
    } else if |s| >= 3 {
      assert s[|a|] == b[0] != '`';
    }
  }

  /** A fence-free prefix followed across a clean seam survives the stripper
      unchanged, and the rest is stripped on its own. */
  lemma {:induction false} StripCleanPrefix(a: string, b: string)
    requires !Occurs(Fence, a)
    requires CleanSeam(a, b)
    ensures StripFences(a + b) == a + StripFences(b)
    decreases |a|
  {
    if a != [] {
      CleanPrefixStart(a, b);
      StripKeepsHead(a + b);
      ConsConcat(a, b);
      assert !Occurs(Fence, a[1..]);
      StripCleanPrefix(a[1..], b);
      ConsConcat(a, StripFences(b));
    } else {
      assert a + b == b;
    }
  }

  /** The opening line of a JSON code block: the first alternative with its line feed. */
  const JsonOpening: string := "```json\n"

  /** The closing line of a code block, with the line feed that ends the payload. */
  const ClosingLine: string := "\n```"

  /** An opening "```json" line is deleted whole. */
  lemma StripOpeningLine(rest: string)
    ensures StripFences(JsonOpening + rest) == StripFences(rest)
  {
  }

  /** A closing line keeps only its line feed. */
  lemma StripClosingLine()
    ensures StripFences(ClosingLine) == "\n"
  {
    // Without these steps the proof succeeds on some solver seeds only.
    assert MatchLength(ClosingLine) == 0;
    assert ClosingLine[1..] == Fence;
    assert MatchLength(Fence) == 3;
  }

  lemma ConcatAssoc(a: string, b: string, c: string)
    ensures a + b + c == a + (b + c)
  {
  }

  /** A reply wrapped as a ```json code block around a fence-free payload is
      stripped to the payload and the line feed before the closing fence. */
  lemma StripJsonBlock(payload: string)
    requires !Occurs(Fence, payload)
    ensures StripFences(JsonOpening + payload + ClosingLine) == payload + "\n"
  {
    ConcatAssoc(JsonOpening, payload, ClosingLine);
    StripOpeningLine(payload + ClosingLine);
    StripCleanPrefix(payload, ClosingLine);
    StripClosingLine();
  }

  /** A text shorter than a fence holds none. */
  lemma {:induction false} ShortTextHasNoFence(t: string)
    requires |t| < |Fence|
    ensures !Occurs(Fence, t)
    decreases |t|
  {
    if t != [] {
      ShortTextHasNoFence(t[1..]);
    }
  }

  /** The replacement is global: a fence inside a JSON string is deleted too. */
  lemma InteriorFenceRemoved()
    ensures StripFences("\"a```b\"") == "\"ab\""
  {
    var head := "\"a";
    var tail := "b\"";
    assert "\"a```b\"" == head + (Fence + tail);
    assert "\"ab\"" == head + tail;
    ShortTextHasNoFence(head);
    ShortTextHasNoFence(tail);
    StripCleanPrefix(head, Fence + tail);
    var rest := Fence + tail;
    assert rest[3] == 'b';
    assert MatchLength(rest) == 3;
    assert rest[3..] == tail;
    StripNoFenceIsIdentity(tail);
  }
}
