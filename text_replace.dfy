/**
 * Literal global replacement, the effect of
 * `content.replace(/\{\{TOKEN\}\}/g, value)` in scripts/process-branding.js
 * when the pattern is a fixed string: occurrences are found from left to
 * right, do not overlap, and scanning resumes after each replaced one.
 *
 * The split/join pair is the reference description: the text is cut at
 * every occurrence of the pattern into pieces free of it, and replacing is
 * gluing the pieces back with the replacement in place of the pattern.
 */
module TextReplace {

  /** `pat` occurs in `s` at index `i`. */
  predicate OccursAt(s: string, pat: string, i: int) {
    0 <= i && i + |pat| <= |s| && s[i..i + |pat|] == pat
  }

  predicate Contains(s: string, pat: string) {
    exists i :: 0 <= i <= |s| && OccursAt(s, pat, i)
  }

  function ReplaceAll(s: string, pat: string, rep: string): (r: string)
    requires pat != []
    ensures rep == pat ==> r == s
    ensures |rep| == |pat| ==> |r| == |s|
    decreases |s|
  {
    if |s| < |pat| then s
    else if s[..|pat|] == pat then rep + ReplaceAll(s[|pat|..], pat, rep)
    else [s[0]] + ReplaceAll(s[1..], pat, rep)
  }

  /** The pieces of `s` between the occurrences of `pat`. */
  function Split(s: string, pat: string): (parts: seq<string>)
    requires pat != []
    ensures |parts| > 0
    decreases |s|
  {
    if |s| < |pat| then [s]
    else if s[..|pat|] == pat then [[]] + Split(s[|pat|..], pat)
    else
      var t := Split(s[1..], pat);
      [[s[0]] + t[0]] + t[1..]
  }

  function Join(parts: seq<string>, sep: string): string
    requires |parts| > 0
    decreases |parts|
  {
    if |parts| == 1 then parts[0] else parts[0] + sep + Join(parts[1..], sep)
  }

  lemma JoinExtendHead(x: string, parts: seq<string>, sep: string)
    requires |parts| > 0
    ensures Join([x + parts[0]] + parts[1..], sep) == x + Join(parts, sep)
  {
    var p := [x + parts[0]] + parts[1..];
    assert p[1..] == parts[1..];
  }

  lemma JoinHeadIsPrefix(parts: seq<string>, sep: string)
    requires |parts| > 0
    ensures parts[0] <= Join(parts, sep)
  {
  }

  lemma JoinEmptyHead(parts: seq<string>, sep: string)
    requires |parts| > 0
    ensures Join([[]] + parts, sep) == sep + Join(parts, sep)
  {
    var p := [[]] + parts;
    assert p[1..] == parts;
  }

  lemma SplitMatch(s: string, pat: string)
    requires pat != [] && OccursAt(s, pat, 0)
    ensures Split(s, pat) == [[]] + Split(s[|pat|..], pat)
    ensures s == pat + s[|pat|..]
  {
    assert s[..|pat|] == pat;
  }

  lemma SplitSkip(s: string, pat: string)
    requires pat != [] && |s| > 0 && !OccursAt(s, pat, 0)
    ensures var t := Split(s[1..], pat); Split(s, pat) == [[s[0]] + t[0]] + t[1..]
    ensures s == [s[0]] + s[1..]
  {
    if |s| < |pat| {
      assert Split(s[1..], pat) == [s[1..]];
      assert s == [s[0]] + s[1..];
    }
  }

  /** Joining the pieces with the pattern gives back the original text. */
  lemma {:induction false} SplitJoinRoundTrip(s: string, pat: string)
    requires pat != []
    ensures Join(Split(s, pat), pat) == s
    decreases |s|
  {
    if OccursAt(s, pat, 0) {
      var t := Split(s[|pat|..], pat);
      calc {
        Join(Split(s, pat), pat);
        { SplitMatch(s, pat); }
        Join([[]] + t, pat);
        { JoinEmptyHead(t, pat); }
        pat + Join(t, pat);
        { SplitJoinRoundTrip(s[|pat|..], pat); }
        pat + s[|pat|..];
        { SplitMatch(s, pat); }
        s;
      }
    } else if s != [] {
      var t := Split(s[1..], pat);
      calc {
        Join(Split(s, pat), pat);
        { SplitSkip(s, pat); }
        Join([[s[0]] + t[0]] + t[1..], pat);
        { JoinExtendHead([s[0]], t, pat); }
        [s[0]] + Join(t, pat);
        { SplitJoinRoundTrip(s[1..], pat); }
        [s[0]] + s[1..];
        { SplitSkip(s, pat); }
        s;
      }
    }
  }

  /** Replacing is joining the pieces with the replacement. */
  lemma {:induction false} ReplaceAllIsJoinOfSplit(s: string, pat: string, rep: string)
    requires pat != []
    ensures ReplaceAll(s, pat, rep) == Join(Split(s, pat), rep)
    decreases |s|
  {
    if OccursAt(s, pat, 0) {
      var t := Split(s[|pat|..], pat);
      calc {
        ReplaceAll(s, pat, rep);
        { ReplaceAllMatch(s, pat, rep); }
        rep + ReplaceAll(s[|pat|..], pat, rep);
        { ReplaceAllIsJoinOfSplit(s[|pat|..], pat, rep); }
        rep + Join(t, rep);
        { JoinEmptyHead(t, rep); }
        Join([[]] + t, rep);
        { SplitMatch(s, pat); }
        Join(Split(s, pat), rep);
      }
    } else if s != [] {
      var t := Split(s[1..], pat);
      calc {
        ReplaceAll(s, pat, rep);
        { ReplaceAllSkip(s, pat, rep); }
        [s[0]] + ReplaceAll(s[1..], pat, rep);
        { ReplaceAllIsJoinOfSplit(s[1..], pat, rep); }
        [s[0]] + Join(t, rep);
        { JoinExtendHead([s[0]], t, rep); }
        Join([[s[0]] + t[0]] + t[1..], rep);
        { SplitSkip(s, pat); }
        Join(Split(s, pat), rep);
      }
    }
  }

  /** No piece contains the pattern: every occurrence was cut out. */
  lemma {:induction false} SplitPiecesFree(s: string, pat: string)
    requires pat != []
    ensures forall j :: 0 <= j < |Split(s, pat)| ==> !Contains(Split(s, pat)[j], pat)
    decreases |s|
  {
    var parts := Split(s, pat);
    if |s| < |pat| {
      forall i | OccursAt(s, pat, i) ensures false {
      }
    } else if s[..|pat|] == pat {
      SplitPiecesFree(s[|pat|..], pat);
      forall i | OccursAt([], pat, i) ensures false {
      }
      assert parts[1..] == Split(s[|pat|..], pat);
      forall j | 0 <= j < |parts| ensures !Contains(parts[j], pat) {
        if j > 0 {
          assert parts[j] == Split(s[|pat|..], pat)[j - 1];
        }
      }
    } else {
      var t := Split(s[1..], pat);
      SplitPiecesFree(s[1..], pat);
      var head := [s[0]] + t[0];
      forall i | OccursAt(head, pat, i) ensures false {
        if i == 0 {
          SplitJoinRoundTrip(s[1..], pat);
          JoinHeadIsPrefix(t, pat);
        } else {
          assert t[0][i - 1..i - 1 + |pat|] == head[i..i + |pat|];
          assert OccursAt(t[0], pat, i - 1);
        }
      }
      forall j | 0 <= j < |parts| ensures !Contains(parts[j], pat) {
        if j > 0 {
          assert parts[j] == t[j];
        }
      }
    }
  }

  /** Text that does not contain the pattern is returned unchanged. */
  lemma {:induction false} ReplaceAllWithoutOccurrence(s: string, pat: string, rep: string)
    requires pat != [] && !Contains(s, pat)
    ensures ReplaceAll(s, pat, rep) == s
    decreases |s|
  {
    if |s| < |pat| {
    } else if s[..|pat|] == pat {
      assert OccursAt(s, pat, 0);
    } else {
      forall i | OccursAt(s[1..], pat, i) ensures false {
        assert s[1..][i..i + |pat|] == s[i + 1..i + 1 + |pat|];
        assert OccursAt(s, pat, i + 1);
      }
      ReplaceAllWithoutOccurrence(s[1..], pat, rep);
    }
  }

  lemma OccursAtShift(s: string, pat: string, j: int)
    requires |s| > 0 && 0 <= j
    ensures OccursAt(s[1..], pat, j) <==> OccursAt(s, pat, j + 1)
  {
    if 0 <= j && j + |pat| <= |s| - 1 {
      assert s[1..][j..j + |pat|] == s[j + 1..j + 1 + |pat|];
    }
  }

  lemma NoEarlierOccurrenceShift(s: string, pat: string, i: nat)
    requires |s| > 0 && i > 0
    requires forall j :: 0 <= j < i ==> !OccursAt(s, pat, j)
    ensures forall j :: 0 <= j < i - 1 ==> !OccursAt(s[1..], pat, j)
  {
    forall j | 0 <= j < i - 1 ensures !OccursAt(s[1..], pat, j) {
      OccursAtShift(s, pat, j);
    }
  }

  lemma ReplaceAllSkip(s: string, pat: string, rep: string)
    requires pat != [] && |s| > 0 && !OccursAt(s, pat, 0)
    ensures ReplaceAll(s, pat, rep) == [s[0]] + ReplaceAll(s[1..], pat, rep)
  {
  }

  lemma ReplaceAllMatch(s: string, pat: string, rep: string)
    requires pat != [] && OccursAt(s, pat, 0)
    ensures ReplaceAll(s, pat, rep) == rep + ReplaceAll(s[|pat|..], pat, rep)
  {
  }

  /**
   * A prefix in which no occurrence starts is copied through unchanged.
   */
  lemma {:induction false} ReplaceAllKeepsCleanPrefix(a: string, u: string, pat: string, rep: string)
    requires pat != []
    requires forall j :: 0 <= j < |a| ==> !OccursAt(a + u, pat, j)
    ensures ReplaceAll(a + u, pat, rep) == a + ReplaceAll(u, pat, rep)
    decreases |a|
  {
    if a != [] {
      var s := a + u;
      assert s[1..] == a[1..] + u;
      assert !OccursAt(s, pat, 0);
      NoEarlierOccurrenceShift(s, pat, |a|);
      calc {
        ReplaceAll(s, pat, rep);
        { ReplaceAllSkip(s, pat, rep); }
        [s[0]] + ReplaceAll(a[1..] + u, pat, rep);
        { ReplaceAllKeepsCleanPrefix(a[1..], u, pat, rep); }
        [a[0]] + (a[1..] + ReplaceAll(u, pat, rep));
        { assert a == [a[0]] + a[1..]; }
        a + ReplaceAll(u, pat, rep);
      }
    } else {
      assert a + u == u;
    }
  }

  lemma OccursAtDrop(s: string, pat: string, n: nat, j: nat)
    requires n <= |s|
    ensures OccursAt(s[n..], pat, j) <==> OccursAt(s, pat, j + n)
  {
    if j + |pat| <= |s| - n {
      assert s[n..][j..j + |pat|] == s[j + n..j + n + |pat|];
    }
  }

  /** No occurrence of `pat` in `x + y` starts in `x` and ends in `y`. */
  predicate NoStraddle(x: string, y: string, pat: string) {
    forall j :: 0 <= j < |x| && j + |pat| > |x| ==> !OccursAt(x + y, pat, j)
  }

  /**
   * Replacing distributes over a concatenation at which no occurrence is
   * cut in two.
   */
  lemma {:induction false} ReplaceAllDistributes(x: string, y: string, pat: string, rep: string)
    requires pat != [] && NoStraddle(x, y, pat)
    ensures ReplaceAll(x + y, pat, rep) == ReplaceAll(x, pat, rep) + ReplaceAll(y, pat, rep)
    decreases |x|
  {
    var s := x + y;
    if x == [] {
      assert s == y;
    } else if |x| < |pat| {
      ReplaceAllKeepsCleanPrefix(x, y, pat, rep);
    } else if OccursAt(x, pat, 0) {
      var x' := x[|pat|..];
      assert OccursAt(s, pat, 0) && s[|pat|..] == x' + y;
      forall j | 0 <= j < |x'| && j + |pat| > |x'| ensures !OccursAt(x' + y, pat, j) {
        OccursAtDrop(s, pat, |pat|, j);
      }
      ReplaceAllDistributes(x', y, pat, rep);
      ReplaceAllMatch(s, pat, rep);
      ReplaceAllMatch(x, pat, rep);
    } else {
      var x' := x[1..];
      assert !OccursAt(s, pat, 0) && s[1..] == x' + y;
      forall j | 0 <= j < |x'| && j + |pat| > |x'| ensures !OccursAt(x' + y, pat, j) {
        OccursAtShift(s, pat, j);
      }
      ReplaceAllDistributes(x', y, pat, rep);
      ReplaceAllSkip(s, pat, rep);
      ReplaceAllSkip(x, pat, rep);
    }
  }

  /**
   * The leftmost occurrence is replaced, the text before it is kept, and
   * replacing resumes right after it (occurrences never overlap).
   */
  lemma ReplaceAllAtFirstOccurrence(s: string, pat: string, rep: string, i: nat)
    requires pat != [] && OccursAt(s, pat, i)
    requires forall j :: 0 <= j < i ==> !OccursAt(s, pat, j)
    ensures ReplaceAll(s, pat, rep) == s[..i] + rep + ReplaceAll(s[i + |pat|..], pat, rep)
  {
    var head, rest := s[..i], s[i..];
    assert s == head + rest;
    assert forall j :: 0 <= j < |head| ==> !OccursAt(head + rest, pat, j);
    OccursAtSuffix(s, pat, i);
    calc {
      ReplaceAll(s, pat, rep);
      { ReplaceAllKeepsCleanPrefix(head, rest, pat, rep); }
      head + ReplaceAll(rest, pat, rep);
      { ReplaceAllMatch(rest, pat, rep); }
      head + (rep + ReplaceAll(rest[|pat|..], pat, rep));
    }
  }

  lemma OccursAtSuffix(s: string, pat: string, i: nat)
    requires OccursAt(s, pat, i)
    ensures OccursAt(s[i..], pat, 0)
    ensures s[i..][|pat|..] == s[i + |pat|..]
  {
    assert s[i..][..|pat|] == s[i..i + |pat|];
  }
}
