/**
  Hiding secret values in messages: every value is cut out of the text and a marker is put in its
  place, the longest value first.
 */
module Redaction {
  import opened Common

  const MARKER := "[redacted]"
  predicate OccursAt(s: string, v: string, i: nat) {
    i + |v| <= |s| && s[i..i + |v|] == v
  }

  ghost predicate Contains(s: string, v: string) {
    exists i: nat :: OccursAt(s, v, i)
  }

  /** The last `k` characters of `a` are the first ones of `b`. */
  predicate Overlaps(a: string, b: string, k: nat) {
    0 < k <= |a| && k <= |b| && a[|a| - k..] == b[..k]
  }

  /** The value can be read off a marker and what is next to it. */
  ghost predicate Touches(w: string) {
    || Contains(MARKER, w) || Contains(w, MARKER)
    || (exists k: nat :: Overlaps(w, MARKER, k))
    || (exists k: nat :: Overlaps(MARKER, w, k))
  }

  // ----- Cutting and joining -----

  /** The pieces of `s` between the occurrences of `v`, found from the left; `head` is the piece so far. */
  function SplitFrom(s: string, v: string, head: string): (parts: seq<string>)
    requires |v| > 0
    ensures |parts| > 0
    decreases |s|
  {
    if |s| < |v| then [head + s]
    else if s[..|v|] == v then [head] + SplitFrom(s[|v|..], v, "")
    else SplitFrom(s[1..], v, head + [s[0]])
  }

  function Split(s: string, v: string): (parts: seq<string>)
    requires |v| > 0
    ensures |parts| > 0
  {
    SplitFrom(s, v, "")
  }

  function Join(parts: seq<string>): string
    requires |parts| > 0
  {
    if |parts| == 1 then parts[0] else parts[0] + MARKER + Join(parts[1..])
  }

  function Replace(s: string, v: string): string
    requires |v| > 0
  {
    Join(Split(s, v))
  }

  /** What joining would be with the value itself in place of the marker. */
  function JoinWith(parts: seq<string>, v: string): string
    requires |parts| > 0
  {
    if |parts| == 1 then parts[0] else parts[0] + v + JoinWith(parts[1..], v)
  }

  lemma MoveOne(head: string, s: string)
    requires |s| > 0
    ensures head + [s[0]] + s[1..] == head + s
  {
    assert s == [s[0]] + s[1..];
    assert head + [s[0]] + s[1..] == head + ([s[0]] + s[1..]);
  }

  /** Nothing but the value is cut out: joining the pieces with it gives the text back. */
  lemma {:induction false} SplitLosesNothing(s: string, v: string, head: string)
    requires |v| > 0
    ensures JoinWith(SplitFrom(s, v, head), v) == head + s
    decreases |s|
  {
    if |s| < |v| {
    } else if s[..|v|] == v {
      var rest := SplitFrom(s[|v|..], v, "");
      SplitLosesNothing(s[|v|..], v, "");
      var parts := [head] + rest;
      assert parts[1..] == rest;
      calc {
        JoinWith(parts, v);
        head + v + ("" + s[|v|..]);
        head + (s[..|v|] + s[|v|..]);
        { assert s[..|v|] + s[|v|..] == s; }
        head + s;
      }
    } else {
      SplitLosesNothing(s[1..], v, head + [s[0]]);
      MoveOne(head, s);
    }
  }

  /** `head + s` has no occurrence of `v` that begins in `head`. */
  ghost predicate NoneIn(head: string, s: string, v: string) {
    forall i: nat :: i < |head| ==> !OccursAt(head + s, v, i)
  }

  /** No piece contains the value. */
  lemma {:induction false} PiecesAreFree(s: string, v: string, head: string)
    requires |v| > 0 && NoneIn(head, s, v)
    ensures forall k :: 0 <= k < |SplitFrom(s, v, head)| ==> !Contains(SplitFrom(s, v, head)[k], v)
    decreases |s|
  {
    if |s| < |v| {
      forall i: nat
        ensures !OccursAt(head + s, v, i)
      {
        assert i < |head| ==> !OccursAt(head + s, v, i);
      }
    } else if s[..|v|] == v {
      forall i: nat
        ensures !OccursAt(head, v, i)
      {
        assert i + |v| <= |head| ==> (head + s)[i..i + |v|] == head[i..i + |v|];
        assert i < |head| ==> !OccursAt(head + s, v, i);
      }
      PiecesAreFree(s[|v|..], v, "");
      var rest := SplitFrom(s[|v|..], v, "");
      assert forall k :: 0 < k < |[head] + rest| ==> ([head] + rest)[k] == rest[k - 1];
    } else {
      var head' := head + [s[0]];
      MoveOne(head, s);
      assert (head + s)[|head|..|head| + |v|] == s[..|v|];
      PiecesAreFree(s[1..], v, head');
    }
  }

  /** Every piece is a part of the text. */
  lemma {:induction false} PiecesAreParts(s: string, v: string, head: string, w: string)
    requires |v| > 0 && !Contains(head + s, w)
    ensures forall k :: 0 <= k < |SplitFrom(s, v, head)| ==> !Contains(SplitFrom(s, v, head)[k], w)
    decreases |s|
  {
    if |s| < |v| {
    } else if s[..|v|] == v {
      PartOf(head, head, s, w);
      assert "" + s[|v|..] == s[|v|..];
      SuffixOf(s[|v|..], head + v, head + s, w);
      PiecesAreParts(s[|v|..], v, "", w);
      var rest := SplitFrom(s[|v|..], v, "");
      assert forall k :: 0 < k < |[head] + rest| ==> ([head] + rest)[k] == rest[k - 1];
    } else {
      MoveOne(head, s);
      PiecesAreParts(s[1..], v, head + [s[0]], w);
    }
  }

  lemma PartOf(p: string, head: string, s: string, w: string)
    requires !Contains(head + s, w) && p == head
    ensures !Contains(p, w)
  {
    forall i: nat
      ensures !OccursAt(p, w, i)
    {
      assert i + |w| <= |p| ==> (head + s)[i..i + |w|] == p[i..i + |w|];
      assert !OccursAt(head + s, w, i);
    }
  }

  lemma SuffixOf(p: string, before: string, all: string, w: string)
    requires all == before + p && !Contains(all, w)
    ensures !Contains(p, w)
  {
    forall i: nat
      ensures !OccursAt(p, w, i)
    {
      assert i + |w| <= |p| ==> all[|before| + i..|before| + i + |w|] == p[i..i + |w|];
      assert !OccursAt(all, w, |before| + i);
    }
  }

  /** With `v` at `i` of a text and `m` at `j`, both have the same character at `k`, where both are. */
  predicate SameAt(v: string, i: nat, m: string, j: nat, k: nat) {
    i <= k < i + |v| && j <= k < j + |m| ==> v[k - i] == m[k - j]
  }

  ghost predicate BothAt(v: string, i: nat, m: string, j: nat) {
    forall k: nat :: SameAt(v, i, m, j, k)
  }

  lemma InsideOther(v: string, i: nat, m: string, j: nat)
    requires BothAt(v, i, m, j) && j <= i && i + |v| <= j + |m|
    ensures OccursAt(m, v, i - j)
  {
    forall t | 0 <= t < |v|
      ensures m[i - j..i - j + |v|][t] == v[t]
    {
      assert SameAt(v, i, m, j, i + t);
    }
  }

  lemma EndOverlaps(v: string, i: nat, m: string, j: nat)
    requires BothAt(v, i, m, j) && i < j < i + |v| < j + |m|
    ensures Overlaps(v, m, i + |v| - j)
  {
    var k := i + |v| - j;
    forall t | 0 <= t < k
      ensures v[|v| - k..][t] == m[..k][t]
    {
      assert SameAt(v, i, m, j, j + t);
    }
  }

  /** An occurrence that reaches into a marker touches it. */
  lemma ReachesMarker(p: string, rest: string, v: string, i: nat)
    requires |v| > 0 && OccursAt(p + MARKER + rest, v, i) && |p| < i + |v| && i < |p| + |MARKER|
    ensures Touches(v)
  {
    var all, j := p + MARKER + rest, |p|;
    forall k: nat
      ensures SameAt(v, i, MARKER, j, k) && SameAt(MARKER, j, v, i, k)
    {
      if i <= k < i + |v| && j <= k < j + |MARKER| { assert all[i..i + |v|][k - i] == all[k] == MARKER[k - j]; }
    }
    if j <= i && i + |v| <= j + |MARKER| {
      InsideOther(v, i, MARKER, j);
    } else if i <= j && j + |MARKER| <= i + |v| {
      InsideOther(MARKER, j, v, i);
    } else if i < j {
      EndOverlaps(v, i, MARKER, j);
    } else {
      EndOverlaps(MARKER, j, v, i);
    }
  }

  /** So a value that does not touch the marker occurs in joined pieces only inside one of them. */
  lemma {:induction false} JoinedOccurrence(parts: seq<string>, v: string, i: nat)
    requires |parts| > 0 && |v| > 0 && !Touches(v) && OccursAt(Join(parts), v, i)
    ensures exists k :: 0 <= k < |parts| && Contains(parts[k], v)
    decreases |parts|
  {
    if |parts| == 1 {
      assert OccursAt(parts[0], v, i);
    } else {
      var p, rest := parts[0], Join(parts[1..]);
      var all := p + MARKER + rest;
      assert all == Join(parts);
      if i + |v| <= |p| {
        assert p[i..i + |v|] == all[i..i + |v|];
        assert OccursAt(p, v, i);
      } else if i < |p| + |MARKER| {
        ReachesMarker(p, rest, v, i);
      } else {
        var j := i - (|p| + |MARKER|);
        assert rest[j..j + |v|] == all[i..i + |v|];
        JoinedOccurrence(parts[1..], v, j);
        var k :| 0 <= k < |parts[1..]| && Contains(parts[1..][k], v);
        assert parts[k + 1] == parts[1..][k];
      }
    }
  }

  /** Replacing a value removes it, and brings no other value into the text that does not touch the
      marker. */
  lemma ReplaceHides(s: string, v: string, w: string)
    requires |v| > 0 && |w| > 0 && !Touches(w) && (w == v || !Contains(s, w))
    ensures !Contains(Replace(s, v), w)
  {
    assert "" + s == s;
    if w == v { PiecesAreFree(s, v, ""); } else { PiecesAreParts(s, v, "", w); }
    forall i: nat
      ensures !OccursAt(Replace(s, v), w, i)
    {
      if OccursAt(Join(Split(s, v)), w, i) { JoinedOccurrence(Split(s, v), w, i); }
    }
  }

  // ----- The order of the values -----

  function Insert(v: string, sorted: seq<string>): seq<string> {
    if |sorted| == 0 || |v| > |sorted[0]| then [v] + sorted else [sorted[0]] + Insert(v, sorted[1..])
  }

  /** Values that are not empty, longest first, in their own order where the lengths are equal. */
  function Sorted(values: seq<string>): seq<string> {
    if |values| == 0 then []
    else
      var last := values[|values| - 1];
      var front := Sorted(values[..|values| - 1]);
      if |last| > 0 then Insert(last, front) else front
  }

  predicate LongestFirst(values: seq<string>) {
    forall i, j :: 0 <= i < j < |values| ==> |values[i]| >= |values[j]|
  }

  lemma {:induction false} InsertKeeps(v: string, sorted: seq<string>)
    requires LongestFirst(sorted)
    ensures LongestFirst(Insert(v, sorted))
    ensures forall x :: x in Insert(v, sorted) <==> x == v || x in sorted
    decreases |sorted|
  {
    if |sorted| > 0 && |v| <= |sorted[0]| {
      InsertKeeps(v, sorted[1..]);
      var rest := Insert(v, sorted[1..]);
      forall j | 0 <= j < |rest|
        ensures |sorted[0]| >= |rest[j]|
      {
        assert rest[j] in rest;
        assert rest[j] == v || rest[j] in sorted[1..];
      }
    }
  }

  lemma {:induction false} SortedKeeps(values: seq<string>)
    ensures LongestFirst(Sorted(values))
    ensures forall x :: x in Sorted(values) <==> x in values && |x| > 0
    decreases |values|
  {
    if |values| > 0 {
      var n := |values| - 1;
      var front := values[..n];
      SortedKeeps(front);
      assert values == front + [values[n]];
      if |values[n]| > 0 {
        InsertKeeps(values[n], Sorted(front));
      } else {
        assert Sorted(values) == Sorted(front);
      }
    }
  }

  // ----- Redaction -----

  predicate NonEmpty(values: seq<string>) {
    forall i :: 0 <= i < |values| ==> |values[i]| > 0
  }

  function ReplaceAll(message: string, values: seq<string>): string
    requires NonEmpty(values)
  {
    if |values| == 0 then message
    else Replace(ReplaceAll(message, values[..|values| - 1]), values[|values| - 1])
  }

  lemma SortedNonEmpty(values: seq<string>)
    ensures NonEmpty(Sorted(values))
  {
    SortedKeeps(values);
    assert forall i :: 0 <= i < |Sorted(values)| ==> Sorted(values)[i] in Sorted(values);
  }

  ghost function Redacted(message: string, values: seq<string>): string {
    SortedNonEmpty(values);
    ReplaceAll(message, Sorted(values))
  }

  method Redact(message: string, values: seq<string>) returns (result: string)
    ensures result == Redacted(message, values)
  {
    result := message;
    var sorted := Sorted(values);
    SortedNonEmpty(values);
    var i := 0;
    while i < |sorted|
      invariant 0 <= i <= |sorted|
      invariant NonEmpty(sorted[..i]) && result == ReplaceAll(message, sorted[..i])
    {
      assert sorted[..i + 1][..i] == sorted[..i];
      result := Replace(result, sorted[i]);
      i := i + 1;
    }
    assert sorted[..i] == sorted;
  }

  lemma {:induction false} AllHidden(message: string, values: seq<string>, w: string)
    requires NonEmpty(values) && |w| > 0 && !Touches(w) && (w in values || !Contains(message, w))
    ensures !Contains(ReplaceAll(message, values), w)
    decreases |values|
  {
    if |values| > 0 {
      var n := |values| - 1;
      if w != values[n] { AllHidden(message, values[..n], w); }
      ReplaceHides(ReplaceAll(message, values[..n]), values[n], w);
    }
  }

  /** No value that does not touch the marker is left in the output, in whatever order and however the
      values overlap; and none gets into the output that was not in the message. */
  lemma RedactionHidesValues(message: string, values: seq<string>, w: string)
    requires |w| > 0 && !Touches(w) && (w in values || !Contains(message, w))
    ensures !Contains(Redacted(message, values), w)
  {
    SortedKeeps(values);
    SortedNonEmpty(values);
    AllHidden(message, Sorted(values), w);
  }

  // ----- Why the longest comes first -----

  lemma {:induction false} NothingToReplace(s: string, v: string, head: string)
    requires |v| > 0 && !Contains(s, v)
    ensures SplitFrom(s, v, head) == [head + s]
    decreases |s|
  {
    if |s| >= |v| {
      assert !OccursAt(s, v, 0);
      SuffixOf(s[1..], s[..1], s, v);
      NothingToReplace(s[1..], v, head + [s[0]]);
      MoveOne(head, s);
    }
  }

  lemma ReplaceAbsent(s: string, v: string)
    requires |v| > 0 && !Contains(s, v)
    ensures Replace(s, v) == s
  {
    NothingToReplace(s, v, "");
    assert "" + s == s;
  }

  lemma ReplaceWhole(v: string)
    requires |v| > 0
    ensures Replace(v, v) == MARKER
  {
    assert v[..|v|] == v && v[|v|..] == "";
    assert "" + "" == "";
    assert SplitFrom("", v, "") == [""];
    assert Split(v, v) == ["", ""];
    assert ["", ""][1..] == [""];
  }

  /** A longer value, or another one of the same length, does not occur in `v`. */
  lemma LongerIsAbsent(v: string, x: string)
    requires |x| >= |v| && x != v
    ensures !Contains(v, x)
  {}

  /** One replacement in a text that is the secret `v`, or the marker in its place. */
  lemma WholeValueStep(text: string, v: string, x: string)
    requires |x| > 0 && !Contains(MARKER, x) && (text == MARKER || (text == v && |x| >= |v|))
    ensures Replace(text, x) == if text == v == x then MARKER else text
  {
    if text == MARKER {
      ReplaceAbsent(MARKER, x);
    } else if x == v {
      ReplaceWhole(v);
    } else {
      LongerIsAbsent(v, x);
      ReplaceAbsent(v, x);
    }
  }

  lemma OneMoreValue(message: string, values: seq<string>, n: nat)
    requires NonEmpty(values) && 0 < n <= |values|
    ensures NonEmpty(values[..n]) && NonEmpty(values[..n - 1])
    ensures ReplaceAll(message, values[..n]) == Replace(ReplaceAll(message, values[..n - 1]), values[n - 1])
    ensures forall x :: x in values[..n] <==> x == values[n - 1] || x in values[..n - 1]
  {
    assert values[..n][..n - 1] == values[..n - 1];
    assert values[..n] == values[..n - 1] + [values[n - 1]];
  }

  lemma NotYetReached(values: seq<string>, v: string, n: nat)
    requires LongestFirst(values) && 0 < n <= |values| && v in values && v !in values[..n - 1]
    ensures |values[n - 1]| >= |v|
  {
    var k :| 0 <= k < |values| && values[k] == v;
    assert forall j :: 0 <= j < n - 1 ==> values[j] in values[..n - 1];
  }

  /** What is left of the secret after the first `n` values. */
  function Stage(values: seq<string>, v: string, n: nat): string
    requires n <= |values|
  {
    if v in values[..n] then MARKER else v
  }

  lemma NextStage(values: seq<string>, v: string, n: nat)
    requires NonEmpty(values) && LongestFirst(values) && 0 < n <= |values| && v in values
    requires !Contains(MARKER, values[n - 1])
    ensures Replace(Stage(values, v, n - 1), values[n - 1]) == Stage(values, v, n)
  {
    OneMoreValue(v, values, n);
    if v !in values[..n - 1] { NotYetReached(values, v, n); }
    WholeValueStep(Stage(values, v, n - 1), v, values[n - 1]);
  }

  lemma {:induction false} WholeValueStages(values: seq<string>, v: string, n: nat)
    requires NonEmpty(values) && LongestFirst(values) && n <= |values| && v in values
    requires forall i :: 0 <= i < |values| ==> !Contains(MARKER, values[i])
    ensures NonEmpty(values[..n]) && ReplaceAll(v, values[..n]) == Stage(values, v, n)
    decreases n
  {
    if n > 0 {
      WholeValueStages(values, v, n - 1);
      OneMoreValue(v, values, n);
      NextStage(values, v, n);
    }
  }

  /** A message that is a secret becomes the bare marker: no shorter value is cut out of it first, which
      would let the rest of the secret through. */
  lemma WholeSecretIsHidden(values: seq<string>, v: string)
    requires v in values && |v| > 0 && forall x :: x in values && |x| > 0 ==> !Contains(MARKER, x)
    ensures Redacted(v, values) == MARKER
  {
    SortedKeeps(values);
    SortedNonEmpty(values);
    var sorted := Sorted(values);
    assert forall i :: 0 <= i < |sorted| ==> sorted[i] in sorted;
    WholeValueStages(sorted, v, |sorted|);
    assert sorted[..|sorted|] == sorted;
  }

  // ----- Values the marker gives away -----

  /** A part of the marker is still there after it was hidden. */
  lemma PartOfMarkerStays(v: string)
    requires |v| > 0 && Contains(MARKER, v)
    ensures Contains(Redacted(v, [v]), v)
  {
    SortedOne(v);
    assert [v][..0] == [];
    assert ReplaceAll(v, [v]) == Replace(v, v) by { assert ReplaceAll(v, []) == v; }
    ReplaceWhole(v);
  }

  lemma SortedOne(v: string)
    requires |v| > 0
    ensures Sorted([v]) == [v]
  {
    assert [v][..0] == [];
    assert Sorted([]) == [];
  }

  lemma SortedPair(v: string, d: string)
    requires |v| == |d| > 0
    ensures Sorted([v, d]) == [v, d]
  {
    SortedOne(v);
    assert [v, d][..1] == [v] && [v][1..] == [];
    assert Insert(d, []) == [d];
    assert Insert(d, [v]) == [v] + [d];
  }

  /** Text with one occurrence of a value is cut there. */
  lemma {:induction false} SplitOnce(a: string, d: string, b: string, head: string)
    requires |d| > 0 && !Contains(b, d) && forall i: nat :: i < |a| ==> !OccursAt(a + d + b, d, i)
    ensures SplitFrom(a + d + b, d, head) == [head + a, b]
    decreases |a|
  {
    var s := a + d + b;
    if |a| == 0 {
      assert s[..|d|] == d && s[|d|..] == b;
      NothingToReplace(b, d, "");
      assert "" + b == b && head + a == head;
    } else {
      assert !OccursAt(s, d, 0);
      assert s[1..] == a[1..] + d + b;
      forall i: nat | i < |a[1..]|
        ensures !OccursAt(a[1..] + d + b, d, i)
      {
        assert !OccursAt(s, d, i + 1);
        assert i + |d| <= |s[1..]| ==> s[1..][i..i + |d|] == s[i + 1..i + 1 + |d|];
      }
      SplitOnce(a[1..], d, b, head + [s[0]]);
      assert head + [s[0]] + a[1..] == head + a;
    }
  }

  /** As many of one character as `w` is long. */
  function Filler(w: string, c: char): string {
    seq(|w|, i => c)
  }

  predicate EndsWith(a: string, c: char) {
    |a| > 0 && a[|a| - 1] == c
  }

  lemma FillerOnce(w: string, a: string, b: string, c: char)
    requires |a| < |w| && |b| < |w| && !EndsWith(a, c)
    ensures !Contains(b, Filler(w, c))
    ensures forall i: nat :: i < |a| ==> !OccursAt(a + Filler(w, c) + b, Filler(w, c), i)
  {
    var d := Filler(w, c);
    var s := a + d + b;
    forall i: nat | i < |a|
      ensures !OccursAt(s, d, i)
    {
      assert i + |d| <= |s| ==> s[i..i + |d|][|a| - 1 - i] == a[|a| - 1];
    }
  }

  /** A filler in the place of the marker's text hides the value from its own replacement, and is
      replaced by the marker that puts the value together again. */
  lemma FillerPutsBack(w: string, a: string, b: string, c: char)
    requires |a| < |w| && |b| < |w| && !EndsWith(a, c)
    requires !Contains(a + Filler(w, c) + b, w) && Contains(a + MARKER + b, w)
    ensures Contains(Redacted(a + Filler(w, c) + b, [w, Filler(w, c)]), w)
  {
    var d := Filler(w, c);
    var s := a + d + b;
    SortedPair(w, d);
    assert [w, d][..1] == [w] && [w][..0] == [];
    assert ReplaceAll(s, []) == s;
    ReplaceAbsent(s, w);
    assert ReplaceAll(s, [w]) == s;
    assert ReplaceAll(s, [w, d]) == Replace(s, d);
    FillerOnce(w, a, b, c);
    SplitOnce(a, d, b, "");
    assert "" + a == a && [a, b][1..] == [b];
    assert Join([a, b]) == a + MARKER + b;
  }

  /** A character that is neither in the marker nor the last of `a`. */
  function Other(a: string): char {
    if EndsWith(a, 'x') then 'y' else 'x'
  }

  lemma OtherIsOther(a: string)
    ensures !EndsWith(a, Other(a)) && forall k :: 0 <= k < |MARKER| ==> MARKER[k] != Other(a)
  {}

  lemma EndComesBack(w: string, k: nat)
    requires Overlaps(w, MARKER, k)
    ensures
      var a := w[..|w| - k];
      Contains(Redacted(a + Filler(w, Other(a)) + "", [w, Filler(w, Other(a))]), w)
  {
    var a := w[..|w| - k];
    var c := Other(a);
    var s := a + Filler(w, c) + "";
    OtherIsOther(a);
    forall i: nat
      ensures !OccursAt(s, w, i)
    {
      assert i + |w| <= |s| ==> s[i..i + |w|][|w| - 1] == c;
      assert w[|w| - 1] == w[|w| - k..][k - 1] == MARKER[k - 1];
    }
    var t := a + MARKER + "";
    assert t[0..0 + |w|] == w;
    assert OccursAt(t, w, 0);
    FillerPutsBack(w, a, "", c);
  }

  lemma EndOfJoined(m: string, w: string, k: nat)
    requires Overlaps(m, w, k)
    ensures OccursAt("" + m + w[k..], w, |m| - k)
  {
    var t, j := "" + m + w[k..], |m| - k;
    assert w == m[j..] + w[k..];
    assert t[j..j + |w|] == m[j..] + w[k..];
  }

  lemma BeginComesBack(w: string, k: nat)
    requires Overlaps(MARKER, w, k)
    ensures Contains(Redacted("" + Filler(w, 'x') + w[k..], [w, Filler(w, 'x')]), w)
  {
    var b := w[k..];
    var s := "" + Filler(w, 'x') + b;
    OtherIsOther("");
    forall i: nat
      ensures !OccursAt(s, w, i)
    {
      assert i + |w| <= |s| ==> s[i..i + |w|][0] == 'x';
      assert w[0] == w[..k][0] == MARKER[|MARKER| - k];
    }
    EndOfJoined(MARKER, w, k);
    FillerPutsBack(w, "", b, 'x');
  }

  lemma AroundComesBack(w: string, j: nat)
    requires OccursAt(w, MARKER, j)
    ensures
      var a, b := w[..j], w[j + |MARKER|..];
      Contains(Redacted(a + Filler(w, Other(a)) + b, [w, Filler(w, Other(a))]), w)
  {
    var a, b := w[..j], w[j + |MARKER|..];
    var c := Other(a);
    var s := a + Filler(w, c) + b;
    OtherIsOther(a);
    forall i: nat
      ensures !OccursAt(s, w, i)
    {
      assert i + |w| <= |s| ==> s[i..i + |w|][j] == c;
      assert w[j] == w[j..j + |MARKER|][0] == MARKER[0];
    }
    assert a + MARKER + b == w;
    assert OccursAt(a + MARKER + b, w, 0);
    FillerPutsBack(w, a, b, c);
  }

  /** For each value that touches the marker there is a message in which it comes back. */
  lemma TouchingComesBack(w: string) returns (message: string, values: seq<string>)
    requires |w| > 0 && Touches(w)
    ensures w in values && Contains(Redacted(message, values), w)
  {
    if Contains(MARKER, w) {
      PartOfMarkerStays(w);
      message, values := w, [w];
    } else if Contains(w, MARKER) {
      var j: nat :| OccursAt(w, MARKER, j);
      AroundComesBack(w, j);
      var c := Other(w[..j]);
      message, values := w[..j] + Filler(w, c) + w[j + |MARKER|..], [w, Filler(w, c)];
    } else if k: nat :| Overlaps(w, MARKER, k) {
      EndComesBack(w, k);
      var c := Other(w[..|w| - k]);
      message, values := w[..|w| - k] + Filler(w, c) + "", [w, Filler(w, c)];
    } else {
      var k: nat :| Overlaps(MARKER, w, k);
      BeginComesBack(w, k);
      message, values := "" + Filler(w, 'x') + w[k..], [w, Filler(w, 'x')];
    }
  }

  /** A value can be left in some output exactly when it touches the marker. */
  lemma LeftOverIff(w: string)
    requires |w| > 0
    ensures (exists message, values :: w in values && Contains(Redacted(message, values), w)) <==> Touches(w)
  {
    if Touches(w) {
      var message, values := TouchingComesBack(w);
    } else {
      forall message, values | w in values
        ensures !Contains(Redacted(message, values), w)
      {
        RedactionHidesValues(message, values, w);
      }
    }
  }
}
