/**
 * `mergeSortedSequences(source1, source2)`: pulls one value from each source;
 * while both still have one, yields the two (the smaller first, ties to the
 * second source) and pulls the next value from BOTH; then yields whatever is
 * left of the source that is not exhausted, unchanged.
 *
 * The two sources are finite sequences here; the cursor `i1` (`i2`) is the
 * index of the value last pulled from the first (second) source, which is
 * `done` once the cursor reaches the end.
 */
module Merge {
  import opened Options

  function Min(x: int, y: int): int { if x < y then x else y }
  function Max(x: int, y: int): int { if x < y then y else x }

  /** The two values of one lockstep step, in the order they are yielded. */
  function Ordered(x: int, y: int): (r: seq<int>)
    ensures |r| == 2 && r[0] <= r[1]
    ensures r == [x, y] || r == [y, x]
  {
    if x < y then [x, y] else [y, x]
  }

  /** The whole output of the generator on sources `a` and `b`. */
  function Merged(a: seq<int>, b: seq<int>): (r: seq<int>)
    ensures |r| == |a| + |b|
  {
    if |a| == 0 then b
    else if |b| == 0 then a
    else Ordered(a[0], b[0]) + Merged(a[1..], b[1..])
  }

  predicate Sorted(s: seq<int>)
  {
    forall i, j | 0 <= i < j < |s| :: s[i] <= s[j]
  }

  // ---------------------------------------------------------------------------
  // What the output is

  /** Nothing is lost or invented: the output is the two sources, rearranged. */
  lemma {:induction false} MergedPermutes(a: seq<int>, b: seq<int>)
    ensures |Merged(a, b)| == |a| + |b|
    ensures multiset(Merged(a, b)) == multiset(a) + multiset(b)
  {
    if a != [] && b != [] {
      var a', b' := a[1..], b[1..];
      MergedPermutes(a', b');
      MergedStep(a, b);
      HeadTail(a);
      HeadTail(b);
    }
  }

  lemma HeadTail(s: seq<int>)
    requires s != []
    ensures multiset(s) == multiset{s[0]} + multiset(s[1..])
  {
    assert s == [s[0]] + s[1..];
  }

  lemma MergedStep(a: seq<int>, b: seq<int>)
    requires a != [] && b != []
    ensures multiset(Merged(a, b)) == multiset{a[0], b[0]} + multiset(Merged(a[1..], b[1..]))
  {
    var p := Ordered(a[0], b[0]);
    assert multiset(p) == multiset{a[0], b[0]};
  }

  /** With both sources non-empty, the output starts with their first values, the smaller one first. */
  lemma MergedFirstPair(a: seq<int>, b: seq<int>)
    requires a != [] && b != []
    ensures Merged(a, b) ==
      [if a[0] < b[0] then a[0] else b[0]] + ([if a[0] < b[0] then b[0] else a[0]] + Merged(a[1..], b[1..]))
  {
  }

  /**
   * Output positions `2i` and `2i + 1` hold `a[i]` and `b[i]`, the smaller one
   * first; on a tie `b[i]` comes first.
   */
  lemma {:induction false} MergedPairAt(a: seq<int>, b: seq<int>, i: nat)
    requires i < |a| && i < |b|
    ensures |Merged(a, b)| > 2 * i + 1
    ensures Merged(a, b)[2 * i] == (if a[i] < b[i] then a[i] else b[i])
    ensures Merged(a, b)[2 * i + 1] == (if a[i] < b[i] then b[i] else a[i])
  {
    if i > 0 {
      MergedPairAt(a[1..], b[1..], i - 1);
    }
  }

  /** After the lockstep pairs, the rest of the longer source follows unchanged and in order. */
  lemma {:induction false} MergedTail(a: seq<int>, b: seq<int>, m: nat)
    requires m == Min(|a|, |b|)
    ensures |Merged(a, b)| >= 2 * m && Merged(a, b)[2 * m..] == a[m..] + b[m..]
  {
    if a != [] && b != [] {
      var a', b' := a[1..], b[1..];
      MergedTail(a', b', m - 1);
      var p, r := Ordered(a[0], b[0]), Merged(a', b');
      assert Merged(a, b) == p + r && |p| == 2;
      assert (p + r)[2 * m..] == r[2 * (m - 1)..];
      assert a[m..] == a'[m - 1..] && b[m..] == b'[m - 1..];
    } else {
      assert a[0..] + b[0..] == Merged(a, b);
    }
  }

  // ---------------------------------------------------------------------------
  // When the output is sorted

  function PairMin(a: seq<int>, b: seq<int>, i: nat): int
    requires i < |a| && i < |b|
  {
    Min(a[i], b[i])
  }

  function PairMax(a: seq<int>, b: seq<int>, i: nat): int
    requires i < |a| && i < |b|
  {
    Max(a[i], b[i])
  }

  /**
   * The exact condition for a sorted output: each lockstep pair lies at or
   * below the next one, the leftover of the longer source is sorted, and it
   * starts at or above the last pair.
   */
  predicate PairsChain(a: seq<int>, b: seq<int>)
  {
    var m := Min(|a|, |b|);
    var rest := a[m..] + b[m..];
    && (forall i | 0 < i < m :: PairMax(a, b, i - 1) <= PairMin(a, b, i))
    && Sorted(rest)
    && (0 < m && rest != [] ==> PairMax(a, b, m - 1) <= rest[0])
  }

  lemma SortedPrependPair(lo: int, hi: int, s: seq<int>)
    requires lo <= hi
    ensures Sorted([lo, hi] + s) <==> Sorted(s) && (s != [] ==> hi <= s[0])
  {
    var r := [lo, hi] + s;
    if Sorted(s) && (s != [] ==> hi <= s[0]) {
      forall i, j | 0 <= i < j < |r| ensures r[i] <= r[j] {
        if j >= 2 {
          assert r[j] == s[j - 2] && s[0] <= s[j - 2];
        }
      }
    }
    if Sorted(r) {
      forall i, j | 0 <= i < j < |s| ensures s[i] <= s[j] {
        assert s[i] == r[i + 2] && s[j] == r[j + 2];
      }
      if s != [] {
        assert r[1] == hi && r[2] == s[0];
      }
    }
  }

  /** Peeling the first pair off: how the condition on `a, b` relates to the one on their tails. */
  lemma PairsChainStep(a: seq<int>, b: seq<int>)
    requires a != [] && b != []
    ensures var r := Merged(a[1..], b[1..]);
      PairsChain(a, b) <==> PairsChain(a[1..], b[1..]) && (r != [] ==> Max(a[0], b[0]) <= r[0])
  {
    var a', b' := a[1..], b[1..];
    var m, m' := Min(|a|, |b|), Min(|a'|, |b'|);
    assert m == m' + 1;
    assert a[m..] == a'[m'..] && b[m..] == b'[m'..];
    var r := Merged(a', b');
    forall i | 0 < i < m' ensures PairMax(a, b, i) == PairMax(a', b', i - 1) && PairMin(a, b, i + 1) == PairMin(a', b', i) {
    }
    if m' > 0 {
      MergedPairAt(a', b', 0);
      assert r[0] == PairMin(a, b, 1);
      assert PairMax(a, b, m - 1) == PairMax(a', b', m' - 1);
      if PairsChain(a', b') && Max(a[0], b[0]) <= r[0] {
        forall i | 0 < i < m ensures PairMax(a, b, i - 1) <= PairMin(a, b, i) {
          if i > 1 {
            assert PairMax(a', b', i - 2) <= PairMin(a', b', i - 1);
          }
        }
      }
      if PairsChain(a, b) {
        forall i | 0 < i < m' ensures PairMax(a', b', i - 1) <= PairMin(a', b', i) {
          assert PairMax(a, b, i) <= PairMin(a, b, i + 1);
        }
      }
    } else {
      assert r == a'[m'..] + b'[m'..];
    }
  }

  /** The generator's output is sorted exactly when the inputs satisfy `PairsChain`. */
  lemma {:induction false} MergedSortedIff(a: seq<int>, b: seq<int>)
    ensures Sorted(Merged(a, b)) <==> PairsChain(a, b)
  {
    if a == [] || b == [] {
      assert Merged(a, b) == a[0..] + b[0..];
    } else {
      MergedSortedIff(a[1..], b[1..]);
      PairsChainStep(a, b);
      SortedPrependPair(Min(a[0], b[0]), Max(a[0], b[0]), Merged(a[1..], b[1..]));
    }
  }

  /** Two sorted sources whose merge is not sorted: the doc-comment's promise does not hold in general. */
  lemma SortedSourcesUnsortedOutput()
    ensures Sorted([1, 2]) && Sorted([3, 4])
    ensures Merged([1, 2], [3, 4]) == [1, 3, 2, 4]
    ensures !Sorted(Merged([1, 2], [3, 4]))
  {
    assert [1, 2][1..] == [2] && [3, 4][1..] == [4];
    var r := Merged([1, 2], [3, 4]);
    assert r[1] == 3 && r[2] == 2;
  }

  // ---------------------------------------------------------------------------
  // The merge the doc-comment describes

  /** A textbook two-way merge: take the smaller head, advance only that source. */
  function StreamMerge(a: seq<int>, b: seq<int>): (r: seq<int>)
    ensures |r| == |a| + |b|
    ensures multiset(r) == multiset(a) + multiset(b)
    ensures r != [] ==> r[0] == (if a == [] then b[0] else if b == [] then a[0] else Min(a[0], b[0]))
    ensures Sorted(a) && Sorted(b) ==> Sorted(r)
    decreases |a| + |b|
  {
    if |a| == 0 then b
    else if |b| == 0 then a
    else if a[0] <= b[0] then
      var rest := StreamMerge(a[1..], b);
      HeadTail(a);
      SortedHead(a);
      SortedPrepend(a[0], rest);
      [a[0]] + rest
    else
      var rest := StreamMerge(a, b[1..]);
      HeadTail(b);
      SortedHead(b);
      SortedPrepend(b[0], rest);
      [b[0]] + rest
  }

  lemma SortedHead(s: seq<int>)
    requires s != []
    ensures Sorted(s) ==> Sorted(s[1..]) && (|s| > 1 ==> s[0] <= s[1])
  {
    if Sorted(s) {
      forall i, j | 0 <= i < j < |s| - 1 ensures s[1..][i] <= s[1..][j] {
        assert s[1..][i] == s[i + 1] && s[1..][j] == s[j + 1];
      }
    }
  }

  lemma SortedPrepend(x: int, s: seq<int>)
    ensures Sorted(s) && (s != [] ==> x <= s[0]) ==> Sorted([x] + s)
  {
    var r := [x] + s;
    if Sorted(s) && (s != [] ==> x <= s[0]) {
      forall i, j | 0 <= i < j < |r| ensures r[i] <= r[j] {
        assert r[j] == s[j - 1];
        if i > 0 {
          assert r[i] == s[i - 1];
        } else {
          assert s[0] <= s[j - 1];
        }
      }
    }
  }

  // ---------------------------------------------------------------------------
  // The generator

  /**
   * Where the generator is suspended: before its first statement, after the
   * first or the second `yield` of a lockstep pair (each stands for both
   * branches of the `if`, lines 180/183 and 181/184), after a drain `yield`
   * (line 198 or 193), or finished.
   */
  datatype ResumePoint = NotStarted | AfterFirstOfPair | AfterSecondOfPair | AfterDrain1 | AfterDrain2 | Finished

  class MergeSequence {
    const source1: seq<int>
    const source2: seq<int>
    var i1: nat
    var i2: nat
    var point: ResumePoint
    /** Values yielded so far. */
    ghost var emitted: seq<int>
    /** Everything the generator yields over its lifetime. */
    ghost const output: seq<int>

    /** What the generator still has to yield. */
    ghost function Remaining(): seq<int>
      reads this
      requires CursorsValid()
    {
      match point
      case NotStarted => Merged(source1, source2)
      case AfterFirstOfPair =>
        [if source1[i1] < source2[i2] then source2[i2] else source1[i1]]
          + Merged(source1[i1 + 1..], source2[i2 + 1..])
      case AfterSecondOfPair => Merged(source1[i1 + 1..], source2[i2 + 1..])
      case AfterDrain1 => source1[i1 + 1..]
      case AfterDrain2 => source2[i2 + 1..]
      case Finished => []
    }

    /**
     * The cursors move in lockstep until the first source is exhausted (then the
     * second is drained) or the second is (then the first is drained).
     */
    ghost predicate CursorsValid()
      reads this
    {
      match point
      case NotStarted => true
      case AfterFirstOfPair => i1 == i2 && i1 < |source1| && i2 < |source2|
      case AfterSecondOfPair => i1 == i2 && i1 < |source1| && i2 < |source2|
      case AfterDrain1 => i2 == |source2| <= i1 < |source1|
      case AfterDrain2 => i1 == |source1| <= i2 < |source2|
      case Finished => true
    }

    /** What has been yielded, followed by what is still to come, is the whole merge. */
    ghost predicate Valid()
      reads this
    {
      CursorsValid() && emitted + Remaining() == output
    }

    constructor (source1: seq<int>, source2: seq<int>)
      ensures Valid() && this.source1 == source1 && this.source2 == source2
      ensures output == Merged(source1, source2) && point == NotStarted && emitted == []
    {
      this.source1, this.source2 := source1, source2;
      output := Merged(source1, source2);
      i1, i2 := 0, 0;
      point := NotStarted;
      emitted := [];
    }

    /** The loop test and what follows it, from cursors `i1 == i2` with both pulled. */
    method LockstepTest() returns (value: Option<int>)
      requires i1 == i2 <= |source1| && i2 <= |source2|
      requires emitted + Merged(source1[i1..], source2[i2..]) == output
      modifies this`point, this`emitted
      ensures Valid() && i1 == old(i1) && i2 == old(i2)
      ensures value.None? <==> Merged(source1[i1..], source2[i2..]) == []
      ensures value.Some? ==>
        value.value == Merged(source1[i1..], source2[i2..])[0] && Remaining() == Merged(source1[i1..], source2[i2..])[1..]
      ensures emitted == old(emitted) + (if value.Some? then [value.value] else [])
    {
      var a, b := source1[i1..], source2[i2..];
      if i1 < |source1| && i2 < |source2| {
        assert a[1..] == source1[i1 + 1..] && b[1..] == source2[i2 + 1..];
        var smaller := if source1[i1] < source2[i2] then source1[i1] else source2[i2];
        var larger := if source1[i1] < source2[i2] then source2[i2] else source1[i1];
        ghost var rest := Merged(a[1..], b[1..]);
        MergedFirstPair(a, b);
        assert emitted + Merged(a, b) == (emitted + [smaller]) + ([larger] + rest);
        value := Some(smaller);
        point := AfterFirstOfPair;
        assert Remaining() == [larger] + rest;
      } else if i1 >= |source1| {
        assert a == [];
        value := DrainSecond();
        return;
      } else {
        assert b == [];
        value := DrainFirst();
        return;
      }
      emitted := emitted + [value.value];
    }

    method DrainSecond() returns (value: Option<int>)
      requires i1 == |source1| <= i2 <= |source2|
      requires emitted + source2[i2..] == output
      modifies this`point, this`emitted
      ensures Valid() && i1 == old(i1) && i2 == old(i2)
      ensures value.None? <==> i2 == |source2|
      ensures value.Some? ==> value.value == source2[i2] && Remaining() == source2[i2 + 1..]
      ensures emitted == old(emitted) + (if value.Some? then [value.value] else [])
    {
      if i2 < |source2| {
        value := Some(source2[i2]);
        point := AfterDrain2;
        emitted := emitted + [source2[i2]];
        assert source2[i2..] == [source2[i2]] + source2[i2 + 1..];
      } else {
        value := None;
        point := Finished;
      }
    }

    method DrainFirst() returns (value: Option<int>)
      requires i2 == |source2| <= i1 <= |source1|
      requires emitted + source1[i1..] == output
      modifies this`point, this`emitted
      ensures Valid() && i1 == old(i1) && i2 == old(i2)
      ensures value.None? <==> i1 == |source1|
      ensures value.Some? ==> value.value == source1[i1] && Remaining() == source1[i1 + 1..]
      ensures emitted == old(emitted) + (if value.Some? then [value.value] else [])
    {
      if i1 < |source1| {
        value := Some(source1[i1]);
        point := AfterDrain1;
        emitted := emitted + [source1[i1]];
        assert source1[i1..] == [source1[i1]] + source1[i1 + 1..];
      } else {
        value := None;
        point := Finished;
      }
    }

    /** The first pull: both cursors at the start, then the loop test. */
    method Start() returns (value: Option<int>)
      requires Valid() && point == NotStarted
      modifies this`i1, this`i2, this`point, this`emitted
      ensures Valid()
      ensures value.None? <==> old(Remaining()) == []
      ensures value.Some? ==> value.value == old(Remaining())[0] && Remaining() == old(Remaining())[1..]
      ensures emitted == old(emitted) + (if value.Some? then [value.value] else [])
    {
      ghost var before := Remaining();
      i1, i2 := 0, 0;
      assert before == Merged(source1[i1..], source2[i2..]);
      value := LockstepTest();
    }

    /** From the first `yield` of a pair to the second: the larger value, the first source's on a tie. */
    method YieldLarger() returns (value: Option<int>)
      requires Valid() && point == AfterFirstOfPair
      modifies this`point, this`emitted
      ensures Valid()
      ensures value.None? <==> old(Remaining()) == []
      ensures value.Some? ==> value.value == old(Remaining())[0] && Remaining() == old(Remaining())[1..]
      ensures emitted == old(emitted) + (if value.Some? then [value.value] else [])
    {
      var larger := if source1[i1] < source2[i2] then source2[i2] else source1[i1];
      ghost var rest := Merged(source1[i1 + 1..], source2[i2 + 1..]);
      ghost var before := Remaining();
      assert before == [larger] + rest;
      assert before[0] == larger && before[1..] == rest;
      assert (emitted + [larger]) + rest == emitted + before;
      point := AfterSecondOfPair;
      emitted := emitted + [larger];
      assert Remaining() == rest;
      value := Some(larger);
    }

    /** After the second `yield` of a pair: both cursors advance, then the loop test. */
    method ResumeLockstep() returns (value: Option<int>)
      requires Valid() && point == AfterSecondOfPair
      modifies this`i1, this`i2, this`point, this`emitted
      ensures Valid()
      ensures value.None? <==> old(Remaining()) == []
      ensures value.Some? ==> value.value == old(Remaining())[0] && Remaining() == old(Remaining())[1..]
      ensures emitted == old(emitted) + (if value.Some? then [value.value] else [])
    {
      ghost var before := Remaining();
      i1, i2 := i1 + 1, i2 + 1;
      assert before == Merged(source1[i1..], source2[i2..]);
      value := LockstepTest();
    }

    /** Inside the loop draining the first source: its cursor advances. */
    method ResumeDrainFirst() returns (value: Option<int>)
      requires Valid() && point == AfterDrain1
      modifies this`i1, this`point, this`emitted
      ensures Valid()
      ensures value.None? <==> old(Remaining()) == []
      ensures value.Some? ==> value.value == old(Remaining())[0] && Remaining() == old(Remaining())[1..]
      ensures emitted == old(emitted) + (if value.Some? then [value.value] else [])
    {
      ghost var before := Remaining();
      i1 := i1 + 1;
      assert before == source1[i1..];
      value := DrainFirst();
    }

    /** Inside the loop draining the second source: its cursor advances. */
    method ResumeDrainSecond() returns (value: Option<int>)
      requires Valid() && point == AfterDrain2
      modifies this`i2, this`point, this`emitted
      ensures Valid()
      ensures value.None? <==> old(Remaining()) == []
      ensures value.Some? ==> value.value == old(Remaining())[0] && Remaining() == old(Remaining())[1..]
      ensures emitted == old(emitted) + (if value.Some? then [value.value] else [])
    {
      ghost var before := Remaining();
      i2 := i2 + 1;
      assert before == source2[i2..];
      value := DrainSecond();
    }

    /** One pull: the next merged value, or `None` once both sources are exhausted (and on every later pull). */
    method Next() returns (value: Option<int>)
      requires Valid()
      modifies this
      ensures Valid()
      ensures value.None? <==> old(Remaining()) == []
      ensures value.Some? ==> value.value == old(Remaining())[0] && Remaining() == old(Remaining())[1..]
      ensures emitted == old(emitted) + (if value.Some? then [value.value] else [])
    {
      match point {
        case NotStarted => value := Start();
        case AfterFirstOfPair => value := YieldLarger();
        case AfterSecondOfPair => value := ResumeLockstep();
        case AfterDrain1 => value := ResumeDrainFirst();
        case AfterDrain2 => value := ResumeDrainSecond();
        case Finished => value := None;
      }
    }
  }

  /** Pulls `mergeSortedSequences(source1, source2)` until it is done. */
  method MergeAll(source1: seq<int>, source2: seq<int>) returns (merged: seq<int>)
    ensures merged == Merged(source1, source2)
    ensures |merged| == |source1| + |source2|
    ensures multiset(merged) == multiset(source1) + multiset(source2)
  {
    var merge := new MergeSequence(source1, source2);
    merged := [];
    while true
      invariant merge.Valid() && merge.source1 == source1 && merge.source2 == source2
      invariant merged == merge.emitted
      decreases |merge.Remaining()|
    {
      var next := merge.Next();
      if next.None? {
        break;
      }
      merged := merged + [next.value];
    }
    MergedPermutes(source1, source2);
  }

  /** The three examples of the documentation. */
  lemma {:induction false} DocExamples()
    ensures Merged([1, 3, 5], [2, 4, 6]) == [1, 2, 3, 4, 5, 6]
    ensures Merged([0], [2, 4, 6]) == [0, 2, 4, 6]
    ensures Merged([1, 3, 5], [-1]) == [-1, 1, 3, 5]
  {
    assert [1, 3, 5][1..] == [3, 5] && [3, 5][1..] == [5] && [5][1..] == [];
    assert [2, 4, 6][1..] == [4, 6] && [4, 6][1..] == [6] && [6][1..] == [];
    assert Merged([5], [6]) == [5, 6] + Merged([], []);
    assert Merged([3, 5], [4, 6]) == [3, 4] + Merged([5], [6]);
    assert [0][1..] == [];
    assert Merged([0], [2, 4, 6]) == [0, 2] + Merged([], [4, 6]);
    assert [-1][1..] == [];
    assert Merged([1, 3, 5], [-1]) == [-1, 1] + Merged([3, 5], []);
  }
}
