/**
 * The generic helpers of the evaluator: flattening, grouping adjacent items by
 * a key, the strict-sequence and all-equal tests, duplicate detection, and the
 * lexicographic order Python uses to compare lists.
 */
module Sequences {
  import opened Results

  /** No two positions of `xs` hold equal items. */
  ghost predicate Distinct<T>(xs: seq<T>) {
    forall i, j :: 0 <= i < j < |xs| ==> xs[i] != xs[j]
  }

  /** Sets with the same members are equal. */
  lemma SameMembers<T>(s: set<T>, t: set<T>)
    requires forall x :: x in s <==> x in t
    ensures s == t
  {
    forall x | x in s ensures x in t {
    }
    forall x | x in t ensures x in s {
    }
  }

  /** Every item of `g` has the key of the first one. */
  ghost predicate SameKey<T, K>(g: seq<T>, key: T -> K)
    requires |g| > 0
  {
    forall i :: 0 <= i < |g| ==> key(g[i]) == key(g[0])
  }

  function Reverse<T>(xs: seq<T>): (r: seq<T>)
    ensures |r| == |xs|
    ensures forall i :: 0 <= i < |xs| ==> r[i] == xs[|xs| - 1 - i]
  {
    seq(|xs|, i requires 0 <= i < |xs| => xs[|xs| - 1 - i])
  }

  /** Reading a sequence backwards twice gives it back, so `Reverse` loses nothing. */
  lemma ReverseReverse<T>(xs: seq<T>)
    ensures Reverse(Reverse(xs)) == xs
  {
  }

  /** A sequence read backwards steps up by one exactly when it steps down by one read forwards. */
  lemma ReverseStrict(xs: seq<int>)
    ensures IsStrictSequence(Reverse(xs)) <==> forall i, j :: 0 <= i && j == i + 1 && j < |xs| ==> xs[i] == xs[j] + 1
  {
    if IsStrictSequence(Reverse(xs)) {
      ReverseStrictDown(xs);
    }
    if forall i, j :: 0 <= i && j == i + 1 && j < |xs| ==> xs[i] == xs[j] + 1 {
      ReverseStrictUp(xs);
    }
  }

  lemma ReverseStrictDown(xs: seq<int>)
    requires IsStrictSequence(Reverse(xs))
    ensures forall i, j :: 0 <= i && j == i + 1 && j < |xs| ==> xs[i] == xs[j] + 1
  {
    var rs, n := Reverse(xs), |xs|;
    forall i, j | 0 <= i && j == i + 1 && j < n ensures xs[i] == xs[j] + 1 {
      var k := n - 2 - i;
      assert rs[k + 1] - rs[k] == 1;
      assert rs[k] == xs[j] && rs[k + 1] == xs[i];
    }
  }

  lemma ReverseStrictUp(xs: seq<int>)
    requires forall i, j :: 0 <= i && j == i + 1 && j < |xs| ==> xs[i] == xs[j] + 1
    ensures IsStrictSequence(Reverse(xs))
  {
    var rs, n := Reverse(xs), |xs|;
    forall k, l | 0 <= k && l == k + 1 && l < n ensures rs[l] - rs[k] == 1 {
      var i := n - 2 - k;
      assert xs[i] == xs[i + 1] + 1;
      assert rs[k] == xs[i + 1] && rs[l] == xs[i];
    }
  }

  /** The number of items in all the groups together. */
  function TotalLength<T>(groups: seq<seq<T>>): nat {
    if |groups| == 0 then 0 else |groups[0]| + TotalLength(groups[1..])
  }

  /** `chain.from_iterable`: the concatenation of the groups, in order, losing and adding no item. */
  function Flatten<T>(groups: seq<seq<T>>): (r: seq<T>)
    ensures |r| == TotalLength(groups)
  {
    if |groups| == 0 then [] else groups[0] + Flatten(groups[1..])
  }

  /** The flattening holds every item of every group, and nothing else. */
  lemma FlattenMembers<T>(groups: seq<seq<T>>)
    ensures forall i, x :: 0 <= i < |groups| && x in groups[i] ==> x in Flatten(groups)
    ensures forall x :: x in Flatten(groups) ==> exists i :: 0 <= i < |groups| && x in groups[i]
  {
    FlattenKeeps(groups);
    FlattenAddsNothing(groups);
  }

  /** Every item of every group is in the flattening. */
  lemma {:induction false} FlattenKeeps<T>(groups: seq<seq<T>>)
    ensures forall i, x :: 0 <= i < |groups| && x in groups[i] ==> x in Flatten(groups)
    decreases |groups|
  {
    if |groups| > 0 {
      FlattenKeeps(groups[1..]);
      forall i, x | 0 <= i < |groups| && x in groups[i] ensures x in Flatten(groups) {
        if i > 0 {
          assert x in groups[1..][i - 1];
        }
      }
    }
  }

  /** Every item of the flattening comes from some group. */
  lemma {:induction false} FlattenAddsNothing<T>(groups: seq<seq<T>>)
    ensures forall x :: x in Flatten(groups) ==> exists i :: 0 <= i < |groups| && x in groups[i]
    decreases |groups|
  {
    if |groups| > 0 {
      FlattenAddsNothing(groups[1..]);
      forall x | x in Flatten(groups) ensures exists i :: 0 <= i < |groups| && x in groups[i] {
        if x !in groups[0] {
          assert x in Flatten(groups[1..]);
          var i :| 0 <= i < |groups[1..]| && x in groups[1..][i];
          assert x in groups[i + 1];
        }
      }
    }
  }

  lemma {:induction false} FlattenAppend<T>(a: seq<seq<T>>, b: seq<seq<T>>)
    ensures Flatten(a + b) == Flatten(a) + Flatten(b)
    decreases |a|
  {
    if |a| == 0 {
      assert a + b == b;
    } else {
      assert (a + b)[1..] == a[1..] + b;
      FlattenAppend(a[1..], b);
    }
  }

  /** The length of the run of items sharing the key of `xs[0]`. */
  function RunLength<T, K(==)>(xs: seq<T>, key: T -> K): (n: nat)
    requires |xs| > 0
    ensures 1 <= n <= |xs|
    ensures forall i :: 0 <= i < n ==> key(xs[i]) == key(xs[0])
    ensures n < |xs| ==> key(xs[n]) != key(xs[0])
  {
    if |xs| == 1 || key(xs[1]) != key(xs[0]) then 1 else 1 + RunLength(xs[1..], key)
  }

  /**
   * `group_into_list`: `itertools.groupby` materialised as a list of lists, i.e.
   * the maximal runs of adjacent items with equal keys. The runs partition the
   * input in order, each run has one key, and neighbouring runs have different keys.
   */
  function GroupIntoList<T, K(==)>(xs: seq<T>, key: T -> K): (groups: seq<seq<T>>)
    ensures Flatten(groups) == xs
    ensures forall i :: 0 <= i < |groups| ==> |groups[i]| > 0 && SameKey(groups[i], key)
    ensures forall i :: 0 <= i < |groups| - 1 ==> key(groups[i][0]) != key(groups[i + 1][0])
    ensures |groups| <= |xs|
    decreases |xs|
  {
    if |xs| == 0 then []
    else
      var n := RunLength(xs, key);
      var rest := GroupIntoList(xs[n..], key);
      FlattenCons(xs[..n], rest);
      assert xs[..n] + xs[n..] == xs;
      assert rest != [] ==> rest[0][0] == xs[n] by {
        if rest != [] {
          FlattenCons(rest[0], rest[1..]);
          assert [rest[0]] + rest[1..] == rest;
        }
      }
      GroupsCons(xs[..n], rest, key);
      [xs[..n]] + rest
  }

  lemma FlattenCons<T>(g: seq<T>, rest: seq<seq<T>>)
    ensures Flatten([g] + rest) == g + Flatten(rest)
  {
    assert ([g] + rest)[1..] == rest;
  }

  /** A run in front of runs with a different first key: the runs stay single-keyed and neighbours keep differing. */
  lemma GroupsCons<T, K>(g: seq<T>, rest: seq<seq<T>>, key: T -> K)
    requires |g| > 0 && SameKey(g, key)
    requires forall i :: 0 <= i < |rest| ==> |rest[i]| > 0 && SameKey(rest[i], key)
    requires forall i :: 0 <= i < |rest| - 1 ==> key(rest[i][0]) != key(rest[i + 1][0])
    requires |rest| > 0 ==> key(rest[0][0]) != key(g[0])
    ensures forall i :: 0 <= i < |[g] + rest| ==> |([g] + rest)[i]| > 0 && SameKey(([g] + rest)[i], key)
    ensures forall i :: 0 <= i < |[g] + rest| - 1 ==> key(([g] + rest)[i][0]) != key(([g] + rest)[i + 1][0])
  {
    var gs := [g] + rest;
    forall i | 0 <= i < |gs| ensures |gs[i]| > 0 && SameKey(gs[i], key) {
      if i > 0 {
        assert gs[i] == rest[i - 1];
      }
    }
    forall i | 0 <= i < |gs| - 1 ensures key(gs[i][0]) != key(gs[i + 1][0]) {
      assert gs[i + 1] == rest[i];
      if i > 0 {
        assert gs[i] == rest[i - 1];
      }
    }
  }

  /**
   * `is_strict_sequence`: every item is exactly one more than the item before it.
   * Sequences of fewer than two items qualify vacuously.
   */
  function IsStrictSequence(xs: seq<int>): (b: bool)
    ensures b <==> forall i, j :: 0 <= i && j == i + 1 && j < |xs| ==> xs[j] - xs[i] == 1
  {
    if |xs| < 2 then true else xs[1] - xs[0] == 1 && IsStrictSequence(xs[1..])
  }

  /** A strict sequence is exactly an arithmetic progression with step one. */
  lemma {:induction false} StrictSequenceIsConsecutive(xs: seq<int>)
    ensures IsStrictSequence(xs) <==> forall i :: 0 <= i < |xs| ==> xs[i] == xs[0] + i
    decreases |xs|
  {
    if |xs| >= 2 {
      StrictSequenceIsConsecutive(xs[1..]);
      if IsStrictSequence(xs) {
        forall i | 0 <= i < |xs| ensures xs[i] == xs[0] + i {
          if i > 0 {
            assert xs[1..][i - 1] == xs[1] + (i - 1);
          }
        }
      }
    }
  }

  function AllEqualTo<T(==)>(xs: seq<T>, first: T): (b: bool)
    ensures b <==> forall i :: 0 <= i < |xs| ==> xs[i] == first
  {
    |xs| == 0 || (xs[0] == first && AllEqualTo(xs[1..], first))
  }

  /** `are_all_equal`: every two items are equal; true of the empty sequence. */
  function AreAllEqual<T(==)>(xs: seq<T>): (b: bool)
    ensures b <==> forall i, j :: 0 <= i < |xs| && 0 <= j < |xs| ==> xs[i] == xs[j]
  {
    |xs| == 0 || AllEqualTo(xs[1..], xs[0])
  }

  /**
   * `x` is the first item, scanning in order, that equals an earlier one: it sits
   * at a position `j` whose prefix already contains it and has no repeat itself.
   * At most one item can be the first repeat.
   */
  ghost predicate IsFirstRepeat<T>(xs: seq<T>, x: T) {
    exists j :: 0 <= j < |xs| && xs[j] == x && x in xs[..j] && Distinct(xs[..j])
  }

  /** Two first repeats are the same item. */
  lemma FirstRepeatUnique<T>(xs: seq<T>, x: T, y: T)
    requires IsFirstRepeat(xs, x) && IsFirstRepeat(xs, y)
    ensures x == y
  {
    var j :| 0 <= j < |xs| && xs[j] == x && x in xs[..j] && Distinct(xs[..j]);
    var k :| 0 <= k < |xs| && xs[k] == y && y in xs[..k] && Distinct(xs[..k]);
    if j < k {
      RepeatInPrefix(xs, j, k);
    } else if k < j {
      RepeatInPrefix(xs, k, j);
    }
  }

  /** A sequence with a first repeat has a repeat. */
  lemma FirstRepeatNotDistinct<T>(xs: seq<T>, x: T)
    requires IsFirstRepeat(xs, x)
    ensures !Distinct(xs)
  {
    var j :| 0 <= j < |xs| && xs[j] == x && x in xs[..j] && Distinct(xs[..j]);
    RepeatInPrefix(xs, j, |xs|);
    assert xs[..|xs|] == xs;
  }

  /** An item repeated before position `j` makes every longer prefix repeat. */
  lemma RepeatInPrefix<T>(xs: seq<T>, j: int, k: int)
    requires 0 <= j < k <= |xs| && xs[j] in xs[..j]
    ensures !Distinct(xs[..k])
  {
    var i :| 0 <= i < j && xs[..j][i] == xs[j];
    assert xs[..k][i] == xs[..k][j];
  }

  /** The loop of `find_duplicate` from position `i`, with `seen` the items before it. */
  function FindDuplicateFrom<T(==)>(xs: seq<T>, i: nat, seen: set<T>): (r: Option<T>)
    requires i <= |xs|
    requires seen == set k | 0 <= k < i :: xs[k]
    requires Distinct(xs[..i])
    ensures r.None? <==> Distinct(xs)
    ensures r.Some? ==> IsFirstRepeat(xs, r.value)
    decreases |xs| - i
  {
    if i == |xs| then
      assert xs[..i] == xs;
      None
    else if xs[i] in seen then
      var k :| 0 <= k < i && xs[k] == xs[i];
      assert xs[..i][k] == xs[i];
      assert !Distinct(xs);
      Some(xs[i])
    else
      assert seen + {xs[i]} == set k | 0 <= k < i + 1 :: xs[k];
      assert Distinct(xs[..i + 1]) by {
        forall a, b | 0 <= a < b < i + 1 ensures xs[a] != xs[b] {
          if b == i {
            assert xs[a] in seen;
          } else {
            assert xs[..i][a] == xs[a] && xs[..i][b] == xs[b];
          }
        }
      }
      FindDuplicateFrom(xs, i + 1, seen + {xs[i]})
  }

  /**
   * `find_duplicate`: the first item that repeats an earlier one, or nothing
   * exactly when all items are distinct.
   */
  function FindDuplicate<T(==)>(xs: seq<T>): (r: Option<T>)
    ensures r.None? <==> Distinct(xs)
    ensures r.Some? ==> IsFirstRepeat(xs, r.value)
  {
    FindDuplicateFrom(xs, 0, {})
  }

  /** Python's `a < b` on lists: the first difference decides, and a proper prefix is smaller. */
  function LexLess(a: seq<int>, b: seq<int>): (r: bool)
    ensures |a| <= |b| && a == b[..|a|] ==> (r <==> |a| < |b|)
  {
    if |a| == 0 then |b| > 0
    else if |b| == 0 then false
    else if a[0] != b[0] then a[0] < b[0]
    else
      assert |a| <= |b| && a == b[..|a|] ==> a[1..] == b[1..][..|a| - 1];
      LexLess(a[1..], b[1..])
  }

  /** `a` and `b` agree on their first `k` items, and position `k` makes `a` smaller. */
  ghost predicate LessAt(a: seq<int>, b: seq<int>, k: int) {
    && 0 <= k <= |a| && k <= |b| && a[..k] == b[..k]
    && ((k == |a| && k < |b|) || (k < |a| && k < |b| && a[k] < b[k]))
  }

  /** The recursive comparison agrees with the textbook definition of lexicographic order. */
  lemma LexLessIffFirstDifference(a: seq<int>, b: seq<int>)
    ensures LexLess(a, b) <==> exists k :: LessAt(a, b, k)
  {
    if LexLess(a, b) {
      LexLessHasFirstDifference(a, b);
    }
    forall k | LessAt(a, b, k) ensures LexLess(a, b) {
      FirstDifferenceIsLexLess(a, b, k);
    }
  }

  lemma {:induction false} LexLessHasFirstDifference(a: seq<int>, b: seq<int>)
    requires LexLess(a, b)
    ensures exists k :: LessAt(a, b, k)
    decreases |a|
  {
    if |a| == 0 || a[0] != b[0] {
      assert LessAt(a, b, 0);
    } else {
      LexLessHasFirstDifference(a[1..], b[1..]);
      var k :| LessAt(a[1..], b[1..], k);
      assert a[..k + 1] == [a[0]] + a[1..][..k];
      assert b[..k + 1] == [b[0]] + b[1..][..k];
      assert LessAt(a, b, k + 1);
    }
  }

  lemma {:induction false} FirstDifferenceIsLexLess(a: seq<int>, b: seq<int>, k: int)
    requires LessAt(a, b, k)
    ensures LexLess(a, b)
    decreases k
  {
    if k > 0 {
      assert a[0] == a[..k][0] == b[..k][0] == b[0];
      assert a[1..][..k - 1] == a[..k][1..];
      assert b[1..][..k - 1] == b[..k][1..];
      FirstDifferenceIsLexLess(a[1..], b[1..], k - 1);
    }
  }

  lemma {:induction false} LexLessIrreflexive(a: seq<int>)
    ensures !LexLess(a, a)
    decreases |a|
  {
    if |a| > 0 {
      LexLessIrreflexive(a[1..]);
    }
  }

  lemma {:induction false} LexLessAsymmetric(a: seq<int>, b: seq<int>)
    ensures LexLess(a, b) ==> !LexLess(b, a)
    decreases |a|
  {
    if |a| > 0 && |b| > 0 && a[0] == b[0] {
      LexLessAsymmetric(a[1..], b[1..]);
    }
  }

  lemma {:induction false} LexLessTransitive(a: seq<int>, b: seq<int>, c: seq<int>)
    requires LexLess(a, b) && LexLess(b, c)
    ensures LexLess(a, c)
    decreases |a|
  {
    if |a| > 0 && |b| > 0 && |c| > 0 && a[0] == b[0] && b[0] == c[0] {
      LexLessTransitive(a[1..], b[1..], c[1..]);
    }
  }

  /** Any two lists are equal or one is lexicographically smaller. */
  lemma {:induction false} LexLessTotal(a: seq<int>, b: seq<int>)
    ensures a == b || LexLess(a, b) || LexLess(b, a)
    decreases |a|
  {
    if |a| > 0 && |b| > 0 && a[0] == b[0] {
      LexLessTotal(a[1..], b[1..]);
      if a[1..] == b[1..] {
        assert a == [a[0]] + a[1..] && b == [b[0]] + b[1..];
      }
    }
  }
}
