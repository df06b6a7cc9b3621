/**
 * What `evaluate_hand` computes, stated without its algorithm: the category of
 * a hand from how often each rank occurs, which ranks occur and whether all
 * suits agree, and the tie-break vector as the hand's ranks ordered by
 * frequency and then by rank. The lemmas here prove the evaluator meets these
 * descriptions on every valid hand.
 */
module Classification {
  import opened Sequences
  import opened Cards
  import opened Evaluation

  /** Some rank occurs exactly `k` times. */
  ghost predicate HasRankTimes(cards: seq<Card>, k: nat) {
    exists r :: Multiplicity(cards, r) == k
  }

  /** Two different ranks occur exactly twice each. */
  ghost predicate HasTwoPairs(cards: seq<Card>) {
    exists r, q :: r != q && Multiplicity(cards, r) == 2 && Multiplicity(cards, q) == 2
  }

  /** The ranks that occur in the hand. */
  ghost function RankSet(cards: seq<Card>): set<int> {
    set r | r in Ranks(cards)
  }

  /** `ranks` is exactly five consecutive ranks from `top` down. */
  ghost predicate IsRunDownFrom(ranks: set<int>, top: int) {
    ranks == {top, top - 1, top - 2, top - 3, top - 4}
  }

  /** The ace-low straight A-2-3-4-5. */
  ghost predicate IsWheel(cards: seq<Card>) {
    RankSet(cards) == {12, 3, 2, 1, 0}
  }

  /** Five consecutive ranks, the ace counting high. */
  ghost predicate IsStraight(cards: seq<Card>) {
    exists top :: IsRunDownFrom(RankSet(cards), top)
  }

  /** All cards share one suit. */
  ghost predicate IsFlush(cards: seq<Card>) {
    forall c, d :: c in cards && d in cards ==> c.suit == d.suit
  }

  /** The standard poker categories, read off rank frequencies, rank set and suits. */
  ghost function ReferenceCategory(cards: seq<Card>): Category {
    if HasRankTimes(cards, 4) then FourOfAKind
    else if HasRankTimes(cards, 3) then (if HasRankTimes(cards, 2) then FullHouse else ThreeOfAKind)
    else if HasTwoPairs(cards) then TwoPair
    else if HasRankTimes(cards, 2) then OnePair
    else if IsWheel(cards) then (if IsFlush(cards) then StraightFlush else Straight)
    else if IsStraight(cards) then
      if IsFlush(cards) then (if IsRunDownFrom(RankSet(cards), 12) then RoyalFlush else StraightFlush)
      else Straight
    else if IsFlush(cards) then Flush
    else HighCard
  }

  /** Rank `a` comes no later than rank `b` in the tie-break: more frequent, or as frequent and at least as high. */
  ghost predicate Precedes(cards: seq<Card>, a: int, b: int) {
    || Multiplicity(cards, a) > Multiplicity(cards, b)
    || (Multiplicity(cards, a) == Multiplicity(cards, b) && a >= b)
  }

  /** `v` lists the hand's ranks, most frequent first and higher first among equally frequent ones. */
  ghost predicate TieBreakOrdered(cards: seq<Card>, v: seq<int>) {
    multiset(v) == multiset(Ranks(cards)) && PrecedesSorted(cards, v)
  }

  /** `v` lists ranks in tie-break order. */
  ghost predicate PrecedesSorted(cards: seq<Card>, v: seq<int>) {
    forall i, j :: 0 <= i < j < |v| ==> Precedes(cards, v[i], v[j])
  }

  // ---------------------------------------------------------------------------
  // Runs of a sorted hand and rank multiplicities

  lemma {:induction false} UniformRanks(g: seq<Card>, rank: int, q: int)
    requires forall k :: 0 <= k < |g| ==> g[k].rank == rank
    ensures multiset(Ranks(g))[q] == if q == rank then |g| else 0
    decreases |g|
  {
    if |g| > 0 {
      UniformRanks(g[1..], rank, q);
      assert Ranks(g) == [g[0].rank] + Ranks(g[1..]);
    }
  }

  lemma RanksSplit(xs: seq<Card>, n: nat)
    requires n <= |xs|
    ensures multiset(Ranks(xs)) == multiset(Ranks(xs[..n])) + multiset(Ranks(xs[n..]))
  {
    assert xs == xs[..n] + xs[n..];
    RanksAppend(xs[..n], xs[n..]);
  }

  /** A sequence whose ranks from position `n` on are below `rank` has no card of that rank there. */
  lemma TailLacksRank(xs: seq<Card>, n: nat, rank: int)
    requires n <= |xs|
    requires forall k :: n <= k < |xs| ==> xs[k].rank < rank
    ensures Multiplicity(xs[n..], rank) == 0
  {
    var tail := Ranks(xs[n..]);
    assert forall k :: 0 <= k < |tail| ==> tail[k] == xs[n + k].rank;
    assert rank !in tail;
  }

  /** The run at the front of a rank-descending sequence and what follows it. */
  lemma FirstRunShape(xs: seq<Card>)
    requires RanksDescending(xs) && |xs| > 0
    ensures var n := RunLength(xs, RankOf);
      && (forall k :: 0 <= k < n ==> xs[..n][k].rank == xs[0].rank)
      && (forall k :: n <= k < |xs| ==> xs[k].rank < xs[0].rank)
  {
    var n := RunLength(xs, RankOf);
    forall k | 0 <= k < n ensures xs[..n][k].rank == xs[0].rank {
      assert RankOf(xs[k]) == RankOf(xs[0]);
    }
    if n < |xs| {
      assert RankOf(xs[n]) != RankOf(xs[0]);
    }
  }

  /** The first run of a rank-descending sequence holds every card of its rank. */
  lemma FirstRunCount(xs: seq<Card>, q: int)
    requires RanksDescending(xs) && |xs| > 0
    ensures var n := RunLength(xs, RankOf);
      Multiplicity(xs, q) == (if q == xs[0].rank then n else 0) + Multiplicity(xs[n..], q)
    ensures Multiplicity(xs[RunLength(xs, RankOf)..], xs[0].rank) == 0
  {
    var n := RunLength(xs, RankOf);
    FirstRunShape(xs);
    UniformRanks(xs[..n], xs[0].rank, q);
    RanksSplit(xs, n);
    TailLacksRank(xs, n, xs[0].rank);
  }

  /** The runs of a non-empty sequence: its first run, then the runs of the rest. */
  lemma RunsUnfold(xs: seq<Card>)
    requires |xs| > 0
    ensures var n := RunLength(xs, RankOf);
      GroupIntoList(xs, RankOf) == [xs[..n]] + GroupIntoList(xs[n..], RankOf)
  {
  }

  /** Later runs of a rank-descending sequence have lower ranks than its first card. */
  lemma LaterRunsBelow(xs: seq<Card>, i: int)
    requires RanksDescending(xs) && |xs| > 0
    requires 0 < i < |GroupIntoList(xs, RankOf)|
    ensures GroupIntoList(xs, RankOf)[i][0].rank < xs[0].rank
  {
    var runs: seq<seq<Card>> := GroupIntoList(xs, RankOf);
    RunsUnfold(xs);
    RunsDescend(xs);
    assert runs[0][0] == xs[0];
  }

  /** Each run of a rank-descending sequence holds every card of its rank. */
  lemma {:induction false} RunsCountRanks(xs: seq<Card>)
    requires RanksDescending(xs)
    ensures var runs: seq<seq<Card>> := GroupIntoList(xs, RankOf);
      forall i :: 0 <= i < |runs| ==> Multiplicity(xs, runs[i][0].rank) == |runs[i]|
    decreases |xs|
  {
    if |xs| > 0 {
      var n := RunLength(xs, RankOf);
      var rest: seq<seq<Card>> := GroupIntoList(xs[n..], RankOf);
      var runs: seq<seq<Card>> := GroupIntoList(xs, RankOf);
      RunsUnfold(xs);
      DescendingSuffix(xs, n);
      RunsCountRanks(xs[n..]);
      forall i | 0 <= i < |runs| ensures Multiplicity(xs, runs[i][0].rank) == |runs[i]| {
        FirstRunCount(xs, runs[i][0].rank);
        if i > 0 {
          LaterRunsBelow(xs, i);
          assert runs[i] == rest[i - 1];
        }
      }
    }
  }

  /** Every rank of a rank-descending sequence heads one of its runs. */
  lemma {:induction false} RunsCoverRanks(xs: seq<Card>, r: int)
    requires RanksDescending(xs) && Multiplicity(xs, r) > 0
    ensures var runs: seq<seq<Card>> := GroupIntoList(xs, RankOf);
      exists i :: 0 <= i < |runs| && runs[i][0].rank == r
    decreases |xs|
  {
    var runs: seq<seq<Card>> := GroupIntoList(xs, RankOf);
    if |xs| > 0 {
      var n := RunLength(xs, RankOf);
      var rest: seq<seq<Card>> := GroupIntoList(xs[n..], RankOf);
      RunsUnfold(xs);
      FirstRunCount(xs, r);
      if r != xs[0].rank {
        DescendingSuffix(xs, n);
        RunsCoverRanks(xs[n..], r);
        var i :| 0 <= i < |rest| && rest[i][0].rank == r;
        assert runs[i + 1] == rest[i];
      } else {
        assert runs[0][0] == xs[0];
      }
    }
  }

  // ---------------------------------------------------------------------------
  // The groups of a valid hand

  /** The groups `evaluate_hand` works with. */
  function Groups(cards: seq<Card>): seq<seq<Card>> {
    GroupByRankCount(SortByRankDesc(cards))
  }

  /** The groups of a valid hand: two to five of them, ordered by size and then rank. */
  lemma GroupShape(cards: seq<Card>)
    requires ValidCards(cards)
    ensures var groups := Groups(cards);
      && 2 <= |groups| <= 5
      && GroupsOrdered(groups)
      && SingleRanked(groups)
      && |Flatten(groups)| == 5
  {
    var sorted := SortByRankDesc(cards);
    var groups: seq<seq<Card>> := Groups(cards);
    SortByRankDescSorted(cards);
    NotAllOneRank(cards);
    assert groups == GroupByRankCount(sorted);
    assert multiset(Ranks(Flatten(groups))) == multiset(Ranks(sorted));
    assert |Ranks(Flatten(groups))| == |Ranks(sorted)|;
  }

  /** Each group is one of the runs of the sorted hand. */
  lemma GroupIsRun(cards: seq<Card>, i: int)
    requires 0 <= i < |Groups(cards)|
    ensures Groups(cards)[i] in GroupIntoList(SortByRankDesc(cards), RankOf)
  {
    var runs: seq<seq<Card>> := GroupIntoList(SortByRankDesc(cards), RankOf);
    var groups: seq<seq<Card>> := Groups(cards);
    assert groups == SortBySizeDesc(runs);
    SortBySizeDescPermutes(runs);
    assert groups[i] in multiset(groups);
  }

  /** Each group holds every card of the hand with its rank. */
  lemma GroupCounts(cards: seq<Card>, i: int)
    requires ValidCards(cards) && 0 <= i < |Groups(cards)|
    ensures Multiplicity(cards, Groups(cards)[i][0].rank) == |Groups(cards)[i]|
  {
    var sorted := SortByRankDesc(cards);
    var runs: seq<seq<Card>> := GroupIntoList(sorted, RankOf);
    GroupIsRun(cards, i);
    var k :| 0 <= k < |runs| && runs[k] == Groups(cards)[i];
    SortByRankDescSorted(cards);
    RunsCountRanks(sorted);
    assert Multiplicity(sorted, runs[k][0].rank) == |runs[k]|;
    SortByRankDescPermutesRanks(cards);
  }

  /** Each run of the sorted hand is one of the groups. */
  lemma RunIsGroup(cards: seq<Card>, k: int)
    requires 0 <= k < |GroupIntoList(SortByRankDesc(cards), RankOf)|
    ensures exists i :: 0 <= i < |Groups(cards)| && Groups(cards)[i] == GroupIntoList(SortByRankDesc(cards), RankOf)[k]
  {
    var runs: seq<seq<Card>> := GroupIntoList(SortByRankDesc(cards), RankOf);
    var groups: seq<seq<Card>> := Groups(cards);
    assert groups == SortBySizeDesc(runs);
    SortBySizeDescPermutes(runs);
    assert runs[k] in multiset(groups);
  }

  /** Every rank of the hand heads one of its groups. */
  lemma GroupCover(cards: seq<Card>, r: int)
    requires ValidCards(cards) && Multiplicity(cards, r) > 0
    ensures exists i :: 0 <= i < |Groups(cards)| && Groups(cards)[i][0].rank == r
  {
    var sorted := SortByRankDesc(cards);
    var runs: seq<seq<Card>> := GroupIntoList(sorted, RankOf);
    SortByRankDescSorted(cards);
    SortByRankDescPermutesRanks(cards);
    RunsCoverRanks(sorted, r);
    var k :| 0 <= k < |runs| && runs[k][0].rank == r;
    RunIsGroup(cards, k);
  }

  lemma FlattenDrop<T>(gs: seq<seq<T>>, k: nat)
    requires k < |gs|
    ensures |Flatten(gs[k..])| == |gs[k]| + |Flatten(gs[k + 1..])|
  {
    assert gs[k..][1..] == gs[k + 1..];
  }

  /** Group sizes that are at least one, non-increasing and sum to five leave few profiles. */
  lemma SizeProfile(groups: seq<seq<Card>>)
    requires 2 <= |groups| <= 5 && GroupsOrdered(groups) && |Flatten(groups)| == 5
    ensures |groups| == 5 ==> forall i :: 0 <= i < 5 ==> |groups[i]| == 1
    ensures |groups| == 4 ==> |groups[0]| == 2 && |groups[1]| == 1 && |groups[2]| == 1 && |groups[3]| == 1
    ensures |groups| == 3 ==>
      || (|groups[0]| == 3 && |groups[1]| == 1 && |groups[2]| == 1)
      || (|groups[0]| == 2 && |groups[1]| == 2 && |groups[2]| == 1)
    ensures |groups| == 2 ==> (|groups[0]| == 4 && |groups[1]| == 1) || (|groups[0]| == 3 && |groups[1]| == 2)
  {
    assert groups[0..] == groups;
    assert groups[|groups|..] == [];
    FlattenDrop(groups, 0);
    FlattenDrop(groups, 1);
    if |groups| > 2 { FlattenDrop(groups, 2); }
    if |groups| > 3 { FlattenDrop(groups, 3); }
    if |groups| > 4 { FlattenDrop(groups, 4); }
  }

  /** Some rank occurs `k` times exactly when some group has `k` cards. */
  lemma RankTimesIsGroupSize(cards: seq<Card>, k: nat)
    requires ValidCards(cards) && k >= 1
    ensures HasRankTimes(cards, k) <==> exists i :: 0 <= i < |Groups(cards)| && |Groups(cards)[i]| == k
  {
    var groups: seq<seq<Card>> := Groups(cards);
    if HasRankTimes(cards, k) {
      var r :| Multiplicity(cards, r) == k;
      GroupCover(cards, r);
      var i :| 0 <= i < |groups| && groups[i][0].rank == r;
      GroupCounts(cards, i);
    }
    if exists i :: 0 <= i < |groups| && |groups[i]| == k {
      var i :| 0 <= i < |groups| && |groups[i]| == k;
      GroupCounts(cards, i);
    }
  }

  /** Different groups hold different ranks. */
  lemma GroupRanksDistinct(cards: seq<Card>, i: int, j: int)
    requires ValidCards(cards)
    requires 0 <= i < |Groups(cards)| && 0 <= j < |Groups(cards)| && i != j
    ensures Groups(cards)[i][0].rank != Groups(cards)[j][0].rank
  {
    GroupShape(cards);
    GroupCounts(cards, i);
    GroupCounts(cards, j);
  }

  /** Two ranks occur twice exactly when two groups have two cards. */
  lemma TwoPairsIsTwoGroupsOfTwo(cards: seq<Card>)
    requires ValidCards(cards)
    ensures HasTwoPairs(cards) <==>
      exists i, j :: 0 <= i < j < |Groups(cards)| && |Groups(cards)[i]| == 2 && |Groups(cards)[j]| == 2
  {
    var groups: seq<seq<Card>> := Groups(cards);
    if HasTwoPairs(cards) {
      TwoPairsGiveTwoGroups(cards);
    }
    if exists i, j :: 0 <= i < j < |groups| && |groups[i]| == 2 && |groups[j]| == 2 {
      var i, j :| 0 <= i < j < |groups| && |groups[i]| == 2 && |groups[j]| == 2;
      GroupRanksDistinct(cards, i, j);
      GroupCounts(cards, i);
      GroupCounts(cards, j);
    }
  }

  lemma TwoPairsGiveTwoGroups(cards: seq<Card>)
    requires ValidCards(cards) && HasTwoPairs(cards)
    ensures exists i, j :: 0 <= i < j < |Groups(cards)| && |Groups(cards)[i]| == 2 && |Groups(cards)[j]| == 2
  {
    var groups: seq<seq<Card>> := Groups(cards);
    var r, q :| r != q && Multiplicity(cards, r) == 2 && Multiplicity(cards, q) == 2;
    GroupCover(cards, r);
    GroupCover(cards, q);
    var i :| 0 <= i < |groups| && groups[i][0].rank == r;
    var j :| 0 <= j < |groups| && groups[j][0].rank == q;
    GroupCounts(cards, i);
    GroupCounts(cards, j);
    TwoGroupsOfTwo(groups, i, j);
  }

  lemma TwoGroupsOfTwo(groups: seq<seq<Card>>, i: int, j: int)
    requires 0 <= i < |groups| && 0 <= j < |groups| && i != j
    requires |groups[i]| == 2 && |groups[j]| == 2
    ensures exists i, j :: 0 <= i < j < |groups| && |groups[i]| == 2 && |groups[j]| == 2
  {
    if i < j {
      assert |groups[i]| == 2 && |groups[j]| == 2;
    } else {
      assert |groups[j]| == 2 && |groups[i]| == 2;
    }
  }

  // ---------------------------------------------------------------------------
  // Five distinct ranks

  lemma {:induction false} FlattenSingletons<T>(gs: seq<seq<T>>)
    requires forall i :: 0 <= i < |gs| ==> |gs[i]| == 1
    ensures |Flatten(gs)| == |gs|
    ensures forall i :: 0 <= i < |gs| ==> Flatten(gs)[i] == gs[i][0]
    decreases |gs|
  {
    if |gs| > 0 {
      FlattenSingletons(gs[1..]);
      assert gs[0] == [gs[0][0]];
    }
  }

  lemma {:induction false} DistinctCount(rs: seq<int>, r: int)
    requires forall i, j :: 0 <= i < j < |rs| ==> rs[i] != rs[j]
    ensures multiset(rs)[r] <= 1
    decreases |rs|
  {
    if |rs| > 0 {
      DistinctCount(rs[1..], r);
      assert rs == [rs[0]] + rs[1..];
      if rs[0] == r {
        assert r !in rs[1..];
      }
    }
  }

  /** A hand has five groups exactly when no rank occurs twice. */
  lemma FiveGroupsIffNoRepeat(cards: seq<Card>)
    requires ValidCards(cards)
    ensures |Groups(cards)| == 5 <==> forall r :: Multiplicity(cards, r) <= 1
  {
    var groups: seq<seq<Card>> := Groups(cards);
    GroupShape(cards);
    SizeProfile(groups);
    if |groups| == 5 {
      forall r ensures Multiplicity(cards, r) <= 1 {
        if Multiplicity(cards, r) > 0 {
          GroupCover(cards, r);
          var i :| 0 <= i < |groups| && groups[i][0].rank == r;
          GroupCounts(cards, i);
        }
      }
    } else {
      GroupCounts(cards, 0);
    }
  }

  /** With five groups every run of the sorted hand is a single card, and the runs are the groups. */
  lemma FiveGroupsAreRuns(cards: seq<Card>)
    requires ValidCards(cards) && |Groups(cards)| == 5
    ensures var runs: seq<seq<Card>> := GroupIntoList(SortByRankDesc(cards), RankOf);
      && Groups(cards) == runs
      && forall k :: 0 <= k < |runs| ==> |runs[k]| == 1
  {
    var runs: seq<seq<Card>> := GroupIntoList(SortByRankDesc(cards), RankOf);
    var groups: seq<seq<Card>> := Groups(cards);
    GroupShape(cards);
    SizeProfile(groups);
    forall k | 0 <= k < |runs| ensures |runs[k]| == 1 {
      RunIsGroup(cards, k);
    }
    SortBySizeDescSingletons(runs);
  }

  /** With five groups the groups are the single cards of the sorted hand, whose ranks strictly descend. */
  lemma FiveGroupsAreCards(cards: seq<Card>)
    requires ValidCards(cards) && |Groups(cards)| == 5
    ensures var sorted := SortByRankDesc(cards);
      && Ranks(Flatten(Groups(cards))) == Ranks(sorted)
      && forall i, j :: 0 <= i < j < 5 ==> sorted[i].rank > sorted[j].rank
  {
    var sorted := SortByRankDesc(cards);
    var runs: seq<seq<Card>> := GroupIntoList(sorted, RankOf);
    FiveGroupsAreRuns(cards);
    FlattenSingletons(runs);
    SortByRankDescSorted(cards);
    RunsDescend(sorted);
  }

  lemma RankSetMember(cards: seq<Card>, r: int)
    ensures r in RankSet(cards) <==> Multiplicity(cards, r) > 0
  {
    assert r in Ranks(cards) <==> r in multiset(Ranks(cards));
  }

  lemma FiveRanksMember(s: seq<Card>, r: int)
    requires |s| == 5
    ensures Multiplicity(s, r) > 0 <==> r in {s[0].rank, s[1].rank, s[2].rank, s[3].rank, s[4].rank}
  {
    assert r in Ranks(s) <==> r in multiset(Ranks(s));
    if r in Ranks(s) {
      var k :| 0 <= k < 5 && Ranks(s)[k] == r;
    }
    assert Ranks(s) == [s[0].rank, s[1].rank, s[2].rank, s[3].rank, s[4].rank];
  }

  /** The ranks occurring in a hand, read off five cards with the same ranks. */
  lemma RankSetOfFive(cards: seq<Card>, s: seq<Card>)
    requires |s| == 5 && multiset(Ranks(s)) == multiset(Ranks(cards))
    ensures RankSet(cards) == {s[0].rank, s[1].rank, s[2].rank, s[3].rank, s[4].rank}
  {
    forall r ensures r in RankSet(cards) <==> r in {s[0].rank, s[1].rank, s[2].rank, s[3].rank, s[4].rank} {
      RankSetMember(cards, r);
      FiveRanksMember(s, r);
    }
    SameMembers(RankSet(cards), {s[0].rank, s[1].rank, s[2].rank, s[3].rank, s[4].rank});
  }

  /** Five strictly descending ranks form the run down from `top` exactly when they are `top` and the four below. */
  lemma RunSet(a: int, b: int, c: int, d: int, e: int, top: int)
    requires a > b > c > d > e
    ensures IsRunDownFrom({a, b, c, d, e}, top) <==>
      a == top && b == top - 1 && c == top - 2 && d == top - 3 && e == top - 4
  {
    if IsRunDownFrom({a, b, c, d, e}, top) {
      assert top in {a, b, c, d, e};
      assert top - 4 in {a, b, c, d, e};
      assert a in {top, top - 1, top - 2, top - 3, top - 4};
      assert e in {top, top - 1, top - 2, top - 3, top - 4};
    }
  }

  /** Five descending ranks make up the wheel's rank set exactly when they are A, 5, 4, 3, 2. */
  lemma WheelSet(a: int, b: int, c: int, d: int, e: int)
    requires a >= b >= c >= d >= e
    ensures {a, b, c, d, e} == {12, 3, 2, 1, 0} <==> a == 12 && b == 3 && c == 2 && d == 1 && e == 0
  {
    if {a, b, c, d, e} == {12, 3, 2, 1, 0} {
      assert 12 in {a, b, c, d, e} && 0 in {a, b, c, d, e};
      assert 1 in {a, b, c, d, e} && 2 in {a, b, c, d, e} && 3 in {a, b, c, d, e};
      assert a in {12, 3, 2, 1, 0} && b in {12, 3, 2, 1, 0} && c in {12, 3, 2, 1, 0};
      assert d in {12, 3, 2, 1, 0} && e in {12, 3, 2, 1, 0};
    }
  }

  /** `are_sequential` on five sorted cards: each rank is one above the next. */
  lemma SequentialFive(s: seq<Card>)
    requires |s| == 5
    ensures AreSequential(s) <==>
      s[0].rank == s[1].rank + 1 && s[1].rank == s[2].rank + 1 &&
      s[2].rank == s[3].rank + 1 && s[3].rank == s[4].rank + 1
  {
    var rev := Reverse(Ranks(s));
    assert rev[0] == s[4].rank && rev[1] == s[3].rank && rev[2] == s[2].rank;
    assert rev[3] == s[1].rank && rev[4] == s[0].rank;
    if s[0].rank == s[1].rank + 1 && s[1].rank == s[2].rank + 1 &&
       s[2].rank == s[3].rank + 1 && s[3].rank == s[4].rank + 1 {
      forall i | 0 <= i < 4 ensures rev[i + 1] - rev[i] == 1 {
        if i == 0 {} else if i == 1 {} else if i == 2 {} else {}
      }
    }
    if AreSequential(s) {
      assert rev[1] - rev[0] == 1 && rev[2] - rev[1] == 1;
      assert rev[3] - rev[2] == 1 && rev[4] - rev[3] == 1;
    }
  }

  /** Cards with pairwise different ranks, and any reordering of them, repeat no rank. */
  lemma DistinctRanksNoRepeat(cards: seq<Card>, s: seq<Card>)
    requires multiset(Ranks(s)) == multiset(Ranks(cards))
    requires forall i, j :: 0 <= i < j < |s| ==> s[i].rank != s[j].rank
    ensures forall r :: Multiplicity(cards, r) <= 1
  {
    var rs := Ranks(s);
    forall r ensures Multiplicity(cards, r) <= 1 {
      DistinctCount(rs, r);
    }
  }

  /** A wheel has five distinct ranks. */
  lemma WheelHasNoRepeat(cards: seq<Card>)
    requires ValidCards(cards) && IsWheel(cards)
    ensures forall r :: Multiplicity(cards, r) <= 1
  {
    var s := SortByRankDesc(cards);
    SortByRankDescPermutesRanks(cards);
    SortByRankDescSorted(cards);
    RankSetOfFive(cards, s);
    assert s[0].rank >= s[1].rank >= s[2].rank >= s[3].rank >= s[4].rank;
    WheelSet(s[0].rank, s[1].rank, s[2].rank, s[3].rank, s[4].rank);
    DistinctRanksNoRepeat(cards, s);
  }

  /** Five descending ranks that make up a run of five are exactly that run, top first. */
  lemma RunSetDescending(a: int, b: int, c: int, d: int, e: int, top: int)
    requires a >= b >= c >= d >= e && IsRunDownFrom({a, b, c, d, e}, top)
    ensures a == top && b == top - 1 && c == top - 2 && d == top - 3 && e == top - 4
  {
    assert top in {a, b, c, d, e} && top - 1 in {a, b, c, d, e} && top - 2 in {a, b, c, d, e};
    assert top - 3 in {a, b, c, d, e} && top - 4 in {a, b, c, d, e};
    assert a in {top, top - 1, top - 2, top - 3, top - 4} && e in {top, top - 1, top - 2, top - 3, top - 4};
  }

  /** A hand whose ranks form a run of five repeats no rank. */
  lemma RunHasNoRepeat(cards: seq<Card>, top: int)
    requires ValidCards(cards) && IsRunDownFrom(RankSet(cards), top)
    ensures forall r :: Multiplicity(cards, r) <= 1
  {
    var s := SortByRankDesc(cards);
    SortByRankDescPermutesRanks(cards);
    SortByRankDescSorted(cards);
    RankSetOfFive(cards, s);
    assert s[0].rank >= s[1].rank >= s[2].rank >= s[3].rank >= s[4].rank;
    RunSetDescending(s[0].rank, s[1].rank, s[2].rank, s[3].rank, s[4].rank, top);
    DistinctRanksNoRepeat(cards, s);
  }

  /** With five groups, the grouped ranks are the sorted hand's five strictly descending ranks. */
  lemma FiveSortedRanks(cards: seq<Card>)
    requires ValidCards(cards) && |Groups(cards)| == 5
    ensures var s := SortByRankDesc(cards);
      && |s| == 5
      && Ranks(Flatten(Groups(cards))) == [s[0].rank, s[1].rank, s[2].rank, s[3].rank, s[4].rank]
      && s[0].rank > s[1].rank > s[2].rank > s[3].rank > s[4].rank
  {
    var s := SortByRankDesc(cards);
    FiveGroupsAreCards(cards);
    RanksOfFive(s);
  }

  lemma RanksOfFive(s: seq<Card>)
    requires |s| == 5
    ensures Ranks(s) == [s[0].rank, s[1].rank, s[2].rank, s[3].rank, s[4].rank]
  {
    var v := [s[0].rank, s[1].rank, s[2].rank, s[3].rank, s[4].rank];
    assert forall i :: 0 <= i < 5 ==> Ranks(s)[i] == v[i];
  }

  /** The rank set of a hand is that of its sorted cards. */
  lemma SortedRankSet(cards: seq<Card>)
    requires |cards| == 5
    ensures var s := SortByRankDesc(cards);
      RankSet(cards) == {s[0].rank, s[1].rank, s[2].rank, s[3].rank, s[4].rank}
  {
    SortByRankDescPermutesRanks(cards);
    RankSetOfFive(cards, SortByRankDesc(cards));
  }

  /** With five distinct ranks, the sorted ranks are the wheel's exactly when the rank set is. */
  lemma WheelFive(cards: seq<Card>)
    requires ValidCards(cards) && |Groups(cards)| == 5
    ensures Ranks(Flatten(Groups(cards))) == [12, 3, 2, 1, 0] <==> IsWheel(cards)
  {
    var s := SortByRankDesc(cards);
    FiveSortedRanks(cards);
    SortedRankSet(cards);
    WheelSet(s[0].rank, s[1].rank, s[2].rank, s[3].rank, s[4].rank);
  }

  /** With five distinct ranks, the evaluator's straight test is the reference one. */
  lemma StraightFive(cards: seq<Card>)
    requires ValidCards(cards) && |Groups(cards)| == 5
    ensures AreSequential(SortByRankDesc(cards)) <==> IsStraight(cards)
  {
    var s := SortByRankDesc(cards);
    FiveSortedRanks(cards);
    SortedRankSet(cards);
    SequentialFive(s);
    if AreSequential(s) {
      RunSet(s[0].rank, s[1].rank, s[2].rank, s[3].rank, s[4].rank, s[0].rank);
    }
    if IsStraight(cards) {
      var top :| IsRunDownFrom(RankSet(cards), top);
      RunSet(s[0].rank, s[1].rank, s[2].rank, s[3].rank, s[4].rank, top);
    }
  }

  /** For a straight, an ace on top is the same as running down from the ace. */
  lemma RoyalFive(cards: seq<Card>)
    requires ValidCards(cards) && |Groups(cards)| == 5 && AreSequential(SortByRankDesc(cards))
    ensures IsAce(SortByRankDesc(cards)[0]) <==> IsRunDownFrom(RankSet(cards), 12)
  {
    var s := SortByRankDesc(cards);
    FiveSortedRanks(cards);
    SortedRankSet(cards);
    SequentialFive(s);
    RunSet(s[0].rank, s[1].rank, s[2].rank, s[3].rank, s[4].rank, 12);
  }

  /** The evaluator's suit test is the reference flush test. */
  lemma FlushIffSameSuits(cards: seq<Card>)
    ensures AreAllSameSuits(SortByRankDesc(cards)) <==> IsFlush(cards)
  {
    var s := SortByRankDesc(cards);
    SortByRankDescPermutes(cards);
    if AreAllSameSuits(s) {
      forall c, d | c in cards && d in cards ensures c.suit == d.suit {
        assert c in multiset(s) && d in multiset(s);
        var i :| 0 <= i < |s| && s[i] == c;
        var j :| 0 <= j < |s| && s[j] == d;
        assert Suits(s)[i] == Suits(s)[j];
      }
    }
    if IsFlush(cards) {
      forall i, j | 0 <= i < |s| && 0 <= j < |s| ensures Suits(s)[i] == Suits(s)[j] {
        assert s[i] in multiset(cards) && s[j] in multiset(cards);
      }
    }
  }

  // ---------------------------------------------------------------------------
  // The tie-break vector

  /** Groups ordered by size and rank, each as large as its rank's multiplicity. */
  ghost predicate CountedGroups(cards: seq<Card>, gs: seq<seq<Card>>) {
    && GroupsOrdered(gs)
    && SingleRanked(gs)
    && forall i :: 0 <= i < |gs| ==> Multiplicity(cards, gs[i][0].rank) == |gs[i]|
  }

  lemma CountedGroupsTail(cards: seq<Card>, gs: seq<seq<Card>>)
    requires CountedGroups(cards, gs) && |gs| > 0
    ensures CountedGroups(cards, gs[1..])
    ensures Ranks(Flatten(gs)) == Ranks(gs[0]) + Ranks(Flatten(gs[1..]))
    ensures forall k :: 0 <= k < |gs[0]| ==> Ranks(gs[0])[k] == gs[0][0].rank
  {
    RanksAppend(gs[0], Flatten(gs[1..]));
  }

  /** The first group's rank precedes every rank of the flattened groups. */
  lemma {:induction false} HeadPrecedesAll(cards: seq<Card>, gs: seq<seq<Card>>)
    requires CountedGroups(cards, gs) && |gs| > 0
    ensures forall j :: 0 <= j < |Ranks(Flatten(gs))| ==> Precedes(cards, gs[0][0].rank, Ranks(Flatten(gs))[j])
    decreases |gs|
  {
    var v := Ranks(Flatten(gs));
    var head := Ranks(gs[0]);
    var tail := Ranks(Flatten(gs[1..]));
    CountedGroupsTail(cards, gs);
    if |gs| > 1 {
      HeadPrecedesAll(cards, gs[1..]);
      assert Precedes(cards, gs[0][0].rank, gs[1][0].rank);
    }
    forall j | 0 <= j < |v| ensures Precedes(cards, gs[0][0].rank, v[j]) {
      if j >= |head| {
        assert v[j] == tail[j - |head|];
      }
    }
  }

  /** Ranks in tie-break order, preceded by copies of a rank that precedes them all, stay in order. */
  lemma PrecedesPrepend(cards: seq<Card>, head: seq<int>, tail: seq<int>, r: int)
    requires forall k :: 0 <= k < |head| ==> head[k] == r
    requires forall j :: 0 <= j < |head + tail| ==> Precedes(cards, r, (head + tail)[j])
    requires PrecedesSorted(cards, tail)
    ensures PrecedesSorted(cards, head + tail)
  {
    var v := head + tail;
    forall i, j | 0 <= i < j < |v| ensures Precedes(cards, v[i], v[j]) {
      if i < |head| {
        assert v[i] == r;
      } else {
        assert v[i] == tail[i - |head|] && v[j] == tail[j - |head|];
      }
    }
  }

  /** The flattened ranks of counted groups are in tie-break order. */
  lemma {:induction false} FlattenPrecedes(cards: seq<Card>, gs: seq<seq<Card>>)
    requires CountedGroups(cards, gs)
    ensures PrecedesSorted(cards, Ranks(Flatten(gs)))
    decreases |gs|
  {
    if |gs| > 0 {
      CountedGroupsTail(cards, gs);
      HeadPrecedesAll(cards, gs);
      FlattenPrecedes(cards, gs[1..]);
      PrecedesPrepend(cards, Ranks(gs[0]), Ranks(Flatten(gs[1..])), gs[0][0].rank);
    }
  }

  /** The groups of a valid hand are counted groups over its ranks. */
  lemma GroupsCounted(cards: seq<Card>)
    requires ValidCards(cards)
    ensures CountedGroups(cards, Groups(cards))
    ensures multiset(Ranks(Flatten(Groups(cards)))) == multiset(Ranks(cards))
  {
    GroupShape(cards);
    forall i | 0 <= i < |Groups(cards)| ensures Multiplicity(cards, Groups(cards)[i][0].rank) == |Groups(cards)[i]| {
      GroupCounts(cards, i);
    }
    SortByRankDescPermutesRanks(cards);
  }

  // ---------------------------------------------------------------------------
  // The evaluator meets the reference

  /** The category `evaluate_hand` assigns is the reference category. */
  lemma EvaluateCategory(cards: seq<Card>)
    requires ValidCards(cards)
    ensures Evaluate(cards).0 == ReferenceCategory(cards)
  {
    GroupShape(cards);
    if |Groups(cards)| == 5 {
      EvaluateCategoryNoRepeat(cards);
    } else {
      EvaluateCategoryRepeat(cards);
    }
  }

  /** Five groups: no rank repeats, and the straight and flush tests decide. */
  lemma EvaluateCategoryNoRepeat(cards: seq<Card>)
    requires ValidCards(cards) && |Groups(cards)| == 5
    ensures Evaluate(cards).0 == ReferenceCategory(cards)
  {
    var groups: seq<seq<Card>> := Groups(cards);
    GroupShape(cards);
    SizeProfile(groups);
    RankTimesIsGroupSize(cards, 4);
    RankTimesIsGroupSize(cards, 3);
    RankTimesIsGroupSize(cards, 2);
    TwoPairsIsTwoGroupsOfTwo(cards);
    FlushIffSameSuits(cards);
    WheelFive(cards);
    StraightFive(cards);
    if AreSequential(SortByRankDesc(cards)) {
      RoyalFive(cards);
    }
  }

  /** Fewer than five groups: the group sizes decide. */
  lemma EvaluateCategoryRepeat(cards: seq<Card>)
    requires ValidCards(cards) && |Groups(cards)| < 5
    ensures Evaluate(cards).0 == ReferenceCategory(cards)
  {
    EvaluateByGroupSizes(cards);
    ReferenceByGroupSizes(cards);
  }

  /** The category the sizes of the (fewer than five) groups give. */
  ghost function RepeatCategory(groups: seq<seq<Card>>): Category
    requires 2 <= |groups|
  {
    if |groups| == 4 then OnePair
    else if |groups| == 3 then (if |groups[0]| == 3 then ThreeOfAKind else TwoPair)
    else if |groups[0]| == 4 then FourOfAKind
    else FullHouse
  }

  lemma EvaluateByGroupSizes(cards: seq<Card>)
    requires ValidCards(cards) && |Groups(cards)| < 5
    ensures 2 <= |Groups(cards)| && Evaluate(cards).0 == RepeatCategory(Groups(cards))
  {
    GroupShape(cards);
  }

  lemma ReferenceByGroupSizes(cards: seq<Card>)
    requires ValidCards(cards) && |Groups(cards)| < 5
    ensures 2 <= |Groups(cards)| && ReferenceCategory(cards) == RepeatCategory(Groups(cards))
  {
    var groups: seq<seq<Card>> := Groups(cards);
    GroupShape(cards);
    SizeProfile(groups);
    RankTimesIsGroupSize(cards, 4);
    RankTimesIsGroupSize(cards, 3);
    RankTimesIsGroupSize(cards, 2);
    TwoPairsIsTwoGroupsOfTwo(cards);
  }

  /** The evaluator calls a hand a royal flush exactly when it is a flush of ten, jack, queen, king and ace. */
  lemma RoyalFlushIff(cards: seq<Card>)
    requires ValidCards(cards)
    ensures Evaluate(cards).0 == RoyalFlush <==> IsFlush(cards) && IsRunDownFrom(RankSet(cards), 12)
  {
    EvaluateCategory(cards);
    if IsFlush(cards) && IsRunDownFrom(RankSet(cards), 12) {
      AceHighRunIsRoyal(cards);
    } else {
      RoyalIsAceHighRun(cards);
    }
  }

  lemma RoyalIsAceHighRun(cards: seq<Card>)
    ensures ReferenceCategory(cards) == RoyalFlush ==> IsFlush(cards) && IsRunDownFrom(RankSet(cards), 12)
  {
  }

  lemma AceHighRunIsRoyal(cards: seq<Card>)
    requires ValidCards(cards) && IsFlush(cards) && IsRunDownFrom(RankSet(cards), 12)
    ensures ReferenceCategory(cards) == RoyalFlush
  {
    assert !IsWheel(cards) by {
      assert 11 in RankSet(cards);
    }
    assert IsStraight(cards);
    assert !HasRankTimes(cards, 4) && !HasRankTimes(cards, 3) && !HasRankTimes(cards, 2) && !HasTwoPairs(cards) by {
      RunHasNoRepeat(cards, 12);
    }
  }

  /** The vector `evaluate_hand` returns: the grouped ranks, replaced only for an ace-low run of five ranks. */
  lemma ClassifyVector(sorted: seq<Card>, grouped: seq<seq<Card>>)
    requires |sorted| == 5 && |Ranks(Flatten(grouped))| == 5 && 2 <= |grouped| <= 5
    ensures var ranks := Ranks(Flatten(grouped));
      Classify(sorted, grouped).1 == if |grouped| == 5 && ranks == [12, 3, 2, 1, 0] then [3, 2, 1, 0, -1] else ranks
  {
  }

  lemma EvaluateVector(cards: seq<Card>)
    requires ValidCards(cards)
    ensures var ranks := Ranks(Flatten(Groups(cards)));
      Evaluate(cards).1 == if |Groups(cards)| == 5 && ranks == [12, 3, 2, 1, 0] then [3, 2, 1, 0, -1] else ranks
  {
    GroupShape(cards);
    ClassifyVector(SortByRankDesc(cards), Groups(cards));
  }

  /** For the wheel the vector counts the ace low. */
  lemma EvaluateWheelVector(cards: seq<Card>)
    requires ValidCards(cards) && IsWheel(cards)
    ensures Evaluate(cards).1 == [3, 2, 1, 0, -1]
  {
    WheelHasNoRepeat(cards);
    FiveGroupsIffNoRepeat(cards);
    WheelFive(cards);
    EvaluateVector(cards);
  }

  /** Any other hand's vector is its ranks in tie-break order. */
  lemma EvaluateTieBreak(cards: seq<Card>)
    requires ValidCards(cards) && !IsWheel(cards)
    ensures TieBreakOrdered(cards, Evaluate(cards).1)
  {
    var groups: seq<seq<Card>> := Groups(cards);
    GroupsCounted(cards);
    FlattenPrecedes(cards, groups);
    if |groups| == 5 {
      WheelFive(cards);
    }
    EvaluateVector(cards);
  }

  lemma PrecedesSortedTail(cards: seq<Card>, v: seq<int>)
    requires PrecedesSorted(cards, v) && |v| > 0
    ensures PrecedesSorted(cards, v[1..])
  {
    forall i, j | 0 <= i < j < |v| - 1 ensures Precedes(cards, v[1..][i], v[1..][j]) {
      assert v[1..][i] == v[i + 1] && v[1..][j] == v[j + 1];
    }
  }

  /** The head of a tie-break ordered sequence precedes everything in it. */
  lemma HeadPrecedes(cards: seq<Card>, v: seq<int>, x: int)
    requires PrecedesSorted(cards, v) && x in multiset(v)
    ensures Precedes(cards, v[0], x)
  {
    var k :| 0 <= k < |v| && v[k] == x;
    if k > 0 {
      assert Precedes(cards, v[0], v[k]);
    }
  }

  /** Removing the same head from two permutations of each other leaves permutations of each other. */
  lemma SameHeadTails(v: seq<int>, w: seq<int>)
    requires multiset(v) == multiset(w) && |v| > 0 && |w| > 0 && v[0] == w[0]
    ensures multiset(v[1..]) == multiset(w[1..])
  {
    assert v == [v[0]] + v[1..] && w == [w[0]] + w[1..];
    assert multiset(v[1..]) == multiset(v) - multiset{v[0]};
    assert multiset(w[1..]) == multiset(w) - multiset{w[0]};
  }

  /** Two sequences of the same ranks, both in tie-break order, are equal. */
  lemma {:induction false} PrecedesSortedUnique(cards: seq<Card>, v: seq<int>, w: seq<int>)
    requires multiset(v) == multiset(w)
    requires PrecedesSorted(cards, v) && PrecedesSorted(cards, w)
    ensures v == w
    decreases |v|
  {
    assert |v| == |multiset(v)| == |w|;
    if |v| > 0 {
      HeadPrecedes(cards, w, v[0]);
      HeadPrecedes(cards, v, w[0]);
      assert v[0] == w[0];
      SameHeadTails(v, w);
      PrecedesSortedTail(cards, v);
      PrecedesSortedTail(cards, w);
      PrecedesSortedUnique(cards, v[1..], w[1..]);
      assert v == [v[0]] + v[1..] && w == [w[0]] + w[1..];
    }
  }

  /** The tie-break vector is determined by the hand: at most one sequence is tie-break ordered. */
  lemma TieBreakUnique(cards: seq<Card>, v: seq<int>, w: seq<int>)
    requires TieBreakOrdered(cards, v) && TieBreakOrdered(cards, w)
    ensures v == w
  {
    PrecedesSortedUnique(cards, v, w);
  }

  /** A hand's category and vector follow from the reference descriptions alone. */
  lemma EvaluateFromReference(cards: seq<Card>, v: seq<int>)
    requires ValidCards(cards)
    requires IsWheel(cards) ==> v == [3, 2, 1, 0, -1]
    requires !IsWheel(cards) ==> TieBreakOrdered(cards, v)
    ensures Evaluate(cards) == (ReferenceCategory(cards), v)
  {
    EvaluateCategory(cards);
    if IsWheel(cards) {
      EvaluateWheelVector(cards);
    } else {
      EvaluateTieBreak(cards);
      TieBreakUnique(cards, v, Evaluate(cards).1);
    }
  }
}
