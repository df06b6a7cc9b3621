/**
 * Hand evaluation: sort the cards by descending rank, group them by rank, order
 * the groups by size, and classify the hand into one of ten categories together
 * with the tie-break vector of ranks used to compare hands of one category.
 */
module Evaluation {
  import opened Sequences
  import opened Cards

  /** The ten hand categories, weakest first. */
  datatype Category =
    | HighCard | OnePair | TwoPair | ThreeOfAKind | Straight
    | Flush | FullHouse | FourOfAKind | StraightFlush | RoyalFlush
  {
    /** `category.rank`: the ordinal that leads a hand's rank key, one of 0 to 9. */
    function Ordinal(): (n: nat)
      ensures n < 10
    {
      match this
      case HighCard => 0
      case OnePair => 1
      case TwoPair => 2
      case ThreeOfAKind => 3
      case Straight => 4
      case Flush => 5
      case FullHouse => 6
      case FourOfAKind => 7
      case StraightFlush => 8
      case RoyalFlush => 9
    }

    /** `category.name`, the display label. */
    function Name(): string {
      match this
      case HighCard => "High Card"
      case OnePair => "One Pair"
      case TwoPair => "Two Pair"
      case ThreeOfAKind => "Three of a Kind"
      case Straight => "Straight"
      case Flush => "Flush"
      case FullHouse => "Full House"
      case FourOfAKind => "Four of a Kind"
      case StraightFlush => "Straight Flush"
      case RoyalFlush => "Royal Flush"
    }
  }

  /** The ordinal identifies the category, and the ten ordinals are 0 to 9. */
  lemma OrdinalIsInjective(a: Category, b: Category)
    ensures a.Ordinal() < 10
    ensures a.Ordinal() == b.Ordinal() <==> a == b
  {
  }

  /** `attrgetter('rank')`, as the grouping key. */
  function RankOf(c: Card): int {
    c.rank
  }

  /** `get_ranks`: the ranks of the cards, in order. */
  function Ranks(cards: seq<Card>): (rs: seq<int>)
    ensures |rs| == |cards|
    ensures forall i :: 0 <= i < |cards| ==> rs[i] == cards[i].rank
  {
    if |cards| == 0 then [] else [cards[0].rank] + Ranks(cards[1..])
  }

  /** `get_suits`: the suits of the cards, in order. */
  function Suits(cards: seq<Card>): (ss: seq<int>)
    ensures |ss| == |cards|
    ensures forall i :: 0 <= i < |cards| ==> ss[i] == cards[i].suit
  {
    if |cards| == 0 then [] else [cards[0].suit] + Suits(cards[1..])
  }

  /** The ranks of a concatenation are the concatenated ranks. */
  lemma RanksAppend(a: seq<Card>, b: seq<Card>)
    ensures Ranks(a + b) == Ranks(a) + Ranks(b)
  {
  }

  /** How many of the cards have rank `r`. */
  ghost function Multiplicity(cards: seq<Card>, r: int): nat {
    multiset(Ranks(cards))[r]
  }

  ghost predicate RanksDescending(cards: seq<Card>) {
    forall i, j :: 0 <= i < j < |cards| ==> cards[i].rank >= cards[j].rank
  }

  /** The cards of rank `r`, in their order; sorting by rank is stable when it keeps these. */
  function WithRank(cards: seq<Card>, r: int): seq<Card> {
    if |cards| == 0 then []
    else if cards[0].rank == r then [cards[0]] + WithRank(cards[1..], r)
    else WithRank(cards[1..], r)
  }

  /** Puts `c` in front of the first card of rank at most its own. */
  function InsertByRank(c: Card, sorted: seq<Card>): (r: seq<Card>)
    ensures |r| == |sorted| + 1
  {
    if |sorted| == 0 || sorted[0].rank <= c.rank then [c] + sorted
    else [sorted[0]] + InsertByRank(c, sorted[1..])
  }

  lemma {:induction false} InsertByRankPermutes(c: Card, sorted: seq<Card>)
    ensures multiset(InsertByRank(c, sorted)) == multiset(sorted) + multiset{c}
    decreases |sorted|
  {
    if |sorted| > 0 && sorted[0].rank > c.rank {
      InsertByRankPermutes(c, sorted[1..]);
      assert sorted == [sorted[0]] + sorted[1..];
    }
  }

  lemma {:induction false} InsertByRankPermutesRanks(c: Card, sorted: seq<Card>)
    ensures multiset(Ranks(InsertByRank(c, sorted))) == multiset(Ranks(sorted)) + multiset{c.rank}
    decreases |sorted|
  {
    var r := InsertByRank(c, sorted);
    if |sorted| == 0 || sorted[0].rank <= c.rank {
      assert r[1..] == sorted;
      assert Ranks(r) == [c.rank] + Ranks(sorted);
    } else {
      var rest := InsertByRank(c, sorted[1..]);
      InsertByRankPermutesRanks(c, sorted[1..]);
      assert r[1..] == rest;
      assert Ranks(r) == [sorted[0].rank] + Ranks(rest);
      assert Ranks(sorted) == [sorted[0].rank] + Ranks(sorted[1..]);
    }
  }

  /** The first card of `sorted` outranks `c`, so it outranks everything `c` is inserted among. */
  lemma {:induction false} InsertByRankBounded(c: Card, sorted: seq<Card>, top: int)
    requires c.rank <= top
    requires forall i :: 0 <= i < |sorted| ==> sorted[i].rank <= top
    ensures forall i :: 0 <= i < |InsertByRank(c, sorted)| ==> InsertByRank(c, sorted)[i].rank <= top
    decreases |sorted|
  {
    if |sorted| > 0 && sorted[0].rank > c.rank {
      InsertByRankBounded(c, sorted[1..], top);
    }
  }

  lemma {:induction false} InsertByRankSorted(c: Card, sorted: seq<Card>)
    requires RanksDescending(sorted)
    ensures RanksDescending(InsertByRank(c, sorted))
    decreases |sorted|
  {
    var r := InsertByRank(c, sorted);
    if |sorted| == 0 || sorted[0].rank <= c.rank {
      assert forall i, j :: 0 <= i < j < |r| ==> r[i].rank >= r[j].rank by {
        forall i, j | 0 <= i < j < |r| ensures r[i].rank >= r[j].rank {
          assert r[j] == sorted[j - 1];
          if i > 0 {
            assert r[i] == sorted[i - 1];
          } else {
            assert sorted[0].rank >= sorted[j - 1].rank;
          }
        }
      }
    } else {
      var rest := InsertByRank(c, sorted[1..]);
      assert r == [sorted[0]] + rest;
      InsertByRankSorted(c, sorted[1..]);
      InsertByRankBounded(c, sorted[1..], sorted[0].rank);
    }
  }

  /** Inserting `c` puts it before every card of its own rank and moves no other card of any rank. */
  lemma {:induction false} InsertByRankStable(c: Card, sorted: seq<Card>, q: int)
    requires RanksDescending(sorted)
    ensures WithRank(InsertByRank(c, sorted), q)
      == if q == c.rank then [c] + WithRank(sorted, q) else WithRank(sorted, q)
    decreases |sorted|
  {
    var r := InsertByRank(c, sorted);
    if |sorted| == 0 || sorted[0].rank <= c.rank {
      assert r[1..] == sorted;
    } else {
      InsertByRankStable(c, sorted[1..], q);
      assert r[1..] == InsertByRank(c, sorted[1..]);
    }
  }

  /**
   * `sorted(cards, key=attrgetter('rank'), reverse=True)`: a stable sort of the
   * cards into descending rank (see the `SortByRankDesc...` lemmas below).
   */
  function SortByRankDesc(cards: seq<Card>): (sorted: seq<Card>)
    ensures |sorted| == |cards|
  {
    if |cards| == 0 then []
    else
      InsertByRank(cards[0], SortByRankDesc(cards[1..]))
  }

  /** The sorted cards are a permutation of the cards. */
  lemma {:induction false} SortByRankDescPermutes(cards: seq<Card>)
    ensures multiset(SortByRankDesc(cards)) == multiset(cards)
    decreases |cards|
  {
    if |cards| > 0 {
      SortByRankDescPermutes(cards[1..]);
      assert cards == [cards[0]] + cards[1..];
      InsertByRankPermutes(cards[0], SortByRankDesc(cards[1..]));
    }
  }

  /** The ranks of the sorted cards are a permutation of the cards' ranks. */
  lemma {:induction false} SortByRankDescPermutesRanks(cards: seq<Card>)
    ensures multiset(Ranks(SortByRankDesc(cards))) == multiset(Ranks(cards))
    decreases |cards|
  {
    if |cards| > 0 {
      SortByRankDescPermutesRanks(cards[1..]);
      InsertByRankPermutesRanks(cards[0], SortByRankDesc(cards[1..]));
      assert Ranks(cards) == [cards[0].rank] + Ranks(cards[1..]);
    }
  }

  /** The sorted cards come in descending rank. */
  lemma {:induction false} SortByRankDescSorted(cards: seq<Card>)
    ensures RanksDescending(SortByRankDesc(cards))
    decreases |cards|
  {
    if |cards| > 0 {
      SortByRankDescSorted(cards[1..]);
      InsertByRankSorted(cards[0], SortByRankDesc(cards[1..]));
    }
  }

  /** The sort is stable: the cards of each rank keep their relative order. */
  lemma {:induction false} SortByRankDescStable(cards: seq<Card>, q: int)
    ensures WithRank(SortByRankDesc(cards), q) == WithRank(cards, q)
    decreases |cards|
  {
    if |cards| > 0 {
      var rest := SortByRankDesc(cards[1..]);
      SortByRankDescStable(cards[1..], q);
      SortByRankDescSorted(cards[1..]);
      InsertByRankStable(cards[0], rest, q);
    }
  }

  /** Groups ordered largest first and, among groups of one size, by descending rank. */
  ghost predicate GroupsOrdered(groups: seq<seq<Card>>) {
    && (forall i :: 0 <= i < |groups| ==> |groups[i]| > 0)
    && forall i, j :: 0 <= i < j < |groups| ==>
         || |groups[i]| > |groups[j]|
         || (|groups[i]| == |groups[j]| && groups[i][0].rank > groups[j][0].rank)
  }

  /** Non-empty groups whose ranks strictly descend, as the runs of a sorted hand are. */
  ghost predicate RanksStrictlyDescend(groups: seq<seq<Card>>) {
    && (forall i :: 0 <= i < |groups| ==> |groups[i]| > 0)
    && forall i, j :: 0 <= i < j < |groups| ==> groups[i][0].rank > groups[j][0].rank
  }

  /** Puts `g` in front of the first group no larger than it. */
  function InsertBySize(g: seq<Card>, groups: seq<seq<Card>>): (r: seq<seq<Card>>)
    ensures |r| == |groups| + 1
  {
    if |groups| == 0 || |groups[0]| <= |g| then [g] + groups
    else [groups[0]] + InsertBySize(g, groups[1..])
  }

  lemma {:induction false} InsertBySizePermutes(g: seq<Card>, groups: seq<seq<Card>>)
    ensures multiset(InsertBySize(g, groups)) == multiset(groups) + multiset{g}
    decreases |groups|
  {
    if |groups| > 0 && |groups[0]| > |g| {
      InsertBySizePermutes(g, groups[1..]);
      assert groups == [groups[0]] + groups[1..];
    }
  }

  lemma {:induction false} InsertBySizeKeepsRanks(g: seq<Card>, groups: seq<seq<Card>>)
    ensures multiset(Ranks(Flatten(InsertBySize(g, groups))))
      == multiset(Ranks(Flatten(groups))) + multiset(Ranks(g))
    decreases |groups|
  {
    var r := InsertBySize(g, groups);
    if |groups| == 0 || |groups[0]| <= |g| {
      assert r[1..] == groups;
      assert Flatten(r) == g + Flatten(groups);
      RanksAppend(g, Flatten(groups));
    } else {
      var rest := InsertBySize(g, groups[1..]);
      InsertBySizeKeepsRanks(g, groups[1..]);
      assert r[1..] == rest;
      assert Flatten(r) == groups[0] + Flatten(rest);
      assert Flatten(groups) == groups[0] + Flatten(groups[1..]);
      RanksAppend(groups[0], Flatten(rest));
      RanksAppend(groups[0], Flatten(groups[1..]));
    }
  }

  lemma {:induction false} InsertBySizeOrdered(g: seq<Card>, groups: seq<seq<Card>>)
    requires |g| > 0 && GroupsOrdered(groups)
    requires forall i :: 0 <= i < |groups| ==> groups[i][0].rank < g[0].rank
    ensures GroupsOrdered(InsertBySize(g, groups))
    decreases |groups|
  {
    if |groups| == 0 || |groups[0]| <= |g| {
      forall j | 0 <= j < |groups|
        ensures |g| > |groups[j]| || (|g| == |groups[j]| && g[0].rank > groups[j][0].rank)
      {
        assert j == 0 || |groups[0]| >= |groups[j]|;
      }
      OrderedPrepend(g, groups);
    } else {
      var rest: seq<seq<Card>> := InsertBySize(g, groups[1..]);
      InsertBySizeOrdered(g, groups[1..]);
      InsertBySizePermutes(g, groups[1..]);
      forall j | 0 <= j < |rest|
        ensures |groups[0]| > |rest[j]| || (|groups[0]| == |rest[j]| && groups[0][0].rank > rest[j][0].rank)
      {
        assert rest[j] in multiset(rest);
        if rest[j] != g {
          assert rest[j] in groups[1..];
        }
      }
      OrderedPrepend(groups[0], rest);
    }
  }

  /** A group ahead of every group of an ordered sequence can be put in front of it. */
  lemma OrderedPrepend(g: seq<Card>, rest: seq<seq<Card>>)
    requires |g| > 0 && GroupsOrdered(rest)
    requires forall j :: 0 <= j < |rest| ==>
      |g| > |rest[j]| || (|g| == |rest[j]| && g[0].rank > rest[j][0].rank)
    ensures GroupsOrdered([g] + rest)
  {
    var gs: seq<seq<Card>> := [g] + rest;
    forall i | 0 <= i < |gs| ensures |gs[i]| > 0 {
      if i > 0 {
        assert gs[i] == rest[i - 1];
      }
    }
    forall i, j | 0 <= i < j < |gs|
      ensures || |gs[i]| > |gs[j]|
              || (|gs[i]| == |gs[j]| && gs[i][0].rank > gs[j][0].rank)
    {
      assert gs[j] == rest[j - 1];
      if i > 0 {
        assert gs[i] == rest[i - 1];
      }
    }
  }

  /**
   * `sorted(groups, key=len, reverse=True)`: a stable sort of the groups into
   * descending size (see the `SortBySizeDesc...` lemmas below).
   */
  function SortBySizeDesc(groups: seq<seq<Card>>): (r: seq<seq<Card>>)
    ensures |r| == |groups|
  {
    if |groups| == 0 then [] else InsertBySize(groups[0], SortBySizeDesc(groups[1..]))
  }

  /** The sorted groups are a permutation of the groups. */
  lemma {:induction false} SortBySizeDescPermutes(groups: seq<seq<Card>>)
    ensures multiset(SortBySizeDesc(groups)) == multiset(groups)
    decreases |groups|
  {
    if |groups| > 0 {
      SortBySizeDescPermutes(groups[1..]);
      InsertBySizePermutes(groups[0], SortBySizeDesc(groups[1..]));
      assert groups == [groups[0]] + groups[1..];
      assert multiset(groups) == multiset{groups[0]} + multiset(groups[1..]);
    }
  }

  /** Sorting the groups keeps the ranks they hold. */
  lemma {:induction false} SortBySizeDescKeepsRanks(groups: seq<seq<Card>>)
    ensures multiset(Ranks(Flatten(SortBySizeDesc(groups)))) == multiset(Ranks(Flatten(groups)))
    decreases |groups|
  {
    if |groups| > 0 {
      SortBySizeDescKeepsRanks(groups[1..]);
      InsertBySizeKeepsRanks(groups[0], SortBySizeDesc(groups[1..]));
      assert Flatten(groups) == groups[0] + Flatten(groups[1..]);
      RanksAppend(groups[0], Flatten(groups[1..]));
    }
  }

  /**
   * Because the sort is stable, groups arriving in strictly descending rank
   * leave it ordered by size and, among equal sizes, still by descending rank.
   */
  lemma {:induction false} SortBySizeDescOrdered(groups: seq<seq<Card>>)
    requires RanksStrictlyDescend(groups)
    ensures GroupsOrdered(SortBySizeDesc(groups))
    decreases |groups|
  {
    if |groups| > 0 {
      var rest: seq<seq<Card>> := SortBySizeDesc(groups[1..]);
      SortBySizeDescOrdered(groups[1..]);
      SortBySizeDescPermutes(groups[1..]);
      forall i | 0 <= i < |rest| ensures rest[i][0].rank < groups[0][0].rank {
        assert rest[i] in multiset(rest);
        assert rest[i] in groups[1..];
      }
      InsertBySizeOrdered(groups[0], rest);
    }
  }

  /** Groups of one card each are already in order: the sort leaves them alone. */
  lemma {:induction false} SortBySizeDescSingletons(groups: seq<seq<Card>>)
    requires forall i :: 0 <= i < |groups| ==> |groups[i]| == 1
    ensures SortBySizeDesc(groups) == groups
    decreases |groups|
  {
    if |groups| > 0 {
      SortBySizeDescSingletons(groups[1..]);
      assert groups == [groups[0]] + groups[1..];
    }
  }

  /** A group above every group of a strictly descending list extends it. */
  lemma StrictPrepend(g: seq<Card>, rest: seq<seq<Card>>)
    requires |g| > 0 && RanksStrictlyDescend(rest)
    requires forall i :: 0 <= i < |rest| ==> rest[i][0].rank < g[0].rank
    ensures RanksStrictlyDescend([g] + rest)
  {
    var gs: seq<seq<Card>> := [g] + rest;
    forall i, j | 0 <= i < j < |gs| ensures gs[i][0].rank > gs[j][0].rank {
      assert gs[j] == rest[j - 1];
      if i > 0 {
        assert gs[i] == rest[i - 1];
      }
    }
  }

  /** In strictly descending groups the first group has the top rank. */
  lemma HeadRankIsTop(groups: seq<seq<Card>>)
    requires RanksStrictlyDescend(groups) && |groups| > 0
    ensures forall i :: 0 <= i < |groups| ==> groups[i][0].rank <= groups[0][0].rank
  {
  }

  /** A suffix of a rank-descending sequence is rank-descending. */
  lemma DescendingSuffix(xs: seq<Card>, n: nat)
    requires RanksDescending(xs) && n <= |xs|
    ensures RanksDescending(xs[n..])
  {
    forall i, j | 0 <= i < j < |xs| - n ensures xs[n..][i].rank >= xs[n..][j].rank {
      assert xs[n..][i] == xs[n + i] && xs[n..][j] == xs[n + j];
    }
  }

  /** The runs of a rank-descending sequence come in strictly descending rank. */
  lemma {:induction false} RunsDescend(xs: seq<Card>)
    requires RanksDescending(xs)
    ensures RanksStrictlyDescend(GroupIntoList(xs, RankOf))
    ensures forall i :: 0 <= i < |GroupIntoList(xs, RankOf)| ==> GroupIntoList(xs, RankOf)[i][0].rank <= xs[0].rank
    decreases |xs|
  {
    if |xs| > 0 {
      var n := RunLength(xs, RankOf);
      var rest: seq<seq<Card>> := GroupIntoList(xs[n..], RankOf);
      var runs: seq<seq<Card>> := GroupIntoList(xs, RankOf);
      assert runs == [xs[..n]] + rest;
      if n < |xs| {
        DescendingSuffix(xs, n);
        RunsDescend(xs[n..]);
        assert xs[n..][0] == xs[n] && RankOf(xs[n]) != RankOf(xs[0]);
        StrictPrepend(xs[..n], rest);
      } else {
        assert rest == [];
        StrictPrepend(xs[..n], rest);
      }
      assert runs[0][0] == xs[0];
      HeadRankIsTop(runs);
    }
  }

  /** Every group of `GroupIntoList(_, RankOf)` has a single rank. */
  ghost predicate SingleRanked(groups: seq<seq<Card>>) {
    forall i :: 0 <= i < |groups| ==>
      |groups[i]| > 0 && forall k :: 0 <= k < |groups[i]| ==> groups[i][k].rank == groups[i][0].rank
  }

  lemma RunsSingleRanked(xs: seq<Card>)
    ensures SingleRanked(GroupIntoList(xs, RankOf))
  {
    var runs: seq<seq<Card>> := GroupIntoList(xs, RankOf);
    forall i | 0 <= i < |runs|
      ensures forall k :: 0 <= k < |runs[i]| ==> runs[i][k].rank == runs[i][0].rank
    {
      assert SameKey(runs[i], RankOf);
    }
  }

  /**
   * `group_by_rank_count`: the runs of equal rank, largest first. The groups
   * hold exactly the ranks of the input, each group has a single rank, and for
   * rank-sorted input the groups are ordered by size and then by rank.
   */
  function GroupByRankCount(sorted: seq<Card>): (groups: seq<seq<Card>>)
    ensures multiset(Ranks(Flatten(groups))) == multiset(Ranks(sorted))
    ensures SingleRanked(groups)
    ensures |groups| == |GroupIntoList(sorted, RankOf)| <= |sorted|
    ensures RanksDescending(sorted) ==> GroupsOrdered(groups)
  {
    var runs := GroupIntoList(sorted, RankOf);
    RunsSingleRanked(sorted);
    var groups := SortBySizeDesc(runs);
    SortBySizeDescPermutes(runs);
    SortBySizeDescKeepsRanks(runs);
    assert SingleRanked(groups) by {
      forall i | 0 <= i < |groups|
        ensures |groups[i]| > 0 && forall k :: 0 <= k < |groups[i]| ==> groups[i][k].rank == groups[i][0].rank
      {
        assert groups[i] in multiset(groups);
        assert groups[i] in runs;
      }
    }
    assert RanksDescending(sorted) ==> GroupsOrdered(groups) by {
      if RanksDescending(sorted) {
        RunsDescend(sorted);
        SortBySizeDescOrdered(runs);
      }
    }
    groups
  }

  /** `are_sequential`: the ranks, read from the last card up, rise by exactly one each step. */
  function AreSequential(sorted: seq<Card>): (b: bool)
    ensures b <==> forall i, j :: 0 <= i && j == i + 1 && j < |sorted| ==> sorted[i].rank == sorted[j].rank + 1
  {
    ReverseStrict(Ranks(sorted));
    IsStrictSequence(Reverse(Ranks(sorted)))
  }

  /** `are_all_same_suits`: every two cards share a suit. */
  function AreAllSameSuits(cards: seq<Card>): (b: bool)
    ensures b <==> forall i, j :: 0 <= i < |cards| && 0 <= j < |cards| ==> cards[i].suit == cards[j].suit
  {
    AreAllEqual(Suits(cards))
  }

  /** Five cards, no two equal: what `Hand` guarantees before evaluating. */
  ghost predicate ValidCards(cards: seq<Card>) {
    |cards| == 5 && Distinct(cards)
  }

  /**
   * `evaluate_hand`: the category of a valid hand and its tie-break vector, the
   * flattened ranks of its groups. The ace-low straight replaces the vector by
   * [3, 2, 1, 0, -1] so that it ranks below every other straight.
   */
  function Evaluate(cards: seq<Card>): (r: (Category, seq<int>))
    requires ValidCards(cards)
    ensures |r.1| == 5
  {
    var sorted := SortByRankDesc(cards);
    var grouped := GroupByRankCount(sorted);
    assert multiset(Ranks(Flatten(grouped))) == multiset(Ranks(sorted));
    assert |Ranks(Flatten(grouped))| == |Ranks(sorted)|;
    NotAllOneRank(cards);
    Classify(sorted, grouped)
  }

  /**
   * The branches of `evaluate_hand` once the cards are sorted and grouped. The
   * final branch, which raises `RuntimeError` in the source, is unreachable:
   * a valid hand has at least two groups (`NotAllOneRank`).
   */
  function Classify(sorted: seq<Card>, grouped: seq<seq<Card>>): (r: (Category, seq<int>))
    requires |sorted| == 5 && |Ranks(Flatten(grouped))| == 5
    requires 2 <= |grouped| <= 5
    ensures |r.1| == 5
  {
    var ranks := Ranks(Flatten(grouped));
    if |grouped| == 5 then
      if ranks == [12, 3, 2, 1, 0] then
        if AreAllSameSuits(sorted) then (StraightFlush, [3, 2, 1, 0, -1]) else (Straight, [3, 2, 1, 0, -1])
      else if AreSequential(sorted) then
        if AreAllSameSuits(sorted) then
          if IsAce(sorted[0]) then (RoyalFlush, ranks) else (StraightFlush, ranks)
        else (Straight, ranks)
      else if AreAllSameSuits(sorted) then (Flush, ranks)
      else (HighCard, ranks)
    else if |grouped| == 4 then (OnePair, ranks)
    else if |grouped| == 3 then
      if |grouped[0]| == 3 then (ThreeOfAKind, ranks) else (TwoPair, ranks)
    else if |grouped| == 2 then
      if |grouped[0]| == 4 then (FourOfAKind, ranks) else (FullHouse, ranks)
    else
      assert false;
      (HighCard, ranks)
  }

  /** Five suits drawn from four: two of them coincide. */
  lemma FiveSuitsRepeat(s0: Suit, s1: Suit, s2: Suit, s3: Suit, s4: Suit)
    ensures || s0 == s1 || s0 == s2 || s0 == s3 || s0 == s4 || s1 == s2
            || s1 == s3 || s1 == s4 || s2 == s3 || s2 == s4 || s3 == s4
  {
  }

  /** Five distinct cards cannot share one rank: that would need five suits. */
  lemma NoFiveOfOneRank(cards: seq<Card>)
    requires ValidCards(cards)
    ensures exists i :: 0 <= i < 5 && cards[i].rank != cards[0].rank
  {
    if forall i :: 0 <= i < 5 ==> cards[i].rank == cards[0].rank {
      FiveSuitsRepeat(cards[0].suit, cards[1].suit, cards[2].suit, cards[3].suit, cards[4].suit);
      assert false;
    }
  }

  /** A valid hand always has at least two rank groups: the fatal branch of `evaluate_hand` is dead. */
  lemma NotAllOneRank(cards: seq<Card>)
    requires ValidCards(cards)
    ensures |GroupByRankCount(SortByRankDesc(cards))| >= 2
  {
    var sorted := SortByRankDesc(cards);
    var runs := GroupIntoList(sorted, RankOf);
    SortByRankDescPermutes(cards);
    if |runs| == 1 {
      assert Flatten(runs) == runs[0] + Flatten(runs[1..]);
      assert runs[0] == sorted;
      assert SameKey(runs[0], RankOf);
      forall i | 0 <= i < 5 ensures cards[i].rank == sorted[0].rank {
        assert cards[i] in multiset(sorted);
      }
      NoFiveOfOneRank(cards);
    }
  }
}
