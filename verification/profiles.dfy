/**
 * The category and tie-break vector of a hand, read off its rank profile: the
 * multiset of its ranks. Each `...Profile` lemma covers one shape of profile
 * (four of a kind and a kicker, a full house, ...), whatever the suits and the
 * order of the cards; together with `EvaluateFromReference` they give the
 * evaluator's result on any concrete hand.
 */
module Profiles {
  import opened Sequences
  import opened Cards
  import opened Evaluation
  import opened Classification

  /** A hand with a repeated rank is not the wheel. */
  lemma RepeatIsNotWheel(cards: seq<Card>, r: int)
    requires ValidCards(cards) && Multiplicity(cards, r) >= 2
    ensures !IsWheel(cards)
  {
    if IsWheel(cards) {
      WheelHasNoRepeat(cards);
      assert false;
    }
  }

  /** Tie-break order follows from order between neighbours. */
  lemma {:induction false} PrecedesChain(cards: seq<Card>, v: seq<int>)
    requires forall i :: 0 <= i < |v| - 1 ==> Precedes(cards, v[i], v[i + 1])
    ensures PrecedesSorted(cards, v)
    decreases |v|
  {
    if |v| > 1 {
      var tail := v[1..];
      forall i | 0 <= i < |tail| - 1 ensures Precedes(cards, tail[i], tail[i + 1]) {
        assert tail[i] == v[i + 1] && tail[i + 1] == v[i + 2];
      }
      PrecedesChain(cards, tail);
      forall i, j | 0 <= i < j < |v| ensures Precedes(cards, v[i], v[j]) {
        if i == 0 {
          if j > 1 {
            assert Precedes(cards, tail[0], tail[j - 1]);
          }
        } else {
          assert Precedes(cards, tail[i - 1], tail[j - 1]);
        }
      }
    }
  }

  /** Five ranks, each preceding the next, are in tie-break order. */
  lemma PrecedesFive(cards: seq<Card>, a: int, b: int, c: int, d: int, e: int)
    requires Precedes(cards, a, b) && Precedes(cards, b, c)
    requires Precedes(cards, c, d) && Precedes(cards, d, e)
    ensures PrecedesSorted(cards, [a, b, c, d, e])
  {
    var v := [a, b, c, d, e];
    assert v[0] == a && v[1] == b && v[2] == c && v[3] == d && v[4] == e;
    PrecedesChain(cards, v);
  }

  /** How often a value occurs among five. */
  lemma CountOfFive(a: int, b: int, c: int, d: int, e: int, r: int)
    ensures multiset{a, b, c, d, e}[r] ==
      (if a == r then 1 else 0) + (if b == r then 1 else 0) + (if c == r then 1 else 0)
      + (if d == r then 1 else 0) + (if e == r then 1 else 0)
  {
  }

  lemma MultisetOfFive(a: int, b: int, c: int, d: int, e: int)
    ensures multiset([a, b, c, d, e]) == multiset{a, b, c, d, e}
  {
  }

  /** Five ranks with the hand's rank profile, each preceding the next, are in tie-break order. */
  lemma TieBreakFive(cards: seq<Card>, a: int, b: int, c: int, d: int, e: int)
    requires multiset(Ranks(cards)) == multiset{a, b, c, d, e}
    requires Precedes(cards, a, b) && Precedes(cards, b, c)
    requires Precedes(cards, c, d) && Precedes(cards, d, e)
    ensures TieBreakOrdered(cards, [a, b, c, d, e])
  {
    PrecedesFive(cards, a, b, c, d, e);
    MultisetOfFive(a, b, c, d, e);
  }

  // ---------------------------------------------------------------------------
  // Four of a kind: {q, q, q, q, k}

  lemma FourOfAKindCategory(cards: seq<Card>, q: int, k: int)
    requires multiset(Ranks(cards)) == multiset{q, q, q, q, k} && q != k
    ensures ReferenceCategory(cards) == FourOfAKind
  {
    assert Multiplicity(cards, q) == 4;
  }

  lemma FourOfAKindVector(cards: seq<Card>, q: int, k: int)
    requires multiset(Ranks(cards)) == multiset{q, q, q, q, k} && q != k
    ensures TieBreakOrdered(cards, [q, q, q, q, k])
  {
    assert Multiplicity(cards, q) == 4;
    assert Multiplicity(cards, k) == 1;
    TieBreakFive(cards, q, q, q, q, k);
  }

  /** Four of one rank and a kicker: four of a kind, the quads before the kicker. */
  lemma FourOfAKindProfile(cards: seq<Card>, q: int, k: int)
    requires ValidCards(cards) && multiset(Ranks(cards)) == multiset{q, q, q, q, k} && q != k
    ensures ReferenceCategory(cards) == FourOfAKind
    ensures !IsWheel(cards) && TieBreakOrdered(cards, [q, q, q, q, k])
  {
    FourOfAKindCategory(cards, q, k);
    FourOfAKindVector(cards, q, k);
    RepeatIsNotWheel(cards, q);
  }

  // ---------------------------------------------------------------------------
  // Full house: {t, t, t, p, p}

  lemma FullHouseCounts(m: multiset<int>, t: int, p: int)
    requires m == multiset{t, t, t, p, p} && t != p
    ensures m[t] == 3 && m[p] == 2 && forall r :: m[r] <= 3
  {
    CountOfFive(t, t, t, p, p, t);
    CountOfFive(t, t, t, p, p, p);
    forall r ensures m[r] <= 3 {
      CountOfFive(t, t, t, p, p, r);
    }
  }

  lemma FullHouseCategory(cards: seq<Card>, t: int, p: int)
    requires Multiplicity(cards, t) == 3 && Multiplicity(cards, p) == 2
    requires forall r :: Multiplicity(cards, r) <= 3
    ensures ReferenceCategory(cards) == FullHouse
  {
    assert !HasRankTimes(cards, 4);
  }

  lemma FullHouseVector(cards: seq<Card>, t: int, p: int)
    requires multiset(Ranks(cards)) == multiset{t, t, t, p, p} && t != p
    ensures TieBreakOrdered(cards, [t, t, t, p, p])
  {
    assert Multiplicity(cards, t) == 3;
    assert Multiplicity(cards, p) == 2;
    TieBreakFive(cards, t, t, t, p, p);
  }

  /** Three of one rank and two of another: a full house, the triple before the pair. */
  lemma FullHouseProfile(cards: seq<Card>, t: int, p: int)
    requires ValidCards(cards) && multiset(Ranks(cards)) == multiset{t, t, t, p, p} && t != p
    ensures ReferenceCategory(cards) == FullHouse
    ensures !IsWheel(cards) && TieBreakOrdered(cards, [t, t, t, p, p])
  {
    FullHouseCounts(multiset(Ranks(cards)), t, p);
    FullHouseCategory(cards, t, p);
    FullHouseVector(cards, t, p);
    RepeatIsNotWheel(cards, t);
  }

  // ---------------------------------------------------------------------------
  // Three of a kind: {t, t, t, a, b} with a > b

  lemma ThreeOfAKindCounts(m: multiset<int>, t: int, a: int, b: int)
    requires m == multiset{t, t, t, a, b} && a > b && t != a && t != b
    ensures m[t] == 3 && forall r :: r != t ==> m[r] <= 1
  {
    CountOfFive(t, t, t, a, b, t);
    forall r | r != t ensures m[r] <= 1 {
      CountOfFive(t, t, t, a, b, r);
    }
  }

  lemma ThreeOfAKindCategory(cards: seq<Card>, t: int)
    requires Multiplicity(cards, t) == 3
    requires forall r :: r != t ==> Multiplicity(cards, r) <= 1
    ensures ReferenceCategory(cards) == ThreeOfAKind
  {
    assert !HasRankTimes(cards, 4) && !HasRankTimes(cards, 2);
  }

  lemma ThreeOfAKindVector(cards: seq<Card>, t: int, a: int, b: int)
    requires multiset(Ranks(cards)) == multiset{t, t, t, a, b} && a > b && t != a && t != b
    ensures TieBreakOrdered(cards, [t, t, t, a, b])
  {
    assert Multiplicity(cards, t) == 3;
    assert Multiplicity(cards, a) == 1;
    assert Multiplicity(cards, b) == 1;
    TieBreakFive(cards, t, t, t, a, b);
  }

  /** Three of one rank and two other ranks: three of a kind, then the kickers high to low. */
  lemma ThreeOfAKindProfile(cards: seq<Card>, t: int, a: int, b: int)
    requires ValidCards(cards) && multiset(Ranks(cards)) == multiset{t, t, t, a, b}
    requires a > b && t != a && t != b
    ensures ReferenceCategory(cards) == ThreeOfAKind
    ensures !IsWheel(cards) && TieBreakOrdered(cards, [t, t, t, a, b])
  {
    ThreeOfAKindCounts(multiset(Ranks(cards)), t, a, b);
    ThreeOfAKindCategory(cards, t);
    ThreeOfAKindVector(cards, t, a, b);
    RepeatIsNotWheel(cards, t);
  }

  // ---------------------------------------------------------------------------
  // Two pair: {p, p, q, q, k} with p > q

  lemma TwoPairCounts(m: multiset<int>, p: int, q: int, k: int)
    requires m == multiset{p, p, q, q, k} && p > q && k != p && k != q
    ensures m[p] == 2 && m[q] == 2 && m[k] == 1 && forall r :: m[r] <= 2
  {
    CountOfFive(p, p, q, q, k, p);
    CountOfFive(p, p, q, q, k, q);
    CountOfFive(p, p, q, q, k, k);
    forall r ensures m[r] <= 2 {
      CountOfFive(p, p, q, q, k, r);
    }
  }

  lemma TwoPairCategory(cards: seq<Card>, p: int, q: int)
    requires Multiplicity(cards, p) == 2 && Multiplicity(cards, q) == 2 && p != q
    requires forall r :: Multiplicity(cards, r) <= 2
    ensures ReferenceCategory(cards) == TwoPair
  {
    assert !HasRankTimes(cards, 4) && !HasRankTimes(cards, 3);
  }

  lemma TwoPairVector(cards: seq<Card>, p: int, q: int, k: int)
    requires multiset(Ranks(cards)) == multiset{p, p, q, q, k} && p > q && k != p && k != q
    ensures TieBreakOrdered(cards, [p, p, q, q, k])
  {
    assert Multiplicity(cards, p) == 2;
    assert Multiplicity(cards, q) == 2;
    assert Multiplicity(cards, k) == 1;
    TieBreakFive(cards, p, p, q, q, k);
  }

  /** Two ranks twice each and a kicker: two pair, the higher pair first. */
  lemma TwoPairProfile(cards: seq<Card>, p: int, q: int, k: int)
    requires ValidCards(cards) && multiset(Ranks(cards)) == multiset{p, p, q, q, k}
    requires p > q && k != p && k != q
    ensures ReferenceCategory(cards) == TwoPair
    ensures !IsWheel(cards) && TieBreakOrdered(cards, [p, p, q, q, k])
  {
    TwoPairCounts(multiset(Ranks(cards)), p, q, k);
    TwoPairCategory(cards, p, q);
    TwoPairVector(cards, p, q, k);
    RepeatIsNotWheel(cards, p);
  }

  // ---------------------------------------------------------------------------
  // One pair: {p, p, a, b, c} with a > b > c

  lemma OnePairCategory(cards: seq<Card>, p: int)
    requires Multiplicity(cards, p) == 2
    requires forall r :: r != p ==> Multiplicity(cards, r) <= 1
    ensures ReferenceCategory(cards) == OnePair
  {
    assert !HasRankTimes(cards, 4) && !HasRankTimes(cards, 3) && !HasTwoPairs(cards);
  }

  lemma OnePairCounts(m: multiset<int>, p: int, a: int, b: int, c: int)
    requires m == multiset{p, p, a, b, c}
    requires a > b > c && p != a && p != b && p != c
    ensures m[p] == 2 && m[a] == 1 && m[b] == 1 && m[c] == 1
    ensures forall r :: r != p ==> m[r] <= 1
  {
    CountOfFive(p, p, a, b, c, p);
    forall r | r != p ensures m[r] <= 1 {
      CountOfFive(p, p, a, b, c, r);
    }
  }

  lemma OnePairVector(cards: seq<Card>, p: int, a: int, b: int, c: int)
    requires multiset(Ranks(cards)) == multiset{p, p, a, b, c}
    requires a > b > c && p != a && p != b && p != c
    ensures TieBreakOrdered(cards, [p, p, a, b, c])
  {
    OnePairCounts(multiset(Ranks(cards)), p, a, b, c);
    TieBreakFive(cards, p, p, a, b, c);
  }

  /** One rank twice and three others: one pair, then the kickers high to low. */
  lemma OnePairProfile(cards: seq<Card>, p: int, a: int, b: int, c: int)
    requires ValidCards(cards) && multiset(Ranks(cards)) == multiset{p, p, a, b, c}
    requires a > b > c && p != a && p != b && p != c
    ensures ReferenceCategory(cards) == OnePair
    ensures !IsWheel(cards) && TieBreakOrdered(cards, [p, p, a, b, c])
  {
    OnePairCounts(multiset(Ranks(cards)), p, a, b, c);
    OnePairCategory(cards, p);
    OnePairVector(cards, p, a, b, c);
    RepeatIsNotWheel(cards, p);
  }

  // ---------------------------------------------------------------------------
  // Five different ranks: {a, b, c, d, e} with a > b > c > d > e

  lemma DistinctCounts(cards: seq<Card>, a: int, b: int, c: int, d: int, e: int)
    requires multiset(Ranks(cards)) == multiset{a, b, c, d, e} && a > b > c > d > e
    ensures forall r :: Multiplicity(cards, r) <= 1
    ensures Multiplicity(cards, a) == 1 && Multiplicity(cards, b) == 1 && Multiplicity(cards, c) == 1
    ensures Multiplicity(cards, d) == 1 && Multiplicity(cards, e) == 1
  {
    forall r ensures Multiplicity(cards, r) <= 1 {
      assert multiset(Ranks(cards))[r] <= 1;
    }
  }

  /** No rank repeats, so none of the categories built on repeats applies. */
  lemma DistinctNoRepeat(cards: seq<Card>, a: int, b: int, c: int, d: int, e: int)
    requires multiset(Ranks(cards)) == multiset{a, b, c, d, e} && a > b > c > d > e
    ensures !HasRankTimes(cards, 4) && !HasRankTimes(cards, 3)
    ensures !HasRankTimes(cards, 2) && !HasTwoPairs(cards)
  {
    DistinctCounts(cards, a, b, c, d, e);
  }

  lemma FiveMember(a: int, b: int, c: int, d: int, e: int, r: int)
    ensures multiset{a, b, c, d, e}[r] > 0 <==> r in {a, b, c, d, e}
  {
  }

  lemma RankSetOfMultiset(cards: seq<Card>, m: multiset<int>, r: int)
    requires multiset(Ranks(cards)) == m
    ensures r in RankSet(cards) <==> m[r] > 0
  {
    RankSetMember(cards, r);
  }

  lemma DistinctRankSet(cards: seq<Card>, a: int, b: int, c: int, d: int, e: int)
    requires multiset(Ranks(cards)) == multiset{a, b, c, d, e}
    ensures RankSet(cards) == {a, b, c, d, e}
  {
    var m := multiset{a, b, c, d, e};
    var five := {a, b, c, d, e};
    forall r ensures r in RankSet(cards) <==> r in five {
      RankSetOfMultiset(cards, m, r);
      FiveMember(a, b, c, d, e, r);
    }
    SameMembers(RankSet(cards), five);
  }

  lemma DistinctVector(cards: seq<Card>, a: int, b: int, c: int, d: int, e: int)
    requires multiset(Ranks(cards)) == multiset{a, b, c, d, e} && a > b > c > d > e
    ensures TieBreakOrdered(cards, [a, b, c, d, e])
  {
    DistinctCounts(cards, a, b, c, d, e);
    TieBreakFive(cards, a, b, c, d, e);
  }

  /** Five ranks, each one below the previous. */
  predicate Consecutive(a: int, b: int, c: int, d: int, e: int) {
    b == a - 1 && c == a - 2 && d == a - 3 && e == a - 4
  }

  lemma DistinctStraight(cards: seq<Card>, a: int, b: int, c: int, d: int, e: int)
    requires multiset(Ranks(cards)) == multiset{a, b, c, d, e} && a > b > c > d > e
    ensures IsWheel(cards) <==> [a, b, c, d, e] == [12, 3, 2, 1, 0]
    ensures IsStraight(cards) <==> Consecutive(a, b, c, d, e)
    ensures IsRunDownFrom(RankSet(cards), 12) <==> a == 12 && Consecutive(a, b, c, d, e)
  {
    DistinctRankSet(cards, a, b, c, d, e);
    WheelSet(a, b, c, d, e);
    RunSet(a, b, c, d, e, 12);
    if IsStraight(cards) {
      var top :| IsRunDownFrom(RankSet(cards), top);
      RunSet(a, b, c, d, e, top);
    }
    if Consecutive(a, b, c, d, e) {
      RunSet(a, b, c, d, e, a);
    }
  }

  /**
   * Five different ranks: the wheel is a straight (or straight flush) with the
   * ace counting low; five consecutive ranks a straight, straight flush or, ace
   * high and one suit, a royal flush; anything else a flush or high card. The
   * ranks are the tie-break vector, highest first.
   */
  lemma DistinctProfile(cards: seq<Card>, a: int, b: int, c: int, d: int, e: int)
    requires ValidCards(cards) && multiset(Ranks(cards)) == multiset{a, b, c, d, e}
    requires a > b > c > d > e
    ensures ReferenceCategory(cards) ==
      if [a, b, c, d, e] == [12, 3, 2, 1, 0] then (if IsFlush(cards) then StraightFlush else Straight)
      else if Consecutive(a, b, c, d, e) then
        (if !IsFlush(cards) then Straight else if a == 12 then RoyalFlush else StraightFlush)
      else if IsFlush(cards) then Flush
      else HighCard
    ensures IsWheel(cards) <==> [a, b, c, d, e] == [12, 3, 2, 1, 0]
    ensures TieBreakOrdered(cards, [a, b, c, d, e])
  {
    DistinctNoRepeat(cards, a, b, c, d, e);
    DistinctStraight(cards, a, b, c, d, e);
    DistinctVector(cards, a, b, c, d, e);
  }
}
