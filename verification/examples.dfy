/**
 * The repository's unit tests, restated as lemmas about the model: the
 * category of each sample hand, the order between sample hands, the errors of
 * `Hand.from_string` and `Card`, and `are_all_equal` on two lists. Each sample
 * hand gets its cards, the rendering of those cards as the test's string, their
 * rank profile, and the evaluator's result read off that profile. Each of these
 * facts about literal cards and strings is a lemma of its own, so that every
 * proof has only one literal computation to do.
 */
module Examples {
  import opened Results
  import opened Text
  import opened Sequences
  import opened Cards
  import opened Evaluation
  import opened Classification
  import opened Profiles
  import opened Hands

  // ---------------------------------------------------------------------------
  // Helpers

  lemma TokensOfFive(cards: seq<Card>, a: string, b: string, c: string, d: string, e: string)
    requires |cards| == 5
    requires ToString(cards[0]) == a && ToString(cards[1]) == b && ToString(cards[2]) == c
    requires ToString(cards[3]) == d && ToString(cards[4]) == e
    ensures Tokens(cards) == [a, b, c, d, e]
  {
  }

  lemma OneSuit(cards: seq<Card>, s: int)
    requires |cards| == 5 && Suits(cards) == [s, s, s, s, s]
    ensures IsFlush(cards)
  {
    forall c, d | c in cards && d in cards ensures c.suit == d.suit {
      var i :| 0 <= i < 5 && cards[i] == c;
      var j :| 0 <= j < 5 && cards[j] == d;
      assert Suits(cards)[i] == s && Suits(cards)[j] == s;
    }
  }

  lemma TwoSuits(cards: seq<Card>, i: int, j: int)
    requires 0 <= i < |cards| && 0 <= j < |cards| && cards[i].suit != cards[j].suit
    ensures !IsFlush(cards)
  {
    assert cards[i] in cards && cards[j] in cards;
  }

  /** Reading back the rendering of some cards builds the hand of those cards. */
  lemma FromStringOf(s: string, cards: seq<Card>)
    requires Join(Tokens(cards)) == s
    ensures FromString(s) == Create(cards)
  {
    FromStringRoundTrip(cards);
  }

  /** The hand `from_string` builds from the rendering of five different cards, given their reference description. */
  lemma HandOf(s: string, cards: seq<Card>, category: Category, rank: seq<int>)
    requires Join(Tokens(cards)) == s && ValidCards(cards)
    requires ReferenceCategory(cards) == category
    requires |rank| > 0 && rank[0] == category.Ordinal()
    requires IsWheel(cards) ==> rank[1..] == [3, 2, 1, 0, -1]
    requires !IsWheel(cards) ==> TieBreakOrdered(cards, rank[1..])
    ensures FromString(s) == Success(Hand(cards, category, rank))
  {
    assert rank == [category.Ordinal()] + rank[1..];
    FromStringOf(s, cards);
    CreateFromReference(cards, rank[1..]);
  }

  // ---------------------------------------------------------------------------
  // Sample hands

  /** `TS 2S JH KS AS`: ace high. */
  const AceHighCards: seq<Card> := [Card(8, 3), Card(0, 3), Card(9, 2), Card(11, 3), Card(12, 3)]

  lemma AceHighText()
    ensures Join(Tokens(AceHighCards)) == "TS 2S JH KS AS"
  {
    TokensOfFive(AceHighCards, "TS", "2S", "JH", "KS", "AS");
    AceHighJoin();
  }

  lemma AceHighJoin()
    ensures Join(["TS", "2S", "JH", "KS", "AS"]) == "TS 2S JH KS AS"
  {
  }

  lemma AceHighValid()
    ensures ValidCards(AceHighCards)
  {
  }

  lemma AceHighRankSeq()
    ensures Ranks(AceHighCards) == [8, 0, 9, 11, 12]
  {
  }

  lemma AceHighShape()
    ensures multiset(Ranks(AceHighCards)) == multiset{12, 11, 9, 8, 0}
  {
    AceHighRankSeq();
  }

  lemma AceHighCategory()
    ensures ReferenceCategory(AceHighCards) == HighCard
    ensures !IsWheel(AceHighCards) && TieBreakOrdered(AceHighCards, [12, 11, 9, 8, 0])
  {
    AceHighValid();
    AceHighShape();
    TwoSuits(AceHighCards, 0, 2);
    DistinctProfile(AceHighCards, 12, 11, 9, 8, 0);
  }

  /** The hand of `TS 2S JH KS AS`: HighCard, ranked [0, 12, 11, 9, 8, 0]. */
  const AceHigh: Hand := Hand(AceHighCards, HighCard, [0, 12, 11, 9, 8, 0])

  /** `Hand.from_string('TS 2S JH KS AS')` is HighCard. */
  lemma AceHighFromString()
    ensures FromString("TS 2S JH KS AS") == Success(AceHigh)
  {
    AceHighText();
    AceHighValid();
    AceHighCategory();
    HandOf("TS 2S JH KS AS", AceHighCards, HighCard, [0, 12, 11, 9, 8, 0]);
  }

  /** `TS JS JH KS AS`: a pair of jacks. */
  const PairOfJacksCards: seq<Card> := [Card(8, 3), Card(9, 3), Card(9, 2), Card(11, 3), Card(12, 3)]

  lemma PairOfJacksText()
    ensures Join(Tokens(PairOfJacksCards)) == "TS JS JH KS AS"
  {
    TokensOfFive(PairOfJacksCards, "TS", "JS", "JH", "KS", "AS");
    PairOfJacksJoin();
  }

  lemma PairOfJacksJoin()
    ensures Join(["TS", "JS", "JH", "KS", "AS"]) == "TS JS JH KS AS"
  {
  }

  lemma PairOfJacksValid()
    ensures ValidCards(PairOfJacksCards)
  {
  }

  lemma PairOfJacksRankSeq()
    ensures Ranks(PairOfJacksCards) == [8, 9, 9, 11, 12]
  {
  }

  lemma PairOfJacksShape()
    ensures multiset(Ranks(PairOfJacksCards)) == multiset{9, 9, 12, 11, 8}
  {
    PairOfJacksRankSeq();
  }

  lemma PairOfJacksCategory()
    ensures ReferenceCategory(PairOfJacksCards) == OnePair
    ensures !IsWheel(PairOfJacksCards) && TieBreakOrdered(PairOfJacksCards, [9, 9, 12, 11, 8])
  {
    PairOfJacksValid();
    PairOfJacksShape();
    OnePairProfile(PairOfJacksCards, 9, 12, 11, 8);
  }

  /** The hand of `TS JS JH KS AS`: OnePair, ranked [1, 9, 9, 12, 11, 8]. */
  const PairOfJacks: Hand := Hand(PairOfJacksCards, OnePair, [1, 9, 9, 12, 11, 8])

  /** `Hand.from_string('TS JS JH KS AS')` is OnePair. */
  lemma PairOfJacksFromString()
    ensures FromString("TS JS JH KS AS") == Success(PairOfJacks)
  {
    PairOfJacksText();
    PairOfJacksValid();
    PairOfJacksCategory();
    HandOf("TS JS JH KS AS", PairOfJacksCards, OnePair, [1, 9, 9, 12, 11, 8]);
  }

  /** `TS JS JH TH AS`: jacks and tens. */
  const JacksAndTensCards: seq<Card> := [Card(8, 3), Card(9, 3), Card(9, 2), Card(8, 2), Card(12, 3)]

  lemma JacksAndTensText()
    ensures Join(Tokens(JacksAndTensCards)) == "TS JS JH TH AS"
  {
    TokensOfFive(JacksAndTensCards, "TS", "JS", "JH", "TH", "AS");
    JacksAndTensJoin();
  }

  lemma JacksAndTensJoin()
    ensures Join(["TS", "JS", "JH", "TH", "AS"]) == "TS JS JH TH AS"
  {
  }

  lemma JacksAndTensValid()
    ensures ValidCards(JacksAndTensCards)
  {
  }

  lemma JacksAndTensRankSeq()
    ensures Ranks(JacksAndTensCards) == [8, 9, 9, 8, 12]
  {
  }

  lemma JacksAndTensShape()
    ensures multiset(Ranks(JacksAndTensCards)) == multiset{9, 9, 8, 8, 12}
  {
    JacksAndTensRankSeq();
  }

  lemma JacksAndTensCategory()
    ensures ReferenceCategory(JacksAndTensCards) == TwoPair
    ensures !IsWheel(JacksAndTensCards) && TieBreakOrdered(JacksAndTensCards, [9, 9, 8, 8, 12])
  {
    JacksAndTensValid();
    JacksAndTensShape();
    TwoPairProfile(JacksAndTensCards, 9, 8, 12);
  }

  /** The hand of `TS JS JH TH AS`: TwoPair, ranked [2, 9, 9, 8, 8, 12]. */
  const JacksAndTens: Hand := Hand(JacksAndTensCards, TwoPair, [2, 9, 9, 8, 8, 12])

  /** `Hand.from_string('TS JS JH TH AS')` is TwoPair. */
  lemma JacksAndTensFromString()
    ensures FromString("TS JS JH TH AS") == Success(JacksAndTens)
  {
    JacksAndTensText();
    JacksAndTensValid();
    JacksAndTensCategory();
    HandOf("TS JS JH TH AS", JacksAndTensCards, TwoPair, [2, 9, 9, 8, 8, 12]);
  }

  /** `4D 4H 4S 7H 8D`: three fours. */
  const ThreeFoursCards: seq<Card> := [Card(2, 1), Card(2, 2), Card(2, 3), Card(5, 2), Card(6, 1)]

  lemma ThreeFoursText()
    ensures Join(Tokens(ThreeFoursCards)) == "4D 4H 4S 7H 8D"
  {
    TokensOfFive(ThreeFoursCards, "4D", "4H", "4S", "7H", "8D");
    ThreeFoursJoin();
  }

  lemma ThreeFoursJoin()
    ensures Join(["4D", "4H", "4S", "7H", "8D"]) == "4D 4H 4S 7H 8D"
  {
  }

  lemma ThreeFoursValid()
    ensures ValidCards(ThreeFoursCards)
  {
  }

  lemma ThreeFoursRankSeq()
    ensures Ranks(ThreeFoursCards) == [2, 2, 2, 5, 6]
  {
  }

  lemma ThreeFoursShape()
    ensures multiset(Ranks(ThreeFoursCards)) == multiset{2, 2, 2, 6, 5}
  {
    ThreeFoursRankSeq();
  }

  lemma ThreeFoursCategory()
    ensures ReferenceCategory(ThreeFoursCards) == ThreeOfAKind
    ensures !IsWheel(ThreeFoursCards) && TieBreakOrdered(ThreeFoursCards, [2, 2, 2, 6, 5])
  {
    ThreeFoursValid();
    ThreeFoursShape();
    ThreeOfAKindProfile(ThreeFoursCards, 2, 6, 5);
  }

  /** The hand of `4D 4H 4S 7H 8D`: ThreeOfAKind, ranked [3, 2, 2, 2, 6, 5]. */
  const ThreeFours: Hand := Hand(ThreeFoursCards, ThreeOfAKind, [3, 2, 2, 2, 6, 5])

  /** `Hand.from_string('4D 4H 4S 7H 8D')` is ThreeOfAKind. */
  lemma ThreeFoursFromString()
    ensures FromString("4D 4H 4S 7H 8D") == Success(ThreeFours)
  {
    ThreeFoursText();
    ThreeFoursValid();
    ThreeFoursCategory();
    HandOf("4D 4H 4S 7H 8D", ThreeFoursCards, ThreeOfAKind, [3, 2, 2, 2, 6, 5]);
  }

  /** `TS JH QS KS AS`: ten to ace in two suits. */
  const TenToAceCards: seq<Card> := [Card(8, 3), Card(9, 2), Card(10, 3), Card(11, 3), Card(12, 3)]

  lemma TenToAceText()
    ensures Join(Tokens(TenToAceCards)) == "TS JH QS KS AS"
  {
    TokensOfFive(TenToAceCards, "TS", "JH", "QS", "KS", "AS");
    TenToAceJoin();
  }

  lemma TenToAceJoin()
    ensures Join(["TS", "JH", "QS", "KS", "AS"]) == "TS JH QS KS AS"
  {
  }

  lemma TenToAceValid()
    ensures ValidCards(TenToAceCards)
  {
  }

  lemma TenToAceRankSeq()
    ensures Ranks(TenToAceCards) == [8, 9, 10, 11, 12]
  {
  }

  lemma TenToAceShape()
    ensures multiset(Ranks(TenToAceCards)) == multiset{12, 11, 10, 9, 8}
  {
    TenToAceRankSeq();
  }

  lemma TenToAceCategory()
    ensures ReferenceCategory(TenToAceCards) == Straight
    ensures !IsWheel(TenToAceCards) && TieBreakOrdered(TenToAceCards, [12, 11, 10, 9, 8])
  {
    TenToAceValid();
    TenToAceShape();
    TwoSuits(TenToAceCards, 0, 1);
    DistinctProfile(TenToAceCards, 12, 11, 10, 9, 8);
  }

  /** The hand of `TS JH QS KS AS`: Straight, ranked [4, 12, 11, 10, 9, 8]. */
  const TenToAce: Hand := Hand(TenToAceCards, Straight, [4, 12, 11, 10, 9, 8])

  /** `Hand.from_string('TS JH QS KS AS')` is Straight. */
  lemma TenToAceFromString()
    ensures FromString("TS JH QS KS AS") == Success(TenToAce)
  {
    TenToAceText();
    TenToAceValid();
    TenToAceCategory();
    HandOf("TS JH QS KS AS", TenToAceCards, Straight, [4, 12, 11, 10, 9, 8]);
  }

  /** `5H 4S 3S 2D AS`: ace to five in two suits. */
  const AceToFiveCards: seq<Card> := [Card(3, 2), Card(2, 3), Card(1, 3), Card(0, 1), Card(12, 3)]

  lemma AceToFiveText()
    ensures Join(Tokens(AceToFiveCards)) == "5H 4S 3S 2D AS"
  {
    TokensOfFive(AceToFiveCards, "5H", "4S", "3S", "2D", "AS");
    AceToFiveJoin();
  }

  lemma AceToFiveJoin()
    ensures Join(["5H", "4S", "3S", "2D", "AS"]) == "5H 4S 3S 2D AS"
  {
  }

  lemma AceToFiveValid()
    ensures ValidCards(AceToFiveCards)
  {
  }

  lemma AceToFiveRankSeq()
    ensures Ranks(AceToFiveCards) == [3, 2, 1, 0, 12]
  {
  }

  lemma AceToFiveShape()
    ensures multiset(Ranks(AceToFiveCards)) == multiset{12, 3, 2, 1, 0}
  {
    AceToFiveRankSeq();
  }

  lemma AceToFiveCategory()
    ensures ReferenceCategory(AceToFiveCards) == Straight
    ensures IsWheel(AceToFiveCards)
  {
    AceToFiveValid();
    AceToFiveShape();
    TwoSuits(AceToFiveCards, 0, 1);
    DistinctProfile(AceToFiveCards, 12, 3, 2, 1, 0);
  }

  /** The hand of `5H 4S 3S 2D AS`: Straight, ranked [4, 3, 2, 1, 0, -1]. */
  const AceToFive: Hand := Hand(AceToFiveCards, Straight, [4, 3, 2, 1, 0, -1])

  /** `Hand.from_string('5H 4S 3S 2D AS')` is Straight. */
  lemma AceToFiveFromString()
    ensures FromString("5H 4S 3S 2D AS") == Success(AceToFive)
  {
    AceToFiveText();
    AceToFiveValid();
    AceToFiveCategory();
    HandOf("5H 4S 3S 2D AS", AceToFiveCards, Straight, [4, 3, 2, 1, 0, -1]);
  }

  /** `5S JS QS KS AS`: five spades, not in sequence. */
  const AceKingFlushCards: seq<Card> := [Card(3, 3), Card(9, 3), Card(10, 3), Card(11, 3), Card(12, 3)]

  lemma AceKingFlushText()
    ensures Join(Tokens(AceKingFlushCards)) == "5S JS QS KS AS"
  {
    TokensOfFive(AceKingFlushCards, "5S", "JS", "QS", "KS", "AS");
    AceKingFlushJoin();
  }

  lemma AceKingFlushJoin()
    ensures Join(["5S", "JS", "QS", "KS", "AS"]) == "5S JS QS KS AS"
  {
  }

  lemma AceKingFlushValid()
    ensures ValidCards(AceKingFlushCards)
  {
  }

  lemma AceKingFlushRankSeq()
    ensures Ranks(AceKingFlushCards) == [3, 9, 10, 11, 12]
  {
  }

  lemma AceKingFlushShape()
    ensures multiset(Ranks(AceKingFlushCards)) == multiset{12, 11, 10, 9, 3}
  {
    AceKingFlushRankSeq();
  }

  lemma AceKingFlushSuitSeq()
    ensures Suits(AceKingFlushCards) == [3, 3, 3, 3, 3]
  {
  }

  lemma AceKingFlushCategory()
    ensures ReferenceCategory(AceKingFlushCards) == Flush
    ensures !IsWheel(AceKingFlushCards) && TieBreakOrdered(AceKingFlushCards, [12, 11, 10, 9, 3])
  {
    AceKingFlushValid();
    AceKingFlushShape();
    AceKingFlushSuitSeq();
    OneSuit(AceKingFlushCards, 3);
    DistinctProfile(AceKingFlushCards, 12, 11, 10, 9, 3);
  }

  /** The hand of `5S JS QS KS AS`: Flush, ranked [5, 12, 11, 10, 9, 3]. */
  const AceKingFlush: Hand := Hand(AceKingFlushCards, Flush, [5, 12, 11, 10, 9, 3])

  /** `Hand.from_string('5S JS QS KS AS')` is Flush. */
  lemma AceKingFlushFromString()
    ensures FromString("5S JS QS KS AS") == Success(AceKingFlush)
  {
    AceKingFlushText();
    AceKingFlushValid();
    AceKingFlushCategory();
    HandOf("5S JS QS KS AS", AceKingFlushCards, Flush, [5, 12, 11, 10, 9, 3]);
  }

  /** `4D 4H 4S KS KD`: fours full of kings. */
  const FoursFullOfKingsCards: seq<Card> := [Card(2, 1), Card(2, 2), Card(2, 3), Card(11, 3), Card(11, 1)]

  lemma FoursFullOfKingsText()
    ensures Join(Tokens(FoursFullOfKingsCards)) == "4D 4H 4S KS KD"
  {
    TokensOfFive(FoursFullOfKingsCards, "4D", "4H", "4S", "KS", "KD");
    FoursFullOfKingsJoin();
  }

  lemma FoursFullOfKingsJoin()
    ensures Join(["4D", "4H", "4S", "KS", "KD"]) == "4D 4H 4S KS KD"
  {
  }

  lemma FoursFullOfKingsValid()
    ensures ValidCards(FoursFullOfKingsCards)
  {
  }

  lemma FoursFullOfKingsRankSeq()
    ensures Ranks(FoursFullOfKingsCards) == [2, 2, 2, 11, 11]
  {
  }

  lemma FoursFullOfKingsShape()
    ensures multiset(Ranks(FoursFullOfKingsCards)) == multiset{2, 2, 2, 11, 11}
  {
    FoursFullOfKingsRankSeq();
  }

  lemma FoursFullOfKingsCategory()
    ensures ReferenceCategory(FoursFullOfKingsCards) == FullHouse
    ensures !IsWheel(FoursFullOfKingsCards) && TieBreakOrdered(FoursFullOfKingsCards, [2, 2, 2, 11, 11])
  {
    FoursFullOfKingsValid();
    FoursFullOfKingsShape();
    FullHouseProfile(FoursFullOfKingsCards, 2, 11);
  }

  /** The hand of `4D 4H 4S KS KD`: FullHouse, ranked [6, 2, 2, 2, 11, 11]. */
  const FoursFullOfKings: Hand := Hand(FoursFullOfKingsCards, FullHouse, [6, 2, 2, 2, 11, 11])

  /** `Hand.from_string('4D 4H 4S KS KD')` is FullHouse. */
  lemma FoursFullOfKingsFromString()
    ensures FromString("4D 4H 4S KS KD") == Success(FoursFullOfKings)
  {
    FoursFullOfKingsText();
    FoursFullOfKingsValid();
    FoursFullOfKingsCategory();
    HandOf("4D 4H 4S KS KD", FoursFullOfKingsCards, FullHouse, [6, 2, 2, 2, 11, 11]);
  }

  /** `4D 4H 4S 4C 8D`: four fours. */
  const FourFoursCards: seq<Card> := [Card(2, 1), Card(2, 2), Card(2, 3), Card(2, 0), Card(6, 1)]

  lemma FourFoursText()
    ensures Join(Tokens(FourFoursCards)) == "4D 4H 4S 4C 8D"
  {
    TokensOfFive(FourFoursCards, "4D", "4H", "4S", "4C", "8D");
    FourFoursJoin();
  }

  lemma FourFoursJoin()
    ensures Join(["4D", "4H", "4S", "4C", "8D"]) == "4D 4H 4S 4C 8D"
  {
  }

  lemma FourFoursValid()
    ensures ValidCards(FourFoursCards)
  {
  }

  lemma FourFoursRankSeq()
    ensures Ranks(FourFoursCards) == [2, 2, 2, 2, 6]
  {
  }

  lemma FourFoursShape()
    ensures multiset(Ranks(FourFoursCards)) == multiset{2, 2, 2, 2, 6}
  {
    FourFoursRankSeq();
  }

  lemma FourFoursCategory()
    ensures ReferenceCategory(FourFoursCards) == FourOfAKind
    ensures !IsWheel(FourFoursCards) && TieBreakOrdered(FourFoursCards, [2, 2, 2, 2, 6])
  {
    FourFoursValid();
    FourFoursShape();
    FourOfAKindProfile(FourFoursCards, 2, 6);
  }

  /** The hand of `4D 4H 4S 4C 8D`: FourOfAKind, ranked [7, 2, 2, 2, 2, 6]. */
  const FourFours: Hand := Hand(FourFoursCards, FourOfAKind, [7, 2, 2, 2, 2, 6])

  /** `Hand.from_string('4D 4H 4S 4C 8D')` is FourOfAKind. */
  lemma FourFoursFromString()
    ensures FromString("4D 4H 4S 4C 8D") == Success(FourFours)
  {
    FourFoursText();
    FourFoursValid();
    FourFoursCategory();
    HandOf("4D 4H 4S 4C 8D", FourFoursCards, FourOfAKind, [7, 2, 2, 2, 2, 6]);
  }

  /** `2S 3S 4S 5S 6S`: two to six in spades. */
  const SixHighStraightFlushCards: seq<Card> := [Card(0, 3), Card(1, 3), Card(2, 3), Card(3, 3), Card(4, 3)]

  lemma SixHighStraightFlushText()
    ensures Join(Tokens(SixHighStraightFlushCards)) == "2S 3S 4S 5S 6S"
  {
    TokensOfFive(SixHighStraightFlushCards, "2S", "3S", "4S", "5S", "6S");
    SixHighStraightFlushJoin();
  }

  lemma SixHighStraightFlushJoin()
    ensures Join(["2S", "3S", "4S", "5S", "6S"]) == "2S 3S 4S 5S 6S"
  {
  }

  lemma SixHighStraightFlushValid()
    ensures ValidCards(SixHighStraightFlushCards)
  {
  }

  lemma SixHighStraightFlushRankSeq()
    ensures Ranks(SixHighStraightFlushCards) == [0, 1, 2, 3, 4]
  {
  }

  lemma SixHighStraightFlushShape()
    ensures multiset(Ranks(SixHighStraightFlushCards)) == multiset{4, 3, 2, 1, 0}
  {
    SixHighStraightFlushRankSeq();
  }

  lemma SixHighStraightFlushSuitSeq()
    ensures Suits(SixHighStraightFlushCards) == [3, 3, 3, 3, 3]
  {
  }

  lemma SixHighStraightFlushCategory()
    ensures ReferenceCategory(SixHighStraightFlushCards) == StraightFlush
    ensures !IsWheel(SixHighStraightFlushCards) && TieBreakOrdered(SixHighStraightFlushCards, [4, 3, 2, 1, 0])
  {
    SixHighStraightFlushValid();
    SixHighStraightFlushShape();
    SixHighStraightFlushSuitSeq();
    OneSuit(SixHighStraightFlushCards, 3);
    DistinctProfile(SixHighStraightFlushCards, 4, 3, 2, 1, 0);
  }

  /** The hand of `2S 3S 4S 5S 6S`: StraightFlush, ranked [8, 4, 3, 2, 1, 0]. */
  const SixHighStraightFlush: Hand := Hand(SixHighStraightFlushCards, StraightFlush, [8, 4, 3, 2, 1, 0])

  /** `Hand.from_string('2S 3S 4S 5S 6S')` is StraightFlush. */
  lemma SixHighStraightFlushFromString()
    ensures FromString("2S 3S 4S 5S 6S") == Success(SixHighStraightFlush)
  {
    SixHighStraightFlushText();
    SixHighStraightFlushValid();
    SixHighStraightFlushCategory();
    HandOf("2S 3S 4S 5S 6S", SixHighStraightFlushCards, StraightFlush, [8, 4, 3, 2, 1, 0]);
  }

  /** `5S 4S 3S 2S AS`: ace to five in spades. */
  const FiveHighStraightFlushCards: seq<Card> := [Card(3, 3), Card(2, 3), Card(1, 3), Card(0, 3), Card(12, 3)]

  lemma FiveHighStraightFlushText()
    ensures Join(Tokens(FiveHighStraightFlushCards)) == "5S 4S 3S 2S AS"
  {
    TokensOfFive(FiveHighStraightFlushCards, "5S", "4S", "3S", "2S", "AS");
    FiveHighStraightFlushJoin();
  }

  lemma FiveHighStraightFlushJoin()
    ensures Join(["5S", "4S", "3S", "2S", "AS"]) == "5S 4S 3S 2S AS"
  {
  }

  lemma FiveHighStraightFlushValid()
    ensures ValidCards(FiveHighStraightFlushCards)
  {
  }

  lemma FiveHighStraightFlushRankSeq()
    ensures Ranks(FiveHighStraightFlushCards) == [3, 2, 1, 0, 12]
  {
  }

  lemma FiveHighStraightFlushShape()
    ensures multiset(Ranks(FiveHighStraightFlushCards)) == multiset{12, 3, 2, 1, 0}
  {
    FiveHighStraightFlushRankSeq();
  }

  lemma FiveHighStraightFlushSuitSeq()
    ensures Suits(FiveHighStraightFlushCards) == [3, 3, 3, 3, 3]
  {
  }

  lemma FiveHighStraightFlushCategory()
    ensures ReferenceCategory(FiveHighStraightFlushCards) == StraightFlush
    ensures IsWheel(FiveHighStraightFlushCards)
  {
    FiveHighStraightFlushValid();
    FiveHighStraightFlushShape();
    FiveHighStraightFlushSuitSeq();
    OneSuit(FiveHighStraightFlushCards, 3);
    DistinctProfile(FiveHighStraightFlushCards, 12, 3, 2, 1, 0);
  }

  /** The hand of `5S 4S 3S 2S AS`: StraightFlush, ranked [8, 3, 2, 1, 0, -1]. */
  const FiveHighStraightFlush: Hand := Hand(FiveHighStraightFlushCards, StraightFlush, [8, 3, 2, 1, 0, -1])

  /** `Hand.from_string('5S 4S 3S 2S AS')` is StraightFlush. */
  lemma FiveHighStraightFlushFromString()
    ensures FromString("5S 4S 3S 2S AS") == Success(FiveHighStraightFlush)
  {
    FiveHighStraightFlushText();
    FiveHighStraightFlushValid();
    FiveHighStraightFlushCategory();
    HandOf("5S 4S 3S 2S AS", FiveHighStraightFlushCards, StraightFlush, [8, 3, 2, 1, 0, -1]);
  }

  /** `TS JS QS KS AS`: ten to ace in spades. */
  const RoyalSpadesCards: seq<Card> := [Card(8, 3), Card(9, 3), Card(10, 3), Card(11, 3), Card(12, 3)]

  lemma RoyalSpadesText()
    ensures Join(Tokens(RoyalSpadesCards)) == "TS JS QS KS AS"
  {
    TokensOfFive(RoyalSpadesCards, "TS", "JS", "QS", "KS", "AS");
    RoyalSpadesJoin();
  }

  lemma RoyalSpadesJoin()
    ensures Join(["TS", "JS", "QS", "KS", "AS"]) == "TS JS QS KS AS"
  {
  }

  lemma RoyalSpadesValid()
    ensures ValidCards(RoyalSpadesCards)
  {
  }

  lemma RoyalSpadesRankSeq()
    ensures Ranks(RoyalSpadesCards) == [8, 9, 10, 11, 12]
  {
  }

  lemma RoyalSpadesShape()
    ensures multiset(Ranks(RoyalSpadesCards)) == multiset{12, 11, 10, 9, 8}
  {
    RoyalSpadesRankSeq();
  }

  lemma RoyalSpadesSuitSeq()
    ensures Suits(RoyalSpadesCards) == [3, 3, 3, 3, 3]
  {
  }

  lemma RoyalSpadesCategory()
    ensures ReferenceCategory(RoyalSpadesCards) == RoyalFlush
    ensures !IsWheel(RoyalSpadesCards) && TieBreakOrdered(RoyalSpadesCards, [12, 11, 10, 9, 8])
  {
    RoyalSpadesValid();
    RoyalSpadesShape();
    RoyalSpadesSuitSeq();
    OneSuit(RoyalSpadesCards, 3);
    DistinctProfile(RoyalSpadesCards, 12, 11, 10, 9, 8);
  }

  /** The hand of `TS JS QS KS AS`: RoyalFlush, ranked [9, 12, 11, 10, 9, 8]. */
  const RoyalSpades: Hand := Hand(RoyalSpadesCards, RoyalFlush, [9, 12, 11, 10, 9, 8])

  /** `Hand.from_string('TS JS QS KS AS')` is RoyalFlush. */
  lemma RoyalSpadesFromString()
    ensures FromString("TS JS QS KS AS") == Success(RoyalSpades)
  {
    RoyalSpadesText();
    RoyalSpadesValid();
    RoyalSpadesCategory();
    HandOf("TS JS QS KS AS", RoyalSpadesCards, RoyalFlush, [9, 12, 11, 10, 9, 8]);
  }

  /** `5D 5H 5S 5C AS`: four fives and an ace. */
  const FivesQuadsWithAceCards: seq<Card> := [Card(3, 1), Card(3, 2), Card(3, 3), Card(3, 0), Card(12, 3)]

  lemma FivesQuadsWithAceText()
    ensures Join(Tokens(FivesQuadsWithAceCards)) == "5D 5H 5S 5C AS"
  {
    TokensOfFive(FivesQuadsWithAceCards, "5D", "5H", "5S", "5C", "AS");
    FivesQuadsWithAceJoin();
  }

  lemma FivesQuadsWithAceJoin()
    ensures Join(["5D", "5H", "5S", "5C", "AS"]) == "5D 5H 5S 5C AS"
  {
  }

  lemma FivesQuadsWithAceValid()
    ensures ValidCards(FivesQuadsWithAceCards)
  {
  }

  lemma FivesQuadsWithAceRankSeq()
    ensures Ranks(FivesQuadsWithAceCards) == [3, 3, 3, 3, 12]
  {
  }

  lemma FivesQuadsWithAceShape()
    ensures multiset(Ranks(FivesQuadsWithAceCards)) == multiset{3, 3, 3, 3, 12}
  {
    FivesQuadsWithAceRankSeq();
  }

  lemma FivesQuadsWithAceCategory()
    ensures ReferenceCategory(FivesQuadsWithAceCards) == FourOfAKind
    ensures !IsWheel(FivesQuadsWithAceCards) && TieBreakOrdered(FivesQuadsWithAceCards, [3, 3, 3, 3, 12])
  {
    FivesQuadsWithAceValid();
    FivesQuadsWithAceShape();
    FourOfAKindProfile(FivesQuadsWithAceCards, 3, 12);
  }

  /** The hand of `5D 5H 5S 5C AS`: FourOfAKind, ranked [7, 3, 3, 3, 3, 12]. */
  const FivesQuadsWithAce: Hand := Hand(FivesQuadsWithAceCards, FourOfAKind, [7, 3, 3, 3, 3, 12])

  /** `Hand.from_string('5D 5H 5S 5C AS')` is FourOfAKind. */
  lemma FivesQuadsWithAceFromString()
    ensures FromString("5D 5H 5S 5C AS") == Success(FivesQuadsWithAce)
  {
    FivesQuadsWithAceText();
    FivesQuadsWithAceValid();
    FivesQuadsWithAceCategory();
    HandOf("5D 5H 5S 5C AS", FivesQuadsWithAceCards, FourOfAKind, [7, 3, 3, 3, 3, 12]);
  }

  /** `5D 5H 5S 5C 2S`: four fives and a two. */
  const FivesQuadsWithTwoCards: seq<Card> := [Card(3, 1), Card(3, 2), Card(3, 3), Card(3, 0), Card(0, 3)]

  lemma FivesQuadsWithTwoText()
    ensures Join(Tokens(FivesQuadsWithTwoCards)) == "5D 5H 5S 5C 2S"
  {
    TokensOfFive(FivesQuadsWithTwoCards, "5D", "5H", "5S", "5C", "2S");
    FivesQuadsWithTwoJoin();
  }

  lemma FivesQuadsWithTwoJoin()
    ensures Join(["5D", "5H", "5S", "5C", "2S"]) == "5D 5H 5S 5C 2S"
  {
  }

  lemma FivesQuadsWithTwoValid()
    ensures ValidCards(FivesQuadsWithTwoCards)
  {
  }

  lemma FivesQuadsWithTwoRankSeq()
    ensures Ranks(FivesQuadsWithTwoCards) == [3, 3, 3, 3, 0]
  {
  }

  lemma FivesQuadsWithTwoShape()
    ensures multiset(Ranks(FivesQuadsWithTwoCards)) == multiset{3, 3, 3, 3, 0}
  {
    FivesQuadsWithTwoRankSeq();
  }

  lemma FivesQuadsWithTwoCategory()
    ensures ReferenceCategory(FivesQuadsWithTwoCards) == FourOfAKind
    ensures !IsWheel(FivesQuadsWithTwoCards) && TieBreakOrdered(FivesQuadsWithTwoCards, [3, 3, 3, 3, 0])
  {
    FivesQuadsWithTwoValid();
    FivesQuadsWithTwoShape();
    FourOfAKindProfile(FivesQuadsWithTwoCards, 3, 0);
  }

  /** The hand of `5D 5H 5S 5C 2S`: FourOfAKind, ranked [7, 3, 3, 3, 3, 0]. */
  const FivesQuadsWithTwo: Hand := Hand(FivesQuadsWithTwoCards, FourOfAKind, [7, 3, 3, 3, 3, 0])

  /** `Hand.from_string('5D 5H 5S 5C 2S')` is FourOfAKind. */
  lemma FivesQuadsWithTwoFromString()
    ensures FromString("5D 5H 5S 5C 2S") == Success(FivesQuadsWithTwo)
  {
    FivesQuadsWithTwoText();
    FivesQuadsWithTwoValid();
    FivesQuadsWithTwoCategory();
    HandOf("5D 5H 5S 5C 2S", FivesQuadsWithTwoCards, FourOfAKind, [7, 3, 3, 3, 3, 0]);
  }

  /** `4D 4H 4S 4C AS`: four fours and an ace. */
  const FoursQuadsWithAceCards: seq<Card> := [Card(2, 1), Card(2, 2), Card(2, 3), Card(2, 0), Card(12, 3)]

  lemma FoursQuadsWithAceText()
    ensures Join(Tokens(FoursQuadsWithAceCards)) == "4D 4H 4S 4C AS"
  {
    TokensOfFive(FoursQuadsWithAceCards, "4D", "4H", "4S", "4C", "AS");
    FoursQuadsWithAceJoin();
  }

  lemma FoursQuadsWithAceJoin()
    ensures Join(["4D", "4H", "4S", "4C", "AS"]) == "4D 4H 4S 4C AS"
  {
  }

  lemma FoursQuadsWithAceValid()
    ensures ValidCards(FoursQuadsWithAceCards)
  {
  }

  lemma FoursQuadsWithAceRankSeq()
    ensures Ranks(FoursQuadsWithAceCards) == [2, 2, 2, 2, 12]
  {
  }

  lemma FoursQuadsWithAceShape()
    ensures multiset(Ranks(FoursQuadsWithAceCards)) == multiset{2, 2, 2, 2, 12}
  {
    FoursQuadsWithAceRankSeq();
  }

  lemma FoursQuadsWithAceCategory()
    ensures ReferenceCategory(FoursQuadsWithAceCards) == FourOfAKind
    ensures !IsWheel(FoursQuadsWithAceCards) && TieBreakOrdered(FoursQuadsWithAceCards, [2, 2, 2, 2, 12])
  {
    FoursQuadsWithAceValid();
    FoursQuadsWithAceShape();
    FourOfAKindProfile(FoursQuadsWithAceCards, 2, 12);
  }

  /** The hand of `4D 4H 4S 4C AS`: FourOfAKind, ranked [7, 2, 2, 2, 2, 12]. */
  const FoursQuadsWithAce: Hand := Hand(FoursQuadsWithAceCards, FourOfAKind, [7, 2, 2, 2, 2, 12])

  /** `Hand.from_string('4D 4H 4S 4C AS')` is FourOfAKind. */
  lemma FoursQuadsWithAceFromString()
    ensures FromString("4D 4H 4S 4C AS") == Success(FoursQuadsWithAce)
  {
    FoursQuadsWithAceText();
    FoursQuadsWithAceValid();
    FoursQuadsWithAceCategory();
    HandOf("4D 4H 4S 4C AS", FoursQuadsWithAceCards, FourOfAKind, [7, 2, 2, 2, 2, 12]);
  }

  /** `5D 5H 5S 4S 4D`: fives full of fours. */
  const FivesOverFoursCards: seq<Card> := [Card(3, 1), Card(3, 2), Card(3, 3), Card(2, 3), Card(2, 1)]

  lemma FivesOverFoursText()
    ensures Join(Tokens(FivesOverFoursCards)) == "5D 5H 5S 4S 4D"
  {
    TokensOfFive(FivesOverFoursCards, "5D", "5H", "5S", "4S", "4D");
    FivesOverFoursJoin();
  }

  lemma FivesOverFoursJoin()
    ensures Join(["5D", "5H", "5S", "4S", "4D"]) == "5D 5H 5S 4S 4D"
  {
  }

  lemma FivesOverFoursValid()
    ensures ValidCards(FivesOverFoursCards)
  {
  }

  lemma FivesOverFoursRankSeq()
    ensures Ranks(FivesOverFoursCards) == [3, 3, 3, 2, 2]
  {
  }

  lemma FivesOverFoursShape()
    ensures multiset(Ranks(FivesOverFoursCards)) == multiset{3, 3, 3, 2, 2}
  {
    FivesOverFoursRankSeq();
  }

  lemma FivesOverFoursCategory()
    ensures ReferenceCategory(FivesOverFoursCards) == FullHouse
    ensures !IsWheel(FivesOverFoursCards) && TieBreakOrdered(FivesOverFoursCards, [3, 3, 3, 2, 2])
  {
    FivesOverFoursValid();
    FivesOverFoursShape();
    FullHouseProfile(FivesOverFoursCards, 3, 2);
  }

  /** The hand of `5D 5H 5S 4S 4D`: FullHouse, ranked [6, 3, 3, 3, 2, 2]. */
  const FivesOverFours: Hand := Hand(FivesOverFoursCards, FullHouse, [6, 3, 3, 3, 2, 2])

  /** `Hand.from_string('5D 5H 5S 4S 4D')` is FullHouse. */
  lemma FivesOverFoursFromString()
    ensures FromString("5D 5H 5S 4S 4D") == Success(FivesOverFours)
  {
    FivesOverFoursText();
    FivesOverFoursValid();
    FivesOverFoursCategory();
    HandOf("5D 5H 5S 4S 4D", FivesOverFoursCards, FullHouse, [6, 3, 3, 3, 2, 2]);
  }

  /** `5D 5H 5S 3S 3D`: fives full of threes. */
  const FivesOverThreesCards: seq<Card> := [Card(3, 1), Card(3, 2), Card(3, 3), Card(1, 3), Card(1, 1)]

  lemma FivesOverThreesText()
    ensures Join(Tokens(FivesOverThreesCards)) == "5D 5H 5S 3S 3D"
  {
    TokensOfFive(FivesOverThreesCards, "5D", "5H", "5S", "3S", "3D");
    FivesOverThreesJoin();
  }

  lemma FivesOverThreesJoin()
    ensures Join(["5D", "5H", "5S", "3S", "3D"]) == "5D 5H 5S 3S 3D"
  {
  }

  lemma FivesOverThreesValid()
    ensures ValidCards(FivesOverThreesCards)
  {
  }

  lemma FivesOverThreesRankSeq()
    ensures Ranks(FivesOverThreesCards) == [3, 3, 3, 1, 1]
  {
  }

  lemma FivesOverThreesShape()
    ensures multiset(Ranks(FivesOverThreesCards)) == multiset{3, 3, 3, 1, 1}
  {
    FivesOverThreesRankSeq();
  }

  lemma FivesOverThreesCategory()
    ensures ReferenceCategory(FivesOverThreesCards) == FullHouse
    ensures !IsWheel(FivesOverThreesCards) && TieBreakOrdered(FivesOverThreesCards, [3, 3, 3, 1, 1])
  {
    FivesOverThreesValid();
    FivesOverThreesShape();
    FullHouseProfile(FivesOverThreesCards, 3, 1);
  }

  /** The hand of `5D 5H 5S 3S 3D`: FullHouse, ranked [6, 3, 3, 3, 1, 1]. */
  const FivesOverThrees: Hand := Hand(FivesOverThreesCards, FullHouse, [6, 3, 3, 3, 1, 1])

  /** `Hand.from_string('5D 5H 5S 3S 3D')` is FullHouse. */
  lemma FivesOverThreesFromString()
    ensures FromString("5D 5H 5S 3S 3D") == Success(FivesOverThrees)
  {
    FivesOverThreesText();
    FivesOverThreesValid();
    FivesOverThreesCategory();
    HandOf("5D 5H 5S 3S 3D", FivesOverThreesCards, FullHouse, [6, 3, 3, 3, 1, 1]);
  }

  /** `4D 4H 4S AC AS`: fours full of aces. */
  const FoursOverAcesCards: seq<Card> := [Card(2, 1), Card(2, 2), Card(2, 3), Card(12, 0), Card(12, 3)]

  lemma FoursOverAcesText()
    ensures Join(Tokens(FoursOverAcesCards)) == "4D 4H 4S AC AS"
  {
    TokensOfFive(FoursOverAcesCards, "4D", "4H", "4S", "AC", "AS");
    FoursOverAcesJoin();
  }

  lemma FoursOverAcesJoin()
    ensures Join(["4D", "4H", "4S", "AC", "AS"]) == "4D 4H 4S AC AS"
  {
  }

  lemma FoursOverAcesValid()
    ensures ValidCards(FoursOverAcesCards)
  {
  }

  lemma FoursOverAcesRankSeq()
    ensures Ranks(FoursOverAcesCards) == [2, 2, 2, 12, 12]
  {
  }

  lemma FoursOverAcesShape()
    ensures multiset(Ranks(FoursOverAcesCards)) == multiset{2, 2, 2, 12, 12}
  {
    FoursOverAcesRankSeq();
  }

  lemma FoursOverAcesCategory()
    ensures ReferenceCategory(FoursOverAcesCards) == FullHouse
    ensures !IsWheel(FoursOverAcesCards) && TieBreakOrdered(FoursOverAcesCards, [2, 2, 2, 12, 12])
  {
    FoursOverAcesValid();
    FoursOverAcesShape();
    FullHouseProfile(FoursOverAcesCards, 2, 12);
  }

  /** The hand of `4D 4H 4S AC AS`: FullHouse, ranked [6, 2, 2, 2, 12, 12]. */
  const FoursOverAces: Hand := Hand(FoursOverAcesCards, FullHouse, [6, 2, 2, 2, 12, 12])

  /** `Hand.from_string('4D 4H 4S AC AS')` is FullHouse. */
  lemma FoursOverAcesFromString()
    ensures FromString("4D 4H 4S AC AS") == Success(FoursOverAces)
  {
    FoursOverAcesText();
    FoursOverAcesValid();
    FoursOverAcesCategory();
    HandOf("4D 4H 4S AC AS", FoursOverAcesCards, FullHouse, [6, 2, 2, 2, 12, 12]);
  }

  /** `KS 5S QS 7S 4S`: king-queen flush. */
  const KingQueenFlushCards: seq<Card> := [Card(11, 3), Card(3, 3), Card(10, 3), Card(5, 3), Card(2, 3)]

  lemma KingQueenFlushText()
    ensures Join(Tokens(KingQueenFlushCards)) == "KS 5S QS 7S 4S"
  {
    TokensOfFive(KingQueenFlushCards, "KS", "5S", "QS", "7S", "4S");
    KingQueenFlushJoin();
  }

  lemma KingQueenFlushJoin()
    ensures Join(["KS", "5S", "QS", "7S", "4S"]) == "KS 5S QS 7S 4S"
  {
  }

  lemma KingQueenFlushValid()
    ensures ValidCards(KingQueenFlushCards)
  {
  }

  lemma KingQueenFlushRankSeq()
    ensures Ranks(KingQueenFlushCards) == [11, 3, 10, 5, 2]
  {
  }

  lemma KingQueenFlushShape()
    ensures multiset(Ranks(KingQueenFlushCards)) == multiset{11, 10, 5, 3, 2}
  {
    KingQueenFlushRankSeq();
  }

  lemma KingQueenFlushSuitSeq()
    ensures Suits(KingQueenFlushCards) == [3, 3, 3, 3, 3]
  {
  }

  lemma KingQueenFlushCategory()
    ensures ReferenceCategory(KingQueenFlushCards) == Flush
    ensures !IsWheel(KingQueenFlushCards) && TieBreakOrdered(KingQueenFlushCards, [11, 10, 5, 3, 2])
  {
    KingQueenFlushValid();
    KingQueenFlushShape();
    KingQueenFlushSuitSeq();
    OneSuit(KingQueenFlushCards, 3);
    DistinctProfile(KingQueenFlushCards, 11, 10, 5, 3, 2);
  }

  /** The hand of `KS 5S QS 7S 4S`: Flush, ranked [5, 11, 10, 5, 3, 2]. */
  const KingQueenFlush: Hand := Hand(KingQueenFlushCards, Flush, [5, 11, 10, 5, 3, 2])

  /** `Hand.from_string('KS 5S QS 7S 4S')` is Flush. */
  lemma KingQueenFlushFromString()
    ensures FromString("KS 5S QS 7S 4S") == Success(KingQueenFlush)
  {
    KingQueenFlushText();
    KingQueenFlushValid();
    KingQueenFlushCategory();
    HandOf("KS 5S QS 7S 4S", KingQueenFlushCards, Flush, [5, 11, 10, 5, 3, 2]);
  }

  /** `KS 5S JS 7S 4S`: king-jack flush. */
  const KingJackFlushCards: seq<Card> := [Card(11, 3), Card(3, 3), Card(9, 3), Card(5, 3), Card(2, 3)]

  lemma KingJackFlushText()
    ensures Join(Tokens(KingJackFlushCards)) == "KS 5S JS 7S 4S"
  {
    TokensOfFive(KingJackFlushCards, "KS", "5S", "JS", "7S", "4S");
    KingJackFlushJoin();
  }

  lemma KingJackFlushJoin()
    ensures Join(["KS", "5S", "JS", "7S", "4S"]) == "KS 5S JS 7S 4S"
  {
  }

  lemma KingJackFlushValid()
    ensures ValidCards(KingJackFlushCards)
  {
  }

  lemma KingJackFlushRankSeq()
    ensures Ranks(KingJackFlushCards) == [11, 3, 9, 5, 2]
  {
  }

  lemma KingJackFlushShape()
    ensures multiset(Ranks(KingJackFlushCards)) == multiset{11, 9, 5, 3, 2}
  {
    KingJackFlushRankSeq();
  }

  lemma KingJackFlushSuitSeq()
    ensures Suits(KingJackFlushCards) == [3, 3, 3, 3, 3]
  {
  }

  lemma KingJackFlushCategory()
    ensures ReferenceCategory(KingJackFlushCards) == Flush
    ensures !IsWheel(KingJackFlushCards) && TieBreakOrdered(KingJackFlushCards, [11, 9, 5, 3, 2])
  {
    KingJackFlushValid();
    KingJackFlushShape();
    KingJackFlushSuitSeq();
    OneSuit(KingJackFlushCards, 3);
    DistinctProfile(KingJackFlushCards, 11, 9, 5, 3, 2);
  }

  /** The hand of `KS 5S JS 7S 4S`: Flush, ranked [5, 11, 9, 5, 3, 2]. */
  const KingJackFlush: Hand := Hand(KingJackFlushCards, Flush, [5, 11, 9, 5, 3, 2])

  /** `Hand.from_string('KS 5S JS 7S 4S')` is Flush. */
  lemma KingJackFlushFromString()
    ensures FromString("KS 5S JS 7S 4S") == Success(KingJackFlush)
  {
    KingJackFlushText();
    KingJackFlushValid();
    KingJackFlushCategory();
    HandOf("KS 5S JS 7S 4S", KingJackFlushCards, Flush, [5, 11, 9, 5, 3, 2]);
  }

  /** `QS 5S 8S 7S 4S`: queen-eight flush. */
  const QueenEightFlushCards: seq<Card> := [Card(10, 3), Card(3, 3), Card(6, 3), Card(5, 3), Card(2, 3)]

  lemma QueenEightFlushText()
    ensures Join(Tokens(QueenEightFlushCards)) == "QS 5S 8S 7S 4S"
  {
    TokensOfFive(QueenEightFlushCards, "QS", "5S", "8S", "7S", "4S");
    QueenEightFlushJoin();
  }

  lemma QueenEightFlushJoin()
    ensures Join(["QS", "5S", "8S", "7S", "4S"]) == "QS 5S 8S 7S 4S"
  {
  }

  lemma QueenEightFlushValid()
    ensures ValidCards(QueenEightFlushCards)
  {
  }

  lemma QueenEightFlushRankSeq()
    ensures Ranks(QueenEightFlushCards) == [10, 3, 6, 5, 2]
  {
  }

  lemma QueenEightFlushShape()
    ensures multiset(Ranks(QueenEightFlushCards)) == multiset{10, 6, 5, 3, 2}
  {
    QueenEightFlushRankSeq();
  }

  lemma QueenEightFlushSuitSeq()
    ensures Suits(QueenEightFlushCards) == [3, 3, 3, 3, 3]
  {
  }

  lemma QueenEightFlushCategory()
    ensures ReferenceCategory(QueenEightFlushCards) == Flush
    ensures !IsWheel(QueenEightFlushCards) && TieBreakOrdered(QueenEightFlushCards, [10, 6, 5, 3, 2])
  {
    QueenEightFlushValid();
    QueenEightFlushShape();
    QueenEightFlushSuitSeq();
    OneSuit(QueenEightFlushCards, 3);
    DistinctProfile(QueenEightFlushCards, 10, 6, 5, 3, 2);
  }

  /** The hand of `QS 5S 8S 7S 4S`: Flush, ranked [5, 10, 6, 5, 3, 2]. */
  const QueenEightFlush: Hand := Hand(QueenEightFlushCards, Flush, [5, 10, 6, 5, 3, 2])

  /** `Hand.from_string('QS 5S 8S 7S 4S')` is Flush. */
  lemma QueenEightFlushFromString()
    ensures FromString("QS 5S 8S 7S 4S") == Success(QueenEightFlush)
  {
    QueenEightFlushText();
    QueenEightFlushValid();
    QueenEightFlushCategory();
    HandOf("QS 5S 8S 7S 4S", QueenEightFlushCards, Flush, [5, 10, 6, 5, 3, 2]);
  }

  /** `5D 5H 5S 7C AS`: three fives, ace and seven. */
  const FivesTripsWithAceCards: seq<Card> := [Card(3, 1), Card(3, 2), Card(3, 3), Card(5, 0), Card(12, 3)]

  lemma FivesTripsWithAceText()
    ensures Join(Tokens(FivesTripsWithAceCards)) == "5D 5H 5S 7C AS"
  {
    TokensOfFive(FivesTripsWithAceCards, "5D", "5H", "5S", "7C", "AS");
    FivesTripsWithAceJoin();
  }

  lemma FivesTripsWithAceJoin()
    ensures Join(["5D", "5H", "5S", "7C", "AS"]) == "5D 5H 5S 7C AS"
  {
  }

  lemma FivesTripsWithAceValid()
    ensures ValidCards(FivesTripsWithAceCards)
  {
  }

  lemma FivesTripsWithAceRankSeq()
    ensures Ranks(FivesTripsWithAceCards) == [3, 3, 3, 5, 12]
  {
  }

  lemma FivesTripsWithAceShape()
    ensures multiset(Ranks(FivesTripsWithAceCards)) == multiset{3, 3, 3, 12, 5}
  {
    FivesTripsWithAceRankSeq();
  }

  lemma FivesTripsWithAceCategory()
    ensures ReferenceCategory(FivesTripsWithAceCards) == ThreeOfAKind
    ensures !IsWheel(FivesTripsWithAceCards) && TieBreakOrdered(FivesTripsWithAceCards, [3, 3, 3, 12, 5])
  {
    FivesTripsWithAceValid();
    FivesTripsWithAceShape();
    ThreeOfAKindProfile(FivesTripsWithAceCards, 3, 12, 5);
  }

  /** The hand of `5D 5H 5S 7C AS`: ThreeOfAKind, ranked [3, 3, 3, 3, 12, 5]. */
  const FivesTripsWithAce: Hand := Hand(FivesTripsWithAceCards, ThreeOfAKind, [3, 3, 3, 3, 12, 5])

  /** `Hand.from_string('5D 5H 5S 7C AS')` is ThreeOfAKind. */
  lemma FivesTripsWithAceFromString()
    ensures FromString("5D 5H 5S 7C AS") == Success(FivesTripsWithAce)
  {
    FivesTripsWithAceText();
    FivesTripsWithAceValid();
    FivesTripsWithAceCategory();
    HandOf("5D 5H 5S 7C AS", FivesTripsWithAceCards, ThreeOfAKind, [3, 3, 3, 3, 12, 5]);
  }

  /** `5D 5H 5S 3C 2S`: three fives, three and two. */
  const FivesTripsWithThreeCards: seq<Card> := [Card(3, 1), Card(3, 2), Card(3, 3), Card(1, 0), Card(0, 3)]

  lemma FivesTripsWithThreeText()
    ensures Join(Tokens(FivesTripsWithThreeCards)) == "5D 5H 5S 3C 2S"
  {
    TokensOfFive(FivesTripsWithThreeCards, "5D", "5H", "5S", "3C", "2S");
    FivesTripsWithThreeJoin();
  }

  lemma FivesTripsWithThreeJoin()
    ensures Join(["5D", "5H", "5S", "3C", "2S"]) == "5D 5H 5S 3C 2S"
  {
  }

  lemma FivesTripsWithThreeValid()
    ensures ValidCards(FivesTripsWithThreeCards)
  {
  }

  lemma FivesTripsWithThreeRankSeq()
    ensures Ranks(FivesTripsWithThreeCards) == [3, 3, 3, 1, 0]
  {
  }

  lemma FivesTripsWithThreeShape()
    ensures multiset(Ranks(FivesTripsWithThreeCards)) == multiset{3, 3, 3, 1, 0}
  {
    FivesTripsWithThreeRankSeq();
  }

  lemma FivesTripsWithThreeCategory()
    ensures ReferenceCategory(FivesTripsWithThreeCards) == ThreeOfAKind
    ensures !IsWheel(FivesTripsWithThreeCards) && TieBreakOrdered(FivesTripsWithThreeCards, [3, 3, 3, 1, 0])
  {
    FivesTripsWithThreeValid();
    FivesTripsWithThreeShape();
    ThreeOfAKindProfile(FivesTripsWithThreeCards, 3, 1, 0);
  }

  /** The hand of `5D 5H 5S 3C 2S`: ThreeOfAKind, ranked [3, 3, 3, 3, 1, 0]. */
  const FivesTripsWithThree: Hand := Hand(FivesTripsWithThreeCards, ThreeOfAKind, [3, 3, 3, 3, 1, 0])

  /** `Hand.from_string('5D 5H 5S 3C 2S')` is ThreeOfAKind. */
  lemma FivesTripsWithThreeFromString()
    ensures FromString("5D 5H 5S 3C 2S") == Success(FivesTripsWithThree)
  {
    FivesTripsWithThreeText();
    FivesTripsWithThreeValid();
    FivesTripsWithThreeCategory();
    HandOf("5D 5H 5S 3C 2S", FivesTripsWithThreeCards, ThreeOfAKind, [3, 3, 3, 3, 1, 0]);
  }

  /** `4D 4H 4S 5C AS`: three fours, ace and five. */
  const FoursTripsWithAceCards: seq<Card> := [Card(2, 1), Card(2, 2), Card(2, 3), Card(3, 0), Card(12, 3)]

  lemma FoursTripsWithAceText()
    ensures Join(Tokens(FoursTripsWithAceCards)) == "4D 4H 4S 5C AS"
  {
    TokensOfFive(FoursTripsWithAceCards, "4D", "4H", "4S", "5C", "AS");
    FoursTripsWithAceJoin();
  }

  lemma FoursTripsWithAceJoin()
    ensures Join(["4D", "4H", "4S", "5C", "AS"]) == "4D 4H 4S 5C AS"
  {
  }

  lemma FoursTripsWithAceValid()
    ensures ValidCards(FoursTripsWithAceCards)
  {
  }

  lemma FoursTripsWithAceRankSeq()
    ensures Ranks(FoursTripsWithAceCards) == [2, 2, 2, 3, 12]
  {
  }

  lemma FoursTripsWithAceShape()
    ensures multiset(Ranks(FoursTripsWithAceCards)) == multiset{2, 2, 2, 12, 3}
  {
    FoursTripsWithAceRankSeq();
  }

  lemma FoursTripsWithAceCategory()
    ensures ReferenceCategory(FoursTripsWithAceCards) == ThreeOfAKind
    ensures !IsWheel(FoursTripsWithAceCards) && TieBreakOrdered(FoursTripsWithAceCards, [2, 2, 2, 12, 3])
  {
    FoursTripsWithAceValid();
    FoursTripsWithAceShape();
    ThreeOfAKindProfile(FoursTripsWithAceCards, 2, 12, 3);
  }

  /** The hand of `4D 4H 4S 5C AS`: ThreeOfAKind, ranked [3, 2, 2, 2, 12, 3]. */
  const FoursTripsWithAce: Hand := Hand(FoursTripsWithAceCards, ThreeOfAKind, [3, 2, 2, 2, 12, 3])

  /** `Hand.from_string('4D 4H 4S 5C AS')` is ThreeOfAKind. */
  lemma FoursTripsWithAceFromString()
    ensures FromString("4D 4H 4S 5C AS") == Success(FoursTripsWithAce)
  {
    FoursTripsWithAceText();
    FoursTripsWithAceValid();
    FoursTripsWithAceCategory();
    HandOf("4D 4H 4S 5C AS", FoursTripsWithAceCards, ThreeOfAKind, [3, 2, 2, 2, 12, 3]);
  }

  /** `5D 5H 4S 7C 7S`: sevens and fives. */
  const SevensAndFivesCards: seq<Card> := [Card(3, 1), Card(3, 2), Card(2, 3), Card(5, 0), Card(5, 3)]

  lemma SevensAndFivesText()
    ensures Join(Tokens(SevensAndFivesCards)) == "5D 5H 4S 7C 7S"
  {
    TokensOfFive(SevensAndFivesCards, "5D", "5H", "4S", "7C", "7S");
    SevensAndFivesJoin();
  }

  lemma SevensAndFivesJoin()
    ensures Join(["5D", "5H", "4S", "7C", "7S"]) == "5D 5H 4S 7C 7S"
  {
  }

  lemma SevensAndFivesValid()
    ensures ValidCards(SevensAndFivesCards)
  {
  }

  lemma SevensAndFivesRankSeq()
    ensures Ranks(SevensAndFivesCards) == [3, 3, 2, 5, 5]
  {
  }

  lemma SevensAndFivesShape()
    ensures multiset(Ranks(SevensAndFivesCards)) == multiset{5, 5, 3, 3, 2}
  {
    SevensAndFivesRankSeq();
  }

  lemma SevensAndFivesCategory()
    ensures ReferenceCategory(SevensAndFivesCards) == TwoPair
    ensures !IsWheel(SevensAndFivesCards) && TieBreakOrdered(SevensAndFivesCards, [5, 5, 3, 3, 2])
  {
    SevensAndFivesValid();
    SevensAndFivesShape();
    TwoPairProfile(SevensAndFivesCards, 5, 3, 2);
  }

  /** The hand of `5D 5H 4S 7C 7S`: TwoPair, ranked [2, 5, 5, 3, 3, 2]. */
  const SevensAndFives: Hand := Hand(SevensAndFivesCards, TwoPair, [2, 5, 5, 3, 3, 2])

  /** `Hand.from_string('5D 5H 4S 7C 7S')` is TwoPair. */
  lemma SevensAndFivesFromString()
    ensures FromString("5D 5H 4S 7C 7S") == Success(SevensAndFives)
  {
    SevensAndFivesText();
    SevensAndFivesValid();
    SevensAndFivesCategory();
    HandOf("5D 5H 4S 7C 7S", SevensAndFivesCards, TwoPair, [2, 5, 5, 3, 3, 2]);
  }

  /** `4D 4H 3S 7C 7S`: sevens and fours. */
  const SevensAndFoursCards: seq<Card> := [Card(2, 1), Card(2, 2), Card(1, 3), Card(5, 0), Card(5, 3)]

  lemma SevensAndFoursText()
    ensures Join(Tokens(SevensAndFoursCards)) == "4D 4H 3S 7C 7S"
  {
    TokensOfFive(SevensAndFoursCards, "4D", "4H", "3S", "7C", "7S");
    SevensAndFoursJoin();
  }

  lemma SevensAndFoursJoin()
    ensures Join(["4D", "4H", "3S", "7C", "7S"]) == "4D 4H 3S 7C 7S"
  {
  }

  lemma SevensAndFoursValid()
    ensures ValidCards(SevensAndFoursCards)
  {
  }

  lemma SevensAndFoursRankSeq()
    ensures Ranks(SevensAndFoursCards) == [2, 2, 1, 5, 5]
  {
  }

  lemma SevensAndFoursShape()
    ensures multiset(Ranks(SevensAndFoursCards)) == multiset{5, 5, 2, 2, 1}
  {
    SevensAndFoursRankSeq();
  }

  lemma SevensAndFoursCategory()
    ensures ReferenceCategory(SevensAndFoursCards) == TwoPair
    ensures !IsWheel(SevensAndFoursCards) && TieBreakOrdered(SevensAndFoursCards, [5, 5, 2, 2, 1])
  {
    SevensAndFoursValid();
    SevensAndFoursShape();
    TwoPairProfile(SevensAndFoursCards, 5, 2, 1);
  }

  /** The hand of `4D 4H 3S 7C 7S`: TwoPair, ranked [2, 5, 5, 2, 2, 1]. */
  const SevensAndFours: Hand := Hand(SevensAndFoursCards, TwoPair, [2, 5, 5, 2, 2, 1])

  /** `Hand.from_string('4D 4H 3S 7C 7S')` is TwoPair. */
  lemma SevensAndFoursFromString()
    ensures FromString("4D 4H 3S 7C 7S") == Success(SevensAndFours)
  {
    SevensAndFoursText();
    SevensAndFoursValid();
    SevensAndFoursCategory();
    HandOf("4D 4H 3S 7C 7S", SevensAndFoursCards, TwoPair, [2, 5, 5, 2, 2, 1]);
  }

  /** `6D 6H 2S 3C 3S`: sixes and threes. */
  const SixesAndThreesCards: seq<Card> := [Card(4, 1), Card(4, 2), Card(0, 3), Card(1, 0), Card(1, 3)]

  lemma SixesAndThreesText()
    ensures Join(Tokens(SixesAndThreesCards)) == "6D 6H 2S 3C 3S"
  {
    TokensOfFive(SixesAndThreesCards, "6D", "6H", "2S", "3C", "3S");
    SixesAndThreesJoin();
  }

  lemma SixesAndThreesJoin()
    ensures Join(["6D", "6H", "2S", "3C", "3S"]) == "6D 6H 2S 3C 3S"
  {
  }

  lemma SixesAndThreesValid()
    ensures ValidCards(SixesAndThreesCards)
  {
  }

  lemma SixesAndThreesRankSeq()
    ensures Ranks(SixesAndThreesCards) == [4, 4, 0, 1, 1]
  {
  }

  lemma SixesAndThreesShape()
    ensures multiset(Ranks(SixesAndThreesCards)) == multiset{4, 4, 1, 1, 0}
  {
    SixesAndThreesRankSeq();
  }

  lemma SixesAndThreesCategory()
    ensures ReferenceCategory(SixesAndThreesCards) == TwoPair
    ensures !IsWheel(SixesAndThreesCards) && TieBreakOrdered(SixesAndThreesCards, [4, 4, 1, 1, 0])
  {
    SixesAndThreesValid();
    SixesAndThreesShape();
    TwoPairProfile(SixesAndThreesCards, 4, 1, 0);
  }

  /** The hand of `6D 6H 2S 3C 3S`: TwoPair, ranked [2, 4, 4, 1, 1, 0]. */
  const SixesAndThrees: Hand := Hand(SixesAndThreesCards, TwoPair, [2, 4, 4, 1, 1, 0])

  /** `Hand.from_string('6D 6H 2S 3C 3S')` is TwoPair. */
  lemma SixesAndThreesFromString()
    ensures FromString("6D 6H 2S 3C 3S") == Success(SixesAndThrees)
  {
    SixesAndThreesText();
    SixesAndThreesValid();
    SixesAndThreesCategory();
    HandOf("6D 6H 2S 3C 3S", SixesAndThreesCards, TwoPair, [2, 4, 4, 1, 1, 0]);
  }

  /** `5D 5H 4S 7C 6S`: a pair of fives, seven high. */
  const FivesWithSevenCards: seq<Card> := [Card(3, 1), Card(3, 2), Card(2, 3), Card(5, 0), Card(4, 3)]

  lemma FivesWithSevenText()
    ensures Join(Tokens(FivesWithSevenCards)) == "5D 5H 4S 7C 6S"
  {
    TokensOfFive(FivesWithSevenCards, "5D", "5H", "4S", "7C", "6S");
    FivesWithSevenJoin();
  }

  lemma FivesWithSevenJoin()
    ensures Join(["5D", "5H", "4S", "7C", "6S"]) == "5D 5H 4S 7C 6S"
  {
  }

  lemma FivesWithSevenValid()
    ensures ValidCards(FivesWithSevenCards)
  {
  }

  lemma FivesWithSevenRankSeq()
    ensures Ranks(FivesWithSevenCards) == [3, 3, 2, 5, 4]
  {
  }

  lemma FivesWithSevenShape()
    ensures multiset(Ranks(FivesWithSevenCards)) == multiset{3, 3, 5, 4, 2}
  {
    FivesWithSevenRankSeq();
  }

  lemma FivesWithSevenCategory()
    ensures ReferenceCategory(FivesWithSevenCards) == OnePair
    ensures !IsWheel(FivesWithSevenCards) && TieBreakOrdered(FivesWithSevenCards, [3, 3, 5, 4, 2])
  {
    FivesWithSevenValid();
    FivesWithSevenShape();
    OnePairProfile(FivesWithSevenCards, 3, 5, 4, 2);
  }

  /** The hand of `5D 5H 4S 7C 6S`: OnePair, ranked [1, 3, 3, 5, 4, 2]. */
  const FivesWithSeven: Hand := Hand(FivesWithSevenCards, OnePair, [1, 3, 3, 5, 4, 2])

  /** `Hand.from_string('5D 5H 4S 7C 6S')` is OnePair. */
  lemma FivesWithSevenFromString()
    ensures FromString("5D 5H 4S 7C 6S") == Success(FivesWithSeven)
  {
    FivesWithSevenText();
    FivesWithSevenValid();
    FivesWithSevenCategory();
    HandOf("5D 5H 4S 7C 6S", FivesWithSevenCards, OnePair, [1, 3, 3, 5, 4, 2]);
  }

  /** `5D 5H 3S 6C 4S`: a pair of fives, six high. */
  const FivesWithSixCards: seq<Card> := [Card(3, 1), Card(3, 2), Card(1, 3), Card(4, 0), Card(2, 3)]

  lemma FivesWithSixText()
    ensures Join(Tokens(FivesWithSixCards)) == "5D 5H 3S 6C 4S"
  {
    TokensOfFive(FivesWithSixCards, "5D", "5H", "3S", "6C", "4S");
    FivesWithSixJoin();
  }

  lemma FivesWithSixJoin()
    ensures Join(["5D", "5H", "3S", "6C", "4S"]) == "5D 5H 3S 6C 4S"
  {
  }

  lemma FivesWithSixValid()
    ensures ValidCards(FivesWithSixCards)
  {
  }

  lemma FivesWithSixRankSeq()
    ensures Ranks(FivesWithSixCards) == [3, 3, 1, 4, 2]
  {
  }

  lemma FivesWithSixShape()
    ensures multiset(Ranks(FivesWithSixCards)) == multiset{3, 3, 4, 2, 1}
  {
    FivesWithSixRankSeq();
  }

  lemma FivesWithSixCategory()
    ensures ReferenceCategory(FivesWithSixCards) == OnePair
    ensures !IsWheel(FivesWithSixCards) && TieBreakOrdered(FivesWithSixCards, [3, 3, 4, 2, 1])
  {
    FivesWithSixValid();
    FivesWithSixShape();
    OnePairProfile(FivesWithSixCards, 3, 4, 2, 1);
  }

  /** The hand of `5D 5H 3S 6C 4S`: OnePair, ranked [1, 3, 3, 4, 2, 1]. */
  const FivesWithSix: Hand := Hand(FivesWithSixCards, OnePair, [1, 3, 3, 4, 2, 1])

  /** `Hand.from_string('5D 5H 3S 6C 4S')` is OnePair. */
  lemma FivesWithSixFromString()
    ensures FromString("5D 5H 3S 6C 4S") == Success(FivesWithSix)
  {
    FivesWithSixText();
    FivesWithSixValid();
    FivesWithSixCategory();
    HandOf("5D 5H 3S 6C 4S", FivesWithSixCards, OnePair, [1, 3, 3, 4, 2, 1]);
  }

  /** `4D 4H 2S 3C AS`: a pair of fours, ace high. */
  const FoursWithAceCards: seq<Card> := [Card(2, 1), Card(2, 2), Card(0, 3), Card(1, 0), Card(12, 3)]

  lemma FoursWithAceText()
    ensures Join(Tokens(FoursWithAceCards)) == "4D 4H 2S 3C AS"
  {
    TokensOfFive(FoursWithAceCards, "4D", "4H", "2S", "3C", "AS");
    FoursWithAceJoin();
  }

  lemma FoursWithAceJoin()
    ensures Join(["4D", "4H", "2S", "3C", "AS"]) == "4D 4H 2S 3C AS"
  {
  }

  lemma FoursWithAceValid()
    ensures ValidCards(FoursWithAceCards)
  {
  }

  lemma FoursWithAceRankSeq()
    ensures Ranks(FoursWithAceCards) == [2, 2, 0, 1, 12]
  {
  }

  lemma FoursWithAceShape()
    ensures multiset(Ranks(FoursWithAceCards)) == multiset{2, 2, 12, 1, 0}
  {
    FoursWithAceRankSeq();
  }

  lemma FoursWithAceCategory()
    ensures ReferenceCategory(FoursWithAceCards) == OnePair
    ensures !IsWheel(FoursWithAceCards) && TieBreakOrdered(FoursWithAceCards, [2, 2, 12, 1, 0])
  {
    FoursWithAceValid();
    FoursWithAceShape();
    OnePairProfile(FoursWithAceCards, 2, 12, 1, 0);
  }

  /** The hand of `4D 4H 2S 3C AS`: OnePair, ranked [1, 2, 2, 12, 1, 0]. */
  const FoursWithAce: Hand := Hand(FoursWithAceCards, OnePair, [1, 2, 2, 12, 1, 0])

  /** `Hand.from_string('4D 4H 2S 3C AS')` is OnePair. */
  lemma FoursWithAceFromString()
    ensures FromString("4D 4H 2S 3C AS") == Success(FoursWithAce)
  {
    FoursWithAceText();
    FoursWithAceValid();
    FoursWithAceCategory();
    HandOf("4D 4H 2S 3C AS", FoursWithAceCards, OnePair, [1, 2, 2, 12, 1, 0]);
  }

  // ---------------------------------------------------------------------------
  // Comparisons (each sample hand is what `from_string` builds, by the lemmas above)

  /** The ten sample hands of the category test, listed from lowest to highest: each loses to the next. */
  lemma CategoryOrder()
    ensures Compare(AceHigh, PairOfJacks) == -1
    ensures Compare(PairOfJacks, JacksAndTens) == -1
    ensures Compare(JacksAndTens, ThreeFours) == -1
    ensures Compare(ThreeFours, AceToFive) == -1
    ensures Compare(AceToFive, AceKingFlush) == -1
    ensures Compare(AceKingFlush, FoursFullOfKings) == -1
    ensures Compare(FoursFullOfKings, FourFours) == -1
    ensures Compare(FourFours, SixHighStraightFlush) == -1
    ensures Compare(SixHighStraightFlush, RoyalSpades) == -1
  {
  }

  /** Straight flushes rank by their top card, the ace-to-five one lowest and the royal flush highest. */
  lemma StraightFlushOrder()
    ensures Compare(RoyalSpades, SixHighStraightFlush) == 1
    ensures Compare(SixHighStraightFlush, FiveHighStraightFlush) == 1
    ensures Compare(RoyalSpades, FiveHighStraightFlush) == 1
  {
  }

  /** Four of a kind ranks by the quads, then by the kicker. */
  lemma FourOfAKindOrder()
    ensures Compare(FivesQuadsWithAce, FivesQuadsWithTwo) == 1
    ensures Compare(FivesQuadsWithTwo, FoursQuadsWithAce) == 1
    ensures Compare(FivesQuadsWithAce, FoursQuadsWithAce) == 1
  {
  }

  /** A full house ranks by its triple, then by its pair. */
  lemma FullHouseOrder()
    ensures Compare(FivesOverFours, FivesOverThrees) == 1
    ensures Compare(FivesOverThrees, FoursOverAces) == 1
    ensures Compare(FivesOverFours, FoursOverAces) == 1
  {
  }

  /** Flushes rank by their cards from the highest down. */
  lemma FlushOrder()
    ensures Compare(KingQueenFlush, KingJackFlush) == 1
    ensures Compare(KingJackFlush, QueenEightFlush) == 1
    ensures Compare(KingQueenFlush, QueenEightFlush) == 1
  {
  }

  /** Three of a kind ranks by the triple, then by the kickers. */
  lemma ThreeOfAKindOrder()
    ensures Compare(FivesTripsWithAce, FivesTripsWithThree) == 1
    ensures Compare(FivesTripsWithThree, FoursTripsWithAce) == 1
    ensures Compare(FivesTripsWithAce, FoursTripsWithAce) == 1
  {
  }

  /** Two pair ranks by the higher pair, then the lower pair, then the kicker. */
  lemma TwoPairOrder()
    ensures Compare(SevensAndFives, SevensAndFours) == 1
    ensures Compare(SevensAndFours, SixesAndThrees) == 1
    ensures Compare(SevensAndFives, SixesAndThrees) == 1
  {
  }

  /** One pair ranks by the pair, then by the kickers from the highest down. */
  lemma OnePairOrder()
    ensures Compare(FivesWithSeven, FivesWithSix) == 1
    ensures Compare(FivesWithSix, FoursWithAce) == 1
    ensures Compare(FivesWithSeven, FoursWithAce) == 1
  {
  }

  // ---------------------------------------------------------------------------
  // Building hands from strings

  /** `4D 3D 5D 7H AD`, as parsed cards. */
  const DiamondsCards: seq<Card> := [Card(2, 1), Card(1, 1), Card(3, 1), Card(5, 2), Card(12, 1)]

  /** The tokens of the valid sample parse to the cards listed. */
  lemma DiamondsTokens()
    ensures Parse("4D") == Success(Card(2, 1)) && Parse("3D") == Success(Card(1, 1))
    ensures Parse("5D") == Success(Card(3, 1)) && Parse("7H") == Success(Card(5, 2))
    ensures Parse("AD") == Success(Card(12, 1))
  {
    ParseToString(Card(2, 1));
    ParseToString(Card(1, 1));
    ParseToString(Card(3, 1));
    ParseToString(Card(5, 2));
    ParseToString(Card(12, 1));
  }

  lemma DiamondsText()
    ensures Join(Tokens(DiamondsCards)) == "4D 3D 5D 7H AD"
  {
    TokensOfFive(DiamondsCards, "4D", "3D", "5D", "7H", "AD");
    DiamondsJoin();
  }

  lemma DiamondsJoin()
    ensures Join(["4D", "3D", "5D", "7H", "AD"]) == "4D 3D 5D 7H AD"
  {
  }

  lemma DiamondsValid()
    ensures ValidCards(DiamondsCards)
  {
  }

  /** A string of five different cards builds the hand of exactly those cards. */
  lemma FromStringValid()
    ensures FromString("4D 3D 5D 7H AD").Success?
    ensures FromString("4D 3D 5D 7H AD").value.cards == DiamondsCards
  {
    DiamondsText();
    DiamondsValid();
    FromStringOf("4D 3D 5D 7H AD", DiamondsCards);
  }

  /** Reading back the rendering of a number of cards other than five reports that number. */
  lemma WrongCount(s: string, cards: seq<Card>)
    requires Join(Tokens(cards)) == s && |cards| != 5
    ensures FromString(s) == Failure(InvalidHand(WrongCardCount(|cards|)))
  {
    FromStringOf(s, cards);
  }

  /** Reading back the rendering of five cards with a repeat reports the first repeat. */
  lemma Repeated(s: string, cards: seq<Card>, c: Card)
    requires Join(Tokens(cards)) == s && |cards| == 5 && IsFirstRepeat(cards, c)
    ensures FromString(s) == Failure(InvalidHand(DuplicateCard(c)))
  {
    FromStringOf(s, cards);
    FirstRepeatNotDistinct(cards, c);
    FirstRepeatUnique(cards, c, Create(cards).error.problem.card);
  }

  const SixCards: seq<Card> := [Card(2, 1), Card(1, 1), Card(1, 1), Card(5, 2), Card(12, 1), Card(5, 1)]

  lemma SixText()
    ensures Join(Tokens(SixCards)) == "4D 3D 3D 7H AD 7D"
  {
    var t := Tokens(SixCards);
    assert t[0] == ToString(SixCards[0]) == "4D";
    assert t[1] == ToString(SixCards[1]) == "3D";
    assert t[2] == ToString(SixCards[2]) == "3D";
    assert t[3] == ToString(SixCards[3]) == "7H";
    assert t[4] == ToString(SixCards[4]) == "AD";
    assert t[5] == ToString(SixCards[5]) == "7D";
    assert t == ["4D", "3D", "3D", "7H", "AD", "7D"];
    SixJoin();
  }

  lemma SixJoin()
    ensures Join(["4D", "3D", "3D", "7H", "AD", "7D"]) == "4D 3D 3D 7H AD 7D"
  {
  }

  /** Six cards are too many. */
  lemma FromStringTooMany()
    ensures FromString("4D 3D 3D 7H AD 7D") == Failure(InvalidHand(WrongCardCount(6)))
  {
    SixText();
    WrongCount("4D 3D 3D 7H AD 7D", SixCards);
  }

  const FourCards: seq<Card> := [Card(2, 1), Card(1, 1), Card(1, 1), Card(5, 2)]

  lemma FourText()
    ensures Join(Tokens(FourCards)) == "4D 3D 3D 7H"
  {
    var t := Tokens(FourCards);
    assert t[0] == ToString(FourCards[0]) == "4D";
    assert t[1] == ToString(FourCards[1]) == "3D";
    assert t[2] == ToString(FourCards[2]) == "3D";
    assert t[3] == ToString(FourCards[3]) == "7H";
    assert t == ["4D", "3D", "3D", "7H"];
    FourJoin();
  }

  lemma FourJoin()
    ensures Join(["4D", "3D", "3D", "7H"]) == "4D 3D 3D 7H"
  {
  }

  /** Four cards are too few. */
  lemma FromStringTooFew()
    ensures FromString("4D 3D 3D 7H") == Failure(InvalidHand(WrongCardCount(4)))
  {
    FourText();
    WrongCount("4D 3D 3D 7H", FourCards);
  }

  const AcesCards: seq<Card> := [Card(12, 1), Card(12, 2), Card(12, 3), Card(12, 0), Card(12, 1)]

  lemma AcesText()
    ensures Join(Tokens(AcesCards)) == "AD AH AS AC AD"
  {
    TokensOfFive(AcesCards, "AD", "AH", "AS", "AC", "AD");
    AcesJoin();
  }

  lemma AcesJoin()
    ensures Join(["AD", "AH", "AS", "AC", "AD"]) == "AD AH AS AC AD"
  {
  }

  lemma AcesRepeat()
    ensures IsFirstRepeat(AcesCards, Card(12, 1))
  {
    assert AcesCards[..4][0] == Card(12, 1);
    assert Distinct(AcesCards[..4]);
  }

  /** Five cards of which the last repeats the first: the ace of diamonds is reported. */
  lemma FromStringDuplicate()
    ensures FromString("AD AH AS AC AD") == Failure(InvalidHand(DuplicateCard(Card(12, 1))))
  {
    AcesText();
    AcesRepeat();
    Repeated("AD AH AS AC AD", AcesCards, Card(12, 1));
  }

  const ThreesCards: seq<Card> := [Card(2, 1), Card(1, 1), Card(1, 1), Card(5, 2), Card(12, 1)]

  lemma ThreesText()
    ensures Join(Tokens(ThreesCards)) == "4D 3D 3D 7H AD"
  {
    TokensOfFive(ThreesCards, "4D", "3D", "3D", "7H", "AD");
    ThreesJoin();
  }

  lemma ThreesJoin()
    ensures Join(["4D", "3D", "3D", "7H", "AD"]) == "4D 3D 3D 7H AD"
  {
  }

  lemma ThreesRepeat()
    ensures IsFirstRepeat(ThreesCards, Card(1, 1))
  {
    assert ThreesCards[..2][1] == Card(1, 1);
    assert Distinct(ThreesCards[..2]);
  }

  /** Only two of the five cards are the same: that card is reported. */
  lemma FromStringOnlyTwoDuplicates()
    ensures FromString("4D 3D 3D 7H AD") == Failure(InvalidHand(DuplicateCard(Card(1, 1))))
  {
    ThreesText();
    ThreesRepeat();
    Repeated("4D 3D 3D 7H AD", ThreesCards, Card(1, 1));
  }

  // ---------------------------------------------------------------------------
  // Cards and helpers

  /** `Card('4D')` has value 4 and suit diamonds. */
  lemma CardValid()
    ensures Parse("4D").Success?
    ensures CardValues[Parse("4D").value.rank] == '4' && CardSuits[Parse("4D").value.suit] == 'D'
  {
    ParseToString(Card(2, 1));
  }

  /** A lower-case suit is read as its capital: `4d` is the four of diamonds, as `4D` is. */
  lemma CardLowerCase()
    ensures Parse("4d") == Success(Card(2, 1))
    ensures Parse("4d") == Parse("4D")
  {
    assert EqualIgnoringCase("4d", "4D");
    ParseIgnoresCase("4d", "4D");
    CanonicalTokenRoundTrip("4D");
    assert ToString(Card(2, 1)) == "4D";
    ParseToString(Card(2, 1));
  }

  /** Tokens that are too long, too short, or name no suit or no value are rejected. */
  lemma CardInvalid()
    ensures Parse("Asd4") == Failure(InvalidCard("Asd4"))
    ensures Parse("a") == Failure(InvalidCard("a"))
    ensures Parse("2A") == Failure(InvalidCard("2A"))
    ensures Parse("PS") == Failure(InvalidCard("PS"))
  {
    assert |Upper("Asd4")| == 4 && |Upper("a")| == 1;
    assert Upper("2A") == "2A" && 'A' !in CardSuits;
    assert Upper("PS") == "PS" && 'P' !in CardValues;
  }

  /** `are_all_equal` holds of five ones and fails on 1, 2, 3. */
  lemma AllEqualExamples()
    ensures AreAllEqual([1, 1, 1, 1, 1])
    ensures !AreAllEqual([1, 2, 3])
  {
    var u := [1, 2, 3];
    assert u[0] != u[1];
  }
}
