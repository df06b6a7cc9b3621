/**
 * Poker hands: building a hand from five cards or from a string of card
 * tokens, and comparing two hands by their rank vectors.
 */
module Hands {
  import opened Results
  import opened Text
  import opened Sequences
  import opened Cards
  import opened Evaluation
  import opened Classification

  /**
   * An evaluated hand: its cards, its category, and its rank vector, which is
   * the category's ordinal followed by the tie-break vector.
   */
  datatype Hand = Hand(cards: seq<Card>, category: Category, rank: seq<int>)

  /** A hand as the constructor leaves it: five different cards, evaluated. */
  ghost predicate Evaluated(h: Hand) {
    && ValidCards(h.cards)
    && h.category == Evaluate(h.cards).0
    && h.rank == [h.category.Ordinal()] + Evaluate(h.cards).1
  }

  /**
   * `Hand(cards)`: rejects a card count other than five, then the first repeated
   * card, and otherwise evaluates the cards. A hand is built exactly for five
   * different cards; its category is the reference category and its vector
   * follows the tie-break order (the wheel's ace counting low).
   */
  function Create(cards: seq<Card>): (r: Result<Hand, Error>)
    ensures r.Success? <==> |cards| == 5 && Distinct(cards)
    ensures |cards| != 5 ==> r == Failure(InvalidHand(WrongCardCount(|cards|)))
    ensures |cards| == 5 && !Distinct(cards) ==>
      && r.Failure? && r.error.InvalidHand? && r.error.problem.DuplicateCard?
      && IsFirstRepeat(cards, r.error.problem.card)
    ensures r.Success? ==> Evaluated(r.value) && r.value.cards == cards
    ensures r.Success? ==> r.value.category == ReferenceCategory(cards)
    ensures r.Success? ==> |r.value.rank| == 6 && r.value.rank[0] == r.value.category.Ordinal()
    ensures r.Success? && IsWheel(cards) ==> r.value.rank[1..] == [3, 2, 1, 0, -1]
    ensures r.Success? && !IsWheel(cards) ==> TieBreakOrdered(cards, r.value.rank[1..])
  {
    if |cards| != 5 then
      Failure(InvalidHand(WrongCardCount(|cards|)))
    else
      match FindDuplicate(cards)
      case Some(c) => Failure(InvalidHand(DuplicateCard(c)))
      case None =>
        var e := Evaluate(cards);
        EvaluateCategory(cards);
        assert IsWheel(cards) ==> e.1 == [3, 2, 1, 0, -1] by {
          if IsWheel(cards) { EvaluateWheelVector(cards); }
        }
        assert !IsWheel(cards) ==> TieBreakOrdered(cards, e.1) by {
          if !IsWheel(cards) { EvaluateTieBreak(cards); }
        }
        var h := Hand(cards, e.0, [e.0.Ordinal()] + e.1);
        assert h.rank[1..] == e.1;
        Success(h)
  }

  /**
   * The hand built from five different cards is determined by the reference
   * description alone: the reference category, and the vector the wheel fixes
   * or the tie-break order picks.
   */
  lemma CreateFromReference(cards: seq<Card>, v: seq<int>)
    requires ValidCards(cards)
    requires IsWheel(cards) ==> v == [3, 2, 1, 0, -1]
    requires !IsWheel(cards) ==> TieBreakOrdered(cards, v)
    ensures Create(cards) == Success(Hand(cards, ReferenceCategory(cards), [ReferenceCategory(cards).Ordinal()] + v))
  {
    EvaluateFromReference(cards, v);
  }

  /**
   * `map(Card, tokens)`: parses every token in order and stops at the first one
   * that is not a card, reporting it.
   */
  function ParseCards(tokens: seq<string>): (r: Result<seq<Card>, Error>)
    ensures r.Success? ==> |r.value| == |tokens| && forall i :: 0 <= i < |tokens| ==> Parse(tokens[i]) == Success(r.value[i])
    ensures r.Failure? ==> exists k :: FirstBadToken(tokens, k) && r.error == InvalidCard(tokens[k])
  {
    if |tokens| == 0 then
      Success([])
    else
      var tail := tokens[1..];
      assert forall i :: 1 <= i < |tokens| ==> tokens[i] == tail[i - 1];
      match Parse(tokens[0])
      case Failure(e) =>
        assert FirstBadToken(tokens, 0);
        Failure(e)
      case Success(c) =>
        match ParseCards(tail)
        case Failure(e) =>
          assert exists k :: FirstBadToken(tokens, k) && e == InvalidCard(tokens[k]) by {
            var k :| FirstBadToken(tail, k) && e == InvalidCard(tail[k]);
            FirstBadTokenCons(tokens, k);
          }
          Failure(e)
        case Success(rest) =>
          Success([c] + rest)
  }

  /** `tokens[k]` is not a card and every token before it is. */
  ghost predicate FirstBadToken(tokens: seq<string>, k: int) {
    && 0 <= k < |tokens|
    && Parse(tokens[k]).Failure?
    && forall i :: 0 <= i < k ==> Parse(tokens[i]).Success?
  }

  lemma FirstBadTokenCons(tokens: seq<string>, k: int)
    requires |tokens| > 0 && Parse(tokens[0]).Success? && FirstBadToken(tokens[1..], k)
    ensures FirstBadToken(tokens, k + 1) && tokens[k + 1] == tokens[1..][k]
  {
    forall i | 0 < i <= k ensures Parse(tokens[i]).Success? {
      assert tokens[i] == tokens[1..][i - 1];
    }
  }

  /**
   * `Hand.from_string`: split on whitespace, parse every token, then build the
   * hand from the parsed cards.
   */
  function FromString(s: string): (r: Result<Hand, Error>)
    ensures r.Success? ==> Evaluated(r.value)
    ensures r.Success? ==> |Split(s)| == |r.value.cards| == 5
    ensures r.Success? ==> forall i :: 0 <= i < 5 ==> Parse(Split(s)[i]) == Success(r.value.cards[i])
  {
    var tokens := Split(s);
    match ParseCards(tokens)
    case Failure(e) => Failure(e)
    case Success(cards) => Create(cards)
  }

  /**
   * Every token is parsed before the cards are counted, so the first bad token
   * is reported even when the count is also wrong; only when all tokens are
   * cards does the count, and then a repeat, decide.
   */
  lemma FromStringErrors(s: string)
    ensures forall k :: FirstBadToken(Split(s), k) ==> FromString(s) == Failure(InvalidCard(Split(s)[k]))
    ensures (forall i :: 0 <= i < |Split(s)| ==> Parse(Split(s)[i]).Success?) && |Split(s)| != 5 ==>
      FromString(s) == Failure(InvalidHand(WrongCardCount(|Split(s)|)))
  {
    var tokens := Split(s);
    var parsed := ParseCards(tokens);
    forall k | FirstBadToken(tokens, k) ensures FromString(s) == Failure(InvalidCard(tokens[k])) {
      var j :| FirstBadToken(tokens, j) && parsed.error == InvalidCard(tokens[j]);
      assert j == k;
    }
  }

  /**
   * When every token of `s` parses, `Hand.from_string` is the constructor applied
   * to the parsed cards, whatever their number or repeats: the constructor's
   * count and duplicate errors are the only ones left.
   */
  lemma FromStringOfParsed(s: string, cards: seq<Card>)
    requires |Split(s)| == |cards|
    requires forall i :: 0 <= i < |cards| ==> Parse(Split(s)[i]) == Success(cards[i])
    ensures FromString(s) == Create(cards)
  {
    var tokens := Split(s);
    var parsed := ParseCards(tokens);
    assert parsed.Success?;
    assert parsed.value == cards;
  }

  /** The canonical tokens of some cards. */
  function Tokens(cards: seq<Card>): (tokens: seq<string>)
    ensures |tokens| == |cards|
    ensures forall i :: 0 <= i < |cards| ==> tokens[i] == ToString(cards[i])
  {
    seq(|cards|, i requires 0 <= i < |cards| => ToString(cards[i]))
  }

  /** Rendering five cards as space-separated tokens and reading them back builds the same hand. */
  lemma FromStringRoundTrip(cards: seq<Card>)
    ensures FromString(Join(Tokens(cards))) == Create(cards)
  {
    var tokens := Tokens(cards);
    forall i | 0 <= i < |tokens| ensures |tokens[i]| > 0 && NoSpace(tokens[i]) {
      assert tokens[i] == [CardValues[cards[i].rank], CardSuits[cards[i].suit]];
      assert !IsSpace(CardValues[cards[i].rank]) && !IsSpace(CardSuits[cards[i].suit]);
    }
    SplitJoin(tokens);
    forall i | 0 <= i < |tokens| ensures Parse(tokens[i]) == Success(cards[i]) {
      ParseToString(cards[i]);
    }
    var parsed := ParseCards(tokens);
    assert parsed.value == cards;
  }

  /**
   * `Hand.__cmp__`: 0 for equal rank vectors, 1 when the first hand's vector is
   * lexicographically greater, -1 when it is smaller.
   */
  function Compare(a: Hand, b: Hand): (c: int)
    ensures c == 0 <==> a.rank == b.rank
    ensures c == 1 <==> LexLess(b.rank, a.rank)
    ensures c == -1 <==> LexLess(a.rank, b.rank)
  {
    LexLessIrreflexive(a.rank);
    LexLessAsymmetric(a.rank, b.rank);
    LexLessTotal(a.rank, b.rank);
    if a.rank == b.rank then 0
    else if LexLess(b.rank, a.rank) then 1
    else -1
  }

  /** Swapping the hands negates the comparison. */
  lemma CompareAntisymmetric(a: Hand, b: Hand)
    ensures Compare(a, b) == -Compare(b, a)
  {
  }

  /** Winning is transitive. */
  lemma CompareTransitive(a: Hand, b: Hand, c: Hand)
    requires Compare(a, b) == 1 && Compare(b, c) == 1
    ensures Compare(a, c) == 1
  {
    LexLessTransitive(c.rank, b.rank, a.rank);
  }

  /** The higher category always wins, whatever the cards. */
  lemma HigherCategoryWins(a: Hand, b: Hand)
    requires Evaluated(a) && Evaluated(b)
    requires a.category.Ordinal() > b.category.Ordinal()
    ensures Compare(a, b) == 1
  {
    assert b.rank[0] < a.rank[0];
  }

  /** Within one category the tie-break vectors decide, lexicographically. */
  lemma SameCategoryTieBreak(a: Hand, b: Hand)
    requires Evaluated(a) && Evaluated(b) && a.category == b.category
    ensures Compare(a, b) == 0 <==> a.rank[1..] == b.rank[1..]
    ensures Compare(a, b) == 1 <==> LexLess(b.rank[1..], a.rank[1..])
  {
    var va, vb := a.rank[1..], b.rank[1..];
    assert a.rank == [a.rank[0]] + va && b.rank == [b.rank[0]] + vb;
    assert a.rank[0] == b.rank[0];
    if a.rank != b.rank {
      assert LexLess(b.rank, a.rank) == LexLess(vb, va);
    }
  }
}
