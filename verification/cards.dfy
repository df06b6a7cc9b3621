/**
 * Playing cards: parsing a two-character token such as "TS" or "4d" into a card,
 * rendering it back, and the two error kinds of the evaluator.
 */
module Cards {
  import opened Results
  import opened Text

  /** The suit characters, clubs to spades; a card's suit is its index here. */
  const CardSuits: string := "CDHS"

  /** The value characters, two to ace; a card's rank is its index here. */
  const CardValues: string := "23456789TJQKA"

  /** Index of a value in `CardValues`: 0 is a two, 12 an ace. */
  type Rank = r: int | 0 <= r < 13

  /** Index of a suit in `CardSuits`. */
  type Suit = s: int | 0 <= s < 4

  /**
   * A card. The source keeps the upper-cased token and compares cards by it;
   * the token is determined by (rank, suit) and vice versa (`CardEquality`), so
   * structural equality here is the source's equality.
   */
  datatype Card = Card(rank: Rank, suit: Suit)

  /** What makes a hand invalid: the wrong number of cards, or a repeated card. */
  datatype HandProblem = WrongCardCount(count: nat) | DuplicateCard(card: Card)

  /** The two exceptions of the evaluator, with the payload their messages carry. */
  datatype Error = InvalidCard(token: string) | InvalidHand(problem: HandProblem)

  /** The position of the first occurrence of `c` in `s` (`tuple.index`). */
  function IndexOf(s: string, c: char): (i: nat)
    requires c in s
    ensures i < |s| && s[i] == c && c !in s[..i]
  {
    if s[0] == c then 0 else 1 + IndexOf(s[1..], c)
  }

  /** An upper-case token naming a card: a value character followed by a suit character. */
  predicate IsCardToken(u: string) {
    |u| == 2 && u[0] in CardValues && u[1] in CardSuits
  }

  /** `str(card)`: the canonical two-character token of a card. */
  function ToString(c: Card): (t: string)
    ensures |t| == 2
  {
    [CardValues[c.rank], CardSuits[c.suit]]
  }

  /**
   * `Card(token)`: upper-case the token, split it into value and suit, and look
   * both up. Every failure is `InvalidCard` carrying the token as given. A card
   * is produced exactly for tokens whose upper-casing is a card token, and it
   * renders back as that upper-cased token.
   */
  function Parse(token: string): (r: Result<Card, Error>)
    ensures r.Success? <==> IsCardToken(Upper(token))
    ensures r.Failure? ==> r.error == InvalidCard(token)
    ensures r.Success? ==> ToString(r.value) == Upper(token)
  {
    var u := Upper(token);
    if |u| != 2 || u[0] !in CardValues then
      Failure(InvalidCard(token))
    else if u[1] !in CardSuits then
      Failure(InvalidCard(token))
    else
      var c := Card(IndexOf(CardValues, u[0]), IndexOf(CardSuits, u[1]));
      TwoChars(u);
      Success(c)
  }

  lemma TwoChars(u: string)
    requires |u| == 2
    ensures u == [u[0], u[1]]
  {
  }

  /** Looking up the character at position `k` of a repetition-free string finds `k`. */
  lemma IndexOfAt(s: string, k: nat)
    requires k < |s|
    requires forall i, j :: 0 <= i < j < |s| ==> s[i] != s[j]
    ensures IndexOf(s, s[k]) == k
  {
  }

  lemma CardValuesDistinct()
    ensures forall i, j :: 0 <= i < j < |CardValues| ==> CardValues[i] != CardValues[j]
  {
    assert CardValues == ['2', '3', '4', '5', '6', '7', '8', '9', 'T', 'J', 'Q', 'K', 'A'];
  }

  /** The value and suit characters are upper-case already. */
  lemma CardCharsUpper()
    ensures forall i :: 0 <= i < |CardValues| ==> !('a' <= CardValues[i] <= 'z')
    ensures forall i :: 0 <= i < |CardSuits| ==> !('a' <= CardSuits[i] <= 'z')
  {
    assert CardValues == ['2', '3', '4', '5', '6', '7', '8', '9', 'T', 'J', 'Q', 'K', 'A'];
    assert CardSuits == ['C', 'D', 'H', 'S'];
  }

  /** A rendered card is already upper-case. */
  lemma ToStringUpper(c: Card)
    ensures Upper(ToString(c)) == ToString(c)
  {
    var t := ToString(c);
    CardCharsUpper();
    assert !('a' <= t[0] <= 'z') && !('a' <= t[1] <= 'z');
    TwoChars(Upper(t));
  }

  /** Rendering a card and parsing the result gives the same card back. */
  lemma ParseToString(c: Card)
    ensures Parse(ToString(c)) == Success(c)
  {
    var t := ToString(c);
    ToStringUpper(c);
    assert IndexOf(CardValues, t[0]) == c.rank by {
      CardValuesDistinct();
      IndexOfAt(CardValues, c.rank);
    }
    assert IndexOf(CardSuits, t[1]) == c.suit by {
      IndexOfAt(CardSuits, c.suit);
    }
  }

  /** Cards parsed from two tokens are equal exactly when the upper-cased tokens are. */
  lemma CardEquality(t1: string, t2: string)
    requires Parse(t1).Success? && Parse(t2).Success?
    ensures Parse(t1).value == Parse(t2).value <==> Upper(t1) == Upper(t2)
  {
    var c1, c2 := Parse(t1).value, Parse(t2).value;
    if Upper(t1) == Upper(t2) {
      ParseToString(c1);
      ParseToString(c2);
    }
  }

  /**
   * Parsing looks only at the upper-cased token: the upper-casing of a token parses
   * exactly when the token does, and to the same card.
   */
  lemma ParseUpper(t: string)
    ensures Parse(Upper(t)).Success? <==> Parse(t).Success?
    ensures Parse(t).Success? ==> Parse(Upper(t)) == Parse(t)
  {
    UpperIdempotent(t);
  }

  /**
   * Parsing is case-insensitive: two tokens that differ only in the case of
   * letters both parse or both fail, and when they parse it is to the same card.
   * A failure still names the token as given.
   */
  lemma ParseIgnoresCase(t1: string, t2: string)
    requires EqualIgnoringCase(t1, t2)
    ensures Parse(t1).Success? <==> Parse(t2).Success?
    ensures Parse(t1).Success? ==> Parse(t1) == Parse(t2)
    ensures Parse(t1).Failure? ==> Parse(t1) == Failure(InvalidCard(t1)) && Parse(t2) == Failure(InvalidCard(t2))
  {
    UpperIgnoresCase(t1, t2);
  }

  /** A canonical (upper-case) card token survives parsing and rendering unchanged. */
  lemma CanonicalTokenRoundTrip(t: string)
    requires IsCardToken(t)
    ensures Parse(t).Success? && ToString(Parse(t).value) == t
  {
    assert Upper(t) == t;
  }

  /** `card.is_ace()`: the value character is 'A', i.e. the highest rank. */
  predicate IsAce(c: Card)
    ensures IsAce(c) <==> c.rank == 12
  {
    assert CardValues == ['2', '3', '4', '5', '6', '7', '8', '9', 'T', 'J', 'Q', 'K', 'A'];
    CardValues[c.rank] == 'A'
  }
}
