# pokerish in Dafny

A model of `pokerish.py`, a Python 2 five-card poker hand evaluator, together with
proofs about it. The evaluator works in three steps:

- It parses card tokens such as `TS` or `4d` into cards.
- It builds a hand from exactly five different cards.
- It evaluates the hand into one of ten categories (high card up to royal flush)
  plus a tie-break vector. Hands are ordered by comparing `[category ordinal] + vector`
  lexicographically.

Modules, one per part of the program:

| file | module | what |
|---|---|---|
| `results.dfy` | `Results` | `Option` and `Result` |
| `text.dfy` | `Text` | `str.upper`, `str.split` and the space-joined rendering they invert |
| `cards.dfy` | `Cards` | `Card`, the token parser, the two error kinds |
| `sequences.dfy` | `Sequences` | the generic helpers: `group_into_list`, `is_strict_sequence`, `are_all_equal`, `find_duplicate`, flattening and lexicographic order |
| `evaluation.dfy` | `Evaluation` | `Category`, sorting, `group_by_rank_count`, `are_sequential`, `are_all_same_suits`, `evaluate_hand` |
| `classification.dfy` | `Classification` | a reference description of poker categories and tie-break order, proved equal to the evaluator |
| `hands.dfy` | `Hands` | `Hand(cards)`, `Hand.from_string`, `Hand.__cmp__` |
| `profiles.dfy` | `Profiles` | the category and vector of a hand read off its rank profile (for example "three of one rank, two of another") |
| `examples.dfy` | `Examples` | the repository's unit tests as lemmas |

How the source is modelled:

- A card is a pair `(rank, suit)` of indices into `"23456789TJQKA"` and `"CDHS"`.
- The source compares cards by their upper-cased token. `Cards.CardEquality` proves
  that this is the same as comparing the pairs.
- Errors are `Result` values, not exceptions:
  - `InvalidCard(token)` carries the token as given;
  - `InvalidHand(WrongCardCount(n))` and `InvalidHand(DuplicateCard(c))` carry the count or the card.
- `evaluate_hand` is split in two:
  - `Evaluation.Evaluate` sorts and groups the cards;
  - `Evaluation.Classify` is the branch structure of lines 73-108.
- The branch that raises `RuntimeError` is proved unreachable. It holds only `assert false`.
- Python's `sorted` is stable. It is modelled by two stable insertion sorts on sequences:
  - cards by descending rank;
  - groups by descending size.

Two facts about the code that the model keeps:

- `from_string` parses every token before it counts them, because Python 2 `map` is eager.
  So a bad token is reported even when the count is also wrong (`Hands.FromStringErrors`).
- Python's `sorted` is stable, so cards of equal rank keep their input order
  (`Evaluation.SortByRankDescStable`). Only the order inside a group of one rank depends on it.

## Model

| member | source | states |
|---|---|---|
| Cards.IndexOf | pokerish.py:145 | `tuple.index`: the result is a position holding the character, and no earlier position holds it |
| Cards.Parse | pokerish.py:141-150 | a token parses exactly when its upper-casing is a value character followed by a suit character; a failure is `InvalidCard` with the original token; a parsed card renders as the upper-cased token |
| Cards.ParseToString | pokerish.py:141-159 | rendering a card and parsing the result gives back the same card |
| Cards.ToString | pokerish.py:158-159 | `str(card)`: the value character then the suit character; `Cards.ParseToString` and `Cards.CanonicalTokenRoundTrip` make it the inverse of `Parse` on upper-case tokens |
| Cards.ParseUpper | pokerish.py:141-150 | parsing looks only at the upper-cased token: a token and its upper-casing parse alike, to the same card |
| Cards.ParseIgnoresCase | pokerish.py:141-150 | two tokens that differ only in the case of letters both parse, to the same card, or both fail, each error naming its own token |
| Cards.ToStringUpper | pokerish.py:143-159 | a rendered card is already upper-case |
| Cards.CanonicalTokenRoundTrip | pokerish.py:143-159 | an upper-case card token parses, and the card renders as that same token |
| Cards.CardEquality | pokerish.py:161-162 | two parsed cards are equal exactly when the upper-cased tokens are equal, so string equality is pair equality |
| Cards.IsAce | pokerish.py:164-165 | a card is an ace exactly when its rank is 12, the top rank |
| Text.Upper | pokerish.py:143 | `str.upper`: same length; each lower-case letter becomes the capital at the same place in the alphabet; every other character stays; no lower-case letter is left |
| Text.UpperIgnoresCase | pokerish.py:143 | strings that differ only in the case of letters have the same upper-casing |
| Text.UpperIdempotent | pokerish.py:143 | upper-casing twice is upper-casing once |
| Text.TokenLength | pokerish.py:25 | the first token of a string is its longest whitespace-free prefix: whitespace or the end follows it |
| Text.Split | pokerish.py:25 | `str.split()` yields only non-empty tokens without whitespace; with `Text.SplitSpaces` and `Text.SplitToken` the tokens are fixed for every string |
| Text.SplitSpaces | pokerish.py:25 | a string of whitespace only splits into no tokens |
| Text.SplitToken | pokerish.py:25 | whitespace, then a token, then the end or more whitespace splits into that token followed by the tokens of the rest |
| Text.TokenLengthOfToken | pokerish.py:25 | a token followed by whitespace or by nothing is read back whole |
| Text.SplitJoin | pokerish.py:25 | splitting tokens that were joined by single spaces gives back the tokens |
| Sequences.Reverse | pokerish.py:119 | `reversed`: the item at position i is the one at position n-1-i of the input |
| Sequences.ReverseReverse | pokerish.py:119 | reversing twice gives the input back |
| Sequences.ReverseStrict | pokerish.py:118-119 | a reversed sequence is a strict sequence exactly when the sequence itself falls by one at every step |
| Sequences.FlattenAppend | pokerish.py:174 | flattening a concatenation of group lists is the concatenation of their flattenings |
| Sequences.Flatten | pokerish.py:174 | `chain.from_iterable`: as many items as the groups hold together; by `Sequences.FlattenMembers` it holds every item of every group and nothing else, and by `Sequences.FlattenAppend` it distributes over concatenation |
| Sequences.FlattenMembers | pokerish.py:174 | `chain.from_iterable` (`Sequences.Flatten`) holds every item of every group and nothing else |
| Sequences.RunLength | pokerish.py:179 | the first run of equal keys is non-empty; all its items share the first key; the next item has another key |
| Sequences.GroupIntoList | pokerish.py:177-181 | `groupby` into lists: the groups flatten back to the input; each group is non-empty and has one key; neighbouring groups have different keys |
| Sequences.IsStrictSequence | pokerish.py:184-192 | true exactly when every neighbouring pair steps up by one; this includes sequences of length 0 and 1 |
| Sequences.StrictSequenceIsConsecutive | pokerish.py:184-192 | a strict sequence is exactly one whose i-th item is the first item plus i |
| Sequences.AllEqualTo | pokerish.py:199 | `all(first == other ...)` holds exactly when every item equals `first` |
| Sequences.AreAllEqual | pokerish.py:195-201 | true exactly when all items are pairwise equal, so true on the empty sequence |
| Sequences.FindDuplicateFrom | pokerish.py:204-210 | the scan with its `seen` set of the items so far finds nothing exactly when the sequence has no repeat, and otherwise returns the first repeat |
| Sequences.FindDuplicate | pokerish.py:204-210 | returns nothing exactly when all items are different, and otherwise the first item equal to an earlier one |
| Sequences.FirstRepeatUnique | pokerish.py:204-210 | the first repeat is unique |
| Sequences.FirstRepeatNotDistinct | pokerish.py:204-210 | a sequence with a first repeat has two equal items |
| Sequences.LexLessIffFirstDifference | pokerish.py:37 | Python list `<` is lexicographic order: it holds exactly when the lists agree up to a position where the first is shorter or holds the smaller item |
| Sequences.LexLessHasFirstDifference | pokerish.py:37 | a smaller list has such a first difference |
| Sequences.FirstDifferenceIsLexLess | pokerish.py:37 | a first difference makes the list smaller |
| Sequences.LexLessIrreflexive | pokerish.py:35-40 | no rank vector is below itself |
| Sequences.LexLessAsymmetric | pokerish.py:35-40 | two rank vectors are never each below the other |
| Sequences.LexLessTransitive | pokerish.py:35-40 | list order is transitive |
| Sequences.LexLessTotal | pokerish.py:35-40 | any two rank vectors are equal or one is below the other, so `__cmp__` always takes one of its three branches |
| Sequences.LexLess | pokerish.py:37 | Python list `<`: a proper prefix is smaller and a list is not smaller than its own prefix; its full meaning is `Sequences.LexLessIffFirstDifference` |
| Evaluation.Category.Ordinal | pokerish.py:49-60 | `category.rank`: a number below 10; by `Evaluation.OrdinalIsInjective` different categories get different numbers |
| Evaluation.OrdinalIsInjective | pokerish.py:49-60 | the ten categories have different ordinals, all below 10 |
| Evaluation.Ranks | pokerish.py:126-127 | `get_ranks`: one rank per card, in order |
| Evaluation.Suits | pokerish.py:130-131 | `get_suits`: one suit per card, in order |
| Evaluation.RanksAppend | pokerish.py:126-127 | the ranks of a concatenation are the concatenated ranks |
| Evaluation.InsertByRankPermutes | pokerish.py:69 | inserting a card adds exactly that card |
| Evaluation.InsertByRankPermutesRanks | pokerish.py:69 | inserting a card adds exactly its rank to the ranks |
| Evaluation.InsertByRankBounded | pokerish.py:69 | inserting keeps every rank below a common bound |
| Evaluation.InsertByRankSorted | pokerish.py:69 | inserting into cards sorted by descending rank keeps them sorted |
| Evaluation.InsertByRankStable | pokerish.py:69 | inserting puts the card before the other cards of its rank, and keeps the order of every rank's cards |
| Evaluation.SortByRankDesc | pokerish.py:69 | `sorted(cards, key=attrgetter('rank'), reverse=True)`: same length; it permutes the cards, descends by rank and is stable by `Evaluation.SortByRankDescPermutes`, `Evaluation.SortByRankDescSorted` and `Evaluation.SortByRankDescStable` |
| Evaluation.SortByRankDescPermutes | pokerish.py:69 | `sorted(..., reverse=True)` keeps the same cards |
| Evaluation.SortByRankDescPermutesRanks | pokerish.py:69 | sorting keeps the multiset of ranks |
| Evaluation.SortByRankDescSorted | pokerish.py:69 | the sorted cards have descending ranks |
| Evaluation.SortByRankDescStable | pokerish.py:69 | the sort is stable: the cards of each rank keep their input order |
| Evaluation.InsertBySizePermutes | pokerish.py:115 | inserting a group adds exactly that group |
| Evaluation.InsertBySizeKeepsRanks | pokerish.py:115 | inserting a group adds exactly its ranks to the flattened ranks |
| Evaluation.InsertBySizeOrdered | pokerish.py:115 | inserting a group that is higher than the rest keeps the groups ordered by size, then rank |
| Evaluation.SortBySizeDescPermutes | pokerish.py:115 | `sorted(grouped, key=len, reverse=True)` keeps the same groups |
| Evaluation.SortBySizeDescKeepsRanks | pokerish.py:115 | sorting the groups keeps the multiset of flattened ranks |
| Evaluation.SortBySizeDescOrdered | pokerish.py:115 | groups whose ranks strictly descend come out by descending size, and by descending rank among equal sizes |
| Evaluation.SortBySizeDescSingletons | pokerish.py:115 | the stable sort leaves groups of one card each unchanged |
| Evaluation.SortBySizeDesc | pokerish.py:115 | `sorted(grouped, key=len, reverse=True)`: same length; it permutes the groups and orders them by `Evaluation.SortBySizeDescPermutes` and `Evaluation.SortBySizeDescOrdered` |
| Evaluation.AreSequential | pokerish.py:118-119 | `are_sequential`: true exactly when every rank is one above the rank of the next card |
| Evaluation.AreAllSameSuits | pokerish.py:122-123 | `are_all_same_suits`: true exactly when every two cards share a suit |
| Evaluation.RunsDescend | pokerish.py:114 | the runs of descending cards have strictly descending ranks, none above the first card's |
| Evaluation.RunsSingleRanked | pokerish.py:114 | every run holds cards of one rank |
| Evaluation.GroupByRankCount | pokerish.py:113-115 | the groups keep the sorted cards' ranks; each holds one rank; there is one group per run; sorted input gives groups ordered by size, then rank |
| Evaluation.FiveSuitsRepeat | pokerish.py:136 | five cards cannot have five different suits of the four |
| Evaluation.NoFiveOfOneRank | pokerish.py:10-17 | five different cards cannot all have one rank |
| Evaluation.NotAllOneRank | pokerish.py:107-108 | a valid hand always has at least two rank groups, so the `RuntimeError` branch is unreachable |
| Evaluation.Evaluate | pokerish.py:63-108 | the tie-break vector of a valid hand has five entries |
| Evaluation.Classify | pokerish.py:73-108 | the branch structure returns a five-entry vector for two to five groups |
| Classification.FirstRunShape | pokerish.py:114 | in descending cards the first run holds the top rank, and every card after it is lower |
| Classification.FirstRunCount | pokerish.py:114 | the first run holds all cards of the top rank |
| Classification.RunsUnfold | pokerish.py:177-181 | grouping is the first run followed by the grouping of the rest |
| Classification.LaterRunsBelow | pokerish.py:114 | every run after the first has a lower rank |
| Classification.RunsCountRanks | pokerish.py:114 | each run of sorted cards holds every card of its rank |
| Classification.RunsCoverRanks | pokerish.py:114 | every rank in the cards has a run |
| Classification.GroupShape | pokerish.py:69-70 | a valid hand has two to five groups, one rank each, ordered by size then rank, five cards in all |
| Classification.GroupIsRun | pokerish.py:115 | every group is one of the runs |
| Classification.GroupCounts | pokerish.py:113-115 | a group's size is how often its rank occurs in the hand |
| Classification.RunIsGroup | pokerish.py:115 | every run is one of the groups |
| Classification.GroupCover | pokerish.py:113-115 | every rank of the hand has a group |
| Classification.SizeProfile | pokerish.py:93-106 | the group sizes of a hand are 1,1,1,1,1 or 2,1,1,1 or 3,1,1 or 2,2,1 or 4,1 or 3,2 |
| Classification.RankTimesIsGroupSize | pokerish.py:96-106 | some rank occurs k times exactly when some group has size k |
| Classification.GroupRanksDistinct | pokerish.py:114 | different groups have different ranks |
| Classification.TwoPairsIsTwoGroupsOfTwo | pokerish.py:95-100 | two ranks each occur twice exactly when two groups have size two |
| Classification.TwoPairsGiveTwoGroups | pokerish.py:95-100 | two pairs give two groups of size two |
| Classification.FlattenSingletons | pokerish.py:71 | flattening one-card groups lists their cards in order |
| Classification.DistinctCount | pokerish.py:73 | in a sequence of different ranks each rank occurs at most once |
| Classification.FiveGroupsIffNoRepeat | pokerish.py:73 | five groups exactly when no rank repeats |
| Classification.FiveGroupsAreRuns | pokerish.py:113-115 | with five groups, the groups are the runs, each one card |
| Classification.FiveGroupsAreCards | pokerish.py:69-71 | with five groups, the flattened ranks are the sorted cards' ranks, strictly descending |
| Classification.RankSetMember | pokerish.py:71 | a rank is present exactly when it occurs at least once |
| Classification.RankSetOfFive | pokerish.py:71 | cards with the same rank multiset as five cards have those five ranks |
| Classification.RunSet | pokerish.py:81-88 | five strictly descending ranks are a run down from `top` exactly when they are top, top-1, ..., top-4 |
| Classification.WheelSet | pokerish.py:74 | five descending ranks form the set {A,5,4,3,2} exactly when they are `[12, 3, 2, 1, 0]` |
| Classification.SequentialFive | pokerish.py:118-119 | `are_sequential` on five cards holds exactly when each rank is one above the next |
| Classification.DistinctRanksNoRepeat | pokerish.py:73 | cards whose ranks match a repetition-free sequence repeat no rank |
| Classification.WheelHasNoRepeat | pokerish.py:73-76 | a wheel repeats no rank |
| Classification.RunHasNoRepeat | pokerish.py:81-88 | a run of five ranks repeats no rank |
| Classification.FiveSortedRanks | pokerish.py:69-71 | with five groups, the vector is the sorted ranks, strictly descending |
| Classification.SortedRankSet | pokerish.py:69 | sorting keeps the set of ranks |
| Classification.WheelFive | pokerish.py:74 | with five groups, the ranks test `== [12, 3, 2, 1, 0]` holds exactly for the ace-low straight |
| Classification.StraightFive | pokerish.py:81 | with five groups, `are_sequential` holds exactly when the ranks are five consecutive values |
| Classification.RoyalFive | pokerish.py:83 | for a sequential hand, the top card is an ace exactly when the run goes down from the ace |
| Classification.FlushIffSameSuits | pokerish.py:122-123 | `are_all_same_suits` on the sorted cards holds exactly when all cards share a suit |
| Classification.HeadPrecedesAll | pokerish.py:113-115 | the first group's rank comes no later in the tie-break than every flattened rank |
| Classification.FlattenPrecedes | pokerish.py:71 | the flattened ranks of counted groups are in tie-break order |
| Classification.GroupsCounted | pokerish.py:69-71 | the groups of a valid hand are counted and keep the hand's ranks |
| Classification.EvaluateCategory | pokerish.py:63-108 | the evaluator's category is the poker category read off rank counts, rank set and suits |
| Classification.EvaluateCategoryNoRepeat | pokerish.py:73-92 | with five groups: wheel, straight, royal, flush or high card as the reference says |
| Classification.EvaluateCategoryRepeat | pokerish.py:93-106 | with fewer groups: pair, two pair, trips, full house or quads as the reference says |
| Classification.EvaluateByGroupSizes | pokerish.py:93-106 | with repeats, the evaluator's category follows the number of groups and the first group's size |
| Classification.ReferenceByGroupSizes | pokerish.py:93-106 | with repeats, the reference category follows the same group sizes |
| Classification.RoyalFlushIff | pokerish.py:81-86 | a hand is a royal flush exactly when it is a flush of ten to ace, so never the wheel |
| Classification.RoyalIsAceHighRun | pokerish.py:83-84 | the reference calls a hand royal only if it is a flush running down from the ace |
| Classification.AceHighRunIsRoyal | pokerish.py:83-84 | a flush of ten to ace is a royal flush |
| Classification.ClassifyVector | pokerish.py:73-108 | the vector is the flattened ranks, except that the wheel gets `[3, 2, 1, 0, -1]` |
| Classification.EvaluateVector | pokerish.py:69-76 | the evaluator's vector is the flattened group ranks, except that the wheel gets `[3, 2, 1, 0, -1]` |
| Classification.EvaluateWheelVector | pokerish.py:74-76 | the wheel's vector is `[3, 2, 1, 0, -1]`, so the ace plays low |
| Classification.EvaluateTieBreak | pokerish.py:69-71 | other hands get their ranks ordered by count, then by rank |
| Classification.PrecedesSortedUnique | pokerish.py:71 | two tie-break-ordered arrangements of one multiset are equal |
| Classification.TieBreakUnique | pokerish.py:69-71 | the tie-break order fixes the vector, so equal hands in one category have one vector |
| Classification.EvaluateFromReference | pokerish.py:63-108 | the evaluator's result is the reference category with the vector the reference fixes |
| Hands.Create | pokerish.py:9-21 | a hand is built exactly from five different cards; otherwise the error is the wrong count, or else the first repeated card; the hand's rank vector is the category ordinal then the tie-break vector |
| Hands.CreateFromReference | pokerish.py:19-21 | the built hand is fixed by the reference category and the reference vector |
| Hands.ParseCards | pokerish.py:25 | `map(Card, tokens)` gives one card per token, or fails with the first token that is not a card |
| Hands.FromString | pokerish.py:23-25 | a hand from a string has five tokens that parse to its cards, and is evaluated |
| Hands.FromStringOfParsed | pokerish.py:23-25 | when every token parses, reading the string is building the hand from the parsed cards, so only the count and duplicate errors remain |
| Hands.FromStringErrors | pokerish.py:10-25 | a bad token is reported before the count; with all tokens good, a count other than five is reported |
| Hands.Tokens | pokerish.py:158-159 | one rendered token per card |
| Hands.FromStringRoundTrip | pokerish.py:23-25 | rendering cards space-separated and reading them back builds the hand of those cards, or the same error |
| Hands.Compare | pokerish.py:34-40 | `__cmp__`: 0 exactly for equal rank vectors, 1 exactly when the other's vector is lexicographically smaller, -1 exactly when it is larger |
| Hands.CompareAntisymmetric | pokerish.py:34-40 | swapping the hands negates the result |
| Hands.CompareTransitive | pokerish.py:34-40 | beating is transitive |
| Hands.HigherCategoryWins | pokerish.py:21 | the higher category wins whatever the cards |
| Hands.SameCategoryTieBreak | pokerish.py:21 | within one category the tie-break vectors decide, lexicographically |
| Profiles.RepeatIsNotWheel | pokerish.py:73-76 | a hand with a repeated rank is not the wheel |
| Profiles.PrecedesChain | pokerish.py:71 | a vector ordered between neighbours is tie-break ordered |
| Profiles.PrecedesFive | pokerish.py:71 | five ranks ordered between neighbours are tie-break ordered |
| Profiles.TieBreakFive | pokerish.py:69-71 | five ranks listed in tie-break order are the hand's vector order |
| Profiles.FourOfAKindCategory | pokerish.py:101-104 | four of one rank and a kicker is four of a kind |
| Profiles.FourOfAKindVector | pokerish.py:69-71 | four of a kind lists the quads, then the kicker |
| Profiles.FourOfAKindProfile | pokerish.py:101-104 | four of a kind: category, not the wheel, vector quads then kicker |
| Profiles.FullHouseCounts | pokerish.py:101-106 | three of one rank and two of another counts 3 and 2, nothing above 3 |
| Profiles.FullHouseCategory | pokerish.py:101-106 | three of one rank and two of another is a full house |
| Profiles.FullHouseVector | pokerish.py:69-71 | a full house lists the triple, then the pair |
| Profiles.FullHouseProfile | pokerish.py:101-106 | full house: category, not the wheel, vector triple then pair |
| Profiles.ThreeOfAKindCounts | pokerish.py:95-98 | three of one rank with two other kickers counts 3, others at most 1 |
| Profiles.ThreeOfAKindCategory | pokerish.py:95-98 | three of one rank with two single kickers is three of a kind |
| Profiles.ThreeOfAKindVector | pokerish.py:69-71 | three of a kind lists the triple, then the kickers high to low |
| Profiles.ThreeOfAKindProfile | pokerish.py:95-98 | three of a kind: category, not the wheel, vector triple then kickers |
| Profiles.TwoPairCounts | pokerish.py:95-100 | two pairs and a kicker count 2, 2 and 1, nothing above 2 |
| Profiles.TwoPairCategory | pokerish.py:95-100 | two different ranks twice each, nothing more often, is two pair |
| Profiles.TwoPairVector | pokerish.py:69-71 | two pair lists the higher pair, the lower pair, then the kicker |
| Profiles.TwoPairProfile | pokerish.py:95-100 | two pair: category, not the wheel, vector high pair, low pair, kicker |
| Profiles.OnePairCategory | pokerish.py:93-94 | one rank twice and the rest once is one pair |
| Profiles.OnePairCounts | pokerish.py:93-94 | a pair with three different kickers counts 2 and 1s |
| Profiles.OnePairVector | pokerish.py:69-71 | one pair lists the pair, then the kickers high to low |
| Profiles.OnePairProfile | pokerish.py:93-94 | one pair: category, not the wheel, vector pair then kickers |
| Profiles.DistinctCounts | pokerish.py:73 | five different ranks each occur once |
| Profiles.DistinctNoRepeat | pokerish.py:73 | five different ranks have no pair, trips, quads or two pair |
| Profiles.DistinctRankSet | pokerish.py:71 | the ranks present are the five listed |
| Profiles.DistinctVector | pokerish.py:71 | five different ranks are ordered high to low |
| Profiles.DistinctStraight | pokerish.py:73-88 | five different ranks are the wheel, a straight or a run from the ace exactly as their values say |
| Profiles.DistinctProfile | pokerish.py:73-92 | five different ranks: wheel straight (flush), straight, straight flush, royal flush, flush or high card, and the vector high to low |
| Examples.FromStringOf | pokerish.py:23-25 | reading back rendered cards builds the hand of those cards |
| Examples.HandOf | pokerish.py:9-25 | the hand read from a rendering, given its reference category and vector |
| Examples.AceHighFromString | tests.py:55-56 | `TS 2S JH KS AS` is high card |
| Examples.PairOfJacksFromString | tests.py:59-60 | `TS JS JH KS AS` is one pair |
| Examples.JacksAndTensFromString | tests.py:63-64 | `TS JS JH TH AS` is two pair |
| Examples.ThreeFoursFromString | tests.py:67-68 | `4D 4H 4S 7H 8D` is three of a kind |
| Examples.TenToAceFromString | tests.py:71-72 | `TS JH QS KS AS` is a straight |
| Examples.AceToFiveFromString | tests.py:75-76 | `5H 4S 3S 2D AS` is a straight with vector `[3, 2, 1, 0, -1]` |
| Examples.AceKingFlushFromString | tests.py:79-80 | `5S JS QS KS AS` is a flush |
| Examples.FoursFullOfKingsFromString | tests.py:83-84 | `4D 4H 4S KS KD` is a full house |
| Examples.FourFoursFromString | tests.py:87-88 | `4D 4H 4S 4C 8D` is four of a kind |
| Examples.SixHighStraightFlushFromString | tests.py:91-92 | `2S 3S 4S 5S 6S` is a straight flush |
| Examples.FiveHighStraightFlushFromString | tests.py:95-96 | `5S 4S 3S 2S AS` is a straight flush, not royal |
| Examples.RoyalSpadesFromString | tests.py:99-100 | `TS JS QS KS AS` is a royal flush |
| Examples.FivesQuadsWithAceFromString | tests.py:129 | the hand of `5D 5H 5S 5C AS` |
| Examples.FivesQuadsWithTwoFromString | tests.py:130 | the hand of `5D 5H 5S 5C 2S` |
| Examples.FoursQuadsWithAceFromString | tests.py:131 | the hand of `4D 4H 4S 4C AS` |
| Examples.FivesOverFoursFromString | tests.py:137 | the hand of `5D 5H 5S 4S 4D` |
| Examples.FivesOverThreesFromString | tests.py:138 | the hand of `5D 5H 5S 3S 3D` |
| Examples.FoursOverAcesFromString | tests.py:139 | the hand of `4D 4H 4S AC AS` |
| Examples.KingQueenFlushFromString | tests.py:145 | the hand of `KS 5S QS 7S 4S` |
| Examples.KingJackFlushFromString | tests.py:146 | the hand of `KS 5S JS 7S 4S` |
| Examples.QueenEightFlushFromString | tests.py:147 | the hand of `QS 5S 8S 7S 4S` |
| Examples.FivesTripsWithAceFromString | tests.py:161 | the hand of `5D 5H 5S 7C AS` |
| Examples.FivesTripsWithThreeFromString | tests.py:162 | the hand of `5D 5H 5S 3C 2S` |
| Examples.FoursTripsWithAceFromString | tests.py:163 | the hand of `4D 4H 4S 5C AS` |
| Examples.SevensAndFivesFromString | tests.py:169 | the hand of `5D 5H 4S 7C 7S` |
| Examples.SevensAndFoursFromString | tests.py:170 | the hand of `4D 4H 3S 7C 7S` |
| Examples.SixesAndThreesFromString | tests.py:171 | the hand of `6D 6H 2S 3C 3S` |
| Examples.FivesWithSevenFromString | tests.py:177 | the hand of `5D 5H 4S 7C 6S` |
| Examples.FivesWithSixFromString | tests.py:178 | the hand of `5D 5H 3S 6C 4S` |
| Examples.FoursWithAceFromString | tests.py:179 | the hand of `4D 4H 2S 3C AS` |
| Examples.CategoryOrder | tests.py:104-118 | the ten category sample hands, listed from lowest to highest, each lose to the next, so sorting leaves the list unchanged |
| Examples.StraightFlushOrder | tests.py:120-126 | royal flush > six-high straight flush > ace-to-five straight flush |
| Examples.FourOfAKindOrder | tests.py:128-134 | quads rank by the quads, then by the kicker |
| Examples.FullHouseOrder | tests.py:136-142 | full houses rank by the triple, then the pair |
| Examples.FlushOrder | tests.py:144-150 | flushes rank by their cards from the top down |
| Examples.ThreeOfAKindOrder | tests.py:160-166 | trips rank by the triple, then the kickers |
| Examples.TwoPairOrder | tests.py:168-174 | two pair ranks by the high pair, the low pair, then the kicker |
| Examples.OnePairOrder | tests.py:176-182 | one pair ranks by the pair, then the kickers |
| Examples.DiamondsTokens | tests.py:29-33 | `Card('4D')` ... `Card('AD')` are the listed cards |
| Examples.FromStringValid | tests.py:26-34 | `4D 3D 5D 7H AD` builds the hand of exactly those five cards |
| Examples.WrongCount | pokerish.py:10-12 | rendered cards of a count other than five report that count |
| Examples.Repeated | pokerish.py:14-17 | five rendered cards with a first repeat report that card |
| Examples.FromStringTooMany | tests.py:36-38 | six cards fail with the count 6 |
| Examples.FromStringTooFew | tests.py:40-42 | four cards fail with the count 4 |
| Examples.AcesRepeat | tests.py:46 | the ace of diamonds is the first repeat of `AD AH AS AC AD` |
| Examples.FromStringDuplicate | tests.py:44-46 | `AD AH AS AC AD` fails naming the ace of diamonds |
| Examples.ThreesRepeat | tests.py:50 | the three of diamonds is the first repeat of `4D 3D 3D 7H AD` |
| Examples.FromStringOnlyTwoDuplicates | tests.py:48-50 | `4D 3D 3D 7H AD` fails naming the three of diamonds |
| Examples.CardValid | tests.py:188-191 | `Card('4D')` has value `4` and suit `D` |
| Examples.CardLowerCase | pokerish.py:141-150 | `Card('4d')` is the four of diamonds, the same card as `Card('4D')` |
| Examples.CardInvalid | tests.py:193-207 | `Asd4`, `a`, `2A` and `PS` are rejected with `InvalidCard` carrying the token |
| Examples.AllEqualExamples | tests.py:232-237 | `are_all_equal` holds on five ones and fails on 1, 2, 3 |

## Left out

- `Card.__repr__`, `Card.__str__` beyond the token itself, `Hand.__repr__`, `Hand.__str__` and `Category.name`: these are renderings for diagnostics. `Category.Name` holds the labels but nothing is proved about them.
- `Card.__hash__`: card equality is structural equality of `(rank, suit)`, and the hash only has to agree with it.
- Exception message texts: an error carries its token, count or card instead.
- `RuntimeError` at pokerish.py:108: proved unreachable (`Evaluation.NotAllOneRank`), so there is no error value for it.
- Iterator laziness (`chain.from_iterable`, `groupby`, `iter`/`next` and `StopIteration`): these are modelled as eager functions on sequences with the same results.
- Text.Split: splits on the six ASCII whitespace characters only. This is Python 2 `str.split()` on byte strings; Unicode whitespace is not modelled.
- Text.Upper: upper-casing is modelled for ASCII letters only, which is what Python 2 `str.upper` does on byte strings in the C locale.
- Evaluation.Evaluate: its own contract gives only the vector's length. What it computes is stated by `Classification.EvaluateCategory`, `Classification.EvaluateVector`, `Classification.EvaluateWheelVector` and `Classification.EvaluateTieBreak`.
- Evaluation.Classify: its own contract gives only the vector's length. Its branches are stated by `Classification.ClassifyVector`, and through `Evaluate` by the category lemmas.
- Hands.ParseCards: the contract does not say in so many words that parsing succeeds exactly when every token is a card. It follows from the two clauses given, since a failure names a bad token.
- Examples.FromStringValid: the test compares two hands with `==`, which in Python 2 goes through `__cmp__`. The lemma states the stronger fact that both hands hold the same cards.
- Examples.CategoryOrder: `sorted(...)` leaving the list unchanged is stated as each hand losing to the next. The sort itself is not modelled.
- `test_straight` (tests.py:152-158) uses the same three hands as `test_straight_flush`, so `Examples.StraightFlushOrder` covers it.
- The `is_counting_down` tests (tests.py:212-229): `is_counting_down` is not defined in pokerish.py, and those tests describe counting down, which `is_strict_sequence` does not do.
