// Card value objects, the hand-category enum, and the integer card code the
// evaluator and the simulator work on.

module Cards {

  datatype Option<T> = None | Some(value: T)

  /** Card ranks. The enum's source file is not part of this model; its constant
      names and values (2..14, Ace high) are the ones the card code relies on. */
  datatype Rank = Two | Three | Four | Five | Six | Seven | Eight | Nine | Ten
                | Jack | Queen | King | Ace
  {
    /** `Rank.getValue()`: 2 for a deuce up to 14 for an ace. */
    function Value(): (v: int)
      ensures 2 <= v <= 14
    {
      match this
      case Two => 2    case Three => 3  case Four => 4   case Five => 5
      case Six => 6    case Seven => 7  case Eight => 8  case Nine => 9
      case Ten => 10   case Jack => 11  case Queen => 12 case King => 13
      case Ace => 14
    }

    /** `Rank.name()`: the enum constant's name. */
    function Name(): (s: string)
      ensures |s| >= 3
    {
      match this
      case Two => "TWO"     case Three => "THREE" case Four => "FOUR"
      case Five => "FIVE"   case Six => "SIX"     case Seven => "SEVEN"
      case Eight => "EIGHT" case Nine => "NINE"   case Ten => "TEN"
      case Jack => "JACK"   case Queen => "QUEEN" case King => "KING"
      case Ace => "ACE"
    }
  }

  /** The rank whose value is `v`, the inverse of `Rank.Value`. */
  function RankOf(v: int): (r: Option<Rank>)
    ensures r.Some? <==> 2 <= v <= 14
    ensures r.Some? ==> r.value.Value() == v
  {
    if v == 2 then Some(Two) else if v == 3 then Some(Three)
    else if v == 4 then Some(Four) else if v == 5 then Some(Five)
    else if v == 6 then Some(Six) else if v == 7 then Some(Seven)
    else if v == 8 then Some(Eight) else if v == 9 then Some(Nine)
    else if v == 10 then Some(Ten) else if v == 11 then Some(Jack)
    else if v == 12 then Some(Queen) else if v == 13 then Some(King)
    else if v == 14 then Some(Ace) else None
  }

  /** Suits. Only their ordinals 0..3 enter the card code; the declaration
      order of the enum (not part of this model) is assumed to be this one. */
  datatype Suit = Hearts | Diamonds | Clubs | Spades
  {
    /** `Suit.ordinal()`. */
    function Ordinal(): (o: int)
      ensures 0 <= o < 4
    {
      match this
      case Hearts => 0 case Diamonds => 1 case Clubs => 2 case Spades => 3
    }

    /** `Suit.name()`. */
    function Name(): (s: string)
      ensures |s| >= 5
    {
      match this
      case Hearts => "HEARTS" case Diamonds => "DIAMONDS"
      case Clubs => "CLUBS"   case Spades => "SPADES"
    }
  }

  function SuitOf(o: int): (s: Option<Suit>)
    ensures s.Some? <==> 0 <= o < 4
    ensures s.Some? ==> s.value.Ordinal() == o
  {
    if o == 0 then Some(Hearts) else if o == 1 then Some(Diamonds)
    else if o == 2 then Some(Clubs) else if o == 3 then Some(Spades) else None
  }

  /** `Card`: an immutable (rank, suit) pair. Its getters are the destructors. */
  datatype Card = Card(rank: Rank, suit: Suit)

  /** `Card.compareTo`: `Integer.compare` on the rank values; suits are ignored. */
  function CompareTo(a: Card, b: Card): (r: int)
    ensures r == -1 || r == 0 || r == 1
    ensures r == 0 <==> a.rank.Value() == b.rank.Value()
    ensures r < 0 <==> a.rank.Value() < b.rank.Value()
    ensures r > 0 <==> a.rank.Value() > b.rank.Value()
  {
    var x, y := a.rank.Value(), b.rank.Value();
    if x < y then -1 else if x == y then 0 else 1
  }

  /** Equal ranks compare as equal whatever the suits. */
  lemma CompareIgnoresSuit(r: Rank, s1: Suit, s2: Suit)
    ensures CompareTo(Card(r, s1), Card(r, s2)) == 0
  {
  }

  lemma CompareAntisymmetric(a: Card, b: Card)
    ensures CompareTo(a, b) == -CompareTo(b, a)
  {
  }

  lemma CompareTransitive(a: Card, b: Card, c: Card)
    ensures CompareTo(a, b) < 0 && CompareTo(b, c) < 0 ==> CompareTo(a, c) < 0
    ensures CompareTo(a, b) <= 0 && CompareTo(b, c) <= 0 ==> CompareTo(a, c) <= 0
  {
  }

  /** `Card.toString`: first letter of the rank name, then of the suit name. */
  function ToString(c: Card): (s: string)
    ensures |s| == 2
    ensures s[0] == c.rank.Name()[0] && s[1] == c.suit.Name()[0]
  {
    [c.rank.Name()[0], c.suit.Name()[0]]
  }

  /** The suit letter identifies the suit ... */
  lemma ToStringKeepsSuit(a: Card, b: Card)
    ensures ToString(a)[1] == ToString(b)[1] <==> a.suit == b.suit
  {
  }

  /** ... but the rank letter does not identify the rank: TWO, THREE and TEN
      all print as 'T'. */
  lemma ToStringConflatesRanks()
    ensures ToString(Card(Two, Hearts)) == ToString(Card(Three, Hearts))
    ensures ToString(Card(Three, Hearts)) == ToString(Card(Ten, Hearts))
  {
  }

  /** The canonical code of a card, as `toIntArray` computes it:
      suit ordinal * 13 + (rank value - 2). */
  function Code(c: Card): (k: int)
    ensures 0 <= k < 52
    ensures k % 13 == c.rank.Value() - 2
    ensures k / 13 == c.suit.Ordinal()
  {
    c.suit.Ordinal() * 13 + (c.rank.Value() - 2)
  }

  /** The card with code `k`: the inverse of `Code`. */
  function CardOf(k: int): (c: Option<Card>)
    ensures c.Some? <==> 0 <= k < 52
  {
    if 0 <= k < 52 then
      var r := RankOf(k % 13 + 2);
      var s := SuitOf(k / 13);
      Some(Card(r.value, s.value))
    else None
  }

  lemma {:induction false} CodeRoundTrip(c: Card, k: int)
    ensures CardOf(Code(c)) == Some(c)
    ensures 0 <= k < 52 ==> Code(CardOf(k).value) == k
  {
    var r := RankOf(c.rank.Value());
    assert r.value.Value() == c.rank.Value();
    assert r.value == c.rank;
    var s := SuitOf(c.suit.Ordinal());
    assert s.value == c.suit;
  }

  /** Distinct cards have distinct codes. */
  lemma CodeInjective(a: Card, b: Card)
    ensures Code(a) == Code(b) ==> a == b
  {
    if Code(a) == Code(b) {
      assert a.rank.Value() == b.rank.Value();
      assert a.suit.Ordinal() == b.suit.Ordinal();
    }
  }

  /** `HandCategory`: the nine hand categories. */
  datatype HandCategory = HighCard | OnePair | TwoPair | ThreeOfAKind | Straight
                        | Flush | FullHouse | FourOfAKind | StraightFlush
  {
    /** `getScore()`: the constructor argument, 1 for HIGH_CARD up to 9. */
    function Score(): (n: int)
      ensures 1 <= n <= 9
    {
      match this
      case HighCard => 1 case OnePair => 2 case TwoPair => 3
      case ThreeOfAKind => 4 case Straight => 5 case Flush => 6
      case FullHouse => 7 case FourOfAKind => 8 case StraightFlush => 9
    }
  }

  /** The categories in declaration order, weakest first. */
  const Categories: seq<HandCategory> :=
    [HighCard, OnePair, TwoPair, ThreeOfAKind, Straight, Flush, FullHouse,
     FourOfAKind, StraightFlush]

  /** The category whose score is `n`: the inverse of `Score`. */
  function CategoryOf(n: int): (c: Option<HandCategory>)
    ensures c.Some? <==> 1 <= n <= 9
    ensures c.Some? ==> c.value.Score() == n
  {
    if 1 <= n <= 9 then Some(Categories[n - 1]) else None
  }

  /** Scores follow the declaration order and are 1..9, so they are distinct
      and strictly increasing with hand strength. */
  lemma CategoryScoresOrdered()
    ensures |Categories| == 9
    ensures forall i :: 0 <= i < 9 ==> Categories[i].Score() == i + 1
    ensures forall c: HandCategory :: c in Categories
    ensures forall c: HandCategory, d: HandCategory :: c.Score() == d.Score() ==> c == d
  {
    forall c: HandCategory ensures c in Categories {
      assert Categories[c.Score() - 1] == c;
    }
  }

  lemma {:induction false} CategoryRoundTrip(c: HandCategory)
    ensures CategoryOf(c.Score()) == Some(c)
  {
    CategoryScoresOrdered();
  }
}
