/**
 * The Hanabi deck of deck.py: a list of cards built suit by suit, drawn
 * from its end, shuffled and sorted in place.
 */
module Deck {
  import opened Wrappers

  /** The five colours, in the order the deck is built (deck.py:17). */
  datatype Suit = White | Red | Blue | Green | Yellow

  /** A card: its suit and its value. */
  datatype Card = Card(suit: Suit, value: int)

  const Suits: seq<Suit> := [White, Red, Blue, Green, Yellow]

  /** Where a suit stands in `Suits`. */
  function SuitIndex(s: Suit): (i: nat)
    ensures i < |Suits| && Suits[i] == s
  {
    match s
    case White => 0
    case Red => 1
    case Blue => 2
    case Green => 3
    case Yellow => 4
  }

  /** How many cards of each value a suit holds: three 1s, two each of 2, 3 and 4, one 5. */
  function Copies(value: int): (n: nat)
    ensures n <= 3 && (n > 0 <==> 1 <= value <= 5)
  {
    if value == 1 then 3
    else if 2 <= value <= 4 then 2
    else if value == 5 then 1
    else 0
  }

  /** `n` copies of `card`. */
  function Repeat(card: Card, n: nat): (cards: seq<Card>)
    ensures |cards| == n && forall k :: 0 <= k < n ==> cards[k] == card
  {
    seq(n, _ => card)
  }

  /** The cards the constructor appends for one suit, in the order it appends them (deck.py:21-26). */
  function SuitCards(s: Suit): (cards: seq<Card>)
    ensures |cards| == 10 && forall k :: 0 <= k < 10 ==> cards[k].suit == s
  {
    Repeat(Card(s, 1), 3) + Repeat(Card(s, 2), 2) + Repeat(Card(s, 3), 2) + Repeat(Card(s, 4), 2) + [Card(s, 5)]
  }

  /** The cards of every suit of `suits`, suit after suit. */
  function Build(suits: seq<Suit>): (cards: seq<Card>)
    ensures |cards| == 10 * |suits|
  {
    if suits == [] then [] else Build(suits[..|suits| - 1]) + SuitCards(suits[|suits| - 1])
  }

  /** The deck a new `Deck` holds. */
  function StandardDeck(): (cards: seq<Card>)
    ensures |cards| == 50
  {
    Build(Suits)
  }

  /** `n` copies of a card hold that card `n` times and no other card. */
  lemma {:induction false} RepeatCount(card: Card, n: nat, c: Card)
    ensures multiset(Repeat(card, n))[c] == if c == card then n else 0
  {
    if n > 0 {
      RepeatCount(card, n - 1, c);
      assert Repeat(card, n) == Repeat(card, n - 1) + [card];
    }
  }

  /** A suit's own cards come in the numbers `Copies` says; no card of another suit is among them. */
  lemma SuitCardsCount(s: Suit, c: Card)
    ensures multiset(SuitCards(s))[c] == if c.suit == s then Copies(c.value) else 0
  {
    RepeatCount(Card(s, 1), 3, c);
    RepeatCount(Card(s, 2), 2, c);
    RepeatCount(Card(s, 3), 2, c);
    RepeatCount(Card(s, 4), 2, c);
  }

  /** Listing distinct suits gives each of them its copies of every card, and no card of another suit. */
  lemma {:induction false} BuildCount(suits: seq<Suit>, c: Card)
    requires forall i, j :: 0 <= i < j < |suits| ==> suits[i] != suits[j]
    ensures multiset(Build(suits))[c] == if c.suit in suits then Copies(c.value) else 0
  {
    if suits != [] {
      var front, last := suits[..|suits| - 1], suits[|suits| - 1];
      assert suits == front + [last];
      assert multiset(Build(suits)) == multiset(Build(front)) + multiset(SuitCards(last));
      BuildCount(front, c);
      SuitCardsCount(last, c);
      assert last !in front;
    }
  }

  /**
   * A new deck holds 50 cards: for each of the five suits, three 1s, two
   * 2s, two 3s, two 4s and one 5 (deck.py:17-26).
   */
  lemma StandardDeckComposition()
    ensures |StandardDeck()| == 50
    ensures forall s, v :: multiset(StandardDeck())[Card(s, v)] == Copies(v)
  {
    assert forall i, j :: 0 <= i < j < |Suits| ==> Suits[i] != Suits[j];
    forall s, v ensures multiset(StandardDeck())[Card(s, v)] == Copies(v) {
      BuildCount(Suits, Card(s, v));
      assert s == Suits[SuitIndex(s)];
    }
  }

  /** The choices of `random.shuffle`, one per position: at position `i` it picks an index from 0 to `i`. */
  type Picks = p: seq<nat> | forall i :: 0 <= i < |p| ==> p[i] <= i

  /** `cards` with the items at `i` and `j` exchanged. */
  function Swap(cards: seq<Card>, i: nat, j: nat): (swapped: seq<Card>)
    requires i < |cards| && j < |cards|
    ensures |swapped| == |cards| && multiset(swapped) == multiset(cards)
  {
    cards[i := cards[j]][j := cards[i]]
  }

  /**
   * `cards` after the passes of `random.shuffle` for the positions from
   * `|cards| - 1` down to `i`: each exchanges its item with the one at the
   * index picked for it.
   */
  function ShuffledFrom(cards: seq<Card>, picks: Picks, i: nat): (shuffled: seq<Card>)
    requires i <= |cards| == |picks|
    ensures |shuffled| == |cards|
    decreases |cards| - i
  {
    if i == |cards| then cards else Swap(ShuffledFrom(cards, picks, i + 1), i, picks[i])
  }

  /** `cards` after `random.shuffle` (deck.py:28-29): the passes for the positions down to 1. */
  function Shuffled(cards: seq<Card>, picks: Picks): (shuffled: seq<Card>)
    requires |picks| == |cards|
    ensures |shuffled| == |cards|
  {
    ShuffledFrom(cards, picks, if cards == [] then 0 else 1)
  }

  /** Every pass only exchanges two cards, so the passes from any position on keep the same cards. */
  lemma {:induction false} ShuffledFromPermutes(cards: seq<Card>, picks: Picks, i: nat)
    requires i <= |cards| == |picks|
    ensures multiset(ShuffledFrom(cards, picks, i)) == multiset(cards)
    decreases |cards| - i
  {
    if i < |cards| {
      var rest := ShuffledFrom(cards, picks, i + 1);
      ShuffledFromPermutes(cards, picks, i + 1);
      assert ShuffledFrom(cards, picks, i) == Swap(rest, i, picks[i]);
      assert multiset(Swap(rest, i, picks[i])) == multiset(rest);
    }
  }

  /** A shuffle keeps the same cards, only reordered. */
  lemma ShuffledPermutes(cards: seq<Card>, picks: Picks)
    requires |picks| == |cards|
    ensures |Shuffled(cards, picks)| == |cards|
    ensures multiset(Shuffled(cards, picks)) == multiset(cards)
  {
    ShuffledFromPermutes(cards, picks, if cards == [] then 0 else 1);
  }

  /** The pass at position 0 exchanges the first item with itself, so stopping at 1 loses nothing. */
  lemma ShuffledFromZero(cards: seq<Card>, picks: Picks)
    requires cards != [] && |picks| == |cards|
    ensures ShuffledFrom(cards, picks, 0) == Shuffled(cards, picks)
  {
    var rest := ShuffledFrom(cards, picks, 1);
    assert Swap(rest, 0, picks[0]) == rest;
  }

  /** The cards are in non-decreasing order of `rank`. */
  predicate SortedBy(cards: seq<Card>, rank: Card -> int)
  {
    forall a, b :: 0 <= a < b < |cards| ==> rank(cards[a]) <= rank(cards[b])
  }

  /** `cards[key]` (deck.py:51-52): a negative key counts back from the end. */
  function Index(cards: seq<Card>, key: int): (r: Result<Card>)
    ensures r.Ok? <==> -|cards| <= key < |cards|
    ensures r.Err? ==> r.error == IndexError(OutOfRange)
    ensures r.Ok? ==> r.value in cards
  {
    match Slot(|cards|, key)
    case Some(slot) => Ok(cards[slot])
    case None => Err(IndexError(OutOfRange))
  }

  /** A key and the same key counted back from the end denote the same card. */
  lemma IndexFromEnd(cards: seq<Card>, key: nat)
    requires key < |cards|
    ensures Index(cards, key) == Index(cards, key - |cards|) == Ok(cards[key])
  {
  }

  /** The deck of one game, held as a list that its methods change in place. */
  class Deck {
    var deck: seq<Card>

    /** `Deck()` (deck.py:15-26): for each suit in order, its three 1s, two 2s, 3s and 4s, and its 5. */
    constructor ()
      ensures deck == StandardDeck()
    {
      var cards := [];
      for k := 0 to |Suits|
        invariant cards == Build(Suits[..k])
      {
        var s := Suits[k];
        ghost var built := cards;
        for i := 0 to 3
          invariant cards == built + SuitCards(s)[..i]
        {
          assert SuitCards(s)[..i + 1] == SuitCards(s)[..i] + [Card(s, 1)];
          cards := cards + [Card(s, 1)];
        }
        for i := 2 to 5
          invariant cards == built + SuitCards(s)[..2 * i - 1]
        {
          for j := 0 to 2
            invariant cards == built + SuitCards(s)[..2 * i - 1 + j]
          {
            assert SuitCards(s)[..2 * i + j] == SuitCards(s)[..2 * i - 1 + j] + [Card(s, i)];
            cards := cards + [Card(s, i)];
          }
        }
        assert SuitCards(s) == SuitCards(s)[..9] + [Card(s, 5)];
        cards := cards + [Card(s, 5)];
        assert Suits[..k + 1][..k] == Suits[..k];
      }
      assert Suits[..|Suits|] == Suits;
      deck := cards;
    }

    /** `empty()` (deck.py:42-43): no card is left. */
    function Empty(): (empty: bool)
      reads this
      ensures empty <==> deck == []
    {
      |deck| <= 0
    }

    /** `cardsLeft()` (deck.py:45-46): the number of cards left, zero exactly when the deck is empty. */
    function CardsLeft(): (n: nat)
      reads this
      ensures n == |deck| && (n == 0 <==> Empty())
    {
      |deck|
    }

    /** `len(deck)` (deck.py:48-49): the same count as `cardsLeft()`. */
    function Length(): (n: nat)
      reads this
      ensures n == CardsLeft()
    {
      |deck|
    }

    /** `deck[key]` (deck.py:51-52), which leaves the deck as it is. */
    function GetItem(key: int): (r: Result<Card>)
      reads this
      ensures r.Ok? <==> -(CardsLeft() as int) <= key < CardsLeft()
      ensures r.Ok? ==> r.value in deck
    {
      Index(deck, key)
    }

    /**
     * `draw()` (deck.py:34-36): on a deck with cards, removes and returns
     * its last card, the one `deck[-1]` denotes; on an empty deck, returns
     * None and changes nothing.
     */
    method Draw() returns (card: Option<Card>)
      modifies this
      ensures card.None? <==> old(Empty())
      ensures card.None? ==> deck == old(deck)
      ensures card.Some? ==> old(deck) == deck + [card.value] && old(GetItem(-1)) == Ok(card.value)
      ensures CardsLeft() == if old(Empty()) then 0 else old(CardsLeft()) - 1
    {
      if !Empty() {
        card := Some(deck[|deck| - 1]);
        deck := deck[..|deck| - 1];
      } else {
        card := None;
      }
    }

    /**
     * `shuffle()` (deck.py:28-29): `random.shuffle` of the list, with the
     * index it draws at each position given by `picks`.
     */
    method Shuffle(picks: Picks)
      requires |picks| == |deck|
      modifies this
      ensures deck == Shuffled(old(deck), picks)
      ensures multiset(deck) == multiset(old(deck))
    {
      ghost var original := deck;
      var cards := deck;
      var i := |cards| - 1;
      while i >= 1
        invariant -1 <= i < |original| && (original != [] ==> 0 <= i)
        invariant cards == ShuffledFrom(original, picks, i + 1)
      {
        cards := Swap(cards, i, picks[i]);
        i := i - 1;
      }
      deck := cards;
      ShuffledPermutes(original, picks);
    }

    /**
     * `sort()` (deck.py:31-32): the cards put in order of `rank`, which
     * stands for the ordering of cards; the deck keeps the same cards.
     */
    method Sort(rank: Card -> int)
      modifies this
      ensures SortedBy(deck, rank)
      ensures multiset(deck) == multiset(old(deck))
    {
      ghost var original := deck;
      var cards := deck;
      for i := 0 to |cards|
        invariant |cards| == |original| && multiset(cards) == multiset(original)
        invariant SortedBy(cards[..i], rank)
      {
        var card := cards[i];
        var pos := i;
        while pos > 0 && rank(cards[pos - 1]) > rank(card)
          invariant 0 <= pos <= i
          invariant forall k :: pos <= k < i ==> rank(cards[k]) > rank(card)
        {
          pos := pos - 1;
        }
        InsertSorted(cards, i, pos, rank);
        cards := Insert(cards, i, pos);
      }
      assert cards[..|cards|] == cards;
      deck := cards;
    }
  }

  /** The item at `i` moved to `pos`, and the items from `pos` to `i - 1` one place right. */
  function Insert(cards: seq<Card>, i: nat, pos: nat): (moved: seq<Card>)
    requires pos <= i < |cards|
    ensures |moved| == |cards|
    ensures forall k :: 0 <= k < |cards| ==>
              moved[k] == if k < pos || i < k then cards[k] else if k == pos then cards[i] else cards[k - 1]
    ensures multiset(moved) == multiset(cards)
  {
    assert cards == cards[..pos] + cards[pos..i] + [cards[i]] + cards[i + 1..];
    cards[..pos] + [cards[i]] + cards[pos..i] + cards[i + 1..]
  }

  /**
   * Moving the item at `i` to the place after the last of the sorted
   * `cards[..i]` that it does not rank below sorts `cards[..i + 1]`.
   */
  lemma InsertSorted(cards: seq<Card>, i: nat, pos: nat, rank: Card -> int)
    requires pos <= i < |cards|
    requires SortedBy(cards[..i], rank)
    requires pos > 0 ==> rank(cards[pos - 1]) <= rank(cards[i])
    requires forall k :: pos <= k < i ==> rank(cards[k]) > rank(cards[i])
    ensures SortedBy(Insert(cards, i, pos)[..i + 1], rank)
  {
    var moved := Insert(cards, i, pos);
    forall a, b | 0 <= a < b <= i
      ensures rank(moved[a]) <= rank(moved[b])
    {
      assert forall k :: 0 <= k < i ==> cards[..i][k] == cards[k];
      if b == pos {
        assert a < pos && rank(cards[a]) <= rank(cards[pos - 1]);
      }
    }
  }
}
