/**
 * The training examples of net_31_31_1.py: a 25-slot "graveyard" of 0/1
 * flags, one slot per kind of card, followed by the binary code of the
 * card being judged. The draws of `random` are parameters here: `bits`
 * holds the 25 draws of `randint(0, 1)`, `suitNumber` is
 * `Suit.toInt(card.getSuit())`, `cardIndex` is `int(card)` and `code` is
 * `card.toBinary()`.
 */
module TrainingData {
  import opened Wrappers

  /** The number of graveyard slots: five values in each of five suits. */
  const Kinds := 25

  /** Every entry is a flag, 0 or 1. */
  predicate Flags(s: seq<int>)
  {
    forall i :: 0 <= i < |s| ==> s[i] == 0 || s[i] == 1
  }

  /**
   * `generateDispensableCard()` (net_31_31_1.py:10-19): the random flags,
   * except that the card's own slot says that a card like it is still
   * left; then the card's code. The slot is written with Python's list
   * assignment, so a negative `int(card) - 1` counts back from the end
   * and one past either end raises.
   */
  method GenerateDispensableCard(cardIndex: int, bits: seq<int>, code: seq<int>) returns (r: Result<seq<int>>)
    requires |bits| == Kinds && Flags(bits)
    ensures r.Err? <==> !(-Kinds <= cardIndex - 1 < Kinds)
    ensures r.Err? ==> r.error == IndexError(AssignmentOutOfRange)
    ensures r.Ok? ==>
              var slot := Slot(Kinds, cardIndex - 1).value;
              && |r.value| == Kinds + |code| && r.value[Kinds..] == code
              && Flags(r.value[..Kinds])
              && r.value[slot] == 0
              && forall i :: 0 <= i < Kinds && i != slot ==> r.value[i] == bits[i]
  {
    var graveyard := bits;
    var slot := Slot(|graveyard|, cardIndex - 1);
    if slot.None? {
      return Err(IndexError(AssignmentOutOfRange));
    }
    graveyard := graveyard[slot.value := 0];
    graveyard := graveyard + code;
    r := Ok(graveyard);
  }

  /**
   * `generateIndispensableCard()` (net_31_31_1.py:22-34): the random
   * flags, except that the slots from the first of the card's suit up to
   * the one before the card's own say that cards like them are left, and
   * the card's own slot says that every other card like it is gone; then
   * the card's code. The loop stops with an IndexError at the first slot
   * past the end, and the card's slot is written as in
   * `GenerateDispensableCard`. The loop raises only when `int(card) - 1`
   * lies past slot 25, where writing the card's slot would raise anyway, so
   * both errors happen for the same cards.
   */
  method GenerateIndispensableCard(suitNumber: int, cardIndex: int, bits: seq<int>, code: seq<int>)
    returns (r: Result<seq<int>>)
    requires 1 <= suitNumber <= 5 && |bits| == Kinds && Flags(bits)
    ensures r.Err? <==> !(-Kinds <= cardIndex - 1 < Kinds)
    ensures r.Err? ==> r.error == IndexError(AssignmentOutOfRange)
    ensures r.Ok? ==>
              var first, slot := (suitNumber - 1) * 5, Slot(Kinds, cardIndex - 1).value;
              && |r.value| == Kinds + |code| && r.value[Kinds..] == code
              && Flags(r.value[..Kinds])
              && r.value[slot] == 1
              && (forall i :: first <= i < cardIndex - 1 ==> r.value[i] == 0)
              && forall i :: 0 <= i < Kinds && i != slot && !(first <= i < cardIndex - 1) ==> r.value[i] == bits[i]
  {
    var graveyard := bits;
    var first := (suitNumber - 1) * 5;
    var i := first;
    while i < cardIndex - 1
      invariant first <= i <= Kinds && |graveyard| == Kinds
      invariant i == first || i <= cardIndex - 1
      invariant forall k :: 0 <= k < Kinds ==> graveyard[k] == if first <= k < i then 0 else bits[k]
    {
      if i >= |graveyard| {
        return Err(IndexError(AssignmentOutOfRange));
      }
      graveyard := graveyard[i := 0];
      i := i + 1;
    }
    var slot := Slot(|graveyard|, cardIndex - 1);
    if slot.None? {
      return Err(IndexError(AssignmentOutOfRange));
    }
    graveyard := graveyard[slot.value := 1];
    graveyard := graveyard + code;
    r := Ok(graveyard);
  }
}
