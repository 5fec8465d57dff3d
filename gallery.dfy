/**
 * The touch-friendly gallery of the front-end script: tapping a card shows its overlay and
 * hides every other card's, tapping it again hides it, and a tap anywhere outside the cards
 * hides them all. A card's overlay is its `active` class, modelled as one flag per card.
 */
module Gallery {

  /** At most one card shows its overlay. */
  predicate AtMostOneActive(active: seq<bool>)
  {
    forall i, j :: 0 <= i < |active| && 0 <= j < |active| && active[i] && active[j] ==> i == j
  }

  /** The state after a tap on `card`: every other card off, the tapped card flipped. */
  function Toggled(active: seq<bool>, card: nat): (r: seq<bool>)
    requires card < |active|
    ensures |r| == |active|
    ensures AtMostOneActive(r)
    ensures r[card] == !active[card]
    ensures forall i :: 0 <= i < |r| && i != card ==> !r[i]
  {
    seq(|active|, i requires 0 <= i < |active| => if i == card then !active[card] else false)
  }

  /** Tapping the same card twice hides it and leaves every card off. */
  lemma ToggleTwiceClears(active: seq<bool>, card: nat)
    requires card < |active| && !active[card]
    ensures Toggled(Toggled(active, card), card) == seq(|active|, _ => false)
  {
  }

  class Cards {
    /** One flag per element of `querySelectorAll('.gallery-card, .gallery-card-goals')`. */
    const active: array<bool>

    constructor (count: nat)
      ensures active.Length == count && fresh(active)
      ensures forall i :: 0 <= i < count ==> !active[i]
    {
      active := new bool[count](_ => false);
    }

    /**
     * `handleCardToggle(card, allCards)`: clear the `active` class on every other card,
     * then toggle it on the tapped one.
     */
    method HandleCardToggle(card: nat)
      requires card < active.Length
      modifies active
      ensures active[..] == Toggled(old(active[..]), card)
      ensures AtMostOneActive(active[..])
    {
      for i := 0 to active.Length
        invariant forall k :: 0 <= k < i && k != card ==> !active[k]
        invariant forall k :: i <= k < active.Length || k == card ==> 0 <= k < active.Length && active[k] == old(active[k])
      {
        if i != card {
          active[i] := false;
        }
      }
      active[card] := !active[card];
    }

    /**
     * The document-level listener: when the event target is inside no gallery card, every
     * card loses its `active` class; a tap inside a card leaves the flags to the card's own handler.
     */
    method HandleDocumentTap(insideCard: bool)
      modifies active
      ensures insideCard ==> active[..] == old(active[..])
      ensures !insideCard ==> forall i :: 0 <= i < active.Length ==> !active[i]
      ensures AtMostOneActive(old(active[..])) ==> AtMostOneActive(active[..])
    {
      if !insideCard {
        for i := 0 to active.Length
          invariant forall k :: 0 <= k < i ==> !active[k]
        {
          active[i] := false;
        }
      }
    }
  }
}
