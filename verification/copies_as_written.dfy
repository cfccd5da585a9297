/**
 * The duplicated blackjack code as it is written: the static Utils class of
 * games/blackjack/utils.py and the two view copies. Utils's static methods
 * name the class attributes VALUES, RANKS and SUITS without the class
 * prefix, and use `random` without importing it, so each name fails to
 * resolve at the moment the method body first evaluates it; the view copies
 * call names their files never define or import. The corrected behaviour is
 * that of modules Cards and Blackjack.
 */
module CopiesAsWritten {
  import opened Wrappers
  import opened Cards

  /** A Python lookup failure, carrying the unresolved name: a global name
      (NameError) or an attribute of an object (AttributeError). */
  datatype PyError = NameError(name: string) | AttributeError(name: string)

  /** Utils.hand_value as written. The generator over the hand evaluates
      VALUES only once it has a card, so the empty hand scores 0 and every
      other hand fails on that name. */
  function HandValueAsWritten(hand: Hand): (r: Result<int, PyError>)
    ensures r.Success? <==> hand == []
    ensures r.Success? ==> r.value == HandValue(hand)
    ensures r.Failure? ==> r.error == NameError("VALUES")
  {
    if hand == [] then Success(0) else Failure(NameError("VALUES"))
  }

  /** Utils.draw_card as written: `random` is looked up before anything
      else, so every call fails. */
  function DrawCardAsWritten(): (r: Result<Card, PyError>)
    ensures r.Failure? && r.error.name == "random"
  {
    Failure(NameError("random"))
  }

  /** The discrepancy on the smallest input: a one-card hand fails as
      written, while the corrected hand value of a single card is its table
      value (an ace alone counts 11). */
  lemma {:induction false} HandValueAsWrittenFailsOnOneCard(c: Card)
    ensures HandValueAsWritten([c]).Failure?
    ensures HandValue([c]) == Value(c.rank)
    ensures c.rank == Ace ==> HandValue([c]) == 11
  {
    assert [c][..0] == [];
    HandValueBounds([c]);
  }

  /** The view copy in cogs/games/blackjack/utils.py deals through
      Utils.draw_card from its constructor, but that file never imports
      Utils: constructing the view fails on that name after the interaction,
      the ledger and the owner are stored, before either hand is dealt. */
  function CopyViewDealAsWritten(): (r: Result<(), PyError>)
    ensures r.Failure? && r.error.name == "Utils"
  {
    Failure(NameError("Utils"))
  }

  /** The view copy in games/blackjack/views/blackjack_view.py deals with a
      bare draw_card that its file neither defines nor imports: constructing
      the view fails on that name at the first card of the deal, so no hand
      is dealt. */
  function ViewDealAsWritten(): (r: Result<(), PyError>)
    ensures r.Failure? && r.error == NameError("draw_card")
  {
    Failure(NameError("draw_card"))
  }

  /** play_again of that same copy calls a reset_game that its class does
      not define, so even with the deal resolved the click raises before it
      changes anything. */
  function PlayAgainMissingReset(): (r: Result<(), PyError>)
    ensures r.Failure? && r.error == AttributeError("reset_game")
  {
    Failure(AttributeError("reset_game"))
  }
}
