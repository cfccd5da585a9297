/**
 * One blackjack round per player, as the view of cogs/BlackJack.py runs it:
 * the view owns the two hands, the round's `finished` flag and the disabled
 * flags of its four buttons, and posts each round's payout to the ledger.
 */
module Blackjack {
  import opened Cards
  import opened UserRecords
  import Ledger

  /** Positions of the view's buttons among its children, in declaration order. */
  const HIT := 0
  const STAND := 1
  const DOUBLE := 2
  const PLAY_AGAIN := 3
  const LABELS: seq<string> := ["Hit", "Stand", "Double", "Play Again"]

  /** Seconds of inactivity after which the view times out. */
  const TIMEOUT := 90

  /** Ledger amounts of a plain round and of a doubled one. */
  const STAKE := 10
  const DOUBLE_STAKE := 20

  /** Button flags (true means disabled) while a round is open: only Play Again is off. */
  const OPEN: seq<bool> := [false, false, false, true]
  /** Button flags after settlement: only Play Again is on. */
  const SETTLED: seq<bool> := [true, true, true, false]
  /** Button flags after a timeout: everything is off. */
  const EXPIRED: seq<bool> := [true, true, true, true]

  /** The payout of a round that reaches the comparison: the player wins on a
      dealer bust or a higher total, loses to a higher dealer total, and
      pushes on equal totals. */
  function Settle(player: int, dealer: int, stake: int): (payout: int)
    requires stake > 0
    ensures payout == stake <==> dealer > 21 || player > dealer
    ensures payout == -stake <==> dealer <= 21 && dealer > player
    ensures payout == 0 <==> dealer <= 21 && player == dealer
  {
    if dealer > 21 || player > dealer then stake
    else if dealer > player then -stake
    else 0
  }

  /** Player 20 against dealer 18 wins 10, 18 against 20 loses 10, 19 against
      19 pushes; doubling doubles a win or a loss and leaves a push at 0. */
  lemma SettleExamples(p: int, d: int)
    ensures Settle(20, 18, STAKE) == 10 && Settle(18, 20, STAKE) == -10 && Settle(19, 19, STAKE) == 0
    ensures Settle(p, d, DOUBLE_STAKE) == 2 * Settle(p, d, STAKE)
  {
  }

  /** The dealer's draw in stand and double: the dealer's hand grows from
      `before` to `after`, every card was drawn while the hand was worth less
      than 17, and the final hand is worth at least 17. */
  ghost predicate DealerDrew(before: Hand, after: Hand)
  {
    && |before| <= |after| && after[..|before|] == before
    && HandValue(after) >= 17
    && forall k :: |before| <= k < |after| ==> HandValue(after[..k]) < 17
  }

  /** The dealer's hand grew from `before` to `after`, every card was drawn
      while the hand was worth less than 17, and each drew the hard total up
      by at least one. */
  ghost predicate DrawnBelow17(before: Hand, after: Hand)
  {
    && |before| <= |after| && after[..|before|] == before
    && (forall k :: |before| <= k < |after| ==> HandValue(after[..k]) < 17)
    && |after| - |before| <= HardTotal(after) - HardTotal(before)
  }

  /** One pass of the dealer loop keeps DrawnBelow17, raises the hard total,
      and keeps the number of draws within 17 - HardTotal(start). */
  lemma DealerStep(start: Hand, hand: Hand, c: Card)
    requires DrawnBelow17(start, hand) && HandValue(hand) < 17
    ensures DrawnBelow17(start, hand + [c])
    ensures HardTotal(hand) < HardTotal(hand + [c]) && HardTotal(hand) < 17
    ensures |hand + [c]| - |start| <= 17 - HardTotal(start)
  {
    HardTotalGrows(hand, c);
    HandValueBounds(hand);
    var after := hand + [c];
    assert after[..|hand|] == hand;
    assert after[..|start|] == start;
    forall k | |start| <= k < |after|
      ensures HandValue(after[..k]) < 17
    {
      if k < |hand| {
        assert after[..k] == hand[..k];
      }
    }
  }

  /** From any dealt hand of two or more cards the dealer draws at most 15 cards. */
  lemma DealerDrawsAtMost15(hand: Hand)
    requires |hand| >= 2
    ensures Max(0, 17 - HardTotal(hand)) <= 15
  {
  }

  class BlackjackView {
    const userId: int
    const db: Ledger.Database
    const timeout: int
    const labels: seq<string>
    /** disabled[i] is the `disabled` flag of the i-th button. */
    const disabled: array<bool>
    var playerHand: Hand
    var dealerHand: Hand
    var finished: bool

    /** The fixed parts of the view: four labelled buttons and a consistent ledger. */
    ghost predicate Wired()
      reads this, db
    {
      disabled.Length == |LABELS| && labels == LABELS && db.Valid()
    }

    /** Both hands hold at least the two dealt cards, an open round has not
        busted, and the flags are those of an open round, a settled round, or
        an expired view. */
    ghost predicate Valid()
      reads this, db, disabled
    {
      && Wired()
      && |playerHand| >= 2 && |dealerHand| >= 2
      && (!finished ==> HandValue(playerHand) <= 21)
      && (disabled[..] == (if finished then SETTLED else OPEN) || disabled[..] == EXPIRED)
    }

    /** The round is over and `payout` went to the ledger in exactly one
        update_balance call for the owner. */
    ghost predicate SettledWith(users0: Table, updates0: seq<(int, int)>, payout: int)
      reads this, db, disabled
    {
      && finished && disabled[..] == SETTLED
      && db.users == AddBalance(users0, userId, payout)
      && db.updates == updates0 + [(userId, payout)]
    }

    /** The effect of hit: one more card for the player and none for the
        dealer; over 21 the stake is lost and the round ends, otherwise the
        round, the flags and the ledger are as they were. */
    twostate predicate HitOutcome()
      reads this, db, disabled
    {
      && |playerHand| == |old(playerHand)| + 1 && playerHand[..|old(playerHand)|] == old(playerHand)
      && dealerHand == old(dealerHand)
      && (HandValue(playerHand) > 21 ==> SettledWith(old(db.users), old(db.updates), -STAKE))
      && (HandValue(playerHand) <= 21 ==>
        && finished == old(finished) && disabled[..] == old(disabled[..])
        && db.users == old(db.users) && db.updates == old(db.updates))
    }

    /** The effect of stand: the player's hand is kept, the dealer draws to
        17, and the plain stake is settled by comparing the totals. */
    twostate predicate StandOutcome()
      reads this, db, disabled
    {
      && playerHand == old(playerHand)
      && DealerDrew(old(dealerHand), dealerHand)
      && SettledWith(old(db.users), old(db.updates), Settle(HandValue(playerHand), HandValue(dealerHand), STAKE))
    }

    /** The effect of double: exactly one more card for the player; a bust
        loses double the stake with the dealer's hand untouched, otherwise the
        dealer draws to 17 and double the stake is settled by the comparison. */
    twostate predicate DoubleOutcome()
      reads this, db, disabled
    {
      && |playerHand| == |old(playerHand)| + 1 && playerHand[..|old(playerHand)|] == old(playerHand)
      && (HandValue(playerHand) > 21 ==>
        dealerHand == old(dealerHand) && SettledWith(old(db.users), old(db.updates), -DOUBLE_STAKE))
      && (HandValue(playerHand) <= 21 ==>
        && DealerDrew(old(dealerHand), dealerHand)
        && SettledWith(old(db.users), old(db.updates), Settle(HandValue(playerHand), HandValue(dealerHand), DOUBLE_STAKE)))
    }

    /** A fresh deal: two cards each, the round open, only Play Again disabled. */
    ghost predicate FreshDeal()
      reads this, disabled
    {
      |playerHand| == 2 && |dealerHand| == 2 && !finished && disabled[..] == OPEN
    }

    /** __init__ followed by reset_game: a 90-second view owned by `userId`
        with a fresh deal. */
    constructor (userId: int, db: Ledger.Database)
      requires db.Valid()
      ensures Valid() && fresh(disabled)
      ensures this.userId == userId && this.db == db && timeout == TIMEOUT
      ensures FreshDeal()
    {
      this.userId := userId;
      this.db := db;
      timeout := TIMEOUT;
      labels := LABELS;
      disabled := new bool[|LABELS|];
      new;
      ResetGame();
    }

    /** reset_game: two new cards each, the round open, every button enabled
        except Play Again. */
    method ResetGame()
      requires Wired()
      modifies this, disabled
      ensures Valid()
      ensures FreshDeal()
    {
      var p1 := DrawCard();
      var p2 := DrawCard();
      playerHand := [p1, p2];
      var d1 := DrawCard();
      var d2 := DrawCard();
      dealerHand := [d1, d2];
      finished := false;
      for i := 0 to disabled.Length
        modifies disabled
        invariant forall j :: 0 <= j < i ==> !disabled[j]
      {
        disabled[i] := false;
      }
      disabled[PLAY_AGAIN] := true;
      TwoCardsNeverBust(p1, p2);
      assert disabled[..] == OPEN;
    }

    /** reset_game of the copy that finds Play Again by its label while it
        enables the buttons; it ends in the same state. */
    method ResetGameByLabel()
      requires Wired()
      modifies this, disabled
      ensures Valid()
      ensures FreshDeal()
    {
      var p1 := DrawCard();
      var p2 := DrawCard();
      playerHand := [p1, p2];
      var d1 := DrawCard();
      var d2 := DrawCard();
      dealerHand := [d1, d2];
      finished := false;
      for i := 0 to disabled.Length
        modifies disabled
        invariant forall j :: 0 <= j < i ==> disabled[j] == (labels[j] == "Play Again")
      {
        disabled[i] := false;
        if labels[i] == "Play Again" {
          disabled[i] := true;
        }
      }
      TwoCardsNeverBust(p1, p2);
      assert disabled[..] == OPEN;
    }

    /** interaction_check: only the owner's clicks are accepted. */
    function InteractionCheck(actorId: int): (allowed: bool)
      ensures allowed <==> actorId == userId
    {
      actorId == userId
    }

    /** on_timeout: every button is disabled; the round is not settled and
        the ledger is not touched. */
    method OnTimeout()
      requires Valid()
      modifies disabled
      ensures Valid() && disabled[..] == EXPIRED
    {
      for i := 0 to disabled.Length
        modifies disabled
        invariant forall j :: 0 <= j < i ==> disabled[j]
      {
        disabled[i] := true;
      }
      assert disabled[..] == EXPIRED;
    }

    /** end_game: mark the round finished, post the payout once, and leave
        only Play Again enabled. */
    method EndGame(payout: int)
      requires Wired() && |playerHand| >= 2 && |dealerHand| >= 2
      modifies this, disabled, db
      ensures Valid() && SettledWith(old(db.users), old(db.updates), payout)
      ensures playerHand == old(playerHand) && dealerHand == old(dealerHand)
    {
      finished := true;
      db.UpdateBalance(userId, payout);
      for i := 0 to disabled.Length
        modifies disabled
        invariant forall j :: 0 <= j < i ==> disabled[j]
      {
        disabled[i] := true;
      }
      disabled[PLAY_AGAIN] := false;
      assert disabled[..] == SETTLED;
    }

    /** end_game of the copy that finds Play Again by its label; same effect. */
    method EndGameByLabel(payout: int)
      requires Wired() && |playerHand| >= 2 && |dealerHand| >= 2
      modifies this, disabled, db
      ensures Valid() && SettledWith(old(db.users), old(db.updates), payout)
      ensures playerHand == old(playerHand) && dealerHand == old(dealerHand)
    {
      finished := true;
      db.UpdateBalance(userId, payout);
      for i := 0 to disabled.Length
        modifies disabled
        invariant forall j :: 0 <= j < i ==> disabled[j] == (labels[j] != "Play Again")
      {
        disabled[i] := true;
        if labels[i] == "Play Again" {
          disabled[i] := false;
        }
      }
      assert disabled[..] == SETTLED;
    }

    /** hit: one more card for the player; over 21 loses the stake and ends
        the round, otherwise nothing else changes. */
    method Hit()
      requires Valid()
      modifies this, disabled, db
      ensures Valid() && HitOutcome()
    {
      var c := DrawCard();
      playerHand := playerHand + [c];
      var p := ComputeHandValue(playerHand);
      if p > 21 {
        EndGame(-STAKE);
        return;
      }
    }

    /** The dealer loop of stand and double: draw while the dealer's hand is
        worth less than 17. Each card raises the hard total, so the loop ends
        after at most 17 - HardTotal draws. */
    method DealerPlay()
      modifies this`dealerHand
      ensures DealerDrew(old(dealerHand), dealerHand)
      ensures |dealerHand| - |old(dealerHand)| <= Max(0, 17 - HardTotal(old(dealerHand)))
    {
      ghost var start := dealerHand;
      var v := ComputeHandValue(dealerHand);
      while v < 17
        invariant v == HandValue(dealerHand)
        invariant DrawnBelow17(start, dealerHand)
        invariant |dealerHand| - |start| <= Max(0, 17 - HardTotal(start))
        decreases 17 - HardTotal(dealerHand)
      {
        var c := DrawCard();
        DealerStep(start, dealerHand, c);
        dealerHand := dealerHand + [c];
        v := ComputeHandValue(dealerHand);
      }
    }

    /** stand: the dealer draws to 17, then the plain stake is settled by
        comparing the two totals. */
    method Stand()
      requires Valid()
      modifies this, disabled, db
      ensures Valid() && StandOutcome()
    {
      DealerPlay();
      var p := ComputeHandValue(playerHand);
      var d := ComputeHandValue(dealerHand);
      if d > 21 || p > d {
        EndGame(STAKE);
      } else if d > p {
        EndGame(-STAKE);
      } else {
        EndGame(0);
      }
    }

    /** double: exactly one more card for the player; a bust loses double the
        stake at once, otherwise the dealer draws to 17 and double the stake
        is settled by the comparison. */
    method Double()
      requires Valid()
      modifies this, disabled, db
      ensures Valid() && DoubleOutcome()
    {
      var c := DrawCard();
      playerHand := playerHand + [c];
      var p := ComputeHandValue(playerHand);
      if p > 21 {
        EndGame(-DOUBLE_STAKE);
        return;
      }
      DealerPlay();
      var d := ComputeHandValue(dealerHand);
      if d > 21 || p > d {
        EndGame(DOUBLE_STAKE);
      } else if d > p {
        EndGame(-DOUBLE_STAKE);
      } else {
        EndGame(0);
      }
    }

    /** play_again: a new deal on the same view; the ledger is not touched. */
    method PlayAgain()
      requires Valid()
      modifies this, disabled
      ensures Valid()
      ensures FreshDeal()
    {
      ResetGame();
    }

    /** A click as the view receives it: interaction_check runs first, and a
        refused click reaches no callback. */
    method Press(actorId: int, button: nat) returns (accepted: bool)
      requires Valid() && button < |LABELS|
      modifies this, disabled, db
      ensures Valid()
      ensures accepted <==> actorId == userId
      ensures accepted && button == HIT ==> HitOutcome()
      ensures accepted && button == STAND ==> StandOutcome()
      ensures accepted && button == DOUBLE ==> DoubleOutcome()
      ensures accepted && button == PLAY_AGAIN ==>
        FreshDeal() && db.users == old(db.users) && db.updates == old(db.updates)
      ensures !accepted ==>
        && playerHand == old(playerHand) && dealerHand == old(dealerHand) && finished == old(finished)
        && disabled[..] == old(disabled[..]) && db.users == old(db.users) && db.updates == old(db.updates)
    {
      accepted := InteractionCheck(actorId);
      if !accepted {
        return;
      }
      if button == HIT {
        Hit();
      } else if button == STAND {
        Stand();
      } else if button == DOUBLE {
        Double();
      } else {
        PlayAgain();
      }
    }
  }

  class BlackjackCog {
    const db: Ledger.Database

    constructor (db: Ledger.Database)
      ensures this.db == db
    {
      this.db := db;
    }

    /** The blackjack command: register the caller, then open a view with a fresh deal. */
    method Blackjack(userId: int) returns (view: BlackjackView)
      requires db.Valid()
      modifies db
      ensures fresh(view) && view.Valid() && view.userId == userId && view.db == db
      ensures db.users == Joined(old(db.users), userId) && db.updates == old(db.updates)
      ensures view.FreshDeal()
    {
      var _ := db.AddUser(userId);
      view := new BlackjackView(userId, db);
    }
  }
}
