/** The dealer's policy in `stay` (draw until the total is at least 17) and
    the rule that compares the two totals. */
module Dealer {
  import opened Cards
  import opened Scoring

  /** The dealer stops drawing at this total. */
  const StandTotal := 17

  const YouWin := "You win!"
  const DealerWins := "Dealer wins."
  const Tie := "It's a tie."

  /** How many cards the dealer draws from `deck` onto `hand`: one at a time
      while the hand is worth less than 17, until the deck runs out. */
  function DealerDraws(hand: seq<Card>, deck: seq<Card>): (n: nat)
    ensures n <= |deck|
    decreases |deck|
  {
    if HandValue(hand) >= StandTotal || deck == [] then 0
    else 1 + DealerDraws(hand + [deck[0]], deck[1..])
  }

  /** The outcome of `stay`: the player wins when the dealer busts or the
      player's total is higher (the player's own bust is not looked at), the
      dealer wins with the higher total, and equal totals tie. */
  function Outcome(playerTotal: int, dealerTotal: int): (result: string)
    ensures result == YouWin <==> dealerTotal > 21 || playerTotal > dealerTotal
    ensures result == DealerWins <==> dealerTotal <= 21 && dealerTotal > playerTotal
    ensures result == Tie <==> dealerTotal <= 21 && dealerTotal == playerTotal
  {
    if dealerTotal > 21 || playerTotal > dealerTotal then YouWin
    else if dealerTotal > playerTotal then DealerWins
    else Tie
  }

  /** A player who has bust still wins against a dealer who stands lower:
      a player on 25 against a dealer on 20 is told "You win!". */
  lemma BustPlayerBeatsStandingDealer(playerTotal: int, dealerTotal: int)
    requires playerTotal > 21 && StandTotal <= dealerTotal <= 21
    ensures Outcome(playerTotal, dealerTotal) == YouWin
  {
  }

  /** Every card the dealer draws was drawn while the hand stood below 17. */
  lemma {:induction false} DealerDrawsOnlyBelowStand(hand: seq<Card>, deck: seq<Card>, j: nat)
    requires j < DealerDraws(hand, deck)
    ensures HandValue(hand + deck[..j]) < StandTotal
    decreases |deck|
  {
    if j == 0 {
      assert hand + deck[..0] == hand;
    } else {
      assert DealerDraws(hand, deck) == 1 + DealerDraws(hand + [deck[0]], deck[1..]);
      DealerDrawsOnlyBelowStand(hand + [deck[0]], deck[1..], j - 1);
      assert hand + deck[..j] == hand + [deck[0]] + deck[1..][..j - 1];
    }
  }

  /** After its draws the dealer stands on 17 or more, unless the deck ran
      out first. */
  lemma {:induction false} DealerStands(hand: seq<Card>, deck: seq<Card>)
    ensures var n := DealerDraws(hand, deck);
            HandValue(hand + deck[..n]) >= StandTotal || n == |deck|
    decreases |deck|
  {
    var n := DealerDraws(hand, deck);
    if n == 0 {
      assert hand + deck[..0] == hand;
    } else {
      DealerStands(hand + [deck[0]], deck[1..]);
      assert hand + deck[..n] == hand + [deck[0]] + deck[1..][..n - 1];
    }
  }

  /** Each card drawn adds at least 1 to the all-aces-as-1 sum, so the
      dealer draws at most 17 less that sum. */
  lemma {:induction false} DealerDrawsBound(hand: seq<Card>, deck: seq<Card>)
    ensures DealerDraws(hand, deck) <= if HardTotal(hand) >= StandTotal then 0 else StandTotal - HardTotal(hand)
    decreases |deck|
  {
    if DealerDraws(hand, deck) > 0 {
      HardTotalGrows(hand, [deck[0]]);
      DealerDrawsBound(hand + [deck[0]], deck[1..]);
    }
  }

  /** A deck that holds at least 17 less the all-aces-as-1 sum of the
      dealer's hand lets the dealer reach 17. */
  lemma DealerReachesStand(hand: seq<Card>, deck: seq<Card>)
    requires |deck| >= StandTotal - HardTotal(hand)
    ensures HandValue(hand + deck[..DealerDraws(hand, deck)]) >= StandTotal
  {
    var n := DealerDraws(hand, deck);
    DealerStands(hand, deck);
    if n == |deck| {
      HardTotalGrows(hand, deck[..n]);
    }
  }

  /** One more card of the dealer's turn: drawn from the front of what is
      left, while the hand is below 17. */
  lemma DealerDrawsStep(hand: seq<Card>, deck: seq<Card>, k: nat)
    requires k < |deck|
    requires HandValue(hand + deck[..k]) < StandTotal
    requires DealerDraws(hand, deck) == k + DealerDraws(hand + deck[..k], deck[k..])
    ensures hand + deck[..k + 1] == hand + deck[..k] + [deck[k]]
    ensures deck[k + 1..] == deck[k..][1..]
    ensures DealerDraws(hand, deck) == k + 1 + DealerDraws(hand + deck[..k + 1], deck[k + 1..])
  {
    var h, d := hand + deck[..k], deck[k..];
    assert deck[..k + 1] == deck[..k] + [deck[k]];
    assert d[0] == deck[k] && d[1..] == deck[k + 1..];
    assert DealerDraws(h, d) == 1 + DealerDraws(h + [deck[k]], deck[k + 1..]);
  }

  /** The bounds of the two lemmas above, for the hand the turn ends with. */
  lemma DealerTurnBounds(hand: seq<Card>, deck: seq<Card>, dealer: seq<Card>)
    requires dealer == hand + deck[..DealerDraws(hand, deck)]
    ensures |dealer| - |hand| <= if HardTotal(hand) >= StandTotal then 0 else StandTotal - HardTotal(hand)
    ensures |deck| >= StandTotal - HardTotal(hand) ==> HandValue(dealer) >= StandTotal
  {
    DealerDrawsBound(hand, deck);
    if |deck| >= StandTotal - HardTotal(hand) {
      DealerReachesStand(hand, deck);
    }
  }
}
