/** Blackjack hand scoring with the soft-ace rule (calculate_hand_value). */
module Scoring {
  import opened Cards

  /** What one card adds before any ace is reduced: a face card 10, an ace
      11, a number card its number. */
  function Points(r: Rank): (p: int)
    ensures 2 <= p <= 11
    ensures p == 11 <==> r.Ace?
    ensures p == 10 <==> r.Jack? || r.Queen? || r.King? || r == Number(10)
    ensures r.Number? ==> p == r.pips
  {
    match r
    case Jack | Queen | King => 10
    case Ace => 11
    case Number(n) => n
  }

  /** The sum of the cards with every ace counted as 11. */
  function RawTotal(hand: seq<Card>): (t: int)
    ensures 2 * |hand| <= t <= 11 * |hand|
  {
    if hand == [] then 0
    else RawTotal(hand[..|hand| - 1]) + Points(hand[|hand| - 1].rank)
  }

  /** The number of aces in the hand. */
  function AceCount(hand: seq<Card>): (n: nat)
    ensures n <= |hand|
  {
    if hand == [] then 0
    else AceCount(hand[..|hand| - 1]) + (if hand[|hand| - 1].rank.Ace? then 1 else 0)
  }

  /** The sum of the cards with every ace counted as 1. */
  function HardTotal(hand: seq<Card>): (t: int)
    ensures t == RawTotal(hand) - 10 * AceCount(hand)
    ensures t >= |hand|
  {
    if hand == [] then 0
    else
      var r := hand[|hand| - 1].rank;
      HardTotal(hand[..|hand| - 1]) + (if r.Ace? then 1 else Points(r))
  }

  /** The reduction step of the scorer: while the total is over 21 and an
      ace still counts 11, count that ace as 1 instead. */
  function Reduce(value: int, aces: nat): (r: int)
    ensures value - 10 * aces <= r <= value
    decreases aces
  {
    if value > 21 && aces > 0 then Reduce(value - 10, aces - 1) else value
  }

  /** The value of a hand: the raw total, reduced ace by ace. */
  function HandValue(hand: seq<Card>): (v: int)
  {
    Reduce(RawTotal(hand), AceCount(hand))
  }

  /** `v` is the raw total less ten for each of the first k aces recounted,
      with k the least count that brings the total to 21 or less, or every
      ace when no count does. */
  ghost predicate IsMinimalReduction(raw: int, aces: nat, v: int)
  {
    var d := raw - v;
    && 0 <= d <= 10 * aces
    && d % 10 == 0
    && (v <= 21 || d == 10 * aces)
    && (d > 0 ==> v + 10 > 21)
  }

  /** calculate_hand_value: a for-loop that sums the cards and counts the
      aces, then a while-loop that recounts aces as 1 while over 21. */
  method CalculateHandValue(hand: seq<Card>) returns (value: int)
    ensures value == HandValue(hand)
  {
    value := 0;
    var aces: nat := 0;
    for i := 0 to |hand|
      invariant value == RawTotal(hand[..i])
      invariant aces == AceCount(hand[..i])
    {
      assert hand[..i + 1][..i] == hand[..i];
      var rank := hand[i].rank;
      if rank.Jack? || rank.Queen? || rank.King? {
        value := value + 10;
      } else if rank.Ace? {
        value := value + 11;
        aces := aces + 1;
      } else {
        value := value + rank.pips;
      }
    }
    assert hand[..|hand|] == hand;
    while value > 21 && aces > 0
      invariant Reduce(value, aces) == HandValue(hand)
    {
      value := value - 10;
      aces := aces - 1;
    }
  }

  lemma {:induction false} ReduceIsMinimal(value: int, aces: nat)
    ensures IsMinimalReduction(value, aces, Reduce(value, aces))
    decreases aces
  {
    if value > 21 && aces > 0 {
      ReduceIsMinimal(value - 10, aces - 1);
    }
  }

  /** The scorer recounts the fewest aces that bring the hand to 21 or
      less, or every ace when that is not possible. */
  lemma HandValueIsMinimalReduction(hand: seq<Card>)
    ensures IsMinimalReduction(RawTotal(hand), AceCount(hand), HandValue(hand))
  {
    ReduceIsMinimal(RawTotal(hand), AceCount(hand));
  }

  /** The description above fixes the value: no other total meets it. */
  lemma MinimalReductionIsUnique(raw: int, aces: nat, v: int, w: int)
    requires IsMinimalReduction(raw, aces, v)
    requires IsMinimalReduction(raw, aces, w)
    ensures v == w
  {
    if v < w {
      MultiplesOfTenApart(raw - v, raw - w);
    } else if w < v {
      MultiplesOfTenApart(raw - w, raw - v);
    }
  }

  lemma MultiplesOfTenApart(a: int, b: int)
    requires a % 10 == 0 && b % 10 == 0 && b < a
    ensures a - b >= 10
  {
  }

  /** A hand without aces is worth the plain sum of its cards. */
  lemma HandValueNoAces(hand: seq<Card>)
    requires AceCount(hand) == 0
    ensures HandValue(hand) == RawTotal(hand)
  {
  }

  /** The value lies between the all-aces-as-1 sum and the all-aces-as-11
      sum. */
  lemma HandValueBounds(hand: seq<Card>)
    ensures HardTotal(hand) <= HandValue(hand) <= RawTotal(hand)
  {
  }

  /** Of the totals reachable by counting some of the aces as 1, the value
      is the largest one that does not exceed 21. */
  lemma HandValueIsBestTotal(hand: seq<Card>, j: nat)
    requires j <= AceCount(hand)
    requires RawTotal(hand) - 10 * j <= 21
    ensures RawTotal(hand) - 10 * j <= HandValue(hand) <= 21
  {
    var raw, aces, v := RawTotal(hand), AceCount(hand), HandValue(hand);
    HandValueIsMinimalReduction(hand);
    if v > 21 {
      assert false;
    }
    if raw - v > 10 * j {
      MultiplesOfTenApart(raw - v, 10 * j);
      assert false;
    }
  }

  /** The hand busts exactly when it busts with every ace counted as 1, and
      then its value is that all-aces-as-1 sum. */
  lemma HandValueBust(hand: seq<Card>)
    ensures HardTotal(hand) <= 21 ==> HandValue(hand) <= 21
    ensures HardTotal(hand) > 21 ==> HandValue(hand) == HardTotal(hand)
  {
    if HardTotal(hand) <= 21 {
      HandValueIsBestTotal(hand, AceCount(hand));
    } else {
      HandValueIsMinimalReduction(hand);
    }
  }

  /** Adding a card adds at least 1 to the all-aces-as-1 sum. */
  lemma {:induction false} HardTotalGrows(hand: seq<Card>, more: seq<Card>)
    ensures HardTotal(hand + more) >= HardTotal(hand) + |more|
    decreases |more|
  {
    if more != [] {
      var front := more[..|more| - 1];
      HardTotalGrows(hand, front);
      assert (hand + more)[..|hand + more| - 1] == hand + front;
    } else {
      assert hand + more == hand;
    }
  }

  /** The worked examples: [ACE, ACE, 9] is 21, [ACE, KING] is 21,
      [KING, QUEEN] is 20 and [5, 6, 10] is 21. */
  lemma HandValueExamples(s1: Suit, s2: Suit, s3: Suit)
    ensures HandValue([Card(Ace, s1), Card(Ace, s2), Card(Number(9), s3)]) == 21
    ensures HandValue([Card(Ace, s1), Card(King, s2)]) == 21
    ensures HandValue([Card(King, s2), Card(Queen, s2)]) == 20
    ensures HandValue([Card(Number(5), s1), Card(Number(6), s2), Card(Number(10), s3)]) == 21
  {
    var a1, a2, a3 := Card(Ace, s1), Card(Ace, s2), Card(Number(9), s3);
    assert [a1, a2, a3][..2] == [a1, a2] && [a1, a2][..1] == [a1] && [a1][..0] == [];
    assert RawTotal([a1]) == 11 && AceCount([a1]) == 1;
    assert RawTotal([a1, a2]) == 22 && AceCount([a1, a2]) == 2;
    assert RawTotal([a1, a2, a3]) == 31 && AceCount([a1, a2, a3]) == 2;
    assert Reduce(31, 2) == Reduce(21, 1) == 21;
    var b1, b2 := Card(King, s2), Card(Queen, s2);
    assert [a1, b1][..1] == [a1] && [b1, b2][..1] == [b1] && [b1][..0] == [];
    assert RawTotal([a1, b1]) == 21 && AceCount([a1, b1]) == 1;
    assert RawTotal([b1]) == 10 && AceCount([b1]) == 0;
    assert RawTotal([b1, b2]) == 20 && AceCount([b1, b2]) == 0;
    var d1, d2, d3 := Card(Number(5), s1), Card(Number(6), s2), Card(Number(10), s3);
    assert [d1, d2, d3][..2] == [d1, d2] && [d1, d2][..1] == [d1] && [d1][..0] == [];
    assert RawTotal([d1]) == 5 && AceCount([d1]) == 0;
    assert RawTotal([d1, d2]) == 11 && AceCount([d1, d2]) == 0;
    assert RawTotal([d1, d2, d3]) == 21 && AceCount([d1, d2, d3]) == 0;
  }
}
