/** Playing cards as the remote deck service hands them out, and the deck
    as a supply of cards drawn from its front. */
module Cards {

  /** The numeric ranks "2" to "10". */
  type Pips = n: int | 2 <= n <= 10 witness 2

  /** The rank strings the service uses: "2".."10", "JACK", "QUEEN", "KING", "ACE". */
  datatype Rank = Number(pips: Pips) | Jack | Queen | King | Ace

  datatype Suit = Hearts | Diamonds | Clubs | Spades

  datatype Card = Card(rank: Rank, suit: Suit)

  function Min(a: int, b: int): (m: int)
    ensures m <= a && m <= b && (m == a || m == b)
  {
    if a <= b then a else b
  }

  /** Drawing `count` cards: the first `count` cards of the deck leave it, in
      order; when fewer remain, the service hands out what is left. */
  function DrawCards(deck: seq<Card>, count: nat): (r: (seq<Card>, seq<Card>))
    ensures r.0 + r.1 == deck
    ensures |r.0| == Min(count, |deck|)
  {
    var k := Min(count, |deck|);
    (deck[..k], deck[k..])
  }

  /** The `count` cards that a sequence of draws hands out after the first
      `start` cards of `deck` have gone. */
  function Window(deck: seq<Card>, start: nat, count: nat): (r: seq<Card>)
    ensures |r| <= count
    ensures start + count <= |deck| ==> r == deck[start..start + count]
    ensures start >= |deck| ==> r == []
  {
    deck[Min(start, |deck|)..Min(start + count, |deck|)]
  }

  /** What is left of the deck once its first `start` cards have gone. */
  function Remaining(deck: seq<Card>, start: nat): (r: seq<Card>)
    ensures |r| == if start <= |deck| then |deck| - start else 0
    ensures start <= |deck| ==> deck[..start] + r == deck
  {
    deck[Min(start, |deck|)..]
  }

  /** Drawing from what is left after `start` cards hands out the next
      window of the deck and leaves what is left after it. */
  lemma DrawNext(deck: seq<Card>, start: nat, count: nat)
    ensures DrawCards(Remaining(deck, start), count).0 == Window(deck, start, count)
    ensures DrawCards(Remaining(deck, start), count).1 == Remaining(deck, start + count)
  {
  }
}
