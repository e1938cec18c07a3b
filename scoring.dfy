/** Scoring a hand: the points of a hand are the sum of the ranks of its
    cards. There is no ace-as-eleven, no face-card-as-ten and no bust. */
module Scoring {
  import opened Cards

  /** The sum of `Number` over a hand, accumulated from the first card to the
      last. */
  function Points(cards: seq<Card>): (p: int)
    ensures 0 <= p <= (SUIT_SIZE - 1) * |cards|
    ensures p == 0 <==> forall i :: 0 <= i < |cards| ==> Number(cards[i]) == 0
  {
    if cards == [] then 0
    else Points(cards[..|cards| - 1]) + Number(cards[|cards| - 1])
  }

  /** The points of two hands put together add up. */
  lemma {:induction false} PointsAppend(a: seq<Card>, b: seq<Card>)
    ensures Points(a + b) == Points(a) + Points(b)
    decreases |b|
  {
    if b == [] {
      assert a + b == a;
    } else {
      var b' := b[..|b| - 1];
      assert (a + b)[..|a + b| - 1] == a + b';
      PointsAppend(a, b');
    }
  }

  /** The points of a hand do not depend on the order of its cards. */
  lemma {:induction false} PointsOrderFree(a: seq<Card>, b: seq<Card>)
    requires multiset(a) == multiset(b)
    ensures Points(a) == Points(b)
    decreases |a|
  {
    if a != [] {
      assert |b| == |multiset(b)| == |multiset(a)| == |a|;
      var last := a[|a| - 1];
      var a' := a[..|a| - 1];
      assert a == a' + [last];
      assert last in multiset(b);
      var k :| 0 <= k < |b| && b[k] == last;
      var b' := b[..k] + b[k + 1..];
      assert b == b[..k] + [last] + b[k + 1..];
      assert multiset(b') == multiset(b) - multiset{last};
      assert multiset(a') == multiset(a) - multiset{last};
      PointsOrderFree(a', b');
      PointsAppend(b[..k], [last]);
      PointsAppend(b[..k] + [last], b[k + 1..]);
      PointsAppend(b[..k], b[k + 1..]);
    }
  }
}
