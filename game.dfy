/** The game state machine: a deck, the player's hand and the dealer's hand,
    plus the flags that freeze the game. The `Game` class updates its fields
    in place; each of its methods is specified by a pure transition on
    `GameState`, and the transitions' properties are proved as lemmas. */
module Blackjack {
  import opened Cards
  import opened Scoring

  /** What the player asked for in one frame. */
  datatype Command = None | Hit | Stand

  /** The value of a game's fields (the random generator is not modelled). */
  datatype GameState = GameState(
    isDebug: bool,
    isOver: bool,
    isClear: bool,
    playerCards: seq<Card>,
    dealerCards: seq<Card>,
    deck: seq<Card>)

  /** Every card the game holds, wherever it is. */
  function AllCards(s: GameState): multiset<Card>
  {
    multiset(s.deck) + multiset(s.playerCards) + multiset(s.dealerCards)
  }

  /** A finished game ignores every command. */
  predicate Finished(s: GameState)
  {
    s.isOver || s.isClear
  }

  /** The flags of two states agree. */
  predicate SameFlags(s: GameState, t: GameState)
  {
    s.isDebug == t.isDebug && s.isOver == t.isOver && s.isClear == t.isClear
  }

  /** The integers lo, lo+1, ..., hi-1, in order. */
  function Range(lo: int, hi: int): (r: seq<int>)
    ensures |r| == if lo <= hi then hi - lo else 0
    ensures forall i :: 0 <= i < |r| ==> r[i] == lo + i
    decreases hi - lo
  {
    if lo >= hi then [] else [lo] + Range(lo + 1, hi)
  }

  /** Each of lo..hi-1 occurs exactly once in Range(lo, hi), nothing else. */
  lemma {:induction false} RangeCount(lo: int, hi: int, x: int)
    ensures multiset(Range(lo, hi))[x] == if lo <= x < hi then 1 else 0
    decreases hi - lo
  {
    if lo < hi {
      RangeCount(lo + 1, hi, x);
    }
  }

  /** The ids 1..52 in some order: what the shuffle of the ordered ids yields. */
  predicate IsShuffle(ids: seq<int>)
  {
    multiset(ids) == multiset(Range(1, DECK_SIZE + 1))
  }

  predicate AllValidIds(ids: seq<int>)
  {
    forall i :: 0 <= i < |ids| ==> 1 <= ids[i] <= DECK_SIZE
  }

  /** A shuffle has 52 ids, each a valid card id, and each id occurs once. */
  lemma ShuffleIds(ids: seq<int>)
    requires IsShuffle(ids)
    ensures |ids| == DECK_SIZE && AllValidIds(ids)
    ensures forall x :: multiset(ids)[x] == if 1 <= x <= DECK_SIZE then 1 else 0
  {
    assert |ids| == |multiset(ids)| == |multiset(Range(1, DECK_SIZE + 1))|;
    forall x
      ensures multiset(ids)[x] == if 1 <= x <= DECK_SIZE then 1 else 0
    {
      RangeCount(1, DECK_SIZE + 1, x);
    }
    forall i | 0 <= i < |ids|
      ensures 1 <= ids[i] <= DECK_SIZE
    {
      assert ids[i] in multiset(ids);
    }
  }

  /** The cards made from a sequence of valid ids, in the same order. */
  function CardsOf(ids: seq<int>): (cs: seq<Card>)
    requires AllValidIds(ids)
    ensures |cs| == |ids| && forall i :: 0 <= i < |ids| ==> cs[i].id == ids[i]
  {
    seq(|ids|, i requires 0 <= i < |ids| => NewCard(ids[i]))
  }

  /** A card occurs in CardsOf(ids) as often as its id occurs in ids. */
  lemma {:induction false} CardsOfCount(ids: seq<int>, c: Card)
    requires AllValidIds(ids)
    ensures multiset(CardsOf(ids))[c] == multiset(ids)[c.id]
    decreases |ids|
  {
    if ids != [] {
      var ids' := ids[..|ids| - 1];
      assert ids == ids' + [ids[|ids| - 1]];
      assert CardsOf(ids) == CardsOf(ids') + [NewCard(ids[|ids| - 1])];
      CardsOfCount(ids', c);
    }
  }

  /** The deck after the ids have been pushed onto it, in order. */
  function Stocked(s: GameState, ids: seq<int>): (t: GameState)
    requires AllValidIds(ids)
    ensures |t.deck| == |s.deck| + |ids| && t.deck[..|s.deck|] == s.deck
    ensures forall i :: |s.deck| <= i < |t.deck| ==> t.deck[i].id == ids[i - |s.deck|]
    ensures SameFlags(s, t) && t.playerCards == s.playerCards && t.dealerCards == s.dealerCards
  {
    s.(deck := s.deck + CardsOf(ids))
  }

  /** The dealer takes the top (last) card of the deck. */
  function DealerDraws(s: GameState): (t: GameState)
    requires s.deck != []
    ensures |t.deck| == |s.deck| - 1 && |t.dealerCards| == |s.dealerCards| + 1
  {
    var n := |s.deck|;
    s.(deck := s.deck[..n - 1], dealerCards := s.dealerCards + [s.deck[n - 1]])
  }

  /** The player takes the top (last) card of the deck. */
  function PlayerDraws(s: GameState): (t: GameState)
    requires s.deck != []
    ensures |t.deck| == |s.deck| - 1 && |t.playerCards| == |s.playerCards| + 1
  {
    var n := |s.deck|;
    s.(deck := s.deck[..n - 1], playerCards := s.playerCards + [s.deck[n - 1]])
  }

  /** Dealing moves the deck's top card to the end of the dealer's hand and
      touches nothing else; no card is lost or made up. */
  lemma DealerDrawsMovesTop(s: GameState)
    requires s.deck != []
    ensures var t := DealerDraws(s);
      && t.deck + [t.dealerCards[|t.dealerCards| - 1]] == s.deck
      && t.dealerCards[..|s.dealerCards|] == s.dealerCards
      && SameFlags(s, t) && t.playerCards == s.playerCards
      && AllCards(t) == AllCards(s)
  {
    var n := |s.deck|;
    assert s.deck == s.deck[..n - 1] + [s.deck[n - 1]];
    assert DealerDraws(s).dealerCards[..|s.dealerCards|] == s.dealerCards;
  }

  /** A hit moves the deck's top card to the end of the player's hand and
      touches nothing else; no card is lost or made up, and the player's
      points rise by the rank of that card. */
  lemma PlayerDrawsMovesTop(s: GameState)
    requires s.deck != []
    ensures var t := PlayerDraws(s);
      && t.deck + [t.playerCards[|t.playerCards| - 1]] == s.deck
      && t.playerCards[..|s.playerCards|] == s.playerCards
      && SameFlags(s, t) && t.dealerCards == s.dealerCards
      && AllCards(t) == AllCards(s)
      && Points(t.playerCards) == Points(s.playerCards) + Number(s.deck[|s.deck| - 1])
  {
    var n := |s.deck|;
    assert s.deck == s.deck[..n - 1] + [s.deck[n - 1]];
    assert PlayerDraws(s).playerCards[..|s.playerCards|] == s.playerCards;
    PointsAppend(s.playerCards, [s.deck[n - 1]]);
  }

  /** The k top cards of a deck, top first. */
  function Drawn(deck: seq<Card>, k: nat): (r: seq<Card>)
    requires k <= |deck|
    ensures |r| == k
    ensures forall j :: 0 <= j < k ==> r[j] == deck[|deck| - 1 - j]
  {
    if k == 0 then [] else Drawn(deck, k - 1) + [deck[|deck| - k]]
  }

  /** Taking the top card and then k more is taking k + 1 top cards. */
  lemma DrawnStep(deck: seq<Card>, k: nat)
    requires k < |deck|
    ensures [deck[|deck| - 1]] + Drawn(deck[..|deck| - 1], k) == Drawn(deck, k + 1)
  {
    var a := [deck[|deck| - 1]] + Drawn(deck[..|deck| - 1], k);
    var b := Drawn(deck, k + 1);
    forall j | 0 <= j < k + 1
      ensures a[j] == b[j]
    {
      if j > 0 {
        assert a[j] == Drawn(deck[..|deck| - 1], k)[j - 1];
      }
    }
  }

  /** The state after the player has drawn k cards. */
  function Hits(s: GameState, k: nat): (t: GameState)
    requires k <= |s.deck|
    ensures |t.deck| == |s.deck| - k
    decreases k
  {
    if k == 0 then s else PlayerDraws(Hits(s, k - 1))
  }

  /** After k hits the deck has lost its k top cards, which follow the
      player's earlier cards top first; the dealer's hand and the flags are
      untouched. */
  lemma {:induction false} HitsShape(s: GameState, k: nat)
    requires k <= |s.deck|
    ensures var t := Hits(s, k);
      && t.deck == s.deck[..|s.deck| - k]
      && t.playerCards == s.playerCards + Drawn(s.deck, k)
      && SameFlags(s, t) && t.dealerCards == s.dealerCards
    decreases k
  {
    if k > 0 {
      HitsShape(s, k - 1);
      var u := Hits(s, k - 1);
      assert u.deck[|u.deck| - 1] == s.deck[|s.deck| - k];
    }
  }

  /** Hits neither lose nor make up cards. */
  lemma {:induction false} HitsConserve(s: GameState, k: nat)
    requires k <= |s.deck|
    ensures AllCards(Hits(s, k)) == AllCards(s)
    decreases k
  {
    if k > 0 {
      HitsConserve(s, k - 1);
      PlayerDrawsMovesTop(Hits(s, k - 1));
    }
  }

  /** One hit followed by k more is k + 1 hits. */
  lemma HitsAfterHit(s: GameState, k: nat)
    requires k < |s.deck|
    ensures Hits(PlayerDraws(s), k) == Hits(s, k + 1)
  {
    var s' := PlayerDraws(s);
    HitsShape(s', k);
    HitsShape(s, k + 1);
    DrawnStep(s.deck, k);
    assert s'.deck == s.deck[..|s.deck| - 1];
    assert s'.playerCards == s.playerCards + [s.deck[|s.deck| - 1]];
  }

  /** What `init` does: push the shuffled ids onto the deck as cards, deal one
      card to the dealer, then two to the player. */
  function Dealt(s: GameState, ids: seq<int>): GameState
    requires IsShuffle(ids)
  {
    ShuffleIds(ids);
    Hits(DealerDraws(Stocked(s, ids)), 2)
  }

  /** `init` on any game: with `full` the old deck followed by the shuffled
      cards, the dealer gets full's last card, the player the two before it
      (the later one first), and the rest stays in the deck; the flags do not
      change. */
  lemma DealtShape(s: GameState, ids: seq<int>)
    requires IsShuffle(ids)
    ensures |ids| == DECK_SIZE && AllValidIds(ids)
    ensures var full := s.deck + CardsOf(ids); var n := |full|; var t := Dealt(s, ids);
      && t.deck == full[..n - 3]
      && t.dealerCards == s.dealerCards + [full[n - 1]]
      && t.playerCards == s.playerCards + [full[n - 2], full[n - 3]]
      && SameFlags(s, t)
  {
    ShuffleIds(ids);
    var s1 := Stocked(s, ids);
    var s2 := DealerDraws(s1);
    DealerDrawsMovesTop(s1);
    HitsShape(s2, 2);
  }

  /** `init` adds exactly the shuffled cards to those the game already held. */
  lemma DealtConserves(s: GameState, ids: seq<int>)
    requires IsShuffle(ids)
    ensures AllValidIds(ids)
    ensures AllCards(Dealt(s, ids)) == AllCards(s) + multiset(CardsOf(ids))
  {
    ShuffleIds(ids);
    var s1 := Stocked(s, ids);
    var s2 := DealerDraws(s1);
    DealerDrawsMovesTop(s1);
    HitsConserve(s2, 2);
  }

  /** `init` on a game whose deck and hands are empty: 49 cards stay in the
      deck, in shuffled order; the dealer holds the last shuffled card and the
      player the two before it, the later one first; and all 52 cards are
      in the game, each exactly once. */
  lemma DealtFresh(s: GameState, ids: seq<int>)
    requires IsShuffle(ids)
    requires s.deck == [] && s.playerCards == [] && s.dealerCards == []
    ensures |ids| == DECK_SIZE
    ensures var t := Dealt(s, ids);
      && |t.deck| == DECK_SIZE - 3
      && |t.dealerCards| == 1 && |t.playerCards| == 2
      && t.dealerCards[0].id == ids[DECK_SIZE - 1]
      && t.playerCards[0].id == ids[DECK_SIZE - 2]
      && t.playerCards[1].id == ids[DECK_SIZE - 3]
      && (forall i :: 0 <= i < DECK_SIZE - 3 ==> t.deck[i].id == ids[i])
      && SameFlags(s, t)
      && |AllCards(t)| == DECK_SIZE
      && forall c: Card :: AllCards(t)[c] == 1
  {
    ShuffleIds(ids);
    DealtShape(s, ids);
    DealtConserves(s, ids);
    var t := Dealt(s, ids);
    assert AllCards(t) == multiset(CardsOf(ids));
    forall c: Card
      ensures AllCards(t)[c] == 1
    {
      CardsOfCount(ids, c);
    }
  }

  /** `update` may be called: a `Hit` on a running game needs a card in the
      deck, since popping an empty deck panics. */
  predicate Updatable(s: GameState, command: Command)
  {
    Finished(s) || command != Hit || s.deck != []
  }

  /** What `update` does: nothing once the game is finished; otherwise `Hit`
      draws a card for the player and `Stand` and `None` change nothing. */
  function Updated(s: GameState, command: Command): GameState
    requires Updatable(s, command)
  {
    if Finished(s) then s
    else
      match command
      case Hit => PlayerDraws(s)
      case Stand => s
      case None => s
  }

  /** A finished game, and any command but `Hit`, leave the state as it was; a
      `Hit` on a running game moves the deck's top card to the player. In no
      case do the flags or the dealer's hand change, or a card get lost. */
  lemma UpdateEffect(s: GameState, command: Command)
    requires Updatable(s, command)
    ensures var t := Updated(s, command);
      && (Finished(s) || command != Hit ==> t == s)
      && (!Finished(s) && command == Hit ==>
            && t.deck == s.deck[..|s.deck| - 1]
            && t.playerCards == s.playerCards + [s.deck[|s.deck| - 1]])
      && SameFlags(s, t) && t.dealerCards == s.dealerCards
      && AllCards(t) == AllCards(s)
  {
    if !Finished(s) && command == Hit {
      PlayerDrawsMovesTop(s);
    }
  }

  /** The number of `Hit` commands in a sequence of commands. */
  function HitCount(commands: seq<Command>): (k: nat)
    ensures k <= |commands|
  {
    if commands == [] then 0
    else (if commands[0] == Hit then 1 else 0) + HitCount(commands[1..])
  }

  /** A sequence of commands can be fed to `update`, one per frame, without a
      panic. */
  predicate Runnable(s: GameState, commands: seq<Command>)
  {
    Finished(s) || HitCount(commands) <= |s.deck|
  }

  /** The state after `update` has been called with each command in turn. */
  function Run(s: GameState, commands: seq<Command>): GameState
    requires Runnable(s, commands)
    decreases |commands|
  {
    if commands == [] then s
    else Run(Updated(s, commands[0]), commands[1..])
  }

  /** Feeding commands to `update` amounts to as many hits as there are `Hit`
      commands on a running game, and to nothing on a finished one. No
      command ever finishes a game. */
  lemma {:induction false} RunIsHits(s: GameState, commands: seq<Command>)
    requires Runnable(s, commands)
    ensures Finished(s) ==> Run(s, commands) == s
    ensures !Finished(s) ==> Run(s, commands) == Hits(s, HitCount(commands))
    decreases |commands|
  {
    if commands != [] {
      var c, rest := commands[0], commands[1..];
      RunIsHits(Updated(s, c), rest);
      if !Finished(s) && c == Hit {
        HitsAfterHit(s, HitCount(rest));
      }
    }
  }

  /** A game, as the frame loop drives it. */
  class Game {
    var isDebug: bool
    var isOver: bool
    var isClear: bool
    var playerCards: seq<Card>
    var dealerCards: seq<Card>
    var deck: seq<Card>

    /** The value of this game's fields. */
    function State(): GameState
      reads this
    {
      GameState(isDebug, isOver, isClear, playerCards, dealerCards, deck)
    }

    /** A new game: no cards anywhere, and no flag set. */
    constructor ()
      ensures !isDebug && !isOver && !isClear
      ensures playerCards == [] && dealerCards == [] && deck == []
    {
      isDebug, isOver, isClear := false, false, false;
      playerCards, dealerCards, deck := [], [], [];
    }

    /** Push the cards of the shuffled ids onto the deck, deal one to the
        dealer and two to the player. */
    method Init(ids: seq<int>)
      requires IsShuffle(ids)
      modifies this
      ensures State() == Dealt(old(State()), ids)
    {
      ShuffleIds(ids);
      ghost var s0 := State();
      for i := 0 to |ids|
        invariant State() == Stocked(s0, ids[..i])
      {
        assert ids[..i + 1] == ids[..i] + [ids[i]];
        deck := deck + [NewCard(ids[i])];
      }
      assert ids[..|ids|] == ids;
      var card := deck[|deck| - 1];
      deck := deck[..|deck| - 1];
      dealerCards := dealerCards + [card];
      ghost var s2 := State();
      for k := 0 to 2
        invariant State() == Hits(s2, k)
      {
        card := deck[|deck| - 1];
        deck := deck[..|deck| - 1];
        playerCards := playerCards + [card];
      }
    }

    /** Dispatch one command, unless the game is finished. */
    method Update(command: Command)
      requires Updatable(State(), command)
      modifies this
      ensures State() == Updated(old(State()), command)
    {
      if isOver || isClear {
        return;
      }
      match command
      case Hit => this.Hit();
      case Stand => this.Stand();
      case None =>
    }

    /** Move the top card of the deck to the player's hand; an empty deck
        panics. */
    method Hit()
      requires deck != []
      modifies this
      ensures State() == PlayerDraws(old(State()))
    {
      var card := deck[|deck| - 1];
      deck := deck[..|deck| - 1];
      playerCards := playerCards + [card];
    }

    /** Standing only logs; the game is left as it was. */
    method Stand()
      modifies this
      ensures State() == old(State())
    {
    }

    /** The points of a hand: the sum of its cards' ranks. */
    method CalcPoint(cards: seq<Card>) returns (point: int)
      ensures point == Points(cards)
    {
      point := 0;
      for i := 0 to |cards|
        invariant point == Points(cards[..i])
      {
        assert cards[..i + 1][..i] == cards[..i];
        point := point + Number(cards[i]);
      }
      assert cards[..|cards|] == cards;
    }
  }
}
