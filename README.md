# rust-blackjack game model in Dafny

This project models the game logic of a small single-player Blackjack
program: the cards, the deck, the two hands and the commands the player
issues once per frame. It covers the game model in `src/model.rs`; the SDL
front end in `src/main.rs` is not part of this model. The model has three
modules:

- `Cards` (`cards.dfy`) covers a card and its id in 1..52. A card's rank is
  `Number` (`id % 13`) and its suit is `Mark` (`(id - 1) / 13`). `FromFace`
  is their inverse, so distinct ids have distinct (suit, rank) pairs.
- `Scoring` (`scoring.dfy`) covers the points of a hand, which are the sum
  of the ranks of its cards. This sum does not depend on the order of the
  cards.
- `Blackjack` (`game.dfy`) covers the game itself:
  - the `Command` datatype;
  - a `GameState` datatype that holds the value of a game's fields;
  - pure transitions: stocking the deck, the dealer drawing, the player
    drawing, `Hits` (k hits), `Dealt` (what `init` does), `Updated` (what
    `update` does) and `Run` (`update` applied once per command);
  - the `Game` class, whose fields are the three card vectors (as `seq`)
    and the three flags. Each of its methods is proved against one of
    these transitions.

The scoring is exactly what the code computes. A king (ids 13, 26, 39, 52)
scores 0 and an ace scores 1. There is no ace-as-eleven, no face card
worth ten, and no bust or win resolution. No operation of the model sets
`is_over` or `is_clear`: by `RunIsHits` and `HitsShape`, no sequence of
commands changes the flags. So `update` always dispatches the command.

The shuffle is a parameter of `Init`. It can be any ordering of the ids
1..52, meaning any sequence whose multiset is that of `Range(1, 53)`. The
time-seeded random generator that produces it in the program is not
modelled.

Rust's `%` and `/` truncate toward zero, while Dafny's are Euclidean. Card
ids are positive, so the two agree on every input the model admits.

An observation outside the modelled core: `src/main.rs:66` builds the game
with `Game::new()` and never calls `init`. So, as written, the first Left
key press calls `update(Hit)` on an empty deck. In this model, that call is
one whose `Updatable` precondition fails.

## Model

| member | source | states |
|---|---|---|
| `Cards.NewCard` | src/model.rs:18-21 | a card can only be made from an id in 1..52, and it keeps that id |
| `Cards.Number` | src/model.rs:23-25 | the rank lies in 0..12 and is 0 exactly for ids 13, 26, 39 and 52 |
| `Cards.Mark` | src/model.rs:27-29 | the suit lies in 0..3, and suit m holds exactly the ids 13m+1 .. 13m+13 |
| `Cards.FromFace` | src/model.rs:23-29 | every (suit, rank) pair with suit in 0..3 and rank in 0..12 is the face of some card |
| `Cards.FaceRoundTrip` | src/model.rs:23-29 | every card is recovered from its suit and rank |
| `Cards.FaceInjective` | src/model.rs:23-29 | two cards with distinct ids differ in suit or in rank |
| `Scoring.Points` | src/model.rs:108-114 | a hand scores between 0 and 12 per card, and scores 0 exactly when every card in it is a king |
| `Scoring.PointsAppend` | src/model.rs:108-114 | the points of two hands put together add up |
| `Scoring.PointsOrderFree` | src/model.rs:108-114 | two hands with the same cards in any order score the same |
| `Blackjack.Game.CalcPoint` | src/model.rs:108-114 | the loop's accumulated total is the sum of the ranks of the hand; the game is not modified |
| `Blackjack.Game.constructor` | src/model.rs:43-64 | a new game has an empty deck and empty hands, and no flag set |
| `Blackjack.Range` | src/model.rs:67 | the collected ids are lo, lo+1, ..., hi-1, in order |
| `Blackjack.RangeCount` | src/model.rs:67 | each id of 1..52 occurs exactly once among the ordered ids, and no other value does |
| `Blackjack.ShuffleIds` | src/model.rs:67-68 | a shuffle of the ordered ids has 52 entries, each a valid card id, each id exactly once |
| `Blackjack.CardsOf` | src/model.rs:71-73 | the cards made from the ids are in the same order, one card per id with that id |
| `Blackjack.CardsOfCount` | src/model.rs:71-73 | a card occurs among the made cards as often as its id occurs among the ids |
| `Blackjack.Stocked` | src/model.rs:71-73 | pushing the cards keeps the old deck as a prefix and puts the cards after it in id order; hands and flags unchanged |
| `Blackjack.Game.Init` | src/model.rs:66-81 | the new state is `Dealt` of the old state and the shuffled ids |
| `Blackjack.DealerDraws` | src/model.rs:75 | the dealer's draw shrinks the deck by one and grows the dealer's hand by one |
| `Blackjack.DealerDrawsMovesTop` | src/model.rs:75 | the dealer's draw moves the deck's last card to the end of the dealer's hand, changes nothing else and conserves the cards |
| `Blackjack.Drawn` | src/model.rs:77-79 | the k cards drawn are the deck's k last cards, last first |
| `Blackjack.DrawnStep` | src/model.rs:77-79 | drawing the last card and then k more is drawing k + 1 cards |
| `Blackjack.Hits` | src/model.rs:77-79 | k hits shrink the deck by k |
| `Blackjack.HitsShape` | src/model.rs:77-79 | after k hits the deck has lost its k last cards, which follow the player's earlier cards last first; dealer's hand and flags unchanged |
| `Blackjack.HitsConserve` | src/model.rs:77-79 | hits neither lose nor make up cards |
| `Blackjack.DealtShape` | src/model.rs:66-81 | after `init` the dealer holds the last card of old deck + shuffled cards, the player the two before it (later first), the deck the rest; flags unchanged |
| `Blackjack.DealtConserves` | src/model.rs:66-81 | `init` adds exactly the shuffled cards to the cards the game held |
| `Blackjack.DealtFresh` | src/model.rs:66-81 | `init` on an empty game leaves 49 cards in the deck in shuffled order, 1 with the dealer (the last shuffled) and 2 with the player (the two before it), and each of the 52 cards exactly once |
| `Blackjack.PlayerDraws` | src/model.rs:101 | a hit shrinks the deck by one and grows the player's hand by one |
| `Blackjack.PlayerDrawsMovesTop` | src/model.rs:99-102 | a hit moves the deck's last card to the end of the player's hand, changes nothing else, conserves the cards, and adds that card's rank to the player's points |
| `Blackjack.Game.Hit` | src/model.rs:99-102 | on a non-empty deck, the new state is `PlayerDraws` of the old one |
| `Blackjack.HitsAfterHit` | src/model.rs:99-102 | one hit followed by k more is the same state as k + 1 hits |
| `Blackjack.Game.Stand` | src/model.rs:104-106 | standing leaves the game as it was |
| `Blackjack.Game.Update` | src/model.rs:83-97 | the new state is `Updated` of the old state and the command; a `Hit` on a running game needs a non-empty deck |
| `Blackjack.UpdateEffect` | src/model.rs:83-106 | a finished game, and any command but `Hit`, leave the state unchanged; a `Hit` on a running game moves the deck's last card to the player; flags and dealer's hand never change and no card is lost |
| `Blackjack.RunIsHits` | src/model.rs:83-102 | feeding any command sequence to `update` leaves a finished game as it is, and on a running game equals as many hits as there are `Hit` commands |

## Left out

- The time-seeded `StdRng` and its shuffle algorithm (`src/model.rs:44-49`, `src/model.rs:68`): `Init` takes the shuffled ids as a parameter, constrained only to be an ordering of 1..52. The `rng` field is not modelled.
- The `println!` debug output in `new`, `init`, `hit` and `stand`. `Stand` is therefore a method with an empty body.
- The `FPS` constant and everything in `src/main.rs`: SDL set-up, asset loading, rendering, the event loop and its key-to-command mapping, and frame pacing. These are I/O and timing, over a graphics library that is not part of this model. `Run` stands for the frame loop's repeated calls to `update`.
- Panics are modelled as preconditions: `Card::new`'s assertion (`NewCard`), and `unwrap` on an empty deck (`Game.Hit`, `Game.Update`). `init` pushes 52 cards before it pops, so its pops cannot panic.
- `Blackjack.Game.CalcPoint`: does not model the 32-bit overflow of the `i32` accumulator, because it needs a hand of more than 178 million cards; the result is an unbounded integer.
- Vectors are modelled as values (`seq`), so aliasing and capacity are not modelled.
