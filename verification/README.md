# Combat and the infection walk, in Dafny

This project models two small simulations from an Advent of Code
repository and proves properties of them.

- **Combat** (`combat.dfy`, module `Combat`) models 2020 day 22. Two players
  hold ordered decks. In each round both draw their top card, and the
  round's winner puts its own card and then the opponent's at the bottom of
  its deck. `score` weights the card `k`-th from the bottom by `k`.
  - `play` is the simple game: the higher card wins the round.
  - `play_rec` and `rec_round` are Recursive Combat. Each level keeps one
    cache of decks already held by player 1 and another for player 2; a
    repeat in either ends the level in player 1's favour. When both players
    hold at least as many cards as the value they drew, the round is decided
    by a sub-game on copies of the next cards, with fresh caches.
- **Infection walk** (`infection.dfy`, module `Infection`) models 2017
  day 22, part one. A carrier starts at the centre of a grid of infected
  cells, heading up. At every burst it toggles the cell it stands on: it
  turns right when the cell was infected and left when it was clean. It then
  steps forward, and it counts the cells it infects. The centre is computed
  from the infected cells alone (half the largest coordinate among them),
  not from the size of the grid.

Both simulations are loops that change state, so `Play`, `RecRound`,
`Grid.Middle` and `Grid.Infect` are methods with loop invariants, and
`Decide`, the round decision that `RecRound` calls, is a method without a
loop. `Play`, `RecRound`, `Decide` and `Grid.Infect` are proved against a
pure function of their inputs: `SimpleGame`, `RecGame`/`RoundWinner` or
`Walk`. The source's promises are then proved about those functions.
`Grid.Middle` states the maximum it computes directly: the centre's doubled
coordinate bounds `max(x, y)` of every infected cell and equals it for one.

The simple game can run forever. `rec_round` always stops: each level puts
player 1's deck into its cache before every round, cards are conserved, so
only finitely many decks can appear before one repeats; and a sub-game holds
fewer cards than its parent. That argument is not proved here. Both games
therefore take a `fuel` bound, one unit per round. A sub-game gets what is
left of its parent's bound. Running out of fuel is reported as `Exhausted`
(or `OutOfFuel`), which the source cannot produce. Panics become results:
a tie or an empty deck in `play` yields `Unreachable`. The seen-deck caches
of `rec_round` hold hashes of decks; here they hold the decks themselves, so
hash collisions are idealised away.

Two details of the code the model follows:

- The round winner pushes its own card first and then the opponent's
  (`day_22.rs:46-47`, `50-51`, `119-120`, `123-124`).
- The largest coordinate is only checked to be even by a `debug_assert!`;
  here that check is a precondition of `Grid.Middle` and `Grid.Infect`.

## Model

| member | source | states |
|---|---|---|
| Combat.RankedSum | 2020/src/days/day_22.rs:34-36 | The weighted sum read from the bottom is 0 for an empty hand and positive for a non-empty hand of positive cards when the weights start at 1 or more |
| Combat.Score | 2020/src/days/day_22.rs:34-36 | `score` is 0 for an empty deck and positive for a non-empty deck of positive cards |
| Combat.ScoreByPosition | 2020/src/days/day_22.rs:34-36 | `score` equals the front-to-back reference sum, in which the card at front position k weighs `|hand| - k` (its 1-based position from the bottom); peeling the top card adds `|hand|` times that card |
| Combat.Award | 2020/src/days/day_22.rs:44-52 | A round keeps the total number of cards |
| Combat.AwardOrder | 2020/src/days/day_22.rs:45-51 | The round's winner ends with its old remaining cards followed by its own drawn card and then the opponent's; the loser's deck only loses its top card |
| Combat.AwardConserves | 2020/src/days/day_22.rs:44-52 | The multiset of all cards the two players hold is the same before and after a round |
| Combat.SimpleGame | 2020/src/days/day_22.rs:43-58 | Drawing from an empty deck or a tie panics. A finished game leaves exactly one deck empty, and its winner (1 or 2) is player 1 exactly when player 2's deck is empty |
| Combat.SimpleGameConserves | 2020/src/days/day_22.rs:43-58 | When the simple game ends, the two decks hold exactly the cards dealt |
| Combat.Play | 2020/src/days/day_22.rs:38-65 | `play` returns the score of the non-empty deck when the game ends and `Unreachable` when it panics |
| Combat.SimpleExample | 2020/src/days/day_22.rs:172-174 | On decks `[9,2,6,3,1]` and `[5,8,4,7,10]` the simple game ends within 29 rounds with player 2 holding `[3,2,10,6,8,5,9,4,7,1]`, which scores 306 |
| Combat.RoundWinner | 2020/src/days/day_22.rs:103-115 | The winner of a round is 1 or 2. When `SubGameLegal` (line 104: each player holds, below its drawn card, at least as many cards as that card's value) fails, the round goes to the higher card, with player 2 winning equal cards |
| Combat.SubGameDecides | 2020/src/days/day_22.rs:104-107 | When `SubGameLegal` (line 104) holds, a sub-game is played on exactly the `d1[0]` cards under player 1's drawn card and the `d2[0]` cards under player 2's, with empty caches, and its winner wins the round |
| Combat.RecGame | 2020/src/days/day_22.rs:84-129 | A level of Recursive Combat that ends names winner 1 or 2, and the winner is 2 exactly when player 1's deck is empty |
| Combat.RecGameStops | 2020/src/days/day_22.rs:88-99 | An empty deck for player 1 means 2 wins; an empty deck for player 2 means 1 wins; a deck player 1 held before at this level, or a deck player 2 held before at this level, means 1 wins at once |
| Combat.RecGameConserves | 2020/src/days/day_22.rs:100-127 | When a level of Recursive Combat ends, the two decks hold exactly the cards it started with |
| Combat.RecRound | 2020/src/days/day_22.rs:84-129 | `rec_round` with fresh caches returns the winner and both final decks of `RecGame` from the decks it was given |
| Combat.Decide | 2020/src/days/day_22.rs:103-115 | After the top cards are drawn, a round is decided by a sub-game on copies of the next `c1` and `c2` cards when both players hold that many, and otherwise by the higher card |
| Combat.PlayRec | 2020/src/days/day_22.rs:67-76 | `play_rec` scores player 1's deck when the winner is 1 and player 2's when it is 2 |
| Combat.RecursiveExample | 2020/src/days/day_22.rs:172-175 | On decks `[9,2,6,3,1]` and `[5,8,4,7,10]` Recursive Combat is won by player 2 with `[7,5,6,2,4,1,10,8,9,3]`, which scores 291 |
| Infection.Turn | 2017/day_22/src/bin/day_22a.rs:22-42 | A right turn moves one step clockwise in Up, Right, Down, Left and a left turn one step counter-clockwise; Up and Down are not turns |
| Infection.TurnsCancel | 2017/day_22/src/bin/day_22a.rs:22-39 | Left then right, or right then left, gives back the heading |
| Infection.FourTurns | 2017/day_22/src/bin/day_22a.rs:22-39 | Four turns the same way give back the heading |
| Infection.TurnChangesAxis | 2017/day_22/src/bin/day_22a.rs:22-39 | Every turn swaps vertical and horizontal headings |
| Infection.Go | 2017/day_22/src/bin/day_22a.rs:45-53 | A step changes exactly one coordinate, by exactly 1: Up decreases the row, Down increases it, Left decreases the column and Right increases it |
| Infection.GoBack | 2017/day_22/src/bin/day_22a.rs:45-53 | Stepping after turning around returns to the previous cell |
| Infection.RowCells | 2017/day_22/src/bin/day_22a.rs:64-69 | A cell of one line is infected exactly when that line holds '#' at its column |
| Infection.CellsOf | 2017/day_22/src/bin/day_22a.rs:61-71 | A cell `(col, row)` is infected exactly when line `row` holds '#' at position `col` |
| Infection.Grid.constructor | 2017/day_22/src/bin/day_22a.rs:61-71 | A grid built from lines holds exactly the cells marked '#' |
| Infection.TestGrid | 2017/day_22/src/bin/day_22a.rs:61-71 | The lines `..#`, `#..`, `...` give the cells (2,0) and (0,1), whose largest coordinate is 2 |
| Infection.Reach | 2017/day_22/src/bin/day_22a.rs:91 | `max(x, y)` of a cell: at least both coordinates and equal to one of them |
| Infection.Extent | 2017/day_22/src/bin/day_22a.rs:91 | The largest `max(x, y)` over a non-empty set of cells is reached by one of them and bounds all of them |
| Infection.Grid.Middle | 2017/day_22/src/bin/day_22a.rs:90-95 | The centre lies on the diagonal, and twice its coordinate is the largest `max(x, y)` among the infected cells |
| Infection.Burst | 2017/day_22/src/bin/day_22a.rs:77-86 | A burst toggles the current cell and no other. It turns right on an infected cell and left on a clean one, steps along the new heading, and counts one infection exactly when the cell was clean |
| Infection.BurstSize | 2017/day_22/src/bin/day_22a.rs:78-84 | A burst that cleans shrinks the infected set by one; a burst that infects grows it by one |
| Infection.Walk | 2017/day_22/src/bin/day_22a.rs:77-86 | `n` bursts of the `infect` loop, one after another; over them the counter never falls and grows by at most `n` |
| Infection.WalkCounts | 2017/day_22/src/bin/day_22a.rs:73-88 | The final set size plus `n` is the initial size plus twice the infections, so the infections equal the growth of the set plus the cleanings |
| Infection.WalkUntouched | 2017/day_22/src/bin/day_22a.rs:77-86 | A cell the carrier never stands on keeps its state for the whole walk |
| Infection.WalkAdd | 2017/day_22/src/bin/day_22a.rs:77-86 | `a` bursts followed by `b` bursts are `a + b` bursts |
| Infection.Grid.Infect | 2017/day_22/src/bin/day_22a.rs:73-88 | `infect(n)` leaves the grid as `n` bursts from the centre, heading up, would, and returns their count of infections, which is at most `n` |
| Infection.WalkExample | 2017/day_22/src/bin/day_22a.rs:73-88 | On the grid `..#`, `#..`, `...`, seven bursts from the centre infect five cells |

## Left out

- The `nom` input parser and the `Problem` implementation of day 22 (2020) are not modelled. They are thin wrappers around a parsing library.
- The `hash` function (`DefaultHasher`) is not part of this model. The caches hold whole decks, so two different decks never collide.
- Reading the grid file, `main`, and the test on `test.txt` are left out; that file is not part of this model. `Grid` is built from lines that were already read. `WalkExample` checks a seven-burst walk on a three-line example grid instead of 10 000 bursts.
- Machine integers are not modelled: `u8` cards, `usize` scores, `i32` coordinates and the `u32` counter are unbounded here, with no overflow.
- Combat.SimpleGame: the bound of `fuel` rounds is part of this model, not of the source. That `rec_round` terminates is not proved, and `Exhausted`/`OutOfFuel` results have no counterpart in the source.
- Combat.RecRound: when the fuel runs out, the decks it returns are not specified. `rec_round` changes its decks through `&mut`; here it takes them as values and hands the final decks back. That a sub-game leaves its parent's decks alone therefore holds by construction and is not stated as a contract.
- Combat.Decide: the round decision of `rec_round` (lines 103-115) is a separate method here, called before the cards are drawn. It decides from the decks as they were before the draw.
- Infection.Go: `Coord::go` updates its receiver in place. Here it returns the new coordinate, which `Infect` assigns to `pos`.
- Infection.Grid.Middle: the `unwrap` on an empty grid and the `debug_assert!` on an odd maximum are preconditions. Release builds, which skip the assertion, are not modelled. The iterator maximum is a loop over the set.
- Infection.Turn: the panic on turning Up or Down is a precondition.
