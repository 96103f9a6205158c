# Dog race: a verified model of the race state

This project models the race logic of a small terminal game in which the
player's dog (`@`) races two CPU dogs (`%` and `#`) along a 100-cell track.
It covers three parts:

- the racer (`Dog`, module `Dogs`);
- the track, which holds the racers and answers "is the race over", "who won"
  and "what is the ranking" (`Track`, module `Tracks`);
- the session (`Game`, module `Games`), with the player's step rule, the timed
  advance of the CPU dogs and the loop that stops at the finish line.

State is modelled as the source holds it. `Dog`, `Track` and `Game` are
classes. `move` updates `position` in place. The track holds references to
dogs it does not own (`seq<Dog>`). The ranking sorts a fresh array copy in
place. A track row is filled by a loop over an array of characters.
`isRaceFinished` and `getWinner` are loops proved against a pure definition
(`AnyFinished`, `FirstFinisher`) on the sequence of positions.

Randomness and time are inputs:
- Each call of `getRandomSteps(min, max)` becomes a step value with the
  precondition `min <= step <= max`.
- In the loop (`Run`), a step is an arbitrary roll folded into the range by
  `Draw`, and `DrawReachesAll` shows that every value in the range can occur.
- The monotonic clock is an integer count of milliseconds (`now`).
- A pending key is `Option<char>`.

Three details of the code shape the contracts:
- The ranking uses `std::sort`, which is not stable (track.cpp:149). So
  nothing is promised about the order of dogs at the same position.
- `move` accepts any integer (dog.cpp:23-25), so `Move` has no
  non-negativity precondition. Every step the game itself passes is
  between 1 and 4.
- The track length is fixed at 100 by the `Game` constructor (game.cpp:78).

## Model

| member | source | states |
|---|---|---|
| `Dogs.Dog.constructor` | dog.cpp:3-5 | the new dog holds exactly the given symbol, initial position, player flag and name |
| `Dogs.Dog.Move` | dog.cpp:23-25 | the position becomes the old position plus `steps`; symbol, player flag and name are constants that nothing changes |
| `Dogs.MovesCompose` | dog.cpp:23-25 | `Move(a)` then `Move(b)` gives the same position as one move by `a + b`, and non-negative steps never move a dog backwards |
| `Tracks.FirstFinisher` | track.cpp:31-38 | there is no finisher iff no position has reached `length`; otherwise the chosen index is at or past the line and every earlier index is short of it |
| `Tracks.FirstFinisherIsFirst` | track.cpp:31-38 | insertion order decides: the first racer at or past the line is chosen even when a later racer is further ahead |
| `Tracks.Track.constructor` | track.cpp:7-8 | the track has the given length (a constant afterwards) and no dogs |
| `Tracks.Track.AddDog` | track.cpp:14-16 | the dog is appended after the existing dogs, whose order is kept; the length is constant |
| `Tracks.Track.IsRaceFinished` | track.cpp:22-29 | returns true iff some dog's position is at least the track length |
| `Tracks.Track.GetWinner` | track.cpp:31-38 | returns null iff no dog has finished, and otherwise the dog at the first index in insertion order that has |
| `Tracks.Track.GetRanking` | track.cpp:147-153 | returns a permutation of the dogs ordered by non-increasing position, leaving the track and the dogs unchanged |
| `Tracks.InsertIntoRanked` | track.cpp:149-151 | one insertion step of the sort keeps the array a permutation and extends the ranked prefix by one cell |
| `Tracks.Track.RenderRow` | track.cpp:101-113 | the row has `length` cells, a dot at each multiple of 4 and a blank elsewhere, except that the dog's symbol occupies cell `pos` iff `0 <= pos < length` |
| `Games.PaceFor` | game.cpp:180-195 | only the leading CPU dog matters: the slowed range iff the player leads it by more than 15; the catch-up range iff the player trails it by more than 15 and is below 70% of the track; otherwise the normal range |
| `Games.MinSteps` | game.cpp:186-194 | the least step of each range (1, 2 or 1) is between 1 and 2, so every move advances the player |
| `Games.MaxSteps` | game.cpp:186-194 | the greatest step of each range (2, 4 or 3) is between 2 and 4 |
| `Games.PaceRangeBounds` | game.cpp:184-195 | each of the three step ranges is non-empty and lies within 1..4 |
| `Games.SlowDownIsSlower` | game.cpp:184-186 | far ahead, the steps are slightly reduced: the same least step and a smaller greatest step than the normal range |
| `Games.CatchUpIsFaster` | game.cpp:187-191 | far behind, the steps are slightly increased: both ends of the range exceed those of the normal range |
| `Games.NoCatchUpLate` | game.cpp:187-188 | at or past 70% of the track the catch-up range is never chosen |
| `Games.Draw` | game.cpp:164-167 | a draw from `min..max` lies in that inclusive range |
| `Games.DrawReachesAll` | game.cpp:164-167 | every value of the range is a possible draw |
| `Games.Game.PositionsInOrder` | game.cpp:104-106 | once initialized, the track's positions are the player's, CPU1's and CPU2's, in that order |
| `Games.Game.FinishedIffSomeDogArrived` | track.cpp:22-29 | once initialized, the race is finished iff one of the three dogs is at or past cell 100 |
| `Games.Game.constructor` | game.cpp:77-90 | track length 100; player `@` at 0 and player-controlled; CPU1 `%` and CPU2 `#` at -5 and not player-controlled; the game not over; the CPU timer starts now |
| `Games.Game.Initialize` | game.cpp:104-106 | appends player, CPU1, CPU2 to the track in that order |
| `Games.Game.MovePlayer` | game.cpp:178-196 | the player advances by the step drawn from the range the three positions and the length select (always 1 to 4); the CPU dogs stay where they are |
| `Games.Game.HandleInput` | game.cpp:169-176 | the player moves once iff the key read is a space; otherwise nothing moves |
| `Games.Game.UpdateCpuDogs` | game.cpp:198-215 | after at least 500 ms both CPU dogs advance by the same step and the timer restarts; before that nothing changes; the player and the CPU gap are never changed |
| `Games.Game.GetWinner` | game.cpp:221-223 | the winner is the player iff the player is at or past the line (so the player wins a simultaneous finish); CPU1 iff the player is short of it and CPU1 is not; CPU2 iff only CPU2 has reached it; null iff nobody has finished |
| `Games.Pass` | game.cpp:241-242 | the state after one pass of input handling and CPU update: no dog moves back, the player gains at most 4 cells, the CPU dogs at most 2, and the distance between the CPU dogs is kept |
| `Games.Game.Tick` | game.cpp:241-259 | one pass: the player moves by the drawn step iff the key is a space; both CPU dogs move by the same drawn step and the timer restarts iff 500 ms have passed, else they and the timer stay; the game is then over iff some dog has reached the finish line, and the outcome is a victory iff the player is at or past it |
| `Games.Game.Run` | game.cpp:235-247 | the recorded states are the passes the loop made, each following from the one before by `Pass`, and the last one is the final state; every pass but the last left all dogs short of the line and the game is over iff the last did not, so the loop stops at the first pass that ends the race; the player wins iff the player is at or past the line; the CPU gap is unchanged; starting short of the line, no dog ends more than 3 cells past it |

## Left out

- Terminal plumbing has no race logic, so it is not modelled: `kbhit`, `clearScreen`, `setCursorPosition`, `setConsoleColor`, `hideCursor`, `showCursor`, ANSI output, `system("clear")`, `usleep`, the banners and the victory and defeat screens (game.cpp:11-75, game.cpp:108-161, game.cpp:252-319).
- `Track::render` is modelled only for building one track row. The header, score lines, colours and borders are formatted output (track.cpp:44-100, track.cpp:114-145).
- The wait for the space bar in `initialize` (game.cpp:151-158) is input polling. `Initialize` models only the order in which the dogs are added.
- main.cpp is not part of this model: its single-instance lock, `srand` and wiring are operating-system set-up.
- The Mersenne Twister and `uniform_int_distribution` are not modelled. A draw is an input value in its inclusive range, which says nothing about its distribution.
- `steady_clock` is not modelled. Time is an integer count of milliseconds given as input. The truncation of `duration_cast` is assumed to have been applied already.
- The race duration in seconds (game.cpp:248-250) is floating point and only displayed, so it is left out.
- `Games.PaceFor`: the floating-point test `position < length * 0.7` (game.cpp:188) is modelled as the integer test `10 * position < 7 * length`. For the game's length of 100 both mean `position < 70`.
- The 100 ms tick period is wall-clock timing, not logic. `Run` takes a finite sequence of passes instead of looping forever.
- The getters (`getSymbol`, `getPosition`, `getName`, `isPlayerControlled`, `getLength`, `getDogs`, `isGameOver`) are modelled as direct reads of the fields. `length`, `symbol`, `isPlayer` and `name` are constants, so no operation can change them.
- Tracks.Track.RenderRow: a negative track length is excluded; the source throws on it (`std::string` of a negative length, track.cpp:103), and the game always uses 100.
- Dogs.Dog.Move: does not model 32-bit `int` overflow, because positions are unbounded integers. `Run` shows that positions in the game stay at most 3 past the finish line.
