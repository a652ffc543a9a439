# Character generator model

A Dafny model of the character-generation pipeline of `ftd-character-generator`.
The pipeline picks a race, rolls six ability scores whose formulas depend on the
race, scores the four classes against those abilities, and picks a class from a
pool weighted by the scores.

Every random draw of the program is a parameter of the model, with the range
the program draws from as a precondition:

- a roll of `num` dice gets the faces that came up, a sequence of
  `max(num, 0)` values in [1, 6];
- the race gets a draw in [0, 6];
- `GenerateScores` gets one stream of faces, consumed in the order the
  program evaluates the fields (strength, dexterity, constitution,
  intelligence, wisdom, charisma): 18 faces for a Human, 8 for the other races;
- `GetClass` gets a pick in [0, length of the pool], both ends included.

With the draws fixed, every part is deterministic.

The program's `i8` values are modelled as `int`. Bound lemmas show that every
value the program computes stays inside the `i8` range:
- rolls are at most 18;
- a class score is at most 6 before it is doubled and 12 after;
- the pool always holds 24 entries.

Modules:
- `Dice` (`dice.dfy`): the die, the sum of faces, `Roll`.
- `Abilities` (`abilities.dfy`): races, the race draw, ability scores, `GenerateScores`.
- `Classes` (`classes.dfy`): classes, the class score (`ClassScore`, a method
  with the source's accumulator, proved equal to the function `ClassScoreOf`),
  the pool, and `GetClass` (a method that builds the pool with four loops).

The central theorem is `Classes.ScoresTotal`. Each of the six pairs among
strength, dexterity, intelligence and wisdom is compared exactly once in each
direction across the four classes. So the four class scores always add up to
24. The pool is therefore never empty, and the Warrior fallback is reached
only by the pick 24.

The comment above the race distribution says "50% chance of human race". The
code maps 4 of the 7 draws to Human. The model follows the code
(`Abilities.DrawCounts`).

## Model

| member | source | states |
|---|---|---|
| `Dice.Roll` | src/main.rs:19-28 | with every face in [1, faces of the die], the roll lies in [num + modifier, 6·num + modifier]; a non-positive `num` rolls no dice and gives exactly `modifier` |
| `Dice.SumBounds` | src/main.rs:22-25 | a sum of n faces each in [lo, hi] lies in [n·lo, n·hi] |
| `Dice.RollExtremes` | src/main.rs:11-28 | the bounds of a roll are attained: all ones give num + modifier, all sixes (the d6 face count) give 6·num + modifier |
| `Dice.RollFitsI8` | src/main.rs:19-28 | the two rolls the program makes, 3d6 and 2d6+3, are at most 18 and fit in an i8 |
| `Abilities.RaceOfDraw` | src/main.rs:46-55 | total on [0, 6]: Halfling exactly for 0, Elf exactly for 1, Dwarf exactly for 2, Human exactly for 3..6 |
| `Abilities.DrawCounts` | src/main.rs:45-53 | 4 of the 7 draws give Human (not half); Elf, Dwarf and Halfling get one draw each |
| `Abilities.GenerateScores` | src/main.rs:67-102 | Human: all six scores in [3, 18]; Elf: dexterity and intelligence are 13, the other four in [5, 15]; Dwarf: strength and constitution are 13, the others in [5, 15]; Halfling: wisdom and charisma are 13, the others in [5, 15]; every score fits in an i8 |
| `Abilities.ScoresFromFaces` | src/main.rs:67-102 | each rolled score is the sum of its own dice from the stream, taken in field order, plus the modifier (0 for 3d6, 3 for 2d6+3); fixed fields are 13 and consume no dice |
| `Abilities.TopFacesHuman` | src/main.rs:69-76 | a Human whose dice all show 6 gets 18 in every ability |
| `Classes.RawScore` | src/main.rs:114-192 | the three comparisons of a class sum to a value in [0, 6], so the accumulator fits in an i8 before it is doubled |
| `Classes.ClassScoreOf` | src/main.rs:113-195 | a class score is even and lies in [0, 12]; it is 12 exactly when the primary ability strictly exceeds all three rivals; it is 6 when the compared abilities are all equal |
| `Classes.ClassScore` | src/main.rs:113-195 | the accumulator method computes the class score `ClassScoreOf` (even, in [0, 12]) and the result fits in an i8 |
| `Classes.OppositePoints` | src/main.rs:117-190 | the two opposite comparisons of one pair of abilities add up to 2 |
| `Classes.ScoresTotal` | src/main.rs:113-191 | for any ability scores, warrior + zealot + thief + mage = 24 |
| `Classes.PoolLayout` | src/main.rs:202-218 | the pool has length 24 (never empty, fits in a byte); index i holds Warrior iff i < w, Zealot iff w ≤ i < w+z, Thief iff w+z ≤ i < w+z+t, Mage iff w+z+t ≤ i |
| `Classes.PickCases` | src/main.rs:222-230 | a pick in [0, len] reaches the fallback iff it is 24; the chosen class is Warrior iff the pick is in the Warrior block or is 24, and otherwise the class of the block the pick falls in |
| `Classes.GetClass` | src/main.rs:197-231 | the loops build exactly the block-ordered pool; the result is the pool entry at `pick` for a pick below 24 and Warrior for the pick 24; the race argument has no effect on the result |
| `Classes.TopOfEveryRange` | src/main.rs:48-230 | with every draw at the top of its range: race Human, all abilities 18, every class score 6, and the pick 24 falls back to Warrior |

## Left out

- The random number source (`thread_rng`, `Uniform::new_inclusive`, `gen_range` and the `Distribution`/`Standard` plumbing): replaced by injected draws with range preconditions, because it is an external entropy source.
- Probabilities and frequencies (race frequencies, how often each class is chosen): only the counting facts are stated (4 of 7 draws give Human; 1 of the 25 picks reaches the fallback).
- `Dice.Roll`: does not model `i8` overflow of the sum for rolls whose total exceeds 127 (a panic in a debug build, wrap-around in a release build), because the program only rolls 3d6 and 2d6+3, which `Dice.RollFitsI8` shows stay at most 18.
- The `Equipment` struct: it is never constructed or used.
- `main` and its console output (`println!` and `Debug` formatting): output only. The pipeline it runs (race, then scores, then class) is covered by `Classes.TopOfEveryRange`.
- `Vec` growth is modelled as a value `seq` that each `push` extends; allocation and capacity are not modelled.
