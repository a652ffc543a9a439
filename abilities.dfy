/** Race choice and the race-dependent ability scores. */
module Abilities {
  import opened Dice

  datatype Race = Human | Elf | Dwarf | Halfling

  /** The six ability scores of a character. */
  datatype AbilityScores = AbilityScores(
    strength: int,
    dexterity: int,
    constitution: int,
    intelligence: int,
    wisdom: int,
    charisma: int)

  /** The race for a uniform draw in 0..=6: one value each for Halfling, Elf
      and Dwarf, every other value Human. */
  function RaceOfDraw(draw: int): (r: Race)
    requires 0 <= draw <= 6
    ensures r == Halfling <==> draw == 0
    ensures r == Elf <==> draw == 1
    ensures r == Dwarf <==> draw == 2
    ensures r == Human <==> 3 <= draw
  {
    match draw
    case 0 => Halfling
    case 1 => Elf
    case 2 => Dwarf
    case _ => Human
  }

  /** The draws in 0..=6 that give race `r`. */
  function DrawsFor(r: Race): set<int>
  {
    set d | 0 <= d <= 6 && RaceOfDraw(d) == r
  }

  /** Four of the seven draws give a Human (not half of them), one each the other races. */
  lemma DrawCounts()
    ensures |DrawsFor(Human)| == 4
    ensures |DrawsFor(Elf)| == 1 && |DrawsFor(Dwarf)| == 1 && |DrawsFor(Halfling)| == 1
  {
    assert DrawsFor(Human) == {3, 4, 5, 6};
    assert DrawsFor(Elf) == {1};
    assert DrawsFor(Dwarf) == {2};
    assert DrawsFor(Halfling) == {0};
  }

  /** How many dice `GenerateScores` rolls for a race: six 3d6 rolls for a
      Human, four 2d6+3 rolls for the others. */
  function DiceFor(race: Race): nat
  {
    if race == Human then 18 else 8
  }

  predicate InRange(x: int, lo: int, hi: int)
  {
    lo <= x <= hi
  }

  /** All six scores of a Human are 3d6 rolls. */
  predicate HumanShape(s: AbilityScores)
  {
    InRange(s.strength, 3, 18) && InRange(s.dexterity, 3, 18) && InRange(s.constitution, 3, 18) &&
    InRange(s.intelligence, 3, 18) && InRange(s.wisdom, 3, 18) && InRange(s.charisma, 3, 18)
  }

  /** An Elf has dexterity and intelligence fixed at 13, the rest 2d6+3. */
  predicate ElfShape(s: AbilityScores)
  {
    s.dexterity == 13 && s.intelligence == 13 &&
    InRange(s.strength, 5, 15) && InRange(s.constitution, 5, 15) &&
    InRange(s.wisdom, 5, 15) && InRange(s.charisma, 5, 15)
  }

  /** A Dwarf has strength and constitution fixed at 13, the rest 2d6+3. */
  predicate DwarfShape(s: AbilityScores)
  {
    s.strength == 13 && s.constitution == 13 &&
    InRange(s.dexterity, 5, 15) && InRange(s.intelligence, 5, 15) &&
    InRange(s.wisdom, 5, 15) && InRange(s.charisma, 5, 15)
  }

  /** A Halfling has wisdom and charisma fixed at 13, the rest 2d6+3. */
  predicate HalflingShape(s: AbilityScores)
  {
    s.wisdom == 13 && s.charisma == 13 &&
    InRange(s.strength, 5, 15) && InRange(s.dexterity, 5, 15) &&
    InRange(s.constitution, 5, 15) && InRange(s.intelligence, 5, 15)
  }

  /** Every score fits in an i8. */
  predicate FitsI8(s: AbilityScores)
  {
    InI8(s.strength) && InI8(s.dexterity) && InI8(s.constitution) &&
    InI8(s.intelligence) && InI8(s.wisdom) && InI8(s.charisma)
  }

  /** The ability scores of a character of race `race`. `faces` is the stream
      of die faces in the order the rolls happen: the fields are evaluated
      strength, dexterity, constitution, intelligence, wisdom, charisma, and a
      fixed field consumes no dice. */
  function GenerateScores(race: Race, faces: seq<int>): (s: AbilityScores)
    requires |faces| == DiceFor(race)
    requires ValidFaces(faces, D6)
    ensures race == Human ==> HumanShape(s)
    ensures race == Elf ==> ElfShape(s)
    ensures race == Dwarf ==> DwarfShape(s)
    ensures race == Halfling ==> HalflingShape(s)
    ensures FitsI8(s)
  {
    match race
    case Human =>
      AbilityScores(
        Roll(3, D6, 0, faces[0..3]),
        Roll(3, D6, 0, faces[3..6]),
        Roll(3, D6, 0, faces[6..9]),
        Roll(3, D6, 0, faces[9..12]),
        Roll(3, D6, 0, faces[12..15]),
        Roll(3, D6, 0, faces[15..18]))
    case Elf =>
      AbilityScores(
        Roll(2, D6, 3, faces[0..2]),
        13,
        Roll(2, D6, 3, faces[2..4]),
        13,
        Roll(2, D6, 3, faces[4..6]),
        Roll(2, D6, 3, faces[6..8]))
    case Dwarf =>
      AbilityScores(
        13,
        Roll(2, D6, 3, faces[0..2]),
        13,
        Roll(2, D6, 3, faces[2..4]),
        Roll(2, D6, 3, faces[4..6]),
        Roll(2, D6, 3, faces[6..8]))
    case Halfling =>
      AbilityScores(
        Roll(2, D6, 3, faces[0..2]),
        Roll(2, D6, 3, faces[2..4]),
        Roll(2, D6, 3, faces[4..6]),
        Roll(2, D6, 3, faces[6..8]),
        13,
        13)
  }

  /** Each rolled score is the sum of its own dice plus the modifier, the
      dice being taken from the stream in field order. */
  lemma {:induction false} ScoresFromFaces(race: Race, faces: seq<int>)
    requires |faces| == DiceFor(race)
    requires ValidFaces(faces, D6)
    ensures race == Human ==> GenerateScores(race, faces) == AbilityScores(
      faces[0] + faces[1] + faces[2], faces[3] + faces[4] + faces[5],
      faces[6] + faces[7] + faces[8], faces[9] + faces[10] + faces[11],
      faces[12] + faces[13] + faces[14], faces[15] + faces[16] + faces[17])
    ensures race == Elf ==> GenerateScores(race, faces) == AbilityScores(
      faces[0] + faces[1] + 3, 13, faces[2] + faces[3] + 3, 13,
      faces[4] + faces[5] + 3, faces[6] + faces[7] + 3)
    ensures race == Dwarf ==> GenerateScores(race, faces) == AbilityScores(
      13, faces[0] + faces[1] + 3, 13, faces[2] + faces[3] + 3,
      faces[4] + faces[5] + 3, faces[6] + faces[7] + 3)
    ensures race == Halfling ==> GenerateScores(race, faces) == AbilityScores(
      faces[0] + faces[1] + 3, faces[2] + faces[3] + 3,
      faces[4] + faces[5] + 3, faces[6] + faces[7] + 3, 13, 13)
  {
    if race == Human {
      SumOfThree(faces[0..3]);
      SumOfThree(faces[3..6]);
      SumOfThree(faces[6..9]);
      SumOfThree(faces[9..12]);
      SumOfThree(faces[12..15]);
      SumOfThree(faces[15..18]);
    } else {
      SumOfTwo(faces[0..2]);
      SumOfTwo(faces[2..4]);
      SumOfTwo(faces[4..6]);
      SumOfTwo(faces[6..8]);
    }
  }

  /** With every die showing its top face, a Human gets 18 in every ability. */
  lemma TopFacesHuman()
    ensures GenerateScores(Human, seq(18, _ => 6)) == AbilityScores(18, 18, 18, 18, 18, 18)
  {
    ScoresFromFaces(Human, seq(18, _ => 6));
  }
}
