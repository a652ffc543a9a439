/** Class choice: each class is scored against the ability scores, a pool
    holds each class as many times as its score, and an injected pick
    chooses from the pool. */
module Classes {
  import opened Dice
  import opened Abilities

  datatype Class = Warrior | Zealot | Thief | Mage

  /** What one comparison of the primary ability with a rival adds to a
      class score: 2 when the primary is greater, 1 when equal, 0 when less. */
  function Points(primary: int, rival: int): (p: int)
    ensures 0 <= p <= 2
  {
    if primary > rival then 2 else if primary == rival then 1 else 0
  }

  /** The ability a class is built on. */
  function Primary(s: AbilityScores, c: Class): int
  {
    match c
    case Warrior => s.strength
    case Zealot => s.wisdom
    case Thief => s.dexterity
    case Mage => s.intelligence
  }

  /** The three abilities the primary ability of a class is compared with,
      in the order of the comparisons. */
  function Rivals(s: AbilityScores, c: Class): (r: seq<int>)
    ensures |r| == 3
  {
    match c
    case Warrior => [s.intelligence, s.dexterity, s.wisdom]
    case Zealot => [s.intelligence, s.dexterity, s.strength]
    case Thief => [s.intelligence, s.strength, s.wisdom]
    case Mage => [s.strength, s.dexterity, s.wisdom]
  }

  /** The primary ability of `c` is strictly greater than each of its rivals. */
  predicate Dominates(s: AbilityScores, c: Class)
  {
    forall k :: 0 <= k < 3 ==> Primary(s, c) > Rivals(s, c)[k]
  }

  /** The four compared abilities (strength, dexterity, intelligence, wisdom) are equal. */
  predicate ComparedAllEqual(s: AbilityScores)
  {
    s.strength == s.dexterity == s.intelligence == s.wisdom
  }

  /** The class score before it is doubled: the sum of the three comparisons.
      It stays within an i8. */
  function RawScore(s: AbilityScores, c: Class): (r: int)
    ensures 0 <= r <= 6
  {
    var p, rs := Primary(s, c), Rivals(s, c);
    Points(p, rs[0]) + Points(p, rs[1]) + Points(p, rs[2])
  }

  /** The score of class `c`: twice the raw score. It is even, lies in
      [0, 12], reaches 12 exactly when the primary ability beats all three
      rivals, and is 6 when the compared abilities are all equal. */
  function ClassScoreOf(s: AbilityScores, c: Class): (r: int)
    ensures 0 <= r <= 12 && r % 2 == 0
    ensures r == 12 <==> Dominates(s, c)
    ensures ComparedAllEqual(s) ==> r == 6
  {
    2 * RawScore(s, c)
  }

  /** The two opposite comparisons of a pair of abilities add up to 2. */
  lemma OppositePoints(a: int, b: int)
    ensures Points(a, b) + Points(b, a) == 2
  {
  }

  /** Each of the six pairs among strength, dexterity, intelligence and
      wisdom is compared once in each direction across the four classes, so
      the four class scores always add up to 24. */
  lemma ScoresTotal(s: AbilityScores)
    ensures ClassScoreOf(s, Warrior) + ClassScoreOf(s, Zealot) +
            ClassScoreOf(s, Thief) + ClassScoreOf(s, Mage) == 24
  {
    OppositePoints(s.strength, s.intelligence);
    OppositePoints(s.strength, s.dexterity);
    OppositePoints(s.strength, s.wisdom);
    OppositePoints(s.wisdom, s.intelligence);
    OppositePoints(s.wisdom, s.dexterity);
    OppositePoints(s.dexterity, s.intelligence);
  }

  /** Add the points of one comparison to the running score. */
  method Tally(score: int, primary: int, rival: int) returns (next: int)
    ensures next == score + Points(primary, rival)
  {
    if primary > rival {
      next := score + 2;
    } else if primary == rival {
      next := score + 1;
    } else {
      next := score + 0;
    }
  }

  /** Score class `c` by three comparisons into an accumulator, then double it. */
  method ClassScore(scores: AbilityScores, c: Class) returns (score: int)
    ensures score == ClassScoreOf(scores, c)
    ensures InI8(score)
  {
    score := 0;
    match c {
      case Warrior =>
        score := Tally(score, scores.strength, scores.intelligence);
        score := Tally(score, scores.strength, scores.dexterity);
        score := Tally(score, scores.strength, scores.wisdom);
      case Zealot =>
        score := Tally(score, scores.wisdom, scores.intelligence);
        score := Tally(score, scores.wisdom, scores.dexterity);
        score := Tally(score, scores.wisdom, scores.strength);
      case Thief =>
        score := Tally(score, scores.dexterity, scores.intelligence);
        score := Tally(score, scores.dexterity, scores.strength);
        score := Tally(score, scores.dexterity, scores.wisdom);
      case Mage =>
        score := Tally(score, scores.intelligence, scores.strength);
        score := Tally(score, scores.intelligence, scores.dexterity);
        score := Tally(score, scores.intelligence, scores.wisdom);
    }
    assert score == RawScore(scores, c) && InI8(score);
    score := score * 2;
  }

  /** `n` copies of class `c`. */
  function Repeat(c: Class, n: nat): seq<Class>
  {
    seq(n, _ => c)
  }

  /** The weighted pool: a block of Warriors, then Zealots, Thieves and
      Mages, each block as long as the class score. */
  function Pool(s: AbilityScores): seq<Class>
  {
    Repeat(Warrior, ClassScoreOf(s, Warrior)) + Repeat(Zealot, ClassScoreOf(s, Zealot)) +
    Repeat(Thief, ClassScoreOf(s, Thief)) + Repeat(Mage, ClassScoreOf(s, Mage))
  }

  /** The class at index `pick` of the pool, or Warrior when `pick` is past its end. */
  function Pick(pool: seq<Class>, pick: nat): Class
  {
    if pick < |pool| then pool[pick] else Warrior
  }

  /** The pool has 24 entries (so it is never empty and its length fits in a
      byte), laid out as four consecutive blocks. */
  lemma PoolLayout(s: AbilityScores)
    ensures |Pool(s)| == 24
    ensures var w, z, t := ClassScoreOf(s, Warrior), ClassScoreOf(s, Zealot), ClassScoreOf(s, Thief);
      forall i :: 0 <= i < |Pool(s)| ==>
        (Pool(s)[i] == Warrior <==> i < w) &&
        (Pool(s)[i] == Zealot <==> w <= i < w + z) &&
        (Pool(s)[i] == Thief <==> w + z <= i < w + z + t) &&
        (Pool(s)[i] == Mage <==> w + z + t <= i)
  {
    ScoresTotal(s);
  }

  /** Which class a pick in [0, 24] chooses: Warrior for a pick in the
      Warrior block or for the one-past-the-end pick 24, otherwise the class
      of the block the pick falls in. The fallback is reached only by 24. */
  lemma PickCases(s: AbilityScores, pick: nat)
    requires pick <= |Pool(s)|
    ensures pick >= |Pool(s)| <==> pick == 24
    ensures var w, z, t := ClassScoreOf(s, Warrior), ClassScoreOf(s, Zealot), ClassScoreOf(s, Thief);
      var c := Pick(Pool(s), pick);
      (c == Warrior <==> pick < w || pick == 24) &&
      (c == Zealot <==> w <= pick < w + z) &&
      (c == Thief <==> w + z <= pick < w + z + t) &&
      (c == Mage <==> w + z + t <= pick < 24)
  {
    PoolLayout(s);
  }

  /** Choose a class: build the pool with four loops, then take the entry at
      `pick`, falling back to Warrior past the end. `race` is not used. */
  method GetClass(race: Race, scores: AbilityScores, pick: nat) returns (c: Class)
    requires pick <= |Pool(scores)|
    ensures c == Pick(Pool(scores), pick)
    ensures pick < 24 ==> c == Pool(scores)[pick]
    ensures pick == 24 ==> c == Warrior
  {
    var warrior := ClassScore(scores, Warrior);
    var zealot := ClassScore(scores, Zealot);
    var thief := ClassScore(scores, Thief);
    var mage := ClassScore(scores, Mage);
    var options: seq<Class> := [];

    for i := 0 to warrior
      invariant options == Repeat(Warrior, i)
    {
      options := options + [Warrior];
    }

    for i := 0 to zealot
      invariant options == Repeat(Warrior, warrior) + Repeat(Zealot, i)
    {
      options := options + [Zealot];
    }

    for i := 0 to thief
      invariant options == Repeat(Warrior, warrior) + Repeat(Zealot, zealot) + Repeat(Thief, i)
    {
      options := options + [Thief];
    }

    for i := 0 to mage
      invariant options == Repeat(Warrior, warrior) + Repeat(Zealot, zealot) +
                           Repeat(Thief, thief) + Repeat(Mage, i)
    {
      options := options + [Mage];
    }

    PoolLayout(scores);
    c := Pick(options, pick);
  }

  /** With every draw at the top of its range the race is Human, every
      ability is 18, every class scores 6, and the pick 24 falls back to
      Warrior. */
  lemma TopOfEveryRange()
    ensures RaceOfDraw(6) == Human
    ensures GenerateScores(Human, seq(18, _ => 6)) == AbilityScores(18, 18, 18, 18, 18, 18)
    ensures forall c: Class :: ClassScoreOf(AbilityScores(18, 18, 18, 18, 18, 18), c) == 6
    ensures Pick(Pool(AbilityScores(18, 18, 18, 18, 18, 18)), 24) == Warrior
  {
    TopFacesHuman();
    PoolLayout(AbilityScores(18, 18, 18, 18, 18, 18));
  }
}
