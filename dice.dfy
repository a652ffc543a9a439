/** The dice engine: a roll of `num` dice of one kind plus a fixed modifier.
    The random draws are passed in as the sequence of faces that came up. */
module Dice {

  /** The kinds of die; the program only knows the six-sided one. */
  datatype Die = D6

  /** The number of faces of a die (the `From<Die> for i8` conversion). */
  function Faces(d: Die): nat
  {
    match d
    case D6 => 6
  }

  /** The range of a signed 8-bit integer, the type every score has in the program. */
  predicate InI8(x: int)
  {
    -128 <= x <= 127
  }

  /** How many dice a roll of `num` draws: the range `0..num` is empty when `num` is not positive. */
  function DiceDrawn(num: int): nat
  {
    if num < 0 then 0 else num
  }

  /** Every face lies between 1 and the number of faces of the die, inclusive. */
  predicate ValidFaces(faces: seq<int>, d: Die)
  {
    forall i :: 0 <= i < |faces| ==> 1 <= faces[i] <= Faces(d)
  }

  /** The sum of a sequence of faces. */
  function Sum(faces: seq<int>): int
  {
    if faces == [] then 0 else faces[0] + Sum(faces[1..])
  }

  /** A sum of `n` values each in [lo, hi] lies in [n * lo, n * hi]. */
  lemma {:induction false} SumBounds(faces: seq<int>, lo: int, hi: int)
    requires forall i :: 0 <= i < |faces| ==> lo <= faces[i] <= hi
    ensures |faces| * lo <= Sum(faces) <= |faces| * hi
  {
    if faces != [] {
      SumBounds(faces[1..], lo, hi);
    }
  }

  /** A sequence of `n` copies of `v` sums to `n * v`. */
  lemma {:induction false} SumConstant(n: nat, v: int)
    ensures Sum(seq(n, _ => v)) == n * v
  {
    if n > 0 {
      assert seq(n, _ => v)[1..] == seq(n - 1, _ => v);
      SumConstant(n - 1, v);
    }
  }

  /** The sum of two faces, unfolded. */
  lemma SumOfTwo(faces: seq<int>)
    requires |faces| == 2
    ensures Sum(faces) == faces[0] + faces[1]
  {
    assert Sum(faces) == faces[0] + Sum(faces[1..]);
    assert Sum(faces[1..]) == faces[1] + Sum(faces[2..]);
  }

  /** The sum of three faces, unfolded. */
  lemma SumOfThree(faces: seq<int>)
    requires |faces| == 3
    ensures Sum(faces) == faces[0] + faces[1] + faces[2]
  {
    assert Sum(faces) == faces[0] + Sum(faces[1..]);
    SumOfTwo(faces[1..]);
  }

  /** Roll `num` dice of kind `die` and add `modifier`; `faces` are the faces that came up. */
  function Roll(num: int, die: Die, modifier: int, faces: seq<int>): (r: int)
    requires |faces| == DiceDrawn(num)
    requires ValidFaces(faces, die)
    ensures DiceDrawn(num) + modifier <= r <= DiceDrawn(num) * Faces(die) + modifier
    ensures num <= 0 ==> r == modifier
  {
    SumBounds(faces, 1, Faces(die));
    Sum(faces) + modifier
  }

  /** The bounds of `Roll` are attained: all ones give the least roll and all
      top faces the greatest. */
  lemma RollExtremes(num: nat, die: Die, modifier: int)
    ensures Roll(num, die, modifier, seq(num, _ => 1)) == num + modifier
    ensures Roll(num, die, modifier, seq(num, _ => Faces(die))) == num * Faces(die) + modifier
  {
    SumConstant(num, 1);
    SumConstant(num, Faces(die));
  }

  /** The rolls the program makes (3d6 and 2d6+3) never exceed 18, so they fit in an i8. */
  lemma RollFitsI8(num: int, modifier: int, faces: seq<int>)
    requires (num, modifier) == (3, 0) || (num, modifier) == (2, 3)
    requires |faces| == DiceDrawn(num) && ValidFaces(faces, D6)
    ensures Roll(num, D6, modifier, faces) <= 18
    ensures InI8(Roll(num, D6, modifier, faces))
  {
  }
}
