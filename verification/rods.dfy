/** The three rods of the puzzle and the moves between them. */
module Rods {

  /** The rods are named by the one-letter strings 'A', 'B' and 'C'. */
  datatype Rod = A | B | C

  /** One instruction of a plan: take the top disk of `source`, put it on `target`. */
  datatype Move = Move(source: Rod, target: Rod)

  /** The letter naming a rod. */
  function Label(r: Rod): char
  {
    match r
    case A => 'A'
    case B => 'B'
    case C => 'C'
  }

  /** The scene column of a rod: the character code of its label minus 65 ('A'). */
  function Column(r: Rod): (col: int)
    ensures 0 <= col < 3
    ensures col == 0 <==> r == A
    ensures col == 2 <==> r == C
  {
    Label(r) as int - 65
  }

  /** Distinct rods are drawn in distinct columns. */
  lemma ColumnInjective(r1: Rod, r2: Rod)
    ensures Column(r1) == Column(r2) <==> r1 == r2
  {
  }

  /** The three arguments name three different rods. */
  predicate Distinct(x: Rod, y: Rod, z: Rod)
  {
    x != y && y != z && x != z
  }
}
