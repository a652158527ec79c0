/** Rules that the game window derives from its round counter and from the
    indices it is given: which mark each player draws, who moves first, and
    how a row or column index selects a board cell. */
module Rules {

  /** Side length of the board: the window builds a 15 x 15 grid of cells. */
  const BoardSize: int := 15

  datatype Option<T> = None | Some(value: T)

  /** The two marks drawn on the board. */
  datatype Mark = X | O

  /** Messages the window writes to the server connection. */
  datatype Message =
    | Move(row: int, col: int)
    | Win
    | Lose
    | DrawRequest
    | DrawConfirm
    | DrawRefuse
    | LeftRoom

  function Other(m: Mark): Mark
  {
    if m == X then O else X
  }

  /** Whether the local player moves first in the round with this counter.
      The counter is a Python int; for the divisor 2 Python's floored `%`
      and Dafny's Euclidean `%` agree, also on negative counters. */
  predicate LocalMovesFirst(roundNumber: int)
  {
    roundNumber % 2 == 0
  }

  /** The mark drawn for `player` (1 is the local player, anything else the
      opponent) in the round with this counter. */
  function MarkOf(roundNumber: int, player: int): Mark
  {
    if player == 1 then
      (if roundNumber % 2 == 0 then X else O)
    else
      (if roundNumber % 2 == 0 then O else X)
  }

  /** The cell index that Python list indexing `board[i]` selects: indices
      from -BoardSize to -1 count from the end, anything outside
      -BoardSize .. BoardSize - 1 raises IndexError (None). */
  function PyIndex(i: int): (r: Option<nat>)
    ensures r.Some? <==> -BoardSize <= i < BoardSize
    ensures r.Some? ==> r.value < BoardSize && (r.value == i || r.value == i + BoardSize)
    ensures r.Some? && 0 <= i ==> r.value == i
  {
    if 0 <= i < BoardSize then Some(i)
    else if -BoardSize <= i < 0 then Some(i + BoardSize)
    else None
  }

  /** Both indices select a cell (`board[row][col]` does not raise). */
  predicate InRange(row: int, col: int)
  {
    PyIndex(row).Some? && PyIndex(col).Some?
  }

  /** The local player draws X exactly in the rounds where it moves first,
      and the opponent always draws the other mark, so the two never
      coincide. */
  lemma MarksByParity(roundNumber: int, player: int)
    requires player != 1
    ensures MarkOf(roundNumber, 1) == X <==> LocalMovesFirst(roundNumber)
    ensures MarkOf(roundNumber, player) == Other(MarkOf(roundNumber, 1))
    ensures MarkOf(roundNumber, player) != MarkOf(roundNumber, 1)
    ensures MarkOf(roundNumber, player) == X <==> !LocalMovesFirst(roundNumber)
  {
  }

  /** Moving on to the next round swaps who moves first and swaps both marks. */
  lemma NextRoundSwaps(roundNumber: int)
    ensures LocalMovesFirst(roundNumber + 1) == !LocalMovesFirst(roundNumber)
    ensures MarkOf(roundNumber + 1, 1) == Other(MarkOf(roundNumber, 1))
    ensures MarkOf(roundNumber + 1, 2) == Other(MarkOf(roundNumber, 2))
  {
  }

  /** After k further rounds the first mover and the local mark are those of
      the starting round when k is even and the opposite ones when k is odd. */
  lemma RoundsAfter(roundNumber: int, k: nat)
    ensures LocalMovesFirst(roundNumber + k) == (LocalMovesFirst(roundNumber) == (k % 2 == 0))
    ensures MarkOf(roundNumber + k, 1) ==
              (if k % 2 == 0 then MarkOf(roundNumber, 1) else Other(MarkOf(roundNumber, 1)))
  {
  }
}
