/**
 * The few names the game board and the score displays share: the views the
 * navigator moves between, the board's two outgoing events, and the
 * character of a decimal digit.
 */
module Common {
  /** ViewType: the views the navigator moves between. */
  datatype ViewType = About | End | Gameboard | Help | Leaderboard | OpenSource | Rating | Start

  /** The board's two outgoing events. */
  datatype BoardEvent = SuccessfulMatch | UnsuccessfulMatch

  /** The character of a decimal digit, as int.ToString() writes it. */
  function DigitChar(d: int): (c: char)
    requires 0 <= d < 10
    ensures '0' <= c <= '9'
  {
    (48 + d) as char
  }
}
