/** Types shared by every part of the bot model. */
module Common {

  /** Platform-assigned user identifier (a Discord snowflake). */
  type UserId = int

  /** Python's `None`-or-value results. */
  datatype Option<+T> = None | Some(value: T)

  function Min(a: int, b: int): int { if a <= b then a else b }

  function Max(a: int, b: int): int { if a >= b then a else b }
}
