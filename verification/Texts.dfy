/** Text as the browser and server programs index it. */
module Texts {
  /** A UTF-16 code unit. */
  type Unit = x: int | 0 <= x < 65536

  type Text = seq<Unit>

  const NEWLINE: Unit := 10
}
