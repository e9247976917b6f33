/** JavaScript strings: sequences of UTF-16 code units, lone surrogates included. */
module CodeUnits {
  type Unit = x: int | 0 <= x < 0x10000
  type Text = seq<Unit>
}
