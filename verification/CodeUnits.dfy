/** Program text as the source language sees it: sequences of UTF-16 code units. */
module CodeUnits {
  newtype Unit = x: int | 0 <= x < 0x10000

  type Text = seq<Unit>
}
