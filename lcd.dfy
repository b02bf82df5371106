/**
 * The playfield: the calculator's screen, `GFX_LCD_WIDTH` by `GFX_LCD_HEIGHT` pixels.
 * The graphics header defining them is not part of this model; these are the
 * TI-84 Plus CE values.
 */
module Lcd {
  const Width: int := 320
  const Height: int := 240
}
