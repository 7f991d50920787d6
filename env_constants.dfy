/** The world constants: the screen's size in pixels and its conversion to metres. */
module EnvConstants {

  /** Pixels per metre. */
  const PPM: real := 10.0

  /** Screen size in pixels. */
  const SCREEN_WIDTH_PX: nat := 800
  const SCREEN_HEIGHT_PX: nat := 500

  /** A length in pixels expressed in metres. */
  function PixelsToMetres(px: real): (m: real)
    ensures m * PPM == px
  {
    px / PPM
  }

  /** A length in metres expressed in pixels: the inverse of PixelsToMetres. */
  function MetresToPixels(m: real): (px: real)
    ensures PixelsToMetres(px) == m
  {
    m * PPM
  }

  /** SCREEN_WIDTH: the screen width in metres. */
  function ScreenWidth(): (w: real)
    ensures w == 80.0
    ensures MetresToPixels(w) == SCREEN_WIDTH_PX as real
  {
    PixelsToMetres(SCREEN_WIDTH_PX as real)
  }

  /** SCREEN_HEIGHT: the screen height in metres. */
  function ScreenHeight(): (h: real)
    ensures h == 50.0
    ensures MetresToPixels(h) == SCREEN_HEIGHT_PX as real
  {
    PixelsToMetres(SCREEN_HEIGHT_PX as real)
  }
}
