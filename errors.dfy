/** The error values of the top-level package: errInvalidEAN and errInvalidEANChecksum (ean.go)
    and errAreaTooSmall and errFontTooBig (ean_render.go). */
module Errors {
  datatype BarcodeError = InvalidEAN | InvalidEANChecksum | AreaTooSmall | FontTooBig
}
