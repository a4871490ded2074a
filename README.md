# EAN-13 product codes and symbols, modelled in Dafny

This project models the core of the `barcode` Go repository, which turns a 12- or 13-digit product
code into an EAN-13 symbol. The repository holds two independent implementations, and both are
modelled:

- **The top-level `barcode` package.**
  - `EAN13` holds the code as a `uint64` and comes with its check digit (`computeEANChecksum`), its
    constructors and its string parsers (ean.go).
  - The symbology tables, `b2s` and the coordinate converter (ean_render.go).
  - `renderCode13`, which walks a logical x-cursor across the 109-module layout and drives an
    `eanRenderer` (ean_render.go).
  - The two font measurers and the glyph-cell loop of the bitmap renderer (ean_render_pdf.go,
    ean_render_image.go).
- **The `ean` sub-package.**
  - A string-based validator and checksum (ean/validate.go).
  - The `Ean13` string type (ean/ean.go).
  - An image encoder that tiles the 102-pixel symbol through a writer whose x offset advances in
    place (ean/encode.go).

Modules, one per source concern:

| module | file | models |
|---|---|---|
| `GoInt` | goint.dfy | `uint8` and `uint64`, and Go's truncating `/` (`GoDiv`) |
| `Geometry` | geometry.dfy | `image.Point`, `image.Rectangle`, `image.Rect` |
| `Decimal` | decimal.dfy | ASCII digits, a digit string's value, `%0*d` formatting |
| `Wrappers`, `Errors` | wrappers.dfy, errors.dfy | Go's `(T, error)` returns and the package's error values |
| `Barcode` | ean.dfy | the numeric `EAN13` type and its constructors and parsers |
| `Symbology` | symbology.dfy | `b2s`, the bar table, the parity table and the guard markers |
| `Converter` | converter.dfy | `eanCoordinateConverter`, `translateBar` and `translateFont` |
| `Fonts` | fonts.dfy | `measurePdfFont`, `measureBitmapFont` and the bitmap `DrawDigit` loop |
| `Layout` | layout.dfy | `drawStripe`, `drawDigit` and `renderCode13`, against a recording renderer |
| `Rendering` | render.dfy | `RenderImage` and `RenderPdf`: the converter error comes before any drawing |
| `EanValidate` | ean_validate.dfy | ean/validate.go |
| `EanEncode` | ean_encode.dfy | ean/encode.go, with the image writer as a class |
| `EanCode` | ean_code.dfy | ean/ean.go |
| `Agreement` | agreement.dfy | the two checksum implementations agree |

## How the model is built

**Specification functions and loops.** Each Go loop is a Dafny `method` with a `while` or `for`
loop. Its `ensures` ties the result to a specification function, and the properties are proved about
that function:

- `ComputeEANChecksum` is tied to `CheckDigit`.
- `B2S` is tied to `Stripes`.
- `ComputeChecksum` is tied to `ChecksumChar`.
- `RenderCode13` is tied to `RenderEvents`.
- `EncodeEan13` is tied to `Placed(EncodedPieces(code))`.

**The renderer.** `eanRenderer` becomes `Layout.Recorder`, a class whose `Start`, `DrawBar`,
`DrawDigit` and `End` append an `Event` to its `log` field.

- `renderCode13` is proved to leave `old(log) + RenderEvents(converter, code13)` in that log.
- `RenderEvents` is the logical layout `Code13Ops` with every step sent through the converter.
- The call order, the call counts and the geometry are lemmas about `RenderEvents`.

**The image writer.** `imageWriter` becomes `EanEncode.ImageWriter`. Its `xOffset` field advances
in place, and every `draw.Draw` is recorded as a `Write` of (source image, source column,
destination column, width).

**External code as parameters.**

- The font measurer is a function parameter.
- The glyph sheet of the bitmap font is given by its per-digit width and height.
- A sheet-pixel lookup is represented by the sheet coordinates the fill takes its colour from.

## Model

| member | source | states |
|---|---|---|
| Barcode.ComputeEANChecksum | ean.go:52-61 | the loop returns a digit below 10 that equals CheckDigit, the value that tops the 3,1,3,... weighted sum from the right up to a multiple of ten |
| Barcode.ChecksumStep | ean.go:55-58 | one iteration, adding the low digit with its weight and reducing mod 10, keeps the running total plus the sum of the remaining digits unchanged mod 10 |
| Barcode.WeightedSumPeriodic | ean.go:50 | the weights depend only on the position mod 2 |
| Barcode.WeightedSumAppend | ean.go:55-58 | appending a digit on the right gives it the weight of its position and shifts every other digit one position left |
| Barcode.CheckDigitCompletesSum | ean.go:50-61 | the check digit is below 10, and appended to the payload it makes the 3,1-weighted sum of all thirteen digits a multiple of ten |
| Barcode.AccessorsSplitCode | ean.go:16-26 | Code12() * 10 + Checksum() is Code13(), and Checksum() is a digit |
| Barcode.EAN13FromCode12 | ean.go:68-76 | fails with InvalidEAN exactly when the payload exceeds 999999999999; otherwise the value is valid, Code12() is the payload and Checksum() is its check digit |
| Barcode.EAN13FromCode13 | ean.go:78-89 | InvalidEAN above 9999999999999, then InvalidEANChecksum for a wrong last digit, otherwise the code unchanged; every success is valid |
| Barcode.Code12RoundTrip | ean.go:68-89 | for every payload up to 999999999999, FromCode13 of FromCode12's Code13() succeeds with the same value |
| Barcode.ScanAllDigits | ean.go:91-98 | the early-return scan answers true exactly when every character is '0'..'9' |
| Barcode.EAN13FromString12 | ean.go:100-109 | succeeds exactly on twelve ASCII digits, and fails with InvalidEAN otherwise; a success is a valid code whose payload is the string's decimal value, whose check digit is that payload's, and which prints as the string followed by its check digit |
| Barcode.CodeString | ean.go:28-30 | a code built from a payload prints as the payload's twelve zero-padded digits followed by its check digit |
| Barcode.EAN13FromString13 | ean.go:111-120 | succeeds exactly on thirteen ASCII digits whose value is a valid code; other strings are InvalidEAN, and thirteen digits with a wrong check digit are InvalidEANChecksum; a success holds the string's value and prints as the string |
| Barcode.PayloadStrings | ean_test.go:34-61 | for every payload up to 999999999999, EAN13FromString12 and EAN13FromString of `%012d` and EAN13FromString13 and EAN13FromString of `%012d%d` with the check digit all give the code EAN13FromCode12 builds |
| Barcode.EAN13FromString | ean.go:122-131 | succeeds only for 12 or 13 ASCII digits, with a valid value; 12 dispatches to FromString12, 13 to FromString13, other lengths are InvalidEAN |
| Barcode.StringRoundTrip | ean.go:28-30 | a valid value prints as thirteen zero-padded digits, and EAN13FromString of that string returns the value |
| Barcode.CheckDigitVectors | ean_test.go:13-18 | the check digits of 590123412345, 111234567890, 354212567890 and 12345678901 are 7, 1, 2 and 2 |
| Barcode.ChecksumVectors | ean_test.go:19-33 | those payloads build the codes with those check digits, and the full codes are accepted back unchanged |
| Barcode.RejectionVectors | ean_test.go:66-83 | FromCode12 rejects 1000000000000 and 9999999999999; FromCode13 rejects 10000000000000 as too long and 5901234123450 for its checksum |
| Barcode.StringVectors | ean_test.go:84-93 | "590123412345" is accepted with check digit 7; "10000000000000" and "123456789012a" are InvalidEAN and "5901234123450" is InvalidEANChecksum |
| Decimal.FormatFixedWidth | ean.go:29 | %013d of a value below 10^13 writes exactly thirteen characters, the value's decimal digits most significant first |
| Decimal.ValueOfFormat | ean.go:115 | parsing a zero-padded formatted value gives the value back |
| Decimal.FormatOfValue | ean.go:104 | formatting the value of an all-digit string to its own length gives the string back, leading zeros included |
| Agreement.ChecksumsAgree | ean/validate.go:21-29 | computeChecksum of the twelve-character zero-padded payload is '0' plus computeEANChecksum of the number, although the weight tables are written {1,3} and {3,1} |
| Agreement.ValidationAgrees | ean/validate.go:31-42 | on thirteen characters, validateEan13 passes exactly when EAN13FromString13 succeeds, and the value then prints back as the string |
| Symbology.B2S | ean_render.go:9-29 | the loop returns Stripes(b); on a binary string that is an even, strictly increasing list in [0, len(b)] whose pairs cover exactly the '1' modules |
| Symbology.StripesFromShape | ean_render.go:12-27 | from any index, what b2s appends is increasing, within [i, len(b)], and of odd length exactly when it starts inside a black run |
| Symbology.StripesFromCover | ean_render.go:12-27 | in a binary string, the modules from index i on that the pending boundaries mark black are exactly the '1's |
| Symbology.StripesAreRuns | ean_render.go:9-29 | b2s of a binary string is an even, strictly increasing boundary list within [0, len(b)] whose bars cover module k exactly when b[k] is '1' |
| Symbology.BarTableIsB2S | ean_render.go:31-42 | every entry of the decoded bar table is b2s of the corresponding module string |
| Symbology.BarTableShape | ean_render.go:31-42 | every bar table entry is two bars: four strictly increasing boundaries within [0, 7] |
| Symbology.BarTableEdges | ean_render.go:31-42 | L and G codes start with a white module; R codes start with a black one and end with a white one |
| Symbology.BarPatternComplement | ean_render.go:31-42 | for every digit the R module string is the module-wise complement of the L string |
| Symbology.BarPatternReverse | ean_render.go:31-42 | for every digit the G module string is the R string read backwards |
| Symbology.DispatchTableShape | ean_render.go:44-55 | ten rows of six entries, each 0 or 1; row 0 is all L and column 0 is L in every row |
| Symbology.DispatchTableThreeG | ean_render.go:44-55 | each row for leading digits 1 to 9 has exactly three G (1) entries |
| Symbology.DispatchTableDistinct | ean_render.go:44-55 | distinct leading digits have distinct parity rows |
| Symbology.MarkersDecoded | ean_render.go:57-61 | startMarker and endMarker are b2s("101") = [0,1,2,3], centerMarker is b2s("01010") = [1,2,3,4], each within its marker width |
| Converter.NewConverter | ean_render.go:83-107 | fails in order with AreaTooSmall when Dx/109 <= 0, then FontTooBig when the measured width exceeds 7*scale, then AreaTooSmall when Dy < 2*fontHeight; succeeds exactly otherwise, storing scale = Dx/109, the bound shrunk by (Dx mod 109)/2 on both sides, and the measurer's three outputs |
| Converter.NewConverterValid | ean_render.go:86-106 | a success keeps the outer vertical extent, is centred horizontally and has width between 109*scale and 109*scale+1; with a non-negative measurement it is Valid and lies within the outer rectangle |
| Converter.TranslateBar | ean_render.go:110-119 | the bar starts at bound.Min + (x0*scale, 0), is (x1-x0)*scale wide and Dy - fontH high, and a long bar adds half the font height, truncated |
| Converter.BarWithinBound | ean_render.go:110-119 | for a valid converter and 0 <= x0 <= x1 <= 102 the bar lies within the bound; a short bar ends where the font box begins, and a long bar reaches at least as low |
| Converter.TranslateFont | ean_render.go:121-128 | the glyph box is fontW by fontH with its bottom edge on bound.Max.Y, starts at the cell's left edge plus half (truncated) of the cell width left over by the glyph, and the stored font size is returned |
| Converter.FontCentred | ean_render.go:121-128 | for a valid converter the glyph is centred in its 7-module cell: both gaps are non-negative and the right gap is the left gap or one column more |
| Converter.FontWithinCell | ean_render.go:121-128 | the glyph box lies horizontally inside its digit cell [x*scale, (x+7)*scale], its top is the bottom of a short bar, and for cells of the symbol it lies within the bound |
| Fonts.PdfFontConstants | ean_render_pdf.go:15-21 | the Helvetica font height is 818 - (-207) = 1025, more than the digit width 556 |
| Fonts.PdfFontFits | ean_render_pdf.go:27-32 | for width >= 0 all three outputs are non-negative, the glyph is never wider than the cell, and it is never wider than it is high |
| Fonts.PdfFontMonotone | ean_render_pdf.go:27-32 | each of the three truncating formulas is monotone non-decreasing in the width |
| Fonts.BitmapFontLargest | ean_render_image.go:35-40 | for a sheet glyph width w > 0 the font size is the largest s with s*w <= width, fontWidth = w*s <= width and fontHeight = h*s |
| Fonts.BitmapDrawDigit | ean_render_image.go:78-89 | the nested loop issues exactly w*h fills, and fill number i*h + j is the square of glyph pixel (i, j) coloured from sheet pixel (w*digit + i, j) |
| Fonts.GlyphFillsIndexed | ean_render_image.go:79-88 | the fills of all w columns number w*h, and fill i*h + j is the one for glyph pixel (i, j) |
| Fonts.DotsWithinGlyphBox | ean_render_image.go:81-86 | each fontSize square lies in the w*fontSize by h*fontSize glyph box at rect.Min, and its colour comes from the digit's own column band of the sheet |
| Layout.Recorder.constructor | ean_render.go:130-139 | a fresh renderer has the given converter and an empty call log |
| Layout.Recorder.Start | ean_render.go:130-132 | Start returns the renderer's converter and logs one Start call |
| Layout.Recorder.DrawBar | ean_render.go:133-134 | logs exactly one DrawBar call with the rectangle |
| Layout.Recorder.DrawDigit | ean_render.go:135-136 | logs exactly one DrawDigit call with the digit, its rectangle and the font size |
| Layout.Recorder.End | ean_render.go:137-138 | logs one End call |
| Layout.DrawStripe | ean_render.go:141-145 | the renderer receives one DrawBar per boundary pair (s[0], s[1]), (s[2], s[3]), ..., left to right, translated at cursor cx |
| Layout.DrawDigit | ean_render.go:147-150 | the renderer receives one DrawDigit with translateFont's box and font size for the cell at cx |
| Layout.SplitDigits | ean_render.go:155-159 | filling the array from the last slot down yields the low thirteen decimal digits of code13, most significant first |
| Layout.LeftStripeShape | ean_render.go:171 | the stripe chosen by dispatchTable for a left digit is two bars in the cell, starting after a white module |
| Layout.RightStripeShape | ean_render.go:181 | the column-2 stripe of a right digit is two bars in the cell, ending before a white module |
| Layout.DrawLeftHalf | ean_render.go:169-175 | the loop logs digits 1 to 6, each as its dispatchTable-selected bars and then the digit, and leaves the cursor at the centre guard, column 52 |
| Layout.DrawRightHalf | ean_render.go:179-184 | the loop logs digits 7 to 12, each as its R-code bars and then the digit, and leaves the cursor at the end guard, column 99 |
| Layout.DrawHead | ean_render.go:161-175 | logs the first digit, the long start guard and the left half, and leaves the cursor at column 52 |
| Layout.DrawTail | ean_render.go:176-187 | logs the long centre guard, the right half and the long end guard, and leaves the cursor at column 102 |
| Layout.RenderCode13 | ean_render.go:152-189 | the renderer's log grows by exactly RenderEvents(converter, code13): Start, the translated layout of the thirteen digits, End |
| Layout.LeftCounts | ean_render.go:170-175 | the left half draws digits 1 to 6 in order and twelve short bars, no long ones |
| Layout.RightCounts | ean_render.go:180-184 | the right half draws digits 7 to 12 in order and twelve short bars, no long ones |
| Layout.HeadCounts | ean_render.go:161-175 | up to the centre guard: digits 0 to 6, two long bars, twelve short bars |
| Layout.TailCounts | ean_render.go:176-187 | from the centre guard on: digits 7 to 12, four long bars, twelve short bars |
| Layout.Code13Counts | ean_render.go:161-187 | the symbol draws its thirteen digits most significant first, six long guard bars and twenty-four short digit bars |
| Layout.LeftLaidOut | ean_render.go:170-175 | the left half's bars lie in columns [11, 52], each non-empty and strictly after the previous one |
| Layout.RightLaidOut | ean_render.go:180-184 | the right half's bars lie in columns [57, 98], each non-empty and strictly after the previous one |
| Layout.Code13LaidOut | ean_render.go:161-187 | all bars lie in columns [7, 102] in strictly increasing order, with at least one white module between neighbours, and every digit cell starts inside the symbol |
| Layout.RenderShape | ean_render.go:152-189 | 45 calls: Start first, End last, and in between only DrawBar and DrawDigit; 13 DrawDigit calls for the digits of code13 most significant first, and 30 DrawBar calls |
| Layout.RenderGeometry | ean_render.go:141-189 | through a valid converter every bar and every glyph box lands inside the bound, and the bars come in strictly increasing x order without touching |
| Rendering.RenderWith | ean.go:32-48 | a converter error is returned with nothing drawn; otherwise the result is nil and the log is exactly renderCode13's calls |
| Rendering.RenderImage | ean.go:32-39 | the same for the bitmap renderer's inner rectangle and the bitmap font measurer |
| Rendering.RenderPdf | ean.go:41-48 | the same for the PDF renderer's page rectangle and the Helvetica measurer |
| Rendering.BitmapMeasurer | ean_render_image.go:35-40 | the measurer handed to the converter is measureBitmapFont for the given glyph sheet |
| Rendering.BitmapInner | ean_render_image.go:50-53 | the inner rectangle is in canonical form, and when the bound is large enough it is the bound shrunk by the padding on all four sides |
| Rendering.PdfInner | ean_render_pdf.go:34-40 | the page rectangle less the padding, in the fivefold coordinate scale, in canonical form |
| Rendering.PdfNeverFontTooBig | ean_render.go:92 | a PDF converter never fails with FontTooBig, and when it fails the error is AreaTooSmall |
| Rendering.PdfConverterValid | ean_render.go:83-107 | every successful PDF converter is Valid, so its drawing stays inside the bound |
| Rendering.BitmapConverterValid | ean_render.go:83-107 | with a glyph sheet of positive width every successful bitmap converter is Valid |
| Rendering.DrawnDigitsSpellString | ean_render.go:152-189 | for a valid code the thirteen DrawDigit calls spell the code's String(), left to right |
| EanValidate.AllNumbersWithLength | ean/validate.go:9-19 | the loop with early returns gives NumbersCheck's result: WrongLength, then the first non-digit's position |
| EanValidate.DigitScanFindsFirst | ean/validate.go:13-17 | the scan passes exactly when the rest is digits, and otherwise names the first non-digit |
| EanValidate.NumbersCheckMeaning | ean/validate.go:9-19 | passes exactly when the length matches and all characters are digits; a wrong length is reported before any character, otherwise the first offending position |
| EanValidate.ComputeChecksum | ean/validate.go:21-29 | the loop returns ChecksumChar(code), the digit that completes the 1,3-indexed weighted sum, with the rightmost character weighted 3, to a multiple of ten |
| EanValidate.RunningChecksumMeaning | ean/validate.go:24-27 | the running checksum plus the weighted rest of the string agrees with the whole weighted sum mod 10, at every iteration |
| EanValidate.ChecksumChar | ean/validate.go:21-29 | the check character is a digit and adding its value makes the weighted sum a multiple of ten |
| EanValidate.ValidateEan13 | ean/validate.go:31-42 | passes exactly when the code is 13 digits whose last is the check character of the first twelve; a length or character error is reported first, and otherwise a mismatch names the expected and actual characters |
| EanValidate.AddChecksumEan13 | ean/validate.go:44-50 | a malformed input comes back unchanged with its error; twelve digits come back extended by exactly one character |
| EanValidate.AddChecksumValidates | ean/validate.go:44-50 | twelve digits with their check character appended pass validateEan13 |
| EanValidate.ValidCodeRebuilt | ean/validate.go:44-50 | every valid code is rebuilt by addChecksumEan13 from its first twelve characters |
| EanValidate.ValidateVector | ean/validate_test.go:8-15 | "0123456789012" is valid: the check character of "012345678901" is '2' |
| EanCode.Validated | ean/ean.go:15-19 | succeeds exactly when validateEan13 does, with the same error otherwise and the code unchanged |
| EanCode.NewEan13 | ean/ean.go:7-20 | twelve characters succeed exactly when they are digits, and then give the input plus its check character; other lengths succeed exactly when validateEan13 does; lengths other than 12 and 13 fail; every success is 13 characters long and passes validateEan13 |
| EanCode.NewEan13Idempotent | ean/ean.go:7-20 | building from a built code's String() gives the same code |
| EanCode.NewEan13Routes | ean/ean.go:7-20 | the first twelve characters of a built code build the same code |
| EanCode.NewEan13Vectors | ean/ean_test.go:8-19 | "012345678901" completes to "0123456789012", and "0123456789012" is accepted as it is |
| EanCode.Ean13.Encode | ean/ean.go:24-26 | the writes are those of encodeEan13 as written, rBar for G digits (see Findings) |
| EanEncode.ImageWriter.constructor | ean/encode.go:52-58 | a new writer starts at offset 0 with nothing written |
| EanEncode.ImageWriter.WriteImage | ean/encode.go:76-82 | writes the destination columns [xOffset, xOffset+width) from source column x, then advances xOffset by exactly width |
| EanEncode.ImageWriter.WriteNumber | ean/encode.go:84-99 | writes seven columns from column num*7 of the image the bar type selects, and advances by 7 |
| EanEncode.ImageWriter.WriteSpecial | ean/encode.go:101-110 | boundBar writes columns (0, 3) and midBar columns (4, 5) of the special image, and advances by that width |
| EanEncode.PlacedTiles | ean/encode.go:76-82 | writes placed one after another start at column 0, each starting where the previous ends, and the last ending at their total width |
| EanEncode.WriteLeftHalf | ean/encode.go:122-129 | the loop writes the six left digits in order, lBar for an 'L' of the pattern and the given type otherwise, right after what was written before |
| EanEncode.WriteRightHalf | ean/encode.go:131-134 | the loop writes the six right digits in order with rBar, right after what was written before |
| EanEncode.EncodeWith | ean/encode.go:116-137 | the writer's writes are the sixteen pieces of the code placed side by side from column 0 |
| EanEncode.EncodeEan13 | ean/encode.go:116-137 | encodeEan13 as written: rBar for the G digits |
| EanEncode.EncodeEan13Standard | ean/encode.go:116-137 | the encoder with gBar for the G digits |
| EanEncode.CodePiecesShape | ean/encode.go:116-137 | exactly sixteen writes: the first digit as spaceBar, boundBar, six left digits (lBar for 'L', the G type otherwise), midBar, six rBar digits, boundBar |
| EanEncode.CodePiecesWidth | ean/encode.go:10-13 | the widths sum to 7+3+42+5+42+3 = 102 = kEan13WeigthPx |
| EanEncode.EncodedWritesTile | ean/encode.go:116-137 | the sixteen writes tile the 102-pixel row exactly: the first at column 0, no gap or overlap, the last ending at kEan13WeigthPx |
| EanEncode.EncodedNeverReadsG | ean/encode.go:122-129 | as written, the g image is never read |
| EanEncode.LGMatchesDispatchTable | ean/encode.go:15-20 | every lg letter is L or G, G exactly where dispatchTable has 1, and lg[n][0] is L for every n |
| EanEncode.StandardFollowsDispatchTable | ean/encode.go:122-129 | corrected, each left digit is read from the l image where dispatchTable says 0 and from the g image where it says 1, at column 7 times the digit |
| EanEncode.GParityCounterexample | ean/encode.go:124-128 | for "1000000000009" the third left digit has parity G, and as written it is read from the r image, where the corrected encoder reads the g image |

## Left out

- The `eanRenderer` interface is one recording class, `Layout.Recorder`, not an interface with
  two implementations. The bitmap and PDF renderers differ only in the rectangle and measurer they
  hand to the converter, and both are modelled (`Rendering.RenderImage`, `Rendering.RenderPdf`).
- Pixels are not modelled. This covers `draw.Draw`, `fillRect`, `image.NewUniform`,
  `digitsImage.At`, the glyph images and the destination images (ean_render_image.go, ean/encode.go).
  A bar, a digit or a fill is recorded with its rectangle and source coordinates instead.
- The PDF canvas calls and the PDF renderer's `Start`, `DrawBar`, `DrawDigit` and `End` are not
  modelled. They call the pdf library and convert through `float32` and `pdf.Unit`.
- Rendering.PdfInner: takes the page size and padding as integers. The `pdf.Unit`
  multiplication and the truncating `int` conversion of ean_render_pdf.go:35-39 are not modelled.
- Asset loading and image decoding are external I/O, and so are the startup panics when a
  resource is missing (`imgFromFileOrDie`, `init`, `Asset`). The glyph sheet's per-digit width
  and height are parameters.
- Rendering.BitmapInner: starts from the caller's bound already clipped to the image.
  `Rectangle.Intersect` is not modelled. `Canon` is modelled as `Geometry.Rect`.
- The HTTP server (server/app) and the barcode.go wrapper are not part of this model.
- Barcode.EAN13FromCode12: the `uint64` product `code12*10 + checksum` is formed in unbounded
  integers, which is exact because `code12 <= 999999999999`. Other `uint64` arithmetic is exact for
  the same reason. `int` overflow in the converter and the font measurers is not modelled, because
  those integers are unbounded here.
- The message texts of the `errors.New` and `fmt.Errorf` errors are not modelled. The errors
  are a datatype that keeps which check failed, the offending position and, for a checksum
  mismatch, the expected and actual characters.
- `strconv.ParseUint` becomes the decimal value of an all-digit string. After the length and
  digit checks it cannot fail, and its error path is not modelled.
- `c2i` and `i2c` are not in the repository's files. They are taken to be `c - '0'` and '0' + i.
- EanValidate.ComputeChecksum: requires an all-digit code, which holds at both call sites. On other
  characters `c2i` is unknown.
- Strings are sequences of characters. Go's `len` counts bytes, and `range` reads runes. Here
  lengths and positions both count characters. The accepted strings are ASCII, where the two
  agree, so every parser accepts the same strings as the source. On non-ASCII strings the error
  can differ. EanCode.NewEan13, EanValidate.ValidateEan13 and EanValidate.AllNumbersWithLength
  report WrongLength for a string whose byte length matches and whose character length does not,
  where Go reports an invalid character: "1234567890é" has 12 bytes and 11 characters. Error
  positions count characters, not bytes. In the top-level package both paths give InvalidEAN.
- EanEncode.ImageWriter.WriteNumber: the `panic("Invalid type")` default case cannot be reached
  with the four-valued bar type. It is not modelled.
- EanEncode.WriteLeftHalf: the two `WriteNumber` calls, one per branch on the pattern letter,
  are written as one call whose bar type is chosen by that branch.
- Rendering.RenderImage: requires a glyph width other than zero, as `measureBitmapFont` divides by
  it.
- `barTable` and the three guard markers are written out decoded. `Symbology.BarTableIsB2S` and
  `Symbology.MarkersDecoded` prove that each is `b2s` of the module string the source passes.
- `renderCode13` is split into `DrawHead`, `DrawLeftHalf`, `DrawTail` and `DrawRightHalf`, which run
  its statements in the source's order. The split keeps each proof small.

## Findings

| source | as written | input that shows it | evidently intended | confidence | as-written member | corrected member |
|---|---|---|---|---|---|---|
| ean/encode.go:124-128 | a left digit whose lg letter is 'G' is written with `rBar`, so it is copied from the r image (number set C), and the loaded g image is never used | "1000000000009": leading digit 1 gives pattern "LLGLGG", so left digit 3 has parity G and is copied from the r image | write G digits with `gBar` (number set B), as the lg table and renderCode13's dispatchTable say | not executed | EanEncode.GParityCounterexample | EanEncode.EncodeEan13Standard |
