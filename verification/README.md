# lcd-display in Dafny

A model of the `lcd` crate (src/lib.rs), which draws a non-negative integer
as seven-segment ASCII art. `run(n, padding, width, height)` works in these steps:
1. It writes `n` in decimal and left-pads it with `'0'` to at least `padding` digits.
2. It looks every digit up in a table of 8-bit segment masks.
3. It unpacks each mask most significant bit first.
4. It deals the bits out into three parallel boolean rows, one bit per digit for the cap and three bits per digit for each of the upper and lower bands.
5. It draws each row as one trimmed, newline-terminated text line: a stroke is drawn as `|` or ` `, a horizontal stroke as `width` copies of `_` or ` `, and underscores appear only on separator lines.
6. It stacks the cap line and the two bands, each band `height` lines tall.

The modules follow that pipeline:

- `Text` holds character utilities: `trim_end`, lines joined with `'\n'`, and their inverse split.
- `Decimal` is the decimal text of a number and `pad_input`.
- `Segments` is the segment table `char_map` and `bits_to_vec`.
- `RowBuilder` is `build_rows` and `as_rows`.
- `Render` is `vertical`, `horizontal`, `row_with_separator`, `top_row`, `middle_row` and `bottom_row`.
- `Picture` is an independent reference drawing. Each digit is drawn as the cells of its conventional seven-segment shape, with no bit masks and no rows.
- `Lcd` is `variable_height_row` and `run`.
- `Integration` contains the two end-to-end tests of tests/integration_test.rs.

The main result is `Lcd.Run`. The pipeline's output is exactly the reference drawing of the padded digits, joined into text. The output has `1 + 2 * height` lines and no line ends in a space. The cap line holds no `|`.

Several partner definitions check the model from the other side:
- `Decimal.ValueOf` inverts the decimal text.
- `Segments.PackBits` inverts `bits_to_vec`.
- `Segments.LitSegments` lists the conventional seven-segment shapes.
- `RowBuilder.Column` reads a digit's bits back out of the rows.
- `Render.Cells` draws a row triple by triple, against the source's loop over every index.
- `Text.SplitLines` inverts the joining of lines.

The two panics of the source become preconditions. The model proves that `run` never reaches them:
- the `unwrap` of the table lookup;
- the `assert_eq!` on the row length.

## Model

| member | source | states |
|---|---|---|
| Text.TrimEnd | src/lib.rs:95 | `trim_end` keeps a prefix of the line. Everything it drops is whitespace, and the kept part is empty or ends in a non-whitespace character. |
| Text.SplitJoin | src/lib.rs:95-97 | Every drawn line ends in exactly one newline and holds none inside. Splitting the joined text at newlines therefore gives back exactly the drawn lines. |
| Text.LineCount | src/lib.rs:95-97 | Text joined from `k` lines splits into exactly `k` lines. |
| Decimal.ToDecimal | src/lib.rs:61 | `format!("{}", n)` is non-empty and all digits. It has no leading zero unless `n` is zero. |
| Decimal.ValueOfToDecimal | src/lib.rs:61 | Reading the decimal text of `n` back gives `n`. |
| Decimal.ToDecimalValueOf | src/lib.rs:61 | Every canonical digit string is the decimal text of its value. Decimal text and value are inverse bijections. |
| Decimal.ValueOfLeadingZeros | src/lib.rs:65-70 | Prepending any number of `'0'` keeps the value of a digit string. |
| Decimal.PadInput | src/lib.rs:60-72 | The padded text has length the larger of `padding` and the length of `dec(n)` and ends with `dec(n)`. Every character before that is `'0'`. It is all digits and still denotes `n`. |
| Decimal.NoExcessPadding | src/lib.rs:62-64 | A padding no longer than the number changes nothing: padding never truncates. |
| Decimal.PadExamples | src/lib.rs:206-225 | `pad_input(1234, 5)` is `"01234"`, and `pad_input(1234, 4)` and `pad_input(1234, 3)` are `"1234"`. |
| Segments.SegmentMask | src/lib.rs:45-58 | The table has a mask for exactly the ten digit characters, so the `unwrap` fails for every other character. Every mask has its lowest bit clear. |
| Segments.Lookup | src/lib.rs:29 | The `unwrap` of `map.get` requires the table to hold the character, which makes it a digit. The mask it returns has its unused lowest bit clear. |
| Segments.BitsFrom | src/lib.rs:75-83 | The shift loop of `bits_to_vec`, run for `k` of its iterations, fills exactly `k` entries. `Segments.BitsFromBits` says which bit lands in each entry. |
| Segments.BitsFromBits | src/lib.rs:75-83 | The shift loop of `bits_to_vec` stores bit `k - 1 - i` of its input at position `i`. |
| Segments.BitsToVec | src/lib.rs:74-84 | `bits_to_vec(m)` has eight entries, and entry `i` is bit `7 - i` of `m`: most significant first. |
| Segments.UnpackPack | src/lib.rs:74-84 | Packing eight booleans and unpacking them gives them back. |
| Segments.PackUnpack | src/lib.rs:74-84 | Unpacking a mask loses no bit: packing the result gives the mask back. |
| Segments.BitsToVecExample | src/lib.rs:136-142 | `bits_to_vec(0b11000001)` is `[T, T, F, F, F, F, F, T]`. |
| Segments.PaddingBitUnused | src/lib.rs:47-56 | The last unpacked bit of every table mask is false. |
| Segments.MaskMatchesShape | src/lib.rs:47-56 | Each table mask, unpacked, lights exactly the strokes of its digit's conventional seven-segment shape. |
| Segments.MaskInjective | src/lib.rs:47-56 | Distinct digits have distinct masks. |
| RowBuilder.BuildRows | src/lib.rs:34-43 | `build_rows` adds one column. The earlier digits keep their bits, and the new digit's first seven bits become the last column. The rows grow by 1, 3 and 3. |
| RowBuilder.FoldRows | src/lib.rs:31 | Folding `k` unpacked masks from empty rows gives rows of lengths `k`, `3k` and `3k`. |
| RowBuilder.FoldRowsColumns | src/lib.rs:31-43 | After the fold, column `j` holds exactly the first seven bits of the `j`-th mask. |
| RowBuilder.AsRows | src/lib.rs:26-32 | Every padded character is in the table, so the lookup never fails. The rows have lengths `k`, `3k` and `3k`, and column `j` is the unpacked mask of digit `j` without its eighth bit. |
| RowBuilder.RowIndices | src/lib.rs:34-43 | Digit `j`'s bit 0 is at `cap[j]`, bits 1 to 3 at `upper[3j..3j+3]` and bits 4 to 6 at `lower[3j..3j+3]`. |
| RowBuilder.AsRowsInjective | src/lib.rs:26-32 | Two numbers with the same rows are equal, whatever their paddings. |
| RowBuilder.ColumnDeterminesDigit | src/lib.rs:45-58 | The seven bits a digit contributes identify the digit. |
| Render.Vertical | src/lib.rs:124-130 | `vertical` is one character: `'\|'` exactly when lit, `' '` exactly when not. |
| Render.Horizontal | src/lib.rs:120-122 | `horizontal` is `width` characters, all `'_'` when lit and all `' '` otherwise. |
| Render.Glyph | src/lib.rs:90-93 | The glyph pushed for one bit. At phases 0 and 2 it is one character, `'\|'` exactly when the bit is set and `' '` otherwise. At phase 1 it is `width` characters, all `'_'` when `sep` and the bit both hold and all `' '` otherwise. |
| Render.Glyphs | src/lib.rs:89-94 | The glyphs pushed for a run of bits use only `' '`, `'_'` and `'\|'`. Without `sep` they hold no `'_'`. |
| Render.Untrimmed | src/lib.rs:88-94 | The line `tmp` built before trimming uses only `' '`, `'_'` and `'\|'`, and holds no `'_'` without `sep`. For a row of `3k` bits it is `k * (2 + width)` characters long. |
| Render.GlyphsLength | src/lib.rs:89-94 | Each whole triple drawn from the first phase takes `2 + width` characters. |
| Render.GlyphsSnoc | src/lib.rs:89-94 | Drawing one more bit appends that bit's glyph, chosen by its index modulo three. |
| Render.UntrimmedLoopStep | src/lib.rs:89-94 | Iteration `i` of the loop pushes the glyph of `bits[i]` for phase `i % 3`: vertical at phases 0 and 2, horizontal with `sep && bit` at phase 1. |
| Render.UntrimmedIsCells | src/lib.rs:89-94 | The index-by-index loop draws the same line as drawing the row triple by triple, one cell per digit. |
| Render.GlyphsTriple | src/lib.rs:89-94 | Three loop iterations from the start of a triple draw one cell: left stroke, `width` middle characters, right stroke. |
| Render.CellsLength | src/lib.rs:89-94 | A row of `3k` bits is drawn on `k * (2 + width)` characters before trimming. |
| Render.CellsAppend | src/lib.rs:89-94 | Drawing two rows of whole triples one after the other draws their lines one after the other. |
| Render.CellAt | src/lib.rs:89-94 | Digit `t` is drawn as its own cell, between the cells of the digits before it and after it. |
| Render.CellsCharacters | src/lib.rs:89-94 | A drawn line uses only `' '`, `'_'` and `'\|'`. It has no `'_'` without separators and is blank for an unlit row. It has no `'\|'` when only middle strokes can be lit. |
| Render.UntrimmedCharacters | src/lib.rs:89-94 | The same character facts hold for the loop's untrimmed line. |
| Render.Line | src/lib.rs:95 | The trimmed line is a prefix of the untrimmed one, holds no newline and does not end in a space. Only spaces were removed. An unlit row trims to nothing. |
| Render.RowWithSeparator | src/lib.rs:86-98 | For a row of whole triples, the result is the trimmed line followed by exactly one `'\n'`. An all-false row gives `"\n"`. |
| Render.Expand | src/lib.rs:102-106 | Each cap bit `b` becomes the triple `[false, b, false]`, so the expansion is three times as long. |
| Render.ExpandLightsMiddlesOnly | src/lib.rs:102-106 | An expanded cap row lights only middle positions, and nothing at all when the cap row is unlit. |
| Render.TopRow | src/lib.rs:100-110 | `top_row` is one newline-terminated line that never holds `'\|'`. An unlit cap row gives `"\n"`. |
| Render.MiddleRow | src/lib.rs:112-114 | `middle_row` is one newline-terminated line with no `'_'`. |
| Render.BottomRow | src/lib.rs:116-118 | `bottom_row` is one newline-terminated line. With no middle stroke lit it equals `middle_row`. |
| Render.SeparatorOnlyUnderscores | src/lib.rs:92 | Turning separators on changes only lit middle strokes, from spaces to underscores. |
| Render.SeparatorOnlyWhenLit | src/lib.rs:112-118 | With no middle stroke lit, the separator and non-separator lines are equal. |
| Render.CellsIgnoreSeparator | src/lib.rs:92 | With no middle stroke lit, the separator flag does not change the drawn cells. |
| Render.GlyphExamples | src/lib.rs:144-170 | `vertical(true)` is `"\|"` and `vertical(false)` is `" "`. `horizontal(true, 2)` is `"__"` and `horizontal(false, 3)` is `"   "`. |
| Render.BlankRowExample | src/lib.rs:172-177 | `row_with_separator([F, F, F], 1, true)` is `"\n"`. |
| Render.VerticalRowExample | src/lib.rs:185-190 | `row_with_separator([T, F, T, T, F, T], 1, true)` is `"\| \|\| \|\n"`. |
| Render.HorizontalRowExample | src/lib.rs:192-197 | `row_with_separator([F, T, F, F, T, F], 1, true)` is `" _  _\n"`. |
| Render.NoSeparatorExample | src/lib.rs:199-204 | `row_with_separator([T, T, T], 1, false)` is `"\| \|\n"`. |
| Picture.CellsOfStrokes | src/lib.rs:89-94 | Drawing the strokes of a digit string triple by triple gives each digit's cell in turn. |
| Picture.MaskStrokes | src/lib.rs:34-56 | The unpacked mask of a digit holds its cap stroke at 0, its upper-band strokes at 1 to 3 and its lower-band strokes at 4 to 6. |
| Picture.FoldRowsStrokes | src/lib.rs:31-43 | Folding `build_rows` over masks that carry the strokes of a digit string lays out exactly those strokes, row by row. |
| Picture.RowsAreStrokes | src/lib.rs:26-43 | The rows of `n` are the strokes of its padded digits: the expanded cap row, the upper row and the lower row. |
| Lcd.Band | src/lib.rs:19-24 | A band is `height` lines, none holding a newline. |
| Lcd.Lines | src/lib.rs:3-17 | The lines drawn from the rows are `1 + 2 * height` lines: the cap line, then the two bands. |
| Lcd.Display | src/lib.rs:3-17 | The lines `run` draws for `n` are `1 + 2 * height` lines, none holding a newline. `Lcd.DrawsDigits` gives their content. |
| Lcd.BandTrimmed | src/lib.rs:19-24 | No line of a band ends in a space. |
| Lcd.VariableHeightRow | src/lib.rs:19-24 | `variable_height_row` appends to `result` exactly the band's lines, each followed by a newline. The first `height - 1` lines are drawn without separators and the last one with them. |
| Lcd.LineIsPieces | src/lib.rs:86-98 | A line drawn from the strokes of a digit string is the trimmed run of the digits' cells. |
| Lcd.BandIsDrawing | src/lib.rs:19-24 | A band drawn from the strokes of a digit string is the reference band drawing. |
| Lcd.DrawsDigits | src/lib.rs:3-17 | The lines the pipeline draws for `n` are the reference drawing of its padded digits. |
| Lcd.LinesTrimmed | src/lib.rs:3-17 | No line drawn from the rows ends in a space, and the cap line holds no `'\|'`. |
| Lcd.Run | src/lib.rs:3-17 | `run` returns the reference drawing of the padded digits, each line followed by a newline. The text splits into `1 + 2 * height` lines, none ending in a space, and the first holds no `'\|'`. |
| Integration.PadTen | tests/integration_test.rs:21 | `123456789` padded to ten digits is `"0123456789"`. |
| Integration.SimpleDrawing | tests/integration_test.rs:11-23 | The reference drawing at width 1 and height 1 is the expected three-line text. |
| Integration.DoubleDrawing | tests/integration_test.rs:25-39 | The reference drawing at width 2 and height 2 is the expected five-line text. |
| Integration.SimpleSize | tests/integration_test.rs:17-23 | `run(123456789, 10, 1, 1)` returns the expected text of `test_simple_size`. |
| Integration.DoubleSize | tests/integration_test.rs:33-39 | `run(123456789, 10, 2, 2)` returns the expected text of `test_double_size`. |

## Left out

- Integer widths: `n` is a `u64` and `padding`, `width` and `height` are `usize`. The model uses unbounded naturals. No arithmetic in the source can overflow for inputs that fit these types, except `height - 1`, which is covered by the next line.
- `height - 1` in `variable_height_row` underflows when `height` is 0. With overflow checks on, as in debug and test builds, it panics. In a release build it wraps to `usize::MAX`, and the loop pushes middle rows until memory is exhausted. `Lcd.VariableHeightRow` and `Lcd.Run` require `height >= 1` instead of modelling either outcome.
- The `unwrap` of the table lookup (src/lib.rs:29) becomes the precondition of `Segments.Lookup`. `RowBuilder.AsRows` proves that it holds for every padded character.
- The `assert_eq!` in `row_with_separator` (src/lib.rs:87) becomes the precondition `|bits| % 3 == 0`. The `should_panic` test at src/lib.rs:179-183 is represented by that precondition and is not proved as a panic.
- `char_map` builds a `HashMap<String, u8>`. It is modelled as a total function from characters to optional masks. Hashing and allocation are not modelled.
- `format!("{}", n)` is modelled as the verified function `Decimal.ToDecimal`. The formatting machinery itself is not modelled.
- `String` and `Vec` allocation, and the `&mut String` buffer of `variable_height_row`, are modelled as values that are returned.
- The `PrettyString` wrapper and the `pretty_assert_eq!` macro of tests/integration_test.rs only format test failures. The expected texts are transcribed line by line, without the leading newline that `trim_start_matches('\n')` removes.
- Output is deterministic because every member is a function or a method with no hidden state. No separate property states it.
