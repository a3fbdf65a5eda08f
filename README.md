# transplot placement readers, modelled in Dafny

transplot reads a line-oriented text description of a transistor placement and draws it. The description covers:
- the die area;
- the row height, site width, row and site counts;
- one record per transistor, giving its name, position, flip flag, NMOS/PMOS type and a group id (`sdc`);
- in the newer format, pins, SDC macros and paths as well.

This project models the parts of transplot that have logic and proves what they promise:

- **`ReaderV1`** (reader.py) reads the counted-block format.
  - Header lines are matched by keyword prefix.
  - A `TRANSISTORS n` line opens a block of 6-token records, closed by `END TRANSISTORS`.
  - The first malformed or unknown line stops the read, and `read` returns `False`.
- **`ReaderV2`** (reader.py) reads the flat format.
  - Every line stands alone, and each keyword has its own fixed token count.
  - A `PATH` line is scanned for `( x y )` pairs and is never rejected.
- **`BasePlot`** (base_plot.py) and **`Transplot`** (transplot.py) share a lenient reader.
  - Unknown lines are skipped.
  - A line whose parse raises is reported and skipped without changing anything.
  - Group ids are integers.
- **The palette choice**: `Transplot` draws a transistor with the inverter fill when its group has at most two members. Otherwise it uses palette entry `sdc % 20`.
- **`MatplotlibPlot`** geometry: the plot boundary (the die area plus a 2000 margin on each side) and the row rectangles stacked up from the die area.

## How the model is built

- Every reader has a pure specification:
  - `Step(state, line)` gives the new state and the error the line raises, if any;
  - `Run(state, lines)` is the line loop.
- The lemmas are stated about `Step` and `Run`.
- Each Python class becomes a Dafny class with the same fields:
  - `ParseLine` updates the object in place;
  - `ParseTransistor` bumps `sdc_group` in place;
  - `Read` loops over the lines.
- Each of these methods is proved equal to its specification function on the old state.
- A Python exception becomes a `ParseError` value. Its kinds are:
  - `FieldCount`, `MissingField` and `TooFewFields` for IndexError;
  - `NotAnInteger`, `DieAreaCount`, `ExpectedEnd` and `UnknownLine` for ValueError.
- `read`'s boolean is whether `Run` ended without an error.
- Shared modules:
  - `Text` models `str.split()` and `str.startswith`;
  - `Numbers` models `int()` on an optional sign and ASCII digits, and `str()`;
  - `Placement` holds the records and the `sdc_group` counting map, with its invariant `sdc_group == GroupCounts(transistors)`. That map counts every stored transistor once in its group, so the counts sum to the number of transistors;
  - `Fields` holds the strict `_parse_int` and the `_parse_diearea` these files share;
  - `Paths` holds the `re.findall` scan of `_parse_path`.

Quirks of the code the model keeps:
- **The caller picks the reader.** `ReaderV1` and `ReaderV2` are separate classes, each reading one format; nothing detects the version of a file.
- **Unterminated block accepted.** A V1 block left open at the end of the input is accepted (`UnterminatedBlockAccepted`).
- **Block count vs. total count.** The V1 block test compares the count of a `TRANSISTORS n` line with the total number of stored transistors (`LaterBlockCountsEarlierRecords`).
- **Terminator is a prefix test.** `END TRANSISTORS` is recognised by prefix, not by equality (`FullBlockNeedsEnd`).
- **Premature terminator.** An early `END TRANSISTORS` is rejected as a record of the wrong width (`PrematureEndFails`, `EndBeforeCountFails`).
- **`read` does not reset the data.** It resets only the V1 flags, so a second read adds to what the first one stored (`ReaderV1.ReaderV1.Read`, `ReaderV2.ReaderV2.Read`).
- **The fill index is `sdc % 20`.** A transistor whose group has more than two members takes palette entry `sdc % 20` (`Transplot.FillFor`); its type must be `NMOS` or `PMOS`, the keys of the alpha tables, or the lookup raises (`Transplot.Transplot.TransistorFills`).

## Model

| member | source | states |
|---|---|---|
| Text.Tokens | reader.py:119 | `str.split()`: the maximal runs of non-white-space characters, every one a word |
| Text.TokensOfJoinWords | reader.py:119 | splitting words joined by single spaces gives the words back |
| Numbers.ParseInt | reader.py:123 | `int()` accepts exactly a non-empty digit string, or `+`/`-` followed by one; the value is the digits' value, negated after `-`; anything else is a ValueError |
| Numbers.ParseIntOfFormatInt | reader.py:123 | `int(str(n)) == n` for every integer |
| Numbers.ParseInts | reader.py:127 | `map(int, tokens)` succeeds exactly when every token is an integer, and keeps their order |
| Numbers.ParseIntsOfFormatInts | reader.py:127 | formatted integers are read back in order |
| Placement.Bump | reader.py:149-153 | `sdc_group[g] += 1`, or `= 1` for a new group; other groups keep their counts, and `g` becomes a key |
| Placement.GroupCountsAreOccurrences | reader.py:149-153 | a group is a key exactly when some stored transistor has it, and its count is the number of such transistors |
| Placement.StoredGroupsAreKeys | reader.py:149-153 | the group of every stored transistor is a key with count at least one |
| Placement.GroupCountsSum | reader.py:149-153 | the counts sum to the number of stored transistors |
| Placement.CountsMatchAppend | reader.py:85-86 | storing a transistor and bumping its group keeps `sdc_group` equal to the counts of the stored list |
| Fields.ParseIntField | reader.py:117-123 | `_parse_int` succeeds exactly on two tokens whose second is an integer; another width is a field-count error |
| Fields.ParseDieArea | reader.py:125-132 | `_parse_diearea` succeeds exactly when the line's tokens after the keyword are four integers; a non-integer is a ValueError before the count is checked |
| Fields.ParseIntFieldOfIntLine | reader.py:117-123 | `_parse_int` reads back the value a `KEY VALUE` line writes |
| Fields.ParseDieAreaOfDieAreaLine | reader.py:125-132 | `_parse_diearea` reads back the four corners a DIEAREA line writes |
| Paths.PairBody | reader.py:331 | after `(`: a match covers a non-empty prefix and gives two non-negative numbers |
| Paths.PairBodyOfParts | reader.py:331 | after `(`: `\s*`, digits, at least one white space, digits, `\s*`, `)` matches, with any white-space runs; the numbers are the digits' values and the length is the sum of the parts |
| Paths.FindPairsOfSpacedPoint | reader.py:331 | a point written with any white space around and between its numbers, such as `( 1   2 )`, is one match, and the scan resumes right after it |
| Paths.PairAt | reader.py:331 | a match starts with `(` and covers a non-empty prefix; both numbers are non-negative |
| Paths.FindPairs | reader.py:329-335 | `re.findall` of the pair pattern as integer pairs; every pair found is non-negative |
| Paths.FindPairsSkips | reader.py:331 | characters before the first `(` add no pair |
| Paths.FindPairsWithoutParen | reader.py:329-335 | a line without `(` yields the empty path |
| Paths.FindPairsOfPoint | reader.py:331 | the text `(x y)` is one match, and the scan resumes right after it |
| Paths.FindPairsOfPointsText | reader.py:331-333 | scanning the text of any points finds exactly those points, in order |
| Paths.FindPairsOfPathLine | reader.py:329-335 | `_parse_path` of the PATH line of any non-negative points returns those points in order |
| ReaderV1.TransistorRecord | reader.py:134-147 | a block record is accepted exactly when it has six tokens whose second to fourth are integers; another width is a field-count error, a bad integer a ValueError; the group is kept as a string |
| ReaderV1.TransistorRecordOfRecordLine | reader.py:134-147 | a record line written from a transistor is read back as that transistor |
| ReaderV1.ClassifyKeywordLine | reader.py:90-106 | a keyword followed by anything is dispatched to that keyword: TRANSISTOROFFSET is tested before TRANSISTORS |
| ReaderV1.ClassifyIntLine | reader.py:90-106 | a `KEY VALUE` line is dispatched to its keyword |
| ReaderV1.ClassifyMeaning | reader.py:90-108 | dispatch picks a keyword the line starts with, and rejects the line exactly when it starts with none |
| ReaderV1.AddTransistorConsistent | reader.py:149-153 | storing a record keeps the group counts equal to the stored list's |
| ReaderV1.StepConsistent | reader.py:85-86 | any line, accepted or not, keeps the group counts equal to the stored list's |
| ReaderV1.RunConsistent | reader.py:62-73 | after any sequence of lines the group counts equal the stored list's |
| ReaderV1.RunCounts | reader.py:149-153 | after any read, each count is the number of stored transistors of that group, and the counts sum to the list's length |
| ReaderV1.RunConcat | reader.py:64-65 | reading `a + b` is reading `a` and, if it raised nothing, then `b` |
| ReaderV1.RunAccepted | reader.py:64-65 | after an accepted line the read continues from the state it leaves |
| ReaderV1.RunKeepsStoredTransistors | reader.py:85-86 | a read only appends to the stored transistors: what was stored stays, as a prefix |
| ReaderV1.ScalarLineNeedsTwoTokens | reader.py:117-123 | in the header, a scalar or TRANSISTORS line of another width than two is a field-count error; TRANSISTORS has already set the flag |
| ReaderV1.DieAreaNeedsFourIntegers | reader.py:125-132 | in the header, a DIEAREA line is accepted exactly when four integers follow the keyword; a rejected one changes nothing |
| ReaderV1.DieAreaLineStored | reader.py:92-93 | a DIEAREA line stores the corners it writes |
| ReaderV1.ScalarLineStored | reader.py:90-103 | in the header, a `KEY VALUE` line stores its value in its keyword's field |
| ReaderV1.OffsetLineSetsOffset | reader.py:102-103 | a TRANSISTOROFFSET line sets the offset and opens no block |
| ReaderV1.CountLineOpensBlock | reader.py:104-106 | `TRANSISTORS n` opens a block of `n` records |
| ReaderV1.UnknownLineFails | reader.py:107-108 | in the header, a line that starts with no keyword is an error and changes nothing |
| ReaderV1.EmptyLineFails | reader.py:75-108 | the empty line is rejected in every state |
| ReaderV1.BlockNeedsSixTokens | reader.py:134-139 | inside an unfilled block, a line of any width but six is a field-count error and changes nothing |
| ReaderV1.PrematureEndFails | reader.py:77-87 | inside an unfilled block, `END TRANSISTORS` is a record of two tokens and is rejected |
| ReaderV1.BlockRecordStored | reader.py:85-86 | inside an unfilled block, a record line stores its transistor and counts its group |
| ReaderV1.FullBlockNeedsEnd | reader.py:78-84 | once the stored count reaches `n`, the next line is accepted exactly when it starts with `END TRANSISTORS`, which returns to the header; nothing else changes |
| ReaderV1.RunRecords | reader.py:77-87 | record lines inside a block that has room for them store them all, in order |
| ReaderV1.AddAllAppends | reader.py:85-86 | storing records one after another appends them in order and keeps the counts consistent |
| ReaderV1.CompleteBlock | reader.py:62-87 | `TRANSISTORS n`, `n` records and `END TRANSISTORS` are accepted, store exactly the records in order and return to the header |
| ReaderV1.UnterminatedBlockAccepted | reader.py:62-73 | without `END TRANSISTORS` the read still succeeds, left inside the block |
| ReaderV1.EndBeforeCountFails | reader.py:78-87 | `TRANSISTORS 2`, one record, then `END TRANSISTORS` fails with a field-count error |
| ReaderV1.LaterBlockCountsEarlierRecords | reader.py:78 | a block whose count does not exceed the transistors already stored must be closed by its very next line |
| ReaderV1.ReaderV1.constructor | reader.py:16-34 | empty data, not inside a block, count zero |
| ReaderV1.ReaderV1.GetData | reader.py:36-42 | a copy of the data, whose group counts sum to the number of transistors |
| ReaderV1.ReaderV1.ParseTransistor | reader.py:134-155 | parses the record and bumps its group's count in place; the flags are unchanged |
| ReaderV1.ReaderV1.ParseLine | reader.py:75-115 | the new fields and the raised error are those of `Step` on the old state; the counts stay consistent |
| ReaderV1.ReaderV1.Read | reader.py:44-73 | resets the flags but not the data, then the result and new state are those of `Run` |
| ReaderV2.TransistorRecord | reader.py:274-288 | a TRANSISTOR line is accepted exactly when it has seven tokens whose third to fifth are integers; another width is a field-count error, a bad integer a ValueError; the group is kept as a string |
| ReaderV2.PinRecord | reader.py:297-310 | a PIN line is accepted exactly when it has five tokens whose third and fourth are integers; another width is a field-count error, a bad integer a ValueError |
| ReaderV2.SdcRecord | reader.py:312-327 | an SDC line is accepted exactly when it has seven tokens whose last four are integers; another width is a field-count error, a bad integer a ValueError |
| ReaderV2.ClassifyKeywordLine | reader.py:221-246 | a keyword followed by a space is dispatched to that keyword; TRANSISTOROFFSET and TRANSISTOR lines do not capture each other |
| ReaderV2.ClassifyWordsLine | reader.py:221-246 | a keyword line with words after the keyword is dispatched to that keyword |
| ReaderV2.ClassifyMeaning | reader.py:221-248 | dispatch picks a keyword the line starts with, and rejects the line exactly when it starts with none |
| ReaderV2.UnknownLineFails | reader.py:247-248 | a line that starts with no keyword is an error and changes nothing |
| ReaderV2.EmptyLineFails | reader.py:247-248 | the empty line is an error |
| ReaderV2.AddTransistorConsistent | reader.py:289-293 | storing a record keeps the group counts equal to the stored list's |
| ReaderV2.StepConsistent | reader.py:235-237 | any line keeps the group counts equal to the stored list's |
| ReaderV2.RunConsistent | reader.py:205-208 | after any sequence of lines the group counts equal the stored list's |
| ReaderV2.RunCounts | reader.py:289-293 | after any read, each count is the number of stored transistors of that group, and the counts sum to the list's length |
| ReaderV2.ScalarLineNeedsTwoTokens | reader.py:257-263 | a scalar line of another width than two is a field-count error and changes nothing |
| ReaderV2.ScalarLineStored | reader.py:221-234 | a `KEY VALUE` line stores its value in its keyword's field |
| ReaderV2.OffsetLineSetsOffset | reader.py:233-234 | a TRANSISTOROFFSET line sets the offset and stores no transistor |
| ReaderV2.DieAreaNeedsFourIntegers | reader.py:265-272 | a DIEAREA line is accepted exactly when four integers follow the keyword; a rejected one changes nothing |
| ReaderV2.DieAreaLineStored | reader.py:223-224 | a DIEAREA line stores the corners it writes |
| ReaderV2.RecordNeedsFixedWidth | reader.py:274-317 | a TRANSISTOR or SDC line of other than seven tokens, or a PIN line of other than five, is a field-count error and changes nothing |
| ReaderV2.CountLineIsNotARecord | reader.py:235-237 | a V1 `TRANSISTORS n` line is a two-token TRANSISTOR record here, and is rejected |
| ReaderV2.TransistorRecordOfLine | reader.py:274-288 | a TRANSISTOR line written from a transistor is read back as that transistor |
| ReaderV2.TransistorLineStored | reader.py:235-237 | a TRANSISTOR line appends its record and counts its string group |
| ReaderV2.PinLineStored | reader.py:238-240 | a PIN line appends its pin |
| ReaderV2.SdcLineStored | reader.py:241-243 | an SDC line appends its macro |
| ReaderV2.PathLineNeverFails | reader.py:244-246 | a PATH line is never an error and appends one path, which is empty when the line has no `(` |
| ReaderV2.PathLineStored | reader.py:329-335 | the PATH line of some points appends exactly those points |
| ReaderV2.RunConcat | reader.py:205-208 | reading `a + b` is reading `a` and, if it raised nothing, then `b` |
| ReaderV2.FailingLineFailsRead | reader.py:205-214 | a line rejected in every state makes any read containing it fail |
| ReaderV2.ForeignLineFailsRead | reader.py:247-248 | a read containing `FOO 1 2` fails, wherever that line is |
| ReaderV2.AddAllAppends | reader.py:235-237 | storing records one after another appends them in order and touches no other list |
| ReaderV2.RunTransistorLines | reader.py:205-208 | the TRANSISTOR lines of any transistors store them all, in order |
| ReaderV2.ReadTransistorLines | reader.py:235-237 | from empty data, those lines give exactly that list and its group counts |
| ReaderV2.ThreeTransistorsOneGroup | reader.py:289-293 | three TRANSISTOR lines of group `g1` are stored, and `g1` is counted three times |
| ReaderV2.ReaderV2.constructor | reader.py:166-181 | empty data |
| ReaderV2.ReaderV2.GetData | reader.py:183-189 | a copy of the data, whose group counts sum to the number of transistors |
| ReaderV2.ReaderV2.ParseTransistor | reader.py:274-295 | parses the record and bumps its group's count in place |
| ReaderV2.ReaderV2.ParseLine | reader.py:218-255 | the new data and the raised error are those of `Step` on the old data; the counts stay consistent |
| ReaderV2.ReaderV2.Read | reader.py:191-216 | with no reset, the result and new data are those of `Run` |
| Lenient.IntField | base_plot.py:85-87 | `_parse_int` succeeds exactly when there is a second token and it is an integer; later tokens are ignored; a missing one is an IndexError |
| Lenient.TransistorRecord | base_plot.py:97-110 | a TRANSISTOR line needs at least seven tokens (else an IndexError), and x, y, flipped and the group must be integers |
| Lenient.Step | base_plot.py:61-83 | a reported error never comes with a change, and a line of no keyword is neither reported nor stored |
| Lenient.ClassifyKeywordLine | base_plot.py:64-76 | a keyword followed by a space is dispatched to that keyword |
| Lenient.ClassifyWordsLine | base_plot.py:64-76 | a keyword line with words after the keyword is dispatched to that keyword |
| Lenient.ClassifyMeaning | base_plot.py:64-78 | dispatch picks a keyword the line starts with, and skips the line exactly when it starts with none |
| Lenient.UnknownLineIgnored | base_plot.py:64-78 | a line that starts with no keyword, the empty line among them, is skipped without a report or a change |
| Lenient.StepConsistent | base_plot.py:112-116 | any line keeps the group counts equal to the stored list's |
| Lenient.RunConsistent | base_plot.py:56-57 | after any sequence of lines the group counts equal the stored list's |
| Lenient.RunCounts | base_plot.py:112-116 | after any read, each count is the number of stored transistors of that group, and the counts sum to the list's length |
| Lenient.ScalarLineStored | base_plot.py:85-87 | a scalar line stores its second token, whatever words follow it |
| Lenient.ScalarLineNeedsValue | base_plot.py:85-87 | a scalar keyword with nothing after it is reported as a missing field and changes nothing |
| Lenient.DieAreaNeedsFourIntegers | base_plot.py:89-95 | DIEAREA is stored exactly when four integers follow the keyword; otherwise nothing changes |
| Lenient.DieAreaLineStored | base_plot.py:66-67 | a DIEAREA line stores the corners it writes |
| Lenient.TransistorRecordOfLine | base_plot.py:99-110 | a TRANSISTOR line written from a transistor, with any words after the group, is read back as that transistor |
| Lenient.TransistorLineStored | base_plot.py:76-78 | such a line appends the transistor and counts its integer group |
| Lenient.NonIntegerGroupRejected | base_plot.py:109 | a TRANSISTOR line whose group is not an integer is reported and changes nothing |
| Lenient.ClassifyTransistorPrefix | base_plot.py:64-76 | every line that starts with TRANSISTOR reaches the TRANSISTOR branch |
| Lenient.ShortTransistorLineRejected | base_plot.py:100-102 | `TRANSISTORS n` and `TRANSISTOROFFSET n` reach the TRANSISTOR branch, are too short, and change nothing |
| Lenient.RunConcat | base_plot.py:56-57 | reading `a + b` is reading `a` and then `b` |
| Lenient.RejectedLineSkipped | base_plot.py:79-83 | a line rejected in every state is skipped: the read ends as if it were absent |
| BasePlot.BasePlot.constructor | base_plot.py:13-23 | empty data |
| BasePlot.BasePlot.GetData | base_plot.py:132-138 | the data, whose group counts sum to the number of transistors |
| BasePlot.BasePlot.ParseTransistor | base_plot.py:97-118 | parses the record and bumps its integer group's count in place |
| BasePlot.BasePlot.ParseLine | base_plot.py:61-83 | the new data and the reported error are those of `Step` on the old data; the counts stay consistent |
| BasePlot.BasePlot.Read | base_plot.py:48-59 | every line is parsed in turn; the new data is that of `Run` |
| Transplot.FillFor | transplot.py:241-246 | the inverter fill exactly when the group has at most two members; otherwise a palette index in `[0, 20)` congruent to the group id modulo 20 |
| Transplot.LookupNeverMisses | transplot.py:241 | when the counts are consistent, the group of every stored transistor is a key, and its count is the group's size |
| Transplot.InverterIffSmallGroup | transplot.py:241-246 | after any read, a transistor gets the inverter fill exactly when at most two stored transistors share its group |
| Transplot.Transplot.constructor | transplot.py:88-97 | empty data |
| Transplot.Transplot.GetData | transplot.py:187-191 | the data, whose group counts sum to the number of transistors |
| Transplot.Transplot.ParseTransistor | transplot.py:165-185 | parses the record and bumps its integer group's count in place |
| Transplot.Transplot.ParseLine | transplot.py:132-153 | the new data and the reported error are those of `Step` on the old data; the counts stay consistent |
| Transplot.Transplot.Read | transplot.py:121-130 | every line is parsed in turn; the new data is that of `Run` |
| Transplot.Transplot.TransistorFills | transplot.py:238-273 | a `KeyError` exactly when some stored transistor's type is neither `NMOS` nor `PMOS`, naming the first such type; otherwise one fill per stored transistor, in order, by the rule of `FillFor`, inverter exactly for groups of at most two |
| MatplotlibPlot.PlotBoundary | matplotlib_plot.py:218-235 | all zeros without a die area; otherwise the die area widened by 2000 on every side |
| MatplotlibPlot.BoundaryContainsDieArea | matplotlib_plot.py:230-235 | every point of an ordered die area lies strictly inside the boundary, which is 4000 wider |
| MatplotlibPlot.RowsContiguous | matplotlib_plot.py:136-140 | consecutive rows share their left edge and width, and each starts where the one below ends |
| MatplotlibPlot.GenerateRowRectangles | matplotlib_plot.py:118-147 | no rows without a die area or with a row height that is unset or 0; a TypeError when the row count is unset; otherwise `max(num_rows, 0)` rows, row `i` at `(xl, yl + i*row_height)` of size `(xh - xl, row_height)`, contiguous |

## Left out

- File opening, `splitlines`, `FileNotFoundError` and every `print` are I/O. `Read` takes the lines as a sequence, and the text of error messages is reduced to a `ParseError` kind.
- Python's `int()` also accepts underscores, surrounding white space and non-ASCII digits, and Python's `\d` in the PATH pattern matches non-ASCII digits. Both are modelled on ASCII digits only. `\s` and `str.split()` are modelled on the ASCII white-space characters and U+001C to U+001F.
- Drawing is not modelled: `PlotRectangle.draw`, `MatplotlibRect.draw` and every `plot()` method.
- Floating-point geometry is not modelled:
  - the division by `scale` in transplot.py;
  - the transistor rectangles built from `row_height / 2` and the shrink ratios;
  - `_convert_int_to_float_rgb`;
  - the alpha values and the colour values themselves. Only the palette index and the keys of the alpha tables are modelled.
- transplot.py's `generate_row_rectangles` divides by `scale` in floating point and is not part of this model. The integer row geometry is the one in matplotlib_plot.py.
- cairo_plot.py is not part of this model: its geometry is scaled in floating point, and its colours come from a colour map defined nowhere in these files.
- `self.color_map` and `_is_transistor_to_color_plot`, used by matplotlib_plot.py, are defined nowhere in these files. The fill choice of `_generate_transistor_rectangles` is therefore not modelled.
- transplot_runner.py is command-line glue and is not part of this model.
- `MatplotlibPlot` inherits its reader from `BasePlot`. Its geometry is modelled as functions and a method over the reader's data value, not as a subclass.
- BasePlot.BasePlot.GetData: base_plot.py and transplot.py return `self.data` itself, not a copy, so a caller that mutates the result changes the plot object; the model returns a value and does not capture that aliasing.
- Transplot.Transplot.GetData: the same aliasing of `self.data` as `BasePlot.BasePlot.GetData`.
