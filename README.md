# Radio channel-plan converters, modelled in Dafny

This project models three converters for amateur-radio channel plans:

- `bin/i2c.py` turns an ICS 217A frequency-plan export into a CHIRP channel file.
  - It decides per row whether the channel is simplex or duplex. For a duplex channel it takes the offset sign and the offset's magnitude.
  - It classifies the transmit and receive tones as CTCSS tones from the standard or extended tables, as DCS codes, or as nothing. From that it picks the CHIRP tone mode.
  - It can frame the output with a control-channel row built from a version token file.
- `bin/website_table_gen.py` reads the rows of a CHIRP file and writes the eight-column frequency table of the group's web site.
- `bin/c2rt.py` converts CHIRP rows, read as dictionaries, into RT Systems rows under a fixed sixteen-column header.

The model is split into modules:

- `Outcomes` holds the Python exceptions the scripts can raise (`ValueError`, `IndexError`, `KeyError`, `TypeError`, `NameError`). A step that raises yields `Err` of that kind, and every loop stops at the first one.
- `Text` covers `str.isspace`, `strip`, `split(',')`, `",".join`, `str(int)` and `int(str)`.
- `Decimal` is an exact sign-and-magnitude decimal that stands in for Python's `float`. It covers parsing and `f"{x:.Nf}"` formatting.
- `Tones` holds the tone tables and the tone classifiers of `bin/i2c.py`.
- `IcsToChirp` holds the rest of `bin/i2c.py`:
  - the row pipeline, the line reader and the version-token scan;
  - the option rules, with the globals as the class `Settings`;
  - the writer, with the output file replaced by the list of lines written.
- `WebsiteTable` models `bin/website_table_gen.py`. Its globals are the class `WebSettings`.
- `ChirpToRt` models `bin/c2rt.py`.

Loops in the source are methods with loops, each proved against a function on the input. The properties are proved as lemmas about those functions.

Where the code and its own comments disagree, the model follows the code:

- The docstring of `parse_frequency` (bin/i2c.py:436-438) promises `DEFAULT_FREQUENCY` for a frequency in error. A frequency that does not convert instead reaches the warning at bin/i2c.py:447. That warning names `ics_row`, which is not defined inside the function, so the call ends in a `NameError`. An offset that does not convert raises `ValueError` from `float` (bin/i2c.py:508); only tones fall back to defaults.
- The `-f` warnings say the bad value is ignored. In `bin/website_table_gen.py`, that is true only for an out-of-range number (bin/website_table_gen.py:329-331), which keeps the previous setting. For a value that is no integer (bin/website_table_gen.py:322-326), the setting becomes 0. In `bin/i2c.py`, the setting is reset to 0 before the value is read (bin/i2c.py:692). So an ignored value, out of range or no integer, leaves 0 rather than the previous setting.
- `cleanse_comments` (bin/i2c.py:416-421) calls `replace(',', '')`, which reads as removing commas from a comment. It does not: the string `replace` returns is discarded, and the comment is only stripped and quoted (`IcsToChirp.CommasSurvive`).

## Model

| member | source | states |
|---|---|---|
| Tones.TablesRange | bin/i2c.py:95-106 | every tone of the standard and extended CTCSS tables lies between 67.0 Hz and 254.1 Hz |
| Tones.IsCtcssTone | bin/i2c.py:239-289 | the CTCSS classifier never reports a DCS code and always returns a value |
| Tones.CtcssAccepts | bin/i2c.py:239-289 | a token is a CTCSS tone exactly when its stripped form matches the CTCSS pattern and names a tone of either table; the value is then that tone as `str(float)` spells it; a blank token gives the configured default, and any other rejected token is handed back unstripped |
| Tones.CtcssShapeIsFloat | bin/i2c.py:265-276 | every token of the CTCSS pattern converts with `float`, so the `ValueError` branch cannot be taken; the number has at most one decimal place and its value in tenths is the one looked up in the tables |
| Tones.ToneStringParses | bin/i2c.py:278-289 | the spelling of a tone reads back as exactly that tone |
| Tones.ToneStringRecognised | bin/i2c.py:239-289 | the canonical spelling of each table tone is itself recognised as that tone |
| Tones.CtcssIdempotent | bin/i2c.py:239-289 | classifying the value of a recognised CTCSS tone again gives the same result |
| Tones.IsDcsTone | bin/i2c.py:292-348 | the DCS classifier never reports a CTCSS tone, and a recognised code is returned stripped |
| Tones.DcsAccepts | bin/i2c.py:292-348 | a token is a DCS code exactly when its stripped form is a table code in one of three spellings: four characters with a D or d prefix, three digits, or two digits of a code with a leading zero (the DCS pattern never turns such a spelling away); an accepted code is returned stripped, and a rejected token is handed back as it came |
| Tones.DcsValuesOctal | bin/i2c.py:115-128 | every code of DCS_TONES is written in octal digits whose last digit is not 0 |
| Tones.TableOctal | bin/i2c.py:115-128 | all entries of DCS_TONES, line by line, are octal codes |
| Tones.TableCodeDigits | bin/i2c.py:115-128 | every code of DCS_TONES matches the digit part of DCS_TONE_REGEX: octal digits, the last not 0 |
| Tones.DcsSpellingShape | bin/i2c.py:130 | each of the three accepted spellings of a table code matches DCS_TONE_REGEX |
| Tones.TableCodeRecognised | bin/i2c.py:292-348 | every table code is recognised as DCS as three digits, behind D or d, and as its last two digits when it starts with 0, and is returned as written |
| Tones.PrefixedTwoDigitsRejected | bin/i2c.py:313-345 | "D23" matches the pattern but is not accepted: no length branch handles a prefixed two-digit code |
| Tones.TwoDigitsUnpadded | bin/i2c.py:339-345 | "23" is recognised as code 023 and returned without the padding |
| Tones.ParseTone | bin/i2c.py:351-371 | a CTCSS verdict wins; otherwise a DCS verdict; and only when neither applies is the tone unrecognised, with no value |
| Tones.ParseTones | bin/i2c.py:374-412 | tone squelch exactly when both tones are CTCSS; basic tone when only the transmit tone is; DTCS exactly when the transmit tone is a DCS code; no mode exactly when the transmit tone is unrecognised. The CTCSS columns hold the recognised tones or the default. Both DCS codes are always 023, because the DCS branch assigns to other names |
| Tones.ReceiveToneAlone | bin/i2c.py:374-412 | when the transmit tone is unrecognised, the receive tone changes none of the tone settings and the mode is none |
| IcsToChirp.CleanseComments | bin/i2c.py:416-421 | the comment comes out as its stripped text between two double quotes |
| IcsToChirp.CommasSurvive | bin/i2c.py:416-421 | cleansing keeps every comma of the stripped comment |
| IcsToChirp.NullRowIff | bin/i2c.py:451-460 | a row is null exactly when its name is all whitespace; the frequency plays no part |
| IcsToChirp.ParseFrequency | bin/i2c.py:435-448 | a frequency that does not convert ends in a `NameError` |
| IcsToChirp.ParseFrequencyMeaning | bin/i2c.py:424-448 | the frequency converts exactly when its stripped text is a decimal spelling, and the six-place text reads back as the frequency rounded to six places |
| IcsToChirp.OffsetColumns | bin/i2c.py:504-513 | an offset that is present but does not convert raises `ValueError` |
| IcsToChirp.OffsetSignRule | bin/i2c.py:504-513 | a blank offset gives duplex '' and a zero offset; otherwise the duplex is '+' exactly when the offset is above zero and '-' for zero and below; the offset column is the magnitude with six places and never carries a sign |
| IcsToChirp.CookLine | bin/i2c.py:473-483 | a line is dropped exactly when it has fewer than 10 comma-separated fields or its name field is blank |
| IcsToChirp.CookFields | bin/i2c.py:491-558 | a long enough, named line raises exactly when its frequency or its offset does not convert, and otherwise yields a row |
| IcsToChirp.CookedRowLayout | bin/i2c.py:490-558 | the layout of each CHIRP row: location stripped, name as written, frequency and duplex columns from their rules, tone columns from `parse_tones`, DCS 023/NN, FM, step 5.00, no skip, the cleansed comment and three empty call-sign fields |
| IcsToChirp.IcsParse | bin/i2c.py:463-559 | the loop yields the rows of the lines in input order, or the exception of the first line that raises |
| IcsToChirp.CollectNext | bin/i2c.py:471-558 | one more line adds its row, adds nothing when skipped, or ends the run with its exception |
| IcsToChirp.CollectAbort | bin/i2c.py:471-558 | an exception on any line ends the whole conversion with that exception |
| IcsToChirp.CollectAppend | bin/i2c.py:471-558 | the rows of two runs of converted lines are the rows of the first followed by those of the second, unless one raises |
| IcsToChirp.CookEachAppend | bin/i2c.py:471-473 | each line is converted on its own, independently of its neighbours |
| IcsToChirp.CookAllAppend | bin/i2c.py:463-559 | `ics_parse` of two runs of lines is the rows of the first run followed by those of the second: rows keep the input order |
| IcsToChirp.CollectOne | bin/i2c.py:471-558 | a single line contributes nothing, its row, or its exception |
| IcsToChirp.CollectRows | bin/i2c.py:471-558 | each line contributes at most one row |
| IcsToChirp.CookAllRows | bin/i2c.py:463-559 | `ics_parse` returns no more rows than it had lines |
| IcsToChirp.ReadIcs217a | bin/i2c.py:213-236 | the reader keeps the lines at or after the skip count: all of them for a skip of 0 or below, none for a skip past the end |
| IcsToChirp.ScanVersion | bin/i2c.py:636-651 | a found token has one to six characters, and an exit has status 11 |
| IcsToChirp.ScanVersionFound | bin/i2c.py:636-651 | after a run of blank or comment lines, the first other line is the token when it has the token shape, and otherwise the programme exits with 11 |
| IcsToChirp.ScanVersionNone | bin/i2c.py:636-651 | a file of only blank and comment lines names no token and sets nothing |
| IcsToChirp.SkipRowsValue | bin/i2c.py:691-703 | `-f` always leaves a number of rows in 0..9 |
| IcsToChirp.SkipRowsOfNumber | bin/i2c.py:691-703 | `-f n` takes n when it lies in 0..9, and 0 for any other number |
| IcsToChirp.ToneValueIsTableTone | bin/i2c.py:710-713 | after `-t` the default tone is the previous one or the spelling of a table tone |
| IcsToChirp.AppliedAllVerbose | bin/i2c.py:706-707 | verbose output is on after the options exactly when it was on before or `-v` was among them |
| IcsToChirp.AppliedAllWarnings | bin/i2c.py:708-709 | warnings are on after the options exactly when they were on before or `-w` was among them |
| IcsToChirp.AppliedAllTone | bin/i2c.py:710-713 | the `-t` options alone, taken in order, decide the default tone |
| IcsToChirp.AppliedAllSkip | bin/i2c.py:691-703 | the last `-f` option decides the number of rows to skip |
| IcsToChirp.AppliedAllNext | bin/i2c.py:690-716 | processing one more option applies it to the settings so far, and `-c` is seen exactly when it was seen before or is this option |
| IcsToChirp.SkipAfterRange | bin/i2c.py:690-716 | the options keep the skip count within 0..9, and without `-f` they leave it alone |
| IcsToChirp.Settings.constructor | bin/i2c.py:153-165 | the globals start quiet, with the default tone 88.5, no rows skipped and no control channel |
| IcsToChirp.Settings.ApplyOption | bin/i2c.py:690-716 | one option changes exactly the setting it names; `-c` is reported back, and the control channel row is untouched |
| IcsToChirp.Settings.ProcessOptions | bin/i2c.py:654-718 | the options are applied in order; the method reports whether `-c` was among them and leaves the control channel row alone |
| IcsToChirp.Settings.LoadVersionChannelName | bin/i2c.py:613-651 | the control channel row is set from a found token; no token leaves it alone; a bad line gives exit status 11 with nothing set; the other globals never change |
| IcsToChirp.JoinedRows | bin/i2c.py:603-605 | one comma-joined line per row, in order |
| IcsToChirp.WriteRows | bin/i2c.py:602-605 | the loop writes the joined rows and remembers the location of the last row, or "" without rows |
| IcsToChirp.GenerateOutput | bin/i2c.py:587-610 | the lines written and the exception that stops the writer: the control row before a token was loaded is a `TypeError`, and a last location that is no integer, or no rows at all, is a `ValueError` |
| IcsToChirp.OutputFraming | bin/i2c.py:597-610 | with the control channel on and integer locations, the output is the header, the control row numbered 0, one line per row, and the control row numbered one past the last location |
| WebsiteTable.HeaderColumns | bin/website_table_gen.py:79 | the header line has one comma-separated field per column of a site row |
| WebsiteTable.Project | bin/website_table_gen.py:132-142 | a row is kept exactly when it has the 14 columns up to the comment; a shorter one raises `IndexError` |
| WebsiteTable.ProjectColumns | bin/website_table_gen.py:132-142 | the kept columns are CHIRP columns 0 to 6, 8 and 13, in that order |
| WebsiteTable.ReadRawInput | bin/website_table_gen.py:108-144 | the reader yields the projections of the rows after the header and the skipped rows, or the first `IndexError` |
| WebsiteTable.NoneProjected | bin/website_table_gen.py:117-129 | while the header and the skipped rows are passed over, nothing has been kept |
| WebsiteTable.ProjectNext | bin/website_table_gen.py:132-143 | one more kept row adds its projection or ends the read with its exception |
| WebsiteTable.KeptRowRaises | bin/website_table_gen.py:132-143 | a kept row that is too short fails the whole read |
| WebsiteTable.ProjectAllKeeps | bin/website_table_gen.py:119-143 | the read succeeds exactly when each kept row has the 14 columns up to the comment, and then yields one projection per row, in order |
| WebsiteTable.FirstKeptSkips | bin/website_table_gen.py:117-129 | the header row is never kept, nor the `skipRows` rows after it |
| WebsiteTable.FormatFrequency | bin/website_table_gen.py:270-279 | the frequency converts exactly when `float` accepts it; otherwise `ValueError` is raised |
| WebsiteTable.FormatFrequencyReadsBack | bin/website_table_gen.py:270-279 | the frequency converts exactly when it is spelled as a number, and the text produced reads back as that number rounded to four decimal places |
| WebsiteTable.OffsetText | bin/website_table_gen.py:282-287 | an offset that does not convert raises `ValueError` |
| WebsiteTable.OffsetTextMeaning | bin/website_table_gen.py:175-179 | the offset column is blank exactly when the offset is blank or numerically zero, -0 included; it raises exactly when the offset is present but no number; otherwise it reads back as the offset rounded to one place |
| WebsiteTable.SquelchColumnsCases | bin/website_table_gen.py:186-210 | squelch type blank only without a tone mode; the mode itself for Tone and TSQL; DCS exactly for DTCS; N/A exactly for any other mode. The tone column is the transmit tone, "Tx: t; Rx: t" under tone squelch, the DCS code, or blank |
| WebsiteTable.CookedRow | bin/website_table_gen.py:154-215 | a row fails exactly when its frequency or its offset does not convert, and always with `ValueError` |
| WebsiteTable.CookedRowPassThrough | bin/website_table_gen.py:158-213 | channel, name, duplex and comment pass through with only their surrounding whitespace removed; the other columns come from the frequency, offset and squelch rules |
| WebsiteTable.AppendSquelch | bin/website_table_gen.py:186-210 | the tone-mode branches append exactly the squelch type and the tone column |
| WebsiteTable.LeadingCells | bin/website_table_gen.py:158-179 | the first five cells are channel, name, frequency, duplex and offset, or the `ValueError` of the frequency or offset |
| WebsiteTable.CookedFieldsShape | bin/website_table_gen.py:155-215 | a site row is the five leading cells, the two squelch cells and the stripped comment, in that order |
| WebsiteTable.CookRow | bin/website_table_gen.py:155-215 | one pass of the loop builds exactly the site row of its input |
| WebsiteTable.ProcessRows | bin/website_table_gen.py:147-216 | the loop yields the site rows in order, or the first `ValueError` |
| WebsiteTable.WebRowsOnePerRow | bin/website_table_gen.py:147-216 | the conversion succeeds exactly when every row converts, and then yields one eight-column site row per input row, in input order |
| WebsiteTable.SkipRowsRule | bin/website_table_gen.py:321-331 | `-f n` takes n when it lies in 0..9 and otherwise keeps the previous setting; `-f` with no integer sets 0 |
| WebsiteTable.SkipAfterRange | bin/website_table_gen.py:320-339 | the options keep the skip count in 0..9 once it is there |
| WebsiteTable.WebSettings.constructor | bin/website_table_gen.py:87-102 | the globals start quiet, with no rows skipped and no help request |
| WebsiteTable.WebSettings.ApplyOption | bin/website_table_gen.py:320-339 | `-v` and `-w` switch their flag on, `-f` follows the skip rule, and `-h` changes no global |
| WebsiteTable.WebSettings.ProcessOptions | bin/website_table_gen.py:291-340 | after the options, verbose is on exactly when it was or `-v` was given, and likewise warnings with `-w`; the skip count follows the `-f` options in order; the help flag never changes |
| ChirpToRt.ChannelNumber | bin/c2rt.py:74-75 | the channel number converts exactly when the location is an integer, and it reads back as that integer |
| ChirpToRt.ChannelNumberIdempotent | bin/c2rt.py:74-75 | a channel number is already canonical |
| ChirpToRt.RxFrequency | bin/c2rt.py:78-79 | the receive frequency converts exactly when the CHIRP frequency is a number |
| ChirpToRt.RxFrequencyReadsBack | bin/c2rt.py:78-79 | the receive frequency reads back as the frequency rounded to five places |
| ChirpToRt.TxFrequency | bin/c2rt.py:82-99 | the transmit frequency converts exactly when both the offset and the receive frequency do; the direction is Plus exactly for '+', Minus exactly for '-', and Simplex for any other duplex text |
| ChirpToRt.TxFrequencyReadsBack | bin/c2rt.py:82-99 | for all numbers, the transmit frequency reads back as the receive frequency plus the offset for '+', minus it for '-', and unchanged otherwise, rounded to five places |
| ChirpToRt.TxFrequencyShift | bin/c2rt.py:82-99 | when both numbers need at most five places in value (trailing zeros do not count), the transmit frequency reads back as exactly the receive frequency moved by the offset in the duplex direction, and not moved for other duplex text |
| ChirpToRt.SixPlaceOffsetShifts | bin/c2rt.py:86 | CHIRP's offset spelling "0.600000" reads as 0.6 with six written places and needs only five, so the exact shift applies to it |
| Decimal.RoundedExact | bin/c2rt.py:98 | rounding to p places keeps the value of a number that needs at most p places |
| Decimal.AddPlaces | bin/c2rt.py:92-96 | the sum of two numbers that need at most p places needs at most p places |
| ChirpToRt.SimplexEchoesRx | bin/c2rt.py:88-98 | a simplex channel transmits on its five-place receive frequency, whatever its offset |
| ChirpToRt.OffsetFrequency | bin/c2rt.py:102-116 | the offset converts exactly when it is a number, and the column is empty exactly when the offset is zero |
| ChirpToRt.OffsetKilohertz | bin/c2rt.py:110-113 | below 1 MHz, negative offsets included, the column is the offset's whole kilohertz, truncated toward zero, followed by " kHz" |
| ChirpToRt.OffsetMegahertz | bin/c2rt.py:114-115 | from 1 MHz up, the column is the offset rounded to two places, followed by " MHz" |
| ChirpToRt.ToneMode | bin/c2rt.py:119-127 | Tone maps to Tone, TSQL to T Sql and DTCS to DCS; every other text maps to None |
| ChirpToRt.CtcssTone | bin/c2rt.py:130-136 | the tone frequency is converted for every mode, so a malformed one raises even where it is not shown; the column is non-empty exactly for the Tone and TSQL modes |
| ChirpToRt.CtcssToneReadsBack | bin/c2rt.py:130-136 | a shown tone is the tone frequency rounded to one place, followed by " Hz" |
| ChirpToRt.Dcs | bin/c2rt.py:139-143 | the DCS column is "DCS" exactly when the CHIRP code text is "DTCS", and empty otherwise |
| ChirpToRt.Step | bin/c2rt.py:146-147 | the step column is the CHIRP step followed by " kHz" |
| ChirpToRt.PrefixTo | bin/c2rt.py:157 | Python's `s[:stop]`: a prefix of s, measured from the end for a negative stop |
| ChirpToRt.TruncateComments | bin/c2rt.py:150-157 | limits outside 0..60 raise `ValueError`; a shorter comment is kept; one as long as the limit or longer is cut and ends in "..."; with a limit of 3 or more the result never exceeds the limit |
| ChirpToRt.TruncateToLimit | bin/c2rt.py:154-157 | for limits of 3 or more, a comment that does not fit comes out exactly as long as the limit and begins like the comment |
| ChirpToRt.TruncateEqualLength | bin/c2rt.py:155-157 | a comment exactly as long as the limit is cut although it would fit |
| ChirpToRt.TruncateSmallLimit | bin/c2rt.py:157 | limits 0, 1 and 2 slice from the end, so the result can be longer than the limit |
| ChirpToRt.TruncateIdempotent | bin/c2rt.py:150-157 | for limits of 3 or more, truncating twice is the same as truncating once |
| ChirpToRt.DictKeys | bin/c2rt.py:12-27 | an RT row has exactly the sixteen RT Systems columns as its keys |
| ChirpToRt.DictColumns | bin/c2rt.py:165-216 | each header column holds the value at that column's position |
| ChirpToRt.Columns | bin/c2rt.py:12-27 | a value for each of the sixteen columns of the RT Systems header |
| ChirpToRt.Channel | bin/c2rt.py:164-216 | a conversion fails only with `KeyError` or `ValueError` |
| ChirpToRt.ChannelSucceeds | bin/c2rt.py:164-216 | a row converts exactly when the twelve CHIRP columns read are present and the location, frequency, offset and tone frequency are numbers |
| ChirpToRt.ChannelColumns | bin/c2rt.py:186-216 | PR Freq, Tx Power, Skip and Clock Shift are the constants; name and mode are copied unchanged; the comment is the CHIRP comment truncated to at most 50 characters |
| ChirpToRt.ChannelSimplex | bin/c2rt.py:171-179 | a simplex channel transmits on its receive frequency |
| ChirpToRt.ChannelDuplex | bin/c2rt.py:171-179 | a '+' or '-' channel whose offset needs at most five places transmits exactly on its RT receive frequency moved up or down by the offset |
| ChirpToRt.ConvertRow | bin/c2rt.py:165-219 | one loop pass, with the dictionary filled key by key, yields the RT row of its CHIRP row or its exception |
| ChirpToRt.ConvertRows | bin/c2rt.py:160-220 | the loop yields the RT rows in order, or the first exception |
| ChirpToRt.RtRowsOnePerRow | bin/c2rt.py:160-220 | the conversion succeeds exactly when every row converts, and then yields one RT row per CHIRP row, in order, each keyed by exactly the RT Systems columns |
| ChirpToRt.Record | bin/c2rt.py:229-230 | the record of a row holds, for each header column, the row's value or "" when the row lacks that column |
| ChirpToRt.RecordOfChannel | bin/c2rt.py:226-230 | an RT row is writable, and its record is its values in header order |
| ChirpToRt.ExportRt | bin/c2rt.py:223-232 | the header and then one record per row; the count includes the header; a row with a key outside the header raises `ValueError` after the records before it are written |
| ChirpToRt.RtRowsRecords | bin/c2rt.py:236-237 | every converted row is writable, and its record is the row's values in header order |
| ChirpToRt.Convert | bin/c2rt.py:234-238 | the count is the number of CHIRP rows plus the header; each record holds one row's values in header order; nothing is written when a row fails to convert |

## Left out

- File and stream I/O is not modelled:
  - `open`, `csv.reader`, `csv.DictReader` and `csv.DictWriter` on files;
  - `import_CHIRP`.

  The scripts' inputs are sequences of lines, rows or dictionaries. Their outputs are sequences of lines or records.
- The CSV quoting of the web site table's `generate_output` and of `csv.DictWriter` is not modelled. Records are lists of field texts.
- `warning`, `verbose`, `usage` and `print_help_message` are left out. They only print, and their output is not modelled. The row counter of `ics_parse` is only used in warnings and is left out as well.
- `getopt` is left out: options are given already parsed. A `GetoptError` and its exit with status 2 are left out.
- `get_filenames` and its file-count errors are left out, as are the `__main__` blocks with their hard-coded paths and calls in sequence.
- `sys.exit(11)` of `load_version_channel_name` is an exit status returned to the caller.
- `CHIRP_headers` and `RT_to_CHIRP_map` of `bin/c2rt.py` are not modelled. Nothing in the script uses them.
- Decimal stands in for binary floating point. Results that depend on binary rounding are not modelled:
  - sums such as `147.12 + 0.6`;
  - `int(x * 1000)`;
  - ties in `.Nf` formatting.

  Numbers are exact decimals, and `.Nf` rounds half to even on the exact value. Exponent notation, `inf`, `nan` and digit underscores in `float()` and `int()` are left out. Such text is treated as not a number.
- ChirpToRt.TxFrequencyShift: the exact shift is stated only for numbers whose value needs at most five places, such as CHIRP's "0.600000". For a value with a non-zero digit past the fifth place, the sum is rounded to five places, and `ChirpToRt.TxFrequencyReadsBack` states that rounding. Both work on exact decimals, not on the binary float sum.
- ChirpToRt.OffsetKilohertz: states the kilohertz as an integer truncated toward zero (`Decimal.TruncThousandsBounds`). It does not state the float product `x * 1000`, which can land just below a whole number.
- The version-token pattern: `\w` is taken as ASCII letters, digits and '_'. Python's Unicode word characters beyond ASCII are not modelled.
- Python's `int()` and `float()` also accept non-ASCII decimal digits, e.g. `int("１２") == 12`. `Text.ParseInt` and `Decimal.ParseDecimal` take only '0' to '9', so such text raises `ValueError` in the model.
- A CHIRP row shorter than the header: `csv.DictReader` gives `None` for its missing trailing fields. Then `int(None)` raises `TypeError`, and `f"{None} kHz"` gives "None kHz". The rows that `ChirpToRt.Channel` takes are maps from field names to text, so a field cannot be `None` there.
- The comment-line pattern: `.` in `^\s*#.*$` is taken to match any character except a line break. A trailing line break is allowed, as `re.match` allows it.
