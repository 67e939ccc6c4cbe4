# Excel formatting core of go-excel-mcp-server, in Dafny

go-excel-mcp-server is an MCP server. Its format_range tool styles a
rectangle of cells in an Excel workbook. It takes a loosely-typed argument
map (strings, booleans and numbers decoded from JSON) and turns it into a
style record for the spreadsheet library.

This project models the parts of that tool that decide things:

- the required-argument checks and the end-cell default;
- the field-by-field assembly of the style, from fixed defaults;
- the border-style and fill-pattern name tables;
- the number-format resolver. It looks up the lower-cased specifier among
  the built-in formats, then the exact specifier among the common custom
  formats, and otherwise hands out the placeholder code 181 to any
  specifier the validator accepts;
- the validator: a non-empty string, at most four `;`-separated sections,
  and every character from a fixed allow-set.

Modules, one file each:

- `Results` (results.dfy): `Option` and `Result`.
- `ExcelFormat` (excel_format.dfy): `strings.Split`, and the validator as a
  predicate and as a loop method. The method walks the sections and their
  characters, as the source does.
- `NumberFormat` (number_format.dfy): the two format tables, ASCII case
  conversion and the resolver.
- `NumberFormatProperties` (number_format_properties.dfy): the resolver's
  lookup order, its case behaviour, its code ranges, and worked examples.
- `StyleTables` (style_tables.dfy): the `borderStyles` and `patterns`
  tables and how they are read.
- `FormatRange` (format_range.dfy): the argument map, the style record,
  the specification function `FormatRangeOutcome`, and the handler as
  methods. The handler writes the fill colour into a one-slot array in
  place and fills a four-slot border array in a loop.
- `FormatRangeProperties` (format_range_properties.dfy): which arguments
  are required and in what order, which arguments can make a call fail,
  the default style, and how each optional argument reaches its field.

Proved behaviours of the source worth knowing:

- Every built-in name resolves alike in upper, lower and original case.
- Lower-casing happens before the built-in lookup, so the two `[Red]`
  built-in keys can never match. Codes 8 and 40 are never returned, and
  `$#,##0_);[Red]($#,##0)` gets the placeholder 181.
- `mmm-yy` is both a built-in (17) and a custom (173) name. The built-in
  table is asked first, so 173 is never returned.
- Every valid format that is in neither table gets the same code, 181.
- `%` and `@` are outside the validator's allow-set. Every specifier
  containing `%` is rejected unless it is, up to case, one of the two
  built-in percentage names `0%` and `0.00%`. So is every specifier
  containing `@` other than the accounting pattern, which the custom
  table lists itself.
- `border_color` is read only while the borders are drawn. Without a
  border type it may be anything. With a known border type, a value that
  is not a string fails the call.

## Model

| member | source | states |
|---|---|---|
| ExcelFormat.Split | main/main.go:765 | `strings.Split` always yields at least one section |
| ExcelFormat.SplitLength | main/main.go:765-768 | the number of sections is one more than the number of `;` |
| ExcelFormat.JoinSplit | main/main.go:765 | joining the sections with the separator gives back the string: splitting loses nothing |
| ExcelFormat.SplitChars | main/main.go:765-773 | a character occurs in some section exactly when it occurs in the string and is not the separator |
| ExcelFormat.AllowedChar | main/main.go:774-784 | the allow-set, as a definition: digits, ASCII letters and `. , # ? / \ * _ ( ) [ ] " $ - + :` and space. `y m d h s e` are already letters. It carries no ensures; DisallowedCharInvalid and CheckExcelFormat state what it decides |
| ExcelFormat.IsValidExcelFormat | main/main.go:759-791 | the validator, as a definition: non-empty, at most three `;`, every other character allowed. It carries no ensures; ValidIff ties it to the section-wise reading and CheckExcelFormat to the loop |
| ExcelFormat.ValidIff | main/main.go:759-791 | the flat validity predicate holds exactly when the string is non-empty, has at most four sections, and every section uses only allowed characters |
| ExcelFormat.CheckExcelFormat | main/main.go:759-791 | the section-by-section, character-by-character loop returns true exactly when the format is valid |
| ExcelFormat.EmptyIsInvalid | main/main.go:760-762 | the empty string is not a valid format |
| ExcelFormat.TooManySectionsInvalid | main/main.go:765-768 | more than four sections is never valid |
| ExcelFormat.FiveSectionsRejected | main/main.go:765-768 | `a;b;c;d;e` is not valid |
| ExcelFormat.EmptySectionsAccepted | main/main.go:764-790 | `;;;` (four empty sections) is valid: empty sections are not checked |
| ExcelFormat.DisallowedCharInvalid | main/main.go:773-786 | any non-separator character outside the allow-set makes the format invalid |
| ExcelFormat.OneSectionValid | main/main.go:759-791 | a non-empty single section of allowed characters is valid |
| ExcelFormat.TwoSectionsValid | main/main.go:759-791 | two sections of allowed characters joined by `;` are valid, even when either is empty |
| NumberFormat.ToLower | main/main.go:699 | lower-casing keeps the length and lower-cases each ASCII letter in place |
| NumberFormat.ToUpper | main/main.go:699 | upper-casing keeps the length and upper-cases each ASCII letter in place |
| NumberFormat.ParseNumberFormat | main/main.go:665-756 | a success is a built-in code, a custom code or 181. It fails exactly when the lowered input is no built-in key, the input is no custom key and the validator rejects it. A failure names the input |
| NumberFormat.LowerChar | main/main.go:699 | lowering one character: an ASCII capital moves 32 code points up (adds 32) to its small letter, anything else is kept, and the result is never an ASCII capital |
| NumberFormat.UpperChar | main/main.go:699 | raising one character: an ASCII small letter moves 32 code points down (subtracts 32) to its capital, anything else is kept |
| NumberFormatProperties.BuiltInHit | main/main.go:698-701 | a specifier whose lower-casing is a built-in key gets that key's code |
| NumberFormatProperties.CustomHit | main/main.go:734-737 | missing the built-in table and matching a custom key exactly gives the custom code |
| NumberFormatProperties.Placeholder | main/main.go:745-755 | in neither table and valid gives 181 |
| NumberFormatProperties.Rejected | main/main.go:748-751 | in neither table and invalid fails with an error about the input |
| NumberFormatProperties.FallThrough | main/main.go:739-755 | outside both tables, the validator alone decides between 181 and the error |
| NumberFormatProperties.PlaceholderCollision | main/main.go:745-755 | any two different valid specifiers in neither table get the same code 181 |
| NumberFormatProperties.LowerOfCaseChange | main/main.go:699 | lower-casing after upper- or lower-casing is plain lower-casing |
| NumberFormatProperties.LowerOfLower | main/main.go:699 | a string without upper-case letters is its own lower-casing |
| NumberFormatProperties.BuiltInCaseInsensitive | main/main.go:698-701 | two specifiers equal up to ASCII case resolve alike when one names a built-in |
| NumberFormatProperties.BuiltInUpperLower | main/main.go:698-701 | a built-in name resolves the same in upper, lower and original case |
| NumberFormatProperties.CaseChangeKeepsCount | main/main.go:765 | changing case keeps the number of `;` |
| NumberFormatProperties.CaseChangeKeepsValidity | main/main.go:759-791 | the validator does not depend on ASCII case |
| NumberFormatProperties.CaseInsensitiveOutsideCustom | main/main.go:665-756 | away from the exact-case custom table, changing case changes neither success nor the code |
| NumberFormatProperties.CustomKeyLengths | main/main.go:705-732 | helper for TableKeysCaseInsensitive: every custom key has one of twelve lengths |
| NumberFormatProperties.BuiltInKeysOfCustomLength | main/main.go:667-696 | helper for TableKeysCaseInsensitive: the built-in keys of those lengths are seven named ones |
| NumberFormatProperties.LowerCaseShortKeys | main/main.go:673-682 | helper for TableKeysCaseInsensitive: `#,##0.00`, `mm-dd-yy` and `d-mmm-yy` are their own lower-casing |
| NumberFormatProperties.LowerCaseLongKeys | main/main.go:676-689 | helper for TableKeysCaseInsensitive: `0.00e+00`, `h:mm am/pm`, `m/d/yy h:mm` and `mmm-yy` are their own lower-casing |
| NumberFormatProperties.LoweredOutKeyLength | main/main.go:667-732 | a built-in key that lower-casing moves out of the built-in table has a length no custom key has |
| NumberFormatProperties.TableKeysCaseInsensitive | main/main.go:698-737 | every built-in key, the two `[Red]` ones included, resolves alike (same success, same code) in its own, upper and lower case |
| NumberFormatProperties.ExampleGeneral | main/main.go:669 | `general` gives 0 |
| NumberFormatProperties.ExampleFixedDecimals | main/main.go:671 | `0.00` gives 2 |
| NumberFormatProperties.ExampleThousands | main/main.go:672 | `#,##0` gives 3 |
| NumberFormatProperties.ExamplePercentage | main/main.go:674 | `0%` gives 9 |
| NumberFormatProperties.ExampleShortDate | main/main.go:681 | `mm-dd-yy` gives 14 |
| NumberFormatProperties.ExampleScientificUpper | main/main.go:676-699 | `0.00E+00` gives 11 |
| NumberFormatProperties.ExampleTimeUpper | main/main.go:685-699 | `H:MM AM/PM` gives 18 |
| NumberFormatProperties.RedKeys | main/main.go:692-695 | only the two `[Red]` keys carry codes 8 and 40 |
| NumberFormatProperties.NoLoweredRedKey | main/main.go:667-696 | helper for RedCodesUnreachable: no built-in key has the lower-case `r` that a lowered `[Red]` specifier has at position 10 |
| NumberFormatProperties.RedCodesUnreachable | main/main.go:692-701 | no specifier ever resolves to 8 or 40 |
| NumberFormatProperties.RedCurrencyValid | main/main.go:759-791 | `$#,##0_);[Red]($#,##0)` is a valid format |
| NumberFormatProperties.RedCurrencyNotCustom | main/main.go:705-732 | helper for ExampleRedCurrency: `$#,##0_);[Red]($#,##0)` is not a custom key |
| NumberFormatProperties.RedCurrencyLoweredNotBuiltIn | main/main.go:693-699 | `$#,##0_);[Red]($#,##0)` lower-cased is not a built-in key |
| NumberFormatProperties.ExampleRedCurrency | main/main.go:693-755 | `$#,##0_);[Red]($#,##0)` gets 181, not 8 |
| NumberFormatProperties.CustomMmmYyShadowed | main/main.go:684-718 | no specifier resolves to 173 |
| NumberFormatProperties.ExampleMmmYy | main/main.go:684 | `mmm-yy` gives the built-in 17 |
| NumberFormatProperties.IsoDateNotBuiltIn | main/main.go:667-696 | helper for ExampleIsoDate: `yyyy-mm-dd` is not a built-in key |
| NumberFormatProperties.ExampleIsoDate | main/main.go:713-737 | `yyyy-mm-dd` gives the custom 168 |
| NumberFormatProperties.UpperIsoDateNotCustom | main/main.go:705-732 | helper for ExampleUpperIsoDate: `YYYY-MM-DD` is not a custom key |
| NumberFormatProperties.UpperIsoDateChars | main/main.go:773-786 | helper for ExampleUpperIsoDate: `YYYY-MM-DD` is one section of allowed characters |
| NumberFormatProperties.UpperIsoDateValid | main/main.go:759-791 | `YYYY-MM-DD` is a valid format |
| NumberFormatProperties.ExampleUpperIsoDate | main/main.go:735-755 | custom matching is exact-case: `YYYY-MM-DD` gets 181 |
| NumberFormatProperties.PlainCustomNotInTables | main/main.go:667-732 | helper for ExamplePlainCustom: `0.0000` is in neither table |
| NumberFormatProperties.PlainCustomChars | main/main.go:773-786 | helper for ExamplePlainCustom: `0.0000` is one section of allowed characters |
| NumberFormatProperties.ExamplePlainCustom | main/main.go:745-755 | `0.0000` gets 181 |
| NumberFormatProperties.FiveSectionsNotInTables | main/main.go:667-732 | helper for ExampleFiveSections: `a;b;c;d;e` is in neither table |
| NumberFormatProperties.ExampleFiveSections | main/main.go:749-768 | `a;b;c;d;e` is rejected |
| NumberFormatProperties.EuroFacts | main/main.go:667-732 | helper for ExampleEuro: `0.00€` is its own lower-casing and in neither table |
| NumberFormatProperties.ExampleEuro | main/main.go:749-786 | `0.00€` is rejected |
| NumberFormatProperties.PercentFacts | main/main.go:667-732 | helper for ExamplePercent: `0.000%` is its own lower-casing and in neither table |
| NumberFormatProperties.ExamplePercent | main/main.go:749-786 | `0.000%` is rejected: `%` is not allowed |
| NumberFormatProperties.BuiltInCodes | main/main.go:667-696 | every built-in code is below 164 |
| NumberFormatProperties.CustomCodes | main/main.go:703-746 | every custom code lies in 164..180, below the placeholder 181 |
| NumberFormatProperties.ResultCodes | main/main.go:665-756 | every resolved code lies in 0..181, and it is below 164 exactly when the lowered input is a built-in key |
| NumberFormatProperties.NoAtInBuiltInKeys | main/main.go:667-696 | no built-in key contains `@` |
| NumberFormatProperties.NoAtInCustomNumberKeys | main/main.go:706-710 | helper for NoAtInCustomKeys: the custom number formats, codes 164..167, contain no `@` |
| NumberFormatProperties.NoAtInCustomDateKeys | main/main.go:712-718 | helper for NoAtInCustomKeys: the custom date formats, codes 168..173, contain no `@` |
| NumberFormatProperties.NoAtInCustomTimeAndCurrencyKeys | main/main.go:720-728 | helper for NoAtInCustomKeys: the custom time and currency formats, codes 174..179, contain no `@` |
| NumberFormatProperties.AccountingIsCode180 | main/main.go:730-731 | the only custom key with code 180 is the accounting pattern |
| NumberFormatProperties.NoAtInCustomKeys | main/main.go:705-732 | the accounting pattern is the only custom key containing `@` |
| NumberFormatProperties.AtSignRejected | main/main.go:665-791 | any specifier containing `@`, other than the accounting pattern, is rejected |
| NumberFormatProperties.PercentBuiltInKeys | main/main.go:674-675 | the only built-in keys containing `%` are `0%` and `0.00%` |
| NumberFormatProperties.NoPercentInCustomNumberKeys | main/main.go:706-710 | helper for NoPercentInCustomKeys: the custom number formats, codes 164..167, contain no `%` |
| NumberFormatProperties.NoPercentInCustomDateKeys | main/main.go:712-718 | helper for NoPercentInCustomKeys: the custom date formats, codes 168..173, contain no `%` |
| NumberFormatProperties.NoPercentInCustomTimeAndCurrencyKeys | main/main.go:720-728 | helper for NoPercentInCustomKeys: the custom time and currency formats, codes 174..179, contain no `%` |
| NumberFormatProperties.NoPercentInAccounting | main/main.go:731 | helper for NoPercentInCustomKeys: the accounting pattern contains no `%` |
| NumberFormatProperties.NoPercentInCustomKeys | main/main.go:705-732 | no custom key contains `%` |
| NumberFormatProperties.PercentSignRejected | main/main.go:665-791 | any specifier containing `%` is rejected unless its lower-casing is `0%` or `0.00%` |
| NumberFormatProperties.NoKOrIInBuiltInKeys | main/main.go:667-696 | no built-in key contains `k` or `i`, the only ASCII letters that Unicode lower-casing makes from non-ASCII letters |
| NumberFormatProperties.NoKOrIInBuiltInNumberKeys | main/main.go:669-695 | helper for NoKOrIInBuiltInKeys: the number and currency keys contain no `k` or `i` |
| NumberFormatProperties.NoKOrIInBuiltInDateTimeKeys | main/main.go:681-689 | helper for NoKOrIInBuiltInKeys: the date and time keys contain no `k` or `i` |
| StyleTables.BorderStyleOf | main/main.go:637-652 | returns a style exactly for the names in the table, and then that name's style |
| StyleTables.PatternOf | main/main.go:653-661 | returns the table's pattern for a known name and 0 (Go's zero value) for an unknown one; always in 0..6 |
| StyleTables.BorderStyleCodes | main/main.go:637-652 | border styles lie in -1..13, and none is 0 |
| StyleTables.BorderStylesInjective | main/main.go:637-652 | different border names have different styles |
| StyleTables.PatternsInjective | main/main.go:653-661 | different pattern names have different patterns |
| StyleTables.UnknownPatternIsNone | main/main.go:553-556 | an unknown pattern name acts like `none` |
| StyleTables.BorderCaseSensitive | main/main.go:558-562 | border names match case-sensitively: `mediumDashed` is 8, `mediumdashed` is unknown |
| FormatRange.StringArg | main/main.go:504 | a string is read exactly when the key is present with a string value |
| FormatRange.NonEmptyStringArg | main/main.go:490-501 | a non-empty string is read exactly when the key holds a non-empty string |
| FormatRange.BoolArg | main/main.go:528-533 | a boolean is read exactly when the key holds a boolean |
| FormatRange.NumberArg | main/main.go:537-539 | a number is read exactly when the key holds a number |
| FormatRange.TruncateToInt | main/main.go:582 | Go's float-to-int conversion truncates toward zero |
| FormatRange.EndCellOf | main/main.go:503-507 | the end cell, as a definition: end_cell when it is a non-empty string, else the start cell. It carries no ensures; EndCellDefaultsToStart states it |
| FormatRange.FontOf | main/main.go:527-546 | the font, as a definition, one field per argument with Go's zero value as default. It carries no ensures; FontSizePositive, WrongType*Ignored and DefaultFontAndFill state its properties |
| FormatRange.FillOf | main/main.go:522-556 | the fill, as a definition. It carries no ensures; FillShape states it |
| FormatRange.BordersOutcome | main/main.go:523-571 | the borders or their error, as a definition. It carries no ensures; BordersUniform, UnknownBorderTypeRejected, BorderColorMustBeString and BorderColorIgnoredWithoutType state it |
| FormatRange.AlignmentOf | main/main.go:573-583 | the alignment, as a definition. It carries no ensures; RotationTruncated and WrongType*Ignored state its properties |
| FormatRange.NumFmtOutcome | main/main.go:586-592 | the number format code or its error, as a definition. It carries no ensures; NumFmtApplied and NumberFormatRejected state it |
| FormatRange.ProtectionOf | main/main.go:595-599 | the protection, as a definition. It carries no ensures; ProtectionApplied states it |
| FormatRange.FormatRangeOutcome | main/main.go:488-600 | the handler's specification, as a definition. It carries no ensures; FormatRange is proved to return it, and FailsExactly, RequiredArgumentOrder, SameReadsSameOutcome and the Default* lemmas state its properties |
| FormatRange.ApplyFont | main/main.go:527-546 | the step-by-step font updates build exactly the font the outcome specifies |
| FormatRange.ApplyFill | main/main.go:522-556 | the in-place colour write and the pattern lookup build exactly the specified fill |
| FormatRange.ApplyBorders | main/main.go:523-571 | the loop over the four borders gives exactly the specified borders, or the specified error |
| FormatRange.ApplyAlignment | main/main.go:573-583 | the step-by-step alignment updates build exactly the specified alignment |
| FormatRange.FormatRange | main/main.go:488-600 | the handler returns exactly the outcome `FormatRangeOutcome` specifies |
| FormatRangeProperties.OtherKeyUnchanged | main/main.go:490-598 | updating one argument leaves every read of another argument unchanged |
| FormatRangeProperties.SameReadsSameParts | main/main.go:519-599 | argument maps that read the same build the same font, fill, alignment, number format and protection |
| FormatRangeProperties.SameReadsSameOutcome | main/main.go:488-600 | argument maps that agree on every read the handler makes, border_color included, have the same outcome |
| FormatRangeProperties.RequiredArgumentOrder | main/main.go:490-501 | filepath, sheet_name and start_cell are checked in that order, and the first one that is missing, empty or not a string is reported. A missing-argument error occurs exactly when one of them is absent |
| FormatRangeProperties.AcceptedCarriesRequired | main/main.go:490-501 | an accepted call carries the three required strings unchanged, each non-empty |
| FormatRangeProperties.EndCellDefaultsToStart | main/main.go:503-507 | the end cell is the given non-empty string, and otherwise the start cell; it is never empty |
| FormatRangeProperties.UncheckedKeyNeverFails | main/main.go:527-598 | arguments other than the required three, border_type, border_color and number_format never decide whether the call fails, nor its error |
| FormatRangeProperties.BorderColorIgnoredWithoutType | main/main.go:558-571 | without a border type, border_color, of any type, changes nothing |
| FormatRangeProperties.UnknownBorderTypeRejected | main/main.go:558-562 | a non-empty border type fails the call with its own name exactly when it is not in the table |
| FormatRangeProperties.BorderColorMustBeString | main/main.go:563-570 | with a known border type, the call fails on border_color exactly when border_color is not a string |
| FormatRangeProperties.BorderErrorFirst | main/main.go:558-591 | a border error is reported even when the number format is also bad |
| FormatRangeProperties.NumberFormatRejected | main/main.go:586-592 | once the borders are accepted, the call fails exactly when the resolver rejects the number format, with the resolver's error |
| FormatRangeProperties.FailsExactly | main/main.go:488-600 | the call succeeds exactly when the required arguments are present and the borders and number format are accepted |
| FormatRangeProperties.DefaultFontAndFill | main/main.go:519-556 | without style arguments, the font is the zero font and the fill is the white solid pattern fill |
| FormatRangeProperties.DefaultRest | main/main.go:519-599 | without style arguments, there are four zero borders, a zero alignment, format 0 and no protection |
| FormatRangeProperties.DefaultsWithoutStyleArguments | main/main.go:519-525 | with only the location given, the style is the default one: a white solid pattern fill, four zero borders, zero font and alignment, format 0, no protection |
| FormatRangeProperties.FillShape | main/main.go:522-556 | the fill is always one pattern fill with a single colour: bg_color when given, else FFFFFF. Its pattern is 1 by default, the named one otherwise, and 0 for an unknown name |
| FormatRangeProperties.BordersUniform | main/main.go:523-571 | with a border type, all four borders get its style and the same colour, typed top, right, bottom, left; without one, they stay zero |
| FormatRangeProperties.NumFmtApplied | main/main.go:586-592 | the number format is 0 when none is given, and otherwise the resolver's code, within 0..181 |
| FormatRangeProperties.ProtectionApplied | main/main.go:595-599 | protection is set exactly when protection_lock is a boolean, and then to that value |
| FormatRangeProperties.WrongTypeBoolReads | main/main.go:528-580 | a non-boolean bold, italic or wrap_text reads like an absent one everywhere |
| FormatRangeProperties.WrongTypeBoolIgnored | main/main.go:528-580 | a non-boolean bold, italic or wrap_text gives the same outcome as leaving it out |
| FormatRangeProperties.WrongTypeStringReads | main/main.go:534-577 | a non-string optional text argument reads like an absent one everywhere |
| FormatRangeProperties.WrongTypeStringIgnored | main/main.go:534-577 | a non-string underline, font, fill or alignment text argument gives the same outcome as leaving it out |
| FormatRangeProperties.WrongTypeNumberReads | main/main.go:537-583 | a non-number font_size or text_rotation reads like an absent one everywhere |
| FormatRangeProperties.WrongTypeNumberIgnored | main/main.go:537-583 | a non-number font_size or text_rotation gives the same outcome as leaving it out |
| FormatRangeProperties.RotationTruncated | main/main.go:581-583 | the text rotation is the number truncated toward zero |
| FormatRangeProperties.FontSizePositive | main/main.go:537-539 | the font size is the given number when it is positive, and 0 otherwise |

## Left out

- The MCP server, its transport, tool registration and argument schemas: protocol plumbing with no decisions of its own.
- Opening the workbook, `NewStyle`, `SetCellStyle`, `MergeCell`, saving and closing: calls into the excelize library. The model stops at the request that would be handed to them, and so does not capture the errors they can raise.
- The ordering of the file-open failure: in the source the workbook is opened after the required arguments and before the style arguments are read, so a bad path is reported before a bad style argument. No file system is modelled.
- merge_cells and conditional_format: library calls, or arguments the handler never reads.
- Error texts: each error is a constructor carrying what its message names. The required-argument errors are Go errors, the others are tool-result errors; the model does not tell the two channels apart.
- FormatRange.ApplyBorders: the source's unchecked `border_color` type assertion panics, and the server's panic recovery turns that into a failed call. The model returns `BorderColorNotString` instead.
- NumberFormat.ToLower: Go's `strings.ToLower` is Unicode-aware, but the model lowers ASCII letters only. So the validator (which sees the original text) and the custom lookup (which is exact) are unaffected. The built-in lookup can differ only for non-ASCII letters that lower to ASCII, the Kelvin sign to `k` and dotted capital I to `i`, and only if a built-in key contains that lowered letter. No built-in key contains `k` or `i` (NoKOrIInBuiltInKeys), so the two lowerings find the same built-in keys.
- Characters are Dafny characters, not UTF-8 bytes. Go's range over a string yields runes, which Dafny characters match; invalid UTF-8 is not modelled.
- JSON `null`, arrays and objects as argument values: only strings, booleans and numbers are modelled. Every other value fails the handler's type assertions the same way, like a value of the wrong type.
- FormatRange.TruncateToInt: Go's conversion of a float outside the int range is implementation-defined, and the model truncates mathematically.
- Reading the same arguments twice gives the same result: the model is a pure function of the arguments, so this holds by construction and is not stated separately.
