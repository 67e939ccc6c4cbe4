/**
  Properties of the format_range decision: which arguments are required and
  in what order they are checked, which arguments can make the call fail,
  the defaults the style starts from, and how each optional argument
  reaches its field.
 */
module FormatRangeProperties {
  import opened Results
  import opened NumberFormat
  import opened StyleTables
  import opened FormatRange
  import NumberFormatProperties

  /** The required arguments, all present as non-empty strings. */
  predicate HasRequired(args: Arguments) {
    NonEmptyStringArg(args, "filepath").Some? &&
    NonEmptyStringArg(args, "sheet_name").Some? &&
    NonEmptyStringArg(args, "start_cell").Some?
  }

  /** The two required arguments checked before start_cell are present. */
  predicate HasPathAndSheet(args: Arguments) {
    NonEmptyStringArg(args, "filepath").Some? && NonEmptyStringArg(args, "sheet_name").Some?
  }

  /** The only arguments whose value can make the call fail. */
  const CheckedKeys: set<string> :=
    {"filepath", "sheet_name", "start_cell", "border_type", "border_color", "number_format"}

  /** The optional style arguments, by the type each is read as. */
  const BoolStyleKeys: set<string> := {"bold", "italic", "wrap_text"}
  const StringStyleKeys: set<string> :=
    {"underline", "font_family", "font_color", "bg_color", "fill_pattern", "horizontal_align", "vertical_align"}
  const NumberStyleKeys: set<string> := {"font_size", "text_rotation"}

  /** Updating one key leaves every lookup of another key as it was. */
  lemma OtherKeyUnchanged(args: Arguments, k: string, v: Value, key: string)
    requires k != key
    ensures StringArg(args[k := v], key) == StringArg(args, key)
    ensures NonEmptyStringArg(args[k := v], key) == NonEmptyStringArg(args, key)
    ensures BoolArg(args[k := v], key) == BoolArg(args, key)
    ensures NumberArg(args[k := v], key) == NumberArg(args, key)
  {
  }

  /** Giving a key a value that is not a string reads, as a string, like leaving it out. */
  lemma NonStringReadsAsAbsent(args: Arguments, k: string, v: Value, key: string)
    requires key != k || !v.Str?
    ensures StringArg(args[k := v], key) == StringArg(args - {k}, key)
    ensures NonEmptyStringArg(args[k := v], key) == NonEmptyStringArg(args - {k}, key)
  {
  }

  /** Giving a key a value that is not a boolean reads, as a boolean, like leaving it out. */
  lemma NonBoolReadsAsAbsent(args: Arguments, k: string, v: Value, key: string)
    requires key != k || !v.Bool?
    ensures BoolArg(args[k := v], key) == BoolArg(args - {k}, key)
  {
  }

  /** Giving a key a value that is not a number reads, as a number, like leaving it out. */
  lemma NonNumberReadsAsAbsent(args: Arguments, k: string, v: Value, key: string)
    requires key != k || !v.Num?
    ensures NumberArg(args[k := v], key) == NumberArg(args - {k}, key)
  {
  }

  /**
    Two argument maps that read the same at every key the handler looks at,
    border_color aside.
   */
  predicate SameReads(a: Arguments, b: Arguments) {
    NonEmptyStringArg(a, "filepath") == NonEmptyStringArg(b, "filepath") &&
    NonEmptyStringArg(a, "sheet_name") == NonEmptyStringArg(b, "sheet_name") &&
    NonEmptyStringArg(a, "start_cell") == NonEmptyStringArg(b, "start_cell") &&
    NonEmptyStringArg(a, "end_cell") == NonEmptyStringArg(b, "end_cell") &&
    BoolArg(a, "bold") == BoolArg(b, "bold") &&
    BoolArg(a, "italic") == BoolArg(b, "italic") &&
    NonEmptyStringArg(a, "underline") == NonEmptyStringArg(b, "underline") &&
    NumberArg(a, "font_size") == NumberArg(b, "font_size") &&
    NonEmptyStringArg(a, "font_family") == NonEmptyStringArg(b, "font_family") &&
    NonEmptyStringArg(a, "font_color") == NonEmptyStringArg(b, "font_color") &&
    NonEmptyStringArg(a, "bg_color") == NonEmptyStringArg(b, "bg_color") &&
    NonEmptyStringArg(a, "fill_pattern") == NonEmptyStringArg(b, "fill_pattern") &&
    NonEmptyStringArg(a, "border_type") == NonEmptyStringArg(b, "border_type") &&
    NonEmptyStringArg(a, "horizontal_align") == NonEmptyStringArg(b, "horizontal_align") &&
    NonEmptyStringArg(a, "vertical_align") == NonEmptyStringArg(b, "vertical_align") &&
    BoolArg(a, "wrap_text") == BoolArg(b, "wrap_text") &&
    NumberArg(a, "text_rotation") == NumberArg(b, "text_rotation") &&
    NonEmptyStringArg(a, "number_format") == NonEmptyStringArg(b, "number_format") &&
    BoolArg(a, "protection_lock") == BoolArg(b, "protection_lock")
  }

  /** Maps that read the same build the same font, fill, alignment, number format and protection. */
  lemma SameReadsSameParts(a: Arguments, b: Arguments)
    requires SameReads(a, b)
    ensures FontOf(a) == FontOf(b) && FillOf(a) == FillOf(b) && AlignmentOf(a) == AlignmentOf(b)
    ensures NumFmtOutcome(a) == NumFmtOutcome(b) && ProtectionOf(a) == ProtectionOf(b)
  {
  }

  /** Maps that read the same everywhere, border_color included, have the same outcome. */
  lemma SameReadsSameOutcome(a: Arguments, b: Arguments)
    requires SameReads(a, b)
    requires StringArg(a, "border_color") == StringArg(b, "border_color")
    ensures FormatRangeOutcome(a) == FormatRangeOutcome(b)
  {
    assert BordersOutcome(a) == BordersOutcome(b);
    SameReadsSameParts(a, b);
  }

  // ---------------------------------------------------------------- required arguments

  /**
    The required arguments are checked in order filepath, sheet_name,
    start_cell; the first one missing, empty or not a string is reported.
   */
  lemma RequiredArgumentOrder(args: Arguments)
    ensures NonEmptyStringArg(args, "filepath").None? ==>
      FormatRangeOutcome(args) == Err(MissingArgument("filepath"))
    ensures NonEmptyStringArg(args, "filepath").Some? && NonEmptyStringArg(args, "sheet_name").None? ==>
      FormatRangeOutcome(args) == Err(MissingArgument("sheet_name"))
    ensures HasPathAndSheet(args) && NonEmptyStringArg(args, "start_cell").None? ==>
      FormatRangeOutcome(args) == Err(MissingArgument("start_cell"))
    ensures FormatRangeOutcome(args).Err? && FormatRangeOutcome(args).error.MissingArgument? <==> !HasRequired(args)
  {
  }

  /** An accepted call carries the required arguments through unchanged. */
  lemma AcceptedCarriesRequired(args: Arguments)
    requires FormatRangeOutcome(args).Ok?
    ensures HasRequired(args)
    ensures args["filepath"] == Str(FormatRangeOutcome(args).value.filepath) && FormatRangeOutcome(args).value.filepath != ""
    ensures args["sheet_name"] == Str(FormatRangeOutcome(args).value.sheetName) && FormatRangeOutcome(args).value.sheetName != ""
    ensures args["start_cell"] == Str(FormatRangeOutcome(args).value.startCell) && FormatRangeOutcome(args).value.startCell != ""
  {
  }

  /** The end cell is the given non-empty string, and otherwise the start cell. */
  lemma EndCellDefaultsToStart(args: Arguments)
    requires FormatRangeOutcome(args).Ok?
    ensures var req := FormatRangeOutcome(args).value;
      req.endCell != "" &&
      (if "end_cell" in args && args["end_cell"].Str? && args["end_cell"].s != ""
       then req.endCell == args["end_cell"].s
       else req.endCell == req.startCell)
  {
  }

  // ---------------------------------------------------------------- which arguments can fail

  /**
    Every argument outside the required three, border_type, border_color and
    number_format is only ever applied, never rejected: changing it changes
    neither whether the call fails nor the error it fails with.
   */
  lemma UncheckedKeyNeverFails(args: Arguments, k: string, v: Value)
    requires k !in CheckedKeys
    ensures FormatRangeOutcome(args[k := v]).Err? <==> FormatRangeOutcome(args).Err?
    ensures FormatRangeOutcome(args).Err? ==> FormatRangeOutcome(args[k := v]) == FormatRangeOutcome(args)
  {
    OtherKeyUnchanged(args, k, v, "filepath");
    OtherKeyUnchanged(args, k, v, "sheet_name");
    OtherKeyUnchanged(args, k, v, "start_cell");
    OtherKeyUnchanged(args, k, v, "border_type");
    OtherKeyUnchanged(args, k, v, "border_color");
    OtherKeyUnchanged(args, k, v, "number_format");
    assert BordersOutcome(args[k := v]) == BordersOutcome(args);
    assert NumFmtOutcome(args[k := v]) == NumFmtOutcome(args);
  }

  /**
    border_color is only looked at while the borders are drawn: without a
    border type it may be anything, even a value that is not a string.
   */
  lemma BorderColorIgnoredWithoutType(args: Arguments, v: Value)
    requires NonEmptyStringArg(args, "border_type").None?
    ensures FormatRangeOutcome(args["border_color" := v]) == FormatRangeOutcome(args)
  {
    OtherKeyUnchanged(args, "border_color", v, "filepath");
    OtherKeyUnchanged(args, "border_color", v, "sheet_name");
    OtherKeyUnchanged(args, "border_color", v, "start_cell");
    OtherKeyUnchanged(args, "border_color", v, "end_cell");
    OtherKeyUnchanged(args, "border_color", v, "bold");
    OtherKeyUnchanged(args, "border_color", v, "italic");
    OtherKeyUnchanged(args, "border_color", v, "underline");
    OtherKeyUnchanged(args, "border_color", v, "font_size");
    OtherKeyUnchanged(args, "border_color", v, "font_family");
    OtherKeyUnchanged(args, "border_color", v, "font_color");
    OtherKeyUnchanged(args, "border_color", v, "bg_color");
    OtherKeyUnchanged(args, "border_color", v, "fill_pattern");
    OtherKeyUnchanged(args, "border_color", v, "border_type");
    OtherKeyUnchanged(args, "border_color", v, "horizontal_align");
    OtherKeyUnchanged(args, "border_color", v, "vertical_align");
    OtherKeyUnchanged(args, "border_color", v, "wrap_text");
    OtherKeyUnchanged(args, "border_color", v, "text_rotation");
    OtherKeyUnchanged(args, "border_color", v, "number_format");
    OtherKeyUnchanged(args, "border_color", v, "protection_lock");
    assert BordersOutcome(args["border_color" := v]) == BordersOutcome(args);
    SameReadsSameParts(args["border_color" := v], args);
  }

  /** An unknown border type is rejected, naming the type. */
  lemma UnknownBorderTypeRejected(args: Arguments, t: string)
    requires HasRequired(args)
    requires "border_type" in args && args["border_type"] == Str(t) && t != ""
    ensures FormatRangeOutcome(args) == Err(InvalidBorderType(t)) <==> t !in BorderStyles
  {
  }

  /** With a known border type, a border_color that is not a string makes the call fail. */
  lemma BorderColorMustBeString(args: Arguments, t: string)
    requires HasRequired(args)
    requires "border_type" in args && args["border_type"] == Str(t) && t in BorderStyles
    ensures FormatRangeOutcome(args) == Err(BorderColorNotString) <==>
      !("border_color" in args && args["border_color"].Str?)
  {
  }

  /** Border errors come before number format errors. */
  lemma BorderErrorFirst(args: Arguments)
    requires HasRequired(args)
    requires BordersOutcome(args).Err?
    ensures FormatRangeOutcome(args) == Err(BordersOutcome(args).error)
  {
  }

  /**
    A number format the resolver rejects makes the call fail with the
    resolver's error, once the borders are accepted.
   */
  lemma NumberFormatRejected(args: Arguments, f: string)
    requires HasRequired(args) && BordersOutcome(args).Ok?
    requires "number_format" in args && args["number_format"] == Str(f) && f != ""
    ensures FormatRangeOutcome(args).Err? <==> ParseNumberFormat(f).Err?
    ensures FormatRangeOutcome(args).Err? ==> FormatRangeOutcome(args) == Err(InvalidNumberFormat(InvalidFormat(f)))
  {
  }

  /** The call fails exactly when a required argument is missing or a checked style argument is rejected. */
  lemma FailsExactly(args: Arguments)
    ensures FormatRangeOutcome(args).Ok? <==>
      HasRequired(args) && BordersOutcome(args).Ok? && NumFmtOutcome(args).Ok?
  {
  }

  // ---------------------------------------------------------------- the assembled style

  /** The arguments that only say where to apply the style. */
  const LocationKeys: set<string> := {"filepath", "sheet_name", "start_cell", "end_cell"}

  /** Without style arguments, font and fill are the defaults. */
  lemma DefaultFontAndFill(args: Arguments)
    requires forall k | k in args :: k in LocationKeys
    ensures FontOf(args) == DefaultStyle.font && FillOf(args) == DefaultStyle.fill
  {
  }

  /** Without style arguments, borders, alignment, number format and protection are the defaults. */
  lemma DefaultRest(args: Arguments)
    requires forall k | k in args :: k in LocationKeys
    ensures BordersOutcome(args) == Ok(DefaultStyle.border) && AlignmentOf(args) == DefaultStyle.alignment
    ensures NumFmtOutcome(args) == Ok(0) && ProtectionOf(args) == None
  {
    assert "border_type" !in args && "number_format" !in args && "protection_lock" !in args;
    assert "horizontal_align" !in args && "vertical_align" !in args;
    assert "wrap_text" !in args && "text_rotation" !in args;
  }

  /** With nothing but the location given, the style is exactly the default one. */
  lemma DefaultsWithoutStyleArguments(args: Arguments)
    requires HasRequired(args)
    requires forall k | k in args :: k in LocationKeys
    ensures FormatRangeOutcome(args).Ok?
    ensures FormatRangeOutcome(args).value.style == DefaultStyle
  {
    DefaultFontAndFill(args);
    DefaultRest(args);
  }

  /**
    The fill is always a pattern fill with one colour: bg_color when given
    and non-empty, else white; its pattern is the named one, 1 when none is
    named, and 0 for a name the table does not know.
   */
  lemma FillShape(args: Arguments)
    requires FormatRangeOutcome(args).Ok?
    ensures var fill := FormatRangeOutcome(args).value.style.fill;
      fill.kind == "pattern" && |fill.color| == 1 && 0 <= fill.pattern <= 6 &&
      (fill.color[0] == if NonEmptyStringArg(args, "bg_color").Some? then args["bg_color"].s else "FFFFFF") &&
      (NonEmptyStringArg(args, "fill_pattern").None? ==> fill.pattern == 1) &&
      (NonEmptyStringArg(args, "fill_pattern").Some? && args["fill_pattern"].s !in Patterns ==> fill.pattern == 0)
  {
  }

  /**
    With a known border type every side gets that type's style and the same
    colour (the border_color string, possibly empty), sides in the order
    top, right, bottom, left; without one the four borders stay zero.
   */
  lemma BordersUniform(args: Arguments)
    requires FormatRangeOutcome(args).Ok?
    ensures var borders := FormatRangeOutcome(args).value.style.border;
      |borders| == 4 &&
      (NonEmptyStringArg(args, "border_type").None? ==> forall i | 0 <= i < 4 :: borders[i] == NoBorder) &&
      (NonEmptyStringArg(args, "border_type").Some? ==>
        args["border_type"].s in BorderStyles && args["border_color"].Str? &&
        forall i | 0 <= i < 4 ::
          borders[i] == Border(Sides[i], args["border_color"].s, BorderStyles[args["border_type"].s]))
  {
  }

  /** The number format code is the resolver's, 0 when none is given, and at most 181. */
  lemma NumFmtApplied(args: Arguments)
    requires FormatRangeOutcome(args).Ok?
    ensures var code := FormatRangeOutcome(args).value.style.numFmt;
      0 <= code <= NextCustomCode &&
      (NonEmptyStringArg(args, "number_format").None? ==> code == 0) &&
      (NonEmptyStringArg(args, "number_format").Some? ==>
        ParseNumberFormat(args["number_format"].s) == Ok(code))
  {
    match NonEmptyStringArg(args, "number_format")
    case None =>
    case Some(f) => NumberFormatProperties.ResultCodes(f);
  }

  /** Protection is set exactly when protection_lock is a boolean, and then to it. */
  lemma ProtectionApplied(args: Arguments)
    requires FormatRangeOutcome(args).Ok?
    ensures var p := FormatRangeOutcome(args).value.style.protection;
      p.Some? <==> "protection_lock" in args && args["protection_lock"].Bool?
    ensures var p := FormatRangeOutcome(args).value.style.protection;
      p.Some? ==> p.value.locked == args["protection_lock"].b
  {
  }

  /** A non-boolean bold, italic or wrap_text reads everywhere like an absent one. */
  lemma WrongTypeBoolReads(args: Arguments, k: string, v: Value)
    requires k in BoolStyleKeys && !v.Bool?
    ensures SameReads(args[k := v], args - {k})
    ensures StringArg(args[k := v], "border_color") == StringArg(args - {k}, "border_color")
  {
    NonStringReadsAsAbsent(args, k, v, "filepath");
    NonStringReadsAsAbsent(args, k, v, "sheet_name");
    NonStringReadsAsAbsent(args, k, v, "start_cell");
    NonStringReadsAsAbsent(args, k, v, "end_cell");
    NonBoolReadsAsAbsent(args, k, v, "bold");
    NonBoolReadsAsAbsent(args, k, v, "italic");
    NonStringReadsAsAbsent(args, k, v, "underline");
    NonNumberReadsAsAbsent(args, k, v, "font_size");
    NonStringReadsAsAbsent(args, k, v, "font_family");
    NonStringReadsAsAbsent(args, k, v, "font_color");
    NonStringReadsAsAbsent(args, k, v, "bg_color");
    NonStringReadsAsAbsent(args, k, v, "fill_pattern");
    NonStringReadsAsAbsent(args, k, v, "border_type");
    NonStringReadsAsAbsent(args, k, v, "horizontal_align");
    NonStringReadsAsAbsent(args, k, v, "vertical_align");
    NonBoolReadsAsAbsent(args, k, v, "wrap_text");
    NonNumberReadsAsAbsent(args, k, v, "text_rotation");
    NonStringReadsAsAbsent(args, k, v, "number_format");
    NonBoolReadsAsAbsent(args, k, v, "protection_lock");
    NonStringReadsAsAbsent(args, k, v, "border_color");
  }

  /**
    A bold, italic or wrap_text argument that is not a boolean is ignored:
    the outcome is as if it had not been given.
   */
  lemma WrongTypeBoolIgnored(args: Arguments, k: string, v: Value)
    requires k in BoolStyleKeys && !v.Bool?
    ensures FormatRangeOutcome(args[k := v]) == FormatRangeOutcome(args - {k})
  {
    WrongTypeBoolReads(args, k, v);
    SameReadsSameOutcome(args[k := v], args - {k});
  }

  /** A non-string optional text argument reads everywhere like an absent one. */
  lemma WrongTypeStringReads(args: Arguments, k: string, v: Value)
    requires k in StringStyleKeys && !v.Str?
    ensures SameReads(args[k := v], args - {k})
    ensures StringArg(args[k := v], "border_color") == StringArg(args - {k}, "border_color")
  {
    NonStringReadsAsAbsent(args, k, v, "filepath");
    NonStringReadsAsAbsent(args, k, v, "sheet_name");
    NonStringReadsAsAbsent(args, k, v, "start_cell");
    NonStringReadsAsAbsent(args, k, v, "end_cell");
    NonBoolReadsAsAbsent(args, k, v, "bold");
    NonBoolReadsAsAbsent(args, k, v, "italic");
    NonStringReadsAsAbsent(args, k, v, "underline");
    NonNumberReadsAsAbsent(args, k, v, "font_size");
    NonStringReadsAsAbsent(args, k, v, "font_family");
    NonStringReadsAsAbsent(args, k, v, "font_color");
    NonStringReadsAsAbsent(args, k, v, "bg_color");
    NonStringReadsAsAbsent(args, k, v, "fill_pattern");
    NonStringReadsAsAbsent(args, k, v, "border_type");
    NonStringReadsAsAbsent(args, k, v, "horizontal_align");
    NonStringReadsAsAbsent(args, k, v, "vertical_align");
    NonBoolReadsAsAbsent(args, k, v, "wrap_text");
    NonNumberReadsAsAbsent(args, k, v, "text_rotation");
    NonStringReadsAsAbsent(args, k, v, "number_format");
    NonBoolReadsAsAbsent(args, k, v, "protection_lock");
    NonStringReadsAsAbsent(args, k, v, "border_color");
  }

  /**
    An optional font, fill or alignment text argument that is not a string
    is ignored: the outcome is as if it had not been given.
   */
  lemma WrongTypeStringIgnored(args: Arguments, k: string, v: Value)
    requires k in StringStyleKeys && !v.Str?
    ensures FormatRangeOutcome(args[k := v]) == FormatRangeOutcome(args - {k})
  {
    WrongTypeStringReads(args, k, v);
    SameReadsSameOutcome(args[k := v], args - {k});
  }

  /** A non-number font_size or text_rotation reads everywhere like an absent one. */
  lemma WrongTypeNumberReads(args: Arguments, k: string, v: Value)
    requires k in NumberStyleKeys && !v.Num?
    ensures SameReads(args[k := v], args - {k})
    ensures StringArg(args[k := v], "border_color") == StringArg(args - {k}, "border_color")
  {
    NonStringReadsAsAbsent(args, k, v, "filepath");
    NonStringReadsAsAbsent(args, k, v, "sheet_name");
    NonStringReadsAsAbsent(args, k, v, "start_cell");
    NonStringReadsAsAbsent(args, k, v, "end_cell");
    NonBoolReadsAsAbsent(args, k, v, "bold");
    NonBoolReadsAsAbsent(args, k, v, "italic");
    NonStringReadsAsAbsent(args, k, v, "underline");
    NonNumberReadsAsAbsent(args, k, v, "font_size");
    NonStringReadsAsAbsent(args, k, v, "font_family");
    NonStringReadsAsAbsent(args, k, v, "font_color");
    NonStringReadsAsAbsent(args, k, v, "bg_color");
    NonStringReadsAsAbsent(args, k, v, "fill_pattern");
    NonStringReadsAsAbsent(args, k, v, "border_type");
    NonStringReadsAsAbsent(args, k, v, "horizontal_align");
    NonStringReadsAsAbsent(args, k, v, "vertical_align");
    NonBoolReadsAsAbsent(args, k, v, "wrap_text");
    NonNumberReadsAsAbsent(args, k, v, "text_rotation");
    NonStringReadsAsAbsent(args, k, v, "number_format");
    NonBoolReadsAsAbsent(args, k, v, "protection_lock");
    NonStringReadsAsAbsent(args, k, v, "border_color");
  }

  /**
    A font_size or text_rotation argument that is not a number is ignored:
    the outcome is as if it had not been given.
   */
  lemma WrongTypeNumberIgnored(args: Arguments, k: string, v: Value)
    requires k in NumberStyleKeys && !v.Num?
    ensures FormatRangeOutcome(args[k := v]) == FormatRangeOutcome(args - {k})
  {
    WrongTypeNumberReads(args, k, v);
    SameReadsSameOutcome(args[k := v], args - {k});
  }

  /** A text rotation is truncated toward zero, as Go's float-to-int conversion does. */
  lemma RotationTruncated(args: Arguments, x: real)
    requires FormatRangeOutcome(args).Ok?
    requires "text_rotation" in args && args["text_rotation"] == Num(x)
    ensures var n := FormatRangeOutcome(args).value.style.alignment.textRotation;
      (0.0 <= x ==> n as real <= x < n as real + 1.0) &&
      (x < 0.0 ==> n as real - 1.0 < x <= n as real)
  {
  }

  /** A font size that is not positive leaves the size at zero. */
  lemma FontSizePositive(args: Arguments)
    requires FormatRangeOutcome(args).Ok?
    ensures var size := FormatRangeOutcome(args).value.style.font.size;
      size >= 0.0 &&
      (size > 0.0 <==> "font_size" in args && args["font_size"].Num? && args["font_size"].x > 0.0) &&
      (size > 0.0 ==> size == args["font_size"].x)
  {
  }
}
