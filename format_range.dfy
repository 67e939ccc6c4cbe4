/**
  The argument handling of the format_range tool in main/main.go: the
  required path, sheet and start cell, the end cell that defaults to the
  start cell, and the style record assembled from optional, loosely-typed
  arguments on top of fixed defaults. Opening the workbook, registering
  the style and applying it are calls into the spreadsheet library and are
  not modelled; the result here is what would be handed to that library.
 */
module FormatRange {
  import opened Results
  import opened NumberFormat
  import opened StyleTables

  /** A decoded JSON argument: a string, a boolean or a number. */
  datatype Value = Str(s: string) | Bool(b: bool) | Num(x: real)

  type Arguments = map<string, Value>

  datatype Font = Font(bold: bool, italic: bool, underline: string, size: real, family: string, color: string)
  datatype Fill = Fill(kind: string, color: seq<string>, pattern: int)
  datatype Border = Border(kind: string, color: string, style: int)
  datatype Alignment = Alignment(horizontal: string, vertical: string, wrapText: bool, textRotation: int)
  datatype Protection = Protection(locked: bool)

  datatype Style = Style(
    font: Font,
    fill: Fill,
    border: seq<Border>,
    alignment: Alignment,
    numFmt: int,
    protection: Option<Protection>)

  /** What the handler hands to the library once every argument is accepted. */
  datatype FormatRequest = FormatRequest(
    filepath: string,
    sheetName: string,
    startCell: string,
    endCell: string,
    style: Style)

  datatype FormatRangeError =
    | MissingArgument(name: string)
    | InvalidBorderType(borderType: string)
    | BorderColorNotString
    | InvalidNumberFormat(cause: FormatError)

  /** The sides the four borders are given, in order. */
  const Sides: seq<string> := ["top", "right", "bottom", "left"]

  /** The zero Border of Go: no side, no colour, style 0. */
  const NoBorder: Border := Border("", "", 0)

  /** The style the handler starts from. */
  const DefaultStyle: Style := Style(
    Font(false, false, "", 0.0, "", ""),
    Fill("pattern", ["FFFFFF"], 1),
    [NoBorder, NoBorder, NoBorder, NoBorder],
    Alignment("", "", false, 0),
    0,
    None)

  // ---------------------------------------------------------------- argument access

  /** `args[key].(string)`: present and a string. */
  function StringArg(args: Arguments, key: string): (r: Option<string>)
    ensures r.Some? <==> key in args && args[key].Str?
    ensures r.Some? ==> args[key] == Str(r.value)
  {
    if key in args && args[key].Str? then Some(args[key].s) else None
  }

  /** `args[key].(string)` with `ok && s != ""`. */
  function NonEmptyStringArg(args: Arguments, key: string): (r: Option<string>)
    ensures r.Some? <==> key in args && args[key].Str? && args[key].s != ""
    ensures r.Some? ==> args[key] == Str(r.value)
  {
    match StringArg(args, key)
    case Some(s) => if s != "" then Some(s) else None
    case None => None
  }

  /** `args[key].(bool)`: present and a boolean. */
  function BoolArg(args: Arguments, key: string): (r: Option<bool>)
    ensures r.Some? <==> key in args && args[key].Bool?
    ensures r.Some? ==> args[key] == Bool(r.value)
  {
    if key in args && args[key].Bool? then Some(args[key].b) else None
  }

  /** `args[key].(float64)`: present and a number. */
  function NumberArg(args: Arguments, key: string): (r: Option<real>)
    ensures r.Some? <==> key in args && args[key].Num?
    ensures r.Some? ==> args[key] == Num(r.value)
  {
    if key in args && args[key].Num? then Some(args[key].x) else None
  }

  /** Go's `int(x)` for a float: the fraction is dropped, rounding toward zero. */
  function TruncateToInt(x: real): (n: int)
    ensures 0.0 <= x ==> n as real <= x < n as real + 1.0
    ensures x < 0.0 ==> n as real - 1.0 < x <= n as real
  {
    if 0.0 <= x then x.Floor else -((-x).Floor)
  }

  function OrDefault(o: Option<string>, default: string): string {
    match o
    case Some(s) => s
    case None => default
  }

  // ---------------------------------------------------------------- the outcome, part by part

  function EndCellOf(args: Arguments, startCell: string): string {
    OrDefault(NonEmptyStringArg(args, "end_cell"), startCell)
  }

  function FontOf(args: Arguments): Font {
    Font(
      match BoolArg(args, "bold") case Some(b) => b case None => false,
      match BoolArg(args, "italic") case Some(b) => b case None => false,
      OrDefault(NonEmptyStringArg(args, "underline"), ""),
      match NumberArg(args, "font_size") case Some(x) => (if x > 0.0 then x else 0.0) case None => 0.0,
      OrDefault(NonEmptyStringArg(args, "font_family"), ""),
      OrDefault(NonEmptyStringArg(args, "font_color"), ""))
  }

  function FillOf(args: Arguments): Fill {
    Fill(
      "pattern",
      [OrDefault(NonEmptyStringArg(args, "bg_color"), "FFFFFF")],
      match NonEmptyStringArg(args, "fill_pattern") case Some(p) => PatternOf(p) case None => 1)
  }

  /** The four borders, one per side in order, all of the given style and colour. */
  function UniformBorders(color: string, style: int): seq<Border> {
    seq(4, i requires 0 <= i < 4 => Border(Sides[i], color, style))
  }

  /**
    The borders: the four zero borders when no border type is given, an
    error for an unknown type or for a border colour that is not a string,
    and otherwise the same style (and colour, when non-empty) on all sides.
   */
  function BordersOutcome(args: Arguments): Result<seq<Border>, FormatRangeError> {
    match NonEmptyStringArg(args, "border_type")
    case None => Ok(DefaultStyle.border)
    case Some(t) =>
      match BorderStyleOf(t)
      case None => Err(InvalidBorderType(t))
      case Some(style) =>
        match StringArg(args, "border_color")
        case None => Err(BorderColorNotString)
        case Some(color) => Ok(UniformBorders(color, style))
  }

  function AlignmentOf(args: Arguments): Alignment {
    Alignment(
      OrDefault(NonEmptyStringArg(args, "horizontal_align"), ""),
      OrDefault(NonEmptyStringArg(args, "vertical_align"), ""),
      match BoolArg(args, "wrap_text") case Some(b) => b case None => false,
      match NumberArg(args, "text_rotation") case Some(x) => TruncateToInt(x) case None => 0)
  }

  /** The number format code: 0 when none is given, else what the resolver says. */
  function NumFmtOutcome(args: Arguments): Result<int, FormatRangeError> {
    match NonEmptyStringArg(args, "number_format")
    case None => Ok(0)
    case Some(f) =>
      match ParseNumberFormat(f)
      case Ok(code) => Ok(code)
      case Err(e) => Err(InvalidNumberFormat(e))
  }

  function ProtectionOf(args: Arguments): Option<Protection> {
    match BoolArg(args, "protection_lock")
    case Some(lock) => Some(Protection(lock))
    case None => None
  }

  /**
    What format_range decides for the given arguments: the first missing
    required argument, else the first rejected style argument (borders
    before number format), else the request with the assembled style.
   */
  function FormatRangeOutcome(args: Arguments): Result<FormatRequest, FormatRangeError> {
    match (NonEmptyStringArg(args, "filepath"), NonEmptyStringArg(args, "sheet_name"), NonEmptyStringArg(args, "start_cell"))
    case (None, _, _) => Err(MissingArgument("filepath"))
    case (Some(_), None, _) => Err(MissingArgument("sheet_name"))
    case (Some(_), Some(_), None) => Err(MissingArgument("start_cell"))
    case (Some(path), Some(sheet), Some(start)) =>
      match (BordersOutcome(args), NumFmtOutcome(args))
      case (Err(e), _) => Err(e)
      case (Ok(_), Err(e)) => Err(e)
      case (Ok(borders), Ok(numFmt)) =>
        var style := Style(FontOf(args), FillOf(args), borders, AlignmentOf(args), numFmt, ProtectionOf(args));
        Ok(FormatRequest(path, sheet, start, EndCellOf(args, start), style))
  }

  // ---------------------------------------------------------------- the handler

  /** The font, starting from the zero font, each present argument overwriting its field. */
  method ApplyFont(args: Arguments) returns (font: Font)
    ensures font == FontOf(args)
  {
    font := DefaultStyle.font;
    var bold := BoolArg(args, "bold");
    if bold.Some? {
      font := font.(bold := bold.value);
    }
    var italic := BoolArg(args, "italic");
    if italic.Some? {
      font := font.(italic := italic.value);
    }
    var underline := NonEmptyStringArg(args, "underline");
    if underline.Some? {
      font := font.(underline := underline.value);
    }
    var size := NumberArg(args, "font_size");
    if size.Some? && size.value > 0.0 {
      font := font.(size := size.value);
    }
    var family := NonEmptyStringArg(args, "font_family");
    if family.Some? {
      font := font.(family := family.value);
    }
    var color := NonEmptyStringArg(args, "font_color");
    if color.Some? {
      font := font.(color := color.value);
    }
  }

  /** The fill: the default colour slot is overwritten in place by a non-empty bg_color. */
  method ApplyFill(args: Arguments) returns (fill: Fill)
    ensures fill == FillOf(args)
  {
    var kind, pattern := "pattern", 1;
    var color := new string[1](_ => "FFFFFF");
    var bgColor := NonEmptyStringArg(args, "bg_color");
    if bgColor.Some? {
      color[0] := bgColor.value;
    }
    var fillPattern := NonEmptyStringArg(args, "fill_pattern");
    if fillPattern.Some? {
      kind := "pattern";
      pattern := PatternOf(fillPattern.value);
    }
    fill := Fill(kind, color[..], pattern);
  }

  /**
    The borders: four zero borders, updated side by side when a border type
    is given; the border colour is read on every side and must be a string.
   */
  method ApplyBorders(args: Arguments) returns (r: Result<seq<Border>, FormatRangeError>)
    ensures r == BordersOutcome(args)
  {
    var borders := new Border[4](_ => NoBorder);
    var borderType := NonEmptyStringArg(args, "border_type");
    if borderType.Some? {
      var style := BorderStyleOf(borderType.value);
      if style.None? {
        return Err(InvalidBorderType(borderType.value));
      }
      var i := 0;
      while i < borders.Length
        invariant 0 <= i <= borders.Length == 4
        invariant i > 0 ==> StringArg(args, "border_color").Some?
        invariant forall j :: 0 <= j < i ==> borders[j] == Border(Sides[j], StringArg(args, "border_color").value, style.value)
        invariant forall j :: i <= j < 4 ==> borders[j] == NoBorder
      {
        borders[i] := borders[i].(kind := Sides[i], style := style.value);
        var borderColor := StringArg(args, "border_color");
        if borderColor.None? {
          return Err(BorderColorNotString);
        }
        if borderColor.value != "" {
          borders[i] := borders[i].(color := borderColor.value);
        }
        i := i + 1;
      }
      assert borders[..] == UniformBorders(StringArg(args, "border_color").value, style.value);
    } else {
      assert borders[..] == DefaultStyle.border;
    }
    return Ok(borders[..]);
  }

  /** The alignment, starting from the zero alignment. */
  method ApplyAlignment(args: Arguments) returns (alignment: Alignment)
    ensures alignment == AlignmentOf(args)
  {
    alignment := DefaultStyle.alignment;
    var horizontal := NonEmptyStringArg(args, "horizontal_align");
    if horizontal.Some? {
      alignment := alignment.(horizontal := horizontal.value);
    }
    var vertical := NonEmptyStringArg(args, "vertical_align");
    if vertical.Some? {
      alignment := alignment.(vertical := vertical.value);
    }
    var wrap := BoolArg(args, "wrap_text");
    if wrap.Some? {
      alignment := alignment.(wrapText := wrap.value);
    }
    var rotation := NumberArg(args, "text_rotation");
    if rotation.Some? {
      alignment := alignment.(textRotation := TruncateToInt(rotation.value));
    }
  }

  /**
    The handler's argument checks and style assembly, in the handler's
    order: required arguments, end cell, font, fill, borders, alignment,
    number format, protection.
   */
  method FormatRange(args: Arguments) returns (r: Result<FormatRequest, FormatRangeError>)
    ensures r == FormatRangeOutcome(args)
  {
    var filepath := NonEmptyStringArg(args, "filepath");
    if filepath.None? {
      return Err(MissingArgument("filepath"));
    }
    var sheetName := NonEmptyStringArg(args, "sheet_name");
    if sheetName.None? {
      return Err(MissingArgument("sheet_name"));
    }
    var startCell := NonEmptyStringArg(args, "start_cell");
    if startCell.None? {
      return Err(MissingArgument("start_cell"));
    }
    var endCell := StringArg(args, "end_cell");
    var endCellName := if endCell.Some? then endCell.value else "";
    if endCellName == "" {
      endCellName := startCell.value;
    }

    var font := ApplyFont(args);
    var fill := ApplyFill(args);
    var borders := ApplyBorders(args);
    if borders.Err? {
      return Err(borders.error);
    }
    var alignment := ApplyAlignment(args);
    var numFmt := 0;
    var numberFormat := NonEmptyStringArg(args, "number_format");
    if numberFormat.Some? {
      var code := ParseNumberFormat(numberFormat.value);
      if code.Err? {
        return Err(InvalidNumberFormat(code.error));
      }
      numFmt := code.value;
    }
    var protection: Option<Protection> := None;
    var lock := BoolArg(args, "protection_lock");
    if lock.Some? {
      protection := Some(Protection(lock.value));
    }

    var style := Style(font, fill, borders.value, alignment, numFmt, protection);
    return Ok(FormatRequest(filepath.value, sheetName.value, startCell.value, endCellName, style));
  }
}
