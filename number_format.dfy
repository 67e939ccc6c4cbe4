/**
  parseNumberFormat of main/main.go: a format specifier is looked up,
  lower-cased, in the built-in table; then, exactly as given, in the table
  of common custom formats; anything else that passes the validator gets
  the fixed placeholder code 181, and the rest is rejected.
 */
module NumberFormat {
  import opened Results
  import opened ExcelFormat

  datatype FormatError = InvalidFormat(specifier: string)

  /** Built-in format names and their codes, keyed as the source writes them. */
  const BuiltInFormats: map<string, int> := map[
    "general" := 0,
    "0" := 1,
    "0.00" := 2,
    "#,##0" := 3,
    "#,##0.00" := 4,
    "0%" := 9,
    "0.00%" := 10,
    "0.00e+00" := 11,
    "# ?/?" := 12,
    "# ??/??" := 13,
    "mm-dd-yy" := 14,
    "d-mmm-yy" := 15,
    "d-mmm" := 16,
    "mmm-yy" := 17,
    "h:mm am/pm" := 18,
    "h:mm:ss am/pm" := 19,
    "h:mm" := 20,
    "h:mm:ss" := 21,
    "m/d/yy h:mm" := 22,
    "$#,##0_);($#,##0)" := 7,
    "$#,##0_);[Red]($#,##0)" := 8,
    "$#,##0.00_);($#,##0.00)" := 39,
    "$#,##0.00_);[Red]($#,##0.00)" := 40
  ]

  /** The accounting pattern, the one custom key holding '@', written as its four sections joined by ';'. */
  const AccountingFormat: string :=
    "_(\"$\"* #,##0_)" + ";" + "_(\"$\"* (#,##0)" + ";" + "_(\"$\"* \"-\"_)" + ";" + "_(@_)"

  /** Common custom formats, matched case-sensitively. */
  const CommonCustomFormats: map<string, int> := map[
    "#,##0_);(#,##0)" := 164,
    "#,##0.00_);(#,##0.00)" := 165,
    "[Blue]#,##0_);[Red](#,##0)" := 166,
    "[Blue]#,##0.00_);[Red](#,##0.00)" := 167,
    "yyyy-mm-dd" := 168,
    "dd/mm/yyyy" := 169,
    "mm/dd/yyyy" := 170,
    "dd-mmm-yyyy" := 171,
    "dd-mmm-yy" := 172,
    "mmm-yy" := 173,
    "[h]:mm" := 174,
    "[h]:mm:ss" := 175,
    "hh:mm:ss" := 176,
    "hh:mm:ss.000" := 177,
    "\"$\"#,##0_);\"$\"(#,##0)" := 178,
    "\"$\"#,##0.00_);\"$\"(#,##0.00)" := 179,
    AccountingFormat := 180
  ]

  /** The code every other valid custom format receives. */
  const NextCustomCode: int := 181

  predicate IsUpper(c: char) { 'A' <= c <= 'Z' }

  function LowerChar(c: char): (d: char)
    ensures !IsUpper(d)
    ensures IsUpper(c) ==> d as int == c as int + 32
    ensures !IsUpper(c) ==> d == c
  {
    if IsUpper(c) then (c as int + 32) as char else c
  }

  function UpperChar(c: char): (d: char)
    ensures 'a' <= c <= 'z' ==> d as int == c as int - 32 && IsUpper(d)
    ensures !('a' <= c <= 'z') ==> d == c
  {
    if 'a' <= c <= 'z' then (c as int - 32) as char else c
  }

  /** ASCII lower-casing (strings.ToLower restricted to ASCII). */
  function ToLower(s: string): (r: string)
    ensures |r| == |s|
    ensures forall i :: 0 <= i < |s| ==> r[i] == LowerChar(s[i])
  {
    seq(|s|, i requires 0 <= i < |s| => LowerChar(s[i]))
  }

  /** ASCII upper-casing, for stating case-insensitivity. */
  function ToUpper(s: string): (r: string)
    ensures |r| == |s|
    ensures forall i :: 0 <= i < |s| ==> r[i] == UpperChar(s[i])
  {
    seq(|s|, i requires 0 <= i < |s| => UpperChar(s[i]))
  }

  /** parseNumberFormat. */
  function ParseNumberFormat(f: string): (r: Result<int, FormatError>)
    ensures r.Ok? ==> r.value in BuiltInFormats.Values || r.value in CommonCustomFormats.Values || r.value == NextCustomCode
    ensures r.Err? <==> (ToLower(f) !in BuiltInFormats && f !in CommonCustomFormats && !IsValidExcelFormat(f))
    ensures r.Err? ==> r.error == InvalidFormat(f)
  {
    var lower := ToLower(f);
    if lower in BuiltInFormats then Ok(BuiltInFormats[lower])
    else if f in CommonCustomFormats then Ok(CommonCustomFormats[f])
    else if !IsValidExcelFormat(f) then Err(InvalidFormat(f))
    else Ok(NextCustomCode)
  }
}
