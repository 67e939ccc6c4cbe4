/** The name-to-code tables borderStyles and patterns of main/main.go, as format_range uses them. */
module StyleTables {
  import opened Results

  /** Border style names, matched case-sensitively, and their style codes. */
  const BorderStyles: map<string, int> := map[
    "none" := -1,
    "thin" := 1,
    "medium" := 2,
    "dashed" := 3,
    "dotted" := 4,
    "thick" := 5,
    "double" := 6,
    "hair" := 7,
    "mediumDashed" := 8,
    "dashDot" := 9,
    "mediumDashDot" := 10,
    "dashDotDot" := 11,
    "mediumDashDotDot" := 12,
    "slantDashDot" := 13
  ]

  /** Fill pattern names and their pattern codes. */
  const Patterns: map<string, int> := map[
    "none" := 0,
    "solid" := 1,
    "darkGray" := 2,
    "mediumGray" := 3,
    "lightGray" := 4,
    "gray125" := 5,
    "gray0625" := 6
  ]

  /** The `borderStyles[name]` lookup with its `exists` flag: a border name either resolves or is unknown. */
  function BorderStyleOf(name: string): (r: Option<int>)
    ensures r.Some? <==> name in BorderStyles
    ensures r.Some? ==> r.value == BorderStyles[name]
  {
    if name in BorderStyles then Some(BorderStyles[name]) else None
  }

  /** The `patterns[name]` lookup without the flag: an unknown name reads as the map's zero value. */
  function PatternOf(name: string): (p: int)
    ensures name in Patterns ==> p == Patterns[name]
    ensures name !in Patterns ==> p == 0
    ensures 0 <= p <= 6
  {
    if name in Patterns then Patterns[name] else 0
  }

  /** Border codes lie in -1..13; 0 (no border) is not among them. */
  lemma BorderStyleCodes(name: string)
    requires name in BorderStyles
    ensures -1 <= BorderStyles[name] <= 13 && BorderStyles[name] != 0
  {
  }

  /** Distinct border names give distinct codes. */
  lemma BorderStylesInjective(a: string, b: string)
    requires a in BorderStyles && b in BorderStyles && a != b
    ensures BorderStyles[a] != BorderStyles[b]
  {
  }

  /** Distinct pattern names give distinct codes. */
  lemma PatternsInjective(a: string, b: string)
    requires a in Patterns && b in Patterns && a != b
    ensures Patterns[a] != Patterns[b]
  {
  }

  /** An unknown pattern name is indistinguishable from "none". */
  lemma UnknownPatternIsNone(name: string)
    requires name !in Patterns
    ensures PatternOf(name) == PatternOf("none") == 0
  {
  }

  /** Border names are case-sensitive: the lower-cased spelling of "mediumDashed" is unknown. */
  lemma BorderCaseSensitive()
    ensures BorderStyleOf("mediumDashed") == Some(8)
    ensures BorderStyleOf("mediumdashed") == None
  {
  }
}
