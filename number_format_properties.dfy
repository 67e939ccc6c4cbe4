/** What the two-table lookup of parseNumberFormat does and does not reach. */
module NumberFormatProperties {
  import opened Results
  import opened ExcelFormat
  import opened NumberFormat

  /** Two outcomes agree on success and, when successful, on the code (errors name their own specifier). */
  predicate SameOutcome(r1: Result<int, FormatError>, r2: Result<int, FormatError>) {
    r1.Ok? == r2.Ok? && (r1.Ok? ==> r1.value == r2.value)
  }

  // ---------------------------------------------------------------- case

  /** Lower-casing an upper- or lower-cased string gives the lower-cased string. */
  lemma LowerOfCaseChange(s: string)
    ensures ToLower(ToUpper(s)) == ToLower(s)
    ensures ToLower(ToLower(s)) == ToLower(s)
  {
  }

  /** A string without ASCII upper-case letters is its own lower-casing. */
  lemma LowerOfLower(s: string)
    requires forall i :: 0 <= i < |s| ==> !IsUpper(s[i])
    ensures ToLower(s) == s
  {
  }

  /** Built-in lookup ignores case: strings equal up to ASCII case resolve alike when one names a built-in. */
  lemma BuiltInCaseInsensitive(s: string, t: string)
    requires ToLower(s) == ToLower(t) && ToLower(s) in BuiltInFormats
    ensures ParseNumberFormat(s) == ParseNumberFormat(t) == Ok(BuiltInFormats[ToLower(s)])
  {
  }

  /** A built-in name resolves to its code whatever its case. */
  lemma BuiltInUpperLower(s: string)
    requires ToLower(s) in BuiltInFormats
    ensures ParseNumberFormat(ToUpper(s)) == ParseNumberFormat(s) == Ok(BuiltInFormats[ToLower(s)])
    ensures ParseNumberFormat(ToLower(s)) == ParseNumberFormat(s)
  {
    LowerOfCaseChange(s);
  }

  /** ';' is not a letter, so changing case keeps the number of sections. */
  lemma CaseChangeKeepsCount(s: string)
    ensures Count(ToUpper(s), ';') == Count(s, ';')
    ensures Count(ToLower(s), ';') == Count(s, ';')
  {
    CountSamePositions(s, ToUpper(s), ';');
    CountSamePositions(s, ToLower(s), ';');
  }

  /** The validator does not depend on ASCII case. */
  lemma CaseChangeKeepsValidity(s: string)
    ensures IsValidExcelFormat(ToUpper(s)) == IsValidExcelFormat(s)
    ensures IsValidExcelFormat(ToLower(s)) == IsValidExcelFormat(s)
  {
    CaseChangeKeepsCount(s);
    var u, l := ToUpper(s), ToLower(s);
    forall i | 0 <= i < |s|
      ensures (u[i] != ';' ==> AllowedChar(u[i])) == (s[i] != ';' ==> AllowedChar(s[i]))
      ensures (l[i] != ';' ==> AllowedChar(l[i])) == (s[i] != ';' ==> AllowedChar(s[i]))
    {
    }
  }

  /**
    Outside the case-sensitive custom table the whole resolver ignores case:
    upper-, lower- and mixed-case spellings succeed or fail together, with
    the same code.
   */
  lemma CaseInsensitiveOutsideCustom(f: string)
    requires f !in CommonCustomFormats
    requires ToUpper(f) !in CommonCustomFormats
    requires ToLower(f) !in CommonCustomFormats
    ensures SameOutcome(ParseNumberFormat(ToUpper(f)), ParseNumberFormat(f))
    ensures SameOutcome(ParseNumberFormat(ToLower(f)), ParseNumberFormat(f))
  {
    LowerOfCaseChange(f);
    CaseChangeKeepsValidity(f);
  }

  /** Every custom key has one of these twelve lengths. */
  lemma CustomKeyLengths()
    ensures forall c | c in CommonCustomFormats :: |c| in {6, 8, 9, 10, 11, 12, 15, 21, 26, 27, 32, 48}
  {
  }

  /** The built-in keys as long as some custom key are these seven. */
  lemma BuiltInKeysOfCustomLength()
    ensures forall k | k in BuiltInFormats && |k| in {6, 8, 9, 10, 11, 12, 15, 21, 26, 27, 32, 48} ::
      k in {"#,##0.00", "mm-dd-yy", "d-mmm-yy", "0.00e+00", "h:mm am/pm", "m/d/yy h:mm", "mmm-yy"}
  {
  }

  /** The first three of those seven keys are already in lower case. */
  lemma LowerCaseShortKeys()
    ensures ToLower("#,##0.00") == "#,##0.00" && ToLower("mm-dd-yy") == "mm-dd-yy"
    ensures ToLower("d-mmm-yy") == "d-mmm-yy"
  {
  }

  /** The other four of those seven keys are already in lower case. */
  lemma LowerCaseLongKeys()
    ensures ToLower("0.00e+00") == "0.00e+00" && ToLower("h:mm am/pm") == "h:mm am/pm"
    ensures ToLower("m/d/yy h:mm") == "m/d/yy h:mm" && ToLower("mmm-yy") == "mmm-yy"
  {
  }

  /**
    A built-in key that lower-casing moves out of the table is as long as
    no custom key, so neither it nor any case change of it is a custom key.
   */
  lemma LoweredOutKeyLength(k: string)
    requires k in BuiltInFormats && ToLower(k) !in BuiltInFormats
    ensures forall c | c in CommonCustomFormats :: |c| != |k|
  {
    CustomKeyLengths();
    BuiltInKeysOfCustomLength();
    LowerCaseShortKeys();
    LowerCaseLongKeys();
  }

  /**
    Every name in the built-in table resolves alike in its own, upper and
    lower case. For the two "[Red]" keys all three spellings miss both
    tables and fall through to the validator.
   */
  lemma TableKeysCaseInsensitive(k: string)
    requires k in BuiltInFormats
    ensures SameOutcome(ParseNumberFormat(ToUpper(k)), ParseNumberFormat(k))
    ensures SameOutcome(ParseNumberFormat(ToLower(k)), ParseNumberFormat(k))
  {
    if ToLower(k) in BuiltInFormats {
      BuiltInUpperLower(k);
    } else {
      LoweredOutKeyLength(k);
      assert |ToUpper(k)| == |ToLower(k)| == |k|;
      CaseInsensitiveOutsideCustom(k);
    }
  }

  // Resolution steps, one lemma per branch of parseNumberFormat; the worked
  // examples below go through these so that each string is looked at once.

  /** A specifier whose lower-casing is a built-in name gets that name's code. */
  lemma BuiltInHit(f: string, lower: string)
    requires ToLower(f) == lower && lower in BuiltInFormats
    ensures ParseNumberFormat(f) == Ok(BuiltInFormats[lower])
  {
  }

  /** A specifier missing the built-in table and found exactly in the custom table gets the custom code. */
  lemma CustomHit(f: string, lower: string)
    requires ToLower(f) == lower && lower !in BuiltInFormats && f in CommonCustomFormats
    ensures ParseNumberFormat(f) == Ok(CommonCustomFormats[f])
  {
  }

  /** A specifier in neither table that passes the validator gets the placeholder code. */
  lemma Placeholder(f: string, lower: string)
    requires ToLower(f) == lower && lower !in BuiltInFormats
    requires f !in CommonCustomFormats && IsValidExcelFormat(f)
    ensures ParseNumberFormat(f) == Ok(NextCustomCode)
  {
  }

  /** A specifier in neither table that fails the validator is rejected, naming itself. */
  lemma Rejected(f: string, lower: string)
    requires ToLower(f) == lower && lower !in BuiltInFormats
    requires f !in CommonCustomFormats && !IsValidExcelFormat(f)
    ensures ParseNumberFormat(f) == Err(InvalidFormat(f))
  {
  }

  lemma ExampleGeneral()
    ensures ParseNumberFormat("general") == Ok(0)
  {
    assert ToLower("general") == "general";
    BuiltInHit("general", "general");
  }

  lemma ExampleFixedDecimals()
    ensures ParseNumberFormat("0.00") == Ok(2)
  {
    assert ToLower("0.00") == "0.00";
    BuiltInHit("0.00", "0.00");
  }

  lemma ExampleThousands()
    ensures ParseNumberFormat("#,##0") == Ok(3)
  {
    assert ToLower("#,##0") == "#,##0";
    BuiltInHit("#,##0", "#,##0");
  }

  lemma ExamplePercentage()
    ensures ParseNumberFormat("0%") == Ok(9)
  {
    assert ToLower("0%") == "0%";
    BuiltInHit("0%", "0%");
  }

  lemma ExampleShortDate()
    ensures ParseNumberFormat("mm-dd-yy") == Ok(14)
  {
    assert ToLower("mm-dd-yy") == "mm-dd-yy";
    BuiltInHit("mm-dd-yy", "mm-dd-yy");
  }

  lemma ExampleScientificUpper()
    ensures ParseNumberFormat("0.00E+00") == Ok(11)
  {
    assert ToLower("0.00E+00") == "0.00e+00";
    BuiltInHit("0.00E+00", "0.00e+00");
  }

  lemma ExampleTimeUpper()
    ensures ParseNumberFormat("H:MM AM/PM") == Ok(18)
  {
    assert ToLower("H:MM AM/PM") == "h:mm am/pm";
    BuiltInHit("H:MM AM/PM", "h:mm am/pm");
  }

  // ---------------------------------------------------------------- unreachable built-ins

  /** The only built-in keys whose codes are 8 and 40. */
  lemma RedKeys(k: string)
    requires k in BuiltInFormats
    ensures BuiltInFormats[k] == 8 ==> k == "$#,##0_);[Red]($#,##0)"
    ensures BuiltInFormats[k] == 40 ==> k == "$#,##0.00_);[Red]($#,##0.00)"
  {
  }

  /**
    The built-in entries with codes 8 and 40 have an upper-case 'R' in their
    key; a lower-cased input never equals them, so no specifier resolves to
    8 or 40.
   */
  lemma RedCodesUnreachable(f: string)
    ensures ParseNumberFormat(f) != Ok(8)
    ensures ParseNumberFormat(f) != Ok(40)
  {
    var lower := ToLower(f);
    if lower in BuiltInFormats {
      BuiltInHit(f, lower);
      RedKeys(lower);
      var red8, red40 := "$#,##0_);[Red]($#,##0)", "$#,##0.00_);[Red]($#,##0.00)";
      assert IsUpper(red8[10]) && IsUpper(red40[13]);
    } else if f in CommonCustomFormats {
      CustomHit(f, lower);
      CustomCodes();
    } else {
      FallThrough(f);
    }
  }

  /** No built-in key has an 'r' at position 10, where the "[Red]" keys have their 'R'. */
  lemma NoLoweredRedKey(k: string)
    requires k in BuiltInFormats && |k| > 10
    ensures k[10] != 'r'
  {
  }

  // The red-parentheses currency name, "$#,##0_);[Red]($#,##0)", written as
  // its two sections joined by ';'.

  lemma RedCurrencyValid()
    ensures IsValidExcelFormat("$#,##0_)" + ";" + "[Red]($#,##0)")
  {
    TwoSectionsValid("$#,##0_)", "[Red]($#,##0)");
  }

  lemma RedCurrencyNotCustom()
    ensures "$#,##0_)" + ";" + "[Red]($#,##0)" !in CommonCustomFormats
  {
  }

  lemma RedCurrencyLoweredNotBuiltIn()
    ensures ToLower("$#,##0_)" + ";" + "[Red]($#,##0)") !in BuiltInFormats
  {
    var f := "$#,##0_)" + ";" + "[Red]($#,##0)";
    assert f[10] == "[Red]($#,##0)"[1] == 'R';
    assert ToLower(f)[10] == LowerChar('R') == 'r';
    if ToLower(f) in BuiltInFormats {
      NoLoweredRedKey(ToLower(f));
    }
  }

  /** The red-parentheses currency name falls through to the placeholder code instead of 8. */
  lemma ExampleRedCurrency()
    ensures ParseNumberFormat("$#,##0_)" + ";" + "[Red]($#,##0)") == Ok(NextCustomCode)
  {
    RedCurrencyValid();
    RedCurrencyNotCustom();
    RedCurrencyLoweredNotBuiltIn();
    var f := "$#,##0_)" + ";" + "[Red]($#,##0)";
    Placeholder(f, ToLower(f));
  }

  // ---------------------------------------------------------------- table order

  /** "mmm-yy" is in both tables and the built-in one is asked first, so no specifier resolves to 173. */
  lemma CustomMmmYyShadowed(f: string)
    ensures ParseNumberFormat(f) != Ok(173)
  {
    if ToLower(f) !in BuiltInFormats && f in CommonCustomFormats && CommonCustomFormats[f] == 173 {
      assert f == "mmm-yy";
      LowerOfLower(f);
      assert false;
    }
  }

  lemma ExampleMmmYy()
    ensures ParseNumberFormat("mmm-yy") == Ok(17)
  {
    assert ToLower("mmm-yy") == "mmm-yy";
    BuiltInHit("mmm-yy", "mmm-yy");
  }

  lemma IsoDateNotBuiltIn()
    ensures "yyyy-mm-dd" !in BuiltInFormats
  {
  }

  /** The ISO date is a custom format, matched exactly. */
  lemma ExampleIsoDate()
    ensures ParseNumberFormat("yyyy-mm-dd") == Ok(168)
  {
    assert ToLower("yyyy-mm-dd") == "yyyy-mm-dd";
    IsoDateNotBuiltIn();
    CustomHit("yyyy-mm-dd", "yyyy-mm-dd");
  }

  lemma UpperIsoDateNotCustom()
    ensures "YYYY-MM-DD" !in CommonCustomFormats
  {
  }

  lemma UpperIsoDateChars()
    ensures ';' !in "YYYY-MM-DD" && ValidSection("YYYY-MM-DD")
  {
  }

  lemma UpperIsoDateValid()
    ensures IsValidExcelFormat("YYYY-MM-DD")
  {
    UpperIsoDateChars();
    OneSectionValid("YYYY-MM-DD");
  }

  /** Custom matching is exact-case: the upper-case ISO date misses both tables and gets the placeholder. */
  lemma ExampleUpperIsoDate()
    ensures ParseNumberFormat("YYYY-MM-DD") == Ok(NextCustomCode)
  {
    assert ToLower("YYYY-MM-DD") == "yyyy-mm-dd";
    IsoDateNotBuiltIn();
    UpperIsoDateNotCustom();
    UpperIsoDateValid();
    Placeholder("YYYY-MM-DD", "yyyy-mm-dd");
  }

  // ---------------------------------------------------------------- fall-through

  /**
    A specifier in neither table resolves to the placeholder code when valid
    and is rejected otherwise, whatever its content.
   */
  lemma FallThrough(f: string)
    requires ToLower(f) !in BuiltInFormats && f !in CommonCustomFormats
    ensures IsValidExcelFormat(f) ==> ParseNumberFormat(f) == Ok(NextCustomCode)
    ensures !IsValidExcelFormat(f) ==> ParseNumberFormat(f) == Err(InvalidFormat(f))
  {
  }

  /** Distinct unrecognised valid formats collide on the same code. */
  lemma PlaceholderCollision(f: string, g: string)
    requires ToLower(f) !in BuiltInFormats && f !in CommonCustomFormats && IsValidExcelFormat(f)
    requires ToLower(g) !in BuiltInFormats && g !in CommonCustomFormats && IsValidExcelFormat(g)
    ensures ParseNumberFormat(f) == ParseNumberFormat(g) == Ok(181)
  {
  }

  lemma PlainCustomNotInTables()
    ensures "0.0000" !in BuiltInFormats && "0.0000" !in CommonCustomFormats
  {
  }

  lemma PlainCustomChars()
    ensures ';' !in "0.0000" && ValidSection("0.0000")
  {
  }

  lemma ExamplePlainCustom()
    ensures ParseNumberFormat("0.0000") == Ok(NextCustomCode)
  {
    assert ToLower("0.0000") == "0.0000";
    PlainCustomNotInTables();
    PlainCustomChars();
    OneSectionValid("0.0000");
    Placeholder("0.0000", "0.0000");
  }

  lemma FiveSectionsNotInTables()
    ensures "a;b;c;d;e" !in BuiltInFormats && "a;b;c;d;e" !in CommonCustomFormats
  {
  }

  /** Five sections are too many. */
  lemma ExampleFiveSections()
    ensures ParseNumberFormat("a;b;c;d;e") == Err(InvalidFormat("a;b;c;d;e"))
  {
    assert ToLower("a;b;c;d;e") == "a;b;c;d;e";
    FiveSectionsNotInTables();
    FiveSectionsRejected();
    Rejected("a;b;c;d;e", "a;b;c;d;e");
  }

  lemma EuroFacts()
    ensures ToLower("0.00€") == "0.00€"
    ensures "0.00€" !in BuiltInFormats && "0.00€" !in CommonCustomFormats
  {
  }

  /** '€' is outside the allow-set. */
  lemma ExampleEuro()
    ensures ParseNumberFormat("0.00€") == Err(InvalidFormat("0.00€"))
  {
    EuroFacts();
    DisallowedCharInvalid("0.00€", 4);
    Rejected("0.00€", "0.00€");
  }

  lemma PercentFacts()
    ensures ToLower("0.000%") == "0.000%"
    ensures "0.000%" !in BuiltInFormats && "0.000%" !in CommonCustomFormats
  {
  }

  /** '%' is outside the allow-set: only the built-in percentage names are accepted. */
  lemma ExamplePercent()
    ensures ParseNumberFormat("0.000%") == Err(InvalidFormat("0.000%"))
  {
    PercentFacts();
    DisallowedCharInvalid("0.000%", 5);
    Rejected("0.000%", "0.000%");
  }

  // ---------------------------------------------------------------- codes

  /** Built-in codes lie in the reserved range 0..163, custom codes from 164 up to the placeholder. */
  lemma BuiltInCodes()
    ensures forall k | k in BuiltInFormats :: 0 <= BuiltInFormats[k] < 164
  {
  }

  lemma CustomCodes()
    ensures forall k | k in CommonCustomFormats :: 164 <= CommonCustomFormats[k] < NextCustomCode
  {
  }

  /** A resolved code below 164 always comes from the built-in table, one of 164 or more never does. */
  lemma ResultCodes(f: string)
    requires ParseNumberFormat(f).Ok?
    ensures 0 <= ParseNumberFormat(f).value <= NextCustomCode
    ensures ParseNumberFormat(f).value < 164 <==> ToLower(f) in BuiltInFormats
  {
    BuiltInCodes();
    CustomCodes();
  }

  // ---------------------------------------------------------------- '@'

  /** No built-in key holds '@'. */
  lemma NoAtInBuiltInKeys()
    ensures forall k | k in BuiltInFormats :: '@' !in k
  {
  }

  /** The custom number formats (codes 164..167) hold no '@'. */
  lemma NoAtInCustomNumberKeys()
    ensures forall k | k in CommonCustomFormats && CommonCustomFormats[k] <= 167 :: '@' !in k
  {
  }

  /** The custom date formats (codes 168..173) hold no '@'. */
  lemma NoAtInCustomDateKeys()
    ensures forall k | k in CommonCustomFormats && 168 <= CommonCustomFormats[k] <= 173 :: '@' !in k
  {
  }

  /** The custom time and currency formats (codes 174..179) hold no '@'. */
  lemma NoAtInCustomTimeAndCurrencyKeys()
    ensures forall k | k in CommonCustomFormats && 174 <= CommonCustomFormats[k] <= 179 :: '@' !in k
  {
  }

  /** The accounting pattern is the custom key with code 180. */
  lemma AccountingIsCode180()
    ensures forall k | k in CommonCustomFormats && CommonCustomFormats[k] == 180 :: k == AccountingFormat
  {
  }

  /** No custom key other than the accounting pattern holds '@'. */
  lemma NoAtInCustomKeys()
    ensures forall k | k in CommonCustomFormats && '@' in k :: k == AccountingFormat
  {
    CustomCodes();
    NoAtInCustomNumberKeys();
    NoAtInCustomDateKeys();
    NoAtInCustomTimeAndCurrencyKeys();
    AccountingIsCode180();
  }

  /** '@' is outside the allow-set, so any specifier holding it other than the accounting pattern is rejected. */
  lemma AtSignRejected(f: string, i: nat)
    requires i < |f| && f[i] == '@' && f != AccountingFormat
    ensures ParseNumberFormat(f) == Err(InvalidFormat(f))
  {
    NoAtInBuiltInKeys();
    NoAtInCustomKeys();
    assert ToLower(f)[i] == '@';
    DisallowedCharInvalid(f, i);
  }

  // ---------------------------------------------------------------- '%'

  /** The built-in keys holding '%' are the two percentage names. */
  lemma PercentBuiltInKeys()
    ensures forall k | k in BuiltInFormats && '%' in k :: k == "0%" || k == "0.00%"
  {
  }

  /** The custom number formats (codes 164..167) hold no '%'. */
  lemma NoPercentInCustomNumberKeys()
    ensures forall k | k in CommonCustomFormats && CommonCustomFormats[k] <= 167 :: '%' !in k
  {
  }

  /** The custom date formats (codes 168..173) hold no '%'. */
  lemma NoPercentInCustomDateKeys()
    ensures forall k | k in CommonCustomFormats && 168 <= CommonCustomFormats[k] <= 173 :: '%' !in k
  {
  }

  /** The custom time and currency formats (codes 174..179) hold no '%'. */
  lemma NoPercentInCustomTimeAndCurrencyKeys()
    ensures forall k | k in CommonCustomFormats && 174 <= CommonCustomFormats[k] <= 179 :: '%' !in k
  {
  }

  /** The accounting pattern holds no '%'. */
  lemma NoPercentInAccounting()
    ensures '%' !in AccountingFormat
  {
  }

  /** No custom key holds '%'. */
  lemma NoPercentInCustomKeys()
    ensures forall k | k in CommonCustomFormats :: '%' !in k
  {
    CustomCodes();
    NoPercentInCustomNumberKeys();
    NoPercentInCustomDateKeys();
    NoPercentInCustomTimeAndCurrencyKeys();
    AccountingIsCode180();
    NoPercentInAccounting();
  }

  /**
    '%' is outside the allow-set and no custom key holds it, so every
    specifier holding '%' is rejected unless it is, up to case, one of the
    two built-in percentage names.
   */
  lemma PercentSignRejected(f: string, i: nat)
    requires i < |f| && f[i] == '%' && ToLower(f) != "0%" && ToLower(f) != "0.00%"
    ensures ParseNumberFormat(f) == Err(InvalidFormat(f))
  {
    PercentBuiltInKeys();
    NoPercentInCustomKeys();
    assert ToLower(f)[i] == '%';
    DisallowedCharInvalid(f, i);
    Rejected(f, ToLower(f));
  }

  // ---------------------------------------------------------------- Unicode lowering

  /**
    No built-in key holds 'k' or 'i', the only ASCII letters that Go's
    Unicode lowering produces from non-ASCII letters (the Kelvin sign and
    the dotted capital I); so lowering only ASCII letters finds the same
    built-in keys.
   */
  lemma NoKOrIInBuiltInKeys()
    ensures forall k | k in BuiltInFormats :: 'k' !in k && 'i' !in k
  {
    BuiltInCodes();
    NoKOrIInBuiltInNumberKeys();
    NoKOrIInBuiltInDateTimeKeys();
  }

  /** The built-in number and currency keys (codes 0..13 and 39, 40) hold no 'k' or 'i'. */
  lemma NoKOrIInBuiltInNumberKeys()
    ensures forall k | k in BuiltInFormats && (BuiltInFormats[k] <= 13 || BuiltInFormats[k] >= 39) ::
      'k' !in k && 'i' !in k
  {
  }

  /** The built-in date and time keys (codes 14..22) hold no 'k' or 'i'. */
  lemma NoKOrIInBuiltInDateTimeKeys()
    ensures forall k | k in BuiltInFormats && 14 <= BuiltInFormats[k] <= 22 :: 'k' !in k && 'i' !in k
  {
  }
}
