/**
  The validator for custom number-format strings (isValidExcelFormat in
  main/main.go). A format is split on ';' into at most four sections, and
  every character of every section must come from a fixed allow-set.
 */
module ExcelFormat {

  /** strings.Split(s, sep) of Go: the pieces between the separators, always at least one. */
  function Split(s: string, sep: char): (r: seq<string>)
    ensures |r| >= 1
    decreases |s|
  {
    if s == [] then [[]]
    else
      var rest := Split(s[1..], sep);
      if s[0] == sep then [[]] + rest
      else [[s[0]] + rest[0]] + rest[1..]
  }

  /** strings.Join: the inverse of Split. */
  function Join(parts: seq<string>, sep: char): string
    requires |parts| >= 1
    decreases |parts|
  {
    if |parts| == 1 then parts[0] else parts[0] + [sep] + Join(parts[1..], sep)
  }

  /** Number of occurrences of c in s. */
  function Count(s: string, c: char): nat
  {
    multiset(s)[c]
  }

  /** Strings that hold c at the same positions hold it equally often. */
  lemma {:induction false} CountSamePositions(s: string, t: string, c: char)
    requires |s| == |t|
    requires forall i :: 0 <= i < |s| ==> (s[i] == c <==> t[i] == c)
    ensures Count(s, c) == Count(t, c)
    decreases |s|
  {
    if s != [] {
      CountSamePositions(s[1..], t[1..], c);
      assert s == [s[0]] + s[1..];
      assert t == [t[0]] + t[1..];
    }
  }

  /** Splitting yields one more section than there are separators. */
  lemma {:induction false} SplitLength(s: string, sep: char)
    ensures |Split(s, sep)| == Count(s, sep) + 1
    decreases |s|
  {
    if s != [] {
      SplitLength(s[1..], sep);
      assert s == [s[0]] + s[1..];
    }
  }

  /** Prepending a character to the first section prepends it to the joined string. */
  lemma JoinPrepend(x: char, parts: seq<string>, sep: char)
    requires |parts| >= 1
    ensures Join([[x] + parts[0]] + parts[1..], sep) == [x] + Join(parts, sep)
  {
  }

  /** Joining the sections with the separator gives back the string. */
  lemma {:induction false} JoinSplit(s: string, sep: char)
    ensures Join(Split(s, sep), sep) == s
    decreases |s|
  {
    if s != [] {
      var rest := Split(s[1..], sep);
      JoinSplit(s[1..], sep);
      if s[0] == sep {
        assert Split(s, sep)[1..] == rest;
        assert Join(Split(s, sep), sep) == [] + [sep] + Join(rest, sep);
      } else {
        JoinPrepend(s[0], rest, sep);
      }
      assert s == [s[0]] + s[1..];
    }
  }

  /** c occurs in one of the sections. */
  ghost predicate InSomeSection(parts: seq<string>, c: char) {
    exists k, j :: 0 <= k < |parts| && 0 <= j < |parts[k]| && parts[k][j] == c
  }

  /** A character in a section of the tail's split is in a section of the whole split. */
  lemma SectionOfTail(s: string, sep: char, c: char)
    requires s != [] && InSomeSection(Split(s[1..], sep), c)
    ensures InSomeSection(Split(s, sep), c)
  {
    var parts, rest := Split(s, sep), Split(s[1..], sep);
    var k, j :| 0 <= k < |rest| && 0 <= j < |rest[k]| && rest[k][j] == c;
    if s[0] == sep {
      assert parts[k + 1][j] == c;
    } else if k == 0 {
      assert parts[0][j + 1] == c;
    } else {
      assert parts[k][j] == c;
    }
  }

  /** A character in a section of the whole split is the first character or in the tail's split. */
  lemma SectionOfWhole(s: string, sep: char, c: char)
    requires s != [] && InSomeSection(Split(s, sep), c)
    ensures (c == s[0] && c != sep) || InSomeSection(Split(s[1..], sep), c)
  {
  }

  /** A character occurs in some section exactly when it occurs in s and is not the separator. */
  lemma {:induction false} SplitChars(s: string, sep: char, c: char)
    ensures InSomeSection(Split(s, sep), c) <==> (c != sep && c in s)
    decreases |s|
  {
    if s != [] {
      SplitChars(s[1..], sep, c);
      assert c in s <==> c == s[0] || c in s[1..];
      if InSomeSection(Split(s[1..], sep), c) {
        SectionOfTail(s, sep, c);
      }
      if InSomeSection(Split(s, sep), c) {
        SectionOfWhole(s, sep, c);
      }
      if c == s[0] && c != sep {
        assert Split(s, sep)[0][0] == c;
      }
    }
  }

  /**
    The allow-set of the validator: ASCII digits and letters and the format
    punctuation . , # ? / \ * _ ( ) [ ] " $ - + space :. (The source also
    lists y m d h s e separately; they are letters already.)
   */
  predicate AllowedChar(c: char) {
    || ('0' <= c <= '9')
    || ('a' <= c <= 'z')
    || ('A' <= c <= 'Z')
    || c == '.' || c == ',' || c == '#' || c == '?' || c == '/' || c == '\\'
    || c == '*' || c == '_' || c == '(' || c == ')' || c == '[' || c == ']'
    || c == '"' || c == '$' || c == '-' || c == '+' || c == ' ' || c == ':'
  }

  /** A section passes when each of its characters is allowed. */
  predicate ValidSection(section: string) {
    forall j :: 0 <= j < |section| ==> AllowedChar(section[j])
  }

  /** The check as the source phrases it: non-empty, at most four ';'-sections, each made of allowed characters. */
  ghost predicate SectionsValid(f: string) {
    var sections := Split(f, ';');
    && |f| != 0
    && |sections| <= 4
    && forall k :: 0 <= k < |sections| ==> ValidSection(sections[k])
  }

  /**
    isValidExcelFormat stated on the flat string: non-empty, at most three
    ';', and every character other than ';' allowed.
   */
  predicate IsValidExcelFormat(f: string) {
    && |f| != 0
    && Count(f, ';') <= 3
    && forall i :: 0 <= i < |f| && f[i] != ';' ==> AllowedChar(f[i])
  }

  /** The flat statement and the section-wise one agree on every string. */
  lemma ValidIff(f: string)
    ensures IsValidExcelFormat(f) <==> SectionsValid(f)
  {
    SplitLength(f, ';');
    var sections := Split(f, ';');
    if forall k :: 0 <= k < |sections| ==> ValidSection(sections[k]) {
      forall i | 0 <= i < |f| && f[i] != ';' ensures AllowedChar(f[i]) {
        SplitChars(f, ';', f[i]);
        assert InSomeSection(sections, f[i]);
        var k, j :| 0 <= k < |sections| && 0 <= j < |sections[k]| && sections[k][j] == f[i];
        assert ValidSection(sections[k]);
      }
    }
    if forall i :: 0 <= i < |f| && f[i] != ';' ==> AllowedChar(f[i]) {
      forall k | 0 <= k < |sections| ensures ValidSection(sections[k]) {
        forall j | 0 <= j < |sections[k]| ensures AllowedChar(sections[k][j]) {
          var c := sections[k][j];
          SplitChars(f, ';', c);
          assert InSomeSection(sections, c);
          var i :| 0 <= i < |f| && f[i] == c;
        }
      }
    }
  }

  /** isValidExcelFormat as the source runs it: early returns inside a loop over sections and characters. */
  method CheckExcelFormat(f: string) returns (ok: bool)
    ensures ok == IsValidExcelFormat(f)
  {
    ValidIff(f);
    if |f| == 0 {
      return false;
    }
    var sections := Split(f, ';');
    if |sections| > 4 {
      return false;
    }
    var k := 0;
    while k < |sections|
      invariant 0 <= k <= |sections|
      invariant forall k' :: 0 <= k' < k ==> ValidSection(sections[k'])
    {
      var section := sections[k];
      var j := 0;
      while j < |section|
        invariant 0 <= j <= |section|
        invariant forall j' :: 0 <= j' < j ==> AllowedChar(section[j'])
      {
        if !AllowedChar(section[j]) {
          return false;
        }
        j := j + 1;
      }
      k := k + 1;
    }
    return true;
  }

  lemma EmptyIsInvalid()
    ensures !IsValidExcelFormat("")
  {
  }

  /** More than four sections is rejected, whatever the characters. */
  lemma {:induction false} TooManySectionsInvalid(f: string)
    requires |Split(f, ';')| > 4
    ensures !IsValidExcelFormat(f)
  {
    SplitLength(f, ';');
  }

  lemma FiveSectionsRejected()
    ensures !IsValidExcelFormat("a;b;c;d;e")
  {
  }

  /** Empty sections are accepted. */
  lemma EmptySectionsAccepted()
    ensures IsValidExcelFormat(";;;")
  {
  }

  /** A character outside the allow-set, other than ';', anywhere in f makes it invalid. */
  lemma DisallowedCharInvalid(f: string, i: nat)
    requires i < |f| && f[i] != ';' && !AllowedChar(f[i])
    ensures !IsValidExcelFormat(f)
  {
  }

  /** One ';'-free, non-empty section of allowed characters is a valid format. */
  lemma OneSectionValid(a: string)
    requires a != [] && ';' !in a && ValidSection(a)
    ensures IsValidExcelFormat(a)
  {
  }

  /** Two ';'-free sections of allowed characters, either possibly empty, joined by ';' form a valid format. */
  lemma TwoSectionsValid(a: string, b: string)
    requires ';' !in a && ';' !in b
    requires ValidSection(a) && ValidSection(b)
    ensures IsValidExcelFormat(a + ";" + b)
  {
  }
}
