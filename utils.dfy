/** Year-range parsing and validation, and the output file name
    (internal/utils/utils.go). The clock read by `validateYearRange` is the
    `currentYear` parameter. */
module Utils {
  import opened Errors
  import opened Strs

  /** The first year a contribution calendar can start. */
  const GithubLaunchYear: int := 2008

  /** `fmt.Sprintf(outputFileFormat, user, years)`. */
  function OutputFileFormat(user: string, years: string): string
  {
    user + "-" + years + "-github-skyline.stl"
  }

  /** Go's `ParseYearRange` returns three values; the years are meaningful
      only when `err` is None. */
  datatype YearRange = YearRange(startYear: int, endYear: int, err: Option<Error>)

  /** The message of the out-of-bounds error. */
  function BoundsMessage(currentYear: int): string
  {
    "years must be between " + FormatInt(GithubLaunchYear, 0) + " and " + FormatInt(currentYear, 0)
  }

  /** `validateYearRange`: the range must lie within the launch year and the
      current year, the bounds check taking precedence over the order check. */
  function ValidateYearRange(startYear: int, endYear: int, currentYear: int): (r: Option<Error>)
    ensures r.None? <==> GithubLaunchYear <= startYear <= endYear <= currentYear
    ensures (startYear < GithubLaunchYear || endYear > currentYear)
            ==> r == Some(Message(BoundsMessage(currentYear)))
    ensures GithubLaunchYear <= startYear && endYear <= currentYear && startYear > endYear
            ==> r == Some(Message("start year cannot be after end year"))
  {
    if startYear < GithubLaunchYear || endYear > currentYear then
      Some(Message(BoundsMessage(currentYear)))
    else if startYear > endYear then
      Some(Message("start year cannot be after end year"))
    else
      None
  }

  /** `ParseYearRange`: "YYYY" or "YYYY-YYYY". */
  function ParseYearRange(yearRange: string, currentYear: int): (r: YearRange)
    ensures r.err.None? ==> GithubLaunchYear <= r.startYear <= r.endYear <= currentYear
  {
    if '-' in yearRange then
      var parts := Split(yearRange, '-');
      if |parts| != 2 then YearRange(0, 0, Some(Message("invalid year range format")))
      else match Atoi(parts[0])
        case Err(e) => YearRange(0, 0, Some(e))
        case Ok(startYear) =>
          match Atoi(parts[1])
          case Err(e) => YearRange(0, 0, Some(e))
          case Ok(endYear) => YearRange(startYear, endYear, ValidateYearRange(startYear, endYear, currentYear))
    else
      match Atoi(yearRange)
      case Err(e) => YearRange(0, 0, Some(e))
      case Ok(year) => YearRange(year, year, ValidateYearRange(year, year, currentYear))
  }

  /** Without a '-', the input is one year and the range is that year alone;
      a non-number is reported with `Atoi`'s error. */
  lemma ParseSingleYear(yearRange: string, currentYear: int)
    requires '-' !in yearRange
    ensures Atoi(yearRange).Ok? ==>
      var y := Atoi(yearRange).value;
      ParseYearRange(yearRange, currentYear) == YearRange(y, y, ValidateYearRange(y, y, currentYear))
    ensures Atoi(yearRange).Err? ==>
      ParseYearRange(yearRange, currentYear) == YearRange(0, 0, Some(Atoi(yearRange).error))
  {
  }

  /** An input with a '-' is rejected with "invalid year range format"
      exactly when it does not have exactly one '-'. */
  lemma ParseFormatError(yearRange: string, currentYear: int)
    requires '-' in yearRange
    ensures ParseYearRange(yearRange, currentYear).err == Some(Message("invalid year range format"))
            <==> Count(yearRange, '-') != 1
  {
    var parts := Split(yearRange, '-');
    if |parts| == 2 {
      var r := ParseYearRange(yearRange, currentYear);
      assert r.err.Some? ==> r.err.value.NumError? || r.err.value.text != "invalid year range format";
    }
  }

  /** With exactly one '-', each half goes through `Atoi`, the start year
      first; the first error is returned with years 0, 0, and otherwise the
      two years come back with the validation verdict. */
  lemma ParseOneDash(yearRange: string, currentYear: int)
    requires Count(yearRange, '-') == 1
    ensures var parts := Split(yearRange, '-');
      var a, b := Atoi(parts[0]), Atoi(parts[1]);
      ParseYearRange(yearRange, currentYear)
        == if a.Err? then YearRange(0, 0, Some(a.error))
           else if b.Err? then YearRange(0, 0, Some(b.error))
           else YearRange(a.value, b.value, ValidateYearRange(a.value, b.value, currentYear))
  {
    CountPositive(yearRange, '-');
  }

  /** A range written as two decimal years around one '-' parses back to
      those years, validated. */
  lemma {:induction false} ParseRangeRoundTrip(startYear: nat, endYear: nat, currentYear: int)
    requires startYear <= MaxInt64 && endYear <= MaxInt64
    ensures ParseYearRange(FormatInt(startYear, 0) + "-" + FormatInt(endYear, 0), currentYear)
            == YearRange(startYear, endYear, ValidateYearRange(startYear, endYear, currentYear))
  {
    var a, b := FormatInt(startYear, 0), FormatInt(endYear, 0);
    FormatNonNegative(startYear, 0);
    FormatNonNegative(endYear, 0);
    SplitAround(a, '-', b);
    SplitNoSep(b, '-');
    assert (a + "-" + b)[|a|] == '-';
    AtoiFormatInt(startYear, 0);
    AtoiFormatInt(endYear, 0);
  }

  /** A single decimal year parses back to the one-year range. */
  lemma ParseSingleRoundTrip(year: nat, currentYear: int)
    requires year <= MaxInt64
    ensures ParseYearRange(FormatInt(year, 0), currentYear)
            == YearRange(year, year, ValidateYearRange(year, year, currentYear))
  {
    FormatNonNegative(year, 0);
    AtoiFormatInt(year, 0);
  }

  /** Go's `/`: the quotient rounded toward zero. */
  function GoQuo(a: int, b: int): int
    requires b > 0
  {
    if a >= 0 then a / b else -((-a) / b)
  }

  /** Go's `%` truncates toward zero: the remainder completes Go's quotient
      (`a == (a / b) * b + a % b`) and takes the sign of `a`. */
  function GoRem(a: int, b: int): (r: int)
    requires b > 0
    ensures -b < r < b
    ensures a == GoQuo(a, b) * b + r
    ensures a >= 0 ==> r == a % b
    ensures a >= 0 ==> r >= 0
    ensures a <= 0 ==> r <= 0
  {
    if a >= 0 then a % b else -((-a) % b)
  }

  /** `FormatYearRange`: "YYYY" for one year, which reads back as that
      year; for a range of non-negative years, the start year padded to at
      least four digits, a '-', then the last two digits of the end year,
      so that splitting at the '-' and reading both halves gives back the
      start year and `endYear % 100`. */
  function FormatYearRange(startYear: int, endYear: int): (r: string)
    ensures startYear == endYear && MinInt64 <= startYear <= MaxInt64 ==>
      Atoi(r) == Ok(startYear) && ('-' in r <==> startYear < 0)
    ensures startYear == endYear && startYear >= 0 ==> PlainDecimal(r)
    ensures startYear == endYear && startYear < 0 ==> |r| >= 2 && r[0] == '-' && PlainDecimal(r[1..])
    ensures startYear != endYear && 0 <= startYear <= MaxInt64 && 0 <= endYear ==>
      YearPiecesSplit(r, startYear, endYear % 100)
  {
    if startYear == endYear then
      var r := FormatInt(startYear, 0);
      assert MinInt64 <= startYear <= MaxInt64 ==> Atoi(r) == Ok(startYear) && ('-' in r <==> startYear < 0) by {
        if MinInt64 <= startYear <= MaxInt64 {
          AtoiFormatInt(startYear, 0);
          if startYear >= 0 { FormatNonNegative(startYear, 0); }
        }
      }
      FormatPlain(startYear);
      r
    else
      var r := FormatInt(startYear, 4) + "-" + FormatInt(GoRem(endYear, 100), 2);
      assert 0 <= startYear <= MaxInt64 && 0 <= endYear ==> YearPiecesSplit(r, startYear, endYear % 100) by {
        if 0 <= startYear <= MaxInt64 && 0 <= endYear {
          YearPieces(startYear, endYear % 100);
        }
      }
      r
  }

  /** `s` splits at its one '-' into at least four digits (and nothing
      but digits, exactly four when the first is '0') reading `a`, and
      exactly two digits reading `e`. */
  predicate YearPiecesSplit(s: string, a: int, e: int)
  {
    var parts := Split(s, '-');
    && |parts| == 2
    && |parts[0]| >= 4 && AllDigits(parts[0]) && Atoi(parts[0]) == Ok(a)
    && (parts[0][0] == '0' ==> |parts[0]| == 4)
    && |parts[1]| == 2 && AllDigits(parts[1]) && Atoi(parts[1]) == Ok(e)
  }

  lemma YearPieces(startYear: nat, e: nat)
    requires startYear <= MaxInt64 && e < 100
    ensures YearPiecesSplit(FormatInt(startYear, 4) + "-" + FormatInt(e, 2), startYear, e)
  {
    var a, b := FormatInt(startYear, 4), FormatInt(e, 2);
    FormatNonNegative(startYear, 4);
    FormatNonNegative(e, 2);
    assert |Digits(e)| <= 2 by {
      if e >= 10 { assert e / 10 < 10; }
    }
    SplitAround(a, '-', b);
    SplitNoSep(b, '-');
    AtoiFormatInt(startYear, 4);
    AtoiFormatInt(e, 2);
    FormatPadding(startYear, 4);
  }

  /** `GenerateOutputFilename`: a non-empty override is used as the path,
      with ".stl" appended unless it already ends in ".stl" in any letter
      case; otherwise the default name from the user and the years. */
  function GenerateOutputFilename(user: string, startYear: int, endYear: int, output: string): (r: string)
    ensures output != [] && HasSuffix(ToLower(output), ".stl") ==> r == output
    ensures output != [] && !HasSuffix(ToLower(output), ".stl") ==> r == output + ".stl"
    ensures output == [] ==> r == OutputFileFormat(user, FormatYearRange(startYear, endYear))
  {
    if output != [] then
      if !HasSuffix(ToLower(output), ".stl") then output + ".stl" else output
    else
      OutputFileFormat(user, FormatYearRange(startYear, endYear))
  }

  /** Every generated file name ends in ".stl", ignoring letter case. */
  lemma OutputFilenameHasStlSuffix(user: string, startYear: int, endYear: int, output: string)
    ensures HasSuffix(ToLower(GenerateOutputFilename(user, startYear, endYear, output)), ".stl")
  {
    if output != [] {
      if !HasSuffix(ToLower(output), ".stl") {
        ToLowerAppend(output, ".stl");
      }
    } else {
      DefaultNameHasStlSuffix(user, FormatYearRange(startYear, endYear));
    }
  }

  lemma DefaultNameHasStlSuffix(user: string, years: string)
    ensures HasSuffix(ToLower(OutputFileFormat(user, years)), ".stl")
  {
    var prefix := user + "-" + years + "-github-skyline";
    assert OutputFileFormat(user, years) == prefix + ".stl";
    LowerKeepsStlSuffix(prefix + ".stl", |prefix|);
  }

  /** A name whose last four runes are ".stl" still ends in ".stl" once
      lower-cased. */
  lemma LowerKeepsStlSuffix(name: string, k: nat)
    requires k + 4 == |name| && name[k..] == ".stl"
    ensures HasSuffix(ToLower(name), ".stl")
  {
    assert name[k] == '.' && name[k + 1] == 's' && name[k + 2] == 't' && name[k + 3] == 'l';
    var lower := ToLower(name);
    assert lower[k..] == ".stl" by {
      assert lower[k] == '.' && lower[k + 1] == 's' && lower[k + 2] == 't' && lower[k + 3] == 'l';
    }
  }

  /** Feeding a generated name back in as the override changes nothing. */
  lemma OutputFilenameIdempotent(user: string, startYear: int, endYear: int, output: string)
    ensures var once := GenerateOutputFilename(user, startYear, endYear, output);
      GenerateOutputFilename(user, startYear, endYear, once) == once
  {
    OutputFilenameHasStlSuffix(user, startYear, endYear, output);
  }

  lemma {:induction false} Digits2020s(n: nat)
    requires 2020 <= n <= 2029
    ensures FormatInt(n, 0) == FormatInt(n, 4) == ['2', '0', '2', DigitChar(n - 2020)]
  {
    assert Digits(2) == ['2'];
    assert Digits(20) == ['2', '0'];
    assert Digits(202) == ['2', '0', '2'];
  }

  // The cases exercised by the repository's tests, one lemma each. Each
  // input is a parameter pinned by its requires clause, which keeps the
  // verifier from unfolding the recursive definitions on a literal.

  lemma ParseTestSingleYear(yearRange: string, currentYear: int)
    requires yearRange == "2024" && currentYear >= 2024
    ensures ParseYearRange(yearRange, currentYear) == YearRange(2024, 2024, None)
  {
    Digits2020s(2024);
    ParseSingleRoundTrip(2024, currentYear);
  }

  lemma ParseTestYearRange(yearRange: string, currentYear: int)
    requires yearRange == "2020-2024" && currentYear >= 2024
    ensures ParseYearRange(yearRange, currentYear) == YearRange(2020, 2024, None)
  {
    assert yearRange == FormatInt(2020, 0) + "-" + FormatInt(2024, 0) by {
      Digits2020s(2024);
      Digits2020s(2020);
    }
    ParseRangeRoundTrip(2020, 2024, currentYear);
  }

  lemma ParseTestInvalidFormat(yearRange: string, currentYear: int)
    requires yearRange == "2020-2024-2025"
    ensures ParseYearRange(yearRange, currentYear).err == Some(Message("invalid year range format"))
  {
    assert |Split(yearRange, '-')| == 3 by {
      assert yearRange == "2020" + "-" + ("2024" + "-" + "2025");
      SplitAround("2024", '-', "2025");
      SplitNoSep("2025", '-');
      SplitAround("2020", '-', "2024" + "-" + "2025");
    }
    assert yearRange[4] == '-';
  }

  lemma ParseTestInvalidNumber(yearRange: string, currentYear: int)
    requires yearRange == "abc-2024"
    ensures ParseYearRange(yearRange, currentYear).err == Some(NumError("abc", ErrSyntax))
  {
    assert Split(yearRange, '-') == ["abc", "2024"] by {
      assert yearRange == "abc" + "-" + "2024";
      SplitAround("abc", '-', "2024");
      SplitNoSep("2024", '-');
    }
    assert yearRange[3] == '-';
    assert Atoi("abc") == Err(NumError("abc", ErrSyntax)) by {
      assert !IsDigit("abc"[0]);
    }
  }

  lemma ValidateTestVectors(currentYear: int)
    requires currentYear >= 2024
    ensures ValidateYearRange(2020, 2024, currentYear) == None
    ensures ValidateYearRange(2007, 2024, currentYear) == Some(Message(BoundsMessage(currentYear)))
    ensures ValidateYearRange(2024, 2020, currentYear) == Some(Message("start year cannot be after end year"))
  {
  }

  lemma FormatTestSameYear(year: int)
    requires year == 2024
    ensures FormatYearRange(year, year) == "2024"
  {
    Digits2020s(year);
  }

  lemma OutputTestSingleYear(user: string, year: int)
    requires user == "testuser" && year == 2024
    ensures GenerateOutputFilename(user, year, year, "") == "testuser-2024-github-skyline.stl"
  {
    FormatTestSameYear(year);
  }

  lemma FormatTestDifferentYears(startYear: int, endYear: int)
    requires startYear == 2020 && endYear == 2024
    ensures FormatYearRange(startYear, endYear) == "2020-24"
  {
    var a := FormatInt(startYear, 4);
    var b := FormatInt(GoRem(endYear, 100), 2);
    assert a == "2020" by {
      Digits2020s(startYear);
    }
    assert b == "24" by {
      assert GoRem(endYear, 100) == 24;
      assert Digits(24) == Digits(2) + ['4'];
    }
    assert a + "-" + b == "2020-24";
  }

  lemma OutputTestDifferentYears(user: string, startYear: int, endYear: int)
    requires user == "testuser" && startYear == 2020 && endYear == 2024
    ensures GenerateOutputFilename(user, startYear, endYear, "") == "testuser-2020-24-github-skyline.stl"
  {
    var years := FormatYearRange(startYear, endYear);
    assert years == "2020-24" by {
      FormatTestDifferentYears(startYear, endYear);
    }
    assert GenerateOutputFilename(user, startYear, endYear, "") == OutputFileFormat(user, years);
    DefaultName(user, years);
  }

  lemma DefaultName(user: string, years: string)
    requires user == "testuser" && years == "2020-24"
    ensures OutputFileFormat(user, years) == "testuser-2020-24-github-skyline.stl"
  {
  }

  lemma OutputTestOverride(output: string)
    requires output == "myoutput.stl"
    ensures GenerateOutputFilename("testuser", 2020, 2024, output) == output
  {
    var l := ToLower(output);
    assert l[8] == '.' && l[9] == 's' && l[10] == 't' && l[11] == 'l';
    assert l[8..] == ".stl";
  }

  lemma OutputTestOverrideWithoutSuffix(output: string)
    requires output == "myoutput"
    ensures GenerateOutputFilename("testuser", 2020, 2024, output) == "myoutput.stl"
  {
    assert ToLower(output)[7] == 't';
  }
}
