/** The parts of Go's `strings`, `strconv` and `fmt` packages that the
    modelled code relies on, over strings of runes (`seq<char>`).

    - `Split`/`Join` with a one-rune separator (`strings.Split`, `strings.Join`)
    - `Trim` with a one-rune cut set (`strings.Trim`)
    - `HasSuffix`, `ToLower` (`strings.HasSuffix`, `strings.ToLower`)
    - `Atoi` (`strconv.Atoi`) and `FormatInt` (`fmt`'s `%d` and `%0Nd`) */
module Strs {
  import opened Errors

  // ---------------------------------------------------------------------
  // Split and Join

  /** Number of occurrences of `c` in `s`. */
  function Count(s: string, c: char): nat
  {
    if s == [] then 0 else (if s[0] == c then 1 else 0) + Count(s[1..], c)
  }

  /** `strings.Split(s, string(sep))`: the pieces between the separators,
      always at least one (the empty string splits into `[""]`). */
  function Split(s: string, sep: char): (parts: seq<string>)
    ensures |parts| == Count(s, sep) + 1
    ensures forall i :: 0 <= i < |parts| ==> sep !in parts[i]
  {
    if s == [] then [[]]
    else
      var rest := Split(s[1..], sep);
      if s[0] == sep then [[]] + rest
      else [[s[0]] + rest[0]] + rest[1..]
  }

  /** `strings.Join(parts, string(sep))` for a non-empty list: the first
      piece, then each further piece after a separator. */
  function Join(parts: seq<string>, sep: char): (r: string)
    requires |parts| >= 1
    ensures parts[0] <= r
    ensures |parts| > 1 ==> parts[0] + [sep] <= r
  {
    if |parts| == 1 then parts[0] else parts[0] + [sep] + Join(parts[1..], sep)
  }

  /** Joining the pieces of a split gives the string back. */
  lemma {:induction false} JoinSplit(s: string, sep: char)
    ensures Join(Split(s, sep), sep) == s
  {
    if s != [] {
      JoinSplit(s[1..], sep);
      var rest := Split(s[1..], sep);
      if s[0] != sep {
        if |rest| == 1 {
          assert Join(rest, sep) == rest[0];
        } else {
          assert Join(rest, sep) == rest[0] + [sep] + Join(rest[1..], sep);
        }
      }
    }
  }

  /** Splitting a join of separator-free pieces gives the pieces back. */
  lemma {:induction false} SplitJoin(parts: seq<string>, sep: char)
    requires |parts| >= 1
    requires forall i :: 0 <= i < |parts| ==> sep !in parts[i]
    ensures Split(Join(parts, sep), sep) == parts
  {
    if |parts| == 1 {
      SplitNoSep(parts[0], sep);
    } else {
      SplitJoin(parts[1..], sep);
      SplitAround(parts[0], sep, Join(parts[1..], sep));
      assert [parts[0]] + parts[1..] == parts;
    }
  }

  /** A piece occurs in a string exactly when it is counted. */
  lemma {:induction false} CountPositive(s: string, c: char)
    ensures Count(s, c) > 0 <==> c in s
  {
    if s != [] {
      CountPositive(s[1..], c);
      assert s == [s[0]] + s[1..];
    }
  }

  /** Dropping leading pieces before joining leaves a suffix of the whole
      join. */
  lemma JoinSuffix(parts: seq<string>, g: nat, sep: char)
    requires g < |parts|
    ensures var whole, tail := Join(parts, sep), Join(parts[g..], sep);
      |tail| <= |whole| && whole[|whole| - |tail|..] == tail
  {
    if g > 0 {
      JoinAppend(parts[..g], parts[g..], sep);
      assert parts[..g] + parts[g..] == parts;
    } else {
      assert parts[g..] == parts;
    }
  }

  /** A string without the separator splits into itself. */
  lemma {:induction false} SplitNoSep(s: string, sep: char)
    requires sep !in s
    ensures Split(s, sep) == [s]
  {
    if s != [] {
      SplitNoSep(s[1..], sep);
      assert [s[0]] + s[1..] == s;
    }
  }

  /** A separator-free prefix before a separator becomes the first piece. */
  lemma {:induction false} SplitAround(a: string, sep: char, b: string)
    requires sep !in a
    ensures Split(a + [sep] + b, sep) == [a] + Split(b, sep)
  {
    if a == [] {
      assert a + [sep] + b == [sep] + b;
      assert ([sep] + b)[1..] == b;
    } else {
      var s := a + [sep] + b;
      assert s[0] == a[0];
      assert s[1..] == a[1..] + [sep] + b;
      SplitAround(a[1..], sep, b);
      assert [a[0]] + a[1..] == a;
    }
  }

  /** Joining two non-empty lists of pieces puts one separator between them. */
  lemma {:induction false} JoinAppend(p: seq<string>, q: seq<string>, sep: char)
    requires |p| >= 1 && |q| >= 1
    ensures Join(p + q, sep) == Join(p, sep) + [sep] + Join(q, sep)
  {
    if |p| == 1 {
      assert (p + q)[1..] == q;
    } else {
      assert (p + q)[1..] == p[1..] + q;
      JoinAppend(p[1..], q, sep);
    }
  }

  // ---------------------------------------------------------------------
  // Trim, ToLower, HasSuffix

  /** Drop the leading `c`s: the result is no longer than `s` and does not
      start with `c`. */
  function TrimLeft(s: string, c: char): (r: string)
    ensures |r| <= |s|
    ensures r != [] ==> r[0] != c
  {
    if s != [] && s[0] == c then TrimLeft(s[1..], c) else s
  }

  /** Drop the trailing `c`s: the result is a prefix of `s` that does not
      end with `c`. */
  function TrimRight(s: string, c: char): (r: string)
    ensures r <= s
    ensures r != [] ==> r[|r| - 1] != c
  {
    if s != [] && s[|s| - 1] == c then TrimRight(s[..|s| - 1], c) else s
  }

  /** `strings.Trim(s, string(c))`: strip `c` from both ends. The result
      is a slice of `s` that neither starts nor ends with `c`. */
  function Trim(s: string, c: char): (r: string)
    ensures |r| <= |s|
    ensures r != [] ==> r[0] != c && r[|r| - 1] != c
  {
    TrimRight(TrimLeft(s, c), c)
  }

  /** A string trims to nothing exactly when it is made only of `c`. */
  lemma TrimEmptyIff(s: string, c: char)
    ensures Trim(s, c) == [] <==> forall i :: 0 <= i < |s| ==> s[i] == c
  {
    TrimLeftEmptyIff(s, c);
    var t := TrimLeft(s, c);
    if t != [] {
      assert t[0] != c;
      TrimRightKeepsHead(t, c);
    }
  }

  lemma {:induction false} TrimLeftEmptyIff(s: string, c: char)
    ensures TrimLeft(s, c) == [] <==> forall i :: 0 <= i < |s| ==> s[i] == c
    ensures TrimLeft(s, c) != [] ==> TrimLeft(s, c)[0] != c
  {
    if s != [] && s[0] == c {
      TrimLeftEmptyIff(s[1..], c);
      assert forall i :: 1 <= i < |s| ==> s[i] == s[1..][i - 1];
    }
  }

  lemma {:induction false} TrimRightKeepsHead(t: string, c: char)
    requires t != [] && t[0] != c
    ensures TrimRight(t, c) != []
  {
    if t[|t| - 1] == c {
      TrimRightKeepsHead(t[..|t| - 1], c);
    }
  }

  /** Lower-case mapping of one rune; only ASCII letters change. */
  function LowerChar(ch: char): char
  {
    if 'A' <= ch <= 'Z' then (ch as int + 32) as char else ch
  }

  /** `strings.ToLower`, restricted to ASCII letters. */
  function ToLower(s: string): (r: string)
    ensures |r| == |s|
    ensures forall i :: 0 <= i < |s| ==> r[i] == LowerChar(s[i])
  {
    if s == [] then [] else [LowerChar(s[0])] + ToLower(s[1..])
  }

  lemma {:induction false} ToLowerAppend(a: string, b: string)
    ensures ToLower(a + b) == ToLower(a) + ToLower(b)
  {
    var l := ToLower(a + b);
    assert forall i :: 0 <= i < |a| + |b| ==> l[i] == (ToLower(a) + ToLower(b))[i] by {
      forall i | 0 <= i < |a| + |b| ensures l[i] == (ToLower(a) + ToLower(b))[i] {
        if i < |a| { assert (a + b)[i] == a[i]; } else { assert (a + b)[i] == b[i - |a|]; }
      }
    }
  }

  /** `strings.HasSuffix`. */
  predicate HasSuffix(s: string, suffix: string)
  {
    |suffix| <= |s| && s[|s| - |suffix|..] == suffix
  }

  // ---------------------------------------------------------------------
  // Decimal numbers

  const MinInt64: int := -0x8000_0000_0000_0000
  const MaxInt64: int := 0x7FFF_FFFF_FFFF_FFFF

  predicate IsDigit(ch: char)
  {
    '0' <= ch <= '9'
  }

  predicate AllDigits(s: string)
  {
    forall i :: 0 <= i < |s| ==> IsDigit(s[i])
  }

  function DigitChar(d: nat): (ch: char)
    requires d < 10
    ensures IsDigit(ch)
  {
    ('0' as int + d) as char
  }

  /** The value of a string of decimal digits (0 for the empty string). */
  function DigitsValue(s: string): nat
    requires AllDigits(s)
  {
    if s == [] then 0
    else DigitsValue(s[..|s| - 1]) * 10 + (s[|s| - 1] as int - '0' as int)
  }

  /** The shortest decimal representation of `n`. */
  function Digits(n: nat): (s: string)
    ensures |s| >= 1 && AllDigits(s)
  {
    if n < 10 then [DigitChar(n)] else Digits(n / 10) + [DigitChar(n % 10)]
  }

  /** A decimal numeral as `%d` writes a non-negative number: one or more
      digits, with a leading '0' only in "0" itself. */
  predicate PlainDecimal(s: string)
  {
    |s| >= 1 && AllDigits(s) && (s[0] == '0' ==> |s| == 1)
  }

  /** The shortest representation of a positive number does not start
      with '0'. */
  lemma {:induction false} DigitsLeading(n: nat)
    requires n >= 1
    ensures Digits(n)[0] != '0'
  {
    if n >= 10 {
      DigitsLeading(n / 10);
      assert Digits(n)[0] == Digits(n / 10)[0];
    }
  }

  /** `%0Nd` pads only up to the width: a number written with a leading
      '0' (after the '-' for a negative one) is exactly N runes long, or
      "0" itself when N is 0. */
  lemma FormatPadding(n: int, width: nat)
    ensures n >= 0 && FormatInt(n, width)[0] == '0' ==>
      |FormatInt(n, width)| == if width >= 1 then width else 1
    ensures n < 0 ==> |FormatInt(n, width)| >= 2
    ensures n < 0 && FormatInt(n, width)[1] == '0' ==> |FormatInt(n, width)| == width
  {
    if n >= 1 {
      DigitsLeading(n);
    } else if n < 0 {
      DigitsLeading(-n);
      assert FormatInt(n, width)[1..] == PadZeros(Digits(-n), width - 1);
    }
  }

  /** `%d` (width 0) writes a plain decimal, after a '-' for a negative
      number. */
  lemma FormatPlain(n: int)
    ensures n >= 0 ==> PlainDecimal(FormatInt(n, 0))
    ensures n < 0 ==> FormatInt(n, 0)[0] == '-' && PlainDecimal(FormatInt(n, 0)[1..])
  {
    if n >= 1 {
      DigitsLeading(n);
    } else if n < 0 {
      DigitsLeading(-n);
      assert FormatInt(n, 0)[1..] == Digits(-n);
    }
  }

  function Zeros(k: nat): (s: string)
    ensures |s| == k && AllDigits(s)
    ensures forall i :: 0 <= i < k ==> s[i] == '0'
  {
    seq(k, _ => '0')
  }

  /** Left-pad a digit string with zeros to at least `width` characters. */
  function PadZeros(s: string, width: int): (r: string)
    ensures |r| == if |s| >= width then |s| else width
    ensures AllDigits(s) ==> AllDigits(r)
  {
    if |s| >= width then s else Zeros(width - |s|) + s
  }

  /** `fmt.Sprintf("%0<width>d", n)` (with width 0 this is `%d`): the minus
      sign comes first and counts towards the width. */
  function FormatInt(n: int, width: nat): (r: string)
    ensures |r| >= 1 && |r| >= width
    ensures r[0] == '-' <==> n < 0
  {
    if n < 0 then "-" + PadZeros(Digits(-n), width - 1) else PadZeros(Digits(n), width)
  }

  /** `strconv.Atoi`: an optional sign and at least one decimal digit,
      within the 64-bit signed range. */
  function Atoi(s: string): (r: Result<int>)
    ensures r.Ok? ==> MinInt64 <= r.value <= MaxInt64
    ensures r.Err? ==> r.error.NumError? && r.error.input == s
    ensures r.Ok? ==> |s| >= 1
  {
    var signed := |s| > 0 && (s[0] == '-' || s[0] == '+');
    var body := if signed then s[1..] else s;
    if body == [] || !AllDigits(body) then Err(NumError(s, ErrSyntax))
    else
      var v: int := if signed && s[0] == '-' then -(DigitsValue(body) as int) else DigitsValue(body);
      if v < MinInt64 || v > MaxInt64 then Err(NumError(s, ErrRange)) else Ok(v)
  }

  /** `Atoi` accepts exactly an optional sign followed by one or more digits
      (in range): anything else is a syntax error, a well-formed number
      outside 64 bits a range error, and a well-formed number in range is
      read with its sign. */
  lemma AtoiAcceptsIff(s: string)
    ensures Atoi(s).Ok? ==>
      |s| >= 1 && (IsDigit(s[0]) || ((s[0] == '-' || s[0] == '+') && |s| >= 2))
      && forall i :: 1 <= i < |s| ==> IsDigit(s[i])
    ensures (exists i :: 0 <= i < |s| && !IsDigit(s[i]) && !(i == 0 && (s[i] == '-' || s[i] == '+')))
      ==> Atoi(s) == Err(NumError(s, ErrSyntax))
    ensures |s| >= 1 && AllDigits(s) ==>
      Atoi(s) == if DigitsValue(s) <= MaxInt64 then Ok(DigitsValue(s)) else Err(NumError(s, ErrRange))
    ensures |s| >= 2 && s[0] == '+' && AllDigits(s[1..]) ==>
      Atoi(s) == if DigitsValue(s[1..]) <= MaxInt64 then Ok(DigitsValue(s[1..])) else Err(NumError(s, ErrRange))
    ensures |s| >= 2 && s[0] == '-' && AllDigits(s[1..]) ==>
      Atoi(s) == if DigitsValue(s[1..]) <= -MinInt64 then Ok(-(DigitsValue(s[1..]) as int)) else Err(NumError(s, ErrRange))
  {
    AtoiReadsNumber(s);
    if Atoi(s).Ok? && s[0] in "-+" {
      assert forall i :: 1 <= i < |s| ==> s[i] == s[1..][i - 1];
    }
    if exists i :: 0 <= i < |s| && !IsDigit(s[i]) && !(i == 0 && (s[i] == '-' || s[i] == '+')) {
      var i :| 0 <= i < |s| && !IsDigit(s[i]) && !(i == 0 && (s[i] == '-' || s[i] == '+'));
      if |s| > 0 && (s[0] == '-' || s[0] == '+') {
        assert s[1..][i - 1] == s[i];
      }
    }
  }

  /** A sign (or none) followed by digits is read as the signed number, or
      is a range error outside 64 bits. */
  lemma AtoiReadsNumber(s: string)
    ensures |s| >= 1 && AllDigits(s) ==>
      Atoi(s) == if DigitsValue(s) <= MaxInt64 then Ok(DigitsValue(s)) else Err(NumError(s, ErrRange))
    ensures |s| >= 2 && s[0] == '+' && AllDigits(s[1..]) ==>
      Atoi(s) == if DigitsValue(s[1..]) <= MaxInt64 then Ok(DigitsValue(s[1..])) else Err(NumError(s, ErrRange))
    ensures |s| >= 2 && s[0] == '-' && AllDigits(s[1..]) ==>
      Atoi(s) == if DigitsValue(s[1..]) <= -MinInt64 then Ok(-(DigitsValue(s[1..]) as int)) else Err(NumError(s, ErrRange))
  {
    if |s| >= 1 && AllDigits(s) {
      assert IsDigit(s[0]);
      assert s[0] != '-' && s[0] != '+';
    } else if |s| >= 2 && (s[0] == '+' || s[0] == '-') && AllDigits(s[1..]) {
      assert s[1..] != [];
    }
  }

  lemma {:induction false} DigitsValueSnoc(s: string, d: nat)
    requires AllDigits(s) && d < 10
    ensures DigitsValue(s + [DigitChar(d)]) == DigitsValue(s) * 10 + d
  {
    assert (s + [DigitChar(d)])[..|s|] == s;
  }

  /** Decimal digits read back as the number they were written from. */
  lemma {:induction false} DigitsRoundTrip(n: nat)
    ensures DigitsValue(Digits(n)) == n
  {
    if n < 10 {
      assert Digits(n) == [] + [DigitChar(n)];
      DigitsValueSnoc([], n);
    } else {
      DigitsRoundTrip(n / 10);
      DigitsValueSnoc(Digits(n / 10), n % 10);
    }
  }

  /** Leading zeros do not change a digit string's value. */
  lemma {:induction false} LeadingZeros(k: nat, s: string)
    requires AllDigits(s)
    ensures AllDigits(Zeros(k) + s)
    ensures DigitsValue(Zeros(k) + s) == DigitsValue(s)
  {
    if s == [] {
      assert Zeros(k) + s == Zeros(k);
      ZerosValue(k);
    } else {
      var init := s[..|s| - 1];
      LeadingZeros(k, init);
      assert (Zeros(k) + s)[..|Zeros(k) + s| - 1] == Zeros(k) + init;
    }
  }

  lemma {:induction false} ZerosValue(k: nat)
    ensures DigitsValue(Zeros(k)) == 0
  {
    if k > 0 {
      assert Zeros(k)[..k - 1] == Zeros(k - 1);
      ZerosValue(k - 1);
    }
  }

  /** A zero-padded decimal representation is a digit string with the
      number's value. */
  lemma PaddedDigits(m: nat, width: int)
    ensures |PadZeros(Digits(m), width)| >= 1
    ensures AllDigits(PadZeros(Digits(m), width))
    ensures DigitsValue(PadZeros(Digits(m), width)) == m
  {
    DigitsRoundTrip(m);
    if |Digits(m)| < width {
      LeadingZeros(width - |Digits(m)|, Digits(m));
    }
  }

  lemma AtoiDigits(p: string)
    requires |p| >= 1 && AllDigits(p) && DigitsValue(p) <= MaxInt64
    ensures Atoi(p) == Ok(DigitsValue(p))
  {
    assert IsDigit(p[0]);
  }

  lemma AtoiNegatedDigits(p: string)
    requires |p| >= 1 && AllDigits(p) && DigitsValue(p) <= -MinInt64
    ensures Atoi("-" + p) == Ok(-(DigitsValue(p) as int))
  {
    assert ("-" + p)[1..] == p;
  }

  /** `Atoi` reads back what `FormatInt` writes, at every width, for every
      64-bit value. */
  lemma AtoiFormatInt(n: int, width: nat)
    requires MinInt64 <= n <= MaxInt64
    ensures Atoi(FormatInt(n, width)) == Ok(n)
  {
    if n < 0 {
      PaddedDigits(-n, width - 1);
      AtoiNegatedDigits(PadZeros(Digits(-n), width - 1));
    } else {
      PaddedDigits(n, width);
      AtoiDigits(PadZeros(Digits(n), width));
    }
  }

  /** `FormatInt` of a non-negative number has no minus sign and only
      digits. */
  lemma FormatNonNegative(n: nat, width: nat)
    ensures AllDigits(FormatInt(n, width))
    ensures '-' !in FormatInt(n, width)
    ensures |FormatInt(n, width)| >= width
  {
    if |Digits(n)| < width {
      LeadingZeros(width - |Digits(n)|, Digits(n));
    }
  }
}
