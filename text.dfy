/** The few Python string builtins the level loader relies on:
    `s.split(',')`, `s.strip()`, `int(s)` and `'%s' % n` for an integer n. */
module Text {
  import opened Wrappers

  predicate IsDigit(c: char) {
    '0' <= c <= '9'
  }

  predicate AllDigits(s: string) {
    forall i :: 0 <= i < |s| ==> IsDigit(s[i])
  }

  /** The ASCII whitespace that Python's `strip()` and `int()` skip. */
  predicate IsSpace(c: char) {
    c == ' ' || c == '\t' || c == '\n' || c == '\r' || c == 11 as char || c == 12 as char
  }

  predicate AllSpaces(s: string) {
    forall i :: 0 <= i < |s| ==> IsSpace(s[i])
  }

  // ---------------------------------------------------------------------------
  // Splitting on commas

  /** Glues tokens back together with commas. */
  function Join(tokens: seq<string>): string
    decreases |tokens|
  {
    if |tokens| == 0 then ""
    else if |tokens| == 1 then tokens[0]
    else tokens[0] + "," + Join(tokens[1..])
  }

  /** Python's `s.split(',')`: never empty, empty tokens kept (`"".split(',') == ['']`,
      `"0,,1".split(',') == ['0', '', '1']`), and joining the pieces gives `s` back. */
  function Split(s: string): (tokens: seq<string>)
    ensures |tokens| >= 1
    ensures forall i :: 0 <= i < |tokens| ==> ',' !in tokens[i]
    ensures Join(tokens) == s
    decreases |s|
  {
    if |s| == 0 then [""]
    else
      var rest := Split(s[1..]);
      if s[0] == ',' then
        [""] + rest
      else
        var first := [s[0]] + rest[0];
        assert ([first] + rest[1..])[1..] == rest[1..];
        [first] + rest[1..]
  }

  lemma {:induction false} SplitWithoutComma(t: string)
    requires ',' !in t
    ensures Split(t) == [t]
    decreases |t|
  {
    if |t| > 0 {
      SplitWithoutComma(t[1..]);
      assert [t[0]] + t[1..] == t;
    }
  }

  lemma {:induction false} SplitAtFirstComma(t: string, rest: string)
    requires ',' !in t
    ensures Split(t + "," + rest) == [t] + Split(rest)
    decreases |t|
  {
    var s := t + "," + rest;
    if |t| == 0 {
      assert s[1..] == rest;
    } else {
      assert s[1..] == t[1..] + "," + rest;
      SplitAtFirstComma(t[1..], rest);
      assert [t[0]] + t[1..] == t;
    }
  }

  /** The other half of the round trip: comma-free tokens survive Join then Split. */
  lemma {:induction false} SplitJoin(tokens: seq<string>)
    requires |tokens| >= 1
    requires forall i :: 0 <= i < |tokens| ==> ',' !in tokens[i]
    ensures Split(Join(tokens)) == tokens
    decreases |tokens|
  {
    if |tokens| == 1 {
      SplitWithoutComma(tokens[0]);
    } else {
      SplitJoin(tokens[1..]);
      SplitAtFirstComma(tokens[0], Join(tokens[1..]));
      assert [tokens[0]] + tokens[1..] == tokens;
    }
  }

  // ---------------------------------------------------------------------------
  // Stripping whitespace

  function TrimLeft(s: string): (r: string)
    ensures |r| <= |s|
    decreases |s|
  {
    if |s| > 0 && IsSpace(s[0]) then TrimLeft(s[1..]) else s
  }

  function TrimRight(s: string): (r: string)
    ensures |r| <= |s|
    decreases |s|
  {
    if |s| > 0 && IsSpace(s[|s| - 1]) then TrimRight(s[..|s| - 1]) else s
  }

  /** Python's `s.strip()`. */
  function Strip(s: string): string {
    TrimRight(TrimLeft(s))
  }

  /** Where the stripped text starts in `s`. */
  function StripStart(s: string): nat {
    |s| - |TrimLeft(s)|
  }

  lemma {:induction false} TrimLeftCutsSpaces(s: string)
    ensures var r := TrimLeft(s);
            && |r| <= |s| && r == s[|s| - |r|..]
            && AllSpaces(s[..|s| - |r|])
            && (r == [] || !IsSpace(r[0]))
    decreases |s|
  {
    if |s| > 0 && IsSpace(s[0]) {
      var t := s[1..];
      TrimLeftCutsSpaces(t);
      var r := TrimLeft(t);
      assert TrimLeft(s) == r;
      assert t[|t| - |r|..] == s[|s| - |r|..];
      assert s[..|s| - |r|] == [s[0]] + t[..|t| - |r|];
    }
  }

  lemma {:induction false} TrimRightCutsSpaces(s: string)
    ensures var r := TrimRight(s);
            && |r| <= |s| && r == s[..|r|]
            && AllSpaces(s[|r|..])
            && (r == [] || !IsSpace(r[|r| - 1]))
    decreases |s|
  {
    if |s| > 0 && IsSpace(s[|s| - 1]) {
      var t := s[..|s| - 1];
      TrimRightCutsSpaces(t);
      var r := TrimRight(t);
      assert TrimRight(s) == r;
      assert t[..|r|] == s[..|r|];
      assert s[|r|..] == t[|r|..] + [s[|s| - 1]];
    }
  }

  /** What `strip()` leaves is a slice of `s` whose two ends are not whitespace, with
      nothing but whitespace cut off on either side. */
  lemma StripCutsSpaces(s: string)
    ensures var r := Strip(s);
            var i := StripStart(s);
            && i + |r| <= |s| && r == s[i..i + |r|]
            && AllSpaces(s[..i]) && AllSpaces(s[i + |r|..])
            && (r == [] || (!IsSpace(r[0]) && !IsSpace(r[|r| - 1])))
  {
    var left := TrimLeft(s);
    TrimLeftCutsSpaces(s);
    TrimRightCutsSpaces(left);
    var r := TrimRight(left);
    assert s[StripStart(s) + |r|..] == left[|r|..];
  }

  /** Text that is only whitespace strips to nothing. */
  lemma StripBlank(s: string)
    requires AllSpaces(s)
    ensures Strip(s) == []
  {
    StripCutsSpaces(s);
  }

  /** Text with no whitespace at either end is left as it is. */
  lemma StripTrimmed(s: string)
    requires |s| == 0 || (!IsSpace(s[0]) && !IsSpace(s[|s| - 1]))
    ensures Strip(s) == s
  {
    StripCutsSpaces(s);
  }

  // ---------------------------------------------------------------------------
  // Integers and their decimal text

  /** The value of a string of decimal digits, most significant first. */
  function DigitsValue(ds: string): nat
    requires AllDigits(ds)
    decreases |ds|
  {
    if |ds| == 0 then 0
    else DigitsValue(ds[..|ds| - 1]) * 10 + (ds[|ds| - 1] as int - '0' as int)
  }

  function DigitChar(d: nat): (c: char)
    requires d < 10
    ensures IsDigit(c) && c as int - '0' as int == d
  {
    ('0' as int + d) as char
  }

  /** The decimal text of a natural number, without leading zeros. */
  function NatToString(n: nat): (s: string)
    ensures |s| >= 1 && AllDigits(s) && DigitsValue(s) == n
    ensures s[0] == '0' ==> s == "0"
    decreases n
  {
    if n < 10 then [DigitChar(n)]
    else
      var s := NatToString(n / 10) + [DigitChar(n % 10)];
      assert s[..|s| - 1] == NatToString(n / 10);
      s
  }

  /** Python's `'%s' % n` for an integer `n`. */
  function IntToString(n: int): (s: string)
    ensures |s| >= 1
  {
    if n < 0 then "-" + NatToString(-n) else NatToString(n)
  }

  /** Python 2's `repr()` of a string, for printable ASCII strings without quotes or
      backslashes. */
  function Repr(s: string): string {
    "'" + s + "'"
  }

  /** Python's `int(s)`: surrounding whitespace is ignored, then an optional sign and
      at least one decimal digit; anything else fails with Python's message. */
  function ParseInt(s: string): (r: Result<int, string>)
    ensures r.Failure? ==> r.error == "invalid literal for int() with base 10: " + Repr(s)
  {
    var t := Strip(s);
    var signed := |t| > 0 && (t[0] == '-' || t[0] == '+');
    var digits := if signed then t[1..] else t;
    if |digits| > 0 && AllDigits(digits) then
      var magnitude: int := DigitsValue(digits);
      Success(if signed && t[0] == '-' then -magnitude else magnitude)
    else
      Failure("invalid literal for int() with base 10: " + Repr(s))
  }

  /** A plain string of digits is read as its decimal value. */
  lemma ParseIntDigits(s: string)
    requires |s| > 0 && AllDigits(s)
    ensures ParseInt(s) == Success(DigitsValue(s))
  {
    assert IsDigit(s[0]) && IsDigit(s[|s| - 1]);
    assert !IsSpace(s[0]) && !IsSpace(s[|s| - 1]);
    StripTrimmed(s);
    assert Strip(s) == s && s[0] != '-' && s[0] != '+';
  }

  /** Empty or blank text is not a number (the empty `ban_length` case). */
  lemma ParseIntBlank(s: string)
    requires AllSpaces(s)
    ensures ParseInt(s).Failure?
  {
    StripBlank(s);
  }

  /** A character that is neither a digit, whitespace nor a sign makes `int()` fail
      wherever it stands (the `f00` case). */
  lemma ParseIntForeignChar(s: string, k: nat)
    requires k < |s| && !IsDigit(s[k]) && !IsSpace(s[k]) && s[k] != '-' && s[k] != '+'
    ensures ParseInt(s).Failure?
  {
    StripCutsSpaces(s);
    var t := Strip(s);
    var i := StripStart(s);
    assert i <= k < i + |t|;
    var j := k - i;
    assert t[j] == s[k];
    var signed := |t| > 0 && (t[0] == '-' || t[0] == '+');
    var digits := if signed then t[1..] else t;
    if signed {
      assert j >= 1 && digits[j - 1] == s[k];
    } else {
      assert digits[j] == s[k];
    }
    assert !AllDigits(digits);
  }

  /** `int('%s' % n) == n`: the round trip that ties a level number to its section name. */
  lemma ParseIntOfIntToString(n: int)
    ensures ParseInt(IntToString(n)) == Success(n)
  {
    if n < 0 {
      var ds := NatToString(-n);
      var s := "-" + ds;
      assert IsDigit(s[|s| - 1]);
      StripTrimmed(s);
      assert s[1..] == ds;
    } else {
      ParseIntDigits(NatToString(n));
    }
  }
}
