/** The parts of .NET `System.String` the engine relies on: `Trim`, `Replace(pattern, "")`,
    decimal rendering and parsing of integers, and case-insensitive comparison. */
module Text {
  import opened Results

  /** `Char.IsWhiteSpace`: the Unicode space separators, the line and paragraph separators,
      and the control characters U+0009..U+000D and U+0085. */
  predicate IsWhiteSpace(c: char) {
    ('\t' <= c <= '\r') || c == ' ' || c == '\U{85}' || c == '\U{A0}' || c == '\U{1680}'
    || ('\U{2000}' <= c <= '\U{200A}') || c == '\U{2028}' || c == '\U{2029}'
    || c == '\U{202F}' || c == '\U{205F}' || c == '\U{3000}'
  }

  /** `String.TrimStart()`: drops the leading white space and nothing else. */
  function TrimStart(s: string): (r: string)
    ensures |r| <= |s|
    ensures forall i :: 0 <= i < |s| - |r| ==> IsWhiteSpace(s[i])
    ensures r == [] || !IsWhiteSpace(r[0])
  {
    if s != [] && IsWhiteSpace(s[0]) then TrimStart(s[1..]) else s
  }

  /** What `TrimStart` keeps is a suffix of its input. */
  lemma {:induction false} TrimStartIsSuffix(s: string)
    ensures TrimStart(s) == s[|s| - |TrimStart(s)|..]
  {
    if s != [] && IsWhiteSpace(s[0]) {
      TrimStartIsSuffix(s[1..]);
    }
  }

  /** `String.TrimEnd()`: drops the trailing white space and nothing else. */
  function TrimEnd(s: string): (r: string)
    ensures |r| <= |s|
    ensures forall i :: |r| <= i < |s| ==> IsWhiteSpace(s[i])
    ensures r == [] || !IsWhiteSpace(r[|r| - 1])
  {
    if s != [] && IsWhiteSpace(s[|s| - 1]) then TrimEnd(s[..|s| - 1]) else s
  }

  /** What `TrimEnd` keeps is a prefix of its input. */
  lemma {:induction false} TrimEndIsPrefix(s: string)
    ensures TrimEnd(s) == s[..|TrimEnd(s)|]
  {
    if s != [] && IsWhiteSpace(s[|s| - 1]) {
      TrimEndIsPrefix(s[..|s| - 1]);
    }
  }

  /** `String.Trim()`: white space at neither end, and never longer than its input. */
  function Trim(s: string): (r: string)
    ensures |r| <= |s|
    ensures r == [] || (!IsWhiteSpace(r[0]) && !IsWhiteSpace(r[|r| - 1]))
  {
    TrimEndIsPrefix(TrimStart(s));
    TrimEnd(TrimStart(s))
  }

  /** A string trims to the empty string exactly when it consists of white space only. */
  lemma TrimEmptyIff(s: string)
    ensures Trim(s) == [] <==> forall k :: 0 <= k < |s| ==> IsWhiteSpace(s[k])
  {
    TrimStartIsSuffix(s);
  }

  /** Trimming twice changes nothing more. */
  lemma TrimIdempotent(s: string)
    ensures Trim(Trim(s)) == Trim(s)
  {
    var r := Trim(s);
    var t := TrimStart(s);
    TrimEndIsPrefix(t);
    if r != [] {
      assert r[0] == t[0];
    }
    assert TrimStart(r) == r;
  }

  /** `s` has an occurrence of `pat` starting at index `i`. */
  predicate OccursAt(s: string, pat: string, i: nat) {
    i + |pat| <= |s| && s[i..i + |pat|] == pat
  }

  lemma OccursShift(s: string, pat: string, i: nat)
    requires s != []
    ensures OccursAt(s[1..], pat, i) <==> OccursAt(s, pat, i + 1)
  {
    if i + 1 + |pat| <= |s| {
      assert s[1..][i..i + |pat|] == s[i + 1..i + 1 + |pat|];
    }
  }

  /** `s.Replace(pat, "")` with ordinal comparison: scanning left to right, every
      non-overlapping occurrence of `pat` is removed; the result is not scanned again. */
  function RemoveAll(s: string, pat: string): (r: string)
    requires pat != []
    ensures |r| <= |s|
    decreases |s|
  {
    if |s| < |pat| then s
    else if s[..|pat|] == pat then RemoveAll(s[|pat|..], pat)
    else [s[0]] + RemoveAll(s[1..], pat)
  }

  /** A string with no occurrence of `pat` is left as it is. */
  lemma {:induction false} RemoveAllAbsent(s: string, pat: string)
    requires pat != []
    requires forall i :: 0 <= i < |s| ==> !OccursAt(s, pat, i)
    ensures RemoveAll(s, pat) == s
    decreases |s|
  {
    if |s| >= |pat| {
      assert !OccursAt(s, pat, 0);
      forall i | 0 <= i < |s[1..]|
        ensures !OccursAt(s[1..], pat, i)
      {
        OccursShift(s, pat, i);
      }
      RemoveAllAbsent(s[1..], pat);
    }
  }

  /** A leading occurrence is dropped. */
  lemma RemoveAllLeading(pat: string, b: string)
    requires pat != []
    ensures RemoveAll(pat + b, pat) == RemoveAll(b, pat)
  {
    var s := pat + b;
    assert s[..|pat|] == pat;
    assert s[|pat|..] == b;
  }

  /** A first character that starts no occurrence is kept. */
  lemma RemoveAllKeepsFirst(s: string, pat: string)
    requires pat != [] && s != [] && !OccursAt(s, pat, 0)
    ensures RemoveAll(s, pat) == [s[0]] + RemoveAll(s[1..], pat)
  {
  }

  /** An occurrence anywhere is removed, not only a leading one: when no occurrence starts
      inside `a`, `RemoveAll(a + pat + b)` keeps `a`, drops `pat` and goes on with `b`. */
  lemma {:induction false} RemoveAllInfix(a: string, pat: string, b: string)
    requires pat != []
    requires forall i :: 0 <= i < |a| ==> !OccursAt(a + pat + b, pat, i)
    ensures RemoveAll(a + pat + b, pat) == a + RemoveAll(b, pat)
    decreases |a|
  {
    var s := a + pat + b;
    if a == [] {
      assert s == pat + b;
      RemoveAllLeading(pat, b);
    } else {
      assert !OccursAt(s, pat, 0);
      RemoveAllKeepsFirst(s, pat);
      var t := a[1..] + pat + b;
      assert s[1..] == t;
      forall i | 0 <= i < |a[1..]|
        ensures !OccursAt(t, pat, i)
      {
        OccursShift(s, pat, i);
      }
      RemoveAllInfix(a[1..], pat, b);
      assert [s[0]] + a[1..] == a;
    }
  }

  predicate IsDigit(c: char) {
    '0' <= c <= '9'
  }

  predicate AllDigits(s: string) {
    forall i :: 0 <= i < |s| ==> IsDigit(s[i])
  }

  function DigitChar(d: nat): (c: char)
    requires d < 10
    ensures IsDigit(c) && c as int - '0' as int == d
  {
    ('0' as int + d) as char
  }

  /** The decimal digits of `n`, most significant first, with no leading zero. */
  function NatToDecimal(n: nat): (r: string)
    ensures |r| >= 1 && AllDigits(r)
    ensures r[0] == '0' ==> n == 0
  {
    if n < 10 then [DigitChar(n)] else NatToDecimal(n / 10) + [DigitChar(n % 10)]
  }

  /** The decimal rendering of an integer with `-` as the negative sign, as the invariant
      culture writes it. */
  function IntToDecimal(i: int): (r: string)
    ensures |r| >= 1 && (r[0] == '-' <==> i < 0)
    ensures i >= 0 ==> AllDigits(r)
    ensures i < 0 ==> |r| >= 2 && AllDigits(r[1..])
  {
    if i < 0 then "-" + NatToDecimal(-i) else NatToDecimal(i)
  }

  /** The value of a string of decimal digits. */
  function DecimalToNat(s: string): nat
    requires AllDigits(s)
  {
    if s == [] then 0 else DecimalToNat(s[..|s| - 1]) * 10 + (s[|s| - 1] as int - '0' as int)
  }

  /** An optional sign followed by at least one decimal digit, as `Int32.Parse` reads it
      (the range check is the caller's). */
  function ParseInteger(s: string): (r: Option<int>)
    ensures r.Some? <==>
      (|s| >= 1 && AllDigits(s)) || (|s| >= 2 && (s[0] == '-' || s[0] == '+') && AllDigits(s[1..]))
    ensures |s| >= 1 && AllDigits(s) ==> r == Some(DecimalToNat(s))
    ensures |s| >= 2 && s[0] == '+' && AllDigits(s[1..]) ==> r == Some(DecimalToNat(s[1..]))
    ensures |s| >= 2 && s[0] == '-' && AllDigits(s[1..]) ==> r == Some(0 - DecimalToNat(s[1..]))
  {
    if |s| >= 2 && s[0] == '-' && AllDigits(s[1..]) then Some(0 - DecimalToNat(s[1..]) as int)
    else if |s| >= 2 && s[0] == '+' && AllDigits(s[1..]) then Some(DecimalToNat(s[1..]))
    else if |s| >= 1 && AllDigits(s) then Some(DecimalToNat(s))
    else None
  }

  lemma {:induction false} NatToDecimalRoundTrip(n: nat)
    ensures DecimalToNat(NatToDecimal(n)) == n
  {
    var r := NatToDecimal(n);
    if n >= 10 {
      NatToDecimalRoundTrip(n / 10);
      assert r[..|r| - 1] == NatToDecimal(n / 10);
    }
  }

  /** A leading zero does not change the value of a digit string. */
  lemma {:induction false} DecimalLeadingZero(s: string)
    requires AllDigits(s)
    ensures AllDigits("0" + s) && DecimalToNat("0" + s) == DecimalToNat(s)
    decreases |s|
  {
    var z := "0" + s;
    if s == [] {
      assert z[..0] == [];
    } else {
      var init := s[..|s| - 1];
      DecimalLeadingZero(init);
      assert z[..|z| - 1] == "0" + init;
      assert z[|z| - 1] == s[|s| - 1];
    }
  }

  /** An explicit sign before a digit string reads as that sign applied to its value, so a
      `+` changes nothing. */
  lemma ParseSigned(sign: char, digits: string)
    requires sign == '+' || sign == '-'
    requires |digits| >= 1 && AllDigits(digits)
    ensures ParseInteger([sign] + digits) == Some(if sign == '-' then 0 - DecimalToNat(digits) else DecimalToNat(digits))
  {
    var t := [sign] + digits;
    assert t[0] == sign && t[1..] == digits;
  }

  lemma ParseDigits(digits: string)
    requires |digits| >= 1 && AllDigits(digits)
    ensures ParseInteger(digits) == Some(DecimalToNat(digits))
  {
  }

  /** Leading zeros do not change the integer read. */
  lemma ParseLeadingZeros(zeros: string, digits: string)
    requires forall i :: 0 <= i < |zeros| ==> zeros[i] == '0'
    requires |digits| >= 1 && AllDigits(digits)
    ensures |zeros + digits| >= 1 && AllDigits(zeros + digits)
    ensures ParseInteger(zeros + digits) == Some(DecimalToNat(digits))
  {
    LeadingZeros(zeros, digits);
    ParseDigits(zeros + digits);
  }

  lemma {:induction false} LeadingZeros(zeros: string, digits: string)
    requires forall i :: 0 <= i < |zeros| ==> zeros[i] == '0'
    requires AllDigits(digits)
    ensures AllDigits(zeros + digits) && DecimalToNat(zeros + digits) == DecimalToNat(digits)
    decreases |zeros|
  {
    if zeros == [] {
      assert zeros + digits == digits;
    } else {
      LeadingZeros(zeros[1..], digits);
      DecimalLeadingZero(zeros[1..] + digits);
      assert zeros + digits == "0" + (zeros[1..] + digits);
    }
  }

  /** Reading back the decimal rendering of an integer gives the integer. */
  lemma IntToDecimalRoundTrip(i: int)
    ensures ParseInteger(IntToDecimal(i)) == Some(i)
  {
    if i < 0 {
      var d := NatToDecimal(-i);
      NatToDecimalRoundTrip(-i);
      ParseSigned('-', d);
      assert IntToDecimal(i) == ['-'] + d;
    } else {
      NatToDecimalRoundTrip(i);
      ParseDigits(NatToDecimal(i));
    }
  }

  /** ASCII upper case to lower case; every other character is kept. */
  function ToLowerAscii(c: char): char {
    if 'A' <= c <= 'Z' then (c as int + 32) as char else c
  }

  /** `String.Equals(a, b, StringComparison.OrdinalIgnoreCase)` restricted to ASCII letters. */
  predicate EqualsIgnoreCase(a: string, b: string)
    ensures a == b ==> EqualsIgnoreCase(a, b)
    ensures EqualsIgnoreCase(a, b) ==> |a| == |b|
  {
    |a| == |b| && forall i :: 0 <= i < |a| ==> ToLowerAscii(a[i]) == ToLowerAscii(b[i])
  }

  /** What `Boolean.Parse` skips at either end of its text: white space and `'\0'`. */
  predicate IsWhiteSpaceOrNull(c: char) {
    IsWhiteSpace(c) || c == '\0'
  }

  /** The string without white space or `'\0'` at either end, as `Boolean.Parse` trims it
      before comparing it with `True` and `False`. */
  function TrimWhiteSpaceAndNull(s: string): (r: string)
    ensures |r| <= |s|
    ensures r == [] || (!IsWhiteSpaceOrNull(r[0]) && !IsWhiteSpaceOrNull(r[|r| - 1]))
    decreases |s|
  {
    if s != [] && IsWhiteSpaceOrNull(s[0]) then TrimWhiteSpaceAndNull(s[1..])
    else if s != [] && IsWhiteSpaceOrNull(s[|s| - 1]) then TrimWhiteSpaceAndNull(s[..|s| - 1])
    else s
  }

  /** Leading white space and `'\0'` are trimmed. */
  lemma {:induction false} TrimLeadingWhiteSpaceAndNull(pre: string, t: string)
    requires forall i :: 0 <= i < |pre| ==> IsWhiteSpaceOrNull(pre[i])
    ensures TrimWhiteSpaceAndNull(pre + t) == TrimWhiteSpaceAndNull(t)
    decreases |pre|
  {
    if pre != [] {
      var x := pre + t;
      assert x[0] == pre[0];
      assert x[1..] == pre[1..] + t;
      TrimLeadingWhiteSpaceAndNull(pre[1..], t);
    } else {
      assert pre + t == t;
    }
  }

  /** Trailing white space and `'\0'` after a character that is neither are trimmed. */
  lemma {:induction false} TrimTrailingWhiteSpaceAndNull(s: string, post: string)
    requires s != [] && !IsWhiteSpaceOrNull(s[0])
    requires forall i :: 0 <= i < |post| ==> IsWhiteSpaceOrNull(post[i])
    ensures TrimWhiteSpaceAndNull(s + post) == TrimWhiteSpaceAndNull(s)
    decreases |post|
  {
    if post != [] {
      var x := s + post;
      var init := post[..|post| - 1];
      assert x[0] == s[0];
      assert x[|x| - 1] == post[|post| - 1];
      assert x[..|x| - 1] == s + init;
      TrimTrailingWhiteSpaceAndNull(s, init);
    } else {
      assert s + post == s;
    }
  }

  /** Exactly the white space and `'\0'` around a text that starts and ends with neither
      are trimmed. */
  lemma TrimWhiteSpaceAndNullAround(pre: string, s: string, post: string)
    requires s != [] && !IsWhiteSpaceOrNull(s[0]) && !IsWhiteSpaceOrNull(s[|s| - 1])
    requires forall i :: 0 <= i < |pre| ==> IsWhiteSpaceOrNull(pre[i])
    requires forall i :: 0 <= i < |post| ==> IsWhiteSpaceOrNull(post[i])
    ensures TrimWhiteSpaceAndNull(pre + s + post) == s
  {
    assert pre + s + post == pre + (s + post);
    TrimLeadingWhiteSpaceAndNull(pre, s + post);
    assert (s + post)[0] == s[0];
    TrimTrailingWhiteSpaceAndNull(s, post);
  }

  /** The white space `Int32.Parse` with `NumberStyles.Integer` accepts around the digits. */
  predicate IsNumberWhite(c: char) {
    ('\t' <= c <= '\r') || c == ' '
  }

  /** The string without the white space `Int32.Parse` skips at either end. */
  function StripNumberWhite(s: string): (r: string)
    ensures |r| <= |s|
    ensures r == [] || (!IsNumberWhite(r[0]) && !IsNumberWhite(r[|r| - 1]))
    decreases |s|
  {
    if s != [] && IsNumberWhite(s[0]) then StripNumberWhite(s[1..])
    else if s != [] && IsNumberWhite(s[|s| - 1]) then StripNumberWhite(s[..|s| - 1])
    else s
  }

  /** The string without its trailing `'\0'` characters, which `Int32.Parse` accepts
      after the number and its trailing white space. */
  function DropTrailingNulls(s: string): (r: string)
    ensures |r| <= |s|
    ensures forall i :: |r| <= i < |s| ==> s[i] == '\0'
    ensures r == [] || r[|r| - 1] != '\0'
  {
    if s != [] && s[|s| - 1] == '\0' then DropTrailingNulls(s[..|s| - 1]) else s
  }

  /** Appending `'\0'` characters to a string that does not end in one is undone. */
  lemma {:induction false} DropAppendedNulls(s: string, nulls: string)
    requires s == [] || s[|s| - 1] != '\0'
    requires forall i :: 0 <= i < |nulls| ==> nulls[i] == '\0'
    ensures DropTrailingNulls(s + nulls) == s
  {
    if nulls == [] {
      assert s + nulls == s;
    } else {
      var x := s + nulls;
      assert x[..|x| - 1] == s + nulls[..|nulls| - 1];
      DropAppendedNulls(s, nulls[..|nulls| - 1]);
    }
  }

  /** Leading white space is stripped. */
  lemma {:induction false} StripLeadingWhite(pre: string, t: string)
    requires forall i :: 0 <= i < |pre| ==> IsNumberWhite(pre[i])
    ensures StripNumberWhite(pre + t) == StripNumberWhite(t)
    decreases |pre|
  {
    if pre != [] {
      var x := pre + t;
      assert x[0] == pre[0];
      assert x[1..] == pre[1..] + t;
      StripLeadingWhite(pre[1..], t);
    } else {
      assert pre + t == t;
    }
  }

  /** Trailing white space after a character that is not white space is stripped. */
  lemma {:induction false} StripTrailingWhite(s: string, post: string)
    requires s != [] && !IsNumberWhite(s[0])
    requires forall i :: 0 <= i < |post| ==> IsNumberWhite(post[i])
    ensures StripNumberWhite(s + post) == StripNumberWhite(s)
    decreases |post|
  {
    if post != [] {
      var x := s + post;
      var init := post[..|post| - 1];
      assert x[0] == s[0];
      assert x[|x| - 1] == post[|post| - 1];
      assert x[..|x| - 1] == s + init;
      StripTrailingWhite(s, init);
    } else {
      assert s + post == s;
    }
  }

  /** `Int32.Parse` ignores the white space around the number. */
  lemma StripNumberWhiteAround(pre: string, s: string, post: string)
    requires s != [] && !IsNumberWhite(s[0]) && !IsNumberWhite(s[|s| - 1])
    requires forall i :: 0 <= i < |pre| ==> IsNumberWhite(pre[i])
    requires forall i :: 0 <= i < |post| ==> IsNumberWhite(post[i])
    ensures StripNumberWhite(pre + s + post) == s
  {
    assert pre + s + post == pre + (s + post);
    StripLeadingWhite(pre, s + post);
    assert (s + post)[0] == s[0];
    StripTrailingWhite(s, post);
  }

  /** The decimal text of an integer has nothing `Int32.Parse` would skip. */
  lemma DecimalUntouched(i: int)
    ensures DropTrailingNulls(IntToDecimal(i)) == IntToDecimal(i)
    ensures StripNumberWhite(IntToDecimal(i)) == IntToDecimal(i)
  {
    var d := IntToDecimal(i);
    assert d[0] == '-' || IsDigit(d[0]);
    assert IsDigit(d[|d| - 1]);
  }

  /** A number with white space around it does not end in `'\0'`. */
  lemma NumberTextEndsWell(pre: string, sign: string, digits: string, post: string)
    requires forall i :: 0 <= i < |post| ==> IsNumberWhite(post[i])
    requires |digits| >= 1 && AllDigits(digits)
    ensures DropTrailingNulls(pre + sign + digits + post) == pre + sign + digits + post
  {
    var x := pre + sign + digits + post;
    assert x[|x| - 1] == if post == [] then digits[|digits| - 1] else post[|post| - 1];
  }

  /** The white space around an optionally signed digit string is all that is stripped. */
  lemma StripAroundNumber(pre: string, sign: string, digits: string, post: string)
    requires forall i :: 0 <= i < |pre| ==> IsNumberWhite(pre[i])
    requires forall i :: 0 <= i < |post| ==> IsNumberWhite(post[i])
    requires sign == "" || sign == "+" || sign == "-"
    requires |digits| >= 1 && AllDigits(digits)
    ensures StripNumberWhite(pre + sign + digits + post) == sign + digits
  {
    var n := sign + digits;
    assert pre + sign + digits + post == pre + n + post;
    assert !IsNumberWhite(n[0]) by {
      if sign == "" {
        assert n[0] == digits[0];
      } else {
        assert n[0] == sign[0];
      }
    }
    assert !IsNumberWhite(n[|n| - 1]) by {
      assert n[|n| - 1] == digits[|digits| - 1];
    }
    StripNumberWhiteAround(pre, n, post);
  }

  /** What `Int32.Parse` reads from white space around an optionally signed digit string. */
  lemma ParseNumberText(pre: string, sign: string, digits: string, post: string)
    requires forall i :: 0 <= i < |pre| ==> IsNumberWhite(pre[i])
    requires forall i :: 0 <= i < |post| ==> IsNumberWhite(post[i])
    requires sign == "" || sign == "+" || sign == "-"
    requires |digits| >= 1 && AllDigits(digits)
    ensures ParseInteger(StripNumberWhite(pre + sign + digits + post)) ==
      Some(if sign == "-" then 0 - DecimalToNat(digits) else DecimalToNat(digits))
  {
    var n := sign + digits;
    StripAroundNumber(pre, sign, digits, post);
    if sign == "" {
      assert n == digits;
      ParseDigits(digits);
    } else {
      assert n == [sign[0]] + digits;
      ParseSigned(sign[0], digits);
    }
  }
}
