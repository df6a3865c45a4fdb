/** The Python string operations the integration uses: str() of an integer,
    str.lower(), str.replace(), str.split(), str.strip()/rstrip() and
    str.startswith(). Characters are compared one by one; only ASCII letters
    have a case and only ASCII whitespace is whitespace. */
module Text {

  datatype Option<T> = None | Some(value: T)

  // ---------------------------------------------------------------------------
  // Decimal notation of integers (Python's str(int))
  // ---------------------------------------------------------------------------

  predicate IsDigit(c: char) { '0' <= c <= '9' }

  predicate AllDigits(s: string) { forall i :: 0 <= i < |s| ==> IsDigit(s[i]) }

  function DigitChar(d: nat): (c: char)
    requires d < 10
    ensures IsDigit(c)
  {
    ('0' as int + d) as char
  }

  function DigitValue(c: char): (d: nat)
    requires IsDigit(c)
    ensures d < 10
  {
    c as int - '0' as int
  }

  /** The digits of n, most significant first, without leading zeros. */
  function Digits(n: nat): (s: string)
    ensures |s| >= 1 && AllDigits(s)
    decreases n
  {
    if n < 10 then [DigitChar(n)] else Digits(n / 10) + [DigitChar(n % 10)]
  }

  /** The value of a string of decimal digits (the empty string reads as 0). */
  function ParseDigits(s: string): nat
    requires AllDigits(s)
    decreases |s|
  {
    if s == [] then 0 else ParseDigits(s[..|s| - 1]) * 10 + DigitValue(s[|s| - 1])
  }

  lemma {:induction false} ParseDigitsOfDigits(n: nat)
    ensures ParseDigits(Digits(n)) == n
    decreases n
  {
    if n >= 10 {
      var s := Digits(n);
      assert s[..|s| - 1] == Digits(n / 10);
      ParseDigitsOfDigits(n / 10);
    }
  }

  /** Python's str(n) for an int n. */
  function Decimal(n: int): (s: string)
    ensures |s| >= 1
  {
    if n < 0 then "-" + Digits(-n) else Digits(n)
  }

  /** Reads back what Decimal writes: an optional '-' and at least one digit. */
  function ParseDecimal(s: string): Option<int>
  {
    if |s| >= 2 && s[0] == '-' && AllDigits(s[1..]) then Some(-(ParseDigits(s[1..]) as int))
    else if |s| >= 1 && AllDigits(s) then Some(ParseDigits(s))
    else None
  }

  function Pow10(n: nat): (p: nat)
    ensures p >= 1
  {
    if n == 0 then 1 else 10 * Pow10(n - 1)
  }

  lemma FractionNonNegative(n: nat, d: nat)
    requires d >= 1
    ensures n as real / d as real >= 0.0
  {
  }

  /** float(s) for an unsigned decimal: digits, optionally a '.' and more
      digits, with at least one digit in all. */
  function ParseUnsignedFloat(s: string): (r: Option<real>)
    ensures AllDigits(s) && s != [] ==> r == Some(ParseDigits(s) as real)
    ensures r.Some? ==> r.value >= 0.0
  {
    var whole := TakeUntil(s, '.');
    if |whole| == |s| then
      (if s != [] && AllDigits(s) then Some(ParseDigits(s) as real) else None)
    else
      var frac := s[|whole| + 1..];
      if AllDigits(whole) && AllDigits(frac) && |whole| + |frac| >= 1 then
        FractionNonNegative(ParseDigits(frac), Pow10(|frac|));
        Some(ParseDigits(whole) as real + ParseDigits(frac) as real / Pow10(|frac|) as real)
      else None
  }

  /** Python's float(s) for a decimal string: an optional '-' and an unsigned
      decimal with an optional fraction. */
  function ParseFloat(s: string): (r: Option<real>)
    ensures r.Some? ==> forall i :: 0 <= i < |s| ==> IsDigit(s[i]) || s[i] == '-' || s[i] == '.'
    ensures AllDigits(s) && s != [] ==> r == Some(ParseDigits(s) as real)
  {
    if s != [] && s[0] == '-' then
      match ParseUnsignedFloat(s[1..])
      case Some(x) => Some(-x)
      case None => None
    else ParseUnsignedFloat(s)
  }

  /** float() reads back any integer str() writes. */
  lemma ParseFloatOfDecimal(n: int)
    ensures ParseFloat(Decimal(n)) == Some(n as real)
  {
    if n < 0 {
      var s := Decimal(n);
      assert s[1..] == Digits(-n);
      ParseDigitsOfDigits(-n);
    } else {
      ParseDigitsOfDigits(n);
    }
  }

  lemma {:induction false} DecimalRoundTrip(n: int)
    ensures ParseDecimal(Decimal(n)) == Some(n)
  {
    var s := Decimal(n);
    if n < 0 {
      var d := Digits(-n);
      assert s == "-" + d;
      assert s[1..] == d;
      ParseDigitsOfDigits(-n);
      assert ParseDigits(s[1..]) == -n;
    } else {
      assert s == Digits(n);
      assert IsDigit(s[0]);
      ParseDigitsOfDigits(n);
    }
  }

  lemma DecimalInjective(a: int, b: int)
    requires Decimal(a) == Decimal(b)
    ensures a == b
  {
    DecimalRoundTrip(a);
    DecimalRoundTrip(b);
  }

  lemma DecimalOfNatHasNoSign(n: nat)
    ensures Decimal(n) == Digits(n) && '-' !in Decimal(n)
  {
    var s := Digits(n);
    assert forall i :: 0 <= i < |s| ==> s[i] != '-';
  }

  // ---------------------------------------------------------------------------
  // Case, replacement and removal
  // ---------------------------------------------------------------------------

  predicate IsUpper(c: char) { 'A' <= c <= 'Z' }

  function LowerChar(c: char): (d: char)
    ensures !IsUpper(d)
    ensures !IsUpper(c) ==> d == c
  {
    if IsUpper(c) then (c as int + 32) as char else c
  }

  /** str.lower(), for ASCII letters. */
  function Lower(s: string): (r: string)
    ensures |r| == |s|
    ensures forall i :: 0 <= i < |s| ==> r[i] == LowerChar(s[i])
  {
    seq(|s|, i requires 0 <= i < |s| => LowerChar(s[i]))
  }

  /** str.replace(a, b) for single characters a and b. */
  function ReplaceChar(s: string, a: char, b: char): (r: string)
    ensures |r| == |s|
    ensures forall i :: 0 <= i < |s| ==> r[i] == (if s[i] == a then b else s[i])
  {
    seq(|s|, i requires 0 <= i < |s| => if s[i] == a then b else s[i])
  }

  /** Replacement works piece by piece. */
  lemma ReplaceCharAppend(x: string, y: string, a: char, b: char)
    ensures ReplaceChar(x + y, a, b) == ReplaceChar(x, a, b) + ReplaceChar(y, a, b)
  {
  }

  /** str.replace(c, ""): every occurrence of c removed, the rest kept in order. */
  function RemoveChar(s: string, c: char): (r: string)
    ensures c !in r
    ensures |r| <= |s|
    ensures forall d :: d != c ==> (d in r <==> d in s)
    decreases |s|
  {
    if s == [] then []
    else if s[0] == c then RemoveChar(s[1..], c)
    else [s[0]] + RemoveChar(s[1..], c)
  }

  /** Exactly the occurrences of c go: every other character keeps its
      count. */
  lemma {:induction false} RemoveCharCounts(s: string, c: char)
    ensures multiset(RemoveChar(s, c)) == multiset(s)[c := 0]
    decreases |s|
  {
    if s != [] {
      assert s == [s[0]] + s[1..];
      RemoveCharCounts(s[1..], c);
    }
  }

  /** Removal works piece by piece, so the characters kept stay in order. */
  lemma {:induction false} RemoveCharAppend(a: string, b: string, c: char)
    ensures RemoveChar(a + b, c) == RemoveChar(a, c) + RemoveChar(b, c)
    decreases |a|
  {
    if a == [] {
      assert a + b == b;
    } else {
      assert (a + b)[1..] == a[1..] + b;
      RemoveCharAppend(a[1..], b, c);
    }
  }

  /** Removal on one character: c disappears, anything else stays. */
  lemma RemoveCharSingle(d: char, c: char)
    ensures RemoveChar([d], c) == if d == c then [] else [d]
  {
    assert [d][1..] == [];
  }

  /** Lowering works piece by piece. */
  lemma LowerAppend(a: string, b: string)
    ensures Lower(a + b) == Lower(a) + Lower(b)
  {
  }

  lemma {:induction false} RemoveCharAbsent(s: string, c: char)
    requires c !in s
    ensures RemoveChar(s, c) == s
    decreases |s|
  {
    if s != [] {
      assert s[0] != c;
      RemoveCharAbsent(s[1..], c);
      assert [s[0]] + s[1..] == s;
    }
  }

  lemma LowerIdempotent(s: string)
    ensures Lower(Lower(s)) == Lower(s)
  {
  }

  /** A string without upper-case letters is its own lower-case form. */
  lemma LowerOfLowerCase(s: string)
    requires forall i :: 0 <= i < |s| ==> !IsUpper(s[i])
    ensures Lower(s) == s
  {
  }

  /** After replacing a by another character no a is left. */
  lemma ReplaceCharRemoves(s: string, a: char, b: char)
    requires a != b
    ensures a !in ReplaceChar(s, a, b)
  {
    var r := ReplaceChar(s, a, b);
    forall i | 0 <= i < |r| ensures r[i] != a {
    }
  }

  // ---------------------------------------------------------------------------
  // Prefixes, splitting and stripping
  // ---------------------------------------------------------------------------

  predicate StartsWith(s: string, prefix: string)
  {
    |prefix| <= |s| && s[..|prefix|] == prefix
  }

  /** The longest prefix of s without c. */
  function TakeUntil(s: string, c: char): (r: string)
    ensures |r| <= |s| && r == s[..|r|] && c !in r
    ensures |r| < |s| ==> s[|r|] == c
    decreases |s|
  {
    if s == [] || s[0] == c then [] else [s[0]] + TakeUntil(s[1..], c)
  }

  lemma {:induction false} TakeUntilPrefix(a: string, c: char, b: string)
    requires c !in a
    ensures TakeUntil(a + [c] + b, c) == a
    decreases |a|
  {
    if a != [] {
      assert (a + [c] + b)[1..] == a[1..] + [c] + b;
      TakeUntilPrefix(a[1..], c, b);
    }
  }


  /** The text before the first separator is the first piece of a split. */
  lemma {:induction false} SplitFirstPiece(s: string, c: char)
    ensures Split(s, c)[0] == TakeUntil(s, c)
    decreases |s|
  {
    if s != [] && s[0] != c {
      SplitFirstPiece(s[1..], c);
    }
  }

  /** The second piece of a split is the text after the first separator up
      to the next one. */
  lemma SplitSecondPiece(s: string, c: char)
    requires c in s
    ensures |TakeUntil(s, c)| < |s|
    ensures |Split(s, c)| >= 2
    ensures Split(s, c)[1] == TakeUntil(s[|TakeUntil(s, c)| + 1..], c)
  {
    var a := TakeUntil(s, c);
    var rest := s[|a| + 1..];
    assert s == a + [c] + rest;
    SplitAtFirst(a, c, rest);
    SplitFirstPiece(rest, c);
  }

  /** str.split(c) with an explicit one-character separator: the pieces between
      separators, empty pieces included, so that there is always one more piece
      than there are separators. */
  function Split(s: string, c: char): (parts: seq<string>)
    ensures |parts| >= 1
    decreases |s|
  {
    if s == [] then [""]
    else
      var rest := Split(s[1..], c);
      if s[0] == c then [""] + rest else [[s[0]] + rest[0]] + rest[1..]
  }

  /** c.join(parts), the inverse of Split. */
  function Join(parts: seq<string>, c: char): string
    requires |parts| >= 1
    decreases |parts|
  {
    if |parts| == 1 then parts[0] else parts[0] + [c] + Join(parts[1..], c)
  }

  lemma {:induction false} SplitPiecesAvoidSeparator(s: string, c: char)
    ensures forall i :: 0 <= i < |Split(s, c)| ==> c !in Split(s, c)[i]
    decreases |s|
  {
    if s != [] {
      SplitPiecesAvoidSeparator(s[1..], c);
      var rest := Split(s[1..], c);
      if s[0] != c {
        var parts := Split(s, c);
        assert parts[0] == [s[0]] + rest[0];
        forall i | 1 <= i < |parts| ensures c !in parts[i] {
          assert parts[i] == rest[i];
        }
      }
    }
  }

  lemma {:induction false} JoinSplit(s: string, c: char)
    ensures Join(Split(s, c), c) == s
    decreases |s|
  {
    if s != [] {
      JoinSplit(s[1..], c);
      var rest := Split(s[1..], c);
      if s[0] == c {
        assert Split(s, c)[1..] == rest;
        assert [c] + Join(rest, c) == s;
      } else {
        var parts := Split(s, c);
        assert parts[1..] == rest[1..];
        if |rest| == 1 {
          assert Join(parts, c) == [s[0]] + rest[0];
        } else {
          assert Join(parts, c) == [s[0]] + rest[0] + [c] + Join(rest[1..], c);
        }
        assert [s[0]] + s[1..] == s;
      }
    }
  }

  /** There is a second piece exactly when the separator occurs. */
  lemma {:induction false} SplitHasSecondPiece(s: string, c: char)
    ensures |Split(s, c)| >= 2 <==> c in s
    decreases |s|
  {
    if s != [] {
      SplitHasSecondPiece(s[1..], c);
      if s[0] != c {
        assert c in s <==> c in s[1..];
      }
    }
  }

  /** A string without the separator is a single piece. */
  lemma {:induction false} SplitWithoutSeparator(s: string, c: char)
    requires c !in s
    ensures Split(s, c) == [s]
    decreases |s|
  {
    if s != [] {
      SplitWithoutSeparator(s[1..], c);
      assert [s[0]] + s[1..] == s;
    }
  }

  /** The text before the first separator is the first piece. */
  lemma {:induction false} SplitAtFirst(a: string, c: char, b: string)
    requires c !in a
    ensures Split(a + [c] + b, c) == [a] + Split(b, c)
    decreases |a|
  {
    var s := a + [c] + b;
    if a == [] {
      assert s[1..] == b;
    } else {
      assert s[1..] == a[1..] + [c] + b;
      SplitAtFirst(a[1..], c, b);
      assert [a[0]] + a[1..] == a;
    }
  }

  function StripLeft(s: string, cs: set<char>): (r: string)
    ensures |r| <= |s| && r == s[|s| - |r|..]
    ensures r != [] ==> r[0] !in cs
    ensures forall i :: 0 <= i < |s| - |r| ==> s[i] in cs
    decreases |s|
  {
    if s != [] && s[0] in cs then StripLeft(s[1..], cs) else s
  }

  function StripRight(s: string, cs: set<char>): (r: string)
    ensures |r| <= |s| && r == s[..|r|]
    ensures r != [] ==> r[|r| - 1] !in cs
    ensures forall i :: |r| <= i < |s| ==> s[i] in cs
    decreases |s|
  {
    if s != [] && s[|s| - 1] in cs then StripRight(s[..|s| - 1], cs) else s
  }

  /** r is the slice of s that starts at i, and every character of s
      before or after that slice is in cs. */
  predicate TrimmedAt(s: string, cs: set<char>, i: int, r: string)
  {
    && 0 <= i && i + |r| <= |s| && r == s[i..][..|r|]
    && (forall k :: 0 <= k < i ==> s[k] in cs)
    && (forall k :: i + |r| <= k < |s| ==> s[k] in cs)
  }

  /** str.strip(chars): both ends trimmed of characters in cs. The result is
      a middle slice with only characters of cs cut off on either side, and
      it neither starts nor ends with one. */
  function Strip(s: string, cs: set<char>): (r: string)
    ensures |r| <= |s|
    ensures r != [] ==> r[0] !in cs && r[|r| - 1] !in cs
    ensures TrimmedAt(s, cs, |s| - |StripLeft(s, cs)|, r)
  {
    StripIsSlice(s, cs);
    StripRight(StripLeft(s, cs), cs)
  }

  lemma {:induction false} StripIsSlice(s: string, cs: set<char>)
    ensures TrimmedAt(s, cs, |s| - |StripLeft(s, cs)|, StripRight(StripLeft(s, cs), cs))
  {
    var l := StripLeft(s, cs);
    var r := StripRight(l, cs);
    var i := |s| - |l|;
    assert r == s[i..][..|r|];
    RunInSuffix(s, l, |r|, cs);
  }

  /** A run of cs characters at the end of a suffix l of s is one of s. */
  lemma RunInSuffix(s: string, l: string, n: nat, cs: set<char>)
    requires |l| <= |s| && l == s[|s| - |l|..]
    requires n <= |l| && forall k :: n <= k < |l| ==> l[k] in cs
    ensures forall k :: |s| - |l| + n <= k < |s| ==> s[k] in cs
  {
    forall k | |s| - |l| + n <= k < |s|
      ensures s[k] in cs
    {
      assert s[k] == l[k - (|s| - |l|)];
    }
  }

  /** The independent reading of strip: whatever lies between a run of cs
      characters on each side, and neither starts nor ends with one, is the
      result. */
  lemma StripOfTrimmed(a: string, m: string, b: string, cs: set<char>)
    requires forall k :: 0 <= k < |a| ==> a[k] in cs
    requires forall k :: 0 <= k < |b| ==> b[k] in cs
    requires m != [] ==> m[0] !in cs && m[|m| - 1] !in cs
    ensures Strip(a + m + b, cs) == m
  {
    if m == [] {
      assert a + m + b == (a + b) + [];
      assert forall k :: 0 <= k < |a + b| ==> (a + b)[k] in cs;
      StripLeftRun(a + b, [], cs);
    } else {
      assert a + m + b == a + (m + b);
      StripLeftRun(a, m + b, cs);
      StripRightRun(m, b, cs);
    }
  }

  lemma {:induction false} StripLeftRun(a: string, t: string, cs: set<char>)
    requires forall k :: 0 <= k < |a| ==> a[k] in cs
    requires t != [] ==> t[0] !in cs
    ensures t != [] ==> StripLeft(a + t, cs) == t
    ensures t == [] ==> StripLeft(a + t, cs) == []
    decreases |a|
  {
    if a != [] {
      assert (a + t)[1..] == a[1..] + t;
      StripLeftRun(a[1..], t, cs);
    } else {
      assert a + t == t;
    }
  }

  lemma {:induction false} StripRightRun(t: string, b: string, cs: set<char>)
    requires forall k :: 0 <= k < |b| ==> b[k] in cs
    requires t != [] ==> t[|t| - 1] !in cs
    ensures StripRight(t + b, cs) == t
    decreases |b|
  {
    if b != [] {
      var s := t + b;
      assert s[..|s| - 1] == t + b[..|b| - 1];
      StripRightRun(t, b[..|b| - 1], cs);
    } else {
      assert t + b == t;
    }
  }

  /** Every character Strip keeps comes from its input. */
  lemma StripKeepsCharacters(s: string, cs: set<char>)
    ensures forall i :: 0 <= i < |Strip(s, cs)| ==> Strip(s, cs)[i] in s
  {
    var r := Strip(s, cs);
    var i := |s| - |StripLeft(s, cs)|;
    forall k | 0 <= k < |r| ensures r[k] in s {
      assert r[k] == s[i..][k] == s[i + k];
    }
  }

  /** A trailing character that is stripped anyway changes nothing. */
  lemma StripRightAppend(s: string, c: char, cs: set<char>)
    requires c in cs
    ensures StripRight(s + [c], cs) == StripRight(s, cs)
  {
    assert (s + [c])[..|s|] == s;
  }

  /** The characters Python's str.strip() removes by default (ASCII part). */
  const Whitespace: set<char> := {' ', '\t', '\n', '\r', '\U{0B}', '\U{0C}', '\U{1C}', '\U{1D}', '\U{1E}', '\U{1F}'}
}
