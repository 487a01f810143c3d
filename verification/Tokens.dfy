/** What the tokens of a command line look like, and what each kind of them is
    masked as: the forms spelled out piece by piece. */
module Tokens {
  import opened Cmdline

  predicate DigitsOnly(t: string) {
    forall i :: 0 <= i < |t| ==> '0' <= t[i] <= '9'
  }

  predicate HexOnly(t: string) {
    forall i :: 0 <= i < |t| ==> '0' <= t[i] <= '9' || 'a' <= t[i] <= 'f' || 'A' <= t[i] <= 'F'
  }

  // ---- Splitting

  /** White space before a word, and between words, is not part of any. */
  lemma {:induction false} SplitsAtSpaces(spaces: string, word: string, rest: string)
    requires forall i :: 0 <= i < |spaces| ==> IsSpace(spaces[i])
    requires IsWord(word) && (rest == "" || IsSpace(rest[0]))
    ensures Split(spaces) == [] && Split(spaces + word + rest) == [word] + Split(rest)
    decreases |spaces|
  {
    if spaces == "" {
      assert spaces + word + rest == word + rest;
      WordLengthIs(word, rest);
      assert (word + rest)[..|word|] == word && (word + rest)[|word|..] == rest;
    } else {
      assert (spaces + word + rest)[1..] == spaces[1..] + word + rest;
      SplitsAtSpaces(spaces[1..], word, rest);
    }
  }

  // ---- UUIDs

  /** Hexadecimal groups of 8, 4, 4, 4 and 12, hyphens between them. */
  ghost predicate UuidText(t: string) {
    exists a, b, c, d, e :: UuidGroups(t, a, b, c, d, e)
  }

  ghost predicate UuidGroups(t: string, a: string, b: string, c: string, d: string, e: string) {
    && t == a + "-" + b + "-" + c + "-" + d + "-" + e
    && |a| == 8 && |b| == 4 && |c| == 4 && |d| == 4 && |e| == 12
    && HexOnly(a) && HexOnly(b) && HexOnly(c) && HexOnly(d) && HexOnly(e)
  }

  lemma UuidIs(t: string)
    ensures IsUuid(t) <==> UuidText(t)
  {
    if IsUuid(t) {
      var a, b, c, d, e := t[..8], t[9..13], t[14..18], t[19..23], t[24..];
      assert t == a + "-" + b + "-" + c + "-" + d + "-" + e;
      assert UuidGroups(t, a, b, c, d, e);
    }
    if UuidText(t) {
      var a, b, c, d, e :| UuidGroups(t, a, b, c, d, e);
      UuidPlaces(t, a, b, c, d, e);
    }
  }

  lemma UuidPlaces(t: string, a: string, b: string, c: string, d: string, e: string)
    requires UuidGroups(t, a, b, c, d, e)
    ensures IsUuid(t)
  {
    assert |t| == 36;
    forall i | 0 <= i < 36
      ensures if i in {8, 13, 18, 23} then t[i] == '-' else IsHexDigit(t[i])
    {
      if i < 8 {
        assert t[i] == a[i];
      } else if 9 <= i < 13 {
        assert t[i] == b[i - 9];
      } else if 14 <= i < 18 {
        assert t[i] == c[i - 14];
      } else if 19 <= i < 23 {
        assert t[i] == d[i - 19];
      } else if 24 <= i {
        assert t[i] == e[i - 24];
      }
    }
  }

  // ---- Numbers

  /** A sign or none. */
  predicate Sign(t: string) {
    t == "" || t == "+" || t == "-"
  }

  /** An exponent: a letter e, a sign or none, and digits. */
  predicate ExponentText(t: string, sign: string, digits: string) {
    && (t == "e" + (sign + digits) || t == "E" + (sign + digits))
    && Sign(sign) && digits != "" && DigitsOnly(digits)
  }

  ghost predicate MaybeExponent(t: string) {
    t == "" || exists sign, digits :: ExponentText(t, sign, digits)
  }

  /** A sign or none, digits, and an exponent or none. */
  ghost predicate Integral(t: string, sign: string, whole: string, exponent: string) {
    && t == sign + (whole + exponent)
    && Sign(sign) && DigitsOnly(whole) && whole != "" && MaybeExponent(exponent)
  }

  /** The same with a point, and digits before it or after it. */
  ghost predicate Pointed(t: string, sign: string, whole: string, part: string, exponent: string) {
    && t == sign + (whole + ("." + (part + exponent)))
    && Sign(sign) && DigitsOnly(whole) && DigitsOnly(part) && 0 < |whole| + |part| && MaybeExponent(exponent)
  }

  /** The letters of `word`, in either case. */
  predicate Spells(t: string, word: string) {
    && |t| == |word|
    && forall i :: 0 <= i < |t| ==> t[i] == word[i] || (word[i] > ' ' && t[i] as int == word[i] as int - 32)
  }

  /** What is read as a number: digits with or without a point, or an infinity or NaN
      with a sign or none. */
  ghost predicate NumberText(t: string) {
    || (exists sign, whole, exponent :: Integral(t, sign, whole, exponent))
    || (exists sign, whole, part, exponent :: Pointed(t, sign, whole, part, exponent))
    || (exists sign, word :: Named(t, sign, word))
  }

  predicate Named(t: string, sign: string, word: string) {
    t == sign + word && Sign(sign) && (Spells(word, "inf") || Spells(word, "infinity") || Spells(word, "nan"))
  }

  lemma {:induction false} DigitsAre(t: string)
    ensures DigitsOnly(t[..Digits(t)]) && (Digits(t) < |t| ==> !IsDigit(t[Digits(t)]))
    decreases |t|
  {
    if t != "" && IsDigit(t[0]) {
      DigitsAre(t[1..]);
      assert t[..Digits(t)] == [t[0]] + t[1..][..Digits(t[1..])];
    }
  }

  lemma {:induction false} DigitsUpTo(digits: string, rest: string)
    requires DigitsOnly(digits) && (rest == "" || !IsDigit(rest[0]))
    ensures Digits(digits + rest) == |digits|
    decreases |digits|
  {
    if digits == "" {
      assert digits + rest == rest;
    } else {
      assert (digits + rest)[1..] == digits[1..] + rest;
      DigitsUpTo(digits[1..], rest);
    }
  }

  lemma SignSplits(t: string) returns (sign: string)
    ensures Sign(sign) && t == sign + Unsigned(t)
  {
    sign := t[..|t| - |Unsigned(t)|];
  }

  lemma Unsigns(sign: string, rest: string)
    requires Sign(sign) && (rest == "" ==> sign == "") && (rest != "" ==> rest[0] != '+' && rest[0] != '-')
    ensures Unsigned(sign + rest) == rest
  {
    if sign == "" {
      assert sign + rest == rest;
    } else {
      assert (sign + rest)[1..] == rest;
    }
  }

  lemma ExponentReads(t: string, s: string, digits: string)
    requires ExponentText(t, s, digits)
    ensures IsExponent(t)
  {
    assert t[1..] == s + digits;
    Unsigns(s, digits);
    DigitsUpTo(digits, "");
    assert digits + "" == digits;
  }

  lemma ExponentFound(t: string) returns (s: string, digits: string)
    requires t != "" && IsExponent(t)
    ensures ExponentText(t, s, digits)
  {
    digits := Unsigned(t[1..]);
    s := SignSplits(t[1..]);
    DigitsAre(digits);
    assert digits[..|digits|] == digits;
    hide Unsigned, Digits;
    assert t == [t[0]] + t[1..];
    assert t == [t[0]] + (s + digits);
  }

  lemma ExponentIs(t: string)
    ensures IsExponent(t) <==> MaybeExponent(t)
    ensures MaybeExponent(t) && t != "" ==> t[0] != '.' && !IsDigit(t[0])
  {
    NoExponent();
    if t != "" && IsExponent(t) {
      hide IsExponent;
      var s, digits := ExponentFound(t);
    }
    if s, digits :| ExponentText(t, s, digits) {
      ExponentReads(t, s, digits);
      hide IsExponent;
    }
  }

  lemma NoExponent()
    ensures IsExponent("")
  {
  }

  predicate Unnamed(u: string) {
    LowerAll(u) !in {"inf", "infinity", "nan"}
  }

  /** Reading on after the sign and the first digits. */
  lemma FloatFrom(t: string, whole: string, after: string)
    requires Unsigned(t) == whole + after && Digits(whole + after) == |whole|
    ensures Unnamed(whole + after) && (after == "" || after[0] != '.') ==>
      (IsFloat(t) <==> whole != "" && IsExponent(after))
    ensures Unnamed(whole + after) && after != "" && after[0] == '.' ==>
      (IsFloat(t) <==>
       var part := Digits(after[1..]); 0 < |whole| + part && IsExponent(after[1..][part..]))
  {
    assert (whole + after)[|whole|..] == after;
    hide Unsigned, Digits, IsExponent, LowerAll;
  }

  lemma {:induction false} LowersFirst(t: string)
    requires t != ""
    ensures LowerAll(t) != "" && LowerAll(t)[0] == Lower(t[0])
  {
  }

  /** Digits and points begin no name. */
  lemma NotNamed(u: string)
    requires u != "" && (IsDigit(u[0]) || u[0] == '.')
    ensures Unnamed(u)
  {
    LowersFirst(u);
    hide LowerAll;
    assert "inf"[0] == 'i' && "infinity"[0] == 'i' && "nan"[0] == 'n';
  }

  lemma PointFloat(t: string, sign: string, whole: string, part: string, exponent: string)
    requires Pointed(t, sign, whole, part, exponent)
    ensures IsFloat(t)
  {
    var after := "." + (part + exponent);
    assert after[0] == '.' && after[1..] == part + exponent;
    assert (whole + after)[0] == if whole == "" then '.' else whole[0];
    ExponentIs(exponent);
    Unsigns(sign, whole + after);
    NotNamed(whole + after);
    DigitsUpTo(whole, after);
    FloatFrom(t, whole, after);
    DigitsUpTo(part, exponent);
    hide *;
    assert (part + exponent)[|part|..] == exponent;
  }

  lemma IntegralFloat(t: string, sign: string, whole: string, exponent: string)
    requires Integral(t, sign, whole, exponent)
    ensures IsFloat(t)
  {
    assert (whole + exponent)[0] == whole[0];
    ExponentIs(exponent);
    Unsigns(sign, whole + exponent);
    NotNamed(whole + exponent);
    DigitsUpTo(whole, exponent);
    FloatFrom(t, whole, exponent);
    hide *;
  }

  predicate IsPointed(t: string) {
    t != "" && t[0] == '.'
  }

  lemma FloatParts(t: string) returns (sign: string, whole: string, after: string)
    requires IsFloat(t) && Unnamed(Unsigned(t))
    ensures t == sign + (whole + after) && Sign(sign) && DigitsOnly(whole)
    ensures !IsPointed(after) ==> whole != "" && IsExponent(after)
    ensures IsPointed(after) ==> 0 < |whole| + Digits(after[1..]) && IsExponent(after[1..][Digits(after[1..])..])
  {
    var u := Unsigned(t);
    sign := SignSplits(t);
    whole, after := u[..Digits(u)], u[Digits(u)..];
    DigitsAre(u);
    assert u == whole + after;
    FloatFrom(t, whole, after);
    hide IsFloat, Unsigned, Unnamed, IsExponent, DigitsOnly, Sign, Digits;
  }

  lemma FloatFound(t: string)
    requires IsFloat(t) && Unnamed(Unsigned(t))
    ensures NumberText(t)
  {
    var sign, whole, after := FloatParts(t);
    hide IsFloat, Unsigned, Unnamed, IsExponent, DigitsOnly, Sign, NumberText, Digits;
    if IsPointed(after) {
      var part := Digits(after[1..]);
      DigitsAre(after[1..]);
      PointFound(t, sign, whole, after, after[1..][..part], after[1..][part..]);
    } else {
      IntegralFound(t, sign, whole, after);
    }
  }

  lemma IntegralFound(t: string, sign: string, whole: string, exponent: string)
    requires t == sign + (whole + exponent) && Sign(sign) && DigitsOnly(whole) && whole != "" && IsExponent(exponent)
    ensures NumberText(t)
  {
    ExponentIs(exponent);
    hide IsExponent, MaybeExponent;
    assert Integral(t, sign, whole, exponent);
  }

  lemma PointFound(t: string, sign: string, whole: string, after: string, part: string, exponent: string)
    requires t == sign + (whole + after) && Sign(sign) && DigitsOnly(whole) && DigitsOnly(part)
    requires after != "" && after[0] == '.' && after[1..] == part + exponent && 0 < |whole| + |part|
    requires IsExponent(exponent)
    ensures NumberText(t)
  {
    ExponentIs(exponent);
    hide IsExponent, MaybeExponent, DigitsOnly, Sign;
    assert after == "." + (part + exponent);
    assert Pointed(t, sign, whole, part, exponent);
  }

  lemma {:induction false} LowersTo(t: string, word: string)
    requires forall i :: 0 <= i < |word| ==> 'a' <= word[i] <= 'z'
    ensures LowerAll(t) == word <==> Spells(t, word)
    decreases |t|
  {
    if t != "" && word != "" {
      LowersTo(t[1..], word[1..]);
      assert LowerAll(t) == [Lower(t[0])] + LowerAll(t[1..]);
      assert word == [word[0]] + word[1..];
      assert Lower(t[0]) == word[0] <==> t[0] == word[0] || t[0] as int == word[0] as int - 32;
      if Spells(t, word) {
        assert Spells(t[1..], word[1..]);
      }
    }
  }

  lemma NamesAre(t: string)
    ensures LowerAll(t) in {"inf", "infinity", "nan"} <==> Spells(t, "inf") || Spells(t, "infinity") || Spells(t, "nan")
  {
    LowersTo(t, "inf");
    LowersTo(t, "infinity");
    LowersTo(t, "nan");
  }

  /** The parser of numbers accepts these texts and no others. */
  lemma FloatIs(t: string)
    ensures IsFloat(t) <==> NumberText(t)
  {
    if IsFloat(t) {
      FloatAccepts(t);
    }
    hide IsFloat, Integral, Pointed, Named;
    if NumberText(t) {
      if sign, whole, exponent :| Integral(t, sign, whole, exponent) {
        IntegralFloat(t, sign, whole, exponent);
      } else if sign, whole, part, exponent :| Pointed(t, sign, whole, part, exponent) {
        PointFloat(t, sign, whole, part, exponent);
      } else {
        var sign, word :| Named(t, sign, word);
        NameFloat(t, sign, word);
      }
    }
  }

  lemma FloatAccepts(t: string)
    requires IsFloat(t)
    ensures NumberText(t)
  {
    NamesAre(Unsigned(t));
    if LowerAll(Unsigned(t)) in {"inf", "infinity", "nan"} {
      hide LowerAll, IsFloat, Unsigned, Spells;
      var sign := SignSplits(t);
      assert Named(t, sign, Unsigned(t));
    } else {
      FloatFound(t);
    }
  }

  lemma NameFloat(t: string, sign: string, word: string)
    requires Named(t, sign, word)
    ensures IsFloat(t)
  {
    assert "inf"[0] == 'i' && "infinity"[0] == 'i' && "nan"[0] == 'n';
    Unsigns(sign, word);
    NamesAre(word);
    hide LowerAll, Unsigned, Digits, IsExponent;
  }

  // ---- Masks

  /** What a token is masked as: an assignment keeps its name, and of the rest a
      UUID, a path under `/tmp/` or `/proc/`, and a number, in that order, become
      placeholders; any other is left alone. */
  lemma MasksAs(t: string, name: string, value: string)
    ensures t == name + "=" + value && '=' !in name ==> Mask(t) == name + "=<v>"
    ensures '=' !in t ==>
      Mask(t) == if UuidText(t) then "<uuid>"
                 else if "/tmp/" <= t || "/proc/" <= t then "<path>"
                 else if NumberText(t) then "<n>"
                 else t
  {
    UuidIs(t);
    FloatIs(t);
    hide IsUuid, IsFloat, UuidText, NumberText;
    if t == name + "=" + value && '=' !in name {
      EqualsFound(name, value);
      assert t[..|name|] == name;
    }
    if '=' !in t {
      NoEquals(t);
    }
  }
}
