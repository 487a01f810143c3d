/** Command-line normalisation: tokens that vary from one launch of a program to
    the next are masked before the line becomes part of an identity's key. */
module Cmdline {

  // ---- Tokens

  /** Unicode's White_Space property. */
  predicate IsSpace(c: char) {
    || '\U{0009}' <= c <= '\U{000D}' || c == ' ' || c == '\U{0085}' || c == '\U{00A0}' || c == '\U{1680}'
    || '\U{2000}' <= c <= '\U{200A}' || c == '\U{2028}' || c == '\U{2029}' || c == '\U{202F}' || c == '\U{205F}'
    || c == '\U{3000}'
  }

  predicate IsWord(t: string) {
    t != "" && forall i :: 0 <= i < |t| ==> !IsSpace(t[i])
  }

  predicate AreWords(ts: seq<string>) {
    forall i :: 0 <= i < |ts| ==> IsWord(ts[i])
  }

  function WordLength(s: string): (n: nat)
    ensures n <= |s|
    ensures forall i :: 0 <= i < n ==> !IsSpace(s[i])
    ensures n < |s| ==> IsSpace(s[n])
  {
    if s == "" || IsSpace(s[0]) then 0 else 1 + WordLength(s[1..])
  }

  /** `split_whitespace`. */
  function Split(s: string): (ts: seq<string>)
    ensures AreWords(ts)
    decreases |s|
  {
    if s == "" then []
    else if IsSpace(s[0]) then Split(s[1..])
    else
      var n := WordLength(s);
      [s[..n]] + Split(s[n..])
  }

  /** `join(" ")`. */
  function Join(ts: seq<string>): string {
    if |ts| == 0 then "" else if |ts| == 1 then ts[0] else ts[0] + " " + Join(ts[1..])
  }

  lemma {:induction false} WordLengthIs(t: string, rest: string)
    requires IsWord(t) && (rest == "" || IsSpace(rest[0]))
    ensures WordLength(t + rest) == |t|
    decreases |t|
  {
    assert (t + rest)[1..] == t[1..] + rest;
    if |t| > 1 {
      WordLengthIs(t[1..], rest);
    } else {
      assert t[1..] + rest == rest;
    }
  }

  /** Splitting undoes joining, for words. */
  lemma {:induction false} SplitJoin(ts: seq<string>)
    requires AreWords(ts)
    ensures Split(Join(ts)) == ts
    decreases |ts|
  {
    if |ts| == 1 {
      assert ts[0] + "" == ts[0];
      WordLengthIs(ts[0], "");
      assert ts[0][..|ts[0]|] == ts[0] && ts[0][|ts[0]|..] == "";
      assert ts == [ts[0]];
    } else if |ts| > 1 {
      var rest := " " + Join(ts[1..]);
      assert Join(ts) == ts[0] + rest;
      WordLengthIs(ts[0], rest);
      assert (ts[0] + rest)[..|ts[0]|] == ts[0] && (ts[0] + rest)[|ts[0]|..] == rest;
      assert rest[1..] == Join(ts[1..]);
      SplitJoin(ts[1..]);
      assert ts == [ts[0]] + ts[1..];
    }
  }

  // ---- Masking

  /** The position of the first `=`, or the length. */
  function EqualsAt(t: string): (n: nat)
    ensures n <= |t|
    ensures forall i :: 0 <= i < n ==> t[i] != '='
    ensures n < |t| ==> t[n] == '='
  {
    if t == "" || t[0] == '=' then 0 else 1 + EqualsAt(t[1..])
  }

  predicate IsDigit(c: char) {
    '0' <= c <= '9'
  }

  predicate IsHexDigit(c: char) {
    IsDigit(c) || 'a' <= c <= 'f' || 'A' <= c <= 'F'
  }

  predicate IsUuid(t: string) {
    && |t| == 36
    && forall i :: 0 <= i < 36 ==> if i in {8, 13, 18, 23} then t[i] == '-' else IsHexDigit(t[i])
  }

  function Digits(t: string): (n: nat)
    ensures n <= |t|
  {
    if t == "" || !IsDigit(t[0]) then 0 else 1 + Digits(t[1..])
  }

  function Unsigned(t: string): string {
    if t != "" && (t[0] == '+' || t[0] == '-') then t[1..] else t
  }

  function Lower(c: char): char {
    if 'A' <= c <= 'Z' then c - 'A' + 'a' else c
  }

  function LowerAll(t: string): string {
    if t == "" then "" else [Lower(t[0])] + LowerAll(t[1..])
  }

  predicate IsExponent(t: string) {
    t == "" || ((t[0] == 'e' || t[0] == 'E') && Unsigned(t[1..]) != ""
        && Digits(Unsigned(t[1..])) == |Unsigned(t[1..])|)
  }

  /** What `parse::<f64>()` accepts: digits with an optional point and exponent,
      or an infinity or NaN, with an optional sign. */
  predicate IsFloat(t: string) {
    var u := Unsigned(t);
    var whole := Digits(u);
    var after := u[whole..];
    LowerAll(u) in {"inf", "infinity", "nan"}
    || if after != "" && after[0] == '.' then
         var part := Digits(after[1..]);
         0 < whole + part && IsExponent(after[1..][part..])
       else 0 < whole && IsExponent(after)
  }

  datatype Class = Assigned(name: string) | Uuid | ScratchPath | Number | Plain(text: string)

  predicate StartsWith(t: string, prefix: string) {
    prefix <= t
  }

  /** What kind of volatile token this is, if any; the first that fits. */
  function ClassOf(t: string): Class {
    if EqualsAt(t) < |t| then Assigned(t[..EqualsAt(t)])
    else if IsUuid(t) then Uuid
    else if StartsWith(t, "/tmp/") || StartsWith(t, "/proc/") then ScratchPath
    else if IsFloat(t) then Number
    else Plain(t)
  }

  function Mask(t: string): string {
    match ClassOf(t)
    case Assigned(name) => name + "=<v>"
    case Uuid => "<uuid>"
    case ScratchPath => "<path>"
    case Number => "<n>"
    case Plain(text) => text
  }

  function MaskAll(ts: seq<string>): (r: seq<string>)
    ensures |r| == |ts|
  {
    if ts == [] then [] else MaskAll(ts[..|ts| - 1]) + [Mask(ts[|ts| - 1])]
  }

  lemma {:induction false} MaskAllAt(ts: seq<string>, i: nat)
    requires i < |ts|
    ensures MaskAll(ts)[i] == Mask(ts[i])
    decreases |ts|
  {
    hide Mask;
    if i < |ts| - 1 {
      MaskAllAt(ts[..|ts| - 1], i);
    }
  }

  function Normalize(raw: string): string {
    Join(MaskAll(Split(raw)))
  }

  lemma MaskIsWord(t: string)
    requires IsWord(t)
    ensures IsWord(Mask(t))
  {
    hide IsFloat, IsUuid;
  }

  /** None of the placeholders would itself be masked. */
  lemma PlaceholdersArePlain()
    ensures ClassOf("<uuid>") == Plain("<uuid>")
    ensures ClassOf("<path>") == Plain("<path>")
    ensures ClassOf("<n>") == Plain("<n>")
  {
    hide *;
    PlaceholderIsPlain("<uuid>");
    PlaceholderIsPlain("<path>");
    PlaceholderIsPlain("<n>");
  }

  lemma PlaceholderIsPlain(t: string)
    requires t != "" && |t| < 36 && t[0] == '<' && forall i :: 0 <= i < |t| ==> t[i] != '='
    ensures ClassOf(t) == Plain(t)
  {
    NoEquals(t);
    NotFloat(t);
    assert !IsUuid(t);
    assert "/tmp/"[0] == '/' && "/proc/"[0] == '/';
    hide IsFloat, EqualsAt, IsUuid;
  }

  lemma NotFloat(t: string)
    requires t != "" && t[0] == '<'
    ensures !IsFloat(t)
  {
    assert Unsigned(t) == t && Digits(t) == 0 && t[0..] == t;
    assert LowerAll(t)[0] == '<';
    hide LowerAll, Digits, IsExponent;
    assert "inf"[0] == 'i' && "infinity"[0] == 'i' && "nan"[0] == 'n';
  }

  lemma NoEquals(t: string)
    requires forall i :: 0 <= i < |t| ==> t[i] != '='
    ensures EqualsAt(t) == |t|
  {
  }

  lemma {:induction false} EqualsFound(name: string, rest: string)
    requires forall i :: 0 <= i < |name| ==> name[i] != '='
    ensures EqualsAt(name + "=" + rest) == |name|
    decreases |name|
  {
    if name != "" {
      assert (name + "=" + rest)[1..] == name[1..] + "=" + rest;
      EqualsFound(name[1..], rest);
    }
  }

  /** Masking keeps an assignment's name, and leaves nothing else to mask. */
  lemma MaskClass(t: string)
    ensures ClassOf(Mask(t)) == if ClassOf(t).Assigned? then ClassOf(t) else Plain(Mask(t))
  {
    PlaceholdersArePlain();
    PlainIsItself(t);
    hide IsFloat, IsUuid, EqualsAt, StartsWith, ClassOf;
    match ClassOf(t)
    case Assigned(name) => AssignedMask(name) by { AssignedName(t); }
    case _ =>
  }

  lemma AssignedName(t: string)
    requires ClassOf(t).Assigned?
    ensures forall i :: 0 <= i < |ClassOf(t).name| ==> ClassOf(t).name[i] != '='
  {
    hide IsFloat, IsUuid;
  }

  lemma AssignedMask(name: string)
    requires forall i :: 0 <= i < |name| ==> name[i] != '='
    ensures ClassOf(name + "=<v>") == Assigned(name)
  {
    assert name + "=<v>" == name + "=" + "<v>";
    EqualsFound(name, "<v>");
    assert (name + "=<v>")[..|name|] == name;
    hide IsFloat, IsUuid, EqualsAt;
  }

  lemma MaskIdempotent(t: string)
    ensures Mask(Mask(t)) == Mask(t)
  {
    MaskClass(t);
    hide ClassOf;
  }

  /** The tokens of the result are the masked tokens, one for one. */
  lemma NormalizeTokens(raw: string)
    ensures Split(Normalize(raw)) == MaskAll(Split(raw))
  {
    hide Mask, Join, Split;
    var masked := MaskAll(Split(raw));
    forall i | 0 <= i < |masked|
      ensures IsWord(masked[i])
    {
      MaskAllAt(Split(raw), i);
      MaskIsWord(Split(raw)[i]);
    }
    SplitJoin(masked);
  }

  lemma NormalizeKeepsCount(raw: string)
    ensures |Split(Normalize(raw))| == |Split(raw)|
  {
    NormalizeTokens(raw);
  }

  /** Normalising again changes nothing. */
  lemma NormalizeIdempotent(raw: string)
    ensures Normalize(Normalize(raw)) == Normalize(raw)
  {
    hide Mask;
    NormalizeTokens(raw);
    var once := MaskAll(Split(raw));
    var twice := MaskAll(once);
    forall i | 0 <= i < |once|
      ensures twice[i] == once[i]
    {
      MaskAllAt(Split(raw), i);
      MaskAllAt(once, i);
      MaskIdempotent(Split(raw)[i]);
    }
    assert twice == once;
  }

  /** Two command lines normalise alike exactly when their tokens mask alike,
      one for one: `--port 3000` merges with `--port 3001`, and `npm run dev`
      stays apart from `npm run build`. */
  lemma MergesExactly(a: string, b: string)
    ensures Normalize(a) == Normalize(b)
       <==> |Split(a)| == |Split(b)| && forall i :: 0 <= i < |Split(a)| ==> Mask(Split(a)[i]) == Mask(Split(b)[i])
  {
    hide Mask, Split, Join;
    NormalizeTokens(a);
    NormalizeTokens(b);
    var x, y := MaskAll(Split(a)), MaskAll(Split(b));
    forall i | 0 <= i < |x| && |x| == |y|
      ensures x[i] == y[i] <==> Mask(Split(a)[i]) == Mask(Split(b)[i])
    {
      MaskAllAt(Split(a), i);
      MaskAllAt(Split(b), i);
    }
    hide MaskAll;
    if |Split(a)| == |Split(b)| && forall i :: 0 <= i < |Split(a)| ==> Mask(Split(a)[i]) == Mask(Split(b)[i]) {
      assert x == y;
    }
    if Normalize(a) == Normalize(b) {
      assert x == y;
      assert forall i :: 0 <= i < |Split(a)| ==> x[i] == y[i];
    }
  }

  /** Tokens mask alike when they are of one class, and, unless one of them is
      the text of a placeholder itself, only then. */
  lemma MaskIsClass(a: string, b: string)
    ensures ClassOf(a) == ClassOf(b) ==> Mask(a) == Mask(b)
    ensures a !in {"<uuid>", "<path>", "<n>"} && b !in {"<uuid>", "<path>", "<n>"} && Mask(a) == Mask(b)
        ==> ClassOf(a) == ClassOf(b)
  {
    MaskClass(a);
    MaskClass(b);
    PlainIsItself(a);
    PlainIsItself(b);
    hide ClassOf;
  }

  lemma PlainIsItself(t: string)
    ensures ClassOf(t).Plain? ==> ClassOf(t).text == t
  {
  }

  // ---- Numerals

  predicate AllDigits(t: string) {
    t != "" && forall i :: 0 <= i < |t| ==> IsDigit(t[i])
  }

  lemma {:induction false} DigitsToEnd(t: string)
    requires forall i :: 0 <= i < |t| ==> IsDigit(t[i])
    ensures Digits(t) == |t| && EqualsAt(t) == |t|
    decreases |t|
  {
    if t != "" {
      DigitsToEnd(t[1..]);
    }
  }

  lemma NumeralsAreNumbers(t: string)
    requires AllDigits(t)
    ensures ClassOf(t) == Number && IsWord(t)
  {
    DigitsToEnd(t);
    assert Unsigned(t) == t && t[Digits(t)..] == "";
    assert IsFloat(t);
    assert t[0] != '/';
    assert |t| == 36 ==> t[8] != '-';
  }

  /** Ports merge: changing one numeral for another, anywhere in a command line,
      does not change what it becomes. */
  lemma NumeralsMerge(words: seq<string>, i: nat, other: string)
    requires AreWords(words) && i < |words| && AllDigits(words[i]) && AllDigits(other)
    ensures Normalize(Join(words[i := other])) == Normalize(Join(words))
  {
    NumeralsAreNumbers(words[i]);
    NumeralsAreNumbers(other);
    MaskIsClass(words[i], other);
    assert AreWords(words[i := other]);
    hide *;
    SplitJoin(words);
    SplitJoin(words[i := other]);
    MergesExactly(Join(words[i := other]), Join(words));
  }
}
