/** Names of recordings: the time put into a format by string replacement, and read back with a regular expression. */
module RecordPath {
  import opened Wrappers

  // --- Times -----------------------------------------------------------------------------------

  datatype Civil = Civil(year: int, month: int, day: int, hour: int, minute: int, second: int)

  // A time: seconds since the epoch and nanoseconds.
  datatype Time = Time(sec: int, nano: int)

  // The local time zone: civil time of a second, and back.
  datatype Zone = Zone(civil: int -> Civil, date: Civil -> int)

  // Fields of the format, in the order in which they are replaced.
  datatype Field = Year | Month | Day | Hour | Minute | Second | Micros | Unix

  const ORDER := [Year, Month, Day, Hour, Minute, Second, Micros, Unix]

  function Index(f: Field): (k: nat)
    ensures k < |ORDER| && ORDER[k] == f
  {
    match f
    case Year => 0
    case Month => 1
    case Day => 2
    case Hour => 3
    case Minute => 4
    case Second => 5
    case Micros => 6
    case Unix => 7
  }

  const LETTERS := ['Y', 'm', 'd', 'H', 'M', 'S', 'f', 's']

  function Letter(f: Field): char { LETTERS[Index(f)] }

  function Pattern(f: Field): string { ['%', Letter(f)] }

  predicate IsLetter(c: char) { c in LETTERS }

  function FieldOf(c: char): (f: Field)
    requires IsLetter(c)
    ensures Letter(f) == c
  {
    if c == 'Y' then Year else if c == 'm' then Month else if c == 'd' then Day else if c == 'H' then Hour
    else if c == 'M' then Minute else if c == 'S' then Second else if c == 'f' then Micros else Unix
  }

  lemma LettersDiffer(f: Field, g: Field)
    ensures Letter(f) == Letter(g) <==> f == g
  {
  }

  // --- Numbers ---------------------------------------------------------------------------------

  function Digit(d: nat): (c: char)
    requires d < 10
    ensures IsDigit(c)
  {
    ('0' as int + d) as char
  }

  predicate IsDigit(c: char) { '0' <= c <= '9' }

  function Digits(n: nat): string {
    if n < 10 then [Digit(n)] else Digits(n / 10) + [Digit(n % 10)]
  }

  // strconv.FormatInt
  function FormatInt(v: int): string {
    if v < 0 then "-" + Digits(-v) else Digits(v)
  }

  function Zeros(n: nat): string { seq(n, _ => '0') }

  function LeadingZeros(v: int, size: nat): string {
    var out := FormatInt(v);
    if |out| >= size then out else Zeros(size - |out|) + out
  }

  // strconv.ParseInt of a string of digits
  function ParseInt(s: string): int {
    if s == [] then 0 else ParseInt(s[..|s| - 1]) * 10 + (s[|s| - 1] as int - '0' as int)
  }

  predicate AllDigits(s: string) {
    forall i :: 0 <= i < |s| ==> IsDigit(s[i])
  }

  function Pow10(k: nat): nat { if k == 0 then 1 else 10 * Pow10(k - 1) }

  lemma {:induction false} DigitsAreDigits(n: nat)
    ensures AllDigits(Digits(n)) && Digits(n) != []
  {
    if n >= 10 {
      DigitsAreDigits(n / 10);
    }
  }

  lemma {:induction false} DigitsParse(n: nat)
    ensures ParseInt(Digits(n)) == n
  {
    if n >= 10 {
      DigitsParse(n / 10);
      assert Digits(n)[..|Digits(n)| - 1] == Digits(n / 10);
    } else {
      assert Digits(n)[..0] == [];
    }
  }

  lemma {:induction false} DigitsLength(n: nat, k: nat)
    requires n < Pow10(k + 1)
    ensures |Digits(n)| <= k + 1
    ensures n >= Pow10(k) ==> |Digits(n)| == k + 1
  {
    if n >= 10 {
      assert k > 0;
      DigitsLength(n / 10, k - 1);
    }
  }

  lemma {:induction false} ZerosParse(k: nat, s: string)
    ensures ParseInt(Zeros(k) + s) == ParseInt(s)
  {
    if s != [] {
      assert (Zeros(k) + s)[..k + |s| - 1] == Zeros(k) + s[..|s| - 1];
      ZerosParse(k, s[..|s| - 1]);
    } else if k > 0 {
      assert (Zeros(k) + s)[..k - 1] == Zeros(k - 1) + [];
      ZerosParse(k - 1, []);
    } else {
      assert Zeros(k) + s == [];
    }
  }

  // A number of at most `size` digits takes exactly that many, and reads back as itself.
  lemma LeadingZerosRoundTrip(v: nat, size: nat)
    requires 0 < size && v < Pow10(size)
    ensures |LeadingZeros(v, size)| == size && AllDigits(LeadingZeros(v, size))
    ensures ParseInt(LeadingZeros(v, size)) == v
  {
    DigitsAreDigits(v);
    DigitsLength(v, size - 1);
    DigitsParse(v);
    ZerosParse(size - |Digits(v)|, Digits(v));
  }

  // --- Replacement -----------------------------------------------------------------------------

  // strings.ReplaceAll
  function ReplaceAll(s: string, pattern: string, text: string): string
    requires pattern != []
    decreases |s|
  {
    if |s| < |pattern| then s
    else if s[..|pattern|] == pattern then text + ReplaceAll(s[|pattern|..], pattern, text)
    else [s[0]] + ReplaceAll(s[1..], pattern, text)
  }

  type Values = Field -> string

  // The chain of replacements, up to the k-th one.
  function Chain(s: string, values: Values, k: nat): string
    requires k <= |ORDER|
  {
    if k == 0 then s else ReplaceAll(Chain(s, values, k - 1), Pattern(ORDER[k - 1]), values(ORDER[k - 1]))
  }

  // The format read once from left to right.
  datatype Token = Lit(c: char) | Var(f: Field)

  function Tokenize(s: string): seq<Token>
    decreases |s|
  {
    if s == [] then []
    else if |s| >= 2 && s[0] == '%' && IsLetter(s[1]) then [Var(FieldOf(s[1]))] + Tokenize(s[2..])
    else [Lit(s[0])] + Tokenize(s[1..])
  }

  type Spelling = char -> string

  // The text of tokens, with the first k fields replaced.
  function Render(ts: seq<Token>, lit: Spelling, values: Values, k: nat): string
    decreases |ts|
  {
    if ts == [] then []
    else
      (match ts[0]
       case Lit(c) => lit(c)
       case Var(f) => if Index(f) < k then values(f) else Pattern(f))
      + Render(ts[1..], lit, values, k)
  }

  predicate Plain(s: string) {
    '%' !in s
  }

  // Values that cannot be taken for a part of a pattern.
  ghost predicate Inert(values: Values) {
    forall f :: values(f) != [] && Plain(values(f)) && !IsLetter(values(f)[0])
  }

  // A spelling of characters that keeps the percent sign and the letters after it.
  ghost predicate Faithful(lit: Spelling) {
    && lit('%') == "%"
    && forall c :: c != '%' ==>
         lit(c) != [] && Plain(lit(c)) && (IsLetter(lit(c)[0]) ==> lit(c)[0] == c)
  }

  // No percent sign is followed by a letter: those pairs are fields.
  ghost predicate Split(ts: seq<Token>) {
    forall i :: 0 <= i < |ts| - 1 && ts[i] == Lit('%') && ts[i + 1].Lit? ==> !IsLetter(ts[i + 1].c)
  }

  lemma {:induction false} TokensAreSplit(s: string)
    ensures Split(Tokenize(s))
    ensures s != [] && Tokenize(s)[0].Lit? ==> Tokenize(s)[0].c == s[0]
    decreases |s|
  {
    if s != [] {
      if |s| >= 2 && s[0] == '%' && IsLetter(s[1]) {
        TokensAreSplit(s[2..]);
      } else {
        TokensAreSplit(s[1..]);
        var rest := Tokenize(s[1..]);
        var ts := Tokenize(s);
        assert ts == [Lit(s[0])] + rest;
        forall i | 0 <= i < |ts| - 1 && ts[i] == Lit('%') && ts[i + 1].Lit?
          ensures !IsLetter(ts[i + 1].c)
        {
          assert ts[i + 1] == rest[i];
          if i > 0 {
            assert ts[i] == rest[i - 1];
          }
        }
      }
    }
  }

  lemma SkipOne(c: char, s: string, pattern: string, text: string)
    requires |pattern| == 2 && c != pattern[0]
    ensures ReplaceAll([c] + s, pattern, text) == [c] + ReplaceAll(s, pattern, text)
  {
    assert ([c] + s)[1..] == s;
    if s != [] {
      assert ([c] + s)[..2][0] == c;
    }
  }

  lemma {:induction false} SkipPlain(a: string, s: string, pattern: string, text: string)
    requires Plain(a) && |pattern| == 2 && pattern[0] == '%'
    ensures ReplaceAll(a + s, pattern, text) == a + ReplaceAll(s, pattern, text)
    decreases |a|
  {
    hide ReplaceAll;
    if a == [] {
      assert a + s == s;
    } else {
      var rest := a[1..];
      assert a + s == [a[0]] + (rest + s);
      assert a[0] in a && (forall c :: c in rest ==> c in a);
      SkipOne(a[0], rest + s, pattern, text);
      SkipPlain(rest, s, pattern, text);
      assert a == [a[0]] + rest;
    }
  }

  // What tokens begin with, in any stage.
  lemma RenderStart(ts: seq<Token>, lit: Spelling, values: Values, k: nat)
    requires Inert(values) && Faithful(lit) && ts != []
    ensures Render(ts, lit, values, k) != []
    ensures IsLetter(Render(ts, lit, values, k)[0]) ==> ts[0].Lit? && ts[0].c == Render(ts, lit, values, k)[0]
  {
  }

  // One more replacement replaces one more field, and nothing else.
  lemma {:induction false} ReplaceField(ts: seq<Token>, lit: Spelling, values: Values, k: nat)
    requires Inert(values) && Faithful(lit) && Split(ts) && k < |ORDER|
    ensures ReplaceAll(Render(ts, lit, values, k), Pattern(ORDER[k]), values(ORDER[k])) == Render(ts, lit, values, k + 1)
    decreases |ts|
  {
    if ts != [] {
      var rest, p, text := ts[1..], Pattern(ORDER[k]), values(ORDER[k]);
      assert forall i :: 0 <= i < |rest| ==> rest[i] == ts[i + 1];
      ReplaceField(rest, lit, values, k);
      var s := Render(rest, lit, values, k);
      match ts[0]
      case Var(f) =>
        if Index(f) < k {
          SkipPlain(values(f), s, p, text);
        } else if Index(f) == k {
          assert Pattern(f) == p;
          assert (p + s)[..2] == p && (p + s)[2..] == s;
        } else {
          OtherPattern(f, ORDER[k], s, text);
        }
      case Lit(c) =>
        if c == '%' {
          if rest != [] {
            RenderStart(rest, lit, values, k);
          }
          LonePercent(s, ORDER[k], text);
        } else {
          SkipPlain(lit(c), s, p, text);
        }
    }
  }

  lemma OtherPattern(f: Field, g: Field, s: string, text: string)
    requires f != g
    ensures ReplaceAll(Pattern(f) + s, Pattern(g), text) == Pattern(f) + ReplaceAll(s, Pattern(g), text)
  {
    LettersDiffer(f, g);
    assert (Pattern(f) + s)[1..] == [Letter(f)] + s;
    assert (Pattern(f) + s)[..2] == Pattern(f);
    assert Pattern(f)[1] != Pattern(g)[1];
    SkipPlain([Letter(f)], s, Pattern(g), text);
    assert ['%'] + ([Letter(f)] + ReplaceAll(s, Pattern(g), text)) == Pattern(f) + ReplaceAll(s, Pattern(g), text);
  }

  lemma LonePercent(s: string, g: Field, text: string)
    requires s != [] ==> !IsLetter(s[0])
    ensures ReplaceAll("%" + s, Pattern(g), text) == "%" + ReplaceAll(s, Pattern(g), text)
  {
    assert ("%" + s)[1..] == s;
    if s != [] {
      assert ("%" + s)[..2][1] == s[0];
      assert IsLetter(Letter(g));
    }
  }

  // The chain of replacements gives what one pass from left to right gives.
  lemma {:induction false} ChainIsOnePass(ts: seq<Token>, lit: Spelling, values: Values, k: nat)
    requires Inert(values) && Faithful(lit) && Split(ts) && k <= |ORDER|
    ensures Chain(Render(ts, lit, values, 0), values, k) == Render(ts, lit, values, k)
  {
    if k > 0 {
      ChainIsOnePass(ts, lit, values, k - 1);
      ReplaceField(ts, lit, values, k - 1);
    }
  }

  lemma {:induction false} TokensRender(s: string, values: Values)
    ensures Render(Tokenize(s), c => [c], values, 0) == s
    decreases |s|
  {
    if s != [] {
      if |s| >= 2 && s[0] == '%' && IsLetter(s[1]) {
        TokensRender(s[2..], values);
        assert Pattern(FieldOf(s[1])) + s[2..] == s;
      } else {
        TokensRender(s[1..], values);
        assert [s[0]] + s[1..] == s;
      }
    }
  }

  // --- Encode ----------------------------------------------------------------------------------

  function Value(t: Time, z: Zone, f: Field): string {
    var c := z.civil(t.sec);
    match f
    case Year => FormatInt(c.year)
    case Month => LeadingZeros(c.month, 2)
    case Day => LeadingZeros(c.day, 2)
    case Hour => LeadingZeros(c.hour, 2)
    case Minute => LeadingZeros(c.minute, 2)
    case Second => LeadingZeros(c.second, 2)
    case Micros => LeadingZeros(t.nano / 1000, 6)
    case Unix => FormatInt(t.sec)
  }

  function Encode(format: string, t: Time, z: Zone): string {
    Chain(format, f => Value(t, z, f), |ORDER|)
  }

  // The text of tokens with every field replaced.
  function Text(ts: seq<Token>, values: Values): string {
    Render(ts, c => [c], values, |ORDER|)
  }

  lemma FormatIntIsInert(v: int)
    ensures FormatInt(v) != [] && Plain(FormatInt(v)) && !IsLetter(FormatInt(v)[0])
  {
    DigitsAreDigits(if v < 0 then -v else v);
  }

  lemma LeadingZerosIsInert(v: int, size: nat)
    ensures LeadingZeros(v, size) != [] && Plain(LeadingZeros(v, size)) && !IsLetter(LeadingZeros(v, size)[0])
  {
    FormatIntIsInert(v);
  }

  lemma ValuesAreInert(t: Time, z: Zone)
    ensures Inert(f => Value(t, z, f))
  {
    var c := z.civil(t.sec);
    forall f
      ensures Value(t, z, f) != [] && Plain(Value(t, z, f)) && !IsLetter(Value(t, z, f)[0])
    {
      hide LeadingZeros, FormatInt;
      FormatIntIsInert(c.year);
      LeadingZerosIsInert(c.month, 2);
      LeadingZerosIsInert(c.day, 2);
      LeadingZerosIsInert(c.hour, 2);
      LeadingZerosIsInert(c.minute, 2);
      LeadingZerosIsInert(c.second, 2);
      LeadingZerosIsInert(t.nano / 1000, 6);
      FormatIntIsInert(t.sec);
    }
  }

  // For any format and any time, replacing the fields one after the other is the same as going through the
  // format once: no value is ever taken for a part of a later field.
  lemma EncodeIsOnePass(format: string, t: Time, z: Zone)
    ensures Encode(format, t, z) == Text(Tokenize(format), f => Value(t, z, f))
  {
    var values: Values := f => Value(t, z, f);
    ValuesAreInert(t, z);
    TokensAreSplit(format);
    TokensRender(format, values);
    ChainIsOnePass(Tokenize(format), c => [c], values, |ORDER|);
  }

  // --- The regular expression ------------------------------------------------------------------

  const SPECIALS := ['\\', '.', '+', '*', '?', '^', '$', '(', ')', '[', ']', '{', '}', '|']

  function EscapeChain(s: string, k: nat): string
    requires k <= |SPECIALS|
  {
    if k == 0 then s else ReplaceAll(EscapeChain(s, k - 1), [SPECIALS[k - 1]], ['\\', SPECIALS[k - 1]])
  }

  function Escape(c: char, k: nat): string
    requires k <= |SPECIALS|
  {
    if c in SPECIALS[..k] then ['\\', c] else [c]
  }

  function EscapeAll(s: string, k: nat): string
    requires k <= |SPECIALS|
    decreases |s|
  {
    if s == [] then [] else Escape(s[0], k) + EscapeAll(s[1..], k)
  }

  lemma ReplaceChar(c: char, s: string, p: char, text: string)
    ensures ReplaceAll([c] + s, [p], text) == (if c == p then text else [c]) + ReplaceAll(s, [p], text)
  {
    assert ([c] + s)[1..] == s;
    assert ([c] + s)[..1] == [c];
  }

  lemma SpecialsDiffer(i: nat, j: nat)
    requires i < j < |SPECIALS|
    ensures SPECIALS[i] != SPECIALS[j]
  {
  }

  lemma EscapeOneChar(c: char, rest: string, k: nat)
    requires k < |SPECIALS|
    ensures ReplaceAll(Escape(c, k) + rest, [SPECIALS[k]], ['\\', SPECIALS[k]])
         == Escape(c, k + 1) + ReplaceAll(rest, [SPECIALS[k]], ['\\', SPECIALS[k]])
  {
    hide ReplaceAll;
    var p := SPECIALS[k];
    assert SPECIALS[..k + 1] == SPECIALS[..k] + [p];
    ReplaceChar(c, rest, p, ['\\', p]);
    if c in SPECIALS[..k] {
      var i :| 0 <= i < k && SPECIALS[i] == c;
      SpecialsDiffer(i, k);
      SpecialsDiffer(0, k);
      assert ['\\', c] + rest == ['\\'] + ([c] + rest);
      ReplaceChar('\\', [c] + rest, p, ['\\', p]);
      assert ['\\'] + ([c] + ReplaceAll(rest, [p], ['\\', p])) == ['\\', c] + ReplaceAll(rest, [p], ['\\', p]);
    }
  }

  lemma {:induction false} EscapeOneMore(s: string, k: nat)
    requires k < |SPECIALS|
    ensures ReplaceAll(EscapeAll(s, k), [SPECIALS[k]], ['\\', SPECIALS[k]]) == EscapeAll(s, k + 1)
    decreases |s|
  {
    if s != [] {
      hide ReplaceAll, Escape;
      EscapeOneMore(s[1..], k);
      EscapeOneChar(s[0], EscapeAll(s[1..], k), k);
    }
  }

  lemma {:induction false} EscapeNothing(s: string)
    ensures EscapeAll(s, 0) == s
    decreases |s|
  {
    if s != [] {
      EscapeNothing(s[1..]);
      assert [s[0]] + s[1..] == s;
    }
  }

  lemma {:induction false} EscapeChainIsOnePass(s: string, k: nat)
    requires k <= |SPECIALS|
    ensures EscapeChain(s, k) == EscapeAll(s, k)
  {
    if k == 0 {
      EscapeNothing(s);
    } else {
      EscapeChainIsOnePass(s, k - 1);
      EscapeOneMore(s, k - 1);
    }
  }

  function Escaped(c: char): string { Escape(c, |SPECIALS|) }

  lemma EscapedIsFaithful()
    ensures Faithful(Escaped)
  {
    forall c | c != '%'
      ensures Escaped(c) != [] && Plain(Escaped(c)) && (IsLetter(Escaped(c)[0]) ==> Escaped(c)[0] == c)
    {
    }
  }

  function Width(f: Field): nat {
    match f
    case Year => 4
    case Month => 2
    case Day => 2
    case Hour => 2
    case Minute => 2
    case Second => 2
    case Micros => 6
    case Unix => 10
  }

  function Group(f: Field): string {
    if f == Year then "([0-9]{4})" else if f == Micros then "([0-9]{6})" else if f == Unix then "([0-9]{10})"
    else "([0-9]{2})"
  }

  lemma LettersAreNotSpecial(c: char)
    requires IsLetter(c)
    ensures Escape(c, |SPECIALS|) == [c] && Escape('%', |SPECIALS|) == "%"
  {
  }

  lemma {:induction false} EscapedTokens(s: string)
    ensures EscapeAll(s, |SPECIALS|) == Render(Tokenize(s), Escaped, Group, 0)
    decreases |s|
  {
    if s != [] {
      if |s| >= 2 && s[0] == '%' && IsLetter(s[1]) {
        EscapedTokens(s[2..]);
        LettersAreNotSpecial(s[1]);
        hide Escape;
        assert s[1..][0] == s[1] && s[1..][1..] == s[2..];
        assert EscapeAll(s[1..], |SPECIALS|) == [s[1]] + EscapeAll(s[2..], |SPECIALS|);
        assert Pattern(FieldOf(s[1])) == [s[0]] + [s[1]];
      } else {
        EscapedTokens(s[1..]);
      }
    }
  }

  // The format has no %path in it.
  predicate NoPath(s: string)
    decreases |s|
  {
    s == [] || (!("%path" <= s) && NoPath(s[1..]))
  }

  // Text without special characters at the start of the escaped string is at the start of the string itself.
  lemma {:induction false} EscapedPrefix(s: string, p: string)
    requires forall c :: c in p ==> c !in SPECIALS
    requires p <= EscapeAll(s, |SPECIALS|)
    ensures p <= s
    decreases |p|
  {
    if p != [] {
      assert p[0] in p && SPECIALS[0] == '\\' && s != [];
      assert Escape(s[0], |SPECIALS|)[0] == p[0];
      assert SPECIALS[..|SPECIALS|] == SPECIALS;
      assert EscapeAll(s, |SPECIALS|)[1..] == EscapeAll(s[1..], |SPECIALS|);
      EscapedPrefix(s[1..], p[1..]);
      assert p == [p[0]] + p[1..] && s == [s[0]] + s[1..];
    }
  }

  lemma NoMatchAtStart(s: string, p: string, text: string)
    requires p != [] && !(p <= s)
    ensures ReplaceAll(s, p, text) == if s == [] then [] else [s[0]] + ReplaceAll(s[1..], p, text)
  {
    if |s| >= |p| {
      assert s[..|p|] != p;
    } else if s != [] {
      assert s == [s[0]] + s[1..];
    }
  }

  lemma EscapeShape(c: char)
    ensures Escape(c, |SPECIALS|) == [c] || (c != '%' && Escape(c, |SPECIALS|) == ['\\', c])
  {
    assert SPECIALS[..|SPECIALS|] == SPECIALS;
  }

  lemma {:induction false} NoPathToReplace(s: string, text: string)
    requires NoPath(s)
    ensures ReplaceAll(EscapeAll(s, |SPECIALS|), "%path", text) == EscapeAll(s, |SPECIALS|)
    decreases |s|
  {
    hide ReplaceAll, Escape;
    var e := EscapeAll(s, |SPECIALS|);
    if "%path" <= e {
      EscapedPrefix(s, "%path");
    }
    NoMatchAtStart(e, "%path", text);
    if s != [] {
      var rest := EscapeAll(s[1..], |SPECIALS|);
      EscapeShape(s[0]);
      NoPathToReplace(s[1..], text);
      if Escape(s[0], |SPECIALS|) == [s[0]] {
        assert e[1..] == rest;
      } else {
        assert e[1..] == [s[0]] + rest;
        assert e[1..][0] != '%';
        NoMatchAtStart(e[1..], "%path", text);
        assert e[1..][1..] == rest;
      }
    }
  }

  // The string handed to regexp.MustCompile.
  function Expression(format: string): string {
    Chain(ReplaceAll(EscapeChain(format, |SPECIALS|), "%path", "(.*?)"), Group, |ORDER|)
  }

  lemma ExpressionIsOnePass(format: string)
    requires NoPath(format)
    ensures Expression(format) == Render(Tokenize(format), Escaped, Group, |ORDER|)
  {
    EscapeChainIsOnePass(format, |SPECIALS|);
    NoPathToReplace(format, "(.*?)");
    EscapedTokens(format);
    TokensAreSplit(format);
    EscapedIsFaithful();
    GroupsAreInert();
    ChainIsOnePass(Tokenize(format), Escaped, Group, |ORDER|);
  }

  lemma GroupsAreInert()
    ensures Inert(Group)
  {
  }
}
