/** Reading the time back out of a name: the regular expression is compiled, matched, and its groups assigned. */
module RecordPathDecode {
  import opened Wrappers
  import opened RecordPath

  // --- The expressions that occur: characters and groups of a fixed number of digits -----------

  datatype Re = Char(c: char) | Group(digits: nat)

  // regexp.MustCompile, for escaped and plain characters and these groups.
  function Compile(re: string): seq<Re>
    decreases |re|
  {
    if re == [] then []
    else if "([0-9]{2})" <= re then [Group(2)] + Compile(re[10..])
    else if "([0-9]{4})" <= re then [Group(4)] + Compile(re[10..])
    else if "([0-9]{6})" <= re then [Group(6)] + Compile(re[10..])
    else if "([0-9]{10})" <= re then [Group(10)] + Compile(re[11..])
    else if re[0] == '\\' && |re| > 1 then [Char(re[1])] + Compile(re[2..])
    else [Char(re[0])] + Compile(re[1..])
  }

  // A match that starts at the beginning of v: the text of the groups.
  function MatchAt(res: seq<Re>, v: string): Option<seq<string>>
    decreases |res|
  {
    if res == [] then Some([])
    else
      match res[0]
      case Char(c) => if v != [] && v[0] == c then MatchAt(res[1..], v[1..]) else None
      case Group(n) =>
        if |v| >= n && AllDigits(v[..n]) then
          match MatchAt(res[1..], v[n..])
          case None => None
          case Some(groups) => Some([v[..n]] + groups)
        else None
  }

  // FindStringSubmatch: the leftmost match.
  function Find(res: seq<Re>, v: string): Option<seq<string>>
    decreases |v|
  {
    if MatchAt(res, v).Some? then MatchAt(res, v)
    else if v == [] then None
    else Find(res, v[1..])
  }

  // The fields of the format, in the order of their percent signs.
  function GroupMapping(format: string): seq<Field>
    decreases |format|
  {
    if format == [] then []
    else
      (if |format| >= 2 && format[0] == '%' && IsLetter(format[1]) then [FieldOf(format[1])] else [])
      + GroupMapping(format[1..])
  }

  // The value of a field: its last group.
  function Lookup(fields: seq<Field>, groups: seq<string>, f: Field): Option<string>
    requires |fields| == |groups|
  {
    if fields == [] then None
    else if fields[|fields| - 1] == f then Some(groups[|groups| - 1])
    else Lookup(fields[..|fields| - 1], groups[..|groups| - 1], f)
  }

  function NumberOf(fields: seq<Field>, groups: seq<string>, f: Field, default: int): int
    requires |fields| == |groups|
  {
    match Lookup(fields, groups, f)
    case None => default
    case Some(v) => ParseInt(v)
  }

  function TimeOf(fields: seq<Field>, groups: seq<string>, z: Zone): Time
    requires |fields| == |groups|
  {
    var number := (f: Field, default: int) => NumberOf(fields, groups, f, default);
    var unix := number(Unix, -1);
    if unix > 0 then Time(unix, 0)
    else
      var c := Civil(number(Year, 0), number(Month, 1), number(Day, 1), number(Hour, 0), number(Minute, 0),
                     number(Second, 0));
      Time(z.date(c), number(Micros, 0) * 1000)
  }

  // Path.Decode of a format without %path.
  function Decode(format: string, v: string, z: Zone): Option<Time>
    requires NoPath(format)
  {
    match Find(Compile(Expression(format)), v)
    case None => None
    case Some(groups) =>
      CompiledGroups(format);
      FindCounts(Compile(Expression(format)), v);
      Some(TimeOf(GroupMapping(format), groups, z))
  }

  // --- What is compiled ------------------------------------------------------------------------

  function Regex(ts: seq<Token>): seq<Re> {
    if ts == [] then []
    else
      [match ts[0]
       case Lit(c) => Char(c)
       case Var(f) => Group(Width(f))]
      + Regex(ts[1..])
  }

  function Vars(ts: seq<Token>): seq<Field> {
    if ts == [] then []
    else (match ts[0] case Lit(c) => [] case Var(f) => [f]) + Vars(ts[1..])
  }

  function Groups(res: seq<Re>): nat {
    if res == [] then 0 else (if res[0].Group? then 1 else 0) + Groups(res[1..])
  }

  lemma CompileChar(c: char, rest: string)
    ensures Compile(Escaped(c) + rest) == [Char(c)] + Compile(rest)
  {
    var re := Escaped(c) + rest;
    assert SPECIALS[..|SPECIALS|] == SPECIALS;
    if c in SPECIALS {
      assert re[0] == '\\' && re[1] == c && re[2..] == rest;
    } else {
      assert '(' == SPECIALS[7] && '\\' == SPECIALS[0];
      assert re[0] == c && re[1..] == rest;
    }
  }

  lemma CompileGroup(f: Field, rest: string)
    ensures Compile(RecordPath.Group(f) + rest) == [Group(Width(f))] + Compile(rest)
  {
    var g := RecordPath.Group(f);
    var re := g + rest;
    assert re[|g|..] == rest;
    assert g <= re;
    assert re[7] == g[7];
  }

  // The expression made by replacement compiles to the characters and fields of the format.
  lemma {:induction false} CompileTokens(ts: seq<Token>)
    ensures Compile(Render(ts, Escaped, RecordPath.Group, |ORDER|)) == Regex(ts)
    decreases |ts|
  {
    if ts != [] {
      CompileTokens(ts[1..]);
      var rest := Render(ts[1..], Escaped, RecordPath.Group, |ORDER|);
      hide Compile, Escaped;
      match ts[0]
      case Lit(c) => CompileChar(c, rest);
      case Var(f) => CompileGroup(f, rest);
    }
  }

  lemma {:induction false} MappingIsVars(s: string)
    ensures GroupMapping(s) == Vars(Tokenize(s))
    decreases |s|
  {
    if s != [] {
      if |s| >= 2 && s[0] == '%' && IsLetter(s[1]) {
        MappingIsVars(s[2..]);
        assert s[1..][1..] == s[2..] && s[1..][0] == s[1];
        assert GroupMapping(s[1..]) == GroupMapping(s[2..]);
      } else {
        MappingIsVars(s[1..]);
      }
    }
  }

  lemma {:induction false} RegexGroups(ts: seq<Token>)
    ensures Groups(Regex(ts)) == |Vars(ts)|
  {
    if ts != [] {
      RegexGroups(ts[1..]);
    }
  }

  lemma CompiledFormat(format: string)
    requires NoPath(format)
    ensures Compile(Expression(format)) == Regex(Tokenize(format))
  {
    ExpressionIsOnePass(format);
    CompileTokens(Tokenize(format));
  }

  // There are as many groups as fields.
  lemma CompiledGroups(format: string)
    requires NoPath(format)
    ensures Groups(Compile(Expression(format))) == |GroupMapping(format)|
  {
    CompiledFormat(format);
    MappingIsVars(format);
    RegexGroups(Tokenize(format));
  }

  lemma {:induction false} MatchCounts(res: seq<Re>, v: string)
    ensures MatchAt(res, v).Some? ==> |MatchAt(res, v).value| == Groups(res)
    decreases |res|
  {
    if res != [] {
      match res[0]
      case Char(c) =>
        if v != [] {
          MatchCounts(res[1..], v[1..]);
        }
      case Group(n) =>
        if |v| >= n {
          MatchCounts(res[1..], v[n..]);
        }
    }
  }

  lemma {:induction false} FindCounts(res: seq<Re>, v: string)
    ensures Find(res, v).Some? ==> |Find(res, v).value| == Groups(res)
    decreases |v|
  {
    MatchCounts(res, v);
    if v != [] {
      FindCounts(res, v[1..]);
    }
  }

  // --- What is matched -------------------------------------------------------------------------

  // The value of a field has as many digits as its group.
  ghost predicate Fits(values: Values, f: Field) {
    |values(f)| == Width(f) && AllDigits(values(f))
  }

  function ValuesOf(fields: seq<Field>, values: Values): (r: seq<string>)
    ensures |r| == |fields|
  {
    seq(|fields|, i requires 0 <= i < |fields| => values(fields[i]))
  }

  // The text made from the tokens matches from its beginning, and the groups are the values.
  lemma {:induction false} TextMatches(ts: seq<Token>, values: Values)
    requires forall i :: 0 <= i < |ts| && ts[i].Var? ==> Fits(values, ts[i].f)
    ensures MatchAt(Regex(ts), Text(ts, values)) == Some(ValuesOf(Vars(ts), values))
    decreases |ts|
  {
    if ts != [] {
      var rest := ts[1..];
      assert forall i :: 0 <= i < |rest| ==> rest[i] == ts[i + 1];
      TextMatches(rest, values);
      var v := Text(ts, values);
      match ts[0]
      case Lit(c) =>
        assert v == [c] + Text(rest, values);
        assert v[1..] == Text(rest, values);
        assert Vars(ts) == Vars(rest);
      case Var(f) =>
        assert v == values(f) + Text(rest, values);
        assert v[..Width(f)] == values(f) && v[Width(f)..] == Text(rest, values);
        assert ValuesOf([f] + Vars(rest), values) == [values(f)] + ValuesOf(Vars(rest), values);
    }
  }

  lemma {:induction false} LookupValues(fields: seq<Field>, values: Values, f: Field)
    ensures Lookup(fields, ValuesOf(fields, values), f) == if f in fields then Some(values(f)) else None
  {
    if fields != [] {
      var front, last := fields[..|fields| - 1], fields[|fields| - 1];
      LookupValues(front, values, f);
      assert ValuesOf(fields, values)[..|fields| - 1] == ValuesOf(front, values);
      assert fields == front + [last];
    }
  }

  lemma {:induction false} VarsOf(ts: seq<Token>, f: Field)
    ensures f in Vars(ts) <==> Var(f) in ts
  {
    if ts != [] {
      VarsOf(ts[1..], f);
      assert ts == [ts[0]] + ts[1..];
    }
  }

  // --- Round trip ------------------------------------------------------------------------------

  // The parts of a civil time are in their usual ranges.
  predicate IsCivil(c: Civil) {
    && 1 <= c.month <= 12 && 1 <= c.day <= 31
    && 0 <= c.hour < 24 && 0 <= c.minute < 60 && 0 <= c.second < 60
  }

  // The fields of unlimited width have the width that decoding expects.
  predicate Encodable(format: string, t: Time, z: Zone) {
    && IsCivil(z.civil(t.sec)) && 0 <= t.nano < 1_000_000_000
    && (Var(Year) in Tokenize(format) ==> 1000 <= z.civil(t.sec).year < 10_000)
    && (Var(Unix) in Tokenize(format) ==> 1_000_000_000 <= t.sec < 10_000_000_000)
  }

  function NumberIn(t: Time, z: Zone, f: Field): int {
    var c := z.civil(t.sec);
    match f
    case Year => c.year
    case Month => c.month
    case Day => c.day
    case Hour => c.hour
    case Minute => c.minute
    case Second => c.second
    case Micros => t.nano / 1000
    case Unix => t.sec
  }

  lemma DigitsRoundTrip(v: nat, width: nat)
    requires Pow10(width) <= v < Pow10(width + 1)
    ensures |FormatInt(v)| == width + 1 && AllDigits(FormatInt(v)) && ParseInt(FormatInt(v)) == v
  {
    DigitsAreDigits(v);
    DigitsLength(v, width);
    DigitsParse(v);
  }

  lemma PowersOfTen()
    ensures Pow10(2) == 100 && Pow10(3) == 1000 && Pow10(4) == 10_000 && Pow10(6) == 1_000_000
    ensures Pow10(9) == 1_000_000_000 && Pow10(10) == 10_000_000_000
  {
    assert Pow10(4) == 10 * Pow10(3) && Pow10(6) == 100 * Pow10(4);
    assert Pow10(8) == 100 * Pow10(6) && Pow10(10) == 100 * Pow10(8);
  }

  // Each field of the format has its width, and reads back as the number it was made from.
  lemma FieldRoundTrip(format: string, t: Time, z: Zone, f: Field)
    requires Encodable(format, t, z) && Var(f) in Tokenize(format)
    ensures Fits(g => Value(t, z, g), f) && ParseInt(Value(t, z, f)) == NumberIn(t, z, f)
  {
    hide LeadingZeros, FormatInt, Digits, Pow10;
    PowersOfTen();
    var n := NumberIn(t, z, f);
    if f == Year {
      DigitsRoundTrip(n, 3);
    } else if f == Unix {
      DigitsRoundTrip(n, 9);
    } else if f == Micros {
      LeadingZerosRoundTrip(n, 6);
    } else {
      LeadingZerosRoundTrip(n, 2);
    }
  }

  // Decoding an encoded name finds the name from its beginning, with the encoded values in its groups.
  lemma EncodedIsFound(format: string, t: Time, z: Zone)
    requires NoPath(format) && Encodable(format, t, z)
    ensures Find(Compile(Expression(format)), Encode(format, t, z))
         == Some(ValuesOf(GroupMapping(format), f => Value(t, z, f)))
  {
    hide Compile, Expression, Encode, GroupMapping, Value, Encodable, Regex, Text, Vars;
    var ts := Tokenize(format);
    EncodeIsOnePass(format, t, z);
    CompiledFormat(format);
    MappingIsVars(format);
    forall i | 0 <= i < |ts| && ts[i].Var?
      ensures Fits(f => Value(t, z, f), ts[i].f)
    {
      assert ts[i] in ts && ts[i] == Var(ts[i].f);
      FieldRoundTrip(format, t, z, ts[i].f);
    }
    TextMatches(ts, f => Value(t, z, f));
  }

  // What is read back of a field: its number, or the default when the format does not have it.
  lemma NumberIsRead(format: string, t: Time, z: Zone, f: Field, default: int)
    requires NoPath(format) && Encodable(format, t, z)
    ensures NumberOf(GroupMapping(format), ValuesOf(GroupMapping(format), g => Value(t, z, g)), f, default)
         == if Var(f) in Tokenize(format) then NumberIn(t, z, f) else default
  {
    hide Value, Encodable, GroupMapping;
    MappingIsVars(format);
    VarsOf(Tokenize(format), f);
    LookupValues(GroupMapping(format), g => Value(t, z, g), f);
    if Var(f) in Tokenize(format) {
      FieldRoundTrip(format, t, z, f);
    }
  }

  predicate HasCivil(format: string) {
    && Var(Year) in Tokenize(format) && Var(Month) in Tokenize(format) && Var(Day) in Tokenize(format)
    && Var(Hour) in Tokenize(format) && Var(Minute) in Tokenize(format) && Var(Second) in Tokenize(format)
    && Var(Micros) in Tokenize(format)
  }

  // Decoding an encoded name gives the time back: to the second when the format has %s, to the microsecond
  // when it has the date and the time of day.
  lemma RoundTrip(format: string, t: Time, z: Zone)
    requires NoPath(format) && Encodable(format, t, z)
    requires Var(Unix) in Tokenize(format) || (HasCivil(format) && z.date(z.civil(t.sec)) == t.sec)
    ensures Decode(format, Encode(format, t, z), z) ==
      Some(if Var(Unix) in Tokenize(format) then Time(t.sec, 0) else Time(t.sec, t.nano / 1000 * 1000))
  {
    hide Compile, Expression, Encode, GroupMapping, Value, NumberOf, Tokenize;
    EncodedIsFound(format, t, z);
    NumberIsRead(format, t, z, Unix, -1);
    if Var(Unix) !in Tokenize(format) {
      NumberIsRead(format, t, z, Year, 0);
      NumberIsRead(format, t, z, Month, 1);
      NumberIsRead(format, t, z, Day, 1);
      NumberIsRead(format, t, z, Hour, 0);
      NumberIsRead(format, t, z, Minute, 0);
      NumberIsRead(format, t, z, Second, 0);
      NumberIsRead(format, t, z, Micros, 0);
    }
  }
}
