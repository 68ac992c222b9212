/** Encode and Decode as the server runs them, with their loops. */
module RecordPathCodec {
  import opened Wrappers
  import opened RecordPath
  import D = RecordPathDecode

  method LeadingZerosOf(v: int, size: nat) returns (r: string)
    ensures r == LeadingZeros(v, size)
  {
    var out := FormatInt(v);
    if |out| >= size {
      return out;
    }
    var out2 := "";
    for i := 0 to size - |out|
      invariant out2 == Zeros(i)
    {
      out2 := out2 + "0";
    }
    r := out2 + out;
  }

  // The fields in the order of their percent signs.
  method MappingOf(format: string) returns (mapping: seq<Field>)
    ensures mapping == D.GroupMapping(format)
  {
    hide FieldOf, IsLetter;
    mapping := [];
    var cur := format;
    while cur != []
      invariant mapping + D.GroupMapping(cur) == D.GroupMapping(format)
      decreases |cur|
    {
      if |cur| >= 2 && cur[0] == '%' && IsLetter(cur[1]) {
        mapping := mapping + [FieldOf(cur[1])];
      }
      cur := cur[1..];
    }
  }

  // The special characters are escaped one after the other, then the fields are replaced.
  method ExpressionOf(format: string) returns (re: string)
    ensures re == Expression(format)
  {
    hide ReplaceAll;
    re := format;
    for i := 0 to |SPECIALS|
      invariant re == EscapeChain(format, i)
    {
      re := ReplaceAll(re, [SPECIALS[i]], ['\\', SPECIALS[i]]);
    }
    re := ReplaceAll(re, "%path", "(.*?)");
    re := ReplaceFields(re, Group);
  }

  // The chain of replacements, each written out.
  method ReplaceFields(s: string, values: Values) returns (r: string)
    ensures r == Chain(s, values, |ORDER|)
  {
    hide ReplaceAll;
    r := ReplaceAll(s, "%Y", values(Year));
    assert r == Chain(s, values, 1);
    r := ReplaceAll(r, "%m", values(Month));
    assert r == Chain(s, values, 2);
    r := ReplaceAll(r, "%d", values(Day));
    assert r == Chain(s, values, 3);
    r := ReplaceAll(r, "%H", values(Hour));
    assert r == Chain(s, values, 4);
    r := ReplaceAll(r, "%M", values(Minute));
    assert r == Chain(s, values, 5);
    r := ReplaceAll(r, "%S", values(Second));
    assert r == Chain(s, values, 6);
    r := ReplaceAll(r, "%f", values(Micros));
    assert r == Chain(s, values, 7);
    r := ReplaceAll(r, "%s", values(Unix));
  }

  method EncodePath(format: string, t: Time, z: Zone) returns (r: string)
    ensures r == Encode(format, t, z)
    ensures r == Text(Tokenize(format), f => Value(t, z, f))
  {
    EncodeIsOnePass(format, t, z);
    r := ReplaceFields(format, f => Value(t, z, f));
  }

  // The last group of each field.
  method ValuesOf(fields: seq<Field>, groups: seq<string>) returns (values: map<Field, string>)
    requires |fields| == |groups|
    ensures forall f :: D.Lookup(fields, groups, f) == if f in values then Some(values[f]) else None
  {
    values := map[];
    for i := 0 to |groups|
      invariant forall f :: D.Lookup(fields[..i], groups[..i], f) == if f in values then Some(values[f]) else None
    {
      values := values[fields[i] := groups[i]];
      assert fields[..i + 1][..i] == fields[..i] && groups[..i + 1][..i] == groups[..i];
    }
    assert fields[..|groups|] == fields && groups[..|groups|] == groups;
  }

  method DecodePath(format: string, v: string, z: Zone) returns (r: Option<Time>)
    requires NoPath(format)
    ensures r == D.Decode(format, v, z)
  {
    hide Expression, D.Compile, D.GroupMapping, D.Find;
    var re := ExpressionOf(format);
    var mapping := MappingOf(format);
    var matches := D.Find(D.Compile(re), v);
    if matches == None {
      return None;
    }
    D.CompiledGroups(format);
    D.FindCounts(D.Compile(re), v);
    var values := ValuesOf(mapping, matches.value);
    var unixSec := if Unix in values then ParseInt(values[Unix]) else -1;
    if unixSec > 0 {
      r := Some(Time(unixSec, 0));
    } else {
      var year := if Year in values then ParseInt(values[Year]) else 0;
      var month := if Month in values then ParseInt(values[Month]) else 1;
      var day := if Day in values then ParseInt(values[Day]) else 1;
      var hour := if Hour in values then ParseInt(values[Hour]) else 0;
      var minute := if Minute in values then ParseInt(values[Minute]) else 0;
      var second := if Second in values then ParseInt(values[Second]) else 0;
      var micros := if Micros in values then ParseInt(values[Micros]) else 0;
      r := Some(Time(z.date(Civil(year, month, day, hour, minute, second)), micros * 1000));
    }
  }
}
