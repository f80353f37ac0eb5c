/** The external rendering of a logical activity identity in `kuberic-dex/src/identity.rs`, and its parser. */
module ExternalId {
  import opened Base
  import opened Identity

  // ---------------------------------------------------------------- hexadecimal

  function HexDigit(n: nat): (c: char)
    requires n < 16
    ensures c != ':'
  {
    if n < 10 then '0' + n as char else 'a' + (n - 10) as char
  }

  function HexValue(c: char): (n: Option<nat>)
    ensures n.Some? ==> n.value < 16
  {
    if '0' <= c <= '9' then Some((c - '0') as nat)
    else if 'a' <= c <= 'f' then Some((c - 'a') as nat + 10)
    else None
  }

  lemma HexDigitRoundTrip(n: nat)
    requires n < 16
    ensures HexValue(HexDigit(n)) == Some(n)
  {
  }

  /** Two lower-case digits per byte. */
  function Hex(bytes: Bytes): (s: string)
    ensures |s| == 2 * |bytes|
  {
    if bytes == [] then ""
    else [HexDigit(bytes[0] / 16), HexDigit(bytes[0] % 16)] + Hex(bytes[1..])
  }

  lemma {:induction false} HexJoin(a: Bytes, b: Bytes)
    ensures Hex(a + b) == Hex(a) + Hex(b)
  {
    hide HexDigit;
    if a == [] {
      assert a + b == b;
    } else {
      HexJoin(a[1..], b);
      assert (a + b)[1..] == a[1..] + b;
    }
  }

  method PushHex(output: string, bytes: Bytes) returns (rendered: string)
    ensures rendered == output + Hex(bytes)
  {
    rendered := output;
    assert bytes[..0] == [];
    for i := 0 to |bytes|
      invariant rendered == output + Hex(bytes[..i])
    {
      assert bytes[..i + 1] == bytes[..i] + [bytes[i]];
      HexJoin(bytes[..i], [bytes[i]]);
      assert [bytes[i]][1..] == [];
      assert Hex([bytes[i]]) == [HexDigit(bytes[i] / 16), HexDigit(bytes[i] % 16)] + Hex([]);
      rendered := rendered + [HexDigit(bytes[i] / 16), HexDigit(bytes[i] % 16)];
    }
    assert bytes[..|bytes|] == bytes;
  }

  function Unhex(s: string): (bytes: Option<Bytes>)
  {
    if s == "" then Some([])
    else if |s| == 1 then None
    else
      var high, low, rest := HexValue(s[0]), HexValue(s[1]), Unhex(s[2..]);
      if high.None? || low.None? || rest.None? then None
      else Some([16 * high.value + low.value] + rest.value)
  }

  lemma {:induction false} UnhexHex(bytes: Bytes)
    ensures Unhex(Hex(bytes)) == Some(bytes)
  {
    if bytes != [] {
      UnhexHex(bytes[1..]);
      HexDigitRoundTrip(bytes[0] / 16);
      HexDigitRoundTrip(bytes[0] % 16);
      assert Hex(bytes)[2..] == Hex(bytes[1..]);
      assert 16 * (bytes[0] / 16) + bytes[0] % 16 == bytes[0];
      assert [bytes[0]] + bytes[1..] == bytes;
    }
  }

  // ---------------------------------------------------------------- decimal

  function DigitValue(c: char): (n: Option<nat>)
    ensures n.Some? ==> n.value < 10
  {
    if '0' <= c <= '9' then Some((c - '0') as nat) else None
  }

  function ParseDecimal(s: string): (n: Option<nat>)
  {
    if s == "" then None
    else
      var last := DigitValue(s[|s| - 1]);
      if last.None? then None
      else if |s| == 1 then last
      else
        var rest := ParseDecimal(s[..|s| - 1]);
        if rest.None? then None else Some(10 * rest.value + last.value)
  }

  lemma {:induction false} ParseDecimalRendered(n: nat)
    ensures ParseDecimal(Decimal(n)) == Some(n)
  {
    if n >= 10 {
      ParseDecimalRendered(n / 10);
      assert Decimal(n)[..|Decimal(n)| - 1] == Decimal(n / 10);
    }
  }

  // ---------------------------------------------------------------- fields

  /** The text up to the first colon. */
  function Field(s: string): (f: string)
  {
    if s == "" || s[0] == ':' then "" else [s[0]] + Field(s[1..])
  }

  /** The text after the first colon. */
  function After(s: string): (f: string)
  {
    if s == "" then "" else if s[0] == ':' then s[1..] else After(s[1..])
  }

  lemma {:induction false} FieldSplits(f: string, rest: string)
    requires ':' !in f
    ensures Field(f + ":" + rest) == f && After(f + ":" + rest) == rest
  {
    var s := f + ":" + rest;
    if f == "" {
      assert s[1..] == rest;
    } else {
      FieldSplits(f[1..], rest);
      assert s[1..] == f[1..] + ":" + rest;
      assert s[0] == f[0];
    }
  }

  lemma {:induction false} HexHasNoColon(bytes: Bytes)
    ensures ':' !in Hex(bytes)
  {
    if bytes != [] { HexHasNoColon(bytes[1..]); }
  }

  lemma {:induction false} DecimalHasNoColon(n: nat)
    ensures ':' !in Decimal(n)
  {
    if n >= 10 { DecimalHasNoColon(n / 10); }
  }

  // ---------------------------------------------------------------- rendering and parsing

  const PREFIX: string := "logical:v2:"

  /** The six members of the identity tuple that the rendering carries. */
  datatype Identified = Identified(executionId: Bytes, sequence: nat, name: Bytes, version: nat, input: Bytes, maxResult: nat)

  function Members(id: LogicalActivityId): (m: Identified)
  {
    Identified(id.executionId, id.sequence, id.spec.name.name, id.spec.name.version, id.spec.input, id.spec.maxResult)
  }

  function FromInput(m: Identified): (s: string)
  {
    Decimal(|m.input|) + ":" + (Hex(m.input) + ":" + Decimal(m.maxResult))
  }

  function FromName(m: Identified): (s: string)
  {
    Decimal(|m.name|) + ":" + (Hex(m.name) + ":" + (Decimal(m.version) + ":" + FromInput(m)))
  }

  function Render(m: Identified): (s: string)
  {
    PREFIX + (Hex(m.executionId) + ":" + (Decimal(m.sequence) + ":" + FromName(m)))
  }

  method ToExternalId(id: LogicalActivityId) returns (rendered: string)
    ensures rendered == Render(Members(id))
  {
    hide Hex;
    hide Decimal;
    var m := Members(id);
    rendered := PushHex(PREFIX, m.executionId);
    var before := rendered;
    rendered := rendered + ":" + Decimal(m.sequence) + ":" + Decimal(|m.name|) + ":";
    rendered := PushHex(rendered, m.name);
    rendered := rendered + ":" + Decimal(m.version) + ":" + Decimal(|m.input|) + ":";
    rendered := PushHex(rendered, m.input);
    rendered := rendered + ":" + Decimal(m.maxResult);
    Associate(before, Decimal(m.sequence), Decimal(|m.name|), Hex(m.name), Decimal(m.version), Decimal(|m.input|),
              Hex(m.input), Decimal(m.maxResult));
    assert PREFIX + Hex(m.executionId) + (":" + (Decimal(m.sequence) + ":" + FromName(m)))
        == PREFIX + (Hex(m.executionId) + ":" + (Decimal(m.sequence) + ":" + FromName(m)));
  }

  lemma Associate(p: string, a: string, b: string, c: string, d: string, e: string, f: string, g: string)
    ensures p + ":" + a + ":" + b + ":" + c + ":" + d + ":" + e + ":" + f + ":" + g
         == p + (":" + (a + ":" + (b + ":" + (c + ":" + (d + ":" + (e + ":" + (f + ":" + g)))))))
  {
    var right := e + ":" + (f + ":" + g);
    assert e + ":" + f + ":" + g == right;
    var left := p + ":" + a + ":" + b + ":" + c + ":" + d + ":";
    assert left + e + ":" + f + ":" + g == left + right;
    assert left + right == p + ":" + a + ":" + b + ":" + c + ":" + (d + ":" + right);
    assert b + ":" + c + ":" + (d + ":" + right) == b + ":" + (c + ":" + (d + ":" + right));
  }

  function ParseInput(s: string): (r: Option<(Bytes, nat)>)
  {
    var rest := After(s);
    var input, maxResult := Unhex(Field(rest)), ParseDecimal(After(rest));
    if input.None? || maxResult.None? || ParseDecimal(Field(s)) != Some(|input.value|) then None
    else Some((input.value, maxResult.value))
  }

  function ParseName(s: string): (r: Option<(Bytes, nat, Bytes, nat)>)
  {
    var second := After(s);
    var third := After(second);
    var name, version, tail := Unhex(Field(second)), ParseDecimal(Field(third)), ParseInput(After(third));
    if name.None? || version.None? || tail.None? || ParseDecimal(Field(s)) != Some(|name.value|) then None
    else Some((name.value, version.value, tail.value.0, tail.value.1))
  }

  /** Recovers the identity tuple from its rendering, or refuses text that is not one. */
  function Parse(s: string): (m: Option<Identified>)
  {
    if !(PREFIX <= s) then None
    else
      var body := s[|PREFIX|..];
      var second := After(body);
      var executionId, sequence, rest := Unhex(Field(body)), ParseDecimal(Field(second)), ParseName(After(second));
      if executionId.None? || sequence.None? || rest.None? then None
      else Some(Identified(executionId.value, sequence.value, rest.value.0, rest.value.1, rest.value.2, rest.value.3))
  }

  lemma ParseInputRendered(m: Identified)
    ensures ParseInput(FromInput(m)) == Some((m.input, m.maxResult))
  {
    DecimalHasNoColon(|m.input|);
    HexHasNoColon(m.input);
    FieldSplits(Decimal(|m.input|), Hex(m.input) + ":" + Decimal(m.maxResult));
    FieldSplits(Hex(m.input), Decimal(m.maxResult));
    UnhexHex(m.input);
    ParseDecimalRendered(|m.input|);
    ParseDecimalRendered(m.maxResult);
  }

  lemma ParseNameRendered(m: Identified)
    ensures ParseName(FromName(m)) == Some((m.name, m.version, m.input, m.maxResult))
  {
    hide ParseInput;
    hide FromInput;
    DecimalHasNoColon(|m.name|);
    HexHasNoColon(m.name);
    DecimalHasNoColon(m.version);
    var tail := Decimal(m.version) + ":" + FromInput(m);
    FieldSplits(Decimal(|m.name|), Hex(m.name) + ":" + tail);
    FieldSplits(Hex(m.name), tail);
    FieldSplits(Decimal(m.version), FromInput(m));
    UnhexHex(m.name);
    ParseDecimalRendered(|m.name|);
    ParseDecimalRendered(m.version);
    ParseInputRendered(m);
  }

  /** The parser recovers every member of every rendering. */
  lemma ParseRendered(m: Identified)
    ensures Parse(Render(m)) == Some(m)
  {
    hide ParseName;
    hide FromName;
    HexHasNoColon(m.executionId);
    DecimalHasNoColon(m.sequence);
    var tail := Decimal(m.sequence) + ":" + FromName(m);
    assert Render(m)[|PREFIX|..] == Hex(m.executionId) + ":" + tail;
    FieldSplits(Hex(m.executionId), tail);
    FieldSplits(Decimal(m.sequence), FromName(m));
    UnhexHex(m.executionId);
    ParseDecimalRendered(m.sequence);
    ParseNameRendered(m);
  }

  /** Equal renderings name the same execution, sequence, name, version, input and result bound. */
  lemma RenderingUnambiguous(a: LogicalActivityId, b: LogicalActivityId)
    requires Render(Members(a)) == Render(Members(b))
    ensures Members(a) == Members(b)
  {
    hide Render;
    hide Parse;
    ParseRendered(Members(a));
    ParseRendered(Members(b));
  }

  /** The retry options and the input bound are not part of the rendering: identities differing only there collide. */
  lemma OptionsNotRendered(id: LogicalActivityId, options: ActivityOptions, maxInput: u64)
    ensures
      var other := id.(spec := id.spec.(options := options, maxInput := maxInput));
      Render(Members(other)) == Render(Members(id))
  {
  }
}
