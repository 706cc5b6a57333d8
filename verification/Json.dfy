/**
 The canonical JSON text that is hashed: keys sorted by code point, no whitespace, everything
 outside printable ASCII escaped (section 7 of RFC 8259). A reader of that text gives back every
 nested value, so the text stands for the value up to the order of dictionary keys.
 */
module Json {
  import opened Text

  /** A dictionary keeps its insertion order, as Python's does; its keys are distinct (`DistinctKeys`). */
  datatype Value =
    | Null
    | Bool(b: bool)
    | Num(n: int)
    | Str(s: string)
    | Arr(items: seq<Value>)
    | Obj(fields: seq<Field>)

  datatype Field = Field(key: string, value: Value)

  ghost predicate NoRepeats(fields: seq<Field>) {
    forall i, j :: 0 <= i < j < |fields| ==> fields[i].key != fields[j].key
  }

  ghost predicate DistinctKeys(v: Value) {
    match v
    case Arr(items) => forall i :: 0 <= i < |items| ==> DistinctKeys(items[i])
    case Obj(fields) => NoRepeats(fields) && forall i :: 0 <= i < |fields| ==> DistinctKeys(fields[i].value)
    case _ => true
  }

  // ---- sorting keys -------------------------------------------------------------

  function InsertField(f: Field, fields: seq<Field>): (r: seq<Field>)
    ensures |r| == |fields| + 1
  {
    if fields == [] || Le(f.key, fields[0].key) then [f] + fields
    else [fields[0]] + InsertField(f, fields[1..])
  }

  function SortFields(fields: seq<Field>): (r: seq<Field>)
    ensures |r| == |fields|
  {
    if fields == [] then [] else InsertField(fields[0], SortFields(fields[1..]))
  }

  ghost predicate Ascending(fields: seq<Field>) {
    forall i, j :: 0 <= i < j < |fields| ==> Le(fields[i].key, fields[j].key)
  }

  lemma {:induction false} InsertFieldSorts(f: Field, fields: seq<Field>)
    requires Ascending(fields)
    ensures Ascending(InsertField(f, fields))
    ensures multiset(InsertField(f, fields)) == multiset{f} + multiset(fields)
  {
    if fields == [] {
    } else if Le(f.key, fields[0].key) {
      forall j | 0 <= j < |fields| ensures Le(f.key, fields[j].key) {
        if j > 0 { LeTransitive(f.key, fields[0].key, fields[j].key); }
      }
    } else {
      var tail := InsertField(f, fields[1..]);
      InsertFieldSorts(f, fields[1..]);
      assert fields == [fields[0]] + fields[1..];
      forall j | 0 <= j < |tail| ensures Le(fields[0].key, tail[j].key) {
        assert tail[j] in multiset(tail);
        LeTotal(f.key, fields[0].key);
        if tail[j] != f { assert tail[j] in fields[1..]; }
      }
    }
  }

  lemma {:induction false} SortFieldsSorts(fields: seq<Field>)
    ensures Ascending(SortFields(fields))
    ensures multiset(SortFields(fields)) == multiset(fields)
  {
    if fields != [] {
      SortFieldsSorts(fields[1..]);
      InsertFieldSorts(fields[0], SortFields(fields[1..]));
      assert fields == [fields[0]] + fields[1..];
    }
  }

  // ---- canonical form and text --------------------------------------------------

  /** The value `json.dumps(..., sort_keys=True)` walks: every dictionary in key order. */
  function Canon(v: Value): Value
    decreases v, 1
  {
    match v
    case Arr(items) => Arr(CanonItems(items))
    case Obj(fields) => Obj(SortFields(CanonFields(fields)))
    case _ => v
  }

  function CanonItems(items: seq<Value>): (r: seq<Value>)
    ensures |r| == |items|
    ensures forall i :: 0 <= i < |items| ==> r[i] == Canon(items[i])
    decreases items, 0
  {
    if items == [] then [] else [Canon(items[0])] + CanonItems(items[1..])
  }

  function CanonFields(fields: seq<Field>): (r: seq<Field>)
    ensures |r| == |fields|
    ensures forall i :: 0 <= i < |fields| ==> r[i] == Field(fields[i].key, Canon(fields[i].value))
    decreases fields, 0
  {
    if fields == [] then []
    else [Field(fields[0].key, Canon(fields[0].value))] + CanonFields(fields[1..])
  }

  /** A code point outside the basic plane, as two escaped UTF-16 units; the first `\u` is left to the caller. */
  function SurrogatePair(n: int): string
    requires 0x1_0000 <= n < 0x11_0000
  {
    Hex4(0xD800 + (n - 0x1_0000) / 0x400) + ("\\u" + Hex4(0xDC00 + (n - 0x1_0000) % 0x400))
  }

  /** One character inside a JSON string literal. */
  function Escape(c: char): (s: string)
    ensures s != [] && s[0] != '"'
  {
    var n := c as int;
    if c == '"' then "\\\""
    else if c == '\\' then "\\\\"
    else if n == 0x0A then "\\n"
    else if n == 0x0D then "\\r"
    else if n == 0x09 then "\\t"
    else if n == 0x0C then "\\f"
    else if n == 0x08 then "\\b"
    else if ' ' <= c <= '~' then [c]
    else if n < 0x1_0000 then "\\u" + Hex4(n)
    else "\\u" + SurrogatePair(n)
  }

  function EscapeAll(s: string): (r: string)
  {
    if s == [] then [] else Escape(s[0]) + EscapeAll(s[1..])
  }

  function IntText(n: int): (s: string)
    ensures s != [] && (s[0] == '-' || IsDigit(s[0]))
  {
    if n < 0 then "-" + Decimal(-n) else Decimal(n)
  }

  function Render(v: Value): (r: string)
    ensures r != []
    decreases v, 1
  {
    match v
    case Null => "null"
    case Bool(b) => if b then "true" else "false"
    case Num(n) => IntText(n)
    case Str(s) => "\"" + EscapeAll(s) + "\""
    case Arr(items) => "[" + RenderArray(items)
    case Obj(fields) => "{" + RenderObject(fields)
  }

  function RenderArray(items: seq<Value>): (r: string)
    ensures r != []
    decreases items, 1
  {
    if items == [] then "]" else Render(items[0]) + RenderItems(items[1..])
  }

  function RenderObject(fields: seq<Field>): (r: string)
    ensures r != []
    decreases fields, 1
  {
    if fields == [] then "}" else RenderField(fields[0]) + RenderFields(fields[1..])
  }

  /** The elements after the first, each after a comma, and the closing bracket. */
  function RenderItems(items: seq<Value>): (r: string)
    ensures r != [] && !IsDigit(r[0])
    decreases items, 0
  {
    if items == [] then "]" else "," + Render(items[0]) + RenderItems(items[1..])
  }

  function RenderField(f: Field): (r: string)
    ensures r != []
    decreases f, 2
  {
    "\"" + EscapeAll(f.key) + "\":" + Render(f.value)
  }

  function RenderFields(fields: seq<Field>): (r: string)
    ensures r != [] && !IsDigit(r[0])
    decreases fields, 0
  {
    if fields == [] then "}" else "," + RenderField(fields[0]) + RenderFields(fields[1..])
  }

  /** The text that is hashed and exported. */
  function CanonicalJson(v: Value): (r: string)
    ensures r != []
  {
    Render(Canon(v))
  }

  // ---- reader -------------------------------------------------------------------

  datatype Read<T> = Read(value: T, rest: string)

  function ReadHex4(s: string): (r: Option<Read<int>>)
    ensures r.Some? ==> |r.value.rest| < |s| && 0 <= r.value.value < 0x1_0000
  {
    if |s| >= 4 && IsHex(s[0]) && IsHex(s[1]) && IsHex(s[2]) && IsHex(s[3])
    then Some(Read(Hex4Value(s[..4]), s[4..]))
    else None
  }

  function ReadUnicode(s: string): (r: Option<Read<char>>)
    ensures r.Some? ==> |r.value.rest| < |s|
  {
    match ReadHex4(s)
    case None => None
    case Some(Read(u, rest)) =>
      if 0xD800 <= u < 0xDC00 then
        if |rest| >= 2 && rest[0] == '\\' && rest[1] == 'u' then
          match ReadHex4(rest[2..])
          case None => None
          case Some(Read(w, rest')) =>
            if 0xDC00 <= w < 0xE000
            then Some(Read((0x1_0000 + (u - 0xD800) * 0x400 + (w - 0xDC00)) as char, rest'))
            else None
        else None
      else if 0xDC00 <= u < 0xE000 then None
      else Some(Read(u as char, rest))
  }

  /** One possibly escaped character of a string literal. */
  function ReadChar(s: string): (r: Option<Read<char>>)
    requires s != []
    ensures r.Some? ==> |r.value.rest| < |s|
  {
    if s[0] != '\\' then Some(Read(s[0], s[1..]))
    else if |s| < 2 then None
    else if s[1] == '"' || s[1] == '\\' then Some(Read(s[1], s[2..]))
    else if s[1] == 'n' then Some(Read(0x0A as char, s[2..]))
    else if s[1] == 'r' then Some(Read(0x0D as char, s[2..]))
    else if s[1] == 't' then Some(Read(0x09 as char, s[2..]))
    else if s[1] == 'f' then Some(Read(0x0C as char, s[2..]))
    else if s[1] == 'b' then Some(Read(0x08 as char, s[2..]))
    else if s[1] == 'u' then ReadUnicode(s[2..])
    else None
  }

  /** The characters up to the closing quote, which is consumed. */
  function ReadString(s: string): (r: Option<Read<string>>)
    ensures r.Some? ==> |r.value.rest| < |s|
    decreases |s|
  {
    if s == [] then None
    else if s[0] == '"' then Some(Read([], s[1..]))
    else
      match ReadChar(s)
      case None => None
      case Some(Read(c, rest)) =>
        match ReadString(rest)
        case None => None
        case Some(Read(cs, rest')) => Some(Read([c] + cs, rest'))
  }

  function ReadDigits(s: string, sign: int): (r: Option<Read<Value>>)
    ensures r.Some? ==> |r.value.rest| < |s|
  {
    var k := DigitRun(s);
    if k == 0 then None else Some(Read(Num(sign * DecimalValue(s[..k])), s[k..]))
  }

  /** null, true, false or an integer. */
  function ReadScalar(s: string): (r: Option<Read<Value>>)
    requires s != []
    ensures r.Some? ==> |r.value.rest| < |s|
  {
    if s[0] == '-' then ReadDigits(s[1..], -1)
    else if IsDigit(s[0]) then ReadDigits(s, 1)
    else if "null" <= s then Some(Read(Null, s[4..]))
    else if "true" <= s then Some(Read(Bool(true), s[4..]))
    else if "false" <= s then Some(Read(Bool(false), s[5..]))
    else None
  }

  function ReadValue(s: string): (r: Option<Read<Value>>)
    ensures r.Some? ==> |r.value.rest| < |s|
    decreases |s|, 1
  {
    if s == [] then None
    else if s[0] == '"' then
      match ReadString(s[1..])
      case None => None
      case Some(Read(cs, rest)) => Some(Read(Str(cs), rest))
    else if s[0] == '[' then
      match ReadArray(s[1..])
      case None => None
      case Some(Read(vs, rest)) => Some(Read(Arr(vs), rest))
    else if s[0] == '{' then
      match ReadObject(s[1..])
      case None => None
      case Some(Read(fs, rest)) => Some(Read(Obj(fs), rest))
    else ReadScalar(s)
  }

  function ReadArray(s: string): (r: Option<Read<seq<Value>>>)
    ensures r.Some? ==> |r.value.rest| < |s|
    decreases |s|, 2
  {
    if s != [] && s[0] == ']' then Some(Read([], s[1..]))
    else
      match ReadValue(s)
      case None => None
      case Some(Read(v, rest)) =>
        match ReadItems(rest)
        case None => None
        case Some(Read(vs, rest')) => Some(Read([v] + vs, rest'))
  }

  function ReadObject(s: string): (r: Option<Read<seq<Field>>>)
    ensures r.Some? ==> |r.value.rest| < |s|
    decreases |s|, 3
  {
    if s != [] && s[0] == '}' then Some(Read([], s[1..]))
    else
      match ReadField(s)
      case None => None
      case Some(Read(f, rest)) =>
        match ReadFields(rest)
        case None => None
        case Some(Read(fs, rest')) => Some(Read([f] + fs, rest'))
  }

  function ReadItems(s: string): (r: Option<Read<seq<Value>>>)
    ensures r.Some? ==> |r.value.rest| < |s|
    decreases |s|, 0
  {
    if s == [] then None
    else if s[0] == ']' then Some(Read([], s[1..]))
    else if s[0] == ',' then
      match ReadValue(s[1..])
      case None => None
      case Some(Read(v, rest)) =>
        match ReadItems(rest)
        case None => None
        case Some(Read(vs, rest')) => Some(Read([v] + vs, rest'))
    else None
  }

  function ReadField(s: string): (r: Option<Read<Field>>)
    ensures r.Some? ==> |r.value.rest| < |s|
    decreases |s|, 2
  {
    if s == [] || s[0] != '"' then None
    else
      match ReadString(s[1..])
      case None => None
      case Some(Read(k, rest)) =>
        if rest == [] || rest[0] != ':' then None
        else
          match ReadValue(rest[1..])
          case None => None
          case Some(Read(v, rest')) => Some(Read(Field(k, v), rest'))
  }

  function ReadFields(s: string): (r: Option<Read<seq<Field>>>)
    ensures r.Some? ==> |r.value.rest| < |s|
    decreases |s|, 0
  {
    if s == [] then None
    else if s[0] == '}' then Some(Read([], s[1..]))
    else if s[0] == ',' then
      match ReadField(s[1..])
      case None => None
      case Some(Read(f, rest)) =>
        match ReadFields(rest)
        case None => None
        case Some(Read(fs, rest')) => Some(Read([f] + fs, rest'))
    else None
  }

  // ---- the reader undoes the printer --------------------------------------------

  lemma Regroup(a: string, b: string, rest: string)
    ensures a + b + rest == a + (b + rest)
  {
  }

  lemma OpenShape(mark: string, a: string, rest: string)
    requires |mark| == 1
    ensures (mark + a + rest)[0] == mark[0] && (mark + a + rest)[1..] == a + rest
  {
  }

  lemma CommaShape(a: string, b: string, rest: string)
    ensures ("," + a + b + rest)[0] == ',' && ("," + a + b + rest)[1..] == a + (b + rest)
  {
  }

  lemma StringShape(a: string, rest: string)
    ensures ("\"" + a + "\"" + rest)[0] == '"' && ("\"" + a + "\"" + rest)[1..] == a + "\"" + rest
  {
  }

  lemma FieldShape(a: string, b: string, rest: string)
    ensures ("\"" + a + "\":" + b + rest)[0] == '"'
    ensures ("\"" + a + "\":" + b + rest)[1..] == a + "\"" + (":" + b + rest)
    ensures (":" + b + rest)[0] == ':' && (":" + b + rest)[1..] == b + rest
  {
  }

  lemma ReadHex4Text(n: int, rest: string)
    requires 0 <= n < 0x1_0000
    ensures ReadHex4(Hex4(n) + rest) == Some(Read(n, rest))
  {
    Hex4RoundTrip(n);
    var s := Hex4(n) + rest;
    assert s[..4] == Hex4(n) && s[4..] == rest;
  }

  lemma ReadSurrogatePair(n: int, q: int, r: int, rest: string)
    requires 0 <= q < 0x400 && 0 <= r < 0x400 && n == 0x1_0000 + q * 0x400 + r
    ensures ReadUnicode(Hex4(0xD800 + q) + ("\\u" + Hex4(0xDC00 + r)) + rest) == Some(Read(n as char, rest))
  {
    hide Hex4, ReadHex4;
    var after := "\\u" + Hex4(0xDC00 + r) + rest;
    assert Hex4(0xD800 + q) + ("\\u" + Hex4(0xDC00 + r)) + rest == Hex4(0xD800 + q) + after;
    ReadHex4Text(0xD800 + q, after);
    assert after[2..] == Hex4(0xDC00 + r) + rest;
    ReadHex4Text(0xDC00 + r, rest);
  }

  lemma ReadUnicodeEscape(c: char, rest: string)
    requires (c as int) < 0x1_0000
    ensures ReadUnicode(Hex4(c as int) + rest) == Some(Read(c, rest))
  {
    ReadHex4Text(c as int, rest);
  }

  lemma ReadShortEscape(c: char, rest: string)
    requires |Escape(c)| <= 2
    ensures ReadChar(Escape(c) + rest) == Some(Read(c, rest))
  {
    var s := Escape(c) + rest;
    if |Escape(c)| == 2 {
      assert s[0] == '\\' && s[1] == Escape(c)[1] && s[2..] == rest;
    } else {
      assert s[0] == c && s[1..] == rest;
    }
  }

  lemma ReadLongEscape(body: string, rest: string)
    ensures ReadChar("\\u" + body + rest) == ReadUnicode(body + rest)
  {
    var s := "\\u" + body + rest;
    assert s[0] == '\\' && s[1] == 'u' && s[2..] == body + rest;
  }

  lemma ReadEscaped(c: char, rest: string)
    ensures ReadChar(Escape(c) + rest) == Some(Read(c, rest))
  {
    var n := c as int;
    if |Escape(c)| <= 2 {
      ReadShortEscape(c, rest);
    } else if n < 0x1_0000 {
      assert Escape(c) == "\\u" + Hex4(n);
      ReadLongEscape(Hex4(n), rest);
      ReadUnicodeEscape(c, rest);
    } else {
      assert Escape(c) == "\\u" + SurrogatePair(n);
      ReadLongEscape(SurrogatePair(n), rest);
      ReadSurrogatePair(n, (n - 0x1_0000) / 0x400, (n - 0x1_0000) % 0x400, rest);
    }
  }

  lemma {:induction false} ReadEscapedString(cs: string, rest: string)
    ensures ReadString(EscapeAll(cs) + "\"" + rest) == Some(Read(cs, rest))
  {
    hide Escape, ReadChar;
    if cs == [] {
      assert EscapeAll(cs) + "\"" + rest == "\"" + rest;
      assert ("\"" + rest)[1..] == rest;
    } else {
      var first, others := Escape(cs[0]), EscapeAll(cs[1..]);
      var tail := others + "\"" + rest;
      Regroup(first, others, "\"");
      Regroup(first, others + "\"", rest);
      ReadEscaped(cs[0], tail);
      ReadEscapedString(cs[1..], rest);
      assert (first + tail)[0] == first[0];
      assert [cs[0]] + cs[1..] == cs;
    }
  }

  lemma ReadDecimal(n: nat, sign: int, rest: string)
    requires rest == [] || !IsDigit(rest[0])
    ensures ReadDigits(Decimal(n) + rest, sign) == Some(Read(Num(sign * n), rest))
  {
    var digits := Decimal(n);
    DigitRunExact(digits, rest);
    DecimalRoundTrip(n);
    assert (digits + rest)[..|digits|] == digits && (digits + rest)[|digits|..] == rest;
  }

  lemma ReadNegative(digits: string, rest: string)
    ensures ReadScalar("-" + digits + rest) == ReadDigits(digits + rest, -1)
  {
    assert ("-" + digits + rest)[1..] == digits + rest;
  }

  lemma ReadIntText(n: int, rest: string)
    requires rest == [] || !IsDigit(rest[0])
    ensures ReadScalar(IntText(n) + rest) == Some(Read(Num(n), rest))
  {
    hide ReadDigits;
    if n < 0 {
      ReadDecimal(-n, -1, rest);
      ReadNegative(Decimal(-n), rest);
    } else {
      ReadDecimal(n, 1, rest);
      assert IsDigit((Decimal(n) + rest)[0]);
    }
  }

  lemma ReadLiteral(v: Value, rest: string)
    requires v.Null? || v.Bool?
    ensures ReadScalar(Render(v) + rest) == Some(Read(v, rest))
  {
    var s := Render(v) + rest;
    var k := |Render(v)|;
    assert s[..k] == Render(v) && s[k..] == rest;
    assert Render(v) <= s;
  }

  lemma {:induction false} ReadRendered(v: Value, rest: string)
    requires rest == [] || !IsDigit(rest[0])
    ensures ReadValue(Render(v) + rest) == Some(Read(v, rest))
    decreases v, 1
  {
    hide RenderArray, RenderObject, ReadArray, ReadObject, ReadString, ReadScalar, EscapeAll, IntText;
    match v
    case Null =>
      ReadLiteral(v, rest);
      assert (Render(v) + rest)[0] == 'n';
    case Bool(b) =>
      ReadLiteral(v, rest);
      assert (Render(v) + rest)[0] == if b then 't' else 'f';
    case Num(n) =>
      ReadIntText(n, rest);
      assert (IntText(n) + rest)[0] == IntText(n)[0];
    case Str(cs) =>
      StringShape(EscapeAll(cs), rest);
      ReadEscapedString(cs, rest);
    case Arr(items) =>
      OpenShape("[", RenderArray(items), rest);
      ReadRenderedArray(items, rest);
    case Obj(fields) =>
      OpenShape("{", RenderObject(fields), rest);
      ReadRenderedObject(fields, rest);
  }

  lemma RenderStart(v: Value)
    ensures Render(v)[0] != ']'
  {
  }

  lemma {:induction false} ReadRenderedArray(items: seq<Value>, rest: string)
    ensures ReadArray(RenderArray(items) + rest) == Some(Read(items, rest))
    decreases items, 1
  {
    hide Render, ReadValue, ReadItems, RenderItems;
    if items == [] {
      assert ("]" + rest)[1..] == rest;
    } else {
      var first, others := Render(items[0]), RenderItems(items[1..]);
      Regroup(first, others, rest);
      ReadRendered(items[0], others + rest);
      ReadRenderedItems(items[1..], rest);
      RenderStart(items[0]);
      assert (first + (others + rest))[0] == first[0];
      assert [items[0]] + items[1..] == items;
    }
  }

  lemma {:induction false} ReadRenderedItems(items: seq<Value>, rest: string)
    ensures ReadItems(RenderItems(items) + rest) == Some(Read(items, rest))
    decreases items, 0
  {
    hide Render, ReadValue;
    if items == [] {
      assert ("]" + rest)[1..] == rest;
    } else {
      var first, others := Render(items[0]), RenderItems(items[1..]);
      CommaShape(first, others, rest);
      ReadRendered(items[0], others + rest);
      ReadRenderedItems(items[1..], rest);
      assert [items[0]] + items[1..] == items;
    }
  }

  lemma {:induction false} ReadRenderedObject(fields: seq<Field>, rest: string)
    ensures ReadObject(RenderObject(fields) + rest) == Some(Read(fields, rest))
    decreases fields, 1
  {
    hide ReadField, ReadFields, RenderFields;
    if fields == [] {
      assert ("}" + rest)[1..] == rest;
    } else {
      var first, others := RenderField(fields[0]), RenderFields(fields[1..]);
      Regroup(first, others, rest);
      ReadRenderedField(fields[0], others + rest);
      ReadRenderedFields(fields[1..], rest);
      assert (first + (others + rest))[0] == first[0] == '"';
      assert [fields[0]] + fields[1..] == fields;
    }
  }

  lemma {:induction false} ReadRenderedField(f: Field, rest: string)
    requires rest == [] || !IsDigit(rest[0])
    ensures ReadField(RenderField(f) + rest) == Some(Read(f, rest))
    decreases f, 2
  {
    hide Render, ReadValue, ReadString, EscapeAll;
    FieldShape(EscapeAll(f.key), Render(f.value), rest);
    ReadEscapedString(f.key, ":" + Render(f.value) + rest);
    ReadRendered(f.value, rest);
  }

  lemma {:induction false} ReadRenderedFields(fields: seq<Field>, rest: string)
    ensures ReadFields(RenderFields(fields) + rest) == Some(Read(fields, rest))
    decreases fields, 0
  {
    hide RenderField, ReadField;
    if fields == [] {
      assert ("}" + rest)[1..] == rest;
    } else {
      var first, others := RenderField(fields[0]), RenderFields(fields[1..]);
      CommaShape(first, others, rest);
      ReadRenderedField(fields[0], others + rest);
      ReadRenderedFields(fields[1..], rest);
      assert [fields[0]] + fields[1..] == fields;
    }
  }

  /** Parsing the canonical text of `v` gives back every nested value, keys in order. */
  lemma CanonicalRoundTrip(v: Value)
    ensures ReadValue(CanonicalJson(v)) == Some(Read(Canon(v), []))
  {
    ReadRendered(Canon(v), []);
    assert Render(Canon(v)) + [] == Render(Canon(v));
  }

  // ---- equality up to key order -------------------------------------------------

  ghost predicate HasKey(fields: seq<Field>, key: string) {
    exists j :: 0 <= j < |fields| && fields[j].key == key
  }

  /** Python's `==` on JSON values: dictionaries compare as mappings, whatever their insertion order. */
  ghost predicate Same(a: Value, b: Value)
    decreases a
  {
    match (a, b)
    case (Arr(xs), Arr(ys)) =>
      |xs| == |ys| && forall i :: 0 <= i < |xs| ==> Same(xs[i], ys[i])
    case (Obj(fs), Obj(gs)) =>
      && |fs| == |gs|
      && (forall i :: 0 <= i < |fs| ==> HasKey(gs, fs[i].key))
      && (forall i, j :: 0 <= i < |fs| && 0 <= j < |gs| && fs[i].key == gs[j].key ==> Same(fs[i].value, gs[j].value))
    case _ => a == b
  }

  /** The front of an ascending, repeat-free list is the only entry with the least key. */
  lemma FrontIsLeast(fs: seq<Field>, gs: seq<Field>)
    requires Ascending(fs) && Ascending(gs)
    requires fs != [] && gs != [] && fs[0] in gs && gs[0] in fs
    ensures fs[0].key == gs[0].key
  {
    var i :| 0 <= i < |gs| && gs[i] == fs[0];
    var j :| 0 <= j < |fs| && fs[j] == gs[0];
    LeTotal(fs[0].key, gs[0].key);
  }

  lemma TailMultisets(fs: seq<Field>, gs: seq<Field>)
    requires fs != [] && gs != [] && fs[0] == gs[0] && multiset(fs) == multiset(gs)
    ensures multiset(fs[1..]) == multiset(gs[1..])
  {
    assert fs == [fs[0]] + fs[1..] && gs == [gs[0]] + gs[1..];
    assert multiset(fs[1..]) == multiset(fs) - multiset{fs[0]};
    assert multiset(gs[1..]) == multiset(gs) - multiset{gs[0]};
  }

  lemma SameFront(fs: seq<Field>, gs: seq<Field>)
    requires NoRepeats(fs) && Ascending(fs) && Ascending(gs)
    requires multiset(fs) == multiset(gs) && fs != []
    ensures gs != [] && fs[0] == gs[0]
  {
    assert |gs| == |multiset(gs)| == |multiset(fs)| == |fs|;
    assert fs[0] in multiset(fs) && gs[0] in multiset(gs);
    FrontIsLeast(fs, gs);
    var j :| 0 <= j < |fs| && fs[j] == gs[0];
    assert fs[0].key == fs[j].key;
  }

  lemma {:induction false} SortedIsUnique(fs: seq<Field>, gs: seq<Field>)
    requires NoRepeats(fs) && Ascending(fs) && Ascending(gs)
    requires multiset(fs) == multiset(gs)
    ensures fs == gs
  {
    if fs == [] {
      assert |multiset(gs)| == 0;
    } else {
      SameFront(fs, gs);
      TailMultisets(fs, gs);
      SortedIsUnique(fs[1..], gs[1..]);
      assert fs == [fs[0]] + fs[1..] && gs == [gs[0]] + gs[1..];
    }
  }

  lemma {:induction false} InsertFieldNoRepeats(f: Field, fields: seq<Field>)
    requires NoRepeats(fields) && forall i :: 0 <= i < |fields| ==> fields[i].key != f.key
    ensures NoRepeats(InsertField(f, fields))
    ensures forall x :: x in InsertField(f, fields) ==> x == f || x in fields
  {
    if fields != [] && !Le(f.key, fields[0].key) {
      InsertFieldNoRepeats(f, fields[1..]);
      var tail := InsertField(f, fields[1..]);
      forall j | 0 <= j < |tail| ensures tail[j].key != fields[0].key {
        assert tail[j] in tail;
      }
    }
  }

  lemma {:induction false} SortFieldsNoRepeats(fields: seq<Field>)
    requires NoRepeats(fields)
    ensures NoRepeats(SortFields(fields))
  {
    if fields != [] {
      var tail := SortFields(fields[1..]);
      SortFieldsNoRepeats(fields[1..]);
      SortFieldsSorts(fields[1..]);
      forall i | 0 <= i < |tail| ensures tail[i].key != fields[0].key {
        assert tail[i] in multiset(fields[1..]);
      }
      InsertFieldNoRepeats(fields[0], tail);
    }
  }

  lemma RemoveAt(gs: seq<Field>, j: nat)
    requires j < |gs| && NoRepeats(gs)
    ensures NoRepeats(gs[..j] + gs[j + 1..])
    ensures multiset(gs) == multiset{gs[j]} + multiset(gs[..j] + gs[j + 1..])
    ensures forall k :: 0 <= k < |gs| && gs[k].key != gs[j].key ==> gs[k] in gs[..j] + gs[j + 1..]
  {
    assert gs == gs[..j] + [gs[j]] + gs[j + 1..];
    forall k | 0 <= k < |gs| && gs[k].key != gs[j].key ensures gs[k] in gs[..j] + gs[j + 1..] {
      assert k < j ==> gs[..j][k] == gs[k];
      assert k > j ==> gs[j + 1..][k - j - 1] == gs[k];
    }
  }

  lemma TailIncluded(fs: seq<Field>, gs: seq<Field>, j: nat)
    requires NoRepeats(fs) && NoRepeats(gs) && fs != [] && j < |gs| && gs[j] == fs[0]
    requires forall i :: 0 <= i < |fs| ==> fs[i] in gs
    ensures forall i :: 0 <= i < |fs[1..]| ==> fs[1..][i] in gs[..j] + gs[j + 1..]
  {
    RemoveAt(gs, j);
    forall i | 0 <= i < |fs[1..]| ensures fs[1..][i] in gs[..j] + gs[j + 1..] {
      assert fs[1..][i] == fs[i + 1] && fs[i + 1].key != fs[0].key;
      var k :| 0 <= k < |gs| && gs[k] == fs[i + 1];
    }
  }

  lemma {:induction false} IncludedIsPermutation(fs: seq<Field>, gs: seq<Field>)
    requires NoRepeats(fs) && NoRepeats(gs) && |fs| == |gs|
    requires forall i :: 0 <= i < |fs| ==> fs[i] in gs
    ensures multiset(fs) == multiset(gs)
  {
    hide NoRepeats;
    if fs != [] {
      assert fs[0] in gs;
      var j :| 0 <= j < |gs| && gs[j] == fs[0];
      var others := gs[..j] + gs[j + 1..];
      assert multiset(gs) == multiset{gs[j]} + multiset(others) && NoRepeats(others) by { RemoveAt(gs, j); }
      TailIncluded(fs, gs, j);
      assert fs == [fs[0]] + fs[1..];
      RemoveAt(fs, 0);
      assert [] + fs[1..] == fs[1..];
      IncludedIsPermutation(fs[1..], others);
    }
  }

  /** Two dictionaries sort to the same list exactly when each entry of one is in the other. */
  lemma SortedAgree(fs: seq<Field>, gs: seq<Field>)
    requires NoRepeats(fs) && NoRepeats(gs)
    ensures SortFields(fs) == SortFields(gs)
       <==> |fs| == |gs| && forall i :: 0 <= i < |fs| ==> fs[i] in gs
  {
    SortFieldsSorts(fs);
    SortFieldsSorts(gs);
    if SortFields(fs) == SortFields(gs) {
      forall i | 0 <= i < |fs| ensures fs[i] in gs {
        assert fs[i] in multiset(fs);
      }
    }
    if |fs| == |gs| && forall i :: 0 <= i < |fs| ==> fs[i] in gs {
      IncludedIsPermutation(fs, gs);
      SortFieldsNoRepeats(fs);
      SortedIsUnique(SortFields(fs), SortFields(gs));
    }
  }

  lemma SameDictionary(fs: seq<Field>, gs: seq<Field>)
    requires |fs| == |gs|
    ensures Same(Obj(fs), Obj(gs)) <==>
      && (forall i :: 0 <= i < |fs| ==> HasKey(gs, fs[i].key))
      && (forall i, j :: 0 <= i < |fs| && 0 <= j < |gs| && fs[i].key == gs[j].key ==> Same(fs[i].value, gs[j].value))
  {
  }

  /** The entries of two dictionaries compared through their canonical values. */
  ghost predicate EntriesComparable(fs: seq<Field>, gs: seq<Field>) {
    forall i, j :: 0 <= i < |fs| && 0 <= j < |gs| ==>
      (fs[i].key == gs[j].key && Same(fs[i].value, gs[j].value) <==> CanonFields(fs)[i] == CanonFields(gs)[j])
  }

  lemma SameHasEntries(fs: seq<Field>, gs: seq<Field>)
    requires |fs| == |gs| && EntriesComparable(fs, gs) && Same(Obj(fs), Obj(gs))
    ensures forall i :: 0 <= i < |fs| ==> CanonFields(fs)[i] in CanonFields(gs)
  {
    hide Same, Canon;
    SameDictionary(fs, gs);
    forall i | 0 <= i < |fs| ensures CanonFields(fs)[i] in CanonFields(gs) {
      assert HasKey(gs, fs[i].key);
      var j :| 0 <= j < |gs| && gs[j].key == fs[i].key;
      assert CanonFields(fs)[i] == CanonFields(gs)[j];
    }
  }

  lemma EntriesAreSame(fs: seq<Field>, gs: seq<Field>)
    requires NoRepeats(gs) && |fs| == |gs| && EntriesComparable(fs, gs)
    requires forall i :: 0 <= i < |fs| ==> CanonFields(fs)[i] in CanonFields(gs)
    ensures Same(Obj(fs), Obj(gs))
  {
    hide Same, Canon;
    SameDictionary(fs, gs);
    forall i | 0 <= i < |fs|
      ensures HasKey(gs, fs[i].key)
      ensures forall j :: 0 <= j < |gs| && fs[i].key == gs[j].key ==> Same(fs[i].value, gs[j].value)
    {
      assert CanonFields(fs)[i] in CanonFields(gs);
      var k :| 0 <= k < |gs| && CanonFields(gs)[k] == CanonFields(fs)[i];
      assert gs[k].key == fs[i].key && Same(fs[i].value, gs[k].value);
      forall j | 0 <= j < |gs| && fs[i].key == gs[j].key ensures j == k { assert gs[j].key == gs[k].key; }
    }
  }

  lemma {:induction false} CanonDecidesSame(a: Value, b: Value)
    requires DistinctKeys(a) && DistinctKeys(b)
    ensures Same(a, b) <==> Canon(a) == Canon(b)
    decreases a
  {
    match (a, b) {
      case (Arr(xs), Arr(ys)) =>
        if |xs| == |ys| {
          forall i | 0 <= i < |xs| ensures Same(xs[i], ys[i]) <==> CanonItems(xs)[i] == CanonItems(ys)[i] {
            CanonDecidesSame(xs[i], ys[i]);
          }
        }
      case (Obj(fs), Obj(gs)) =>
        var cf, cg := CanonFields(fs), CanonFields(gs);
        SortedAgree(cf, cg);
        forall i, j | 0 <= i < |fs| && 0 <= j < |gs|
          ensures fs[i].key == gs[j].key && Same(fs[i].value, gs[j].value) <==> cf[i] == cg[j]
        {
          CanonDecidesSame(fs[i].value, gs[j].value);
        }
        if Same(a, b) { SameHasEntries(fs, gs); }
        if |fs| == |gs| && forall i :: 0 <= i < |cf| ==> cf[i] in cg { EntriesAreSame(fs, gs); }
      case _ =>
    }
  }

  /**
   The hashed text determines the value up to key order, and key order does not change the text.
   */
  lemma CanonicalJsonDeterminesValue(a: Value, b: Value)
    requires DistinctKeys(a) && DistinctKeys(b)
    ensures CanonicalJson(a) == CanonicalJson(b) <==> Same(a, b)
  {
    CanonicalRoundTrip(a);
    CanonicalRoundTrip(b);
    CanonDecidesSame(a, b);
  }

  // ---- one line of printable ASCII ----------------------------------------------

  ghost predicate Printable(s: string) {
    forall i :: 0 <= i < |s| ==> ' ' <= s[i] <= '~'
  }

  lemma {:induction false} EscapePrintable(s: string)
    ensures Printable(EscapeAll(s))
  {
    if s != [] {
      EscapePrintable(s[1..]);
      assert Printable(Escape(s[0]));
    }
  }

  lemma {:induction false} RenderPrintable(v: Value)
    ensures Printable(Render(v))
    decreases v, 1
  {
    hide Escape, RenderItems, RenderFields, RenderField;
    match v
    case Str(s) => EscapePrintable(s);
    case Arr(items) => if items != [] { RenderPrintable(items[0]); RenderItemsPrintable(items[1..]); }
    case Obj(fields) => if fields != [] { RenderFieldPrintable(fields[0]); RenderFieldsPrintable(fields[1..]); }
    case _ =>
  }

  lemma {:induction false} RenderItemsPrintable(items: seq<Value>)
    ensures Printable(RenderItems(items))
    decreases items, 0
  {
    if items != [] { RenderPrintable(items[0]); RenderItemsPrintable(items[1..]); }
  }

  lemma {:induction false} RenderFieldPrintable(f: Field)
    ensures Printable(RenderField(f))
    decreases f, 2
  {
    EscapePrintable(f.key);
    RenderPrintable(f.value);
  }

  lemma {:induction false} RenderFieldsPrintable(fields: seq<Field>)
    ensures Printable(RenderFields(fields))
    decreases fields, 0
  {
    if fields != [] { RenderFieldPrintable(fields[0]); RenderFieldsPrintable(fields[1..]); }
  }

  /** No control character, no raw newline, nothing outside ASCII: the text is its own UTF-8 encoding and one line. */
  lemma CanonicalJsonIsOneLine(v: Value)
    ensures Printable(CanonicalJson(v)) && '\n' !in CanonicalJson(v)
    ensures v.Obj? ==> CanonicalJson(v)[0] == '{'
  {
    RenderPrintable(Canon(v));
  }
}
