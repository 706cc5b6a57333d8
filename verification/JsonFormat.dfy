/** The canonical text character by character, as Python prints it. */
module JsonFormat {
  import opened Text
  import opened Json

  lemma Scalars(s: string)
    ensures CanonicalJson(Null) == "null" && CanonicalJson(Bool(true)) == "true" && CanonicalJson(Bool(false)) == "false"
    ensures CanonicalJson(Num(-207)) == "-207" && CanonicalJson(Num(0)) == "0"
    ensures CanonicalJson(Str(s)) == "\"" + EscapeAll(s) + "\""
    ensures CanonicalJson(Arr([])) == "[]" && CanonicalJson(Obj([])) == "{}"
  {
    hide EscapeAll;
    assert Decimal(207 / 10) == Decimal(2) + [Digit(0)];
  }

  /** No space after a comma. */
  lemma ArrayText(v: Value, w: Value)
    ensures CanonicalJson(Arr([v, w])) == "[" + CanonicalJson(v) + "," + CanonicalJson(w) + "]"
  {
    hide Canon, Render;
    var items := [v, w];
    assert items[1..] == [w] && [w][1..] == [];
    assert CanonItems([w]) == [Canon(w)] && CanonItems(items) == [Canon(v), Canon(w)];
    ArrayRender(Canon(v), Canon(w));
    assert Canon(Arr(items)) == Arr(CanonItems(items)) by { CanonOfArray(items); }
  }

  lemma CanonOfArray(items: seq<Value>) ensures Canon(Arr(items)) == Arr(CanonItems(items)) {}

  lemma ArrayRender(v: Value, w: Value)
    ensures Render(Arr([v, w])) == "[" + Render(v) + "," + Render(w) + "]"
  {
    hide Render;
    var items := [v, w];
    assert items[1..] == [w] && [w][1..] == [];
    var a, b := Render(v), Render(w);
    assert RenderItems([w]) == "," + b + "]" && RenderArray(items) == a + ("," + b + "]");
    assert "[" + (a + ("," + b + "]")) == "[" + a + "," + b + "]";
    RenderOfArray(items);
  }

  lemma RenderOfArray(items: seq<Value>) ensures Render(Arr(items)) == "[" + RenderArray(items) {}

  /** Keys in code-point order whatever the insertion order, no space after a comma or a colon. */
  lemma DictionaryText(k: string, v: Value, l: string, w: Value)
    requires Le(k, l) && k != l
    ensures var text := "{\"" + EscapeAll(k) + "\":" + CanonicalJson(v) + ",\"" + EscapeAll(l) + "\":" + CanonicalJson(w) + "}";
      && CanonicalJson(Obj([Field(k, v), Field(l, w)])) == text
      && CanonicalJson(Obj([Field(l, w), Field(k, v)])) == text
  {
    hide Canon, Render, EscapeAll;
    LeTotal(k, l);
    DictionaryCanon(k, v, l, w);
    DictionaryRender(k, Canon(v), l, Canon(w));
  }

  lemma DictionaryCanon(k: string, v: Value, l: string, w: Value)
    requires Le(k, l) && !Le(l, k)
    ensures Canon(Obj([Field(k, v), Field(l, w)])) == Obj([Field(k, Canon(v)), Field(l, Canon(w))])
    ensures Canon(Obj([Field(l, w), Field(k, v)])) == Obj([Field(k, Canon(v)), Field(l, Canon(w))])
  {
    hide Le;
    var f, g := Field(k, Canon(v)), Field(l, Canon(w));
    assert CanonFields([Field(k, v), Field(l, w)]) == [f, g] && CanonFields([Field(l, w), Field(k, v)]) == [g, f];
    assert [f, g][1..] == [g] && [g, f][1..] == [f] && [f][1..] == [] && [g][1..] == [];
    assert SortFields([f]) == [f] && SortFields([g]) == [g];
    assert InsertField(g, [f]) == [f] + InsertField(g, []);
  }

  lemma DictionaryRender(k: string, v: Value, l: string, w: Value)
    ensures Render(Obj([Field(k, v), Field(l, w)]))
         == "{\"" + EscapeAll(k) + "\":" + Render(v) + ",\"" + EscapeAll(l) + "\":" + Render(w) + "}"
  {
    hide EscapeAll, Render;
    var f, g := Field(k, v), Field(l, w);
    var ek, el, rv, rw := EscapeAll(k), EscapeAll(l), Render(v), Render(w);
    assert [f, g][1..] == [g] && [g][1..] == [];
    assert RenderFields([g]) == "," + RenderField(g) + "}";
    RenderOfObject([f, g]);
    EntriesText(ek, rv, el, rw);
  }

  lemma RenderOfObject(fields: seq<Field>) ensures Render(Obj(fields)) == "{" + RenderObject(fields) {}

  lemma EntriesText(k: string, v: string, l: string, w: string)
    ensures "{" + ("\"" + k + "\":" + v + ("," + ("\"" + l + "\":" + w) + "}")) == "{\"" + k + "\":" + v + ",\"" + l + "\":" + w + "}"
  {
  }

  /** Characters are escaped one by one. */
  lemma {:induction false} EscapesJoin(a: string, b: string)
    ensures EscapeAll(a + b) == EscapeAll(a) + EscapeAll(b)
  {
    hide Escape;
    if a == [] {
      assert a + b == b;
    } else {
      assert (a + b)[1..] == a[1..] + b;
      EscapesJoin(a[1..], b);
    }
  }

  /** Printable ASCII stands for itself but for the quote and the backslash; seven characters have short escapes. */
  lemma ShortEscapes(c: char)
    ensures ' ' <= c <= '~' && c != '"' && c != '\\' ==> EscapeAll([c]) == [c]
    ensures EscapeAll("\"") == ['\\', '"'] && EscapeAll("\\") == ['\\', '\\'] && EscapeAll("\n") == ['\\', 'n']
    ensures EscapeAll("\r") == ['\\', 'r'] && EscapeAll("\t") == ['\\', 't']
    ensures EscapeAll("\U{8}") == ['\\', 'b'] && EscapeAll("\U{c}") == ['\\', 'f']
  {
    hide Hex4, SurrogatePair;
    OneEscape(c);
    OneEscape('"');
    OneEscape('\\');
    OneEscape('\n');
    OneEscape('\r');
    OneEscape('\t');
    OneEscape('\U{8}');
    OneEscape('\U{c}');
  }

  lemma OneEscape(c: char)
    ensures EscapeAll([c]) == Escape(c)
  {
    assert [c][1..] == [] && Escape(c) + [] == Escape(c);
  }

  /** Everything else is written in lower-case hexadecimal UTF-16 units. */
  lemma LongEscapes()
    ensures EscapeAll("\U{0}") == "\\u0000" && EscapeAll("\U{7f}") == "\\u007f" && EscapeAll("\U{e9}") == "\\u00e9"
    ensures EscapeAll("\U{1F600}") == "\\ud83d\\ude00"
  {
    hide EscapeAll, Hex4;
    OneEscape('\U{0}');
    OneEscape('\U{7f}');
    OneEscape('\U{e9}');
    OneEscape('\U{1F600}');
    Units();
  }

  lemma Units()
    ensures Hex4(0) == "0000" && Hex4(0x7f) == "007f" && Hex4(0xe9) == "00e9" && Hex4(0xd83d) == "d83d" && Hex4(0xde00) == "de00"
  {
    assert HexDigit(9) == '9' && HexDigit(13) == 'd' && HexDigit(14) == 'e' && HexDigit(15) == 'f';
  }
}
