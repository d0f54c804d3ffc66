/** Indented printing lays out the compact text: a reference that reads the compact text character by character
    and knows nothing of values. */
module JsonLayout {
  import opened Text
  import opened Json
  import opened JsonRoundTrip
  import opened JsonShortest

  function LineAt(depth: nat): string { "\n" + Repeat(' ', 2 * depth) }

  predicate Opens(c: char) { c == '[' || c == '{' }

  predicate Closes(c: char) { c == ']' || c == '}' }

  /** Lay out the rest of a compact text at some depth, inside or outside a string literal: a new line after an
      opening bracket and a comma and before a closing bracket, two blanks for every open bracket, one blank
      after a colon, and nothing inside an empty pair of brackets or a string. */
  function Lay(s: string, depth: nat, inside: bool): string
    decreases |s|
  {
    if s == "" then ""
    else if inside then
      if s[0] == '\\' && |s| > 1 then s[..2] + Lay(s[2..], depth, true)
      else [s[0]] + Lay(s[1..], depth, s[0] != '"')
    else if s[0] == '"' then "\"" + Lay(s[1..], depth, true)
    else if Opens(s[0]) then
      if |s| > 1 && Closes(s[1]) then s[..2] + Lay(s[2..], depth, false)
      else [s[0]] + LineAt(depth + 1) + Lay(s[1..], depth + 1, false)
    else if Closes(s[0]) then
      var outer := if depth > 0 then depth - 1 else 0;
      LineAt(outer) + [s[0]] + Lay(s[1..], outer, false)
    else if s[0] == ',' then "," + LineAt(depth) + Lay(s[1..], depth, false)
    else if s[0] == ':' then ": " + Lay(s[1..], depth, false)
    else [s[0]] + Lay(s[1..], depth, false)
  }

  // ---------------------------------------------------------------- pieces of text

  lemma {:induction false} SameBlanks(n: nat)
    ensures Spaces(n) == Repeat(' ', n)
  {
    if n > 0 { SameBlanks(n - 1); }
  }

  lemma SameLine(level: nat)
    ensures NewLine(Indented, level) == LineAt(level)
  {
    SameBlanks(2 * level);
  }

  predicate Plain(p: string) {
    forall i :: 0 <= i < |p| ==> p[i] != '"' && !Opens(p[i]) && !Closes(p[i]) && p[i] != ',' && p[i] != ':'
  }

  lemma {:induction false} LayPlain(p: string, rest: string, depth: nat)
    requires Plain(p)
    ensures Lay(p + rest, depth, false) == p + Lay(rest, depth, false)
  {
    if p == "" {
      assert p + rest == rest;
    } else {
      assert (p + rest)[1..] == p[1..] + rest && (p + rest)[0] == p[0];
      LayPlain(p[1..], rest, depth);
      Join3([p[0]], p[1..], Lay(rest, depth, false));
    }
  }

  lemma Join3(a: string, b: string, c: string)
    ensures a + (b + c) == a + b + c
  {
  }

  lemma LayEscape(c: char, rest: string, depth: nat)
    ensures Lay(EscapeChar(c) + rest, depth, true) == EscapeChar(c) + Lay(rest, depth, true)
  {
    hide HexDigit;
    var e := EscapeChar(c);
    if |e| == 1 {
      assert e == [c] && c != '"' && c != '\\';
      assert (e + rest)[1..] == rest;
    } else {
      assert e[0] == '\\';
      assert (e + rest)[..2] == e[..2] && (e + rest)[2..] == e[2..] + rest;
      if |e| == 2 {
        assert e[2..] + rest == rest && e[..2] == e;
      } else {
        HexDigitsPlain(c);
        LayInside(e[2..], rest, depth);
        assert e == e[..2] + e[2..];
        Join3(e[..2], e[2..], Lay(rest, depth, true));
      }
    }
  }

  predicate Quiet(p: string) { forall i :: 0 <= i < |p| ==> p[i] != '"' && p[i] != '\\' }

  lemma HexDigitsPlain(c: char)
    requires |EscapeChar(c)| > 2
    ensures Quiet(EscapeChar(c)[2..])
  {
    assert EscapeChar(c)[2..] == "00" + [HexDigit(c as int / 16), HexDigit(c as int % 16)];
  }

  lemma {:induction false} LayInside(p: string, rest: string, depth: nat)
    requires Quiet(p)
    ensures Lay(p + rest, depth, true) == p + Lay(rest, depth, true)
  {
    if p == "" {
      assert p + rest == rest;
    } else {
      assert (p + rest)[1..] == p[1..] + rest && (p + rest)[0] == p[0];
      LayInside(p[1..], rest, depth);
      Join3([p[0]], p[1..], Lay(rest, depth, true));
    }
  }

  lemma {:induction false} LayChars(t: string, rest: string, depth: nat)
    ensures Lay(Escape(t) + ("\"" + rest), depth, true) == Escape(t) + ("\"" + Lay(rest, depth, false))
  {
    hide EscapeChar;
    var tail := "\"" + rest;
    if t == "" {
      assert Escape(t) + tail == tail && tail[1..] == rest;
    } else {
      var more := Escape(t[1..]);
      Join3(EscapeChar(t[0]), more, tail);
      LayEscape(t[0], more + tail, depth);
      LayChars(t[1..], rest, depth);
      Join3(EscapeChar(t[0]), more, "\"" + Lay(rest, depth, false));
    }
  }

  lemma LayQuote(t: string, rest: string, depth: nat)
    ensures Lay(Quote(t) + rest, depth, false) == Quote(t) + Lay(rest, depth, false)
  {
    hide Escape;
    var s := Quote(t) + rest;
    assert s[0] == '"' && s[1..] == Escape(t) + ("\"" + rest);
    LayChars(t, rest, depth);
    assert "\"" + (Escape(t) + ("\"" + Lay(rest, depth, false))) == Quote(t) + Lay(rest, depth, false);
  }

  lemma AtomsPlain(v: Json)
    requires v.Null? || v.Bool? || v.Int? || v.Float? || v.NonFinite?
    ensures Plain(Print(v, Compact, 0))
  {
    if v.Int? {
      DigitsPlain(v.n);
    } else if v.Float? {
      FloatPlain(v.literal);
    } else {
      hide Digits, IsFloatText, Decimal;
      assert Plain("null") && Plain("true") && Plain("false") && Plain("NaN") && Plain("Infinity") && Plain("-Infinity");
    }
  }

  lemma DigitsPlain(n: int)
    ensures Plain(Decimal(n))
  {
    hide Digits;
    var d := Digits(if n < 0 then -n else n);
    assert forall i :: 0 <= i < |d| ==> IsDigit(d[i]);
  }

  lemma FloatPlain(literal: FloatText)
    ensures Plain(literal)
  {
    hide DigitsEnd, IsExponent;
    assert forall i :: 0 <= i < |literal| ==> IsNumberChar(literal[i]);
  }

  // ---------------------------------------------------------------- values

  lemma {:induction false} LayValue(v: Json, rest: string, depth: nat)
    ensures Lay(Print(v, Compact, 0) + rest, depth, false) == Print(v, Indented, depth) + Lay(rest, depth, false)
    decreases v, 1, 0
  {
    hide Lay, Digits, Quote;
    match v
    case Str(t) => LayQuote(t, rest, depth);
    case Arr(items) => LayArray(v, rest, depth);
    case Obj(fields) => LayObject(v, rest, depth);
    case _ =>
      AtomsPlain(v);
      LayPlain(Print(v, Compact, 0), rest, depth);
  }

  /** Opening a bracket that is not closed at once. */
  lemma LayOpen(open: char, body: string, depth: nat)
    requires Opens(open) && body != "" && !Closes(body[0])
    ensures Lay([open] + body, depth, false) == [open] + LineAt(depth + 1) + Lay(body, depth + 1, false)
  {
    assert ([open] + body)[1..] == body;
  }

  lemma LayClose(close: char, rest: string, depth: nat)
    requires Closes(close)
    ensures Lay([close] + rest, depth + 1, false) == LineAt(depth) + [close] + Lay(rest, depth, false)
  {
    assert ([close] + rest)[1..] == rest;
  }

  lemma LayComma(rest: string, depth: nat)
    ensures Lay("," + rest, depth, false) == "," + LineAt(depth) + Lay(rest, depth, false)
  {
    assert ("," + rest)[1..] == rest;
  }

  lemma LayColon(rest: string, depth: nat)
    ensures Lay(":" + rest, depth, false) == ": " + Lay(rest, depth, false)
  {
    assert (":" + rest)[1..] == rest;
  }

  lemma LayEmpty(pair: string, rest: string, depth: nat)
    requires pair == "[]" || pair == "{}"
    ensures Lay(pair + rest, depth, false) == pair + Lay(rest, depth, false)
  {
    assert (pair + rest)[2..] == rest && (pair + rest)[..2] == pair;
  }

  /** A bracketed text, regrouped as the layout meets it and as the printer makes it. */
  lemma Bracketed(open: char, body: string, close: char, rest: string)
    ensures "" + [open] + body + [close] + rest == [open] + (body + ([close] + rest))
  {
  }

  lemma Brackets(open: char, line: string, body: string, end: string, close: char, rest: string)
    ensures [open] + line + (body + (end + [close] + rest)) == [open] + line + body + end + [close] + rest
  {
  }

  lemma {:induction false} LayArray(v: Json, rest: string, depth: nat)
    requires v.Arr?
    ensures Lay(Print(v, Compact, 0) + rest, depth, false) == Print(v, Indented, depth) + Lay(rest, depth, false)
    decreases v, 0, |v.items| + 1
  {
    hide Lay, PrintItems, LineAt, NewLine;
    if v.items == [] {
      LayEmpty("[]", rest, depth);
    } else {
      var body, laid := PrintItems(v, 0, Compact, 0), PrintItems(v, 0, Indented, depth);
      ItemsOpen(v);
      CompactArray(v);
      Bracketed('[', body, ']', rest);
      LayOpen('[', body + ([']'] + rest), depth);
      LayItems(v, 0, [']'] + rest, depth);
      LayClose(']', rest, depth);
      SameLine(depth);
      SameLine(depth + 1);
      Brackets('[', LineAt(depth + 1), laid, LineAt(depth), ']', Lay(rest, depth, false));
    }
  }

  lemma ItemsOpen(v: Json)
    requires v.Arr? && v.items != []
    ensures var body := PrintItems(v, 0, Compact, 0); body != "" && !Closes(body[0])
  {
    hide Print;
    PrintStarts(v.items[0], Compact, 1);
    assert PrintItems(v, 0, Compact, 0)[0] == Print(v.items[0], Compact, 1)[0];
  }

  lemma CompactArray(v: Json)
    requires v.Arr? && v.items != []
    ensures Print(v, Compact, 0) == "" + ['['] + PrintItems(v, 0, Compact, 0) + [']']
  {
    hide PrintItems;
  }

  lemma CompactObject(v: Json)
    requires v.Obj? && v.fields != map[]
    ensures Print(v, Compact, 0) == "" + ['{'] + PrintMembers(v, SortedKeys(v.fields.Keys), Compact, 0) + ['}']
  {
    hide PrintMembers, SortedKeys;
  }

  lemma {:induction false} LayItems(v: Json, i: nat, rest: string, depth: nat)
    requires v.Arr? && i < |v.items|
    ensures Lay(PrintItems(v, i, Compact, 0) + rest, depth + 1, false)
         == PrintItems(v, i, Indented, depth) + Lay(rest, depth + 1, false)
    decreases v, 0, |v.items| - i
  {
    hide Lay, Print, LineAt;
    CompactLevel(v.items[i], 1, 0);
    var item, laid := Print(v.items[i], Compact, 0), Print(v.items[i], Indented, depth + 1);
    if i + 1 == |v.items| {
      LayValue(v.items[i], rest, depth + 1);
      assert item + "" + rest == item + rest;
      assert laid + "" + Lay(rest, depth + 1, false) == laid + Lay(rest, depth + 1, false);
    } else {
      var more := PrintItems(v, i + 1, Compact, 0);
      LayItems(v, i + 1, rest, depth);
      LayValue(v.items[i], "," + (more + rest), depth + 1);
      LayComma(more + rest, depth + 1);
      SameLine(depth + 1);
      NextCompact(item, more, rest);
      NextLaid(laid, LineAt(depth + 1), PrintItems(v, i + 1, Indented, depth), Lay(rest, depth + 1, false));
    }
  }

  lemma NextCompact(item: string, more: string, rest: string)
    ensures item + ("," + "" + more) + rest == item + ("," + (more + rest))
  {
  }

  lemma NextLaid(item: string, line: string, more: string, rest: string)
    ensures item + ("," + line + (more + rest)) == item + ("," + line + more) + rest
  {
  }

  lemma {:induction false} LayObject(v: Json, rest: string, depth: nat)
    requires v.Obj?
    ensures Lay(Print(v, Compact, 0) + rest, depth, false) == Print(v, Indented, depth) + Lay(rest, depth, false)
    decreases v, 0, |v.fields| + 1
  {
    hide Lay, PrintMembers, LineAt, NewLine;
    if v.fields == map[] {
      LayEmpty("{}", rest, depth);
    } else {
      var keys := SortedKeys(v.fields.Keys);
      assert |keys| == |v.fields|;
      var body, laid := PrintMembers(v, keys, Compact, 0), PrintMembers(v, keys, Indented, depth);
      MembersStart(v, keys, Compact, 0);
      CompactObject(v);
      Bracketed('{', body, '}', rest);
      LayOpen('{', body + (['}'] + rest), depth);
      LayMembers(v, keys, ['}'] + rest, depth);
      LayClose('}', rest, depth);
      SameLine(depth);
      SameLine(depth + 1);
      Brackets('{', LineAt(depth + 1), laid, LineAt(depth), '}', Lay(rest, depth, false));
    }
  }

  lemma {:induction false} LayMembers(v: Json, keys: seq<string>, rest: string, depth: nat)
    requires v.Obj? && keys != [] && forall k :: k in keys ==> k in v.fields
    ensures Lay(PrintMembers(v, keys, Compact, 0) + rest, depth + 1, false)
         == PrintMembers(v, keys, Indented, depth) + Lay(rest, depth + 1, false)
    decreases v, 0, |keys|
  {
    hide Lay, Print, LineAt, Quote, Colon, NewLine;
    var value := v.fields[keys[0]];
    CompactLevel(value, 1, 0);
    var item, laid := Print(value, Compact, 0), Print(value, Indented, depth + 1);
    var after := if |keys| == 1 then rest else "," + (PrintMembers(v, keys[1..], Compact, 0) + rest);
    LayQuote(keys[0], ":" + (item + after), depth + 1);
    LayColon(item + after, depth + 1);
    LayValue(value, after, depth + 1);
    if |keys| > 1 {
      LayMembers(v, keys[1..], rest, depth);
      LayComma(PrintMembers(v, keys[1..], Compact, 0) + rest, depth + 1);
      SameLine(depth + 1);
    }
    MemberText(Quote(keys[0]), item, if |keys| == 1 then "" else "," + "" + PrintMembers(v, keys[1..], Compact, 0), rest, after);
    MemberLaid(Quote(keys[0]), laid, if |keys| == 1 then "" else "," + LineAt(depth + 1) + PrintMembers(v, keys[1..], Indented, depth),
               Lay(rest, depth + 1, false), Lay(after, depth + 1, false));
    Colons(depth);
  }

  lemma Colons(depth: nat)
    ensures Colon(Compact) == ":" && Colon(Indented) == ": " && NewLine(Compact, depth) == "" && NewLine(Compact, 1) == ""
  {
  }

  lemma MemberText(key: string, item: string, more: string, rest: string, after: string)
    requires after == more + rest
    ensures key + ":" + item + more + rest == key + (":" + (item + after))
  {
  }

  lemma MemberLaid(key: string, item: string, more: string, rest: string, after: string)
    requires after == more + rest
    ensures key + ": " + item + more + rest == key + (": " + (item + after))
  {
  }

  /** The indented text of a value is its compact text, laid out. */
  lemma IndentedIsLaidOut(v: Json)
    ensures Print(v, Indented, 0) == Lay(Print(v, Compact, 0), 0, false)
  {
    hide Print;
    LayValue(v, "", 0);
    assert Print(v, Compact, 0) + "" == Print(v, Compact, 0);
    assert Print(v, Indented, 0) + "" == Print(v, Indented, 0);
  }
}
