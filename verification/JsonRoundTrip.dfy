/** Parsing undoes printing, in both styles; so the canonical text determines the value. */
module JsonRoundTrip {
  import opened Text
  import opened Json

  // ---------------------------------------------------------------- white space

  predicate Blank(s: string) { forall i :: 0 <= i < |s| ==> IsWhitespace(s[i]) }

  lemma {:induction false} SpacesBlank(n: nat)
    ensures Blank(Spaces(n))
  {
    if n > 0 { SpacesBlank(n - 1); }
  }

  lemma {:induction false} SkipBlank(w: string, s: string)
    requires Blank(w)
    ensures SkipWhitespace(w + s) == SkipWhitespace(s)
  {
    if w == "" {
      assert w + s == s;
    } else {
      assert (w + s)[1..] == w[1..] + s;
      SkipBlank(w[1..], s);
    }
  }

  lemma SkipNewLine(style: Style, level: nat, s: string)
    requires s != "" && !IsWhitespace(s[0])
    ensures SkipWhitespace(NewLine(style, level) + s) == s
  {
    SpacesBlank(2 * level);
    SkipBlank(NewLine(style, level), s);
  }

  // ---------------------------------------------------------------- strings

  lemma HexDigitValue(n: nat)
    requires n < 16
    ensures HexValue(HexDigit(n)) == Some(n)
  {
  }

  /** Reading a two-character escape, a `\uXXXX` escape and a plain character. */
  lemma ShortEscapeParses(e: char, c: char, s: string)
    requires ParseChars(s).Parsed? && e != 'u' && SimpleEscape(e) == Some(c)
    ensures ParseChars(['\\', e] + s) == Parsed([c] + ParseChars(s).value, ParseChars(s).rest)
  {
    assert (['\\', e] + s)[2..] == s;
  }

  lemma HexEscapeParses(n: nat, s: string)
    requires n < 32
    ensures UnicodeEscape("00" + [HexDigit(n / 16), HexDigit(n % 16)] + s) == Parsed(n as char, s)
  {
    HexDigitValue(n / 16);
    HexDigitValue(n % 16);
    assert HexValue('0') == Some(0);
    var h := "00" + [HexDigit(n / 16), HexDigit(n % 16)] + s;
    assert Hex4(h) == Some(n);
    assert h[4..] == s;
  }

  lemma LongEscapeParses(h: string, c: char, s: string)
    requires ParseChars(s).Parsed? && UnicodeEscape(h) == Parsed(c, s)
    ensures ParseChars(['\\', 'u'] + h) == Parsed([c] + ParseChars(s).value, ParseChars(s).rest)
  {
    assert (['\\', 'u'] + h)[2..] == h;
  }

  lemma EscapeCharParses(c: char, s: string)
    requires ParseChars(s).Parsed?
    ensures ParseChars(EscapeChar(c) + s) ==
            Parsed([c] + ParseChars(s).value, ParseChars(s).rest)
  {
    var short :=
      if c == '"' || c == '\\' then c
      else if c == '\n' then 'n'
      else if c == '\r' then 'r'
      else if c == '\t' then 't'
      else if c == '\U{0C}' then 'f'
      else if c == '\U{08}' then 'b'
      else 'u';
    if short != 'u' {
      assert EscapeChar(c) == ['\\', short];
      ShortEscapeParses(short, c, s);
    } else if c < ' ' {
      var n := c as int;
      var h := "00" + [HexDigit(n / 16), HexDigit(n % 16)] + s;
      HexEscapeParses(n, s);
      LongEscapeParses(h, c, s);
      assert EscapeChar(c) + s == ['\\', 'u'] + h;
    } else {
      assert (EscapeChar(c) + s)[1..] == s;
    }
  }

  lemma {:induction false} QuotedParses(t: string, rest: string)
    ensures ParseChars(Escape(t) + "\"" + rest) == Parsed(t, rest)
  {
    if t == "" {
      assert Escape(t) + "\"" + rest == "\"" + rest;
    } else {
      QuotedParses(t[1..], rest);
      EscapeCharParses(t[0], Escape(t[1..]) + "\"" + rest);
      assert Escape(t) + "\"" + rest == EscapeChar(t[0]) + (Escape(t[1..]) + "\"" + rest);
      assert [t[0]] + t[1..] == t;
    }
  }

  // ---------------------------------------------------------------- numbers

  lemma {:induction false} DigitsValue(n: nat)
    ensures AllDigits(Digits(n)) && NaturalValue(Digits(n)) == n
    ensures IsNaturalText(Digits(n))
    ensures n > 0 ==> Digits(n)[0] != '0'
  {
    var s := Digits(n);
    if n >= 10 {
      DigitsValue(n / 10);
      assert s[..|s| - 1] == Digits(n / 10);
      assert s[0] == Digits(n / 10)[0];
    }
  }

  lemma {:induction false} NumberEndAt(run: string, rest: string)
    requires forall i :: 0 <= i < |run| ==> IsNumberChar(run[i])
    requires rest == "" || !IsNumberChar(rest[0])
    ensures NumberEnd(run + rest) == |run|
  {
    if run == "" {
      assert run + rest == rest;
    } else {
      assert (run + rest)[1..] == run[1..] + rest;
      NumberEndAt(run[1..], rest);
    }
  }

  lemma {:induction false} DigitsEndAllDigits(s: string, i: nat)
    requires i <= |s| && forall j :: i <= j < |s| ==> IsDigit(s[j])
    ensures DigitsEnd(s, i) == |s|
    decreases |s| - i
  {
    if i < |s| { DigitsEndAllDigits(s, i + 1); }
  }

  /** A float literal is never mistaken for an integer. */
  lemma FloatTextIsNotInt(s: string)
    requires IsFloatText(s)
    ensures !IsNaturalText(s) && !(s[0] == '-' && IsNaturalText(s[1..]))
  {
    if IsNaturalText(s) {
      DigitsEndAllDigits(s, 0);
    } else if s[0] == '-' && IsNaturalText(s[1..]) {
      forall j | 1 <= j < |s| ensures IsDigit(s[j]) { assert s[j] == s[1..][j - 1]; }
      DigitsEndAllDigits(s, 1);
    }
  }

  predicate Delimited(rest: string) { rest == "" || !IsNumberChar(rest[0]) }

  lemma StartsWithAt(s: string, p: string, i: nat)
    requires i < |p| && i < |s| && s[i] != p[i]
    ensures !StartsWith(s, p)
  {
    if |p| <= |s| {
      assert s[..|p|][i] == s[i];
    }
  }

  predicate StartsNumber(s: string) {
    s != "" && (IsDigit(s[0]) || (s[0] == '-' && |s| > 1 && IsDigit(s[1])))
  }

  lemma NoLiteral(s: string)
    requires StartsNumber(s)
    ensures Literal(s).Fail?
  {
    if s[0] == '-' {
      StartsWithAt(s, "-Infinity", 1);
    }
  }

  /** On a digit, or a minus sign before a digit, the value is a number. */
  lemma NumberCase(s: string, v: Json, rest: string)
    requires StartsNumber(s) && ParseNumber(s) == Parsed(v, rest)
    ensures ParseValue(s) == Parsed(v, rest)
  {
    NoLiteral(s);
  }

  lemma NaturalParses(n: nat, rest: string)
    requires Delimited(rest)
    ensures ParseValue(Digits(n) + rest) == Parsed(Int(n), rest)
  {
    DigitsValue(n);
    var d := Digits(n);
    NumberEndAt(d, rest);
    var s := d + rest;
    assert s[..|d|] == d && s[|d|..] == rest;
    NumberCase(s, Int(n), rest);
  }

  lemma NegativeParses(n: nat, rest: string)
    requires Delimited(rest) && n > 0
    ensures ParseValue("-" + Digits(n) + rest) == Parsed(Int(0 - n), rest)
  {
    hide Digits, ParseValue, NumberEnd, NaturalValue;
    DigitsValue(n);
    var d := "-" + Digits(n);
    NumberEndAt(d, rest);
    var s := d + rest;
    assert s[..|d|] == d && s[|d|..] == rest && d[1..] == Digits(n);
    assert s[1] == Digits(n)[0];
    NumberCase(s, Int(0 - n), rest);
  }

  lemma FloatParses(literal: FloatText, rest: string)
    requires Delimited(rest)
    ensures ParseValue(literal + rest) == Parsed(Float(literal), rest)
  {
    NumberEndAt(literal, rest);
    var s := literal + rest;
    assert s[..|literal|] == literal && s[|literal|..] == rest;
    FloatTextIsNotInt(literal);
    assert s[0] == literal[0];
    if literal[0] == '-' { assert IsDigit(literal[1]) && s[1] == literal[1]; }
    NumberCase(s, Float(literal), rest);
  }

  // ---------------------------------------------------------------- values

  predicate StartsValue(p: string) { p != "" && !IsWhitespace(p[0]) && p[0] != ']' && p[0] != '}' }

  lemma DigitsStart(n: nat)
    ensures StartsValue(Digits(n)) && StartsValue("-" + Digits(n))
  {
    DigitsValue(n);
    assert IsDigit(Digits(n)[0]);
  }

  lemma ConcatStarts(p: string, q: string)
    requires StartsValue(p)
    ensures StartsValue(p + q)
  {
  }

  lemma BracketsStart(v: Json, style: Style, level: nat)
    requires v.Arr? || v.Obj?
    ensures StartsValue(Print(v, style, level))
  {
    hide NewLine, PrintItems, PrintMembers, SortedKeys;
  }

  /** A printed value is not empty and does not start with white space or a closing bracket. */
  lemma PrintStarts(v: Json, style: Style, level: nat)
    ensures StartsValue(Print(v, style, level))
  {
    if v.Arr? || v.Obj? {
      BracketsStart(v, style, level);
    } else {
      hide NewLine, PrintItems, PrintMembers, SortedKeys, Digits;
      match v
      case Int(n) => DigitsStart(if n < 0 then -n else n);
      case Float(literal) => assert IsNumberChar(literal[0]);
      case Str(t) => ConcatStarts("\"", Escape(t) + "\"");
      case _ =>
    }
  }

  lemma SplitHead(p: string, rest: string)
    requires p != ""
    ensures var s := p + rest; s[..|p|] == p && s[|p|..] == rest && s[0] == p[0]
  {
  }

  lemma NullParses(rest: string)
    ensures ParseValue("null" + rest) == Parsed(Null, rest)
  {
    SplitHead("null", rest);
  }

  lemma BoolParses(b: bool, rest: string)
    ensures ParseValue((if b then "true" else "false") + rest) == Parsed(Bool(b), rest)
  {
    SplitHead(if b then "true" else "false", rest);
  }

  lemma NonFiniteParses(name: NonFiniteName, rest: string)
    ensures ParseValue(NonFiniteText(name) + rest) == Parsed(NonFinite(name), rest)
  {
    SplitHead(NonFiniteText(name), rest);
  }

  lemma LiteralParses(v: Json, style: Style, level: nat, rest: string)
    requires v.Null? || v.Bool? || v.NonFinite?
    ensures ParseValue(Print(v, style, level) + rest) == Parsed(v, rest)
  {
    hide ParseValue;
    match v
    case Null => NullParses(rest);
    case Bool(b) => BoolParses(b, rest);
    case NonFinite(name) => NonFiniteParses(name, rest);
  }

  /** What is left of a bracketed or quoted text after its first character. */
  lemma AfterOpen(open: char, a: string, b: string, c: string, close: char, rest: string)
    ensures var s := [open] + a + b + c + [close] + rest;
      s[0] == open && s[1..] == a + (b + (c + [close] + rest))
  {
  }

  lemma AfterQuote(a: string, rest: string)
    ensures ("\"" + a + "\"" + rest)[1..] == a + "\"" + rest
    ensures ("\"" + a + "\"" + rest)[0] == '"'
  {
  }

  lemma RegroupItem(item: string, gap: string, later: string, close: string)
    ensures item + "" + close == item + close
    ensures item + ("," + gap + later) + close == item + ("," + gap + (later + close))
  {
  }

  lemma RegroupMember(key: string, colon: string, item: string, gap: string, later: string, close: string)
    ensures key + colon + item + "" + close == key + (colon + (item + close))
    ensures key + colon + item + ("," + gap + later) + close
         == key + (colon + (item + ("," + gap + (later + close))))
  {
  }

  lemma StringParses(t: string, rest: string)
    ensures ParseValue(Quote(t) + rest) == Parsed(Str(t), rest)
  {
    QuotedParses(t, rest);
    AfterQuote(Escape(t), rest);
  }

  lemma ArrayStep(s: string, body: string, items: seq<Json>, rest: string)
    requires s != "" && s[0] == '[' && SkipWhitespace(s[1..]) == body
    requires body != "" && body[0] != ']' && ParseItems(body) == Parsed(items, rest)
    ensures ParseValue(s) == Parsed(Arr(items), rest)
  {
  }

  lemma ObjectStep(s: string, body: string, fields: map<string, Json>, rest: string)
    requires s != "" && s[0] == '{' && SkipWhitespace(s[1..]) == body
    requires body != "" && body[0] != '}' && ParseMembers(body) == Parsed(fields, rest)
    ensures ParseValue(s) == Parsed(Obj(fields), rest)
  {
  }

  /** What follows an item or a member: the closing bracket, or a comma and the next one. */
  lemma CloseStep(style: Style, level: nat, bracket: char, rest: string)
    requires bracket == ']' || bracket == '}'
    ensures var close := NewLine(style, level) + [bracket] + rest;
      Delimited(close) && SkipWhitespace(close) == [bracket] + rest
  {
    var close := NewLine(style, level) + [bracket] + rest;
    assert close == NewLine(style, level) + ([bracket] + rest);
    SkipNewLine(style, level, [bracket] + rest);
  }

  lemma CommaStep(style: Style, level: nat, more: string)
    requires more != "" && !IsWhitespace(more[0])
    ensures var after := "," + NewLine(style, level) + more;
      Delimited(after) && SkipWhitespace(after) == after && SkipWhitespace(after[1..]) == more
  {
    var after := "," + NewLine(style, level) + more;
    assert after[0] == ',' && !IsNumberChar(',') && !IsWhitespace(',');
    assert after[1..] == NewLine(style, level) + more;
    SkipNewLine(style, level, more);
  }

  lemma AtomParses(v: Json, style: Style, level: nat, rest: string)
    requires Delimited(rest) && (v.Int? || v.Float? || v.Str?)
    ensures ParseValue(Print(v, style, level) + rest) == Parsed(v, rest)
  {
    hide ParseValue;
    match v
    case Int(n) => if n < 0 { NegativeParses(-n, rest); } else { NaturalParses(n, rest); }
    case Float(literal) => FloatParses(literal, rest);
    case Str(t) => StringParses(t, rest);
  }

  lemma {:induction false} ValueParses(v: Json, style: Style, level: nat, rest: string)
    requires Delimited(rest)
    ensures ParseValue(Print(v, style, level) + rest) == Parsed(v, rest)
    decreases v, 1, 0
  {
    hide Print, ParseValue;
    match v
    case Int(n) => AtomParses(v, style, level, rest);
    case Float(literal) => AtomParses(v, style, level, rest);
    case Str(t) => AtomParses(v, style, level, rest);
    case Arr(items) => ArrayParses(v, style, level, rest);
    case Obj(fields) => ObjectParses(v, style, level, rest);
    case _ => LiteralParses(v, style, level, rest);
  }

  lemma {:induction false} ArrayParses(v: Json, style: Style, level: nat, rest: string)
    requires v.Arr?
    ensures ParseValue(Print(v, style, level) + rest) == Parsed(v, rest)
    decreases v, 0, |v.items| + 1
  {
    var s := Print(v, style, level) + rest;
    if v.items == [] {
      assert s[1..] == "]" + rest;
    } else {
      ItemsParse(v, 0, style, level, rest);
      var items := PrintItems(v, 0, style, level);
      var body := items + (NewLine(style, level) + "]" + rest);
      ItemsStart(v, 0, style, level);
      AfterOpen('[', NewLine(style, level + 1), items, NewLine(style, level), ']', rest);
      SkipNewLine(style, level + 1, body);
      assert v.items[0..] == v.items;
      ArrayStep(s, body, v.items, rest);
    }
  }

  lemma {:induction false} ObjectParses(v: Json, style: Style, level: nat, rest: string)
    requires v.Obj?
    ensures ParseValue(Print(v, style, level) + rest) == Parsed(v, rest)
    decreases v, 0, |v.fields| + 1
  {
    hide ParseMembers, PrintMembers, NewLine;
    var s := Print(v, style, level) + rest;
    if v.fields == map[] {
      assert s[1..] == "}" + rest;
    } else {
      var keys := SortedKeys(v.fields.Keys);
      assert |keys| == |v.fields|;
      MembersParse(v, keys, style, level, rest);
      var members := PrintMembers(v, keys, style, level);
      var body := members + (NewLine(style, level) + "}" + rest);
      MembersStart(v, keys, style, level);
      AfterOpen('{', NewLine(style, level + 1), members, NewLine(style, level), '}', rest);
      SkipNewLine(style, level + 1, body);
      AllKeys(v.fields);
      ObjectStep(s, body, v.fields, rest);
    }
  }

  lemma AllKeys(fields: map<string, Json>)
    ensures var keys := SortedKeys(fields.Keys); (map k | k in keys :: fields[k]) == fields
  {
  }

  lemma ItemsStep(s: string, item: Json, after: string, more: string)
    requires ParseValue(s) == Parsed(item, after)
    ensures var next := SkipWhitespace(after);
      next != "" && next[0] == ']' ==> ParseItems(s) == Parsed([item], next[1..])
    ensures var next := SkipWhitespace(after);
      next != "" && next[0] == ',' && SkipWhitespace(next[1..]) == more && ParseItems(more).Parsed? ==>
      ParseItems(s) == Parsed([item] + ParseItems(more).value, ParseItems(more).rest)
  {
  }

  lemma ItemsStart(v: Json, i: nat, style: Style, level: nat)
    requires v.Arr? && i < |v.items|
    ensures var p := PrintItems(v, i, style, level); p != "" && !IsWhitespace(p[0]) && p[0] != ']'
  {
    PrintStarts(v.items[i], style, level + 1);
    assert PrintItems(v, i, style, level)[0] == Print(v.items[i], style, level + 1)[0];
  }

  lemma {:induction false} ItemsParse(v: Json, i: nat, style: Style, level: nat, rest: string)
    requires v.Arr? && i < |v.items|
    ensures ParseItems(PrintItems(v, i, style, level) + (NewLine(style, level) + "]" + rest))
         == Parsed(v.items[i..], rest)
    decreases v, 0, |v.items| - i
  {
    var item := Print(v.items[i], style, level + 1);
    var close := NewLine(style, level) + "]" + rest;
    var s := PrintItems(v, i, style, level) + close;
    if i + 1 == |v.items| {
      RegroupItem(item, "", "", close);
      CloseStep(style, level, ']', rest);
      ValueParses(v.items[i], style, level + 1, close);
      ItemsStep(s, v.items[i], close, "");
      assert v.items[i..] == [v.items[i]];
    } else {
      var later := PrintItems(v, i + 1, style, level);
      var more := later + close;
      ItemsStart(v, i + 1, style, level);
      assert more[0] == later[0];
      CommaStep(style, level + 1, more);
      var after := "," + NewLine(style, level + 1) + more;
      RegroupItem(item, NewLine(style, level + 1), later, close);
      ValueParses(v.items[i], style, level + 1, after);
      ItemsParse(v, i + 1, style, level, rest);
      ItemsStep(s, v.items[i], after, more);
      FirstItem(v.items, i);
    }
  }

  lemma FirstItem(items: seq<Json>, i: nat)
    requires i < |items|
    ensures items[i..] == [items[i]] + items[i + 1..]
  {
  }

  lemma MembersStep(s: string, key: string, v: Json, afterKey: string, text: string, after: string, more: string)
    requires s != "" && s[0] == '"' && ParseChars(s[1..]) == Parsed(key, afterKey)
    requires var colon := SkipWhitespace(afterKey);
      colon != "" && colon[0] == ':' && SkipWhitespace(colon[1..]) == text
    requires ParseValue(text) == Parsed(v, after)
    ensures var next := SkipWhitespace(after);
      next != "" && next[0] == '}' ==> ParseMembers(s) == Parsed(map[key := v], next[1..])
    ensures var next := SkipWhitespace(after);
      next != "" && next[0] == ',' && SkipWhitespace(next[1..]) == more && ParseMembers(more).Parsed? ==>
      ParseMembers(s) == Parsed(map[key := v] + ParseMembers(more).value, ParseMembers(more).rest)
  {
  }

  lemma ColonParses(style: Style, text: string)
    requires text != "" && !IsWhitespace(text[0])
    ensures var colon := SkipWhitespace(Colon(style) + text);
      colon != "" && colon[0] == ':' && SkipWhitespace(colon[1..]) == text
  {
    var gap := if style.Compact? then "" else " ";
    assert (Colon(style) + text)[1..] == gap + text;
    SkipBlank(gap, text);
  }

  /** The key and the colon of a member, as the parser sees them. */
  lemma KeyParses(key: string, style: Style, text: string)
    requires text != "" && !IsWhitespace(text[0])
    ensures var s := Quote(key) + (Colon(style) + text);
      s[0] == '"' && ParseChars(s[1..]) == Parsed(key, Colon(style) + text)
    ensures var colon := SkipWhitespace(Colon(style) + text);
      colon != "" && colon[0] == ':' && SkipWhitespace(colon[1..]) == text
  {
    var tail := Colon(style) + text;
    QuotedParses(key, tail);
    AfterQuote(Escape(key), tail);
    ColonParses(style, text);
  }

  lemma MembersStart(v: Json, keys: seq<string>, style: Style, level: nat)
    requires v.Obj? && keys != [] && forall k :: k in keys ==> k in v.fields
    ensures var p := PrintMembers(v, keys, style, level); p != "" && p[0] == '"' && !IsWhitespace(p[0])
  {
    hide Print, Escape;
  }

  lemma {:induction false} MembersParse(v: Json, keys: seq<string>, style: Style, level: nat, rest: string)
    requires v.Obj? && keys != []
    requires forall k :: k in keys ==> k in v.fields
    ensures ParseMembers(PrintMembers(v, keys, style, level) + (NewLine(style, level) + "}" + rest))
         == Parsed(map k | k in keys :: v.fields[k], rest)
    decreases v, 0, |keys|
  {
    hide ParseMembers, ParseValue, ParseChars, SkipWhitespace, Print, Quote, NewLine, Colon;
    var key := keys[0];
    var value := Print(v.fields[key], style, level + 1);
    PrintStarts(v.fields[key], style, level + 1);
    var close := NewLine(style, level) + "}" + rest;
    var s := PrintMembers(v, keys, style, level) + close;
    MembersStart(v, keys, style, level);
    if |keys| == 1 {
      CloseStep(style, level, '}', rest);
      ValueParses(v.fields[key], style, level + 1, close);
      KeyParses(key, style, value + close);
      RegroupMember(Quote(key), Colon(style), value, "", "", close);
      MembersStep(s, key, v.fields[key], Colon(style) + (value + close), value + close, close, "");
      FirstKey(v.fields, keys);
    } else {
      var later := PrintMembers(v, keys[1..], style, level);
      var more := later + close;
      MembersStart(v, keys[1..], style, level);
      assert more[0] == later[0] == '"';
      CommaStep(style, level + 1, more);
      var after := "," + NewLine(style, level + 1) + more;
      ValueParses(v.fields[key], style, level + 1, after);
      KeyParses(key, style, value + after);
      RegroupMember(Quote(key), Colon(style), value, NewLine(style, level + 1), later, close);
      MembersParse(v, keys[1..], style, level, rest);
      MembersStep(s, key, v.fields[key], Colon(style) + (value + after), value + after, after, more);
      FirstKey(v.fields, keys);
    }
  }

  lemma FirstKey(fields: map<string, Json>, keys: seq<string>)
    requires keys != [] && forall k :: k in keys ==> k in fields
    ensures (map k | k in keys :: fields[k]) ==
            map[keys[0] := fields[keys[0]]] + (map k | k in keys[1..] :: fields[k])
    ensures |keys| == 1 ==> (map k | k in keys :: fields[k]) == map[keys[0] := fields[keys[0]]]
  {
    assert forall k :: k in keys <==> k == keys[0] || k in keys[1..];
  }

  /** Of several members with one key the last one counts. */
  lemma LastMemberWins(key: string, v: Json, more: string)
    requires more != "" && !IsWhitespace(more[0]) && ParseMembers(more).Parsed? && key in ParseMembers(more).value
    ensures ParseMembers(Quote(key) + ":" + Print(v, Compact, 0) + "," + more) == ParseMembers(more)
  {
    hide ParseMembers, ParseValue, ParseChars, SkipWhitespace, Print, Quote, Colon;
    var value := Print(v, Compact, 0);
    var after := "," + NewLine(Compact, 0) + more;
    assert after == "," + more;
    var s := Quote(key) + (":" + (value + after));
    assert s == Quote(key) + ":" + value + "," + more;
    PrintStarts(v, Compact, 0);
    CommaStep(Compact, 0, more);
    ValueParses(v, Compact, 0, after);
    assert Colon(Compact) == ":" by { ColonText(); }
    KeyParses(key, Compact, value + after);
    MembersStep(s, key, v, ":" + (value + after), value + after, after, more);
    assert map[key := v] + ParseMembers(more).value == ParseMembers(more).value;
  }

  lemma ColonText()
    ensures Colon(Compact) == ":"
  {
  }

  // ---------------------------------------------------------------- main results

  /** `json.loads(json.dumps(v))` is `v`, whatever white space follows. */
  lemma LoadsPrinted(v: Json, style: Style, tail: string)
    requires Blank(tail)
    ensures Loads(Print(v, style, 0) + tail) == Some(v)
  {
    PrintStarts(v, style, 0);
    ValueParses(v, style, 0, tail);
    SkipBlank(tail, "");
    assert tail + "" == tail;
  }

  /** The printer is injective: two values with one text are one value. */
  lemma PrintInjective(v: Json, w: Json, style: Style)
    requires Print(v, style, 0) == Print(w, style, 0)
    ensures v == w
  {
    LoadsPrinted(v, style, "");
    LoadsPrinted(w, style, "");
  }
}
