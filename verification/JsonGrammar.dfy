/** The parser decides a grammar: a text is read as a value exactly if some document of the grammar is written as that
    text and means that value. The grammar is that of sections 2 to 7 of RFC 8259, with the three non-finite names. */
module JsonGrammar {
  import opened Text
  import opened Json
  import opened JsonRoundTrip
  import opened JsonShortest

  // ---------------------------------------------------------------- documents

  /** What stands for one character of a string: itself, an escape of one letter, a code, or a pair of surrogates. */
  datatype Piece = Plain(c: char) | Short(letter: char) | Code(hex: string) | Pair(high: string, low: string)

  /** White space between the parts of a document: blanks, tabs, newlines and carriage returns. */
  predicate IsGap(s: string) { forall i :: 0 <= i < |s| ==> s[i] as int in {0x20, 0x09, 0x0A, 0x0D} }

  lemma GapIsBlank(s: string)
    ensures IsGap(s) <==> Blank(s)
  {
    assert forall c :: IsWhitespace(c) <==> c as int in {0x20, 0x09, 0x0A, 0x0D};
  }

  datatype Doc =
    | Scalar(text: string, value: Json)
    | Quoted(pieces: seq<Piece>)
    | NoItems(gap: string) | List(gap: string, items: Items)
    | NoMembers(gap: string) | Table(gap: string, members: Members)

  /** Items with the white space before and behind each comma, up to the closing bracket. */
  datatype Items =
    | LastItem(item: Doc, gap: string)
    | NextItem(item: Doc, gap: string, lead: string, others: Items)

  /** Members with the white space around each colon and comma, up to the closing brace. */
  datatype Members =
    | LastMember(key: seq<Piece>, before: string, after: string, value: Doc, gap: string)
    | NextMember(key: seq<Piece>, before: string, after: string, value: Doc, gap: string, lead: string, others: Members)

  const SHORT_ESCAPES: map<char, char> :=
    map['"' := '"', '\\' := '\\', '/' := '/', 'b' := '\U{08}', 'f' := '\U{0C}', 'n' := '\n', 'r' := '\r', 't' := '\t']

  predicate IsHexDigit(c: char) { '0' <= c <= '9' || 'a' <= c <= 'f' || 'A' <= c <= 'F' }

  function HexWeight(c: char): nat
    requires IsHexDigit(c)
  {
    if c <= '9' then c as int - '0' as int else if c <= 'F' then c as int - 'A' as int + 10 else c as int - 'a' as int + 10
  }

  predicate FourHex(h: string) { |h| == 4 && forall i :: 0 <= i < 4 ==> IsHexDigit(h[i]) }

  function HexNumber(h: string): (n: nat)
    requires FourHex(h)
    ensures n < 0x1_0000
  {
    0x1000 * HexWeight(h[0]) + 0x100 * HexWeight(h[1]) + 0x10 * HexWeight(h[2]) + HexWeight(h[3])
  }

  predicate ProperPiece(p: Piece) {
    match p
    case Plain(c) => c >= ' ' && c != '"' && c != '\\'
    case Short(letter) => letter in SHORT_ESCAPES
    case Code(hex) => FourHex(hex) && !(0xD800 <= HexNumber(hex) < 0xE000)
    case Pair(high, low) => FourHex(high) && FourHex(low) && 0xD800 <= HexNumber(high) < 0xDC00 <= HexNumber(low) < 0xE000
  }

  function Spelled(p: Piece): string {
    match p
    case Plain(c) => [c]
    case Short(letter) => ['\\', letter]
    case Code(hex) => "\\u" + hex
    case Pair(high, low) => "\\u" + high + "\\u" + low
  }

  function Meant(p: Piece): char
    requires ProperPiece(p)
  {
    match p
    case Plain(c) => c
    case Short(letter) => SHORT_ESCAPES[letter]
    case Code(hex) => HexNumber(hex) as char
    case Pair(high, low) => (0x1_0000 + (HexNumber(high) - 0xD800) * 0x400 + (HexNumber(low) - 0xDC00)) as char
  }

  predicate ProperPieces(pieces: seq<Piece>) { forall i :: 0 <= i < |pieces| ==> ProperPiece(pieces[i]) }

  function SpelledAll(pieces: seq<Piece>): string {
    if pieces == [] then "" else Spelled(pieces[0]) + SpelledAll(pieces[1..])
  }

  function MeantAll(pieces: seq<Piece>): string
    requires ProperPieces(pieces)
  {
    if pieces == [] then "" else [Meant(pieces[0])] + MeantAll(pieces[1..])
  }

  /** A name or a number, and what it says; a minus sign may stand before a zero. */
  predicate Says(text: string, v: Json) {
    match v
    case Null => text == "null"
    case Bool(b) => text == if b then "true" else "false"
    case NonFinite(name) => text == NonFiniteText(name)
    case Int(n) => text == Decimal(n) || (n == 0 && text == "-0")
    case Float(literal) => text == literal
    case _ => false
  }

  predicate Proper(d: Doc) {
    match d
    case Scalar(text, value) => Says(text, value)
    case Quoted(pieces) => ProperPieces(pieces)
    case NoItems(gap) => IsGap(gap)
    case List(gap, items) => IsGap(gap) && ProperItems(items)
    case NoMembers(gap) => IsGap(gap)
    case Table(gap, members) => IsGap(gap) && ProperMembers(members)
  }

  predicate ProperItems(items: Items) {
    Proper(items.item) && IsGap(items.gap) && (items.NextItem? ==> IsGap(items.lead) && ProperItems(items.others))
  }

  predicate ProperMembers(m: Members) {
    && ProperPieces(m.key) && IsGap(m.before) && IsGap(m.after) && Proper(m.value) && IsGap(m.gap)
    && (m.NextMember? ==> IsGap(m.lead) && ProperMembers(m.others))
  }

  function Written(d: Doc): string {
    match d
    case Scalar(text, _) => text
    case Quoted(pieces) => "\"" + SpelledAll(pieces) + "\""
    case NoItems(gap) => "[" + gap + "]"
    case List(gap, items) => "[" + gap + WrittenItems(items)
    case NoMembers(gap) => "{" + gap + "}"
    case Table(gap, members) => "{" + gap + WrittenMembers(members)
  }

  function WrittenItems(items: Items): string {
    Written(items.item) + items.gap + if items.LastItem? then "]" else "," + items.lead + WrittenItems(items.others)
  }

  function WrittenMembers(m: Members): string {
    "\"" + SpelledAll(m.key) + "\"" + m.before + ":" + m.after + Written(m.value) + m.gap
    + if m.LastMember? then "}" else "," + m.lead + WrittenMembers(m.others)
  }

  function Meaning(d: Doc): Json
    requires Proper(d)
  {
    match d
    case Scalar(_, value) => value
    case Quoted(pieces) => Str(MeantAll(pieces))
    case NoItems(_) => Arr([])
    case List(_, items) => Arr(MeaningOfItems(items))
    case NoMembers(_) => Obj(map[])
    case Table(_, members) => Obj(MeaningOfMembers(members))
  }

  function MeaningOfItems(items: Items): seq<Json>
    requires ProperItems(items)
  {
    [Meaning(items.item)] + if items.LastItem? then [] else MeaningOfItems(items.others)
  }

  /** The last of several members with one key counts. */
  function MeaningOfMembers(m: Members): map<string, Json>
    requires ProperMembers(m)
  {
    map[MeantAll(m.key) := Meaning(m.value)] + if m.LastMember? then map[] else MeaningOfMembers(m.others)
  }

  // ---------------------------------------------------------------- strings

  lemma FourHexRead(h: string, s: string)
    requires FourHex(h)
    ensures Hex4(h + s) == Some(HexNumber(h)) && (h + s)[4..] == s
  {
    assert forall i :: 0 <= i < 4 ==> (h + s)[i] == h[i] && HexValue(h[i]) == Some(HexWeight(h[i]));
  }

  lemma HexIsFour(s: string)
    requires Hex4(s).Some?
    ensures FourHex(s[..4]) && HexNumber(s[..4]) == Hex4(s).value && s == s[..4] + s[4..]
  {
    assert forall i :: 0 <= i < 4 ==> HexValue(s[i]).Some? && IsHexDigit(s[i]) && HexValue(s[i]) == Some(HexWeight(s[i]));
  }

  lemma ShortEscapes(letter: char)
    ensures SimpleEscape(letter) == if letter in SHORT_ESCAPES then Some(SHORT_ESCAPES[letter]) else None
  {
  }

  lemma PlainRead(c: char, s: string)
    requires ProperPiece(Plain(c)) && ParseChars(s).Parsed?
    ensures ParseChars([c] + s) == Parsed([c] + ParseChars(s).value, ParseChars(s).rest)
  {
    assert ([c] + s)[1..] == s;
  }

  lemma CodeRead(hex: string, s: string)
    requires ProperPiece(Code(hex))
    ensures UnicodeEscape(hex + s) == Parsed(HexNumber(hex) as char, s)
  {
    hide FourHex, HexNumber, Hex4;
    FourHexRead(hex, s);
  }

  lemma PairRead(high: string, low: string, s: string)
    requires ProperPiece(Pair(high, low))
    ensures UnicodeEscape(high + ("\\u" + (low + s))) == Parsed(Meant(Pair(high, low)), s)
  {
    hide FourHex, HexNumber, Hex4;
    var second := "\\u" + (low + s);
    var both := high + second;
    FourHexRead(high, second);
    FourHexRead(low, s);
    Behind(both, 4, second);
    assert second[2..] == low + s;
    Behind(both, 6, low + s);
  }

  lemma Behind(s: string, i: nat, later: string)
    requires i <= |s| && s[i..] == later
    ensures forall k :: 0 <= k < |later| ==> s[i + k] == later[k]
    ensures forall k :: 0 <= k <= |later| ==> s[i + k..] == later[k..]
  {
  }

  lemma PieceParses(p: Piece, s: string)
    requires ProperPiece(p) && ParseChars(s).Parsed?
    ensures ParseChars(Spelled(p) + s) == Parsed([Meant(p)] + ParseChars(s).value, ParseChars(s).rest)
  {
    hide SHORT_ESCAPES, HexNumber, FourHex, Hex4, ParseChars, UnicodeEscape;
    match p
    case Plain(c) => PlainRead(c, s);
    case Short(letter) =>
      ShortEscapes(letter);
      assert letter != 'u' by { NoLetterU(); }
      ShortEscapeParses(letter, Meant(p), s);
    case Code(hex) =>
      CodeRead(hex, s);
      LongEscapeParses(hex + s, Meant(p), s);
      assert Spelled(p) + s == ['\\', 'u'] + (hex + s);
    case Pair(high, low) =>
      PairRead(high, low, s);
      LongEscapeParses(high + ("\\u" + (low + s)), Meant(p), s);
      PairText(high, low, s);
  }

  lemma PairText(high: string, low: string, s: string)
    ensures "\\u" + high + "\\u" + low + s == ['\\', 'u'] + (high + ("\\u" + (low + s)))
  {
  }

  lemma NoLetterU()
    ensures 'u' !in SHORT_ESCAPES
  {
  }

  lemma {:induction false} PiecesParse(pieces: seq<Piece>, rest: string)
    requires ProperPieces(pieces)
    ensures ParseChars(SpelledAll(pieces) + "\"" + rest) == Parsed(MeantAll(pieces), rest)
  {
    hide ProperPiece, Spelled, Meant;
    if pieces == [] {
      assert SpelledAll(pieces) + "\"" + rest == "\"" + rest;
      assert ("\"" + rest)[1..] == rest;
    } else {
      PiecesParse(pieces[1..], rest);
      PieceParses(pieces[0], SpelledAll(pieces[1..]) + "\"" + rest);
      assert SpelledAll(pieces) + "\"" + rest == Spelled(pieces[0]) + (SpelledAll(pieces[1..]) + "\"" + rest);
    }
  }

  /** The first piece of a string literal that can be read, and what follows it. */
  lemma FirstPiece(s: string) returns (p: Piece, later: string)
    requires ParseChars(s).Parsed? && s[0] != '"'
    ensures ProperPiece(p) && s == Spelled(p) + later && ParseChars(later).Parsed?
    ensures ParseChars(s) == Parsed([Meant(p)] + ParseChars(later).value, ParseChars(later).rest)
  {
    hide SHORT_ESCAPES, FourHex, HexNumber, Hex4;
    if s[0] != '\\' {
      p, later := Plain(s[0]), s[1..];
    } else if s[1] != 'u' {
      p, later := Short(s[1]), s[2..];
      ShortEscapes(s[1]);
    } else {
      p, later := CodePiece(s[2..]);
      assert s == "\\u" + s[2..];
    }
  }

  lemma CodePiece(s: string) returns (p: Piece, later: string)
    requires UnicodeEscape(s).Parsed?
    ensures ProperPiece(p) && "\\u" + s == Spelled(p) + later && UnicodeEscape(s) == Parsed(Meant(p), later)
  {
    hide FourHex, HexNumber, Hex4;
    HexIsFour(s);
    later := s[4..];
    if 0xD800 <= HexNumber(s[..4]) < 0xE000 {
      HexIsFour(s[6..]);
      p, later := Pair(s[..4], s[6..][..4]), s[10..];
      PairSlices(s);
    } else {
      p := Code(s[..4]);
    }
  }

  lemma PairSlices(s: string)
    requires |s| >= 10 && s[4] == '\\' && s[5] == 'u'
    ensures s[6..][4..] == s[10..]
    ensures "\\u" + s == "\\u" + s[..4] + "\\u" + s[6..][..4] + s[10..]
  {
  }

  lemma {:induction false} CharsSpelled(s: string) returns (pieces: seq<Piece>)
    requires ParseChars(s).Parsed?
    ensures ProperPieces(pieces) && s == SpelledAll(pieces) + "\"" + ParseChars(s).rest && MeantAll(pieces) == ParseChars(s).value
    decreases |s|
  {
    hide ProperPiece, Spelled, Meant;
    if s[0] == '"' {
      pieces := [];
    } else {
      var p, later := FirstPiece(s);
      assert |later| < |s| by { PieceIsSome(p); }
      var others := CharsSpelled(later);
      pieces := [p] + others;
      assert pieces[1..] == others;
    }
  }

  lemma PieceIsSome(p: Piece)
    ensures Spelled(p) != ""
  {
  }

  // ---------------------------------------------------------------- scalars

  lemma ScalarParses(text: string, v: Json, rest: string)
    requires Says(text, v) && Delimited(rest)
    ensures ParseValue(text + rest) == Parsed(v, rest) && StartsValue(text)
  {
    hide ParseValue;
    PrintStarts(v, Compact, 0);
    if v == Int(0) && text == "-0" {
      MinusZero(rest);
    } else if v.Int? || v.Float? {
      AtomParses(v, Compact, 0, rest);
    } else {
      LiteralParses(v, Compact, 0, rest);
    }
  }

  lemma MinusZero(rest: string)
    requires Delimited(rest)
    ensures ParseValue("-0" + rest) == Parsed(Int(0), rest)
  {
    var s := "-0" + rest;
    NumberEndAt("-0", rest);
    assert s[..2] == "-0" && s[2..] == rest && "-0"[1..] == "0";
    NumberCase(s, Int(0), rest);
  }

  lemma ScalarSaid(s: string)
    requires s != "" && s[0] !in ['"', '[', '{'] && ParseValue(s).Parsed?
    ensures exists text :: Says(text, ParseValue(s).value) && s == text + ParseValue(s).rest
  {
    hide ParseValue, Literal, ParseNumber, Says;
    ScalarCase(s);
    if Literal(s).Parsed? {
      LiteralSaid(s);
    } else {
      NumberSaid(s);
    }
  }

  lemma ScalarCase(s: string)
    requires s != "" && s[0] !in ['"', '[', '{']
    ensures ParseValue(s) == if Literal(s).Parsed? then Literal(s) else ParseNumber(s)
  {
    hide Literal, ParseNumber;
  }

  lemma LiteralSaid(s: string)
    requires s != "" && Literal(s).Parsed?
    ensures exists text :: Says(text, Literal(s).value) && s == text + Literal(s).rest
  {
    var text :=
      if s[0] == 'n' then "null" else if s[0] == 't' then "true" else if s[0] == 'f' then "false"
      else if s[0] == 'N' then "NaN" else if s[0] == 'I' then "Infinity" else "-Infinity";
    Headed(s, text);
    assert Says(text, Literal(s).value);
  }

  lemma Headed(s: string, p: string)
    requires StartsWith(s, p)
    ensures s == p + s[|p|..]
  {
  }

  lemma NumberSaid(s: string)
    requires ParseNumber(s).Parsed?
    ensures exists text :: Says(text, ParseNumber(s).value) && s == text + ParseNumber(s).rest
  {
    hide NaturalValue, IsFloatText, Digits;
    var n := NumberEnd(s);
    var run := s[..n];
    assert s == run + s[n..];
    if IsNaturalText(run) {
      NaturalText(run);
    } else if run != "" && run[0] == '-' && IsNaturalText(run[1..]) {
      NaturalText(run[1..]);
      assert run == "-" + run[1..];
      ZeroDigits();
    }
    assert Says(run, ParseNumber(s).value);
  }

  lemma ZeroDigits()
    ensures Digits(0) == "0"
  {
  }

  // ---------------------------------------------------------------- what is written is read

  lemma Bracket(open: char, gap: string, later: string, rest: string)
    ensures ([open] + gap + later + rest)[0] == open && ([open] + gap + later + rest)[1..] == gap + (later + rest)
  {
  }

  lemma SkipTo(gap: string, s: string)
    requires IsGap(gap) && s != "" && !IsWhitespace(s[0])
    ensures SkipWhitespace(gap + s) == s
  {
    GapIsBlank(gap);
    SkipBlank(gap, s);
  }

  /** White space and a bracket, a comma or nothing: the value before it has ended. */
  lemma GapEnds(gap: string, close: string)
    requires IsGap(gap) && Delimited(close)
    ensures Delimited(gap + close)
  {
    if gap != "" { assert (gap + close)[0] == gap[0]; }
  }

  lemma QuotedRead(pieces: seq<Piece>, rest: string)
    requires ProperPieces(pieces)
    ensures var s := "\"" + SpelledAll(pieces) + "\"" + rest;
      s[0] == '"' && ParseChars(s[1..]) == Parsed(MeantAll(pieces), rest)
  {
    PiecesParse(pieces, rest);
    AfterQuote(SpelledAll(pieces), rest);
  }

  lemma ListRead(gap: string, text: string, values: seq<Json>, rest: string)
    requires IsGap(gap) && StartsValue(text) && ParseItems(text + rest) == Parsed(values, rest)
    ensures ParseValue("[" + gap + text + rest) == Parsed(Arr(values), rest)
  {
    hide ParseItems, SkipWhitespace, ParseValue;
    Bracket('[', gap, text, rest);
    SkipTo(gap, text + rest);
    ArrayStep("[" + gap + text + rest, text + rest, values, rest);
  }

  lemma TableRead(gap: string, text: string, fields: map<string, Json>, rest: string)
    requires IsGap(gap) && text != "" && text[0] == '"' && ParseMembers(text + rest) == Parsed(fields, rest)
    ensures ParseValue("{" + gap + text + rest) == Parsed(Obj(fields), rest)
  {
    hide ParseMembers, SkipWhitespace, ParseValue;
    Bracket('{', gap, text, rest);
    SkipTo(gap, text + rest);
    ObjectStep("{" + gap + text + rest, text + rest, fields, rest);
  }

  lemma EmptyRead(gap: string, rest: string)
    requires IsGap(gap)
    ensures ParseValue("[" + gap + "]" + rest) == Parsed(Arr([]), rest)
    ensures ParseValue("{" + gap + "}" + rest) == Parsed(Obj(map[]), rest)
  {
    hide ParseItems, ParseMembers, SkipWhitespace;
    Bracket('[', gap, "]", rest);
    Bracket('{', gap, "}", rest);
    SkipTo(gap, "]" + rest);
    SkipTo(gap, "}" + rest);
    assert ("]" + rest)[1..] == rest && ("}" + rest)[1..] == rest;
  }

  lemma TextRead(pieces: seq<Piece>, rest: string)
    requires ProperPieces(pieces)
    ensures ParseValue("\"" + SpelledAll(pieces) + "\"" + rest) == Parsed(Str(MeantAll(pieces)), rest)
  {
    hide ParseChars, SpelledAll, MeantAll, ProperPieces;
    QuotedRead(pieces, rest);
  }

  lemma {:induction false} DocParses(d: Doc, rest: string)
    requires Proper(d) && Delimited(rest)
    ensures ParseValue(Written(d) + rest) == Parsed(Meaning(d), rest)
    ensures StartsValue(Written(d))
    decreases d
  {
    hide Says, ParseItems, ParseMembers, ParseChars, ParseValue, SkipWhitespace, SpelledAll, MeantAll, ProperPieces;
    match d
    case Scalar(text, v) => ScalarParses(text, v, rest);
    case Quoted(pieces) => TextRead(pieces, rest);
    case NoItems(gap) => EmptyRead(gap, rest);
    case List(gap, items) =>
      ItemsRead(items, rest);
      ListRead(gap, WrittenItems(items), MeaningOfItems(items), rest);
    case NoMembers(gap) => EmptyRead(gap, rest);
    case Table(gap, members) =>
      MembersRead(members, rest);
      TableRead(gap, WrittenMembers(members), MeaningOfMembers(members), rest);
  }

  /** The end of the items behind the gap of the first one. */
  function ItemsEnd(items: Items): string {
    if items.LastItem? then "]" else "," + items.lead + WrittenItems(items.others)
  }

  lemma ItemsText(items: Items, rest: string)
    ensures WrittenItems(items) + rest == Written(items.item) + (items.gap + (ItemsEnd(items) + rest))
  {
  }

  lemma CommaText(lead: string, others: string, rest: string)
    ensures var next := "," + lead + others + rest; next[0] == ',' && next[1..] == lead + (others + rest)
  {
  }

  lemma {:induction false} ItemsRead(items: Items, rest: string)
    requires ProperItems(items)
    ensures ParseItems(WrittenItems(items) + rest) == Parsed(MeaningOfItems(items), rest)
    ensures StartsValue(WrittenItems(items))
    decreases items
  {
    hide ParseValue, ParseItems, Proper, Written, Meaning, SkipWhitespace;
    var close := ItemsEnd(items) + rest;
    var after := items.gap + close;
    ItemsText(items, rest);
    GapEnds(items.gap, close);
    DocParses(items.item, after);
    SkipTo(items.gap, close);
    var s := WrittenItems(items) + rest;
    if items.LastItem? {
      ItemsStep(s, Meaning(items.item), after, "");
      assert close[1..] == rest && MeaningOfItems(items) == [Meaning(items.item)];
    } else {
      ItemsRead(items.others, rest);
      var more := WrittenItems(items.others) + rest;
      SkipTo(items.lead, more);
      CommaText(items.lead, WrittenItems(items.others), rest);
      ItemsStep(s, Meaning(items.item), after, more);
    }
  }

  function MembersEnd(m: Members): string {
    if m.LastMember? then "}" else "," + m.lead + WrittenMembers(m.others)
  }

  lemma MembersText(m: Members, rest: string)
    ensures WrittenMembers(m) + rest ==
      "\"" + SpelledAll(m.key) + "\"" + (m.before + (":" + (m.after + (Written(m.value) + (m.gap + (MembersEnd(m) + rest))))))
  {
    hide SpelledAll, Written;
    Regrouped("\"" + SpelledAll(m.key) + "\"", m.before, m.after, Written(m.value), m.gap, MembersEnd(m), rest);
  }

  lemma Regrouped(key: string, before: string, after: string, value: string, gap: string, end: string, rest: string)
    ensures key + before + ":" + after + value + gap + end + rest ==
      key + (before + (":" + (after + (value + (gap + (end + rest))))))
  {
  }

  lemma AfterColon(s: string)
    ensures (":" + s)[0] == ':' && (":" + s)[1..] == s
  {
  }

  lemma {:induction false} MembersRead(m: Members, rest: string)
    requires ProperMembers(m)
    ensures ParseMembers(WrittenMembers(m) + rest) == Parsed(MeaningOfMembers(m), rest)
    ensures WrittenMembers(m) != "" && WrittenMembers(m)[0] == '"'
    decreases m
  {
    hide ParseValue, ParseMembers, ParseChars, Proper, Written, Meaning, MeantAll, SpelledAll, ProperPieces, SkipWhitespace;
    var close := MembersEnd(m) + rest;
    var after := m.gap + close;
    var text := Written(m.value) + after;
    var behind := m.before + (":" + (m.after + text));
    var s := WrittenMembers(m) + rest;
    MembersText(m, rest);
    GapEnds(m.gap, close);
    DocParses(m.value, after);
    QuotedRead(m.key, behind);
    SkipTo(m.before, ":" + (m.after + text));
    SkipTo(m.after, text);
    AfterColon(m.after + text);
    SkipTo(m.gap, close);
    if m.LastMember? {
      MembersStep(s, MeantAll(m.key), Meaning(m.value), behind, text, after, "");
      assert close[1..] == rest && MeaningOfMembers(m) == map[MeantAll(m.key) := Meaning(m.value)];
    } else {
      MembersRead(m.others, rest);
      var more := WrittenMembers(m.others) + rest;
      SkipTo(m.lead, more);
      CommaText(m.lead, WrittenMembers(m.others), rest);
      MembersStep(s, MeantAll(m.key), Meaning(m.value), behind, text, after, more);
    }
  }

  // ---------------------------------------------------------------- what is read was written

  lemma {:induction false} Skipped(s: string) returns (gap: string)
    ensures IsGap(gap) && s == gap + SkipWhitespace(s)
  {
    if s != "" && IsWhitespace(s[0]) {
      var others := Skipped(s[1..]);
      gap := [s[0]] + others;
    } else {
      gap := "";
    }
  }

  lemma ListCase(s: string)
    requires s != "" && s[0] == '[' && ParseValue(s).Parsed?
    ensures SkipWhitespace(s[1..]) != ""
    ensures var inner := SkipWhitespace(s[1..]);
      if inner[0] == ']' then ParseValue(s) == Parsed(Arr([]), inner[1..])
      else ParseItems(inner).Parsed? && ParseValue(s) == Parsed(Arr(ParseItems(inner).value), ParseItems(inner).rest)
  {
    hide SkipWhitespace;
  }

  lemma TableCase(s: string)
    requires s != "" && s[0] == '{' && ParseValue(s).Parsed?
    ensures SkipWhitespace(s[1..]) != ""
    ensures var inner := SkipWhitespace(s[1..]);
      if inner[0] == '}' then ParseValue(s) == Parsed(Obj(map[]), inner[1..])
      else ParseMembers(inner).Parsed? && ParseValue(s) == Parsed(Obj(ParseMembers(inner).value), ParseMembers(inner).rest)
  {
    hide SkipWhitespace;
  }

  lemma TextCase(s: string)
    requires s != "" && s[0] == '"' && ParseValue(s).Parsed?
    ensures ParseChars(s[1..]).Parsed? && ParseValue(s) == Parsed(Str(ParseChars(s[1..]).value), ParseChars(s[1..]).rest)
  {
    hide ParseChars;
  }

  lemma NothingParses()
    ensures ParseValue("").Fail?
  {
  }

  /** A text that starts with a bracket, white space and more. */
  lemma Bracketed(s: string, gap: string, inner: string, written: string, rest: string)
    requires s != "" && s[1..] == gap + inner && inner == written + rest
    ensures s == [s[0]] + gap + written + rest
  {
    assert s == [s[0]] + s[1..];
  }

  lemma {:induction false} ValueWritten(s: string) returns (d: Doc)
    requires ParseValue(s).Parsed?
    ensures Proper(d) && s == Written(d) + ParseValue(s).rest && Meaning(d) == ParseValue(s).value
    decreases |s|, 0
  {
    hide ParseItems, ParseMembers, ParseChars, ParseValue, SpelledAll, MeantAll, Says, SkipWhitespace, ProperPieces;
    NothingParses();
    var rest := ParseValue(s).rest;
    if s[0] == '"' {
      TextCase(s);
      var pieces := CharsSpelled(s[1..]);
      d := Quoted(pieces);
      KeyText(s, SpelledAll(pieces), rest);
    } else if s[0] == '[' {
      ListCase(s);
      var gap := Skipped(s[1..]);
      var inner := SkipWhitespace(s[1..]);
      if inner[0] == ']' {
        d := NoItems(gap);
        Bracketed(s, gap, inner, "]", rest);
      } else {
        var items := ItemsWritten(inner);
        d := List(gap, items);
        Bracketed(s, gap, inner, WrittenItems(items), rest);
      }
    } else if s[0] == '{' {
      TableCase(s);
      var gap := Skipped(s[1..]);
      var inner := SkipWhitespace(s[1..]);
      if inner[0] == '}' {
        d := NoMembers(gap);
        Bracketed(s, gap, inner, "}", rest);
      } else {
        var members := MembersWritten(inner);
        d := Table(gap, members);
        Bracketed(s, gap, inner, WrittenMembers(members), rest);
      }
    } else {
      ScalarSaid(s);
      var text :| Says(text, ParseValue(s).value) && s == text + ParseValue(s).rest;
      d := Scalar(text, ParseValue(s).value);
    }
  }

  lemma {:induction false} ItemsWritten(s: string) returns (items: Items)
    requires ParseItems(s).Parsed?
    ensures ProperItems(items) && s == WrittenItems(items) + ParseItems(s).rest && MeaningOfItems(items) == ParseItems(s).value
    decreases |s|, 1
  {
    hide ParseValue, Proper, Written, Meaning, WrittenItems, SkipWhitespace;
    var rest := ParseItems(s).rest;
    var item := ValueWritten(s);
    var after := ParseValue(s).rest;
    var gap := Skipped(after);
    var next := SkipWhitespace(after);
    if next[0] == ']' {
      items := LastItem(item, gap);
      assert next == "]" + rest;
    } else {
      var lead := Skipped(next[1..]);
      var others := ItemsWritten(SkipWhitespace(next[1..]));
      items := NextItem(item, gap, lead, others);
      CommaText(lead, WrittenItems(others), rest);
      assert next == "," + next[1..];
    }
    ItemsText(items, rest);
  }

  /** What reading members does first: a key, a colon, a value, and a brace or a comma behind it. */
  lemma MemberCase(s: string)
    requires ParseMembers(s).Parsed?
    ensures s != "" && s[0] == '"' && ParseChars(s[1..]).Parsed?
    ensures var colon := SkipWhitespace(ParseChars(s[1..]).rest);
      colon != "" && colon[0] == ':' && ParseValue(SkipWhitespace(colon[1..])).Parsed?
    ensures var colon := SkipWhitespace(ParseChars(s[1..]).rest);
      SkipWhitespace(ParseValue(SkipWhitespace(colon[1..])).rest) != ""
    ensures var key := ParseChars(s[1..]).value;
      var value := ParseValue(SkipWhitespace(SkipWhitespace(ParseChars(s[1..]).rest)[1..]));
      var next := SkipWhitespace(value.rest); var more := SkipWhitespace(next[1..]);
      if next[0] == '}' then ParseMembers(s) == Parsed(map[key := value.value], next[1..])
      else next[0] == ',' && ParseMembers(more).Parsed?
           && ParseMembers(s) == Parsed(map[key := value.value] + ParseMembers(more).value, ParseMembers(more).rest)
  {
    hide ParseChars, ParseValue, SkipWhitespace;
  }

  lemma {:induction false} MembersWritten(s: string) returns (m: Members)
    requires ParseMembers(s).Parsed?
    ensures ProperMembers(m) && s == WrittenMembers(m) + ParseMembers(s).rest && MeaningOfMembers(m) == ParseMembers(s).value
    decreases |s|, 1
  {
    hide ParseValue, ParseMembers, ParseChars, Proper, Written, Meaning, MeantAll, SpelledAll, ProperPieces, WrittenMembers,
      SkipWhitespace;
    MemberCase(s);
    var rest := ParseMembers(s).rest;
    var key := CharsSpelled(s[1..]);
    var afterKey := ParseChars(s[1..]).rest;
    var before := Skipped(afterKey);
    var colon := SkipWhitespace(afterKey);
    var behind := Skipped(colon[1..]);
    var text := SkipWhitespace(colon[1..]);
    var value := ValueWritten(text);
    var after := ParseValue(text).rest;
    var gap := Skipped(after);
    var next := SkipWhitespace(after);
    if next[0] == '}' {
      m := LastMember(key, before, behind, value, gap);
      assert next == "}" + rest;
    } else {
      var lead := Skipped(next[1..]);
      var others := MembersWritten(SkipWhitespace(next[1..]));
      m := NextMember(key, before, behind, value, gap, lead, others);
      CommaText(lead, WrittenMembers(others), rest);
      assert next == "," + next[1..];
    }
    MembersText(m, rest);
    KeyText(s, SpelledAll(key), afterKey);
    ColonText(colon);
  }

  lemma KeyText(s: string, spelled: string, afterKey: string)
    requires s != "" && s[0] == '"' && s[1..] == spelled + "\"" + afterKey
    ensures s == "\"" + spelled + "\"" + afterKey
  {
    assert s == "\"" + s[1..];
  }

  lemma ColonText(s: string)
    requires s != "" && s[0] == ':'
    ensures s == ":" + s[1..]
  {
  }

  // ---------------------------------------------------------------- main results

  /** A text parses to a value exactly if a document of the grammar, in white space, is that text and means that value. */
  lemma LoadsExactly(t: string, v: Json)
    ensures Loads(t) == Some(v) <==>
      exists lead, d, tail :: IsGap(lead) && IsGap(tail) && Proper(d) && t == lead + Written(d) + tail && Meaning(d) == v
  {
    hide ParseValue, Proper, Written, Meaning;
    if Loads(t) == Some(v) {
      var lead := Skipped(t);
      var s := SkipWhitespace(t);
      var d := ValueWritten(s);
      var tail := Skipped(ParseValue(s).rest);
      assert tail == ParseValue(s).rest;
      assert t == lead + Written(d) + tail;
    }
    if lead, d, tail :| IsGap(lead) && IsGap(tail) && Proper(d) && t == lead + Written(d) + tail && Meaning(d) == v {
      assert t == lead + (Written(d) + tail);
      DocParses(d, tail);
      SkipTo(lead, Written(d) + tail);
      GapIsBlank(tail);
      SkipBlank(tail, "");
      assert tail + "" == tail;
    }
  }

  /** A float is a whole number with a fraction, an exponent, or both. */
  lemma FloatForm(s: string)
    ensures IsFloatText(s) <==> exists sign, whole, fraction, exponent ::
      s == sign + whole + fraction + exponent && FloatParts(sign, whole, fraction, exponent)
  {
    hide IsFloatText, FloatParts;
    if IsFloatText(s) { FloatSplits(s); }
    if sign, whole, fraction, exponent :|
      s == sign + whole + fraction + exponent && FloatParts(sign, whole, fraction, exponent) {
      FloatJoins(sign, whole, fraction, exponent);
    }
  }

  lemma {:induction false} DigitsEndIs(s: string, i: nat, n: nat)
    requires i <= n <= |s| && (forall j :: i <= j < n ==> IsDigit(s[j])) && (n == |s| || !IsDigit(s[n]))
    ensures DigitsEnd(s, i) == n
    decreases n - i
  {
    if i < n { DigitsEndIs(s, i + 1, n); }
  }

  lemma {:induction false} DigitsToEnd(s: string, i: nat)
    requires i <= |s|
    ensures forall j :: i <= j < DigitsEnd(s, i) ==> IsDigit(s[j])
    decreases |s| - i
  {
    if i < |s| && IsDigit(s[i]) { DigitsToEnd(s, i + 1); }
  }

  lemma ExponentSplits(s: string, i: nat)
    requires i <= |s| && IsExponent(s, i)
    ensures IsExponentText(s[i..])
  {
    var j := if i + 1 < |s| && (s[i + 1] == '+' || s[i + 1] == '-') then i + 2 else i + 1;
    DigitsToEnd(s, j);
    assert s[i..][j - i..] == s[j..];
  }

  lemma DigitsOf(s: string, i: nat, n: nat)
    requires i < n <= |s| && forall j :: i <= j < n ==> IsDigit(s[j])
    ensures AllDigits(s[i..n]) && s[i..n][0] == s[i]
  {
  }

  lemma FourParts(s: string, a: nat, b: nat, c: nat)
    requires a <= b <= c <= |s|
    ensures s == s[..a] + s[a..b] + s[b..c] + s[c..]
  {
  }

  lemma FirstOff(s: string, i: nat, n: nat)
    requires i < n <= |s|
    ensures s[i..n] == [s[i]] + s[i + 1..n] && s[i..n][1..] == s[i + 1..n]
  {
  }

  lemma FloatSplits(s: string)
    requires IsFloatText(s)
    ensures exists sign, whole, fraction, exponent ::
      s == sign + whole + fraction + exponent && FloatParts(sign, whole, fraction, exponent)
  {
    hide IsExponent, IsExponentText, AllDigits, DigitsEnd;
    var a := if s != "" && s[0] == '-' then 1 else 0;
    var b := DigitsEnd(s, a);
    DigitsToEnd(s, a);
    var c := if s[b] == '.' then DigitsEnd(s, b + 1) else b;
    if s[b] == '.' { DigitsToEnd(s, b + 1); }
    if c < |s| { ExponentSplits(s, c); }
    var (sign, whole, fraction, exponent) := (s[..a], s[a..b], s[b..c], s[c..]);
    FourParts(s, a, b, c);
    DigitsOf(s, a, b);
    if s[b] == '.' {
      FirstOff(s, b, c);
      DigitsOf(s, b + 1, c);
    }
    assert FloatParts(sign, whole, fraction, exponent);
  }

  predicate AllNumberChars(s: string) { forall i :: 0 <= i < |s| ==> IsNumberChar(s[i]) }

  lemma PartsAreNumberChars(sign: string, whole: string, fraction: string, exponent: string)
    requires FloatParts(sign, whole, fraction, exponent)
    ensures AllNumberChars(sign + whole + fraction + exponent)
  {
    if fraction != "" { assert fraction == "." + fraction[1..]; }
    if exponent != "" {
      assert exponent == [exponent[0]] + exponent[1..];
      if exponent[1] == '+' || exponent[1] == '-' { assert exponent[1..] == [exponent[1]] + exponent[2..]; }
    }
    assert AllNumberChars(whole) && AllNumberChars(fraction) && AllNumberChars(exponent);
  }

  lemma ExponentJoins(s: string, i: nat)
    requires i <= |s| && IsExponentText(s[i..])
    ensures IsExponent(s, i) && !IsDigit(s[i]) && s[i] != '.'
  {
    var j := if s[i + 1] == '+' || s[i + 1] == '-' then i + 2 else i + 1;
    assert s[j..] == s[i..][j - i..];
    forall k | j <= k < |s| ensures IsDigit(s[k]) { assert s[k] == s[j..][k - j]; }
    DigitsEndIs(s, j, |s|);
  }

  lemma DigitsIn(s: string, i: nat, n: nat)
    requires i < n <= |s| && AllDigits(s[i..n]) && (n == |s| || !IsDigit(s[n]))
    ensures DigitsEnd(s, i) == n
  {
    forall k | i <= k < n ensures IsDigit(s[k]) { assert s[k] == s[i..n][k - i]; }
    DigitsEndIs(s, i, n);
  }

  lemma FloatJoins(sign: string, whole: string, fraction: string, exponent: string)
    requires FloatParts(sign, whole, fraction, exponent)
    ensures IsFloatText(sign + whole + fraction + exponent)
  {
    hide IsExponent, IsExponentText, DigitsEnd, AllDigits;
    var s := sign + whole + fraction + exponent;
    var a, b, c := |sign|, |sign| + |whole|, |sign| + |whole| + |fraction|;
    PartsAreNumberChars(sign, whole, fraction, exponent);
    Slices(sign, whole, fraction, exponent);
    SomeDigit(whole);
    assert s[a] == whole[0] by { assert whole == s[a..b]; }
    if exponent != "" { ExponentJoins(s, c); }
    if fraction != "" {
      assert s[b] == '.' && s[b + 1..c] == fraction[1..];
      SomeDigit(fraction[1..]);
      DigitsIn(s, b + 1, c);
    }
    DigitsIn(s, a, b);
    assert a == if s[0] == '-' then 1 else 0 by { assert sign == "-" ==> s[0] == '-'; }
  }

  lemma SomeDigit(s: string)
    requires AllDigits(s)
    ensures s != "" && IsDigit(s[0])
  {
  }

  lemma Slices(a: string, b: string, c: string, d: string)
    ensures var s := a + b + c + d;
      s[..|a|] == a && s[|a|..|a| + |b|] == b && s[|a| + |b|..|a| + |b| + |c|] == c && s[|a| + |b| + |c|..] == d
  {
  }

  predicate FloatParts(sign: string, whole: string, fraction: string, exponent: string) {
    && (sign == "" || sign == "-") && IsNaturalText(whole)
    && (fraction == "" || (fraction[0] == '.' && AllDigits(fraction[1..])))
    && (exponent == "" || IsExponentText(exponent)) && fraction + exponent != ""
  }

  predicate IsExponentText(e: string) {
    |e| >= 2 && (e[0] == 'e' || e[0] == 'E') && AllDigits(if e[1] == '+' || e[1] == '-' then e[2..] else e[1..])
  }
}
