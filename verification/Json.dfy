/** JSON values, the canonical printer, and a parser for the grammar of sections 2 to 7 of RFC 8259
    with the extensions of Python's `json.loads` (the literals NaN, Infinity and -Infinity). */
module Json {
  import opened Text

  predicate IsDigit(c: char) { '0' <= c <= '9' }

  predicate IsNumberChar(c: char) {
    IsDigit(c) || c == '+' || c == '-' || c == '.' || c == 'e' || c == 'E'
  }

  predicate IsWhitespace(c: char) { c == ' ' || c == '\t' || c == '\n' || c == '\r' }

  /** First position at or after `i` that does not hold a digit. */
  function DigitsEnd(s: string, i: nat): (n: nat)
    requires i <= |s|
    ensures i <= n <= |s|
    decreases |s| - i
  {
    if i < |s| && IsDigit(s[i]) then DigitsEnd(s, i + 1) else i
  }

  predicate IsExponent(s: string, i: nat)
    requires i <= |s|
  {
    i < |s| && (s[i] == 'e' || s[i] == 'E') &&
    var j := if i + 1 < |s| && (s[i + 1] == '+' || s[i + 1] == '-') then i + 2 else i + 1;
    j < |s| && DigitsEnd(s, j) == |s|
  }

  /** A number literal with a fraction or an exponent: what a finite float prints as. */
  predicate IsFloatText(s: string) {
    (forall i :: 0 <= i < |s| ==> IsNumberChar(s[i])) &&
    var a := if s != "" && s[0] == '-' then 1 else 0;
    var b := DigitsEnd(s, a);
    a < b < |s| && (s[a] == '0' ==> b == a + 1) &&
    if s[b] == '.' then
      var c := DigitsEnd(s, b + 1);
      b + 1 < c && (c == |s| || IsExponent(s, c))
    else IsExponent(s, b)
  }

  /** A finite float is opaque: it is the literal it prints as. */
  type FloatText = s: string | IsFloatText(s) witness "0.5"

  datatype NonFiniteName = NaN | PlusInfinity | MinusInfinity

  datatype Json =
    | Null
    | Bool(b: bool)
    | Int(n: int)
    | Float(literal: FloatText)
    | NonFinite(name: NonFiniteName)
    | Str(text: string)
    | Arr(items: seq<Json>)
    | Obj(fields: map<string, Json>)

  // ---------------------------------------------------------------- printing

  /** `json.dumps` without indentation and with `separators=(",", ":")`, or with `indent=2`. */
  datatype Style = Compact | Indented

  function Spaces(n: nat): string { if n == 0 then "" else " " + Spaces(n - 1) }

  function NewLine(style: Style, level: nat): string {
    if style.Compact? then "" else "\n" + Spaces(2 * level)
  }

  function Colon(style: Style): string { if style.Compact? then ":" else ": " }

  function HexDigit(n: nat): char
    requires n < 16
  {
    if n < 10 then ('0' as int + n) as char else ('a' as int + n - 10) as char
  }

  function EscapeChar(c: char): string {
    if c == '"' then "\\\""
    else if c == '\\' then "\\\\"
    else if c == '\n' then "\\n"
    else if c == '\r' then "\\r"
    else if c == '\t' then "\\t"
    else if c == '\U{0C}' then "\\f"
    else if c == '\U{08}' then "\\b"
    else if c < ' ' then "\\u00" + [HexDigit(c as int / 16), HexDigit(c as int % 16)]
    else [c]
  }

  function Escape(t: string): string {
    if t == "" then "" else EscapeChar(t[0]) + Escape(t[1..])
  }

  function Quote(t: string): string { "\"" + Escape(t) + "\"" }

  function Digits(n: nat): (s: string)
    ensures s != "" && forall i :: 0 <= i < |s| ==> IsDigit(s[i])
  {
    if n < 10 then [('0' as int + n) as char]
    else Digits(n / 10) + [('0' as int + n % 10) as char]
  }

  function Decimal(n: int): string {
    if n < 0 then "-" + Digits(-n) else Digits(n)
  }

  function NonFiniteText(name: NonFiniteName): string {
    match name
    case NaN => "NaN"
    case PlusInfinity => "Infinity"
    case MinusInfinity => "-Infinity"
  }

  /** `json.dumps(v, sort_keys=True, ensure_ascii=False)` in the given style. */
  function Print(v: Json, style: Style, level: nat): string
    decreases v, 1, 0
  {
    match v
    case Null => "null"
    case Bool(b) => if b then "true" else "false"
    case Int(n) => Decimal(n)
    case Float(literal) => literal
    case NonFinite(name) => NonFiniteText(name)
    case Str(t) => Quote(t)
    case Arr(items) =>
      if items == [] then "[]"
      else ("[" + NewLine(style, level + 1) + PrintItems(v, 0, style, level) + NewLine(style, level) + "]")
    case Obj(fields) =>
      if fields == map[] then "{}"
      else ("{" + NewLine(style, level + 1) + PrintMembers(v, SortedKeys(fields.Keys), style, level)
            + NewLine(style, level) + "}")
  }

  function PrintItems(v: Json, i: nat, style: Style, level: nat): string
    requires v.Arr? && i < |v.items|
    decreases v, 0, |v.items| - i
  {
    Print(v.items[i], style, level + 1) +
    if i + 1 == |v.items| then ""
    else "," + NewLine(style, level + 1) + PrintItems(v, i + 1, style, level)
  }

  function PrintMembers(v: Json, keys: seq<string>, style: Style, level: nat): string
    requires v.Obj? && keys != []
    requires forall k :: k in keys ==> k in v.fields
    decreases v, 0, |keys|
  {
    Quote(keys[0]) + Colon(style) + Print(v.fields[keys[0]], style, level + 1) +
    if |keys| == 1 then ""
    else "," + NewLine(style, level + 1) + PrintMembers(v, keys[1..], style, level)
  }

  /** `allow_nan=False` refuses these values. */
  predicate AllFinite(v: Json) {
    match v
    case NonFinite(_) => false
    case Arr(items) => forall i :: 0 <= i < |items| ==> AllFinite(items[i])
    case Obj(fields) => forall k :: k in fields ==> AllFinite(fields[k])
    case _ => true
  }

  /** The value, or one somewhere in its arrays and objects. */
  predicate Within(part: Json, whole: Json)
    decreases whole
  {
    part == whole ||
    match whole
    case Arr(items) => exists i :: 0 <= i < |items| && Within(part, items[i])
    case Obj(fields) => exists k :: k in fields && Within(part, fields[k])
    case _ => false
  }

  /** `canonical_json`, with `None` for the `ValueError` on non-finite numbers. */
  function Canonical(v: Json): Option<string> {
    if AllFinite(v) then Some(Print(v, Compact, 0)) else None
  }

  // ---------------------------------------------------------------- parsing

  datatype Parse<+T> = Fail | Parsed(value: T, rest: string)

  function SkipWhitespace(s: string): (r: string)
    ensures |r| <= |s|
    ensures r == "" || !IsWhitespace(r[0])
  {
    if s != "" && IsWhitespace(s[0]) then SkipWhitespace(s[1..]) else s
  }

  function HexValue(c: char): Option<nat> {
    if IsDigit(c) then Some(c as int - '0' as int)
    else if 'a' <= c <= 'f' then Some(c as int - 'a' as int + 10)
    else if 'A' <= c <= 'F' then Some(c as int - 'A' as int + 10)
    else None
  }

  /** Four hexadecimal digits. */
  function Hex4(s: string): (r: Option<nat>)
    ensures r.Some? ==> |s| >= 4 && r.value < 0x1_0000
  {
    if |s| < 4 then None else
      match (HexValue(s[0]), HexValue(s[1]), HexValue(s[2]), HexValue(s[3]))
      case (Some(a), Some(b), Some(c), Some(d)) =>
        assert a < 16 && b < 16 && c < 16 && d < 16;
        Some(a * 0x1000 + b * 0x100 + c * 0x10 + d)
      case _ => None
  }

  function SimpleEscape(c: char): Option<char> {
    if c == '"' || c == '\\' || c == '/' then Some(c)
    else if c == 'n' then Some('\n')
    else if c == 'r' then Some('\r')
    else if c == 't' then Some('\t')
    else if c == 'f' then Some('\U{0C}')
    else if c == 'b' then Some('\U{08}')
    else None
  }

  /** One `\uXXXX` escape, or a surrogate pair of them; `s` starts after the backslash and the u. */
  function UnicodeEscape(s: string): (r: Parse<char>)
    ensures r.Parsed? ==> |r.rest| < |s|
  {
    match Hex4(s)
    case None => Fail
    case Some(high) =>
      if !(0xD800 <= high < 0xE000) then Parsed(high as char, s[4..])
      else if high < 0xDC00 && |s| >= 6 && s[4] == '\\' && s[5] == 'u' then
        match Hex4(s[6..])
        case None => Fail
        case Some(low) =>
          if 0xDC00 <= low < 0xE000
          then Parsed((0x1_0000 + (high - 0xD800) * 0x400 + (low - 0xDC00)) as char, s[10..])
          else Fail
      else Fail
  }

  /** The rest of a string literal, after its opening quote. */
  function ParseChars(s: string): (r: Parse<string>)
    ensures r.Parsed? ==> |r.rest| < |s|
    decreases |s|
  {
    if s == "" || s[0] < ' ' then Fail
    else if s[0] == '"' then Parsed("", s[1..])
    else if s[0] != '\\' then
      match ParseChars(s[1..])
      case Fail => Fail
      case Parsed(t, rest) => Parsed([s[0]] + t, rest)
    else if |s| == 1 then Fail
    else if s[1] == 'u' then
      match UnicodeEscape(s[2..])
      case Fail => Fail
      case Parsed(c, after) =>
        match ParseChars(after)
        case Fail => Fail
        case Parsed(t, rest) => Parsed([c] + t, rest)
    else
      match SimpleEscape(s[1])
      case None => Fail
      case Some(c) =>
        match ParseChars(s[2..])
        case Fail => Fail
        case Parsed(t, rest) => Parsed([c] + t, rest)
  }

  /** Length of the leading run of number characters. */
  function NumberEnd(s: string): (n: nat)
    ensures n <= |s| && forall i :: 0 <= i < n ==> IsNumberChar(s[i])
    ensures n < |s| ==> !IsNumberChar(s[n])
  {
    if s == "" || !IsNumberChar(s[0]) then 0 else 1 + NumberEnd(s[1..])
  }

  predicate AllDigits(s: string) { s != "" && forall i :: 0 <= i < |s| ==> IsDigit(s[i]) }

  predicate IsNaturalText(s: string) { AllDigits(s) && (s[0] == '0' ==> |s| == 1) }

  function NaturalValue(s: string): nat
    requires AllDigits(s)
  {
    var d := s[|s| - 1] as int - '0' as int;
    if |s| == 1 then d else NaturalValue(s[..|s| - 1]) * 10 + d
  }

  function ParseNumber(s: string): (r: Parse<Json>)
    ensures r.Parsed? ==> |r.rest| < |s|
  {
    var n := NumberEnd(s);
    var run := s[..n];
    if IsNaturalText(run) then Parsed(Int(NaturalValue(run)), s[n..])
    else if run != "" && run[0] == '-' && IsNaturalText(run[1..])
    then Parsed(Int(0 - NaturalValue(run[1..])), s[n..])
    else if IsFloatText(run) then Parsed(Float(run), s[n..])
    else Fail
  }

  predicate StartsWith(s: string, p: string) { |p| <= |s| && s[..|p|] == p }

  /** `null`, `true`, `false`, `NaN` and the infinities. */
  function Literal(s: string): (r: Parse<Json>)
    requires s != ""
    ensures r.Parsed? ==> |r.rest| < |s|
  {
    if s[0] == 'n' then if StartsWith(s, "null") then Parsed(Null, s[4..]) else Fail
    else if s[0] == 't' then if StartsWith(s, "true") then Parsed(Bool(true), s[4..]) else Fail
    else if s[0] == 'f' then if StartsWith(s, "false") then Parsed(Bool(false), s[5..]) else Fail
    else if s[0] == 'N' then if StartsWith(s, "NaN") then Parsed(NonFinite(NaN), s[3..]) else Fail
    else if s[0] == 'I' then if StartsWith(s, "Infinity") then Parsed(NonFinite(PlusInfinity), s[8..]) else Fail
    else if s[0] == '-' then if StartsWith(s, "-Infinity") then Parsed(NonFinite(MinusInfinity), s[9..]) else Fail
    else Fail
  }

  /** One value at the very start of `s`. */
  function ParseValue(s: string): (r: Parse<Json>)
    ensures r.Parsed? ==> |r.rest| < |s|
    decreases |s|, 0
  {
    if s == "" then Fail
    else if s[0] == '"' then
      match ParseChars(s[1..])
      case Fail => Fail
      case Parsed(t, rest) => Parsed(Str(t), rest)
    else if s[0] == '[' then
      var inner := SkipWhitespace(s[1..]);
      if inner != "" && inner[0] == ']' then Parsed(Arr([]), inner[1..]) else
        match ParseItems(inner)
        case Fail => Fail
        case Parsed(items, rest) => Parsed(Arr(items), rest)
    else if s[0] == '{' then
      var inner := SkipWhitespace(s[1..]);
      if inner != "" && inner[0] == '}' then Parsed(Obj(map[]), inner[1..]) else
        match ParseMembers(inner)
        case Fail => Fail
        case Parsed(fields, rest) => Parsed(Obj(fields), rest)
    else if Literal(s).Parsed? then Literal(s)
    else ParseNumber(s)
  }

  /** The items of a non-empty array, up to and including its closing bracket. */
  function ParseItems(s: string): (r: Parse<seq<Json>>)
    ensures r.Parsed? ==> |r.rest| < |s|
    decreases |s|, 1
  {
    match ParseValue(s)
    case Fail => Fail
    case Parsed(v, after) =>
      var next := SkipWhitespace(after);
      if next == "" then Fail
      else if next[0] == ']' then Parsed([v], next[1..])
      else if next[0] != ',' then Fail
      else
        match ParseItems(SkipWhitespace(next[1..]))
        case Fail => Fail
        case Parsed(items, rest) => Parsed([v] + items, rest)
  }

  /** The members of a non-empty object, up to and including its closing brace; the last of several
      members with one key wins. */
  function ParseMembers(s: string): (r: Parse<map<string, Json>>)
    ensures r.Parsed? ==> |r.rest| < |s|
    decreases |s|, 1
  {
    if s == "" || s[0] != '"' then Fail else
      match ParseChars(s[1..])
      case Fail => Fail
      case Parsed(key, afterKey) =>
        var colon := SkipWhitespace(afterKey);
        if colon == "" || colon[0] != ':' then Fail else
          match ParseValue(SkipWhitespace(colon[1..]))
          case Fail => Fail
          case Parsed(v, after) =>
            var next := SkipWhitespace(after);
            if next == "" then Fail
            else if next[0] == '}' then Parsed(map[key := v], next[1..])
            else if next[0] != ',' then Fail
            else
              match ParseMembers(SkipWhitespace(next[1..]))
              case Fail => Fail
              case Parsed(fields, rest) => Parsed(map[key := v] + fields, rest)
  }

  /** `json.loads`. */
  function Loads(s: string): Option<Json> {
    match ParseValue(SkipWhitespace(s))
    case Fail => None
    case Parsed(v, rest) => if SkipWhitespace(rest) == "" then Some(v) else None
  }
}
