/** JSON text is self-delimiting: what the parser accepts it accepts in front of any continuation, so no
    proper prefix of a printed object is JSON, and an event that `splitlines` breaks cannot be read. */
module JsonPrefix {
  import opened Text
  import opened Json
  import opened JsonRoundTrip
  import opened JsonLines

  lemma {:induction false} CharsExtend(s: string, q: string)
    requires ParseChars(s).Parsed?
    ensures ParseChars(s + q) == Parsed(ParseChars(s).value, ParseChars(s).rest + q)
    decreases |s|
  {
    hide HexValue;
    var e := s + q;
    assert e[0] == s[0];
    if s[0] == '"' {
      assert e[1..] == s[1..] + q;
    } else if s[0] != '\\' {
      assert e[1..] == s[1..] + q;
      CharsExtend(s[1..], q);
    } else {
      assert e[2..] == s[2..] + q && e[1] == s[1];
      if s[1] == 'u' {
        UnicodeEscapeExtends(s[2..], q);
        CharsExtend(UnicodeEscape(s[2..]).rest, q);
      } else {
        CharsExtend(s[2..], q);
      }
    }
  }

  lemma UnicodeEscapeExtends(s: string, q: string)
    requires UnicodeEscape(s).Parsed?
    ensures UnicodeEscape(s + q) == Parsed(UnicodeEscape(s).value, UnicodeEscape(s).rest + q)
  {
    hide HexValue;
    var e := s + q;
    assert Hex4(e) == Hex4(s);
    assert e[4..] == s[4..] + q;
    if |s| >= 10 {
      assert e[6..] == s[6..] + q && e[10..] == s[10..] + q;
      assert Hex4(e[6..]) == Hex4(s[6..]);
    }
  }

  lemma {:induction false} SkipExtends(s: string, q: string)
    requires SkipWhitespace(s) != ""
    ensures SkipWhitespace(s + q) == SkipWhitespace(s) + q
    decreases |s|
  {
    if IsWhitespace(s[0]) {
      assert (s + q)[1..] == s[1..] + q;
      SkipExtends(s[1..], q);
    }
  }

  lemma {:induction false} NumberEndExtends(s: string, q: string)
    requires NumberEnd(s) < |s|
    ensures NumberEnd(s + q) == NumberEnd(s)
    decreases |s|
  {
    if IsNumberChar(s[0]) {
      assert (s + q)[1..] == s[1..] + q;
      NumberEndExtends(s[1..], q);
    }
  }

  lemma NumberExtends(s: string, q: string)
    requires ParseNumber(s).Parsed? && ParseNumber(s).rest != ""
    ensures ParseNumber(s + q) == Parsed(ParseNumber(s).value, ParseNumber(s).rest + q)
  {
    hide IsFloatText, IsNaturalText;
    NumberEndExtends(s, q);
    var n := NumberEnd(s);
    assert (s + q)[..n] == s[..n] && (s + q)[n..] == s[n..] + q;
  }

  lemma StartsWithExtends(s: string, q: string, p: string)
    requires StartsWith(s, p)
    ensures StartsWith(s + q, p) && (s + q)[|p|..] == s[|p|..] + q
  {
    assert (s + q)[..|p|] == s[..|p|];
  }

  lemma LiteralExtends(s: string, q: string)
    requires s != "" && Literal(s).Parsed?
    ensures Literal(s + q) == Parsed(Literal(s).value, Literal(s).rest + q)
  {
    var p :=
      if s[0] == 'n' then "null" else if s[0] == 't' then "true" else if s[0] == 'f' then "false"
      else if s[0] == 'N' then "NaN" else if s[0] == 'I' then "Infinity" else "-Infinity";
    StartsWithExtends(s, q, p);
    assert (s + q)[0] == s[0];
  }

  /** A number that a continuation could lengthen does not read as a literal afterwards. */
  lemma NoLiteralExtends(s: string, q: string)
    requires s != "" && Literal(s).Fail? && ParseNumber(s).Parsed?
    ensures Literal(s + q).Fail?
  {
    var c := s[0];
    assert (s + q)[0] == c;
    assert NumberEnd(s) > 0;
    assert IsNumberChar(c);
    if c == '-' && StartsWith(s + q, "-Infinity") {
      NumberSecond(s);
      assert (s + q)[1] == s[1];
      StartsWithAt(s + q, "-Infinity", 1);
    }
  }

  lemma NumberSecond(s: string)
    requires ParseNumber(s).Parsed? && s != "" && s[0] == '-'
    ensures |s| > 1 && IsDigit(s[1])
  {
    var n := NumberEnd(s);
    var run := s[..n];
    assert run[0] == s[0];
    if IsFloatText(run) {
      assert IsDigit(run[1]);
    } else if IsNaturalText(run[1..]) {
      assert run[1..][0] == s[1];
    }
  }

  predicate SelfDelimited(s: string, rest: string) {
    rest != "" || (s != "" && (s[0] == '{' || s[0] == '[' || s[0] == '"'))
  }

  lemma {:induction false} ValueExtends(s: string, q: string)
    requires ParseValue(s).Parsed? && SelfDelimited(s, ParseValue(s).rest)
    ensures ParseValue(s + q) == Parsed(ParseValue(s).value, ParseValue(s).rest + q)
    decreases |s|, 0
  {
    hide ParseNumber, Literal, ParseChars;
    var e := s + q;
    assert e[0] == s[0];
    assert e[1..] == s[1..] + q;
    if s[0] == '"' {
      CharsExtend(s[1..], q);
    } else if s[0] == '[' {
      ArrayExtends(s, q);
    } else if s[0] == '{' {
      ObjectExtends(s, q);
    } else if Literal(s).Parsed? {
      LiteralExtends(s, q);
    } else {
      NumberExtends(s, q);
      NoLiteralExtends(s, q);
    }
  }

  lemma {:induction false} ArrayExtends(s: string, q: string)
    requires s != "" && s[0] == '[' && ParseValue(s).Parsed?
    ensures ParseValue(s + q) == Parsed(ParseValue(s).value, ParseValue(s).rest + q)
    decreases |s|, 0, 0
  {
    hide ParseNumber, Literal, ParseChars;
    var inner := SkipWhitespace(s[1..]);
    assert (s + q)[1..] == s[1..] + q;
    assert inner != "";
    SkipExtends(s[1..], q);
    assert (inner + q)[1..] == inner[1..] + q;
    if inner[0] != ']' {
      ItemsExtend(inner, q);
    }
  }

  lemma {:induction false} ObjectExtends(s: string, q: string)
    requires s != "" && s[0] == '{' && ParseValue(s).Parsed?
    ensures ParseValue(s + q) == Parsed(ParseValue(s).value, ParseValue(s).rest + q)
    decreases |s|, 0, 0
  {
    hide ParseNumber, Literal, ParseChars;
    var inner := SkipWhitespace(s[1..]);
    assert (s + q)[1..] == s[1..] + q;
    assert inner != "";
    SkipExtends(s[1..], q);
    assert (inner + q)[1..] == inner[1..] + q;
    if inner[0] != '}' {
      MembersExtend(inner, q);
    }
  }

  lemma {:induction false} ItemsExtend(s: string, q: string)
    requires ParseItems(s).Parsed?
    ensures ParseItems(s + q) == Parsed(ParseItems(s).value, ParseItems(s).rest + q)
    decreases |s|, 1
  {
    hide ParseValue;
    var after := ParseValue(s).rest;
    ValueExtends(s, q);
    var next := SkipWhitespace(after);
    SkipExtends(after, q);
    assert (next + q)[1..] == next[1..] + q;
    if next[0] == ',' {
      var more := SkipWhitespace(next[1..]);
      ParseItemsNonEmpty(more);
      SkipExtends(next[1..], q);
      ItemsExtend(more, q);
    }
  }

  lemma ParseItemsNonEmpty(s: string)
    requires ParseItems(s).Parsed?
    ensures s != ""
  {
  }

  lemma {:induction false} MembersExtend(s: string, q: string)
    requires ParseMembers(s).Parsed?
    ensures ParseMembers(s + q) == Parsed(ParseMembers(s).value, ParseMembers(s).rest + q)
    decreases |s|, 1
  {
    hide ParseValue, ParseChars, IsWhitespace, SkipWhitespace;
    assert (s + q)[0] == s[0] && (s + q)[1..] == s[1..] + q;
    CharsExtend(s[1..], q);
    var afterKey := ParseChars(s[1..]).rest;
    var colon := SkipWhitespace(afterKey);
    SkipExtends(afterKey, q);
    assert (colon + q)[1..] == colon[1..] + q;
    var text := SkipWhitespace(colon[1..]);
    ParseValueNonEmpty(text);
    SkipExtends(colon[1..], q);
    var after := ParseValue(text).rest;
    ValueExtends(text, q);
    var next := SkipWhitespace(after);
    SkipExtends(after, q);
    assert (next + q)[1..] == next[1..] + q;
    if next[0] == ',' {
      var more := SkipWhitespace(next[1..]);
      SkipExtends(next[1..], q);
      MembersExtend(more, q);
    }
  }

  lemma ParseValueNonEmpty(s: string)
    requires ParseValue(s).Parsed?
    ensures s != ""
  {
  }

  /** No proper prefix of a printed object is a JSON document. */
  lemma ProperPrefixIsNotJson(v: Json, p: string, q: string)
    requires v.Obj? && p + q == Print(v, Compact, 0) && q != ""
    ensures Loads(p) == None
  {
    if Loads(p).Some? {
      assert p != "";
      assert (p + q)[0] == '{' == p[0];
      assert SkipWhitespace(p) == p;
      assert p + q + "" == p + q;
      ValueParses(v, Compact, 0, "");
      ValueExtends(p, q);
    }
  }

  predicate AllObjects(events: seq<Json>) { forall i :: 0 <= i < |events| ==> events[i].Obj? }

  lemma CutAt(line: string, n: nat, after: string)
    requires n < |line|
    ensures line == line[..n] + line[n..]
    ensures line + after == line[..n] + [line[n]] + (line[n + 1..] + after)
  {
  }

  /** The first piece of a line that `splitlines` breaks is not JSON. */
  lemma BrokenLine(event: Json, rest: string)
    requires event.Obj? && !LineSafe(event)
    ensures var lines := SplitLines(Print(event, Compact, 0) + "\n" + rest);
      lines != [] && Loads(lines[0]) == None
  {
    hide Print, Loads, SplitLines, LineSafe;
    var line := Print(event, Compact, 0);
    CanonicalOneLine(event);
    PrintChars(event, 0);
    var n := LineEnd(line);
    var tail := line[n + 1..] + "\n" + rest;
    CutAt(line, n, "\n" + rest);
    assert line + "\n" + rest == line + ("\n" + rest);
    assert tail == line[n + 1..] + ("\n" + rest);
    ProperPrefixIsNotJson(event, line[..n], line[n..]);
    FirstPiece(line[..n], line[n], tail);
  }

  /** A chain file is readable exactly when every event in it is line-safe; otherwise reading fails, it
      never returns other events. */
  lemma ReadableExactlyWhenSafe(events: seq<Json>)
    requires AllObjects(events)
    ensures ReadEvents(FileText(events)) == if AllLineSafe(events) then Some(events) else None
  {
    hide Loads, LineSafe, Print, SplitLines, FileText;
    ReadBack(events);
    if !AllLineSafe(events) {
      var k := FirstUnsafe(events);
      var rest := FileText(events[k + 1..]);
      var line := Print(events[k], Compact, 0) + "\n" + rest;
      assert events == events[..k] + [events[k]] + events[k + 1..];
      SplitFileText(events[..k], events[k], events[k + 1..]);
      BrokenLine(events[k], rest);
      SafeOneLine(events[..k]);
      SplitAfterLines(Lines(events[..k]), line);
      var lines := SplitLines(FileText(events));
      TextOfLines(events[..k]);
      assert lines == Lines(events[..k]) + SplitLines(line);
      assert lines[k] == SplitLines(line)[0];
      assert ParseLines(lines)[k] == None;
    }
  }

  lemma TextOfLines(events: seq<Json>)
    ensures FileText(events) == JoinLines(Lines(events))
  {
    hide Lines, JoinLines;
  }

  lemma SafeOneLine(events: seq<Json>)
    requires AllLineSafe(events)
    ensures forall i :: 0 <= i < |events| ==> OneLine(Lines(events)[i])
  {
    forall i | 0 <= i < |events| ensures OneLine(Lines(events)[i]) { CanonicalOneLine(events[i]); }
  }

  function FirstUnsafe(events: seq<Json>): (k: nat)
    requires !AllLineSafe(events)
    ensures k < |events| && !LineSafe(events[k]) && AllLineSafe(events[..k])
  {
    if !LineSafe(events[0]) then 0 else
      var k := 1 + FirstUnsafe(events[1..]);
      assert events[..k] == [events[0]] + events[1..][..k - 1];
      k
  }

  lemma SplitFileText(before: seq<Json>, event: Json, after: seq<Json>)
    ensures FileText(before + [event] + after)
         == FileText(before) + (Print(event, Compact, 0) + "\n" + FileText(after))
  {
    hide Lines, JoinLines, Print;
    LinesConcat(before + [event], after);
    LinesConcat(before, [event]);
    JoinLinesAppend(Lines(before) + Lines([event]), Lines(after));
    JoinLinesAppend(Lines(before), Lines([event]));
    OneEventText(event);
    Regroup3(FileText(before), Print(event, Compact, 0) + "\n", FileText(after));
  }

  lemma LinesConcat(a: seq<Json>, b: seq<Json>)
    ensures Lines(a + b) == Lines(a) + Lines(b)
  {
    hide Print;
  }

  lemma OneEventText(event: Json)
    ensures JoinLines(Lines([event])) == Print(event, Compact, 0) + "\n"
  {
    hide Print;
    var lines := Lines([event]);
    assert lines[1..] == [];
    assert JoinLines(lines) == lines[0] + "\n" + JoinLines([]);
  }

  lemma Regroup3(a: string, b: string, c: string)
    ensures a + b + c == a + (b + c)
  {
  }

  lemma FirstPiece(piece: string, c: char, tail: string)
    requires OneLine(piece) && IsLineBreak(c) && c != '\r'
    ensures var lines := SplitLines(piece + [c] + tail); lines != [] && lines[0] == piece
  {
    LineEndAt(piece, c, tail);
    assert (piece + [c] + tail)[..|piece|] == piece;
  }
}
