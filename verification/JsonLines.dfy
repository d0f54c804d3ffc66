/** The append-only JSON Lines file of the evidence chain: one canonical text per line, read back with
    `splitlines`, which also breaks at U+0085, U+2028 and U+2029. */
module JsonLines {
  import opened Text
  import opened Json
  import opened JsonRoundTrip

  /** The line breaks that the canonical printer leaves unescaped. */
  predicate IsRawBreak(c: char) { c == '\U{85}' || c == '\U{2028}' || c == '\U{2029}' }

  predicate NoRawBreak(t: string) { forall i :: 0 <= i < |t| ==> !IsRawBreak(t[i]) }

  predicate NoControl(t: string) { forall i :: 0 <= i < |t| ==> t[i] >= ' ' }

  /** No string and no key inside the value holds one of the raw line breaks. */
  predicate LineSafe(v: Json) {
    match v
    case Str(t) => NoRawBreak(t)
    case Arr(items) => forall i :: 0 <= i < |items| ==> LineSafe(items[i])
    case Obj(fields) => forall k :: k in fields ==> NoRawBreak(k) && LineSafe(fields[k])
    case _ => true
  }

  predicate MembersSafe(fields: map<string, Json>, keys: seq<string>)
    requires forall k :: k in keys ==> k in fields
  {
    forall k :: k in keys ==> NoRawBreak(k) && LineSafe(fields[k])
  }

  lemma NoControlConcat(a: string, b: string)
    requires NoControl(a) && NoControl(b)
    ensures NoControl(a + b)
  {
  }

  lemma NoRawBreakConcat(a: string, b: string)
    ensures NoRawBreak(a + b) <==> NoRawBreak(a) && NoRawBreak(b)
  {
    if NoRawBreak(a + b) {
      forall i | 0 <= i < |a| ensures !IsRawBreak(a[i]) { assert (a + b)[i] == a[i]; }
      forall i | 0 <= i < |b| ensures !IsRawBreak(b[i]) { assert (a + b)[|a| + i] == b[i]; }
    }
  }

  lemma {:induction false} EscapeChars(t: string)
    ensures NoControl(Escape(t)) && (NoRawBreak(Escape(t)) <==> NoRawBreak(t))
  {
    if t != "" {
      EscapeChars(t[1..]);
      NoControlConcat(EscapeChar(t[0]), Escape(t[1..]));
      NoRawBreakConcat(EscapeChar(t[0]), Escape(t[1..]));
      NoRawBreakConcat([t[0]], t[1..]);
      assert [t[0]] + t[1..] == t;
      EscapeOneChar(t[0]);
    }
  }

  lemma EscapeOneChar(c: char)
    ensures NoControl(EscapeChar(c)) && (NoRawBreak(EscapeChar(c)) <==> !IsRawBreak(c))
  {
    var e := EscapeChar(c);
    if c >= ' ' && c != '"' && c != '\\' {
      assert e[0] == c;
    }
  }

  lemma QuoteChars(t: string)
    ensures NoControl(Quote(t)) && (NoRawBreak(Quote(t)) <==> NoRawBreak(t))
  {
    EscapeChars(t);
    NoControlConcat("\"", Escape(t));
    NoControlConcat("\"" + Escape(t), "\"");
    NoRawBreakConcat("\"", Escape(t));
    NoRawBreakConcat("\"" + Escape(t), "\"");
  }

  lemma NumberChars(s: string)
    requires forall i :: 0 <= i < |s| ==> IsNumberChar(s[i])
    ensures NoControl(s) && NoRawBreak(s)
  {
  }

  lemma LiteralChars(v: Json, level: nat)
    requires v.Null? || v.Bool? || v.NonFinite?
    ensures NoControl(Print(v, Compact, level)) && NoRawBreak(Print(v, Compact, level))
  {
  }

  /** Compact text has no control characters, and its raw breaks are those of the strings in it. */
  lemma {:induction false} PrintChars(v: Json, level: nat)
    ensures NoControl(Print(v, Compact, level))
    ensures NoRawBreak(Print(v, Compact, level)) <==> LineSafe(v)
    decreases v, 1, 0
  {
    match v
    case Int(n) => NumberChars(Decimal(n));
    case Float(literal) => NumberChars(literal);
    case Str(t) => QuoteChars(t);
    case Arr(items) => ArrayChars(v, level);
    case Obj(fields) => ObjectChars(v, level);
    case _ => LiteralChars(v, level);
  }

  lemma {:induction false} ArrayChars(v: Json, level: nat)
    requires v.Arr?
    ensures NoControl(Print(v, Compact, level))
    ensures NoRawBreak(Print(v, Compact, level)) <==> LineSafe(v)
    decreases v, 0, |v.items| + 1
  {
    if v.items != [] {
      ItemsChars(v, 0, level);
      BracketChars("[", PrintItems(v, 0, Compact, level), "]");
    }
  }

  lemma {:induction false} ObjectChars(v: Json, level: nat)
    requires v.Obj?
    ensures NoControl(Print(v, Compact, level))
    ensures NoRawBreak(Print(v, Compact, level)) <==> LineSafe(v)
    decreases v, 0, |v.fields| + 1
  {
    if v.fields != map[] {
      var keys := SortedKeys(v.fields.Keys);
      MembersChars(v, keys, level);
      BracketChars("{", PrintMembers(v, keys, Compact, level), "}");
    }
  }

  lemma BracketChars(open: string, body: string, close: string)
    requires NoControl(open) && NoControl(close) && NoRawBreak(open) && NoRawBreak(close)
    requires NoControl(body)
    ensures var s := open + "" + body + "" + close;
      NoControl(s) && (NoRawBreak(s) <==> NoRawBreak(body))
  {
    assert open + "" + body + "" + close == open + (body + close);
    NoRawBreakConcat(open, body + close);
    NoRawBreakConcat(body, close);
  }

  lemma {:induction false} ItemsChars(v: Json, i: nat, level: nat)
    requires v.Arr? && i < |v.items|
    ensures NoControl(PrintItems(v, i, Compact, level))
    ensures NoRawBreak(PrintItems(v, i, Compact, level)) <==>
            forall j :: i <= j < |v.items| ==> LineSafe(v.items[j])
    decreases v, 0, |v.items| - i
  {
    var item := Print(v.items[i], Compact, level + 1);
    PrintChars(v.items[i], level + 1);
    if i + 1 < |v.items| {
      ItemsChars(v, i + 1, level);
      var later := PrintItems(v, i + 1, Compact, level);
      BracketChars(",", later, "");
      assert "," + "" + later == "," + "" + later + "" + "";
      NoRawBreakConcat(item, "," + "" + later);
    } else {
      NoRawBreakConcat(item, "");
    }
  }

  lemma {:induction false} MembersChars(v: Json, keys: seq<string>, level: nat)
    requires v.Obj? && keys != []
    requires forall k :: k in keys ==> k in v.fields
    ensures NoControl(PrintMembers(v, keys, Compact, level))
    ensures NoRawBreak(PrintMembers(v, keys, Compact, level)) <==> MembersSafe(v.fields, keys)
    decreases v, 0, |keys|
  {
    var key := keys[0];
    PrintChars(v.fields[key], level + 1);
    MembersSafeHead(v.fields, keys);
    var value := Print(v.fields[key], Compact, level + 1);
    if |keys| > 1 {
      MembersChars(v, keys[1..], level);
      MemberChars(key, value, PrintMembers(v, keys[1..], Compact, level));
    } else {
      MemberChars(key, value, "");
    }
  }

  lemma MemberChars(key: string, value: string, later: string)
    requires NoControl(value) && NoControl(later)
    ensures var s := Quote(key) + ":" + value + "";
      NoControl(s) && (NoRawBreak(s) <==> NoRawBreak(key) && NoRawBreak(value))
    ensures var s := Quote(key) + ":" + value + ("," + "" + later);
      NoControl(s) && (NoRawBreak(s) <==> NoRawBreak(key) && NoRawBreak(value) && NoRawBreak(later))
  {
    QuoteChars(key);
    var head := Quote(key) + ":" + value;
    NoRawBreakConcat(Quote(key), ":");
    NoRawBreakConcat(Quote(key) + ":", value);
    NoRawBreakConcat(head, "," + "" + later);
    NoRawBreakConcat(",", later);
    assert "," + "" + later == "," + later;
    assert head + "" == head;
  }

  lemma MembersSafeHead(fields: map<string, Json>, keys: seq<string>)
    requires keys != [] && forall k :: k in keys ==> k in fields
    ensures MembersSafe(fields, keys) <==>
            NoRawBreak(keys[0]) && LineSafe(fields[keys[0]]) && MembersSafe(fields, keys[1..])
  {
    assert forall k :: k in keys <==> k == keys[0] || k in keys[1..];
  }

  /** A canonical text stays on one line exactly when the value is line-safe. */
  lemma CanonicalOneLine(v: Json)
    ensures OneLine(Print(v, Compact, 0)) <==> LineSafe(v)
  {
    PrintChars(v, 0);
    var s := Print(v, Compact, 0);
    assert forall c: char :: c >= ' ' ==> (IsLineBreak(c) <==> IsRawBreak(c));
  }

  // ---------------------------------------------------------------- the file

  /** The texts that appending these events one by one writes. */
  function Lines(events: seq<Json>): (r: seq<string>)
    ensures |r| == |events| && forall i :: 0 <= i < |r| ==> r[i] == Print(events[i], Compact, 0)
  {
    seq(|events|, i requires 0 <= i < |events| => Print(events[i], Compact, 0))
  }

  function FileText(events: seq<Json>): string { JoinLines(Lines(events)) }

  /** Parse every line; `None` marks a line that is not JSON. */
  function ParseLines(lines: seq<string>): (r: seq<Option<Json>>)
    ensures |r| == |lines| && forall i :: 0 <= i < |r| ==> r[i] == Loads(lines[i])
  {
    seq(|lines|, i requires 0 <= i < |lines| => Loads(lines[i]))
  }

  /** `_read_event_chain` without an error list: any bad line is an `EvidenceError`. */
  function ReadEvents(text: string): Option<seq<Json>> {
    var parsed := ParseLines(SplitLines(text));
    if forall i :: 0 <= i < |parsed| ==> parsed[i].Some? then Some(Values(parsed)) else None
  }

  function Values(parsed: seq<Option<Json>>): (r: seq<Json>)
    requires forall i :: 0 <= i < |parsed| ==> parsed[i].Some?
    ensures |r| == |parsed| && forall i :: 0 <= i < |r| ==> r[i] == parsed[i].value
  {
    seq(|parsed|, i requires 0 <= i < |parsed| => parsed[i].value)
  }

  /** A file is read exactly if every line of it is JSON, also a blank one, and then as the values of its lines. */
  lemma ReadExactly(text: string, events: seq<Json>)
    ensures ReadEvents(text) == Some(events) <==>
      var lines := SplitLines(text);
      |events| == |lines| && forall i :: 0 <= i < |lines| ==> Loads(lines[i]) == Some(events[i])
  {
    hide Loads, SplitLines;
    var lines := SplitLines(text);
    if |events| == |lines| && forall i :: 0 <= i < |lines| ==> Loads(lines[i]) == Some(events[i]) {
      assert ReadEvents(text).Some? && ReadEvents(text).value == events;
    }
  }

  predicate AllLineSafe(events: seq<Json>) {
    forall i :: 0 <= i < |events| ==> LineSafe(events[i])
  }

  lemma FileTextAppend(events: seq<Json>, event: Json)
    ensures FileText(events + [event]) == FileText(events) + (Print(event, Compact, 0) + "\n")
  {
    assert Lines(events + [event]) == Lines(events) + Lines([event]);
    JoinLinesAppend(Lines(events), Lines([event]));
    assert Lines([event])[1..] == [];
    assert JoinLines(Lines([event])) == Lines([event])[0] + "\n" + JoinLines([]);
  }

  lemma SafeLinesSplit(events: seq<Json>)
    requires AllLineSafe(events)
    ensures SplitLines(FileText(events)) == Lines(events)
  {
    forall i | 0 <= i < |events| ensures OneLine(Lines(events)[i]) { CanonicalOneLine(events[i]); }
    SplitJoined(Lines(events));
  }

  /** A line with a break inside yields at least one line more than it should. */
  lemma {:induction false} SplitCount(line: string, rest: string)
    requires NoControl(line)
    ensures |SplitLines(line + "\n" + rest)| >= 1 + |SplitLines(rest)|
    ensures !OneLine(line) ==> |SplitLines(line + "\n" + rest)| > 1 + |SplitLines(rest)|
    decreases |line|
  {
    if OneLine(line) {
      SplitLinesHead(line, rest);
    } else {
      var n := LineEnd(line);
      var tail := line[n + 1..];
      var s := line + "\n" + rest;
      assert line == line[..n] + [line[n]] + tail;
      assert s == line[..n] + [line[n]] + (tail + "\n" + rest);
      LineEndAt(line[..n], line[n], tail + "\n" + rest);
      assert s[n + 1..] == tail + "\n" + rest;
      SplitCount(tail, rest);
    }
  }

  lemma {:induction false} FileLineCount(events: seq<Json>)
    ensures |SplitLines(FileText(events))| >= |events|
    ensures !AllLineSafe(events) ==> |SplitLines(FileText(events))| > |events|
  {
    if events != [] {
      FileLineCount(events[1..]);
      assert Lines(events)[1..] == Lines(events[1..]);
      PrintChars(events[0], 0);
      CanonicalOneLine(events[0]);
      SplitCount(Print(events[0], Compact, 0), FileText(events[1..]));
      if !AllLineSafe(events) && LineSafe(events[0]) {
        var i :| 0 <= i < |events| && !LineSafe(events[i]);
        assert events[1..][i - 1] == events[i];
      }
    }
  }

  /** The file reads back as the appended events if and only if no string in them holds U+0085, U+2028
      or U+2029. */
  lemma ReadBack(events: seq<Json>)
    ensures ReadEvents(FileText(events)) == Some(events) <==> AllLineSafe(events)
  {
    var parsed := ParseLines(SplitLines(FileText(events)));
    if AllLineSafe(events) {
      SafeLinesSplit(events);
      LinesParse(events);
      assert Values(parsed) == events;
    } else {
      FileLineCount(events);
    }
  }

  lemma LinesParse(events: seq<Json>)
    ensures var parsed := ParseLines(Lines(events));
      forall i :: 0 <= i < |events| ==> parsed[i] == Some(events[i])
  {
    forall i | 0 <= i < |events| ensures Loads(Lines(events)[i]) == Some(events[i]) {
      LoadsPrinted(events[i], Compact, "");
      assert Lines(events)[i] + "" == Lines(events)[i];
    }
  }
}
