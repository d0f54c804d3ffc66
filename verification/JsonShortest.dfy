/** Compact printing is as short as any text that parses to the value, and lists the members of an object in
    key order. With parsing as its inverse this leaves the printer no choice but the case of hexadecimal
    digits, which is lower. */
module JsonShortest {
  import opened Text
  import opened Json
  import opened JsonRoundTrip

  // ---------------------------------------------------------------- strings

  lemma EscapeLength(c: char)
    ensures |EscapeChar(c)| <= 6 && (c >= ' ' && c != '"' && c != '\\' ==> |EscapeChar(c)| == 1)
    ensures (exists e :: SimpleEscape(e) == Some(c)) ==> |EscapeChar(c)| <= 2
  {
    if e :| SimpleEscape(e) == Some(c) { assert c == '"' || c == '\\' || c == '/' || c in "\n\r\t\U{0C}\U{08}"; }
  }

  lemma EscapeCons(c: char, t: string)
    ensures |Escape([c] + t)| == |EscapeChar(c)| + |Escape(t)|
  {
    assert ([c] + t)[1..] == t;
  }

  /** A `\uXXXX` escape is as long as any escape; a pair of them stands for one plain character. */
  lemma UnicodeEscapeLength(s: string)
    requires UnicodeEscape(s).Parsed?
    ensures |EscapeChar(UnicodeEscape(s).value)| + |UnicodeEscape(s).rest| <= |s| + 2
  {
    hide Hex4, EscapeChar;
    EscapeLength(UnicodeEscape(s).value);
  }

  /** No string literal that reads as `t` is shorter than the printed one. */
  lemma {:induction false} CharsShortest(s: string)
    requires ParseChars(s).Parsed?
    ensures |Escape(ParseChars(s).value)| + 1 + |ParseChars(s).rest| <= |s|
    decreases |s|
  {
    hide EscapeChar, UnicodeEscape, Escape;
    if s[0] == '"' {
      EscapeNothing();
    } else if s[0] != '\\' {
      CharsShortest(s[1..]);
      EscapeCons(s[0], ParseChars(s[1..]).value);
      EscapeLength(s[0]);
    } else if s[1] == 'u' {
      var u := UnicodeEscape(s[2..]);
      CharsShortest(u.rest);
      EscapeCons(u.value, ParseChars(u.rest).value);
      UnicodeEscapeLength(s[2..]);
    } else {
      var c := SimpleEscape(s[1]).value;
      CharsShortest(s[2..]);
      EscapeCons(c, ParseChars(s[2..]).value);
      EscapeLength(c);
    }
  }

  lemma EscapeNothing()
    ensures Escape("") == ""
  {
  }

  // ---------------------------------------------------------------- numbers

  /** A natural number has one text. */
  lemma {:induction false} NaturalText(s: string)
    requires IsNaturalText(s)
    ensures Digits(NaturalValue(s)) == s && (|s| > 1 ==> NaturalValue(s) > 0)
  {
    var n := |s| - 1;
    assert s == s[..n] + [s[n]];
    if n > 0 {
      NaturalText(s[..n]);
      LeadingDigit(s[..n]);
    }
  }

  lemma {:induction false} LeadingDigit(s: string)
    requires IsNaturalText(s) && s[0] != '0'
    ensures NaturalValue(s) > 0
  {
    if |s| > 1 { LeadingDigit(s[..|s| - 1]); }
  }

  lemma NumberShortest(s: string)
    requires ParseNumber(s).Parsed?
    ensures |Print(ParseNumber(s).value, Compact, 0)| + |ParseNumber(s).rest| <= |s|
  {
    hide Digits, NaturalValue;
    var run := s[..NumberEnd(s)];
    if IsNaturalText(run) {
      NaturalText(run);
    } else if run != "" && run[0] == '-' && IsNaturalText(run[1..]) {
      NaturalText(run[1..]);
      ZeroText();
    }
  }

  lemma ZeroText()
    ensures |Digits(0)| == 1
  {
  }

  // ---------------------------------------------------------------- arrays

  /** The level does not matter without indentation. */
  lemma {:induction false} CompactLevel(v: Json, a: nat, b: nat)
    ensures Print(v, Compact, a) == Print(v, Compact, b)
    decreases v, 1, 0
  {
    match v
    case Arr(items) => if items != [] { CompactItems(v, 0, a, b); }
    case Obj(fields) => if fields != map[] { CompactMembers(v, SortedKeys(fields.Keys), a, b); }
    case _ =>
  }

  lemma {:induction false} CompactItems(v: Json, i: nat, a: nat, b: nat)
    requires v.Arr? && i < |v.items|
    ensures PrintItems(v, i, Compact, a) == PrintItems(v, i, Compact, b)
    decreases v, 0, |v.items| - i
  {
    hide Print;
    CompactLevel(v.items[i], a + 1, b + 1);
    if i + 1 < |v.items| { CompactItems(v, i + 1, a, b); }
  }

  lemma {:induction false} CompactMembers(v: Json, keys: seq<string>, a: nat, b: nat)
    requires v.Obj? && keys != [] && forall k :: k in keys ==> k in v.fields
    ensures PrintMembers(v, keys, Compact, a) == PrintMembers(v, keys, Compact, b)
    decreases v, 0, |keys|
  {
    hide Print;
    CompactLevel(v.fields[keys[0]], a + 1, b + 1);
    if |keys| > 1 { CompactMembers(v, keys[1..], a, b); }
  }

  /** The length of a printed value. */
  function Size(v: Json): nat { |Print(v, Compact, 0)| }

  function ItemSizes(items: seq<Json>): nat {
    if items == [] then 0 else Size(items[0]) + ItemSizes(items[1..])
  }

  lemma {:induction false} ItemsLength(v: Json, i: nat)
    requires v.Arr? && i < |v.items|
    ensures |PrintItems(v, i, Compact, 0)| == ItemSizes(v.items[i..]) + (|v.items| - i - 1)
    decreases |v.items| - i
  {
    hide Print;
    CompactLevel(v.items[i], 1, 0);
    FirstItem(v.items, i);
    assert v.items[i..][1..] == v.items[i + 1..];
    if i + 1 < |v.items| { ItemsLength(v, i + 1); } else { assert v.items[i + 1..] == []; }
  }

  lemma ArraySize(items: seq<Json>)
    ensures Size(Arr(items)) == if items == [] then 2 else ItemSizes(items) + |items| + 1
  {
    hide ItemSizes;
    if items != [] {
      ItemsLength(Arr(items), 0);
      assert items[0..] == items;
    }
  }

  // ---------------------------------------------------------------- objects

  /** What one member adds to the length of a printed object, with its colon. */
  function MemberSize(key: string, v: Json): nat { |Quote(key)| + 1 + Size(v) }

  function MemberSizes(fields: map<string, Json>, keys: set<string>): nat
    requires keys <= fields.Keys
    decreases keys
  {
    if keys == {} then 0
    else MemberSize(Least(keys), fields[Least(keys)]) + MemberSizes(fields, keys - {Least(keys)})
  }

  /** The sum does not depend on the order of the keys. */
  lemma {:induction false} MemberOut(fields: map<string, Json>, keys: set<string>, k: string)
    requires keys <= fields.Keys && k in keys
    ensures MemberSizes(fields, keys) == MemberSize(k, fields[k]) + MemberSizes(fields, keys - {k})
    decreases keys
  {
    hide MemberSize;
    var least := Least(keys);
    if k != least {
      var rest := keys - {least};
      MemberOut(fields, rest, k);
      LeastOfRest(keys, k);
      assert rest - {k} == (keys - {k}) - {least};
    }
  }

  lemma LeastOfRest(keys: set<string>, k: string)
    requires k in keys && k != Least(keys)
    ensures keys - {k} != {} && Least(keys - {k}) == Least(keys)
  {
    assert Least(keys) in keys - {k};
    LeastUnique(Least(keys - {k}), Least(keys), keys - {k});
  }

  lemma {:induction false} SizesAgree(f: map<string, Json>, g: map<string, Json>, keys: set<string>)
    requires keys <= f.Keys && keys <= g.Keys && forall k :: k in keys ==> f[k] == g[k]
    ensures MemberSizes(f, keys) == MemberSizes(g, keys)
    decreases keys
  {
    hide MemberSize;
    if keys != {} { SizesAgree(f, g, keys - {Least(keys)}); }
  }

  lemma {:induction false} MembersLength(v: Json, keys: set<string>)
    requires v.Obj? && keys != {} && keys <= v.fields.Keys
    ensures |PrintMembers(v, SortedKeys(keys), Compact, 0)| == MemberSizes(v.fields, keys) + |keys| - 1
    decreases keys
  {
    hide Print, Quote;
    var k := Least(keys);
    var rest := keys - {k};
    CompactLevel(v.fields[k], 1, 0);
    assert SortedKeys(keys) == [k] + SortedKeys(rest);
    assert SortedKeys(keys)[1..] == SortedKeys(rest);
    if rest != {} { MembersLength(v, rest); }
  }

  /** The length of a printed object. */
  function FieldSizes(fields: map<string, Json>): nat { MemberSizes(fields, fields.Keys) + |fields| }

  lemma ObjectSize(fields: map<string, Json>)
    ensures Size(Obj(fields)) == if fields == map[] then 2 else FieldSizes(fields) + 1
  {
    hide MemberSizes;
    if fields != map[] { MembersLength(Obj(fields), fields.Keys); }
  }

  lemma OneMember(key: string, v: Json)
    ensures FieldSizes(map[key := v]) == MemberSize(key, v) + 1
  {
    hide MemberSize;
    var fields := map[key := v];
    MemberOut(fields, fields.Keys, key);
    assert fields.Keys - {key} == {};
  }

  /** A repeated member never makes the printed object longer. */
  lemma MoreMembers(key: string, v: Json, fields: map<string, Json>)
    ensures FieldSizes(map[key := v] + fields) <= MemberSize(key, v) + 1 + FieldSizes(fields)
  {
    hide MemberSize, MemberSizes;
    var all := map[key := v] + fields;
    if key in fields {
      assert all == fields;
    } else {
      MemberOut(all, all.Keys, key);
      assert all.Keys - {key} == fields.Keys;
      SizesAgree(all, fields, fields.Keys);
      assert |all.Keys| == |fields.Keys| + 1;
    }
  }

  // ---------------------------------------------------------------- values

  lemma LiteralShortest(s: string)
    requires s != "" && Literal(s).Parsed?
    ensures Size(Literal(s).value) + |Literal(s).rest| <= |s|
  {
  }

  lemma {:induction false} ValueShortest(s: string)
    requires ParseValue(s).Parsed?
    ensures Size(ParseValue(s).value) + |ParseValue(s).rest| <= |s|
    decreases |s|, 0
  {
    hide ParseChars, ParseNumber, Literal, Size;
    if s[0] == '"' {
      CharsShortest(s[1..]);
      QuotedSize(ParseChars(s[1..]).value);
    } else if s[0] == '[' {
      var inner := SkipWhitespace(s[1..]);
      if inner != "" && inner[0] == ']' {
        ArraySize([]);
      } else {
        ItemsShortest(inner);
        ArraySize(ParseItems(inner).value);
      }
    } else if s[0] == '{' {
      var inner := SkipWhitespace(s[1..]);
      if inner != "" && inner[0] == '}' {
        ObjectSize(map[]);
      } else {
        MembersShortest(inner);
        ObjectSize(ParseMembers(inner).value);
      }
    } else if Literal(s).Parsed? {
      LiteralShortest(s);
    } else {
      NumberSize(s);
    }
  }

  lemma QuotedSize(t: string)
    ensures Size(Str(t)) == |Escape(t)| + 2
  {
  }

  lemma NumberSize(s: string)
    requires ParseNumber(s).Parsed?
    ensures Size(ParseNumber(s).value) + |ParseNumber(s).rest| <= |s|
  {
    hide ParseNumber, Print;
    NumberShortest(s);
  }

  lemma {:induction false} ItemsShortest(s: string)
    requires ParseItems(s).Parsed?
    ensures ParseItems(s).value != []
    ensures ItemSizes(ParseItems(s).value) + |ParseItems(s).value| + |ParseItems(s).rest| <= |s|
    decreases |s|, 1
  {
    hide ParseValue, Size;
    ValueShortest(s);
    var v, after := ParseValue(s).value, ParseValue(s).rest;
    var next := SkipWhitespace(after);
    if next[0] == ']' {
      assert [v][1..] == [];
    } else {
      var more := SkipWhitespace(next[1..]);
      ItemsShortest(more);
      assert ([v] + ParseItems(more).value)[1..] == ParseItems(more).value;
    }
  }

  lemma {:induction false} MembersShortest(s: string)
    requires ParseMembers(s).Parsed?
    ensures ParseMembers(s).value != map[]
    ensures FieldSizes(ParseMembers(s).value) + |ParseMembers(s).rest| <= |s|
    decreases |s|, 1
  {
    hide ParseValue, ParseChars, Size, FieldSizes;
    CharsShortest(s[1..]);
    var key := ParseChars(s[1..]).value;
    var text := SkipWhitespace(SkipWhitespace(ParseChars(s[1..]).rest)[1..]);
    ValueShortest(text);
    var v := ParseValue(text).value;
    var next := SkipWhitespace(ParseValue(text).rest);
    QuoteLength(key);
    if next[0] == '}' {
      OneMember(key, v);
      assert key in ParseMembers(s).value;
    } else {
      var more := SkipWhitespace(next[1..]);
      MembersShortest(more);
      MoreMembers(key, v, ParseMembers(more).value);
      assert key in ParseMembers(s).value;
    }
  }

  lemma QuoteLength(t: string)
    ensures |Quote(t)| == |Escape(t)| + 2
  {
  }

  /** No text that parses to a value is shorter than its canonical text: two-character escapes where there are
      any, no white space, no leading zeros, no member twice. */
  lemma CanonicalIsShortest(t: string, v: Json)
    requires Loads(t) == Some(v)
    ensures |Print(v, Compact, 0)| <= |t|
  {
    hide ParseValue, Print;
    ValueShortest(SkipWhitespace(t));
  }

  // ---------------------------------------------------------------- key order

  /** The members of an object, one text each, with commas between. */
  function Joined(fields: map<string, Json>, keys: seq<string>): string
    requires forall k :: k in keys ==> k in fields
  {
    if keys == [] then ""
    else
      var member := Quote(keys[0]) + ":" + Print(fields[keys[0]], Compact, 0);
      if |keys| == 1 then member else member + "," + Joined(fields, keys[1..])
  }

  lemma {:induction false} AscendingUnique(a: seq<string>, b: seq<string>)
    requires Ascending(a) && Ascending(b) && forall k :: k in a <==> k in b
    ensures a == b
  {
    if a == [] {
      FirstIn(b);
    } else {
      assert a[0] in b && b != [] && b[0] in a;
      LessTrichotomy(a[0], b[0]);
      assert a[0] == b[0];
      forall k ensures k in a[1..] <==> k in b[1..] {
        if k in a[1..] { NotFirst(a, k); assert k in b; }
        if k in b[1..] { NotFirst(b, k); assert k in a; }
      }
      AscendingUnique(a[1..], b[1..]);
      assert a == [a[0]] + a[1..] && b == [b[0]] + b[1..];
    }
  }

  lemma FirstIn(b: seq<string>)
    ensures b == [] || b[0] in b
  {
  }

  lemma NotFirst(a: seq<string>, k: string)
    requires a != [] && Ascending(a) && k in a[1..]
    ensures k != a[0] && k in a
  {
    var i :| 0 <= i < |a[1..]| && a[1..][i] == k;
    assert a[i + 1] == k;
    LessTrichotomy(a[0], k);
  }

  lemma {:induction false} MembersJoined(v: Json, keys: seq<string>)
    requires v.Obj? && keys != [] && forall k :: k in keys ==> k in v.fields
    ensures PrintMembers(v, keys, Compact, 0) == Joined(v.fields, keys)
    decreases keys
  {
    hide Print, Quote;
    CompactLevel(v.fields[keys[0]], 1, 0);
    if |keys| > 1 {
      MembersJoined(v, keys[1..]);
      Regroup(Quote(keys[0]) + ":" + Print(v.fields[keys[0]], Compact, 0), ",", Joined(v.fields, keys[1..]), "");
    }
  }

  /** The text of an object holds its members in ascending order of their keys. */
  lemma MembersAscend(fields: map<string, Json>, keys: seq<string>)
    requires Ascending(keys) && forall k :: k in keys <==> k in fields
    ensures Print(Obj(fields), Compact, 0) == "{" + Joined(fields, keys) + "}"
  {
    hide Joined;
    SortedKeysAscend(fields.Keys);
    AscendingUnique(keys, SortedKeys(fields.Keys));
    if fields == map[] {
      assert keys == [];
      NothingJoined();
    } else {
      MembersJoined(Obj(fields), keys);
      BracesAround(Obj(fields));
    }
  }

  lemma NothingJoined()
    ensures Joined(map[], []) == ""
  {
  }

  lemma BracesAround(v: Json)
    requires v.Obj? && v.fields != map[]
    ensures Print(v, Compact, 0) == "{" + PrintMembers(v, SortedKeys(v.fields.Keys), Compact, 0) + "}"
  {
    hide PrintMembers, SortedKeys;
  }

  /** Upper-case letters in a printed string are those of the string: hexadecimal escapes are lower-case. */
  lemma {:induction false} UpperCaseIsText(t: string)
    ensures forall i :: 0 <= i < |Escape(t)| && 'A' <= Escape(t)[i] <= 'Z' ==> Escape(t)[i] in t
  {
    if t != "" {
      UpperCaseIsText(t[1..]);
      UpperCaseIsChar(t[0]);
      var e := EscapeChar(t[0]);
      forall i | 0 <= i < |Escape(t)| && 'A' <= Escape(t)[i] <= 'Z' ensures Escape(t)[i] in t {
        if i < |e| { assert Escape(t)[i] == e[i]; } else { assert Escape(t)[i] == Escape(t[1..])[i - |e|]; }
      }
    }
  }

  lemma UpperCaseIsChar(c: char)
    ensures forall i :: 0 <= i < |EscapeChar(c)| && 'A' <= EscapeChar(c)[i] <= 'Z' ==> EscapeChar(c)[i] == c
  {
  }
}
