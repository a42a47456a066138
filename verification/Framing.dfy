/** How records lie in files: one event per line, and a case record between two
    markers of a Markdown file whose other text may be anything. */
module Framing {
  import opened Wrappers
  import opened Characters
  import opened Json

  // ---------------------------------------------------- what texts contain

  /** No control characters, so no line feed; with `ascii` printable ASCII only. */
  predicate Clean(s: string, ascii: bool) {
    forall k :: 0 <= k < |s| ==> ' ' <= s[k] && (ascii ==> s[k] <= '~')
  }

  /** After a line feed there is always more, and it does not look like the end
      marker. */
  predicate Framed(s: string) {
    forall k :: 0 <= k < |s| && s[k] == '\n' ==> k + 1 < |s| && (s[k + 1] == ' ' || s[k + 1] == ']' || s[k + 1] == '}')
  }

  lemma CleanIsFramed(s: string, ascii: bool)
    requires Clean(s, ascii)
    ensures Framed(s)
  {
  }

  lemma FramedJoins(a: string, b: string)
    requires Framed(a) && Framed(b)
    ensures Framed(a + b)
  {
  }

  lemma CleanJoins(a: string, b: string, ascii: bool)
    requires Clean(a, ascii) && Clean(b, ascii)
    ensures Clean(a + b, ascii)
  {
  }

  lemma EscapeClean(c: char, ascii: bool)
    ensures Clean(Escape(c, ascii), ascii)
  {
    hide Hex4;
    if c < ' ' || (ascii && c > '~' && c as int < 0x10000) {
      HexClean(c as nat % 0x10000);
      CleanJoins("\\u", Hex4(c as nat % 0x10000), ascii);
    } else if ascii && c > '~' {
      var hi, lo := Hex4(0xD800 + (c as int - 0x10000) / 0x400), Hex4(0xDC00 + (c as int - 0x10000) % 0x400);
      HexClean(0xD800 + (c as int - 0x10000) / 0x400);
      HexClean(0xDC00 + (c as int - 0x10000) % 0x400);
      CleanJoins("\\u", hi, ascii);
      CleanJoins("\\u" + hi, "\\u", ascii);
      CleanJoins("\\u" + hi + "\\u", lo, ascii);
    }
  }

  lemma HexClean(n: nat)
    requires n < 0x10000
    ensures Clean(Hex4(n), true)
  {
    DigitRoundTrip(n / 0x1000);
    DigitRoundTrip(n / 0x100 % 16);
    DigitRoundTrip(n / 16 % 16);
    DigitRoundTrip(n % 16);
    hide HexDigit;
  }

  /** String escaping never lets a raw line feed, or any other control character,
      through. */
  lemma {:induction false} EscapedClean(s: string, ascii: bool)
    ensures Clean(Escaped(s, ascii), ascii)
    decreases |s|
  {
    if s != "" {
      EscapeClean(s[0], ascii);
      EscapedClean(s[1..], ascii);
      hide Escape;
    }
  }

  lemma QuotedClean(s: string, style: Style)
    ensures Clean(Quoted(s, style), style.Compact? && style.ascii)
  {
    EscapedClean(s, style.Compact? && style.ascii);
    hide Escaped;
  }

  lemma {:induction false} NumberClean(st: NumberState, s: string)
    requires AdvanceAll(st, s) != Broken
    ensures Clean(s, true)
    decreases |s|
  {
    if s != "" {
      if Advance(st, s[0]) == Broken {
        StaysBroken(s[1..]);
      }
      NumberClean(Advance(st, s[0]), s[1..]);
      assert s == [s[0]] + s[1..];
    }
  }

  /** A value written compactly is one line. */
  lemma {:induction false} CompactClean(v: Value, ascii: bool)
    requires Numeric(v)
    ensures Clean(Dump(v, Compact(ascii)), ascii)
    decreases v, 0
  {
    match v
    case Number(literal) => NumberClean(AtStart, literal);
    case Text(text) => QuotedClean(text, Compact(ascii));
    case List(items) => if items != [] { ItemsClean(items, ascii); }
    case Dict(members) => if members != [] { MembersClean(members, ascii); }
    case _ =>
  }

  lemma {:induction false} ItemsClean(items: seq<Value>, ascii: bool)
    requires items != [] && Numeric(List(items))
    ensures Clean(DumpItems(items, Compact(ascii)), ascii)
    decreases items, 1
  {
    hide Dump, DumpItems, Clean;
    var style := Compact(ascii);
    ItemsText(items, style, "");
    assert DumpItems(items, style) + "" == DumpItems(items, style);
    CompactClean(items[0], ascii);
    if |items| == 1 {
      Plain("]", ascii);
      CleanJoins(Dump(items[0], style), "]", ascii);
      assert Gap(style) + ("]" + "") == "]";
    } else {
      assert Numeric(List(items[1..]));
      ItemsClean(items[1..], ascii);
      Plain(",", ascii);
      CleanJoins(",", DumpItems(items[1..], style), ascii);
      CleanJoins(Dump(items[0], style), "," + DumpItems(items[1..], style), ascii);
      assert Gap(style) + (DumpItems(items[1..], style) + "") == DumpItems(items[1..], style);
    }
  }

  lemma Plain(s: string, ascii: bool)
    requires |s| == 1 && ' ' <= s[0] <= '~'
    ensures Clean(s, ascii) && Framed(s)
  {
  }

  lemma {:induction false} MembersClean(members: seq<Member>, ascii: bool)
    requires members != [] && Numeric(Dict(members))
    ensures Clean(DumpMembers(members, Compact(ascii)), ascii)
    decreases members, 1
  {
    var style := Compact(ascii);
    var start, d := Quoted(members[0].key, style) + KeySeparator(style), Dump(members[0].value, style);
    KeyClean(members[0].key, ascii);
    assert Numeric(members[0].value);
    CompactClean(members[0].value, ascii);
    hide Dump, DumpMembers, Quoted, KeySeparator, Clean;
    MembersText(members, style, "");
    assert DumpMembers(members, style) + "" == DumpMembers(members, style);
    if |members| == 1 {
      Plain("}", ascii);
      CleanJoins(d, "}", ascii);
      CleanJoins(start, d + "}", ascii);
      assert Gap(style) + ("}" + "") == "}";
    } else {
      assert Numeric(Dict(members[1..]));
      MembersClean(members[1..], ascii);
      Plain(",", ascii);
      CleanJoins(",", DumpMembers(members[1..], style), ascii);
      CleanJoins(d, "," + DumpMembers(members[1..], style), ascii);
      CleanJoins(start, d + ("," + DumpMembers(members[1..], style)), ascii);
      assert Gap(style) + (DumpMembers(members[1..], style) + "") == DumpMembers(members[1..], style);
    }
  }

  lemma KeyClean(key: string, ascii: bool)
    ensures Clean(Quoted(key, Compact(ascii)) + KeySeparator(Compact(ascii)), ascii)
  {
    QuotedClean(key, Compact(ascii));
    hide Quoted;
  }

  lemma GapFramed(style: Style, close: string)
    requires style.Indented? && Framed(close) && close != "" && (style.depth > 0 || close[0] == ']' || close[0] == '}')
    ensures Framed(Gap(style) + close)
  {
  }

  /** No line of an indented document starts with the end marker. */
  lemma {:induction false} IndentedFramed(v: Value, depth: nat)
    requires Numeric(v)
    ensures Framed(Dump(v, Indented(depth)))
    decreases v, 0
  {
    hide DumpItems, DumpMembers, Gap, Framed;
    var inner := Indented(depth + 1);
    match v
    case Number(literal) =>
      NumberClean(AtStart, literal);
      CleanIsFramed(literal, true);
    case Text(text) =>
      QuotedClean(text, Indented(depth));
      CleanIsFramed(Quoted(text, Indented(depth)), false);
    case List(items) =>
      if items == [] {
        EmptyFramed();
      } else {
        var body := DumpItems(items, Indented(depth));
        ItemsFramed(items, depth);
        ItemsHead(items, Indented(depth));
        GapFramed(inner, body);
        Plain("[", true);
        FramedJoins("[", Gap(inner) + body);
        assert "[" + Gap(inner) + body == "[" + (Gap(inner) + body);
      }
    case Dict(members) =>
      if members == [] {
        EmptyFramed();
      } else {
        var body := DumpMembers(members, Indented(depth));
        MembersFramed(members, depth);
        MembersHead(members, Indented(depth));
        GapFramed(inner, body);
        Plain("{", true);
        FramedJoins("{", Gap(inner) + body);
        assert "{" + Gap(inner) + body == "{" + (Gap(inner) + body);
      }
    case _ => EmptyFramed();
  }

  lemma EmptyFramed()
    ensures Framed("null") && Framed("true") && Framed("false") && Framed("[]") && Framed("{}")
  {
  }

  lemma {:induction false} ItemsFramed(items: seq<Value>, depth: nat)
    requires items != [] && Numeric(List(items))
    ensures Framed(DumpItems(items, Indented(depth)))
    decreases items, 1
  {
    hide Dump, DumpItems, Framed, Gap;
    var style, inner := Indented(depth), Indented(depth + 1);
    ItemsText(items, style, "");
    assert DumpItems(items, style) + "" == DumpItems(items, style);
    IndentedFramed(items[0], depth + 1);
    if |items| == 1 {
      Plain("]", true);
      GapFramed(style, "]");
      FramedJoins(Dump(items[0], inner), Gap(style) + "]");
      assert "]" + "" == "]";
    } else {
      var others := DumpItems(items[1..], style);
      assert Numeric(List(items[1..]));
      ItemsFramed(items[1..], depth);
      ItemsHead(items[1..], style);
      GapFramed(inner, others);
      Plain(",", true);
      FramedJoins(",", Gap(inner) + others);
      FramedJoins(Dump(items[0], inner), "," + (Gap(inner) + others));
      assert others + "" == others;
    }
  }

  lemma {:induction false} MembersFramed(members: seq<Member>, depth: nat)
    requires members != [] && Numeric(Dict(members))
    ensures Framed(DumpMembers(members, Indented(depth)))
    decreases members, 1
  {
    hide Dump, DumpMembers, Framed, Gap, Quoted, KeySeparator;
    var style, inner := Indented(depth), Indented(depth + 1);
    assert Numeric(members[0].value);
    var start, d := Quoted(members[0].key, style) + KeySeparator(style), Dump(members[0].value, inner);
    MembersText(members, style, "");
    assert DumpMembers(members, style) + "" == DumpMembers(members, style);
    IndentedFramed(members[0].value, depth + 1);
    KeyFramed(members[0].key, style);
    if |members| == 1 {
      Plain("}", true);
      GapFramed(style, "}");
      FramedJoins(d, Gap(style) + "}");
      FramedJoins(start, d + (Gap(style) + "}"));
      assert "}" + "" == "}";
    } else {
      var others := DumpMembers(members[1..], style);
      assert Numeric(Dict(members[1..]));
      MembersFramed(members[1..], depth);
      MembersHead(members[1..], style);
      GapFramed(inner, others);
      Plain(",", true);
      FramedJoins(",", Gap(inner) + others);
      FramedJoins(d, "," + (Gap(inner) + others));
      FramedJoins(start, d + ("," + (Gap(inner) + others)));
      assert others + "" == others;
    }
  }

  lemma KeyFramed(key: string, style: Style)
    ensures Framed(Quoted(key, style) + KeySeparator(style))
  {
    QuotedClean(key, style);
    hide Quoted;
  }

  // --------------------------------------------------------------- Timelines

  /** One compact record per line, keys in order. The store escapes everything outside ASCII;
      older records did not. */
  function RenderTimeline(events: seq<Value>, ascii: bool): string {
    if events == [] then "" else Dump(SortKeys(events[0]), Compact(ascii)) + "\n" + RenderTimeline(events[1..], ascii)
  }

  /** The pieces between line feeds, and nothing else separates. */
  function Lines(text: string): (lines: seq<string>)
    ensures lines != []
  {
    if text == "" then [""]
    else
      var rest := Lines(text[1..]);
      if text[0] == '\n' then [""] + rest else [[text[0]] + rest[0]] + rest[1..]
  }

  predicate IsEmptyLine(line: string) {
    forall k :: 0 <= k < |line| ==> IsSpace(line[k])
  }

  function ReadLines(lines: seq<string>): Option<seq<Value>> {
    if lines == [] then Some([])
    else if IsEmptyLine(lines[0]) then ReadLines(lines[1..])
    else match (Parse(lines[0]), ReadLines(lines[1..]))
      case (Some(Dict(members)), Some(rest)) => Some([Dict(members)] + rest)
      case _ => None
  }

  /** The source's loop over the lines of a Timeline file. */
  method ReadTimeline(text: string) returns (events: Option<seq<Value>>)
    ensures events == ReadLines(Lines(text))
  {
    var lines := Lines(text);
    var found: seq<Value> := [];
    assert lines[0..] == lines && forall rest: seq<Value> :: found + rest == rest;
    for i := 0 to |lines|
      invariant ReadLines(lines) == match ReadLines(lines[i..]) case None => None case Some(rest) => Some(found + rest)
    {
      assert lines[i..][1..] == lines[i + 1..];
      if !IsEmptyLine(lines[i]) {
        match Parse(lines[i]) {
          case Some(Dict(members)) =>
            ghost var before := found;
            found := found + [Dict(members)];
            assert forall rest: seq<Value> :: before + ([Dict(members)] + rest) == found + rest;
          case _ => return None;
        }
      }
    }
    assert found + [] == found;
    return Some(found);
  }

  lemma {:induction false} LineCut(line: string, rest: string)
    requires forall k :: 0 <= k < |line| ==> line[k] != '\n'
    ensures Lines(line + "\n" + rest) == [line] + Lines(rest)
    decreases |line|
  {
    var text := line + "\n" + rest;
    if line == "" {
      assert text[1..] == rest;
    } else {
      assert text[1..] == line[1..] + "\n" + rest;
      LineCut(line[1..], rest);
      assert [line[0]] + line[1..] == line;
    }
  }

  predicate AreRecords(events: seq<Value>) {
    forall i :: 0 <= i < |events| ==> events[i].Dict? && Numeric(events[i])
  }

  /** Reading a written Timeline gives the same events in the same order, whatever
      text they hold: line feeds, U+2028, markers or anything else. */
  lemma {:induction false} TimelineRoundTrip(events: seq<Value>, ascii: bool)
    requires AreRecords(events)
    ensures ReadLines(Lines(RenderTimeline(events, ascii))) == Some(SortItems(events))
  {
    if events == [] {
      assert Lines("") == [""] && [""][1..] == [];
      assert ReadLines([]) == Some([]);
    } else {
      hide Dump, Parse, Lines, SortMembers;
      var record := SortKeys(events[0]);
      var line, rest := Dump(record, Compact(ascii)), RenderTimeline(events[1..], ascii);
      SortingNumeric(events[0]);
      CompactClean(record, ascii);
      assert forall k :: 0 <= k < |line| ==> line[k] != '\n';
      LineCut(line, rest);
      DocumentRoundTrip(record, Compact(ascii));
      Opens(record, Compact(ascii));
      TimelineRoundTrip(events[1..], ascii);
      assert ([line] + Lines(rest))[1..] == Lines(rest);
    }
  }

  lemma {:induction false} Opens(v: Value, style: Style)
    requires v.Dict?
    ensures !IsEmptyLine(Dump(v, style))
  {
    assert Dump(v, style)[0] == '{';
  }

  // -------------------------------------------------------------- case files

  const DATA_START := "<!-- EPISTEMIC-HARNESS-DATA\n"
  const DATA_END := "\nEND-EPISTEMIC-HARNESS-DATA -->"

  /** The provenance line, the record between its markers, and the readable part. */
  function RenderCase(record: Value, provenance: string, readable: string): string {
    provenance + "\n\n" + DATA_START + Dump(SortKeys(record), Indented(0)) + DATA_END + "\n" + readable
  }

  /** The first place of `pattern` in `text`. */
  function Index(text: string, pattern: string): (i: Option<nat>)
    ensures i.Some? ==> i.value + |pattern| <= |text|
  {
    if pattern <= text then Some(0)
    else if text == "" then None
    else match Index(text[1..], pattern)
      case None => None
      case Some(i) => Some(i + 1)
  }

  function ReadCase(text: string, id: string): Option<Value> {
    match Index(text, DATA_START)
    case None => None
    case Some(i) =>
      var body := text[i + |DATA_START|..];
      match Index(body, DATA_END)
      case None => None
      case Some(j) =>
        match Parse(body[..j])
        case Some(Dict(members)) =>
          if Lookup(members, "schema_version") == Some(Number("1")) && Lookup(members, "case_id") == Some(Text(id))
          then Some(Dict(members)) else None
        case _ => None
  }

  /** No earlier place fits, so the pattern is found where it was put. */
  lemma {:induction false} FirstPlace(before: string, pattern: string, after: string)
    requires forall k :: 0 <= k < |before| ==> !(pattern <= (before + pattern + after)[k..])
    ensures Index(before + pattern + after, pattern) == Some(|before|)
    decreases |before|
  {
    var text := before + pattern + after;
    if before == "" {
      assert text == pattern + after;
    } else {
      assert text[1..] == before[1..] + pattern + after;
      assert text[0..] == text;
      forall k | 0 <= k < |before| - 1 ensures !(pattern <= (before[1..] + pattern + after)[k..]) {
        assert text[1..][k..] == text[k + 1..];
      }
      FirstPlace(before[1..], pattern, after);
    }
  }

  /** The start marker is not in a text without its first character. */
  lemma {:induction false} StartFirst(before: string, after: string)
    requires forall k :: 0 <= k < |before| ==> before[k] != '<'
    ensures Index(before + DATA_START + after, DATA_START) == Some(|before|)
  {
    var text := before + DATA_START + after;
    forall k | 0 <= k < |before| ensures !(DATA_START <= text[k..]) {
      assert text[k..][0] == before[k];
      assert DATA_START[0] == '<';
    }
    FirstPlace(before, DATA_START, after);
  }

  /** The end marker cannot start inside a framed document. */
  lemma {:induction false} EndFirst(data: string, after: string)
    requires Framed(data)
    ensures Index(data + DATA_END + after, DATA_END) == Some(|data|)
  {
    var text := data + DATA_END + after;
    assert DATA_END[0] == '\n' && DATA_END[1] == 'E';
    forall k | 0 <= k < |data| ensures !(DATA_END <= text[k..]) {
      assert text[k..][0] == data[k];
      if data[k] == '\n' {
        assert text[k..][1] == data[k + 1];
      }
    }
    FirstPlace(data, DATA_END, after);
  }

  /** Reading a written case file gives the record back, whatever the record's
      texts contain and whatever the readable part repeats of them. */
  lemma {:induction false} CaseFileRoundTrip(record: Value, provenance: string, readable: string, id: string)
    requires record.Dict? && Numeric(record) && DistinctKeys(record.members)
    requires forall k :: 0 <= k < |provenance| ==> provenance[k] != '<'
    requires Lookup(record.members, "schema_version") == Some(Number("1"))
    requires Lookup(record.members, "case_id") == Some(Text(id))
    ensures ReadCase(RenderCase(record, provenance, readable), id) == Some(SortKeys(record))
  {
    hide Dump, Parse, Index, Lookup, Framed, SortMembers;
    var sorted := SortKeys(record);
    var data := Dump(sorted, Indented(0));
    var tail := data + DATA_END + ("\n" + readable);
    var text := RenderCase(record, provenance, readable);
    assert text == (provenance + "\n\n") + DATA_START + tail;
    StartFirst(provenance + "\n\n", tail);
    assert text[|provenance + "\n\n"| + |DATA_START|..] == tail;
    SortingNumeric(record);
    IndentedFramed(sorted, 0);
    EndFirst(data, "\n" + readable);
    assert tail[..|data|] == data;
    DocumentRoundTrip(sorted, Indented(0));
    SortingKeepsContent(record.members, "schema_version");
    SortingKeepsContent(record.members, "case_id");
  }
}
