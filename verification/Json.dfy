/** JSON text as the store writes and reads it: sorted keys, compact on one line
    for Timelines and indented by two for case files. A dictionary is the list of
    its members in key order. */
module Json {
  import opened Wrappers
  import opened Characters

  /** A number is its literal. */
  datatype Value =
    | Null
    | Bool(b: bool)
    | Number(literal: string)
    | Text(text: string)
    | List(items: seq<Value>)
    | Dict(members: seq<Member>)

  datatype Member = Member(key: string, value: Value)

  // ------------------------------------------------------------- characters

  function HexDigit(d: nat): char
    requires d < 16
  {
    "0123456789abcdef"[d]
  }

  function HexValue(c: char): Option<nat> {
    if '0' <= c <= '9' then Some((c - '0') as nat)
    else if 'a' <= c <= 'f' then Some((c - 'a') as nat + 10)
    else if 'A' <= c <= 'F' then Some((c - 'A') as nat + 10)
    else None
  }

  function Hex4(n: nat): (s: string)
    requires n < 0x10000
    ensures |s| == 4
  {
    [HexDigit(n / 0x1000), HexDigit(n / 0x100 % 16), HexDigit(n / 16 % 16), HexDigit(n % 16)]
  }

  function ParseHex4(s: string): Option<nat> {
    if |s| < 4 then None
    else match (HexValue(s[0]), HexValue(s[1]), HexValue(s[2]), HexValue(s[3]))
      case (Some(a), Some(b), Some(c), Some(d)) => Some(a * 0x1000 + b * 0x100 + c * 16 + d)
      case _ => None
  }

  lemma Positional(n: nat)
    requires n < 0x10000
    ensures n == (n / 0x1000) * 0x1000 + (n / 0x100 % 16) * 0x100 + (n / 16 % 16) * 16 + n % 16
  {
    assert n / 0x100 == (n / 16) / 16 && n / 0x1000 == (n / 0x100) / 16;
  }

  lemma HexRoundTrip(n: nat, rest: string)
    requires n < 0x10000
    ensures ParseHex4(Hex4(n) + rest) == Some(n)
  {
    var (a, b, c, d) := (n / 0x1000, n / 0x100 % 16, n / 16 % 16, n % 16);
    Positional(n);
    DigitRoundTrip(a);
    DigitRoundTrip(b);
    DigitRoundTrip(c);
    DigitRoundTrip(d);
    hide HexDigit, HexValue;
    var s := Hex4(n) + rest;
    assert s[..4] == [HexDigit(a), HexDigit(b), HexDigit(c), HexDigit(d)];
    assert s[0] == HexDigit(a) && s[1] == HexDigit(b) && s[2] == HexDigit(c) && s[3] == HexDigit(d);
  }

  lemma DigitRoundTrip(d: nat)
    requires d < 16
    ensures HexValue(HexDigit(d)) == Some(d) && HexDigit(d) > '\U{1f}' && HexDigit(d) <= '~'
  {
  }

  /** How one character is written inside a string. With `ascii` everything
      outside printable ASCII is escaped, as a surrogate pair where needed. */
  function Escape(c: char, ascii: bool): string {
    if c == '"' then "\\\""
    else if c == '\\' then "\\\\"
    else if c == '\n' then "\\n"
    else if c == '\r' then "\\r"
    else if c == '\t' then "\\t"
    else if c == '\U{c}' then "\\f"
    else if c == '\U{8}' then "\\b"
    else if c < ' ' || (ascii && c > '~' && c as int < 0x10000) then "\\u" + Hex4(c as nat)
    else if ascii && c > '~' then
      var v := c as int - 0x10000;
      "\\u" + Hex4(0xD800 + v / 0x400) + "\\u" + Hex4(0xDC00 + v % 0x400)
    else [c]
  }

  function Escaped(s: string, ascii: bool): string {
    if s == "" then "" else Escape(s[0], ascii) + Escaped(s[1..], ascii)
  }

  function Simple(c: char): Option<char> {
    match c
    case '"' => Some('"')
    case '\\' => Some('\\')
    case '/' => Some('/')
    case 'n' => Some('\n')
    case 'r' => Some('\r')
    case 't' => Some('\t')
    case 'f' => Some('\U{c}')
    case 'b' => Some('\U{8}')
    case _ => None
  }

  function Join(hi: nat, lo: nat): char
    requires 0xD800 <= hi < 0xDC00 && 0xDC00 <= lo < 0xE000
  {
    (0x10000 + (hi - 0xD800) * 0x400 + (lo - 0xDC00)) as char
  }

  /** One character and how much text it took. A lone surrogate is no character. */
  function ScanUnicode(s: string): Option<(char, nat)> {
    match ParseHex4(s)
    case None => None
    case Some(n) =>
      if n < 0xD800 || 0xE000 <= n then Some((n as char, 4))
      else if n < 0xDC00 && |s| >= 6 && s[4] == '\\' && s[5] == 'u' then
        match ParseHex4(s[6..]) {
          case None => None
          case Some(m) =>
            if 0xDC00 <= m < 0xE000 && |s| >= 10 then Some((Join(n, m), 10)) else None
        }
      else None
  }

  /** The character at the head of a string's text, escaped or plain. */
  function ScanChar(s: string): (r: Option<(char, nat)>)
    requires s != ""
    ensures r.Some? ==> 0 < r.value.1 <= |s|
  {
    if s[0] != '\\' then (if s[0] < ' ' then None else Some((s[0], 1)))
    else if |s| < 2 then None
    else if s[1] != 'u' then
      match Simple(s[1])
      case None => None
      case Some(c) => Some((c, 2))
    else
      match ScanUnicode(s[2..])
      case None => None
      case Some((c, n)) => if n <= |s| - 2 then Some((c, n + 2)) else None
  }

  /** The text up to the closing quote, and what follows it. */
  function ScanString(s: string): (r: Option<(string, string)>)
    ensures r.Some? ==> |r.value.1| < |s|
    decreases |s|
  {
    if s == "" then None
    else if s[0] == '"' then Some(("", s[1..]))
    else match ScanChar(s)
      case None => None
      case Some((c, n)) =>
        match ScanString(s[n..])
        case None => None
        case Some((text, rest)) => Some(([c] + text, rest))
  }

  lemma EscapeRoundTrip(c: char, ascii: bool, rest: string)
    ensures var e := Escape(c, ascii);
            && e != "" && e[0] != '"'
            && ScanChar(e + rest) == Some((c, |e|))
  {
    var e := Escape(c, ascii);
    var s := e + rest;
    if c < ' ' && e[1] == 'u' {
      assert s[2..] == Hex4(c as nat) + rest;
      HexRoundTrip(c as nat, rest);
    } else if ascii && c > '~' {
      PairRoundTrip(c, rest);
    }
  }

  lemma PairRoundTrip(c: char, rest: string)
    requires c > '~'
    ensures var e := Escape(c, true); ScanChar(e + rest) == Some((c, |e|))
  {
    hide Hex4, ParseHex4, Simple;
    var e := Escape(c, true);
    var s := e + rest;
    if c as int < 0x10000 {
      assert s[2..] == Hex4(c as nat) + rest;
      HexRoundTrip(c as nat, rest);
    } else {
      hide ScanUnicode;
      var v := c as int - 0x10000;
      var hi, lo := 0xD800 + v / 0x400, 0xDC00 + v % 0x400;
      assert s[2..] == Hex4(hi) + ("\\u" + (Hex4(lo) + rest));
      ScanPair(hi, lo, rest);
    }
  }

  lemma ScanPair(hi: nat, lo: nat, rest: string)
    requires 0xD800 <= hi < 0xDC00 && 0xDC00 <= lo < 0xE000
    ensures ScanUnicode(Hex4(hi) + ("\\u" + (Hex4(lo) + rest))) == Some((Join(hi, lo), 10))
  {
    hide Hex4, ParseHex4;
    var tail := "\\u" + (Hex4(lo) + rest);
    var s := Hex4(hi) + tail;
    HexRoundTrip(hi, tail);
    HexRoundTrip(lo, rest);
    assert s[6..] == Hex4(lo) + rest;
    assert s[4] == tail[0] && s[5] == tail[1];
  }

  /** Reading a written string gives it back, whatever it contains. */
  lemma {:induction false} StringRoundTrip(text: string, ascii: bool, rest: string)
    ensures ScanString(Escaped(text, ascii) + "\"" + rest) == Some((text, rest))
    decreases |text|
  {
    if text == "" {
      assert "" + "\"" + rest == "\"" + rest;
    } else {
      var e, tail := Escape(text[0], ascii), Escaped(text[1..], ascii) + "\"" + rest;
      assert Escaped(text, ascii) + "\"" + rest == e + tail;
      EscapeRoundTrip(text[0], ascii, tail);
      StringRoundTrip(text[1..], ascii, rest);
      assert (e + tail)[|e|..] == tail;
      assert [text[0]] + text[1..] == text;
    }
  }

  // ---------------------------------------------------------------- writing

  /** One line, or one item per line at a depth. */
  datatype Style = Compact(ascii: bool) | Indented(depth: nat)

  function Inner(style: Style): Style {
    if style.Indented? then Indented(style.depth + 1) else style
  }

  function Spaces(n: nat): (s: string)
    ensures |s| == n && forall k :: 0 <= k < n ==> s[k] == ' '
  {
    if n == 0 then "" else " " + Spaces(n - 1)
  }

  /** What stands before an item and before a closing bracket. */
  function Gap(style: Style): string {
    if style.Indented? then "\n" + Spaces(2 * style.depth) else ""
  }

  function Quoted(text: string, style: Style): string {
    "\"" + Escaped(text, style.Compact? && style.ascii) + "\""
  }

  function KeySeparator(style: Style): string {
    if style.Indented? then ": " else ":"
  }

  function Dump(v: Value, style: Style): string
    decreases v, 0
  {
    match v
    case Null => "null"
    case Bool(b) => if b then "true" else "false"
    case Number(literal) => literal
    case Text(text) => Quoted(text, style)
    case List(items) => if items == [] then "[]" else "[" + Gap(Inner(style)) + DumpItems(items, style)
    case Dict(members) => if members == [] then "{}" else "{" + Gap(Inner(style)) + DumpMembers(members, style)
  }

  /** The items and the closing bracket. */
  function DumpItems(items: seq<Value>, style: Style): string
    requires items != []
    decreases items, 1
  {
    Dump(items[0], Inner(style)) +
    if |items| == 1 then Gap(style) + "]" else "," + Gap(Inner(style)) + DumpItems(items[1..], style)
  }

  function DumpMembers(members: seq<Member>, style: Style): string
    requires members != []
    decreases members, 1
  {
    Quoted(members[0].key, style) + KeySeparator(style) + Dump(members[0].value, Inner(style)) +
    if |members| == 1 then Gap(style) + "}" else "," + Gap(Inner(style)) + DumpMembers(members[1..], style)
  }

  // ---------------------------------------------------------------- numbers

  datatype NumberState = AtStart | Minus | Zero | Whole | Dot | Fraction | Exponent | Signed | Power | Broken

  function Advance(st: NumberState, c: char): NumberState {
    match st
    case AtStart => if c == '-' then Minus else if c == '0' then Zero else if IsDigit(c) then Whole else Broken
    case Minus => if c == '0' then Zero else if IsDigit(c) then Whole else Broken
    case Zero => if c == '.' then Dot else if c == 'e' || c == 'E' then Exponent else Broken
    case Whole => if IsDigit(c) then Whole else if c == '.' then Dot else if c == 'e' || c == 'E' then Exponent
                  else Broken
    case Dot => if IsDigit(c) then Fraction else Broken
    case Fraction => if IsDigit(c) then Fraction else if c == 'e' || c == 'E' then Exponent else Broken
    case Exponent => if c == '+' || c == '-' then Signed else if IsDigit(c) then Power else Broken
    case Signed => if IsDigit(c) then Power else Broken
    case Power => if IsDigit(c) then Power else Broken
    case Broken => Broken
  }

  function AdvanceAll(st: NumberState, s: string): NumberState
    decreases |s|
  {
    if s == "" then st else AdvanceAll(Advance(st, s[0]), s[1..])
  }

  predicate IsNumber(s: string) {
    AdvanceAll(AtStart, s) in {Zero, Whole, Fraction, Power}
  }

  predicate NumberChar(c: char) {
    IsDigit(c) || c == '+' || c == '-' || c == '.' || c == 'e' || c == 'E'
  }

  /** How much of the text could belong to a number. */
  function Span(s: string): (n: nat)
    ensures n <= |s|
  {
    if s == "" || !NumberChar(s[0]) then 0 else 1 + Span(s[1..])
  }

  lemma {:induction false} StaysBroken(s: string)
    ensures AdvanceAll(Broken, s) == Broken
    decreases |s|
  {
    if s != "" {
      StaysBroken(s[1..]);
    }
  }

  lemma {:induction false} NumberSpan(st: NumberState, s: string, rest: string)
    requires AdvanceAll(st, s) != Broken && Ends(rest)
    ensures Span(s + rest) == |s|
    decreases |s|
  {
    if s == "" {
      assert s + rest == rest;
    } else {
      if Advance(st, s[0]) == Broken {
        StaysBroken(s[1..]);
      }
      NumberSpan(Advance(st, s[0]), s[1..], rest);
      assert (s + rest)[1..] == s[1..] + rest;
    }
  }

  // ---------------------------------------------------------------- reading

  function Skip(s: string): (r: string)
    ensures |r| <= |s|
  {
    if s != "" && IsBlank(s[0]) then Skip(s[1..]) else s
  }

  /** The value at the head of the text, and what follows it. */
  function ParseValue(s: string): (r: Option<(Value, string)>)
    ensures r.Some? ==> |r.value.1| < |s|
    decreases |s|, 0
  {
    if s == "" then None
    else if s[0] == '"' then
      match ScanString(s[1..])
      case None => None
      case Some((text, rest)) => Some((Text(text), rest))
    else if s[0] == '[' then
      var t := Skip(s[1..]);
      if t != "" && t[0] == ']' then Some((List([]), t[1..]))
      else match ParseItems(t)
        case None => None
        case Some((items, rest)) => Some((List(items), rest))
    else if s[0] == '{' then
      var t := Skip(s[1..]);
      if t != "" && t[0] == '}' then Some((Dict([]), t[1..]))
      else match ParseMembers(t)
        case None => None
        case Some((members, rest)) => Some((Dict(members), rest))
    else if "null" <= s then Some((Null, s[4..]))
    else if "true" <= s then Some((Bool(true), s[4..]))
    else if "false" <= s then Some((Bool(false), s[5..]))
    else
      var n := Span(s);
      if n > 0 && IsNumber(s[..n]) then Some((Number(s[..n]), s[n..])) else None
  }

  function ParseItems(s: string): (r: Option<(seq<Value>, string)>)
    ensures r.Some? ==> |r.value.1| < |s|
    decreases |s|, 1
  {
    match ParseValue(s)
    case None => None
    case Some((v, rest)) =>
      var t := Skip(rest);
      if t == "" then None
      else if t[0] == ']' then Some(([v], t[1..]))
      else if t[0] != ',' then None
      else match ParseItems(Skip(t[1..]))
        case None => None
        case Some((items, end)) => Some(([v] + items, end))
  }

  function ParseMembers(s: string): (r: Option<(seq<Member>, string)>)
    ensures r.Some? ==> |r.value.1| < |s|
    decreases |s|, 1
  {
    match ParseKey(s)
    case None => None
    case Some((key, start)) =>
      match ParseValue(start)
      case None => None
      case Some((v, rest)) =>
        var t := Skip(rest);
        if t == "" then None
        else if t[0] == '}' then Some(([Member(key, v)], t[1..]))
        else if t[0] != ',' then None
        else match ParseMembers(Skip(t[1..]))
          case None => None
          case Some((members, end)) => Some(([Member(key, v)] + members, end))
  }

  /** A key with its colon. */
  function ParseKey(s: string): (r: Option<(string, string)>)
    ensures r.Some? ==> |r.value.1| < |s|
  {
    if s == "" || s[0] != '"' then None
    else match ScanString(s[1..])
      case None => None
      case Some((key, rest)) =>
        var t := Skip(rest);
        if t == "" || t[0] != ':' then None else Some((key, Skip(t[1..])))
  }

  /** A whole document: one value with nothing but blanks around it. */
  function Parse(s: string): Option<Value> {
    match ParseValue(Skip(s))
    case None => None
    case Some((v, rest)) => if Skip(rest) == "" then Some(v) else None
  }

  // ------------------------------------------------------------- round trips

  predicate Ends(rest: string) {
    rest == "" || !NumberChar(rest[0])
  }

  /** Every number in the value is one the grammar allows. */
  predicate Numeric(v: Value) {
    match v
    case Number(literal) => IsNumber(literal)
    case List(items) => forall i :: 0 <= i < |items| ==> Numeric(items[i])
    case Dict(members) => forall i :: 0 <= i < |members| ==> Numeric(members[i].value)
    case _ => true
  }

  lemma {:induction false} SkipSpaces(n: nat, t: string)
    requires t == "" || !IsBlank(t[0])
    ensures Skip(Spaces(n) + t) == t
  {
    if n > 0 {
      assert (Spaces(n) + t)[1..] == Spaces(n - 1) + t;
      SkipSpaces(n - 1, t);
    } else {
      assert Spaces(0) + t == t;
    }
  }

  lemma {:induction false} SkipGap(style: Style, t: string)
    requires t == "" || !IsBlank(t[0])
    ensures Skip(Gap(style) + t) == t
  {
    if style.Indented? {
      assert (Gap(style) + t)[1..] == Spaces(2 * style.depth) + t;
      SkipSpaces(2 * style.depth, t);
    } else {
      assert Gap(style) + t == t;
    }
  }

  /** No written value starts with a blank or a closing bracket. */
  lemma {:induction false} Head(v: Value, style: Style)
    requires Numeric(v)
    ensures var d := Dump(v, style); d != "" && !IsBlank(d[0]) && d[0] != ']' && d[0] != '}'
  {
    if v.Number? && v.literal != "" && Advance(AtStart, v.literal[0]) == Broken {
      StaysBroken(v.literal[1..]);
    }
  }

  lemma {:induction false} NumberRoundTrip(literal: string, rest: string)
    requires IsNumber(literal) && Ends(rest)
    ensures ParseValue(literal + rest) == Some((Number(literal), rest))
  {
    NumberSpan(AtStart, literal, rest);
    if literal != "" && Advance(AtStart, literal[0]) == Broken {
      StaysBroken(literal[1..]);
    }
    var s := literal + rest;
    assert s[..|literal|] == literal && s[|literal|..] == rest;
    assert s[0] == literal[0];
  }

  lemma QuotedRoundTrip(text: string, style: Style, rest: string)
    ensures var s := Quoted(text, style) + rest;
            s != "" && s[0] == '"' && ScanString(s[1..]) == Some((text, rest))
  {
    hide ScanString, Escaped;
    var ascii := style.Compact? && style.ascii;
    var e := Escaped(text, ascii);
    StringRoundTrip(text, ascii, rest);
    assert ("\"" + e + "\"" + rest)[1..] == e + "\"" + rest;
  }

  /** Reading what was written gives the value back and stops right after it, at
      any depth and in either style. */
  lemma {:induction false} ValueRoundTrip(v: Value, style: Style, rest: string)
    requires Numeric(v) && Ends(rest)
    ensures ParseValue(Dump(v, style) + rest) == Some((v, rest))
    decreases v, 0
  {
    match v
    case Null => assert ("null" + rest)[4..] == rest;
    case Bool(b) => assert (if b then "true" + rest else "false" + rest)[if b then 4 else 5..] == rest;
    case Number(literal) => NumberRoundTrip(literal, rest);
    case Text(text) =>
      hide ScanString, Quoted;
      QuotedRoundTrip(text, style, rest);
    case List(items) =>
      if items == [] {
        assert ("[]" + rest)[1..] == "]" + rest && Skip("]" + rest) == "]" + rest;
      } else {
        ListRoundTrip(items, style, rest);
      }
    case Dict(members) =>
      if members == [] {
        assert ("{}" + rest)[1..] == "}" + rest && Skip("}" + rest) == "}" + rest;
      } else {
        DictRoundTrip(members, style, rest);
      }
  }

  // One turn of each reader, in terms of the readers it calls.

  lemma {:induction false} ReadList(s: string, t: string, items: seq<Value>, rest: string)
    requires s != "" && s[0] == '[' && Skip(s[1..]) == t && t != "" && t[0] != ']'
             && ParseItems(t) == Some((items, rest))
    ensures ParseValue(s) == Some((List(items), rest))
  {
    hide ParseItems, ParseMembers, Skip, ScanString, Span, IsNumber;
  }

  lemma {:induction false} ReadDict(s: string, t: string, members: seq<Member>, rest: string)
    requires s != "" && s[0] == '{' && Skip(s[1..]) == t && t != "" && t[0] != '}'
             && ParseMembers(t) == Some((members, rest))
    ensures ParseValue(s) == Some((Dict(members), rest))
  {
    hide ParseItems, ParseMembers, Skip, ScanString, Span, IsNumber;
  }

  lemma {:induction false} ReadLastItem(s: string, v: Value, tail: string, rest: string)
    requires ParseValue(s) == Some((v, tail)) && Skip(tail) == "]" + rest
    ensures ParseItems(s) == Some(([v], rest))
  {
    hide ParseValue, Skip;
    assert ("]" + rest)[1..] == rest;
  }

  lemma {:induction false} ReadItem(s: string, v: Value, tail: string, more: string, next: string, items: seq<Value>,
                                    rest: string)
    requires ParseValue(s) == Some((v, tail)) && Skip(tail) == "," + more && Skip(more) == next
    requires ParseItems(next) == Some((items, rest))
    ensures ParseItems(s) == Some(([v] + items, rest))
  {
    hide ParseValue, Skip;
    assert ("," + more)[1..] == more;
  }

  lemma {:induction false} ReadLastMember(s: string, key: string, start: string, v: Value, tail: string, rest: string)
    requires ParseKey(s) == Some((key, start)) && ParseValue(start) == Some((v, tail)) && Skip(tail) == "}" + rest
    ensures ParseMembers(s) == Some(([Member(key, v)], rest))
  {
    hide ParseValue, Skip, ParseKey;
    assert ("}" + rest)[1..] == rest;
  }

  lemma {:induction false} ReadMember(s: string, key: string, start: string, v: Value, tail: string, more: string,
                                      next: string, members: seq<Member>, rest: string)
    requires ParseKey(s) == Some((key, start)) && ParseValue(start) == Some((v, tail)) && Skip(tail) == "," + more
             && Skip(more) == next
    requires ParseMembers(next) == Some((members, rest))
    ensures ParseMembers(s) == Some(([Member(key, v)] + members, rest))
  {
    hide ParseValue, Skip, ParseKey;
    assert ("," + more)[1..] == more;
  }

  lemma {:induction false} ListRoundTrip(items: seq<Value>, style: Style, rest: string)
    requires items != [] && Numeric(List(items)) && Ends(rest)
    ensures ParseValue("[" + Gap(Inner(style)) + DumpItems(items, style) + rest) == Some((List(items), rest))
    decreases items, 2
  {
    hide ParseItems, ParseValue, Skip, Gap, Numeric, DumpItems;
    var body := DumpItems(items, style) + rest;
    var s := "[" + Gap(Inner(style)) + DumpItems(items, style) + rest;
    assert s[1..] == Gap(Inner(style)) + body;
    ItemsHead(items, style);
    SkipGap(Inner(style), body);
    ItemsRoundTrip(items, style, rest);
    ReadList(s, body, items, rest);
  }

  lemma {:induction false} ItemsHead(items: seq<Value>, style: Style)
    requires items != [] && Numeric(List(items))
    ensures var d := DumpItems(items, style); d != "" && !IsBlank(d[0]) && d[0] != ']'
  {
    Head(items[0], Inner(style));
    hide Dump;
  }

  /** The text of a list, piece by piece. */
  lemma {:induction false} ItemsText(items: seq<Value>, style: Style, rest: string)
    requires items != []
    ensures var d := Dump(items[0], Inner(style));
            DumpItems(items, style) + rest ==
            if |items| == 1 then d + (Gap(style) + ("]" + rest))
            else d + ("," + (Gap(Inner(style)) + (DumpItems(items[1..], style) + rest)))
  {
    hide Dump, Gap;
  }

  lemma {:induction false} MembersText(members: seq<Member>, style: Style, rest: string)
    requires members != []
    ensures var start, d := Quoted(members[0].key, style) + KeySeparator(style), Dump(members[0].value, Inner(style));
            DumpMembers(members, style) + rest ==
            if |members| == 1 then start + (d + (Gap(style) + ("}" + rest)))
            else start + (d + ("," + (Gap(Inner(style)) + (DumpMembers(members[1..], style) + rest))))
  {
    hide Dump, Gap, Quoted, KeySeparator;
  }

  lemma {:induction false} ItemsRoundTrip(items: seq<Value>, style: Style, rest: string)
    requires items != [] && Numeric(List(items)) && Ends(rest)
    ensures ParseItems(DumpItems(items, style) + rest) == Some((items, rest))
    decreases items, 1
  {
    hide Dump, DumpItems, ParseValue, ParseItems, Skip, Gap;
    ItemsText(items, style, rest);
    var d, inner := Dump(items[0], Inner(style)), Inner(style);
    if |items| == 1 {
      var tail := Gap(style) + ("]" + rest);
      GapEnds(style, "]" + rest);
      ValueRoundTrip(items[0], inner, tail);
      SkipGap(style, "]" + rest);
      ReadLastItem(d + tail, items[0], tail, rest);
      assert [items[0]] == items;
    } else {
      var others := DumpItems(items[1..], style) + rest;
      var more := Gap(inner) + others;
      ValueRoundTrip(items[0], inner, "," + more);
      SkipPlain("," + more);
      assert Numeric(List(items[1..]));
      ItemsHead(items[1..], style);
      SkipGap(inner, others);
      ItemsRoundTrip(items[1..], style, rest);
      ReadItem(d + ("," + more), items[0], "," + more, more, others, items[1..], rest);
      assert [items[0]] + items[1..] == items;
    }
  }

  lemma GapEnds(style: Style, t: string)
    requires t != "" && !NumberChar(t[0])
    ensures Ends(Gap(style) + t)
  {
    if !style.Indented? {
      assert Gap(style) + t == t;
    }
  }

  lemma {:induction false} SkipPlain(t: string)
    requires t == "" || !IsBlank(t[0])
    ensures Skip(t) == t
  {
  }

  lemma {:induction false} DictRoundTrip(members: seq<Member>, style: Style, rest: string)
    requires members != [] && Numeric(Dict(members)) && Ends(rest)
    ensures ParseValue("{" + Gap(Inner(style)) + DumpMembers(members, style) + rest) == Some((Dict(members), rest))
    decreases members, 2
  {
    hide ParseMembers, ParseValue, Skip, Gap, Numeric, DumpMembers;
    var body := DumpMembers(members, style) + rest;
    var s := "{" + Gap(Inner(style)) + DumpMembers(members, style) + rest;
    assert s[1..] == Gap(Inner(style)) + body;
    MembersHead(members, style);
    SkipGap(Inner(style), body);
    MembersRoundTrip(members, style, rest);
    ReadDict(s, body, members, rest);
  }

  lemma {:induction false} MembersHead(members: seq<Member>, style: Style)
    requires members != []
    ensures var d := DumpMembers(members, style); d != "" && d[0] == '"'
  {
  }

  lemma KeyRoundTrip(key: string, style: Style, rest: string)
    requires rest != "" && !IsBlank(rest[0])
    ensures ParseKey(Quoted(key, style) + KeySeparator(style) + rest) == Some((key, rest))
  {
    hide ScanString, Quoted;
    QuotedRoundTrip(key, style, KeySeparator(style) + rest);
    var t := KeySeparator(style) + rest;
    assert Quoted(key, style) + KeySeparator(style) + rest == Quoted(key, style) + t;
    SkipPlain(t);
    SkipPlain(rest);
    if style.Indented? {
      assert t[1..] == " " + rest && (" " + rest)[1..] == rest;
    } else {
      assert t[1..] == rest;
    }
  }

  lemma {:induction false} MembersRoundTrip(members: seq<Member>, style: Style, rest: string)
    requires members != [] && Numeric(Dict(members)) && Ends(rest)
    ensures ParseMembers(DumpMembers(members, style) + rest) == Some((members, rest))
    decreases members, 1
  {
    hide Dump, DumpMembers, ParseValue, ParseMembers, Skip, Gap, ParseKey, Quoted, KeySeparator;
    MembersText(members, style, rest);
    var key, v, inner := members[0].key, members[0].value, Inner(style);
    var d := Dump(v, inner);
    assert Numeric(v);
    Head(v, inner);
    var start := Quoted(key, style) + KeySeparator(style);
    if |members| == 1 {
      var tail := Gap(style) + ("}" + rest);
      KeyRoundTrip(key, style, d + tail);
      GapEnds(style, "}" + rest);
      ValueRoundTrip(v, inner, tail);
      SkipGap(style, "}" + rest);
      ReadLastMember(start + (d + tail), key, d + tail, v, tail, rest);
      assert [members[0]] == members;
    } else {
      var others := DumpMembers(members[1..], style) + rest;
      var more := Gap(inner) + others;
      KeyRoundTrip(key, style, d + ("," + more));
      ValueRoundTrip(v, inner, "," + more);
      SkipPlain("," + more);
      MembersHead(members[1..], style);
      SkipGap(inner, others);
      assert Numeric(Dict(members[1..]));
      MembersRoundTrip(members[1..], style, rest);
      ReadMember(start + (d + ("," + more)), key, d + ("," + more), v, "," + more, more, others, members[1..], rest);
      assert [members[0]] + members[1..] == members;
    }
  }

  /** A written document reads back as the value it was written from. */
  lemma {:induction false} DocumentRoundTrip(v: Value, style: Style)
    requires Numeric(v)
    ensures Parse(Dump(v, style)) == Some(v)
  {
    hide Dump, ParseValue;
    Head(v, style);
    SkipPlain(Dump(v, style));
    assert Dump(v, style) + "" == Dump(v, style);
    ValueRoundTrip(v, style, "");
  }

  // ------------------------------------------------------------- sorted keys

  /** The value with the members of every dictionary in key order, as it is written. */
  function SortKeys(v: Value): Value
    decreases v, 0
  {
    match v
    case List(items) => List(SortItems(items))
    case Dict(members) => Dict(SortMembers(members))
    case _ => v
  }

  function SortItems(items: seq<Value>): (sorted: seq<Value>)
    ensures |sorted| == |items|
    decreases items, 1
  {
    if items == [] then [] else [SortKeys(items[0])] + SortItems(items[1..])
  }

  function SortMembers(members: seq<Member>): seq<Member>
    decreases members, 1
  {
    if members == [] then []
    else Insert(SortMembers(members[1..]), Member(members[0].key, SortKeys(members[0].value)))
  }

  function Insert(sorted: seq<Member>, m: Member): seq<Member> {
    if sorted == [] || Before(m.key, sorted[0].key) then [m] + sorted else [sorted[0]] + Insert(sorted[1..], m)
  }

  function Lookup(members: seq<Member>, key: string): Option<Value> {
    if members == [] then None
    else if members[0].key == key then Some(members[0].value)
    else Lookup(members[1..], key)
  }

  /** A dictionary has each key once. */
  predicate DistinctKeys(members: seq<Member>) {
    members == [] || (Lookup(members[1..], members[0].key).None? && DistinctKeys(members[1..]))
  }

  ghost predicate KeysInOrder(members: seq<Member>) {
    forall i, j :: 0 <= i < j < |members| ==> Before(members[i].key, members[j].key)
  }

  lemma {:induction false} InsertLookup(sorted: seq<Member>, m: Member, key: string)
    requires Lookup(sorted, m.key).None?
    ensures Lookup(Insert(sorted, m), key) == if key == m.key then Some(m.value) else Lookup(sorted, key)
    decreases |sorted|
  {
    if !(sorted == [] || Before(m.key, sorted[0].key)) {
      InsertLookup(sorted[1..], m, key);
    }
  }

  lemma {:induction false} InsertOrdered(sorted: seq<Member>, m: Member)
    requires KeysInOrder(sorted) && Lookup(sorted, m.key).None?
    ensures KeysInOrder(Insert(sorted, m))
    ensures forall k :: 0 <= k < |Insert(sorted, m)| ==> Insert(sorted, m)[k] == m || Insert(sorted, m)[k] in sorted
    decreases |sorted|
  {
    if sorted == [] {
    } else if Before(m.key, sorted[0].key) {
      forall j | 0 <= j < |sorted| ensures Before(m.key, sorted[j].key) {
        if j > 0 {
          BeforeTransitive(m.key, sorted[0].key, sorted[j].key);
        }
      }
    } else {
      BeforeTotal(m.key, sorted[0].key);
      InsertOrdered(sorted[1..], m);
      var rest := Insert(sorted[1..], m);
      forall k | 0 <= k < |rest| ensures Before(sorted[0].key, rest[k].key) {
        if rest[k] != m {
          var i :| 0 <= i < |sorted[1..]| && sorted[1..][i] == rest[k];
          assert sorted[i + 1] == rest[k];
        }
      }
    }
  }

  /** Writing in key order keeps every key with its value, and nothing else. */
  lemma {:induction false} SortingKeepsContent(members: seq<Member>, key: string)
    requires DistinctKeys(members)
    ensures Lookup(SortMembers(members), key)
            == match Lookup(members, key) case None => None case Some(v) => Some(SortKeys(v))
  {
    if members != [] {
      SortingKeepsContent(members[1..], key);
      SortingKeepsContent(members[1..], members[0].key);
      InsertLookup(SortMembers(members[1..]), Member(members[0].key, SortKeys(members[0].value)), key);
    }
  }

  lemma {:induction false} SortingOrders(members: seq<Member>)
    requires DistinctKeys(members)
    ensures KeysInOrder(SortMembers(members))
  {
    if members != [] {
      SortingOrders(members[1..]);
      SortingKeepsContent(members[1..], members[0].key);
      InsertOrdered(SortMembers(members[1..]), Member(members[0].key, SortKeys(members[0].value)));
    }
  }

  predicate NumericMembers(members: seq<Member>) {
    forall i :: 0 <= i < |members| ==> Numeric(members[i].value)
  }

  lemma {:induction false} InsertNumeric(sorted: seq<Member>, m: Member)
    requires NumericMembers(sorted) && Numeric(m.value)
    ensures NumericMembers(Insert(sorted, m))
    decreases |sorted|
  {
    if !(sorted == [] || Before(m.key, sorted[0].key)) {
      InsertNumeric(sorted[1..], m);
    }
  }

  lemma {:induction false} SortingNumeric(v: Value)
    requires Numeric(v)
    ensures Numeric(SortKeys(v))
    decreases v, 0
  {
    match v
    case List(items) => SortingItemsNumeric(items);
    case Dict(members) => SortingMembersNumeric(members);
    case _ =>
  }

  lemma {:induction false} SortingItemsNumeric(items: seq<Value>)
    requires Numeric(List(items))
    ensures Numeric(List(SortItems(items)))
    decreases items, 1
  {
    if items != [] {
      SortingNumeric(items[0]);
      assert Numeric(List(items[1..]));
      SortingItemsNumeric(items[1..]);
    }
  }

  lemma {:induction false} SortingMembersNumeric(members: seq<Member>)
    requires Numeric(Dict(members))
    ensures NumericMembers(SortMembers(members))
    decreases members, 1
  {
    if members != [] {
      assert Numeric(members[0].value) && Numeric(Dict(members[1..]));
      SortingNumeric(members[0].value);
      SortingMembersNumeric(members[1..]);
      InsertNumeric(SortMembers(members[1..]), Member(members[0].key, SortKeys(members[0].value)));
    }
  }

  /** A value written with its keys sorted reads back as itself with its keys sorted. */
  lemma {:induction false} SortedRoundTrip(v: Value, style: Style)
    requires Numeric(v)
    ensures Parse(Dump(SortKeys(v), style)) == Some(SortKeys(v))
  {
    SortingNumeric(v);
    DocumentRoundTrip(SortKeys(v), style);
  }
}
