/**
 JSON text: a reader for objects, arrays, strings and integers after RFC 8259, and the printing
 style of the record formatter.  A character stands for one byte.  The reader takes `\u` escapes
 below 0x80; the others denote several bytes, which the printer writes as they are.
 */
module Json {
  import opened Decimal
  import opened Options

  datatype Value =
    | Num(number: int)
    | Str(text: string)
    | Arr(items: seq<Value>)
    | Obj(members: seq<Member>)

  datatype Member = Member(key: string, value: Value)

  // -------------------------------------------------------------------- escaping

  function HexDigit(d: nat): char
    requires d < 16
  {
    "0123456789abcdef"[d]
  }

  /** What stands for one character inside a string (section 7 of RFC 8259). */
  function EscapeChar(c: char): (text: string)
    ensures text != ""
  {
    if c == '"' then "\\\""
    else if c == '\\' then "\\\\"
    else if c == '\U{08}' then "\\b"
    else if c == '\U{0C}' then "\\f"
    else if c == '\n' then "\\n"
    else if c == '\r' then "\\r"
    else if c == '\t' then "\\t"
    else if c < ' ' then "\\u00" + [HexDigit(c as nat / 16), HexDigit(c as nat % 16)]
    else [c]
  }

  function Escape(s: string): string
  {
    if s == "" then "" else Escape(s[..|s| - 1]) + EscapeChar(s[|s| - 1])
  }

  /** Text that can stand between quotes: no control character, and every quote is escaped. */
  predicate Quotable(text: string)
  {
    text == "" ||
    if text[0] == '\\' then |text| >= 2 && text[1] >= ' ' && Quotable(text[2..])
    else text[0] != '"' && text[0] >= ' ' && Quotable(text[1..])
  }

  // -------------------------------------------------------------- reading strings

  datatype Piece = Close(rest: string) | Next(c: char, rest: string) | Bad

  function HexValue(c: char): (d: Option<nat>)
    ensures d.Some? ==> d.value < 16
  {
    if '0' <= c <= '9' then Some((c - '0') as nat)
    else if 'a' <= c <= 'f' then Some(10 + (c - 'a') as nat)
    else if 'A' <= c <= 'F' then Some(10 + (c - 'A') as nat)
    else None
  }

  /** The character of a four-digit escape below 0x80. */
  function ReadHex(text: string): Piece
  {
    if |text| < 4 || text[0] != '0' || text[1] != '0' then Bad
    else
      var high, low := HexValue(text[2]), HexValue(text[3]);
      if high.Some? && low.Some? && high.value < 8 then Next((16 * high.value + low.value) as char, text[4..]) else Bad
  }

  function ReadEscaped(text: string): Piece
  {
    if text == "" then Bad
    else
      var rest := text[1..];
      match text[0]
      case '"' => Next('"', rest)
      case '\\' => Next('\\', rest)
      case '/' => Next('/', rest)
      case 'b' => Next('\U{08}', rest)
      case 'f' => Next('\U{0C}', rest)
      case 'n' => Next('\n', rest)
      case 'r' => Next('\r', rest)
      case 't' => Next('\t', rest)
      case 'u' => ReadHex(rest)
      case _ => Bad
  }

  function ReadPiece(text: string): (p: Piece)
    ensures !p.Bad? ==> |p.rest| < |text|
  {
    if text == "" || text[0] < ' ' then Bad
    else if text[0] == '"' then Close(text[1..])
    else if text[0] == '\\' then ReadEscaped(text[1..])
    else Next(text[0], text[1..])
  }

  /** The string whose opening quote was just read, and what follows its closing quote. */
  function ReadString(text: string): (r: Option<(string, string)>)
    ensures r.Some? ==> |r.value.1| < |text|
    decreases |text|
  {
    match ReadPiece(text)
    case Bad => None
    case Close(rest) => Some(("", rest))
    case Next(c, rest) =>
      match ReadString(rest)
      case None => None
      case Some((s, rest')) => Some(([c] + s, rest'))
  }

  lemma ReadEscapedChar(c: char, rest: string)
    ensures ReadPiece(EscapeChar(c) + rest) == Next(c, rest)
  {
    var text := EscapeChar(c) + rest;
    if |EscapeChar(c)| == 6 {
      HexRoundTrip(c);
      assert text[1..][1..] == text[2..];
      assert text[6..] == rest;
      assert text[1..][1..][4..] == text[6..];
    } else {
      assert text[|EscapeChar(c)|..] == rest;
    }
  }

  lemma HexRoundTrip(c: char)
    requires c < ' '
    ensures HexValue(HexDigit(c as nat / 16)) == Some(c as nat / 16)
    ensures HexValue(HexDigit(c as nat % 16)) == Some(c as nat % 16)
  {
  }

  lemma EscapeBack(s: string)
    requires s != ""
    ensures Escape(s) == Escape(s[..|s| - 1]) + EscapeChar(s[|s| - 1])
  {
  }

  lemma NothingEscaped()
    ensures Escape("") == ""
  {
  }

  /** The two-character escapes of section 7 of RFC 8259, and the characters that need none. */
  lemma EscapesOfTheStandard(c: char)
    ensures EscapeChar('"') == "\\\"" && EscapeChar('\\') == "\\\\" && EscapeChar('\t') == "\\t"
    ensures EscapeChar('\U{08}') == "\\b" && EscapeChar('\U{0C}') == "\\f" && EscapeChar('\n') == "\\n" && EscapeChar('\r') == "\\r"
    ensures EscapeChar(c) == [c] <==> c >= ' ' && c != '"' && c != '\\'
  {
  }

  lemma {:induction false} EscapeFront(s: string)
    requires s != ""
    ensures Escape(s) == EscapeChar(s[0]) + Escape(s[1..])
  {
    hide EscapeChar, Escape;
    if |s| == 1 {
      EscapeBack(s);
      NothingEscaped();
      assert s[..0] == "" && s[1..] == "";
    } else {
      var n := |s| - 1;
      EscapeFront(s[..n]);
      assert s[..n][1..] == s[1..][..n - 1];
      EscapeBack(s);
      EscapeBack(s[1..]);
      assert s[..n][0] == s[0] && s[1..][n - 1] == s[n];
    }
  }

  /** Reading an escaped string returns it, whatever follows its closing quote. */
  lemma {:induction false} StringRoundTrip(s: string, rest: string)
    ensures ReadString(Escape(s) + "\"" + rest) == Some((s, rest))
  {
    hide EscapeChar, ReadPiece;
    if s == "" {
      assert Escape(s) + "\"" + rest == "\"" + rest;
      ReadClose(rest);
    } else {
      EscapeFront(s);
      var tail := Escape(s[1..]) + "\"" + rest;
      assert Escape(s) + "\"" + rest == EscapeChar(s[0]) + tail;
      ReadEscapedChar(s[0], tail);
      StringRoundTrip(s[1..], rest);
      assert [s[0]] + s[1..] == s;
    }
  }

  lemma ReadClose(rest: string)
    ensures ReadPiece("\"" + rest) == Close(rest)
  {
    assert ("\"" + rest)[1..] == rest;
  }

  lemma QuotableChar(c: char, rest: string)
    requires Quotable(rest)
    ensures Quotable(EscapeChar(c) + rest)
  {
    var text := EscapeChar(c) + rest;
    if |EscapeChar(c)| == 6 {
      PlainPrefix(text[2..6], rest);
      assert text[2..] == text[2..6] + rest;
    } else {
      assert text[|EscapeChar(c)|..] == rest;
    }
  }

  lemma {:induction false} PlainPrefix(plain: string, rest: string)
    requires Quotable(rest) && forall i | 0 <= i < |plain| :: plain[i] >= '0' && plain[i] != '\\'
    ensures Quotable(plain + rest)
  {
    if plain == "" {
      assert plain + rest == rest;
    } else {
      PlainPrefix(plain[1..], rest);
      assert (plain + rest)[1..] == plain[1..] + rest;
    }
  }

  lemma {:induction false} EscapeIsQuotable(s: string)
    ensures Quotable(Escape(s))
  {
    if s != "" {
      hide EscapeChar;
      EscapeFront(s);
      EscapeIsQuotable(s[1..]);
      QuotableChar(s[0], Escape(s[1..]));
    }
  }

  method EscapeJsonString(input: string) returns (text: string)
    ensures text == Escape(input)
    ensures forall rest :: ReadString(text + "\"" + rest) == Some((input, rest))
    ensures Quotable(text)
  {
    text := "";
    for i := 0 to |input|
      invariant text == Escape(input[..i])
    {
      var c := input[i];
      assert input[..i + 1][..i] == input[..i];
      if c == '"' { text := text + "\\\""; }
      else if c == '\\' { text := text + "\\\\"; }
      else if c == '\U{08}' { text := text + "\\b"; }
      else if c == '\U{0C}' { text := text + "\\f"; }
      else if c == '\n' { text := text + "\\n"; }
      else if c == '\r' { text := text + "\\r"; }
      else if c == '\t' { text := text + "\\t"; }
      else if c < ' ' { text := text + "\\u" + FourHexDigits(c as nat); }
      else { text := text + [c]; }
    }
    assert input[..|input|] == input;
    forall rest ensures ReadString(text + "\"" + rest) == Some((input, rest)) { StringRoundTrip(input, rest); }
    EscapeIsQuotable(input);
  }

  /** A number in four hexadecimal digits, padded with zeros. */
  function FourHexDigits(n: nat): (text: string)
    requires n < 0x1_0000
    ensures |text| == 4
    ensures n < 0x100 ==> text == "00" + [HexDigit(n / 16), HexDigit(n % 16)]
  {
    [HexDigit(n / 4096), HexDigit(n / 256 % 16), HexDigit(n / 16 % 16), HexDigit(n % 16)]
  }

  // --------------------------------------------------------------- reading values

  function SkipSpace(text: string): (rest: string)
    ensures |rest| <= |text|
  {
    if text != "" && text[0] in " \t\n\r" then SkipSpace(text[1..]) else text
  }

  predicate NumberAhead(text: string)
  {
    var digits := if text != "" && text[0] == '-' then text[1..] else text;
    Run(digits) == 1 || (Run(digits) > 1 && digits[0] != '0')
  }

  lemma ReadIntConsumes(text: string)
    requires NumberAhead(text)
    ensures |ReadInt(text).1| < |text|
  {
  }

  /** A value, after white space, and what follows it. */
  function ParseValue(text: string): (r: Option<(Value, string)>)
    ensures r.Some? ==> |r.value.1| < |text|
    decreases |text|, 0
  {
    var t := SkipSpace(text);
    if t == "" then None
    else if t[0] == '"' then
      match ReadString(t[1..])
      case None => None
      case Some((s, rest)) => Some((Str(s), rest))
    else if t[0] == '[' then
      var u := SkipSpace(t[1..]);
      if u != "" && u[0] == ']' then Some((Arr([]), u[1..]))
      else
        match ParseItems(u)
        case None => None
        case Some((items, rest)) => Some((Arr(items), rest))
    else if t[0] == '{' then
      var u := SkipSpace(t[1..]);
      if u != "" && u[0] == '}' then Some((Obj([]), u[1..]))
      else
        match ParseMembers(u)
        case None => None
        case Some((members, rest)) => Some((Obj(members), rest))
    else if NumberAhead(t) then
      ReadIntConsumes(t);
      Some((Num(ReadInt(t).0), ReadInt(t).1))
    else None
  }

  /** One or more items up to the closing bracket. */
  function ParseItems(text: string): (r: Option<(seq<Value>, string)>)
    ensures r.Some? ==> |r.value.1| < |text|
    decreases |text|, 1
  {
    match ParseValue(text)
    case None => None
    case Some((item, rest)) =>
      var t := SkipSpace(rest);
      if t == "" then None
      else if t[0] == ']' then Some(([item], t[1..]))
      else if t[0] != ',' then None
      else
        match ParseItems(t[1..])
        case None => None
        case Some((items, rest')) => Some(([item] + items, rest'))
  }

  /** One or more members up to the closing brace. */
  function ParseMembers(text: string): (r: Option<(seq<Member>, string)>)
    ensures r.Some? ==> |r.value.1| < |text|
    decreases |text|, 1
  {
    match ParseMember(text)
    case None => None
    case Some((member, rest)) =>
      var t := SkipSpace(rest);
      if t == "" then None
      else if t[0] == '}' then Some(([member], t[1..]))
      else if t[0] != ',' then None
      else
        match ParseMembers(t[1..])
        case None => None
        case Some((members, rest')) => Some(([member] + members, rest'))
  }

  function ParseMember(text: string): (r: Option<(Member, string)>)
    ensures r.Some? ==> |r.value.1| < |text|
    decreases |text|, 0
  {
    var t := SkipSpace(text);
    if t == "" || t[0] != '"' then None
    else
      match ReadString(t[1..])
      case None => None
      case Some((key, rest)) =>
        var u := SkipSpace(rest);
        if u == "" || u[0] != ':' then None
        else
          match ParseValue(u[1..])
          case None => None
          case Some((v, rest')) => Some((Member(key, v), rest'))
  }

  // -------------------------------------------------------------------- printing

  function Quote(s: string): string
  {
    "\"" + Escape(s) + "\""
  }

  function Show(v: Value): (text: string)
    decreases v
  {
    match v
    case Num(n) => Text(n)
    case Str(s) => Quote(s)
    case Arr(items) => "[" + ShowItems(items) + "]"
    case Obj(members) => "{" + ShowMembers(members) + "}"
  }

  function ShowItems(items: seq<Value>): string
    decreases items
  {
    if items == [] then ""
    else if |items| == 1 then Show(items[0])
    else Show(items[0]) + ", " + ShowItems(items[1..])
  }

  function ShowMembers(members: seq<Member>): string
    decreases members
  {
    if members == [] then ""
    else
      var member := ShowMember(members[0]);
      if |members| == 1 then member else member + ", " + ShowMembers(members[1..])
  }

  function ShowMember(member: Member): string
    decreases member
  {
    Quote(member.key) + ": " + Show(member.value)
  }

  // ------------------------------------------------------------------ round trip

  predicate IsSpace(c: char)
  {
    c in " \t\n\r"
  }

  /** A text that white space skipping leaves alone and that does not close a bracket at once. */
  predicate Solid(text: string)
  {
    text != "" && !IsSpace(text[0]) && text[0] != ']' && text[0] != '}'
  }

  lemma NothingToSkip(text: string)
    requires text == "" || !IsSpace(text[0])
    ensures SkipSpace(text) == text
  {
  }

  lemma SpaceIsSkipped(text: string)
    ensures SkipSpace(" " + text) == SkipSpace(text)
    ensures ParseValue(" " + text) == ParseValue(text)
    ensures ParseMember(" " + text) == ParseMember(text)
    ensures ParseItems(" " + text) == ParseItems(text)
    ensures ParseMembers(" " + text) == ParseMembers(text)
  {
    hide ReadString, NumberAhead, ReadInt;
    assert (" " + text)[1..] == text;
  }

  lemma ShowIsSolid(v: Value)
    ensures Solid(Show(v))
  {
    if v.Num? { assert v.number >= 0 ==> IsDigit(Text(v.number)[0]); }
  }

  lemma ParseNumber(n: int, rest: string)
    requires StartsOutside(rest)
    ensures ParseValue(Text(n) + rest) == Some((Num(n), rest))
  {
    hide ReadInt, Digits, Run;
    var text := Text(n) + rest;
    var digits := if n < 0 then Digits(-n) else Digits(n);
    assert IsDigit(digits[0]);
    NothingToSkip(text);
    RunOf(digits, rest);
    if n < 0 { assert text[1..] == digits + rest; }
    ReadText(n, rest);
  }

  lemma ParseQuoted(s: string, rest: string)
    ensures ParseValue(Quote(s) + rest) == Some((Str(s), rest))
  {
    hide ReadString, NumberAhead, Escape;
    var text := Quote(s) + rest;
    NothingToSkip(text);
    StringRoundTrip(s, rest);
    assert text[1..] == Escape(s) + "\"" + rest;
  }

  lemma {:induction false} ParseShown(v: Value, rest: string)
    requires StartsOutside(rest)
    ensures ParseValue(Show(v) + rest) == Some((v, rest))
    decreases v
  {
    match v
    case Num(n) => ParseNumber(n, rest);
    case Str(s) => ParseQuoted(s, rest);
    case Arr(items) =>
      if items != [] { ParseShownItems(items, rest); }
      ParseBracketed(items, rest);
    case Obj(members) =>
      if members != [] { ParseShownMembers(members, rest); }
      ParseBraced(members, rest);
  }

  lemma ParseBracketed(items: seq<Value>, rest: string)
    requires items != [] ==> ParseItems(ShowItems(items) + "]" + rest) == Some((items, rest))
    ensures ParseValue(Show(Arr(items)) + rest) == Some((Arr(items), rest))
  {
    hide ReadString, NumberAhead, ParseItems, Show;
    var text := "[" + ShowItems(items) + "]" + rest;
    var inner := ShowItems(items) + "]" + rest;
    assert Show(Arr(items)) + rest == text by { ShowArr(items); }
    NothingToSkip(text);
    assert text[1..] == inner;
    if items == [] { assert inner == "]" + rest && inner[1..] == rest; } else { ShowIsSolid(items[0]); }
    NothingToSkip(inner);
  }

  lemma ShowArr(items: seq<Value>)
    ensures Show(Arr(items)) == "[" + ShowItems(items) + "]"
  {
  }

  lemma ShowObj(members: seq<Member>)
    ensures Show(Obj(members)) == "{" + ShowMembers(members) + "}"
  {
  }

  lemma ParseBraced(members: seq<Member>, rest: string)
    requires members != [] ==> ParseMembers(ShowMembers(members) + "}" + rest) == Some((members, rest))
    ensures ParseValue(Show(Obj(members)) + rest) == Some((Obj(members), rest))
  {
    hide ReadString, NumberAhead, ParseMembers, Show, Escape;
    var text := "{" + ShowMembers(members) + "}" + rest;
    var inner := ShowMembers(members) + "}" + rest;
    assert Show(Obj(members)) + rest == text by { ShowObj(members); }
    NothingToSkip(text);
    assert text[1..] == inner;
    if members == [] { assert inner == "}" + rest && inner[1..] == rest; }
    NothingToSkip(inner);
  }

  lemma LastItem(text: string, item: Value, rest: string)
    requires ParseValue(text) == Some((item, "]" + rest))
    ensures ParseItems(text) == Some(([item], rest))
  {
    hide ParseValue, SkipSpace;
    NothingToSkip("]" + rest);
    assert ("]" + rest)[1..] == rest;
  }

  lemma OneMoreItem(text: string, item: Value, more: string, items: seq<Value>, rest: string)
    requires ParseValue(text) == Some((item, ", " + more)) && ParseItems(more) == Some((items, rest))
    ensures ParseItems(text) == Some(([item] + items, rest))
  {
    hide ParseValue, SkipSpace;
    NothingToSkip(", " + more);
    assert (", " + more)[1..] == " " + more;
    SpaceIsSkipped(more);
  }

  lemma {:induction false} ParseShownItems(items: seq<Value>, rest: string)
    requires items != []
    ensures ParseItems(ShowItems(items) + "]" + rest) == Some((items, rest))
    decreases items
  {
    hide ParseValue, ParseItems, Show;
    var text := ShowItems(items) + "]" + rest;
    if |items| == 1 {
      ParseShown(items[0], "]" + rest);
      assert text == Show(items[0]) + ("]" + rest);
      LastItem(text, items[0], rest);
      assert [items[0]] == items;
    } else {
      var more := ShowItems(items[1..]) + "]" + rest;
      assert text == Show(items[0]) + (", " + more);
      ParseShown(items[0], ", " + more);
      ParseShownItems(items[1..], rest);
      OneMoreItem(text, items[0], more, items[1..], rest);
      assert [items[0]] + items[1..] == items;
    }
  }

  lemma {:induction false} ParseShownMember(member: Member, rest: string)
    requires StartsOutside(rest)
    ensures ParseMember(ShowMember(member) + rest) == Some((member, rest))
    decreases member, 0
  {
    hide ParseValue, Show, ReadString, Escape;
    var text := ShowMember(member) + rest;
    var value := Show(member.value) + rest;
    NothingToSkip(text);
    StringRoundTrip(member.key, ": " + value);
    assert text[1..] == Escape(member.key) + "\"" + (": " + value);
    NothingToSkip(": " + value);
    assert (": " + value)[1..] == " " + value;
    SpaceIsSkipped(value);
    ParseShown(member.value, rest);
  }

  lemma LastMember(text: string, member: Member, rest: string)
    requires ParseMember(text) == Some((member, "}" + rest))
    ensures ParseMembers(text) == Some(([member], rest))
  {
    hide ParseMember, SkipSpace;
    NothingToSkip("}" + rest);
    assert ("}" + rest)[1..] == rest;
  }

  lemma OneMoreMember(text: string, member: Member, more: string, members: seq<Member>, rest: string)
    requires ParseMember(text) == Some((member, ", " + more)) && ParseMembers(more) == Some((members, rest))
    ensures ParseMembers(text) == Some(([member] + members, rest))
  {
    hide ParseMember, SkipSpace;
    NothingToSkip(", " + more);
    assert (", " + more)[1..] == " " + more;
    SpaceIsSkipped(more);
  }

  lemma {:induction false} ParseShownMembers(members: seq<Member>, rest: string)
    requires members != []
    ensures ParseMembers(ShowMembers(members) + "}" + rest) == Some((members, rest))
    decreases members
  {
    hide ParseMember, ParseMembers, ShowMember;
    var text := ShowMembers(members) + "}" + rest;
    if |members| == 1 {
      ParseShownMember(members[0], "}" + rest);
      assert text == ShowMember(members[0]) + ("}" + rest);
      LastMember(text, members[0], rest);
      assert [members[0]] == members;
    } else {
      var more := ShowMembers(members[1..]) + "}" + rest;
      assert text == ShowMember(members[0]) + (", " + more);
      ParseShownMember(members[0], ", " + more);
      ParseShownMembers(members[1..], rest);
      OneMoreMember(text, members[0], more, members[1..], rest);
      assert [members[0]] + members[1..] == members;
    }
  }

  /** What the printer writes for a value is read back as that value, to the end. */
  lemma ShowRoundTrip(v: Value)
    ensures ParseValue(Show(v)) == Some((v, ""))
  {
    ParseShown(v, "");
    assert Show(v) + "" == Show(v);
  }
}
