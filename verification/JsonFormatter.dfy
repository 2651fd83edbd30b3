/** The record formatter in JSON mode. */
module JsonFormatter {
  import opened Decimal
  import opened Json
  import opened Options

  /** The fields of a log record that the formatter prints, the thread and the arguments as their text. */
  datatype Record = Record(
    logLevel: int,
    timestampMs: int,
    file: string,
    line: int,
    functionName: string,
    format: string,
    argNames: string,
    args: seq<string>,
    threadId: string)

  function Strings(texts: seq<string>): (values: seq<Value>)
    ensures |values| == |texts| && forall i | 0 <= i < |texts| :: values[i] == Str(texts[i])
  {
    if texts == [] then [] else Strings(texts[..|texts| - 1]) + [Str(texts[|texts| - 1])]
  }

  /** The members ahead of the argument list. */
  function Leading(r: Record): seq<Member>
  {
    [ Member("log_level", Num(r.logLevel)),
      Member("timestamp_ms", Num(r.timestampMs)),
      Member("file", Str(r.file)),
      Member("line", Num(r.line)),
      Member("function", Str(r.functionName)),
      Member("format", Str(r.format)),
      Member("arg_names", Str(r.argNames)) ]
  }

  function ArgsMember(r: Record): Member
  {
    Member("args_array", Arr(Strings(r.args)))
  }

  function ThreadMember(r: Record): Member
  {
    Member("thread_id", Str(r.threadId))
  }

  /** The object a record is printed as. */
  function Meaning(r: Record): Value
  {
    Obj(Leading(r) + [ArgsMember(r), ThreadMember(r)])
  }

  /** The value of the first member with a name. */
  function Get(members: seq<Member>, name: string): Option<Value>
  {
    if members == [] then None else if members[0].key == name then Some(members[0].value) else Get(members[1..], name)
  }

  /** Every member of an object carries the field it is named after. */
  ghost predicate Describes(value: Value, r: Record)
  {
    && value.Obj?
    && Get(value.members, "log_level") == Some(Num(r.logLevel))
    && Get(value.members, "timestamp_ms") == Some(Num(r.timestampMs))
    && Get(value.members, "file") == Some(Str(r.file))
    && Get(value.members, "line") == Some(Num(r.line))
    && Get(value.members, "function") == Some(Str(r.functionName))
    && Get(value.members, "format") == Some(Str(r.format))
    && Get(value.members, "arg_names") == Some(Str(r.argNames))
    && Get(value.members, "args_array") == Some(Arr(seq(|r.args|, i requires 0 <= i < |r.args| => Str(r.args[i]))))
    && Get(value.members, "thread_id") == Some(Str(r.threadId))
  }

  lemma GetAt(members: seq<Member>, i: nat)
    requires i < |members| && forall k | 0 <= k < i :: members[k].key != members[i].key
    ensures Get(members, members[i].key) == Some(members[i].value)
  {
    if i > 0 {
      assert members[1..][i - 1] == members[i];
      GetAt(members[1..], i - 1);
    }
  }

  lemma MeaningDescribes(r: Record)
    ensures Describes(Meaning(r), r)
  {
    hide Get, Strings;
    var members := Meaning(r).members;
    assert members == Leading(r) + [ArgsMember(r), ThreadMember(r)];
    MeaningKeys(r);
    forall i | 0 <= i < 9 ensures Get(members, members[i].key) == Some(members[i].value) { GetAt(members, i); }
    assert Strings(r.args) == seq(|r.args|, i requires 0 <= i < |r.args| => Str(r.args[i]));
    assert members[0] == Leading(r)[0] && members[1] == Leading(r)[1] && members[2] == Leading(r)[2];
    assert members[3] == Leading(r)[3] && members[4] == Leading(r)[4] && members[5] == Leading(r)[5];
    assert members[6] == Leading(r)[6] && members[7] == ArgsMember(r) && members[8] == ThreadMember(r);
  }

  const KEYS := ["log_level", "timestamp_ms", "file", "line", "function", "format", "arg_names", "args_array", "thread_id"]

  lemma MeaningKeys(r: Record)
    ensures |Meaning(r).members| == 9
    ensures forall i | 0 <= i < 9 :: Meaning(r).members[i].key == KEYS[i]
    ensures forall i, k | 0 <= k < i < 9 :: Meaning(r).members[k].key != Meaning(r).members[i].key
  {
    hide Strings;
    assert forall i, k | 0 <= k < i < 9 :: KEYS[k] != KEYS[i] by { KeysDiffer(); }
  }

  lemma KeysDiffer()
    ensures forall i, k | 0 <= k < i < 9 :: KEYS[k] != KEYS[i]
  {
    assert forall i | 0 <= i < 9 :: |KEYS[i]| == [9, 12, 4, 4, 8, 6, 9, 10, 9][i];
    assert KEYS[2][0] != KEYS[3][0] && KEYS[0][0] != KEYS[6][0] && KEYS[0][0] != KEYS[8][0] && KEYS[6][0] != KEYS[8][0];
  }

  /** The object determines the record. */
  lemma MeaningIsInjective(a: Record, b: Record)
    requires Meaning(a) == Meaning(b)
    ensures a == b
  {
    var ms, ns := Meaning(a).members, Meaning(b).members;
    assert forall i | 0 <= i < 9 :: ms[i] == ns[i];
    assert ms[0].value == ns[0].value && ms[1].value == ns[1].value && ms[2].value == ns[2].value;
    assert ms[3].value == ns[3].value && ms[4].value == ns[4].value && ms[5].value == ns[5].value;
    assert ms[6].value == ns[6].value && ms[7].value == ns[7].value && ms[8].value == ns[8].value;
    SameStrings(a.args, b.args);
  }

  lemma SameStrings(a: seq<string>, b: seq<string>)
    requires Strings(a) == Strings(b)
    ensures a == b
  {
    forall i | 0 <= i < |a| ensures a[i] == b[i] {
      assert Strings(a)[i] == Strings(b)[i];
    }
  }

  // ------------------------------------------------------------- the printed text

  /** Text that escaping leaves alone. */
  predicate Plain(s: string)
  {
    forall i | 0 <= i < |s| :: s[i] >= ' ' && s[i] != '"' && s[i] != '\\'
  }

  lemma {:induction false} PlainIsItself(s: string)
    requires Plain(s)
    ensures Escape(s) == s
  {
    hide EscapeChar;
    if s != "" {
      PlainIsItself(s[..|s| - 1]);
      PlainChar(s[|s| - 1]);
    }
  }

  lemma PlainChar(c: char)
    requires Plain([c])
    ensures EscapeChar(c) == [c]
  {
    assert [c][0] == c;
  }

  /** A member's name and colon, as the formatter's literals spell them. */
  function Key(name: string): string
  {
    "\"" + name + "\": "
  }

  /** Members that more members follow. */
  function Joined(members: seq<Member>): string
  {
    if members == [] then ""
    else Joined(members[..|members| - 1]) + ShowMember(members[|members| - 1]) + ", "
  }

  lemma JoinedAppend(members: seq<Member>, m: Member)
    requires Plain(m.key)
    ensures Joined(members + [m]) == Joined(members) + Key(m.key) + Show(m.value) + ", "
  {
    PlainIsItself(m.key);
    assert (members + [m])[..|members|] == members;
    assert ShowMember(m) == Key(m.key) + Show(m.value);
  }

  lemma {:induction false} ShowMembersOfJoined(members: seq<Member>, last: Member)
    requires Plain(last.key)
    ensures ShowMembers(members + [last]) == Joined(members) + Key(last.key) + Show(last.value)
  {
    hide Show, Escape;
    PlainIsItself(last.key);
    assert ShowMember(last) == Key(last.key) + Show(last.value);
    if members == [] {
      assert members + [last] == [last];
    } else {
      ShowMembersFront(members, last);
    }
  }

  lemma {:induction false} ShowMembersFront(members: seq<Member>, last: Member)
    ensures ShowMembers(members + [last]) == Joined(members) + ShowMember(last)
  {
    hide ShowMember;
    if members == [] {
      assert members + [last] == [last];
    } else {
      assert (members + [last])[1..] == members[1..] + [last];
      ShowMembersFront(members[1..], last);
      JoinedFront(members);
    }
  }

  lemma {:induction false} JoinedFront(members: seq<Member>)
    requires members != []
    ensures Joined(members) == ShowMember(members[0]) + ", " + Joined(members[1..])
  {
    hide ShowMember;
    var n := |members| - 1;
    if n > 0 {
      JoinedFront(members[..n]);
      assert members[..n][1..] == members[1..][..n - 1];
    }
  }

  lemma {:induction false} ShowItemsAppend(items: seq<Value>, item: Value)
    ensures ShowItems(items + [item]) == ShowItems(items) + (if items == [] then "" else ", ") + Show(item)
  {
    hide Show;
    if |items| == 0 {
      assert items + [item] == [item];
    } else {
      assert (items + [item])[1..] == items[1..] + [item];
      ShowItemsAppend(items[1..], item);
    }
  }

  // --------------------------------------------------------------- the formatter

  /** The bracketed argument list. */
  method FormatArgs(args: seq<string>) returns (text: string)
    ensures text == Show(Arr(Strings(args)))
  {
    hide Escape;
    text := "";
    for i := 0 to |args|
      invariant text == ShowItems(Strings(args[..i]))
    {
      assert args[..i + 1][..i] == args[..i];
      ShowItemsAppend(Strings(args[..i]), Str(args[i]));
      if i > 0 {
        text := text + ", ";
      }
      var escaped := EscapeJsonString(args[i]);
      text := text + "\"" + escaped + "\"";
    }
    assert args[..|args|] == args;
    text := "[" + text + "]";
  }

  /** One string member and its comma. */
  method FormatString(text: string, name: string, value: string, ghost members: seq<Member>) returns (text': string)
    requires Plain(name) && text == "{" + Joined(members)
    ensures text' == "{" + Joined(members + [Member(name, Str(value))])
  {
    hide Escape, Joined;
    var escaped := EscapeJsonString(value);
    text' := text + Key(name) + "\"" + escaped + "\", ";
    JoinedAppend(members, Member(name, Str(value)));
  }

  /** One number member and its comma. */
  method FormatNumber(text: string, name: string, value: int, ghost members: seq<Member>) returns (text': string)
    requires Plain(name) && text == "{" + Joined(members)
    ensures text' == "{" + Joined(members + [Member(name, Num(value))])
  {
    hide Joined;
    text' := text + Key(name) + Text(value) + ", ";
    JoinedAppend(members, Member(name, Num(value)));
  }

  /** The members ahead of the argument list, each with its comma. */
  method FormatLeading(r: Record) returns (text: string)
    ensures text == "{" + Joined(Leading(r))
  {
    hide Joined;
    text := "{";
    NothingJoined();
    ghost var done: seq<Member> := [];
    text := FormatNumber(text, "log_level", r.logLevel, done);
    done := done + [Member("log_level", Num(r.logLevel))];
    text := FormatNumber(text, "timestamp_ms", r.timestampMs, done);
    done := done + [Member("timestamp_ms", Num(r.timestampMs))];
    text := FormatString(text, "file", r.file, done);
    done := done + [Member("file", Str(r.file))];
    text := FormatNumber(text, "line", r.line, done);
    done := done + [Member("line", Num(r.line))];
    text := FormatString(text, "function", r.functionName, done);
    done := done + [Member("function", Str(r.functionName))];
    text := FormatString(text, "format", r.format, done);
    done := done + [Member("format", Str(r.format))];
    text := FormatString(text, "arg_names", r.argNames, done);
    assert Leading(r) == done + [Member("arg_names", Str(r.argNames))];
  }

  lemma NothingJoined()
    ensures Joined([]) == ""
  {
  }

  /** The members up to the argument list, each with its comma. */
  method FormatThroughArgs(r: Record) returns (text: string)
    ensures text == "{" + Joined(Leading(r) + [ArgsMember(r)])
  {
    hide Joined, Leading, Show, Strings;
    text := FormatLeading(r);
    var args := FormatArgs(r.args);
    text := text + Key("args_array") + args + ", ";
    JoinedAppend(Leading(r), ArgsMember(r));
  }

  /** The text is a JSON object, and reading it gives every field of the record under its name. */
  method FormatAsJson(r: Record) returns (text: string)
    ensures text == Show(Meaning(r))
    ensures ParseValue(text) == Some((Meaning(r), "")) && Describes(Meaning(r), r)
  {
    MeaningDescribes(r);
    hide Describes, Joined, ParseValue, Leading, Meaning, Show, ReadString, Quotable, Escape;
    text := FormatThroughArgs(r);
    var thread := EscapeJsonString(r.threadId);
    text := text + Key("thread_id") + "\"" + thread + "\"" + "}";
    LastMember(r, text);
    ShowRoundTrip(Meaning(r));
  }

  lemma LastMember(r: Record, text: string)
    requires text == "{" + Joined(Leading(r) + [ArgsMember(r)]) + Key("thread_id") + "\"" + Escape(r.threadId) + "\"" + "}"
    ensures text == Show(Meaning(r))
  {
    hide Joined, Leading, Show, Escape;
    var head, key := Joined(Leading(r) + [ArgsMember(r)]), Key(ThreadMember(r).key);
    ShowStr(r.threadId);
    assert text == "{" + (head + key + Show(Str(r.threadId))) + "}";
    ShowMembersOfJoined(Leading(r) + [ArgsMember(r)], ThreadMember(r));
    MeaningInParts(r);
    ShowObj(Leading(r) + [ArgsMember(r)] + [ThreadMember(r)]);
  }

  lemma MeaningInParts(r: Record)
    ensures Meaning(r) == Obj(Leading(r) + [ArgsMember(r)] + [ThreadMember(r)])
  {
    assert Leading(r) + [ArgsMember(r), ThreadMember(r)] == Leading(r) + [ArgsMember(r)] + [ThreadMember(r)];
  }

  lemma ShowStr(s: string)
    ensures Show(Str(s)) == "\"" + Escape(s) + "\""
  {
  }

  /** Two records with the same text are the same record. */
  lemma TextDeterminesRecord(a: Record, b: Record)
    requires Show(Meaning(a)) == Show(Meaning(b))
    ensures a == b
  {
    hide Show, ParseValue, Meaning;
    ShowRoundTrip(Meaning(a));
    ShowRoundTrip(Meaning(b));
    MeaningIsInjective(a, b);
  }
}
