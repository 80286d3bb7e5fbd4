/** The JSON text that Go's encoder writes for the model's records, and a decoder for it (RFC 8259, sections 3 to 7,
    without insignificant white space). A char is a Unicode scalar value, so a string stands for valid UTF-8. */
module Json {
  import opened Options
  import opened Texts

  datatype Value = Text(text: string) | Number(number: nat) | Yes | Array(items: Items) | Object(fields: Fields)
  datatype Items = NoItems | Item(head: Value, tail: Items)
  datatype Fields = NoFields | Field(name: string, value: Value, rest: Fields)

  // Strings, section 7

  function HexDigit(d: nat): char
    requires d < 16
  {
    if d < 10 then '0' + d as char else 'a' + (d - 10) as char
  }

  function HexValue(c: char): Option<nat> {
    if '0' <= c <= '9' then Some((c - '0') as nat)
    else if 'a' <= c <= 'f' then Some((c - 'a') as nat + 10)
    else if 'A' <= c <= 'F' then Some((c - 'A') as nat + 10)
    else None
  }

  /** Control characters, the quote and the backslash must be escaped; the encoder also escapes what HTML and JavaScript
      would read. */
  function Escape(c: char): string {
    if c == '"' then ['\\', '"']
    else if c == '\\' then ['\\', '\\']
    else if c == 8 as char then ['\\', 'b']
    else if c == 12 as char then ['\\', 'f']
    else if c == '\n' then ['\\', 'n']
    else if c == '\r' then ['\\', 'r']
    else if c == '\t' then ['\\', 't']
    else if c < ' ' || c == '<' || c == '>' || c == '&' then
      ['\\', 'u', '0', '0', HexDigit(c as nat / 16), HexDigit(c as nat % 16)]
    else if c == 0x2028 as char || c == 0x2029 as char then ['\\', 'u', '2', '0', '2', HexDigit(c as nat % 16)]
    else [c]
  }

  function EscapeAll(s: string): string {
    if s == "" then "" else Escape(s[0]) + EscapeAll(s[1..])
  }

  /** The character an escape sequence stands for; a lone surrogate stands for none. */
  function ReadEscape(s: string): (r: Option<Read<char>>)
    ensures r.Some? ==> |r.value.rest| < |s|
  {
    if s == "" then None
    else if s[0] == '"' || s[0] == '\\' || s[0] == '/' then Some(Read(s[0], s[1..]))
    else if s[0] == 'b' then Some(Read(8 as char, s[1..]))
    else if s[0] == 'f' then Some(Read(12 as char, s[1..]))
    else if s[0] == 'n' then Some(Read('\n', s[1..]))
    else if s[0] == 'r' then Some(Read('\r', s[1..]))
    else if s[0] == 't' then Some(Read('\t', s[1..]))
    else if s[0] == 'u' && |s| >= 5 then
      var a, b, c, d := HexValue(s[1]), HexValue(s[2]), HexValue(s[3]), HexValue(s[4]);
      if a.None? || b.None? || c.None? || d.None? then None
      else
        var code := ((a.value * 16 + b.value) * 16 + c.value) * 16 + d.value;
        if code < 0xD800 || 0xE000 <= code < 0x10000 then Some(Read(code as char, s[5..])) else None
    else None
  }

  /** The rest of a string, after its opening quote. */
  function ReadText(s: string): (r: Option<Read<string>>)
    ensures r.Some? ==> |r.value.rest| < |s|
    decreases |s|
  {
    if s == "" || s[0] < ' ' then None
    else if s[0] == '"' then Some(Read("", s[1..]))
    else
      var c := if s[0] == '\\' then ReadEscape(s[1..]) else Some(Read(s[0], s[1..]));
      if c.None? then None
      else
        var more := ReadText(c.value.rest);
        if more.None? then None else Some(Read([c.value.value] + more.value.value, more.value.rest))
  }

  lemma HexReads(d: nat)
    requires d < 16
    ensures HexValue(HexDigit(d)) == Some(d)
  {
  }

  lemma LongEscapeReads(c: char, rest: string)
    requires |Escape(c)| == 6
    ensures ReadEscape(Escape(c)[1..] + rest) == Some(Read(c, rest))
  {
    HexReads(c as nat % 16);
    if c < '~' {
      HexReads(c as nat / 16);
    }
    assert (Escape(c)[1..] + rest)[5..] == rest;
  }

  lemma EscapeReads(c: char, rest: string)
    requires Escape(c) != [c]
    ensures Escape(c)[0] == '\\' && ReadEscape(Escape(c)[1..] + rest) == Some(Read(c, rest))
  {
    if |Escape(c)| == 6 {
      LongEscapeReads(c, rest);
    } else {
      assert (Escape(c)[1..] + rest)[1..] == rest;
    }
  }

  /** A string that goes on with character c, written as `text`. */
  lemma CharReads(c: char, text: string, more: string)
    requires text == Escape(c)
    ensures ReadText(text + more) == if ReadText(more).None? then None
            else Some(Read([c] + ReadText(more).value.value, ReadText(more).value.rest))
  {
    if text != [c] {
      EscapeReads(c, more);
      assert (text + more)[1..] == text[1..] + more;
    } else {
      assert (text + more)[1..] == more;
    }
  }

  lemma {:induction false} TextReads(s: string, rest: string)
    ensures ReadText(EscapeAll(s) + ("\"" + rest)) == Some(Read(s, rest))
  {
    if s == "" {
      assert EscapeAll(s) + ("\"" + rest) == "\"" + rest;
    } else {
      var tail := "\"" + rest;
      TextReads(s[1..], rest);
      CharReads(s[0], Escape(s[0]), EscapeAll(s[1..]) + tail);
      hide ReadText;
      hide Escape;
      Joins(Escape(s[0]), EscapeAll(s[1..]), tail);
      assert s == [s[0]] + s[1..];
    }
  }

  // Values

  function Quote(s: string): string { "\"" + EscapeAll(s) + "\"" }

  function Print(v: Value): string
    decreases v, 0
  {
    match v
    case Text(s) => Quote(s)
    case Number(n) => PrintNat(n)
    case Yes => "true"
    case Array(items) => "[" + PrintItems(items)
    case Object(fields) => "{" + PrintFields(fields)
  }

  /** The items and the closing bracket. */
  function PrintItems(items: Items): string
    decreases items, 0
  {
    if items.NoItems? then "]" else Print(items.head) + PrintTail(items.tail)
  }

  function PrintTail(items: Items): string
    decreases items, 1
  {
    if items.NoItems? then "]" else "," + PrintItems(items)
  }

  /** The fields and the closing brace. */
  function PrintFields(fields: Fields): string
    decreases fields, 0
  {
    if fields.NoFields? then "}" else Quote(fields.name) + (":" + (Print(fields.value) + PrintRest(fields.rest)))
  }

  function PrintRest(fields: Fields): string
    decreases fields, 1
  {
    if fields.NoFields? then "}" else "," + PrintFields(fields)
  }

  function Parse(s: string): (r: Option<Read<Value>>)
    ensures r.Some? ==> |r.value.rest| < |s|
    decreases |s|, 0
  {
    if s == "" then None
    else if s[0] == '"' then
      var t := ReadText(s[1..]);
      if t.None? then None else Some(Read(Text(t.value.value), t.value.rest))
    else if IsDigit(s[0]) then
      var n := ReadDigits((s[0] - '0') as nat, s[1..]);
      Some(Read(Number(n.value), n.rest))
    else if |s| >= 4 && s[..4] == "true" then Some(Read(Yes, s[4..]))
    else if s[0] == '[' then
      var items := if |s| >= 2 && s[1] == ']' then Some(Read(NoItems, s[2..])) else ParseItems(s[1..]);
      if items.None? then None else Some(Read(Array(items.value.value), items.value.rest))
    else if s[0] == '{' then
      var fields := if |s| >= 2 && s[1] == '}' then Some(Read(NoFields, s[2..])) else ParseFields(s[1..]);
      if fields.None? then None else Some(Read(Object(fields.value.value), fields.value.rest))
    else None
  }

  function ParseItems(s: string): (r: Option<Read<Items>>)
    ensures r.Some? ==> |r.value.rest| < |s|
    decreases |s|, 1
  {
    var v := Parse(s);
    if v.None? || v.value.rest == "" then None
    else
      var after := v.value.rest;
      if after[0] == ']' then Some(Read(Item(v.value.value, NoItems), after[1..]))
      else if after[0] == ',' then
        var more := ParseItems(after[1..]);
        if more.None? then None else Some(Read(Item(v.value.value, more.value.value), more.value.rest))
      else None
  }

  function ParseFields(s: string): (r: Option<Read<Fields>>)
    ensures r.Some? ==> |r.value.rest| < |s|
    decreases |s|, 1
  {
    var name := if "\"" <= s then ReadText(s[1..]) else None;
    var v := if name.Some? && ":" <= name.value.rest then Parse(name.value.rest[1..]) else None;
    if v.None? || v.value.rest == "" then None
    else
      var after := v.value.rest;
      if after[0] == '}' then Some(Read(Field(name.value.value, v.value.value, NoFields), after[1..]))
      else if after[0] == ',' then
        var more := ParseFields(after[1..]);
        if more.None? then None
          else Some(Read(Field(name.value.value, v.value.value, more.value.value), more.value.rest))
      else None
  }

  /** A number (section 6, unsigned integers only) ends where no digit follows. */
  predicate Ends(rest: string) { rest == "" || !IsDigit(rest[0]) }

  lemma {:induction false} NumberParses(n: nat, rest: string)
    requires Ends(rest)
    ensures Parse(PrintNat(n) + rest) == Some(Read(Number(n), rest))
  {
    DigitsRead(0, n, rest);
    PushedOnNothing(n);
    PrintNatStarts(n);
    var s := PrintNat(n) + rest;
    assert ReadDigits(0, s) == ReadDigits((s[0] - '0') as nat, s[1..]);
  }

  lemma QuoteReads(s: string, rest: string)
    ensures Quote(s) + rest != "" && (Quote(s) + rest)[0] == '"' &&
            ReadText((Quote(s) + rest)[1..]) == Some(Read(s, rest))
  {
    TextReads(s, rest);
    hide ReadText;
    hide EscapeAll;
    assert (Quote(s) + rest)[1..] == EscapeAll(s) + ("\"" + rest);
  }

  /** A printed value does not begin like the end of a list. */
  lemma PrintStarts(v: Value)
    ensures Print(v) != "" && Print(v)[0] != ']' && Print(v)[0] != '}'
  {
    if v.Number? {
      PrintNatStarts(v.number);
    }
  }

  lemma BracketParses(s: string)
    requires |s| >= 2 && s[0] == '[' && s[1] != ']' && ParseItems(s[1..]).Some?
    ensures var items := ParseItems(s[1..]).value; Parse(s) == Some(Read(Array(items.value), items.rest))
  {
  }

  lemma BraceParses(s: string)
    requires |s| >= 2 && s[0] == '{' && s[1] != '}' && ParseFields(s[1..]).Some?
    ensures var fields := ParseFields(s[1..]).value; Parse(s) == Some(Read(Object(fields.value), fields.rest))
  {
  }

  lemma EmptyParses(rest: string)
    ensures Parse("[]" + rest) == Some(Read(Array(NoItems), rest)) &&
            Parse("{}" + rest) == Some(Read(Object(NoFields), rest))
  {
    assert ("[]" + rest)[1..] == "]" + rest && ("[]" + rest)[2..] == rest;
    assert ("{}" + rest)[1..] == "}" + rest && ("{}" + rest)[2..] == rest;
  }

  lemma PlainParses(s: string, rest: string)
    ensures Parse(Quote(s) + rest) == Some(Read(Text(s), rest)) && Parse("true" + rest) == Some(Read(Yes, rest))
  {
    QuoteReads(s, rest);
    assert ("true" + rest)[..4] == "true" && ("true" + rest)[4..] == rest;
  }

  lemma ItemParses(v: Value, text: string, after: string)
    requires after != "" && Parse(text) == Some(Read(v, after))
    ensures after[0] == ']' ==> ParseItems(text) == Some(Read(Item(v, NoItems), after[1..]))
    ensures after[0] == ',' && ParseItems(after[1..]).Some? ==>
              var more := ParseItems(after[1..]).value; ParseItems(text) == Some(Read(Item(v, more.value), more.rest))
  {
  }

  lemma FieldParses(name: string, v: Value, text: string, after: string)
    requires after != "" && Parse(text) == Some(Read(v, after))
    ensures var s := Quote(name) + (":" + text);
            (after[0] == '}' ==> ParseFields(s) == Some(Read(Field(name, v, NoFields), after[1..]))) &&
            (after[0] == ',' && ParseFields(after[1..]).Some? ==>
               var more := ParseFields(after[1..]).value;
                 ParseFields(s) == Some(Read(Field(name, v, more.value), more.rest)))
  {
    QuoteReads(name, ":" + text);
    assert (":" + text)[1..] == text;
  }

  lemma {:induction false} PrintParses(v: Value, rest: string)
    requires Ends(rest)
    ensures Parse(Print(v) + rest) == Some(Read(v, rest))
    decreases v
  {
    match v
    case Text(t) => PlainParses(t, rest);
    case Number(n) => NumberParses(n, rest);
    case Yes => PlainParses("", rest);
    case Array(items) => ArrayPrintParses(items, rest);
    case Object(fields) => ObjectPrintParses(fields, rest);
  }

  lemma {:induction false} ArrayPrintParses(items: Items, rest: string)
    ensures Parse(Print(Array(items)) + rest) == Some(Read(Array(items), rest))
    decreases items, 1
  {
    if items.Item? {
      ItemsParse(items, rest);
      PrintStarts(items.head);
      Drops('[', PrintItems(items) + rest);
      Joins("[", PrintItems(items), rest);
      BracketParses(Print(Array(items)) + rest);
    } else {
      EmptyParses(rest);
      assert Print(Array(items)) == "[]";
    }
  }

  lemma {:induction false} ObjectPrintParses(fields: Fields, rest: string)
    ensures Parse(Print(Object(fields)) + rest) == Some(Read(Object(fields), rest))
    decreases fields, 1
  {
    if fields.Field? {
      FieldsParse(fields, rest);
      Drops('{', PrintFields(fields) + rest);
      Joins("{", PrintFields(fields), rest);
      BraceParses(Print(Object(fields)) + rest);
    } else {
      EmptyParses(rest);
      assert Print(Object(fields)) == "{}";
    }
  }

  lemma JoinsFour(a: string, b: string, c: string, d: string, rest: string)
    ensures a + (b + (c + d)) + rest == a + (b + (c + (d + rest)))
  {
  }

  lemma {:induction false} ItemsParse(items: Items, rest: string)
    requires items.Item?
    ensures ParseItems(PrintItems(items) + rest) == Some(Read(items, rest))
    decreases items, 0
  {
    var after := PrintTail(items.tail) + rest;
    PrintParses(items.head, after);
    TailParses(items.tail, rest);
    Joins(Print(items.head), PrintTail(items.tail), rest);
    ItemParses(items.head, Print(items.head) + after, after);
  }

  lemma {:induction false} TailParses(items: Items, rest: string)
    ensures var after := PrintTail(items) + rest;
            if items.NoItems? then after != "" && after[0] == ']' && after[1..] == rest
            else after != "" && after[0] == ',' && ParseItems(after[1..]) == Some(Read(items, rest))
    decreases items, 1
  {
    if items.Item? {
      ItemsParse(items, rest);
      Joins(",", PrintItems(items), rest);
      Drops(',', PrintItems(items) + rest);
    }
  }

  lemma {:induction false} FieldsParse(fields: Fields, rest: string)
    requires fields.Field?
    ensures ParseFields(PrintFields(fields) + rest) == Some(Read(fields, rest))
    decreases fields, 0
  {
    var after := PrintRest(fields.rest) + rest;
    PrintParses(fields.value, after);
    RestParses(fields.rest, rest);
    JoinsFour(Quote(fields.name), ":", Print(fields.value), PrintRest(fields.rest), rest);
    FieldParses(fields.name, fields.value, Print(fields.value) + after, after);
  }

  lemma {:induction false} RestParses(fields: Fields, rest: string)
    ensures var after := PrintRest(fields) + rest;
            if fields.NoFields? then after != "" && after[0] == '}' && after[1..] == rest
            else after != "" && after[0] == ',' && ParseFields(after[1..]) == Some(Read(fields, rest))
    decreases fields, 1
  {
    if fields.Field? {
      FieldsParse(fields, rest);
      Joins(",", PrintFields(fields), rest);
      Drops(',', PrintFields(fields) + rest);
    }
  }

  // What the encoder writes

  /** The characters that are not written as they are. */
  lemma EscapesAre()
    ensures Escape('"') == "\\\"" && Escape('\\') == "\\\\" && Escape('\n') == "\\n" && Escape('\r') == "\\r" &&
            Escape('\t') == "\\t" && Escape('\U{08}') == "\\b" && Escape('\U{0c}') == "\\f"
    ensures Escape('<') == "\\u003c" && Escape('>') == "\\u003e" && Escape('&') == "\\u0026" &&
            Escape('\U{2028}') == "\\u2028" && Escape('\U{2029}') == "\\u2029" && Escape('\U{1f}') == "\\u001f"
    ensures forall c :: ' ' <= c && c !in "\"\\<>&\U{2028}\U{2029}" ==> Escape(c) == [c]
  {
  }
}
