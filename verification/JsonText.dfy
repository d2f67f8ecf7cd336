// JSON values and their text (RFC 8259, sections 3 to 7), as JSON.stringify writes it, and a reader of
// such text that gives every value back.
module JsonText {
  import opened Sequences

  /** A number is kept as the numeral that JSON.stringify writes for it; object members keep their order. */
  datatype Json =
    | Null | Boolean(value: bool) | Number(numeral: string) | Text(text: string)
    | Array(items: Items) | Object(members: Members)
  datatype Items = NoItems | Item(head: Json, rest: Items)
  datatype Members = NoMembers | Member(key: string, value: Json, rest: Members)

  predicate NumeralChar(c: char) { '0' <= c <= '9' || c == '-' || c == '+' || c == '.' || c == 'e' }

  predicate IsNumeral(s: string) {
    s != "" && ('0' <= s[0] <= '9' || s[0] == '-') && forall i :: 0 <= i < |s| ==> NumeralChar(s[i])
  }

  /** Numbers are numerals, at every depth. */
  predicate Numeric(v: Json) {
    match v
    case Number(n) => IsNumeral(n)
    case Array(items) => NumericItems(items)
    case Object(members) => NumericMembers(members)
    case _ => true
  }
  predicate NumericItems(s: Items) { s.Item? ==> Numeric(s.head) && NumericItems(s.rest) }
  predicate NumericMembers(m: Members) { m.Member? ==> Numeric(m.value) && NumericMembers(m.rest) }

  // ---- Strings ---------------------------------------------------------------------------------

  function HexDigit(n: int): (c: char)
    requires 0 <= n < 16
    ensures NumeralChar(c) || 'a' <= c <= 'f'
  {
    if n < 10 then '0' + n as char else 'a' + (n - 10) as char
  }

  /** One character inside a string literal. */
  function Escaped(c: char): (e: string)
    ensures e != "" && e[0] != '"'
  {
    if c == '"' then "\\\""
    else if c == '\\' then "\\\\"
    else if c == '\U{08}' then "\\b"
    else if c == '\t' then "\\t"
    else if c == '\n' then "\\n"
    else if c == '\U{0C}' then "\\f"
    else if c == '\r' then "\\r"
    else if c < ' ' then "\\u00" + [HexDigit(c as int / 16), HexDigit(c as int % 16)]
    else [c]
  }

  function EscapedAll(s: string): string { if s == "" then "" else Escaped(s[0]) + EscapedAll(s[1..]) }

  function Quoted(s: string): string { "\"" + EscapedAll(s) + "\"" }

  // ---- The text of a value ---------------------------------------------------------------------

  function Print(v: Json): string {
    match v
    case Null => "null"
    case Boolean(b) => if b then "true" else "false"
    case Number(n) => n
    case Text(s) => Quoted(s)
    case Array(items) => "[" + PrintItems(items) + "]"
    case Object(members) => "{" + PrintMembers(members) + "}"
  }

  function PrintItems(s: Items): string {
    match s
    case NoItems => ""
    case Item(v, rest) => Print(v) + if rest.NoItems? then "" else "," + PrintItems(rest)
  }

  function PrintMembers(m: Members): string {
    match m
    case NoMembers => ""
    case Member(k, v, rest) => Quoted(k) + ":" + Print(v) + if rest.NoMembers? then "" else "," + PrintMembers(rest)
  }

  // ---- Reading a text --------------------------------------------------------------------------

  /** What a reader makes of the front of a text, and what is left of it. */
  datatype Parsed<+T> = Parsed(value: T, rest: string) | Malformed

  function HexValue(c: char): int {
    if '0' <= c <= '9' then (c - '0') as int
    else if 'a' <= c <= 'f' then (c - 'a') as int + 10
    else if 'A' <= c <= 'F' then (c - 'A') as int + 10
    else -1
  }

  /** The two-character escapes of section 7 of RFC 8259. */
  const ESCAPES: map<char, char> := map[
    '"' := '\U{22}', '\\' := '\U{5C}', '/' := '\U{2F}', 'b' := '\U{08}', 'f' := '\U{0C}', 'n' := '\U{0A}', 'r' := '\U{0D}', 't' := '\U{09}']

  /** Four hexadecimal digits; surrogates are no characters here. */
  function ReadHex(s: string): Parsed<char> {
    if |s| < 4 || exists i :: 0 <= i < 4 && HexValue(s[i]) < 0 then Malformed
    else
      var code := ((HexValue(s[0]) * 16 + HexValue(s[1])) * 16 + HexValue(s[2])) * 16 + HexValue(s[3]);
      if 0 <= code < 0xD800 then Parsed(code as char, s[4..]) else Malformed
  }

  /** One character inside a string literal. */
  function ReadChar(s: string): (p: Parsed<char>)
    ensures p.Parsed? ==> |p.rest| < |s|
  {
    if s == "" || s[0] < ' ' || s[0] == '"' then Malformed
    else if s[0] != '\\' then Parsed(s[0], s[1..])
    else if |s| > 1 && s[1] in ESCAPES then Parsed(ESCAPES[s[1]], s[2..])
    else if |s| > 1 && s[1] == 'u' then ReadHex(s[2..])
    else Malformed
  }

  /** A string literal after its opening quote. */
  function ReadText(s: string): (p: Parsed<string>)
    ensures p.Parsed? ==> |p.rest| < |s|
    decreases |s|
  {
    if s != "" && s[0] == '"' then Parsed("", s[1..])
    else
      match ReadChar(s)
      case Malformed => Malformed
      case Parsed(c, rest) =>
        match ReadText(rest)
        case Malformed => Malformed
        case Parsed(text, after) => Parsed([c] + text, after)
  }

  function NumeralRun(s: string): (n: nat)
    ensures n <= |s|
  {
    if s == "" || !NumeralChar(s[0]) then 0 else 1 + NumeralRun(s[1..])
  }

  predicate StartsWith(s: string, prefix: string) { |prefix| <= |s| && s[..|prefix|] == prefix }

  /** The value at the front of a text without insignificant white space. */
  function ReadValue(s: string): (p: Parsed<Json>)
    ensures p.Parsed? ==> |p.rest| < |s|
    decreases |s|, 0
  {
    if StartsWith(s, "null") then Parsed(Null, s[4..])
    else if StartsWith(s, "true") then Parsed(Boolean(true), s[4..])
    else if StartsWith(s, "false") then Parsed(Boolean(false), s[5..])
    else if StartsWith(s, "\"") then
      match ReadText(s[1..])
      case Malformed => Malformed
      case Parsed(text, rest) => Parsed(Text(text), rest)
    else if StartsWith(s, "[") then
      match (if StartsWith(s[1..], "]") then Parsed(NoItems, s[2..]) else ReadItems(s[1..]))
      case Malformed => Malformed
      case Parsed(items, rest) => Parsed(Array(items), rest)
    else if StartsWith(s, "{") then
      match (if StartsWith(s[1..], "}") then Parsed(NoMembers, s[2..]) else ReadMembers(s[1..]))
      case Malformed => Malformed
      case Parsed(members, rest) => Parsed(Object(members), rest)
    else
      var n := NumeralRun(s);
      if IsNumeral(s[..n]) then Parsed(Number(s[..n]), s[n..]) else Malformed
  }

  /** One element or more, up to the closing bracket. */
  function ReadItems(s: string): (p: Parsed<Items>)
    ensures p.Parsed? ==> |p.rest| < |s|
    decreases |s|, 1
  {
    match ReadValue(s)
    case Malformed => Malformed
    case Parsed(v, rest) =>
      if StartsWith(rest, "]") then Parsed(Item(v, NoItems), rest[1..])
      else if StartsWith(rest, ",") then
        match ReadItems(rest[1..])
        case Malformed => Malformed
        case Parsed(items, after) => Parsed(Item(v, items), after)
      else Malformed
  }

  /** One member or more, up to the closing brace. */
  function ReadMembers(s: string): (p: Parsed<Members>)
    ensures p.Parsed? ==> |p.rest| < |s|
    decreases |s|, 1
  {
    if !StartsWith(s, "\"") then Malformed
    else
      match ReadText(s[1..])
      case Malformed => Malformed
      case Parsed(key, atColon) =>
        if !StartsWith(atColon, ":") then Malformed
        else
          match ReadValue(atColon[1..])
          case Malformed => Malformed
          case Parsed(v, rest) =>
            if StartsWith(rest, "}") then Parsed(Member(key, v, NoMembers), rest[1..])
            else if StartsWith(rest, ",") then
              match ReadMembers(rest[1..])
              case Malformed => Malformed
              case Parsed(members, after) => Parsed(Member(key, v, members), after)
            else Malformed
  }

  /** The whole text. */
  function Read(s: string): Parsed<Json> { if ReadValue(s).Parsed? && ReadValue(s).rest == "" then ReadValue(s) else Malformed }

  // ---- Reading what was printed ----------------------------------------------------------------

  lemma ShortEscapeRead(c: char, d: char, x: string)
    requires c in ESCAPES && ESCAPES[c] == d
    ensures ReadChar(['\\', c] + x) == Parsed(d, x)
  {
    var s := ['\\', c] + x;
    assert s[0] == '\\' && s[1] == c && s[2..] == x;
  }

  lemma ControlRead(c: char, x: string)
    requires c < ' '
    ensures ReadChar("\\u00" + [HexDigit(c as int / 16), HexDigit(c as int % 16)] + x) == Parsed(c, x)
  {
    var h, l := HexDigit(c as int / 16), HexDigit(c as int % 16);
    var s := "\\u00" + [h, l] + x;
    assert s[0] == '\\' && s[1] == 'u' && s[2..] == ['0', '0', h, l] + x && s[2..][4..] == x;
    assert HexValue(h) == c as int / 16 && HexValue(l) == c as int % 16;
  }

  lemma EscapedRead(c: char, x: string)
    ensures ReadChar(Escaped(c) + x) == Parsed(c, x)
  {
    if Escaped(c) == [c] {
      assert ([c] + x)[0] == c && ([c] + x)[1..] == x;
    } else if |Escaped(c)| == 2 {
      ShortEscapeRead(Escaped(c)[1], c, x);
      assert Escaped(c) == ['\\', Escaped(c)[1]];
    } else {
      ControlRead(c, x);
    }
  }

  /** What stands at the front of the rest of a string literal. */
  lemma {:induction false} QuotedFront(s: string, x: string)
    ensures s == "" ==> EscapedAll(s) + "\"" + x == "\"" + x
    ensures s != "" ==> EscapedAll(s) + "\"" + x == Escaped(s[0]) + (EscapedAll(s[1..]) + "\"" + x)
    ensures (EscapedAll(s) + "\"" + x)[0] == '"' <==> s == ""
  {
  }

  lemma {:induction false} TextRead(s: string, x: string)
    ensures ReadText(EscapedAll(s) + "\"" + x) == Parsed(s, x)
  {
    var text := EscapedAll(s) + "\"" + x;
    QuotedFront(s, x);
    if s == "" {
      assert text[1..] == x;
    } else {
      EscapedRead(s[0], EscapedAll(s[1..]) + "\"" + x);
      TextRead(s[1..], x);
      assert s == [s[0]] + s[1..];
    }
  }

  lemma QuotedRead(s: string, x: string)
    ensures StartsWith(Quoted(s) + x, "\"") && ReadText((Quoted(s) + x)[1..]) == Parsed(s, x)
  {
    TextRead(s, x);
    Regroup("\"", EscapedAll(s), "\"", x);
    var text := "\"" + (EscapedAll(s) + "\"" + x);
    assert text[0] == '"' && text[1..] == EscapedAll(s) + "\"" + x;
  }

  /** What may follow a value: nothing, or a character that no numeral contains. */
  predicate Stops(x: string) { x == "" || !NumeralChar(x[0]) }

  lemma {:induction false} RunEnds(m: string, x: string)
    requires (forall i :: 0 <= i < |m| ==> NumeralChar(m[i])) && Stops(x)
    ensures NumeralRun(m + x) == |m|
  {
    if m == "" {
      assert m + x == x;
    } else {
      assert (m + x)[0] == m[0] && (m + x)[1..] == m[1..] + x;
      RunEnds(m[1..], x);
    }
  }

  lemma {:induction false} NumeralRead(m: string, x: string)
    requires IsNumeral(m) && Stops(x)
    ensures ReadValue(m + x) == Parsed(Number(m), x)
  {
    RunEnds(m, x);
    var s := m + x;
    assert s[0] == m[0] && s[..|m|] == m && s[|m|..] == x;
    OnlyNumeral(s);
  }

  /** A text that begins like a numeral begins like nothing else. */
  lemma OnlyNumeral(s: string)
    requires s != "" && ('0' <= s[0] <= '9' || s[0] == '-')
    ensures !StartsWith(s, "null") && !StartsWith(s, "true") && !StartsWith(s, "false") && !StartsWith(s, "\"") && !StartsWith(s, "[") && !StartsWith(s, "{")
  {
    Begins(s, "null");
    Begins(s, "true");
    Begins(s, "false");
    Begins(s, "\"");
    Begins(s, "[");
    Begins(s, "{");
  }

  lemma Begins(s: string, prefix: string)
    requires s != "" && prefix != ""
    ensures s[0] != prefix[0] ==> !StartsWith(s, prefix)
  {
    if StartsWith(s, prefix) { assert s[..|prefix|][0] == s[0]; }
  }

  lemma {:induction false} WordRead(word: string, x: string)
    requires word == "null" || word == "true" || word == "false"
    ensures ReadValue(word + x) == Parsed(if word == "null" then Null else Boolean(word == "true"), x)
  {
    var s := word + x;
    assert s[..|word|] == word && s[|word|..] == x && s[0] == word[0];
    Begins(s, "null");
    Begins(s, "true");
  }

  lemma {:induction false} StringRead(t: string, x: string)
    ensures ReadValue(Quoted(t) + x) == Parsed(Text(t), x)
  {
    var s := Quoted(t) + x;
    QuotedRead(t, x);
    assert s[0] == '"';
    Begins(s, "null");
    Begins(s, "true");
    Begins(s, "false");
  }

  /** The kind of a value shows in its first character. */
  function Head(v: Json): char
    requires Numeric(v)
  {
    match v
    case Null => 'n'
    case Boolean(b) => if b then 't' else 'f'
    case Number(n) => n[0]
    case Text(_) => '"'
    case Array(_) => '['
    case Object(_) => '{'
  }

  lemma {:induction false} PrintHead(v: Json)
    requires Numeric(v)
    ensures Print(v) != "" && Print(v)[0] == Head(v)
  {
  }

  /** What follows an element of an array. */
  function AfterItem(rest: Items, x: string): string { if rest.NoItems? then "]" + x else "," + (PrintItems(rest) + "]" + x) }

  lemma {:induction false} ItemsText(s: Items, x: string)
    requires s.Item?
    ensures PrintItems(s) + "]" + x == Print(s.head) + AfterItem(s.rest, x)
  {
    if s.rest.NoItems? {
      assert PrintItems(s) == Print(s.head);
    } else {
      Regroup(Print(s.head), "," + PrintItems(s.rest), "]", x);
      Regroup(",", PrintItems(s.rest), "]", x);
    }
  }

  lemma {:induction false} ItemsFront(s: Items, x: string)
    requires NumericItems(s)
    ensures s.NoItems? ==> PrintItems(s) + "]" + x == "]" + x
    ensures s.Item? ==> PrintItems(s) + "]" + x == Print(s.head) + AfterItem(s.rest, x)
    ensures (PrintItems(s) + "]" + x)[0] == ']' <==> s.NoItems?
  {
    if s.Item? {
      ItemsText(s, x);
      PrintHead(s.head);
      assert (Print(s.head) + AfterItem(s.rest, x))[0] == Head(s.head);
    }
  }

  function AfterMember(rest: Members, x: string): string {
    if rest.NoMembers? then "}" + x else "," + (PrintMembers(rest) + "}" + x)
  }

  /** A member's value with what follows it. */
  function AfterKey(m: Members, x: string): string
    requires m.Member?
  {
    ":" + (Print(m.value) + AfterMember(m.rest, x))
  }

  lemma {:induction false} MembersText(m: Members, x: string)
    requires m.Member?
    ensures PrintMembers(m) + "}" + x == Quoted(m.key) + AfterKey(m, x)
  {
  }

  lemma {:induction false} MembersFront(m: Members, x: string)
    ensures m.NoMembers? ==> PrintMembers(m) + "}" + x == "}" + x
    ensures m.Member? ==> PrintMembers(m) + "}" + x == Quoted(m.key) + AfterKey(m, x)
    ensures (PrintMembers(m) + "}" + x)[0] == '}' <==> m.NoMembers?
  {
    if m.Member? {
      MembersText(m, x);
      assert (Quoted(m.key) + AfterKey(m, x))[0] == '"';
    }
  }

  /** Two characters decide how a bracket is read. */
  lemma {:induction false} ArrayFront(s: Items, x: string)
    requires NumericItems(s)
    ensures var text := Print(Array(s)) + x;
            && StartsWith(text, "[") && text[0] == '[' && text[1..] == PrintItems(s) + "]" + x
            && (StartsWith(text[1..], "]") <==> s.NoItems?) && (s.NoItems? ==> text[2..] == x)
  {
    var text := Print(Array(s)) + x;
    Regroup("[", PrintItems(s), "]", x);
    assert text[1..] == PrintItems(s) + "]" + x;
    ItemsFront(s, x);
    Begins(text[1..], "]");
  }

  lemma {:induction false} ObjectFront(m: Members, x: string)
    ensures var text := Print(Object(m)) + x;
            && StartsWith(text, "{") && text[0] == '{' && text[1..] == PrintMembers(m) + "}" + x
            && (StartsWith(text[1..], "}") <==> m.NoMembers?) && (m.NoMembers? ==> text[2..] == x)
  {
    var text := Print(Object(m)) + x;
    Regroup("{", PrintMembers(m), "}", x);
    assert text[1..] == PrintMembers(m) + "}" + x;
    MembersFront(m, x);
    Begins(text[1..], "}");
  }

  /** A bracket opens neither a word nor a string. */
  lemma Bracket(s: string)
    requires s != "" && (s[0] == '[' || s[0] == '{')
    ensures !StartsWith(s, "null") && !StartsWith(s, "true") && !StartsWith(s, "false") && !StartsWith(s, "\"")
    ensures s[0] == '{' ==> !StartsWith(s, "[")
  {
    Begins(s, "null");
    Begins(s, "true");
    Begins(s, "false");
    Begins(s, "\"");
    Begins(s, "[");
  }

  /** Reading undoes printing, whatever stands behind, as long as it does not prolong a numeral. */
  lemma {:induction false} PrintedIsRead(v: Json, x: string)
    requires Numeric(v) && Stops(x)
    ensures ReadValue(Print(v) + x) == Parsed(v, x)
    decreases v, 1
  {
    match v
    case Null => WordRead("null", x);
    case Boolean(b) => WordRead(Print(v), x);
    case Number(n) => NumeralRead(n, x);
    case Text(t) => StringRead(t, x);
    case Array(items) => ArrayRead(items, x);
    case Object(members) => ObjectRead(members, x);
  }

  lemma {:induction false} ArrayRead(s: Items, x: string)
    requires NumericItems(s)
    ensures ReadValue(Print(Array(s)) + x) == Parsed(Array(s), x)
    decreases s, 1
  {
    ArrayFront(s, x);
    Bracket(Print(Array(s)) + x);
    if s.Item? { ItemsRead(s, x); }
  }

  lemma {:induction false} ObjectRead(m: Members, x: string)
    requires NumericMembers(m)
    ensures ReadValue(Print(Object(m)) + x) == Parsed(Object(m), x)
    decreases m, 1
  {
    ObjectFront(m, x);
    Bracket(Print(Object(m)) + x);
    if m.Member? { MembersRead(m, x); }
  }

  lemma {:induction false} ItemsRead(s: Items, x: string)
    requires NumericItems(s) && s.Item?
    ensures ReadItems(PrintItems(s) + "]" + x) == Parsed(s, x)
    decreases s, 0
  {
    var after := AfterItem(s.rest, x);
    ItemsText(s, x);
    PrintedIsRead(s.head, after);
    if s.rest.NoItems? {
      assert StartsWith(after, "]") && after[1..] == x;
    } else {
      Begins(after, "]");
      assert StartsWith(after, ",") && after[1..] == PrintItems(s.rest) + "]" + x;
      ItemsRead(s.rest, x);
    }
  }

  lemma {:induction false} MembersRead(m: Members, x: string)
    requires NumericMembers(m) && m.Member?
    ensures ReadMembers(PrintMembers(m) + "}" + x) == Parsed(m, x)
    decreases m, 0
  {
    var after := AfterMember(m.rest, x);
    MembersText(m, x);
    QuotedRead(m.key, AfterKey(m, x));
    assert StartsWith(AfterKey(m, x), ":") && AfterKey(m, x)[1..] == Print(m.value) + after;
    PrintedIsRead(m.value, after);
    if m.rest.NoMembers? {
      assert StartsWith(after, "}") && after[1..] == x;
    } else {
      Begins(after, "}");
      assert StartsWith(after, ",") && after[1..] == PrintMembers(m.rest) + "}" + x;
      MembersRead(m.rest, x);
    }
  }

  /** So printing is injective, even with more text behind: the value and the rest can both be read off. */
  lemma {:induction false} PrintUnique(a: Json, b: Json, x: string, y: string)
    requires Numeric(a) && Numeric(b) && Print(a) + x == Print(b) + y && Stops(x) && Stops(y)
    ensures a == b && x == y
  {
    PrintedIsRead(a, x);
    PrintedIsRead(b, y);
  }

  /** The printed text reads back as the value. */
  lemma {:induction false} PrintRoundTrip(v: Json)
    requires Numeric(v)
    ensures Read(Print(v)) == Parsed(v, "")
  {
    PrintedIsRead(v, "");
    assert Print(v) + "" == Print(v);
  }

  /** Different values have different texts. */
  lemma {:induction false} PrintInjective(a: Json, b: Json)
    requires Numeric(a) && Numeric(b)
    ensures Print(a) == Print(b) <==> a == b
  {
    PrintRoundTrip(a);
    PrintRoundTrip(b);
  }
}
