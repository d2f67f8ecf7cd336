// Finding one JSON object in the middle of prose (src/lib/casper/cspr-trade.ts): the scan over
// braces and strings, and the proof that it undoes embedding for every JSON object.
module BalancedObject {
  import opened Options
  import opened Sequences
  import opened JsonText

  // ---- The scan -----------------------------------------------------------------------------

  datatype Scan = Scan(depth: int, inString: bool, escaped: bool)

  function Step(s: Scan, ch: char): Scan {
    if s.inString then
      if s.escaped then s.(escaped := false)
      else if ch == '\\' then s.(escaped := true)
      else if ch == '"' then s.(inString := false)
      else s
    else if ch == '"' then s.(inString := true)
    else if ch == '{' then s.(depth := s.depth + 1)
    else if ch == '}' then s.(depth := s.depth - 1)
    else s
  }

  function Run(s: Scan, t: string): Scan {
    if t == "" then s else Step(Run(s, t[..|t| - 1]), t[|t| - 1])
  }

  const START := Scan(0, false, false)

  /** After n characters a '}' outside strings has brought the depth back to zero. */
  predicate ClosesAt(t: string, n: nat) {
    0 < n <= |t| && t[n - 1] == '}' && !Run(START, t[..n - 1]).inString && Run(START, t[..n]).depth == 0
  }

  predicate FirstClose(t: string, n: nat) { ClosesAt(t, n) && forall m: nat :: m < n ==> !ClosesAt(t, m) }

  ghost predicate NeverCloses(t: string) { forall n: nat :: !ClosesAt(t, n) }

  predicate IsFirstOpen(text: string, i: nat) {
    i < |text| && text[i] == '{' && forall k :: 0 <= k < i ==> text[k] != '{'
  }

  /** The answer for a text: the shortest prefix, from the first '{' on, that closes outside strings; null only if there is none. */
  ghost predicate Extracts(text: string, r: Option<string>) {
    && ('{' !in text ==> r.None?)
    && (forall i: nat :: IsFirstOpen(text, i) ==>
          && (r.None? <==> NeverCloses(text[i..]))
          && (forall n: nat :: FirstClose(text[i..], n) ==> r == Some(text[i..i + n])))
  }

  /** The scan from the first brace on: how many characters it takes to close, or 0 if it never does. */
  method ScanFrom(text: string, start: nat) returns (n: nat)
    requires start <= |text|
    ensures n > 0 ==> FirstClose(text[start..], n)
    ensures n == 0 ==> NeverCloses(text[start..])
  {
    ghost var t := text[start..];
    var depth, inString, escaped := 0, false, false;
    for i := start to |text|
      invariant Scanned(t, i - start, Scan(depth, inString, escaped))
    {
      var ch := text[i];
      Advance(t, i - start, Scan(depth, inString, escaped));
      if inString {
        if escaped {
          escaped := false;
        } else if ch == '\\' {
          escaped := true;
        } else if ch == '"' {
          inString := false;
        }
      } else if ch == '"' {
        inString := true;
      } else if ch == '{' {
        depth := depth + 1;
      } else if ch == '}' {
        depth := depth - 1;
        if depth == 0 { return i - start + 1; }
      }
    }
    ClosesNowhere(t, Scan(depth, inString, escaped));
    n := 0;
  }

  method ExtractBalancedJsonObject(text: string) returns (r: Option<string>)
    ensures Extracts(text, r)
  {
    var start := 0;
    while start < |text| && text[start] != '{'
      invariant 0 <= start <= |text| && forall k :: 0 <= k < start ==> text[k] != '{'
    {
      start := start + 1;
    }
    if start == |text| { return None; }
    var n := ScanFrom(text, start);
    if n > 0 {
      OnlyAnswer(text, start, n);
      return Some(text[start..start + n]);
    }
    NoAnswer(text, start);
    r := None;
  }

  /** The scan stands at s after n characters, and nothing has closed so far. */
  ghost predicate Scanned(t: string, n: int, s: Scan) {
    0 <= n <= |t| && Run(START, t[..n]) == s && forall m: nat :: m <= n ==> !ClosesAt(t, m)
  }

  lemma {:induction false} Advance(t: string, n: nat, s: Scan)
    requires Scanned(t, n, s) && n < |t|
    ensures var closes := t[n] == '}' && !s.inString && Step(s, t[n]).depth == 0;
            if closes then FirstClose(t, n + 1) else Scanned(t, n + 1, Step(s, t[n]))
  {
    OneMore(t, n + 1);
  }

  /** What the next character does to the scan, and when it closes. */
  lemma OneMore(t: string, n: nat)
    requires 0 < n <= |t|
    ensures var before, after := Run(START, t[..n - 1]), Run(START, t[..n]);
            after == Step(before, t[n - 1]) && (ClosesAt(t, n) <==> t[n - 1] == '}' && !before.inString && after.depth == 0)
  {
    assert t[..n][..n - 1] == t[..n - 1] && t[..n][n - 1] == t[n - 1];
  }

  lemma ClosesNowhere(t: string, s: Scan)
    requires Scanned(t, |t|, s)
    ensures NeverCloses(t)
  {
  }

  lemma OnlyAnswer(text: string, start: nat, n: nat)
    requires IsFirstOpen(text, start) && FirstClose(text[start..], n)
    ensures Extracts(text, Some(text[start..start + n]))
  {
  }

  lemma NoAnswer(text: string, start: nat)
    requires IsFirstOpen(text, start) && NeverCloses(text[start..])
    ensures Extracts(text, None)
  {
  }

  // ---- Texts that balance ------------------------------------------------------------------------

  /** One character of a string literal (section 7 of RFC 8259): unescaped, or escaped by a backslash. */
  datatype Unit = Char(c: char) | Escape(c: char)

  /** What an object's text is made of: characters that matter to no scan, string literals, and nested braces. */
  datatype Piece = Plain(c: char) | Literal(units: seq<Unit>) | Nested(body: Pieces)
  datatype Pieces = NoPieces | More(head: Piece, rest: Pieces)

  predicate GoodUnit(u: Unit) { u.Char? ==> u.c != '"' && u.c != '\\' }

  predicate Good(p: Piece) {
    match p
    case Plain(c) => c != '"' && c != '{' && c != '}'
    case Literal(units) => forall i :: 0 <= i < |units| ==> GoodUnit(units[i])
    case Nested(body) => AllGood(body)
  }
  predicate AllGood(ps: Pieces) { ps.More? ==> Good(ps.head) && AllGood(ps.rest) }

  function UnitText(u: Unit): string { if u.Char? then [u.c] else ['\\', u.c] }

  function UnitsText(units: seq<Unit>): string { if units == [] then "" else UnitText(units[0]) + UnitsText(units[1..]) }

  function PieceText(p: Piece): string {
    match p
    case Plain(c) => [c]
    case Literal(units) => "\"" + UnitsText(units) + "\""
    case Nested(body) => "{" + TextOf(body) + "}"
  }
  function TextOf(ps: Pieces): string { if ps.NoPieces? then "" else PieceText(ps.head) + TextOf(ps.rest) }

  function ObjectText(body: Pieces): string { "{" + TextOf(body) + "}" }

  // ---- The scan over balanced text ------------------------------------------------------------------

  lemma {:induction false} RunBoth(s: Scan, t: string, u: string)
    ensures Run(s, t + u) == Run(Run(s, t), u)
    decreases |u|
  {
    if u == "" {
      assert t + u == t;
    } else {
      var n := |u| - 1;
      assert (t + u)[..|t + u| - 1] == t + u[..n] && (t + u)[|t + u| - 1] == u[n];
      RunBoth(s, t, u[..n]);
    }
  }

  /** The scan comes back to where it was, and on the way the depth never falls below d. */
  ghost predicate Returns(s: Scan, t: string) {
    Run(s, t) == s && forall n: nat :: n <= |t| ==> Run(s, t[..n]).depth >= s.depth
  }

  lemma ReturnsBoth(s: Scan, t: string, u: string)
    requires Returns(s, t) && Returns(s, u)
    ensures Returns(s, t + u)
  {
    RunBoth(s, t, u);
    forall n: nat | n <= |t + u|
      ensures Run(s, (t + u)[..n]).depth >= s.depth
    {
      if n <= |t| {
        assert (t + u)[..n] == t[..n];
      } else {
        assert (t + u)[..n] == t + u[..n - |t|];
        RunBoth(s, t, u[..n - |t|]);
      }
    }
  }

  lemma {:induction false} RunOne(s: Scan, c: char)
    ensures Run(s, [c]) == Step(s, c)
  {
  }

  lemma QuietReturns(s: Scan, c: char)
    requires Step(s, c) == s
    ensures Returns(s, [c])
  {
  }

  lemma UnitReturns(s: Scan, u: Unit)
    requires s.inString && !s.escaped && GoodUnit(u)
    ensures Returns(s, UnitText(u))
  {
    match u
    case Char(c) => QuietReturns(s, c);
    case Escape(c) =>
      var t := UnitText(u);
      RunOne(s, '\\');
      RunOne(s.(escaped := true), c);
      RunBoth(s, ['\\'], [c]);
      assert t == ['\\'] + [c] && t[..1] == ['\\'] && t[..0] == "" && t[..2] == t;
      assert Run(s, "") == s;
  }

  lemma {:induction false} UnitsReturn(s: Scan, units: seq<Unit>)
    requires s.inString && !s.escaped && forall i :: 0 <= i < |units| ==> GoodUnit(units[i])
    ensures Returns(s, UnitsText(units))
    decreases |units|
  {
    if units == [] {
      assert Run(s, "") == s;
    } else {
      UnitReturns(s, units[0]);
      UnitsReturn(s, units[1..]);
      ReturnsBoth(s, UnitText(units[0]), UnitsText(units[1..]));
    }
  }

  /** Between an opening and a closing character that return to s, the text may go anywhere that stays at or above s. */
  lemma Enclosed(s: Scan, inner: Scan, open: char, t: string, close: char)
    requires Step(s, open) == inner && Returns(inner, t) && Step(inner, close) == s && inner.depth >= s.depth
    ensures Returns(s, [open] + t + [close])
  {
    var all := [open] + t + [close];
    RunOne(s, open);
    RunBoth(s, [open], t);
    RunBoth(s, [open] + t, [close]);
    RunOne(inner, close);
    forall n: nat | n <= |all|
      ensures Run(s, all[..n]).depth >= s.depth
    {
      if n == 0 {
        assert all[..n] == "" && Run(s, "") == s;
      } else if n <= |t| + 1 {
        assert all[..n] == [open] + t[..n - 1];
        RunBoth(s, [open], t[..n - 1]);
      } else {
        assert all[..n] == all;
      }
    }
  }

  lemma {:induction false} PieceReturns(s: Scan, p: Piece)
    requires !s.inString && !s.escaped && Good(p)
    ensures Returns(s, PieceText(p))
    decreases p
  {
    match p
    case Plain(c) => QuietReturns(s, c);
    case Literal(units) =>
      UnitsReturn(s.(inString := true), units);
      Enclosed(s, s.(inString := true), '"', UnitsText(units), '"');
    case Nested(body) =>
      PiecesReturn(s.(depth := s.depth + 1), body);
      Enclosed(s, s.(depth := s.depth + 1), '{', TextOf(body), '}');
  }

  lemma {:induction false} PiecesReturn(s: Scan, ps: Pieces)
    requires !s.inString && !s.escaped && AllGood(ps)
    ensures Returns(s, TextOf(ps))
    decreases ps
  {
    if ps.NoPieces? {
      assert Run(s, "") == s;
    } else {
      PieceReturns(s, ps.head);
      PiecesReturn(s, ps.rest);
      ReturnsBoth(s, PieceText(ps.head), TextOf(ps.rest));
    }
  }

  lemma OpenStaysOpen(t: string, n: nat)
    requires Returns(Scan(1, false, false), t) && 1 <= n <= |t| + 1
    ensures Run(START, (['{'] + t)[..n]).depth >= 1
  {
    RunOne(START, '{');
    assert (['{'] + t)[..n] == ['{'] + t[..n - 1];
    RunBoth(START, ['{'], t[..n - 1]);
    assert Run(START, ['{'] + t[..n - 1]) == Run(Scan(1, false, false), t[..n - 1]);
  }

  lemma {:induction false} CloseCloses(t: string)
    requires Returns(Scan(1, false, false), t)
    ensures Run(START, ['{'] + t) == Scan(1, false, false) && Run(START, ['{'] + t + ['}']) == START
  {
    RunOne(START, '{');
    RunBoth(START, ['{'], t);
    RunBoth(START, ['{'] + t, ['}']);
    RunOne(Scan(1, false, false), '}');
  }

  /** An object's text closes at its own end and nowhere before, whatever follows. */
  lemma {:induction false} ObjectCloses(body: Pieces, suffix: string)
    requires AllGood(body)
    ensures FirstClose(ObjectText(body) + suffix, |ObjectText(body)|)
  {
    var t, all := TextOf(body), ObjectText(body) + suffix;
    PiecesReturn(Scan(1, false, false), body);
    CloseCloses(t);
    assert all[..|t| + 1] == ['{'] + t && all[..|t| + 2] == ['{'] + t + ['}'];
    forall m: nat | m < |t| + 2
      ensures !ClosesAt(all, m)
    {
      if m > 0 {
        OpenStaysOpen(t, m);
        assert all[..m] == (['{'] + t)[..m];
      }
    }
  }

  /** Extraction undoes embedding: after any text without '{', before any text at all, exactly the object is found. */
  lemma {:induction false} EmbeddedObjectIsExtracted(prefix: string, body: Pieces, suffix: string, r: Option<string>)
    requires AllGood(body) && '{' !in prefix && Extracts(prefix + ObjectText(body) + suffix, r)
    ensures r == Some(ObjectText(body))
  {
    var text, n := prefix + ObjectText(body) + suffix, |ObjectText(body)|;
    assert text[|prefix|] == '{' && forall k :: 0 <= k < |prefix| ==> text[k] == prefix[k];
    assert text[|prefix|..] == ObjectText(body) + suffix;
    ObjectCloses(body, suffix);
    assert text[|prefix|..|prefix| + n] == ObjectText(body);
  }

  // ---- The text of a JSON object is such a text -------------------------------------------------------

  function Join(a: Pieces, b: Pieces): Pieces { if a.NoPieces? then b else More(a.head, Join(a.rest, b)) }

  function PlainAll(s: string): Pieces { if s == "" then NoPieces else More(Plain(s[0]), PlainAll(s[1..])) }

  lemma {:induction a} JoinText(a: Pieces, b: Pieces)
    ensures TextOf(Join(a, b)) == TextOf(a) + TextOf(b)
    ensures AllGood(a) && AllGood(b) ==> AllGood(Join(a, b))
  {
  }

  lemma {:induction false} PlainText(s: string)
    ensures TextOf(PlainAll(s)) == s
    ensures (forall i :: 0 <= i < |s| ==> Good(Plain(s[i]))) ==> AllGood(PlainAll(s))
  {
    if s != "" { PlainText(s[1..]); assert s == [s[0]] + s[1..]; }
  }

  function EscapedUnits(c: char): (units: seq<Unit>)
    ensures UnitsText(units) == Escaped(c) && forall i :: 0 <= i < |units| ==> GoodUnit(units[i])
  {
    var e := Escaped(c);
    if |e| == 1 then [Char(c)]
    else if |e| == 2 then
      assert UnitsText([Escape(e[1])]) == UnitText(Escape(e[1])) + UnitsText([]);
      [Escape(e[1])]
    else
      var a, b, d, f := Char(e[2]), Char(e[3]), Char(e[4]), Char(e[5]);
      assert UnitsText([f]) == [e[5]] && [d, f][1..] == [f];
      assert UnitsText([d, f]) == [e[4], e[5]] && [b, d, f][1..] == [d, f];
      assert UnitsText([b, d, f]) == [e[3], e[4], e[5]] && [a, b, d, f][1..] == [b, d, f];
      assert UnitsText([a, b, d, f]) == [e[2], e[3], e[4], e[5]] && [Escape('u'), a, b, d, f][1..] == [a, b, d, f];
      [Escape('u'), a, b, d, f]
  }

  lemma {:induction false} UnitsBoth(a: seq<Unit>, b: seq<Unit>)
    ensures UnitsText(a + b) == UnitsText(a) + UnitsText(b)
    decreases |a|
  {
    if a == [] {
      assert a + b == b;
    } else {
      assert (a + b)[1..] == a[1..] + b;
      UnitsBoth(a[1..], b);
    }
  }

  function StringUnits(s: string): (units: seq<Unit>)
    ensures UnitsText(units) == EscapedAll(s) && forall i :: 0 <= i < |units| ==> GoodUnit(units[i])
  {
    if s == "" then []
    else
      UnitsBoth(EscapedUnits(s[0]), StringUnits(s[1..]));
      EscapedUnits(s[0]) + StringUnits(s[1..])
  }

  function QuotedPiece(s: string): Piece { Literal(StringUnits(s)) }

  function PiecesOf(v: Json): Pieces
    decreases v, 0
  {
    match v
    case Text(s) => More(QuotedPiece(s), NoPieces)
    case Array(items) => More(Plain('['), Join(ItemPieces(items), PlainAll("]")))
    case Object(members) => More(Nested(MemberPieces(members)), NoPieces)
    case _ => PlainAll(Print(v))
  }
  function ItemPieces(s: Items): Pieces
    decreases s, 0
  {
    if s.NoItems? then NoPieces else Join(PiecesOf(s.head), MoreItemPieces(s.rest))
  }
  function MoreItemPieces(rest: Items): Pieces
    decreases rest, 1
  {
    if rest.NoItems? then NoPieces else More(Plain(','), ItemPieces(rest))
  }
  function MemberPieces(m: Members): Pieces
    decreases m, 0
  {
    if m.NoMembers? then NoPieces
    else More(QuotedPiece(m.key), More(Plain(':'), Join(PiecesOf(m.value), MoreMemberPieces(m.rest))))
  }
  function MoreMemberPieces(rest: Members): Pieces
    decreases rest, 1
  {
    if rest.NoMembers? then NoPieces else More(Plain(','), MemberPieces(rest))
  }

  lemma {:induction false} PlainInPieces(v: Json)
    requires !v.Text? && !v.Array? && !v.Object? && forall i :: 0 <= i < |Print(v)| ==> Good(Plain(Print(v)[i]))
    ensures TextOf(PiecesOf(v)) == Print(v) && AllGood(PiecesOf(v))
  {
    PlainText(Print(v));
  }

  lemma {:induction false} ScalarInPieces(v: Json)
    requires Numeric(v) && !v.Array? && !v.Object?
    ensures TextOf(PiecesOf(v)) == Print(v) && AllGood(PiecesOf(v))
  {
    if !v.Text? { PlainInPieces(v); }
  }

  lemma {:induction false} ArrayInPieces(items: Items)
    requires TextOf(ItemPieces(items)) == PrintItems(items) && AllGood(ItemPieces(items))
    ensures TextOf(PiecesOf(Array(items))) == Print(Array(items)) && AllGood(PiecesOf(Array(items)))
  {
    PlainText("]");
    JoinText(ItemPieces(items), PlainAll("]"));
  }

  lemma {:induction false} ObjectInPieces(members: Members)
    requires TextOf(MemberPieces(members)) == PrintMembers(members) && AllGood(MemberPieces(members))
    ensures TextOf(PiecesOf(Object(members))) == Print(Object(members)) && AllGood(PiecesOf(Object(members)))
  {
  }

  lemma {:induction false} PrintedInPieces(v: Json)
    requires Numeric(v)
    ensures TextOf(PiecesOf(v)) == Print(v) && AllGood(PiecesOf(v))
    decreases v
  {
    match v
    case Array(items) =>
      ItemsInPieces(items);
      ArrayInPieces(items);
    case Object(members) =>
      MembersInPieces(members);
      ObjectInPieces(members);
    case _ => ScalarInPieces(v);
  }

  lemma {:induction false} ItemsInPieces(s: Items)
    requires NumericItems(s)
    ensures TextOf(ItemPieces(s)) == PrintItems(s) && AllGood(ItemPieces(s))
    decreases s
  {
    if s.Item? {
      var value, more := PiecesOf(s.head), MoreItemPieces(s.rest);
      PrintedInPieces(s.head);
      if s.rest.Item? { ItemsInPieces(s.rest); }
      JoinText(value, more);
      CommaText(s.rest.Item?, ItemPieces(s.rest), more);
    }
  }

  /** A comma before what is left, unless nothing is. */
  lemma {:induction false} CommaText(some: bool, rest: Pieces, more: Pieces)
    requires more == if some then More(Plain(','), rest) else NoPieces
    ensures TextOf(more) == if some then "," + TextOf(rest) else ""
    ensures some && AllGood(rest) ==> AllGood(more)
    ensures !some ==> AllGood(more)
  {
  }

  lemma {:induction false} MembersInPieces(m: Members)
    requires NumericMembers(m)
    ensures TextOf(MemberPieces(m)) == PrintMembers(m) && AllGood(MemberPieces(m))
    decreases m
  {
    if m.Member? {
      var value, more := PiecesOf(m.value), MoreMemberPieces(m.rest);
      PrintedInPieces(m.value);
      if m.rest.Member? { MembersInPieces(m.rest); }
      CommaText(m.rest.Member?, MemberPieces(m.rest), more);
      MemberText(m.key, value, more);
      assert PrintMembers(m) == Quoted(m.key) + ":" + Print(m.value) + TextOf(more);
    }
  }

  lemma {:induction false} MemberText(k: string, value: Pieces, more: Pieces)
    requires AllGood(value) && AllGood(more)
    ensures var all := More(QuotedPiece(k), More(Plain(':'), Join(value, more)));
            AllGood(all) && TextOf(all) == Quoted(k) + ":" + TextOf(value) + TextOf(more)
  {
    JoinText(value, more);
    Regroup(Quoted(k), ":", TextOf(value), TextOf(more));
    var tail := More(Plain(':'), Join(value, more));
    assert TextOf(tail) == ":" + (TextOf(value) + TextOf(more));
    assert ":" + (TextOf(value) + TextOf(more)) == ":" + TextOf(value) + TextOf(more);
  }

  /** So a printed JSON object, embedded in prose, is found again as it was printed. */
  lemma {:induction false} PrintedObjectIsExtracted(prefix: string, members: Members, suffix: string, r: Option<string>)
    requires NumericMembers(members) && '{' !in prefix && Extracts(prefix + Print(Object(members)) + suffix, r)
    ensures r == Some(Print(Object(members)))
  {
    MembersInPieces(members);
    assert Print(Object(members)) == ObjectText(MemberPieces(members));
    EmbeddedObjectIsExtracted(prefix, MemberPieces(members), suffix, r);
  }
}
