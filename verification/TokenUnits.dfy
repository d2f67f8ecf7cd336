// Exact amounts of the swap venue: base units to whole tokens, and the quote id that carries a
// quoted trade to its submission (src/lib/casper/cspr-trade.ts).
module TokenUnits {
  import opened Options
  import opened DecimalText

  // ---- Base units to whole tokens --------------------------------------------------------------

  function PadStart(s: string, n: nat): string { if |s| < n then Zeros(n - |s|) + s else s }

  /** replace(/0+$/, '') */
  function TrimZeros(s: string): (t: string)
    ensures t == "" || t[|t| - 1] != '0'
    ensures |t| <= |s| && t == s[..|t|]
  {
    if s != "" && s[|s| - 1] == '0' then TrimZeros(s[..|s| - 1]) else s
  }

  function Quotient(a: nat, b: nat): (q: nat)
    requires b > 0
    ensures q * b <= a
  {
    a / b
  }

  function Remainder(a: nat, b: nat): (r: nat)
    requires b > 0
    ensures r < b && a == Quotient(a, b) * b + r
  {
    a - Quotient(a, b) * b
  }

  /** The whole tokens and the rest, in base units. */
  function WholePart(value: nat, decimals: nat): nat { Quotient(value, Pow10(decimals)) }

  function FractionPart(value: nat, decimals: nat): nat { Remainder(value, Pow10(decimals)) }

  function WholeTokensFromBaseUnits(value: nat, decimals: nat): string {
    var whole, frac := WholePart(value, decimals), FractionPart(value, decimals);
    if frac == 0 then Print(whole) else Print(whole) + "." + TrimZeros(PadStart(Print(frac), decimals))
  }

  /** The first place of a character, or the length of the text. */
  function IndexOf(s: string, c: char): (i: nat)
    ensures i <= |s| && (i < |s| ==> s[i] == c) && forall j :: 0 <= j < i ==> s[j] != c
  {
    if s == "" || s[0] == c then 0 else 1 + IndexOf(s[1..], c)
  }

  /** Reading a decimal number of whole tokens as base units; more fractional digits than the token has mean nothing. */
  function BaseUnits(text: string, decimals: nat): Option<nat> {
    var i := IndexOf(text, '.');
    var whole, frac := text[..i], if i < |text| then text[i + 1..] else "";
    if IsDigits(whole) && IsDigits(frac) && |frac| <= decimals
    then Some(Value(whole) * Pow10(decimals) + Value(frac) * Pow10(decimals - |frac|))
    else None
  }

  lemma {:induction false} PrintLength(n: nat, digits: nat)
    requires n < Pow10(digits) && n > 0
    ensures |Print(n)| <= digits
  {
    ValueOfPrint(n);
    assert Print(n) != "0" by { assert "0"[..0] == ""; }
    CanonicalPositive(Print(n));
    if digits < |Print(n)| { PowMonotone(digits, |Print(n)| - 1); }
  }

  lemma {:induction false} PadValue(s: string, n: nat)
    requires IsDigits(s) && |s| <= n
    ensures |PadStart(s, n)| == n && IsDigits(PadStart(s, n)) && Value(PadStart(s, n)) == Value(s)
  {
    if |s| < n {
      ValueOfZeros(n - |s|);
      ValueAppend(Zeros(n - |s|), s);
    }
  }

  /** Trailing zeros cut off are powers of ten multiplied back on. */
  lemma {:induction false} TrimValue(s: string)
    requires IsDigits(s)
    ensures IsDigits(TrimZeros(s)) && Value(s) == Value(TrimZeros(s)) * Pow10(|s| - |TrimZeros(s)|)
  {
    if s != "" && s[|s| - 1] == '0' {
      var front := s[..|s| - 1];
      TrimValue(front);
      Rescale(Value(TrimZeros(front)), Pow10(|front| - |TrimZeros(front)|));
    }
  }

  lemma {:induction false} NotEmpty(f: string, digits: nat, frac: nat)
    requires frac > 0 && IsDigits(f) && Value(f) * Pow10(digits) == frac
    ensures f != ""
  {
  }

  lemma {:induction false} TrimmedValue(p: string)
    requires IsDigits(p) && Value(p) > 0
    ensures var f := TrimZeros(p); f != "" && IsDigits(f) && |f| <= |p| && Value(f) * Pow10(|p| - |f|) == Value(p)
  {
    TrimValue(p);
    NotEmpty(TrimZeros(p), |p| - |TrimZeros(p)|, Value(p));
  }

  /** The fractional digits that are printed, read back at the token's precision, are the remainder. */
  lemma FractionValue(frac: nat, decimals: nat)
    requires 0 < frac < Pow10(decimals)
    ensures var f := TrimZeros(PadStart(Print(frac), decimals));
            f != "" && IsDigits(f) && |f| <= decimals && Value(f) * Pow10(decimals - |f|) == frac
  {
    PrintLength(frac, decimals);
    ValueOfPrint(frac);
    PadValue(Print(frac), decimals);
    TrimmedValue(PadStart(Print(frac), decimals));
  }

  lemma {:induction false} SplitsAtPoint(whole: string, frac: string)
    requires IsDigits(whole)
    ensures IndexOf(whole + "." + frac, '.') == |whole|
  {
    var text := whole + "." + frac;
    assert text[|whole|] == '.' && forall j :: 0 <= j < |whole| ==> text[j] == whole[j];
  }

  lemma {:induction false} ReadWhole(whole: string, decimals: nat)
    requires IsDigits(whole)
    ensures BaseUnits(whole, decimals) == Some(Value(whole) * Pow10(decimals))
  {
    assert IndexOf(whole, '.') == |whole|;
    assert whole[..|whole|] == whole && Value("") == 0;
  }

  lemma {:induction false} ReadPointed(whole: string, frac: string, decimals: nat)
    requires IsDigits(whole) && IsDigits(frac) && |frac| <= decimals
    ensures BaseUnits(whole + "." + frac, decimals) == Some(Value(whole) * Pow10(decimals) + Value(frac) * Pow10(decimals - |frac|))
  {
    SplitsAtPoint(whole, frac);
    var text := whole + "." + frac;
    assert text[..|whole|] == whole && text[|whole| + 1..] == frac;
  }

  /** Nothing is lost: the printed whole-token amount reads back as the same base units. */
  lemma WholeTokensAreExact(value: nat, decimals: nat)
    ensures BaseUnits(WholeTokensFromBaseUnits(value, decimals), decimals) == Some(value)
  {
    var whole, frac := WholePart(value, decimals), FractionPart(value, decimals);
    ValueOfPrint(whole);
    if frac == 0 {
      ReadWhole(Print(whole), decimals);
    } else {
      FractionValue(frac, decimals);
      ReadPointed(Print(whole), TrimZeros(PadStart(Print(frac), decimals)), decimals);
    }
  }

  /** The text has a point exactly when there is a fraction, and then neither a bare point nor a trailing zero. */
  lemma NoTrailingZeros(value: nat, decimals: nat)
    ensures var text := WholeTokensFromBaseUnits(value, decimals);
            && ('.' in text <==> FractionPart(value, decimals) != 0)
            && ('.' in text ==> IsDigit(text[|text| - 1]) && text[|text| - 1] != '0')
  {
    var frac := FractionPart(value, decimals);
    if frac != 0 {
      FractionValue(frac, decimals);
      var f := TrimZeros(PadStart(Print(frac), decimals));
      var text := WholeTokensFromBaseUnits(value, decimals);
      assert text[|text| - 1] == f[|f| - 1] && text[|Print(WholePart(value, decimals))|] == '.';
    }
  }

  // ---- The quote id --------------------------------------------------------------------------------

  /** split(c) */
  function Split(s: string, c: char): (parts: seq<string>)
    ensures parts != [] && forall i :: 0 <= i < |parts| ==> c !in parts[i]
    decreases |s|
  {
    var i := IndexOf(s, c);
    assert c !in s[..i];
    if i == |s| then [s[..i]] else [s[..i]] + Split(s[i + 1..], c)
  }

  lemma {:induction false} SplitHead(a: string, rest: string, c: char)
    requires c !in a
    ensures Split(a + [c] + rest, c) == [a] + Split(rest, c)
  {
    var s := a + [c] + rest;
    assert s[|a|] == c && forall j :: 0 <= j < |a| ==> s[j] == a[j];
    assert IndexOf(s, c) == |a|;
    assert s[..|a|] == a && s[|a| + 1..] == rest;
  }

  /** A template literal: lq, the two symbols, the amount in base units and a timestamp. */
  function QuoteId(tokenIn: string, tokenOut: string, amount: string, stamp: string): string {
    "lq" + "_" + (tokenIn + "_" + (tokenOut + "_" + (amount + "_" + stamp)))
  }

  /** The arguments of a swap as the venue takes them. */
  datatype Swap = Swap(tokenIn: string, tokenOut: string, amount: string)

  const CSPR_DECIMALS := 9

  function SwapOf(tokenIn: string, tokenOut: string, amount: string): Option<Swap> {
    if IsDigits(amount) then Some(Swap(tokenIn, tokenOut, WholeTokensFromBaseUnits(Value(amount), CSPR_DECIMALS))) else None
  }

  /** What submit builds from a quote id; an amount that is no number throws. */
  function SubmittedSwap(quoteId: string): Option<Swap> {
    var parts := Split(quoteId, '_');
    SwapOf(if |parts| > 1 then parts[1] else "CSPR", if |parts| > 2 then parts[2] else "sCSPR", if |parts| > 3 then parts[3] else "0")
  }

  lemma {:induction false} PartsOf(tokenIn: string, tokenOut: string, amount: string, stamp: string)
    requires '_' !in tokenIn
    ensures Split(QuoteId(tokenIn, tokenOut, amount, stamp), '_') == ["lq", tokenIn] + Split(tokenOut + "_" + (amount + "_" + stamp), '_')
  {
    var last := tokenOut + "_" + (amount + "_" + stamp);
    SplitHead("lq", tokenIn + "_" + last, '_');
    SplitHead(tokenIn, last, '_');
    assert ["lq"] + ([tokenIn] + Split(last, '_')) == ["lq", tokenIn] + Split(last, '_');
  }

  lemma CleanSymbolsSurvive(tokenIn: string, tokenOut: string, amount: string, stamp: string)
    requires '_' !in tokenIn && '_' !in tokenOut && '_' !in amount
    ensures var parts := Split(QuoteId(tokenIn, tokenOut, amount, stamp), '_');
            |parts| > 3 && parts[1] == tokenIn && parts[2] == tokenOut && parts[3] == amount
  {
    PartsOf(tokenIn, tokenOut, amount, stamp);
    SplitHead(tokenOut, amount + "_" + stamp, '_');
    SplitHead(amount, stamp, '_');
  }

  /** A part of a split never contains the separator, so a symbol that does is lost. */
  lemma SplitSymbolIsLost(quoteId: string, tokenIn: string, tokenOut: string)
    requires '_' in tokenIn || '_' in tokenOut
    ensures var s := SubmittedSwap(quoteId); s.Some? ==> s.value.tokenIn != tokenIn || s.value.tokenOut != tokenOut
  {
  }

  /** The swap that is built names the quoted tokens and, read at the nine decimals of the native token, the quoted amount
      if and only if neither symbol contains an underscore. */
  lemma {:induction false} SubmitUsesTheQuotedTrade(tokenIn: string, tokenOut: string, amount: string, stamp: string)
    requires IsDigits(amount)
    ensures var s := SubmittedSwap(QuoteId(tokenIn, tokenOut, amount, stamp));
            (s.Some? && s.value.tokenIn == tokenIn && s.value.tokenOut == tokenOut && BaseUnits(s.value.amount, 9) == Some(Value(amount)))
            <==> '_' !in tokenIn && '_' !in tokenOut
  {
    if '_' in tokenIn || '_' in tokenOut {
      SplitSymbolIsLost(QuoteId(tokenIn, tokenOut, amount, stamp), tokenIn, tokenOut);
    } else {
      assert '_' !in amount;
      CleanSymbolsSurvive(tokenIn, tokenOut, amount, stamp);
      WholeTokensAreExact(Value(amount), 9);
    }
  }

  /** Among those texts it is the plain one: a whole number of tokens is submitted as its numeral. */
  lemma {:induction false} WholeNumbersArePlain(tokenIn: string, tokenOut: string, tokens: nat, stamp: string)
    requires '_' !in tokenIn && '_' !in tokenOut
    ensures SubmittedSwap(QuoteId(tokenIn, tokenOut, Print(tokens * Pow10(9)), stamp)) == Some(Swap(tokenIn, tokenOut, Print(tokens)))
  {
    var amount := Print(tokens * Pow10(9));
    ValueOfPrint(tokens * Pow10(9));
    assert '_' !in amount;
    CleanSymbolsSurvive(tokenIn, tokenOut, amount, stamp);
    WholeOf(tokens, Pow10(9));
  }

  lemma WholeOf(tokens: nat, unit: nat)
    requires unit > 0
    ensures Quotient(tokens * unit, unit) == tokens && Remainder(tokens * unit, unit) == 0
  {
  }

  lemma {:induction false} OnePart(s: string)
    requires '_' !in s
    ensures Split(s, '_') == [s]
  {
    assert IndexOf(s, '_') == |s| && s[..|s|] == s;
  }

  lemma {:induction false} NothingIsZero(decimals: nat)
    ensures WholeTokensFromBaseUnits(0, decimals) == Print(0)
  {
    assert 0 * Pow10(decimals) == 0;
    WholeOf(0, Pow10(decimals));
  }

  lemma ZeroIsPrinted()
    ensures IsDigits("0") && Value("0") == 0 && Print(0) == "0"
  {
    assert "0"[..0] == "";
  }

  lemma ZeroSwap(tokenIn: string, tokenOut: string)
    ensures SwapOf(tokenIn, tokenOut, "0") == Some(Swap(tokenIn, tokenOut, "0"))
  {
    NothingIsZero(9);
    ZeroIsPrinted();
  }

  /** Parts that an id lacks are CSPR, sCSPR and nothing. */
  lemma MissingPartsDefault(id: string, tokenIn: string, tokenOut: string)
    requires '_' !in id && '_' !in tokenIn && '_' !in tokenOut
    ensures SubmittedSwap(id) == Some(Swap("CSPR", "sCSPR", "0"))
    ensures SubmittedSwap(id + "_" + tokenIn) == Some(Swap(tokenIn, "sCSPR", "0"))
    ensures SubmittedSwap(id + "_" + (tokenIn + "_" + tokenOut)) == Some(Swap(tokenIn, tokenOut, "0"))
  {
    OnePart(id);
    OnePart(tokenIn);
    OnePart(tokenOut);
    SplitHead(id, tokenIn, '_');
    SplitHead(tokenIn, tokenOut, '_');
    SplitHead(id, tokenIn + "_" + tokenOut, '_');
    ZeroSwap("CSPR", "sCSPR");
    ZeroSwap(tokenIn, "sCSPR");
    ZeroSwap(tokenIn, tokenOut);
  }
}
