// Exact decimal arithmetic on digit strings: the helpers that the Redis scripts
// share (src/redis/lua), because Lua numbers would round totals above 2^53, and
// the decimal notation of a BigInt.
module DecimalText {

  predicate IsDigit(c: char) { '0' <= c <= '9' }

  predicate IsDigits(s: string) { forall i :: 0 <= i < |s| ==> IsDigit(s[i]) }

  function DigitValue(c: char): (v: nat)
    requires IsDigit(c)
    ensures v <= 9
  {
    c as int - '0' as int
  }

  function DigitChar(d: nat): (c: char)
    requires d <= 9
    ensures IsDigit(c) && DigitValue(c) == d
  {
    ('0' as int + d) as char
  }

  /** The number a digit string denotes, most significant digit first. */
  function Value(s: string): nat
    requires IsDigits(s)
  {
    if s == "" then 0 else 10 * Value(s[..|s| - 1]) + DigitValue(s[|s| - 1])
  }

  function Pow10(n: nat): (p: nat)
    ensures 1 <= p
  {
    if n == 0 then 1 else 10 * Pow10(n - 1)
  }

  /** Canonical notation: digits, at least one, no superfluous leading zero. */
  predicate IsCanonical(s: string) { IsDigits(s) && s != "" && (s[0] == '0' ==> s == "0") }

  /** BigInt.prototype.toString for a non-negative value. */
  function Print(n: nat): (s: string)
    ensures IsCanonical(s)
  {
    if n < 10 then [DigitChar(n)] else Print(n / 10) + [DigitChar(n % 10)]
  }

  lemma {:induction false} ValueOfPrint(n: nat)
    ensures Value(Print(n)) == n
  {
    if n < 10 {
      assert Print(n)[..0] == "";
    } else {
      ValueOfPrint(n / 10);
      assert Print(n)[..|Print(n)| - 1] == Print(n / 10);
    }
  }

  lemma {:induction false} PrintOfValue(s: string)
    requires IsCanonical(s)
    ensures Print(Value(s)) == s
  {
    if |s| == 1 {
      assert s[..0] == "" && s == [s[0]];
    } else {
      var front := s[..|s| - 1];
      assert s == front + [s[|s| - 1]] && front[0] == s[0];
      PrintOfValue(front);
      CanonicalPositive(front);
    }
  }

  lemma {:induction false} CanonicalPositive(s: string)
    requires IsCanonical(s) && s != "0"
    ensures Pow10(|s| - 1) <= Value(s)
  {
    if |s| == 1 {
      assert s[..0] == "" && s[0] != '0';
    } else {
      CanonicalPositive(s[..|s| - 1]);
    }
  }

  lemma {:induction false} ValueBound(s: string)
    requires IsDigits(s)
    ensures Value(s) < Pow10(|s|)
  {
    if s != "" { ValueBound(s[..|s| - 1]); }
  }

  lemma Rescale(x: nat, p: nat)
    ensures 10 * (x * p) == x * (10 * p)
  {
  }

  /** The number that `d` followed by `n` zeros denotes. */
  function Units(d: nat, n: nat): nat { if n == 0 then d else 10 * Units(d, n - 1) }

  lemma {:induction false} UnitsArePowers(d: nat, n: nat)
    ensures Units(d, n) == d * Pow10(n)
  {
    if n > 0 {
      UnitsArePowers(d, n - 1);
      Rescale(d, Pow10(n - 1));
    }
  }

  /** As many zeros as a numeral has digits make 1 the larger number. */
  lemma {:induction false} BelowUnits(s: string)
    requires IsDigits(s)
    ensures Value(s) < Units(1, |s|)
  {
    if s != "" { BelowUnits(s[..|s| - 1]); }
  }

  lemma {:induction false} NoUnits(n: nat)
    ensures Units(0, n) == 0
  {
    if n > 0 { NoUnits(n - 1); }
  }

  lemma {:induction false} UnitsAdd(x: nat, y: nat, n: nat)
    ensures Units(x + y, n) == Units(x, n) + Units(y, n)
  {
    if n > 0 { UnitsAdd(x, y, n - 1); }
  }

  lemma {:induction false} UnitsShift(x: nat, n: nat)
    ensures Units(10 * x, n) == Units(x, n + 1)
  {
    if n > 0 { UnitsShift(x, n - 1); }
  }

  /** Prepending a digit adds that digit with as many zeros as follow. */
  lemma {:induction false} UnitsCons(c: char, s: string)
    requires IsDigit(c) && IsDigits(s)
    ensures Value([c] + s) == Units(DigitValue(c), |s|) + Value(s)
  {
    var t := [c] + s;
    if s == "" {
      assert t[..0] == "";
    } else {
      var front := s[..|s| - 1];
      assert t[..|t| - 1] == [c] + front;
      UnitsCons(c, front);
    }
  }

  lemma {:induction false} ValueCons(c: char, s: string)
    requires IsDigit(c) && IsDigits(s)
    ensures Value([c] + s) == DigitValue(c) * Pow10(|s|) + Value(s)
  {
    UnitsCons(c, s);
    UnitsArePowers(DigitValue(c), |s|);
  }

  lemma {:induction false} ValueAppend(a: string, b: string)
    requires IsDigits(a) && IsDigits(b)
    ensures IsDigits(a + b) && Value(a + b) == Value(a) * Pow10(|b|) + Value(b)
  {
    if b == "" {
      assert a + b == a;
    } else {
      var front := b[..|b| - 1];
      ValueAppend(a, front);
      assert (a + b)[..|a + b| - 1] == a + front;
      Rescale(Value(a), Pow10(|front|));
    }
  }

  lemma {:induction false} ValueOfZeros(n: nat)
    ensures IsDigits(Zeros(n)) && Value(Zeros(n)) == 0
  {
    if n > 0 {
      ValueOfZeros(n - 1);
      assert Zeros(n)[..n - 1] == Zeros(n - 1);
    }
  }

  function Zeros(n: nat): (s: string)
    ensures |s| == n
  {
    seq(n, _ => '0')
  }

  /** normalize_decimal: leading zeros stripped, the empty string read as zero. */
  function Normalize(s: string): (r: string)
    requires IsDigits(s)
    ensures IsCanonical(r) && Value(r) == Value(s)
    decreases |s|
  {
    if s == "" then assert "0"[..0] == ""; "0"
    else if s[0] == '0' then
      ValueCons(s[0], s[1..]);
      assert s == [s[0]] + s[1..];
      Normalize(s[1..])
    else s
  }

  /** Lua's string order on two digit strings of equal length. */
  function LexCompare(a: string, b: string): int
    requires |a| == |b|
  {
    if a == "" then 0
    else if a[0] > b[0] then 1
    else if a[0] < b[0] then -1
    else LexCompare(a[1..], b[1..])
  }

  function Sign(n: int): int { if n > 0 then 1 else if n < 0 then -1 else 0 }

  lemma {:induction false} LexCompareIsNumeric(a: string, b: string)
    requires IsDigits(a) && IsDigits(b) && |a| == |b|
    ensures LexCompare(a, b) == Sign(Value(a) - Value(b))
  {
    if a != "" {
      assert a == [a[0]] + a[1..] && b == [b[0]] + b[1..];
      ValueCons(a[0], a[1..]);
      ValueCons(b[0], b[1..]);
      ValueBound(a[1..]);
      ValueBound(b[1..]);
      LexCompareIsNumeric(a[1..], b[1..]);
      LeadingDigitDecides(DigitValue(a[0]), Value(a[1..]), DigitValue(b[0]), Value(b[1..]), Pow10(|a| - 1));
    }
  }

  lemma LeadingDigitDecides(x: nat, u: nat, y: nat, v: nat, p: nat)
    requires u < p && v < p
    ensures x > y ==> x * p + u > y * p + v
    ensures x < y ==> x * p + u < y * p + v
  {
    if x > y {
      assert x * p >= (y + 1) * p == y * p + p;
    } else if x < y {
      assert y * p >= (x + 1) * p == x * p + p;
    }
  }

  lemma {:induction false} PowMonotone(m: nat, n: nat)
    requires m <= n
    ensures Pow10(m) <= Pow10(n)
  {
    if m < n { PowMonotone(m, n - 1); }
  }

  /** Of two canonical numerals the longer one is the larger number. */
  lemma {:induction false} LongerIsLarger(a: string, b: string)
    requires IsCanonical(a) && IsCanonical(b) && |a| > |b|
    ensures Value(a) > Value(b)
  {
    CanonicalPositive(a);
    ValueBound(b);
    PowMonotone(|b|, |a| - 1);
  }

  /** compare_decimal decides the numeric order of any two digit strings. */
  function CompareDecimal(x: string, y: string): (r: int)
    requires IsDigits(x) && IsDigits(y)
    ensures r == Sign(Value(x) - Value(y))
  {
    var a, b := Normalize(x), Normalize(y);
    if |a| > |b| then LongerIsLarger(a, b); 1
    else if |a| < |b| then LongerIsLarger(b, a); -1
    else LexCompareIsNumeric(a, b); LexCompare(a, b)
  }

  /** One column of an addition: the new digit and carry are worth what the two digits and the old carry were. */
  lemma AddedColumn(da: nat, db: nat, carry: nat, digit: nat, next: nat, n: nat)
    requires da + db + carry == 10 * next + digit
    ensures Units(digit, n) + Units(next, n + 1) == Units(da, n) + Units(db, n) + Units(carry, n)
  {
    UnitsAdd(da, db, n);
    UnitsAdd(da + db, carry, n);
    UnitsAdd(10 * next, digit, n);
    UnitsShift(next, n);
  }

  /** The suffix from one position further left is worth that digit more. */
  lemma ValueSuffix(s: string, i: nat)
    requires IsDigits(s) && 0 < i <= |s|
    ensures Value(s[i - 1..]) == Units(DigitValue(s[i - 1]), |s| - i) + Value(s[i..])
  {
    assert s[i - 1..] == [s[i - 1]] + s[i..];
    UnitsCons(s[i - 1], s[i..]);
  }

  /** Where the digits left of the last `n` begin. */
  function LeftOf(s: string, n: nat): (i: nat)
    ensures i <= |s|
  {
    if |s| < n then 0 else |s| - n
  }

  /** The digit of column `n`, or 0 once the numeral is used up. */
  method TakeDigit(s: string, i: nat, n: nat) returns (d: nat, next: nat)
    requires IsDigits(s) && i == LeftOf(s, n)
    ensures d <= 9 && next == LeftOf(s, n + 1) && (i == 0 ==> d == 0)
    ensures Value(s[next..]) == Units(d, n) + Value(s[i..])
  {
    d, next := 0, i;
    if i > 0 {
      ValueSuffix(s, i);
      d, next := DigitValue(s[i - 1]), i - 1;
    } else {
      NoUnits(n);
    }
  }

  /** Splits a column sum into its digit, put in front of the result, and the carry. */
  method PushColumn(sum: nat, out: string) returns (longer: string, carry: nat)
    requires sum <= 19 && IsDigits(out)
    ensures carry == sum / 10 && |longer| == |out| + 1
    ensures IsDigits(longer) && Value(longer) == Units(sum % 10, |out|) + Value(out)
  {
    UnitsCons(DigitChar(sum % 10), out);
    longer, carry := [DigitChar(sum % 10)] + out, sum / 10;
  }

  /** The columns added so far and the carry are worth the digits used so far. */
  predicate Adding(a: string, b: string, ai: nat, bi: nat, carry: nat, out: string)
    requires IsDigits(a) && IsDigits(b)
  {
    && ai == LeftOf(a, |out|) && bi == LeftOf(b, |out|) && carry <= 1 && IsDigits(out)
    && Value(out) + Units(carry, |out|) == Value(a[ai..]) + Value(b[bi..])
  }

  /** The body of the loop of add_decimal. */
  method AddColumn(a: string, b: string, i: nat, j: nat, carry: nat, out: string) returns (ai: nat, bi: nat, next: nat, longer: string)
    requires IsDigits(a) && IsDigits(b) && Adding(a, b, i, j, carry, out)
    ensures Adding(a, b, ai, bi, next, longer) && |longer| == |out| + 1
    ensures i == 0 && j == 0 ==> next == 0
  {
    var da, db;
    da, ai := TakeDigit(a, i, |out|);
    db, bi := TakeDigit(b, j, |out|);
    longer, next := PushColumn(da + db + carry, out);
    AddedColumn(da, db, carry, (da + db + carry) % 10, next, |out|);
  }

  /** add_decimal: schoolbook addition with carry, exact at any length. */
  method AddDecimal(x: string, y: string) returns (r: string)
    requires IsDigits(x) && IsDigits(y)
    ensures IsCanonical(r)
    ensures Value(r) == Value(x) + Value(y)
  {
    var a, b := Normalize(x), Normalize(y);
    var carry: nat := 0;
    var out := "";
    var ai: nat, bi: nat := |a|, |b|;
    while ai > 0 || bi > 0 || carry > 0
      invariant Adding(a, b, ai, bi, carry, out)
      decreases ai + bi, carry
    {
      ai, bi, carry, out := AddColumn(a, b, ai, bi, carry, out);
    }
    assert a[0..] == a && b[0..] == b;
    NoUnits(|out|);
    r := Normalize(out);
  }

  /** One column of a subtraction: the digit put in front of the result, and the borrow. */
  method BorrowColumn(digit: nat, db: nat, borrow: nat, out: string) returns (longer: string, next: nat)
    requires digit <= 9 && db <= 9 && borrow <= 1 && IsDigits(out)
    ensures next == (if digit - borrow < db then 1 else 0) && |longer| == |out| + 1 && IsDigits(longer)
    ensures Value(longer) == Units(digit - borrow + 10 * next - db, |out|) + Value(out)
  {
    var da := digit - borrow;
    next := 0;
    if da < db {
      da := da + 10;
      next := 1;
    }
    UnitsCons(DigitChar(da - db), out);
    longer := [DigitChar(da - db)] + out;
  }

  /** The columns subtracted so far, less the borrow, are worth the difference of the digits used so far. */
  predicate Subtracting(a: string, b: string, ai: nat, bi: nat, borrow: nat, out: string)
    requires IsDigits(a) && IsDigits(b)
  {
    && ai <= |a| && |out| == |a| - ai && bi == LeftOf(b, |out|) && borrow <= 1 && IsDigits(out)
    && Value(out) - Units(borrow, |out|) == Value(a[ai..]) - Value(b[bi..])
  }

  /** The body of the loop of the two subtracting helpers. */
  method SubtractColumn(a: string, b: string, i: nat, j: nat, borrow: nat, out: string) returns (ai: nat, bi: nat, next: nat, longer: string)
    requires IsDigits(a) && IsDigits(b) && 0 < i && Subtracting(a, b, i, j, borrow, out)
    ensures ai == i - 1 && Subtracting(a, b, ai, bi, next, longer)
  {
    var da, db;
    da, ai := TakeDigit(a, i, |out|);
    db, bi := TakeDigit(b, j, |out|);
    longer, next := BorrowColumn(da, db, borrow, out);
    AddedColumn(da - borrow + 10 * next - db, borrow, db, da, next, |out|);
  }

  /** Where the larger number is subtracted from, no borrow is left over: the rest would have to be negative. */
  lemma {:induction false} NothingBorrowed(out: string, borrow: nat, va: nat, vb: nat)
    requires IsDigits(out) && borrow <= 1 && Value(out) - Units(borrow, |out|) == va - vb && vb <= va
    ensures Value(out) == va - vb
  {
    BelowUnits(out);
    NoUnits(|out|);
    assert borrow == 0;
  }

  /** The borrowing subtraction of canonical numerals that both subtracting helpers run. */
  method BorrowSubtract(a: string, b: string) returns (r: string)
    requires IsCanonical(a) && IsCanonical(b) && Value(b) <= Value(a)
    ensures IsCanonical(r)
    ensures Value(r) == Value(a) - Value(b)
  {
    if |b| > |a| { LongerIsLarger(b, a); }
    var borrow: nat := 0;
    var out := "";
    var ai: nat, bi: nat := |a|, |b|;
    while ai > 0
      invariant Subtracting(a, b, ai, bi, borrow, out)
    {
      ai, bi, borrow, out := SubtractColumn(a, b, ai, bi, borrow, out);
    }
    assert a[0..] == a && b[0..] == b;
    NothingBorrowed(out, borrow, Value(a), Value(b));
    r := Normalize(out);
  }

  /** subtract_decimal of settle.lua and release.lua: exact, clamped at zero. */
  method SubtractDecimal(x: string, y: string) returns (r: string)
    requires IsDigits(x) && IsDigits(y)
    ensures IsCanonical(r)
    ensures Value(r) == if Value(x) <= Value(y) then 0 else Value(x) - Value(y)
  {
    var a, b := Normalize(x), Normalize(y);
    if CompareDecimal(a, b) <= 0 {
      assert "0"[..0] == "";
      return "0";
    }
    r := BorrowSubtract(a, b);
  }
}
