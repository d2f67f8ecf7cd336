// stableJson: object members sorted by key at every depth, and what replay matching may conclude
// from equal texts (src/engines/casper-guard/policy.ts).
module CanonicalJson {
  import opened Options
  import opened JsonText

  // ---- Sorting by a comparator --------------------------------------------------------------

  /** A comparator as Array.prototype.sort expects it: a preorder, in which distinct keys may tie. */
  ghost predicate Consistent(c: (string, string) -> int) {
    && (forall x :: c(x, x) == 0)
    && (forall x, y :: c(x, y) < 0 <==> c(y, x) > 0)
    && (forall x, y, z :: c(x, y) <= 0 && c(y, z) <= 0 ==> c(x, z) <= 0)
  }

  /** No two distinct keys tie. */
  ghost predicate TotalOrder(c: (string, string) -> int) {
    Consistent(c) && forall x, y :: c(x, y) == 0 ==> x == y
  }

  /** Before the first key that is not smaller: equal keys keep their order. */
  function Insert(c: (string, string) -> int, k: string, v: Json, s: Members): Members {
    if s.NoMembers? || c(k, s.key) <= 0 then Member(k, v, s) else Member(s.key, s.value, Insert(c, k, v, s.rest))
  }

  function Sort(c: (string, string) -> int, m: Members): Members {
    if m.NoMembers? then m else Insert(c, m.key, m.value, Sort(c, m.rest))
  }

  /** The value with its members sorted at every depth. */
  function Canon(c: (string, string) -> int, v: Json): Json {
    match v
    case Array(items) => Array(CanonItems(c, items))
    case Object(members) => Object(Sort(c, CanonMembers(c, members)))
    case _ => v
  }
  function CanonItems(c: (string, string) -> int, s: Items): Items {
    if s.NoItems? then s else Item(Canon(c, s.head), CanonItems(c, s.rest))
  }
  function CanonMembers(c: (string, string) -> int, m: Members): Members {
    if m.NoMembers? then m else Member(m.key, Canon(c, m.value), CanonMembers(c, m.rest))
  }

  function StableJson(c: (string, string) -> int, v: Json): string { Print(Canon(c, v)) }

  // ---- Equality up to the order of members ---------------------------------------------------

  function Lookup(m: Members, k: string): Option<Json> {
    if m.NoMembers? then None else if m.key == k then Some(m.value) else Lookup(m.rest, k)
  }

  function Remove(m: Members, k: string): Members {
    if m.NoMembers? then m else if m.key == k then m.rest else Member(m.key, m.value, Remove(m.rest, k))
  }

  /** Equal but for the order of object members, at every depth. */
  predicate Same(a: Json, b: Json) {
    match a
    case Array(items) => b.Array? && SameItems(items, b.items)
    case Object(members) => b.Object? && SameMembers(members, b.members)
    case _ => a == b
  }
  predicate SameItems(s: Items, t: Items) {
    if s.NoItems? then t.NoItems? else t.Item? && Same(s.head, t.head) && SameItems(s.rest, t.rest)
  }
  predicate SameMembers(m: Members, n: Members) {
    if m.NoMembers? then n.NoMembers?
    else Lookup(n, m.key).Some? && Same(m.value, Lookup(n, m.key).value) && SameMembers(m.rest, Remove(n, m.key))
  }

  /** No object repeats a key, at any depth. */
  predicate Distinct(v: Json) {
    match v
    case Array(items) => DistinctItems(items)
    case Object(members) => DistinctMembers(members)
    case _ => true
  }
  predicate DistinctItems(s: Items) { s.Item? ==> Distinct(s.head) && DistinctItems(s.rest) }
  predicate DistinctMembers(m: Members) {
    m.Member? ==> Lookup(m.rest, m.key).None? && Distinct(m.value) && DistinctMembers(m.rest)
  }

  // ---- Sorting does not depend on the order it is given ----------------------------------------

  /** A smaller key, a larger one and a third: whatever the larger goes before, the smaller goes before. */
  lemma Compared(c: (string, string) -> int, k: string, l: string, e: string)
    requires Consistent(c) && c(k, l) < 0
    ensures c(l, k) > 0 && (c(l, e) <= 0 ==> c(k, e) <= 0)
  {
  }

  lemma {:induction false} InsertsCommuteInOrder(c: (string, string) -> int, k: string, v: Json, l: string, u: Json, s: Members)
    requires Consistent(c) && c(k, l) < 0
    ensures Insert(c, k, v, Insert(c, l, u, s)) == Insert(c, l, u, Insert(c, k, v, s))
    decreases s
  {
    Compared(c, k, l, k);
    if s.Member? {
      Compared(c, k, l, s.key);
      if c(k, s.key) > 0 {
        assert Insert(c, k, v, s) == Member(s.key, s.value, Insert(c, k, v, s.rest));
        assert Insert(c, l, u, s) == Member(s.key, s.value, Insert(c, l, u, s.rest));
        InsertsCommuteInOrder(c, k, v, l, u, s.rest);
      } else {
        assert Insert(c, k, v, s) == Member(k, v, s);
      }
    }
  }

  lemma {:induction false} InsertsCommute(c: (string, string) -> int, k: string, v: Json, l: string, u: Json, s: Members)
    requires TotalOrder(c) && k != l
    ensures Insert(c, k, v, Insert(c, l, u, s)) == Insert(c, l, u, Insert(c, k, v, s))
  {
    if c(k, l) < 0 {
      InsertsCommuteInOrder(c, k, v, l, u, s);
    } else {
      assert c(k, l) != 0;
      InsertsCommuteInOrder(c, l, u, k, v, s);
    }
  }

  /** Taking one member out before sorting and putting it in afterwards makes no difference. */
  lemma {:induction false} SortTakesOut(c: (string, string) -> int, m: Members, k: string)
    requires TotalOrder(c) && Lookup(m, k).Some? && UniqueKeys(m)
    ensures Sort(c, m) == Insert(c, k, Lookup(m, k).value, Sort(c, Remove(m, k)))
    decreases m
  {
    if m.key != k {
      SortTakesOut(c, m.rest, k);
      InsertsCommute(c, m.key, m.value, k, Lookup(m, k).value, Sort(c, Remove(m.rest, k)));
    }
  }

  predicate UniqueKeys(m: Members) { m.Member? ==> Lookup(m.rest, m.key).None? && UniqueKeys(m.rest) }

  lemma {:induction m} CanonLookup(c: (string, string) -> int, m: Members, k: string)
    ensures Lookup(CanonMembers(c, m), k).Some? <==> Lookup(m, k).Some?
    ensures Lookup(m, k).Some? ==> Lookup(CanonMembers(c, m), k).value == Canon(c, Lookup(m, k).value)
    ensures CanonMembers(c, Remove(m, k)) == Remove(CanonMembers(c, m), k)
  {
  }

  lemma {:induction false} DistinctIsUnique(c: (string, string) -> int, m: Members)
    requires DistinctMembers(m)
    ensures UniqueKeys(CanonMembers(c, m))
  {
    if m.Member? {
      CanonLookup(c, m.rest, m.key);
      DistinctIsUnique(c, m.rest);
    }
  }

  lemma {:induction false} LookupInRest(m: Members, k: string, j: string)
    requires DistinctMembers(m)
    ensures Lookup(m, k).Some? ==> Distinct(Lookup(m, k).value)
    ensures DistinctMembers(Remove(m, k)) && Lookup(Remove(m, k), k).None?
    ensures j != k ==> Lookup(Remove(m, k), j) == Lookup(m, j)
    decreases m
  {
    if m.Member? {
      LookupInRest(m.rest, k, j);
      LookupInRest(m.rest, k, m.key);
    }
  }

  /** Values that are the same up to member order have one canonical form. */
  lemma {:induction false} SameThenCanon(c: (string, string) -> int, a: Json, b: Json)
    requires TotalOrder(c) && Distinct(a) && Distinct(b) && Same(a, b)
    ensures Canon(c, a) == Canon(c, b)
    decreases a
  {
    match a
    case Array(items) => SameItemsThenCanon(c, items, b.items);
    case Object(members) => SameMembersThenCanon(c, members, b.members);
    case _ =>
  }

  lemma {:induction false} SameItemsThenCanon(c: (string, string) -> int, s: Items, t: Items)
    requires TotalOrder(c) && DistinctItems(s) && DistinctItems(t) && SameItems(s, t)
    ensures CanonItems(c, s) == CanonItems(c, t)
    decreases s
  {
    if s.Item? {
      SameThenCanon(c, s.head, t.head);
      SameItemsThenCanon(c, s.rest, t.rest);
    }
  }

  lemma {:induction false} SameMembersThenCanon(c: (string, string) -> int, m: Members, n: Members)
    requires TotalOrder(c) && DistinctMembers(m) && DistinctMembers(n) && SameMembers(m, n)
    ensures Sort(c, CanonMembers(c, m)) == Sort(c, CanonMembers(c, n))
    decreases m
  {
    if m.Member? {
      LookupInRest(n, m.key, m.key);
      SameThenCanon(c, m.value, Lookup(n, m.key).value);
      SameMembersThenCanon(c, m.rest, Remove(n, m.key));
      CanonLookup(c, n, m.key);
      DistinctIsUnique(c, n);
      SortTakesOut(c, CanonMembers(c, n), m.key);
    }
  }

  // ---- And the canonical form loses nothing else -----------------------------------------------

  lemma {:induction s} InsertLookup(c: (string, string) -> int, k: string, v: Json, s: Members, j: string)
    requires Lookup(s, k).None?
    ensures Lookup(Insert(c, k, v, s), j) == if j == k then Some(v) else Lookup(s, j)
    ensures Remove(Insert(c, k, v, s), k) == s
  {
  }

  lemma {:induction false} SortLookup(c: (string, string) -> int, m: Members, j: string)
    requires UniqueKeys(m)
    ensures Lookup(Sort(c, m), j) == Lookup(m, j)
  {
    if m.Member? {
      SortLookup(c, m.rest, j);
      SortLookup(c, m.rest, m.key);
      InsertLookup(c, m.key, m.value, Sort(c, m.rest), j);
    }
  }

  lemma {:induction false} CanonThenSame(c: (string, string) -> int, a: Json, b: Json)
    requires TotalOrder(c) && Distinct(a) && Distinct(b) && Canon(c, a) == Canon(c, b)
    ensures Same(a, b)
    decreases a
  {
    match a
    case Array(items) => CanonItemsThenSame(c, items, b.items);
    case Object(members) => CanonMembersThenSame(c, members, b.members);
    case _ =>
  }

  lemma {:induction false} CanonItemsThenSame(c: (string, string) -> int, s: Items, t: Items)
    requires TotalOrder(c) && DistinctItems(s) && DistinctItems(t) && CanonItems(c, s) == CanonItems(c, t)
    ensures SameItems(s, t)
    decreases s
  {
    if s.Item? {
      CanonThenSame(c, s.head, t.head);
      CanonItemsThenSame(c, s.rest, t.rest);
    }
  }

  /** The member that m begins with is in both canonical forms, under one value. */
  lemma {:induction false} SharedMember(c: (string, string) -> int, m: Members, n: Members)
    requires m.Member? && DistinctMembers(m) && DistinctMembers(n)
    requires Sort(c, CanonMembers(c, m)) == Sort(c, CanonMembers(c, n))
    ensures Lookup(n, m.key).Some? && Canon(c, m.value) == Canon(c, Lookup(n, m.key).value)
  {
    DistinctIsUnique(c, m);
    DistinctIsUnique(c, n);
    SortLookup(c, CanonMembers(c, m), m.key);
    SortLookup(c, CanonMembers(c, n), m.key);
    CanonLookup(c, n, m.key);
  }

  lemma {:induction false} RestOfCanon(c: (string, string) -> int, m: Members, n: Members)
    requires TotalOrder(c) && m.Member? && DistinctMembers(m) && DistinctMembers(n) && Lookup(n, m.key).Some?
    requires Sort(c, CanonMembers(c, m)) == Sort(c, CanonMembers(c, n))
    ensures Sort(c, CanonMembers(c, m.rest)) == Sort(c, CanonMembers(c, Remove(n, m.key)))
  {
    var k, cm, cn := m.key, CanonMembers(c, m.rest), CanonMembers(c, n);
    DistinctIsUnique(c, m);
    DistinctIsUnique(c, n);
    CanonLookup(c, n, k);
    SortTakesOut(c, cn, k);
    LookupInRest(n, k, k);
    CanonLookup(c, Remove(n, k), k);
    DistinctIsUnique(c, Remove(n, k));
    SortLookup(c, Remove(cn, k), k);
    SortLookup(c, cm, k);
    InsertLookup(c, k, Canon(c, m.value), Sort(c, cm), k);
    InsertLookup(c, k, Lookup(cn, k).value, Sort(c, Remove(cn, k)), k);
  }

  lemma {:induction false} CanonMembersThenSame(c: (string, string) -> int, m: Members, n: Members)
    requires TotalOrder(c) && DistinctMembers(m) && DistinctMembers(n)
    requires Sort(c, CanonMembers(c, m)) == Sort(c, CanonMembers(c, n))
    ensures SameMembers(m, n)
    decreases m
  {
    if m.Member? {
      SharedMember(c, m, n);
      LookupInRest(n, m.key, m.key);
      CanonThenSame(c, m.value, Lookup(n, m.key).value);
      RestOfCanon(c, m, n);
      CanonMembersThenSame(c, m.rest, Remove(n, m.key));
    } else if n.Member? {
      InsertIsMember(c, n.key, Canon(c, n.value), Sort(c, CanonMembers(c, n.rest)));
    }
  }

  lemma {:induction false} InsertIsMember(c: (string, string) -> int, k: string, v: Json, s: Members)
    ensures Insert(c, k, v, s).Member?
  {
  }

  // ---- Numbers stay numbers ----------------------------------------------------------------------

  lemma {:induction s} InsertNumeric(c: (string, string) -> int, k: string, v: Json, s: Members)
    requires Numeric(v) && NumericMembers(s)
    ensures NumericMembers(Insert(c, k, v, s))
  {
  }

  lemma {:induction m} SortNumeric(c: (string, string) -> int, m: Members)
    requires NumericMembers(m)
    ensures NumericMembers(Sort(c, m))
  {
    if m.Member? {
      SortNumeric(c, m.rest);
      InsertNumeric(c, m.key, m.value, Sort(c, m.rest));
    }
  }

  lemma {:induction false} CanonNumeric(c: (string, string) -> int, v: Json)
    requires Numeric(v)
    ensures Numeric(Canon(c, v))
    decreases v
  {
    match v
    case Array(items) => CanonItemsNumeric(c, items);
    case Object(members) => CanonMembersNumeric(c, members); SortNumeric(c, CanonMembers(c, members));
    case _ =>
  }

  lemma {:induction false} CanonItemsNumeric(c: (string, string) -> int, s: Items)
    requires NumericItems(s)
    ensures NumericItems(CanonItems(c, s))
    decreases s
  {
    if s.Item? { CanonNumeric(c, s.head); CanonItemsNumeric(c, s.rest); }
  }

  lemma {:induction false} CanonMembersNumeric(c: (string, string) -> int, m: Members)
    requires NumericMembers(m)
    ensures NumericMembers(CanonMembers(c, m))
    decreases m
  {
    if m.Member? { CanonNumeric(c, m.value); CanonMembersNumeric(c, m.rest); }
  }

  // ---- Main results --------------------------------------------------------------------------------

  lemma {:induction false} TotalOrderIsExact(c: (string, string) -> int, a: Json, b: Json)
    requires TotalOrder(c) && Numeric(a) && Numeric(b) && Distinct(a) && Distinct(b)
    ensures StableJson(c, a) == StableJson(c, b) <==> Same(a, b)
  {
    CanonNumeric(c, a);
    CanonNumeric(c, b);
    PrintInjective(Canon(c, a), Canon(c, b));
    if Same(a, b) { SameThenCanon(c, a, b); }
    if Canon(c, a) == Canon(c, b) { CanonThenSame(c, a, b); }
  }

  /**
   * Where no two distinct keys of one object tie, as among the fixed field names of an intent, two values have one stable
   * text if and only if they are equal up to member order.
   */
  lemma {:induction false} StableJsonIsExact(c: (string, string) -> int, a: Json, b: Json)
    requires Consistent(c) && NoTies(c, a) && NoTies(c, b) && Numeric(a) && Numeric(b) && Distinct(a) && Distinct(b)
    ensures StableJson(c, a) == StableJson(c, b) <==> Same(a, b)
  {
    BrokenIsTotal(c);
    BrokenSorts(c, a);
    BrokenSorts(c, b);
    TotalOrderIsExact(Broken(c), a, b);
  }

  // ---- Breaking ties that do not occur ---------------------------------------------------------------

  /** No two distinct keys of one object tie, at any depth. */
  ghost predicate NoTies(c: (string, string) -> int, v: Json) {
    match v
    case Array(items) => NoTiesItems(c, items)
    case Object(members) => NoTiesMembers(c, members)
    case _ => true
  }
  ghost predicate NoTiesItems(c: (string, string) -> int, s: Items) { s.Item? ==> NoTies(c, s.head) && NoTiesItems(c, s.rest) }
  ghost predicate NoTiesMembers(c: (string, string) -> int, m: Members) {
    m.Member? ==> Apart(c, m.key, m.rest) && NoTies(c, m.value) && NoTiesMembers(c, m.rest)
  }

  /** The key ties with no other key of m. */
  predicate Apart(c: (string, string) -> int, k: string, m: Members) { m.Member? ==> (k == m.key || c(k, m.key) != 0) && Apart(c, k, m.rest) }

  function Lex(x: string, y: string): int {
    if x == "" then (if y == "" then 0 else -1)
    else if y == "" then 1
    else if x[0] < y[0] then -1
    else if x[0] > y[0] then 1
    else Lex(x[1..], y[1..])
  }

  lemma {:induction false} LexDecides(x: string, y: string)
    ensures (Lex(x, y) < 0 <==> Lex(y, x) > 0) && (Lex(x, y) == 0 <==> x == y)
  {
    if x != "" && y != "" && x[0] == y[0] {
      LexDecides(x[1..], y[1..]);
      assert x == [x[0]] + x[1..] && y == [y[0]] + y[1..];
    }
  }

  lemma {:induction false} LexTransitive(x: string, y: string, z: string)
    requires Lex(x, y) <= 0 && Lex(y, z) <= 0
    ensures Lex(x, z) <= 0
  {
    if x != "" && y != "" && z != "" && x[0] == y[0] == z[0] { LexTransitive(x[1..], y[1..], z[1..]); }
  }

  /** The comparator with its ties broken. */
  function Broken(c: (string, string) -> int): (string, string) -> int { (x, y) => if c(x, y) != 0 then c(x, y) else Lex(x, y) }

  lemma BrokenTransitive(c: (string, string) -> int, x: string, y: string, z: string)
    requires Consistent(c) && Broken(c)(x, y) <= 0 && Broken(c)(y, z) <= 0
    ensures Broken(c)(x, z) <= 0
  {
    assert c(x, y) <= 0 && c(y, z) <= 0 && c(x, z) <= 0;
    if c(x, z) == 0 {
      assert c(z, x) <= 0 && c(z, y) <= 0 && c(y, x) <= 0;
      LexTransitive(x, y, z);
    }
  }

  lemma BrokenIsTotal(c: (string, string) -> int)
    requires Consistent(c)
    ensures TotalOrder(Broken(c))
  {
    var f := Broken(c);
    forall x, y
      ensures f(x, x) == 0 && (f(x, y) < 0 <==> f(y, x) > 0) && (f(x, y) == 0 ==> x == y)
    {
      LexDecides(x, x);
      LexDecides(x, y);
      assert c(x, y) < 0 <==> c(y, x) > 0;
    }
    forall x, y, z | f(x, y) <= 0 && f(y, z) <= 0
      ensures f(x, z) <= 0
    {
      BrokenTransitive(c, x, y, z);
    }
  }

  lemma {:induction false} ApartSorted(c: (string, string) -> int, k: string, j: string, v: Json, s: Members)
    requires Apart(c, k, s) && (k == j || c(k, j) != 0)
    ensures Apart(c, k, Insert(c, j, v, s))
  {
    if s.Member? && c(j, s.key) > 0 { ApartSorted(c, k, j, v, s.rest); }
  }

  lemma {:induction false} BrokenInserts(c: (string, string) -> int, k: string, v: Json, s: Members)
    requires Consistent(c) && Apart(c, k, s)
    ensures Insert(Broken(c), k, v, s) == Insert(c, k, v, s)
  {
    if s.Member? {
      LexDecides(k, s.key);
      BrokenInserts(c, k, v, s.rest);
    }
  }

  lemma {:induction false} ApartStays(c: (string, string) -> int, k: string, m: Members)
    requires Apart(c, k, m)
    ensures Apart(c, k, Sort(c, m)) && Apart(c, k, CanonMembers(c, m))
  {
    if m.Member? {
      ApartStays(c, k, m.rest);
      ApartSorted(c, k, m.key, m.value, Sort(c, m.rest));
    }
  }

  lemma {:induction false} BrokenSorts(c: (string, string) -> int, v: Json)
    requires Consistent(c) && NoTies(c, v)
    ensures Canon(Broken(c), v) == Canon(c, v)
    decreases v
  {
    match v
    case Array(items) => BrokenSortsItems(c, items);
    case Object(members) => BrokenSortsMembers(c, members);
    case _ =>
  }

  lemma {:induction false} BrokenSortsItems(c: (string, string) -> int, s: Items)
    requires Consistent(c) && NoTiesItems(c, s)
    ensures CanonItems(Broken(c), s) == CanonItems(c, s)
    decreases s
  {
    if s.Item? {
      BrokenSorts(c, s.head);
      BrokenSortsItems(c, s.rest);
    }
  }

  lemma {:induction false} BrokenSortsMembers(c: (string, string) -> int, m: Members)
    requires Consistent(c) && NoTiesMembers(c, m)
    ensures CanonMembers(Broken(c), m) == CanonMembers(c, m)
    ensures Sort(Broken(c), CanonMembers(c, m)) == Sort(c, CanonMembers(c, m))
    decreases m
  {
    if m.Member? {
      BrokenSorts(c, m.value);
      BrokenSortsMembers(c, m.rest);
      ApartStays(c, m.key, m.rest);
      ApartStays(c, m.key, CanonMembers(c, m.rest));
      BrokenInserts(c, m.key, Canon(c, m.value), Sort(c, CanonMembers(c, m.rest)));
    }
  }

  // ---- Ties that do occur ----------------------------------------------------------------------------

  function Two(p: string, q: string): Json { Object(Member(p, Null, Member(q, Null, NoMembers))) }

  lemma AlreadySorted(c: (string, string) -> int, p: string, q: string)
    requires c(p, q) <= 0
    ensures Canon(c, Two(p, q)) == Two(p, q)
  {
    var last := Member(q, Null, NoMembers);
    assert CanonMembers(c, last) == last && Sort(c, last) == last;
    assert CanonMembers(c, Two(p, q).members) == Two(p, q).members;
    assert Sort(c, Two(p, q).members) == Insert(c, p, Null, last) == Two(p, q).members;
  }

  lemma {:induction false} OneMember(k: string)
    ensures var one := Member(k, Null, NoMembers); NumericMembers(one) && SameMembers(one, one) && Remove(one, k) == NoMembers
  {
  }

  lemma Swapped(p: string, q: string)
    requires p != q
    ensures Same(Two(p, q), Two(q, p)) && Two(p, q) != Two(q, p) && Numeric(Two(p, q)) && Numeric(Two(q, p))
  {
    var m, n := Two(p, q).members, Two(q, p).members;
    OneMember(p);
    OneMember(q);
    assert Numeric(Null) && Same(Null, Null);
    assert NumericMembers(m) && NumericMembers(n);
    assert Lookup(n, p) == Lookup(n.rest, p) == Some(Null);
    assert Remove(n, p) == Member(q, Null, Remove(n.rest, p)) == m.rest;
    assert SameMembers(m, n);
  }

  /** As soon as two distinct keys tie, as they may under localeCompare, the order of members leaks into the text. */
  lemma TiesBreakCanonicity(c: (string, string) -> int, x: string, y: string)
    requires Consistent(c) && x != y && c(x, y) == 0
    ensures Same(Two(x, y), Two(y, x)) && StableJson(c, Two(x, y)) != StableJson(c, Two(y, x))
  {
    assert c(y, x) == 0;
    AlreadySorted(c, x, y);
    AlreadySorted(c, y, x);
    Swapped(x, y);
    PrintInjective(Two(x, y), Two(y, x));
  }

  // ---- Replay matching ---------------------------------------------------------------------------

  /** The value at a path of keys, as the columns of a decision row are taken from its intent. */
  function At(v: Json, path: seq<string>): Option<Json>
    decreases |path|
  {
    if path == [] then Some(v)
    else if !v.Object? || Lookup(v.members, path[0]).None? then None
    else At(Lookup(v.members, path[0]).value, path[1..])
  }

  /** A column: the text at a path, if there is one. */
  function Column(v: Json, path: seq<string>): Option<string> {
    match At(v, path)
    case Some(Text(t)) => Some(t)
    case _ => None
  }

  lemma {:induction false} SameLookup(m: Members, n: Members, k: string)
    requires SameMembers(m, n) && DistinctMembers(m) && DistinctMembers(n)
    ensures Lookup(m, k).Some? <==> Lookup(n, k).Some?
    ensures Lookup(m, k).Some? ==> Same(Lookup(m, k).value, Lookup(n, k).value)
    decreases m
  {
    if m.Member? {
      LookupInRest(n, m.key, k);
      SameLookup(m.rest, Remove(n, m.key), k);
    }
  }

  lemma {:induction false} SameColumn(a: Json, b: Json, path: seq<string>)
    requires Same(a, b) && Distinct(a) && Distinct(b)
    ensures Column(a, path) == Column(b, path)
    decreases |path|
  {
    if path != [] && a.Object? {
      SameLookup(a.members, b.members, path[0]);
      LookupInRest(a.members, path[0], path[0]);
      LookupInRest(b.members, path[0], path[0]);
      if Lookup(a.members, path[0]).Some? {
        SameColumn(Lookup(a.members, path[0]).value, Lookup(b.members, path[0]).value, path[1..]);
      }
    }
  }

  /** What a stored decision keeps of the call that made it: columns computed from the intent, and the intent itself. */
  datatype Stored<C> = Stored(agent: string, policyRef: string, columns: C, intent: Json)

  function Texts(v: Json, paths: seq<seq<string>>): (r: seq<Option<string>>)
    ensures |r| == |paths| && forall i :: 0 <= i < |paths| ==> r[i] == Column(v, paths[i])
  {
    seq(|paths|, i requires 0 <= i < |paths| => Column(v, paths[i]))
  }

  /** The columns are any function of the texts at some paths of the intent; which path counts may depend on its kind. */
  function Store<C>(agent: string, policyRef: string, intent: Json, paths: seq<seq<string>>, derive: seq<Option<string>> -> C): Stored<C> {
    Stored(agent, policyRef, derive(Texts(intent, paths)), intent)
  }

  predicate ReplayMatches<C(==)>(c: (string, string) -> int, r: Stored<C>, agent: string, policyRef: string, intent: Json,
                                 paths: seq<seq<string>>, derive: seq<Option<string>> -> C) {
    && r.agent == agent && r.policyRef == policyRef && r.columns == derive(Texts(intent, paths))
    && StableJson(c, r.intent) == StableJson(c, intent)
  }

  /** A repeated key replays the stored decision exactly for the same agent, policy and intent up to member order. */
  lemma {:induction false} ReplayMatchesSameIntent<C>(c: (string, string) -> int, agent: string, policyRef: string, intent: Json,
                                                      agent2: string, policyRef2: string, intent2: Json,
                                                      paths: seq<seq<string>>, derive: seq<Option<string>> -> C)
    requires Consistent(c) && NoTies(c, intent) && NoTies(c, intent2)
    requires Numeric(intent) && Numeric(intent2) && Distinct(intent) && Distinct(intent2)
    ensures ReplayMatches(c, Store(agent, policyRef, intent, paths, derive), agent2, policyRef2, intent2, paths, derive)
      <==> agent == agent2 && policyRef == policyRef2 && Same(intent, intent2)
  {
    StableJsonIsExact(c, intent, intent2);
    if Same(intent, intent2) {
      forall i | 0 <= i < |paths|
        ensures Column(intent, paths[i]) == Column(intent2, paths[i])
      {
        SameColumn(intent, intent2, paths[i]);
      }
      assert Texts(intent, paths) == Texts(intent2, paths);
    }
  }
}
