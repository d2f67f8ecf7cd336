// The numbered reconciliation attempts of one decision: concurrent reconciles that read the highest
// number, insert the next one and retry when another was faster (src/engines/casper-guard/reconcile-worker.ts).
module ReconcileAttempts {

  const RETRIES: nat := 5

  /** nextAttemptNumber: one more than the highest number, or than zero. */
  function NextAttemptNumber(attempts: set<int>): (n: int)
    ensures forall a :: a in attempts ==> a < n
    ensures n == 1 || n - 1 in attempts
    ensures n >= 1
  {
    Highest(attempts) + 1
  }

  /** Math.max(0, ...numbers) */
  function Highest(attempts: set<int>): (h: nat)
    ensures forall a :: a in attempts ==> a <= h
    ensures h == 0 || h in attempts
  {
    if forall a :: a in attempts ==> a <= 0 then 0 else HighestOf(attempts)
  }

  ghost predicate IsHighest(attempts: set<int>, h: int) { h in attempts && forall a :: a in attempts ==> a <= h }

  lemma {:induction false} SomeIsHighest(attempts: set<int>, x: int)
    requires x in attempts
    ensures exists h :: IsHighest(attempts, h)
    decreases |attempts|
  {
    if y :| y in attempts && y > x {
      var rest := attempts - {x};
      SomeIsHighest(rest, y);
      var h :| IsHighest(rest, h);
      assert y <= h;
      forall a | a in attempts
        ensures a <= h
      {
        assert a != x ==> a in rest;
      }
      assert IsHighest(attempts, h);
    } else {
      assert IsHighest(attempts, x);
    }
  }

  function HighestOf(attempts: set<int>): (h: int)
    requires exists x :: x in attempts
    ensures h in attempts && forall a :: a in attempts ==> a <= h
  {
    SomeHighest(attempts);
    var h :| h in attempts && forall a :: a in attempts ==> a <= h;
    h
  }

  lemma SomeHighest(attempts: set<int>)
    requires exists x :: x in attempts
    ensures exists h :: h in attempts && forall a :: a in attempts ==> a <= h
  {
    var x :| x in attempts;
    SomeIsHighest(attempts, x);
    var h :| IsHighest(attempts, h);
    assert h in attempts && forall a :: a in attempts ==> a <= h;
  }

  // ---- The protocol ------------------------------------------------------------------------------

  /** A reconcile call: about to read, about to insert a number, or through. */
  datatype Call =
    | ReadDue(retry: nat) | InsertDue(number: int, retry: nat)
    | Appended(number: int) | Conflict

  /** The attempt numbers stored for the decision, unique by the table's primary key. */
  datatype World = World(attempts: set<int>, calls: map<nat, Call>)

  datatype Action = Begin(p: nat) | Step(p: nat) | Crash(p: nat)

  predicate Enabled(w: World, act: Action) {
    match act
    case Begin(p) => p !in w.calls
    case Step(p) => p in w.calls
    case Crash(p) => p in w.calls
  }

  function SetCall(w: World, p: nat, c: Call): World { w.(calls := w.calls[p := c]) }

  function Apply(w: World, act: Action): World
    requires Enabled(w, act)
  {
    match act
    case Begin(p) => SetCall(w, p, ReadDue(0))
    case Crash(p) => SetCall(w, p, Conflict)
    case Step(p) =>
      match w.calls[p]
      case ReadDue(retry) => SetCall(w, p, InsertDue(NextAttemptNumber(w.attempts), retry))
      case InsertDue(number, retry) =>
        if number !in w.attempts then SetCall(w.(attempts := w.attempts + {number}), p, Appended(number))
        else SetCall(w, p, if retry + 1 < RETRIES then ReadDue(retry + 1) else Conflict)
      case _ => w
  }

  // ---- No gaps ------------------------------------------------------------------------------------

  /** Exactly the numbers from 1 to n. */
  ghost predicate GapFree(attempts: set<int>, n: nat) { forall a :: a in attempts <==> 1 <= a <= n }

  predicate CallGood(w: World, c: Call) {
    match c
    case InsertDue(number, retry) => number >= 1 && (number == 1 || number - 1 in w.attempts) && retry < RETRIES
    case ReadDue(retry) => retry < RETRIES
    case Appended(number) => number in w.attempts
    case Conflict => true
  }

  ghost predicate Inv(w: World) {
    && (exists n: nat :: GapFree(w.attempts, n))
    && forall p :: p in w.calls ==> CallGood(w, w.calls[p])
  }

  lemma Inserted(attempts: set<int>, n: nat, number: int)
    requires GapFree(attempts, n) && number !in attempts && number >= 1 && (number == 1 || number - 1 in attempts)
    ensures number == n + 1 && GapFree(attempts + {number}, n + 1)
  {
  }

  lemma ActionKeeps(w: World, act: Action)
    requires Inv(w) && Enabled(w, act)
    ensures Inv(Apply(w, act)) && w.attempts <= Apply(w, act).attempts
  {
    var u := Apply(w, act);
    var n: nat :| GapFree(w.attempts, n);
    if act.Step? && w.calls[act.p].InsertDue? && w.calls[act.p].number !in w.attempts {
      assert CallGood(w, w.calls[act.p]);
      Inserted(w.attempts, n, w.calls[act.p].number);
      assert GapFree(u.attempts, n + 1);
    } else {
      assert u.attempts == w.attempts;
    }
    forall p | p in u.calls
      ensures CallGood(u, u.calls[p])
    {
      if p in w.calls { assert CallGood(w, w.calls[p]); }
    }
  }

  function Next(w: World, act: Action): World { if Enabled(w, act) then Apply(w, act) else w }

  function After(w: World, acts: seq<Action>): World {
    if acts == [] then w else Next(After(w, acts[..|acts| - 1]), acts[|acts| - 1])
  }

  predicate Initial(w: World) { w.attempts == {} && w.calls == map[] }

  lemma {:induction false} RunKeeps(w: World, acts: seq<Action>)
    requires Inv(w)
    ensures Inv(After(w, acts)) && w.attempts <= After(w, acts).attempts
  {
    if acts != [] {
      RunKeeps(w, acts[..|acts| - 1]);
      if Enabled(After(w, acts[..|acts| - 1]), acts[|acts| - 1]) { ActionKeeps(After(w, acts[..|acts| - 1]), acts[|acts| - 1]); }
    }
  }

  /** However many reconciles run, retry or crash, the stored attempt numbers are always exactly 1 to n. */
  lemma {:induction false} AttemptsAreGapFree(w: World, acts: seq<Action>)
    requires Initial(w)
    ensures var u := After(w, acts); exists n: nat :: GapFree(u.attempts, n) && n == |u.attempts|
  {
    assert GapFree(w.attempts, 0);
    RunKeeps(w, acts);
    var u := After(w, acts);
    var n: nat :| GapFree(u.attempts, n);
    CountOfGapFree(u.attempts, n);
  }

  lemma {:induction false} CountOfGapFree(attempts: set<int>, n: nat)
    requires GapFree(attempts, n)
    ensures |attempts| == n
  {
    if n == 0 {
      assert forall a :: a !in attempts;
      assert attempts == {};
    } else {
      CountOfGapFree(attempts - {n}, n - 1);
    }
  }

  /** A call that appended its attempt did so under a number nobody else has, and the attempt stays. */
  lemma {:induction false} AppendedStays(w: World, acts: seq<Action>, more: seq<Action>, p: nat)
    requires Initial(w) && p in After(w, acts).calls && After(w, acts).calls[p].Appended?
    ensures After(w, acts).calls[p].number in After(After(w, acts), more).attempts
  {
    assert GapFree(w.attempts, 0);
    RunKeeps(w, acts);
    assert CallGood(After(w, acts), After(w, acts).calls[p]);
    RunKeeps(After(w, acts), more);
  }

  // ---- When a call gives up ----------------------------------------------------------------------

  /** The insert of call p is refused in this step, because its number is taken. */
  predicate Refuses(w: World, act: Action, p: nat) {
    act.Step? && act.p == p && p in w.calls && w.calls[p].InsertDue? && w.calls[p].number in w.attempts
  }

  ghost function Refusals(w: World, acts: seq<Action>, p: nat): nat {
    if acts == [] then 0
    else Refusals(w, acts[..|acts| - 1], p) + if Refuses(After(w, acts[..|acts| - 1]), acts[|acts| - 1], p) then 1 else 0
  }

  /** How often a call was refused, by where it stands. */
  predicate RefusedSo(c: Call, n: nat) {
    match c
    case ReadDue(retry) => n == retry && n < 5
    case InsertDue(_, retry) => n == retry && n < 5
    case Appended(_) => n < 5
    case Conflict => n == 5
  }

  lemma RefusalCounts(w: World, act: Action, p: nat, n: nat)
    requires Enabled(w, act) && act != Crash(p) && (p in w.calls ==> RefusedSo(w.calls[p], n)) && (p !in w.calls ==> n == 0)
    ensures var u := Apply(w, act);
            p in u.calls ==> RefusedSo(u.calls[p], n + if Refuses(w, act, p) then 1 else 0)
    ensures p !in Apply(w, act).calls ==> p !in w.calls && !Refuses(w, act, p)
  {
  }

  /** A call that does not crash gives up exactly when its fifth insert is refused. */
  lemma {:induction false} FiveRefusals(w: World, acts: seq<Action>, p: nat)
    requires Initial(w) && Crash(p) !in acts
    ensures var u := After(w, acts); if p in u.calls then RefusedSo(u.calls[p], Refusals(w, acts, p)) else Refusals(w, acts, p) == 0
    decreases |acts|
  {
    if acts != [] {
      var front, act := acts[..|acts| - 1], acts[|acts| - 1];
      FiveRefusals(w, front, p);
      if Enabled(After(w, front), act) { RefusalCounts(After(w, front), act, p, Refusals(w, front, p)); }
    }
  }

  // ---- The retry loop on its own -------------------------------------------------------------------

  class AttemptLog {
    var attempts: set<int>

    constructor ()
      ensures attempts == {}
    {
      attempts := {};
    }

    /** INSERT under the primary key (decision, attempt number). */
    method Insert(number: int) returns (inserted: bool)
      modifies this
      ensures inserted <==> number !in old(attempts)
      ensures attempts == old(attempts) + {number}
    {
      inserted := number !in attempts;
      attempts := attempts + {number};
    }

    /** With nobody beside it, the loop appends after at most one retry, whatever number it was first given. */
    method AppendReconciliationAttempt(first: int) returns (ok: bool, number: int)
      modifies this
      ensures ok && number !in old(attempts) && attempts == old(attempts) + {number}
      ensures number == if first !in old(attempts) then first else NextAttemptNumber(old(attempts))
    {
      number := first;
      for retry := 0 to RETRIES
        invariant attempts == old(attempts)
        invariant retry == 0 ==> number == first
        invariant retry > 0 ==> first in attempts && number == NextAttemptNumber(attempts)
        invariant retry <= 1
      {
        var inserted := Insert(number);
        if inserted { return true, number; }
        assert attempts == old(attempts);
        number := NextAttemptNumber(attempts);
      }
      ok := false;
    }
  }
}
