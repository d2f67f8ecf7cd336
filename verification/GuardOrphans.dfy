// What a crash between the Redis reserve and the insert leaves behind (src/engines/casper-guard/policy.ts,
// src/engines/ledger/window.ts).
module GuardOrphans {
  import opened Options
  import opened HoldLedger
  import opened T = GuardTables
  import opened GuardProtocol
  import opened GuardRuns
  import opened GuardTheorems
  import opened GuardScenarios

  /** The call died while it held a reserve without a row. */
  predicate Orphaned(w: World, d: DecisionId) {
    d in w.auths && !w.auths[d].alive && (w.auths[d].at.InsertDue? || w.auths[d].at.UndoDue?)
  }

  lemma OrphanNow(w: World, d: DecisionId)
    requires Inv(w) && Orphaned(w, d)
    ensures var q := w.auths[d].params;
            HotOf(w, q.agent, d) == Some(Hold(q.amount, q.at, Phase.Held)) && d !in w.tables.decisions && d !in w.tables.holds
  {
    assert Good(SliceOf(w, d));
  }

  /** Nothing ever releases such a hold, settles it or gives it a row, in any interleaving. */
  lemma {:induction false} OrphanForever(w: World, more: seq<Action>, d: DecisionId)
    requires Inv(w) && Orphaned(w, d)
    ensures var u, q := After(w, more), w.auths[d].params;
            HotOf(u, q.agent, d) == Some(Hold(q.amount, q.at, Phase.Held)) && d !in u.tables.decisions && d !in u.tables.holds
  {
    RunKeeps(w, more);
    DeadRuns(w, more, d);
    OrphanNow(After(w, more), d);
  }

  /**
   * And it counts for ever: at any later time a payment of the same agent judged by a window that the hold falls into
   * gets through only if the cap has room for both and the velocity limit a second place.
   */
  lemma {:induction false} OrphanCounts(w: World, more: seq<Action>, d: DecisionId, p: DecisionId, amount: nat, at: int, backing: Backing)
    requires Inv(w) && Orphaned(w, d)
    requires var u, a := After(w, more), w.auths[d].params.agent;
             MayReserve(LedgerOf(u, a), p, amount, at, LimitsOf(u, a).spendCap, LimitsOf(u, a).velocity, backing)
    ensures var u, q := After(w, more), w.auths[d].params;
            && (q.at >= WindowStart(at, ThirtyDays) ==> q.amount + amount <= LimitsOf(u, q.agent).spendCap)
            && (q.at >= WindowStart(at, OneHour) ==> 2 <= LimitsOf(u, q.agent).velocity)
  {
    var u, q := After(w, more), w.auths[d].params;
    OrphanForever(w, more, d);
    ReserveAnswers(LedgerOf(u, q.agent), p, amount, at, LimitsOf(u, q.agent).spendCap, LimitsOf(u, q.agent).velocity, backing);
    HoldTakesRoom(LedgerOf(u, q.agent), d, p, amount, at, LimitsOf(u, q.agent).spendCap, LimitsOf(u, q.agent).velocity, backing);
  }

  function ReserveThenCrash(d: DecisionId, q: Params, backing: Backing): seq<Action> {
    Admission(d, q) + [AuthStep(d, Backed(backing))] + [Crash(d)]
  }

  lemma CrashOrphans(w: World, d: DecisionId)
    requires d in w.auths && w.auths[d].alive && w.auths[d].at.InsertDue?
    ensures var u := Next(w, Crash(d)); Orphaned(u, d) && u.auths[d].params == w.auths[d].params
  {
  }

  /** The run that leaves one: any call that is clear to go dies between its reserve and its insert. */
  lemma {:induction false} CrashLeavesOrphan(w: World, d: DecisionId, q: Params, backing: Backing)
    requires Clear(w, d, q, backing)
    ensures var u := After(w, ReserveThenCrash(d, q, backing)); Orphaned(u, d) && u.auths[d].params == q
  {
    RunsToHold(w, d, q, backing);
    AfterOneMore(w, Admission(d, q) + [AuthStep(d, Backed(backing))], Crash(d));
    CrashOrphans(GuardScenarios.Held(w, d, q, InsertDue), d);
  }
}
