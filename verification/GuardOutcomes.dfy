// What a reconcile, a revoke's abort and an authorize call end with when nothing disturbs them
// (src/engines/casper-guard/reconcile-worker.ts, policy.ts).
module GuardOutcomes {
  import opened Options
  import opened HoldLedger
  import opened T = GuardTables
  import opened GuardProtocol
  import opened GuardRuns
  import opened GuardTheorems
  import opened GuardScenarios

  // ---- Undisturbed runs ----------------------------------------------------------------------------

  /** A signed decision that is not terminal, its two holds outstanding, and a reconcile of it about to begin. */
  predicate Reconcilable(w: World, p: nat, d: DecisionId, a: AgentId) {
    && p in w.workers && w.workers[p] == ReconcileDue(d, a)
    && RowBelongs(w, d, a) && w.tables.decisions[d].signedHash.Some?
    && (var s := w.tables.decisions[d].status; s.Signed? || s.Broadcasting? || s.ExpiryCheck?)
    && HoldAt(w, d) == Some(HoldReserved) && HotOf(w, a, d).Some? && HotOf(w, a, d).value.phase.Held?
  }

  lemma SignedSlice(s: Slice)
    requires Good(s) && IsAllowed(s) && (s.row.value.status.Signed? || s.row.value.status.Broadcasting? || s.row.value.status.ExpiryCheck?)
    ensures s.row.value.signedHash.Some? && s.hold == Some(HoldReserved) && HotHeld(s)
  {
  }

  /** In every world that a run reaches, a decision that is signed and in flight has its holds. */
  lemma SignedIsReconcilable(w: World, p: nat, d: DecisionId, a: AgentId)
    requires Inv(w) && p in w.workers && w.workers[p] == ReconcileDue(d, a) && RowBelongs(w, d, a)
    requires var s := w.tables.decisions[d].status; s.Signed? || s.Broadcasting? || s.ExpiryCheck?
    ensures Reconcilable(w, p, d, a)
  {
    CallOf(w, d, a);
    ReadSlice(w, d, a);
    assert SliceOf(w, d).row == Some(w.tables.decisions[d]);
    SignedSlice(SliceOf(w, d));
  }

  lemma SetTwice(w: World, p: nat, v: Worker, next: Worker)
    ensures SetWorker(SetWorker(w, p, v), p, next) == SetWorker(w, p, next)
  {
    assert w.workers[p := v][p := next] == w.workers[p := next];
  }

  lemma SetAsItIs(w: World, p: nat)
    requires p in w.workers
    ensures SetWorker(w, p, w.workers[p]) == w
  {
    assert w.workers[p := w.workers[p]] == w.workers;
  }

  /** A worker step, seen from the world around the worker. */
  ghost predicate Takes(u: World, p: nat, v: Worker, c: Choice, next: World, to: Worker) {
    Next(SetWorker(u, p, v), WorkerStep(p, c)) == SetWorker(next, p, to)
  }

  lemma ReadTakes(u: World, p: nat, d: DecisionId, a: AgentId, c: Choice)
    requires d in u.tables.decisions && u.tables.decisions[d].agent == a && u.tables.decisions[d].allow && u.tables.decisions[d].signedHash.Some?
    requires var s := u.tables.decisions[d].status; s.Signed? || s.Broadcasting? || s.ExpiryCheck?
    ensures Takes(u, p, ReconcileDue(d, a), c, u, ObserveDue(d, a))
  {
    SetTwice(u, p, ReconcileDue(d, a), ObserveDue(d, a));
  }

  lemma SeeTakes(u: World, p: nat, d: DecisionId, a: AgentId, seen: Observation, to: Worker)
    requires match seen
             case SeenSettled(tx, deploy) => to == SettleDue(d, a, tx, deploy)
             case SeenPending => to == ExpiryDue(d, a)
             case SeenExpired => to == ResolveDue(d, a, Expired)
             case SeenFailed => to == ResolveDue(d, a, FailedTerminal)
    ensures Takes(u, p, ObserveDue(d, a), See(seen), u, to)
  {
    SetTwice(u, p, ObserveDue(d, a), to);
  }

  lemma SettleTakes(u: World, p: nat, d: DecisionId, a: AgentId, tx: Option<string>, deploy: Option<string>, c: Choice)
    requires MarkSettled(u.tables, d, tx, deploy).1
    ensures Takes(u, p, SettleDue(d, a, tx, deploy), c, u.(tables := MarkSettled(u.tables, d, tx, deploy).0), SettleBoth(d, a, false, false))
  {
    SetTwice(u.(tables := MarkSettled(u.tables, d, tx, deploy).0), p, SettleDue(d, a, tx, deploy), SettleBoth(d, a, false, false));
  }

  lemma HotSettleTakes(u: World, p: nat, d: DecisionId, a: AgentId)
    ensures Takes(u, p, SettleBoth(d, a, false, false), HotStore, SettleIn(u, a, d), SettleBoth(d, a, true, false))
  {
    SetTwice(SettleIn(u, a, d), p, SettleBoth(d, a, false, false), SettleBoth(d, a, true, false));
  }

  lemma RowSettleTakes(u: World, p: nat, d: DecisionId, a: AgentId)
    ensures Takes(u, p, SettleBoth(d, a, true, false), RowStore, u.(tables := SettleHoldRow(u.tables, d).0), ReconcileDone(d, a, true))
  {
    SetTwice(u.(tables := SettleHoldRow(u.tables, d).0), p, SettleBoth(d, a, true, false), ReconcileDone(d, a, true));
  }

  lemma ExpiryTakes(u: World, p: nat, d: DecisionId, a: AgentId, c: Choice)
    ensures Takes(u, p, ExpiryDue(d, a), c, u.(tables := MarkExpiryCheck(u.tables, d).0), RereadDue(d, a))
  {
    SetTwice(u.(tables := MarkExpiryCheck(u.tables, d).0), p, ExpiryDue(d, a), RereadDue(d, a));
  }

  lemma RereadTakes(u: World, p: nat, d: DecisionId, a: AgentId, c: Choice)
    requires !IsSettledRow(u, d)
    ensures Takes(u, p, RereadDue(d, a), c, u, ReconcileDone(d, a, false))
  {
    SetTwice(u, p, RereadDue(d, a), ReconcileDone(d, a, false));
  }

  lemma ResolveTakes(u: World, p: nat, d: DecisionId, a: AgentId, s: Status, c: Choice)
    requires d in u.tables.decisions && !IsTerminal(u.tables.decisions[d].status)
    ensures Takes(u, p, ResolveDue(d, a, s), c, u, TerminalDue(d, a, s))
  {
    SetTwice(u, p, ResolveDue(d, a, s), TerminalDue(d, a, s));
  }

  lemma TerminateTakes(u: World, p: nat, d: DecisionId, a: AgentId, s: Status, c: Choice)
    requires IsFailed(s) && MarkTerminal(u.tables, d, s).1
    ensures Takes(u, p, TerminalDue(d, a, s), c, u.(tables := MarkTerminal(u.tables, d, s).0), ReleaseBoth(d, a, false, false))
  {
    SetTwice(u.(tables := MarkTerminal(u.tables, d, s).0), p, TerminalDue(d, a, s), ReleaseBoth(d, a, false, false));
  }

  lemma HotReleaseTakes(u: World, p: nat, d: DecisionId, a: AgentId)
    ensures Takes(u, p, ReleaseBoth(d, a, false, false), HotStore, ReleaseIn(u, a, d), ReleaseBoth(d, a, true, false))
  {
    SetTwice(ReleaseIn(u, a, d), p, ReleaseBoth(d, a, false, false), ReleaseBoth(d, a, true, false));
  }

  lemma RowReleaseTakes(u: World, p: nat, d: DecisionId, a: AgentId)
    ensures Takes(u, p, ReleaseBoth(d, a, true, false), RowStore, u.(tables := ReleaseHoldRow(u.tables, d).0), RereadDue(d, a))
  {
    SetTwice(u.(tables := ReleaseHoldRow(u.tables, d).0), p, ReleaseBoth(d, a, true, false), RereadDue(d, a));
  }

  /** A run of worker p that ends with these surroundings, extended by one of its steps. */
  lemma {:induction false} RunTakes(w: World, acts: seq<Action>, u: World, p: nat, v: Worker, c: Choice, next: World, to: Worker)
    requires After(w, acts) == SetWorker(u, p, v) && Takes(u, p, v, c, next, to)
    ensures After(w, acts + [WorkerStep(p, c)]) == SetWorker(next, p, to)
  {
    Extend(w, acts, WorkerStep(p, c), SetWorker(u, p, v), SetWorker(next, p, to));
  }

  function Looks(p: nat, seen: Observation): seq<Action> { [WorkerStep(p, Proceed)] + [WorkerStep(p, See(seen))] }

  lemma {:induction false} RunLooks(w: World, p: nat, d: DecisionId, a: AgentId, seen: Observation, to: Worker)
    requires Reconcilable(w, p, d, a)
    requires match seen
             case SeenSettled(tx, deploy) => to == SettleDue(d, a, tx, deploy)
             case SeenPending => to == ExpiryDue(d, a)
             case SeenExpired => to == ResolveDue(d, a, Expired)
             case SeenFailed => to == ResolveDue(d, a, FailedTerminal)
    ensures After(w, Looks(p, seen)) == SetWorker(w, p, to)
  {
    SetAsItIs(w, p);
    ReadTakes(w, p, d, a, Proceed);
    AfterOne(w, WorkerStep(p, Proceed));
    SeeTakes(w, p, d, a, seen, to);
    RunTakes(w, [WorkerStep(p, Proceed)], w, p, ObserveDue(d, a), See(seen), w, to);
  }

  // ---- What each answer leads to -----------------------------------------------------------------------

  /** The row, the Postgres hold and the Redis hold of one decision, and where its worker stands; all else is as in w. */
  ghost predicate EndsAs(w: World, u: World, p: nat, d: DecisionId, a: AgentId, row: Decision, hold: HoldStatus, hot: Option<Hold>, v: Worker) {
    && u.tables.decisions == w.tables.decisions[d := row] && u.tables.holds == w.tables.holds[d := hold] && u.tables.agents == w.tables.agents
    && LedgerOf(u, a) == (if hot.Some? then LedgerOf(w, a)[d := hot.value] else LedgerOf(w, a) - {d})
    && (forall b :: b != a ==> LedgerOf(u, b) == LedgerOf(w, b))
    && u.workers == w.workers[p := v] && u.auths == w.auths
  }

  function SettlingRun(p: nat, seen: Observation): seq<Action> {
    Looks(p, seen) + [WorkerStep(p, Proceed)] + [WorkerStep(p, HotStore)] + [WorkerStep(p, RowStore)]
  }

  lemma {:induction false} RunSettles(w: World, p: nat, d: DecisionId, a: AgentId, tx: Option<string>, deploy: Option<string>, t: Tables)
    requires Reconcilable(w, p, d, a) && (t, true) == MarkSettled(w.tables, d, tx, deploy)
    ensures var s := SettleIn(w.(tables := t), a, d);
            After(w, SettlingRun(p, SeenSettled(tx, deploy))) == SetWorker(s.(tables := SettleHoldRow(s.tables, d).0), p, ReconcileDone(d, a, true))
  {
    var run, u := Looks(p, SeenSettled(tx, deploy)), w.(tables := t);
    RunLooks(w, p, d, a, SeenSettled(tx, deploy), SettleDue(d, a, tx, deploy));
    SettleTakes(w, p, d, a, tx, deploy, Proceed);
    RunTakes(w, run, w, p, SettleDue(d, a, tx, deploy), Proceed, u, SettleBoth(d, a, false, false));
    HotSettleTakes(u, p, d, a);
    RunTakes(w, run + [WorkerStep(p, Proceed)], u, p, SettleBoth(d, a, false, false), HotStore, SettleIn(u, a, d), SettleBoth(d, a, true, false));
    RowSettleTakes(SettleIn(u, a, d), p, d, a);
    RunTakes(w, run + [WorkerStep(p, Proceed)] + [WorkerStep(p, HotStore)], SettleIn(u, a, d), p, SettleBoth(d, a, true, false), RowStore,
             SettleIn(u, a, d).(tables := SettleHoldRow(t, d).0), ReconcileDone(d, a, true));
  }

  /**
   * A payment that the reader saw settled ends SETTLED, with the hashes it saw, each in its column, and those recorded
   * before where it saw none; both holds are settled.
   */
  lemma {:induction false} SeenSettledSettles(w: World, p: nat, d: DecisionId, a: AgentId, tx: Option<string>, deploy: Option<string>)
    requires Reconcilable(w, p, d, a)
    ensures var r := w.tables.decisions[d];
            EndsAs(w, After(w, SettlingRun(p, SeenSettled(tx, deploy))), p, d, a,
                   r.(status := Status.Settled, txHash := if tx.Some? then tx else r.txHash, deployHash := if deploy.Some? then deploy else r.deployHash),
                   HoldSettled, Some(HotOf(w, a, d).value.(phase := Phase.Settled)), ReconcileDone(d, a, true))
  {
    var m := MarkSettled(w.tables, d, tx, deploy);
    assert m.1;
    RunSettles(w, p, d, a, tx, deploy, m.0);
  }

  function FailingRun(p: nat, seen: Observation): seq<Action> {
    Looks(p, seen) + [WorkerStep(p, Proceed)] + [WorkerStep(p, Proceed)] + [WorkerStep(p, HotStore)] + [WorkerStep(p, RowStore)] + [WorkerStep(p, Proceed)]
  }

  lemma {:induction false} RunFails(w: World, p: nat, d: DecisionId, a: AgentId, seen: Observation, s: Status, t: Tables)
    requires Reconcilable(w, p, d, a) && ((seen.SeenExpired? && s.Expired?) || (seen.SeenFailed? && s.FailedTerminal?))
    requires (t, true) == MarkTerminal(w.tables, d, s)
    ensures var x := ReleaseIn(w.(tables := t), a, d);
            After(w, FailingRun(p, seen)) == SetWorker(x.(tables := ReleaseHoldRow(t, d).0), p, ReconcileDone(d, a, false))
  {
    var run, u := Looks(p, seen), w.(tables := t);
    var x := ReleaseIn(u, a, d);
    var y := x.(tables := ReleaseHoldRow(t, d).0);
    RunLooks(w, p, d, a, seen, ResolveDue(d, a, s));
    ResolveTakes(w, p, d, a, s, Proceed);
    RunTakes(w, run, w, p, ResolveDue(d, a, s), Proceed, w, TerminalDue(d, a, s));
    TerminateTakes(w, p, d, a, s, Proceed);
    run := run + [WorkerStep(p, Proceed)];
    RunTakes(w, run, w, p, TerminalDue(d, a, s), Proceed, u, ReleaseBoth(d, a, false, false));
    HotReleaseTakes(u, p, d, a);
    run := run + [WorkerStep(p, Proceed)];
    RunTakes(w, run, u, p, ReleaseBoth(d, a, false, false), HotStore, x, ReleaseBoth(d, a, true, false));
    RowReleaseTakes(x, p, d, a);
    run := run + [WorkerStep(p, HotStore)];
    RunTakes(w, run, x, p, ReleaseBoth(d, a, true, false), RowStore, y, RereadDue(d, a));
    RereadTakes(y, p, d, a, Proceed);
    RunTakes(w, run + [WorkerStep(p, RowStore)], y, p, RereadDue(d, a), Proceed, y, ReconcileDone(d, a, false));
  }

  /** One that it saw expired ends EXPIRED, one that it saw fail ends FAILED_TERMINAL, each with both holds given back. */
  lemma {:induction false} SeenLostReleases(w: World, p: nat, d: DecisionId, a: AgentId, seen: Observation)
    requires Reconcilable(w, p, d, a) && (seen.SeenExpired? || seen.SeenFailed?)
    ensures EndsAs(w, After(w, FailingRun(p, seen)), p, d, a,
                   w.tables.decisions[d].(status := if seen.SeenExpired? then Status.Expired else FailedTerminal),
                   HoldReleased, None, ReconcileDone(d, a, false))
  {
    var s := if seen.SeenExpired? then Status.Expired else FailedTerminal;
    var m := MarkTerminal(w.tables, d, s);
    assert m.1;
    RunFails(w, p, d, a, seen, s, m.0);
  }

  function WaitingRun(p: nat): seq<Action> { Looks(p, SeenPending) + [WorkerStep(p, Proceed)] + [WorkerStep(p, Proceed)] }

  lemma {:induction false} RunWaits(w: World, p: nat, d: DecisionId, a: AgentId, u: World)
    requires Reconcilable(w, p, d, a) && u == w.(tables := MarkExpiryCheck(w.tables, d).0)
    ensures After(w, WaitingRun(p)) == SetWorker(u, p, ReconcileDone(d, a, false))
  {
    RunLooks(w, p, d, a, SeenPending, ExpiryDue(d, a));
    ExpiryTakes(w, p, d, a, Proceed);
    RunTakes(w, Looks(p, SeenPending), w, p, ExpiryDue(d, a), Proceed, u, RereadDue(d, a));
    RereadTakes(u, p, d, a, Proceed);
    RunTakes(w, Looks(p, SeenPending) + [WorkerStep(p, Proceed)], u, p, RereadDue(d, a), Proceed, u, ReconcileDone(d, a, false));
  }

  /** One that is still pending is marked for an expiry check, and both holds stay as they were. */
  lemma {:induction false} SeenPendingWaits(w: World, p: nat, d: DecisionId, a: AgentId)
    requires Reconcilable(w, p, d, a)
    ensures EndsAs(w, After(w, WaitingRun(p)), p, d, a, w.tables.decisions[d].(status := ExpiryCheck), HoldReserved, HotOf(w, a, d), ReconcileDone(d, a, false))
  {
    RunWaits(w, p, d, a, w.(tables := MarkExpiryCheck(w.tables, d).0));
  }

  // ---- What a reconcile finds done already ---------------------------------------------------------------

  /** Nothing is left to do for a decision that is denied or failed, and nothing is done. */
  lemma ClosedIsLeftAlone(w: World, p: nat, d: DecisionId, a: AgentId, c: Choice)
    requires p in w.workers && w.workers[p] == ReconcileDue(d, a) && d in w.tables.decisions && w.tables.decisions[d].agent == a
    requires var s := w.tables.decisions[d].status; s.Denied? || s.FailedTerminal? || s.Expired?
    ensures Next(w, WorkerStep(p, c)) == w.(workers := w.workers[p := ReconcileDone(d, a, false)])
  {
  }

  /** A decision that is not there, of another agent, or not signed makes the call throw before it touches anything. */
  lemma UnsignedThrows(w: World, p: nat, d: DecisionId, a: AgentId, c: Choice)
    requires p in w.workers && w.workers[p] == ReconcileDue(d, a)
    requires d !in w.tables.decisions || w.tables.decisions[d].agent != a
             || (!IsTerminal(w.tables.decisions[d].status) && (!w.tables.decisions[d].allow || w.tables.decisions[d].signedHash.None?))
    ensures Next(w, WorkerStep(p, c)) == w.(workers := w.workers[p := WorkerCrashed])
  {
  }

  lemma FailedTakes(u: World, p: nat, d: DecisionId, a: AgentId, s: Status, c: Choice)
    requires d in u.tables.decisions && (u.tables.decisions[d].status.FailedTerminal? || u.tables.decisions[d].status.Expired?)
    ensures Takes(u, p, ResolveDue(d, a, s), c, u, ReleaseBoth(d, a, false, false))
  {
    SetTwice(u, p, ResolveDue(d, a, s), ReleaseBoth(d, a, false, false));
  }

  lemma SettledTakes(u: World, p: nat, d: DecisionId, a: AgentId, c: Choice)
    requires d in u.tables.decisions && u.tables.decisions[d].status.Settled?
    ensures Takes(u, p, RereadDue(d, a), c, u, SettleBoth(d, a, false, false))
  {
    SetTwice(u, p, RereadDue(d, a), SettleBoth(d, a, false, false));
  }

  function RepairRun(p: nat): seq<Action> { [WorkerStep(p, Proceed)] + [WorkerStep(p, HotStore)] + [WorkerStep(p, RowStore)] }

  lemma {:induction false} RunReleasesLate(w: World, p: nat, d: DecisionId, a: AgentId, s: Status, x: World, y: World)
    requires p in w.workers && w.workers[p] == ResolveDue(d, a, s) && d in w.tables.decisions && IsFailed(w.tables.decisions[d].status)
    requires x == ReleaseIn(w, a, d) && y == x.(tables := ReleaseHoldRow(w.tables, d).0)
    ensures After(w, RepairRun(p) + [WorkerStep(p, Proceed)]) == SetWorker(y, p, ReconcileDone(d, a, false))
  {
    SetAsItIs(w, p);
    FailedTakes(w, p, d, a, s, Proceed);
    AfterOne(w, WorkerStep(p, Proceed));
    HotReleaseTakes(w, p, d, a);
    RunTakes(w, [WorkerStep(p, Proceed)], w, p, ReleaseBoth(d, a, false, false), HotStore, x, ReleaseBoth(d, a, true, false));
    RowReleaseTakes(x, p, d, a);
    RunTakes(w, [WorkerStep(p, Proceed)] + [WorkerStep(p, HotStore)], x, p, ReleaseBoth(d, a, true, false), RowStore, y, RereadDue(d, a));
    RereadTakes(y, p, d, a, Proceed);
    RunTakes(w, RepairRun(p), y, p, RereadDue(d, a), Proceed, y, ReconcileDone(d, a, false));
  }

  lemma RowReleased(t: Tables, u: Tables, d: DecisionId)
    requires d in t.decisions && d in t.holds && !t.holds[d].HoldSettled? && u == ReleaseHoldRow(t, d).0
    ensures u.decisions == t.decisions[d := t.decisions[d]] && u.holds == t.holds[d := HoldReleased] && u.agents == t.agents
  {
    assert t.decisions[d := t.decisions[d]] == t.decisions;
  }

  lemma RowSettled(t: Tables, u: Tables, d: DecisionId)
    requires d in t.decisions && d in t.holds && !t.holds[d].HoldReleased? && u == SettleHoldRow(t, d).0
    ensures u.decisions == t.decisions[d := t.decisions[d]] && u.holds == t.holds[d := HoldSettled] && u.agents == t.agents
  {
    assert t.decisions[d := t.decisions[d]] == t.decisions;
  }

  lemma HotReleased(w: World, x: World, d: DecisionId, a: AgentId)
    requires x == ReleaseIn(w, a, d) && (HotOf(w, a, d).Some? ==> HotOf(w, a, d).value.phase.Held?)
    ensures LedgerOf(x, a) == LedgerOf(w, a) - {d} && (forall b :: b != a ==> LedgerOf(x, b) == LedgerOf(w, b))
    ensures x.tables == w.tables && x.workers == w.workers && x.auths == w.auths
  {
  }

  lemma HotSettled(w: World, x: World, d: DecisionId, a: AgentId)
    requires x == SettleIn(w, a, d) && HotOf(w, a, d).Some?
    ensures LedgerOf(x, a) == LedgerOf(w, a)[d := HotOf(w, a, d).value.(phase := Phase.Settled)] && (forall b :: b != a ==> LedgerOf(x, b) == LedgerOf(w, b))
    ensures x.tables == w.tables && x.workers == w.workers && x.auths == w.auths
  {
  }

  /** One that failed in the meantime keeps its status, and whatever its failure had still to give back is given back. */
  lemma {:induction false} LateFailureReleases(w: World, p: nat, d: DecisionId, a: AgentId, s: Status)
    requires p in w.workers && w.workers[p] == ResolveDue(d, a, s) && d in w.tables.decisions
    requires w.tables.decisions[d].status.FailedTerminal? || w.tables.decisions[d].status.Expired?
    requires d in w.tables.holds && !w.tables.holds[d].HoldSettled? && (HotOf(w, a, d).Some? ==> HotOf(w, a, d).value.phase.Held?)
    ensures EndsAs(w, After(w, RepairRun(p) + [WorkerStep(p, Proceed)]), p, d, a, w.tables.decisions[d], HoldReleased, None, ReconcileDone(d, a, false))
  {
    var x := ReleaseIn(w, a, d);
    var y := x.(tables := ReleaseHoldRow(w.tables, d).0);
    RunReleasesLate(w, p, d, a, s, x, y);
    RowReleased(w.tables, y.tables, d);
    HotReleased(w, x, d, a);
  }

  lemma {:induction false} RunSettlesLate(w: World, p: nat, d: DecisionId, a: AgentId, x: World, y: World)
    requires p in w.workers && w.workers[p] == RereadDue(d, a) && d in w.tables.decisions && w.tables.decisions[d].status.Settled?
    requires x == SettleIn(w, a, d) && y == x.(tables := SettleHoldRow(w.tables, d).0)
    ensures After(w, RepairRun(p)) == SetWorker(y, p, ReconcileDone(d, a, true))
  {
    SetAsItIs(w, p);
    SettledTakes(w, p, d, a, Proceed);
    AfterOne(w, WorkerStep(p, Proceed));
    HotSettleTakes(w, p, d, a);
    RunTakes(w, [WorkerStep(p, Proceed)], w, p, SettleBoth(d, a, false, false), HotStore, x, SettleBoth(d, a, true, false));
    RowSettleTakes(x, p, d, a);
    RunTakes(w, [WorkerStep(p, Proceed)] + [WorkerStep(p, HotStore)], x, p, SettleBoth(d, a, true, false), RowStore, y, ReconcileDone(d, a, true));
  }

  /** One that another call settled in the meantime has both its holds settled. */
  lemma {:induction false} LateSettlementSettles(w: World, p: nat, d: DecisionId, a: AgentId)
    requires p in w.workers && w.workers[p] == RereadDue(d, a) && d in w.tables.decisions && w.tables.decisions[d].status.Settled?
    requires d in w.tables.holds && !w.tables.holds[d].HoldReleased? && HotOf(w, a, d).Some?
    ensures EndsAs(w, After(w, RepairRun(p)), p, d, a, w.tables.decisions[d], HoldSettled,
                   Some(HotOf(w, a, d).value.(phase := Phase.Settled)), ReconcileDone(d, a, true))
  {
    var x := SettleIn(w, a, d);
    var y := x.(tables := SettleHoldRow(w.tables, d).0);
    RunSettlesLate(w, p, d, a, x, y);
    RowSettled(w.tables, y.tables, d);
    HotSettled(w, x, d, a);
  }

  /** A resolver that finds its decision gone, denied or settled gives nothing back. */
  lemma ResolvedElsewhereIsLeft(w: World, p: nat, d: DecisionId, a: AgentId, s: Status, c: Choice)
    requires p in w.workers && w.workers[p] == ResolveDue(d, a, s)
    requires d !in w.tables.decisions || w.tables.decisions[d].status == Denied || w.tables.decisions[d].status == Status.Settled
    ensures Next(w, WorkerStep(p, c)) == w.(workers := w.workers[p := RereadDue(d, a)])
  {
  }

  /** A settlement that another call has won leaves the holds to that call. */
  lemma LostSettlementIsLeft(w: World, p: nat, d: DecisionId, a: AgentId, tx: Option<string>, deploy: Option<string>, c: Choice)
    requires p in w.workers && w.workers[p] == SettleDue(d, a, tx, deploy) && d in w.tables.decisions && w.tables.decisions[d].status == Status.Settled
    ensures Next(w, WorkerStep(p, c)) == w.(workers := w.workers[p := ReconcileDone(d, a, false)])
  {
  }

  lemma LostTakes(u: World, p: nat, d: DecisionId, a: AgentId, tx: Option<string>, deploy: Option<string>, c: Choice)
    requires d in u.tables.decisions && IsFailed(u.tables.decisions[d].status)
    ensures Takes(u, p, SettleDue(d, a, tx, deploy), c, u, RereadDue(d, a))
  {
    SetTwice(u, p, SettleDue(d, a, tx, deploy), RereadDue(d, a));
  }

  /** One that failed before it could be settled stays failed, and nothing of it is settled. */
  lemma {:induction false} FailedIsNotSettled(w: World, p: nat, d: DecisionId, a: AgentId, tx: Option<string>, deploy: Option<string>)
    requires p in w.workers && w.workers[p] == SettleDue(d, a, tx, deploy) && d in w.tables.decisions
    requires w.tables.decisions[d].status.FailedTerminal? || w.tables.decisions[d].status.Expired?
    ensures After(w, [WorkerStep(p, Proceed)] + [WorkerStep(p, Proceed)]) == w.(workers := w.workers[p := ReconcileDone(d, a, false)])
  {
    SetAsItIs(w, p);
    LostTakes(w, p, d, a, tx, deploy, Proceed);
    AfterOne(w, WorkerStep(p, Proceed));
    RereadTakes(w, p, d, a, Proceed);
    RunTakes(w, [WorkerStep(p, Proceed)], w, p, RereadDue(d, a), Proceed, w, ReconcileDone(d, a, false));
  }

  // ---- A revoke's abort ----------------------------------------------------------------------------------

  lemma AbortTakes(u: World, p: nat, d: DecisionId, a: AgentId, o: OrgId, yes: bool, todo: set<DecisionId>)
    requires d in todo && MarkTerminal(u.tables, d, FailedTerminal).1
    ensures Takes(u, p, Aborting(a, o, yes, todo), Abort(d), u.(tables := MarkTerminal(u.tables, d, FailedTerminal).0),
                  AbortReleases(a, o, yes, todo - {d}, d, false, false))
  {
    SetTwice(u.(tables := MarkTerminal(u.tables, d, FailedTerminal).0), p, Aborting(a, o, yes, todo), AbortReleases(a, o, yes, todo - {d}, d, false, false));
  }

  lemma HotAbortTakes(u: World, p: nat, d: DecisionId, a: AgentId, o: OrgId, yes: bool, todo: set<DecisionId>)
    ensures Takes(u, p, AbortReleases(a, o, yes, todo, d, false, false), HotStore, ReleaseIn(u, a, d), AbortReleases(a, o, yes, todo, d, true, false))
  {
    SetTwice(ReleaseIn(u, a, d), p, AbortReleases(a, o, yes, todo, d, false, false), AbortReleases(a, o, yes, todo, d, true, false));
  }

  lemma RowAbortTakes(u: World, p: nat, d: DecisionId, a: AgentId, o: OrgId, yes: bool, todo: set<DecisionId>)
    ensures Takes(u, p, AbortReleases(a, o, yes, todo, d, true, false), RowStore, u.(tables := ReleaseHoldRow(u.tables, d).0), Aborting(a, o, yes, todo))
  {
    SetTwice(u.(tables := ReleaseHoldRow(u.tables, d).0), p, AbortReleases(a, o, yes, todo, d, true, false), Aborting(a, o, yes, todo));
  }

  function AbortRun(p: nat, d: DecisionId): seq<Action> { [WorkerStep(p, Abort(d))] + [WorkerStep(p, HotStore)] + [WorkerStep(p, RowStore)] }

  lemma {:induction false} RunAborts(w: World, p: nat, d: DecisionId, a: AgentId, o: OrgId, yes: bool, todo: set<DecisionId>, t: Tables)
    requires p in w.workers && w.workers[p] == Aborting(a, o, yes, todo) && d in todo && (t, true) == MarkTerminal(w.tables, d, FailedTerminal)
    ensures var x := ReleaseIn(w.(tables := t), a, d);
            After(w, AbortRun(p, d)) == SetWorker(x.(tables := ReleaseHoldRow(t, d).0), p, Aborting(a, o, yes, todo - {d}))
  {
    var u, rest := w.(tables := t), todo - {d};
    var x := ReleaseIn(u, a, d);
    SetAsItIs(w, p);
    AbortTakes(w, p, d, a, o, yes, todo);
    AfterOne(w, WorkerStep(p, Abort(d)));
    HotAbortTakes(u, p, d, a, o, yes, rest);
    RunTakes(w, [WorkerStep(p, Abort(d))], u, p, AbortReleases(a, o, yes, rest, d, false, false), HotStore, x, AbortReleases(a, o, yes, rest, d, true, false));
    RowAbortTakes(x, p, d, a, o, yes, rest);
    RunTakes(w, [WorkerStep(p, Abort(d))] + [WorkerStep(p, HotStore)], x, p, AbortReleases(a, o, yes, rest, d, true, false), RowStore,
             x.(tables := ReleaseHoldRow(t, d).0), Aborting(a, o, yes, rest));
  }

  /** A listed decision that is not terminal ends FAILED_TERMINAL with both holds given back, and the revoke goes on with the rest. */
  lemma {:induction false} AbortReleasesBoth(w: World, p: nat, d: DecisionId, a: AgentId, o: OrgId, yes: bool, todo: set<DecisionId>)
    requires p in w.workers && w.workers[p] == Aborting(a, o, yes, todo) && d in todo
    requires RowBelongs(w, d, a) && (var s := w.tables.decisions[d].status; s.Reserved? || s.Signed? || s.Broadcasting? || s.ExpiryCheck?)
    requires HoldAt(w, d) == Some(HoldReserved) && HotOf(w, a, d).Some? && HotOf(w, a, d).value.phase.Held?
    ensures EndsAs(w, After(w, AbortRun(p, d)), p, d, a, w.tables.decisions[d].(status := FailedTerminal), HoldReleased, None, Aborting(a, o, yes, todo - {d}))
  {
    var m := MarkTerminal(w.tables, d, FailedTerminal);
    assert m.1;
    RunAborts(w, p, d, a, o, yes, todo, m.0);
  }

  // ---- An authorize call that is refused or fails -----------------------------------------------------------

  lemma MoveTwice(u: World, d: DecisionId, at: Point, to: Point)
    requires d in u.auths
    ensures MoveTo(MoveTo(u, d, at), d, to) == MoveTo(u, d, to)
  {
    var q := u.auths[d];
    assert u.auths[d := q.(at := at)][d := q.(at := to)] == u.auths[d := q.(at := to)];
  }

  lemma MoveAsItIs(w: World, d: DecisionId)
    requires d in w.auths
    ensures MoveTo(w, d, w.auths[d].at) == w
  {
    assert w.auths[d := w.auths[d].(at := w.auths[d].at)] == w.auths;
  }

  /** A step of a live call, seen from the world around the call. */
  ghost predicate Goes(u: World, d: DecisionId, at: Point, c: Choice, next: World, to: Point)
    requires d in u.auths && next.auths == u.auths
  {
    Next(MoveTo(u, d, at), AuthStep(d, c)) == MoveTo(next, d, to)
  }

  lemma {:induction false} RunGoes(w: World, acts: seq<Action>, u: World, d: DecisionId, at: Point, c: Choice, next: World, to: Point)
    requires d in u.auths && next.auths == u.auths && After(w, acts) == MoveTo(u, d, at) && Goes(u, d, at, c, next, to)
    ensures After(w, acts + [AuthStep(d, c)]) == MoveTo(next, d, to)
  {
    Extend(w, acts, AuthStep(d, c), MoveTo(u, d, at), MoveTo(next, d, to));
  }

  /** What turns a call to its failure: a stopped organization, a suspended agent, or a fault of a check, of the signer or of its mark. */
  predicate Stumbles(w: World, d: DecisionId, c: Choice)
    requires d in w.auths
  {
    var q, at := w.auths[d].params, w.auths[d].at;
    || (at.OrgCheckDue? && (c.Fault? || q.org in w.denyAll))
    || (at.AgentCheckDue? && (c.Fault? || (q.agent in w.tables.agents && w.tables.agents[q.agent].org == q.org && w.tables.agents[q.agent].suspended)))
    || ((at.SignDue? || at.MarkDue?) && c.Fault?)
  }

  /** The call stands before its failure, and nothing is written but a call of the signer where that is what failed. */
  predicate Stumbled(w: World, u: World, d: DecisionId)
    requires d in w.auths
  {
    && u.auths == w.auths[d := w.auths[d].(at := FailDue)] && u.tables == w.tables && u.ledgers == w.ledgers && u.locks == w.locks
    && u.signerCalls == if w.auths[d].at.SignDue? then w.signerCalls + [d] else w.signerCalls
  }

  lemma CheckStumbles(w: World, d: DecisionId, c: Choice)
    requires d in w.auths && w.auths[d].alive && Stumbles(w, d, c) && (w.auths[d].at.OrgCheckDue? || w.auths[d].at.AgentCheckDue?)
    ensures Next(w, AuthStep(d, c)) == MoveTo(w, d, FailDue)
  {
  }

  lemma SignerStumbles(w: World, d: DecisionId)
    requires d in w.auths && w.auths[d].alive && w.auths[d].at.SignDue?
    ensures Next(w, AuthStep(d, Fault)) == MoveTo(w.(signerCalls := w.signerCalls + [d]), d, FailDue)
  {
  }

  lemma MarkStumbles(w: World, d: DecisionId)
    requires d in w.auths && w.auths[d].alive && w.auths[d].at.MarkDue?
    ensures Next(w, AuthStep(d, Fault)) == MoveTo(w, d, FailDue)
  {
  }

  lemma StumbleFails(w: World, d: DecisionId, c: Choice)
    requires d in w.auths && w.auths[d].alive && Stumbles(w, d, c)
    ensures Stumbled(w, Next(w, AuthStep(d, c)), d)
  {
    if w.auths[d].at.SignDue? { SignerStumbles(w, d); }
    else if w.auths[d].at.MarkDue? { MarkStumbles(w, d); }
    else { CheckStumbles(w, d, c); }
  }

  lemma FailGoes(u: World, d: DecisionId, c: Choice)
    requires d in u.auths && u.auths[d].alive && MarkTerminal(u.tables, d, FailedTerminal).1
    ensures Goes(u, d, FailDue, c, u.(tables := MarkTerminal(u.tables, d, FailedTerminal).0), FailReleases(false, false))
  {
    MoveTwice(u.(tables := MarkTerminal(u.tables, d, FailedTerminal).0), d, FailDue, FailReleases(false, false));
  }

  lemma HotFailGoes(u: World, d: DecisionId)
    requires d in u.auths && u.auths[d].alive
    ensures Goes(u, d, FailReleases(false, false), HotStore, ReleaseIn(u, u.auths[d].params.agent, d), FailReleases(true, false))
  {
    MoveTwice(ReleaseIn(u, u.auths[d].params.agent, d), d, FailReleases(false, false), FailReleases(true, false));
  }

  lemma RowFailGoes(u: World, d: DecisionId)
    requires d in u.auths && u.auths[d].alive
    ensures Goes(u, d, FailReleases(true, false), RowStore, u.(tables := ReleaseHoldRow(u.tables, d).0), UnlockRead)
  {
    MoveTwice(u.(tables := ReleaseHoldRow(u.tables, d).0), d, FailReleases(true, false), UnlockRead);
  }

  lemma UnlockReadGoes(u: World, d: DecisionId, c: Choice)
    requires d in u.auths && u.auths[d].alive
    requires var k := (u.auths[d].params.org, u.auths[d].params.key); k in u.locks && u.locks[k] == d
    ensures Goes(u, d, UnlockRead, c, u, UnlockDelete)
  {
    MoveTwice(u, d, UnlockRead, UnlockDelete);
  }

  lemma UnlockDeleteGoes(u: World, d: DecisionId, c: Choice)
    requires d in u.auths && u.auths[d].alive
    ensures Goes(u, d, UnlockDelete, c, u.(locks := u.locks - {(u.auths[d].params.org, u.auths[d].params.key)}), Finished)
  {
    MoveTwice(u.(locks := u.locks - {(u.auths[d].params.org, u.auths[d].params.key)}), d, UnlockDelete, Finished);
  }

  /** A live call that has turned to its failure, its decision not terminal, its holds outstanding, and the lock its own. */
  predicate Failing(w: World, d: DecisionId) {
    && d in w.auths && w.auths[d].alive && w.auths[d].at.FailDue?
    && (var q := w.auths[d].params;
        && RowBelongs(w, d, q.agent) && !IsTerminal(w.tables.decisions[d].status)
        && HoldAt(w, d) == Some(HoldReserved) && HotOf(w, q.agent, d).Some? && HotOf(w, q.agent, d).value.phase.Held?
        && (q.org, q.key) in w.locks && w.locks[(q.org, q.key)] == d)
  }

  function FailureRun(d: DecisionId): seq<Action> {
    [AuthStep(d, Proceed)] + [AuthStep(d, HotStore)] + [AuthStep(d, RowStore)] + [AuthStep(d, Proceed)] + [AuthStep(d, Proceed)]
  }

  lemma {:induction false} RunsToFailure(w: World, d: DecisionId, t: Tables)
    requires Failing(w, d) && (t, true) == MarkTerminal(w.tables, d, FailedTerminal)
    ensures var q := w.auths[d].params;
            var y := ReleaseIn(w.(tables := t), q.agent, d).(tables := ReleaseHoldRow(t, d).0);
            After(w, FailureRun(d)) == MoveTo(y.(locks := w.locks - {(q.org, q.key)}), d, Finished)
  {
    var q, u := w.auths[d].params, w.(tables := t);
    var x := ReleaseIn(u, q.agent, d);
    var y := x.(tables := ReleaseHoldRow(t, d).0);
    MoveAsItIs(w, d);
    FailGoes(w, d, Proceed);
    AfterOne(w, AuthStep(d, Proceed));
    var run := [AuthStep(d, Proceed)];
    HotFailGoes(u, d);
    RunGoes(w, run, u, d, FailReleases(false, false), HotStore, x, FailReleases(true, false));
    run := run + [AuthStep(d, HotStore)];
    RowFailGoes(x, d);
    RunGoes(w, run, x, d, FailReleases(true, false), RowStore, y, UnlockRead);
    run := run + [AuthStep(d, RowStore)];
    UnlockReadGoes(y, d, Proceed);
    RunGoes(w, run, y, d, UnlockRead, Proceed, y, UnlockDelete);
    UnlockDeleteGoes(y, d, Proceed);
    RunGoes(w, run + [AuthStep(d, Proceed)], y, d, UnlockDelete, Proceed, y.(locks := y.locks - {(q.org, q.key)}), Finished);
  }

  /** What a failing or a finished call leaves: this row and these holds, the call at its end, and its key free. */
  ghost predicate LeavesAs(w: World, u: World, d: DecisionId, row: Decision, hold: HoldStatus, hot: Option<Hold>)
    requires d in w.auths
  {
    var q := w.auths[d].params;
    && u.tables.decisions == w.tables.decisions[d := row] && u.tables.holds == w.tables.holds[d := hold] && u.tables.agents == w.tables.agents
    && LedgerOf(u, q.agent) == (if hot.Some? then LedgerOf(w, q.agent)[d := hot.value] else LedgerOf(w, q.agent) - {d})
    && (forall b :: b != q.agent ==> LedgerOf(u, b) == LedgerOf(w, b))
    && u.auths == w.auths[d := w.auths[d].(at := Finished)] && u.locks == w.locks - {(q.org, q.key)} && u.workers == w.workers
  }

  /** A failing call ends with its decision FAILED_TERMINAL, both holds given back and its key free. */
  lemma {:induction false} FailureReleases(w: World, d: DecisionId)
    requires Failing(w, d)
    ensures LeavesAs(w, After(w, FailureRun(d)), d, w.tables.decisions[d].(status := FailedTerminal), HoldReleased, None)
  {
    var q, m := w.auths[d].params, MarkTerminal(w.tables, d, FailedTerminal);
    assert m.1;
    RunsToFailure(w, d, m.0);
    HotReleased(w.(tables := m.0), ReleaseIn(w.(tables := m.0), q.agent, d), d, q.agent);
  }

  /** A failing call whose decision another has ended already leaves decision and holds to that other. */
  lemma LostFailureIsLeft(w: World, d: DecisionId, c: Choice)
    requires d in w.auths && w.auths[d].alive && w.auths[d].at.FailDue? && d in w.tables.decisions
    requires var s := w.tables.decisions[d].status; s == Status.Settled || s == Denied || s == FailedTerminal || s == Status.Expired
    ensures Next(w, AuthStep(d, c)) == w.(auths := w.auths[d := w.auths[d].(at := UnlockRead)])
  {
  }

  /** A call that has recorded its signature frees its key and changes nothing else. */
  lemma {:induction false} SignedCallLeaves(w: World, d: DecisionId)
    requires d in w.auths && w.auths[d].alive && w.auths[d].at.UnlockRead?
    requires var k := (w.auths[d].params.org, w.auths[d].params.key); k in w.locks && w.locks[k] == d
    ensures After(w, [AuthStep(d, Proceed)] + [AuthStep(d, Proceed)])
         == w.(auths := w.auths[d := w.auths[d].(at := Finished)], locks := w.locks - {(w.auths[d].params.org, w.auths[d].params.key)})
  {
    MoveAsItIs(w, d);
    UnlockReadGoes(w, d, Proceed);
    AfterOne(w, AuthStep(d, Proceed));
    UnlockDeleteGoes(w, d, Proceed);
    RunGoes(w, [AuthStep(d, Proceed)], w, d, UnlockDelete, Proceed, w.(locks := w.locks - {(w.auths[d].params.org, w.auths[d].params.key)}), Finished);
  }

  /** A call whose lock has gone, or is by now another's, frees nothing: the delete compares first. */
  lemma {:induction false} OthersLockIsKept(w: World, d: DecisionId, c: Choice)
    requires d in w.auths && w.auths[d].alive && w.auths[d].at.UnlockRead?
    requires var k := (w.auths[d].params.org, w.auths[d].params.key); k in w.locks ==> w.locks[k] != d
    ensures Next(w, AuthStep(d, c)) == w.(auths := w.auths[d := w.auths[d].(at := Finished)])
  {
  }

  lemma InsertGoes(u: World, d: DecisionId, c: Choice)
    requires d in u.auths && u.auths[d].alive
    requires c.Fault? || d in u.tables.decisions || d in u.tables.holds || !KeyIsNew(u.tables, u.auths[d].params.org, u.auths[d].params.key)
    ensures Goes(u, d, InsertDue, c, u, UndoDue)
  {
    MoveTwice(u, d, InsertDue, UndoDue);
  }

  lemma UndoGoes(u: World, d: DecisionId, c: Choice)
    requires d in u.auths && u.auths[d].alive
    ensures Goes(u, d, UndoDue, c, ReleaseIn(u, u.auths[d].params.agent, d), UnlockRead)
  {
    MoveTwice(ReleaseIn(u, u.auths[d].params.agent, d), d, UndoDue, UnlockRead);
  }

  /** An insert that throws, or that an index refuses, gives the Redis hold back and leaves no row. */
  lemma {:induction false} FailedInsertReleases(w: World, d: DecisionId, c: Choice)
    requires d in w.auths && w.auths[d].alive && w.auths[d].at.InsertDue?
    requires c.Fault? || d in w.tables.decisions || d in w.tables.holds || !KeyIsNew(w.tables, w.auths[d].params.org, w.auths[d].params.key)
    requires var hot := HotOf(w, w.auths[d].params.agent, d); hot.Some? && hot.value.phase.Held?
    ensures var u, a := After(w, [AuthStep(d, c)] + [AuthStep(d, Proceed)]), w.auths[d].params.agent;
            && u.tables == w.tables && LedgerOf(u, a) == LedgerOf(w, a) - {d} && (forall b :: b != a ==> LedgerOf(u, b) == LedgerOf(w, b))
            && u.auths == w.auths[d := w.auths[d].(at := UnlockRead)] && u.signerCalls == w.signerCalls
  {
    var x := ReleaseIn(w, w.auths[d].params.agent, d);
    MoveAsItIs(w, d);
    InsertGoes(w, d, c);
    AfterOne(w, AuthStep(d, c));
    UndoGoes(w, d, Proceed);
    RunGoes(w, [AuthStep(d, c)], w, d, UndoDue, Proceed, x, UnlockRead);
    HotReleased(w, x, d, w.auths[d].params.agent);
  }

  // ---- An authorize call that is only answered --------------------------------------------------------------

  /** While another call has the lock of the key, a call is answered and nothing is written. */
  lemma {:induction false} LockedKeyIsOnlyAnswered(w: World, d: DecisionId)
    requires d in w.auths && w.auths[d].alive && w.auths[d].at.LockDue? && (w.auths[d].params.org, w.auths[d].params.key) in w.locks
    ensures After(w, [AuthStep(d, Proceed)] + [AuthStep(d, Proceed)]) == w.(auths := w.auths[d := w.auths[d].(at := Finished)])
  {
    AfterOne(w, AuthStep(d, Proceed));
    MoveTwice(w, d, RefusedReply, Finished);
    AfterOneMore(w, [AuthStep(d, Proceed)], AuthStep(d, Proceed));
  }

  lemma LockGoes(w: World, d: DecisionId, k: (OrgId, Key))
    requires d in w.auths && w.auths[d].alive && w.auths[d].at.LockDue? && k == (w.auths[d].params.org, w.auths[d].params.key) && k !in w.locks
    ensures Next(w, AuthStep(d, Proceed)) == MoveTo(w.(locks := w.locks[k := d]), d, ReplayDue)
  {
  }

  lemma ReplayGoes(u: World, d: DecisionId, e: DecisionId)
    requires d in u.auths && u.auths[d].alive
    requires e in u.tables.decisions && u.tables.decisions[e].org == u.auths[d].params.org && u.tables.decisions[e].key == u.auths[d].params.key
    ensures Goes(u, d, ReplayDue, Proceed, u, UnlockRead)
  {
    MoveTwice(u, d, ReplayDue, UnlockRead);
  }

  function ReplayRun(d: DecisionId): seq<Action> {
    [AuthStep(d, Proceed)] + [AuthStep(d, Proceed)] + [AuthStep(d, Proceed)] + [AuthStep(d, Proceed)]
  }

  /** A call whose key has a decision already takes the lock, is answered, frees the lock again and writes nothing else. */
  lemma {:induction false} KnownKeyIsOnlyAnswered(w: World, d: DecisionId, e: DecisionId)
    requires d in w.auths && w.auths[d].alive && w.auths[d].at.LockDue? && (w.auths[d].params.org, w.auths[d].params.key) !in w.locks
    requires e in w.tables.decisions && w.tables.decisions[e].org == w.auths[d].params.org && w.tables.decisions[e].key == w.auths[d].params.key
    ensures After(w, ReplayRun(d)) == w.(auths := w.auths[d := w.auths[d].(at := Finished)])
  {
    var k := (w.auths[d].params.org, w.auths[d].params.key);
    var u := w.(locks := w.locks[k := d]);
    var run := [AuthStep(d, Proceed)];
    LockGoes(w, d, k);
    AfterOne(w, AuthStep(d, Proceed));
    ReplayGoes(u, d, e);
    RunGoes(w, run, u, d, ReplayDue, Proceed, u, UnlockRead);
    UnlockReadGoes(u, d, Proceed);
    RunGoes(w, run + [AuthStep(d, Proceed)], u, d, UnlockRead, Proceed, u, UnlockDelete);
    UnlockDeleteGoes(u, d, Proceed);
    RunGoes(w, run + [AuthStep(d, Proceed)] + [AuthStep(d, Proceed)], u, d, UnlockDelete, Proceed, u.(locks := u.locks - {k}), Finished);
    assert u.locks - {k} == w.locks;
  }

  // ---- An authorize call that is denied ------------------------------------------------------------------------

  /** The policy refuses, or the organization is stopped. */
  lemma RefusalGoes(u: World, d: DecisionId, c: Choice)
    requires d in u.auths && u.auths[d].alive && (!c.Proceed? || u.auths[d].params.org in u.denyAll)
    ensures Goes(u, d, PolicyDue, c, u, DenyDue)
  {
    MoveTwice(u, d, PolicyDue, DenyDue);
  }

  /** The atomic reserve refuses a payment that it has not seen. */
  lemma NoRoomGoes(u: World, d: DecisionId, backing: Backing)
    requires d in u.auths && u.auths[d].alive
    requires var q := u.auths[d].params;
             var l := LimitsOf(u, q.agent);
             d !in LedgerOf(u, q.agent) && !MayReserve(LedgerOf(u, q.agent), d, q.amount, q.at, l.spendCap, l.velocity, backing)
    ensures Next(MoveTo(u, d, ReserveDue), AuthStep(d, Backed(backing))) == MoveTo(SetLedger(u, u.auths[d].params.agent, LedgerOf(u, u.auths[d].params.agent)), d, DenyDue)
  {
    var q := u.auths[d].params;
    ReserveAnswers(LedgerOf(u, q.agent), d, q.amount, q.at, LimitsOf(u, q.agent).spendCap, LimitsOf(u, q.agent).velocity, backing);
    MoveTwice(SetLedger(u, q.agent, LedgerOf(u, q.agent)), d, ReserveDue, DenyDue);
  }

  /** The denial is recorded under a new id and key as a DENIED row without a hold, in either store. */
  lemma DenialIsRecorded(w: World, d: DecisionId, c: Choice)
    requires d in w.auths && w.auths[d].alive && w.auths[d].at.DenyDue? && d !in w.tables.decisions
    requires KeyIsNew(w.tables, w.auths[d].params.org, w.auths[d].params.key)
    ensures var u, q := Next(w, AuthStep(d, c)), w.auths[d].params;
            && u.tables == w.tables.(decisions := w.tables.decisions[d := Decision(q.org, q.key, q.agent, q.amount, q.intent, q.policyRef, false, Denied, None, None, None)])
            && u.ledgers == w.ledgers && u.auths == w.auths[d := w.auths[d].(at := UnlockRead)]
  {
  }

  /** A DENIED row with the arguments of the call, no hold in either store, and the call on its way to its lock. */
  ghost predicate DeniedAs(w: World, u: World, d: DecisionId)
    requires d in w.auths
  {
    var q := w.auths[d].params;
    && u.tables == w.tables.(decisions := w.tables.decisions[d := Decision(q.org, q.key, q.agent, q.amount, q.intent, q.policyRef, false, Denied, None, None, None)])
    && (forall b :: LedgerOf(u, b) == LedgerOf(w, b)) && u.auths == w.auths[d := w.auths[d].(at := UnlockRead)] && u.signerCalls == w.signerCalls
  }

  lemma {:induction false} RefusedIsDenied(w: World, d: DecisionId, c: Choice)
    requires d in w.auths && w.auths[d].alive && w.auths[d].at.PolicyDue? && (!c.Proceed? || w.auths[d].params.org in w.denyAll)
    requires d !in w.tables.decisions && KeyIsNew(w.tables, w.auths[d].params.org, w.auths[d].params.key)
    ensures DeniedAs(w, After(w, [AuthStep(d, c)] + [AuthStep(d, Proceed)]), d)
  {
    MoveAsItIs(w, d);
    RefusalGoes(w, d, c);
    AfterOne(w, AuthStep(d, c));
    AfterOneMore(w, [AuthStep(d, c)], AuthStep(d, Proceed));
    DenialIsRecorded(MoveTo(w, d, DenyDue), d, Proceed);
    MoveTwice(w, d, DenyDue, UnlockRead);
  }

  lemma {:induction false} NoRoomIsDenied(w: World, d: DecisionId, backing: Backing)
    requires d in w.auths && w.auths[d].alive && w.auths[d].at.ReserveDue? && !HasRoom(w, d, w.auths[d].params, backing)
    requires d !in LedgerOf(w, w.auths[d].params.agent) && d !in w.tables.decisions && KeyIsNew(w.tables, w.auths[d].params.org, w.auths[d].params.key)
    ensures DeniedAs(w, After(w, [AuthStep(d, Backed(backing))] + [AuthStep(d, Proceed)]), d)
  {
    var a := w.auths[d].params.agent;
    var u := SetLedger(w, a, LedgerOf(w, a));
    MoveAsItIs(w, d);
    NoRoomGoes(w, d, backing);
    AfterOne(w, AuthStep(d, Backed(backing)));
    AfterOneMore(w, [AuthStep(d, Backed(backing))], AuthStep(d, Proceed));
    DenialIsRecorded(MoveTo(u, d, DenyDue), d, Proceed);
    MoveTwice(u, d, DenyDue, UnlockRead);
  }
}
