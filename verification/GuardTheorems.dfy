// What every run of the guard protocol guarantees.
module GuardTheorems {
  import opened Options
  import opened T = GuardTables
  import opened GuardProtocol
  import opened GuardRuns

  // ---- Runs -------------------------------------------------------------------------------------

  lemma {:induction false} AfterOneMore(w: World, acts: seq<Action>, act: Action)
    ensures After(w, acts + [act]) == Next(After(w, acts), act)
  {
  }

  // ---- No row is ever taken back -------------------------------------------------------------------

  lemma LocalAdvances(w: World, u: World, d: DecisionId)
    requires Owned(w) && LocalStep(w, u, d)
    ensures Advances(w.tables, u.tables)
  {
    forall e | e in w.tables.decisions
      ensures e in u.tables.decisions && RowAdvances(w.tables.decisions[e], u.tables.decisions[e])
    {
      if e != d { assert SliceOf(u, e).row == SliceOf(w, e).row; } else { assert SliceOf(w, e).row == Some(w.tables.decisions[e]); }
    }
    forall e | e in w.tables.holds
      ensures e in u.tables.holds && HoldAdvances(w.tables.holds[e], u.tables.holds[e])
    {
      if e != d { assert SliceOf(u, e).hold == SliceOf(w, e).hold; } else { assert SliceOf(w, e).hold == Some(w.tables.holds[e]); }
    }
  }

  /** The one SQL statement that a worker step runs, if any. */
  datatype Statement =
    | Nothing | Terminate(d: DecisionId, status: Status) | CheckExpiry(d: DecisionId)
    | Settling(d: DecisionId, tx: Option<string>, deploy: Option<string>)
    | SettlingHold(d: DecisionId) | ReleasingHold(d: DecisionId) | Suspending(a: AgentId, o: OrgId)

  function StatementOf(v: Worker, c: Choice): Statement {
    match v
    case SettleDue(d, _, tx, deploy) => Settling(d, tx, deploy)
    case SettleBoth(d, _, hot, row) => if c.RowStore? && !row then SettlingHold(d) else Nothing
    case ExpiryDue(d, _) => CheckExpiry(d)
    case TerminalDue(d, _, s) => if IsFailed(s) then Terminate(d, s) else Nothing
    case ReleaseBoth(d, _, hot, row) => if c.RowStore? && !row then ReleasingHold(d) else Nothing
    case SuspendDue(a, o) => Suspending(a, o)
    case Aborting(_, _, _, todo) => if c.Abort? && c.next in todo then Terminate(c.next, FailedTerminal) else Nothing
    case AbortReleases(_, _, _, _, d, hot, row) => if c.RowStore? && !row then ReleasingHold(d) else Nothing
    case _ => Nothing
  }

  function Execute(t: Tables, s: Statement): Tables {
    match s
    case Nothing => t
    case Terminate(d, status) => if IsFailed(status) then MarkTerminal(t, d, status).0 else t
    case CheckExpiry(d) => MarkExpiryCheck(t, d).0
    case Settling(d, tx, deploy) => MarkSettled(t, d, tx, deploy).0
    case SettlingHold(d) => SettleHoldRow(t, d).0
    case ReleasingHold(d) => ReleaseHoldRow(t, d).0
    case Suspending(a, o) => SuspendAgent(t, a, o).0
  }

  lemma SettleExecutes(w: World, p: nat, d: DecisionId, a: AgentId, tx: Option<string>, deploy: Option<string>)
    ensures ApplySettle(w, p, d, a, tx, deploy).tables == MarkSettled(w.tables, d, tx, deploy).0
  {
  }

  lemma SettlementExecutes(w: World, u: World, p: nat, c: Choice)
    requires p in w.workers && u == ApplyWorker(w, p, c) && (w.workers[p].SettleDue? || w.workers[p].SettleBoth? || w.workers[p].ExpiryDue?)
    ensures u.tables == Execute(w.tables, StatementOf(w.workers[p], c))
  {
    var v := w.workers[p];
    if v.SettleDue? { SettleExecutes(w, p, v.d, v.agent, v.tx, v.deploy); }
  }

  lemma ResolutionExecutes(w: World, u: World, p: nat, c: Choice)
    requires p in w.workers && u == ApplyWorker(w, p, c) && (w.workers[p].ResolveDue? || w.workers[p].TerminalDue? || w.workers[p].ReleaseBoth?)
    ensures u.tables == Execute(w.tables, StatementOf(w.workers[p], c))
  {
  }

  lemma AbortExecutes(w: World, u: World, p: nat, c: Choice)
    requires p in w.workers && u == ApplyWorker(w, p, c) && (w.workers[p].Aborting? || w.workers[p].AbortReleases?)
    ensures u.tables == Execute(w.tables, StatementOf(w.workers[p], c))
  {
  }

  lemma RevokeExecutes(w: World, u: World, p: nat, c: Choice)
    requires p in w.workers && u == ApplyWorker(w, p, c) && (w.workers[p].SuspendDue? || w.workers[p].KeyDue? || w.workers[p].ListDue? || w.workers[p].RevokeDone?)
    ensures u.tables == Execute(w.tables, StatementOf(w.workers[p], c))
  {
  }

  lemma ReadingExecutes(w: World, u: World, p: nat, c: Choice)
    requires p in w.workers && u == ApplyWorker(w, p, c) && (w.workers[p].ReconcileDue? || w.workers[p].ObserveDue? || w.workers[p].RereadDue? || w.workers[p].ReconcileDone? || w.workers[p].WorkerCrashed?)
    ensures u.tables == Execute(w.tables, StatementOf(w.workers[p], c))
  {
  }

  lemma WorkerExecutes(w: World, u: World, p: nat, c: Choice)
    requires p in w.workers && u == ApplyWorker(w, p, c)
    ensures u.tables == Execute(w.tables, StatementOf(w.workers[p], c))
  {
    var v := w.workers[p];
    if v.SettleDue? || v.SettleBoth? || v.ExpiryDue? { SettlementExecutes(w, u, p, c); }
    else if v.ResolveDue? || v.TerminalDue? || v.ReleaseBoth? { ResolutionExecutes(w, u, p, c); }
    else if v.Aborting? || v.AbortReleases? { AbortExecutes(w, u, p, c); }
    else if IsRevoke(v) { RevokeExecutes(w, u, p, c); }
    else { ReadingExecutes(w, u, p, c); }
  }

  lemma ExecuteAdvances(t: Tables, s: Statement)
    ensures Advances(t, Execute(t, s))
  {
    match s
    case Nothing =>
    case Terminate(d, status) => if IsFailed(status) { FailingAdvances(t, d, status); }
    case CheckExpiry(d) => FailingAdvances(t, d, Expired);
    case Settling(d, tx, deploy) => SigningAdvances(t, d, "", tx, deploy);
    case SettlingHold(d) => HoldStatementsAdvance(t, d);
    case ReleasingHold(d) => HoldStatementsAdvance(t, d);
    case Suspending(_, _) =>
  }

  lemma AuthAdvances(w: World, u: World, d: DecisionId, c: Choice)
    requires Owned(w) && AllGood(w) && d in w.auths && u == ApplyAuth(w, d, c)
    ensures Advances(w.tables, u.tables)
  {
    AuthStepLocal(w, d, c);
    if u != w { LocalAdvances(w, u, d); }
  }

  lemma WorkerAdvances(w: World, u: World, p: nat, c: Choice)
    requires p in w.workers && u == ApplyWorker(w, p, c)
    ensures Advances(w.tables, u.tables)
  {
    WorkerExecutes(w, u, p, c);
    ExecuteAdvances(w.tables, StatementOf(w.workers[p], c));
  }

  lemma ActionAdvances(w: World, act: Action)
    requires Inv(w) && Enabled(w, act)
    ensures Advances(w.tables, Apply(w, act).tables)
  {
    match act
    case AuthStep(d, c) => AuthAdvances(w, Apply(w, act), d, c);
    case WorkerStep(p, c) => WorkerAdvances(w, Apply(w, act), p, c);
    case _ => SameAdvances(w.tables, Apply(w, act).tables);
  }

  lemma SameAdvances(t: Tables, u: Tables)
    requires u == t
    ensures Advances(t, u)
  {
  }

  /** Over any run no row disappears, no identity column changes, no status moves back. */
  lemma {:induction false} RunAdvances(w: World, acts: seq<Action>)
    requires Inv(w)
    ensures Advances(w.tables, After(w, acts).tables)
  {
    if acts != [] {
      var before, act := After(w, acts[..|acts| - 1]), acts[|acts| - 1];
      RunAdvances(w, acts[..|acts| - 1]);
      RunKeeps(w, acts[..|acts| - 1]);
      if Enabled(before, act) {
        ActionAdvances(before, act);
        AdvancesTransitive(w.tables, before.tables, Apply(before, act).tables);
      }
    }
  }

  lemma AdvancedTerminal(t: Tables, u: Tables, d: DecisionId)
    requires Advances(t, u) && d in t.decisions && IsTerminal(t.decisions[d].status)
    ensures d in u.decisions && u.decisions[d] == t.decisions[d]
  {
  }

  /** Terminal statuses are absorbing, whatever else runs. */
  lemma {:induction false} TerminalForever(w: World, acts: seq<Action>, d: DecisionId)
    requires Inv(w) && d in w.tables.decisions && IsTerminal(w.tables.decisions[d].status)
    ensures d in After(w, acts).tables.decisions && After(w, acts).tables.decisions[d] == w.tables.decisions[d]
  {
    RunAdvances(w, acts);
    AdvancedTerminal(w.tables, After(w, acts).tables, d);
  }

  // ---- Revoke is a hard stop -------------------------------------------------------------------------

  /** Signed or past it: the decisions that a revoke reports as already committed. */
  predicate CommittedFor(t: Tables, d: DecisionId, a: AgentId, o: OrgId) {
    d in t.decisions && t.decisions[d].agent == a && t.decisions[d].org == o
    && (var s := t.decisions[d].status; s.Signed? || s.Broadcasting? || s.ExpiryCheck? || s.Settled?)
  }

  lemma ExecuteCommitsNothing(t: Tables, s: Statement, d: DecisionId, a: AgentId, o: OrgId)
    requires CommittedFor(Execute(t, s), d, a, o)
    ensures CommittedFor(t, d, a, o)
  {
  }

  lemma WritingCommitsNothing(w: World, u: World, d: DecisionId, c: Choice, e: DecisionId, a: AgentId, o: OrgId)
    requires d in w.auths && u == ApplyAuth(w, d, c) && (w.auths[d].at.DenyDue? || w.auths[d].at.InsertDue? || w.auths[d].at.FailDue?)
    requires CommittedFor(u.tables, e, a, o)
    ensures CommittedFor(w.tables, e, a, o)
  {
  }

  lemma AuthCommitsNothing(w: World, d: DecisionId, c: Choice, e: DecisionId, a: AgentId, o: OrgId)
    requires d in w.auths && !w.auths[d].at.MarkDue?
    requires CommittedFor(ApplyAuth(w, d, c).tables, e, a, o)
    ensures CommittedFor(w.tables, e, a, o)
  {
    var u := ApplyAuth(w, d, c);
    if WritesRow(w.auths[d].at) { WritingCommitsNothing(w, u, d, c, e, a, o); } else { AuthRows(w, u, d, c); }
  }

  lemma WorkerCommitsNothing(w: World, u: World, p: nat, c: Choice, e: DecisionId, a: AgentId, o: OrgId)
    requires p in w.workers && u == ApplyWorker(w, p, c) && CommittedFor(u.tables, e, a, o)
    ensures CommittedFor(w.tables, e, a, o)
  {
    WorkerExecutes(w, u, p, c);
    ExecuteCommitsNothing(w.tables, StatementOf(w.workers[p], c), e, a, o);
  }

  lemma MarkCommitsItsOwn(w: World, d: DecisionId, c: Choice, e: DecisionId, a: AgentId, o: OrgId)
    requires d in w.auths && w.auths[d].at.MarkDue?
    requires CommittedFor(ApplyAuth(w, d, c).tables, e, a, o) && !CommittedFor(w.tables, e, a, o)
    ensures d == e && ReservedFor(w.tables, e, a, o)
  {
  }

  lemma OutsideCommitsNothing(w: World, act: Action)
    requires Enabled(w, act) && !act.AuthStep? && !act.WorkerStep?
    ensures Apply(w, act).tables == w.tables
  {
  }

  /** Only markCasperGuardDecisionSigned commits a decision, its own one, and only while that is RESERVED. */
  lemma OnlySigningCommits(w: World, act: Action, e: DecisionId, a: AgentId, o: OrgId)
    requires Enabled(w, act)
    requires CommittedFor(Apply(w, act).tables, e, a, o) && !CommittedFor(w.tables, e, a, o)
    ensures act.AuthStep? && act.d == e && w.auths[e].at.MarkDue? && ReservedFor(w.tables, e, a, o)
  {
    if act.WorkerStep? { WorkerCommitsNothing(w, ApplyWorker(w, act.p, act.c), act.p, act.c, e, a, o); }
    if !act.AuthStep? && !act.WorkerStep? { OutsideCommitsNothing(w, act); }
    if act.AuthStep? && !w.auths[act.d].at.MarkDue? { AuthCommitsNothing(w, act.d, act.c, e, a, o); }
    if act.AuthStep? && w.auths[act.d].at.MarkDue? { MarkCommitsItsOwn(w, act.d, act.c, e, a, o); }
  }

  /** A worker's step changes no other worker's place, no authorize call, no lock, no switch and no policy. */
  predicate Alone(w: World, u: World, p: nat) {
    u.limits == w.limits && u.auths == w.auths && u.denyAll == w.denyAll && u.locks == w.locks && u.workers.Keys == w.workers.Keys && forall r :: r in w.workers && r != p ==> u.workers[r] == w.workers[r]
  }

  lemma SettleAlone(w: World, p: nat, d: DecisionId, a: AgentId, tx: Option<string>, deploy: Option<string>)
    requires p in w.workers
    ensures Alone(w, ApplySettle(w, p, d, a, tx, deploy), p)
  {
  }

  lemma SettlementAlone(w: World, u: World, p: nat, c: Choice)
    requires p in w.workers && u == ApplyWorker(w, p, c) && (w.workers[p].SettleDue? || w.workers[p].ExpiryDue?)
    ensures Alone(w, u, p)
  {
    var v := w.workers[p];
    if v.SettleDue? { SettleAlone(w, p, v.d, v.agent, v.tx, v.deploy); }
  }

  lemma BothSettlesAlone(w: World, u: World, p: nat, c: Choice)
    requires p in w.workers && u == ApplyWorker(w, p, c) && (w.workers[p].SettleBoth?)
    ensures Alone(w, u, p)
  {
  }

  lemma ReadingAlone(w: World, u: World, p: nat, c: Choice)
    requires p in w.workers && u == ApplyWorker(w, p, c) && (w.workers[p].ReconcileDue? || w.workers[p].ObserveDue? || w.workers[p].RereadDue? || w.workers[p].ReconcileDone? || w.workers[p].WorkerCrashed?)
    ensures Alone(w, u, p)
  {
  }

  lemma TerminateAlone(w: World, p: nat, d: DecisionId, a: AgentId, s: Status)
    requires p in w.workers
    ensures Alone(w, ApplyTerminate(w, p, d, a, s), p)
  {
  }

  lemma ResolutionAlone(w: World, u: World, p: nat, c: Choice)
    requires p in w.workers && u == ApplyWorker(w, p, c) && (w.workers[p].ResolveDue? || w.workers[p].TerminalDue? || w.workers[p].ReleaseBoth?)
    ensures Alone(w, u, p)
  {
    var v := w.workers[p];
    if v.TerminalDue? { TerminateAlone(w, p, v.d, v.agent, v.status); }
  }

  lemma RevokeAlone(w: World, u: World, p: nat, c: Choice)
    requires p in w.workers && u == ApplyWorker(w, p, c) && (w.workers[p].SuspendDue? || w.workers[p].KeyDue? || w.workers[p].ListDue? || w.workers[p].RevokeDone?)
    ensures Alone(w, u, p)
  {
  }

  lemma MarkAlone(w: World, p: nat, a: AgentId, o: OrgId, yes: bool, todo: set<DecisionId>, d: DecisionId)
    requires p in w.workers
    ensures Alone(w, ApplyAbort(w, p, a, o, yes, todo, d), p)
  {
  }

  lemma AbortingAlone(w: World, u: World, p: nat, c: Choice)
    requires p in w.workers && u == ApplyWorker(w, p, c) && w.workers[p].Aborting?
    ensures Alone(w, u, p)
  {
    var v := w.workers[p];
    if c.Abort? && c.next in v.todo {
      MarkAlone(w, p, v.a, v.o, v.suspended, v.todo, c.next);
    } else {
      NoAbortAlone(w, u, p, v.a, v.o, v.suspended, v.todo, c);
    }
  }

  lemma NoAbortAlone(w: World, u: World, p: nat, a: AgentId, o: OrgId, yes: bool, todo: set<DecisionId>, c: Choice)
    requires p in w.workers && w.workers[p] == Aborting(a, o, yes, todo) && !(c.Abort? && c.next in todo)
    requires u == if todo == {} then SetWorker(w, p, RevokeDone(a, o, yes)) else w
    ensures Alone(w, u, p)
  {
  }

  lemma AbortReleasesAlone(w: World, u: World, p: nat, c: Choice)
    requires p in w.workers && u == ApplyWorker(w, p, c) && w.workers[p].AbortReleases?
    ensures Alone(w, u, p)
  {
  }

  lemma WorkerAlone(w: World, u: World, p: nat, c: Choice)
    requires p in w.workers && u == ApplyWorker(w, p, c)
    ensures Alone(w, u, p)
  {
    var v := w.workers[p];
    if v.SettleDue? || v.ExpiryDue? { SettlementAlone(w, u, p, c); }
    else if v.SettleBoth? { BothSettlesAlone(w, u, p, c); }
    else if v.ResolveDue? || v.TerminalDue? || v.ReleaseBoth? { ResolutionAlone(w, u, p, c); }
    else if v.Aborting? { AbortingAlone(w, u, p, c); }
    else if v.AbortReleases? { AbortReleasesAlone(w, u, p, c); }
    else if IsRevoke(v) { RevokeAlone(w, u, p, c); }
    else { ReadingAlone(w, u, p, c); }
  }

  lemma DoneStays(w: World, act: Action, p: nat)
    requires Enabled(w, act) && p in w.workers && w.workers[p].RevokeDone?
    ensures p in Apply(w, act).workers && Apply(w, act).workers[p] == w.workers[p]
  {
    match act
    case AuthStep(d, c) => AuthFrame(w, Apply(w, act), d, c);
    case WorkerStep(r, c) => WorkerAlone(w, Apply(w, act), r, c);
    case _ =>
  }

  lemma {:induction false} DoneForever(w: World, acts: seq<Action>, p: nat)
    requires p in w.workers && w.workers[p].RevokeDone?
    ensures p in After(w, acts).workers && After(w, acts).workers[p] == w.workers[p]
  {
    if acts != [] {
      var before := After(w, acts[..|acts| - 1]);
      DoneForever(w, acts[..|acts| - 1], p);
      if Enabled(before, acts[|acts| - 1]) { DoneStays(before, acts[|acts| - 1], p); }
    }
  }

  lemma FencedCommitsNothing(w: World, act: Action, a: AgentId, o: OrgId, e: DecisionId)
    requires Inv(w) && Enabled(w, act) && Fenced(w, a, o, {})
    requires CommittedFor(Apply(w, act).tables, e, a, o)
    ensures CommittedFor(w.tables, e, a, o)
  {
    if !CommittedFor(w.tables, e, a, o) { OnlySigningCommits(w, act, e, a, o); }
  }

  /**
   * Once revokeAgentDelegation has returned with `agentSuspended`, no decision of that agent is ever
   * signed again, in any interleaving, whether it was inserted before, during or after the revoke:
   * whatever is committed at any later time was committed when the revoke returned.
   */
  lemma {:induction false} RevokeIsAHardStop(w: World, more: seq<Action>, p: nat, a: AgentId, o: OrgId, e: DecisionId)
    requires Inv(w) && p in w.workers && w.workers[p] == RevokeDone(a, o, true)
    requires CommittedFor(After(w, more).tables, e, a, o)
    ensures CommittedFor(w.tables, e, a, o)
  {
    if more != [] {
      var before := After(w, more[..|more| - 1]);
      RunKeeps(w, more[..|more| - 1]);
      DoneForever(w, more[..|more| - 1], p);
      assert WorkerGood(before, before.workers[p]);
      if Enabled(before, more[|more| - 1]) { FencedCommitsNothing(before, more[|more| - 1], a, o, e); }
      RevokeIsAHardStop(w, more[..|more| - 1], p, a, o, e);
    }
  }

  // ---- Calls that have stopped -------------------------------------------------------------------------

  lemma AuthKeepsOthers(w: World, u: World, e: DecisionId, c: Choice, d: DecisionId)
    requires AllGood(w) && e in w.auths && d in w.auths && d != e && u == ApplyAuth(w, e, c)
    ensures d in u.auths && u.auths[d] == w.auths[d]
  {
    assert Good(SliceOf(w, e));
    AuthStepLocal(w, e, c);
    if u != w { assert SliceOf(u, d) == SliceOf(w, d); }
  }

  lemma OthersKeepCalls(w: World, act: Action, d: DecisionId)
    requires Enabled(w, act) && !act.AuthStep? && !act.WorkerStep? && act != Crash(d) && d in w.auths
    ensures d in Apply(w, act).auths && Apply(w, act).auths[d] == w.auths[d]
  {
  }

  /** Only its own steps and its own crash change a call. */
  lemma CallStays(w: World, act: Action, d: DecisionId)
    requires AllGood(w) && Enabled(w, act) && d in w.auths && act != Crash(d) && !(act.AuthStep? && act.d == d)
    ensures d in Apply(w, act).auths && Apply(w, act).auths[d] == w.auths[d]
  {
    match act
    case AuthStep(e, c) => AuthKeepsOthers(w, Apply(w, act), e, c, d);
    case WorkerStep(p, c) => WorkerAlone(w, Apply(w, act), p, c);
    case _ => OthersKeepCalls(w, act, d);
  }

  /** A dead call stands for ever where it stood. */
  lemma {:induction false} DeadRuns(w: World, acts: seq<Action>, d: DecisionId)
    requires Inv(w) && d in w.auths && !w.auths[d].alive
    ensures d in After(w, acts).auths && After(w, acts).auths[d] == w.auths[d]
  {
    if acts != [] {
      var before := After(w, acts[..|acts| - 1]);
      DeadRuns(w, acts[..|acts| - 1], d);
      RunKeeps(w, acts[..|acts| - 1]);
      if Enabled(before, acts[|acts| - 1]) { CallStays(before, acts[|acts| - 1], d); }
    }
  }

  /** Past the point where a call could still sign. */
  predicate GaveUp(at: Point) { at.FailDue? || at.FailReleases? || at.UnlockRead? || at.UnlockDelete? || at.Finished? }

  /** Dead, or on its way out: a call that will not sign any more. */
  predicate Stopped(w: World, d: DecisionId) { d in w.auths && (!w.auths[d].alive || GaveUp(w.auths[d].at)) }

  lemma FailingGoesOn(w: World, u: World, d: DecisionId)
    requires d in w.auths && u == ApplyFail(w, d)
    ensures d in u.auths && GaveUp(u.auths[d].at)
  {
  }

  lemma ReleasingGoesOn(w: World, u: World, d: DecisionId, c: Choice)
    requires d in w.auths && w.auths[d].at.FailReleases? && u == ApplyAuth(w, d, c)
    ensures d in u.auths && GaveUp(u.auths[d].at)
  {
  }

  lemma UnlockingGoesOn(w: World, u: World, d: DecisionId, c: Choice)
    requires d in w.auths && (w.auths[d].at.UnlockRead? || w.auths[d].at.UnlockDelete? || w.auths[d].at.Finished?) && u == ApplyAuth(w, d, c)
    ensures d in u.auths && GaveUp(u.auths[d].at)
  {
  }

  lemma NoWayBack(w: World, u: World, d: DecisionId, c: Choice)
    requires d in w.auths && GaveUp(w.auths[d].at) && u == ApplyAuth(w, d, c)
    ensures d in u.auths && GaveUp(u.auths[d].at)
  {
    if w.auths[d].at.FailDue? { FailingGoesOn(w, u, d); }
    else if w.auths[d].at.FailReleases? { ReleasingGoesOn(w, u, d, c); }
    else { UnlockingGoesOn(w, u, d, c); }
  }

  lemma StoppedStays(w: World, act: Action, d: DecisionId)
    requires Inv(w) && Enabled(w, act) && Stopped(w, d)
    ensures Stopped(Apply(w, act), d)
  {
    if act.AuthStep? && act.d == d { NoWayBack(w, Apply(w, act), d, act.c); }
    else if act != Crash(d) { CallStays(w, act, d); }
  }

  lemma {:induction false} StoppedRuns(w: World, acts: seq<Action>, d: DecisionId)
    requires Inv(w) && Stopped(w, d)
    ensures Stopped(After(w, acts), d)
  {
    if acts != [] {
      var before := After(w, acts[..|acts| - 1]);
      StoppedRuns(w, acts[..|acts| - 1], d);
      RunKeeps(w, acts[..|acts| - 1]);
      if Enabled(before, acts[|acts| - 1]) { StoppedStays(before, acts[|acts| - 1], d); }
    }
  }
}
