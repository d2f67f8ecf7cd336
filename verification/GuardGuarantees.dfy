// Caps, idempotency, the coupling of the two stores and repair, after any run of the guard protocol.
module GuardGuarantees {
  import opened Options
  import opened Sums
  import opened HoldLedger
  import opened T = GuardTables
  import opened GuardProtocol
  import opened GuardRuns
  import opened GuardTheorems

  // ---- End-to-end cap and velocity ------------------------------------------------------------

  /** The agent's allowed decisions that have not failed: quoted spend that may still reach, or has reached, the chain. */
  ghost function Live(w: World, a: AgentId): set<DecisionId> {
    set d | d in w.tables.decisions && w.tables.decisions[d].agent == a && w.tables.decisions[d].allow && !IsFailed(w.tables.decisions[d].status)
  }

  /** A decision's amount if its call's clock reading lies in the given bucket. */
  ghost function QuotedIn(w: World, win: SpendWindow, b: int): DecisionId -> int {
    d => if d in w.auths && d in w.tables.decisions && w.auths[d].params.at / WidthSeconds(win) == b then w.tables.decisions[d].amount else 0
  }

  ghost function CountedIn(w: World, win: SpendWindow, b: int): DecisionId -> int {
    d => if d in w.auths && w.auths[d].params.at / WidthSeconds(win) == b then 1 else 0
  }

  /** Every live decision still has its Redis hold, for its own amount and time. */
  lemma LiveIsHeld(w: World, a: AgentId, d: DecisionId)
    requires Inv(w) && d in Live(w, a)
    ensures d in w.auths && d in LedgerOf(w, a)
    ensures LedgerOf(w, a)[d].amount == w.tables.decisions[d].amount && LedgerOf(w, a)[d].at == w.auths[d].params.at
  {
    CallOf(w, d, a);
    ReadSlice(w, d, a);
    assert SliceOf(w, d).hot.Some?;
  }

  lemma LimitsStay(w: World, act: Action)
    requires Enabled(w, act)
    ensures Apply(w, act).limits == w.limits
  {
    match act
    case AuthStep(d, c) => AuthFrame(w, Apply(w, act), d, c);
    case WorkerStep(p, c) => WorkerAlone(w, Apply(w, act), p, c);
    case _ =>
  }

  lemma {:induction false} PoliciesAreFixed(w: World, acts: seq<Action>)
    ensures After(w, acts).limits == w.limits
  {
    if acts != [] {
      var before := After(w, acts[..|acts| - 1]);
      PoliciesAreFixed(w, acts[..|acts| - 1]);
      if Enabled(before, acts[|acts| - 1]) { LimitsStay(before, acts[|acts| - 1]); }
    }
  }

  lemma LiveWeights(w: World, a: AgentId, b: int, d: DecisionId)
    requires d in LedgerOf(w, a) && d in w.auths && d in w.tables.decisions
    requires LedgerOf(w, a)[d].amount == w.tables.decisions[d].amount && LedgerOf(w, a)[d].at == w.auths[d].params.at
    ensures QuotedIn(w, ThirtyDays, b)(d) <= WeightAt(LedgerOf(w, a), BucketWeight(ThirtyDays, b))(d)
    ensures CountedIn(w, OneHour, b)(d) <= WeightAt(LedgerOf(w, a), BucketCount(OneHour, b))(d)
  {
  }

  lemma LiveSpendWithinLedger(w: World, a: AgentId, b: int)
    requires Inv(w)
    ensures SumOver(Live(w, a), QuotedIn(w, ThirtyDays, b)) <= Measure(LedgerOf(w, a), BucketWeight(ThirtyDays, b))
  {
    var l, live, spend := LedgerOf(w, a), Live(w, a), QuotedIn(w, ThirtyDays, b);
    forall d | d in live
      ensures d in l && spend(d) <= WeightAt(l, BucketWeight(ThirtyDays, b))(d)
    {
      LiveIsHeld(w, a, d);
      LiveWeights(w, a, b, d);
    }
    SumMonotone(live, spend, l.Keys, WeightAt(l, BucketWeight(ThirtyDays, b)));
  }

  lemma LiveCountWithinLedger(w: World, a: AgentId, b: int)
    requires Inv(w)
    ensures SumOver(Live(w, a), CountedIn(w, OneHour, b)) <= Measure(LedgerOf(w, a), BucketCount(OneHour, b))
  {
    var l, live, count := LedgerOf(w, a), Live(w, a), CountedIn(w, OneHour, b);
    forall d | d in live
      ensures d in l && count(d) <= WeightAt(l, BucketCount(OneHour, b))(d)
    {
      LiveIsHeld(w, a, d);
      LiveWeights(w, a, b, d);
    }
    SumMonotone(live, count, l.Keys, WeightAt(l, BucketCount(OneHour, b)));
  }

  /**
   * After any run, crashes included: in every 30-day bucket the amounts of the agent's allowed and not
   * failed decisions sum to at most the policy's cap, and no 1-hour bucket holds more of them than its limit.
   */
  lemma {:induction false} EndToEndCap(w: World, acts: seq<Action>, a: AgentId, b: int)
    requires Initial(w)
    ensures var u := After(w, acts);
            && SumOver(Live(u, a), QuotedIn(u, ThirtyDays, b)) <= LimitsOf(w, a).spendCap
            && SumOver(Live(u, a), CountedIn(u, OneHour, b)) <= LimitsOf(w, a).velocity
  {
    var u := After(w, acts);
    InitialKeeps(w);
    RunKeeps(w, acts);
    PoliciesAreFixed(w, acts);
    LiveSpendWithinLedger(u, a, b);
    LiveCountWithinLedger(u, a, b);
    LedgerWithinPolicy(u, a);
  }

  // ---- Idempotency -------------------------------------------------------------------------------

  predicate SameKey(p: Params, q: Params) { p.org == q.org && p.key == q.key }

  lemma SignedHasRow(w: World, d: DecisionId)
    requires Inv(w) && d in w.signerCalls
    ensures d in w.auths && d in w.tables.decisions
    ensures w.tables.decisions[d].org == w.auths[d].params.org && w.tables.decisions[d].key == w.auths[d].params.key
  {
  }

  /** A finished call leaves a Redis hold behind only for a decision that it inserted. */
  lemma FinishedHoldHasRow(w: World, d: DecisionId)
    requires Inv(w) && d in w.auths && w.auths[d].at.Finished? && d in LedgerOf(w, w.auths[d].params.agent)
    ensures d in w.tables.decisions
    ensures w.tables.decisions[d].org == w.auths[d].params.org && w.tables.decisions[d].key == w.auths[d].params.key
  {
    assert Good(SliceOf(w, d)) && SliceOf(w, d).hot.Some?;
  }

  /** The signer was never called twice for one organization and key. */
  ghost predicate SignerOncePerKey(w: World) {
    forall i, j :: 0 <= i < j < |w.signerCalls| ==>
      && w.signerCalls[i] in w.auths && w.signerCalls[j] in w.auths
      && !SameKey(w.auths[w.signerCalls[i]].params, w.auths[w.signerCalls[j]].params)
  }

  /** A call that has finished, and whose payment still has its Redis hold. */
  predicate LeftHold(w: World, d: DecisionId) {
    d in w.auths && w.auths[d].at.Finished? && d in LedgerOf(w, w.auths[d].params.agent)
  }

  ghost predicate OneHoldPerKey(w: World) {
    forall d, e :: LeftHold(w, d) && LeftHold(w, e) && SameKey(w.auths[d].params, w.auths[e].params) ==> d == e
  }

  /**
   * However many calls share an organization and key, and whatever becomes of the lock: one row at most,
   * one call of the signer at most, and of the calls that finished at most one left a Redis hold.
   */
  lemma {:induction false} OneDecisionPerKey(w: World, acts: seq<Action>)
    requires Initial(w)
    ensures var u := After(w, acts); UniqueKeys(u.tables) && SignerOncePerKey(u) && OneHoldPerKey(u)
  {
    var u := After(w, acts);
    InitialKeeps(w);
    RunKeeps(w, acts);
    SignerCalledOnce(u);
    forall d, e | LeftHold(u, d) && LeftHold(u, e) && SameKey(u.auths[d].params, u.auths[e].params)
      ensures d == e
    {
      FinishedHoldHasRow(u, d);
      FinishedHoldHasRow(u, e);
    }
  }

  lemma SignerCalledOnce(w: World)
    requires Inv(w)
    ensures SignerOncePerKey(w)
  {
    forall i, j | 0 <= i < j < |w.signerCalls|
      ensures w.signerCalls[i] in w.auths && w.signerCalls[j] in w.auths
      ensures !SameKey(w.auths[w.signerCalls[i]].params, w.auths[w.signerCalls[j]].params)
    {
      SignedHasRow(w, w.signerCalls[i]);
      SignedHasRow(w, w.signerCalls[j]);
    }
  }

  /** A Redis hold without a row is exactly what a call between its reserve and its insert holds, dead or alive. */
  lemma {:induction false} OrphanHolds(w: World, acts: seq<Action>, d: DecisionId)
    requires Initial(w) && d in After(w, acts).auths
    ensures var u := After(w, acts);
            d in LedgerOf(u, u.auths[d].params.agent) && d !in u.tables.decisions <==> u.auths[d].at.InsertDue? || u.auths[d].at.UndoDue?
  {
    InitialKeeps(w);
    RunKeeps(w, acts);
    assert Good(SliceOf(After(w, acts), d));
  }

  // ---- Coupling of Postgres and Redis ------------------------------------------------------------

  /**
   * After any run, crashes included: an in-flight decision has a RESERVED hold row and a live Redis hold,
   * a SETTLED hold belongs to a SETTLED decision and a RELEASED one to a failed decision, and Redis
   * settles only what Postgres has settled.
   */
  lemma {:induction false} StoresAgree(w: World, acts: seq<Action>, d: DecisionId)
    requires Initial(w) && d in After(w, acts).tables.decisions && After(w, acts).tables.decisions[d].allow
    ensures var u := After(w, acts);
            var r := u.tables.decisions[d];
            var hot := HotOf(u, r.agent, d);
            && d in u.tables.holds
            && (IsInFlight(r.status) ==> u.tables.holds[d].HoldReserved? && hot.Some? && hot.value.phase.Held? && hot.value.amount == r.amount)
            && (u.tables.holds[d].HoldSettled? ==> r.status.Settled?)
            && (u.tables.holds[d].HoldReleased? ==> IsFailed(r.status))
            && (hot.Some? && hot.value.phase.Settled? ==> r.status.Settled?)
            && (r.status.Settled? ==> hot.Some? && hot.value.amount == r.amount)
  {
    var u := After(w, acts);
    InitialKeeps(w);
    RunKeeps(w, acts);
    var a := u.tables.decisions[d].agent;
    CallOf(u, d, a);
    ReadSlice(u, d, a);
  }

  // ---- Repair ----------------------------------------------------------------------------------------

  /** Where a reconcile call may stand that found its decision SETTLED. */
  predicate OnRepair(w: World, p: nat, d: DecisionId, a: AgentId) {
    p in w.workers && (var v := w.workers[p];
      v == ReconcileDue(d, a) || (v.SettleBoth? && v.d == d && v.agent == a) || v == ReconcileDone(d, a, true) || v.WorkerCrashed?)
  }

  lemma RepairMoves(w: World, p: nat, c: Choice, d: DecisionId, a: AgentId)
    requires OnRepair(w, p, d, a) && RowBelongs(w, d, a) && IsSettledRow(w, d)
    ensures OnRepair(ApplyWorker(w, p, c), p, d, a)
  {
  }

  lemma RepairStays(w: World, act: Action, p: nat, d: DecisionId, a: AgentId)
    requires Enabled(w, act) && OnRepair(w, p, d, a) && RowBelongs(w, d, a) && IsSettledRow(w, d)
    ensures OnRepair(Apply(w, act), p, d, a)
  {
    match act
    case AuthStep(e, c) => AuthFrame(w, Apply(w, act), e, c);
    case WorkerStep(r, c) => if r == p { RepairMoves(w, p, c, d, a); } else { WorkerAlone(w, Apply(w, act), r, c); }
    case _ =>
  }

  lemma {:induction false} SettledStays(w: World, acts: seq<Action>, d: DecisionId, a: AgentId)
    requires Inv(w) && RowBelongs(w, d, a) && IsSettledRow(w, d)
    ensures RowBelongs(After(w, acts), d, a) && IsSettledRow(After(w, acts), d)
  {
    TerminalForever(w, acts, d);
  }

  lemma {:induction false} RepairRuns(w: World, acts: seq<Action>, p: nat, d: DecisionId, a: AgentId)
    requires Inv(w) && OnRepair(w, p, d, a) && RowBelongs(w, d, a) && IsSettledRow(w, d)
    ensures OnRepair(After(w, acts), p, d, a)
  {
    if acts != [] {
      var before := After(w, acts[..|acts| - 1]);
      RepairRuns(w, acts[..|acts| - 1], p, d, a);
      RunKeeps(w, acts[..|acts| - 1]);
      SettledStays(w, acts[..|acts| - 1], d, a);
      if Enabled(before, acts[|acts| - 1]) { RepairStays(before, acts[|acts| - 1], p, d, a); }
    }
  }

  predicate BothSettled(w: World, d: DecisionId, a: AgentId) {
    IsHotSettled(w, d, a) && HoldAt(w, d) == Some(HoldSettled)
  }

  lemma RepairedIsSettled(w: World, p: nat, d: DecisionId, a: AgentId)
    requires Inv(w) && OnRepair(w, p, d, a) && w.workers[p].ReconcileDone?
    ensures BothSettled(w, d, a)
  {
    assert WorkerGood(w, w.workers[p]);
  }

  /** Which of its steps a repairing call has taken: its read, and then each of its two parallel effects. */
  datatype Taken = Taken(read: bool, hot: bool, row: bool)

  function Take(t: Taken, c: Choice): Taken {
    if !t.read then Taken(true, false, false) else Taken(true, t.hot || c.HotStore?, t.row || c.RowStore?)
  }

  function StepsTaken(acts: seq<Action>, p: nat): Taken {
    if acts == [] then Taken(false, false, false)
    else
      var t, act := StepsTaken(acts[..|acts| - 1], p), acts[|acts| - 1];
      if act.WorkerStep? && act.p == p then Take(t, act.c) else t
  }

  predicate NotCutShort(acts: seq<Action>, p: nat) { CrashWorker(p) !in acts }

  /** Where the call stands once it has taken these steps. */
  function RepairPoint(t: Taken, d: DecisionId, a: AgentId): Worker {
    if !t.read then ReconcileDue(d, a) else if t.hot && t.row then ReconcileDone(d, a, true) else SettleBoth(d, a, t.hot, t.row)
  }

  lemma RepairTakes(w: World, p: nat, c: Choice, t: Taken, d: DecisionId, a: AgentId)
    requires p in w.workers && w.workers[p] == RepairPoint(t, d, a) && RowBelongs(w, d, a) && IsSettledRow(w, d)
    ensures var u := ApplyWorker(w, p, c); p in u.workers && u.workers[p] == RepairPoint(Take(t, c), d, a)
  {
  }

  lemma RepairWaits(w: World, act: Action, p: nat)
    requires Enabled(w, act) && p in w.workers && act != CrashWorker(p) && !(act.WorkerStep? && act.p == p)
    ensures p in Apply(w, act).workers && Apply(w, act).workers[p] == w.workers[p]
  {
    match act
    case AuthStep(e, c) => AuthFrame(w, Apply(w, act), e, c);
    case WorkerStep(r, c) => WorkerAlone(w, Apply(w, act), r, c);
    case _ =>
  }

  /** In any interleaving a repairing call that is not cut short stands exactly where its own steps have brought it. */
  lemma {:induction false} RepairStandsWhereItStepped(w: World, acts: seq<Action>, p: nat, d: DecisionId, a: AgentId)
    requires Inv(w) && p in w.workers && w.workers[p] == ReconcileDue(d, a) && RowBelongs(w, d, a) && IsSettledRow(w, d) && NotCutShort(acts, p)
    ensures p in After(w, acts).workers && After(w, acts).workers[p] == RepairPoint(StepsTaken(acts, p), d, a)
  {
    if acts != [] {
      var n := |acts| - 1;
      var before, act := After(w, acts[..n]), acts[n];
      RepairStandsWhereItStepped(w, acts[..n], p, d, a);
      SettledStays(w, acts[..n], d, a);
      if act.WorkerStep? && act.p == p {
        RepairTakes(before, p, act.c, StepsTaken(acts[..n], p), d, a);
      } else if Enabled(before, act) {
        RepairWaits(before, act, p);
      }
    }
  }

  /**
   * Reconciling a SETTLED decision again, after whatever crash and whatever runs beside it: a call that is not itself cut
   * short is done exactly when it has taken its read and then both of its effects, and it is done only with both holds
   * settled.
   */
  lemma {:induction false} ReconcileAgainSettlesBoth(w: World, acts: seq<Action>, p: nat, d: DecisionId, a: AgentId)
    requires Inv(w) && p in w.workers && w.workers[p] == ReconcileDue(d, a) && RowBelongs(w, d, a) && IsSettledRow(w, d)
    ensures var u := After(w, acts); p in u.workers && (u.workers[p].ReconcileDone? ==> BothSettled(u, d, a))
    ensures var u, t := After(w, acts), StepsTaken(acts, p);
            NotCutShort(acts, p) ==> (u.workers[p].ReconcileDone? <==> t.hot && t.row) && (t.hot && t.row ==> BothSettled(u, d, a))
  {
    RepairRuns(w, acts, p, d, a);
    RunKeeps(w, acts);
    if NotCutShort(acts, p) {
      RepairStandsWhereItStepped(w, acts, p, d, a);
      HotAfterRead(acts, p);
    }
    if After(w, acts).workers[p].ReconcileDone? { RepairedIsSettled(After(w, acts), p, d, a); }
  }

  lemma {:induction false} HotAfterRead(acts: seq<Action>, p: nat)
    ensures StepsTaken(acts, p).hot || StepsTaken(acts, p).row ==> StepsTaken(acts, p).read
  {
    if acts != [] { HotAfterRead(acts[..|acts| - 1], p); }
  }

  lemma {:induction false} OneMoreTaken(acts: seq<Action>, act: Action, p: nat)
    requires act.WorkerStep? && act.p == p
    ensures StepsTaken(acts + [act], p) == Take(StepsTaken(acts, p), act.c)
  {
    assert (acts + [act])[..|acts|] == acts;
  }

  /** The read, the hot effect, the row effect. */
  function ThreeSteps(p: nat, c: Choice): seq<Action> { [WorkerStep(p, c)] + [WorkerStep(p, HotStore)] + [WorkerStep(p, RowStore)] }

  lemma {:induction false} ThreeStepsTaken(p: nat, c: Choice)
    ensures StepsTaken(ThreeSteps(p, c), p) == Taken(true, true, true) && NotCutShort(ThreeSteps(p, c), p)
  {
    OneMoreTaken([], WorkerStep(p, c), p);
    assert [] + [WorkerStep(p, c)] == [WorkerStep(p, c)];
    OneMoreTaken([WorkerStep(p, c)], WorkerStep(p, HotStore), p);
    OneMoreTaken([WorkerStep(p, c)] + [WorkerStep(p, HotStore)], WorkerStep(p, RowStore), p);
  }

  /** The three steps alone do it. */
  lemma {:induction false} UndisturbedRepairSettlesBoth(w: World, p: nat, c: Choice, d: DecisionId, a: AgentId)
    requires Inv(w) && p in w.workers && w.workers[p] == ReconcileDue(d, a) && RowBelongs(w, d, a) && IsSettledRow(w, d)
    ensures BothSettled(After(w, ThreeSteps(p, c)), d, a)
  {
    ThreeStepsTaken(p, c);
    ReconcileAgainSettlesBoth(w, ThreeSteps(p, c), p, d, a);
  }
}
