// Every action of the guard protocol keeps the invariant, so every run does.
module GuardRuns {
  import opened Options
  import opened HoldLedger
  import opened T = GuardTables
  import opened GuardProtocol

  // ---- The three invariants that only particular steps can touch ------------------------------

  lemma RowsKeepKeys(t: Tables, u: Tables)
    requires UniqueKeys(t) && Advances(t, u) && u.decisions.Keys == t.decisions.Keys
    ensures UniqueKeys(u)
  {
  }

  lemma InsertsKeepKeys(t: Tables, d: DecisionId, row: Decision)
    requires UniqueKeys(t)
    ensures UniqueKeys(InsertDecision(t, d, row).0) && UniqueKeys(InsertDecisionAndHold(t, d, row).0)
  {
  }

  lemma LedgerWithinPolicy(w: World, a: AgentId)
    requires CapsKept(w)
    ensures WithinPolicy(LedgerOf(w, a), LimitsOf(w, a).spendCap, LimitsOf(w, a).velocity)
  {
  }

  lemma LedgerKeepsCaps(w: World, a: AgentId, l: Ledger)
    requires CapsKept(w) && WithinPolicy(l, LimitsOf(w, a).spendCap, LimitsOf(w, a).velocity)
    ensures CapsKept(SetLedger(w, a, l))
  {
  }

  lemma SettlingKeepsCaps(w: World, a: AgentId, d: DecisionId)
    requires CapsKept(w)
    ensures CapsKept(SettleIn(w, a, d)) && CapsKept(ReleaseIn(w, a, d))
  {
    LedgerWithinPolicy(w, a);
    SettleKeepsPolicy(LedgerOf(w, a), d, LimitsOf(w, a).spendCap, LimitsOf(w, a).velocity);
    ReleaseKeepsPolicy(LedgerOf(w, a), d, LimitsOf(w, a).spendCap, LimitsOf(w, a).velocity);
    LedgerKeepsCaps(w, a, SettleSpec(LedgerOf(w, a), d).0);
    LedgerKeepsCaps(w, a, ReleaseSpec(LedgerOf(w, a), d).0);
  }

  lemma ReservingKeepsCaps(w: World, d: DecisionId, backing: Backing)
    requires d in w.auths && CapsKept(w)
    ensures CapsKept(ApplyReserve(w, d, backing))
  {
    var q := w.auths[d].params;
    var l := LimitsOf(w, q.agent);
    LedgerWithinPolicy(w, q.agent);
    PolicyReserveKeepsPolicy(LedgerOf(w, q.agent), d, q.amount, q.at, l.spendCap, l.velocity, backing);
    var r := PolicyReserveSpec(LedgerOf(w, q.agent), d, q.amount, q.at, l.spendCap, l.velocity, backing);
    LedgerKeepsCaps(w, q.agent, r.0);
    SameLedgersKeepCaps(SetLedger(w, q.agent, r.0), ApplyReserve(w, d, backing));
  }

  lemma SameLedgersKeepCaps(w: World, u: World)
    requires CapsKept(w) && u.ledgers == w.ledgers && u.limits == w.limits
    ensures CapsKept(u)
  {
  }

  /** What an authorize step leaves alone, and the one step that calls the signer. */
  predicate Framed(w: World, u: World, d: DecisionId)
    requires d in w.auths
  {
    && u.workers == w.workers && u.limits == w.limits && u.denyAll == w.denyAll
    && u.signerCalls == if w.auths[d].at.SignDue? then w.signerCalls + [d] else w.signerCalls
  }

  lemma AdmissionFrame(w: World, d: DecisionId, c: Choice)
    requires d in w.auths && (BeforeReserve(w.auths[d].at))
    ensures Framed(w, ApplyAuth(w, d, c), d)
  {
  }

  lemma InsertFrame(w: World, d: DecisionId, c: Choice)
    requires d in w.auths && (w.auths[d].at.InsertDue? || w.auths[d].at.UndoDue?)
    ensures Framed(w, ApplyAuth(w, d, c), d)
  {
  }

  lemma CheckFrame(w: World, d: DecisionId, c: Choice)
    requires d in w.auths && (w.auths[d].at.OrgCheckDue? || w.auths[d].at.AgentCheckDue? || w.auths[d].at.SignDue?)
    ensures Framed(w, ApplyAuth(w, d, c), d)
  {
  }

  lemma FailingFrame(w: World, d: DecisionId, c: Choice)
    requires d in w.auths && (w.auths[d].at.MarkDue? || w.auths[d].at.FailDue? || w.auths[d].at.FailReleases?)
    ensures Framed(w, ApplyAuth(w, d, c), d)
  {
  }

  lemma UnlockFrame(w: World, d: DecisionId, c: Choice)
    requires d in w.auths && (w.auths[d].at.UnlockRead? || w.auths[d].at.UnlockDelete? || w.auths[d].at.Finished?)
    ensures Framed(w, ApplyAuth(w, d, c), d)
  {
  }

  lemma AuthFrame(w: World, u: World, d: DecisionId, c: Choice)
    requires d in w.auths && u == ApplyAuth(w, d, c)
    ensures Framed(w, u, d)
  {
    var at := w.auths[d].at;
    if BeforeReserve(at) { AdmissionFrame(w, d, c); }
    else if at.InsertDue? || at.UndoDue? { InsertFrame(w, d, c); }
    else if at.MarkDue? || at.FailDue? || at.FailReleases? { FailingFrame(w, d, c); }
    else if at.UnlockRead? || at.UnlockDelete? || at.Finished? { UnlockFrame(w, d, c); }
    else { CheckFrame(w, d, c); }
  }

  /** The ledger changes of an authorize step: the atomic reserve, a release, or none. */
  predicate LedgersMove(w: World, u: World, a: AgentId, d: DecisionId) {
    u.limits == w.limits && (u.ledgers == w.ledgers || u.ledgers == ReleaseIn(w, a, d).ledgers)
  }

  lemma AdmissionLedgers(w: World, d: DecisionId, c: Choice)
    requires d in w.auths && BeforeReserve(w.auths[d].at) && !w.auths[d].at.ReserveDue?
    ensures LedgersMove(w, ApplyAuth(w, d, c), w.auths[d].params.agent, d)
  {
  }

  lemma InsertLedgers(w: World, d: DecisionId, c: Choice)
    requires d in w.auths && w.auths[d].at.InsertDue?
    ensures LedgersMove(w, ApplyAuth(w, d, c), w.auths[d].params.agent, d)
  {
  }

  lemma UndoLedgers(w: World, d: DecisionId, c: Choice)
    requires d in w.auths && w.auths[d].at.UndoDue?
    ensures LedgersMove(w, ApplyAuth(w, d, c), w.auths[d].params.agent, d)
  {
  }

  lemma CheckLedgers(w: World, d: DecisionId, c: Choice)
    requires d in w.auths && (w.auths[d].at.OrgCheckDue? || w.auths[d].at.AgentCheckDue? || w.auths[d].at.SignDue?)
    ensures LedgersMove(w, ApplyAuth(w, d, c), w.auths[d].params.agent, d)
  {
  }

  lemma FailingLedgers(w: World, d: DecisionId, c: Choice)
    requires d in w.auths && (w.auths[d].at.MarkDue? || w.auths[d].at.FailDue? || w.auths[d].at.FailReleases?)
    ensures LedgersMove(w, ApplyAuth(w, d, c), w.auths[d].params.agent, d)
  {
  }

  lemma UnlockLedgers(w: World, d: DecisionId, c: Choice)
    requires d in w.auths && (w.auths[d].at.UnlockRead? || w.auths[d].at.UnlockDelete? || w.auths[d].at.Finished?)
    ensures LedgersMove(w, ApplyAuth(w, d, c), w.auths[d].params.agent, d)
  {
  }

  lemma AuthLedgers(w: World, u: World, d: DecisionId, c: Choice)
    requires d in w.auths && u == ApplyAuth(w, d, c)
    ensures LedgersMove(w, u, w.auths[d].params.agent, d) || (w.auths[d].at.ReserveDue? && c.Backed? && u == ApplyReserve(w, d, c.backing))
  {
    var at := w.auths[d].at;
    if at.ReserveDue? { assert c.Backed? ==> u == ApplyReserve(w, d, c.backing); }
    else if BeforeReserve(at) { AdmissionLedgers(w, d, c); }
    else if at.InsertDue? { InsertLedgers(w, d, c); }
    else if at.UndoDue? { UndoLedgers(w, d, c); }
    else if at.MarkDue? || at.FailDue? || at.FailReleases? { FailingLedgers(w, d, c); }
    else if at.UnlockRead? || at.UnlockDelete? || at.Finished? { UnlockLedgers(w, d, c); }
    else { CheckLedgers(w, d, c); }
  }

  lemma MoveKeepsCaps(w: World, u: World, a: AgentId, d: DecisionId)
    requires CapsKept(w) && LedgersMove(w, u, a, d)
    ensures CapsKept(u)
  {
    SettlingKeepsCaps(w, a, d);
    if u.ledgers == w.ledgers { SameLedgersKeepCaps(w, u); } else { SameLedgersKeepCaps(ReleaseIn(w, a, d), u); }
  }

  lemma AuthKeepsCaps(w: World, u: World, d: DecisionId, c: Choice)
    requires d in w.auths && CapsKept(w)
    requires LedgersMove(w, u, w.auths[d].params.agent, d) || (c.Backed? && u == ApplyReserve(w, d, c.backing))
    ensures CapsKept(u)
  {
    if LedgersMove(w, u, w.auths[d].params.agent, d) {
      MoveKeepsCaps(w, u, w.auths[d].params.agent, d);
    } else {
      ReservingKeepsCaps(w, d, c.backing);
    }
  }

  lemma DenyKeepsKeys(w: World, d: DecisionId, c: Choice)
    requires d in w.auths && UniqueKeys(w.tables) && w.auths[d].at.DenyDue?
    ensures UniqueKeys(ApplyAuth(w, d, c).tables)
  {
  }

  lemma InsertKeepsKeys(w: World, d: DecisionId, c: Choice)
    requires d in w.auths && UniqueKeys(w.tables) && w.auths[d].at.InsertDue?
    ensures UniqueKeys(ApplyAuth(w, d, c).tables)
  {
    InsertsKeepKeys(w.tables, d, RowOf(w.auths[d].params, true));
  }

  lemma MarkKeepsKeys(w: World, d: DecisionId, c: Choice)
    requires d in w.auths && UniqueKeys(w.tables) && w.auths[d].at.MarkDue?
    ensures UniqueKeys(ApplyAuth(w, d, c).tables)
  {
  }

  lemma FailKeepsKeys(w: World, d: DecisionId, c: Choice)
    requires d in w.auths && UniqueKeys(w.tables) && w.auths[d].at.FailDue?
    ensures UniqueKeys(ApplyAuth(w, d, c).tables)
  {
  }

  /** Every other step leaves the decision rows as they are. */
  predicate WritesRow(at: Point) { at.DenyDue? || at.InsertDue? || at.MarkDue? || at.FailDue? }

  lemma ReserveRows(w: World, u: World, d: DecisionId, c: Choice)
    requires d in w.auths && u == ApplyAuth(w, d, c) && w.auths[d].at.ReserveDue?
    ensures u.tables.decisions == w.tables.decisions
  {
  }

  lemma AdmissionRows(w: World, u: World, d: DecisionId, c: Choice)
    requires d in w.auths && u == ApplyAuth(w, d, c) && !WritesRow(w.auths[d].at) && BeforeReserve(w.auths[d].at) && !w.auths[d].at.ReserveDue?
    ensures u.tables.decisions == w.tables.decisions
  {
  }

  lemma CheckRows(w: World, u: World, d: DecisionId, c: Choice)
    requires d in w.auths && u == ApplyAuth(w, d, c) && !WritesRow(w.auths[d].at) && (w.auths[d].at.UndoDue? || w.auths[d].at.OrgCheckDue? || w.auths[d].at.AgentCheckDue? || w.auths[d].at.SignDue?)
    ensures u.tables.decisions == w.tables.decisions
  {
  }

  lemma UnlockRows(w: World, u: World, d: DecisionId, c: Choice)
    requires d in w.auths && u == ApplyAuth(w, d, c) && !WritesRow(w.auths[d].at) && (w.auths[d].at.FailReleases? || w.auths[d].at.UnlockRead? || w.auths[d].at.UnlockDelete? || w.auths[d].at.Finished?)
    ensures u.tables.decisions == w.tables.decisions
  {
  }

  lemma AuthRows(w: World, u: World, d: DecisionId, c: Choice)
    requires d in w.auths && !WritesRow(w.auths[d].at) && u == ApplyAuth(w, d, c)
    ensures u.tables.decisions == w.tables.decisions
  {
    var at := w.auths[d].at;
    if at.ReserveDue? { ReserveRows(w, u, d, c); }
    else if BeforeReserve(at) { AdmissionRows(w, u, d, c); }
    else if at.UndoDue? || at.OrgCheckDue? || at.AgentCheckDue? || at.SignDue? { CheckRows(w, u, d, c); }
    else { UnlockRows(w, u, d, c); }
  }

  lemma AuthKeepsKeys(w: World, u: World, d: DecisionId, c: Choice)
    requires d in w.auths && UniqueKeys(w.tables) && u == ApplyAuth(w, d, c)
    ensures UniqueKeys(u.tables)
  {
    match w.auths[d].at
    case DenyDue => DenyKeepsKeys(w, d, c);
    case InsertDue => InsertKeepsKeys(w, d, c);
    case MarkDue => MarkKeepsKeys(w, d, c);
    case FailDue => FailKeepsKeys(w, d, c);
    case _ => AuthRows(w, u, d, c);
  }

  /** The signer is called for a decision only once: before the call nothing of it is signed, after it there is no way back. */
  lemma SigningSignsOnce(w: World, u: World, d: DecisionId)
    requires d in w.auths && SignedOnce(w) && Good(SliceOf(w, d))
    requires u.signerCalls == (if w.auths[d].at.SignDue? then w.signerCalls + [d] else w.signerCalls)
    ensures SignedOnce(u)
  {
  }

  lemma AuthStepKeeps(w: World, d: DecisionId, c: Choice)
    requires Inv(w) && d in w.auths
    ensures Inv(ApplyAuth(w, d, c))
  {
    var u := ApplyAuth(w, d, c);
    AuthStepLocal(w, d, c);
    AuthKeepsKeys(w, u, d, c);
    AuthFrame(w, u, d, c);
    SigningSignsOnce(w, u, d);
    AuthLedgers(w, u, d, c);
    AuthKeepsCaps(w, u, d, c);
    if u != w { LocalKeepsAll(w, u, d); }
  }

  // ---- Steps of the environment, and calls that begin or crash ----------------------------------

  /** Two worlds that agree on everything the invariant reads, except for the worker table. */
  predicate SameRecords(w: World, u: World) {
    u == w.(denyAll := u.denyAll, locks := u.locks, workers := u.workers)
  }

  lemma SameRecordsSameSlices(w: World, u: World)
    requires SameRecords(w, u)
    ensures forall d :: d in w.auths ==> SliceOf(u, d) == SliceOf(w, d)
    ensures Owned(w) ==> Owned(u)
    ensures AllGood(w) ==> AllGood(u)
  {
  }

  lemma SameRecordsSameWorker(w: World, u: World, v: Worker)
    requires SameRecords(w, u) && WorkerGood(w, v)
    ensures WorkerGood(u, v)
  {
  }

  lemma SameRecordsSameWorkers(w: World, u: World)
    requires SameRecords(w, u) && AllWorkersGood(w)
    requires forall p :: p in u.workers ==> (p in w.workers && u.workers[p] == w.workers[p]) || WorkerGood(w, u.workers[p])
    ensures AllWorkersGood(u)
  {
    forall p | p in u.workers
      ensures WorkerGood(u, u.workers[p])
    {
      SameRecordsSameWorker(w, u, u.workers[p]);
    }
  }

  lemma EnvironmentKeeps(w: World, u: World)
    requires Inv(w) && SameRecords(w, u) && u.workers == w.workers
    ensures Inv(u)
  {
    SameRecordsSameSlices(w, u);
    SameLedgersKeepCaps(w, u);
    SameRecordsSameWorkers(w, u);
  }

  lemma WorkerMoves(w: World, p: nat, v: Worker)
    requires Inv(w) && WorkerGood(w, v)
    ensures Inv(SetWorker(w, p, v))
  {
    var u := SetWorker(w, p, v);
    SameRecordsSameSlices(w, u);
    SameLedgersKeepCaps(w, u);
    SameRecordsSameWorkers(w, u);
  }

  /** Only the table of calls changes: a call begins, or one dies where it stands. */
  ghost predicate CallsOnly(w: World, u: World) {
    && u == w.(auths := u.auths)
    && (forall d :: d in w.auths ==> d in u.auths && u.auths[d].params == w.auths[d].params && u.auths[d].at == w.auths[d].at)
    && (forall d :: d in u.auths && d !in w.auths ==> u.auths[d].at.LockDue?)
  }

  lemma CallsOnlyWorker(w: World, u: World, v: Worker)
    requires CallsOnly(w, u) && WorkerGood(w, v)
    ensures WorkerGood(u, v)
  {
    if Subject(v).Some? { assert Remembers(w, u, Subject(v).value.0, Subject(v).value.1); }
    ReconcileRemembers(w, u, v);
    CallsOnlyRevoke(w, u, v);
  }

  lemma CallsOnlyRevoke(w: World, u: World, v: Worker)
    requires CallsOnly(w, u) && RevokeGood(w, v)
    ensures RevokeGood(u, v)
  {
  }

  lemma CallsOnlySlice(w: World, u: World, d: DecisionId)
    requires Owned(w) && CallsOnly(w, u) && d in u.auths
    ensures SliceOf(u, d) == if d in w.auths then SliceOf(w, d).(auth := u.auths[d]) else Slice(u.auths[d], None, None, None, false)
  {
  }

  lemma NewSlice(auth: Auth)
    requires auth.at.LockDue?
    ensures Good(Slice(auth, None, None, None, false))
  {
  }

  lemma CrashSlice(s: Slice, auth: Auth)
    requires Good(s) && auth.params == s.auth.params && auth.at == s.auth.at
    ensures Good(s.(auth := auth))
  {
  }

  lemma CallsOnlyGood(w: World, u: World, d: DecisionId)
    requires Owned(w) && AllGood(w) && CallsOnly(w, u) && d in u.auths
    ensures Good(SliceOf(u, d))
  {
    CallsOnlySlice(w, u, d);
    if d in w.auths { CrashSlice(SliceOf(w, d), u.auths[d]); } else { NewSlice(u.auths[d]); }
  }

  lemma CallsOnlyOwned(w: World, u: World)
    requires Owned(w) && CallsOnly(w, u)
    ensures Owned(u)
  {
  }

  lemma CallsOnlyAllGood(w: World, u: World)
    requires Owned(w) && AllGood(w) && CallsOnly(w, u)
    ensures AllGood(u)
  {
    forall d | d in u.auths
      ensures Good(SliceOf(u, d))
    {
      CallsOnlyGood(w, u, d);
    }
  }

  lemma CallsOnlyWorkers(w: World, u: World)
    requires CallsOnly(w, u) && AllWorkersGood(w)
    ensures AllWorkersGood(u)
  {
    forall p | p in u.workers
      ensures WorkerGood(u, u.workers[p])
    {
      CallsOnlyWorker(w, u, w.workers[p]);
    }
  }

  lemma CallsOnlyKeeps(w: World, u: World)
    requires Inv(w) && CallsOnly(w, u)
    ensures Inv(u)
  {
    SameLedgersKeepCaps(w, u);
    CallsOnlyOwned(w, u);
    CallsOnlyAllGood(w, u);
    CallsOnlyWorkers(w, u);
  }

  // ---- Reconcile and revoke steps -----------------------------------------------------------------

  lemma RowsLocalKeeps(w: World, u: World, d: DecisionId)
    requires Inv(w) && u == w.(tables := u.tables) && LocalStep(w, u, d)
    requires Advances(w.tables, u.tables) && u.tables.decisions.Keys == w.tables.decisions.Keys
    ensures Inv(u)
  {
    RowsKeepKeys(w.tables, u.tables);
    SameLedgersKeepCaps(w, u);
    assert u.signerCalls == w.signerCalls;
    LocalKeepsAll(w, u, d);
  }

  lemma MovesLocalKeeps(w: World, u: World, a: AgentId, d: DecisionId)
    requires Inv(w) && LocalStep(w, u, d) && (u == ReleaseIn(w, a, d) || u == SettleIn(w, a, d))
    ensures Inv(u)
  {
    SettlingKeepsCaps(w, a, d);
    assert u.signerCalls == w.signerCalls && u.tables == w.tables;
    LocalKeepsAll(w, u, d);
  }

  lemma CallOf(w: World, d: DecisionId, a: AgentId)
    requires Inv(w) && RowBelongs(w, d, a)
    ensures d in w.auths && Good(SliceOf(w, d)) && w.auths[d].params.agent == a && d in w.tables.holds
  {
  }

  lemma RowMovesAdvance(t: Tables, d: DecisionId, row: Decision)
    requires d in t.decisions && RowMoves(t.decisions[d], row)
    ensures var u := t.(decisions := t.decisions[d := row]); Advances(t, u) && u.decisions.Keys == t.decisions.Keys
  {
  }

  lemma RowKeeps(w: World, u: World, d: DecisionId, a: AgentId, row: Decision)
    requires Inv(w) && RowBelongs(w, d, a) && RowMoves(w.tables.decisions[d], row) && u == WithRow(w, d, row)
    ensures Inv(u) && LocalStep(w, u, d)
  {
    CallOf(w, d, a);
    RowMovesAdvance(w.tables, d, row);
    RowLocal(w, d, row);
    RowsLocalKeeps(w, u, d);
  }

  lemma TerminalKeeps(w: World, u: World, d: DecisionId, a: AgentId, s: Status)
    requires Inv(w) && RowBelongs(w, d, a) && IsFailed(s) && u == w.(tables := MarkTerminal(w.tables, d, s).0)
    ensures Inv(u) && (MarkTerminal(w.tables, d, s).1 ==> LocalStep(w, u, d))
  {
    if MarkTerminal(w.tables, d, s).1 { RowKeeps(w, u, d, a, w.tables.decisions[d].(status := s)); }
  }

  lemma ExpiryKeeps(w: World, u: World, d: DecisionId, a: AgentId)
    requires Inv(w) && RowBelongs(w, d, a) && u == w.(tables := MarkExpiryCheck(w.tables, d).0)
    ensures Inv(u)
  {
    if MarkExpiryCheck(w.tables, d).1 { RowKeeps(w, u, d, a, w.tables.decisions[d].(status := ExpiryCheck)); }
  }

  lemma SettlingMoves(t: Tables, u: Tables, d: DecisionId, tx: Option<string>, deploy: Option<string>)
    requires (u, true) == MarkSettled(t, d, tx, deploy)
    ensures d in t.decisions && d in u.decisions && RowMoves(t.decisions[d], u.decisions[d])
    ensures u == t.(decisions := t.decisions[d := u.decisions[d]])
  {
  }

  lemma SettledKeeps(w: World, u: World, d: DecisionId, a: AgentId, tx: Option<string>, deploy: Option<string>)
    requires Inv(w) && RowBelongs(w, d, a)
    requires (u.tables, true) == MarkSettled(w.tables, d, tx, deploy) && u == w.(tables := u.tables)
    ensures Inv(u)
  {
    SettlingMoves(w.tables, u.tables, d, tx, deploy);
    RowKeeps(w, u, d, a, u.tables.decisions[d]);
  }

  lemma SettleHotKeeps(w: World, d: DecisionId, a: AgentId, v: Worker)
    requires Inv(w) && RowBelongs(w, d, a) && w.tables.decisions[d].status.Settled? && ReconcileGood(w, v)
    ensures var u := SettleIn(w, a, d); Inv(u) && ReconcileGood(u, v) && IsHotSettled(u, d, a)
  {
    CallOf(w, d, a);
    SettleHotLocal(w, d, a);
    MovesLocalKeeps(w, SettleIn(w, a, d), a, d);
    ReconcileKept(w, SettleIn(w, a, d), d, v);
  }

  lemma SettleRowLands(w: World, u: World, d: DecisionId, a: AgentId)
    requires Inv(w) && RowBelongs(w, d, a) && w.tables.decisions[d].status.Settled?
    requires u == w.(tables := SettleHoldRow(w.tables, d).0)
    ensures Inv(u) && LocalStep(w, u, d) && HoldAt(u, d) == Some(HoldSettled)
  {
    CallOf(w, d, a);
    SettleRowLocal(w, d);
    assert Advances(w.tables, u.tables) && u.tables.decisions == w.tables.decisions by { HoldStatementsAdvance(w.tables, d); }
    RowsLocalKeeps(w, u, d);
  }

  lemma SettleRowKeeps(w: World, u: World, d: DecisionId, a: AgentId, v: Worker)
    requires Inv(w) && RowBelongs(w, d, a) && w.tables.decisions[d].status.Settled? && ReconcileGood(w, v)
    requires u == w.(tables := SettleHoldRow(w.tables, d).0)
    ensures Inv(u) && ReconcileGood(u, v) && HoldAt(u, d) == Some(HoldSettled)
  {
    SettleRowLands(w, u, d, a);
    ReconcileKept(w, u, d, v);
  }

  lemma WorkerKept(w: World, u: World, d: DecisionId, v: Worker)
    requires Owned(w) && AllGood(w) && LocalStep(w, u, d) && WorkerGood(w, v)
    ensures WorkerGood(u, v)
  {
    ReconcileKept(w, u, d, v);
    RevokeKept(w, u, d, v);
  }

  lemma ReleaseHotKeeps(w: World, d: DecisionId, a: AgentId, v: Worker)
    requires Inv(w) && WorkerGood(w, v) && RowBelongs(w, d, a) && IsFailed(w.tables.decisions[d].status)
    ensures var u := ReleaseIn(w, a, d); Inv(u) && WorkerGood(u, v) && HotOf(u, a, d).None?
  {
    CallOf(w, d, a);
    ReleaseHotLocal(w, d, a);
    MovesLocalKeeps(w, ReleaseIn(w, a, d), a, d);
    WorkerKept(w, ReleaseIn(w, a, d), d, v);
  }

  lemma ReleaseRowLands(w: World, u: World, d: DecisionId, a: AgentId)
    requires Inv(w) && RowBelongs(w, d, a) && IsFailed(w.tables.decisions[d].status)
    requires u == w.(tables := ReleaseHoldRow(w.tables, d).0)
    ensures Inv(u) && LocalStep(w, u, d) && HoldAt(u, d) == Some(HoldReleased)
  {
    CallOf(w, d, a);
    ReleaseRowLocal(w, d, a);
    assert Advances(w.tables, u.tables) && u.tables.decisions == w.tables.decisions by { HoldStatementsAdvance(w.tables, d); }
    RowsLocalKeeps(w, u, d);
  }

  lemma ReleaseRowKeeps(w: World, u: World, d: DecisionId, a: AgentId, v: Worker)
    requires Inv(w) && WorkerGood(w, v) && RowBelongs(w, d, a) && IsFailed(w.tables.decisions[d].status)
    requires u == w.(tables := ReleaseHoldRow(w.tables, d).0)
    ensures Inv(u) && WorkerGood(u, v) && HoldAt(u, d) == Some(HoldReleased)
  {
    ReleaseRowLands(w, u, d, a);
    WorkerKept(w, u, d, v);
  }

  /** Suspending an agent touches no decision, and keeps every fence that already stands. */
  lemma SuspendKeeps(w: World, a: AgentId, o: OrgId)
    requires Inv(w)
    ensures Inv(w.(tables := SuspendAgent(w.tables, a, o).0))
  {
    var u := w.(tables := SuspendAgent(w.tables, a, o).0);
    SameLedgersKeepCaps(w, u);
    SuspendGood(w, a, o);
    forall p | p in u.workers
      ensures WorkerGood(u, u.workers[p])
    {
      SuspendWorker(w, a, o, w.workers[p]);
    }
  }

  lemma SuspendGood(w: World, a: AgentId, o: OrgId)
    requires Owned(w) && AllGood(w)
    ensures var u := w.(tables := SuspendAgent(w.tables, a, o).0); Owned(u) && AllGood(u)
  {
  }

  lemma SuspendWorker(w: World, a: AgentId, o: OrgId, v: Worker)
    requires WorkerGood(w, v)
    ensures WorkerGood(w.(tables := SuspendAgent(w.tables, a, o).0), v)
  {
  }

  lemma ListingKeeps(w: World, a: AgentId, o: OrgId, yes: bool)
    requires Inv(w) && FlagGood(w, a, o, yes)
    ensures WorkerGood(w, Aborting(a, o, yes, ReservedOf(w.tables, a, o)))
  {
  }

  /** The abort of one listed decision: whatever its status was, it is not RESERVED afterwards. */
  lemma AbortMarks(w: World, u: World, a: AgentId, o: OrgId, yes: bool, todo: set<DecisionId>, d: DecisionId)
    requires Inv(w) && RevokeGood(w, Aborting(a, o, yes, todo)) && d in todo && u == w.(tables := MarkTerminal(w.tables, d, FailedTerminal).0)
    ensures Inv(u) && RevokeGood(u, Aborting(a, o, yes, todo))
  {
    assert RowBelongs(w, d, a);
    TerminalKeeps(w, u, d, a, FailedTerminal);
    if MarkTerminal(w.tables, d, FailedTerminal).1 { RevokeKept(w, u, d, Aborting(a, o, yes, todo)); } else { assert u == w; }
  }

  lemma AbortKeeps(w: World, p: nat, a: AgentId, o: OrgId, yes: bool, todo: set<DecisionId>, d: DecisionId)
    requires Inv(w) && RevokeGood(w, Aborting(a, o, yes, todo)) && d in todo
    ensures Inv(ApplyAbort(w, p, a, o, yes, todo, d))
  {
    var r := MarkTerminal(w.tables, d, FailedTerminal);
    var u := w.(tables := r.0);
    AbortMarks(w, u, a, o, yes, todo, d);
    assert RowBelongs(w, d, a);
    AbortLands(u, p, a, o, yes, todo, d, if r.1 then AbortReleases(a, o, yes, todo - {d}, d, false, false) else Aborting(a, o, yes, todo - {d}));
  }

  /** After the mark the revoke goes on to release the decision it failed, or to the next one. */
  lemma AbortLands(w: World, p: nat, a: AgentId, o: OrgId, yes: bool, todo: set<DecisionId>, d: DecisionId, v: Worker)
    requires Inv(w) && RevokeGood(w, Aborting(a, o, yes, todo)) && d in todo && d in w.tables.decisions && IsTerminal(w.tables.decisions[d].status)
    requires v == Aborting(a, o, yes, todo - {d}) || (v == AbortReleases(a, o, yes, todo - {d}, d, false, false) && IsFailed(w.tables.decisions[d].status))
    ensures Inv(SetWorker(w, p, v))
  {
    AbortNext(w, a, o, yes, todo, d);
    WorkerMoves(w, p, v);
  }

  lemma AbortNext(w: World, a: AgentId, o: OrgId, yes: bool, todo: set<DecisionId>, d: DecisionId)
    requires RevokeGood(w, Aborting(a, o, yes, todo)) && d in todo && IsTerminal(w.tables.decisions[d].status)
    ensures WorkerGood(w, Aborting(a, o, yes, todo - {d}))
    ensures IsFailed(w.tables.decisions[d].status) ==> WorkerGood(w, AbortReleases(a, o, yes, todo - {d}, d, false, false))
  {
  }

  lemma ReadKeeps(w: World, d: DecisionId, a: AgentId)
    requires Inv(w)
    ensures WorkerGood(w, AfterRead(w, d, a))
  {
    if d in w.tables.decisions { assert Good(SliceOf(w, d)); }
  }

  lemma AnswersKeep(w: World, d: DecisionId, a: AgentId, seen: Observation, s: Status)
    requires RowBelongs(w, d, a)
    ensures WorkerGood(w, AfterObservation(d, a, seen))
    ensures IsFailed(s) ==> WorkerGood(w, AfterResolveRead(w, d, a, s))
    ensures WorkerGood(w, if IsSettledRow(w, d) then SettleBoth(d, a, false, false) else ReconcileDone(d, a, false))
  {
  }

  lemma SettleStepKeeps(w: World, p: nat, d: DecisionId, a: AgentId, tx: Option<string>, deploy: Option<string>)
    requires Inv(w) && RowBelongs(w, d, a)
    ensures Inv(ApplySettle(w, p, d, a, tx, deploy))
  {
    var r := MarkSettled(w.tables, d, tx, deploy);
    if r.1 {
      SettledKeeps(w, w.(tables := r.0), d, a, tx, deploy);
      WorkerMoves(w.(tables := r.0), p, SettleBoth(d, a, false, false));
    } else {
      WorkerMoves(w, p, if IsSettledRow(w, d) then ReconcileDone(d, a, false) else RereadDue(d, a));
    }
  }

  lemma TerminatedKnown(w: World, u: World, d: DecisionId, a: AgentId, s: Status)
    requires RowBelongs(w, d, a) && IsFailed(s) && u == w.(tables := MarkTerminal(w.tables, d, s).0)
    ensures WorkerGood(u, if MarkTerminal(w.tables, d, s).1 then ReleaseBoth(d, a, false, false) else RereadDue(d, a))
  {
  }

  lemma TerminateStepKeeps(w: World, p: nat, d: DecisionId, a: AgentId, s: Status)
    requires Inv(w) && RowBelongs(w, d, a)
    ensures Inv(ApplyTerminate(w, p, d, a, s))
  {
    if IsFailed(s) {
      var r := MarkTerminal(w.tables, d, s);
      var u := w.(tables := r.0);
      TerminalKeeps(w, u, d, a, s);
      TerminatedKnown(w, u, d, a, s);
      WorkerMoves(u, p, if r.1 then ReleaseBoth(d, a, false, false) else RereadDue(d, a));
    }
  }

  lemma SettleHotStep(w: World, p: nat, d: DecisionId, a: AgentId, row: bool)
    requires Inv(w) && ReconcileGood(w, SettleBoth(d, a, false, row))
    ensures Inv(SetWorker(SettleIn(w, a, d), p, if row then ReconcileDone(d, a, true) else SettleBoth(d, a, true, false)))
  {
    SettleHotKeeps(w, d, a, SettleBoth(d, a, false, row));
    WorkerMoves(SettleIn(w, a, d), p, if row then ReconcileDone(d, a, true) else SettleBoth(d, a, true, false));
  }

  lemma RowSettledKnown(w: World, d: DecisionId, a: AgentId, hot: bool)
    requires ReconcileGood(w, SettleBoth(d, a, hot, false)) && HoldAt(w, d) == Some(HoldSettled)
    ensures WorkerGood(w, if hot then ReconcileDone(d, a, true) else SettleBoth(d, a, false, true))
  {
  }

  lemma SettleRowStep(w: World, u: World, p: nat, d: DecisionId, a: AgentId, hot: bool)
    requires Inv(w) && ReconcileGood(w, SettleBoth(d, a, hot, false)) && u == w.(tables := SettleHoldRow(w.tables, d).0)
    ensures Inv(SetWorker(u, p, if hot then ReconcileDone(d, a, true) else SettleBoth(d, a, false, true)))
  {
    SettleRowKeeps(w, u, d, a, SettleBoth(d, a, hot, false));
    RowSettledKnown(u, d, a, hot);
    WorkerMoves(u, p, if hot then ReconcileDone(d, a, true) else SettleBoth(d, a, false, true));
  }

  lemma SettleBothKeeps(w: World, p: nat, c: Choice, d: DecisionId, a: AgentId, hot: bool, row: bool)
    requires Inv(w) && p in w.workers && w.workers[p] == SettleBoth(d, a, hot, row)
    ensures Inv(ApplyWorker(w, p, c))
  {
    assert ReconcileGood(w, w.workers[p]);
    if c.HotStore? && !hot { SettleHotStep(w, p, d, a, row); }
    else if c.RowStore? && !row { SettleRowStep(w, w.(tables := SettleHoldRow(w.tables, d).0), p, d, a, hot); }
  }

  lemma ReleaseBothKeeps(w: World, p: nat, c: Choice, d: DecisionId, a: AgentId, hot: bool, row: bool)
    requires Inv(w) && p in w.workers && w.workers[p] == ReleaseBoth(d, a, hot, row)
    ensures Inv(ApplyWorker(w, p, c))
  {
    var v := ReleaseBoth(d, a, hot, row);
    assert WorkerGood(w, v);
    if c.HotStore? && !hot {
      ReleaseHotKeeps(w, d, a, v);
      WorkerMoves(ReleaseIn(w, a, d), p, if row then RereadDue(d, a) else ReleaseBoth(d, a, true, false));
    } else if c.RowStore? && !row {
      ReleaseRowKeeps(w, w.(tables := ReleaseHoldRow(w.tables, d).0), d, a, v);
      WorkerMoves(w.(tables := ReleaseHoldRow(w.tables, d).0), p, if hot then RereadDue(d, a) else ReleaseBoth(d, a, false, true));
    }
  }

  lemma AbortReleasesKeeps(w: World, p: nat, c: Choice, a: AgentId, o: OrgId, yes: bool, todo: set<DecisionId>, d: DecisionId, hot: bool, row: bool)
    requires Inv(w) && p in w.workers && w.workers[p] == AbortReleases(a, o, yes, todo, d, hot, row)
    ensures Inv(ApplyWorker(w, p, c))
  {
    var v := AbortReleases(a, o, yes, todo, d, hot, row);
    assert WorkerGood(w, v);
    if c.HotStore? && !hot {
      ReleaseHotKeeps(w, d, a, v);
      WorkerMoves(ReleaseIn(w, a, d), p, if row then Aborting(a, o, yes, todo) else AbortReleases(a, o, yes, todo, d, true, false));
    } else if c.RowStore? && !row {
      ReleaseRowKeeps(w, w.(tables := ReleaseHoldRow(w.tables, d).0), d, a, v);
      WorkerMoves(w.(tables := ReleaseHoldRow(w.tables, d).0), p, if hot then Aborting(a, o, yes, todo) else AbortReleases(a, o, yes, todo, d, false, true));
    }
  }

  lemma ReconcileReadKeeps(w: World, p: nat, d: DecisionId, a: AgentId)
    requires Inv(w)
    ensures Inv(SetWorker(w, p, AfterRead(w, d, a)))
  {
    ReadKeeps(w, d, a);
    WorkerMoves(w, p, AfterRead(w, d, a));
  }

  lemma ObserveKeeps(w: World, p: nat, d: DecisionId, a: AgentId, seen: Observation)
    requires Inv(w) && RowBelongs(w, d, a)
    ensures Inv(SetWorker(w, p, AfterObservation(d, a, seen)))
  {
    AnswersKeep(w, d, a, seen, Expired);
    WorkerMoves(w, p, AfterObservation(d, a, seen));
  }

  lemma ResolveKeeps(w: World, p: nat, d: DecisionId, a: AgentId, s: Status)
    requires Inv(w) && RowBelongs(w, d, a) && IsFailed(s)
    ensures Inv(SetWorker(w, p, AfterResolveRead(w, d, a, s)))
  {
    AnswersKeep(w, d, a, SeenPending, s);
    WorkerMoves(w, p, AfterResolveRead(w, d, a, s));
  }

  lemma RereadKeeps(w: World, p: nat, d: DecisionId, a: AgentId)
    requires Inv(w) && RowBelongs(w, d, a)
    ensures Inv(SetWorker(w, p, if IsSettledRow(w, d) then SettleBoth(d, a, false, false) else ReconcileDone(d, a, false)))
  {
    AnswersKeep(w, d, a, SeenPending, Expired);
    WorkerMoves(w, p, if IsSettledRow(w, d) then SettleBoth(d, a, false, false) else ReconcileDone(d, a, false));
  }

  lemma ExpiryStepKeeps(w: World, p: nat, d: DecisionId, a: AgentId)
    requires Inv(w) && RowBelongs(w, d, a)
    ensures Inv(SetWorker(w.(tables := MarkExpiryCheck(w.tables, d).0), p, RereadDue(d, a)))
  {
    var u := w.(tables := MarkExpiryCheck(w.tables, d).0);
    ExpiryKeeps(w, u, d, a);
    assert RowBelongs(u, d, a);
    WorkerMoves(u, p, RereadDue(d, a));
  }

  lemma ReadStepKeeps(w: World, p: nat, c: Choice)
    requires Inv(w) && p in w.workers
    requires var v := w.workers[p]; v.ReconcileDue? || v.ObserveDue? || v.RereadDue? || v.ReconcileDone? || v.WorkerCrashed?
    ensures Inv(ApplyWorker(w, p, c))
  {
    assert ReconcileGood(w, w.workers[p]);
    match w.workers[p]
    case ReconcileDue(d, a) => ReconcileReadKeeps(w, p, d, a);
    case ObserveDue(d, a) => if c.See? { ObserveKeeps(w, p, d, a, c.seen); }
    case RereadDue(d, a) => RereadKeeps(w, p, d, a);
    case _ =>
  }

  lemma WriteStepKeeps(w: World, p: nat, c: Choice)
    requires Inv(w) && p in w.workers
    requires var v := w.workers[p]; v.SettleDue? || v.ExpiryDue? || v.ResolveDue? || v.TerminalDue?
    ensures Inv(ApplyWorker(w, p, c))
  {
    assert ReconcileGood(w, w.workers[p]);
    match w.workers[p]
    case SettleDue(d, a, tx, deploy) => SettleStepKeeps(w, p, d, a, tx, deploy);
    case ExpiryDue(d, a) => ExpiryStepKeeps(w, p, d, a);
    case ResolveDue(d, a, s) => ResolveKeeps(w, p, d, a, s);
    case TerminalDue(d, a, s) => TerminateStepKeeps(w, p, d, a, s);
  }

  predicate IsRevoke(v: Worker) {
    v.SuspendDue? || v.KeyDue? || v.ListDue? || v.Aborting? || v.AbortReleases? || v.RevokeDone?
  }

  lemma SuspendStepKeeps(w: World, p: nat, a: AgentId, o: OrgId)
    requires Inv(w)
    ensures Inv(SetWorker(w.(tables := SuspendAgent(w.tables, a, o).0), p, KeyDue(a, o, SuspendAgent(w.tables, a, o).1)))
  {
    SuspendKeeps(w, a, o);
    WorkerMoves(w.(tables := SuspendAgent(w.tables, a, o).0), p, KeyDue(a, o, SuspendAgent(w.tables, a, o).1));
  }

  lemma ListStepKeeps(w: World, p: nat, a: AgentId, o: OrgId, yes: bool)
    requires Inv(w) && FlagGood(w, a, o, yes)
    ensures Inv(SetWorker(w, p, Aborting(a, o, yes, ReservedOf(w.tables, a, o))))
  {
    ListingKeeps(w, a, o, yes);
    WorkerMoves(w, p, Aborting(a, o, yes, ReservedOf(w.tables, a, o)));
  }

  lemma RevokeBeginsKeeps(w: World, p: nat, c: Choice)
    requires Inv(w) && p in w.workers && (w.workers[p].SuspendDue? || w.workers[p].KeyDue? || w.workers[p].ListDue?)
    ensures Inv(ApplyWorker(w, p, c))
  {
    assert RevokeGood(w, w.workers[p]);
    match w.workers[p]
    case SuspendDue(a, o) => SuspendStepKeeps(w, p, a, o);
    case KeyDue(a, o, yes) => WorkerMoves(w, p, ListDue(a, o, yes));
    case ListDue(a, o, yes) => ListStepKeeps(w, p, a, o, yes);
  }

  lemma EmptyListKeeps(w: World, p: nat, a: AgentId, o: OrgId, yes: bool)
    requires Inv(w) && RevokeGood(w, Aborting(a, o, yes, {}))
    ensures Inv(SetWorker(w, p, RevokeDone(a, o, yes)))
  {
    WorkerMoves(w, p, RevokeDone(a, o, yes));
  }

  lemma RevokeAbortsKeeps(w: World, p: nat, c: Choice)
    requires Inv(w) && p in w.workers && (w.workers[p].Aborting? || w.workers[p].RevokeDone?)
    ensures Inv(ApplyWorker(w, p, c))
  {
    assert RevokeGood(w, w.workers[p]);
    match w.workers[p]
    case Aborting(a, o, yes, todo) =>
      if todo == {} { EmptyListKeeps(w, p, a, o, yes); }
      else if c.Abort? && c.next in todo { AbortKeeps(w, p, a, o, yes, todo, c.next); }
    case RevokeDone(_, _, _) =>
  }

  lemma WorkerStepKeeps(w: World, p: nat, c: Choice)
    requires Inv(w) && p in w.workers
    ensures Inv(ApplyWorker(w, p, c))
  {
    assert WorkerGood(w, w.workers[p]);
    match w.workers[p]
    case SettleBoth(d, a, hot, row) => SettleBothKeeps(w, p, c, d, a, hot, row);
    case ReleaseBoth(d, a, hot, row) => ReleaseBothKeeps(w, p, c, d, a, hot, row);
    case AbortReleases(a, o, yes, todo, d, hot, row) => AbortReleasesKeeps(w, p, c, a, o, yes, todo, d, hot, row);
    case SettleDue(_, _, _, _) => WriteStepKeeps(w, p, c);
    case ExpiryDue(_, _) => WriteStepKeeps(w, p, c);
    case ResolveDue(_, _, _) => WriteStepKeeps(w, p, c);
    case TerminalDue(_, _, _) => WriteStepKeeps(w, p, c);
    case SuspendDue(_, _) => RevokeBeginsKeeps(w, p, c);
    case KeyDue(_, _, _) => RevokeBeginsKeeps(w, p, c);
    case ListDue(_, _, _) => RevokeBeginsKeeps(w, p, c);
    case Aborting(_, _, _, _) => RevokeAbortsKeeps(w, p, c);
    case RevokeDone(_, _, _) => RevokeAbortsKeeps(w, p, c);
    case _ => ReadStepKeeps(w, p, c);
  }

  // ---- Every action, every run ---------------------------------------------------------------------

  lemma CallActions(w: World, u: World, act: Action)
    requires Enabled(w, act) && (act.Begin? || act.Crash?) && u == Apply(w, act)
    ensures CallsOnly(w, u)
  {
  }

  lemma SwitchActions(w: World, u: World, act: Action)
    requires Enabled(w, act) && (act.SetKillSwitch? || act.ClearKillSwitch? || act.LockVanishes?) && u == Apply(w, act)
    ensures SameRecords(w, u) && u.workers == w.workers
  {
  }

  lemma WorkerActions(w: World, u: World, act: Action)
    requires Inv(w) && Enabled(w, act) && (act.BeginWorker? || act.CrashWorker?) && u == Apply(w, act)
    ensures Inv(u)
  {
    WorkerMoves(w, act.p, if act.BeginWorker? then act.start else WorkerCrashed);
  }

  /** Switches and locks change; calls and workers begin or are cut short. */
  lemma OutsideKeeps(w: World, u: World, act: Action)
    requires Inv(w) && Enabled(w, act) && !act.AuthStep? && !act.WorkerStep? && u == Apply(w, act)
    ensures Inv(u)
  {
    if act.Begin? || act.Crash? {
      CallActions(w, u, act);
      CallsOnlyKeeps(w, u);
    } else if act.BeginWorker? || act.CrashWorker? {
      WorkerActions(w, u, act);
    } else {
      SwitchActions(w, u, act);
      EnvironmentKeeps(w, u);
    }
  }

  lemma ActionKeeps(w: World, u: World, act: Action)
    requires Inv(w) && Enabled(w, act) && u == Apply(w, act)
    ensures Inv(u)
  {
    match act
    case AuthStep(d, c) => AuthStepKeeps(w, d, c);
    case WorkerStep(p, c) => WorkerStepKeeps(w, p, c);
    case _ => OutsideKeeps(w, u, act);
  }

  /** An action that cannot happen leaves the world as it is, so any list of actions is a run. */
  ghost function Next(w: World, act: Action): World { if Enabled(w, act) then Apply(w, act) else w }

  ghost function After(w: World, acts: seq<Action>): World {
    if acts == [] then w else Next(After(w, acts[..|acts| - 1]), acts[|acts| - 1])
  }

  /** Nothing recorded and nobody at work yet; agents, policies, kill switches and stray locks are arbitrary. */
  ghost predicate Initial(w: World) {
    w.tables.decisions == map[] && w.tables.holds == map[] && w.ledgers == map[] && w.auths == map[] && w.workers == map[] && w.signerCalls == []
  }

  lemma InitialKeeps(w: World)
    requires Initial(w)
    ensures Inv(w)
  {
  }

  /** The invariant holds after every run. */
  lemma {:induction false} RunKeeps(w: World, acts: seq<Action>)
    requires Inv(w)
    ensures Inv(After(w, acts))
  {
    if acts != [] {
      var before, act := After(w, acts[..|acts| - 1]), acts[|acts| - 1];
      RunKeeps(w, acts[..|acts| - 1]);
      if Enabled(before, act) { ActionKeeps(before, Apply(before, act), act); }
    }
  }
}
