// Where a terminal status can come from, over all runs (src/engines/casper-guard/reconcile-worker.ts, policy.ts).
module GuardProvenance {
  import opened Options
  import opened T = GuardTables
  import opened GuardProtocol
  import opened GuardRuns
  import opened GuardTheorems
  import GuardScenarios

  /** The reconcile of decision d reads an answer of the settlement reader in this action. */
  predicate Observes(u: World, act: Action, d: DecisionId) {
    act.WorkerStep? && act.c.See? && act.p in u.workers && u.workers[act.p].ObserveDue? && u.workers[act.p].d == d
  }

  /** A revoke marks decision d, which it had listed, in this action. */
  predicate Aborts(u: World, act: Action, d: DecisionId) {
    act.WorkerStep? && act.c == Abort(d) && act.p in u.workers && u.workers[act.p].Aborting? && d in u.workers[act.p].todo
  }

  // ---- What has been heard so far ------------------------------------------------------------------

  /** The decisions that some reconcile saw settled, expired or failed, and those that some revoke aborted. */
  datatype History = History(settled: set<DecisionId>, expired: set<DecisionId>, failed: set<DecisionId>, aborted: set<DecisionId>)

  function Hear(h: History, u: World, act: Action): History {
    if !act.WorkerStep? || act.p !in u.workers then h
    else
      var v := u.workers[act.p];
      if v.ObserveDue? && act.c.See? then
        match act.c.seen
        case SeenSettled(_, _) => h.(settled := h.settled + {v.d})
        case SeenPending => h
        case SeenExpired => h.(expired := h.expired + {v.d})
        case SeenFailed => h.(failed := h.failed + {v.d})
      else if v.Aborting? && act.c.Abort? && act.c.next in v.todo then h.(aborted := h.aborted + {act.c.next})
      else h
  }

  ghost function HistoryOf(w: World, acts: seq<Action>): History {
    if acts == [] then History({}, {}, {}, {})
    else Hear(HistoryOf(w, acts[..|acts| - 1]), After(w, acts[..|acts| - 1]), acts[|acts| - 1])
  }

  predicate Grows(h: History, k: History) { h.settled <= k.settled && h.expired <= k.expired && h.failed <= k.failed && h.aborted <= k.aborted }

  lemma HearGrows(h: History, u: World, act: Action)
    ensures Grows(h, Hear(h, u, act))
  {
  }

  // ---- What workers and rows owe to it ---------------------------------------------------------------

  /** The status a worker is about to write is what it was told. */
  predicate WorkerTold(v: Worker, h: History) {
    && (v.SettleDue? ==> v.d in h.settled)
    && (v.ResolveDue? || v.TerminalDue? ==> (v.status.Expired? ==> v.d in h.expired) && (v.status.FailedTerminal? ==> v.d in h.failed))
  }

  /** A row that was signed has a terminal status only from an answer or an abort. */
  predicate RowTold(d: DecisionId, r: Decision, h: History) {
    && (r.status.Settled? ==> d in h.settled)
    && (r.status.Expired? ==> d in h.expired)
    && (r.status.FailedTerminal? && r.signedHash.Some? ==> d in h.failed || d in h.aborted)
  }

  ghost predicate RowsTold(t: Tables, h: History) { forall d :: d in t.decisions ==> RowTold(d, t.decisions[d], h) }

  ghost predicate WorkersTold(u: World, h: History) { forall p :: p in u.workers ==> WorkerTold(u.workers[p], h) }

  predicate Leaves(at: Point) { at.UnlockRead? || at.UnlockDelete? || at.Finished? }

  /** A call whose decision carries a signature has only its lock left to free. */
  ghost predicate SignedLeave(u: World) {
    forall d :: d in u.tables.decisions && u.tables.decisions[d].signedHash.Some? ==> d in u.auths && Leaves(u.auths[d].at)
  }

  ghost predicate Told(u: World, h: History) { RowsTold(u.tables, h) && WorkersTold(u, h) && SignedLeave(u) }

  lemma WorkerToldGrows(v: Worker, h: History, k: History)
    requires WorkerTold(v, h) && Grows(h, k)
    ensures WorkerTold(v, k)
  {
  }

  lemma RowsToldGrow(t: Tables, h: History, k: History)
    requires RowsTold(t, h) && Grows(h, k)
    ensures RowsTold(t, k)
  {
  }

  // ---- Worker steps --------------------------------------------------------------------------------------

  predicate Reads(v: Worker) { v.ReconcileDue? || v.ObserveDue? || v.RereadDue? || v.ResolveDue? }

  lemma ObserverHears(w: World, u: World, p: nat, c: Choice, h: History)
    requires p in w.workers && u == ApplyWorker(w, p, c) && w.workers[p].ObserveDue?
    ensures p in u.workers && WorkerTold(u.workers[p], Hear(h, w, WorkerStep(p, c)))
  {
  }

  lemma ResolverHears(w: World, u: World, p: nat, c: Choice, h: History)
    requires p in w.workers && u == ApplyWorker(w, p, c) && WorkerTold(w.workers[p], h) && w.workers[p].ResolveDue?
    ensures p in u.workers && WorkerTold(u.workers[p], Hear(h, w, WorkerStep(p, c)))
  {
  }

  /** A worker at v has no status to write. */
  predicate Mute(v: Worker) { !v.SettleDue? && !v.ResolveDue? && !v.TerminalDue? }

  lemma RowReaderIsMute(w: World, u: World, p: nat, c: Choice)
    requires p in w.workers && u == ApplyWorker(w, p, c) && (w.workers[p].ReconcileDue? || w.workers[p].RereadDue?)
    ensures p in u.workers && Mute(u.workers[p])
  {
  }

  lemma SettlerIsMute(w: World, p: nat, d: DecisionId, a: AgentId, tx: Option<string>, deploy: Option<string>)
    ensures var u := ApplySettle(w, p, d, a, tx, deploy); p in u.workers && Mute(u.workers[p])
  {
    if MarkSettled(w.tables, d, tx, deploy).1 {
    } else if IsSettledRow(w, d) {
    } else {
    }
  }

  lemma TerminatorIsMute(w: World, p: nat, d: DecisionId, a: AgentId, s: Status)
    requires p in w.workers && w.workers[p] == TerminalDue(d, a, s)
    ensures var u := ApplyTerminate(w, p, d, a, s); p in u.workers && (u.workers[p] == w.workers[p] || Mute(u.workers[p]))
  {
  }

  lemma AborterIsMute(w: World, p: nat, a: AgentId, o: OrgId, yes: bool, todo: set<DecisionId>, d: DecisionId)
    ensures var u := ApplyAbort(w, p, a, o, yes, todo, d); p in u.workers && Mute(u.workers[p])
  {
  }

  lemma ReleaserIsMute(w: World, u: World, p: nat, c: Choice)
    requires p in w.workers && u == ApplyWorker(w, p, c) && w.workers[p].ReleaseBoth?
    ensures p in u.workers && Mute(u.workers[p])
  {
  }

  lemma RevokerIsMute(w: World, u: World, p: nat, c: Choice)
    requires p in w.workers && u == ApplyWorker(w, p, c) && w.workers[p].AbortReleases?
    ensures p in u.workers && Mute(u.workers[p])
  {
  }

  lemma CleanerIsMute(w: World, u: World, p: nat, c: Choice)
    requires p in w.workers && u == ApplyWorker(w, p, c) && (w.workers[p].SettleBoth? || w.workers[p].ExpiryDue?)
    ensures p in u.workers && Mute(u.workers[p])
  {
  }

  lemma OthersAreMute(w: World, u: World, p: nat, c: Choice)
    requires p in w.workers && u == ApplyWorker(w, p, c)
    requires var v := w.workers[p]; v.ReconcileDone? || v.SuspendDue? || v.KeyDue? || v.ListDue? || v.RevokeDone? || v.WorkerCrashed?
    ensures p in u.workers && Mute(u.workers[p])
  {
  }

  /** Only a reader comes to a status to write. */
  lemma WriterGoesOn(w: World, u: World, p: nat, c: Choice)
    requires p in w.workers && u == ApplyWorker(w, p, c) && !Reads(w.workers[p])
    ensures p in u.workers && (u.workers[p] == w.workers[p] || Mute(u.workers[p]))
  {
    var v := w.workers[p];
    if v.SettleDue? { SettlerIsMute(w, p, v.d, v.agent, v.tx, v.deploy); }
    else if v.TerminalDue? { TerminatorIsMute(w, p, v.d, v.agent, v.status); }
    else if v.Aborting? { if c.Abort? { AborterIsMute(w, p, v.a, v.o, v.suspended, v.todo, c.next); } }
    else if v.ReleaseBoth? { ReleaserIsMute(w, u, p, c); }
    else if v.AbortReleases? { RevokerIsMute(w, u, p, c); }
    else if v.SettleBoth? || v.ExpiryDue? { CleanerIsMute(w, u, p, c); }
    else { OthersAreMute(w, u, p, c); }
  }

  lemma ReaderHears(w: World, u: World, p: nat, c: Choice, h: History)
    requires p in w.workers && u == ApplyWorker(w, p, c) && WorkerTold(w.workers[p], h) && Reads(w.workers[p])
    ensures p in u.workers && WorkerTold(u.workers[p], Hear(h, w, WorkerStep(p, c)))
  {
    if w.workers[p].ObserveDue? { ObserverHears(w, u, p, c, h); }
    else if w.workers[p].ResolveDue? { ResolverHears(w, u, p, c, h); }
    else { RowReaderIsMute(w, u, p, c); }
  }

  lemma WorkersHear(w: World, u: World, p: nat, c: Choice, h: History)
    requires p in w.workers && u == ApplyWorker(w, p, c) && WorkersTold(w, h)
    ensures WorkersTold(u, Hear(h, w, WorkerStep(p, c)))
  {
    var k := Hear(h, w, WorkerStep(p, c));
    HearGrows(h, w, WorkerStep(p, c));
    WorkerAlone(w, u, p, c);
    if Reads(w.workers[p]) { ReaderHears(w, u, p, c, h); } else { WriterGoesOn(w, u, p, c); }
    forall r | r in u.workers
      ensures WorkerTold(u.workers[r], k)
    {
      if r != p { WorkerToldGrows(w.workers[r], h, k); }
    }
  }

  /** What a statement writes was told to the worker that runs it. */
  predicate StatementTold(s: Statement, h: History) {
    && (s.Settling? ==> s.d in h.settled)
    && (s.Terminate? && s.status.Expired? ==> s.d in h.expired)
    && (s.Terminate? && s.status.FailedTerminal? ==> s.d in h.failed || s.d in h.aborted)
  }

  lemma WorkerSays(w: World, p: nat, c: Choice, h: History)
    requires p in w.workers && WorkerTold(w.workers[p], h)
    ensures StatementTold(StatementOf(w.workers[p], c), Hear(h, w, WorkerStep(p, c)))
  {
  }

  lemma ExecuteTold(t: Tables, s: Statement, h: History)
    requires RowsTold(t, h) && StatementTold(s, h)
    ensures RowsTold(Execute(t, s), h)
  {
  }

  lemma ExecuteSignsNothing(t: Tables, s: Statement, d: DecisionId)
    requires d in Execute(t, s).decisions && Execute(t, s).decisions[d].signedHash.Some?
    ensures d in t.decisions && t.decisions[d].signedHash.Some?
  {
  }

  lemma WorkerStepTold(w: World, u: World, p: nat, c: Choice, h: History)
    requires p in w.workers && u == ApplyWorker(w, p, c) && Told(w, h)
    ensures Told(u, Hear(h, w, WorkerStep(p, c)))
  {
    var k, s := Hear(h, w, WorkerStep(p, c)), StatementOf(w.workers[p], c);
    WorkersHear(w, u, p, c, h);
    WorkerExecutes(w, u, p, c);
    WorkerAlone(w, u, p, c);
    HearGrows(h, w, WorkerStep(p, c));
    RowsToldGrow(w.tables, h, k);
    WorkerSays(w, p, c, h);
    ExecuteTold(w.tables, s, k);
    forall d | d in u.tables.decisions && u.tables.decisions[d].signedHash.Some?
      ensures d in u.auths && Leaves(u.auths[d].at)
    {
      ExecuteSignsNothing(w.tables, s, d);
    }
  }

  // ---- Authorize steps ------------------------------------------------------------------------------------

  /** A leaving call stays on its way out and writes no row. */
  lemma LeavingStays(w: World, u: World, d: DecisionId, c: Choice)
    requires d in w.auths && Leaves(w.auths[d].at) && u == ApplyAuth(w, d, c)
    ensures d in u.auths && Leaves(u.auths[d].at) && u.tables.decisions == w.tables.decisions
  {
    AuthRows(w, u, d, c);
  }

  /** What an authorize step can make of its row: nothing, a new row, a signature with which it leaves, or a failure. */
  predicate Writes(w: World, u: World, d: DecisionId)
    requires d in w.auths
  {
    || u.tables.decisions == w.tables.decisions
    || (d in u.tables.decisions && u.tables.decisions == w.tables.decisions[d := u.tables.decisions[d]]
        && (var r := u.tables.decisions[d];
            || ((r.status.Denied? || r.status.Reserved?) && r.signedHash.None?)
            || (r.status.Signed? && d in u.auths && Leaves(u.auths[d].at))
            || (w.auths[d].at.FailDue? && d in w.tables.decisions && r == w.tables.decisions[d].(status := FailedTerminal))))
  }

  lemma DenyWrites(w: World, d: DecisionId)
    requires d in w.auths && w.auths[d].at.DenyDue?
    ensures Writes(w, ApplyDeny(w, d), d)
  {
  }

  lemma InsertWrites(w: World, d: DecisionId, fault: bool)
    requires d in w.auths && w.auths[d].at.InsertDue?
    ensures Writes(w, ApplyInsert(w, d, fault), d)
  {
  }

  lemma MarkWrites(w: World, d: DecisionId, hash: string, tx: Option<string>, deploy: Option<string>)
    requires d in w.auths && w.auths[d].at.MarkDue?
    ensures Writes(w, ApplyMark(w, d, hash, tx, deploy), d)
  {
  }

  lemma FailWrites(w: World, d: DecisionId)
    requires d in w.auths && w.auths[d].at.FailDue?
    ensures Writes(w, ApplyFail(w, d), d)
  {
  }

  lemma AuthWrites(w: World, u: World, d: DecisionId, c: Choice)
    requires d in w.auths && u == ApplyAuth(w, d, c)
    ensures Writes(w, u, d)
  {
    var at := w.auths[d].at;
    if at.DenyDue? { DenyWrites(w, d); }
    else if at.InsertDue? { InsertWrites(w, d, c.Fault?); }
    else if at.MarkDue? { if c.Signature? { MarkWrites(w, d, c.hash, c.tx, c.deploy); } }
    else if at.FailDue? { FailWrites(w, d); }
    else { AuthRows(w, u, d, c); }
  }

  lemma WrittenTold(w: World, u: World, d: DecisionId, h: History)
    requires d in w.auths && Writes(w, u, d) && RowsTold(w.tables, h) && SignedLeave(w)
    ensures RowsTold(u.tables, h)
  {
  }

  lemma AuthLeaves(w: World, u: World, d: DecisionId, c: Choice)
    requires AllGood(w) && d in w.auths && u == ApplyAuth(w, d, c) && SignedLeave(w)
    ensures SignedLeave(u)
  {
    AuthWrites(w, u, d, c);
    if Leaves(w.auths[d].at) { LeavingStays(w, u, d, c); }
    forall e | e in u.tables.decisions && u.tables.decisions[e].signedHash.Some?
      ensures e in u.auths && Leaves(u.auths[e].at)
    {
      if e != d { AuthKeepsOthers(w, u, d, c, e); }
    }
  }

  lemma AuthStepTold(w: World, u: World, d: DecisionId, c: Choice, h: History)
    requires AllGood(w) && d in w.auths && u == ApplyAuth(w, d, c) && Told(w, h)
    ensures Told(u, h)
  {
    AuthWrites(w, u, d, c);
    WrittenTold(w, u, d, h);
    AuthLeaves(w, u, d, c);
    AuthFrame(w, u, d, c);
  }

  lemma OutsideTold(w: World, u: World, act: Action, h: History)
    requires Owned(w) && Enabled(w, act) && !act.AuthStep? && !act.WorkerStep? && u == Apply(w, act) && Told(w, h)
    ensures Told(u, h)
  {
  }

  lemma ActionTold(w: World, u: World, act: Action, h: History)
    requires Inv(w) && Enabled(w, act) && u == Apply(w, act) && Told(w, h)
    ensures Told(u, Hear(h, w, act))
  {
    match act
    case AuthStep(d, c) => AuthStepTold(w, u, d, c, h);
    case WorkerStep(p, c) => WorkerStepTold(w, u, p, c, h);
    case _ => OutsideTold(w, u, act, h);
  }

  lemma {:induction false} RunTold(w: World, acts: seq<Action>)
    requires Initial(w)
    ensures Inv(After(w, acts)) && Told(After(w, acts), HistoryOf(w, acts))
  {
    InitialKeeps(w);
    RunKeeps(w, acts);
    if acts != [] {
      var before, act, h := After(w, acts[..|acts| - 1]), acts[|acts| - 1], HistoryOf(w, acts[..|acts| - 1]);
      RunTold(w, acts[..|acts| - 1]);
      if Enabled(before, act) { ActionTold(before, Apply(before, act), act, h); } else { assert Hear(h, before, act) == h; }
    }
  }

  // ---- The history in terms of the run ---------------------------------------------------------------------

  /** What can take a signed decision to a terminal status. */
  datatype Source = SawSettled | SawExpired | SawFailed | WasAborted

  function Known(h: History, s: Source): set<DecisionId> {
    match s
    case SawSettled => h.settled
    case SawExpired => h.expired
    case SawFailed => h.failed
    case WasAborted => h.aborted
  }

  predicate IsSource(u: World, act: Action, d: DecisionId, s: Source) {
    match s
    case SawSettled => Observes(u, act, d) && act.c.seen.SeenSettled?
    case SawExpired => Observes(u, act, d) && act.c.seen.SeenExpired?
    case SawFailed => Observes(u, act, d) && act.c.seen.SeenFailed?
    case WasAborted => Aborts(u, act, d)
  }

  /** Action i of the run is of this kind, for decision d. */
  ghost predicate HappensAt(w: World, acts: seq<Action>, i: nat, d: DecisionId, s: Source) {
    i < |acts| && IsSource(After(w, acts[..i]), acts[i], d, s)
  }

  lemma NewlyKnown(h: History, u: World, act: Action, d: DecisionId, s: Source)
    requires d in Known(Hear(h, u, act), s) && d !in Known(h, s)
    ensures IsSource(u, act, d, s)
  {
  }

  lemma {:induction false} KnownHappened(w: World, acts: seq<Action>, d: DecisionId, s: Source) returns (i: nat)
    requires d in Known(HistoryOf(w, acts), s)
    ensures HappensAt(w, acts, i, d, s)
  {
    var n := |acts| - 1;
    if d in Known(HistoryOf(w, acts[..n]), s) {
      i := KnownHappened(w, acts[..n], d, s);
      assert acts[..n][..i] == acts[..i];
    } else {
      i := n;
      NewlyKnown(HistoryOf(w, acts[..n]), After(w, acts[..n]), acts[n], d, s);
    }
  }

  /**
   * Over all runs: a decision is SETTLED only if a reconcile of it saw it settled, EXPIRED only if one saw it expired, and a
   * signed one is FAILED_TERMINAL only if one saw it fail or a revoke aborted it.
   */
  lemma {:induction false} TerminalHasASource(w: World, acts: seq<Action>, d: DecisionId)
    requires Initial(w) && d in After(w, acts).tables.decisions
    ensures var r := After(w, acts).tables.decisions[d];
            && (r.status.Settled? ==> exists i: nat :: HappensAt(w, acts, i, d, SawSettled))
            && (r.status.Expired? ==> exists i: nat :: HappensAt(w, acts, i, d, SawExpired))
            && (r.status.FailedTerminal? && r.signedHash.Some? ==>
                  (exists i: nat :: HappensAt(w, acts, i, d, SawFailed)) || (exists i: nat :: HappensAt(w, acts, i, d, WasAborted)))
  {
    RunTold(w, acts);
    var h := HistoryOf(w, acts);
    if d in h.settled { var i := KnownHappened(w, acts, d, SawSettled); }
    if d in h.expired { var i := KnownHappened(w, acts, d, SawExpired); }
    if d in h.failed { var i := KnownHappened(w, acts, d, SawFailed); }
    if d in h.aborted { var i := KnownHappened(w, acts, d, WasAborted); }
  }

  lemma CommittedSlice(s: Slice)
    requires Good(s) && s.row.Some?
    requires var t := s.row.value.status; t.Signed? || t.Broadcasting? || t.ExpiryCheck? || t.Settled?
    ensures s.row.value.signedHash.Some?
  {
  }

  lemma CommittedIsSigned(u: World, d: DecisionId, a: AgentId, o: OrgId)
    requires Owned(u) && AllGood(u) && CommittedFor(u.tables, d, a, o)
    ensures u.tables.decisions[d].signedHash.Some? && Rank(u.tables.decisions[d].status) > 1
  {
    var s := SliceOf(u, d);
    assert s.row == Some(u.tables.decisions[d]);
    CommittedSlice(s);
  }

  lemma SignatureStays(t: Tables, v: Tables, d: DecisionId)
    requires Advances(t, v) && d in t.decisions && t.decisions[d].signedHash.Some? && Rank(t.decisions[d].status) > 1
    ensures d in v.decisions && v.decisions[d].signedHash.Some?
  {
  }

  lemma {:induction false} CommittedKeepsSignature(w: World, u: World, more: seq<Action>, d: DecisionId, a: AgentId, o: OrgId)
    requires Inv(u) && CommittedFor(u.tables, d, a, o) && w == After(u, more)
    ensures d in w.tables.decisions && w.tables.decisions[d].signedHash.Some?
  {
    CommittedIsSigned(u, d, a, o);
    RunAdvances(u, more);
    SignatureStays(u.tables, w.tables, d);
  }

  lemma {:induction false} ReachedLater(w: World, acts: seq<Action>, k: nat) returns (u: World)
    requires Initial(w) && k <= |acts|
    ensures u == After(w, acts[..k]) && Inv(u) && After(w, acts) == After(u, acts[k..])
  {
    u := After(w, acts[..k]);
    InitialKeeps(w);
    RunKeeps(w, acts[..k]);
    assert acts[..k] + acts[k..] == acts;
    GuardScenarios.AfterBoth(w, acts[..k], acts[k..]);
  }

  /** So a decision that was ever committed fails only by an answer of the reader or by a revoke. */
  lemma {:induction false} CommittedFailsOnlyIfTold(w: World, acts: seq<Action>, k: nat, d: DecisionId, a: AgentId, o: OrgId)
    requires Initial(w) && k <= |acts| && CommittedFor(After(w, acts[..k]).tables, d, a, o)
    requires d in After(w, acts).tables.decisions && After(w, acts).tables.decisions[d].status.FailedTerminal?
    ensures (exists i: nat :: HappensAt(w, acts, i, d, SawFailed)) || (exists i: nat :: HappensAt(w, acts, i, d, WasAborted))
  {
    var u := ReachedLater(w, acts, k);
    CommittedKeepsSignature(After(w, acts), u, acts[k..], d, a, o);
    TerminalHasASource(w, acts, d);
  }
}
