// Which pending deposits a teardown finds: exactly those whose depositFor call got as far as the index
// (src/engines/provisioning/deposit.ts, teardown.ts).
module FloatStranding {
  import opened Options
  import opened Sums
  import opened FloatStore
  import opened FloatProtocol
  import opened FloatRuns

  // ---- The index at every step ---------------------------------------------------------------------

  ghost predicate EntriesEnded(w: World) {
    forall a, id :: id in IndexOf(w.hot, a) ==> id in w.deposits && w.deposits[id].at.Ended?
  }

  ghost predicate PendingListed(w: World) {
    forall id :: id in w.deposits && w.deposits[id].at.Ended? && IsPending(w.hot, id) ==> id in IndexOf(w.hot, w.deposits[id].agent)
  }

  ghost predicate SweptEnded(w: World) {
    forall p, id :: p in w.procs && w.procs[p].Sweeper? && SweepIds(w.procs[p].at, id) ==> id in w.deposits && w.deposits[id].at.Ended?
  }

  ghost predicate TidiedResolved(w: World) { forall p :: p in w.procs && Tidies(w.procs[p]) ==> !IsPending(w.hot, w.procs[p].at.id) }

  /** Index entries and swept ids are of finished calls, and a finished call's PENDING record is in the index. */
  ghost predicate Indexed(w: World) { EntriesEnded(w) && PendingListed(w) && SweptEnded(w) && TidiedResolved(w) }

  predicate Tidies(v: Proc) { v.Sweeper? && v.at.TidyDue? }

  /** Nothing but allocation id changes its deposit, its record or its place in an index. */
  ghost predicate OnlyMoves(w: World, u: World, id: AllocId) {
    && id in w.deposits && id in u.deposits && u.deposits == w.deposits[id := u.deposits[id]] && u.deposits[id].agent == w.deposits[id].agent
    && (forall j :: j != id ==> RecordAt(u.hot, j) == RecordAt(w.hot, j))
    && (forall a, j :: j != id ==> (j in IndexOf(u.hot, a) <==> j in IndexOf(w.hot, a)))
  }

  /** The allocation that moves stays in step with the index. */
  ghost predicate InStep(w: World, u: World, id: AllocId)
    requires id in w.deposits && id in u.deposits
  {
    && (w.deposits[id].at.Ended? ==> u.deposits[id].at.Ended? && (IsPending(u.hot, id) ==> IsPending(w.hot, id)))
    && (forall a :: id in IndexOf(u.hot, a) ==> u.deposits[id].at.Ended?)
    && (u.deposits[id].at.Ended? && IsPending(u.hot, id) ==> id in IndexOf(u.hot, u.deposits[id].agent))
  }

  lemma SameElsewhere(w: World, u: World, id: AllocId)
    requires OnlyMoves(w, u, id)
    ensures forall j :: j != id ==> IsPending(u.hot, j) == IsPending(w.hot, j)
  {
    forall j | j != id
      ensures IsPending(u.hot, j) == IsPending(w.hot, j)
    {
      assert RecordAt(u.hot, j) == RecordAt(w.hot, j);
    }
  }

  lemma StoresKeepEntries(w: World, u: World, id: AllocId)
    requires EntriesEnded(w) && OnlyMoves(w, u, id) && InStep(w, u, id)
    ensures EntriesEnded(u)
  {
  }

  lemma StoresKeepListed(w: World, u: World, id: AllocId)
    requires PendingListed(w) && OnlyMoves(w, u, id) && InStep(w, u, id)
    ensures PendingListed(u)
  {
    SameElsewhere(w, u, id);
  }

  lemma StoresKeepSweeps(w: World, u: World, id: AllocId)
    requires SweptEnded(w) && TidiedResolved(w) && OnlyMoves(w, u, id) && InStep(w, u, id) && u.procs == w.procs
    ensures SweptEnded(u) && TidiedResolved(u)
  {
    SameElsewhere(w, u, id);
    forall p | p in u.procs && Tidies(u.procs[p])
      ensures !IsPending(u.hot, u.procs[p].at.id)
    {
      assert SweepIds(w.procs[p].at, w.procs[p].at.id);
    }
  }

  lemma StoresKeep(w: World, u: World, id: AllocId)
    requires Indexed(w) && OnlyMoves(w, u, id) && InStep(w, u, id) && u.procs == w.procs
    ensures Indexed(u)
  {
    StoresKeepEntries(w, u, id);
    StoresKeepListed(w, u, id);
    StoresKeepSweeps(w, u, id);
  }

  /** One process moves, and nothing that the index is about. */
  ghost predicate ProcMoves(w: World, u: World, p: nat, v: Proc) {
    u.deposits == w.deposits && u.hot.records == w.hot.records && u.hot.index == w.hot.index && u.procs == w.procs[p := v]
  }

  lemma SamePlaces(h: Hot, g: Hot)
    requires g.records == h.records && g.index == h.index
    ensures forall j :: IsPending(g, j) == IsPending(h, j)
    ensures forall a :: IndexOf(g, a) == IndexOf(h, a)
  {
  }

  lemma ProcKeeps(w: World, u: World, p: nat, v: Proc)
    requires Indexed(w) && ProcMoves(w, u, p, v)
    requires v.Sweeper? ==> forall id :: SweepIds(v.at, id) ==> id in w.deposits && w.deposits[id].at.Ended?
    requires Tidies(v) ==> !IsPending(w.hot, v.at.id)
    ensures Indexed(u)
  {
    SamePlaces(w.hot, u.hot);
  }

  lemma DepositOnlyMoves(w: World, u: World, id: AllocId, ok: bool)
    requires id in w.deposits && u == ApplyDeposit(w, id, ok)
    ensures OnlyMoves(w, u, id) && u.procs == w.procs
  {
    DepositFrame(w, u, id, ok);
    IndexOnlyMoves(w.hot, u.hot, w.deposits[id].agent, id);
  }

  lemma IndexOnlyMoves(h: Hot, g: Hot, a: AgentId, id: AllocId)
    requires g.index == h.index || g.index == h.index[a := IndexOf(h, a) + {id}]
    ensures forall b, j :: j != id ==> (j in IndexOf(g, b) <==> j in IndexOf(h, b))
  {
  }

  lemma EarlyInStep(w: World, u: World, id: AllocId, ok: bool)
    requires Indexed(w) && id in w.deposits && GoodSlice(SliceOf(w, id)) && u == ApplyDeposit(w, id, ok)
    requires !w.deposits[id].at.RecordDue? && !w.deposits[id].at.IndexDue?
    ensures id in u.deposits && InStep(w, u, id)
  {
    SamePlaces(w.hot, u.hot);
    assert u.deposits[id].at.Ended? && IsPending(w.hot, id) ==> w.deposits[id].at.Ended?;
  }

  lemma RecordInStep(w: World, u: World, id: AllocId, ok: bool)
    requires Indexed(w) && id in w.deposits && u == ApplyDeposit(w, id, ok) && w.deposits[id].at.RecordDue?
    ensures id in u.deposits && InStep(w, u, id)
  {
    assert forall a :: IndexOf(u.hot, a) == IndexOf(w.hot, a);
  }

  lemma IndexInStep(w: World, u: World, id: AllocId, ok: bool)
    requires Indexed(w) && id in w.deposits && u == ApplyDeposit(w, id, ok) && w.deposits[id].at.IndexDue?
    ensures id in u.deposits && InStep(w, u, id)
  {
    assert id in u.hot.index[w.deposits[id].agent];
  }

  lemma DepositStepKeeps(w: World, u: World, id: AllocId, ok: bool)
    requires Inv(w) && Indexed(w) && id in w.deposits && u == ApplyDeposit(w, id, ok)
    ensures Indexed(u)
  {
    DepositOnlyMoves(w, u, id, ok);
    assert GoodSlice(SliceOf(w, id));
    if w.deposits[id].at.RecordDue? { RecordInStep(w, u, id, ok); }
    else if w.deposits[id].at.IndexDue? { IndexInStep(w, u, id, ok); }
    else { EarlyInStep(w, u, id, ok); }
    StoresKeep(w, u, id);
  }

  lemma ConfirmOnlyMoves(w: World, u: World, p: nat, id: AllocId, step: ConfirmAt, seen: Finality)
    requires id in w.deposits && u == ConfirmMove(w, p, id, step, seen).0
    ensures OnlyMoves(w, u, id) && u.procs == w.procs
  {
    ConfirmFrame(w, u, p, id, step, seen);
  }

  lemma ConfirmIsInStep(w: World, u: World, p: nat, id: AllocId, step: ConfirmAt, seen: Finality)
    requires Indexed(w) && id in w.deposits && u == ConfirmMove(w, p, id, step, seen).0 && (step.DeindexDue? ==> !IsPending(w.hot, id))
    ensures id in u.deposits && InStep(w, u, id)
  {
    assert u.deposits[id].at == w.deposits[id].at && u.deposits[id].agent == w.deposits[id].agent;
    assert forall a :: IndexOf(u.hot, a) <= IndexOf(w.hot, a);
    assert IsPending(u.hot, id) ==> IsPending(w.hot, id) && u.hot.index == w.hot.index;
  }

  lemma CancelOnlyMoves(w: World, u: World, a: AgentId, id: AllocId)
    requires id in w.deposits && GoodSlice(SliceOf(w, id)) && u == ApplyCancel(w, a, id)
    ensures OnlyMoves(w, u, id) && u.procs == w.procs
  {
    CancelFrame(w, u, a, id);
  }

  lemma CancelIsInStep(w: World, u: World, a: AgentId, id: AllocId)
    requires Indexed(w) && id in w.deposits && u == ApplyCancel(w, a, id)
    ensures id in u.deposits && InStep(w, u, id) && !IsPending(u.hot, id)
  {
    assert forall b :: IndexOf(u.hot, b) <= IndexOf(w.hot, b);
  }

  lemma TidyIsInStep(w: World, u: World, a: AgentId, id: AllocId)
    requires Indexed(w) && id in w.deposits && !IsPending(w.hot, id) && u == w.(hot := Deindex(w.hot, a, id))
    ensures OnlyMoves(w, u, id) && InStep(w, u, id) && u.procs == w.procs
  {
    assert u.deposits == w.deposits[id := u.deposits[id]];
    assert forall j :: IsPending(u.hot, j) == IsPending(w.hot, j) && RecordAt(u.hot, j) == RecordAt(w.hot, j);
    assert forall b :: IndexOf(u.hot, b) <= IndexOf(w.hot, b);
  }

  /** A process about to take an id out of the index after promoting it has promoted it. */
  lemma RecordingIsNotPending(w: World, p: nat, id: AllocId)
    requires SlicesGood(w) && WinnersRecord(w) && p in w.procs && IsRecording(w.procs[p], id)
    ensures !IsPending(w.hot, id)
  {
    assert GoodSlice(SliceOf(w, id));
  }

  lemma EndedStays(w: World, u: World, id: AllocId)
    requires OnlyMoves(w, u, id) && InStep(w, u, id)
    ensures u.deposits.Keys == w.deposits.Keys
    ensures forall j :: j in w.deposits && w.deposits[j].at.Ended? ==> u.deposits[j].at.Ended?
  {
  }

  lemma ConfirmedKeeps(w: World, mid: World, p: nat, id: AllocId, step: ConfirmAt, seen: Finality)
    requires Indexed(w) && id in w.deposits && (step.DeindexDue? ==> !IsPending(w.hot, id)) && mid == ConfirmMove(w, p, id, step, seen).0
    ensures Indexed(mid) && mid.deposits.Keys == w.deposits.Keys && mid.procs == w.procs
    ensures forall j :: j in w.deposits && w.deposits[j].at.Ended? ==> mid.deposits[j].at.Ended?
  {
    ConfirmOnlyMoves(w, mid, p, id, step, seen);
    ConfirmIsInStep(w, mid, p, id, step, seen);
    StoresKeep(w, mid, id);
    EndedStays(w, mid, id);
  }

  lemma ConfirmKeeps(w: World, mid: World, p: nat, id: AllocId, step: ConfirmAt, seen: Finality)
    requires Inv(w) && Indexed(w) && p in w.procs && Confirms(w.procs[p], id, step) && mid == ConfirmMove(w, p, id, step, seen).0
    ensures Indexed(mid) && mid.deposits.Keys == w.deposits.Keys && mid.procs == w.procs
    ensures forall j :: j in w.deposits && w.deposits[j].at.Ended? ==> mid.deposits[j].at.Ended?
  {
    if id in w.deposits {
      if step.DeindexDue? { RecordingIsNotPending(w, p, id); }
      ConfirmedKeeps(w, mid, p, id, step, seen);
    } else {
      assert mid == w;
    }
  }

  /** The ids that a sweep still has before it, after a step on one of them. */
  lemma RestKeeps(w: World, mid: World, u: World, p: nat, a: AgentId, at: SweepAt, v: Proc)
    requires Indexed(w) && Indexed(mid) && p in w.procs && w.procs[p] == Sweeper(a, at, true) && ProcMoves(mid, u, p, v)
    requires mid.deposits.Keys == w.deposits.Keys && forall j :: j in w.deposits && w.deposits[j].at.Ended? ==> mid.deposits[j].at.Ended?
    requires v.Sweeper? && !Tidies(v) && forall j :: SweepIds(v.at, j) ==> SweepIds(at, j)
    ensures Indexed(u)
  {
    forall j | SweepIds(v.at, j)
      ensures j in mid.deposits && mid.deposits[j].at.Ended?
    {
      assert SweepIds(w.procs[p].at, j);
    }
    ProcKeeps(mid, u, p, v);
  }

  lemma TidyKeeps(w: World, u: World, p: nat, a: AgentId, id: AllocId, todo: set<AllocId>)
    requires Inv(w) && Indexed(w) && p in w.procs && w.procs[p] == Sweeper(a, TidyDue(id, todo), true)
    requires u == SetProc(w.(hot := Deindex(w.hot, a, id)), p, Sweeper(a, Sweeping(todo), true))
    ensures Indexed(u)
  {
    var mid := w.(hot := Deindex(w.hot, a, id));
    assert SweepIds(w.procs[p].at, id) && Tidies(w.procs[p]);
    TidyIsInStep(w, mid, a, id);
    StoresKeep(w, mid, id);
    RestKeeps(w, mid, u, p, a, TidyDue(id, todo), Sweeper(a, Sweeping(todo), true));
  }

  lemma CancelledKeeps(w: World, mid: World, a: AgentId, id: AllocId)
    requires SlicesGood(w) && Indexed(w) && id in w.deposits && mid == ApplyCancel(w, a, id)
    ensures Indexed(mid) && mid.procs == w.procs && mid.deposits.Keys == w.deposits.Keys
    ensures forall j :: j in w.deposits && w.deposits[j].at.Ended? ==> mid.deposits[j].at.Ended?
  {
    assert GoodSlice(SliceOf(w, id));
    CancelOnlyMoves(w, mid, a, id);
    CancelIsInStep(w, mid, a, id);
    StoresKeep(w, mid, id);
    EndedStays(w, mid, id);
  }

  lemma CancelKeeps(w: World, u: World, p: nat, a: AgentId, id: AllocId, todo: set<AllocId>)
    requires Inv(w) && Indexed(w) && p in w.procs && w.procs[p] == Sweeper(a, CancelDue(id, todo), true)
    requires u == SetProc(ApplyCancel(w, a, id), p, Sweeper(a, Sweeping(todo), true))
    ensures Indexed(u)
  {
    var mid := ApplyCancel(w, a, id);
    assert SweepIds(w.procs[p].at, id);
    CancelledKeeps(w, mid, a, id);
    RestKeeps(w, mid, u, p, a, CancelDue(id, todo), Sweeper(a, Sweeping(todo), true));
  }

  lemma ConfirmingKeeps(w: World, u: World, p: nat, a: AgentId, id: AllocId, step: ConfirmAt, todo: set<AllocId>, seen: Finality)
    requires Inv(w) && Indexed(w) && p in w.procs && w.procs[p] == Sweeper(a, Confirming(id, step, todo), true)
    requires var m := ConfirmMove(w, p, id, step, seen); u == SetProc(m.0, p, Sweeper(a, Confirming(id, m.1, todo), true))
    ensures Indexed(u)
  {
    var m := ConfirmMove(w, p, id, step, seen);
    ConfirmKeeps(w, m.0, p, id, step, seen);
    RestKeeps(w, m.0, u, p, a, Confirming(id, step, todo), Sweeper(a, Confirming(id, m.1, todo), true));
  }

  lemma SweepKeeps(w: World, u: World, p: nat, a: AgentId, at: SweepAt, seen: Finality, next: AllocId)
    requires Inv(w) && Indexed(w) && p in w.procs && w.procs[p] == Sweeper(a, at, true) && u == ApplySweep(w, p, a, at, seen, next)
    ensures Indexed(u)
  {
    if at.TidyDue? { TidyKeeps(w, u, p, a, at.id, at.todo); }
    else if at.CancelDue? { CancelKeeps(w, u, p, a, at.id, at.todo); }
    else if at.Confirming? && !at.step.Result? { ConfirmingKeeps(w, u, p, a, at.id, at.step, at.todo, seen); }
    else { QuietKeeps(w, u, p, a, at, seen, next); }
  }

  predicate IsQuiet(at: SweepAt) { !at.TidyDue? && !at.CancelDue? && (at.Confirming? ==> at.step.Result?) }

  /** The steps of a sweep that only read, or only move the float that is already confirmed. */
  lemma QuietKeeps(w: World, u: World, p: nat, a: AgentId, at: SweepAt, seen: Finality, next: AllocId)
    requires Indexed(w) && p in w.procs && w.procs[p] == Sweeper(a, at, true) && u == ApplySweep(w, p, a, at, seen, next) && IsQuiet(at)
    ensures Indexed(u)
  {
    QuietFrame(w, u, p, a, at, seen, next);
    forall j | SweepIds(u.procs[p].at, j)
      ensures j in w.deposits && w.deposits[j].at.Ended?
    {
      assert SweepIds(at, j) ==> SweepIds(w.procs[p].at, j);
    }
    ProcKeeps(w, u, p, u.procs[p]);
  }

  lemma QuietFrame(w: World, u: World, p: nat, a: AgentId, at: SweepAt, seen: Finality, next: AllocId)
    requires u == ApplySweep(w, p, a, at, seen, next) && p in w.procs && w.procs[p] == Sweeper(a, at, true) && IsQuiet(at)
    ensures p in u.procs && ProcMoves(w, u, p, u.procs[p]) && u.procs[p].Sweeper?
    ensures forall j :: SweepIds(u.procs[p].at, j) ==> SweepIds(at, j) || j in IndexOf(w.hot, a)
    ensures Tidies(u.procs[p]) ==> !IsPending(w.hot, u.procs[p].at.id)
  {
  }

  lemma ConfirmerKeeps(w: World, u: World, p: nat, id: AllocId, step: ConfirmAt, seen: Finality)
    requires Inv(w) && Indexed(w) && p in w.procs && w.procs[p] == Confirmer(id, step)
    requires var m := ConfirmMove(w, p, id, step, seen); u == SetProc(m.0, p, Confirmer(id, m.1))
    ensures Indexed(u)
  {
    var m := ConfirmMove(w, p, id, step, seen);
    ConfirmKeeps(w, m.0, p, id, step, seen);
    ProcKeeps(m.0, u, p, Confirmer(id, m.1));
  }

  lemma ProcStepKeeps(w: World, u: World, p: nat, seen: Finality, next: AllocId)
    requires Inv(w) && Indexed(w) && p in w.procs && (w.procs[p].Sweeper? ==> w.procs[p].alive) && u == ApplyProc(w, p, seen, next)
    ensures Indexed(u)
  {
    match w.procs[p]
    case Confirmer(id, step) => ConfirmerKeeps(w, u, p, id, step, seen);
    case Sweeper(a, at, _) => SweepKeeps(w, u, p, a, at, seen, next);
  }

  lemma BeginKeepsIndex(w: World, u: World, id: AllocId, d: Deposit)
    requires EntriesEnded(w) && PendingListed(w) && id !in w.deposits && u == SetDeposit(w, id, d) && d.at.EvalDue?
    ensures EntriesEnded(u) && PendingListed(u)
  {
  }

  lemma BeginKeepsSweeps(w: World, u: World, id: AllocId, d: Deposit)
    requires SweptEnded(w) && TidiedResolved(w) && id !in w.deposits && u == SetDeposit(w, id, d)
    ensures SweptEnded(u) && TidiedResolved(u)
  {
  }

  lemma BeginDepositKeeps(w: World, u: World, id: AllocId, d: Deposit)
    requires Indexed(w) && id !in w.deposits && u == SetDeposit(w, id, d) && d.at.EvalDue?
    ensures Indexed(u)
  {
    BeginKeepsIndex(w, u, id, d);
    BeginKeepsSweeps(w, u, id, d);
  }

  lemma DieKeeps(w: World, u: World, p: nat)
    requires Indexed(w) && p in w.procs && w.procs[p].Sweeper? && u == SetProc(w, p, Sweeper(w.procs[p].agent, w.procs[p].at, false))
    ensures Indexed(u)
  {
    assert forall j :: SweepIds(w.procs[p].at, j) ==> j in w.deposits && w.deposits[j].at.Ended?;
    assert Tidies(w.procs[p]) ==> !IsPending(w.hot, w.procs[p].at.id);
    ProcKeeps(w, u, p, u.procs[p]);
  }

  lemma ActionKeeps(w: World, u: World, act: Action)
    requires Inv(w) && Indexed(w) && Enabled(w, act) && u == Apply(w, act)
    ensures Indexed(u)
  {
    match act
    case Credit(_) =>
    case BeginDeposit(id, _, _, _) => BeginDepositKeeps(w, u, id, u.deposits[id]);
    case DepositStep(id, ok) => DepositStepKeeps(w, u, id, ok);
    case BeginConfirm(p, id) => ProcKeeps(w, u, p, Confirmer(id, ReadDue));
    case BeginSweep(p, a) => ProcKeeps(w, u, p, Sweeper(a, ListDue, true));
    case Step(p, seen, next) => ProcStepKeeps(w, u, p, seen, next);
    case Die(p) => DieKeeps(w, u, p);
  }

  lemma {:induction false} RunIndexes(w: World, acts: seq<Action>)
    requires Initial(w)
    ensures Inv(After(w, acts)) && Indexed(After(w, acts))
  {
    InitialKeeps(w);
    RunKeeps(w, acts);
    if acts != [] {
      var before, act := After(w, acts[..|acts| - 1]), acts[|acts| - 1];
      RunIndexes(w, acts[..|acts| - 1]);
      if Enabled(before, act) { ActionKeeps(before, Apply(before, act), act); }
    }
  }

  // ---- What teardown leaves behind -------------------------------------------------------------------

  /** Counted in float_pending, and not in the index: the call stands between its counter and its index entry. */
  predicate IsStranded(s: Slice) { s.d.at.RecordDue? || (s.d.at.IndexDue? && PendingRecord(s)) }

  function StrandedWeight(a: AgentId): Slice -> int { (s: Slice) => if IsStranded(s) && s.d.agent == a then s.d.amount else 0 }

  ghost predicate NoneStranded(w: World, a: AgentId) {
    forall id :: id in w.deposits && w.deposits[id].agent == a && w.deposits[id].amount > 0 ==> !IsStranded(SliceOf(w, id))
  }

  ghost function IndexedAmount(w: World, a: AgentId): AllocId -> int {
    id => if id in IndexOf(w.hot, a) then PendingAmount(w.hot)(id) else 0
  }

  lemma SliceSplits(s: Slice, a: AgentId, listed: bool)
    requires GoodSlice(s) && (listed ==> s.d.agent == a && s.d.at.Ended?)
    requires s.d.agent == a && s.d.at.Ended? && PendingRecord(s) ==> listed
    ensures PendingWeight(a)(s) == (if listed && PendingRecord(s) then s.d.amount else 0) + StrandedWeight(a)(s)
  {
  }

  lemma ListedAmount(w: World, a: AgentId, id: AllocId)
    requires id in w.deposits && GoodSlice(SliceOf(w, id))
    ensures IndexedAmount(w, a)(id) == if id in IndexOf(w.hot, a) && PendingRecord(SliceOf(w, id)) then w.deposits[id].amount else 0
  {
    var s := SliceOf(w, id);
    assert s.d == w.deposits[id] && s.record == RecordAt(w.hot, id);
    assert PendingRecord(s) == IsPending(w.hot, id);
    assert IndexedAmount(w, a)(id) == if id in IndexOf(w.hot, a) then PendingAmount(w.hot)(id) else 0;
    if IsPending(w.hot, id) { assert w.hot.records[id].amount == s.d.amount; }
  }

  lemma AmountSplits(w: World, a: AgentId, id: AllocId)
    requires SlicesGood(w) && IndexOwned(w) && Indexed(w) && id in w.deposits
    ensures WeightOf(w, PendingWeight(a))(id) == IndexedAmount(w, a)(id) + WeightOf(w, StrandedWeight(a))(id)
  {
    assert GoodSlice(SliceOf(w, id));
    ListedAmount(w, a, id);
    assert PendingRecord(SliceOf(w, id)) == IsPending(w.hot, id);
    SliceSplits(SliceOf(w, id), a, id in IndexOf(w.hot, a));
  }

  lemma ListedTotal(w: World, a: AgentId)
    requires EntriesEnded(w)
    ensures SumOver(IndexOf(w.hot, a), PendingAmount(w.hot)) == SumOver(w.deposits.Keys, IndexedAmount(w, a))
  {
    assert IndexOf(w.hot, a) <= w.deposits.Keys;
    SumSupport(IndexOf(w.hot, a), w.deposits.Keys, IndexedAmount(w, a));
    SumSame(IndexOf(w.hot, a), IndexedAmount(w, a), PendingAmount(w.hot));
  }

  lemma PendingTotal(w: World, a: AgentId)
    requires SlicesGood(w) && IndexOwned(w) && Indexed(w)
    ensures Total(w, PendingWeight(a)) == SumOver(w.deposits.Keys, IndexedAmount(w, a)) + Total(w, StrandedWeight(a))
  {
    var whole, listed, stranded := WeightOf(w, PendingWeight(a)), IndexedAmount(w, a), WeightOf(w, StrandedWeight(a));
    forall id | id in w.deposits.Keys
      ensures whole(id) == listed(id) + stranded(id)
    {
      AmountSplits(w, a, id);
    }
    SumAdd(w.deposits.Keys, listed, stranded, whole);
  }

  /** float_pending is what the index accounts for, plus what is stranded. */
  lemma PendingSplits(w: World, a: AgentId)
    requires PendingAdds(w) && SlicesGood(w) && IndexOwned(w) && Indexed(w)
    ensures Count(w.hot.pending, a) == SumOver(IndexOf(w.hot, a), PendingAmount(w.hot)) + Total(w, StrandedWeight(a))
  {
    ListedTotal(w, a);
    PendingTotal(w, a);
  }

  lemma StrandedWeights(w: World, a: AgentId, id: AllocId)
    requires id in w.deposits
    ensures 0 <= WeightOf(w, StrandedWeight(a))(id)
    ensures WeightOf(w, StrandedWeight(a))(id) > 0 <==> w.deposits[id].agent == a && w.deposits[id].amount > 0 && IsStranded(SliceOf(w, id))
  {
    var s := SliceOf(w, id);
    assert WeightOf(w, StrandedWeight(a))(id) == StrandedWeight(a)(s);
    assert s.d == w.deposits[id] && s.d.amount >= 0;
  }

  lemma StrandedIsZero(w: World, a: AgentId)
    ensures Total(w, StrandedWeight(a)) == 0 <==> NoneStranded(w, a)
  {
    var f := WeightOf(w, StrandedWeight(a));
    forall id | id in w.deposits.Keys
      ensures 0 <= f(id) && (f(id) > 0 <==> w.deposits[id].agent == a && w.deposits[id].amount > 0 && IsStranded(SliceOf(w, id)))
    {
      StrandedWeights(w, a, id);
    }
    if NoneStranded(w, a) {
      SumZero(w.deposits.Keys, f);
    } else {
      var id :| id in w.deposits && w.deposits[id].agent == a && w.deposits[id].amount > 0 && IsStranded(SliceOf(w, id));
      SumMember(w.deposits.Keys, f, id);
    }
  }

  lemma IndexIsOwn(w: World, a: AgentId)
    requires SlicesGood(w) && IndexOwned(w)
    ensures OwnIndex(w.hot, a)
  {
    forall id | id in IndexOf(w.hot, a) && IsPending(w.hot, id)
      ensures w.hot.records[id].agent == a && !w.hot.records[id].kind.Teardown?
    {
      assert GoodSlice(SliceOf(w, id)) && SliceOf(w, id).record == Some(w.hot.records[id]);
    }
  }

  /**
   * After any run: the index holds the agent's own deposits and every PENDING record of a finished call, so it accounts
   * for float_pending exactly when no positive deposit of the agent stands between its counter and its index entry.
   */
  lemma {:induction false} IndexAccountsForPending(w: World, acts: seq<Action>, a: AgentId)
    requires Initial(w)
    ensures var u := After(w, acts);
            && OwnIndex(u.hot, a) && Count(u.hot.confirmed, a) >= 0
            && (forall id :: id in u.deposits && u.deposits[id].at.Ended? && IsPending(u.hot, id) ==> id in IndexOf(u.hot, u.deposits[id].agent))
            && (Count(u.hot.pending, a) == SumOver(IndexOf(u.hot, a), PendingAmount(u.hot)) <==> NoneStranded(u, a))
  {
    var u := After(w, acts);
    RunIndexes(w, acts);
    PendingSplits(u, a);
    StrandedIsZero(u, a);
    IndexIsOwn(u, a);
  }

  /**
   * Teardown strands nothing: from any world that a run reaches, whatever the finality answers, a teardown without
   * interleaving leaves no index and no confirmed float, returns the commitments by the agent's old confirmed float, and
   * leaves in float_pending exactly what was stranded before it. So float_pending ends at zero, and the reserve falls by
   * exactly the agent's old float_pending, if and only if no positive deposit was stranded.
   */
  lemma {:induction false} TeardownStrandsNothing(w: World, acts: seq<Action>, a: AgentId, seen: map<AllocId, Finality>, after: Store, sweptPending: int, withdrawn: int)
    requires Initial(w) && TornDown(Store(After(w, acts).hot, After(w, acts).cold), after, a, seen, sweptPending, withdrawn)
    ensures var u := After(w, acts);
            && IndexOf(after.hot, a) == {} && Count(after.hot.confirmed, a) == 0
            && after.hot.committed == u.hot.committed - Count(u.hot.confirmed, a)
            && Count(after.hot.pending, a) == Total(u, StrandedWeight(a))
            && (Count(after.hot.pending, a) == 0 <==> NoneStranded(u, a))
            && (after.hot.reserved == u.hot.reserved - Count(u.hot.pending, a) <==> NoneStranded(u, a))
  {
    RunIndexes(w, acts);
    PendingSplits(After(w, acts), a);
    StrandedIsZero(After(w, acts), a);
  }

  // ---- A crash that strands a deposit ------------------------------------------------------------------

  function Submission(id: AllocId, a: AgentId, amount: nat): seq<Action> {
    [Action.Credit(amount)] + [BeginDeposit(id, a, amount, DepositFor)]
    + [DepositStep(id, true)] + [DepositStep(id, true)] + [DepositStep(id, true)] + [DepositStep(id, true)]
  }

  function SweepStep(p: nat, id: AllocId): Action { Step(p, Final, id) }

  function EmptySweep(id: AllocId, p: nat, a: AgentId): seq<Action> {
    [BeginSweep(p, a)] + [SweepStep(p, id)] + [SweepStep(p, id)] + [SweepStep(p, id)]
  }

  lemma {:induction false} AfterBoth(w: World, first: seq<Action>, second: seq<Action>)
    ensures After(w, first + second) == After(After(w, first), second)
  {
    if second == [] {
      assert first + second == first;
    } else {
      var n := |second| - 1;
      assert (first + second)[..|first + second| - 1] == first + second[..n];
      AfterBoth(w, first, second[..n]);
    }
  }

  lemma {:induction false} Extends(w: World, acts: seq<Action>, act: Action, u: World, v: World)
    requires After(w, acts) == u && Next(u, act) == v
    ensures After(w, acts + [act]) == v
  {
    assert (acts + [act])[..|acts|] == acts;
  }

  /** The world in which the call has raised float_pending and goes no further. */
  function Counted(w: World, id: AllocId, a: AgentId, amount: nat, at: DepositAt): World {
    w.(credited := w.credited + amount, deposits := map[id := Deposit(a, amount, DepositFor, w.credited + amount, at, Undecided, false)],
       hot := Hot(0, amount, if at.RecordDue? then map[a := amount] else map[], map[], map[], map[]))
  }

  lemma ReserveCounts(w: World, id: AllocId, a: AgentId, amount: nat)
    requires Initial(w) && amount <= w.budget
    ensures Next(Counted(w, id, a, amount, EvalDue).(hot := w.hot), DepositStep(id, true)) == Counted(w, id, a, amount, SubmitDue)
  {
  }

  lemma NextCounts(w: World, id: AllocId, a: AgentId, amount: nat)
    ensures Next(Counted(w, id, a, amount, SubmitDue), DepositStep(id, true)) == Counted(w, id, a, amount, FundDue)
    ensures Next(Counted(w, id, a, amount, FundDue), DepositStep(id, true)) == Counted(w, id, a, amount, PendingDue)
    ensures Next(Counted(w, id, a, amount, PendingDue), DepositStep(id, true)) == Counted(w, id, a, amount, RecordDue)
  {
  }

  lemma {:induction false} SubmissionCounts(w: World, id: AllocId, a: AgentId, amount: nat)
    requires Initial(w) && amount <= w.budget
    ensures After(w, Submission(id, a, amount)) == Counted(w, id, a, amount, RecordDue)
  {
    var w1, step := w.(credited := w.credited + amount), DepositStep(id, true);
    Extends(w, [], Action.Credit(amount), w, w1);
    assert [] + [Action.Credit(amount)] == [Action.Credit(amount)];
    var begun := Counted(w, id, a, amount, EvalDue).(hot := w.hot);
    Extends(w, [Action.Credit(amount)], BeginDeposit(id, a, amount, DepositFor), w1, begun);
    var acts := [Action.Credit(amount)] + [BeginDeposit(id, a, amount, DepositFor)];
    ReserveCounts(w, id, a, amount);
    NextCounts(w, id, a, amount);
    Extends(w, acts, step, begun, Counted(w, id, a, amount, SubmitDue));
    Extends(w, acts + [step], step, Counted(w, id, a, amount, SubmitDue), Counted(w, id, a, amount, FundDue));
    Extends(w, acts + [step] + [step], step, Counted(w, id, a, amount, FundDue), Counted(w, id, a, amount, PendingDue));
    Extends(w, acts + [step] + [step] + [step], step, Counted(w, id, a, amount, PendingDue), Counted(w, id, a, amount, RecordDue));
  }

  lemma {:induction false} EmptySweepEnds(w: World, id: AllocId, p: nat, a: AgentId)
    requires w.procs == map[] && IndexOf(w.hot, a) == {} && Count(w.hot.confirmed, a) == 0
    ensures After(w, EmptySweep(id, p, a)) == SetProc(w, p, Sweeper(a, Swept(0), true))
  {
    var w1 := SetProc(w, p, Sweeper(a, ListDue, true));
    Extends(w, [], BeginSweep(p, a), w, w1);
    assert [] + [BeginSweep(p, a)] == [BeginSweep(p, a)];
    var w2 := SetProc(w, p, Sweeper(a, Sweeping({}), true));
    Extends(w, [BeginSweep(p, a)], SweepStep(p, id), w1, w2);
    var w3 := SetProc(w, p, Sweeper(a, BalanceDue, true));
    Extends(w, [BeginSweep(p, a)] + [SweepStep(p, id)], SweepStep(p, id), w2, w3);
    Extends(w, [BeginSweep(p, a)] + [SweepStep(p, id)] + [SweepStep(p, id)], SweepStep(p, id), w3, SetProc(w, p, Sweeper(a, Swept(0), true)));
  }

  /** A call that stops right after raising float_pending, and a whole teardown after it: the amount stays in float_pending. */
  lemma {:induction false} CrashStrandsDeposit(w: World, id: AllocId, p: nat, a: AgentId, amount: nat)
    requires Initial(w) && 0 < amount <= w.budget
    ensures var u := After(w, Submission(id, a, amount) + EmptySweep(id, p, a));
            && p in u.procs && u.procs[p] == Sweeper(a, Swept(0), true)
            && Count(u.hot.pending, a) == amount > 0 && u.hot.reserved == amount && !NoneStranded(u, a)
  {
    SubmissionCounts(w, id, a, amount);
    EmptySweepEnds(Counted(w, id, a, amount, RecordDue), id, p, a);
    AfterBoth(w, Submission(id, a, amount), EmptySweep(id, p, a));
    var u := After(w, Submission(id, a, amount) + EmptySweep(id, p, a));
    assert id in u.deposits && IsStranded(SliceOf(u, id));
  }
}
