// Every action of the float protocol keeps the books, and what every run guarantees.
module FloatRuns {
  import opened Sums
  import opened FloatStore
  import opened FloatProtocol

  // ---- Deposit steps -----------------------------------------------------------------------

  lemma OneSlice(w: World, u: World, id: AllocId)
    requires id in w.deposits && id in u.deposits && u.deposits == w.deposits[id := u.deposits[id]]
    requires forall j :: j != id ==> RecordAt(u.hot, j) == RecordAt(w.hot, j)
    ensures OneMoves(w, u, id, Slice(u.deposits[id], RecordAt(u.hot, id)))
  {
  }

  /** What a deposit step leaves alone. */
  lemma DepositFrame(w: World, u: World, id: AllocId, ok: bool)
    requires id in w.deposits && u == ApplyDeposit(w, id, ok)
    ensures id in u.deposits && u.deposits == w.deposits[id := u.deposits[id]] && u.procs == w.procs
    ensures u.deposits[id].fate == w.deposits[id].fate && u.deposits[id].booked == w.deposits[id].booked
    ensures u.deposits[id].agent == w.deposits[id].agent && u.deposits[id].funded == w.deposits[id].funded
    ensures u.hot.confirmed == w.hot.confirmed && u.hot.committed == w.hot.committed && u.budget == w.budget && u.credited == w.credited
    ensures forall j :: j != id ==> RecordAt(u.hot, j) == RecordAt(w.hot, j)
    ensures u.hot.index == w.hot.index || u.hot.index == w.hot.index[w.deposits[id].agent := IndexOf(w.hot, w.deposits[id].agent) + {id}]
  {
    match w.deposits[id].at
    case EvalDue =>
    case SubmitDue =>
    case FundDue =>
    case UndoDue =>
    case PendingDue =>
    case RecordDue =>
    case IndexDue =>
    case Ended =>
  }

  lemma ReserveAccounts(w: World, u: World, id: AllocId, ok: bool, y: Slice)
    requires id in w.deposits && u == ApplyDeposit(w, id, ok) && GoodSlice(SliceOf(w, id)) && (w.deposits[id].at.EvalDue? || w.deposits[id].at.UndoDue?)
    requires id in u.deposits && y == Slice(u.deposits[id], RecordAt(u.hot, id)) && OneMoves(w, u, id, y)
    ensures Accounts(w, u, id, SliceOf(w, id), y) && GoodSlice(y)
  {
  }

  lemma SubmitAccounts(w: World, u: World, id: AllocId, ok: bool, y: Slice)
    requires id in w.deposits && u == ApplyDeposit(w, id, ok) && GoodSlice(SliceOf(w, id)) && (w.deposits[id].at.SubmitDue? || w.deposits[id].at.FundDue?)
    requires id in u.deposits && y == Slice(u.deposits[id], RecordAt(u.hot, id)) && OneMoves(w, u, id, y)
    ensures Accounts(w, u, id, SliceOf(w, id), y) && GoodSlice(y)
  {
  }

  lemma PendingAccounts(w: World, u: World, id: AllocId, ok: bool, y: Slice)
    requires id in w.deposits && u == ApplyDeposit(w, id, ok) && GoodSlice(SliceOf(w, id)) && (w.deposits[id].at.PendingDue? || w.deposits[id].at.RecordDue?)
    requires id in u.deposits && y == Slice(u.deposits[id], RecordAt(u.hot, id)) && OneMoves(w, u, id, y)
    ensures Accounts(w, u, id, SliceOf(w, id), y) && GoodSlice(y)
  {
  }

  lemma IndexAccounts(w: World, u: World, id: AllocId, ok: bool, y: Slice)
    requires id in w.deposits && u == ApplyDeposit(w, id, ok) && GoodSlice(SliceOf(w, id)) && (w.deposits[id].at.IndexDue? || w.deposits[id].at.Ended?)
    requires id in u.deposits && y == Slice(u.deposits[id], RecordAt(u.hot, id)) && OneMoves(w, u, id, y)
    ensures Accounts(w, u, id, SliceOf(w, id), y) && GoodSlice(y)
  {
  }

  /** A deposit's own step moves each counter by what the step is worth. */
  lemma DepositAccounts(w: World, u: World, id: AllocId, ok: bool, y: Slice)
    requires id in w.deposits && GoodSlice(SliceOf(w, id)) && u == ApplyDeposit(w, id, ok)
    requires id in u.deposits && y == Slice(u.deposits[id], RecordAt(u.hot, id))
    ensures Accounts(w, u, id, SliceOf(w, id), y) && GoodSlice(y)
  {
    DepositFrame(w, u, id, ok);
    OneSlice(w, u, id);
    var at := w.deposits[id].at;
    if at.EvalDue? || at.UndoDue? { ReserveAccounts(w, u, id, ok, y); }
    else if at.SubmitDue? || at.FundDue? { SubmitAccounts(w, u, id, ok, y); }
    else if at.PendingDue? || at.RecordDue? { PendingAccounts(w, u, id, ok, y); }
    else { IndexAccounts(w, u, id, ok, y); }
  }

  lemma SlicesKept(w: World, u: World, id: AllocId)
    requires SlicesGood(w) && id in w.deposits && id in u.deposits && u.deposits == w.deposits[id := u.deposits[id]]
    requires forall j :: j != id ==> RecordAt(u.hot, j) == RecordAt(w.hot, j)
    requires GoodSlice(Slice(u.deposits[id], RecordAt(u.hot, id)))
    ensures SlicesGood(u)
  {
    OneSlice(w, u, id);
    forall j | j in u.hot.records
      ensures j in u.deposits
    {
      assert j != id ==> RecordAt(u.hot, j) == RecordAt(w.hot, j);
    }
  }

  lemma DepositSolvent(w: World, u: World, id: AllocId, ok: bool)
    requires Solvent(w) && id in w.deposits && u == ApplyDeposit(w, id, ok)
    ensures Solvent(u)
  {
    var d := w.deposits[id];
    DepositFrame(w, u, id, ok);
    ReserveIsSolvent(w.hot, w.budget, d.amount, d.funded);
    DepositPromises(w, u, id, ok);
    forall j | j in u.deposits
      ensures u.deposits[j].funded <= u.credited
    {
      assert j != id ==> u.deposits[j] == w.deposits[j];
    }
  }

  /** Only a reserve that was taken raises what the organization has promised. */
  lemma DepositPromises(w: World, u: World, id: AllocId, ok: bool)
    requires id in w.deposits && u == ApplyDeposit(w, id, ok)
    ensures u.hot.reserved <= w.hot.reserved
      || (var r := ReserveScript(w.hot, w.budget, w.deposits[id].amount, w.deposits[id].funded); r.1.ReserveTaken? && u.hot == r.0)
  {
    match w.deposits[id].at
    case EvalDue =>
    case SubmitDue =>
    case FundDue =>
    case UndoDue =>
    case PendingDue =>
    case RecordDue =>
    case IndexDue =>
    case Ended =>
  }

  lemma DepositWinners(w: World, u: World, id: AllocId)
    requires WinnersRecord(w) && id in w.deposits && id in u.deposits && u.deposits == w.deposits[id := u.deposits[id]] && u.procs == w.procs
    requires u.deposits[id].fate == w.deposits[id].fate && u.deposits[id].booked == w.deposits[id].booked
    ensures WinnersRecord(u)
  {
  }

  lemma DepositIndex(w: World, u: World, id: AllocId)
    requires IndexOwned(w) && id in w.deposits && id in u.deposits && u.deposits == w.deposits[id := u.deposits[id]] && u.procs == w.procs
    requires u.deposits[id].agent == w.deposits[id].agent
    requires u.hot.index == w.hot.index || u.hot.index == w.hot.index[w.deposits[id].agent := IndexOf(w.hot, w.deposits[id].agent) + {id}]
    ensures IndexOwned(u)
  {
    forall a, j | j in IndexOf(u.hot, a)
      ensures j in u.deposits && u.deposits[j].agent == a
    {
      assert j in IndexOf(w.hot, a) || (j == id && a == w.deposits[id].agent);
    }
  }

  lemma SweepersKept(w: World, u: World)
    requires OneSweeper(w) && u.procs == w.procs && u.hot.confirmed == w.hot.confirmed
    ensures OneSweeper(u)
  {
  }

  lemma DepositKeeps(w: World, u: World, id: AllocId, ok: bool, y: Slice)
    requires Inv(w) && id in w.deposits && u == ApplyDeposit(w, id, ok)
    requires id in u.deposits && y == Slice(u.deposits[id], RecordAt(u.hot, id))
    ensures Inv(u)
  {
    DepositAccounts(w, u, id, ok, y);
    AccountsKeepBooks(w, u, id, SliceOf(w, id), y);
    DepositSolvent(w, u, id, ok);
    DepositFrame(w, u, id, ok);
    SlicesKept(w, u, id);
    DepositWinners(w, u, id);
    DepositIndex(w, u, id);
    SweepersKept(w, u);
  }

  // ---- Moves of a process that change no counter --------------------------------------------------

  /** The money a teardown holds between two counters, or has returned, by the counter it has reached. */
  function MoneyOf(v: Proc): (nat, nat, AgentId) {
    if v.Sweeper? && v.at.CommitDue? then (1, v.at.c, v.agent)
    else if v.Sweeper? && v.at.PairDue? then (2, v.at.c, v.agent)
    else if v.Sweeper? && v.at.Swept? && v.at.c > 0 then (3, v.at.c, v.agent)
    else (0, 0, "")
  }

  predicate SameMoney(q: Proc, v: Proc) { MoneyOf(q) == MoneyOf(v) }

  lemma MoneyWeights(q: Proc, v: Proc, a: AgentId)
    requires SameMoney(q, v)
    ensures TakenWeight(a)(q) == TakenWeight(a)(v) && ReturnedWeight(a)(q) == ReturnedWeight(a)(v) && TransitWeight()(q) == TransitWeight()(v)
  {
  }

  lemma MoveKeepsMoney(w: World, p: nat, v: Proc, a: AgentId)
    requires p in w.procs && SameMoney(w.procs[p], v)
    ensures Measure(w.procs[p := v], TakenWeight(a)) == Measure(w.procs, TakenWeight(a))
    ensures Measure(w.procs[p := v], ReturnedWeight(a)) == Measure(w.procs, ReturnedWeight(a))
    ensures Measure(w.procs[p := v], TransitWeight()) == Measure(w.procs, TransitWeight())
  {
    MoneyWeights(w.procs[p], v, a);
    MeasureUpdate(w.procs, p, v, TakenWeight(a));
    MeasureUpdate(w.procs, p, v, ReturnedWeight(a));
    MeasureUpdate(w.procs, p, v, TransitWeight());
  }

  /** Counters, cold ledger and slices as before; the processes hold the same money. */
  ghost predicate SameFigures(w: World, u: World) {
    && SameSlices(w, u) && u.cold == w.cold
    && u.hot.reserved == w.hot.reserved && u.hot.committed == w.hot.committed
    && u.hot.pending == w.hot.pending && u.hot.confirmed == w.hot.confirmed
    && Measure(u.procs, TransitWeight()) == Measure(w.procs, TransitWeight())
    && (forall a :: Measure(u.procs, TakenWeight(a)) == Measure(w.procs, TakenWeight(a)))
    && (forall a :: Measure(u.procs, ReturnedWeight(a)) == Measure(w.procs, ReturnedWeight(a)))
  }

  lemma SameFiguresSameBooks(w: World, u: World)
    requires Books(w) && SameFigures(w, u)
    ensures Books(u)
  {
    TotalSame(w, u, ReserveWeight());
    forall a
      ensures Total(u, PendingWeight(a)) == Total(w, PendingWeight(a)) && Total(u, PromotedWeight(a)) == Total(w, PromotedWeight(a))
      ensures Total(u, BookedWeight(a)) == Total(w, BookedWeight(a))
    {
      TotalSame(w, u, PendingWeight(a));
      TotalSame(w, u, PromotedWeight(a));
      TotalSame(w, u, BookedWeight(a));
    }
  }

  lemma MoveKeepsBooks(w: World, u: World, p: nat, v: Proc)
    requires Books(w) && p in w.procs && SameMoney(w.procs[p], v) && u.procs == w.procs[p := v]
    requires u == w.(procs := u.procs, hot := w.hot.(index := u.hot.index))
    ensures Books(u)
  {
    assert SameSlices(w, u);
    forall a
      ensures Measure(u.procs, TakenWeight(a)) == Measure(w.procs, TakenWeight(a)) && Measure(u.procs, ReturnedWeight(a)) == Measure(w.procs, ReturnedWeight(a))
    {
      MoveKeepsMoney(w, p, v, a);
    }
    MoveKeepsMoney(w, p, v, "");
    SameFiguresSameBooks(w, u);
  }

  /** A process of the same agent goes on; it does not come back to life and it claims no more float than there is. */
  predicate GoesOn(w: World, q: Proc, v: Proc) {
    && (v.Sweeper? <==> q.Sweeper?)
    && (v.Sweeper? ==>
          && v.agent == q.agent && (v.alive ==> q.alive) && (q.at.Swept? ==> v.at.Swept?)
          && (v.alive && (v.at.ReclaimDue? || v.at.FloatDue?) ==> v.at.c <= Count(w.hot.confirmed, v.agent)))
  }

  lemma MoveKeepsSweepers(w: World, u: World, p: nat, v: Proc)
    requires OneSweeper(w) && p in w.procs && GoesOn(u, w.procs[p], v) && u.procs == w.procs[p := v]
    requires forall a :: Count(u.hot.confirmed, a) >= Count(w.hot.confirmed, a)
    ensures OneSweeper(u)
  {
  }

  lemma MoveKeepsIndex(w: World, u: World, p: nat, v: Proc)
    requires IndexOwned(w) && p in w.procs && u.procs == w.procs[p := v]
    requires u.deposits.Keys == w.deposits.Keys && forall j :: j in w.deposits ==> u.deposits[j].agent == w.deposits[j].agent
    requires forall a :: IndexOf(u.hot, a) <= IndexOf(w.hot, a)
    requires v.Sweeper? ==> w.procs[p].Sweeper? && v.agent == w.procs[p].agent
    requires v.Sweeper? ==> forall j :: SweepIds(v.at, j) ==> SweepIds(w.procs[p].at, j) || j in IndexOf(w.hot, v.agent)
    ensures IndexOwned(u)
  {
  }

  /** The records of promotions are untouched: nobody enters, leaves or reaches the tail of a confirm. */
  lemma MoveKeepsWinners(w: World, u: World, p: nat, v: Proc)
    requires WinnersRecord(w) && p in w.procs && u.procs == w.procs[p := v] && u.deposits == w.deposits
    requires forall j :: IsRecording(v, j) <==> IsRecording(w.procs[p], j)
    requires forall j :: IsClearing(v, j) ==> IsClearing(w.procs[p], j)
    ensures WinnersRecord(u)
  {
  }

  /** A process goes on with the money it had, towards no id but those it had or finds in the index. */
  ghost predicate Quietly(w: World, q: Proc, v: Proc) {
    && SameMoney(q, v) && GoesOn(w, q, v)
    && (v.Sweeper? ==> forall j :: SweepIds(v.at, j) ==> SweepIds(q.at, j) || j in IndexOf(w.hot, v.agent))
    && (forall j :: IsRecording(v, j) <==> IsRecording(q, j))
    && (forall j :: IsClearing(v, j) ==> IsClearing(q, j))
  }

  /** Such a move touches nothing but the place of the process. */
  lemma QuietMove(w: World, u: World, p: nat, v: Proc)
    requires Inv(w) && p in w.procs && u == SetProc(w, p, v) && Quietly(w, w.procs[p], v)
    ensures Inv(u)
  {
    MoveKeepsBooks(w, u, p, v);
    MoveKeepsSweepers(w, u, p, v);
    MoveKeepsIndex(w, u, p, v);
    MoveKeepsWinners(w, u, p, v);
    assert SameSlices(w, u);
  }

  // ---- The tail of a confirm -------------------------------------------------------------------

  lemma PromoteAccounts(w: World, u: World, p: nat, id: AllocId, step: ConfirmAt, seen: Finality, y: Slice)
    requires id in w.deposits && GoodSlice(SliceOf(w, id)) && u == ConfirmMove(w, p, id, step, seen).0
    requires step.PromoteDue?
    requires id in u.deposits && y == Slice(u.deposits[id], RecordAt(u.hot, id)) && OneMoves(w, u, id, y)
    ensures Accounts(w, u, id, SliceOf(w, id), y) && GoodSlice(y)
  {
  }

  lemma BookAccounts(w: World, u: World, p: nat, id: AllocId, step: ConfirmAt, seen: Finality, y: Slice)
    requires id in w.deposits && GoodSlice(SliceOf(w, id)) && u == ConfirmMove(w, p, id, step, seen).0
    requires step.BookDue? && InTail(w.deposits[id], p, step)
    requires id in u.deposits && y == Slice(u.deposits[id], RecordAt(u.hot, id)) && OneMoves(w, u, id, y)
    ensures Accounts(w, u, id, SliceOf(w, id), y) && GoodSlice(y)
  {
    var d := w.deposits[id];
    RecordedPair(w.cold, id, d.kind, d.amount, d.agent);
  }

  lemma ClearAccounts(w: World, u: World, p: nat, id: AllocId, step: ConfirmAt, seen: Finality, y: Slice)
    requires id in w.deposits && GoodSlice(SliceOf(w, id)) && u == ConfirmMove(w, p, id, step, seen).0
    requires !step.PromoteDue? && !step.BookDue? && InTail(w.deposits[id], p, step)
    requires id in u.deposits && y == Slice(u.deposits[id], RecordAt(u.hot, id)) && OneMoves(w, u, id, y)
    ensures Accounts(w, u, id, SliceOf(w, id), y) && GoodSlice(y)
  {
  }

  /** What the winner's scripts and statements do to its allocation. */
  lemma ConfirmAccounts(w: World, u: World, p: nat, id: AllocId, step: ConfirmAt, seen: Finality, y: Slice)
    requires id in w.deposits && GoodSlice(SliceOf(w, id)) && u == ConfirmMove(w, p, id, step, seen).0
    requires InTail(w.deposits[id], p, step)
    requires id in u.deposits && y == Slice(u.deposits[id], RecordAt(u.hot, id)) && OneMoves(w, u, id, y)
    ensures Accounts(w, u, id, SliceOf(w, id), y) && GoodSlice(y)
  {
    if step.PromoteDue? { PromoteAccounts(w, u, p, id, step, seen, y); }
    else if step.BookDue? { BookAccounts(w, u, p, id, step, seen, y); }
    else { ClearAccounts(w, u, p, id, step, seen, y); }
  }

  lemma ConfirmFrame(w: World, u: World, p: nat, id: AllocId, step: ConfirmAt, seen: Finality)
    requires id in w.deposits && u == ConfirmMove(w, p, id, step, seen).0
    ensures id in u.deposits && u.deposits == w.deposits[id := u.deposits[id]] && u.procs == w.procs
    ensures u.deposits[id].agent == w.deposits[id].agent && u.deposits[id].funded == w.deposits[id].funded
    ensures u.budget == w.budget && u.credited == w.credited
    ensures u.hot.committed + u.hot.reserved == w.hot.committed + w.hot.reserved
    ensures forall j :: j != id ==> RecordAt(u.hot, j) == RecordAt(w.hot, j)
    ensures forall a :: IndexOf(u.hot, a) <= IndexOf(w.hot, a)
    ensures forall a :: Count(u.hot.confirmed, a) >= Count(w.hot.confirmed, a)
  {
  }

  /** Where a process stands while it confirms, alone or inside a sweep. */
  predicate Confirms(v: Proc, id: AllocId, step: ConfirmAt) {
    v == Confirmer(id, step) || (v.Sweeper? && v.at.Confirming? && v.at.id == id && v.at.step == step)
  }

  function WithStep(v: Proc, step: ConfirmAt): Proc
    requires v.Confirmer? || v.at.Confirming?
  {
    match v
    case Confirmer(id, _) => Confirmer(id, step)
    case Sweeper(a, at, alive) => Sweeper(a, Confirming(at.id, step, at.todo), alive)
  }

  /** What the winner's step makes of its allocation's fate and of the mark that it is recorded. */
  predicate TailMoves(p: nat, step: ConfirmAt, next: ConfirmAt, d: Deposit, e: Deposit) {
    || (step.PromoteDue? && next.DeindexDue? && d.fate.Undecided? && e == d.(fate := Promoted(p)) && !d.booked)
    || (step.DeindexDue? && next.BookDue? && e == d)
    || (step.BookDue? && next.DeleteDue? && e == d.(booked := true))
    || (step.DeleteDue? && next.Result? && e == d)
  }

  lemma PromoteWinners(w: World, u: World, p: nat, id: AllocId, step: ConfirmAt, next: ConfirmAt, v: Proc)
    requires WinnersRecord(w) && p in w.procs && id in w.deposits && Confirms(w.procs[p], id, step) && v == WithStep(w.procs[p], next)
    requires id in u.deposits && u.deposits == w.deposits[id := u.deposits[id]] && u.procs == w.procs[p := v]
    requires TailMoves(p, step, next, w.deposits[id], u.deposits[id]) && step.PromoteDue?
    ensures WinnersRecord(u)
  {
  }

  lemma DeindexWinners(w: World, u: World, p: nat, id: AllocId, step: ConfirmAt, next: ConfirmAt, v: Proc)
    requires WinnersRecord(w) && p in w.procs && id in w.deposits && Confirms(w.procs[p], id, step) && v == WithStep(w.procs[p], next)
    requires id in u.deposits && u.deposits == w.deposits[id := u.deposits[id]] && u.procs == w.procs[p := v]
    requires TailMoves(p, step, next, w.deposits[id], u.deposits[id]) && step.DeindexDue?
    ensures WinnersRecord(u)
  {
    assert u.deposits == w.deposits;
    MoveKeepsWinners(w, u, p, v);
  }

  lemma BookWinners(w: World, u: World, p: nat, id: AllocId, step: ConfirmAt, next: ConfirmAt, v: Proc)
    requires WinnersRecord(w) && p in w.procs && id in w.deposits && Confirms(w.procs[p], id, step) && v == WithStep(w.procs[p], next)
    requires id in u.deposits && u.deposits == w.deposits[id := u.deposits[id]] && u.procs == w.procs[p := v]
    requires TailMoves(p, step, next, w.deposits[id], u.deposits[id]) && step.BookDue?
    ensures WinnersRecord(u)
  {
    assert IsRecording(w.procs[p], id) && forall j :: !IsRecording(v, j) && (IsClearing(v, j) ==> j == id);
    BookedWinners(w, u, p, id, v);
  }

  /** The winner has recorded its allocation and goes on to delete the record. */
  lemma BookedWinners(w: World, u: World, p: nat, id: AllocId, v: Proc)
    requires WinnersRecord(w) && p in w.procs && id in w.deposits && IsRecording(w.procs[p], id)
    requires forall j :: !IsRecording(v, j) && (IsClearing(v, j) ==> j == id)
    requires u.deposits == w.deposits[id := w.deposits[id].(booked := true)] && u.procs == w.procs[p := v]
    ensures WinnersRecord(u)
  {
  }

  lemma DeleteWinners(w: World, u: World, p: nat, id: AllocId, step: ConfirmAt, next: ConfirmAt, v: Proc)
    requires WinnersRecord(w) && p in w.procs && id in w.deposits && Confirms(w.procs[p], id, step) && v == WithStep(w.procs[p], next)
    requires id in u.deposits && u.deposits == w.deposits[id := u.deposits[id]] && u.procs == w.procs[p := v]
    requires TailMoves(p, step, next, w.deposits[id], u.deposits[id]) && step.DeleteDue?
    ensures WinnersRecord(u)
  {
    assert u.deposits == w.deposits;
    MoveKeepsWinners(w, u, p, v);
  }

  lemma TailWinners(w: World, u: World, p: nat, id: AllocId, step: ConfirmAt, next: ConfirmAt, v: Proc)
    requires WinnersRecord(w) && p in w.procs && id in w.deposits && Confirms(w.procs[p], id, step) && v == WithStep(w.procs[p], next)
    requires id in u.deposits && u.deposits == w.deposits[id := u.deposits[id]] && u.procs == w.procs[p := v]
    requires TailMoves(p, step, next, w.deposits[id], u.deposits[id])
    ensures WinnersRecord(u)
  {
    if step.PromoteDue? { PromoteWinners(w, u, p, id, step, next, v); }
    else if step.DeindexDue? { DeindexWinners(w, u, p, id, step, next, v); }
    else if step.BookDue? { BookWinners(w, u, p, id, step, next, v); }
    else { DeleteWinners(w, u, p, id, step, next, v); }
  }

  /** A process at this step of the tail of a confirm is the winner of the allocation. */
  predicate InTail(d: Deposit, p: nat, step: ConfirmAt) {
    || step.PromoteDue? || (step.DeindexDue? && d.fate == Promoted(p))
    || (step.BookDue? && d.fate == Promoted(p) && !d.booked) || (step.DeleteDue? && d.fate == Promoted(p))
  }

  lemma WinnerInTail(w: World, p: nat, id: AllocId, step: ConfirmAt)
    requires WinnersRecord(w) && p in w.procs && id in w.deposits && Confirms(w.procs[p], id, step)
    requires step.PromoteDue? || step.DeindexDue? || step.BookDue? || step.DeleteDue?
    ensures InTail(w.deposits[id], p, step)
  {
  }

  lemma TailBooks(w: World, mid: World, p: nat, id: AllocId, step: ConfirmAt, seen: Finality)
    requires Books(w) && SlicesGood(w) && id in w.deposits && mid == ConfirmMove(w, p, id, step, seen).0
    requires InTail(w.deposits[id], p, step)
    ensures Books(mid) && SlicesGood(mid)
  {
    ConfirmFrame(w, mid, p, id, step, seen);
    OneSlice(w, mid, id);
    var x, y := SliceOf(w, id), Slice(mid.deposits[id], RecordAt(mid.hot, id));
    ConfirmAccounts(w, mid, p, id, step, seen, y);
    AccountsKeepBooks(w, mid, id, x, y);
    SlicesKept(w, mid, id);
  }

  /** The fate and the cold-ledger flag after each step of the tail. */
  lemma TailFate(w: World, mid: World, p: nat, id: AllocId, step: ConfirmAt, seen: Finality, next: ConfirmAt)
    requires id in w.deposits && GoodSlice(SliceOf(w, id)) && (mid, next) == ConfirmMove(w, p, id, step, seen) && id in mid.deposits
    requires (step.PromoteDue? && next.DeindexDue?) || step.DeindexDue? || step.BookDue? || step.DeleteDue?
    ensures TailMoves(p, step, next, w.deposits[id], mid.deposits[id])
  {
  }

  lemma TailSolvent(w: World, mid: World, u: World, id: AllocId)
    requires Solvent(w) && id in w.deposits && id in u.deposits && u.deposits == w.deposits[id := u.deposits[id]]
    requires u.deposits[id].funded == w.deposits[id].funded && u.budget == w.budget && u.credited == w.credited
    requires u.hot.committed + u.hot.reserved <= w.hot.committed + w.hot.reserved
    ensures Solvent(u)
  {
  }

  lemma TailOwners(w: World, u: World, p: nat, id: AllocId, step: ConfirmAt, next: ConfirmAt, v: Proc)
    requires IndexOwned(w) && OneSweeper(w) && p in w.procs && id in w.deposits && Confirms(w.procs[p], id, step) && v == WithStep(w.procs[p], next)
    requires id in u.deposits && u.deposits == w.deposits[id := u.deposits[id]] && u.deposits[id].agent == w.deposits[id].agent
    requires u.procs == w.procs[p := v]
    requires forall a :: IndexOf(u.hot, a) <= IndexOf(w.hot, a)
    requires forall a :: Count(u.hot.confirmed, a) >= Count(w.hot.confirmed, a)
    ensures IndexOwned(u) && OneSweeper(u)
  {
    MoveKeepsIndex(w, u, p, v);
    MoveKeepsSweepers(w, u, p, v);
  }

  lemma SameSlicesGood(w: World, u: World)
    requires SlicesGood(w) && u.deposits == w.deposits && u.hot == w.hot
    ensures SlicesGood(u)
  {
  }

  lemma ConfirmingKeepsBooks(mid: World, u: World, p: nat, next: ConfirmAt, v: Proc)
    requires Books(mid) && SlicesGood(mid) && p in mid.procs && (mid.procs[p].Confirmer? || mid.procs[p].at.Confirming?)
    requires v == WithStep(mid.procs[p], next) && u == SetProc(mid, p, v)
    ensures Books(u) && SlicesGood(u)
  {
    MoveKeepsBooks(mid, u, p, v);
    SameSlicesGood(mid, u);
  }

  lemma TailKeepsOwners(w: World, mid: World, u: World, p: nat, id: AllocId, step: ConfirmAt, seen: Finality, next: ConfirmAt, v: Proc)
    requires SlicesGood(w) && WinnersRecord(w) && IndexOwned(w) && OneSweeper(w) && Solvent(w)
    requires p in w.procs && id in w.deposits && Confirms(w.procs[p], id, step) && v == WithStep(w.procs[p], next)
    requires (mid, next) == ConfirmMove(w, p, id, step, seen) && u == SetProc(mid, p, v)
    requires (step.PromoteDue? && next.DeindexDue?) || step.DeindexDue? || step.BookDue? || step.DeleteDue?
    ensures WinnersRecord(u) && IndexOwned(u) && OneSweeper(u) && Solvent(u)
  {
    ConfirmFrame(w, mid, p, id, step, seen);
    TailFate(w, mid, p, id, step, seen, next);
    TailWinners(w, u, p, id, step, next, v);
    TailSolvent(w, mid, u, id);
    TailOwners(w, u, p, id, step, next, v);
  }

  lemma TailKeeps(w: World, mid: World, u: World, p: nat, id: AllocId, step: ConfirmAt, seen: Finality, next: ConfirmAt, v: Proc)
    requires Inv(w) && p in w.procs && id in w.deposits && Confirms(w.procs[p], id, step) && v == WithStep(w.procs[p], next)
    requires (mid, next) == ConfirmMove(w, p, id, step, seen) && u == SetProc(mid, p, v)
    requires (step.PromoteDue? && next.DeindexDue?) || step.DeindexDue? || step.BookDue? || step.DeleteDue?
    ensures Inv(u)
  {
    WinnerInTail(w, p, id, step);
    TailBooks(w, mid, p, id, step, seen);
    ConfirmFrame(w, mid, p, id, step, seen);
    ConfirmingKeepsBooks(mid, u, p, next, v);
    TailKeepsOwners(w, mid, u, p, id, step, seen, next, v);
  }

  predicate IsTail(step: ConfirmAt) { step.DeindexDue? || step.BookDue? || step.DeleteDue? }

  lemma ConfirmIsQuietOrTail(w: World, p: nat, id: AllocId, step: ConfirmAt, seen: Finality)
    requires id in w.deposits || !IsTail(step)
    ensures var m := ConfirmMove(w, p, id, step, seen);
            (id in w.deposits && ((step.PromoteDue? && m.1.DeindexDue?) || IsTail(step))) || (m.0 == w && !IsTail(m.1) && !IsTail(step))
  {
  }

  lemma OffTailIsQuiet(w: World, q: Proc, id: AllocId, step: ConfirmAt, next: ConfirmAt)
    requires Confirms(q, id, step) && !IsTail(step) && !IsTail(next)
    ensures Quietly(w, q, WithStep(q, next))
  {
  }

  lemma QuietConfirm(w: World, u: World, p: nat, id: AllocId, step: ConfirmAt, next: ConfirmAt, v: Proc)
    requires Inv(w) && p in w.procs && Confirms(w.procs[p], id, step) && v == WithStep(w.procs[p], next)
    requires !IsTail(step) && !IsTail(next) && u == SetProc(w, p, v)
    ensures Inv(u)
  {
    OffTailIsQuiet(w, w.procs[p], id, step, next);
    QuietMove(w, u, p, v);
  }

  lemma TailIsOfDeposit(w: World, p: nat, id: AllocId, step: ConfirmAt)
    requires WinnersRecord(w) && p in w.procs && Confirms(w.procs[p], id, step)
    ensures id in w.deposits || !IsTail(step)
  {
  }

  lemma ConfirmStepKeeps(w: World, mid: World, u: World, p: nat, id: AllocId, step: ConfirmAt, seen: Finality, next: ConfirmAt, v: Proc)
    requires Inv(w) && p in w.procs && Confirms(w.procs[p], id, step) && v == WithStep(w.procs[p], next)
    requires (mid, next) == ConfirmMove(w, p, id, step, seen) && u == SetProc(mid, p, v)
    ensures Inv(u)
  {
    TailIsOfDeposit(w, p, id, step);
    ConfirmIsQuietOrTail(w, p, id, step, seen);
    if IsTail(step) || next.DeindexDue? {
      TailKeeps(w, mid, u, p, id, step, seen, next, v);
    } else {
      QuietConfirm(w, u, p, id, step, next, v);
    }
  }

  // ---- The sweep's own steps ----------------------------------------------------------------------

  lemma TidyOwners(w: World, u: World, p: nat, v: Proc)
    requires SlicesGood(w) && WinnersRecord(w) && IndexOwned(w) && OneSweeper(w) && p in w.procs && w.procs[p].Sweeper? && w.procs[p].at.TidyDue?
    requires v == Sweeper(w.procs[p].agent, Sweeping(w.procs[p].at.todo), w.procs[p].alive) && u.procs == w.procs[p := v]
    requires u.deposits == w.deposits && u.hot == w.hot.(index := u.hot.index) && forall a :: IndexOf(u.hot, a) <= IndexOf(w.hot, a)
    ensures SlicesGood(u) && WinnersRecord(u) && IndexOwned(u) && OneSweeper(u)
  {
    MoveKeepsSweepers(w, u, p, v);
    MoveKeepsIndex(w, u, p, v);
    MoveKeepsWinners(w, u, p, v);
    assert SameSlices(w, u);
  }

  lemma TidyBooks(w: World, u: World, p: nat, v: Proc)
    requires Books(w) && p in w.procs && w.procs[p].Sweeper? && w.procs[p].at.TidyDue? && v.Sweeper? && v.at.Sweeping?
    requires u == w.(procs := w.procs[p := v], hot := w.hot.(index := u.hot.index))
    ensures Books(u)
  {
    MoveKeepsBooks(w, u, p, v);
  }

  lemma TidyKeeps(w: World, u: World, p: nat, a: AgentId, id: AllocId, v: Proc)
    requires Inv(w) && p in w.procs && w.procs[p].Sweeper? && w.procs[p].at.TidyDue? && w.procs[p].agent == a
    requires v == Sweeper(a, Sweeping(w.procs[p].at.todo), w.procs[p].alive) && u == SetProc(w.(hot := Deindex(w.hot, a, id)), p, v)
    ensures Inv(u)
  {
    TidyBooks(w, u, p, v);
    TidyOwners(w, u, p, v);
  }

  lemma CancelAccounts(w: World, u: World, a: AgentId, id: AllocId, y: Slice)
    requires id in w.deposits && GoodSlice(SliceOf(w, id)) && w.deposits[id].agent == a && u == ApplyCancel(w, a, id)
    requires id in u.deposits && y == Slice(u.deposits[id], RecordAt(u.hot, id)) && OneMoves(w, u, id, y)
    ensures Accounts(w, u, id, SliceOf(w, id), y) && GoodSlice(y)
  {
  }

  lemma CancelFrame(w: World, u: World, a: AgentId, id: AllocId)
    requires id in w.deposits && GoodSlice(SliceOf(w, id)) && u == ApplyCancel(w, a, id)
    ensures id in u.deposits && u.deposits == w.deposits[id := u.deposits[id]] && u.procs == w.procs
    ensures u.deposits[id] == w.deposits[id] || (w.deposits[id].fate.Undecided? && u.deposits[id] == w.deposits[id].(fate := Cancelled))
    ensures u.budget == w.budget && u.credited == w.credited && u.hot.confirmed == w.hot.confirmed
    ensures u.hot.committed + u.hot.reserved <= w.hot.committed + w.hot.reserved
    ensures forall j :: j != id ==> RecordAt(u.hot, j) == RecordAt(w.hot, j)
    ensures forall b :: IndexOf(u.hot, b) <= IndexOf(w.hot, b)
  {
  }

  lemma CancelBooks(w: World, mid: World, a: AgentId, id: AllocId)
    requires Books(w) && SlicesGood(w) && id in w.deposits && w.deposits[id].agent == a && mid == ApplyCancel(w, a, id)
    ensures Books(mid) && SlicesGood(mid)
  {
    CancelFrame(w, mid, a, id);
    OneSlice(w, mid, id);
    var x, y := SliceOf(w, id), Slice(mid.deposits[id], RecordAt(mid.hot, id));
    CancelAccounts(w, mid, a, id, y);
    AccountsKeepBooks(w, mid, id, x, y);
    SlicesKept(w, mid, id);
  }

  /** Every promoted and not yet recorded allocation has its winner at work on it. */
  ghost predicate WinnersAtWork(w: World) {
    forall id :: id in w.deposits && w.deposits[id].fate.Promoted? && !w.deposits[id].booked ==>
      w.deposits[id].fate.winner in w.procs && IsRecording(w.procs[w.deposits[id].fate.winner], id)
  }

  lemma CancelWinnersAtWork(w: World, u: World, p: nat, id: AllocId, v: Proc)
    requires WinnersAtWork(w) && p in w.procs && u.procs == w.procs[p := v] && id in w.deposits && id in u.deposits
    requires w.procs[p].Sweeper? && w.procs[p].at.CancelDue?
    requires u.deposits == w.deposits[id := u.deposits[id]] && (u.deposits[id] == w.deposits[id] || u.deposits[id].fate.Cancelled?)
    ensures WinnersAtWork(u)
  {
    forall j | j in u.deposits && u.deposits[j].fate.Promoted? && !u.deposits[j].booked
      ensures u.deposits[j].fate.winner in u.procs && IsRecording(u.procs[u.deposits[j].fate.winner], j)
    {
      assert u.deposits[j] == w.deposits[j];
    }
  }

  lemma CancelWinners(w: World, u: World, p: nat, id: AllocId, v: Proc)
    requires WinnersRecord(w) && p in w.procs && u.procs == w.procs[p := v] && id in w.deposits && id in u.deposits
    requires w.procs[p].Sweeper? && w.procs[p].at.CancelDue? && v.Sweeper? && v.at.Sweeping?
    requires u.deposits == w.deposits[id := u.deposits[id]]
    requires u.deposits[id] == w.deposits[id] || (w.deposits[id].fate.Undecided? && u.deposits[id] == w.deposits[id].(fate := Cancelled))
    ensures WinnersRecord(u)
  {
    CancelWinnersAtWork(w, u, p, id, v);
    forall r, j | r in u.procs && (IsRecording(u.procs[r], j) || IsClearing(u.procs[r], j))
      ensures r != p && u.procs[r] == w.procs[r] && j in w.deposits && u.deposits[j] == w.deposits[j]
    {
      assert r != p && w.deposits[j].fate == Promoted(r);
    }
  }

  lemma CancelKeepsBooks(w: World, mid: World, u: World, p: nat, a: AgentId, id: AllocId, v: Proc)
    requires Books(w) && SlicesGood(w) && id in w.deposits && w.deposits[id].agent == a
    requires p in w.procs && w.procs[p].Sweeper? && w.procs[p].at.CancelDue? && v.Sweeper? && v.at.Sweeping?
    requires mid == ApplyCancel(w, a, id) && u == SetProc(mid, p, v)
    ensures Books(u) && SlicesGood(u)
  {
    assert GoodSlice(SliceOf(w, id));
    CancelFrame(w, mid, a, id);
    CancelBooks(w, mid, a, id);
    MoveKeepsBooks(mid, u, p, v);
    SameSlicesGood(mid, u);
  }

  lemma CancelOwners(w: World, mid: World, u: World, p: nat, id: AllocId, v: Proc)
    requires WinnersRecord(w) && IndexOwned(w) && OneSweeper(w) && Solvent(w)
    requires p in w.procs && w.procs[p].Sweeper? && w.procs[p].at.CancelDue? && id in w.deposits && id in mid.deposits
    requires v == Sweeper(w.procs[p].agent, Sweeping(w.procs[p].at.todo), w.procs[p].alive) && u == SetProc(mid, p, v)
    requires mid.deposits == w.deposits[id := mid.deposits[id]] && mid.procs == w.procs
    requires mid.deposits[id] == w.deposits[id] || (w.deposits[id].fate.Undecided? && mid.deposits[id] == w.deposits[id].(fate := Cancelled))
    requires mid.budget == w.budget && mid.credited == w.credited && mid.hot.confirmed == w.hot.confirmed
    requires mid.hot.committed + mid.hot.reserved <= w.hot.committed + w.hot.reserved
    requires forall b :: IndexOf(mid.hot, b) <= IndexOf(w.hot, b)
    ensures WinnersRecord(u) && IndexOwned(u) && OneSweeper(u) && Solvent(u)
  {
    CancelWinners(w, u, p, id, v);
    TailSolvent(w, mid, u, id);
    MoveKeepsIndex(w, u, p, v);
    MoveKeepsSweepers(w, u, p, v);
  }

  lemma CancelKeeps(w: World, mid: World, u: World, p: nat, a: AgentId, id: AllocId, v: Proc)
    requires Inv(w) && p in w.procs && w.procs[p].Sweeper? && w.procs[p].at.CancelDue? && w.procs[p].at.id == id && w.procs[p].agent == a
    requires v == Sweeper(a, Sweeping(w.procs[p].at.todo), w.procs[p].alive) && mid == ApplyCancel(w, a, id) && u == SetProc(mid, p, v)
    ensures Inv(u)
  {
    assert SweepIds(w.procs[p].at, id);
    CancelKeepsBooks(w, mid, u, p, a, id, v);
    CancelFrame(w, mid, a, id);
    CancelOwners(w, mid, u, p, id, v);
  }

  /** The three writes that bring the confirmed float home. */
  lemma FloatDueSettles(w: World, u: World, p: nat, a: AgentId, c: nat)
    requires Books(w) && p in w.procs && w.procs[p] == Sweeper(a, FloatDue(c), true)
    requires u == SetProc(w.(hot := w.hot.(confirmed := Bump(w.hot.confirmed, a, 0 - c))), p, Sweeper(a, CommitDue(c), true))
    ensures Books(u)
  {
    assert SameSlices(w, u);
    SettlesKeepBooks(w, u, p, Sweeper(a, CommitDue(c), true), a);
  }

  lemma CommitDueSettles(w: World, u: World, p: nat, a: AgentId, c: nat)
    requires Books(w) && p in w.procs && w.procs[p] == Sweeper(a, CommitDue(c), true)
    requires u == SetProc(w.(hot := w.hot.(committed := w.hot.committed - c)), p, Sweeper(a, PairDue(c), true))
    ensures Books(u)
  {
    assert SameSlices(w, u);
    SettlesKeepBooks(w, u, p, Sweeper(a, PairDue(c), true), a);
  }

  lemma PairDueSettles(w: World, u: World, p: nat, a: AgentId, c: nat, id: AllocId)
    requires Books(w) && p in w.procs && w.procs[p] == Sweeper(a, PairDue(c), true)
    requires u == SetProc(w.(cold := w.cold + PairOf(id, Teardown, c, a)), p, Sweeper(a, Swept(c), true))
    ensures Books(u)
  {
    assert SameSlices(w, u);
    RecordedPair(w.cold, id, Teardown, c, a);
    SettlesKeepBooks(w, u, p, Sweeper(a, Swept(c), true), a);
  }

  lemma ReclaimSweepers(w: World, u: World, p: nat, a: AgentId, v: Proc)
    requires OneSweeper(w) && p in w.procs && u.procs == w.procs[p := v] && w.procs[p].Sweeper? && w.procs[p].agent == a && w.procs[p].alive
    requires v.Sweeper? && v.agent == a && !v.at.ReclaimDue? && !v.at.FloatDue? && !w.procs[p].at.Swept?
    requires u.hot.confirmed == w.hot.confirmed || (w.procs[p].at.FloatDue? && u.hot.confirmed == Bump(w.hot.confirmed, a, 0 - w.procs[p].at.c))
    ensures OneSweeper(u)
  {
    assert IsLiveSweeper(w.procs[p], a);
    forall r, q, b | r in u.procs && q in u.procs && IsLiveSweeper(u.procs[r], b) && IsLiveSweeper(u.procs[q], b)
      ensures r == q
    {
      assert IsLiveSweeper(w.procs[r], b) && IsLiveSweeper(w.procs[q], b);
    }
    forall r | r in u.procs && u.procs[r].Sweeper? && u.procs[r].alive && (u.procs[r].at.ReclaimDue? || u.procs[r].at.FloatDue?)
      ensures u.procs[r].at.c <= Count(u.hot.confirmed, u.procs[r].agent)
    {
      assert r != p && u.procs[r] == w.procs[r];
      assert IsLiveSweeper(w.procs[r], w.procs[r].agent);
    }
    forall b
      ensures Count(u.hot.confirmed, b) >= 0
    {
      assert Count(w.hot.confirmed, b) >= 0;
    }
  }

  lemma ReclaimOwners(w: World, u: World, p: nat, a: AgentId, v: Proc)
    requires SlicesGood(w) && WinnersRecord(w) && IndexOwned(w) && p in w.procs && w.procs[p].Sweeper? && w.procs[p].agent == a
    requires w.procs[p].at.FloatDue? || w.procs[p].at.CommitDue? || w.procs[p].at.PairDue?
    requires v.Sweeper? && v.agent == a && (v.at.CommitDue? || v.at.PairDue? || v.at.Swept?)
    requires u.procs == w.procs[p := v] && u.deposits == w.deposits && u.hot.records == w.hot.records && u.hot.index == w.hot.index
    ensures SlicesGood(u) && WinnersRecord(u) && IndexOwned(u)
  {
    MoveKeepsIndex(w, u, p, v);
    MoveKeepsWinners(w, u, p, v);
    assert SameSlices(w, u);
  }

  predicate Reclaims(at: SweepAt) { at.FloatDue? || at.CommitDue? || at.PairDue? }

  /** What a reclaiming step leaves alone. */
  predicate ReclaimMoves(w: World, u: World, p: nat, a: AgentId, at: SweepAt) {
    && u.deposits == w.deposits && u.hot.records == w.hot.records && u.hot.index == w.hot.index && u.budget == w.budget && u.credited == w.credited
    && p in u.procs && u.procs == w.procs[p := u.procs[p]]
    && u.procs[p].Sweeper? && u.procs[p].agent == a && (u.procs[p].at.CommitDue? || u.procs[p].at.PairDue? || u.procs[p].at.Swept?)
    && (u.hot.confirmed == w.hot.confirmed || (at.FloatDue? && u.hot.confirmed == Bump(w.hot.confirmed, a, 0 - at.c)))
    && u.hot.committed + u.hot.reserved <= w.hot.committed + w.hot.reserved
  }

  lemma ReclaimFrame(w: World, u: World, p: nat, a: AgentId, at: SweepAt, seen: Finality, next: AllocId)
    requires Reclaims(at) && u == ApplySweep(w, p, a, at, seen, next)
    ensures ReclaimMoves(w, u, p, a, at)
  {
  }

  lemma ReclaimIsSolvent(w: World, u: World, p: nat, a: AgentId, at: SweepAt)
    requires Solvent(w) && ReclaimMoves(w, u, p, a, at)
    ensures Solvent(u)
  {
  }

  lemma ReclaimRest(w: World, u: World, p: nat, a: AgentId, at: SweepAt)
    requires SlicesGood(w) && WinnersRecord(w) && IndexOwned(w) && OneSweeper(w) && Solvent(w)
    requires p in w.procs && w.procs[p] == Sweeper(a, at, true) && Reclaims(at) && ReclaimMoves(w, u, p, a, at)
    ensures SlicesGood(u) && WinnersRecord(u) && IndexOwned(u) && OneSweeper(u) && Solvent(u)
  {
    ReclaimSweepers(w, u, p, a, u.procs[p]);
    ReclaimOwners(w, u, p, a, u.procs[p]);
    ReclaimIsSolvent(w, u, p, a, at);
  }

  lemma ReclaimBooks(w: World, u: World, p: nat, a: AgentId, at: SweepAt, seen: Finality, next: AllocId)
    requires Books(w) && p in w.procs && w.procs[p] == Sweeper(a, at, true) && Reclaims(at) && u == ApplySweep(w, p, a, at, seen, next)
    ensures Books(u)
  {
    if at.FloatDue? { FloatDueSettles(w, u, p, a, at.c); }
    else if at.CommitDue? { CommitDueSettles(w, u, p, a, at.c); }
    else { PairDueSettles(w, u, p, a, at.c, next); }
  }

  lemma ReclaimKeeps(w: World, u: World, p: nat, a: AgentId, at: SweepAt, seen: Finality, next: AllocId)
    requires Inv(w) && p in w.procs && w.procs[p] == Sweeper(a, at, true) && Reclaims(at)
    requires u == ApplySweep(w, p, a, at, seen, next)
    ensures Inv(u)
  {
    ReclaimFrame(w, u, p, a, at, seen, next);
    ReclaimBooks(w, u, p, a, at, seen, next);
    ReclaimRest(w, u, p, a, at);
  }

  lemma SweepStepKeeps(w: World, u: World, p: nat, a: AgentId, at: SweepAt, seen: Finality, next: AllocId)
    requires Inv(w) && p in w.procs && w.procs[p] == Sweeper(a, at, true) && !at.Confirming? && !at.FloatDue? && !at.CommitDue? && !at.PairDue?
    requires u == ApplySweep(w, p, a, at, seen, next)
    ensures Inv(u)
  {
    match at
    case TidyDue(id, todo) => TidyKeeps(w, u, p, a, id, Sweeper(a, Sweeping(todo), true));
    case CancelDue(id, todo) => CancelKeeps(w, ApplyCancel(w, a, id), u, p, a, id, Sweeper(a, Sweeping(todo), true));
    case Swept(_) =>
    case _ => if u != w { QuietSweep(w, u, p, a, at, seen, next); }
  }

  lemma ListingIsQuiet(w: World, u: World, p: nat, a: AgentId, at: SweepAt, seen: Finality, next: AllocId)
    requires p in w.procs && w.procs[p] == Sweeper(a, at, true) && (at.ListDue? || at.Sweeping? || at.CheckDue?)
    requires u == ApplySweep(w, p, a, at, seen, next) && u != w
    ensures p in u.procs && u == SetProc(w, p, u.procs[p]) && Quietly(w, w.procs[p], u.procs[p])
  {
  }

  lemma BalanceIsQuiet(w: World, u: World, p: nat, a: AgentId, at: SweepAt, seen: Finality, next: AllocId)
    requires OneSweeper(w) && p in w.procs && w.procs[p] == Sweeper(a, at, true) && (at.BalanceDue? || at.ReclaimDue?)
    requires u == ApplySweep(w, p, a, at, seen, next) && u != w
    ensures p in u.procs && u == SetProc(w, p, u.procs[p]) && Quietly(w, w.procs[p], u.procs[p])
  {
    assert Count(w.hot.confirmed, a) >= 0;
  }

  lemma QuietSweep(w: World, u: World, p: nat, a: AgentId, at: SweepAt, seen: Finality, next: AllocId)
    requires Inv(w) && p in w.procs && w.procs[p] == Sweeper(a, at, true)
    requires at.ListDue? || at.Sweeping? || at.CheckDue? || at.BalanceDue? || at.ReclaimDue?
    requires u == ApplySweep(w, p, a, at, seen, next) && u != w
    ensures Inv(u)
  {
    if at.BalanceDue? || at.ReclaimDue? { BalanceIsQuiet(w, u, p, a, at, seen, next); } else { ListingIsQuiet(w, u, p, a, at, seen, next); }
    QuietMove(w, u, p, u.procs[p]);
  }

  lemma ConfirmingKeeps(w: World, u: World, p: nat, a: AgentId, at: SweepAt, seen: Finality, next: AllocId)
    requires Inv(w) && p in w.procs && w.procs[p] == Sweeper(a, at, true) && at.Confirming?
    requires u == ApplySweep(w, p, a, at, seen, next)
    ensures Inv(u)
  {
    if at.step.Result? {
      QuietMove(w, u, p, u.procs[p]);
    } else {
      var m := ConfirmMove(w, p, at.id, at.step, seen);
      ConfirmStepKeeps(w, m.0, u, p, at.id, at.step, seen, m.1, Sweeper(a, Confirming(at.id, m.1, at.todo), true));
    }
  }

  lemma ProcKeeps(w: World, u: World, p: nat, seen: Finality, next: AllocId)
    requires Inv(w) && p in w.procs && (w.procs[p].Sweeper? ==> w.procs[p].alive) && u == ApplyProc(w, p, seen, next)
    ensures Inv(u)
  {
    match w.procs[p]
    case Confirmer(id, step) =>
      var m := ConfirmMove(w, p, id, step, seen);
      ConfirmStepKeeps(w, m.0, u, p, id, step, seen, m.1, Confirmer(id, m.1));
    case Sweeper(a, at, _) =>
      if at.Confirming? { ConfirmingKeeps(w, u, p, a, at, seen, next); }
      else if at.FloatDue? || at.CommitDue? || at.PairDue? { ReclaimKeeps(w, u, p, a, at, seen, next); }
      else { SweepStepKeeps(w, u, p, a, at, seen, next); }
  }

  // ---- Calls that begin or die ------------------------------------------------------------------

  lemma BeginProcBooks(w: World, u: World, p: nat, v: Proc)
    requires Books(w) && p !in w.procs && u == SetProc(w, p, v) && MoneyOf(v) == (0, 0, "") && (v.Sweeper? ==> !v.at.Swept?)
    ensures Books(u)
  {
    assert SameSlices(w, u);
    MeasureAdd(w.procs, p, v, TransitWeight());
    forall a
      ensures Measure(u.procs, TakenWeight(a)) == Measure(w.procs, TakenWeight(a)) && Measure(u.procs, ReturnedWeight(a)) == Measure(w.procs, ReturnedWeight(a))
    {
      MeasureAdd(w.procs, p, v, TakenWeight(a));
      MeasureAdd(w.procs, p, v, ReturnedWeight(a));
    }
    SameFiguresSameBooks(w, u);
  }

  /** A call that begins: a confirm, or a teardown of an agent that none is at work on. */
  ghost predicate Fresh(w: World, v: Proc) {
    (v.Confirmer? && v.step.ReadDue?) || (v.Sweeper? && v.at.ListDue? && forall q :: q in w.procs ==> !IsLiveSweeper(w.procs[q], v.agent))
  }

  lemma BeginProcWinners(w: World, u: World, p: nat, v: Proc)
    requires WinnersRecord(w) && p !in w.procs && u == SetProc(w, p, v) && Fresh(w, v)
    ensures WinnersRecord(u)
  {
  }

  lemma BeginProcSweepers(w: World, u: World, p: nat, v: Proc)
    requires OneSweeper(w) && p !in w.procs && u == SetProc(w, p, v) && Fresh(w, v)
    ensures OneSweeper(u)
  {
  }

  lemma BeginProcIndex(w: World, u: World, p: nat, v: Proc)
    requires IndexOwned(w) && p !in w.procs && u == SetProc(w, p, v) && Fresh(w, v)
    ensures IndexOwned(u)
  {
  }

  lemma BeginProcKeeps(w: World, u: World, p: nat, v: Proc)
    requires Inv(w) && p !in w.procs && u == SetProc(w, p, v) && Fresh(w, v)
    ensures Inv(u)
  {
    BeginProcBooks(w, u, p, v);
    BeginProcWinners(w, u, p, v);
    BeginProcSweepers(w, u, p, v);
    BeginProcIndex(w, u, p, v);
    SameSlicesGood(w, u);
  }

  lemma NoWeight(w: World, u: World, id: AllocId, d: Deposit, a: AgentId)
    requires id !in w.deposits && id !in w.hot.records && u == SetDeposit(w, id, d)
    requires d.at.EvalDue? && d.fate.Undecided? && !d.booked
    ensures Total(u, ReserveWeight()) == Total(w, ReserveWeight())
    ensures Total(u, PendingWeight(a)) == Total(w, PendingWeight(a))
    ensures Total(u, PromotedWeight(a)) == Total(w, PromotedWeight(a))
    ensures Total(u, BookedWeight(a)) == Total(w, BookedWeight(a))
  {
    TotalGrows(w, u, id, ReserveWeight());
    TotalGrows(w, u, id, PendingWeight(a));
    TotalGrows(w, u, id, PromotedWeight(a));
    TotalGrows(w, u, id, BookedWeight(a));
  }

  lemma BeginDepositBooks(w: World, u: World, id: AllocId, d: Deposit)
    requires Books(w) && id !in w.deposits && id !in w.hot.records && u == SetDeposit(w, id, d)
    requires d.at.EvalDue? && d.fate.Undecided? && !d.booked
    ensures Books(u)
  {
    NoWeight(w, u, id, d, "");
    forall a
      ensures Total(u, PendingWeight(a)) == Total(w, PendingWeight(a))
      ensures Total(u, PromotedWeight(a)) == Total(w, PromotedWeight(a)) && Total(u, BookedWeight(a)) == Total(w, BookedWeight(a))
    {
      NoWeight(w, u, id, d, a);
    }
  }

  lemma BeginDepositWinners(w: World, u: World, id: AllocId, d: Deposit)
    requires WinnersRecord(w) && id !in w.deposits && u == SetDeposit(w, id, d) && d.fate.Undecided?
    ensures WinnersRecord(u)
  {
  }

  lemma BeginDepositSlices(w: World, u: World, id: AllocId, d: Deposit)
    requires SlicesGood(w) && id !in w.deposits && u == SetDeposit(w, id, d)
    requires d.at.EvalDue? && d.fate.Undecided? && !d.booked && !d.kind.Teardown?
    ensures SlicesGood(u)
  {
  }

  lemma BeginDepositIndex(w: World, u: World, id: AllocId, d: Deposit)
    requires IndexOwned(w) && id !in w.deposits && u == SetDeposit(w, id, d)
    ensures IndexOwned(u)
  {
  }

  lemma BeginDepositKeeps(w: World, u: World, id: AllocId, d: Deposit)
    requires Inv(w) && id !in w.deposits && u == SetDeposit(w, id, d)
    requires d.at.EvalDue? && d.fate.Undecided? && !d.booked && d.funded <= w.credited && !d.kind.Teardown?
    ensures Inv(u)
  {
    BeginDepositBooks(w, u, id, d);
    BeginDepositWinners(w, u, id, d);
    BeginDepositSlices(w, u, id, d);
    BeginDepositIndex(w, u, id, d);
    SweepersKept(w, u);
  }

  lemma CreditKeeps(w: World, u: World, amount: nat)
    requires Inv(w) && u == w.(credited := w.credited + amount)
    ensures Inv(u)
  {
    assert SameSlices(w, u);
    SameFiguresSameBooks(w, u);
    SameSlicesGood(w, u);
    SweepersKept(w, u);
    CreditIndex(w, u);
  }

  lemma CreditIndex(w: World, u: World)
    requires IndexOwned(w) && WinnersRecord(w) && u == w.(credited := u.credited)
    ensures IndexOwned(u) && WinnersRecord(u)
  {
  }

  lemma DepositStepKeeps(w: World, u: World, id: AllocId, ok: bool)
    requires Inv(w) && id in w.deposits && u == ApplyDeposit(w, id, ok)
    ensures Inv(u)
  {
    DepositFrame(w, u, id, ok);
    DepositKeeps(w, u, id, ok, Slice(u.deposits[id], RecordAt(u.hot, id)));
  }

  lemma DyingIsQuiet(w: World, q: Proc)
    requires q.Sweeper?
    ensures Quietly(w, q, Sweeper(q.agent, q.at, false))
  {
  }

  lemma DieKeeps(w: World, u: World, p: nat)
    requires Inv(w) && p in w.procs && w.procs[p].Sweeper? && u == SetProc(w, p, Sweeper(w.procs[p].agent, w.procs[p].at, false))
    ensures Inv(u)
  {
    DyingIsQuiet(w, w.procs[p]);
    QuietMove(w, u, p, Sweeper(w.procs[p].agent, w.procs[p].at, false));
  }

  lemma ActionKeeps(w: World, u: World, act: Action)
    requires Inv(w) && Enabled(w, act) && u == Apply(w, act)
    ensures Inv(u)
  {
    match act
    case Credit(amount) => CreditKeeps(w, u, amount);
    case BeginDeposit(id, _, _, _) => BeginDepositKeeps(w, u, id, u.deposits[id]);
    case DepositStep(id, ok) => DepositStepKeeps(w, u, id, ok);
    case BeginConfirm(p, _) => BeginProcKeeps(w, u, p, u.procs[p]);
    case BeginSweep(p, _) => BeginProcKeeps(w, u, p, u.procs[p]);
    case Step(p, seen, next) => ProcKeeps(w, u, p, seen, next);
    case Die(p) => DieKeeps(w, u, p);
  }

  // ---- Runs ---------------------------------------------------------------------------------------

  function Next(w: World, act: Action): World { if Enabled(w, act) then Apply(w, act) else w }

  function After(w: World, acts: seq<Action>): World {
    if acts == [] then w else Next(After(w, acts[..|acts| - 1]), acts[|acts| - 1])
  }

  /** Nothing allocated yet; the deposited balance and the policy budget are arbitrary. */
  predicate Initial(w: World) {
    w.hot == Hot(0, 0, map[], map[], map[], map[]) && w.cold == [] && w.deposits == map[] && w.procs == map[] && w.budget >= 0
  }

  lemma InitialKeeps(w: World)
    requires Initial(w)
    ensures Inv(w)
  {
  }

  lemma {:induction false} RunKeeps(w: World, acts: seq<Action>)
    requires Inv(w)
    ensures Inv(After(w, acts))
  {
    if acts != [] {
      var before := After(w, acts[..|acts| - 1]);
      RunKeeps(w, acts[..|acts| - 1]);
      if Enabled(before, acts[|acts| - 1]) { ActionKeeps(before, Apply(before, acts[|acts| - 1]), acts[|acts| - 1]); }
    }
  }
}
