// What every run of deposits, confirms and teardowns guarantees.
module FloatTheorems {
  import opened Sums
  import opened FloatStore
  import opened FloatProtocol
  import opened FloatRuns

  // ---- Solvency and conservation at every step ---------------------------------------------------

  /** What was promised to agents never exceeds the deposits credited so far, nor the policy budget. */
  lemma {:induction false} AlwaysSolvent(w: World, acts: seq<Action>)
    requires Initial(w)
    ensures var u := After(w, acts);
            u.hot.committed + u.hot.reserved <= u.credited && u.hot.committed + u.hot.reserved <= w.budget
  {
    InitialKeeps(w);
    RunKeeps(w, acts);
    BudgetIsFixed(w, acts);
  }

  lemma {:induction false} BudgetIsFixed(w: World, acts: seq<Action>)
    ensures After(w, acts).budget == w.budget
  {
    if acts != [] {
      var before, act := After(w, acts[..|acts| - 1]), acts[|acts| - 1];
      BudgetIsFixed(w, acts[..|acts| - 1]);
      if Enabled(before, act) { ActionKeepsBudget(before, act); }
    }
  }

  lemma ActionKeepsBudget(w: World, act: Action)
    requires Enabled(w, act)
    ensures Apply(w, act).budget == w.budget
  {
  }

  lemma ReservedNotNegative(w: World)
    requires ReservedAdds(w) && SlicesGood(w)
    ensures w.hot.reserved >= 0
  {
    SumNonNegative(w.deposits.Keys, WeightOf(w, ReserveWeight()));
  }

  lemma PendingNotNegative(w: World, a: AgentId)
    requires PendingAdds(w) && SlicesGood(w)
    ensures Count(w.hot.pending, a) >= 0
  {
    SumNonNegative(w.deposits.Keys, WeightOf(w, PendingWeight(a)));
  }

  lemma CommittedNotNegative(w: World)
    requires CommittedAdds(w) && OneSweeper(w)
    ensures w.hot.committed >= 0
  {
    SumNonNegative(w.procs.Keys, WeightAt(w.procs, TransitWeight()));
    forall b | b in w.hot.confirmed
      ensures WeightAt(w.hot.confirmed, Balance())(b) >= 0
    {
      assert Count(w.hot.confirmed, b) >= 0;
    }
    SumNonNegative(w.hot.confirmed.Keys, WeightAt(w.hot.confirmed, Balance()));
  }

  /** No counter goes below zero, whatever interleaves and whoever crashes. */
  lemma {:induction false} NeverNegative(w: World, acts: seq<Action>, a: AgentId)
    requires Initial(w)
    ensures var h := After(w, acts).hot;
            h.reserved >= 0 && h.committed >= 0 && Count(h.pending, a) >= 0 && Count(h.confirmed, a) >= 0
  {
    InitialKeeps(w);
    RunKeeps(w, acts);
    ReservedNotNegative(After(w, acts));
    PendingNotNegative(After(w, acts), a);
    CommittedNotNegative(After(w, acts));
  }

  /**
   * Conservation at every step: the org's commitments are the confirmed float of its agents plus what teardowns
   * hold between two decrements; reserved and pending are exactly what in-flight deposits hold; each agent's confirmed
   * float is its promoted deposits minus what teardowns took; the cold ledger is in balance for every id.
   */
  lemma {:induction false} CountersAddUp(w: World, acts: seq<Action>, a: AgentId)
    requires Initial(w)
    ensures var u := After(w, acts);
            && u.hot.committed == Measure(u.hot.confirmed, Balance()) + Measure(u.procs, TransitWeight())
            && u.hot.reserved == Total(u, ReserveWeight())
            && Count(u.hot.pending, a) == Total(u, PendingWeight(a))
            && Count(u.hot.confirmed, a) == Total(u, PromotedWeight(a)) - Measure(u.procs, TakenWeight(a))
            && DoubleEntry(u.cold)
  {
    InitialKeeps(w);
    RunKeeps(w, acts);
  }

  // ---- One winner per allocation ---------------------------------------------------------------------

  lemma DecidedStays(w: World, act: Action, id: AllocId)
    requires Inv(w) && Enabled(w, act) && id in w.deposits && !w.deposits[id].fate.Undecided?
    ensures id in Apply(w, act).deposits && Apply(w, act).deposits[id].fate == w.deposits[id].fate
  {
    match act
    case DepositStep(j, ok) => DepositFrame(w, Apply(w, act), j, ok);
    case Step(p, seen, next) => ProcKeepsFate(w, p, seen, next, id);
    case _ =>
  }

  lemma ConfirmKeepsFate(w: World, p: nat, j: AllocId, step: ConfirmAt, seen: Finality, id: AllocId)
    requires SlicesGood(w) && id in w.deposits && !w.deposits[id].fate.Undecided?
    ensures var u := ConfirmMove(w, p, j, step, seen).0; id in u.deposits && u.deposits[id].fate == w.deposits[id].fate
  {
  }

  lemma CancelKeepsFate(w: World, a: AgentId, j: AllocId, id: AllocId)
    requires SlicesGood(w) && id in w.deposits && !w.deposits[id].fate.Undecided?
    ensures var u := ApplyCancel(w, a, j); id in u.deposits && u.deposits[id].fate == w.deposits[id].fate
  {
  }

  lemma ProcKeepsFate(w: World, p: nat, seen: Finality, next: AllocId, id: AllocId)
    requires SlicesGood(w) && p in w.procs && id in w.deposits && !w.deposits[id].fate.Undecided?
    ensures var u := ApplyProc(w, p, seen, next); id in u.deposits && u.deposits[id].fate == w.deposits[id].fate
  {
    match w.procs[p]
    case Confirmer(j, step) => ConfirmKeepsFate(w, p, j, step, seen, id);
    case Sweeper(a, at, _) =>
      match at
      case Confirming(j, step, _) => ConfirmKeepsFate(w, p, j, step, seen, id);
      case CancelDue(j, _) => CancelKeepsFate(w, a, j, id);
      case _ =>
  }

  /** An allocation that was promoted is never cancelled later, one that was cancelled never promoted, and the winner stays the winner. */
  lemma {:induction false} FateIsFinal(w: World, acts: seq<Action>, id: AllocId)
    requires Inv(w) && id in w.deposits && !w.deposits[id].fate.Undecided?
    ensures id in After(w, acts).deposits && After(w, acts).deposits[id].fate == w.deposits[id].fate
  {
    if acts != [] {
      var before, act := After(w, acts[..|acts| - 1]), acts[|acts| - 1];
      FateIsFinal(w, acts[..|acts| - 1], id);
      RunKeeps(w, acts[..|acts| - 1]);
      if Enabled(before, act) { DecidedStays(before, act, id); }
    }
  }

  // ---- Hot and cold agree once everybody is done --------------------------------------------------------

  predicate IsDone(v: Proc) { if v.Confirmer? then v.step.Result? else v.at.Swept? }

  /** Nobody is in the middle of anything, which also means that nobody crashed in the middle of anything. */
  ghost predicate Quiescent(w: World) {
    && (forall id :: id in w.deposits ==> w.deposits[id].at.Ended?)
    && (forall p :: p in w.procs ==> IsDone(w.procs[p]))
  }

  lemma PromotedIsBooked(w: World, id: AllocId)
    requires Inv(w) && Quiescent(w) && id in w.deposits
    ensures w.deposits[id].fate.Promoted? <==> w.deposits[id].booked
  {
  }

  lemma QuietSums(w: World, a: AgentId)
    requires Inv(w) && Quiescent(w)
    ensures Total(w, PromotedWeight(a)) == Total(w, BookedWeight(a))
    ensures Measure(w.procs, TakenWeight(a)) == Measure(w.procs, ReturnedWeight(a))
    ensures Measure(w.procs, TransitWeight()) == 0
  {
    forall id | id in w.deposits.Keys
      ensures WeightOf(w, PromotedWeight(a))(id) == WeightOf(w, BookedWeight(a))(id)
    {
      PromotedIsBooked(w, id);
    }
    SumSame(w.deposits.Keys, WeightOf(w, PromotedWeight(a)), WeightOf(w, BookedWeight(a)));
    SumSame(w.procs.Keys, WeightAt(w.procs, TakenWeight(a)), WeightAt(w.procs, ReturnedWeight(a)));
    SumZero(w.procs.Keys, WeightAt(w.procs, TransitWeight()));
  }

  function PendingRecordWeight(): Slice -> int { (s: Slice) => if PendingRecord(s) then s.d.amount else 0 }

  /**
   * When nobody is at work, the agent's confirmed float is its net in the cold ledger, the org's commitments are the
   * sum of its agents' confirmed float, and its reserve is exactly the sum of the PENDING records.
   */
  lemma {:induction false} HotAndColdAgree(w: World, acts: seq<Action>, a: AgentId)
    requires Initial(w) && Quiescent(After(w, acts))
    ensures var u := After(w, acts);
            && Count(u.hot.confirmed, a) == Net(u.cold, AgentFloat, a)
            && u.hot.committed == Measure(u.hot.confirmed, Balance())
            && u.hot.reserved == Total(u, PendingRecordWeight())
  {
    var u := After(w, acts);
    InitialKeeps(w);
    RunKeeps(w, acts);
    QuietSums(u, a);
    SumSame(u.deposits.Keys, WeightOf(u, ReserveWeight()), WeightOf(u, PendingRecordWeight()));
  }
}
