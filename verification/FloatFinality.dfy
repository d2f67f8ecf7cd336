// What decides a deposit: the chain's answer about its finality (src/engines/provisioning/confirm.ts
// and teardown.ts).
module FloatFinality {
  import opened FloatStore
  import opened FloatProtocol
  import opened FloatRuns

  // ---- Where a process stands ------------------------------------------------------------------

  /** The process is at this step of confirming the deposit, by itself or inside a teardown. */
  predicate StandsAt(v: Proc, id: AllocId, step: ConfirmAt) {
    || v == Confirmer(id, step)
    || (v.Sweeper? && v.at.Confirming? && v.at.id == id && v.at.step == step)
  }

  predicate MayCancel(v: Proc, id: AllocId) {
    StandsAt(v, id, Result(PENDING)) || (v.Sweeper? && v.at.CancelDue? && v.at.id == id)
  }

  predicate MayPromote(v: Proc, id: AllocId) {
    || StandsAt(v, id, PromoteDue) || StandsAt(v, id, DeindexDue) || StandsAt(v, id, BookDue) || StandsAt(v, id, DeleteDue)
    || StandsAt(v, id, Result(CONFIRMED))
  }

  /** Some process of the world acts on the answer that the deposit is final. */
  ghost predicate TakenAsFinal(w: World, id: AllocId) {
    (id in w.deposits && w.deposits[id].fate.Promoted?) || exists p :: p in w.procs && MayPromote(w.procs[p], id)
  }

  /** Some process of the world acts on the answer that it is not, or on none. */
  ghost predicate TakenAsPending(w: World, id: AllocId) {
    (id in w.deposits && w.deposits[id].fate.Cancelled?) || exists p :: p in w.procs && MayCancel(w.procs[p], id)
  }

  /** The action is the chain's answer to a process that asks about this deposit. */
  predicate Answers(w: World, act: Action, id: AllocId) {
    act.Step? && act.p in w.procs && StandsAt(w.procs[act.p], id, FinalityDue)
  }

  // ---- One step --------------------------------------------------------------------------------

  /** Where a confirm goes next. */
  lemma ConfirmGoes(w: World, p: nat, j: AllocId, step: ConfirmAt, seen: Finality)
    ensures var next := ConfirmMove(w, p, j, step, seen).1;
            && (MayPromote(Confirmer(j, next), j) ==> MayPromote(Confirmer(j, step), j) || (step.FinalityDue? && seen.Final?))
            && (next == Result(PENDING) ==> step == Result(PENDING) || (step.FinalityDue? && !seen.Final?))
  {
  }

  lemma ConfirmDecides(w: World, p: nat, j: AllocId, step: ConfirmAt, seen: Finality, id: AllocId)
    ensures var u := ConfirmMove(w, p, j, step, seen).0;
            && u.procs == w.procs && u.deposits.Keys == w.deposits.Keys
            && (id in w.deposits && u.deposits[id].fate != w.deposits[id].fate ==> id == j && step.PromoteDue? && u.deposits[id].fate.Promoted?)
  {
  }

  lemma CancelDecides(w: World, a: AgentId, j: AllocId, id: AllocId)
    ensures var u := ApplyCancel(w, a, j);
            && u.procs == w.procs && u.deposits.Keys == w.deposits.Keys
            && (id in w.deposits && u.deposits[id].fate != w.deposits[id].fate ==> id == j && u.deposits[id].fate.Cancelled?)
  {
  }

  /** One process moves, and decides nothing that it did not stand right before. */
  lemma MoveTakes(w: World, u: World, p: nat, v: Proc, id: AllocId, told: Finality)
    requires p in w.procs && u.procs == w.procs[p := v] && u.deposits.Keys == w.deposits.Keys
    requires id in w.deposits && u.deposits[id].fate != w.deposits[id].fate ==>
      if u.deposits[id].fate.Promoted? then MayPromote(w.procs[p], id) else MayCancel(w.procs[p], id)
    requires MayPromote(v, id) ==> MayPromote(w.procs[p], id) || (StandsAt(w.procs[p], id, FinalityDue) && told.Final?)
    requires MayCancel(v, id) ==> MayCancel(w.procs[p], id) || (StandsAt(w.procs[p], id, FinalityDue) && !told.Final?)
    ensures TakenAsFinal(u, id) ==> TakenAsFinal(w, id) || (StandsAt(w.procs[p], id, FinalityDue) && told.Final?)
    ensures TakenAsPending(u, id) ==> TakenAsPending(w, id) || (StandsAt(w.procs[p], id, FinalityDue) && !told.Final?)
  {
  }

  lemma ConfirmerTakes(w: World, u: World, p: nat, seen: Finality, next: AllocId, id: AllocId)
    requires p in w.procs && w.procs[p].Confirmer? && u == ApplyProc(w, p, seen, next)
    ensures TakenAsFinal(u, id) ==> TakenAsFinal(w, id) || (StandsAt(w.procs[p], id, FinalityDue) && seen.Final?)
    ensures TakenAsPending(u, id) ==> TakenAsPending(w, id) || (StandsAt(w.procs[p], id, FinalityDue) && !seen.Final?)
  {
    var v := w.procs[p];
    ConfirmGoes(w, p, v.id, v.step, seen);
    ConfirmDecides(w, p, v.id, v.step, seen, id);
    MoveTakes(w, u, p, u.procs[p], id, seen);
  }

  lemma ConfirmingTakes(w: World, u: World, p: nat, seen: Finality, next: AllocId, id: AllocId)
    requires p in w.procs && w.procs[p].Sweeper? && w.procs[p].at.Confirming? && !w.procs[p].at.step.Result? && u == ApplyProc(w, p, seen, next)
    ensures TakenAsFinal(u, id) ==> TakenAsFinal(w, id) || (StandsAt(w.procs[p], id, FinalityDue) && seen.Final?)
    ensures TakenAsPending(u, id) ==> TakenAsPending(w, id) || (StandsAt(w.procs[p], id, FinalityDue) && !seen.Final?)
  {
    var at := w.procs[p].at;
    ConfirmGoes(w, p, at.id, at.step, seen);
    ConfirmDecides(w, p, at.id, at.step, seen, id);
    MoveTakes(w, u, p, u.procs[p], id, seen);
  }

  lemma CancelTakes(w: World, u: World, p: nat, seen: Finality, next: AllocId, id: AllocId)
    requires p in w.procs && w.procs[p].Sweeper? && w.procs[p].at.CancelDue? && u == ApplyProc(w, p, seen, next)
    ensures TakenAsFinal(u, id) ==> TakenAsFinal(w, id)
    ensures TakenAsPending(u, id) ==> TakenAsPending(w, id)
  {
    CancelDecides(w, w.procs[p].agent, w.procs[p].at.id, id);
    MoveTakes(w, u, p, u.procs[p], id, seen);
  }

  /** Every other step of a teardown decides nothing and leaves it at nothing to be decided. */
  ghost predicate Undeciding(w: World, u: World, p: nat, id: AllocId) {
    u == w || (p in w.procs && p in u.procs && u.procs == w.procs[p := u.procs[p]] && u.deposits == w.deposits
               && (MayPromote(u.procs[p], id) ==> MayPromote(w.procs[p], id)) && (MayCancel(u.procs[p], id) ==> MayCancel(w.procs[p], id)))
  }

  lemma SweepLists(w: World, u: World, p: nat, a: AgentId, at: SweepAt, seen: Finality, next: AllocId, id: AllocId)
    requires p in w.procs && w.procs[p].Sweeper? && w.procs[p].at == at && u == ApplySweep(w, p, a, at, seen, next)
    requires at.ListDue? || at.Sweeping? || at.CheckDue?
    ensures Undeciding(w, u, p, id)
  {
  }

  lemma SweepTurns(w: World, u: World, p: nat, a: AgentId, at: SweepAt, seen: Finality, next: AllocId, id: AllocId)
    requires p in w.procs && w.procs[p].Sweeper? && w.procs[p].at == at && u == ApplySweep(w, p, a, at, seen, next)
    requires at.TidyDue? || (at.Confirming? && at.step.Result?)
    ensures Undeciding(w, u, p, id)
  {
  }

  lemma SweepTakesHome(w: World, u: World, p: nat, a: AgentId, at: SweepAt, seen: Finality, next: AllocId, id: AllocId)
    requires p in w.procs && w.procs[p].Sweeper? && w.procs[p].at == at && u == ApplySweep(w, p, a, at, seen, next)
    requires at.BalanceDue? || at.ReclaimDue? || at.FloatDue? || at.CommitDue? || at.PairDue? || at.Swept?
    ensures Undeciding(w, u, p, id)
  {
  }

  lemma SweeperTakes(w: World, u: World, p: nat, a: AgentId, at: SweepAt, seen: Finality, next: AllocId, id: AllocId)
    requires p in w.procs && w.procs[p].Sweeper? && w.procs[p].at == at && u == ApplySweep(w, p, a, at, seen, next)
    requires !at.CancelDue? && (at.Confirming? ==> at.step.Result?)
    ensures TakenAsFinal(u, id) ==> TakenAsFinal(w, id)
    ensures TakenAsPending(u, id) ==> TakenAsPending(w, id)
  {
    if at.ListDue? || at.Sweeping? || at.CheckDue? { SweepLists(w, u, p, a, at, seen, next, id); }
    if at.TidyDue? || at.Confirming? { SweepTurns(w, u, p, a, at, seen, next, id); }
    if at.BalanceDue? || at.ReclaimDue? || at.FloatDue? || at.CommitDue? || at.PairDue? || at.Swept? { SweepTakesHome(w, u, p, a, at, seen, next, id); }
    UndecidingTakes(w, u, p, id);
  }

  lemma UndecidingTakes(w: World, u: World, p: nat, id: AllocId)
    requires Undeciding(w, u, p, id)
    ensures TakenAsFinal(u, id) ==> TakenAsFinal(w, id)
    ensures TakenAsPending(u, id) ==> TakenAsPending(w, id)
  {
  }

  lemma StepTakes(w: World, u: World, p: nat, seen: Finality, next: AllocId, id: AllocId)
    requires p in w.procs && u == ApplyProc(w, p, seen, next)
    ensures TakenAsFinal(u, id) ==> TakenAsFinal(w, id) || (StandsAt(w.procs[p], id, FinalityDue) && seen.Final?)
    ensures TakenAsPending(u, id) ==> TakenAsPending(w, id) || (StandsAt(w.procs[p], id, FinalityDue) && !seen.Final?)
  {
    var v := w.procs[p];
    if v.Confirmer? { ConfirmerTakes(w, u, p, seen, next, id); }
    if v.Sweeper? && v.at.CancelDue? { CancelTakes(w, u, p, seen, next, id); }
    if v.Sweeper? && v.at.Confirming? && !v.at.step.Result? { ConfirmingTakes(w, u, p, seen, next, id); }
    if v.Sweeper? && !v.at.CancelDue? && (v.at.Confirming? ==> v.at.step.Result?) { SweeperTakes(w, u, p, v.agent, v.at, seen, next, id); }
  }

  lemma DepositTakes(w: World, u: World, d: AllocId, ok: bool, id: AllocId)
    requires d in w.deposits && u == ApplyDeposit(w, d, ok)
    ensures TakenAsFinal(u, id) ==> TakenAsFinal(w, id)
    ensures TakenAsPending(u, id) ==> TakenAsPending(w, id)
  {
    DepositFates(w, u, d, ok, id);
  }

  lemma DepositFates(w: World, u: World, d: AllocId, ok: bool, id: AllocId)
    requires d in w.deposits && u == ApplyDeposit(w, d, ok)
    ensures u.procs == w.procs && u.deposits.Keys == w.deposits.Keys && (id in w.deposits ==> u.deposits[id].fate == w.deposits[id].fate)
  {
  }

  lemma BeginTakes(w: World, u: World, act: Action, id: AllocId)
    requires Enabled(w, act) && (act.BeginConfirm? || act.BeginSweep?) && u == Apply(w, act)
    ensures TakenAsFinal(u, id) ==> TakenAsFinal(w, id)
    ensures TakenAsPending(u, id) ==> TakenAsPending(w, id)
  {
    assert u.deposits == w.deposits && u.procs[act.p] == if act.BeginConfirm? then Confirmer(act.id, ReadDue) else Sweeper(act.a, ListDue, true);
    assert forall q :: q in u.procs && q != act.p ==> q in w.procs && u.procs[q] == w.procs[q];
  }

  lemma RestTakes(w: World, u: World, act: Action, id: AllocId)
    requires Enabled(w, act) && (act.Credit? || act.BeginDeposit? || act.Die?) && u == Apply(w, act)
    ensures TakenAsFinal(u, id) ==> TakenAsFinal(w, id)
    ensures TakenAsPending(u, id) ==> TakenAsPending(w, id)
  {
    if act.Die? {
      assert u.deposits == w.deposits && u.procs == w.procs[act.p := u.procs[act.p]];
      assert Undeciding(w, u, act.p, id);
      UndecidingTakes(w, u, act.p, id);
    }
  }

  lemma ActionTakes(w: World, u: World, act: Action, id: AllocId)
    requires Enabled(w, act) && u == Apply(w, act)
    ensures TakenAsFinal(u, id) ==> TakenAsFinal(w, id) || (Answers(w, act, id) && act.seen.Final?)
    ensures TakenAsPending(u, id) ==> TakenAsPending(w, id) || (Answers(w, act, id) && !act.seen.Final?)
  {
    if act.Step? { StepTakes(w, u, act.p, act.seen, act.next, id); }
    if act.DepositStep? { DepositTakes(w, u, act.id, act.ok, id); }
    if act.BeginConfirm? || act.BeginSweep? { BeginTakes(w, u, act, id); }
    if act.Credit? || act.BeginDeposit? || act.Die? { RestTakes(w, u, act, id); }
  }

  // ---- Runs ------------------------------------------------------------------------------------

  /** At step k of the run the chain gives this kind of answer about the deposit. */
  ghost predicate AnsweredAt(w: World, acts: seq<Action>, k: int, id: AllocId, final: bool) {
    0 <= k < |acts| && Answers(After(w, acts[..k]), acts[k], id) && acts[k].seen.Final? == final
  }

  lemma {:induction false} AnsweredBefore(w: World, acts: seq<Action>, front: seq<Action>, id: AllocId, final: bool)
    requires front <= acts && exists k :: AnsweredAt(w, front, k, id, final)
    ensures exists k :: AnsweredAt(w, acts, k, id, final)
  {
    var k :| AnsweredAt(w, front, k, id, final);
    assert front[..k] == acts[..k];
    assert AnsweredAt(w, acts, k, id, final);
  }

  lemma {:induction false} RunTakes(w: World, acts: seq<Action>, id: AllocId)
    requires Initial(w)
    ensures TakenAsFinal(After(w, acts), id) ==> exists k :: AnsweredAt(w, acts, k, id, true)
    ensures TakenAsPending(After(w, acts), id) ==> exists k :: AnsweredAt(w, acts, k, id, false)
    decreases |acts|
  {
    if acts != [] {
      var front, act := acts[..|acts| - 1], acts[|acts| - 1];
      var before := After(w, front);
      RunTakes(w, front, id);
      if Enabled(before, act) { ActionTakes(before, Apply(before, act), act, id); }
      if TakenAsFinal(before, id) { AnsweredBefore(w, acts, front, id, true); }
      if TakenAsPending(before, id) { AnsweredBefore(w, acts, front, id, false); }
      assert AnsweredAt(w, acts, |front|, id, true) <==> Answers(before, act, id) && act.seen.Final?;
      assert AnsweredAt(w, acts, |front|, id, false) <==> Answers(before, act, id) && !act.seen.Final?;
    }
  }

  /**
   * Over any interleaving and any crashes, a deposit is promoted, and booked in the cold ledger, only if the chain once
   * answered a process that asked that it is final; it is cancelled only if the chain once answered that it is not, or
   * not at all.
   */
  lemma {:induction false} FateFollowsFinality(w: World, acts: seq<Action>, id: AllocId)
    requires Initial(w) && id in After(w, acts).deposits
    ensures var d := After(w, acts).deposits[id];
            && (d.fate.Promoted? || d.booked ==> exists k :: AnsweredAt(w, acts, k, id, true))
            && (d.fate.Cancelled? ==> exists k :: AnsweredAt(w, acts, k, id, false))
  {
    RunTakes(w, acts, id);
    InitialKeeps(w);
    RunKeeps(w, acts);
    assert GoodSlice(SliceOf(After(w, acts), id));
  }
}
