// Confirms, teardowns and deposits that nobody disturbs: step by step they do to the stores what confirmDeposit,
// teardownAgent and depositFor are specified to do in one go (src/engines/provisioning/confirm.ts, teardown.ts, deposit.ts).
module FloatAlone {
  import opened Sums
  import opened FloatStore
  import opened FloatProtocol
  import opened FloatRuns
  import opened FloatStranding

  // ---- A confirm that nobody disturbs --------------------------------------------------------------

  function Steps(p: nat, seen: Finality, id: AllocId, n: nat): seq<Action> { seq(n, i => Step(p, seen, id)) }

  lemma {:induction false} OneStep(w: World, v: World, u: World, p: nat, seen: Finality, id: AllocId, n: nat)
    requires v == After(w, Steps(p, seen, id, n)) && p in v.procs && v.procs[p].Confirmer? && u == ApplyProc(v, p, seen, id)
    ensures u == After(w, Steps(p, seen, id, n + 1))
  {
    var longer := Steps(p, seen, id, n + 1);
    assert longer[..n] == Steps(p, seen, id, n) && longer[n] == Step(p, seen, id);
  }

  /** A confirm that has its answer stays where it is. */
  lemma {:induction false} Rests(w: World, v: World, p: nat, seen: Finality, id: AllocId, n: nat, m: nat, r: ConfirmResult)
    requires v == After(w, Steps(p, seen, id, n)) && p in v.procs && v.procs[p] == Confirmer(id, Result(r)) && id in v.deposits && n <= m
    ensures v == After(w, Steps(p, seen, id, m))
    decreases m - n
  {
    if n < m {
      StaysPut(v, p, seen, id, r);
      OneStep(w, v, v, p, seen, id, n);
      Rests(w, v, p, seen, id, n + 1, m, r);
    }
  }

  lemma StaysPut(v: World, p: nat, seen: Finality, id: AllocId, r: ConfirmResult)
    requires p in v.procs && v.procs[p] == Confirmer(id, Result(r)) && id in v.deposits
    ensures ApplyProc(v, p, seen, id) == v
  {
    assert v.procs[p := v.procs[p]] == v.procs;
  }

  /** The process is at this step, and everything else of the world but its procs is as given. */
  ghost predicate Reached(v: World, w: World, p: nat, id: AllocId, step: ConfirmAt, hot: Hot, cold: seq<Row>, fate: Fate) {
    && v.hot == hot && v.cold == cold && v.procs == w.procs[p := Confirmer(id, step)]
    && id in v.deposits && id in w.deposits && v.deposits[id].agent == w.deposits[id].agent && v.deposits[id].kind == w.deposits[id].kind
    && v.deposits[id].amount == w.deposits[id].amount && v.deposits[id].fate == fate
  }

  lemma {:induction false} ReadMove(w: World, v: World, p: nat, id: AllocId, seen: Finality, n: nat)
    requires id in w.deposits
    requires v == After(w, Steps(p, seen, id, n)) && Reached(v, w, p, id, ReadDue, w.hot, w.cold, w.deposits[id].fate)
    ensures Reached(After(w, Steps(p, seen, id, n + 1)), w, p, id, if IsPending(w.hot, id) then FinalityDue else Result(NOOP), w.hot, w.cold, w.deposits[id].fate)
  {
    OneStep(w, v, ApplyProc(v, p, seen, id), p, seen, id, n);
  }

  lemma {:induction false} FinalityMove(w: World, v: World, p: nat, id: AllocId, seen: Finality, n: nat)
    requires id in w.deposits
    requires v == After(w, Steps(p, seen, id, n)) && Reached(v, w, p, id, FinalityDue, w.hot, w.cold, w.deposits[id].fate)
    ensures Reached(After(w, Steps(p, seen, id, n + 1)), w, p, id, if seen.Final? then PromoteDue else Result(PENDING), w.hot, w.cold, w.deposits[id].fate)
  {
    OneStep(w, v, ApplyProc(v, p, seen, id), p, seen, id, n);
  }

  lemma {:induction false} PromoteMove(w: World, v: World, p: nat, id: AllocId, seen: Finality, n: nat)
    requires id in w.deposits && IsPending(w.hot, id)
    requires v == After(w, Steps(p, seen, id, n)) && Reached(v, w, p, id, PromoteDue, w.hot, w.cold, w.deposits[id].fate)
    ensures Reached(After(w, Steps(p, seen, id, n + 1)), w, p, id, DeindexDue, ConfirmScript(w.hot, id, w.deposits[id].agent, w.deposits[id].amount).0, w.cold, Promoted(p))
  {
    OneStep(w, v, ApplyProc(v, p, seen, id), p, seen, id, n);
  }

  lemma {:induction false} DeindexMove(w: World, v: World, p: nat, id: AllocId, seen: Finality, n: nat, hot: Hot)
    requires id in w.deposits
    requires v == After(w, Steps(p, seen, id, n)) && Reached(v, w, p, id, DeindexDue, hot, w.cold, Promoted(p))
    ensures Reached(After(w, Steps(p, seen, id, n + 1)), w, p, id, BookDue, Deindex(hot, w.deposits[id].agent, id), w.cold, Promoted(p))
  {
    OneStep(w, v, ApplyProc(v, p, seen, id), p, seen, id, n);
  }

  lemma {:induction false} BookMove(w: World, v: World, p: nat, id: AllocId, seen: Finality, n: nat, hot: Hot)
    requires id in w.deposits
    requires v == After(w, Steps(p, seen, id, n)) && Reached(v, w, p, id, BookDue, hot, w.cold, Promoted(p))
    ensures Reached(After(w, Steps(p, seen, id, n + 1)), w, p, id, DeleteDue, hot, w.cold + PairOf(id, w.deposits[id].kind, w.deposits[id].amount, w.deposits[id].agent), Promoted(p))
  {
    OneStep(w, v, ApplyProc(v, p, seen, id), p, seen, id, n);
  }

  lemma {:induction false} DeleteMove(w: World, v: World, p: nat, id: AllocId, seen: Finality, n: nat, hot: Hot, cold: seq<Row>)
    requires id in w.deposits
    requires v == After(w, Steps(p, seen, id, n)) && Reached(v, w, p, id, DeleteDue, hot, cold, Promoted(p))
    ensures Reached(After(w, Steps(p, seen, id, n + 1)), w, p, id, Result(CONFIRMED), hot.(records := hot.records - {id}), cold, Promoted(p))
  {
    OneStep(w, v, ApplyProc(v, p, seen, id), p, seen, id, n);
  }

  /** The steps of a confirm that wins: promote, take out of the index, book, delete. */
  lemma {:induction false} WinsAlone(w: World, p: nat, id: AllocId, seen: Finality, d: Deposit, hot: Hot, moved: Hot)
    requires id in w.deposits && d == w.deposits[id] && IsPending(w.hot, id)
    requires hot == ConfirmScript(w.hot, id, d.agent, d.amount).0 && moved == Deindex(hot, d.agent, id)
    requires Reached(After(w, Steps(p, seen, id, 2)), w, p, id, PromoteDue, w.hot, w.cold, d.fate)
    ensures Reached(After(w, Steps(p, seen, id, 6)), w, p, id, Result(CONFIRMED), moved.(records := moved.records - {id}),
                    w.cold + PairOf(id, d.kind, d.amount, d.agent), Promoted(p))
  {
    PromoteMove(w, After(w, Steps(p, seen, id, 2)), p, id, seen, 2);
    DeindexMove(w, After(w, Steps(p, seen, id, 3)), p, id, seen, 3, hot);
    BookMove(w, After(w, Steps(p, seen, id, 4)), p, id, seen, 4, moved);
    DeleteMove(w, After(w, Steps(p, seen, id, 5)), p, id, seen, 5, moved, w.cold + PairOf(id, d.kind, d.amount, d.agent));
  }

  /** What confirmDeposit comes to when its record carries the deposit's own arguments. */
  lemma SpecOfDeposit(s: Store, id: AllocId, d: Deposit)
    requires IsPending(s.hot, id) && s.hot.records[id] == Record(d.agent, d.amount, d.kind, Pending)
    ensures var moved := Deindex(ConfirmScript(s.hot, id, d.agent, d.amount).0, d.agent, id);
            ConfirmSpec(s, id, Final) == (Store(moved.(records := moved.records - {id}), s.cold + PairOf(id, d.kind, d.amount, d.agent)), CONFIRMED)
  {
  }

  /** The stores, the process and the deposit's fate are as one confirmDeposit leaves them. */
  ghost predicate DoneAs(w: World, u: World, p: nat, id: AllocId, c: (Store, ConfirmResult))
    requires id in w.deposits
  {
    && Store(u.hot, u.cold) == c.0 && u.procs == w.procs[p := Confirmer(id, Result(c.1))]
    && id in u.deposits && u.deposits[id].fate == if c.1.CONFIRMED? then Promoted(p) else w.deposits[id].fate
  }

  lemma {:induction false} WonAlone(w: World, p: nat, id: AllocId)
    requires Inv(w) && id in w.deposits && IsPending(w.hot, id)
    requires Reached(After(w, Steps(p, Final, id, 2)), w, p, id, PromoteDue, w.hot, w.cold, w.deposits[id].fate)
    ensures DoneAs(w, After(w, Steps(p, Final, id, 6)), p, id, ConfirmSpec(Store(w.hot, w.cold), id, Final))
  {
    var d := w.deposits[id];
    assert GoodSlice(SliceOf(w, id));
    var hot := ConfirmScript(w.hot, id, d.agent, d.amount).0;
    WinsAlone(w, p, id, Final, d, hot, Deindex(hot, d.agent, id));
    SpecOfDeposit(Store(w.hot, w.cold), id, d);
  }

  lemma {:induction false} RefusedAlone(w: World, p: nat, id: AllocId, seen: Finality, u: World, r: ConfirmResult, n: nat)
    requires id in w.deposits && n <= 6 && u == After(w, Steps(p, seen, id, n))
    requires Reached(u, w, p, id, Result(r), w.hot, w.cold, w.deposits[id].fate) && !r.CONFIRMED?
    ensures DoneAs(w, After(w, Steps(p, seen, id, 6)), p, id, (Store(w.hot, w.cold), r))
  {
    Rests(w, u, p, seen, id, n, 6, r);
  }

  lemma {:induction false} AnsweredAlone(w: World, p: nat, id: AllocId, seen: Finality, u: World)
    requires Inv(w) && id in w.deposits && IsPending(w.hot, id)
    requires u == After(w, Steps(p, seen, id, 1)) && Reached(u, w, p, id, FinalityDue, w.hot, w.cold, w.deposits[id].fate)
    ensures DoneAs(w, After(w, Steps(p, seen, id, 6)), p, id, ConfirmSpec(Store(w.hot, w.cold), id, seen))
  {
    FinalityMove(w, u, p, id, seen, 1);
    if seen.Final? { WonAlone(w, p, id); }
    if !seen.Final? { RefusedAlone(w, p, id, seen, After(w, Steps(p, seen, id, 2)), PENDING, 2); }
  }

  /** After six steps, at most, a confirm has done to the stores what confirmDeposit does in one go, and gives its answer. */
  lemma {:induction false} ConfirmAlone(w: World, p: nat, id: AllocId, seen: Finality)
    requires Inv(w) && id in w.deposits && p in w.procs && w.procs[p] == Confirmer(id, ReadDue)
    ensures DoneAs(w, After(w, Steps(p, seen, id, 6)), p, id, ConfirmSpec(Store(w.hot, w.cold), id, seen))
  {
    StartsReached(w, p, id, seen);
    ReadMove(w, w, p, id, seen, 0);
    if IsPending(w.hot, id) { AnsweredAlone(w, p, id, seen, After(w, Steps(p, seen, id, 1))); }
    if !IsPending(w.hot, id) { RefusedAlone(w, p, id, seen, After(w, Steps(p, seen, id, 1)), NOOP, 1); }
  }

  lemma {:induction false} StartsReached(w: World, p: nat, id: AllocId, seen: Finality)
    requires id in w.deposits && p in w.procs && w.procs[p] == Confirmer(id, ReadDue)
    ensures w == After(w, Steps(p, seen, id, 0)) && Reached(w, w, p, id, ReadDue, w.hot, w.cold, w.deposits[id].fate)
  {
    assert Steps(p, seen, id, 0) == [] && w.procs[p := w.procs[p]] == w.procs;
  }

  // ---- A teardown that nobody disturbs --------------------------------------------------------------

  function StoreOf(w: World): Store { Store(w.hot, w.cold) }

  /** The sweep that began at s has these ids still to do and stands at store t. */
  ghost predicate Midway(s: Store, t: Store, a: AgentId, seen: map<AllocId, Finality>, todo: set<AllocId>) {
    todo <= IndexOf(s.hot, a) && SweptSoFar(s, t, a, seen, IndexOf(s.hot, a) - todo) && IndexOf(t.hot, a) == todo
  }

  /** How far a confirm has taken the store t. */
  function Confirmed(t: Store, id: AllocId, step: ConfirmAt): Store
    requires IsPending(t.hot, id)
  {
    var r := t.hot.records[id];
    var won := ConfirmScript(t.hot, id, r.agent, r.amount).0;
    match step
    case DeindexDue => Store(won, t.cold)
    case BookDue => Store(Deindex(won, r.agent, id), t.cold)
    case DeleteDue => Store(Deindex(won, r.agent, id), t.cold + PairOf(id, r.kind, r.amount, r.agent))
    case Result(x) => if x.CONFIRMED? then ConfirmSpec(t, id, Final).0 else t
    case _ => t
  }

  /** The answer that a confirm must have had to stand at this step. */
  predicate Fits(step: ConfirmAt, answer: Finality) {
    step.ReadDue? || step.FinalityDue? || (if step == Result(PENDING) then !answer.Final? else step != Result(NOOP) && answer.Final?)
  }

  ghost predicate Turning(s: Store, v: Store, a: AgentId, seen: map<AllocId, Finality>, id: AllocId, step: ConfirmAt, todo: set<AllocId>, t: Store) {
    && id !in todo && Midway(s, t, a, seen, todo + {id}) && IsPending(t.hot, id) && t.hot.records[id].agent == a
    && Fits(step, FinalityOf(seen, id)) && v == Confirmed(t, id, step)
  }

  ghost predicate TakingHome(s: Store, v: Store, a: AgentId, seen: map<AllocId, Finality>, c: nat, t: Store) {
    && c > 0 && Midway(s, t, a, seen, {}) && c == Count(t.hot.confirmed, a)
    && v.hot.(committed := t.hot.committed) == t.hot.(confirmed := Bump(t.hot.confirmed, a, 0 - c)) && v.cold == t.cold
  }

  ghost function SweptCount(s: Store, a: AgentId): int { SumOver(IndexOf(s.hot, a), PendingCount(s.hot)) }

  /** Where a teardown that began at s stands in the work that TornDown describes. */
  ghost predicate OnTheWay(s: Store, v: Store, a: AgentId, seen: map<AllocId, Finality>, at: SweepAt) {
    match at
    case ListDue => v == s
    case Sweeping(todo) => Midway(s, v, a, seen, todo)
    case CheckDue(id, todo) => id !in todo && Midway(s, v, a, seen, todo + {id})
    case TidyDue(id, todo) => id !in todo && Midway(s, v, a, seen, todo + {id}) && !IsPending(v.hot, id)
    case Confirming(id, step, todo) => exists t :: Turning(s, v, a, seen, id, step, todo, t)
    case CancelDue(id, todo) =>
      id !in todo && Midway(s, v, a, seen, todo + {id}) && IsPending(v.hot, id) && !FinalityOf(seen, id).Final?
    case BalanceDue => Midway(s, v, a, seen, {})
    case ReclaimDue(c) => c > 0 && Midway(s, v, a, seen, {}) && c == Count(v.hot.confirmed, a)
    case FloatDue(c) => c > 0 && Midway(s, v, a, seen, {}) && c == Count(v.hot.confirmed, a)
    case CommitDue(c) => exists t :: TakingHome(s, v, a, seen, c, t) && v.hot.committed == t.hot.committed
    case PairDue(c) => exists t :: TakingHome(s, v, a, seen, c, t) && v.hot.committed == t.hot.committed - c
    case Swept(c) => TornDown(s, v, a, seen, SweptCount(s, a), c)
  }

  ghost predicate StillOnTheWay(s: Store, u: World, p: nat, a: AgentId, seen: map<AllocId, Finality>) {
    p in u.procs && u.procs[p].Sweeper? && u.procs[p].agent == a && u.procs[p].alive && OnTheWay(s, StoreOf(u), a, seen, u.procs[p].at)
  }

  // ---- Each step of it -------------------------------------------------------------------------------

  lemma ListsAlone(s: Store, w: World, u: World, p: nat, a: AgentId, seen: map<AllocId, Finality>, answer: Finality, next: AllocId)
    requires OnTheWay(s, StoreOf(w), a, seen, ListDue) && u == ApplySweep(w, p, a, ListDue, answer, next)
    ensures StillOnTheWay(s, u, p, a, seen)
  {
    NothingSwept(s, a, seen);
    assert IndexOf(s.hot, a) - IndexOf(s.hot, a) == {};
  }

  lemma PicksAlone(s: Store, w: World, u: World, p: nat, a: AgentId, seen: map<AllocId, Finality>, answer: Finality, next: AllocId, todo: set<AllocId>)
    requires OnTheWay(s, StoreOf(w), a, seen, Sweeping(todo)) && p in w.procs && w.procs[p] == Sweeper(a, Sweeping(todo), true)
    requires u == ApplySweep(w, p, a, Sweeping(todo), answer, next)
    ensures StillOnTheWay(s, u, p, a, seen)
  {
    if next in todo { assert todo - {next} + {next} == todo; }
  }

  lemma ChecksAlone(s: Store, w: World, u: World, p: nat, a: AgentId, seen: map<AllocId, Finality>, answer: Finality, next: AllocId, id: AllocId, todo: set<AllocId>)
    requires OnTheWay(s, StoreOf(w), a, seen, CheckDue(id, todo)) && u == ApplySweep(w, p, a, CheckDue(id, todo), answer, next)
    requires OwnIndex(w.hot, a)
    ensures StillOnTheWay(s, u, p, a, seen)
  {
    assert id in IndexOf(w.hot, a);
    if IsPending(w.hot, id) { assert Turning(s, StoreOf(u), a, seen, id, ReadDue, todo, StoreOf(w)); }
  }

  /** A turn that resolves the id at hand leaves the sweep midway with the others. */
  lemma TurnDone(s: Store, t: Store, v: Store, a: AgentId, seen: map<AllocId, Finality>, id: AllocId, todo: set<AllocId>)
    requires OwnIndex(s.hot, a) && id !in todo && Midway(s, t, a, seen, todo + {id}) && v == SweepSpec(t, a, id, FinalityOf(seen, id)).0
    ensures Midway(s, v, a, seen, todo)
  {
    TurnSweepsOne(s, t, a, seen, IndexOf(s.hot, a), todo + {id}, id);
    assert todo + {id} - {id} == todo;
  }

  lemma TidiesAlone(s: Store, w: World, u: World, p: nat, a: AgentId, seen: map<AllocId, Finality>, answer: Finality, next: AllocId, id: AllocId, todo: set<AllocId>)
    requires OnTheWay(s, StoreOf(w), a, seen, TidyDue(id, todo)) && u == ApplySweep(w, p, a, TidyDue(id, todo), answer, next) && OwnIndex(s.hot, a)
    ensures StillOnTheWay(s, u, p, a, seen)
  {
    TurnDone(s, StoreOf(w), StoreOf(u), a, seen, id, todo);
  }

  lemma CancelsAlone(s: Store, w: World, u: World, p: nat, a: AgentId, seen: map<AllocId, Finality>, answer: Finality, next: AllocId, id: AllocId, todo: set<AllocId>)
    requires OnTheWay(s, StoreOf(w), a, seen, CancelDue(id, todo)) && u == ApplySweep(w, p, a, CancelDue(id, todo), answer, next) && OwnIndex(s.hot, a)
    requires SlicesGood(w)
    ensures StillOnTheWay(s, u, p, a, seen)
  {
    assert id in w.hot.records && GoodSlice(SliceOf(w, id));
    TurnDone(s, StoreOf(w), StoreOf(u), a, seen, id, todo);
  }

  lemma ConfirmedTurn(s: Store, t: Store, v: Store, a: AgentId, seen: map<AllocId, Finality>, id: AllocId, todo: set<AllocId>)
    requires OwnIndex(s.hot, a) && Turning(s, v, a, seen, id, Result(CONFIRMED), todo, t)
    ensures Midway(s, v, a, seen, todo)
  {
    TurnDone(s, t, v, a, seen, id, todo);
  }

  lemma PendingTurn(s: Store, t: Store, v: Store, a: AgentId, seen: map<AllocId, Finality>, id: AllocId, todo: set<AllocId>)
    requires Turning(s, v, a, seen, id, Result(PENDING), todo, t)
    ensures OnTheWay(s, v, a, seen, CancelDue(id, todo))
  {
  }

  lemma AnsweredTurn(s: Store, v: Store, a: AgentId, seen: map<AllocId, Finality>, id: AllocId, r: ConfirmResult, todo: set<AllocId>)
    requires OnTheWay(s, v, a, seen, Confirming(id, Result(r), todo)) && OwnIndex(s.hot, a)
    ensures OnTheWay(s, v, a, seen, if r.PENDING? then CancelDue(id, todo) else Sweeping(todo))
  {
    var t :| Turning(s, v, a, seen, id, Result(r), todo, t);
    assert !r.NOOP?;
    if r.CONFIRMED? { ConfirmedTurn(s, t, v, a, seen, id, todo); }
    if r.PENDING? { PendingTurn(s, t, v, a, seen, id, todo); }
  }

  /** A confirm inside the sweep with its answer: on to the next id, or to the cancel. */
  lemma AnswersAlone(s: Store, w: World, u: World, p: nat, a: AgentId, seen: map<AllocId, Finality>, answer: Finality, next: AllocId, id: AllocId, r: ConfirmResult, todo: set<AllocId>)
    requires OnTheWay(s, StoreOf(w), a, seen, Confirming(id, Result(r), todo)) && OwnIndex(s.hot, a)
    requires u == ApplySweep(w, p, a, Confirming(id, Result(r), todo), answer, next)
    ensures StillOnTheWay(s, u, p, a, seen)
  {
    AnsweredTurn(s, StoreOf(w), a, seen, id, r, todo);
    assert StoreOf(u) == StoreOf(w) && u.procs[p] == Sweeper(a, if r.PENDING? then CancelDue(id, todo) else Sweeping(todo), true);
  }

  /** The next step of the confirm inside the sweep, on a store that it has taken this far. */
  lemma ConfirmsFurther(w: World, p: nat, id: AllocId, step: ConfirmAt, answer: Finality, t: Store)
    requires IsPending(t.hot, id) && StoreOf(w) == Confirmed(t, id, step) && Fits(step, answer) && !step.Result?
    requires id in w.deposits && t.hot.records[id] == Record(w.deposits[id].agent, w.deposits[id].amount, w.deposits[id].kind, Pending)
    ensures var m := ConfirmMove(w, p, id, step, answer); StoreOf(m.0) == Confirmed(t, id, m.1) && Fits(m.1, answer)
  {
  }

  /** Until it is deleted, the record of the id at hand carries the arguments of its deposit. */
  lemma RecordOfDeposit(w: World, id: AllocId, step: ConfirmAt, t: Store)
    requires SlicesGood(w) && IsPending(t.hot, id) && StoreOf(w) == Confirmed(t, id, step) && !step.Result?
    ensures id in w.deposits && t.hot.records[id] == Record(w.deposits[id].agent, w.deposits[id].amount, w.deposits[id].kind, Pending)
  {
    assert id in w.hot.records;
    assert GoodSlice(SliceOf(w, id));
  }

  lemma MovesAlone(s: Store, w: World, u: World, p: nat, a: AgentId, seen: map<AllocId, Finality>, next: AllocId, id: AllocId, step: ConfirmAt, todo: set<AllocId>)
    requires OnTheWay(s, StoreOf(w), a, seen, Confirming(id, step, todo)) && !step.Result? && SlicesGood(w)
    requires u == ApplySweep(w, p, a, Confirming(id, step, todo), FinalityOf(seen, id), next)
    ensures StillOnTheWay(s, u, p, a, seen)
  {
    var t :| Turning(s, StoreOf(w), a, seen, id, step, todo, t);
    RecordOfDeposit(w, id, step, t);
    ConfirmsFurther(w, p, id, step, FinalityOf(seen, id), t);
    assert Turning(s, StoreOf(u), a, seen, id, u.procs[p].at.step, todo, t);
  }

  lemma ReadsAlone(s: Store, w: World, u: World, p: nat, a: AgentId, seen: map<AllocId, Finality>, answer: Finality, next: AllocId)
    requires OnTheWay(s, StoreOf(w), a, seen, BalanceDue) && u == ApplySweep(w, p, a, BalanceDue, answer, next) && Count(w.hot.confirmed, a) >= 0
    ensures StillOnTheWay(s, u, p, a, seen)
  {
    assert IndexOf(s.hot, a) - {} == IndexOf(s.hot, a);
    if Count(w.hot.confirmed, a) == 0 { TakenHome(s, StoreOf(w), StoreOf(u), a, seen, SweptCount(s, a), 0, next); }
  }

  lemma TakesAlone(s: Store, w: World, u: World, p: nat, a: AgentId, seen: map<AllocId, Finality>, at: SweepAt, answer: Finality, next: AllocId)
    requires at.ReclaimDue? || at.FloatDue? || at.CommitDue?
    requires OnTheWay(s, StoreOf(w), a, seen, at) && u == ApplySweep(w, p, a, at, answer, next)
    ensures StillOnTheWay(s, u, p, a, seen)
  {
    if at.FloatDue? { assert TakingHome(s, StoreOf(u), a, seen, at.c, StoreOf(w)); }
    if at.CommitDue? {
      var t :| TakingHome(s, StoreOf(w), a, seen, at.c, t) && w.hot.committed == t.hot.committed;
      assert TakingHome(s, StoreOf(u), a, seen, at.c, t);
    }
  }

  lemma PairsAlone(s: Store, w: World, u: World, p: nat, a: AgentId, seen: map<AllocId, Finality>, c: nat, answer: Finality, next: AllocId)
    requires OnTheWay(s, StoreOf(w), a, seen, PairDue(c)) && u == ApplySweep(w, p, a, PairDue(c), answer, next)
    ensures StillOnTheWay(s, u, p, a, seen)
  {
    var t :| TakingHome(s, StoreOf(w), a, seen, c, t) && w.hot.committed == t.hot.committed - c;
    assert IndexOf(s.hot, a) - {} == IndexOf(s.hot, a);
    TakenHome(s, t, StoreOf(u), a, seen, SweptCount(s, a), c, next);
  }

  /** The action is a step of this teardown, and the chain's answer, where it is asked, is the one given. */
  predicate IsStepOf(w: World, act: Action, p: nat, seen: map<AllocId, Finality>) {
    act.Step? && act.p == p && p in w.procs && w.procs[p].Sweeper? && w.procs[p].alive
    && (w.procs[p].at.Confirming? ==> act.seen == FinalityOf(seen, w.procs[p].at.id))
  }

  lemma SweepsAlone(s: Store, w: World, u: World, p: nat, a: AgentId, seen: map<AllocId, Finality>, at: SweepAt, answer: Finality, next: AllocId)
    requires SlicesGood(w) && OwnIndex(s.hot, a) && OwnIndex(w.hot, a) && p in w.procs && w.procs[p] == Sweeper(a, at, true)
    requires OnTheWay(s, StoreOf(w), a, seen, at) && u == ApplySweep(w, p, a, at, answer, next)
    requires at.ListDue? || at.Sweeping? || at.CheckDue? || at.TidyDue? || at.CancelDue?
    ensures StillOnTheWay(s, u, p, a, seen)
  {
    if at.ListDue? { ListsAlone(s, w, u, p, a, seen, answer, next); }
    if at.Sweeping? { PicksAlone(s, w, u, p, a, seen, answer, next, at.todo); }
    if at.CheckDue? { ChecksAlone(s, w, u, p, a, seen, answer, next, at.id, at.todo); }
    if at.TidyDue? { TidiesAlone(s, w, u, p, a, seen, answer, next, at.id, at.todo); }
    if at.CancelDue? { CancelsAlone(s, w, u, p, a, seen, answer, next, at.id, at.todo); }
  }

  lemma FinishesAlone(s: Store, w: World, u: World, p: nat, a: AgentId, seen: map<AllocId, Finality>, at: SweepAt, answer: Finality, next: AllocId)
    requires p in w.procs && w.procs[p] == Sweeper(a, at, true) && Count(w.hot.confirmed, a) >= 0
    requires OnTheWay(s, StoreOf(w), a, seen, at) && u == ApplySweep(w, p, a, at, answer, next)
    requires at.BalanceDue? || at.ReclaimDue? || at.FloatDue? || at.CommitDue? || at.PairDue? || at.Swept?
    ensures StillOnTheWay(s, u, p, a, seen)
  {
    if at.BalanceDue? { ReadsAlone(s, w, u, p, a, seen, answer, next); }
    if at.ReclaimDue? || at.FloatDue? || at.CommitDue? { TakesAlone(s, w, u, p, a, seen, at, answer, next); }
    if at.PairDue? { PairsAlone(s, w, u, p, a, seen, at.c, answer, next); }
  }

  lemma StepAlone(s: Store, w: World, u: World, act: Action, p: nat, a: AgentId, seen: map<AllocId, Finality>)
    requires Inv(w) && OwnIndex(s.hot, a) && IsStepOf(w, act, p, seen) && u == Apply(w, act) && StillOnTheWay(s, w, p, a, seen)
    ensures StillOnTheWay(s, u, p, a, seen)
  {
    var at := w.procs[p].at;
    IndexIsOwn(w, a);
    if at.Confirming? && at.step.Result? { AnswersAlone(s, w, u, p, a, seen, act.seen, act.next, at.id, at.step.r, at.todo); }
    if at.Confirming? && !at.step.Result? { MovesAlone(s, w, u, p, a, seen, act.next, at.id, at.step, at.todo); }
    if at.ListDue? || at.Sweeping? || at.CheckDue? || at.TidyDue? || at.CancelDue? { SweepsAlone(s, w, u, p, a, seen, at, act.seen, act.next); }
    if at.BalanceDue? || at.ReclaimDue? || at.FloatDue? || at.CommitDue? || at.PairDue? || at.Swept? {
      FinishesAlone(s, w, u, p, a, seen, at, act.seen, act.next);
    }
  }

  // ---- The whole of it -------------------------------------------------------------------------------

  /** Nothing happens but steps of this teardown. */
  predicate Solo(w: World, acts: seq<Action>, p: nat, seen: map<AllocId, Finality>) {
    forall k :: 0 <= k < |acts| ==> IsStepOf(After(w, acts[..k]), acts[k], p, seen)
  }

  lemma {:induction false} SoloFront(w: World, front: seq<Action>, acts: seq<Action>, p: nat, seen: map<AllocId, Finality>)
    requires Solo(w, acts, p, seen) && acts != [] && front == acts[..|acts| - 1]
    ensures Solo(w, front, p, seen) && IsStepOf(After(w, front), acts[|acts| - 1], p, seen)
  {
    assert forall k :: 0 <= k < |front| ==> front[..k] == acts[..k] && front[k] == acts[k];
  }

  lemma {:induction false} LastStep(w: World, front: seq<Action>, acts: seq<Action>, p: nat, v: World)
    requires acts != [] && front == acts[..|acts| - 1] && v == After(w, front) && Enabled(v, acts[|acts| - 1])
    ensures After(w, acts) == Apply(v, acts[|acts| - 1])
  {
  }

  lemma {:induction false} RunAlone(w: World, acts: seq<Action>, p: nat, a: AgentId, seen: map<AllocId, Finality>, s: Store)
    requires Inv(w) && OwnIndex(s.hot, a) && StillOnTheWay(s, w, p, a, seen) && Solo(w, acts, p, seen)
    ensures StillOnTheWay(s, After(w, acts), p, a, seen)
    decreases |acts|
  {
    if acts != [] {
      var front, act := acts[..|acts| - 1], acts[|acts| - 1];
      SoloFront(w, front, acts, p, seen);
      RunAlone(w, front, p, a, seen, s);
      RunKeeps(w, front);
      LastStep(w, front, acts, p, After(w, front));
      StepAlone(s, After(w, front), After(w, acts), act, p, a, seen);
    }
  }

  /**
   * From any world that a run reaches, a teardown that nobody disturbs and that comes to its end has done what
   * teardownAgent is specified to do, for the answers that the chain gave: so it leaves in float_pending exactly what was
   * stranded before it, and nothing if and only if nothing was.
   */
  lemma {:induction false} TeardownAlone(w: World, acts: seq<Action>, u: World, more: seq<Action>, v: World, p: nat, a: AgentId, seen: map<AllocId, Finality>, c: nat)
    requires Initial(w) && u == After(w, acts) && v == After(u, more)
    requires p in u.procs && u.procs[p] == Sweeper(a, ListDue, true) && Solo(u, more, p, seen)
    requires p in v.procs && v.procs[p] == Sweeper(a, Swept(c), true)
    ensures TornDown(StoreOf(u), StoreOf(v), a, seen, SweptCount(StoreOf(u), a), c)
    ensures Count(v.hot.pending, a) == Total(u, StrandedWeight(a)) && (Count(v.hot.pending, a) == 0 <==> NoneStranded(u, a))
  {
    TornAlone(w, acts, u, more, v, p, a, seen, c);
    TeardownStrandsNothing(w, acts, a, seen, StoreOf(v), SweptCount(StoreOf(u), a), c);
  }

  lemma StartsOnTheWay(u: World, p: nat, a: AgentId, seen: map<AllocId, Finality>)
    requires p in u.procs && u.procs[p] == Sweeper(a, ListDue, true)
    ensures StillOnTheWay(StoreOf(u), u, p, a, seen)
  {
  }

  lemma EndsTorn(s: Store, v: World, p: nat, a: AgentId, seen: map<AllocId, Finality>, c: nat)
    requires StillOnTheWay(s, v, p, a, seen) && v.procs[p].at == Swept(c)
    ensures TornDown(s, StoreOf(v), a, seen, SweptCount(s, a), c)
  {
  }

  lemma {:induction false} ReachedIsGood(w: World, acts: seq<Action>, u: World, a: AgentId)
    requires Initial(w) && u == After(w, acts)
    ensures Inv(u) && OwnIndex(u.hot, a)
  {
    InitialKeeps(w);
    RunKeeps(w, acts);
    IndexIsOwn(u, a);
  }

  lemma {:induction false} TornAlone(w: World, acts: seq<Action>, u: World, more: seq<Action>, v: World, p: nat, a: AgentId, seen: map<AllocId, Finality>, c: nat)
    requires Initial(w) && u == After(w, acts) && v == After(u, more)
    requires p in u.procs && u.procs[p] == Sweeper(a, ListDue, true) && Solo(u, more, p, seen)
    requires p in v.procs && v.procs[p] == Sweeper(a, Swept(c), true)
    ensures TornDown(StoreOf(u), StoreOf(v), a, seen, SweptCount(StoreOf(u), a), c)
  {
    ReachedIsGood(w, acts, u, a);
    StartsOnTheWay(u, p, a, seen);
    RunAlone(u, more, p, a, seen, StoreOf(u));
    EndsTorn(StoreOf(u), v, p, a, seen, c);
  }

  // ---- It comes to its end ----------------------------------------------------------------------------

  /** How many steps are left at most, once the ids are listed. */
  function StepsLeft(at: SweepAt, listed: nat): nat {
    match at
    case ListDue => 11 + 10 * listed
    case Sweeping(todo) => 10 + 10 * |todo|
    case CheckDue(_, todo) => 19 + 10 * |todo|
    case TidyDue(_, todo) => 11 + 10 * |todo|
    case Confirming(_, step, todo) => 12 + 10 * |todo| + ConfirmLeft(step)
    case CancelDue(_, todo) => 11 + 10 * |todo|
    case BalanceDue => 5
    case ReclaimDue(_) => 4
    case FloatDue(_) => 3
    case CommitDue(_) => 2
    case PairDue(_) => 1
    case Swept(_) => 0
  }

  function ConfirmLeft(step: ConfirmAt): nat {
    match step
    case ReadDue => 6
    case FinalityDue => 5
    case PromoteDue => 4
    case DeindexDue => 3
    case BookDue => 2
    case DeleteDue => 1
    case Result(_) => 0
  }

  function LeftOf(w: World, v: Proc): nat { if v.Sweeper? then StepsLeft(v.at, |IndexOf(w.hot, v.agent)|) else 0 }

  lemma ConfirmComesNearer(w: World, p: nat, id: AllocId, step: ConfirmAt, answer: Finality)
    requires !step.Result?
    ensures ConfirmLeft(ConfirmMove(w, p, id, step, answer).1) < ConfirmLeft(step)
  {
  }

  ghost predicate Nearer(w: World, u: World, p: nat, a: AgentId, at: SweepAt) {
    && p in u.procs && u.procs[p].Sweeper? && u.procs[p].alive && u.procs[p].agent == a
    && StepsLeft(u.procs[p].at, |IndexOf(u.hot, a)|) < StepsLeft(at, |IndexOf(w.hot, a)|)
  }

  lemma ListComesNearer(w: World, u: World, p: nat, a: AgentId, at: SweepAt, answer: Finality, next: AllocId)
    requires (at.Sweeping? && (at.todo != {} ==> next in at.todo)) || at.ListDue? || at.CheckDue?
    requires u == ApplySweep(w, p, a, at, answer, next)
    ensures Nearer(w, u, p, a, at)
  {
    if at.Sweeping? && at.todo != {} { assert at.todo == (at.todo - {next}) + {next}; }
  }

  lemma TurnComesNearer(w: World, u: World, p: nat, a: AgentId, at: SweepAt, answer: Finality, next: AllocId)
    requires at.TidyDue? || at.Confirming? || at.CancelDue?
    requires u == ApplySweep(w, p, a, at, answer, next)
    ensures Nearer(w, u, p, a, at)
  {
    if at.Confirming? && !at.step.Result? { ConfirmComesNearer(w, p, at.id, at.step, answer); }
  }

  lemma HomeComesNearer(w: World, u: World, p: nat, a: AgentId, at: SweepAt, answer: Finality, next: AllocId)
    requires at.BalanceDue? || at.ReclaimDue? || at.FloatDue? || at.CommitDue? || at.PairDue?
    requires u == ApplySweep(w, p, a, at, answer, next)
    ensures Nearer(w, u, p, a, at)
  {
  }

  lemma ComesNearer(w: World, p: nat, a: AgentId, seen: map<AllocId, Finality>) returns (act: Action, u: World)
    requires p in w.procs && w.procs[p].Sweeper? && w.procs[p].agent == a && w.procs[p].alive && !w.procs[p].at.Swept?
    ensures IsStepOf(w, act, p, seen) && u == Next(w, act)
    ensures p in u.procs && u.procs[p].Sweeper? && u.procs[p].agent == a && u.procs[p].alive && LeftOf(u, u.procs[p]) < LeftOf(w, w.procs[p])
  {
    var at := w.procs[p].at;
    var next: AllocId := "";
    if at.Sweeping? && at.todo != {} { next :| next in at.todo; }
    var answer := if at.Confirming? then FinalityOf(seen, at.id) else Unreadable;
    act, u := Step(p, answer, next), ApplySweep(w, p, a, at, answer, next);
    if at.Sweeping? || at.ListDue? || at.CheckDue? { ListComesNearer(w, u, p, a, at, answer, next); }
    if at.TidyDue? || at.Confirming? || at.CancelDue? { TurnComesNearer(w, u, p, a, at, answer, next); }
    if at.BalanceDue? || at.ReclaimDue? || at.FloatDue? || at.CommitDue? || at.PairDue? { HomeComesNearer(w, u, p, a, at, answer, next); }
  }

  lemma {:induction false} AfterFirst(w: World, act: Action, rest: seq<Action>)
    ensures After(w, [act] + rest) == After(Next(w, act), rest)
    decreases |rest|
  {
    var acts := [act] + rest;
    if rest == [] {
      assert acts == [act] && acts[..0] == [];
    } else {
      assert acts[..|acts| - 1] == [act] + rest[..|rest| - 1];
      AfterFirst(w, act, rest[..|rest| - 1]);
    }
  }

  lemma {:induction false} SoloFirst(w: World, act: Action, rest: seq<Action>, p: nat, seen: map<AllocId, Finality>)
    requires IsStepOf(w, act, p, seen) && Solo(Next(w, act), rest, p, seen)
    ensures Solo(w, [act] + rest, p, seen)
  {
    var acts := [act] + rest;
    forall k | 0 <= k < |acts|
      ensures IsStepOf(After(w, acts[..k]), acts[k], p, seen)
    {
      if k == 0 {
        assert acts[..0] == [];
      } else {
        assert acts[..k] == [act] + rest[..k - 1];
        AfterFirst(w, act, rest[..k - 1]);
      }
    }
  }

  /** Left alone, a teardown comes to its end, whatever the chain answers. */
  lemma {:induction false} TeardownEnds(w: World, p: nat, a: AgentId, seen: map<AllocId, Finality>) returns (acts: seq<Action>, c: nat)
    requires p in w.procs && w.procs[p].Sweeper? && w.procs[p].agent == a && w.procs[p].alive
    ensures Solo(w, acts, p, seen) && p in After(w, acts).procs && After(w, acts).procs[p] == Sweeper(a, Swept(c), true)
    decreases LeftOf(w, w.procs[p])
  {
    if w.procs[p].at.Swept? {
      acts, c := [], w.procs[p].at.c;
    } else {
      var act, u := ComesNearer(w, p, a, seen);
      var rest;
      rest, c := TeardownEnds(u, p, a, seen);
      acts := [act] + rest;
      SoloFirst(w, act, rest, p, seen);
      AfterFirst(w, act, rest);
    }
  }

  // ---- A deposit that nobody disturbs -------------------------------------------------------------------

  /** The call has moved to this point, and its organization's keys are as given; nothing else has changed. */
  ghost predicate Moved(v: World, w: World, id: AllocId, at: DepositAt, hot: Hot)
    requires id in w.deposits
  {
    v == w.(hot := hot, deposits := w.deposits[id := w.deposits[id].(at := at)])
  }

  lemma {:induction false} Goes(w: World, acts: seq<Action>, v: World, u: World, id: AllocId, ok: bool)
    requires v == After(w, acts) && id in v.deposits && u == ApplyDeposit(v, id, ok)
    ensures After(w, acts + [DepositStep(id, ok)]) == u
  {
    assert (acts + [DepositStep(id, ok)])[..|acts|] == acts;
  }

  lemma {:induction false} GoesTo(w: World, acts: seq<Action>, v: World, id: AllocId, ok: bool, at: DepositAt, to: DepositAt, hot: Hot)
    requires id in w.deposits && v == After(w, acts) && Moved(v, w, id, at, hot)
    requires (at.SubmitDue? && to == if ok then FundDue else UndoDue) || (at.FundDue? && to == if ok then PendingDue else UndoDue)
    ensures Moved(After(w, acts + [DepositStep(id, ok)]), w, id, to, hot)
  {
    DepositTwice(w, v, id, at, to);
    Goes(w, acts, v, ApplyDeposit(v, id, ok), id, ok);
  }

  lemma DepositTwice(w: World, v: World, id: AllocId, at: DepositAt, to: DepositAt)
    requires id in w.deposits && v.deposits == w.deposits[id := w.deposits[id].(at := at)]
    ensures v.deposits[id := v.deposits[id].(at := to)] == w.deposits[id := w.deposits[id].(at := to)]
  {
  }

  /** Room below the budget and below what was deposited. */
  predicate HasRoom(w: World, d: Deposit) {
    w.hot.committed + w.hot.reserved + d.amount <= w.budget && w.hot.committed + w.hot.reserved + d.amount <= d.funded
  }

  function Reserving(w: World, d: Deposit): Hot { w.hot.(reserved := w.hot.reserved + d.amount) }

  /** A deposit that the rules deny, or that finds no room, ends at once and leaves every key as it was. */
  lemma RefusedDeposit(w: World, id: AllocId, ok: bool)
    requires id in w.deposits && w.deposits[id].at.EvalDue? && (!ok || !HasRoom(w, w.deposits[id]))
    ensures Moved(Next(w, DepositStep(id, ok)), w, id, Ended, w.hot)
  {
  }

  lemma {:induction false} ReservedDeposit(w: World, id: AllocId)
    requires id in w.deposits && w.deposits[id].at.EvalDue? && HasRoom(w, w.deposits[id])
    ensures Moved(After(w, [DepositStep(id, true)]), w, id, SubmitDue, Reserving(w, w.deposits[id]))
  {
    Goes(w, [], w, ApplyDeposit(w, id, true), id, true);
    assert [] + [DepositStep(id, true)] == [DepositStep(id, true)];
  }

  /** The last step of a deposit that failed gives the reserve back. */
  lemma {:induction false} GivesBack(w: World, acts: seq<Action>, v: World, id: AllocId, ok: bool)
    requires id in w.deposits && v == After(w, acts) && Moved(v, w, id, UndoDue, Reserving(w, w.deposits[id]))
    ensures Moved(After(w, acts + [DepositStep(id, ok)]), w, id, Ended, w.hot)
  {
    DepositTwice(w, v, id, UndoDue, Ended);
    Goes(w, acts, v, ApplyDeposit(v, id, ok), id, ok);
  }

  function FailedRun(id: AllocId, funding: bool): seq<Action> {
    if funding then [DepositStep(id, true)] + [DepositStep(id, true)] + [DepositStep(id, false)] + [DepositStep(id, true)]
    else [DepositStep(id, true)] + [DepositStep(id, false)] + [DepositStep(id, true)]
  }

  /** A deposit whose submission fails, or whose funding does, leaves every key as it was. */
  lemma {:induction false} FailedDeposit(w: World, id: AllocId, funding: bool)
    requires id in w.deposits && w.deposits[id].at.EvalDue? && HasRoom(w, w.deposits[id])
    ensures Moved(After(w, FailedRun(id, funding)), w, id, Ended, w.hot)
  {
    var run, hot := [DepositStep(id, true)], Reserving(w, w.deposits[id]);
    ReservedDeposit(w, id);
    if funding {
      GoesTo(w, run, After(w, run), id, true, SubmitDue, FundDue, hot);
      run := run + [DepositStep(id, true)];
      GoesTo(w, run, After(w, run), id, false, FundDue, UndoDue, hot);
    } else {
      GoesTo(w, run, After(w, run), id, false, SubmitDue, UndoDue, hot);
    }
    run := run + [DepositStep(id, false)];
    GivesBack(w, run, After(w, run), id, true);
  }

  lemma {:induction false} RecordsDeposit(w: World, acts: seq<Action>, v: World, id: AllocId, d: Deposit, hot: Hot, at: DepositAt, to: DepositAt, next: Hot)
    requires id in w.deposits && d == w.deposits[id] && v == After(w, acts) && Moved(v, w, id, at, hot)
    requires (at.PendingDue? && to.RecordDue? && next == hot.(pending := Bump(hot.pending, d.agent, d.amount)))
             || (at.RecordDue? && to.IndexDue? && next == hot.(records := hot.records[id := Record(d.agent, d.amount, d.kind, Pending)]))
             || (at.IndexDue? && to.Ended? && next == hot.(index := hot.index[d.agent := IndexOf(hot, d.agent) + {id}]))
    ensures Moved(After(w, acts + [DepositStep(id, true)]), w, id, to, next)
  {
    DepositTwice(w, v, id, at, to);
    Goes(w, acts, v, ApplyDeposit(v, id, true), id, true);
  }

  function SubmittedRun(id: AllocId): seq<Action> {
    [DepositStep(id, true)] + [DepositStep(id, true)] + [DepositStep(id, true)] + [DepositStep(id, true)] + [DepositStep(id, true)] + [DepositStep(id, true)]
  }

  /** One that is submitted and funded ends reserved, pending, recorded under its own arguments and listed in its agent's index. */
  lemma {:induction false} SubmittedDeposit(w: World, id: AllocId)
    requires id in w.deposits && w.deposits[id].at.EvalDue? && HasRoom(w, w.deposits[id])
    ensures var d, h := w.deposits[id], w.hot;
            Moved(After(w, SubmittedRun(id)), w, id, Ended,
                  Hot(h.committed, h.reserved + d.amount, Bump(h.pending, d.agent, d.amount), h.confirmed,
                      h.records[id := Record(d.agent, d.amount, d.kind, Pending)], h.index[d.agent := IndexOf(h, d.agent) + {id}]))
  {
    var d, step := w.deposits[id], [DepositStep(id, true)];
    var h0 := Reserving(w, d);
    var h1 := h0.(pending := Bump(h0.pending, d.agent, d.amount));
    var h2 := h1.(records := h1.records[id := Record(d.agent, d.amount, d.kind, Pending)]);
    var run := step;
    ReservedDeposit(w, id);
    GoesTo(w, run, After(w, run), id, true, SubmitDue, FundDue, h0);
    run := run + step;
    GoesTo(w, run, After(w, run), id, true, FundDue, PendingDue, h0);
    run := run + step;
    RecordsDeposit(w, run, After(w, run), id, d, h0, PendingDue, RecordDue, h1);
    run := run + step;
    RecordsDeposit(w, run, After(w, run), id, d, h1, RecordDue, IndexDue, h2);
    run := run + step;
    RecordsDeposit(w, run, After(w, run), id, d, h2, IndexDue, Ended, h2.(index := h2.index[d.agent := IndexOf(h2, d.agent) + {id}]));
  }
}
