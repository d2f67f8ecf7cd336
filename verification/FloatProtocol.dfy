// Deposits, confirms and teardowns of one organization as a transition system: any number of
// calls interleaved at every Redis script, gateway answer and cold-ledger transaction
// (src/engines/provisioning/deposit.ts, confirm.ts, teardown.ts). A call that crashes is one
// that takes no further step; a teardown that crashed may be followed by another.
module FloatProtocol {
  import opened Options
  import opened Sums
  import opened FloatStore

  datatype DepositAt = EvalDue | SubmitDue | FundDue | UndoDue | PendingDue | RecordDue | IndexDue | Ended

  /** Which of the two single-winner scripts decided an allocation: part of the history, not of any store. */
  datatype Fate = Undecided | Promoted(winner: nat) | Cancelled

  /** A depositFor call and the allocation it makes; `funded` is the deposited balance that the caller read. */
  datatype Deposit = Deposit(agent: AgentId, amount: nat, kind: Kind, funded: nat, at: DepositAt, fate: Fate, booked: bool)

  datatype ConfirmAt = ReadDue | FinalityDue | PromoteDue | DeindexDue | BookDue | DeleteDue | Result(r: ConfirmResult)

  datatype SweepAt =
    | ListDue | Sweeping(todo: set<AllocId>)
    | CheckDue(id: AllocId, todo: set<AllocId>) | TidyDue(id: AllocId, todo: set<AllocId>)
    | Confirming(id: AllocId, step: ConfirmAt, todo: set<AllocId>) | CancelDue(id: AllocId, todo: set<AllocId>)
    | BalanceDue | ReclaimDue(c: nat) | FloatDue(c: nat) | CommitDue(c: nat) | PairDue(c: nat) | Swept(c: nat)

  datatype Proc = Confirmer(id: AllocId, step: ConfirmAt) | Sweeper(agent: AgentId, at: SweepAt, alive: bool)

  datatype World = World(hot: Hot, cold: seq<Row>, budget: int, credited: nat, deposits: map<AllocId, Deposit>, procs: map<nat, Proc>)

  datatype Action =
    | Credit(amount: nat)
    | BeginDeposit(id: AllocId, a: AgentId, amount: nat, kind: Kind) | DepositStep(id: AllocId, ok: bool)
    | BeginConfirm(p: nat, id: AllocId) | BeginSweep(p: nat, a: AgentId)
    | Step(p: nat, seen: Finality, next: AllocId) | Die(p: nat)

  function SetProc(w: World, p: nat, v: Proc): World { w.(procs := w.procs[p := v]) }

  function SetDeposit(w: World, id: AllocId, d: Deposit): World { w.(deposits := w.deposits[id := d]) }

  // ---- The steps ---------------------------------------------------------------------------

  predicate IsLiveSweeper(v: Proc, a: AgentId) { v.Sweeper? && v.agent == a && v.alive && !v.at.Swept? }

  predicate Enabled(w: World, act: Action) {
    match act
    case Credit(_) => true
    case BeginDeposit(id, _, _, kind) => id !in w.deposits && !kind.Teardown?
    case DepositStep(id, _) => id in w.deposits
    case BeginConfirm(p, _) => p !in w.procs
    case BeginSweep(p, a) => p !in w.procs && forall q :: q in w.procs ==> !IsLiveSweeper(w.procs[q], a)
    case Step(p, _, _) => p in w.procs && (w.procs[p].Sweeper? ==> w.procs[p].alive)
    case Die(p) => p in w.procs && w.procs[p].Sweeper?
  }

  function Apply(w: World, act: Action): World
    requires Enabled(w, act)
  {
    match act
    case Credit(amount) => w.(credited := w.credited + amount)
    case BeginDeposit(id, a, amount, kind) => SetDeposit(w, id, Deposit(a, amount, kind, w.credited, EvalDue, Undecided, false))
    case DepositStep(id, ok) => ApplyDeposit(w, id, ok)
    case BeginConfirm(p, id) => SetProc(w, p, Confirmer(id, ReadDue))
    case BeginSweep(p, a) => SetProc(w, p, Sweeper(a, ListDue, true))
    case Step(p, seen, next) => ApplyProc(w, p, seen, next)
    case Die(p) => SetProc(w, p, Sweeper(w.procs[p].agent, w.procs[p].at, false))
  }

  /** depositFor: reserve, submit, fund, then pending counter, record and index; a failure in between gives the reserve back. */
  function ApplyDeposit(w: World, id: AllocId, ok: bool): World
    requires id in w.deposits
  {
    var d := w.deposits[id];
    match d.at
    case EvalDue =>
      var r := ReserveScript(w.hot, w.budget, d.amount, d.funded);
      if ok && r.1.ReserveTaken? then SetDeposit(w.(hot := r.0), id, d.(at := SubmitDue)) else SetDeposit(w, id, d.(at := Ended))
    case SubmitDue => SetDeposit(w, id, d.(at := if ok then FundDue else UndoDue))
    case FundDue => SetDeposit(w, id, d.(at := if ok then PendingDue else UndoDue))
    case UndoDue => SetDeposit(w.(hot := w.hot.(reserved := w.hot.reserved - d.amount)), id, d.(at := Ended))
    case PendingDue => SetDeposit(w.(hot := w.hot.(pending := Bump(w.hot.pending, d.agent, d.amount))), id, d.(at := RecordDue))
    case RecordDue => SetDeposit(w.(hot := w.hot.(records := w.hot.records[id := Record(d.agent, d.amount, d.kind, Pending)])), id, d.(at := IndexDue))
    case IndexDue => SetDeposit(w.(hot := w.hot.(index := w.hot.index[d.agent := IndexOf(w.hot, d.agent) + {id}])), id, d.(at := Ended))
    case Ended => w
  }

  /** confirmDeposit, on its own or inside a sweep: its effect on the world, and where it stands next. */
  function ConfirmMove(w: World, p: nat, id: AllocId, step: ConfirmAt, seen: Finality): (World, ConfirmAt) {
    if id !in w.deposits then (w, Result(NOOP))
    else
      var d := w.deposits[id];
      match step
      case ReadDue => (w, if IsPending(w.hot, id) then FinalityDue else Result(NOOP))
      case FinalityDue => (w, if seen.Final? then PromoteDue else Result(PENDING))
      case PromoteDue =>
        var r := ConfirmScript(w.hot, id, d.agent, d.amount);
        if r.1 then (SetDeposit(w.(hot := r.0), id, d.(fate := Promoted(p))), DeindexDue) else (w, Result(NOOP))
      case DeindexDue => (w.(hot := Deindex(w.hot, d.agent, id)), BookDue)
      case BookDue => (SetDeposit(w.(cold := w.cold + PairOf(id, d.kind, d.amount, d.agent)), id, d.(booked := true)), DeleteDue)
      case DeleteDue => (w.(hot := w.hot.(records := w.hot.records - {id})), Result(CONFIRMED))
      case Result(_) => (w, step)
  }

  function ApplyProc(w: World, p: nat, seen: Finality, next: AllocId): World
    requires p in w.procs
  {
    match w.procs[p]
    case Confirmer(id, step) =>
      var m := ConfirmMove(w, p, id, step, seen);
      SetProc(m.0, p, Confirmer(id, m.1))
    case Sweeper(a, at, alive) => ApplySweep(w, p, a, at, seen, next)
  }

  function ApplySweep(w: World, p: nat, a: AgentId, at: SweepAt, seen: Finality, next: AllocId): World {
    match at
    case ListDue => SetProc(w, p, Sweeper(a, Sweeping(IndexOf(w.hot, a)), true))
    case Sweeping(todo) =>
      if todo == {} then SetProc(w, p, Sweeper(a, BalanceDue, true))
      else if next in todo then SetProc(w, p, Sweeper(a, CheckDue(next, todo - {next}), true))
      else w
    case CheckDue(id, todo) =>
      SetProc(w, p, Sweeper(a, if IsPending(w.hot, id) then Confirming(id, ReadDue, todo) else TidyDue(id, todo), true))
    case TidyDue(id, todo) => SetProc(w.(hot := Deindex(w.hot, a, id)), p, Sweeper(a, Sweeping(todo), true))
    case Confirming(id, step, todo) =>
      if step.Result? then SetProc(w, p, Sweeper(a, if step.r.PENDING? then CancelDue(id, todo) else Sweeping(todo), true))
      else
        var m := ConfirmMove(w, p, id, step, seen);
        SetProc(m.0, p, Sweeper(a, Confirming(id, m.1, todo), true))
    case CancelDue(id, todo) => SetProc(ApplyCancel(w, a, id), p, Sweeper(a, Sweeping(todo), true))
    case BalanceDue =>
      var c := Count(w.hot.confirmed, a);
      SetProc(w, p, Sweeper(a, if c > 0 then ReclaimDue(c) else Swept(0), true))
    case ReclaimDue(c) => SetProc(w, p, Sweeper(a, FloatDue(c), true))
    case FloatDue(c) => SetProc(w.(hot := w.hot.(confirmed := Bump(w.hot.confirmed, a, 0 - c))), p, Sweeper(a, CommitDue(c), true))
    case CommitDue(c) => SetProc(w.(hot := w.hot.(committed := w.hot.committed - c)), p, Sweeper(a, PairDue(c), true))
    case PairDue(c) => SetProc(w.(cold := w.cold + PairOf(next, Teardown, c, a)), p, Sweeper(a, Swept(c), true))
    case Swept(_) => w
  }

  function ApplyCancel(w: World, a: AgentId, id: AllocId): World {
    if id !in w.deposits then w
    else
      var r := CancelScript(w.hot, id, a, w.deposits[id].amount);
      if r.1 then SetDeposit(w.(hot := r.0), id, w.deposits[id].(fate := Cancelled)) else w
  }

  // ---- What the counters stand for ------------------------------------------------------------

  /** Everything recorded about one allocation. */
  datatype Slice = Slice(d: Deposit, record: Option<Record>)

  function RecordAt(h: Hot, id: AllocId): Option<Record> { if id in h.records then Some(h.records[id]) else None }

  function SliceOf(w: World, id: AllocId): Slice
    requires id in w.deposits
  {
    Slice(w.deposits[id], RecordAt(w.hot, id))
  }

  /** The weight of one allocation, and the sum over all of them. */
  ghost function WeightOf(w: World, weight: Slice -> int): AllocId -> int {
    id => if id in w.deposits then weight(SliceOf(w, id)) else 0
  }

  ghost function Total(w: World, weight: Slice -> int): int { SumOver(w.deposits.Keys, WeightOf(w, weight)) }

  ghost predicate SameSlices(w: World, u: World) {
    u.deposits.Keys == w.deposits.Keys && forall id :: id in w.deposits ==> SliceOf(u, id) == SliceOf(w, id)
  }

  /** Allocation id becomes the slice y, and every other one is as before. */
  ghost predicate OneMoves(w: World, u: World, id: AllocId, y: Slice) {
    && id in w.deposits && u.deposits.Keys == w.deposits.Keys && SliceOf(u, id) == y
    && forall j :: j in w.deposits && j != id ==> SliceOf(u, j) == SliceOf(w, j)
  }

  lemma TotalSame(w: World, u: World, weight: Slice -> int)
    requires SameSlices(w, u)
    ensures Total(u, weight) == Total(w, weight)
  {
    SumSame(w.deposits.Keys, WeightOf(w, weight), WeightOf(u, weight));
  }

  lemma TotalMoves(w: World, u: World, id: AllocId, y: Slice, weight: Slice -> int)
    requires OneMoves(w, u, id, y)
    ensures Total(u, weight) == Total(w, weight) - weight(SliceOf(w, id)) + weight(y)
  {
    SumChange(w.deposits.Keys, WeightOf(w, weight), WeightOf(u, weight), id);
  }

  lemma TotalGrows(w: World, u: World, id: AllocId, weight: Slice -> int)
    requires id !in w.deposits && u.deposits.Keys == w.deposits.Keys + {id}
    requires forall j :: j in w.deposits ==> SliceOf(u, j) == SliceOf(w, j)
    ensures Total(u, weight) == Total(w, weight) + weight(SliceOf(u, id))
  {
    SumInsert(w.deposits.Keys, WeightOf(u, weight), id);
    SumSame(w.deposits.Keys, WeightOf(w, weight), WeightOf(u, weight));
  }

  predicate PendingRecord(s: Slice) { s.record.Some? && s.record.value.state.Pending? }

  /** The deposit still holds its part of the budget: its call is between reserve and record, or its record is PENDING. */
  predicate HoldsReserve(s: Slice) {
    s.d.at.SubmitDue? || s.d.at.FundDue? || s.d.at.UndoDue? || s.d.at.PendingDue? || s.d.at.RecordDue? || PendingRecord(s)
  }

  predicate HoldsPending(s: Slice) { s.d.at.RecordDue? || PendingRecord(s) }

  function ReserveWeight(): Slice -> int { (s: Slice) => if HoldsReserve(s) then s.d.amount else 0 }
  function PendingWeight(a: AgentId): Slice -> int { (s: Slice) => if HoldsPending(s) && s.d.agent == a then s.d.amount else 0 }
  function PromotedWeight(a: AgentId): Slice -> int { (s: Slice) => if s.d.fate.Promoted? && s.d.agent == a then s.d.amount else 0 }
  function BookedWeight(a: AgentId): Slice -> int { (s: Slice) => if s.d.booked && s.d.agent == a then s.d.amount else 0 }

  /** Taken out of the agent's float, and not yet out of the org's commitments. */
  function TransitWeight(): Proc -> int { (v: Proc) => if v.Sweeper? && v.at.CommitDue? then v.at.c else 0 }
  function TakenWeight(a: AgentId): Proc -> int {
    (v: Proc) => if v.Sweeper? && v.agent == a && (v.at.CommitDue? || v.at.PairDue? || v.at.Swept?) then v.at.c else 0
  }
  function ReturnedWeight(a: AgentId): Proc -> int { (v: Proc) => if v.Sweeper? && v.agent == a && v.at.Swept? then v.at.c else 0 }

  function Balance(): int -> int { (x: int) => x }

  ghost predicate ReservedAdds(w: World) { w.hot.reserved == Total(w, ReserveWeight()) }

  ghost predicate PendingAdds(w: World) { forall a :: Count(w.hot.pending, a) == Total(w, PendingWeight(a)) }

  ghost predicate ConfirmedAdds(w: World) {
    forall a :: Count(w.hot.confirmed, a) == Total(w, PromotedWeight(a)) - Measure(w.procs, TakenWeight(a))
  }

  /** The org's commitments are its agents' confirmed float, plus what teardowns hold between their two decrements. */
  ghost predicate CommittedAdds(w: World) {
    w.hot.committed == Measure(w.hot.confirmed, Balance()) + Measure(w.procs, TransitWeight())
  }

  ghost predicate ColdAdds(w: World) {
    && DoubleEntry(w.cold)
    && forall a :: Net(w.cold, AgentFloat, a) == Total(w, BookedWeight(a)) - Measure(w.procs, ReturnedWeight(a))
  }

  ghost predicate Books(w: World) { ReservedAdds(w) && PendingAdds(w) && ConfirmedAdds(w) && CommittedAdds(w) && ColdAdds(w) }

  lemma BumpAdds(m: map<AgentId, int>, a: AgentId, change: int)
    ensures Measure(Bump(m, a, change), Balance()) == Measure(m, Balance()) + change
  {
    if a in m { MeasureUpdate(m, a, m[a] + change, Balance()); } else { MeasureAdd(m, a, change, Balance()); }
  }

  /** The confirmed float of one agent and the org's commitments move together, or not at all. */
  predicate FloatMoves(h: Hot, g: Hot, a: AgentId) {
    || (g.confirmed == h.confirmed && g.committed == h.committed)
    || g.confirmed == Bump(h.confirmed, a, g.committed - h.committed)
  }

  /** One allocation goes from slice x to slice y, and the counters move by exactly what that is worth. */
  ghost predicate Accounts(w: World, u: World, id: AllocId, x: Slice, y: Slice) {
    && id in w.deposits && x == SliceOf(w, id) && OneMoves(w, u, id, y) && u.procs == w.procs
    && y.d.agent == x.d.agent
    && u.hot.reserved - w.hot.reserved == ReserveWeight()(y) - ReserveWeight()(x)
    && (forall a :: Count(u.hot.pending, a) - Count(w.hot.pending, a) == PendingWeight(a)(y) - PendingWeight(a)(x))
    && FloatMoves(w.hot, u.hot, x.d.agent)
    && u.hot.committed - w.hot.committed == PromotedWeight(x.d.agent)(y) - PromotedWeight(x.d.agent)(x)
    && (forall a :: Net(u.cold, AgentFloat, a) - Net(w.cold, AgentFloat, a) == BookedWeight(a)(y) - BookedWeight(a)(x))
    && (DoubleEntry(w.cold) ==> DoubleEntry(u.cold))
  }

  lemma CountersKept(w: World, u: World, id: AllocId, x: Slice, y: Slice)
    requires ReservedAdds(w) && PendingAdds(w) && Accounts(w, u, id, x, y)
    ensures ReservedAdds(u) && PendingAdds(u)
  {
    TotalMoves(w, u, id, y, ReserveWeight());
    forall a
      ensures Count(u.hot.pending, a) == Total(u, PendingWeight(a))
    {
      TotalMoves(w, u, id, y, PendingWeight(a));
    }
  }

  lemma FloatMoved(h: Hot, g: Hot, a: AgentId, b: AgentId)
    requires FloatMoves(h, g, a)
    ensures Count(g.confirmed, b) == Count(h.confirmed, b) + if b == a then g.committed - h.committed else 0
    ensures Measure(g.confirmed, Balance()) == Measure(h.confirmed, Balance()) + g.committed - h.committed
  {
    BumpAdds(h.confirmed, a, g.committed - h.committed);
  }

  lemma ConfirmedKeptFor(w: World, u: World, id: AllocId, x: Slice, y: Slice, a: AgentId)
    requires id in w.deposits && x == SliceOf(w, id) && OneMoves(w, u, id, y) && u.procs == w.procs && y.d.agent == x.d.agent
    requires FloatMoves(w.hot, u.hot, x.d.agent)
    requires u.hot.committed - w.hot.committed == PromotedWeight(x.d.agent)(y) - PromotedWeight(x.d.agent)(x)
    requires Count(w.hot.confirmed, a) == Total(w, PromotedWeight(a)) - Measure(w.procs, TakenWeight(a))
    ensures Count(u.hot.confirmed, a) == Total(u, PromotedWeight(a)) - Measure(u.procs, TakenWeight(a))
  {
    FloatMoved(w.hot, u.hot, x.d.agent, a);
    TotalMoves(w, u, id, y, PromotedWeight(a));
  }

  lemma ConfirmedKept(w: World, u: World, id: AllocId, x: Slice, y: Slice)
    requires ConfirmedAdds(w) && Accounts(w, u, id, x, y)
    ensures ConfirmedAdds(u)
  {
    forall a
      ensures Count(u.hot.confirmed, a) == Total(u, PromotedWeight(a)) - Measure(u.procs, TakenWeight(a))
    {
      ConfirmedKeptFor(w, u, id, x, y, a);
    }
  }

  lemma ColdKept(w: World, u: World, id: AllocId, x: Slice, y: Slice)
    requires ColdAdds(w) && Accounts(w, u, id, x, y)
    ensures ColdAdds(u)
  {
    forall a
      ensures Net(u.cold, AgentFloat, a) == Total(u, BookedWeight(a)) - Measure(u.procs, ReturnedWeight(a))
    {
      TotalMoves(w, u, id, y, BookedWeight(a));
    }
  }

  lemma AccountsKeepBooks(w: World, u: World, id: AllocId, x: Slice, y: Slice)
    requires Books(w) && Accounts(w, u, id, x, y)
    ensures Books(u)
  {
    CountersKept(w, u, id, x, y);
    ConfirmedKept(w, u, id, x, y);
    FloatMoved(w.hot, u.hot, x.d.agent, x.d.agent);
    ColdKept(w, u, id, x, y);
  }

  /** One process moves, and the float counters and the cold ledger move by exactly what that is worth. */
  ghost predicate Settles(w: World, u: World, p: nat, v: Proc, a: AgentId) {
    && p in w.procs && u.procs == w.procs[p := v] && SameSlices(w, u)
    && u.hot.reserved == w.hot.reserved && u.hot.pending == w.hot.pending
    && (u.hot.confirmed == w.hot.confirmed || exists c :: u.hot.confirmed == Bump(w.hot.confirmed, a, c))
    && Count(u.hot.confirmed, a) - Count(w.hot.confirmed, a) == TakenWeight(a)(w.procs[p]) - TakenWeight(a)(v)
    && (forall b :: b != a ==> TakenWeight(b)(v) == TakenWeight(b)(w.procs[p]))
    && u.hot.committed - w.hot.committed == Count(u.hot.confirmed, a) - Count(w.hot.confirmed, a) + TransitWeight()(v) - TransitWeight()(w.procs[p])
    && (forall b :: Net(u.cold, AgentFloat, b) - Net(w.cold, AgentFloat, b) == ReturnedWeight(b)(w.procs[p]) - ReturnedWeight(b)(v))
    && (DoubleEntry(w.cold) ==> DoubleEntry(u.cold))
  }

  lemma SettlesKeepCommitted(w: World, u: World, p: nat, v: Proc, a: AgentId)
    requires CommittedAdds(w) && Settles(w, u, p, v, a)
    ensures CommittedAdds(u)
  {
    if u.hot.confirmed != w.hot.confirmed {
      var c :| u.hot.confirmed == Bump(w.hot.confirmed, a, c);
      BumpAdds(w.hot.confirmed, a, c);
    }
    MeasureUpdate(w.procs, p, v, TransitWeight());
  }

  lemma SettlesKeepConfirmed(w: World, u: World, p: nat, v: Proc, a: AgentId)
    requires ConfirmedAdds(w) && Settles(w, u, p, v, a)
    ensures ConfirmedAdds(u)
  {
    forall b
      ensures Count(u.hot.confirmed, b) == Total(u, PromotedWeight(b)) - Measure(u.procs, TakenWeight(b))
    {
      MeasureUpdate(w.procs, p, v, TakenWeight(b));
      TotalSame(w, u, PromotedWeight(b));
      assert b != a ==> Count(u.hot.confirmed, b) == Count(w.hot.confirmed, b);
    }
  }

  lemma SettlesKeepCold(w: World, u: World, p: nat, v: Proc, a: AgentId)
    requires ColdAdds(w) && Settles(w, u, p, v, a)
    ensures ColdAdds(u)
  {
    forall b
      ensures Net(u.cold, AgentFloat, b) == Total(u, BookedWeight(b)) - Measure(u.procs, ReturnedWeight(b))
    {
      MeasureUpdate(w.procs, p, v, ReturnedWeight(b));
      TotalSame(w, u, BookedWeight(b));
    }
  }

  lemma SettlesKeepCounters(w: World, u: World, p: nat, v: Proc, a: AgentId)
    requires ReservedAdds(w) && PendingAdds(w) && Settles(w, u, p, v, a)
    ensures ReservedAdds(u) && PendingAdds(u)
  {
    TotalSame(w, u, ReserveWeight());
    forall b
      ensures Total(u, PendingWeight(b)) == Total(w, PendingWeight(b))
    {
      TotalSame(w, u, PendingWeight(b));
    }
  }

  lemma SettlesKeepBooks(w: World, u: World, p: nat, v: Proc, a: AgentId)
    requires Books(w) && Settles(w, u, p, v, a)
    ensures Books(u)
  {
    SettlesKeepCounters(w, u, p, v, a);
    SettlesKeepCommitted(w, u, p, v, a);
    SettlesKeepConfirmed(w, u, p, v, a);
    SettlesKeepCold(w, u, p, v, a);
  }

  // ---- What holds besides the books -------------------------------------------------------------

  /** A record carries the arguments of its deposit, and each allocation is decided once. */
  predicate GoodSlice(s: Slice) {
    var late := s.d.at.IndexDue? || s.d.at.Ended?;
    && !s.d.kind.Teardown?
    && (s.record.Some? ==> s.record.value == Record(s.d.agent, s.d.amount, s.d.kind, s.record.value.state) && late)
    && (PendingRecord(s) ==> s.d.fate.Undecided?)
    && (s.record.Some? && s.record.value.state.Confirmed? ==> s.d.fate.Promoted?)
    && (!late ==> s.d.fate.Undecided? && !s.d.booked)
    && (s.d.booked ==> s.d.fate.Promoted?)
  }

  /** The promotion that a process is about to record in the cold ledger. */
  predicate IsRecording(v: Proc, id: AllocId) {
    || (v.Confirmer? && v.id == id && (v.step.DeindexDue? || v.step.BookDue?))
    || (v.Sweeper? && v.at.Confirming? && v.at.id == id && (v.at.step.DeindexDue? || v.at.step.BookDue?))
  }

  predicate IsClearing(v: Proc, id: AllocId) {
    || (v.Confirmer? && v.id == id && v.step.DeleteDue?)
    || (v.Sweeper? && v.at.Confirming? && v.at.id == id && v.at.step.DeleteDue?)
  }

  /** Only the winner of an allocation records it, and until it has it stands right before doing so. */
  ghost predicate WinnersRecord(w: World) {
    && (forall id :: id in w.deposits && w.deposits[id].fate.Promoted? && !w.deposits[id].booked ==>
          w.deposits[id].fate.winner in w.procs && IsRecording(w.procs[w.deposits[id].fate.winner], id))
    && (forall p, id :: p in w.procs && IsRecording(w.procs[p], id) ==>
          id in w.deposits && w.deposits[id].fate == Promoted(p) && !w.deposits[id].booked)
    && (forall p, id :: p in w.procs && IsClearing(w.procs[p], id) ==> id in w.deposits && w.deposits[id].fate == Promoted(p))
  }

  predicate SweepIds(at: SweepAt, id: AllocId) {
    match at
    case Sweeping(todo) => id in todo
    case CheckDue(i, todo) => id == i || id in todo
    case TidyDue(i, todo) => id == i || id in todo
    case Confirming(i, _, todo) => id == i || id in todo
    case CancelDue(i, todo) => id == i || id in todo
    case _ => false
  }

  /** Index entries and the ids a sweep works through belong to deposits of that agent. */
  ghost predicate IndexOwned(w: World) {
    && (forall a, id :: id in IndexOf(w.hot, a) ==> id in w.deposits && w.deposits[id].agent == a)
    && (forall p, id :: p in w.procs && w.procs[p].Sweeper? && SweepIds(w.procs[p].at, id) ==>
          id in w.deposits && w.deposits[id].agent == w.procs[p].agent)
  }

  /** One teardown at a time is at work on an agent; what it read of the float is still there. */
  ghost predicate OneSweeper(w: World) {
    && (forall p, q, a :: p in w.procs && q in w.procs && IsLiveSweeper(w.procs[p], a) && IsLiveSweeper(w.procs[q], a) ==> p == q)
    && (forall p :: p in w.procs && w.procs[p].Sweeper? && w.procs[p].alive && (w.procs[p].at.ReclaimDue? || w.procs[p].at.FloatDue?) ==>
          w.procs[p].at.c <= Count(w.hot.confirmed, w.procs[p].agent))
    && (forall a :: Count(w.hot.confirmed, a) >= 0)
  }

  /** Promises stay within the budget and within what was deposited. */
  ghost predicate Solvent(w: World) {
    && w.hot.committed + w.hot.reserved <= w.credited
    && w.hot.committed + w.hot.reserved <= w.budget
    && (forall id :: id in w.deposits ==> w.deposits[id].funded <= w.credited)
  }

  ghost predicate SlicesGood(w: World) {
    && (forall id :: id in w.deposits ==> GoodSlice(SliceOf(w, id)))
    && (forall id :: id in w.hot.records ==> id in w.deposits)
  }

  ghost predicate Inv(w: World) { Books(w) && SlicesGood(w) && WinnersRecord(w) && IndexOwned(w) && OneSweeper(w) && Solvent(w) }
}
