// The float counters of the treasury and the calls that move them, one call at a time
// (src/engines/enforcement/allocation-eval.ts, src/engines/provisioning, src/engines/ledger/events.ts).
module FloatStore {
  import opened Options
  import opened Sums

  type AgentId = string
  type AllocId = string

  datatype Kind = DepositFor | Topup | Teardown
  datatype RecordState = Pending | Confirmed

  /** The hash at allocation:{id}. */
  datatype Record = Record(agent: AgentId, amount: nat, kind: Kind, state: RecordState)

  /** One organization's keys: its two budget counters, and per agent the two float counters and the index of pending ids. */
  datatype Hot = Hot(committed: int, reserved: int, pending: map<AgentId, int>, confirmed: map<AgentId, int>,
                     records: map<AllocId, Record>, index: map<AgentId, set<AllocId>>)

  function Count(m: map<AgentId, int>, a: AgentId): int { if a in m then m[a] else 0 }

  function Bump(m: map<AgentId, int>, a: AgentId, change: int): map<AgentId, int> { m[a := Count(m, a) + change] }

  function IndexOf(h: Hot, a: AgentId): set<AllocId> { if a in h.index then h.index[a] else {} }

  predicate IsPending(h: Hot, id: AllocId) { id in h.records && h.records[id].state.Pending? }

  // ---- The scripts -----------------------------------------------------------------------

  datatype Reserve = ReserveTaken | OverBudget | Unfunded

  /** allocation-reserve.lua: the policy budget is compared first, the deposited balance second. */
  function ReserveScript(h: Hot, total: int, requested: nat, funded: int): (Hot, Reserve) {
    if requested > total - h.committed - h.reserved then (h, OverBudget)
    else if requested > funded - h.committed - h.reserved then (h, Unfunded)
    else (h.(reserved := h.reserved + requested), ReserveTaken)
  }

  /** confirm-allocation.lua */
  function ConfirmScript(h: Hot, id: AllocId, a: AgentId, amount: nat): (Hot, bool) {
    if !IsPending(h, id) then (h, false)
    else (Hot(h.committed + amount, h.reserved - amount, Bump(h.pending, a, 0 - amount), Bump(h.confirmed, a, amount),
              h.records[id := h.records[id].(state := Confirmed)], h.index), true)
  }

  /** cancel-allocation.lua */
  function CancelScript(h: Hot, id: AllocId, a: AgentId, amount: nat): (Hot, bool) {
    if !IsPending(h, id) then (h, false)
    else (Hot(h.committed, h.reserved - amount, Bump(h.pending, a, 0 - amount), h.confirmed,
              h.records - {id}, h.index[a := IndexOf(h, a) - {id}]), true)
  }

  function Deindex(h: Hot, a: AgentId, id: AllocId): Hot { h.(index := h.index[a := IndexOf(h, a) - {id}]) }

  /** The reserve keeps both ceilings: what is promised never exceeds the budget nor the deposits. */
  lemma ReserveIsSolvent(h: Hot, total: int, requested: nat, funded: int)
    ensures var r := ReserveScript(h, total, requested, funded);
            && (r.1.ReserveTaken? ==> r.0.committed + r.0.reserved <= total && r.0.committed + r.0.reserved <= funded)
            && (r.1.ReserveTaken? <==> h.committed + h.reserved + requested <= total && h.committed + h.reserved + requested <= funded)
            && (r.1.OverBudget? <==> h.committed + h.reserved + requested > total)
  {
  }

  // ---- The cold ledger ---------------------------------------------------------------------

  datatype Account = TreasuryAccount | AgentFloat
  datatype Direction = Debit | Credit

  /** One row of allocation_events. */
  datatype Row = Row(id: AllocId, kind: Kind, account: Account, direction: Direction, amount: nat, agent: AgentId)

  /** The pair that recordAllocation inserts; a teardown flows the other way. */
  function PairOf(id: AllocId, kind: Kind, amount: nat, agent: AgentId): seq<Row> {
    var leaves := !kind.Teardown?;
    [Row(id, kind, if leaves then TreasuryAccount else AgentFloat, Debit, amount, agent),
     Row(id, kind, if leaves then AgentFloat else TreasuryAccount, Credit, amount, agent)]
  }

  function Signed(r: Row): int { if r.direction.Credit? then r.amount else 0 - r.amount }

  /** Credits minus debits of one account of one agent. */
  ghost function Net(rows: seq<Row>, account: Account, a: AgentId): int {
    if rows == [] then 0
    else Net(rows[..|rows| - 1], account, a) + (var r := rows[|rows| - 1]; if r.account == account && r.agent == a then Signed(r) else 0)
  }

  /** Credits minus debits of one allocation id, over all accounts. */
  ghost function NetOfId(rows: seq<Row>, id: AllocId): int {
    if rows == [] then 0
    else NetOfId(rows[..|rows| - 1], id) + (var r := rows[|rows| - 1]; if r.id == id then Signed(r) else 0)
  }

  ghost predicate DoubleEntry(rows: seq<Row>) { forall id :: NetOfId(rows, id) == 0 }

  /** Recording an allocation keeps every id in balance and moves the agent's float by the amount, in the direction of the kind. */
  lemma {:induction false} RecordedPair(rows: seq<Row>, id: AllocId, kind: Kind, amount: nat, agent: AgentId)
    ensures var after := rows + PairOf(id, kind, amount, agent);
            && (DoubleEntry(rows) ==> DoubleEntry(after))
            && (forall a :: Net(after, AgentFloat, a) == Net(rows, AgentFloat, a) + (if a != agent then 0 else if kind.Teardown? then 0 - amount else amount))
            && (forall a :: Net(after, AgentFloat, a) + Net(after, TreasuryAccount, a) == Net(rows, AgentFloat, a) + Net(rows, TreasuryAccount, a))
  {
    var pair := PairOf(id, kind, amount, agent);
    var first, after := rows + [pair[0]], rows + pair;
    assert first[..|rows|] == rows && after[..|first|] == first;
    assert after[|after| - 1] == pair[1] && first[|first| - 1] == pair[0];
    assert forall i :: NetOfId(after, i) == NetOfId(rows, i) by {
      assert forall i :: NetOfId(first, i) == NetOfId(rows, i) + if i == id then Signed(pair[0]) else 0;
    }
    assert forall a, acc :: Net(first, acc, a) == Net(rows, acc, a) + if acc == pair[0].account && a == agent then 0 - amount else 0;
    assert forall a, acc :: Net(after, acc, a) == Net(first, acc, a) + if acc == pair[1].account && a == agent then amount else 0;
  }

  // ---- Finality, and what one confirm or one sweep does ---------------------------------------

  datatype Finality = Final | NotFinal | Unreadable
  datatype ConfirmResult = CONFIRMED | PENDING | NOOP

  datatype Store = Store(hot: Hot, cold: seq<Row>)

  /** confirmDeposit, run without interruption. */
  function ConfirmSpec(s: Store, id: AllocId, seen: Finality): (Store, ConfirmResult) {
    if !IsPending(s.hot, id) then (s, NOOP)
    else if !seen.Final? then (s, PENDING)
    else
      var r := s.hot.records[id];
      var h := Deindex(ConfirmScript(s.hot, id, r.agent, r.amount).0, r.agent, id);
      (Store(h.(records := h.records - {id}), s.cold + PairOf(id, r.kind, r.amount, r.agent)), CONFIRMED)
  }

  /** One turn of the teardown loop; the flag says whether this call resolved the deposit. */
  function SweepSpec(s: Store, a: AgentId, id: AllocId, seen: Finality): (Store, bool) {
    if !IsPending(s.hot, id) then (s.(hot := Deindex(s.hot, a, id)), false)
    else
      var c := ConfirmSpec(s, id, seen);
      if !c.1.PENDING? then (c.0, c.1.CONFIRMED?)
      else (s.(hot := CancelScript(s.hot, id, a, s.hot.records[id].amount).0), true)
  }

  function PendingAmount(h: Hot): AllocId -> int { id => if IsPending(h, id) then h.records[id].amount else 0 }

  /** The gateway's answer about a deposit; one that never arrives reads as unreadable. */
  function FinalityOf(seen: map<AllocId, Finality>, id: AllocId): Finality { if id in seen then seen[id] else Unreadable }

  function PromotedAmount(h: Hot, seen: map<AllocId, Finality>): AllocId -> int {
    id => if IsPending(h, id) && FinalityOf(seen, id).Final? then h.records[id].amount else 0
  }

  function PendingCount(h: Hot): AllocId -> int { id => if IsPending(h, id) then 1 else 0 }

  /** Ids in an agent's index are that agent's own deposits or top-ups. */
  predicate OwnIndex(h: Hot, a: AgentId) {
    forall id :: id in IndexOf(h, a) && IsPending(h, id) ==> h.records[id].agent == a && !h.records[id].kind.Teardown?
  }

  /** Everything that is not agent a's is as before. */
  ghost predicate OthersUntouched(h: Hot, g: Hot, a: AgentId) {
    forall b :: b != a ==> Count(g.pending, b) == Count(h.pending, b) && Count(g.confirmed, b) == Count(h.confirmed, b) && IndexOf(g, b) == IndexOf(h, b)
  }

  /** What one turn of the sweep does to every figure that teardown is about. */
  ghost predicate SweptOne(s: Store, u: Store, a: AgentId, id: AllocId, final: bool) {
    var amount := PendingAmount(s.hot)(id);
    var promoted := if final then amount else 0;
    && IndexOf(u.hot, a) == IndexOf(s.hot, a) - {id}
    && Count(u.hot.pending, a) == Count(s.hot.pending, a) - amount
    && Count(u.hot.confirmed, a) == Count(s.hot.confirmed, a) + promoted
    && u.hot.reserved == s.hot.reserved - amount
    && u.hot.committed == s.hot.committed + promoted
    && Net(u.cold, AgentFloat, a) == Net(s.cold, AgentFloat, a) + promoted
    && (DoubleEntry(s.cold) ==> DoubleEntry(u.cold))
    && OthersUntouched(s.hot, u.hot, a)
    && !IsPending(u.hot, id)
    && (forall x :: x != id ==> (x in u.hot.records <==> x in s.hot.records) && (x in s.hot.records ==> u.hot.records[x] == s.hot.records[x]))
  }

  lemma SweepSweepsOne(s: Store, a: AgentId, id: AllocId, seen: Finality)
    requires OwnIndex(s.hot, a) && id in IndexOf(s.hot, a)
    ensures var r := SweepSpec(s, a, id, seen); SweptOne(s, r.0, a, id, seen.Final?) && r.1 == IsPending(s.hot, id)
  {
    if IsPending(s.hot, id) {
      var r := s.hot.records[id];
      RecordedPair(s.cold, id, r.kind, r.amount, a);
    }
  }

  /** The figures after the ids in `done` were swept. */
  ghost predicate SweptSoFar(s: Store, u: Store, a: AgentId, seen: map<AllocId, Finality>, done: set<AllocId>) {
    && Count(u.hot.pending, a) == Count(s.hot.pending, a) - SumOver(done, PendingAmount(s.hot))
    && Count(u.hot.confirmed, a) == Count(s.hot.confirmed, a) + SumOver(done, PromotedAmount(s.hot, seen))
    && u.hot.reserved == s.hot.reserved - SumOver(done, PendingAmount(s.hot))
    && u.hot.committed == s.hot.committed + SumOver(done, PromotedAmount(s.hot, seen))
    && Net(u.cold, AgentFloat, a) == Net(s.cold, AgentFloat, a) + SumOver(done, PromotedAmount(s.hot, seen))
    && (DoubleEntry(s.cold) ==> DoubleEntry(u.cold))
    && OthersUntouched(s.hot, u.hot, a)
    && (forall id :: id in done ==> !IsPending(u.hot, id))
    && (forall x :: x !in done ==> (x in u.hot.records <==> x in s.hot.records) && (x in s.hot.records ==> u.hot.records[x] == s.hot.records[x]))
  }

  lemma {:induction false} SweepAdds(s: Store, t: Store, a: AgentId, seen: map<AllocId, Finality>, done: set<AllocId>, id: AllocId)
    requires SweptSoFar(s, t, a, seen, done) && id !in done
    ensures SumOver(done + {id}, PendingAmount(s.hot)) == SumOver(done, PendingAmount(s.hot)) + PendingAmount(t.hot)(id)
    ensures SumOver(done + {id}, PromotedAmount(s.hot, seen))
         == SumOver(done, PromotedAmount(s.hot, seen)) + if FinalityOf(seen, id).Final? then PendingAmount(t.hot)(id) else 0
  {
    SumInsert(done, PendingAmount(s.hot), id);
    SumInsert(done, PromotedAmount(s.hot, seen), id);
    assert IsPending(t.hot, id) == IsPending(s.hot, id);
  }

  lemma SweepExtends(s: Store, t: Store, u: Store, a: AgentId, seen: map<AllocId, Finality>, done: set<AllocId>, id: AllocId)
    requires SweptSoFar(s, t, a, seen, done) && id !in done
    requires SweptOne(t, u, a, id, FinalityOf(seen, id).Final?)
    ensures SweptSoFar(s, u, a, seen, done + {id})
  {
    SweepAdds(s, t, a, seen, done, id);
  }

  /** One turn of the loop, seen from the beginning of the sweep. */
  lemma {:induction false} TurnSweepsOne(s: Store, t: Store, a: AgentId, seen: map<AllocId, Finality>, ids: set<AllocId>, todo: set<AllocId>, id: AllocId)
    requires OwnIndex(s.hot, a) && ids == IndexOf(s.hot, a) && todo <= ids && id in todo
    requires SweptSoFar(s, t, a, seen, ids - todo) && IndexOf(t.hot, a) == todo
    ensures var r := SweepSpec(t, a, id, FinalityOf(seen, id));
            && SweptSoFar(s, r.0, a, seen, ids - (todo - {id})) && IndexOf(r.0.hot, a) == todo - {id}
            && SumOver(ids - (todo - {id}), PendingCount(s.hot)) == SumOver(ids - todo, PendingCount(s.hot)) + if r.1 then 1 else 0
  {
    var done := ids - todo;
    assert ids - (todo - {id}) == done + {id};
    assert OwnIndex(t.hot, a) && IsPending(t.hot, id) == IsPending(s.hot, id);
    SweepSweepsOne(t, a, id, FinalityOf(seen, id));
    SweepExtends(s, t, SweepSpec(t, a, id, FinalityOf(seen, id)).0, a, seen, done, id);
    SumInsert(done, PendingCount(s.hot), id);
  }

  lemma NothingSwept(s: Store, a: AgentId, seen: map<AllocId, Finality>)
    ensures SweptSoFar(s, s, a, seen, {})
  {
  }

  /** What a teardown without interleaving does: the index and the confirmed float empty, and every figure by how much. */
  ghost predicate TornDown(s: Store, u: Store, a: AgentId, seen: map<AllocId, Finality>, sweptPending: int, withdrawn: int) {
    var h, ids := s.hot, IndexOf(s.hot, a);
    && IndexOf(u.hot, a) == {} && Count(u.hot.confirmed, a) == 0
    && (forall x :: x in ids ==> !IsPending(u.hot, x))
    && Count(u.hot.pending, a) == Count(h.pending, a) - SumOver(ids, PendingAmount(h))
    && u.hot.reserved == h.reserved - SumOver(ids, PendingAmount(h))
    && withdrawn == Count(h.confirmed, a) + SumOver(ids, PromotedAmount(h, seen))
    && u.hot.committed == h.committed - Count(h.confirmed, a)
    && sweptPending == SumOver(ids, PendingCount(h))
    && OthersUntouched(h, u.hot, a)
    && Net(u.cold, AgentFloat, a) == Net(s.cold, AgentFloat, a) - Count(h.confirmed, a)
    && (DoubleEntry(s.cold) ==> DoubleEntry(u.cold))
  }

  /** After the sweep, taking the confirmed float home completes the teardown. */
  lemma TakenHome(s: Store, t: Store, u: Store, a: AgentId, seen: map<AllocId, Finality>, sweptPending: int, balance: int, id: AllocId)
    requires SweptSoFar(s, t, a, seen, IndexOf(s.hot, a)) && IndexOf(t.hot, a) == {}
    requires sweptPending == SumOver(IndexOf(s.hot, a), PendingCount(s.hot)) && balance == Count(t.hot.confirmed, a) >= 0
    requires u == if balance == 0 then t
                  else Store(t.hot.(confirmed := Bump(t.hot.confirmed, a, 0 - balance), committed := t.hot.committed - balance), t.cold + PairOf(id, Teardown, balance, a))
    ensures TornDown(s, u, a, seen, sweptPending, balance)
  {
    if balance > 0 { RecordedPair(t.cold, id, Teardown, balance, a); }
  }

  // ---- The calls ----------------------------------------------------------------------------------

  datatype Policy = Policy(perAgentMax: nat, allowedDestinations: set<string>, cooldownSeconds: int, totalBudget: int)

  datatype Verdict = Allowed | OrgSuspended | AllocationExceeded | ServiceNotAllowed | CoolingDown | TreasuryInsufficientFunds

  predicate IsCoolingDown(policy: Policy, since: Option<int>) {
    policy.cooldownSeconds > 0 && since.Some? && since.value < policy.cooldownSeconds
  }

  predicate PassesRules(requested: nat, destination: string, since: Option<int>, policy: Policy) {
    requested <= policy.perAgentMax && destination in policy.allowedDestinations && !IsCoolingDown(policy, since)
  }

  datatype DepositOutcome = Submitted | Denied(reason: Verdict) | SubmitFailed | FundingFailed

  class Provisioning {
    var denyAll: bool
    var committed: int
    var reserved: int
    var pending: map<AgentId, int>
    var confirmed: map<AgentId, int>
    var records: map<AllocId, Record>
    var index: map<AgentId, set<AllocId>>
    var cold: seq<Row>

    ghost function Now(): Store
      reads this
    {
      Store(Hot(committed, reserved, pending, confirmed, records, index), cold)
    }

    constructor ()
      ensures !denyAll && Now() == Store(Hot(0, 0, map[], map[], map[], map[]), [])
    {
      denyAll, committed, reserved, pending, confirmed, records, index, cold := false, 0, 0, map[], map[], map[], map[], [];
    }

    /** An allocation that may be reserved: the org is not stopped, the policy allows it, and both ceilings have room. */
    predicate MayAllocate(requested: nat, destination: string, since: Option<int>, policy: Policy, funded: int)
      reads this
    {
      !denyAll && PassesRules(requested, destination, since, policy)
      && committed + reserved + requested <= policy.totalBudget && committed + reserved + requested <= funded
    }

    method ReserveAllocation(total: int, requested: nat, funded: int) returns (r: int)
      modifies this`reserved
      ensures Now() == old(Now()).(hot := ReserveScript(old(Now()).hot, total, requested, funded).0)
      ensures r == match ReserveScript(old(Now()).hot, total, requested, funded).1 case ReserveTaken => 1 case OverBudget => 0 case Unfunded => -1
    {
      var available := total - committed - reserved;
      if requested > available { return 0; }
      var fundedAvailable := funded - committed - reserved;
      if requested > fundedAvailable { return -1; }
      reserved := reserved + requested;
      r := 1;
    }

    /** The deny reasons in their order; the atomic reserve is the last gate. */
    method EvaluateAllocation(requested: nat, destination: string, since: Option<int>, policy: Policy, funded: int) returns (v: Verdict)
      modifies this`reserved
      ensures v.Allowed? <==> old(MayAllocate(requested, destination, since, policy, funded))
      ensures v.Allowed? <==>
        (!denyAll && requested <= policy.perAgentMax && destination in policy.allowedDestinations
         && (policy.cooldownSeconds <= 0 || since.None? || since.value >= policy.cooldownSeconds)
         && committed + old(reserved) + requested <= policy.totalBudget && committed + old(reserved) + requested <= funded)
      ensures v.OrgSuspended? <==> denyAll
      ensures v.AllocationExceeded? <==>
        !denyAll && (requested > policy.perAgentMax || (PassesRules(requested, destination, since, policy) && committed + old(reserved) + requested > policy.totalBudget))
      ensures v.ServiceNotAllowed? <==> !denyAll && requested <= policy.perAgentMax && destination !in policy.allowedDestinations
      ensures v.CoolingDown? <==>
        (!denyAll && requested <= policy.perAgentMax && destination in policy.allowedDestinations
         && policy.cooldownSeconds > 0 && since.Some? && since.value < policy.cooldownSeconds)
      ensures v.TreasuryInsufficientFunds? <==>
        (!denyAll && PassesRules(requested, destination, since, policy)
         && committed + old(reserved) + requested <= policy.totalBudget && committed + old(reserved) + requested > funded)
      ensures reserved == if v.Allowed? then old(reserved) + requested else old(reserved)
    {
      if denyAll { return OrgSuspended; }
      if requested > policy.perAgentMax { return AllocationExceeded; }
      if destination !in policy.allowedDestinations { return ServiceNotAllowed; }
      if policy.cooldownSeconds > 0 && since.Some? && since.value < policy.cooldownSeconds { return CoolingDown; }
      var taken := ReserveAllocation(policy.totalBudget, requested, funded);
      if taken == -1 { return TreasuryInsufficientFunds; }
      if taken != 1 { return AllocationExceeded; }
      v := Allowed;
    }

    /** A deposit that is not submitted leaves every counter as it was; a submitted one is pending, indexed and still reserved. */
    method DepositFor(id: AllocId, a: AgentId, amount: nat, kind: Kind, destination: string, since: Option<int>, policy: Policy, funded: int,
                      submitted: bool, fundedOnChain: Option<bool>) returns (outcome: DepositOutcome)
      modifies this`reserved, this`pending, this`records, this`index
      ensures !outcome.Submitted? ==> Now() == old(Now())
      ensures outcome.Submitted? ==> Now().hot == Hot(committed, old(reserved) + amount, Bump(old(pending), a, amount), confirmed,
                                                     old(records)[id := Record(a, amount, kind, Pending)],
                                                     old(index)[a := IndexOf(old(Now()).hot, a) + {id}])
      ensures outcome.Submitted? ==> committed + reserved <= policy.totalBudget && committed + reserved <= funded && amount <= policy.perAgentMax
      ensures outcome.Denied? <==> !old(MayAllocate(amount, destination, since, policy, funded))
      ensures outcome.SubmitFailed? <==> old(MayAllocate(amount, destination, since, policy, funded)) && !submitted
      ensures outcome.FundingFailed? <==> old(MayAllocate(amount, destination, since, policy, funded)) && submitted && fundedOnChain == Some(false)
    {
      var v := EvaluateAllocation(amount, destination, since, policy, funded);
      if !v.Allowed? { return Denied(v); }
      if !submitted {
        reserved := reserved - amount;
        return SubmitFailed;
      }
      if fundedOnChain == Some(false) {
        reserved := reserved - amount;
        return FundingFailed;
      }
      pending := Bump(pending, a, amount);
      records := records[id := Record(a, amount, kind, Pending)];
      index := index[a := (if a in index then index[a] else {}) + {id}];
      outcome := Submitted;
    }

    method ConfirmAllocation(id: AllocId, a: AgentId, amount: nat) returns (won: bool)
      modifies this`committed, this`reserved, this`pending, this`confirmed, this`records
      ensures (Now().hot, won) == ConfirmScript(old(Now()).hot, id, a, amount)
    {
      if id !in records || !records[id].state.Pending? { return false; }
      records := records[id := records[id].(state := Confirmed)];
      pending := Bump(pending, a, 0 - amount);
      confirmed := Bump(confirmed, a, amount);
      reserved := reserved - amount;
      committed := committed + amount;
      won := true;
    }

    method CancelAllocation(id: AllocId, a: AgentId, amount: nat) returns (won: bool)
      modifies this`reserved, this`pending, this`records, this`index
      ensures (Now().hot, won) == CancelScript(old(Now()).hot, id, a, amount)
    {
      if id !in records || !records[id].state.Pending? { return false; }
      pending := Bump(pending, a, 0 - amount);
      reserved := reserved - amount;
      index := index[a := (if a in index then index[a] else {}) - {id}];
      records := records - {id};
      won := true;
    }

    method RecordAllocation(id: AllocId, kind: Kind, amount: nat, a: AgentId)
      modifies this`cold
      ensures cold == old(cold) + PairOf(id, kind, amount, a)
    {
      var debitAccount := if kind.Teardown? then AgentFloat else TreasuryAccount;
      var creditAccount := if kind.Teardown? then TreasuryAccount else AgentFloat;
      cold := cold + [Row(id, kind, debitAccount, Debit, amount, a), Row(id, kind, creditAccount, Credit, amount, a)];
    }

    method ConfirmDeposit(id: AllocId, seen: Finality) returns (r: ConfirmResult)
      modifies this`committed, this`reserved, this`pending, this`confirmed, this`records, this`index, this`cold
      ensures (Now(), r) == ConfirmSpec(old(Now()), id, seen)
    {
      if id !in records || !records[id].state.Pending? { return NOOP; }
      var rec := records[id];
      if !seen.Final? { return PENDING; }
      var won := ConfirmAllocation(id, rec.agent, rec.amount);
      if !won { return NOOP; }
      index := index[rec.agent := (if rec.agent in index then index[rec.agent] else {}) - {id}];
      RecordAllocation(id, rec.kind, rec.amount, rec.agent);
      records := records - {id};
      r := CONFIRMED;
    }

    /** One turn of the teardown loop. */
    method SweepPending(a: AgentId, id: AllocId, seen: Finality) returns (resolved: bool)
      modifies this`committed, this`reserved, this`pending, this`confirmed, this`records, this`index, this`cold
      ensures (Now(), resolved) == SweepSpec(old(Now()), a, id, seen)
    {
      if id !in records || !records[id].state.Pending? {
        index := index[a := (if a in index then index[a] else {}) - {id}];
        return false;
      }
      var amount := records[id].amount;
      var result := ConfirmDeposit(id, seen);
      if !result.PENDING? { return result.CONFIRMED?; }
      resolved := CancelAllocation(id, a, amount);
    }

    /** The loop over the agent's index; every figure moves by the sum over the ids that were listed. */
    method SweepIndex(a: AgentId, seen: map<AllocId, Finality>) returns (sweptPending: nat)
      requires OwnIndex(Now().hot, a)
      modifies this`committed, this`reserved, this`pending, this`confirmed, this`records, this`index, this`cold
      ensures SweptSoFar(old(Now()), Now(), a, seen, IndexOf(old(Now()).hot, a)) && IndexOf(Now().hot, a) == {}
      ensures sweptPending == SumOver(IndexOf(old(Now()).hot, a), PendingCount(old(Now()).hot))
    {
      ghost var was, ids := Now(), IndexOf(Now().hot, a);
      var todo := if a in index then index[a] else {};
      sweptPending := 0;
      NothingSwept(was, a, seen);
      while todo != {}
        invariant todo <= ids && IndexOf(Now().hot, a) == todo
        invariant SweptSoFar(was, Now(), a, seen, ids - todo)
        invariant sweptPending == SumOver(ids - todo, PendingCount(was.hot))
      {
        var id :| id in todo;
        TurnSweepsOne(was, Now(), a, seen, ids, todo, id);
        var resolved := SweepPending(a, id, FinalityOf(seen, id));
        if resolved { sweptPending := sweptPending + 1; }
        todo := todo - {id};
      }
      assert ids - todo == ids;
    }

    /**
     * Teardown strands nothing: run without interleaving, for any finality answers, it empties the index, brings the
     * confirmed float back to zero and returns exactly it plus what the sweep promoted.
     */
    method TeardownAgent(a: AgentId, seen: map<AllocId, Finality>, id: AllocId) returns (sweptPending: nat, withdrawn: nat)
      requires OwnIndex(Now().hot, a) && Count(confirmed, a) >= 0
      modifies this`committed, this`reserved, this`pending, this`confirmed, this`records, this`index, this`cold
      ensures TornDown(old(Now()), Now(), a, seen, sweptPending, withdrawn)
    {
      ghost var h, ids := Now().hot, IndexOf(Now().hot, a);
      SumNonNegative(ids, PromotedAmount(h, seen));
      sweptPending := SweepIndex(a, seen);
      ghost var swept := Now();
      var balance := Count(confirmed, a);
      withdrawn := 0;
      if balance > 0 {
        confirmed := Bump(confirmed, a, 0 - balance);
        committed := committed - balance;
        RecordAllocation(id, Teardown, balance, a);
        withdrawn := balance;
      }
      TakenHome(old(Now()), swept, Now(), a, seen, sweptPending, balance, id);
    }
  }
}
