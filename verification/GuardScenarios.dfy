// Particular runs of the guard protocol: an undisturbed authorize call, and two runs that show
// how far a revoke reaches.
module GuardScenarios {
  import opened Options
  import opened HoldLedger
  import opened T = GuardTables
  import opened GuardProtocol
  import opened GuardRuns
  import opened GuardTheorems

  lemma {:induction false} AfterOne(w: World, act: Action)
    ensures After(w, [act]) == Next(w, act)
  {
  }

  lemma {:induction false} AfterBoth(w: World, first: seq<Action>, second: seq<Action>)
    ensures After(w, first + second) == After(After(w, first), second)
  {
    if second == [] {
      assert first + second == first;
    } else {
      var n := |second| - 1;
      assert (first + second)[..|first + second| - 1] == first + second[..n];
      AfterBoth(w, first, second[..n]);
    }
  }

  /** A run that is extended by one action. */
  lemma {:induction false} Extend(w: World, acts: seq<Action>, act: Action, u: World, v: World)
    requires After(w, acts) == u && Next(u, act) == v
    ensures After(w, acts + [act]) == v
  {
  }

  // ---- An authorize call that nothing disturbs -----------------------------------------------------

  /** No decision has this organization and key. */
  predicate KeyIsNew(t: Tables, o: OrgId, k: Key) {
    forall e :: e in t.decisions ==> !(t.decisions[e].org == o && t.decisions[e].key == k)
  }

  /** The agent's policy has room for the payment, and its float covers it. */
  ghost predicate HasRoom(w: World, d: DecisionId, q: Params, backing: Backing) {
    MayReserve(LedgerOf(w, q.agent), d, q.amount, q.at, LimitsOf(w, q.agent).spendCap, LimitsOf(w, q.agent).velocity, backing)
  }

  /** Nothing stands in the way of a call: its key is new, nobody is stopped, and the policy has room. */
  ghost predicate Clear(w: World, d: DecisionId, q: Params, backing: Backing) {
    && d !in w.auths && KeyIsNew(w.tables, q.org, q.key) && (q.org, q.key) !in w.locks && q.org !in w.denyAll
    && (q.agent in w.tables.agents && w.tables.agents[q.agent].org == q.org ==> !w.tables.agents[q.agent].suspended)
    && HasRoom(w, d, q, backing)
  }

  /** The call stands at `at`, and of everything else only the lock is taken. */
  function Admitted(w: World, d: DecisionId, q: Params, at: Point): World {
    w.(auths := w.auths[d := Auth(q, at, true)], locks := w.locks[(q.org, q.key) := d])
  }

  /** As before, with the Redis hold taken. */
  function Held(w: World, d: DecisionId, q: Params, at: Point): World {
    Admitted(w, d, q, at).(ledgers := w.ledgers[q.agent := LedgerOf(w, q.agent)[d := Hold(q.amount, q.at, Phase.Held)]])
  }

  /** As before, with the row and its Postgres hold inserted. */
  function Booked(w: World, d: DecisionId, q: Params, at: Point): World {
    Held(w, d, q, at).(tables := Tables(w.tables.decisions[d := RowOf(q, true)], w.tables.holds[d := HoldReserved], w.tables.agents))
  }

  function Signed(w: World, d: DecisionId, q: Params): World {
    Booked(w, d, q, MarkDue).(signerCalls := w.signerCalls + [d])
  }

  function Quiet(d: DecisionId): Action { AuthStep(d, Proceed) }

  lemma AcquireApplies(u: World, v: World, d: DecisionId)
    requires d in u.auths && u.auths[d].alive && u.auths[d].at.LockDue? && v == ApplyAcquire(u, d)
    ensures Next(u, Quiet(d)) == v
  {
  }

  lemma ReserveApplies(u: World, v: World, d: DecisionId, backing: Backing)
    requires d in u.auths && u.auths[d].alive && u.auths[d].at.ReserveDue? && v == ApplyReserve(u, d, backing)
    ensures Next(u, AuthStep(d, Backed(backing))) == v
  {
  }

  lemma InsertApplies(u: World, v: World, d: DecisionId)
    requires d in u.auths && u.auths[d].alive && u.auths[d].at.InsertDue? && v == ApplyInsert(u, d, false)
    ensures Next(u, Quiet(d)) == v
  {
  }

  lemma SignApplies(u: World, v: World, d: DecisionId)
    requires d in u.auths && u.auths[d].alive && u.auths[d].at.SignDue? && v == MoveTo(u.(signerCalls := u.signerCalls + [d]), d, MarkDue)
    ensures Next(u, Quiet(d)) == v
  {
  }

  lemma LockTaken(w: World, u: World, d: DecisionId, q: Params)
    requires u == w.(auths := w.auths[d := Auth(q, LockDue, true)]) && (q.org, q.key) !in w.locks
    ensures ApplyAcquire(u, d) == Admitted(w, d, q, ReplayDue)
  {
  }

  lemma Begins(w: World, d: DecisionId, q: Params, backing: Backing)
    requires Clear(w, d, q, backing)
    ensures var u := w.(auths := w.auths[d := Auth(q, LockDue, true)]);
            Next(w, Begin(d, q)) == u && Next(u, Quiet(d)) == Admitted(w, d, q, ReplayDue)
  {
    var u := w.(auths := w.auths[d := Auth(q, LockDue, true)]);
    LockTaken(w, u, d, q);
    AcquireApplies(u, Admitted(w, d, q, ReplayDue), d);
  }

  lemma Replays(w: World, d: DecisionId, q: Params, backing: Backing)
    requires Clear(w, d, q, backing)
    ensures Next(Admitted(w, d, q, ReplayDue), Quiet(d)) == Admitted(w, d, q, PolicyDue)
  {
  }

  lemma Evaluates(w: World, d: DecisionId, q: Params, backing: Backing)
    requires Clear(w, d, q, backing)
    ensures Next(Admitted(w, d, q, PolicyDue), Quiet(d)) == Admitted(w, d, q, ReserveDue)
  {
  }

  lemma ReservedHold(w: World, d: DecisionId, q: Params, backing: Backing)
    requires PolicyOutcome(LedgerOf(w, q.agent), d, q.amount, q.at, LimitsOf(w, q.agent).spendCap, LimitsOf(w, q.agent).velocity, backing).Reserved?
    ensures ApplyReserve(Admitted(w, d, q, ReserveDue), d, backing) == Held(w, d, q, InsertDue)
  {
    var u, v := Admitted(w, d, q, ReserveDue), Held(w, d, q, InsertDue);
    assert LedgerOf(u, q.agent) == LedgerOf(w, q.agent) && LimitsOf(u, q.agent) == LimitsOf(w, q.agent);
    assert u.auths[d := Auth(q, InsertDue, true)] == v.auths;
    assert v == MoveTo(u.(ledgers := v.ledgers), d, InsertDue);
  }

  lemma Reserves(w: World, d: DecisionId, q: Params, backing: Backing)
    requires HasRoom(w, d, q, backing)
    ensures Next(Admitted(w, d, q, ReserveDue), AuthStep(d, Backed(backing))) == Held(w, d, q, InsertDue)
  {
    ReserveAnswers(LedgerOf(w, q.agent), d, q.amount, q.at, LimitsOf(w, q.agent).spendCap, LimitsOf(w, q.agent).velocity, backing);
    ReservedHold(w, d, q, backing);
    ReserveApplies(Admitted(w, d, q, ReserveDue), Held(w, d, q, InsertDue), d, backing);
  }

  lemma KeyIsFree(w: World, d: DecisionId, q: Params, backing: Backing)
    requires Owned(w) && Clear(w, d, q, backing)
    ensures InsertDecisionAndHold(w.tables, d, RowOf(q, true)) == (Booked(w, d, q, OrgCheckDue).tables, true)
  {
  }

  lemma InsertMoves(u: World, d: DecisionId, t: Tables)
    requires d in u.auths && InsertDecisionAndHold(u.tables, d, RowOf(u.auths[d].params, true)) == (t, true)
    ensures ApplyInsert(u, d, false) == MoveTo(u.(tables := t), d, OrgCheckDue)
  {
  }

  lemma BookedIsMoved(w: World, d: DecisionId, q: Params)
    ensures var u, v := Held(w, d, q, InsertDue), Booked(w, d, q, OrgCheckDue);
            u.tables == w.tables && u.auths[d].params == q && v == MoveTo(u.(tables := v.tables), d, OrgCheckDue)
  {
  }

  lemma Inserted(w: World, d: DecisionId, q: Params, backing: Backing)
    requires Owned(w) && Clear(w, d, q, backing)
    ensures ApplyInsert(Held(w, d, q, InsertDue), d, false) == Booked(w, d, q, OrgCheckDue)
  {
    KeyIsFree(w, d, q, backing);
    BookedIsMoved(w, d, q);
    InsertMoves(Held(w, d, q, InsertDue), d, Booked(w, d, q, OrgCheckDue).tables);
  }

  lemma Inserts(w: World, d: DecisionId, q: Params, backing: Backing)
    requires Owned(w) && Clear(w, d, q, backing)
    ensures Next(Held(w, d, q, InsertDue), Quiet(d)) == Booked(w, d, q, OrgCheckDue)
  {
    Inserted(w, d, q, backing);
    InsertApplies(Held(w, d, q, InsertDue), Booked(w, d, q, OrgCheckDue), d);
  }

  lemma PassesOrgCheck(w: World, d: DecisionId)
    requires d in w.auths && w.auths[d].alive && w.auths[d].at.OrgCheckDue? && w.auths[d].params.org !in w.denyAll
    ensures Next(w, Quiet(d)) == MoveTo(w, d, AgentCheckDue)
  {
  }

  lemma PassesAgentCheck(w: World, d: DecisionId)
    requires d in w.auths && w.auths[d].alive && w.auths[d].at.AgentCheckDue? && !IsSuspended(w.tables, w.auths[d].params.agent, w.auths[d].params.org)
    ensures Next(w, Quiet(d)) == MoveTo(w, d, SignDue)
  {
  }

  lemma BookedMoves(w: World, d: DecisionId, q: Params, at: Point, to: Point)
    ensures d in Booked(w, d, q, at).auths && MoveTo(Booked(w, d, q, at), d, to) == Booked(w, d, q, to)
  {
  }

  lemma ChecksOrg(w: World, d: DecisionId, q: Params, backing: Backing)
    requires Clear(w, d, q, backing)
    ensures Next(Booked(w, d, q, OrgCheckDue), Quiet(d)) == Booked(w, d, q, AgentCheckDue)
  {
    PassesOrgCheck(Booked(w, d, q, OrgCheckDue), d);
    BookedMoves(w, d, q, OrgCheckDue, AgentCheckDue);
  }

  lemma ChecksAgent(w: World, d: DecisionId, q: Params, backing: Backing)
    requires Clear(w, d, q, backing)
    ensures Next(Booked(w, d, q, AgentCheckDue), Quiet(d)) == Booked(w, d, q, SignDue)
  {
    PassesAgentCheck(Booked(w, d, q, AgentCheckDue), d);
    BookedMoves(w, d, q, AgentCheckDue, SignDue);
  }

  lemma CallsSigner(w: World, d: DecisionId, q: Params)
    ensures Next(Booked(w, d, q, SignDue), Quiet(d)) == Signed(w, d, q)
  {
    SignApplies(Booked(w, d, q, SignDue), Signed(w, d, q), d);
  }

  function Admission(d: DecisionId, q: Params): seq<Action> { [Begin(d, q)] + [Quiet(d)] + [Quiet(d)] + [Quiet(d)] }

  function Booking(d: DecisionId, q: Params, backing: Backing): seq<Action> {
    Admission(d, q) + [AuthStep(d, Backed(backing))] + [Quiet(d)]
  }

  function UpToSignature(d: DecisionId, q: Params, backing: Backing): seq<Action> {
    Booking(d, q, backing) + [Quiet(d)] + [Quiet(d)] + [Quiet(d)]
  }

  lemma {:induction false} RunsToReserve(w: World, d: DecisionId, q: Params, backing: Backing)
    requires Clear(w, d, q, backing)
    ensures After(w, Admission(d, q)) == Admitted(w, d, q, ReserveDue)
  {
    Begins(w, d, q, backing);
    AfterOne(w, Begin(d, q));
    Extend(w, [Begin(d, q)], Quiet(d), w.(auths := w.auths[d := Auth(q, LockDue, true)]), Admitted(w, d, q, ReplayDue));
    Replays(w, d, q, backing);
    Extend(w, [Begin(d, q)] + [Quiet(d)], Quiet(d), Admitted(w, d, q, ReplayDue), Admitted(w, d, q, PolicyDue));
    Evaluates(w, d, q, backing);
    Extend(w, [Begin(d, q)] + [Quiet(d)] + [Quiet(d)], Quiet(d), Admitted(w, d, q, PolicyDue), Admitted(w, d, q, ReserveDue));
  }

  lemma {:induction false} RunsToHold(w: World, d: DecisionId, q: Params, backing: Backing)
    requires Clear(w, d, q, backing)
    ensures After(w, Admission(d, q) + [AuthStep(d, Backed(backing))]) == Held(w, d, q, InsertDue)
  {
    RunsToReserve(w, d, q, backing);
    Reserves(w, d, q, backing);
    Extend(w, Admission(d, q), AuthStep(d, Backed(backing)), Admitted(w, d, q, ReserveDue), Held(w, d, q, InsertDue));
  }

  lemma {:induction false} RunsToInsert(w: World, d: DecisionId, q: Params, backing: Backing)
    requires Owned(w) && Clear(w, d, q, backing)
    ensures After(w, Booking(d, q, backing)) == Booked(w, d, q, OrgCheckDue)
  {
    RunsToHold(w, d, q, backing);
    Inserts(w, d, q, backing);
    Extend(w, Admission(d, q) + [AuthStep(d, Backed(backing))], Quiet(d), Held(w, d, q, InsertDue), Booked(w, d, q, OrgCheckDue));
  }

  lemma {:induction false} RunsToSignature(w: World, d: DecisionId, q: Params, backing: Backing)
    requires Owned(w) && Clear(w, d, q, backing)
    ensures After(w, UpToSignature(d, q, backing)) == Signed(w, d, q)
  {
    RunsToInsert(w, d, q, backing);
    var b := Booking(d, q, backing);
    ChecksOrg(w, d, q, backing);
    Extend(w, b, Quiet(d), Booked(w, d, q, OrgCheckDue), Booked(w, d, q, AgentCheckDue));
    ChecksAgent(w, d, q, backing);
    Extend(w, b + [Quiet(d)], Quiet(d), Booked(w, d, q, AgentCheckDue), Booked(w, d, q, SignDue));
    CallsSigner(w, d, q);
    Extend(w, b + [Quiet(d)] + [Quiet(d)], Quiet(d), Booked(w, d, q, SignDue), Signed(w, d, q));
  }

  /** A call about to record its signature on a RESERVED row and hold. */
  predicate AboutToMark(w: World, d: DecisionId, a: AgentId, o: OrgId) {
    && d in w.auths && w.auths[d].alive && w.auths[d].at.MarkDue?
    && ReservedFor(w.tables, d, a, o) && w.tables.decisions[d].allow && HoldIsReserved(w.tables, d)
  }

  lemma Marks(w: World, d: DecisionId, a: AgentId, o: OrgId, hash: string, tx: Option<string>, deploy: Option<string>)
    requires AboutToMark(w, d, a, o)
    ensures var u, r := Next(w, AuthStep(d, Signature(hash, tx, deploy))), w.tables.decisions[d];
            && CommittedFor(u.tables, d, a, o) && u.workers == w.workers && u.tables.holds == w.tables.holds && u.ledgers == w.ledgers
            && u.tables.decisions[d] == r.(status := Status.Signed, signedHash := Some(hash), txHash := if tx.Some? then tx else r.txHash,
                                           deployHash := if deploy.Some? then deploy else r.deployHash)
  {
  }

  lemma SignedWorld(w: World, d: DecisionId, q: Params)
    ensures var u := Signed(w, d, q);
            && AboutToMark(u, d, q.agent, q.org) && u.tables.decisions[d] == RowOf(q, true)
            && u.tables.holds[d] == HoldReserved && HotOf(u, q.agent, d) == Some(Hold(q.amount, q.at, Phase.Held))
  {
  }

  /**
   * An authorize call that nothing disturbs, for an agent that is not suspended and has room, is signed: its row carries
   * the arguments of the call and the answers of the signer, each in its own column, and both holds stand.
   */
  lemma {:induction false} UndisturbedCallSigns(w: World, d: DecisionId, q: Params, backing: Backing, hash: string, tx: Option<string>, deploy: Option<string>)
    requires Inv(w) && Clear(w, d, q, backing)
    ensures var u := After(w, UpToSignature(d, q, backing) + [AuthStep(d, Signature(hash, tx, deploy))]);
            && CommittedFor(u.tables, d, q.agent, q.org)
            && u.tables.decisions[d] == Decision(q.org, q.key, q.agent, q.amount, q.intent, q.policyRef, true, Status.Signed, Some(hash), tx, deploy)
            && HoldAt(u, d) == Some(HoldReserved) && HotOf(u, q.agent, d) == Some(Hold(q.amount, q.at, Phase.Held))
  {
    RunsToSignature(w, d, q, backing);
    SignedWorld(w, d, q);
    Marks(Signed(w, d, q), d, q.agent, q.org, hash, tx, deploy);
    AfterOneMore(w, UpToSignature(d, q, backing), AuthStep(d, Signature(hash, tx, deploy)));
  }

  /**
   * A revoke that matched no agent row stops nothing: the agent then reads as not suspended, and any call
   * that is otherwise clear is still signed. So `agentSuspended` is exactly what a caller must check.
   */
  lemma {:induction false} UnmatchedRevokeStopsNothing(w: World, p: nat, a: AgentId, o: OrgId, d: DecisionId, q: Params, backing: Backing, hash: string)
    requires Inv(w) && p in w.workers && w.workers[p] == RevokeDone(a, o, false) && q.agent == a && q.org == o
    requires d !in w.auths && KeyIsNew(w.tables, o, q.key) && (o, q.key) !in w.locks && o !in w.denyAll && HasRoom(w, d, q, backing)
    ensures var u := After(w, UpToSignature(d, q, backing) + [AuthStep(d, Signature(hash, None, None))]);
            CommittedFor(u.tables, d, a, o) && !CommittedFor(w.tables, d, a, o)
  {
    assert WorkerGood(w, w.workers[p]);
    UndisturbedCallSigns(w, d, q, backing, hash, None, None);
  }

  // ---- What a revoke does to a decision that is signed while it runs --------------------------------

  /** The abort of a listed decision leaves it alone only if it is terminal already; SIGNED does not protect it. */
  lemma AbortOverwritesUnlessTerminal(w: World, p: nat, d: DecisionId, a: AgentId, o: OrgId, yes: bool, todo: set<DecisionId>)
    requires p in w.workers && w.workers[p] == Aborting(a, o, yes, todo) && d in todo && d in w.tables.decisions
    ensures var r, s := w.tables.decisions[d], Next(w, WorkerStep(p, Abort(d))).tables.decisions;
            d in s && (s[d] == r <==> IsTerminal(r.status)) && (s[d] != r ==> s[d].status.FailedTerminal?)
  {
  }

  function RevokeUpToList(p: nat, a: AgentId, o: OrgId): seq<Action> {
    [BeginWorker(p, SuspendDue(a, o))] + [WorkerStep(p, Proceed)] + [WorkerStep(p, Proceed)] + [WorkerStep(p, Proceed)]
  }

  /** The agent suspended, and the revoke about to abort what it listed. */
  function Listed(w: World, p: nat, a: AgentId, o: OrgId): World {
    var t := w.tables.(agents := w.tables.agents[a := AgentRow(o, true)]);
    w.(tables := t, workers := w.workers[p := Aborting(a, o, true, ReservedOf(w.tables, a, o))])
  }

  lemma {:induction false} Lists(w: World, p: nat, a: AgentId, o: OrgId)
    requires p !in w.workers && AgentKnown(w.tables, a, o)
    ensures After(w, RevokeUpToList(p, a, o)) == Listed(w, p, a, o)
  {
    var w1 := SetWorker(w, p, SuspendDue(a, o));
    AfterOne(w, BeginWorker(p, SuspendDue(a, o)));
    var t := w.tables.(agents := w.tables.agents[a := AgentRow(o, true)]);
    var w2 := SetWorker(w.(tables := t), p, KeyDue(a, o, true));
    Suspends(w, p, a, o);
    Extend(w, [BeginWorker(p, SuspendDue(a, o))], WorkerStep(p, Proceed), w1, w2);
    var w3 := SetWorker(w.(tables := t), p, ListDue(a, o, true));
    Extend(w, [BeginWorker(p, SuspendDue(a, o))] + [WorkerStep(p, Proceed)], WorkerStep(p, Proceed), w2, w3);
    ListsReserved(w, p, a, o);
    Extend(w, [BeginWorker(p, SuspendDue(a, o))] + [WorkerStep(p, Proceed)] + [WorkerStep(p, Proceed)], WorkerStep(p, Proceed), w3, Listed(w, p, a, o));
  }

  lemma Suspends(w: World, p: nat, a: AgentId, o: OrgId)
    requires AgentKnown(w.tables, a, o)
    ensures Next(SetWorker(w, p, SuspendDue(a, o)), WorkerStep(p, Proceed))
         == SetWorker(w.(tables := w.tables.(agents := w.tables.agents[a := AgentRow(o, true)])), p, KeyDue(a, o, true))
  {
  }

  lemma ListsReserved(w: World, p: nat, a: AgentId, o: OrgId)
    ensures var t := w.tables.(agents := w.tables.agents[a := AgentRow(o, true)]);
            Next(SetWorker(w.(tables := t), p, ListDue(a, o, true)), WorkerStep(p, Proceed)) == Listed(w, p, a, o)
  {
    assert ReservedOf(w.tables.(agents := w.tables.agents[a := AgentRow(o, true)]), a, o) == ReservedOf(w.tables, a, o);
  }

  function SignedDuringRevoke(d: DecisionId, q: Params, backing: Backing, hash: string, p: nat): seq<Action> {
    UpToSignature(d, q, backing) + RevokeUpToList(p, q.agent, q.org) + [AuthStep(d, Signature(hash, None, None))]
  }

  lemma SignedIsListed(w: World, d: DecisionId, q: Params, p: nat)
    requires p !in w.workers
    ensures var u := Listed(Signed(w, d, q), p, q.agent, q.org);
            && AboutToMark(u, d, q.agent, q.org)
            && p in u.workers && u.workers[p].Aborting? && u.workers[p].a == q.agent && u.workers[p].o == q.org && d in u.workers[p].todo
  {
  }

  /**
   * The comment on revokeAgentInFlight promises that SIGNED decisions are left alone to settle. One that is
   * signed after the listing is not: the run below ends with it SIGNED and its signature out, and the revoke's
   * next step makes it FAILED_TERMINAL.
   */
  lemma {:induction false} RevokeAbortsSigned(w: World, d: DecisionId, q: Params, backing: Backing, hash: string, p: nat)
    requires Inv(w) && Clear(w, d, q, backing) && p !in w.workers && AgentKnown(w.tables, q.agent, q.org)
    ensures var u := After(w, SignedDuringRevoke(d, q, backing, hash, p));
            var v := Next(u, WorkerStep(p, Abort(d)));
            && d in u.tables.decisions && u.tables.decisions[d].status.Signed?
            && d in v.tables.decisions && v.tables.decisions[d].status.FailedTerminal?
  {
    var signed := UpToSignature(d, q, backing);
    RunsToSignature(w, d, q, backing);
    Lists(Signed(w, d, q), p, q.agent, q.org);
    AfterBoth(w, signed, RevokeUpToList(p, q.agent, q.org));
    SignedIsListed(w, d, q, p);
    MarkThenAbort(Listed(Signed(w, d, q), p, q.agent, q.org), d, q.agent, q.org, hash, p);
    AfterOneMore(w, signed + RevokeUpToList(p, q.agent, q.org), AuthStep(d, Signature(hash, None, None)));
  }

  lemma MarkThenAbort(w: World, d: DecisionId, a: AgentId, o: OrgId, hash: string, p: nat)
    requires AboutToMark(w, d, a, o) && p in w.workers && w.workers[p].Aborting? && d in w.workers[p].todo
    ensures var u := Next(w, AuthStep(d, Signature(hash, None, None)));
            var v := Next(u, WorkerStep(p, Abort(d)));
            && d in u.tables.decisions && u.tables.decisions[d].status.Signed?
            && d in v.tables.decisions && v.tables.decisions[d].status.FailedTerminal?
  {
    var u := Next(w, AuthStep(d, Signature(hash, None, None)));
    var v := w.workers[p];
    Marks(w, d, a, o, hash, None, None);
    AbortOverwritesUnlessTerminal(u, p, d, v.a, v.o, v.suspended, v.todo);
  }
}
