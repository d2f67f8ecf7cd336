// The guard decision protocol as a transition system: any number of authorize,
// reconcile and revoke calls, interleaved at every Redis script and every SQL
// statement, with crashes, injected faults and a lock that may vanish at any time
// (src/engines/casper-guard/policy.ts, reconcile-worker.ts, revoke-agent-delegation.ts).
module GuardProtocol {
  import opened Options
  import opened HoldLedger
  import opened T = GuardTables

  datatype Limits = Limits(spendCap: nat, velocity: nat)

  /** One authorize call's arguments; the decision id is fresh for every call. */
  datatype Params = Params(agent: AgentId, org: OrgId, key: Key, amount: nat, at: int, intent: string, policyRef: string)

  /** Where an authorize call stands; each name says what is about to happen. */
  datatype Point =
    | LockDue | RefusedReply                            // SET NX, and the reply when it is taken
    | ReplayDue | PolicyDue | DenyDue | ReserveDue      // under the lock
    | InsertDue | UndoDue                               // hold taken; insert refused
    | OrgCheckDue | AgentCheckDue | SignDue | MarkDue   // row inserted
    | FailDue | FailReleases(hot: bool, row: bool)      // failReservedDecision
    | UnlockRead | UnlockDelete | Finished

  datatype Auth = Auth(params: Params, at: Point, alive: bool)

  /** Reconcile and revoke calls. */
  datatype Worker =
    | ReconcileDue(d: DecisionId, agent: AgentId)
    | ObserveDue(d: DecisionId, agent: AgentId)
    | SettleDue(d: DecisionId, agent: AgentId, tx: Option<string>, deploy: Option<string>)
    | SettleBoth(d: DecisionId, agent: AgentId, hot: bool, row: bool)
    | ExpiryDue(d: DecisionId, agent: AgentId)
    | ResolveDue(d: DecisionId, agent: AgentId, status: Status)
    | TerminalDue(d: DecisionId, agent: AgentId, status: Status)
    | ReleaseBoth(d: DecisionId, agent: AgentId, hot: bool, row: bool)
    | RereadDue(d: DecisionId, agent: AgentId)
    | ReconcileDone(d: DecisionId, agent: AgentId, cleaned: bool)
    | SuspendDue(a: AgentId, o: OrgId)
    | KeyDue(a: AgentId, o: OrgId, suspended: bool)
    | ListDue(a: AgentId, o: OrgId, suspended: bool)
    | Aborting(a: AgentId, o: OrgId, suspended: bool, todo: set<DecisionId>)
    | AbortReleases(a: AgentId, o: OrgId, suspended: bool, todo: set<DecisionId>, current: DecisionId, hot: bool, row: bool)
    | RevokeDone(a: AgentId, o: OrgId, suspended: bool)
    | WorkerCrashed

  datatype World = World(
    tables: Tables,
    ledgers: map<AgentId, Ledger>,
    denyAll: set<OrgId>,
    locks: map<(OrgId, Key), DecisionId>,
    auths: map<DecisionId, Auth>,
    workers: map<nat, Worker>,
    limits: map<AgentId, Limits>,
    signerCalls: seq<DecisionId>)   // every call of the signer, in order

  /** What the settlement reader answers. */
  datatype Observation = SeenSettled(tx: Option<string>, deploy: Option<string>) | SeenPending | SeenExpired | SeenFailed

  /** What a step cannot decide from the world alone: faults, answers, and which of two parallel effects is first. */
  datatype Choice =
    | Proceed | Fault
    | Backed(backing: Backing)
    | Signature(hash: string, tx: Option<string>, deploy: Option<string>)
    | HotStore | RowStore
    | See(seen: Observation)
    | Abort(next: DecisionId)

  datatype Action =
    | SetKillSwitch(o: OrgId) | ClearKillSwitch(o: OrgId) | LockVanishes(o: OrgId, k: Key)
    | Begin(d: DecisionId, params: Params) | AuthStep(d: DecisionId, c: Choice) | Crash(d: DecisionId)
    | BeginWorker(p: nat, start: Worker) | WorkerStep(p: nat, c: Choice) | CrashWorker(p: nat)

  // ---- Reading the world -------------------------------------------------------------

  function LedgerOf(w: World, a: AgentId): Ledger { if a in w.ledgers then w.ledgers[a] else map[] }

  /** The fixed policy of an agent; an agent without one may spend nothing. */
  function LimitsOf(w: World, a: AgentId): Limits { if a in w.limits then w.limits[a] else Limits(0, 0) }

  function HotOf(w: World, a: AgentId, d: DecisionId): Option<Hold> {
    if d in LedgerOf(w, a) then Some(LedgerOf(w, a)[d]) else None
  }

  function MoveTo(w: World, d: DecisionId, at: Point): World
    requires d in w.auths
  {
    w.(auths := w.auths[d := w.auths[d].(at := at)])
  }

  function SetWorker(w: World, p: nat, v: Worker): World { w.(workers := w.workers[p := v]) }

  function SetLedger(w: World, a: AgentId, l: Ledger): World { w.(ledgers := w.ledgers[a := l]) }

  function RowOf(q: Params, allow: bool): Decision {
    Decision(q.org, q.key, q.agent, q.amount, q.intent, q.policyRef, allow, if allow then Status.Reserved else Denied, None, None, None)
  }

  predicate ReservedFor(t: Tables, d: DecisionId, a: AgentId, o: OrgId) {
    d in t.decisions && t.decisions[d].agent == a && t.decisions[d].org == o && t.decisions[d].status.Reserved?
  }

  // ---- The steps ---------------------------------------------------------------------

  predicate Enabled(w: World, act: Action) {
    match act
    case SetKillSwitch(_) => true
    case ClearKillSwitch(_) => true
    case LockVanishes(_, _) => true
    case Begin(d, _) => d !in w.auths
    case AuthStep(d, _) => d in w.auths && w.auths[d].alive
    case Crash(d) => d in w.auths && w.auths[d].alive && !w.auths[d].at.Finished?
    case BeginWorker(p, start) => p !in w.workers && (start.ReconcileDue? || start.SuspendDue?)
    case WorkerStep(p, _) => p in w.workers
    case CrashWorker(p) => p in w.workers && !w.workers[p].ReconcileDone? && !w.workers[p].RevokeDone?
  }

  ghost function Apply(w: World, act: Action): World
    requires Enabled(w, act)
  {
    match act
    case SetKillSwitch(o) => w.(denyAll := w.denyAll + {o})
    case ClearKillSwitch(o) => w.(denyAll := w.denyAll - {o})
    case LockVanishes(o, k) => w.(locks := w.locks - {(o, k)})
    case Begin(d, q) => w.(auths := w.auths[d := Auth(q, LockDue, true)])
    case AuthStep(d, c) => ApplyAuth(w, d, c)
    case Crash(d) => w.(auths := w.auths[d := w.auths[d].(alive := false)])
    case BeginWorker(p, start) => SetWorker(w, p, start)
    case WorkerStep(p, c) => ApplyWorker(w, p, c)
    case CrashWorker(p) => SetWorker(w, p, WorkerCrashed)
  }

  /** authorizeCasperGuardIntent, one statement or script at a time; a choice that does not fit changes nothing. */
  ghost function ApplyAuth(w: World, d: DecisionId, c: Choice): World
    requires d in w.auths
  {
    var q := w.auths[d].params;
    match w.auths[d].at
    case LockDue => ApplyAcquire(w, d)
    case RefusedReply => MoveTo(w, d, Finished)
    case ReplayDue => MoveTo(w, d, if KeyTaken(w.tables, q.org, q.key) then UnlockRead else PolicyDue)
    case PolicyDue => MoveTo(w, d, if c.Proceed? && q.org !in w.denyAll then ReserveDue else DenyDue)
    case DenyDue => ApplyDeny(w, d)
    case ReserveDue => if c.Backed? then ApplyReserve(w, d, c.backing) else w
    case InsertDue => ApplyInsert(w, d, c.Fault?)
    case UndoDue => MoveTo(ReleaseIn(w, q.agent, d), d, UnlockRead)
    case OrgCheckDue => MoveTo(w, d, if c.Fault? || q.org in w.denyAll then FailDue else AgentCheckDue)
    case AgentCheckDue => MoveTo(w, d, if c.Fault? || IsSuspended(w.tables, q.agent, q.org) then FailDue else SignDue)
    case SignDue => ApplySign(w, d, c.Fault?)
    case MarkDue => if c.Signature? then ApplyMark(w, d, c.hash, c.tx, c.deploy) else if c.Fault? then MoveTo(w, d, FailDue) else w
    case FailDue => ApplyFail(w, d)
    case FailReleases(hot, row) =>
      if c.HotStore? && !hot then MoveTo(ReleaseIn(w, q.agent, d), d, if row then UnlockRead else FailReleases(true, false))
      else if c.RowStore? && !row then MoveTo(w.(tables := ReleaseHoldRow(w.tables, d).0), d, if hot then UnlockRead else FailReleases(false, true))
      else w
    case UnlockRead => MoveTo(w, d, if (q.org, q.key) in w.locks && w.locks[(q.org, q.key)] == d then UnlockDelete else Finished)
    case UnlockDelete => ApplyUnlock(w, d)
    case Finished => w
  }

  /** reconcileCasperGuardDecision and revokeAgentDelegation, likewise. */
  function ApplyWorker(w: World, p: nat, c: Choice): World
    requires p in w.workers
  {
    match w.workers[p]
    case ReconcileDue(d, a) => SetWorker(w, p, AfterRead(w, d, a))
    case ObserveDue(d, a) => if c.See? then SetWorker(w, p, AfterObservation(d, a, c.seen)) else w
    case SettleDue(d, a, tx, deploy) => ApplySettle(w, p, d, a, tx, deploy)
    case SettleBoth(d, a, hot, row) =>
      if c.HotStore? && !hot then SetWorker(SettleIn(w, a, d), p, if row then ReconcileDone(d, a, true) else SettleBoth(d, a, true, false))
      else if c.RowStore? && !row then
        SetWorker(w.(tables := SettleHoldRow(w.tables, d).0), p, if hot then ReconcileDone(d, a, true) else SettleBoth(d, a, false, true))
      else w
    case ExpiryDue(d, a) => SetWorker(w.(tables := MarkExpiryCheck(w.tables, d).0), p, RereadDue(d, a))
    case ResolveDue(d, a, s) => SetWorker(w, p, AfterResolveRead(w, d, a, s))
    case TerminalDue(d, a, s) => ApplyTerminate(w, p, d, a, s)
    case ReleaseBoth(d, a, hot, row) =>
      if c.HotStore? && !hot then SetWorker(ReleaseIn(w, a, d), p, if row then RereadDue(d, a) else ReleaseBoth(d, a, true, false))
      else if c.RowStore? && !row then
        SetWorker(w.(tables := ReleaseHoldRow(w.tables, d).0), p, if hot then RereadDue(d, a) else ReleaseBoth(d, a, false, true))
      else w
    case RereadDue(d, a) => SetWorker(w, p, if IsSettledRow(w, d) then SettleBoth(d, a, false, false) else ReconcileDone(d, a, false))
    case ReconcileDone(_, _, _) => w
    case SuspendDue(a, o) =>
      var r := SuspendAgent(w.tables, a, o);
      SetWorker(w.(tables := r.0), p, KeyDue(a, o, r.1))
    case KeyDue(a, o, yes) => SetWorker(w, p, ListDue(a, o, yes))
    case ListDue(a, o, yes) => SetWorker(w, p, Aborting(a, o, yes, ReservedOf(w.tables, a, o)))
    case Aborting(a, o, yes, todo) =>
      if todo == {} then SetWorker(w, p, RevokeDone(a, o, yes))
      else if c.Abort? && c.next in todo then ApplyAbort(w, p, a, o, yes, todo, c.next)
      else w
    case AbortReleases(a, o, yes, todo, d, hot, row) =>
      if c.HotStore? && !hot then SetWorker(ReleaseIn(w, a, d), p, if row then Aborting(a, o, yes, todo) else AbortReleases(a, o, yes, todo, d, true, false))
      else if c.RowStore? && !row then
        SetWorker(w.(tables := ReleaseHoldRow(w.tables, d).0), p, if hot then Aborting(a, o, yes, todo) else AbortReleases(a, o, yes, todo, d, false, true))
      else w
    case RevokeDone(_, _, _) => w
    case WorkerCrashed => w
  }

  function ReleaseIn(w: World, a: AgentId, d: DecisionId): World { SetLedger(w, a, ReleaseSpec(LedgerOf(w, a), d).0) }

  function SettleIn(w: World, a: AgentId, d: DecisionId): World { SetLedger(w, a, SettleSpec(LedgerOf(w, a), d).0) }

  function ReservedOf(t: Tables, a: AgentId, o: OrgId): set<DecisionId> { set d | d in t.decisions && ReservedFor(t, d, a, o) }

  predicate IsSettledRow(w: World, d: DecisionId) { d in w.tables.decisions && w.tables.decisions[d].status.Settled? }

  function ApplyAcquire(w: World, d: DecisionId): World
    requires d in w.auths
  {
    var k := (w.auths[d].params.org, w.auths[d].params.key);
    if k in w.locks then MoveTo(w, d, RefusedReply) else MoveTo(w.(locks := w.locks[k := d]), d, ReplayDue)
  }

  function ApplyDeny(w: World, d: DecisionId): World
    requires d in w.auths
  {
    MoveTo(w.(tables := InsertDecision(w.tables, d, RowOf(w.auths[d].params, false)).0), d, UnlockRead)
  }

  /** The atomic reserve: a denial is recorded, a duplicate payment id only answered. */
  ghost function ApplyReserve(w: World, d: DecisionId, backing: Backing): World
    requires d in w.auths
  {
    var q := w.auths[d].params;
    var l := LimitsOf(w, q.agent);
    var r := PolicyReserveSpec(LedgerOf(w, q.agent), d, q.amount, q.at, l.spendCap, l.velocity, backing);
    MoveTo(SetLedger(w, q.agent, r.0), d, if r.1.Reserved? then InsertDue else if r.1.Duplicate? then UnlockRead else DenyDue)
  }

  function ApplyInsert(w: World, d: DecisionId, fault: bool): World
    requires d in w.auths
  {
    var r := InsertDecisionAndHold(w.tables, d, RowOf(w.auths[d].params, true));
    if fault || !r.1 then MoveTo(w, d, UndoDue) else MoveTo(w.(tables := r.0), d, OrgCheckDue)
  }

  /** The signer has been called, whether it answers or throws. */
  function ApplySign(w: World, d: DecisionId, fault: bool): World
    requires d in w.auths
  {
    MoveTo(w.(signerCalls := w.signerCalls + [d]), d, if fault then FailDue else MarkDue)
  }

  function ApplyMark(w: World, d: DecisionId, hash: string, tx: Option<string>, deploy: Option<string>): World
    requires d in w.auths
  {
    var r := MarkSigned(w.tables, d, hash, tx, deploy);
    MoveTo(w.(tables := r.0), d, if r.1 then UnlockRead else FailDue)
  }

  function ApplyFail(w: World, d: DecisionId): World
    requires d in w.auths
  {
    var r := MarkTerminal(w.tables, d, FailedTerminal);
    MoveTo(w.(tables := r.0), d, if r.1 then FailReleases(false, false) else UnlockRead)
  }

  function ApplyUnlock(w: World, d: DecisionId): World
    requires d in w.auths
  {
    MoveTo(w.(locks := w.locks - {(w.auths[d].params.org, w.auths[d].params.key)}), d, Finished)
  }

  /** reconcileCasperGuardDecision after its first read. */
  function AfterRead(w: World, d: DecisionId, a: AgentId): Worker {
    if d !in w.tables.decisions || w.tables.decisions[d].agent != a then WorkerCrashed
    else
      var row := w.tables.decisions[d];
      if row.status.Settled? then SettleBoth(d, a, false, false)
      else if IsTerminal(row.status) then ReconcileDone(d, a, false)
      else if !row.allow || row.signedHash.None? then WorkerCrashed
      else ObserveDue(d, a)
  }

  function AfterObservation(d: DecisionId, a: AgentId, seen: Observation): Worker {
    match seen
    case SeenSettled(tx, deploy) => SettleDue(d, a, tx, deploy)
    case SeenPending => ExpiryDue(d, a)
    case SeenExpired => ResolveDue(d, a, Expired)
    case SeenFailed => ResolveDue(d, a, FailedTerminal)
  }

  /** A worker that did not win the settlement leaves the clean-up to the one that did. */
  function ApplySettle(w: World, p: nat, d: DecisionId, a: AgentId, tx: Option<string>, deploy: Option<string>): World {
    var r := MarkSettled(w.tables, d, tx, deploy);
    if r.1 then SetWorker(w.(tables := r.0), p, SettleBoth(d, a, false, false))
    else if IsSettledRow(w, d) then SetWorker(w, p, ReconcileDone(d, a, false))
    else SetWorker(w, p, RereadDue(d, a))
  }

  /** resolveCasperGuardTerminalFailure after its read. */
  function AfterResolveRead(w: World, d: DecisionId, a: AgentId, s: Status): Worker {
    if d !in w.tables.decisions || w.tables.decisions[d].status.Denied? || w.tables.decisions[d].status.Settled? then RereadDue(d, a)
    else if IsFailed(w.tables.decisions[d].status) then ReleaseBoth(d, a, false, false)
    else TerminalDue(d, a, s)
  }

  function ApplyTerminate(w: World, p: nat, d: DecisionId, a: AgentId, s: Status): World {
    if !IsFailed(s) then w
    else
      var r := MarkTerminal(w.tables, d, s);
      SetWorker(w.(tables := r.0), p, if r.1 then ReleaseBoth(d, a, false, false) else RereadDue(d, a))
  }

  /** failReservedDecision for one listed decision; the statement's guard is not "still RESERVED". */
  function ApplyAbort(w: World, p: nat, a: AgentId, o: OrgId, yes: bool, todo: set<DecisionId>, d: DecisionId): World {
    var r := MarkTerminal(w.tables, d, FailedTerminal);
    SetWorker(w.(tables := r.0), p,
              if r.1 then AbortReleases(a, o, yes, todo - {d}, d, false, false) else Aborting(a, o, yes, todo - {d}))
  }

  // ---- What holds of one decision at every step --------------------------------------

  /** Everything the two stores and the call itself record about one decision. */
  datatype Slice = Slice(auth: Auth, row: Option<Decision>, hold: Option<HoldStatus>, hot: Option<Hold>, signed: bool)

  function RowAt(w: World, d: DecisionId): Option<Decision> { if d in w.tables.decisions then Some(w.tables.decisions[d]) else None }

  function HoldAt(w: World, d: DecisionId): Option<HoldStatus> { if d in w.tables.holds then Some(w.tables.holds[d]) else None }

  function SliceOf(w: World, d: DecisionId): Slice
    requires d in w.auths
  {
    Slice(w.auths[d], RowAt(w, d), HoldAt(w, d), HotOf(w, w.auths[d].params.agent, d), d in w.signerCalls)
  }

  predicate BeforeReserve(at: Point) {
    at.LockDue? || at.RefusedReply? || at.ReplayDue? || at.PolicyDue? || at.DenyDue? || at.ReserveDue?
  }

  /** The stretch in which the row exists and the call has not given up on it. */
  predicate BeforeSignature(at: Point) { at.OrgCheckDue? || at.AgentCheckDue? || at.SignDue? }

  predicate HotHeld(s: Slice) { s.hot.Some? && s.hot.value.phase.Held? }

  predicate IsAllowed(s: Slice) { s.row.Some? && s.row.value.allow }

  /** The row and the hot hold carry the arguments of the call that wrote them. */
  predicate RecordsCall(s: Slice) {
    var q := s.auth.params;
    && (s.row.Some? ==> var r := s.row.value;
          r.org == q.org && r.key == q.key && r.agent == q.agent && r.amount == q.amount && r.intent == q.intent && r.policyRef == q.policyRef)
    && (s.hot.Some? ==> s.hot.value.amount == q.amount && s.hot.value.at == q.at)
  }

  /** The cross-store coupling of row status, Postgres hold and Redis hold. */
  predicate Coupled(s: Slice) {
    && (s.hold.Some? <==> IsAllowed(s))
    && (s.row.Some? && !s.row.value.allow ==> s.row.value.status.Denied? && s.hot.None?)
    && (IsAllowed(s) ==> var st := s.row.value.status;
          && (IsInFlight(st) || st.Settled? || IsFailed(st))
          && (IsInFlight(st) ==> s.hold.value.HoldReserved? && HotHeld(s))
          && (st.Settled? ==> !s.hold.value.HoldReleased? && s.hot.Some?)
          && (IsFailed(st) ==> !s.hold.value.HoldSettled? && (s.hot.Some? ==> HotHeld(s)))
          && (!st.Reserved? && !IsFailed(st) ==> s.row.value.signedHash.Some?)
          && (st.Reserved? ==> s.row.value.signedHash.None?))
    && (s.hot.Some? && s.hot.value.phase.Settled? ==> IsAllowed(s))
  }

  /** What the call has and has not done, by where it stands. */
  predicate OnCourse(s: Slice) {
    var at := s.auth.at;
    && (BeforeReserve(at) ==> s.row.None? && s.hot.None?)
    && (at.InsertDue? || at.UndoDue? ==> s.row.None? && HotHeld(s))
    && (BeforeSignature(at) || at.MarkDue? || at.FailDue? || at.FailReleases? ==> IsAllowed(s))
    && (at.FailReleases? ==> IsFailed(s.row.value.status) && (at.hot ==> s.hot.None?) && (at.row ==> s.hold == Some(HoldReleased)))
    && (at.UnlockRead? || at.UnlockDelete? || at.Finished? ==> (s.hot.Some? ==> IsAllowed(s)))
    && (s.signed ==> IsAllowed(s) && !BeforeSignature(at))
    && (at.MarkDue? || (s.row.Some? && s.row.value.signedHash.Some?) ==> s.signed)
  }

  predicate Good(s: Slice) { RecordsCall(s) && Coupled(s) && OnCourse(s) }

  /** What one step may do to a decision: facts that workers rely on are never undone. */
  predicate Progresses(s: Slice, u: Slice) {
    && u.auth.params == s.auth.params
    && (s.row.Some? ==> u.row.Some? && RowAdvances(s.row.value, u.row.value))
    && (s.hold.Some? ==> u.hold.Some? && HoldAdvances(s.hold.value, u.hold.value))
    && (s.row.Some? && s.hot.None? ==> u.hot.None?)
    && (s.hot.Some? && s.hot.value.phase.Settled? ==> u.hot == s.hot)
    && (s.row.Some? && (u.auth.at.SignDue? || u.auth.at.MarkDue?) ==> s.auth.at.AgentCheckDue? || s.auth.at.SignDue? || s.auth.at.MarkDue?)
    && (s.row.None? && u.row.Some? ==> !u.auth.at.SignDue? && !u.auth.at.MarkDue?)
  }

  // ---- What holds of the whole world at every step -------------------------------------

  /** Every row and every hold belongs to a call, and to the agent of that call. */
  ghost predicate Owned(w: World) {
    && (forall d :: d in w.tables.decisions ==> d in w.auths)
    && (forall d :: d in w.tables.holds ==> d in w.auths)
    && (forall a, d :: a in w.ledgers && d in w.ledgers[a] ==> d in w.auths && w.auths[d].params.agent == a)
    && (forall i :: 0 <= i < |w.signerCalls| ==> w.signerCalls[i] in w.auths)
  }

  predicate UniqueKeys(t: Tables) {
    forall d, e :: d in t.decisions && e in t.decisions && t.decisions[d].org == t.decisions[e].org && t.decisions[d].key == t.decisions[e].key ==> d == e
  }

  predicate SignedOnce(w: World) {
    forall i, j :: 0 <= i < j < |w.signerCalls| ==> w.signerCalls[i] != w.signerCalls[j]
  }

  ghost predicate CapsKept(w: World) {
    forall a :: a in w.ledgers ==> WithinPolicy(w.ledgers[a], LimitsOf(w, a).spendCap, LimitsOf(w, a).velocity)
  }

  predicate RowBelongs(w: World, d: DecisionId, a: AgentId) {
    d in w.tables.decisions && w.tables.decisions[d].agent == a && w.tables.decisions[d].allow
  }

  /** Past the listing, only the decisions still to be aborted may be on their way to a signature. */
  predicate Fenced(w: World, a: AgentId, o: OrgId, todo: set<DecisionId>) {
    && IsSuspended(w.tables, a, o)
    && forall d :: ReservedFor(w.tables, d, a, o) && d in w.auths && (w.auths[d].at.SignDue? || w.auths[d].at.MarkDue?) ==> d in todo
  }

  predicate AgentDecisions(w: World, a: AgentId, todo: set<DecisionId>) {
    forall d :: d in todo ==> RowBelongs(w, d, a)
  }

  predicate ReconcileGood(w: World, v: Worker) {
    match v
    case ObserveDue(d, a) => RowBelongs(w, d, a)
    case SettleDue(d, a, _, _) => RowBelongs(w, d, a)
    case ExpiryDue(d, a) => RowBelongs(w, d, a)
    case ResolveDue(d, a, s) => RowBelongs(w, d, a) && IsFailed(s)
    case TerminalDue(d, a, s) => RowBelongs(w, d, a) && IsFailed(s)
    case RereadDue(d, a) => RowBelongs(w, d, a)
    case SettleBoth(d, a, hot, row) =>
      RowBelongs(w, d, a) && w.tables.decisions[d].status.Settled?
      && (hot ==> IsHotSettled(w, d, a)) && (row ==> HoldAt(w, d) == Some(HoldSettled))
    case ReleaseBoth(d, a, hot, row) => ReleasedSoFar(w, d, a, hot, row)
    case ReconcileDone(d, a, cleaned) =>
      cleaned ==> RowBelongs(w, d, a) && w.tables.decisions[d].status.Settled? && IsHotSettled(w, d, a) && HoldAt(w, d) == Some(HoldSettled)
    case _ => true
  }

  predicate ReleasedSoFar(w: World, d: DecisionId, a: AgentId, hot: bool, row: bool) {
    RowBelongs(w, d, a) && IsFailed(w.tables.decisions[d].status)
    && (hot ==> HotOf(w, a, d).None?) && (row ==> HoldAt(w, d) == Some(HoldReleased))
  }

  /** The flag a revoke carries: it suspended the agent, or there was no such agent to suspend. */
  predicate FlagGood(w: World, a: AgentId, o: OrgId, yes: bool) {
    if yes then IsSuspended(w.tables, a, o) else !AgentKnown(w.tables, a, o)
  }

  /** What a revoke knows once it has listed: its flag, whose decisions these are, and that its fence stands. */
  predicate AbortGood(w: World, a: AgentId, o: OrgId, yes: bool, todo: set<DecisionId>) {
    FlagGood(w, a, o, yes) && AgentDecisions(w, a, todo) && (yes ==> Fenced(w, a, o, todo))
  }

  predicate RevokeGood(w: World, v: Worker) {
    match v
    case KeyDue(a, o, yes) => FlagGood(w, a, o, yes)
    case ListDue(a, o, yes) => FlagGood(w, a, o, yes)
    case Aborting(a, o, yes, todo) => AbortGood(w, a, o, yes, todo)
    case AbortReleases(a, o, yes, todo, d, hot, row) => AbortGood(w, a, o, yes, todo) && ReleasedSoFar(w, d, a, hot, row)
    case RevokeDone(a, o, yes) => AbortGood(w, a, o, yes, {})
    case _ => true
  }

  predicate WorkerGood(w: World, v: Worker) { ReconcileGood(w, v) && RevokeGood(w, v) }

  predicate IsHotSettled(w: World, d: DecisionId, a: AgentId) {
    HotOf(w, a, d).Some? && HotOf(w, a, d).value.phase.Settled?
  }

  ghost predicate Inv(w: World) {
    && Owned(w)
    && UniqueKeys(w.tables)
    && SignedOnce(w)
    && CapsKept(w)
    && AllGood(w)
    && AllWorkersGood(w)
  }

  ghost predicate AllGood(w: World) { forall d :: d in w.auths ==> Good(SliceOf(w, d)) }

  ghost predicate AllWorkersGood(w: World) { forall p :: p in w.workers ==> WorkerGood(w, w.workers[p]) }

  // ---- One step touches one decision -----------------------------------------------------

  /** All slices but one are as before, and nothing new is recorded for any other decision. */
  ghost predicate OthersKept(w: World, u: World, d: DecisionId) {
    && u.auths.Keys == w.auths.Keys
    && (forall e :: e in w.auths && e != d ==> SliceOf(u, e) == SliceOf(w, e))
    && u.tables.decisions.Keys <= w.tables.decisions.Keys + {d}
    && u.tables.holds.Keys <= w.tables.holds.Keys + {d}
    && (forall a, e :: e in LedgerOf(u, a) ==> e in LedgerOf(w, a) || (e == d && d in w.auths && a == w.auths[d].params.agent))
    && (u.signerCalls == w.signerCalls || u.signerCalls == w.signerCalls + [d])
    && u.limits == w.limits
    && u.tables.agents == w.tables.agents
  }

  ghost predicate LocalStep(w: World, u: World, d: DecisionId) {
    && d in w.auths
    && OthersKept(w, u, d)
    && Good(SliceOf(u, d))
    && Progresses(SliceOf(w, d), SliceOf(u, d))
    && ((u.auths[d].at.SignDue? || u.auths[d].at.MarkDue?) && w.auths[d].at.AgentCheckDue? ==> !IsSuspended(w.tables, w.auths[d].params.agent, w.auths[d].params.org))
  }

  /** Two maps that differ at most at one key. */
  ghost predicate AgreeExcept<V>(m: map<DecisionId, V>, n: map<DecisionId, V>, d: DecisionId) {
    forall e :: e != d ==> (e in m <==> e in n) && (e in m && e in n ==> m[e] == n[e])
  }

  lemma TablesFrame(w: World, t: Tables, d: DecisionId)
    requires d in w.auths && t.agents == w.tables.agents
    requires AgreeExcept(w.tables.decisions, t.decisions, d)
    requires AgreeExcept(w.tables.holds, t.holds, d)
    ensures OthersKept(w, w.(tables := t), d)
  {
    assert forall a :: LedgerOf(w.(tables := t), a) == LedgerOf(w, a);
  }

  lemma LedgerFrame(w: World, d: DecisionId, l: Ledger)
    requires d in w.auths
    requires AgreeExcept(LedgerOf(w, w.auths[d].params.agent), l, d)
    ensures OthersKept(w, SetLedger(w, w.auths[d].params.agent, l), d)
  {
    var a := w.auths[d].params.agent;
    var u := SetLedger(w, a, l);
    forall e | e in w.auths && e != d
      ensures SliceOf(u, e) == SliceOf(w, e)
    {
      assert HotOf(u, w.auths[e].params.agent, e) == HotOf(w, w.auths[e].params.agent, e);
    }
    forall b, e | e in LedgerOf(u, b)
      ensures e in LedgerOf(w, b) || (e == d && b == a)
    {
    }
  }

  lemma MoveFrame(w: World, u: World, d: DecisionId, at: Point)
    requires d in w.auths && OthersKept(w, u, d) && u.auths == w.auths
    ensures OthersKept(w, MoveTo(u, d, at), d)
    ensures SliceOf(MoveTo(u, d, at), d) == SliceOf(u, d).(auth := w.auths[d].(at := at))
  {
    var v := MoveTo(u, d, at);
    assert forall a :: LedgerOf(v, a) == LedgerOf(u, a);
    forall e | e in w.auths && e != d
      ensures SliceOf(v, e) == SliceOf(w, e)
    {
      assert SliceOf(v, e) == SliceOf(u, e);
    }
  }

  // ---- Authorize steps -------------------------------------------------------------------

  /** A step is local when it writes only its own decision and its slice goes on properly. */
  lemma LocalIf(w: World, u: World, d: DecisionId, at: Point, s: Slice)
    requires d in w.auths && OthersKept(w, u, d) && u.auths == w.auths
    requires s == SliceOf(u, d).(auth := w.auths[d].(at := at)) && Good(s) && Progresses(SliceOf(w, d), s)
    requires (at.SignDue? || at.MarkDue?) && w.auths[d].at.AgentCheckDue? ==> !IsSuspended(w.tables, w.auths[d].params.agent, w.auths[d].params.org)
    ensures LocalStep(w, MoveTo(u, d, at), d)
  {
    MoveFrame(w, u, d, at);
  }

  lemma MoveSlice(s: Slice, at: Point)
    requires Good(s) && OnCourse(s.(auth := s.auth.(at := at))) && !at.MarkDue? && (at.SignDue? ==> s.auth.at.AgentCheckDue?)
    ensures var u := s.(auth := s.auth.(at := at)); Good(u) && Progresses(s, u)
  {
  }

  /** A step that only moves the call along is local if the new place suits what is recorded. */
  lemma MoveLocal(w: World, u: World, d: DecisionId, at: Point)
    requires d in w.auths && Good(SliceOf(w, d)) && u == w.(locks := u.locks)
    requires OnCourse(SliceOf(w, d).(auth := w.auths[d].(at := at)))
    requires at.SignDue? ==> w.auths[d].at.AgentCheckDue? && !IsSuspended(w.tables, w.auths[d].params.agent, w.auths[d].params.org)
    requires !at.MarkDue?
    ensures LocalStep(w, MoveTo(u, d, at), d)
  {
    MoveSlice(SliceOf(w, d), at);
    LocalIf(w, u, d, at, SliceOf(w, d).(auth := w.auths[d].(at := at)));
  }

  lemma AcquireLocal(w: World, d: DecisionId)
    requires d in w.auths && Good(SliceOf(w, d)) && w.auths[d].at.LockDue?
    ensures LocalStep(w, ApplyAcquire(w, d), d)
  {
    var k := (w.auths[d].params.org, w.auths[d].params.key);
    if k in w.locks { MoveLocal(w, w, d, RefusedReply); } else { MoveLocal(w, w.(locks := w.locks[k := d]), d, ReplayDue); }
  }

  lemma ChecksLocal(w: World, d: DecisionId, c: Choice)
    requires d in w.auths && Good(SliceOf(w, d))
    requires var at := w.auths[d].at; at.RefusedReply? || at.ReplayDue? || at.PolicyDue? || at.OrgCheckDue? || at.AgentCheckDue?
    ensures LocalStep(w, ApplyAuth(w, d, c), d)
  {
    MoveLocal(w, w, d, ApplyAuth(w, d, c).auths[d].at);
  }

  lemma UnlockReadLocal(w: World, d: DecisionId, at: Point)
    requires d in w.auths && Good(SliceOf(w, d)) && w.auths[d].at.UnlockRead? && (at.UnlockDelete? || at.Finished?)
    ensures LocalStep(w, MoveTo(w, d, at), d)
  {
    MoveLocal(w, w, d, at);
  }

  lemma UnlockLocal(w: World, d: DecisionId)
    requires d in w.auths && Good(SliceOf(w, d)) && w.auths[d].at.UnlockDelete?
    ensures LocalStep(w, ApplyUnlock(w, d), d)
  {
    MoveLocal(w, w.(locks := w.locks - {(w.auths[d].params.org, w.auths[d].params.key)}), d, Finished);
  }

  lemma DenyLocal(w: World, d: DecisionId)
    requires d in w.auths && Good(SliceOf(w, d)) && w.auths[d].at.DenyDue?
    ensures LocalStep(w, ApplyDeny(w, d), d)
  {
    var t := InsertDecision(w.tables, d, RowOf(w.auths[d].params, false)).0;
    TablesFrame(w, t, d);
    MoveFrame(w, w.(tables := t), d, UnlockRead);
  }

  lemma ReserveSlice(s: Slice, u: Slice)
    requires Good(s) && s.auth.at.ReserveDue?
    requires || u == s.(auth := s.auth.(at := InsertDue), hot := Some(Hold(s.auth.params.amount, s.auth.params.at, Held)))
             || u == s.(auth := s.auth.(at := UnlockRead)) || u == s.(auth := s.auth.(at := DenyDue))
    ensures Good(u) && Progresses(s, u)
  {
  }

  lemma ReserveLocal(w: World, d: DecisionId, backing: Backing)
    requires d in w.auths && Good(SliceOf(w, d)) && w.auths[d].at.ReserveDue?
    ensures LocalStep(w, ApplyReserve(w, d, backing), d)
  {
    var q := w.auths[d].params;
    var was := LedgerOf(w, q.agent);
    var r := PolicyReserveSpec(was, d, q.amount, q.at, LimitsOf(w, q.agent).spendCap, LimitsOf(w, q.agent).velocity, backing);
    assert d !in was && (r.0 == was || (r.1.Reserved? && r.0 == was[d := Hold(q.amount, q.at, Held)]));
    ReservedLocal(w, d, r.0, if r.1.Reserved? then InsertDue else if r.1.Duplicate? then UnlockRead else DenyDue);
  }

  lemma ReservedLocal(w: World, d: DecisionId, l: Ledger, at: Point)
    requires d in w.auths && Good(SliceOf(w, d)) && w.auths[d].at.ReserveDue?
    requires var q := w.auths[d].params;
             && d !in LedgerOf(w, q.agent)
             && ((at.InsertDue? && l == LedgerOf(w, q.agent)[d := Hold(q.amount, q.at, Held)]) || ((at.UnlockRead? || at.DenyDue?) && l == LedgerOf(w, q.agent)))
    ensures LocalStep(w, MoveTo(SetLedger(w, w.auths[d].params.agent, l), d, at), d)
  {
    var q := w.auths[d].params;
    var u := SetLedger(w, q.agent, l);
    LedgerFrame(w, d, l);
    var s := SliceOf(w, d).(auth := w.auths[d].(at := at), hot := if at.InsertDue? then Some(Hold(q.amount, q.at, Held)) else None);
    assert SliceOf(u, d).(auth := w.auths[d].(at := at)) == s;
    ReserveSlice(SliceOf(w, d), s);
    LocalIf(w, u, d, at, s);
  }

  lemma InsertLocal(w: World, d: DecisionId, fault: bool)
    requires d in w.auths && Good(SliceOf(w, d)) && w.auths[d].at.InsertDue?
    ensures LocalStep(w, ApplyInsert(w, d, fault), d)
  {
    var row := RowOf(w.auths[d].params, true);
    var r := InsertDecisionAndHold(w.tables, d, row);
    if fault || !r.1 {
      MoveLocal(w, w, d, UndoDue);
    } else {
      var u := w.(tables := r.0);
      TablesFrame(w, r.0, d);
      MoveFrame(w, u, d, OrgCheckDue);
      assert SliceOf(u, d) == SliceOf(w, d).(row := Some(row), hold := Some(HoldReserved));
    }
  }

  lemma UndoLocal(w: World, d: DecisionId)
    requires d in w.auths && Good(SliceOf(w, d)) && w.auths[d].at.UndoDue?
    ensures LocalStep(w, MoveTo(ReleaseIn(w, w.auths[d].params.agent, d), d, UnlockRead), d)
  {
    var a := w.auths[d].params.agent;
    LedgerFrame(w, d, ReleaseSpec(LedgerOf(w, a), d).0);
    MoveFrame(w, ReleaseIn(w, a, d), d, UnlockRead);
  }

  lemma SignSlice(s: Slice, at: Point)
    requires Good(s) && s.auth.at.SignDue? && (at.FailDue? || at.MarkDue?)
    ensures var u := s.(auth := s.auth.(at := at), signed := true); Good(u) && Progresses(s, u)
  {
  }

  lemma SignLocal(w: World, d: DecisionId, fault: bool)
    requires d in w.auths && Good(SliceOf(w, d)) && w.auths[d].at.SignDue?
    ensures LocalStep(w, ApplySign(w, d, fault), d)
  {
    var u := w.(signerCalls := w.signerCalls + [d]);
    assert forall e :: e in u.signerCalls <==> e in w.signerCalls || e == d;
    assert SliceOf(u, d) == SliceOf(w, d).(signed := true);
    MoveFrame(w, u, d, if fault then FailDue else MarkDue);
    SignSlice(SliceOf(w, d), if fault then FailDue else MarkDue);
  }

  lemma MarkSlice(s: Slice, row: Decision, at: Point)
    requires Good(s) && s.auth.at.MarkDue? && (at.FailDue? || at.UnlockRead?)
    requires row == s.row.value || (s.row.value.status.Reserved? && row == s.row.value.(status := Signed, signedHash := row.signedHash, txHash := row.txHash, deployHash := row.deployHash) && row.signedHash.Some?)
    ensures var u := s.(auth := s.auth.(at := at), row := Some(row)); Good(u) && Progresses(s, u)
  {
  }

  lemma MarkLocal(w: World, d: DecisionId, hash: string, tx: Option<string>, deploy: Option<string>)
    requires d in w.auths && Good(SliceOf(w, d)) && w.auths[d].at.MarkDue?
    ensures LocalStep(w, ApplyMark(w, d, hash, tx, deploy), d)
  {
    var r := MarkSigned(w.tables, d, hash, tx, deploy);
    var u := w.(tables := r.0);
    TablesFrame(w, r.0, d);
    MoveFrame(w, u, d, if r.1 then UnlockRead else FailDue);
    assert SliceOf(u, d) == SliceOf(w, d).(row := Some(r.0.decisions[d]));
    MarkSlice(SliceOf(w, d), r.0.decisions[d], if r.1 then UnlockRead else FailDue);
  }

  lemma MarkFaultLocal(w: World, d: DecisionId)
    requires d in w.auths && Good(SliceOf(w, d)) && w.auths[d].at.MarkDue?
    ensures LocalStep(w, MoveTo(w, d, FailDue), d)
  {
    MoveLocal(w, w, d, FailDue);
  }

  lemma FailSlice(s: Slice, row: Decision, at: Point)
    requires Good(s) && s.auth.at.FailDue?
    requires if IsTerminal(s.row.value.status) then row == s.row.value && at.UnlockRead?
             else row == s.row.value.(status := FailedTerminal) && at == FailReleases(false, false)
    ensures var u := s.(auth := s.auth.(at := at), row := Some(row)); Good(u) && Progresses(s, u)
  {
  }

  lemma FailMoves(w: World, u: World, d: DecisionId, at: Point)
    requires d in w.auths && Good(SliceOf(w, d)) && w.auths[d].at.FailDue?
    requires var r := MarkTerminal(w.tables, d, FailedTerminal); u == w.(tables := r.0) && at == if r.1 then FailReleases(false, false) else UnlockRead
    ensures LocalStep(w, MoveTo(u, d, at), d)
  {
    TablesFrame(w, u.tables, d);
    assert SliceOf(u, d) == SliceOf(w, d).(row := Some(u.tables.decisions[d]));
    FailSlice(SliceOf(w, d), u.tables.decisions[d], at);
    LocalIf(w, u, d, at, SliceOf(u, d).(auth := w.auths[d].(at := at)));
  }

  lemma FailLocal(w: World, d: DecisionId)
    requires d in w.auths && Good(SliceOf(w, d)) && w.auths[d].at.FailDue?
    ensures LocalStep(w, ApplyFail(w, d), d)
  {
    var r := MarkTerminal(w.tables, d, FailedTerminal);
    FailMoves(w, w.(tables := r.0), d, if r.1 then FailReleases(false, false) else UnlockRead);
  }

  lemma FailReleaseSlice(s: Slice, u: Slice)
    requires Good(s) && s.auth.at.FailReleases?
    requires || u == s.(auth := s.auth.(at := if s.auth.at.row then UnlockRead else FailReleases(true, false)), hot := None)
             || u == s.(auth := s.auth.(at := if s.auth.at.hot then UnlockRead else FailReleases(false, true)), hold := Some(HoldReleased))
    ensures Good(u) && Progresses(s, u)
  {
  }

  lemma FailReleaseHotLocal(w: World, d: DecisionId, at: Point)
    requires d in w.auths && Good(SliceOf(w, d)) && w.auths[d].at.FailReleases?
    requires at == if w.auths[d].at.row then UnlockRead else FailReleases(true, false)
    ensures LocalStep(w, MoveTo(ReleaseIn(w, w.auths[d].params.agent, d), d, at), d)
  {
    var a := w.auths[d].params.agent;
    var u := ReleaseIn(w, a, d);
    LedgerFrame(w, d, ReleaseSpec(LedgerOf(w, a), d).0);
    MoveFrame(w, u, d, at);
    assert SliceOf(u, d) == SliceOf(w, d).(hot := None);
    FailReleaseSlice(SliceOf(w, d), SliceOf(MoveTo(u, d, at), d));
  }

  lemma FailReleaseRowLocal(w: World, d: DecisionId, at: Point)
    requires d in w.auths && Good(SliceOf(w, d)) && w.auths[d].at.FailReleases?
    requires at == if w.auths[d].at.hot then UnlockRead else FailReleases(false, true)
    ensures LocalStep(w, MoveTo(w.(tables := ReleaseHoldRow(w.tables, d).0), d, at), d)
  {
    var u := w.(tables := ReleaseHoldRow(w.tables, d).0);
    TablesFrame(w, u.tables, d);
    MoveFrame(w, u, d, at);
    assert SliceOf(u, d) == SliceOf(w, d).(hold := Some(HoldReleased));
    FailReleaseSlice(SliceOf(w, d), SliceOf(MoveTo(u, d, at), d));
  }

  /** The steps of a call that is on its way out. */
  lemma LeavingLocal(w: World, d: DecisionId, c: Choice)
    requires d in w.auths && Good(SliceOf(w, d)) && (w.auths[d].at.FailReleases? || w.auths[d].at.UnlockRead?)
    ensures ApplyAuth(w, d, c) == w || LocalStep(w, ApplyAuth(w, d, c), d)
  {
    match w.auths[d].at
    case FailReleases(hot, row) =>
      if c.HotStore? && !hot { FailReleaseHotLocal(w, d, if row then UnlockRead else FailReleases(true, false)); }
      else if c.RowStore? && !row { FailReleaseRowLocal(w, d, if hot then UnlockRead else FailReleases(false, true)); }
    case UnlockRead => UnlockReadLocal(w, d, ApplyAuth(w, d, c).auths[d].at);
  }

  /** The steps that take the lock, the hold and the row. */
  lemma AdmittingLocal(w: World, d: DecisionId, c: Choice)
    requires d in w.auths && Good(SliceOf(w, d))
    requires var at := w.auths[d].at; at.LockDue? || at.DenyDue? || at.ReserveDue? || at.InsertDue? || at.UndoDue?
    ensures ApplyAuth(w, d, c) == w || LocalStep(w, ApplyAuth(w, d, c), d)
  {
    match w.auths[d].at
    case LockDue => AcquireLocal(w, d);
    case DenyDue => DenyLocal(w, d);
    case ReserveDue => if c.Backed? { ReserveLocal(w, d, c.backing); }
    case InsertDue => InsertLocal(w, d, c.Fault?);
    case UndoDue => UndoLocal(w, d);
  }

  lemma RecordingLocal(w: World, d: DecisionId, c: Choice)
    requires d in w.auths && Good(SliceOf(w, d)) && w.auths[d].at.MarkDue?
    ensures ApplyAuth(w, d, c) == w || LocalStep(w, ApplyAuth(w, d, c), d)
  {
    if c.Signature? { MarkLocal(w, d, c.hash, c.tx, c.deploy); }
    if c.Fault? { MarkFaultLocal(w, d); }
  }

  lemma SigningLocal(w: World, d: DecisionId, c: Choice)
    requires d in w.auths && Good(SliceOf(w, d)) && w.auths[d].at.SignDue?
    ensures LocalStep(w, ApplyAuth(w, d, c), d)
  {
    SignLocal(w, d, c.Fault?);
  }

  lemma FailingLocal(w: World, d: DecisionId, c: Choice)
    requires d in w.auths && Good(SliceOf(w, d)) && w.auths[d].at.FailDue?
    ensures LocalStep(w, ApplyAuth(w, d, c), d)
  {
    FailLocal(w, d);
  }

  lemma UnlockDeletes(w: World, d: DecisionId, c: Choice)
    requires d in w.auths && w.auths[d].at.UnlockDelete?
    ensures ApplyAuth(w, d, c) == ApplyUnlock(w, d)
  {
  }

  lemma FinishedStays(w: World, d: DecisionId, c: Choice)
    requires d in w.auths && w.auths[d].at.Finished?
    ensures ApplyAuth(w, d, c) == w
  {
  }

  lemma AuthStepLocal(w: World, d: DecisionId, c: Choice)
    requires d in w.auths && Good(SliceOf(w, d))
    ensures ApplyAuth(w, d, c) == w || LocalStep(w, ApplyAuth(w, d, c), d)
  {
    var at := w.auths[d].at;
    if at.FailReleases? || at.UnlockRead? { LeavingLocal(w, d, c); }
    else if at.RefusedReply? || at.ReplayDue? || at.PolicyDue? || at.OrgCheckDue? || at.AgentCheckDue? { ChecksLocal(w, d, c); }
    else if at.SignDue? { SigningLocal(w, d, c); }
    else if at.MarkDue? { RecordingLocal(w, d, c); }
    else if at.FailDue? { FailingLocal(w, d, c); }
    else if at.UnlockDelete? { UnlockLocal(w, d); UnlockDeletes(w, d, c); }
    else if at.Finished? { FinishedStays(w, d, c); }
    else { AdmittingLocal(w, d, c); }
  }

  // ---- Reconcile and revoke steps ------------------------------------------------------------

  /** What the three status statements of the workers can make of an allowed row. */
  predicate RowMoves(r: Decision, row: Decision) {
    || (!IsTerminal(r.status) && IsFailed(row.status) && row == r.(status := row.status))
    || ((r.status.Signed? || r.status.Broadcasting?) && row == r.(status := ExpiryCheck))
    || (!IsTerminal(r.status) && r.signedHash.Some? && row == r.(status := Status.Settled, txHash := row.txHash, deployHash := row.deployHash))
  }

  lemma RowSlice(s: Slice, row: Decision)
    requires Good(s) && IsAllowed(s) && RowMoves(s.row.value, row)
    ensures Good(s.(row := Some(row))) && Progresses(s, s.(row := Some(row)))
  {
  }

  function WithRow(w: World, d: DecisionId, row: Decision): World {
    w.(tables := w.tables.(decisions := w.tables.decisions[d := row]))
  }

  lemma RowLocal(w: World, d: DecisionId, row: Decision)
    requires d in w.auths && Good(SliceOf(w, d)) && d in w.tables.decisions && w.tables.decisions[d].allow
    requires RowMoves(w.tables.decisions[d], row)
    ensures LocalStep(w, WithRow(w, d, row), d)
  {
    var u := WithRow(w, d, row);
    TablesFrame(w, u.tables, d);
    assert SliceOf(u, d) == SliceOf(w, d).(row := Some(row));
    RowSlice(SliceOf(w, d), row);
  }

  lemma SettleHotLocal(w: World, d: DecisionId, a: AgentId)
    requires d in w.auths && Good(SliceOf(w, d)) && RowBelongs(w, d, a) && w.tables.decisions[d].status.Settled?
    ensures LocalStep(w, SettleIn(w, a, d), d)
    ensures IsHotSettled(SettleIn(w, a, d), d, a)
  {
    LedgerFrame(w, d, SettleSpec(LedgerOf(w, a), d).0);
  }

  lemma SettleRowLocal(w: World, d: DecisionId)
    requires d in w.auths && Good(SliceOf(w, d)) && d in w.tables.decisions && w.tables.decisions[d].status.Settled?
    ensures LocalStep(w, w.(tables := SettleHoldRow(w.tables, d).0), d)
    ensures HoldAt(w.(tables := SettleHoldRow(w.tables, d).0), d) == Some(HoldSettled)
  {
    TablesFrame(w, SettleHoldRow(w.tables, d).0, d);
  }

  lemma ReleaseHotLocal(w: World, d: DecisionId, a: AgentId)
    requires d in w.auths && Good(SliceOf(w, d)) && RowBelongs(w, d, a) && IsFailed(w.tables.decisions[d].status)
    ensures LocalStep(w, ReleaseIn(w, a, d), d)
    ensures HotOf(ReleaseIn(w, a, d), a, d).None?
  {
    LedgerFrame(w, d, ReleaseSpec(LedgerOf(w, a), d).0);
  }

  lemma ReleasedSlice(s: Slice)
    requires Good(s) && IsAllowed(s) && IsFailed(s.row.value.status)
    ensures var t := s.(hold := Some(HoldReleased)); Good(t) && Progresses(s, t)
  {
  }

  lemma ReleaseRowLocal(w: World, d: DecisionId, a: AgentId)
    requires d in w.auths && Good(SliceOf(w, d)) && RowBelongs(w, d, a) && IsFailed(w.tables.decisions[d].status)
    ensures LocalStep(w, w.(tables := ReleaseHoldRow(w.tables, d).0), d)
    ensures HoldAt(w.(tables := ReleaseHoldRow(w.tables, d).0), d) == Some(HoldReleased)
  {
    var u := w.(tables := ReleaseHoldRow(w.tables, d).0);
    TablesFrame(w, u.tables, d);
    assert SliceOf(u, d) == SliceOf(w, d).(hold := Some(HoldReleased));
    ReleasedSlice(SliceOf(w, d));
  }

  // ---- A local step keeps what the rest of the world relies on ---------------------------------

  lemma OwnedKept(w: World, u: World, d: DecisionId)
    requires Owned(w) && LocalStep(w, u, d)
    ensures Owned(u)
  {
    forall a, e | a in u.ledgers && e in u.ledgers[a]
      ensures e in u.auths && u.auths[e].params.agent == a
    {
      assert e in LedgerOf(u, a);
      if e in LedgerOf(w, a) {
        assert e in w.auths && w.auths[e].params.agent == a;
        assert e != d ==> SliceOf(u, e) == SliceOf(w, e);
      }
    }
  }

  lemma AllGoodKept(w: World, u: World, d: DecisionId)
    requires AllGood(w) && LocalStep(w, u, d)
    ensures AllGood(u)
  {
    forall e | e in u.auths
      ensures Good(SliceOf(u, e))
    {
      assert e != d ==> SliceOf(u, e) == SliceOf(w, e);
    }
  }

  lemma SliceKept(w: World, u: World, d: DecisionId, e: DecisionId)
    requires AllGood(w) && LocalStep(w, u, d) && e in w.auths
    ensures e in u.auths && Good(SliceOf(w, e))
    ensures Good(SliceOf(u, e))
    ensures SliceOf(u, e) == SliceOf(w, e) || (e == d && Progresses(SliceOf(w, e), SliceOf(u, e)))
  {
  }

  lemma BelongsToCall(w: World, e: DecisionId, a: AgentId)
    requires Owned(w) && AllGood(w) && RowBelongs(w, e, a)
    ensures e in w.auths && w.auths[e].params.agent == a
  {
    assert Good(SliceOf(w, e));
  }

  predicate Settled(s: Slice) { s.hot.Some? && s.hot.value.phase.Settled? }

  lemma SliceKnowledge(s: Slice, t: Slice)
    requires Good(s) && (t == s || Progresses(s, t)) && IsAllowed(s)
    ensures IsAllowed(t) && t.row.value.agent == s.row.value.agent && t.auth.params == s.auth.params
    ensures IsTerminal(s.row.value.status) ==> t.row == s.row
    ensures s.hold.Some? && !s.hold.value.HoldReserved? ==> t.hold == s.hold
    ensures s.hot.None? ==> t.hot.None?
    ensures Settled(s) ==> Settled(t)
  {
  }

  /** What workers know of a decision survives every step of everybody else. */
  lemma KnowledgeKept(w: World, u: World, d: DecisionId, e: DecisionId, a: AgentId)
    requires Owned(w) && AllGood(w) && LocalStep(w, u, d) && RowBelongs(w, e, a)
    ensures RowBelongs(u, e, a)
    ensures IsTerminal(w.tables.decisions[e].status) ==> u.tables.decisions[e] == w.tables.decisions[e]
    ensures HoldAt(w, e).Some? && !HoldAt(w, e).value.HoldReserved? ==> HoldAt(u, e) == HoldAt(w, e)
    ensures HotOf(w, a, e).None? ==> HotOf(u, a, e).None?
    ensures IsHotSettled(w, e, a) ==> IsHotSettled(u, e, a)
  {
    BelongsToCall(w, e, a);
    SliceKept(w, u, d, e);
    SliceKnowledge(SliceOf(w, e), SliceOf(u, e));
    ReadSlice(w, e, a);
    ReadSlice(u, e, a);
  }

  lemma ReadSlice(w: World, d: DecisionId, a: AgentId)
    requires d in w.auths && w.auths[d].params.agent == a
    ensures var s := SliceOf(w, d); s.row == RowAt(w, d) && s.hold == HoldAt(w, d) && s.hot == HotOf(w, a, d)
  {
  }

  /** A call on its way to a signature with a RESERVED row was so before, or has just passed the agent check. */
  lemma ReservedBefore(s: Slice, t: Slice)
    requires Good(s) && Good(t) && (t == s || Progresses(s, t))
    requires t.row.Some? && t.row.value.status.Reserved? && (t.auth.at.SignDue? || t.auth.at.MarkDue?)
    ensures s.row == t.row && t.auth.params == s.auth.params
    ensures s.auth.at.SignDue? || s.auth.at.MarkDue? || s.auth.at.AgentCheckDue?
    ensures t.row.value.agent == s.auth.params.agent && t.row.value.org == s.auth.params.org
  {
  }

  /** Of a suspended agent, a RESERVED decision on its way to a signature was so before the step. */
  lemma OnItsWayBefore(w: World, u: World, d: DecisionId, e: DecisionId, a: AgentId, o: OrgId)
    requires LocalStep(w, u, d) && e in w.auths && Good(SliceOf(w, e)) && IsSuspended(w.tables, a, o)
    requires e in u.auths && ReservedFor(u.tables, e, a, o) && (u.auths[e].at.SignDue? || u.auths[e].at.MarkDue?)
    ensures ReservedFor(w.tables, e, a, o) && (w.auths[e].at.SignDue? || w.auths[e].at.MarkDue?)
  {
    var s, t := SliceOf(w, e), SliceOf(u, e);
    assert t == s || e == d;
    assert t.row == Some(u.tables.decisions[e]) && t.auth == u.auths[e];
    ReservedBefore(s, t);
    assert RowAt(w, e) == t.row;
  }

  lemma FenceKept(w: World, u: World, d: DecisionId, a: AgentId, o: OrgId, todo: set<DecisionId>)
    requires AllGood(w) && LocalStep(w, u, d) && Fenced(w, a, o, todo)
    ensures Fenced(u, a, o, todo)
  {
    forall e | ReservedFor(u.tables, e, a, o) && e in u.auths && (u.auths[e].at.SignDue? || u.auths[e].at.MarkDue?)
      ensures e in todo
    {
      OnItsWayBefore(w, u, d, e, a, o);
    }
  }

  /** The decision a reconcile call is about, once the call knows that it belongs to its agent. */
  function Subject(v: Worker): Option<(DecisionId, AgentId)> {
    match v
    case ObserveDue(e, a) => Some((e, a))
    case SettleDue(e, a, _, _) => Some((e, a))
    case ExpiryDue(e, a) => Some((e, a))
    case ResolveDue(e, a, _) => Some((e, a))
    case TerminalDue(e, a, _) => Some((e, a))
    case RereadDue(e, a) => Some((e, a))
    case SettleBoth(e, a, _, _) => Some((e, a))
    case ReleaseBoth(e, a, _, _) => Some((e, a))
    case ReconcileDone(e, a, cleaned) => if cleaned then Some((e, a)) else None
    case _ => None
  }

  /** What is known in `w` of decision e, and never undone, still holds in `u`. */
  predicate Remembers(w: World, u: World, e: DecisionId, a: AgentId) {
    RowBelongs(w, e, a) ==>
      && RowBelongs(u, e, a)
      && (IsTerminal(w.tables.decisions[e].status) ==> u.tables.decisions[e] == w.tables.decisions[e])
      && (HoldAt(w, e).Some? && !HoldAt(w, e).value.HoldReserved? ==> HoldAt(u, e) == HoldAt(w, e))
      && (HotOf(w, a, e).None? ==> HotOf(u, a, e).None?)
      && (IsHotSettled(w, e, a) ==> IsHotSettled(u, e, a))
  }

  lemma ReconcileRemembers(w: World, u: World, v: Worker)
    requires ReconcileGood(w, v)
    requires Subject(v).Some? ==> Remembers(w, u, Subject(v).value.0, Subject(v).value.1)
    ensures ReconcileGood(u, v)
  {
  }

  lemma ReconcileKept(w: World, u: World, d: DecisionId, v: Worker)
    requires Owned(w) && AllGood(w) && LocalStep(w, u, d) && ReconcileGood(w, v)
    ensures ReconcileGood(u, v)
  {
    if Subject(v).Some? { SubjectKept(w, u, d, Subject(v).value.0, Subject(v).value.1); }
    ReconcileRemembers(w, u, v);
  }

  lemma SubjectKept(w: World, u: World, d: DecisionId, e: DecisionId, a: AgentId)
    requires Owned(w) && AllGood(w) && LocalStep(w, u, d)
    ensures Remembers(w, u, e, a)
  {
    if RowBelongs(w, e, a) { KnowledgeKept(w, u, d, e, a); }
  }

  lemma TodoKept(w: World, u: World, d: DecisionId, a: AgentId, todo: set<DecisionId>)
    requires Owned(w) && AllGood(w) && LocalStep(w, u, d) && AgentDecisions(w, a, todo)
    ensures AgentDecisions(u, a, todo)
  {
    forall e | e in todo
      ensures RowBelongs(u, e, a)
    {
      KnowledgeKept(w, u, d, e, a);
    }
  }

  lemma ReleasedKept(w: World, u: World, d: DecisionId, e: DecisionId, a: AgentId, hot: bool, row: bool)
    requires Owned(w) && AllGood(w) && LocalStep(w, u, d) && ReleasedSoFar(w, e, a, hot, row)
    ensures ReleasedSoFar(u, e, a, hot, row)
  {
    KnowledgeKept(w, u, d, e, a);
  }

  lemma FlagKept(w: World, u: World, d: DecisionId, a: AgentId, o: OrgId, yes: bool)
    requires LocalStep(w, u, d) && FlagGood(w, a, o, yes)
    ensures FlagGood(u, a, o, yes)
  {
    assert u.tables.agents == w.tables.agents;
  }

  lemma AbortGoodKept(w: World, u: World, d: DecisionId, a: AgentId, o: OrgId, yes: bool, todo: set<DecisionId>)
    requires Owned(w) && AllGood(w) && LocalStep(w, u, d) && AbortGood(w, a, o, yes, todo)
    ensures AbortGood(u, a, o, yes, todo)
  {
    FlagKept(w, u, d, a, o, yes);
    TodoKept(w, u, d, a, todo);
    if yes { FenceKept(w, u, d, a, o, todo); }
  }

  lemma FencingKept(w: World, u: World, d: DecisionId, v: Worker)
    requires Owned(w) && AllGood(w) && LocalStep(w, u, d) && RevokeGood(w, v) && v.Aborting?
    ensures RevokeGood(u, v)
  {
    AbortGoodKept(w, u, d, v.a, v.o, v.suspended, v.todo);
  }

  lemma FencedKept(w: World, u: World, d: DecisionId, v: Worker)
    requires Owned(w) && AllGood(w) && LocalStep(w, u, d) && RevokeGood(w, v) && v.RevokeDone?
    ensures RevokeGood(u, v)
  {
    AbortGoodKept(w, u, d, v.a, v.o, v.suspended, {});
  }

  lemma ReleasingKept(w: World, u: World, d: DecisionId, v: Worker)
    requires Owned(w) && AllGood(w) && LocalStep(w, u, d) && RevokeGood(w, v) && v.AbortReleases?
    ensures RevokeGood(u, v)
  {
    AbortGoodKept(w, u, d, v.a, v.o, v.suspended, v.todo);
    ReleasedKept(w, u, d, v.current, v.a, v.hot, v.row);
  }

  lemma BeginningKept(w: World, u: World, d: DecisionId, v: Worker)
    requires LocalStep(w, u, d) && RevokeGood(w, v) && !v.Aborting? && !v.AbortReleases? && !v.RevokeDone?
    ensures RevokeGood(u, v)
  {
    if v.KeyDue? || v.ListDue? { FlagKept(w, u, d, v.a, v.o, v.suspended); }
  }

  lemma RevokeKept(w: World, u: World, d: DecisionId, v: Worker)
    requires Owned(w) && AllGood(w) && LocalStep(w, u, d) && RevokeGood(w, v)
    ensures RevokeGood(u, v)
  {
    if v.Aborting? { FencingKept(w, u, d, v); }
    if v.AbortReleases? { ReleasingKept(w, u, d, v); }
    if v.RevokeDone? { FencedKept(w, u, d, v); }
    if !v.Aborting? && !v.AbortReleases? && !v.RevokeDone? { BeginningKept(w, u, d, v); }
  }

  lemma WorkersKept(w: World, u: World, d: DecisionId)
    requires Owned(w) && AllGood(w) && AllWorkersGood(w) && LocalStep(w, u, d) && u.workers == w.workers
    ensures AllWorkersGood(u)
  {
    forall p | p in u.workers
      ensures WorkerGood(u, u.workers[p])
    {
      ReconcileKept(w, u, d, w.workers[p]);
      RevokeKept(w, u, d, w.workers[p]);
    }
  }

  /** A local step that leaves the workers alone keeps everything that is not about keys, caps or the signer. */
  lemma LocalKeepsAll(w: World, u: World, d: DecisionId)
    requires Inv(w) && LocalStep(w, u, d) && u.workers == w.workers
    requires UniqueKeys(u.tables) && SignedOnce(u) && CapsKept(u)
    ensures Inv(u)
  {
    OwnedKept(w, u, d);
    AllGoodKept(w, u, d);
    WorkersKept(w, u, d);
  }
}
