// The organization's kill switch and the lock of an idempotency key, over all runs
// (src/engines/casper-guard/policy.ts, src/engines/control/kill-switch.ts).
module GuardGates {
  import opened Options
  import opened HoldLedger
  import opened T = GuardTables
  import opened GuardProtocol
  import opened GuardRuns
  import opened GuardTheorems

  // ---- Where a call goes from where it stands -----------------------------------------------------------

  predicate Follows(at: Point, to: Point) {
    match at
    case LockDue => to.RefusedReply? || to.ReplayDue?
    case RefusedReply => to.Finished?
    case ReplayDue => to.UnlockRead? || to.PolicyDue?
    case PolicyDue => to.ReserveDue? || to.DenyDue?
    case DenyDue => to.UnlockRead?
    case ReserveDue => to.ReserveDue? || to.InsertDue? || to.UnlockRead? || to.DenyDue?
    case InsertDue => to.UndoDue? || to.OrgCheckDue?
    case UndoDue => to.UnlockRead?
    case OrgCheckDue => to.FailDue? || to.AgentCheckDue?
    case AgentCheckDue => to.FailDue? || to.SignDue?
    case SignDue => to.FailDue? || to.MarkDue?
    case MarkDue => to.MarkDue? || to.UnlockRead? || to.FailDue?
    case FailDue => to.FailReleases? || to.UnlockRead?
    case FailReleases(_, _) => to.FailReleases? || to.UnlockRead?
    case UnlockRead => to.UnlockDelete? || to.Finished?
    case UnlockDelete => to.Finished?
    case Finished => to.Finished?
  }

  lemma AcquireFollows(w: World, d: DecisionId)
    requires d in w.auths && w.auths[d].at.LockDue?
    ensures var u := ApplyAcquire(w, d); d in u.auths && Follows(w.auths[d].at, u.auths[d].at)
  {
  }

  lemma DenyFollows(w: World, d: DecisionId)
    requires d in w.auths && w.auths[d].at.DenyDue?
    ensures var u := ApplyDeny(w, d); d in u.auths && Follows(w.auths[d].at, u.auths[d].at)
  {
  }

  lemma ReserveFollows(w: World, d: DecisionId, backing: Backing)
    requires d in w.auths && w.auths[d].at.ReserveDue?
    ensures var u := ApplyReserve(w, d, backing); d in u.auths && Follows(w.auths[d].at, u.auths[d].at)
  {
  }

  lemma InsertFollows(w: World, d: DecisionId, fault: bool)
    requires d in w.auths && w.auths[d].at.InsertDue?
    ensures var u := ApplyInsert(w, d, fault); d in u.auths && Follows(w.auths[d].at, u.auths[d].at)
  {
  }

  lemma MarkFollows(w: World, d: DecisionId, hash: string, tx: Option<string>, deploy: Option<string>)
    requires d in w.auths && w.auths[d].at.MarkDue?
    ensures var u := ApplyMark(w, d, hash, tx, deploy); d in u.auths && Follows(w.auths[d].at, u.auths[d].at)
  {
  }

  lemma FailFollows(w: World, d: DecisionId)
    requires d in w.auths && w.auths[d].at.FailDue?
    ensures var u := ApplyFail(w, d); d in u.auths && Follows(w.auths[d].at, u.auths[d].at)
  {
  }

  lemma GatesFollow(w: World, u: World, d: DecisionId, c: Choice)
    requires d in w.auths && u == ApplyAuth(w, d, c) && (w.auths[d].at.RefusedReply? || w.auths[d].at.ReplayDue? || w.auths[d].at.PolicyDue?)
    ensures d in u.auths && Follows(w.auths[d].at, u.auths[d].at)
  {
  }

  lemma ChecksFollow(w: World, u: World, d: DecisionId, c: Choice)
    requires d in w.auths && u == ApplyAuth(w, d, c) && (w.auths[d].at.OrgCheckDue? || w.auths[d].at.AgentCheckDue? || w.auths[d].at.SignDue?)
    ensures d in u.auths && Follows(w.auths[d].at, u.auths[d].at)
  {
  }

  lemma ReleasesFollow(w: World, u: World, d: DecisionId, c: Choice)
    requires d in w.auths && u == ApplyAuth(w, d, c) && (w.auths[d].at.UndoDue? || w.auths[d].at.FailReleases?)
    ensures d in u.auths && Follows(w.auths[d].at, u.auths[d].at)
  {
  }

  lemma UnlocksFollow(w: World, u: World, d: DecisionId, c: Choice)
    requires d in w.auths && u == ApplyAuth(w, d, c) && (w.auths[d].at.UnlockRead? || w.auths[d].at.UnlockDelete? || w.auths[d].at.Finished?)
    ensures d in u.auths && Follows(w.auths[d].at, u.auths[d].at)
  {
  }

  lemma AuthFollows(w: World, u: World, d: DecisionId, c: Choice)
    requires d in w.auths && u == ApplyAuth(w, d, c)
    ensures d in u.auths && Follows(w.auths[d].at, u.auths[d].at)
  {
    var at := w.auths[d].at;
    if at.LockDue? { AcquireFollows(w, d); }
    else if at.DenyDue? { DenyFollows(w, d); }
    else if at.ReserveDue? { if c.Backed? { ReserveFollows(w, d, c.backing); } }
    else if at.InsertDue? { InsertFollows(w, d, c.Fault?); }
    else if at.MarkDue? { if c.Signature? { MarkFollows(w, d, c.hash, c.tx, c.deploy); } }
    else if at.FailDue? { FailFollows(w, d); }
    else if at.RefusedReply? || at.ReplayDue? || at.PolicyDue? { GatesFollow(w, u, d, c); }
    else if at.OrgCheckDue? || at.AgentCheckDue? || at.SignDue? { ChecksFollow(w, u, d, c); }
    else if at.UndoDue? || at.FailReleases? { ReleasesFollow(w, u, d, c); }
    else { UnlocksFollow(w, u, d, c); }
  }

  // ---- The kill switch ---------------------------------------------------------------------------------

  /** A call that has passed the organization check and has not given up. */
  predicate PastOrgCheck(at: Point) { at.AgentCheckDue? || at.SignDue? || at.MarkDue? }

  /** The organization is stopped, and if d is its decision, its call has not passed the organization check. */
  predicate Barred(w: World, d: DecisionId, o: OrgId) {
    o in w.denyAll && (d in w.auths && w.auths[d].params.org == o ==> !PastOrgCheck(w.auths[d].at))
  }

  lemma OrgCheckBars(w: World, u: World, d: DecisionId, c: Choice)
    requires d in w.auths && u == ApplyAuth(w, d, c) && w.auths[d].at.OrgCheckDue? && w.auths[d].params.org in w.denyAll
    ensures d in u.auths && u.auths[d].at.FailDue?
  {
  }

  lemma ParamsStay(w: World, u: World, d: DecisionId, c: Choice)
    requires AllGood(w) && d in w.auths && u == ApplyAuth(w, d, c)
    ensures d in u.auths && u.auths[d].params == w.auths[d].params
  {
    AuthStepLocal(w, d, c);
    if u != w { assert SliceOf(u, d).auth == u.auths[d]; }
  }

  lemma OwnStepIsBarred(w: World, u: World, d: DecisionId, c: Choice, o: OrgId)
    requires AllGood(w) && d in w.auths && u == ApplyAuth(w, d, c) && Barred(w, d, o)
    ensures Barred(u, d, o)
  {
    AuthFrame(w, u, d, c);
    AuthFollows(w, u, d, c);
    ParamsStay(w, u, d, c);
    if w.auths[d].at.OrgCheckDue? && w.auths[d].params.org == o { OrgCheckBars(w, u, d, c); }
  }

  lemma OutsideKeepsSwitch(w: World, act: Action, d: DecisionId, o: OrgId)
    requires Enabled(w, act) && !act.AuthStep? && !act.WorkerStep? && act != ClearKillSwitch(o) && Barred(w, d, o)
    ensures Barred(Apply(w, act), d, o)
  {
  }

  lemma BarredStays(w: World, act: Action, d: DecisionId, o: OrgId)
    requires AllGood(w) && Enabled(w, act) && act != ClearKillSwitch(o) && Barred(w, d, o)
    ensures Barred(Apply(w, act), d, o)
  {
    match act
    case AuthStep(e, c) =>
      if e == d { OwnStepIsBarred(w, Apply(w, act), d, c, o); } else {
        AuthFrame(w, Apply(w, act), e, c);
        OtherCallStays(w, Apply(w, act), e, c, d);
      }
    case WorkerStep(p, c) => WorkerAlone(w, Apply(w, act), p, c);
    case _ => OutsideKeepsSwitch(w, act, d, o);
  }

  /** An authorize step begins no call and changes no other. */
  lemma OtherCallStays(w: World, u: World, e: DecisionId, c: Choice, d: DecisionId)
    requires AllGood(w) && e in w.auths && e != d && u == ApplyAuth(w, e, c)
    ensures (d in u.auths <==> d in w.auths) && (d in w.auths ==> u.auths[d] == w.auths[d])
  {
    AuthStepLocal(w, e, c);
    if u != w && d in w.auths { assert SliceOf(u, d) == SliceOf(w, d); }
  }

  /**
   * While an organization's kill switch stays on, no decision of it is signed but those whose calls had passed the
   * organization check when it went on, in any interleaving.
   */
  lemma {:induction false} KillSwitchIsAHardStop(w: World, acts: seq<Action>, d: DecisionId, a: AgentId, o: OrgId)
    requires Inv(w) && Barred(w, d, o) && ClearKillSwitch(o) !in acts && !CommittedFor(w.tables, d, a, o)
    ensures !CommittedFor(After(w, acts).tables, d, a, o) && Barred(After(w, acts), d, o)
  {
    if acts != [] {
      var before, act := After(w, acts[..|acts| - 1]), acts[|acts| - 1];
      KillSwitchIsAHardStop(w, acts[..|acts| - 1], d, a, o);
      RunKeeps(w, acts[..|acts| - 1]);
      if Enabled(before, act) {
        BarredStays(before, act, d, o);
        if CommittedFor(Apply(before, act).tables, d, a, o) {
          OnlySigningCommits(before, act, d, a, o);
          RowIsOfCall(before, d, o);
        }
      }
    }
  }

  lemma RowIsOfCall(w: World, d: DecisionId, o: OrgId)
    requires AllGood(w) && d in w.auths && d in w.tables.decisions && w.tables.decisions[d].org == o
    ensures w.auths[d].params.org == o
  {
    assert Good(SliceOf(w, d)) && SliceOf(w, d).row == Some(w.tables.decisions[d]);
  }

  // ---- The lock of a key ---------------------------------------------------------------------------------

  /** Between taking the lock and giving it back. */
  predicate Inside(at: Point) { !at.LockDue? && !at.RefusedReply? && !at.Finished? }

  predicate HasKey(w: World, d: DecisionId, o: OrgId, k: Key) { d in w.auths && w.auths[d].params.org == o && w.auths[d].params.key == k }

  /** Whoever is inside with this key owns its lock. */
  ghost predicate LockOwned(w: World, o: OrgId, k: Key) {
    forall d :: HasKey(w, d, o, k) && Inside(w.auths[d].at) ==> (o, k) in w.locks && w.locks[(o, k)] == d
  }

  lemma AcquireLocks(w: World, d: DecisionId)
    requires d in w.auths && w.auths[d].at.LockDue?
    ensures var u, k := ApplyAcquire(w, d), (w.auths[d].params.org, w.auths[d].params.key);
            if k in w.locks then u.locks == w.locks && d in u.auths && u.auths[d].at.RefusedReply? else u.locks == w.locks[k := d]
  {
  }

  lemma EarlyLocks(w: World, u: World, d: DecisionId, c: Choice)
    requires d in w.auths && u == ApplyAuth(w, d, c) && (BeforeReserve(w.auths[d].at) || w.auths[d].at.InsertDue? || w.auths[d].at.UndoDue?) && !w.auths[d].at.LockDue?
    ensures u.locks == w.locks
  {
  }

  lemma CheckLocks(w: World, u: World, d: DecisionId, c: Choice)
    requires d in w.auths && u == ApplyAuth(w, d, c)
    requires var at := w.auths[d].at; at.OrgCheckDue? || at.AgentCheckDue? || at.SignDue? || at.MarkDue?
    ensures u.locks == w.locks
  {
  }

  lemma LateLocks(w: World, u: World, d: DecisionId, c: Choice)
    requires d in w.auths && u == ApplyAuth(w, d, c)
    requires var at := w.auths[d].at; at.FailDue? || at.FailReleases? || at.UnlockRead? || at.Finished?
    ensures u.locks == w.locks
  {
  }

  lemma DeleteLocks(w: World, u: World, d: DecisionId, c: Choice)
    requires d in w.auths && u == ApplyAuth(w, d, c) && w.auths[d].at.UnlockDelete?
    ensures u.locks == w.locks - {(w.auths[d].params.org, w.auths[d].params.key)}
  {
  }

  /** A step takes a free lock, is refused a taken one, frees its own, or leaves the locks alone. */
  lemma AuthLocks(w: World, u: World, d: DecisionId, c: Choice)
    requires d in w.auths && u == ApplyAuth(w, d, c)
    ensures var k, at := (w.auths[d].params.org, w.auths[d].params.key), w.auths[d].at;
            if at.LockDue? && k !in w.locks then u.locks == w.locks[k := d]
            else if at.UnlockDelete? then u.locks == w.locks - {k}
            else u.locks == w.locks && (at.LockDue? ==> d in u.auths && u.auths[d].at.RefusedReply?)
  {
    var at := w.auths[d].at;
    if at.LockDue? { AcquireLocks(w, d); }
    else if at.UnlockDelete? { DeleteLocks(w, u, d, c); }
    else if at.OrgCheckDue? || at.AgentCheckDue? || at.SignDue? || at.MarkDue? { CheckLocks(w, u, d, c); }
    else if at.FailDue? || at.FailReleases? || at.UnlockRead? || at.Finished? { LateLocks(w, u, d, c); }
    else { EarlyLocks(w, u, d, c); }
  }

  lemma AuthKeepsLocks(w: World, u: World, e: DecisionId, c: Choice, o: OrgId, k: Key)
    requires AllGood(w) && e in w.auths && u == ApplyAuth(w, e, c) && LockOwned(w, o, k)
    ensures LockOwned(u, o, k)
  {
    AuthLocks(w, u, e, c);
    AuthFollows(w, u, e, c);
    ParamsStay(w, u, e, c);
    forall d | HasKey(u, d, o, k) && Inside(u.auths[d].at)
      ensures (o, k) in u.locks && u.locks[(o, k)] == d
    {
      if d != e { OtherCallStays(w, u, e, c, d); }
      assert HasKey(w, d, o, k);
    }
  }

  lemma OutsideKeepsLocks(w: World, act: Action, o: OrgId, k: Key)
    requires Enabled(w, act) && !act.AuthStep? && !act.WorkerStep? && act != LockVanishes(o, k) && LockOwned(w, o, k)
    ensures LockOwned(Apply(w, act), o, k)
  {
    var u := Apply(w, act);
    forall d | HasKey(u, d, o, k) && Inside(u.auths[d].at)
      ensures (o, k) in u.locks && u.locks[(o, k)] == d
    {
      assert HasKey(w, d, o, k);
    }
  }

  lemma LocksStay(w: World, act: Action, o: OrgId, k: Key)
    requires AllGood(w) && Enabled(w, act) && act != LockVanishes(o, k) && LockOwned(w, o, k)
    ensures LockOwned(Apply(w, act), o, k)
  {
    match act
    case AuthStep(e, c) => AuthKeepsLocks(w, Apply(w, act), e, c, o, k);
    case WorkerStep(p, c) =>
      WorkerAlone(w, Apply(w, act), p, c);
      assert forall d :: HasKey(Apply(w, act), d, o, k) ==> HasKey(w, d, o, k);
    case _ => OutsideKeepsLocks(w, act, o, k);
  }

  lemma {:induction false} LocksRun(w: World, acts: seq<Action>, o: OrgId, k: Key)
    requires Inv(w) && LockOwned(w, o, k) && LockVanishes(o, k) !in acts
    ensures LockOwned(After(w, acts), o, k)
  {
    if acts != [] {
      var before := After(w, acts[..|acts| - 1]);
      LocksRun(w, acts[..|acts| - 1], o, k);
      RunKeeps(w, acts[..|acts| - 1]);
      if Enabled(before, acts[|acts| - 1]) { LocksStay(before, acts[|acts| - 1], o, k); }
    }
  }

  /**
   * As long as its lock does not vanish by itself, at most one call of a key is inside, whatever interleaves and whoever
   * crashes; `OneDecisionPerKey` says what still holds when it does vanish.
   */
  lemma {:induction false} OneCallAtATime(w: World, acts: seq<Action>, d: DecisionId, e: DecisionId, o: OrgId, k: Key)
    requires Initial(w) && LockVanishes(o, k) !in acts
    requires var u := After(w, acts); HasKey(u, d, o, k) && HasKey(u, e, o, k) && Inside(u.auths[d].at) && Inside(u.auths[e].at)
    ensures d == e
  {
    InitialKeeps(w);
    LocksRun(w, acts, o, k);
  }
}
