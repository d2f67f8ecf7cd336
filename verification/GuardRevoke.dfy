// How far one revoke reaches: which decisions it touches, and which of those it lists can still be signed
// (src/engines/casper-guard/policy.ts, store.ts).
module GuardRevoke {
  import opened Options
  import opened T = GuardTables
  import opened GuardProtocol
  import opened GuardRuns
  import opened GuardTheorems
  import opened GuardScenarios

  // ---- Only what was listed is touched -----------------------------------------------------------------

  /** Where a revoke may stand that has listed these decisions. */
  predicate OnRevoke(w: World, p: nat, a: AgentId, listed: set<DecisionId>) {
    p in w.workers && (var v := w.workers[p];
      || (v.Aborting? && v.a == a && v.todo <= listed)
      || (v.AbortReleases? && v.a == a && v.todo <= listed && v.current in listed)
      || v.RevokeDone? || v.WorkerCrashed?)
  }

  lemma RevokeMoves(w: World, p: nat, c: Choice, a: AgentId, listed: set<DecisionId>)
    requires OnRevoke(w, p, a, listed)
    ensures OnRevoke(ApplyWorker(w, p, c), p, a, listed)
  {
  }

  lemma RevokeStays(w: World, act: Action, p: nat, a: AgentId, listed: set<DecisionId>)
    requires Enabled(w, act) && OnRevoke(w, p, a, listed)
    ensures OnRevoke(Apply(w, act), p, a, listed)
  {
    match act
    case AuthStep(e, c) => AuthFrame(w, Apply(w, act), e, c);
    case WorkerStep(r, c) => if r == p { RevokeMoves(w, p, c, a, listed); } else { WorkerAlone(w, Apply(w, act), r, c); }
    case _ =>
  }

  lemma {:induction false} RevokeRuns(w: World, acts: seq<Action>, p: nat, a: AgentId, listed: set<DecisionId>)
    requires OnRevoke(w, p, a, listed)
    ensures OnRevoke(After(w, acts), p, a, listed)
  {
    if acts != [] {
      var before := After(w, acts[..|acts| - 1]);
      RevokeRuns(w, acts[..|acts| - 1], p, a, listed);
      if Enabled(before, acts[|acts| - 1]) { RevokeStays(before, acts[|acts| - 1], p, a, listed); }
    }
  }

  /** Row, Postgres hold and every Redis hold of a decision are as they were. */
  ghost predicate Untouched(w: World, u: World, d: DecisionId) {
    RowAt(u, d) == RowAt(w, d) && HoldAt(u, d) == HoldAt(w, d) && forall b :: HotOf(u, b, d) == HotOf(w, b, d)
  }

  predicate IsAbout(s: Statement, d: DecisionId) {
    match s
    case Terminate(e, _) => e == d
    case CheckExpiry(e) => e == d
    case Settling(e, _, _) => e == d
    case SettlingHold(e) => e == d
    case ReleasingHold(e) => e == d
    case _ => false
  }

  lemma ExecuteLeaves(w: World, u: World, s: Statement, d: DecisionId)
    requires u.tables == Execute(w.tables, s) && !IsAbout(s, d)
    ensures RowAt(u, d) == RowAt(w, d) && HoldAt(u, d) == HoldAt(w, d)
  {
  }

  lemma StatementIsListed(w: World, p: nat, c: Choice, a: AgentId, listed: set<DecisionId>, d: DecisionId)
    requires OnRevoke(w, p, a, listed) && d !in listed
    ensures !IsAbout(StatementOf(w.workers[p], c), d)
  {
  }

  lemma ReleaseLeaves(w: World, u: World, a: AgentId, e: DecisionId, d: DecisionId)
    requires d != e && u.ledgers == ReleaseIn(w, a, e).ledgers
    ensures forall b :: HotOf(u, b, d) == HotOf(w, b, d)
  {
  }

  lemma StepTouchesOnlyListed(w: World, p: nat, c: Choice, a: AgentId, listed: set<DecisionId>, d: DecisionId)
    requires OnRevoke(w, p, a, listed) && d !in listed
    ensures Untouched(w, ApplyWorker(w, p, c), d)
  {
    var u := ApplyWorker(w, p, c);
    WorkerExecutes(w, u, p, c);
    StatementIsListed(w, p, c, a, listed, d);
    ExecuteLeaves(w, u, StatementOf(w.workers[p], c), d);
    StepMovesLedgers(w, u, p, c, a, listed);
    if u.ledgers != w.ledgers {
      var e :| e in listed && u.ledgers == ReleaseIn(w, a, e).ledgers;
      ReleaseLeaves(w, u, a, e, d);
    }
  }

  lemma ReleasingMovesLedgers(w: World, u: World, p: nat, c: Choice)
    requires p in w.workers && w.workers[p].AbortReleases? && u == ApplyWorker(w, p, c)
    ensures u.ledgers == w.ledgers || u.ledgers == ReleaseIn(w, w.workers[p].a, w.workers[p].current).ledgers
  {
  }

  lemma OtherwiseMovesNoLedger(w: World, u: World, p: nat, c: Choice)
    requires p in w.workers && (w.workers[p].Aborting? || w.workers[p].RevokeDone? || w.workers[p].WorkerCrashed?) && u == ApplyWorker(w, p, c)
    ensures u.ledgers == w.ledgers
  {
  }

  /** A step of the revoke removes at most the Redis hold of a decision that was listed. */
  lemma StepMovesLedgers(w: World, u: World, p: nat, c: Choice, a: AgentId, listed: set<DecisionId>)
    requires OnRevoke(w, p, a, listed) && u == ApplyWorker(w, p, c)
    ensures u.ledgers == w.ledgers || exists e :: e in listed && u.ledgers == ReleaseIn(w, a, e).ledgers
  {
    if w.workers[p].AbortReleases? { ReleasingMovesLedgers(w, u, p, c); } else { OtherwiseMovesNoLedger(w, u, p, c); }
  }

  /**
   * From its listing on, no step of a revoke changes anything of a decision that was not RESERVED then, whatever becomes
   * of that decision in the meantime: what was already signed is left alone.
   */
  lemma {:induction false} RevokeTouchesOnlyListed(w: World, more: seq<Action>, p: nat, a: AgentId, o: OrgId, yes: bool, c: Choice, d: DecisionId)
    requires p in w.workers && w.workers[p] == Aborting(a, o, yes, ReservedOf(w.tables, a, o)) && !ReservedFor(w.tables, d, a, o)
    ensures Untouched(After(w, more), Next(After(w, more), WorkerStep(p, c)), d)
  {
    RevokeRuns(w, more, p, a, ReservedOf(w.tables, a, o));
    StepTouchesOnlyListed(After(w, more), p, c, a, ReservedOf(w.tables, a, o), d);
  }

  // ---- Which listed decisions can still be signed ------------------------------------------------------

  lemma ExecuteReservesNothing(t: Tables, s: Statement, d: DecisionId, a: AgentId, o: OrgId)
    requires ReservedFor(Execute(t, s), d, a, o)
    ensures ReservedFor(t, d, a, o)
  {
  }

  lemma ExecuteKeepsSuspension(t: Tables, s: Statement, a: AgentId, o: OrgId)
    requires IsSuspended(t, a, o)
    ensures IsSuspended(Execute(t, s), a, o)
  {
  }

  lemma WorkerKeepsFence(w: World, u: World, p: nat, c: Choice, a: AgentId, o: OrgId, few: set<DecisionId>)
    requires p in w.workers && u == ApplyWorker(w, p, c) && Fenced(w, a, o, few)
    ensures Fenced(u, a, o, few)
  {
    WorkerExecutes(w, u, p, c);
    WorkerAlone(w, u, p, c);
    ExecuteKeepsSuspension(w.tables, StatementOf(w.workers[p], c), a, o);
    forall e | ReservedFor(u.tables, e, a, o)
      ensures ReservedFor(w.tables, e, a, o)
    {
      ExecuteReservesNothing(w.tables, StatementOf(w.workers[p], c), e, a, o);
    }
  }

  lemma AuthKeepsFence(w: World, u: World, d: DecisionId, c: Choice, a: AgentId, o: OrgId, few: set<DecisionId>)
    requires Inv(w) && d in w.auths && u == ApplyAuth(w, d, c) && Fenced(w, a, o, few)
    ensures Fenced(u, a, o, few)
  {
    assert Good(SliceOf(w, d));
    AuthStepLocal(w, d, c);
    if u != w { FenceKept(w, u, d, a, o, few); }
  }

  lemma FenceStays(w: World, act: Action, a: AgentId, o: OrgId, few: set<DecisionId>)
    requires Inv(w) && Enabled(w, act) && Fenced(w, a, o, few)
    ensures Fenced(Apply(w, act), a, o, few)
  {
    match act
    case AuthStep(d, c) => AuthKeepsFence(w, Apply(w, act), d, c, a, o, few);
    case WorkerStep(p, c) => WorkerKeepsFence(w, Apply(w, act), p, c, a, o, few);
    case _ => OthersKeepFence(w, act, a, o, few);
  }

  lemma OthersKeepFence(w: World, act: Action, a: AgentId, o: OrgId, few: set<DecisionId>)
    requires Enabled(w, act) && !act.AuthStep? && !act.WorkerStep? && Fenced(w, a, o, few)
    ensures Fenced(Apply(w, act), a, o, few)
  {
  }

  lemma {:induction false} FenceRuns(w: World, acts: seq<Action>, a: AgentId, o: OrgId, few: set<DecisionId>)
    requires Inv(w) && Fenced(w, a, o, few)
    ensures Fenced(After(w, acts), a, o, few)
  {
    if acts != [] {
      var before := After(w, acts[..|acts| - 1]);
      FenceRuns(w, acts[..|acts| - 1], a, o, few);
      RunKeeps(w, acts[..|acts| - 1]);
      if Enabled(before, acts[|acts| - 1]) { FenceStays(before, acts[|acts| - 1], a, o, few); }
    }
  }

  /** The call may still bring its decision to a signature: it has passed the agent check and has not been cut short. */
  predicate CanSign(w: World, d: DecisionId) { d in w.auths && w.auths[d].alive && (w.auths[d].at.SignDue? || w.auths[d].at.MarkDue?) }

  /** The decisions of the agent whose calls have passed the agent check. */
  function Past(w: World, a: AgentId, o: OrgId): set<DecisionId> {
    set d | d in w.auths && ReservedFor(w.tables, d, a, o) && (w.auths[d].at.SignDue? || w.auths[d].at.MarkDue?)
  }

  lemma ReservedIsReady(w: World, d: DecisionId, a: AgentId, o: OrgId)
    requires Inv(w) && ReservedFor(w.tables, d, a, o)
    ensures d in w.auths && w.tables.decisions[d].allow && HoldIsReserved(w.tables, d) && !CommittedFor(w.tables, d, a, o)
  {
    assert Good(SliceOf(w, d)) && SliceOf(w, d).row == Some(w.tables.decisions[d]) && SliceOf(w, d).hold == HoldAt(w, d);
  }

  /** What a stopped call did not commit is never committed. */
  lemma {:induction false} StoppedNeverCommits(w: World, acts: seq<Action>, d: DecisionId, a: AgentId, o: OrgId)
    requires Inv(w) && Stopped(w, d) && !CommittedFor(w.tables, d, a, o)
    ensures !CommittedFor(After(w, acts).tables, d, a, o)
  {
    if acts != [] {
      var before, act := After(w, acts[..|acts| - 1]), acts[|acts| - 1];
      StoppedNeverCommits(w, acts[..|acts| - 1], d, a, o);
      StoppedRuns(w, acts[..|acts| - 1], d);
      if Enabled(before, act) && CommittedFor(Apply(before, act).tables, d, a, o) { OnlySigningCommits(before, act, d, a, o); }
    }
  }

  /** A suspended agent's decision whose call cannot sign it is not committed later, in any interleaving. */
  lemma {:induction false} NeverCommitted(w: World, acts: seq<Action>, d: DecisionId, a: AgentId, o: OrgId)
    requires Inv(w) && IsSuspended(w.tables, a, o) && d in w.auths && !CommittedFor(w.tables, d, a, o) && !CanSign(w, d)
    ensures !CommittedFor(After(w, acts).tables, d, a, o)
  {
    if !w.auths[d].alive {
      StoppedNeverCommits(w, acts, d, a, o);
    } else if acts != [] {
      var before, act := After(w, acts[..|acts| - 1]), acts[|acts| - 1];
      NeverCommitted(w, acts[..|acts| - 1], d, a, o);
      if Enabled(before, act) && CommittedFor(Apply(before, act).tables, d, a, o) {
        OnlySigningCommits(before, act, d, a, o);
        FenceRuns(w, acts[..|acts| - 1], a, o, Past(w, a, o));
        RunKeeps(w, acts[..|acts| - 1]);
        ReservedIsReady(before, d, a, o);
      }
    }
  }

  /** After these actions decision d is committed, and the next step of revoke p makes it FAILED_TERMINAL. */
  ghost predicate SignsThenAborts(w: World, more: seq<Action>, p: nat, d: DecisionId, a: AgentId, o: OrgId) {
    var u := After(w, more);
    var v := Next(u, WorkerStep(p, Abort(d)));
    CommittedFor(u.tables, d, a, o) && d in v.tables.decisions && v.tables.decisions[d].status.FailedTerminal?
  }

  lemma SignerAnswers(w: World, d: DecisionId, a: AgentId, o: OrgId)
    requires d in w.auths && w.auths[d].alive && w.auths[d].at.SignDue?
    requires ReservedFor(w.tables, d, a, o) && w.tables.decisions[d].allow && HoldIsReserved(w.tables, d)
    ensures AboutToMark(Next(w, Quiet(d)), d, a, o) && Next(w, Quiet(d)).workers == w.workers
  {
  }

  lemma MarksThenAborts(w: World, p: nat, d: DecisionId, a: AgentId, o: OrgId)
    requires AboutToMark(w, d, a, o) && p in w.workers && w.workers[p].Aborting? && d in w.workers[p].todo
    ensures SignsThenAborts(w, [AuthStep(d, Signature("", None, None))], p, d, a, o)
  {
    AfterOne(w, AuthStep(d, Signature("", None, None)));
    Marks(w, d, a, o, "", None, None);
    MarkThenAbort(w, d, a, o, "", p);
  }

  lemma {:induction false} RunsThenAborts(w: World, u: World, first: seq<Action>, second: seq<Action>, p: nat, d: DecisionId, a: AgentId, o: OrgId)
    requires u == After(w, first) && SignsThenAborts(u, second, p, d, a, o)
    ensures SignsThenAborts(w, first + second, p, d, a, o)
  {
    AfterBoth(w, first, second);
  }

  lemma AsksThenAborts(w: World, p: nat, d: DecisionId, a: AgentId, o: OrgId)
    requires p in w.workers && w.workers[p].Aborting? && d in w.workers[p].todo && CanSign(w, d) && w.auths[d].at.SignDue?
    requires ReservedFor(w.tables, d, a, o) && w.tables.decisions[d].allow && HoldIsReserved(w.tables, d)
    ensures SignsThenAborts(w, [Quiet(d)] + [AuthStep(d, Signature("", None, None))], p, d, a, o)
  {
    var asked := Next(w, Quiet(d));
    SignerAnswers(w, d, a, o);
    AfterOne(w, Quiet(d));
    MarksThenAborts(asked, p, d, a, o);
    RunsThenAborts(w, asked, [Quiet(d)], [AuthStep(d, Signature("", None, None))], p, d, a, o);
  }

  lemma DueToMark(w: World, d: DecisionId, a: AgentId, o: OrgId)
    requires CanSign(w, d) && w.auths[d].at.MarkDue? && ReservedFor(w.tables, d, a, o) && w.tables.decisions[d].allow && HoldIsReserved(w.tables, d)
    ensures AboutToMark(w, d, a, o)
  {
  }

  lemma {:induction false} PastCheckIsAborted(w: World, p: nat, d: DecisionId, a: AgentId, o: OrgId) returns (more: seq<Action>)
    requires p in w.workers && w.workers[p].Aborting? && d in w.workers[p].todo && CanSign(w, d)
    requires ReservedFor(w.tables, d, a, o) && w.tables.decisions[d].allow && HoldIsReserved(w.tables, d)
    ensures SignsThenAborts(w, more, p, d, a, o)
  {
    if w.auths[d].at.MarkDue? {
      DueToMark(w, d, a, o);
      MarksThenAborts(w, p, d, a, o);
      more := [AuthStep(d, Signature("", None, None))];
    } else {
      AsksThenAborts(w, p, d, a, o);
      more := [Quiet(d)] + [AuthStep(d, Signature("", None, None))];
    }
  }

  // ---- Before the agent check, when the revoke suspended nobody ----------------------------------------

  /** A live call of the agent whose RESERVED decision the revoke is about to abort. */
  predicate UpForAbort(w: World, p: nat, d: DecisionId, a: AgentId, o: OrgId) {
    && p in w.workers && w.workers[p].Aborting? && d in w.workers[p].todo
    && d in w.auths && w.auths[d].alive && w.auths[d].params.agent == a && w.auths[d].params.org == o
    && ReservedFor(w.tables, d, a, o) && w.tables.decisions[d].allow && HoldIsReserved(w.tables, d)
  }

  lemma ReservedIsUpForAbort(w: World, p: nat, d: DecisionId, a: AgentId, o: OrgId)
    requires Inv(w) && p in w.workers && w.workers[p].Aborting? && d in w.workers[p].todo
    requires ReservedFor(w.tables, d, a, o) && d in w.auths && w.auths[d].alive
    ensures UpForAbort(w, p, d, a, o)
  {
    ReservedIsReady(w, d, a, o);
    assert Good(SliceOf(w, d));
  }

  lemma MovedStaysUpForAbort(w: World, p: nat, d: DecisionId, a: AgentId, o: OrgId, at: Point)
    requires UpForAbort(w, p, d, a, o)
    ensures UpForAbort(MoveTo(w, d, at), p, d, a, o)
  {
  }

  lemma {:induction false} AgentCheckThenAborts(w: World, p: nat, d: DecisionId, a: AgentId, o: OrgId) returns (more: seq<Action>)
    requires UpForAbort(w, p, d, a, o) && w.auths[d].at.AgentCheckDue? && !IsSuspended(w.tables, a, o)
    ensures SignsThenAborts(w, more, p, d, a, o)
  {
    var u := MoveTo(w, d, SignDue);
    PassesAgentCheck(w, d);
    AfterOne(w, Quiet(d));
    MovedStaysUpForAbort(w, p, d, a, o, SignDue);
    more := PastCheckIsAborted(u, p, d, a, o);
    RunsThenAborts(w, u, [Quiet(d)], more, p, d, a, o);
    more := [Quiet(d)] + more;
  }

  lemma {:induction false} OrgCheckThenAborts(w: World, p: nat, d: DecisionId, a: AgentId, o: OrgId) returns (more: seq<Action>)
    requires UpForAbort(w, p, d, a, o) && w.auths[d].at.OrgCheckDue? && o !in w.denyAll && !IsSuspended(w.tables, a, o)
    ensures SignsThenAborts(w, more, p, d, a, o)
  {
    var u := MoveTo(w, d, AgentCheckDue);
    PassesOrgCheck(w, d);
    AfterOne(w, Quiet(d));
    MovedStaysUpForAbort(w, p, d, a, o, AgentCheckDue);
    more := AgentCheckThenAborts(u, p, d, a, o);
    RunsThenAborts(w, u, [Quiet(d)], more, p, d, a, o);
    more := [Quiet(d)] + more;
  }

  lemma {:induction false} ChecksThenAborts(w: World, p: nat, d: DecisionId, a: AgentId, o: OrgId) returns (more: seq<Action>)
    requires UpForAbort(w, p, d, a, o) && w.auths[d].at.OrgCheckDue? && !IsSuspended(w.tables, a, o)
    ensures SignsThenAborts(w, more, p, d, a, o)
  {
    var u := w.(denyAll := w.denyAll - {o});
    AfterOne(w, ClearKillSwitch(o));
    more := OrgCheckThenAborts(u, p, d, a, o);
    RunsThenAborts(w, u, [ClearKillSwitch(o)], more, p, d, a, o);
    more := [ClearKillSwitch(o)] + more;
  }

  /**
   * The call may still sign a decision that this revoke has listed: it is alive and has passed the agent check, or has
   * the checks before it and will pass them, because the revoke suspended nobody.
   */
  predicate MaySign(w: World, d: DecisionId, suspended: bool) {
    d in w.auths && w.auths[d].alive && (var at := w.auths[d].at; at.SignDue? || at.MarkDue? || (!suspended && (at.OrgCheckDue? || at.AgentCheckDue?)))
  }

  lemma {:induction false} MaySignIsAborted(w: World, p: nat, a: AgentId, o: OrgId, yes: bool, d: DecisionId) returns (more: seq<Action>)
    requires Inv(w) && p in w.workers && w.workers[p] == Aborting(a, o, yes, ReservedOf(w.tables, a, o)) && FlagGood(w, a, o, yes)
    requires ReservedFor(w.tables, d, a, o) && MaySign(w, d, yes)
    ensures SignsThenAborts(w, more, p, d, a, o)
  {
    ReservedIsUpForAbort(w, p, d, a, o);
    match w.auths[d].at
    case OrgCheckDue => more := ChecksThenAborts(w, p, d, a, o);
    case AgentCheckDue => more := AgentCheckThenAborts(w, p, d, a, o);
    case _ => more := PastCheckIsAborted(w, p, d, a, o);
  }

  /** The call of a RESERVED decision stands at a check, at the signer or its mark, or has given up. */
  lemma ReservedCallStands(w: World, d: DecisionId, a: AgentId, o: OrgId)
    requires Inv(w) && ReservedFor(w.tables, d, a, o)
    ensures d in w.auths && (MaySign(w, d, false) || Stopped(w, d))
  {
    ReservedIsReady(w, d, a, o);
    assert Good(SliceOf(w, d));
  }

  lemma {:induction false} OnlyListedAborted(w: World, more: seq<Action>, p: nat, a: AgentId, o: OrgId, yes: bool, d: DecisionId)
    requires Inv(w) && p in w.workers && w.workers[p] == Aborting(a, o, yes, ReservedOf(w.tables, a, o)) && FlagGood(w, a, o, yes)
    requires SignsThenAborts(w, more, p, d, a, o) && !CommittedFor(w.tables, d, a, o)
    ensures ReservedFor(w.tables, d, a, o) && MaySign(w, d, yes)
  {
    if !ReservedFor(w.tables, d, a, o) {
      RevokeTouchesOnlyListed(w, more, p, a, o, yes, Abort(d), d);
    } else {
      ReservedCallStands(w, d, a, o);
      if yes && !CanSign(w, d) { NeverCommitted(w, more, d, a, o); }
      else if Stopped(w, d) { StoppedNeverCommits(w, more, d, a, o); }
    }
  }

  /**
   * Exactly when a revoke aborts a decision that was signed while it ran: the decision was RESERVED when the revoke
   * listed it, and its call, still alive, had passed the agent check by then, or, for a revoke that suspended nobody,
   * had at least not given up.
   */
  lemma {:induction false} AbortsSignedIffMaySign(w: World, p: nat, a: AgentId, o: OrgId, yes: bool, d: DecisionId)
    requires Inv(w) && p in w.workers && w.workers[p] == Aborting(a, o, yes, ReservedOf(w.tables, a, o)) && !CommittedFor(w.tables, d, a, o)
    ensures (exists more :: SignsThenAborts(w, more, p, d, a, o)) <==> ReservedFor(w.tables, d, a, o) && MaySign(w, d, yes)
  {
    assert WorkerGood(w, w.workers[p]);
    if ReservedFor(w.tables, d, a, o) && MaySign(w, d, yes) { var run := MaySignIsAborted(w, p, a, o, yes, d); }
    if more :| SignsThenAborts(w, more, p, d, a, o) { OnlyListedAborted(w, more, p, a, o, yes, d); }
  }
}
