// What a later call with the same idempotency key is answered (src/engines/casper-guard/policy.ts).
module GuardReplay {
  import opened Options
  import opened HoldLedger
  import opened T = GuardTables
  import opened GuardProtocol
  import opened GuardRuns
  import opened GuardTheorems
  import opened GuardScenarios

  datatype Reply = Conflict | Refused(d: DecisionId) | InProgress(d: DecisionId) | Allowed(d: DecisionId, hash: string)

  /** idempotencyReplayMatches, on the columns of a row. */
  predicate Matches(r: Decision, q: Params) {
    r.agent == q.agent && r.amount == q.amount && r.intent == q.intent && r.policyRef == q.policyRef
  }

  /** authorizeResultFromExisting: it looks at the outcome and the signature, never at the status. */
  function ReplyOf(d: DecisionId, r: Decision, hold: Option<HoldStatus>, q: Params): Reply {
    if !Matches(r, q) then Conflict
    else if !r.allow then Refused(d)
    else if r.signedHash.Some? && hold.Some? then Allowed(d, r.signedHash.value)
    else InProgress(d)
  }

  /** The reply as a world's tables stand. */
  function ReplyIn(w: World, d: DecisionId, q: Params): Reply
    requires d in w.tables.decisions
  {
    ReplyOf(d, w.tables.decisions[d], HoldAt(w, d), q)
  }

  /** The arguments that a replay compares. */
  predicate SameIntent(p: Params, q: Params) {
    p.agent == q.agent && p.amount == q.amount && p.intent == q.intent && p.policyRef == q.policyRef
  }

  lemma RecordedSlice(w: World, d: DecisionId)
    requires Inv(w) && d in w.tables.decisions
    ensures d in w.auths && Good(SliceOf(w, d)) && SliceOf(w, d).row == Some(w.tables.decisions[d]) && SliceOf(w, d).hold == HoldAt(w, d)
    ensures SliceOf(w, d).auth == w.auths[d] && (SliceOf(w, d).signed <==> d in w.signerCalls)
  {
  }

  /** A replay of q, given everything recorded about the decision: what it is told is what happened. */
  predicate Truthful(s: Slice, reply: Reply, q: Params)
    requires s.row.Some?
  {
    var r := s.row.value;
    && (reply.Conflict? <==> !SameIntent(s.auth.params, q))
    && (reply.Refused? <==> SameIntent(s.auth.params, q) && r.status.Denied?)
    && (reply.Allowed? <==> SameIntent(s.auth.params, q) && r.signedHash.Some?)
    && (reply.Allowed? ==> s.signed && !r.status.Reserved?)
  }

  lemma SliceReply(s: Slice, d: DecisionId, q: Params)
    requires Good(s) && s.row.Some?
    ensures Truthful(s, ReplyOf(d, s.row.value, s.hold, q), q)
  {
  }

  /**
   * After any run: a replay conflicts exactly with a call that had other arguments, is refused exactly when that call was
   * denied, and is allowed exactly when a signature was recorded, which only the signer can have made.
   */
  lemma {:induction false} ReplyTellsWhatHappened(w: World, acts: seq<Action>, d: DecisionId, q: Params)
    requires Initial(w) && d in After(w, acts).tables.decisions
    ensures d in After(w, acts).auths && SliceOf(After(w, acts), d).row.Some?
    ensures Truthful(SliceOf(After(w, acts), d), ReplyIn(After(w, acts), d, q), q)
  {
    var u := After(w, acts);
    InitialKeeps(w);
    RunKeeps(w, acts);
    RecordedSlice(u, d);
    SliceReply(SliceOf(u, d), d, q);
  }

  /** What one replay was told, every later replay of the same arguments is told; only `in progress` may turn into `allowed`. */
  predicate Stands(before: Reply, after: Reply) {
    after == before || (before.InProgress? && after.Allowed? && after.d == before.d)
  }

  lemma AdvancedReply(s: Slice, r: Decision, hold: Option<HoldStatus>, d: DecisionId, q: Params)
    requires Good(s) && s.row.Some? && RowAdvances(s.row.value, r) && (s.hold.Some? ==> hold.Some?)
    ensures Stands(ReplyOf(d, s.row.value, s.hold, q), ReplyOf(d, r, hold, q))
  {
  }

  lemma AdvancedRow(t: Tables, u: Tables, d: DecisionId)
    requires Advances(t, u) && d in t.decisions
    ensures d in u.decisions && RowAdvances(t.decisions[d], u.decisions[d]) && (d in t.holds ==> d in u.holds)
  {
  }

  lemma {:induction false} ReplyStands(w: World, more: seq<Action>, d: DecisionId, q: Params)
    requires Inv(w) && d in w.tables.decisions
    ensures d in After(w, more).tables.decisions
    ensures Stands(ReplyIn(w, d, q), ReplyIn(After(w, more), d, q))
  {
    var u := After(w, more);
    RunAdvances(w, more);
    AdvancedRow(w.tables, u.tables, d);
    RecordedSlice(w, d);
    AdvancedReply(SliceOf(w, d), u.tables.decisions[d], HoldAt(u, d), d, q);
  }

  /**
   * The status plays no part: a failed decision answers its key for ever as if it had not failed, with the signature if
   * there was one and with `in progress` otherwise.
   */
  lemma {:induction false} FailedAnswersForever(w: World, more: seq<Action>, d: DecisionId, q: Params)
    requires Inv(w) && d in w.tables.decisions && IsFailed(w.tables.decisions[d].status) && Matches(w.tables.decisions[d], q)
    ensures d in After(w, more).tables.decisions
    ensures var r := w.tables.decisions[d];
            ReplyIn(After(w, more), d, q) == if r.signedHash.Some? then Allowed(d, r.signedHash.value) else InProgress(d)
  {
    TerminalForever(w, more, d);
    RunKeeps(w, more);
    FailedReply(After(w, more), d, q);
  }

  lemma FailedReply(w: World, d: DecisionId, q: Params)
    requires Inv(w) && d in w.tables.decisions && IsFailed(w.tables.decisions[d].status) && Matches(w.tables.decisions[d], q)
    ensures var r := w.tables.decisions[d]; ReplyIn(w, d, q) == if r.signedHash.Some? then Allowed(d, r.signedHash.value) else InProgress(d)
  {
  }

  lemma SignedReply(w: World, d: DecisionId, q: Params)
    requires Inv(w) && d in w.tables.decisions && w.tables.decisions[d].status.Signed? && Matches(w.tables.decisions[d], q)
    ensures ReplyIn(w, d, q).Allowed?
  {
    RecordedSlice(w, d);
    SignedSliceReply(SliceOf(w, d), d, q);
  }

  lemma SignedSliceReply(s: Slice, d: DecisionId, q: Params)
    requires Good(s) && s.row.Some? && s.row.value.status.Signed? && Matches(s.row.value, q)
    ensures ReplyOf(d, s.row.value, s.hold, q).Allowed?
  {
  }

  lemma OneStepMatches(w: World, act: Action, d: DecisionId, q: Params)
    requires Inv(w) && d in w.tables.decisions
    ensures d in Next(w, act).tables.decisions && (Matches(Next(w, act).tables.decisions[d], q) ==> Matches(w.tables.decisions[d], q))
    ensures Stands(ReplyIn(w, d, q), ReplyIn(Next(w, act), d, q))
  {
    AfterOne(w, act);
    RunAdvances(w, [act]);
    AdvancedRow(w.tables, Next(w, act).tables, d);
    ReplyStands(w, [act], d, q);
  }

  /** So a decision that a revoke aborts after it was signed is FAILED_TERMINAL, and its key is still answered with ALLOW. */
  lemma {:induction false} AbortedIsStillAllowed(w: World, d: DecisionId, q: Params, backing: Backing, hash: string, p: nat, again: Params)
    requires Inv(w) && Clear(w, d, q, backing) && p !in w.workers && AgentKnown(w.tables, q.agent, q.org)
    ensures var v := Next(After(w, SignedDuringRevoke(d, q, backing, hash, p)), WorkerStep(p, Abort(d)));
            && d in v.tables.decisions && v.tables.decisions[d].status.FailedTerminal?
            && (Matches(v.tables.decisions[d], again) ==> ReplyIn(v, d, again).Allowed?)
  {
    var acts := SignedDuringRevoke(d, q, backing, hash, p);
    var u := After(w, acts);
    RevokeAbortsSigned(w, d, q, backing, hash, p);
    RunKeeps(w, acts);
    OneStepMatches(u, WorkerStep(p, Abort(d)), d, again);
    if Matches(u.tables.decisions[d], again) { SignedReply(u, d, again); }
  }
}
