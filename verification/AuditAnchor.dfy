// Anchoring settled decisions: the claim/confirm/fail rows of Postgres, workers that submit deploys,
// and the registry contract that executes them later, in any order and possibly more than once
// (src/engines/casper-guard/reconcile-worker.ts, store.ts, contracts/odra-guard-registry/src/lib.rs).
module AuditAnchor {
  import opened Options
  import opened GuardTables

  // ---- The registry contract ---------------------------------------------------------------

  datatype Registry = Registry(anchors: map<DecisionId, string>, count: nat)

  /** anchor_decision: the flag says that the call reverted with AnchorImmutable. */
  function AnchorSpec(r: Registry, d: DecisionId, hash: string): (Registry, bool) {
    if d in r.anchors then (r, r.anchors[d] != hash)
    else (Registry(r.anchors[d := hash], r.count + 1), false)
  }

  predicate Counts(r: Registry) { r.count == |r.anchors| }

  /** An anchor is immutable, the counter counts distinct ids, and a call reverts exactly on a second hash for one id. */
  lemma AnchoringIsImmutable(r: Registry, d: DecisionId, hash: string)
    ensures var a := AnchorSpec(r, d, hash);
            && (Counts(r) ==> Counts(a.0))
            && (forall e :: e in r.anchors ==> e in a.0.anchors && a.0.anchors[e] == r.anchors[e])
            && (a.1 <==> d in r.anchors && r.anchors[d] != hash)
            && (!a.1 ==> d in a.0.anchors && a.0.anchors[d] == hash)
            && (d in r.anchors ==> a.0 == r)
  {
  }

  class GuardRegistry {
    var anchors: map<DecisionId, string>
    var count: nat

    ghost function Now(): Registry
      reads this
    {
      Registry(anchors, count)
    }

    constructor ()
      ensures Now() == Registry(map[], 0) && Counts(Now())
    {
      anchors, count := map[], 0;
    }

    method AnchorDecision(d: DecisionId, hash: string) returns (reverted: bool)
      modifies this
      ensures (Now(), reverted) == AnchorSpec(old(Now()), d, hash)
      ensures old(Counts(Now())) ==> Counts(Now())
    {
      AnchoringIsImmutable(Now(), d, hash);
      if d in anchors {
        var existing := anchors[d];
        return existing != hash;
      }
      anchors := anchors[d := hash];
      count := count + 1;
      reverted := false;
    }

    method GetAnchor(d: DecisionId) returns (hash: Option<string>)
      ensures hash.Some? <==> d in anchors
      ensures hash.Some? ==> hash.value == anchors[d]
    {
      hash := if d in anchors then Some(anchors[d]) else None;
    }

    method TotalAnchored() returns (total: nat)
      ensures total == count && (Counts(Now()) ==> total == |anchors|)
    {
      total := count;
    }
  }

  // ---- The decision hash ------------------------------------------------------------------------

  /** The fields that computeCasperGuardDecisionHash covers; the status is not one of them. */
  datatype Hashed = Hashed(d: DecisionId, org: OrgId, agent: AgentId, amount: nat, intent: string, policyRef: string, allow: bool,
                           signedHash: Option<string>, txHash: Option<string>, deployHash: Option<string>)

  function HashedOf(d: DecisionId, r: Decision): Hashed {
    Hashed(d, r.org, r.agent, r.amount, r.intent, r.policyRef, r.allow, r.signedHash, r.txHash, r.deployHash)
  }

  // ---- The protocol ------------------------------------------------------------------------------

  datatype AnchorStatus = Submitted | Confirmed | Failed

  /** A row of casper_guard_audit_anchors, under its unique key (decision, hash). */
  datatype AnchorRow = AnchorRow(status: AnchorStatus, txHash: Option<string>)

  type AnchorKey = (DecisionId, string)

  datatype Worker =
    | ReadDue(d: DecisionId)
    | ClaimDue(key: AnchorKey) | SubmitDue(key: AnchorKey) | ConfirmDue(key: AnchorKey, tx: string) | FailDue(key: AnchorKey)
    | Done

  /** `digest` is the hash function; `deploys` are all submissions the network ever accepted. */
  datatype World = World(tables: Tables, digest: Hashed -> string, rows: map<AnchorKey, AnchorRow>, deploys: set<AnchorKey>,
                         registry: Registry, reverts: nat, workers: map<nat, Worker>)

  datatype Action =
    | Change(t: Tables)                                    // anything else that happens to decisions and holds
    | Begin(p: nat, d: DecisionId)
    | Step(p: nat, stale: bool, fault: bool, accepted: bool, tx: string)
    | Execute(key: AnchorKey)                              // the chain runs an accepted deploy, maybe not for the first time

  function DigestOf(w: World, d: DecisionId): string
    requires d in w.tables.decisions
  {
    w.digest(HashedOf(d, w.tables.decisions[d]))
  }

  ghost predicate Enabled(w: World, act: Action) {
    match act
    case Change(t) => Advances(w.tables, t)
    case Begin(p, _) => p !in w.workers
    case Step(p, _, _, _, _) => p in w.workers
    case Execute(key) => key in w.deploys
  }

  function SetWorker(w: World, p: nat, v: Worker): World { w.(workers := w.workers[p := v]) }

  function SetRow(w: World, key: AnchorKey, row: AnchorRow): World { w.(rows := w.rows[key := row]) }

  function Apply(w: World, act: Action): World {
    match act
    case Change(t) => w.(tables := t)
    case Begin(p, d) => SetWorker(w, p, ReadDue(d))
    case Step(p, stale, fault, accepted, tx) => if p in w.workers then ApplyStep(w, p, stale, fault, accepted, tx) else w
    case Execute(key) =>
      var r := AnchorSpec(w.registry, key.0, key.1);
      w.(registry := r.0, reverts := if r.1 then w.reverts + 1 else w.reverts)
  }

  predicate IsSubmitted(w: World, key: AnchorKey) { key in w.rows && w.rows[key].status.Submitted? }

  /** claimCasperGuardAuditAnchor takes a new key, a failed row, or a submitted row that has gone stale. */
  predicate Claims(w: World, key: AnchorKey, stale: bool) {
    key !in w.rows || w.rows[key].status.Failed? || (w.rows[key].status.Submitted? && stale)
  }

  function ApplyStep(w: World, p: nat, stale: bool, fault: bool, accepted: bool, tx: string): World
    requires p in w.workers
  {
    match w.workers[p]
    case ReadDue(d) =>
      if d !in w.tables.decisions || !w.tables.decisions[d].status.Settled? then SetWorker(w, p, Done)
      else
        var key := (d, DigestOf(w, d));
        if key in w.rows && w.rows[key].status.Confirmed? then SetWorker(w, p, Done) else SetWorker(w, p, ClaimDue(key))
    case ClaimDue(key) =>
      if Claims(w, key, stale) then SetWorker(SetRow(w, key, AnchorRow(Submitted, None)), p, SubmitDue(key)) else SetWorker(w, p, Done)
    case SubmitDue(key) =>
      var u := if accepted || !fault then w.(deploys := w.deploys + {key}) else w;
      SetWorker(u, p, if fault then FailDue(key) else ConfirmDue(key, tx))
    case ConfirmDue(key, hash) =>
      if fault then SetWorker(w, p, FailDue(key))
      else SetWorker(if IsSubmitted(w, key) then SetRow(w, key, AnchorRow(Confirmed, Some(hash))) else w, p, Done)
    case FailDue(key) =>
      SetWorker(if IsSubmitted(w, key) then SetRow(w, key, w.rows[key].(status := Failed)) else w, p, Done)
    case Done => w
  }

  // ---- One hash per decision ---------------------------------------------------------------------

  /** The key is the one hash that the decision can ever have: it is SETTLED, so every hashed field is frozen. */
  predicate Sealed(w: World, key: AnchorKey) {
    key.0 in w.tables.decisions && w.tables.decisions[key.0].status.Settled? && key.1 == DigestOf(w, key.0)
  }

  predicate WorkerSealed(w: World, v: Worker) {
    match v
    case ClaimDue(key) => Sealed(w, key)
    case SubmitDue(key) => Sealed(w, key)
    case ConfirmDue(key, _) => Sealed(w, key) && key in w.deploys
    case FailDue(key) => Sealed(w, key)
    case _ => true
  }

  ghost predicate Inv(w: World) {
    && (forall key :: key in w.rows ==> Sealed(w, key))
    && (forall key :: key in w.deploys ==> Sealed(w, key))
    && (forall d :: d in w.registry.anchors ==> (d, w.registry.anchors[d]) in w.deploys)
    && (forall p :: p in w.workers ==> WorkerSealed(w, w.workers[p]))
    && (forall key :: key in w.rows && w.rows[key].status.Confirmed? ==> key in w.deploys)
    && Counts(w.registry) && w.reverts == 0
  }

  lemma SealedStays(w: World, t: Tables, key: AnchorKey)
    requires Sealed(w, key) && Advances(w.tables, t)
    ensures Sealed(w.(tables := t), key)
  {
  }

  lemma ChangeKeeps(w: World, u: World, t: Tables)
    requires Inv(w) && Advances(w.tables, t) && u == w.(tables := t)
    ensures Inv(u)
  {
    forall key | Sealed(w, key)
      ensures Sealed(u, key)
    {
      SealedStays(w, t, key);
    }
  }

  /** The contract never sees a second hash for an id, so AnchorImmutable never fires. */
  lemma ExecuteKeeps(w: World, u: World, key: AnchorKey)
    requires Inv(w) && key in w.deploys && u == Apply(w, Execute(key))
    ensures Inv(u)
  {
  }

  /** A worker moves on, to a place that it has reason to be in. */
  lemma MoveKeeps(w: World, u: World, p: nat, v: Worker)
    requires Inv(w) && WorkerSealed(w, v) && u == SetWorker(w, p, v)
    ensures Inv(u)
  {
  }

  /** A row is written under a sealed key, and confirmed only for an accepted deploy. */
  lemma RowKeeps(w: World, u: World, key: AnchorKey, row: AnchorRow)
    requires Inv(w) && Sealed(w, key) && (row.status.Confirmed? ==> key in w.deploys) && u == SetRow(w, key, row)
    ensures Inv(u)
  {
  }

  lemma DeployKeeps(w: World, u: World, key: AnchorKey)
    requires Inv(w) && Sealed(w, key) && u == w.(deploys := w.deploys + {key})
    ensures Inv(u)
  {
  }

  lemma ReadKeeps(w: World, u: World, p: nat, stale: bool, fault: bool, accepted: bool, tx: string)
    requires Inv(w) && p in w.workers && w.workers[p].ReadDue? && u == ApplyStep(w, p, stale, fault, accepted, tx)
    ensures Inv(u)
  {
    MoveKeeps(w, u, p, u.workers[p]);
  }

  lemma ClaimKeeps(w: World, u: World, p: nat, key: AnchorKey, stale: bool, fault: bool, accepted: bool, tx: string)
    requires Inv(w) && p in w.workers && w.workers[p] == ClaimDue(key) && u == ApplyStep(w, p, stale, fault, accepted, tx)
    ensures Inv(u)
  {
    assert WorkerSealed(w, w.workers[p]);
    if Claims(w, key, stale) {
      var claimed := SetRow(w, key, AnchorRow(Submitted, None));
      RowKeeps(w, claimed, key, AnchorRow(Submitted, None));
      MoveKeeps(claimed, u, p, SubmitDue(key));
    } else {
      MoveKeeps(w, u, p, Done);
    }
  }

  lemma SubmitKeeps(w: World, u: World, p: nat, key: AnchorKey, stale: bool, fault: bool, accepted: bool, tx: string)
    requires Inv(w) && p in w.workers && w.workers[p] == SubmitDue(key) && u == ApplyStep(w, p, stale, fault, accepted, tx)
    ensures Inv(u)
  {
    assert WorkerSealed(w, w.workers[p]);
    var sent := if accepted || !fault then w.(deploys := w.deploys + {key}) else w;
    if sent != w { DeployKeeps(w, sent, key); }
    assert Sealed(sent, key);
    MoveKeeps(sent, u, p, if fault then FailDue(key) else ConfirmDue(key, tx));
  }

  /** The last write of a worker that got as far as the network. */
  lemma CloseKeeps(w: World, u: World, p: nat, key: AnchorKey, stale: bool, fault: bool, accepted: bool, tx: string)
    requires Inv(w) && p in w.workers && u == ApplyStep(w, p, stale, fault, accepted, tx)
    requires w.workers[p] == FailDue(key) || exists hash :: w.workers[p] == ConfirmDue(key, hash)
    ensures Inv(u)
  {
    assert WorkerSealed(w, w.workers[p]);
    if w.workers[p].ConfirmDue? && fault {
      MoveKeeps(w, u, p, FailDue(key));
    } else if IsSubmitted(w, key) {
      var row := if w.workers[p].FailDue? then w.rows[key].(status := Failed) else AnchorRow(Confirmed, Some(w.workers[p].tx));
      var closed := SetRow(w, key, row);
      RowKeeps(w, closed, key, row);
      MoveKeeps(closed, u, p, Done);
    } else {
      MoveKeeps(w, u, p, Done);
    }
  }

  lemma StepKeeps(w: World, u: World, p: nat, stale: bool, fault: bool, accepted: bool, tx: string)
    requires Inv(w) && p in w.workers && u == ApplyStep(w, p, stale, fault, accepted, tx)
    ensures Inv(u)
  {
    match w.workers[p]
    case ReadDue(_) => ReadKeeps(w, u, p, stale, fault, accepted, tx);
    case ClaimDue(key) => ClaimKeeps(w, u, p, key, stale, fault, accepted, tx);
    case SubmitDue(key) => SubmitKeeps(w, u, p, key, stale, fault, accepted, tx);
    case ConfirmDue(key, _) => CloseKeeps(w, u, p, key, stale, fault, accepted, tx);
    case FailDue(key) => CloseKeeps(w, u, p, key, stale, fault, accepted, tx);
    case Done =>
  }

  lemma ActionKeeps(w: World, u: World, act: Action)
    requires Inv(w) && Enabled(w, act) && u == Apply(w, act)
    ensures Inv(u)
  {
    match act
    case Change(t) => ChangeKeeps(w, u, t);
    case Begin(p, d) => MoveKeeps(w, u, p, ReadDue(d));
    case Step(p, stale, fault, accepted, tx) => StepKeeps(w, u, p, stale, fault, accepted, tx);
    case Execute(key) => ExecuteKeeps(w, u, key);
  }

  // ---- Runs ----------------------------------------------------------------------------------------

  ghost function Next(w: World, act: Action): World { if Enabled(w, act) then Apply(w, act) else w }

  ghost function After(w: World, acts: seq<Action>): World {
    if acts == [] then w else Next(After(w, acts[..|acts| - 1]), acts[|acts| - 1])
  }

  predicate Initial(w: World) {
    w.rows == map[] && w.deploys == {} && w.registry == Registry(map[], 0) && w.reverts == 0 && w.workers == map[]
  }

  lemma {:induction false} RunKeeps(w: World, acts: seq<Action>)
    requires Inv(w)
    ensures Inv(After(w, acts))
  {
    if acts != [] {
      var before, act := After(w, acts[..|acts| - 1]), acts[|acts| - 1];
      RunKeeps(w, acts[..|acts| - 1]);
      if Enabled(before, act) { ActionKeeps(before, Apply(before, act), act); }
    }
  }

  /**
   * Over any interleaving of workers, stale takeovers, retries and changes to decisions: no anchoring reverts, the
   * counter is the number of decisions on chain, all deploys for one decision carry the same hash, and a confirmed row's
   * hash is the only one that can be on chain.
   */
  lemma {:induction false} AnchoringNeverReverts(w: World, acts: seq<Action>)
    requires Initial(w)
    ensures var u := After(w, acts);
            && u.reverts == 0 && u.registry.count == |u.registry.anchors|
            && (forall k, j :: k in u.deploys && j in u.deploys && k.0 == j.0 ==> k == j)
            && (forall k :: k in u.rows && u.rows[k].status.Confirmed? && k.0 in u.registry.anchors ==> u.registry.anchors[k.0] == k.1)
  {
    var u := After(w, acts);
    RunKeeps(w, acts);
    forall k | k in u.rows && u.rows[k].status.Confirmed? && k.0 in u.registry.anchors
      ensures u.registry.anchors[k.0] == k.1
    {
      assert Sealed(u, (k.0, u.registry.anchors[k.0]));
    }
  }

  lemma {:induction false} DigestIsFixed(w: World, acts: seq<Action>)
    ensures After(w, acts).digest == w.digest
  {
    if acts != [] {
      DigestIsFixed(w, acts[..|acts| - 1]);
      StepKeepsDigest(After(w, acts[..|acts| - 1]), acts[|acts| - 1]);
    }
  }

  lemma StepKeepsDigest(w: World, act: Action)
    ensures Next(w, act).digest == w.digest
  {
  }

  /** What is on chain, and what every row stands for, is the digest of the decision as it is now: settled, with these fields. */
  lemma {:induction false} AnchorSealsTheDecision(w: World, acts: seq<Action>, key: AnchorKey)
    requires Initial(w)
    requires var u := After(w, acts); key in u.rows || key in u.deploys || (key.0 in u.registry.anchors && u.registry.anchors[key.0] == key.1)
    ensures var u := After(w, acts);
            && key.0 in u.tables.decisions
            && (var r := u.tables.decisions[key.0];
                && r.status.Settled?
                && key.1 == w.digest(Hashed(key.0, r.org, r.agent, r.amount, r.intent, r.policyRef, r.allow, r.signedHash, r.txHash, r.deployHash)))
  {
    RunKeeps(w, acts);
    DigestIsFixed(w, acts);
    assert Sealed(After(w, acts), key);
  }

  /** A confirmed row stays as it is. */
  lemma {:induction false} ConfirmedForever(w: World, acts: seq<Action>, key: AnchorKey)
    requires Inv(w) && key in w.rows && w.rows[key].status.Confirmed?
    ensures key in After(w, acts).rows && After(w, acts).rows[key] == w.rows[key]
  {
    if acts != [] {
      RunKeeps(w, acts[..|acts| - 1]);
      ConfirmedForever(w, acts[..|acts| - 1], key);
      ConfirmedStays(After(w, acts[..|acts| - 1]), acts[|acts| - 1], key);
    }
  }

  lemma ConfirmedStays(w: World, act: Action, key: AnchorKey)
    requires key in w.rows && w.rows[key].status.Confirmed?
    ensures key in Next(w, act).rows && Next(w, act).rows[key] == w.rows[key]
  {
  }

  // ---- When a hash is on chain -----------------------------------------------------------------------

  /** Only the execution of a deploy moves the registry. */
  lemma OnlyExecutionAnchors(w: World, act: Action)
    ensures Next(w, act).registry == if act.Execute? && act.key in w.deploys then AnchorSpec(w.registry, act.key.0, act.key.1).0 else w.registry
  {
  }

  /** An anchor on chain is there, with the same hash, after any run. */
  lemma {:induction false} AnchoredForever(w: World, acts: seq<Action>, d: DecisionId)
    requires d in w.registry.anchors
    ensures d in After(w, acts).registry.anchors && After(w, acts).registry.anchors[d] == w.registry.anchors[d]
  {
    if acts != [] {
      AnchoredForever(w, acts[..|acts| - 1], d);
      OnlyExecutionAnchors(After(w, acts[..|acts| - 1]), acts[|acts| - 1]);
    }
  }

  /** Action i of the run executes an accepted deploy for decision d. */
  ghost predicate Executes(w: World, acts: seq<Action>, i: nat, d: DecisionId) {
    i < |acts| && acts[i].Execute? && acts[i].key.0 == d && acts[i].key in After(w, acts[..i]).deploys
  }

  lemma ExecutesEarlier(w: World, acts: seq<Action>, i: nat, d: DecisionId)
    requires i + 1 < |acts|
    ensures Executes(w, acts, i, d) <==> Executes(w, acts[..|acts| - 1], i, d)
  {
    assert acts[..|acts| - 1][..i] == acts[..i];
  }

  /** Starting with an empty registry, a decision is on chain exactly when some deploy for it was executed. */
  lemma {:induction false} AnchoredIffExecuted(w: World, acts: seq<Action>, d: DecisionId)
    requires w.registry.anchors == map[]
    ensures d in After(w, acts).registry.anchors <==> exists i: nat :: Executes(w, acts, i, d)
  {
    if acts != [] {
      var n := |acts| - 1;
      AnchoredIffExecuted(w, acts[..n], d);
      OnlyExecutionAnchors(After(w, acts[..n]), acts[n]);
      if i: nat :| Executes(w, acts[..n], i, d) {
        ExecutesEarlier(w, acts, i, d);
      }
      if i: nat :| Executes(w, acts, i, d) && i < n {
        ExecutesEarlier(w, acts, i, d);
      }
      assert Executes(w, acts, n, d) <==> acts[n].Execute? && acts[n].key.0 == d && acts[n].key in After(w, acts[..n]).deploys;
    }
  }

  /**
   * After any run from empty stores a confirmed row's deploy was accepted, and its hash is on chain if and only if the
   * chain has executed a deploy for that decision; if it has not, the next execution of the row's deploy anchors it.
   */
  lemma {:induction false} ConfirmedIsAnchoredOnceRun(w: World, acts: seq<Action>, key: AnchorKey)
    requires Initial(w) && key in After(w, acts).rows && After(w, acts).rows[key].status.Confirmed?
    ensures var u := After(w, acts);
            && key in u.deploys
            && (key.0 in u.registry.anchors && u.registry.anchors[key.0] == key.1 <==> exists i: nat :: Executes(w, acts, i, key.0))
    ensures var v := Next(After(w, acts), Execute(key));
            key.0 in v.registry.anchors && v.registry.anchors[key.0] == key.1 && v.reverts == 0
  {
    var u := After(w, acts);
    RunKeeps(w, acts);
    AnchoringNeverReverts(w, acts);
    AnchoredIffExecuted(w, acts, key.0);
    ExecuteKeeps(u, Apply(u, Execute(key)), key);
    AnchoringIsImmutable(u.registry, key.0, key.1);
  }

  /** One worker's undisturbed pass: read, claim, submit, confirm. */
  function Pass(p: nat, d: DecisionId, tx: string): seq<Action> {
    [Begin(p, d)] + [Quiet(p, tx)] + [Quiet(p, tx)] + [Quiet(p, tx)] + [Quiet(p, tx)]
  }

  function Quiet(p: nat, tx: string): Action { Step(p, false, false, true, tx) }

  lemma {:induction false} Extends(w: World, acts: seq<Action>, act: Action, u: World, v: World)
    requires After(w, acts) == u && Next(u, act) == v
    ensures After(w, acts + [act]) == v
  {
    assert (acts + [act])[..|acts|] == acts;
  }

  /**
   * From empty stores, for any settled decision: after one undisturbed pass its row is confirmed and its hash is not on
   * chain; the execution of the deploy is what puts it there.
   */
  lemma {:induction false} ConfirmedBeforeExecution(w: World, p: nat, d: DecisionId, tx: string)
    requires Initial(w) && d in w.tables.decisions && w.tables.decisions[d].status.Settled?
    ensures var key, u := (d, DigestOf(w, d)), After(w, Pass(p, d, tx));
            && key in u.rows && u.rows[key] == AnchorRow(Confirmed, Some(tx)) && key in u.deploys
            && d !in u.registry.anchors
            && (var v := Next(u, Execute(key)); d in v.registry.anchors && v.registry.anchors[d] == key.1)
  {
    var key := (d, DigestOf(w, d));
    var w1 := SetWorker(w, p, ReadDue(d));
    Extends(w, [], Begin(p, d), w, w1);
    assert [] + [Begin(p, d)] == [Begin(p, d)];
    var w2 := SetWorker(w1, p, ClaimDue(key));
    Extends(w, [Begin(p, d)], Quiet(p, tx), w1, w2);
    var w3 := SetWorker(SetRow(w2, key, AnchorRow(Submitted, None)), p, SubmitDue(key));
    Extends(w, [Begin(p, d)] + [Quiet(p, tx)], Quiet(p, tx), w2, w3);
    var w4 := SetWorker(w3.(deploys := w3.deploys + {key}), p, ConfirmDue(key, tx));
    Extends(w, [Begin(p, d)] + [Quiet(p, tx)] + [Quiet(p, tx)], Quiet(p, tx), w3, w4);
    var w5 := SetWorker(SetRow(w4, key, AnchorRow(Confirmed, Some(tx))), p, Done);
    Extends(w, [Begin(p, d)] + [Quiet(p, tx)] + [Quiet(p, tx)] + [Quiet(p, tx)], Quiet(p, tx), w4, w5);
  }

  // ---- Who may anchor, and what a failed try leaves ---------------------------------------------------

  /** No row, a failed one, or a claim that has gone stale: then the anchor may be tried. */
  predicate MayTry(w: World, key: AnchorKey, stale: bool) {
    key !in w.rows || w.rows[key].status == Failed || (w.rows[key].status == Submitted && stale)
  }

  /** A worker that has read the decision and found no confirmed row for it. */
  lemma {:induction false} ReadsUp(w: World, p: nat, d: DecisionId, key: AnchorKey, act: Action)
    requires p !in w.workers && d in w.tables.decisions && w.tables.decisions[d].status.Settled? && key == (d, DigestOf(w, d))
    requires act.Step? && act.p == p && (key in w.rows ==> w.rows[key].status != Confirmed)
    ensures After(w, [Begin(p, d)] + [act]) == SetWorker(w, p, ClaimDue(key))
  {
    var w1, w2 := SetWorker(w, p, ReadDue(d)), SetWorker(w, p, ClaimDue(key));
    assert [] + [Begin(p, d)] == [Begin(p, d)];
    Extends(w, [], Begin(p, d), w, w1);
    assert w1.workers[p := ClaimDue(key)] == w2.workers;
    Extends(w, [Begin(p, d)], act, w1, w2);
  }

  lemma WorkerTwice(w: World, p: nat, v: Worker, next: Worker)
    ensures SetWorker(SetWorker(w, p, v), p, next) == SetWorker(w, p, next)
  {
    assert w.workers[p := v][p := next] == w.workers[p := next];
  }

  lemma RowTwice(w: World, key: AnchorKey, row: AnchorRow, next: AnchorRow)
    ensures SetRow(SetRow(w, key, row), key, next) == SetRow(w, key, next)
  {
    assert w.rows[key := row][key := next] == w.rows[key := next];
  }

  /** Reading and claiming; the claim is told whether a row that is submitted has gone stale. */
  function Try(p: nat, d: DecisionId, stale: bool): seq<Action> { [Begin(p, d)] + [Quiet(p, "")] + [Step(p, stale, false, true, "")] }

  lemma {:induction false} Claimed(w: World, p: nat, d: DecisionId, key: AnchorKey, stale: bool)
    requires p !in w.workers && d in w.tables.decisions && w.tables.decisions[d].status.Settled? && key == (d, DigestOf(w, d))
    requires MayTry(w, key, stale)
    ensures After(w, Try(p, d, stale)) == SetWorker(SetRow(w, key, AnchorRow(Submitted, None)), p, SubmitDue(key))
  {
    ReadsUp(w, p, d, key, Quiet(p, ""));
    var v, u := SetWorker(w, p, ClaimDue(key)), SetRow(w, key, AnchorRow(Submitted, None));
    WorkerTwice(u, p, ClaimDue(key), SubmitDue(key));
    Extends(w, [Begin(p, d)] + [Quiet(p, "")], Step(p, stale, false, true, ""), v, SetWorker(u, p, SubmitDue(key)));
  }

  /** A try that nothing goes wrong with ends with the row confirmed under the transaction that was answered, whatever tries came before. */
  lemma {:induction false} TryConfirms(w: World, p: nat, d: DecisionId, key: AnchorKey, stale: bool, tx: string)
    requires p !in w.workers && d in w.tables.decisions && w.tables.decisions[d].status.Settled? && key == (d, DigestOf(w, d))
    requires MayTry(w, key, stale)
    ensures var u := After(w, Try(p, d, stale) + [Quiet(p, tx)] + [Quiet(p, tx)]);
            u.rows == w.rows[key := AnchorRow(Confirmed, Some(tx))] && u.deploys == w.deploys + {key} && u.workers == w.workers[p := Done]
  {
    var run, c := Try(p, d, stale), SetRow(w, key, AnchorRow(Submitted, None));
    var e := c.(deploys := w.deploys + {key});
    Claimed(w, p, d, key, stale);
    WorkerTwice(e, p, SubmitDue(key), ConfirmDue(key, tx));
    Extends(w, run, Quiet(p, tx), SetWorker(c, p, SubmitDue(key)), SetWorker(e, p, ConfirmDue(key, tx)));
    var f := SetRow(e, key, AnchorRow(Confirmed, Some(tx)));
    WorkerTwice(f, p, ConfirmDue(key, tx), Done);
    Extends(w, run + [Quiet(p, tx)], Quiet(p, tx), SetWorker(e, p, ConfirmDue(key, tx)), SetWorker(f, p, Done));
    RowTwice(w, key, AnchorRow(Submitted, None), AnchorRow(Confirmed, Some(tx)));
  }

  /** A submission that fails leaves the row failed, so that the next worker may try again; the network may have accepted the deploy all the same. */
  lemma {:induction false} FailedTryMayBeRepeated(w: World, p: nat, d: DecisionId, key: AnchorKey, stale: bool, accepted: bool)
    requires p !in w.workers && d in w.tables.decisions && w.tables.decisions[d].status.Settled? && key == (d, DigestOf(w, d))
    requires MayTry(w, key, stale)
    ensures var u := After(w, Try(p, d, stale) + [Step(p, false, true, accepted, "")] + [Quiet(p, "")]);
            && u.rows == w.rows[key := AnchorRow(Failed, None)] && u.deploys == (if accepted then w.deploys + {key} else w.deploys)
            && MayTry(u, key, false)
  {
    var run, c := Try(p, d, stale), SetRow(w, key, AnchorRow(Submitted, None));
    var e := if accepted then c.(deploys := w.deploys + {key}) else c;
    Claimed(w, p, d, key, stale);
    WorkerTwice(e, p, SubmitDue(key), FailDue(key));
    Extends(w, run, Step(p, false, true, accepted, ""), SetWorker(c, p, SubmitDue(key)), SetWorker(e, p, FailDue(key)));
    var f := SetRow(e, key, AnchorRow(Failed, None));
    WorkerTwice(f, p, FailDue(key), Done);
    Extends(w, run + [Step(p, false, true, accepted, "")], Quiet(p, ""), SetWorker(e, p, FailDue(key)), SetWorker(f, p, Done));
    RowTwice(w, key, AnchorRow(Submitted, None), AnchorRow(Failed, None));
  }

  /** Who may not try touches neither the rows nor the network. */
  lemma {:induction false} OthersTryIsLeftAlone(w: World, p: nat, d: DecisionId, key: AnchorKey, stale: bool)
    requires p !in w.workers && d in w.tables.decisions && w.tables.decisions[d].status.Settled? && key == (d, DigestOf(w, d))
    requires !MayTry(w, key, stale)
    ensures After(w, Try(p, d, stale)) == SetWorker(w, p, Done)
  {
    var claim := Step(p, stale, false, true, "");
    if w.rows[key].status.Submitted? {
      ReadsUp(w, p, d, key, Quiet(p, ""));
      WorkerTwice(w, p, ClaimDue(key), Done);
      Extends(w, [Begin(p, d)] + [Quiet(p, "")], claim, SetWorker(w, p, ClaimDue(key)), SetWorker(w, p, Done));
    } else {
      assert [] + [Begin(p, d)] == [Begin(p, d)];
      Extends(w, [], Begin(p, d), w, SetWorker(w, p, ReadDue(d)));
      WorkerTwice(w, p, ReadDue(d), Done);
      Extends(w, [Begin(p, d)], Quiet(p, ""), SetWorker(w, p, ReadDue(d)), SetWorker(w, p, Done));
      WorkerTwice(w, p, Done, Done);
      assert SetWorker(w, p, Done).workers == w.workers[p := Done];
      Extends(w, [Begin(p, d)] + [Quiet(p, "")], claim, SetWorker(w, p, Done), SetWorker(w, p, Done));
    }
  }
}
