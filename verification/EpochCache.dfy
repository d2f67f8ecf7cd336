// The epoch-guarded policy cache: policy edits in Postgres, the Redis blob and counter that mirror
// them, and any number of editors, republishers and resolvers interleaved at every read and write
// (src/engines/control/store.ts, publish.ts, epoch.ts, src/engines/enforcement/policy-epoch-guard.ts).
// The model follows one agent; its team ancestry does not change.
module EpochCache {
  import opened Options
  import opened PolicyCompile

  type PolicyId = string

  datatype Rules = SpendRules(spend: SpendPolicy) | AllocationRules(allocation: AllocationPolicy)

  datatype Scope = OrgScope | TeamScope | AgentScope

  datatype Assignment = Assignment(scope: Scope, policy: PolicyId, spend: bool)

  /** What Postgres holds: the org's epoch, the versions of each policy, and the assignments that reach the agent. */
  datatype Db = Db(epoch: nat, versions: map<PolicyId, seq<Rules>>, assignments: seq<Assignment>)

  function VersionsOf(db: Db, id: PolicyId): seq<Rules> { if id in db.versions then db.versions[id] else [] }

  /** createPolicyVersion: the next version and the next epoch, in one transaction. */
  function AddVersion(db: Db, id: PolicyId, rules: Rules): Db {
    db.(epoch := db.epoch + 1, versions := db.versions[id := VersionsOf(db, id) + [rules]])
  }

  /** assignPolicy: one insert, which does not touch the epoch. */
  function Assign(db: Db, a: Assignment): Db { db.(assignments := db.assignments + [a]) }

  // ---- Reading the layers -----------------------------------------------------------------

  /** The latest version of each policy of one class assigned in one scope; an assignment without a version joins nothing. */
  function SpendIn(db: Db, assignments: seq<Assignment>, scope: Scope): seq<SpendPolicy> {
    if assignments == [] then []
    else
      var a, rest := assignments[0], SpendIn(db, assignments[1..], scope);
      var v := VersionsOf(db, a.policy);
      if a.scope == scope && a.spend && v != [] && v[|v| - 1].SpendRules? then [v[|v| - 1].spend] + rest else rest
  }

  function AllocationIn(db: Db, assignments: seq<Assignment>, scope: Scope): seq<AllocationPolicy> {
    if assignments == [] then []
    else
      var a, rest := assignments[0], AllocationIn(db, assignments[1..], scope);
      var v := VersionsOf(db, a.policy);
      if a.scope == scope && !a.spend && v != [] && v[|v| - 1].AllocationRules? then [v[|v| - 1].allocation] + rest else rest
  }

  /** Root to leaf. */
  function SpendLayers(db: Db): seq<SpendPolicy> {
    SpendIn(db, db.assignments, OrgScope) + SpendIn(db, db.assignments, TeamScope) + SpendIn(db, db.assignments, AgentScope)
  }

  function AllocationLayers(db: Db): seq<AllocationPolicy> {
    AllocationIn(db, db.assignments, OrgScope) + AllocationIn(db, db.assignments, TeamScope) + AllocationIn(db, db.assignments, AgentScope)
  }

  datatype Effective = Effective(epoch: nat, spend: SpendPolicy, allocation: AllocationPolicy)

  /** The compile of one snapshot; it throws when a class has no layer. */
  function Compiled(db: Db): Option<Effective> {
    match (CompileSpend(SpendLayers(db)), CompileAllocation(AllocationLayers(db)))
    case (Some(s), Some(a)) => Some(Effective(db.epoch, s, a))
    case _ => None
  }

  // ---- Which rules reach the agent ----------------------------------------------------------

  /** Assignment `a` brings these rules: they are the last version of its policy, and of its class. */
  predicate Brings(db: Db, a: Assignment, rules: Rules) {
    && a.policy in db.versions && db.versions[a.policy] != [] && db.versions[a.policy][|db.versions[a.policy]| - 1] == rules
    && (a.spend <==> rules.SpendRules?)
  }

  lemma {:induction false} SpendInExactly(db: Db, assignments: seq<Assignment>, scope: Scope, p: SpendPolicy)
    ensures p in SpendIn(db, assignments, scope) <==> exists a :: a in assignments && a.scope == scope && Brings(db, a, SpendRules(p))
  {
    if assignments != [] {
      SpendInExactly(db, assignments[1..], scope, p);
      assert forall a :: a in assignments <==> a == assignments[0] || a in assignments[1..];
    }
  }

  lemma {:induction false} AllocationInExactly(db: Db, assignments: seq<Assignment>, scope: Scope, p: AllocationPolicy)
    ensures p in AllocationIn(db, assignments, scope) <==> exists a :: a in assignments && a.scope == scope && Brings(db, a, AllocationRules(p))
  {
    if assignments != [] {
      AllocationInExactly(db, assignments[1..], scope, p);
      assert forall a :: a in assignments <==> a == assignments[0] || a in assignments[1..];
    }
  }

  /** The layers of a class are exactly the rules that some assignment brings, of whatever scope. */
  lemma SpendLayersExactly(db: Db, p: SpendPolicy)
    ensures p in SpendLayers(db) <==> exists a :: a in db.assignments && Brings(db, a, SpendRules(p))
  {
    SpendInExactly(db, db.assignments, OrgScope, p);
    SpendInExactly(db, db.assignments, TeamScope, p);
    SpendInExactly(db, db.assignments, AgentScope, p);
    assert forall a: Assignment :: a.scope == OrgScope || a.scope == TeamScope || a.scope == AgentScope;
  }

  lemma AllocationLayersExactly(db: Db, p: AllocationPolicy)
    ensures p in AllocationLayers(db) <==> exists a :: a in db.assignments && Brings(db, a, AllocationRules(p))
  {
    AllocationInExactly(db, db.assignments, OrgScope, p);
    AllocationInExactly(db, db.assignments, TeamScope, p);
    AllocationInExactly(db, db.assignments, AgentScope, p);
    assert forall a: Assignment :: a.scope == OrgScope || a.scope == TeamScope || a.scope == AgentScope;
  }

  /** What an agent may ask for: to spend, or to be allocated float. */
  datatype Ask = Pay(spend: Spend) | Draw(allocation: Allocation)

  /** Rules of the other class have nothing against it. */
  predicate Allows(rules: Rules, x: Ask) {
    match (rules, x)
    case (SpendRules(p), Pay(s)) => Admits(p, s)
    case (AllocationRules(p), Draw(a)) => AdmitsAllocation(p, a)
    case _ => true
  }

  predicate Grants(eff: Effective, x: Ask) {
    match x
    case Pay(s) => Admits(eff.spend, s)
    case Draw(a) => AdmitsAllocation(eff.allocation, a)
  }

  lemma PaidByEveryLayer(db: Db, s: Spend)
    requires SpendLayers(db) != []
    ensures Admits(CompileSpend(SpendLayers(db)).value, s) <==> forall a, rules :: a in db.assignments && Brings(db, a, rules) ==> Allows(rules, Pay(s))
  {
    SpendMeansEveryLayer(SpendLayers(db), s);
    forall p
      ensures p in SpendLayers(db) <==> exists a :: a in db.assignments && Brings(db, a, SpendRules(p))
    {
      SpendLayersExactly(db, p);
    }
  }

  lemma DrawnFromEveryLayer(db: Db, x: Allocation)
    requires AllocationLayers(db) != []
    ensures AdmitsAllocation(CompileAllocation(AllocationLayers(db)).value, x)
       <==> forall a, rules :: a in db.assignments && Brings(db, a, rules) ==> Allows(rules, Draw(x))
  {
    AllocationMeansEveryLayer(AllocationLayers(db), x);
    forall p
      ensures p in AllocationLayers(db) <==> exists a :: a in db.assignments && Brings(db, a, AllocationRules(p))
    {
      AllocationLayersExactly(db, p);
    }
  }

  /** The effective policy of a state grants exactly what all the rules grant that its assignments bring, of either class. */
  lemma CompiledGrants(db: Db, x: Ask)
    requires Compiled(db).Some?
    ensures Grants(Compiled(db).value, x) <==> forall a, rules :: a in db.assignments && Brings(db, a, rules) ==> Allows(rules, x)
  {
    match x
    case Pay(s) => PaidByEveryLayer(db, s);
    case Draw(d) => DrawnFromEveryLayer(db, d);
  }

  /** It exists exactly when some assignment brings rules of each class. */
  lemma CompiledExists(db: Db)
    ensures Compiled(db).Some? <==>
              && (exists a, p :: a in db.assignments && Brings(db, a, SpendRules(p)))
              && (exists a, p :: a in db.assignments && Brings(db, a, AllocationRules(p)))
  {
    if SpendLayers(db) != [] { SpendLayersExactly(db, SpendLayers(db)[0]); }
    if AllocationLayers(db) != [] { AllocationLayersExactly(db, AllocationLayers(db)[0]); }
    forall a, p | a in db.assignments && Brings(db, a, SpendRules(p))
      ensures SpendLayers(db) != []
    {
      SpendLayersExactly(db, p);
    }
    forall a, p | a in db.assignments && Brings(db, a, AllocationRules(p))
      ensures AllocationLayers(db) != []
    {
      AllocationLayersExactly(db, p);
    }
  }

  /** An assignment brings a newly appended version from then on, and no older one. */
  lemma EditIsRead(db: Db, rules: Rules, a: Assignment, other: Rules)
    requires a.spend <==> rules.SpendRules?
    ensures Brings(AddVersion(db, a.policy, rules), a, other) <==> other == rules
  {
  }

  /** So after an edit of an assigned policy the compiled policy grants nothing that the new version refuses. */
  lemma EditBinds(db: Db, rules: Rules, a: Assignment, x: Ask)
    requires a in db.assignments && (a.spend <==> rules.SpendRules?)
    requires Compiled(AddVersion(db, a.policy, rules)).Some?
    ensures Grants(Compiled(AddVersion(db, a.policy, rules)).value, x) ==> Allows(rules, x)
  {
    EditIsRead(db, rules, a, rules);
    CompiledGrants(AddVersion(db, a.policy, rules), x);
  }

  // ---- The protocol --------------------------------------------------------------------------

  predicate IsFresh(blob: Option<Effective>, current: Option<nat>) {
    blob.Some? && current.Some? && blob.value.epoch >= current.value
  }

  /** bumpOrgEpoch: set if greater. */
  function Bump(counter: Option<nat>, epoch: nat): Option<nat> {
    if counter.None? || epoch > counter.value then Some(epoch) else counter
  }

  function Floor(counter: Option<nat>): nat { if counter.Some? then counter.value else 0 }

  /** Where a call stands. `floor` is the counter's value when a resolve began: what its caller may rely on. */
  datatype Call =
    | MirrorDue(epoch: nat) | Mirrored(epoch: nat)                 // an edit after its commit
    | RepublishDue | PublishDue(eff: Effective) | Published         // the rewrite of one agent's blob
    | Reading(floor: nat, blob: Option<Option<Effective>>, counter: Option<Option<nat>>)
    | SnapshotDue(floor: nat) | FreshPublishDue(floor: nat, eff: Effective) | HealDue(floor: nat, eff: Effective)
    | Served(floor: nat, eff: Effective) | Failed

  /** `commits` is every committed state of Postgres so far, newest last. */
  datatype World = World(commits: seq<Db>, blob: Option<Effective>, counter: Option<nat>, calls: map<nat, Call>)

  datatype Action =
    | Edit(p: nat, id: PolicyId, rules: Rules) | AssignTo(a: Assignment)
    | BeginRepublish(p: nat) | BeginResolve(p: nat)
    | Step(p: nat, counterFirst: bool) | EvictBlob

  function Now(w: World): Db
    requires w.commits != []
  {
    w.commits[|w.commits| - 1]
  }

  predicate Enabled(w: World, act: Action) {
    match act
    case Edit(p, _, _) => w.commits != [] && p !in w.calls
    case AssignTo(_) => w.commits != []
    case BeginRepublish(p) => p !in w.calls
    case BeginResolve(p) => p !in w.calls
    case Step(p, _) => p in w.calls && w.commits != []
    case EvictBlob => true
  }

  function Apply(w: World, act: Action): World
    requires Enabled(w, act)
  {
    match act
    case Edit(p, id, rules) =>
      var db := AddVersion(Now(w), id, rules);
      w.(commits := w.commits + [db], calls := w.calls[p := MirrorDue(db.epoch)])
    case AssignTo(a) => w.(commits := w.commits + [Assign(Now(w), a)])
    case BeginRepublish(p) => w.(calls := w.calls[p := RepublishDue])
    case BeginResolve(p) => w.(calls := w.calls[p := Reading(Floor(w.counter), None, None)])
    case Step(p, counterFirst) => ApplyStep(w, p, counterFirst)
    case EvictBlob => w.(blob := None)
  }

  /** What a recompile reads in its one snapshot. */
  function AfterSnapshot(w: World, floor: nat): Call
    requires w.commits != []
  {
    match Compiled(Now(w)) case Some(eff) => FreshPublishDue(floor, eff) case None => Failed
  }

  function AfterReading(floor: nat, blob: Option<Effective>, current: Option<nat>): Call {
    if IsFresh(blob, current) then Served(floor, blob.value) else SnapshotDue(floor)
  }

  function ApplyStep(w: World, p: nat, counterFirst: bool): World
    requires p in w.calls && w.commits != []
  {
    match w.calls[p]
    case MirrorDue(e) => w.(counter := Bump(w.counter, e), calls := w.calls[p := Mirrored(e)])
    case RepublishDue =>
      w.(calls := w.calls[p := match Compiled(Now(w)) case Some(eff) => PublishDue(eff) case None => Failed])
    case PublishDue(eff) => w.(blob := Some(eff), calls := w.calls[p := Published])
    case Reading(floor, blob, counter) =>
      if blob.None? && (counter.Some? || !counterFirst) then w.(calls := w.calls[p := Reading(floor, Some(w.blob), counter)])
      else if counter.None? then w.(calls := w.calls[p := Reading(floor, blob, Some(w.counter))])
      else w.(calls := w.calls[p := AfterReading(floor, blob.value, counter.value)])
    case SnapshotDue(floor) => w.(calls := w.calls[p := AfterSnapshot(w, floor)])
    case FreshPublishDue(floor, eff) => w.(blob := Some(eff), calls := w.calls[p := HealDue(floor, eff)])
    case HealDue(floor, eff) => w.(counter := Bump(w.counter, eff.epoch), calls := w.calls[p := Served(floor, eff)])
    case _ => w
  }

  // ---- What holds at every step ----------------------------------------------------------------

  /** The policy is the compile of some committed state of its own epoch. */
  ghost predicate FromCommit(w: World, eff: Effective) {
    exists i :: 0 <= i < |w.commits| && CompilesTo(w.commits[i], eff)
  }

  predicate CompilesTo(db: Db, eff: Effective) { Compiled(db) == Some(eff) }

  ghost predicate CallGood(w: World, c: Call)
    requires w.commits != []
  {
    match c
    case MirrorDue(e) => e <= Now(w).epoch
    case Mirrored(e) => w.counter.Some? && e <= w.counter.value
    case PublishDue(eff) => FromCommit(w, eff)
    case Reading(floor, blob, counter) =>
      && floor <= Floor(w.counter)
      && (blob.Some? && blob.value.Some? ==> FromCommit(w, blob.value.value))
      && (counter.Some? ==> floor <= Floor(counter.value))
    case SnapshotDue(floor) => floor <= Floor(w.counter)
    case FreshPublishDue(floor, eff) => floor <= eff.epoch && FromCommit(w, eff)
    case HealDue(floor, eff) => floor <= eff.epoch && FromCommit(w, eff)
    case Served(floor, eff) => floor <= eff.epoch && FromCommit(w, eff)
    case _ => true
  }

  ghost predicate Inv(w: World) {
    && w.commits != []
    && Ordered(w.commits)
    && (w.blob.Some? ==> FromCommit(w, w.blob.value))
    && (w.counter.Some? ==> w.counter.value <= Now(w).epoch)
    && (forall p :: p in w.calls ==> CallGood(w, w.calls[p]))
  }

  /** Commits only grow and the counter never falls: what a call knows stays true. */
  ghost predicate Grows(w: World, u: World) {
    && w.commits != [] && |w.commits| <= |u.commits| && u.commits[..|w.commits|] == w.commits
    && Now(w).epoch <= Now(u).epoch
    && (w.counter.Some? ==> u.counter.Some? && w.counter.value <= u.counter.value)
  }

  lemma CommitStays(w: World, u: World, eff: Effective)
    requires Grows(w, u) && FromCommit(w, eff)
    ensures FromCommit(u, eff)
  {
    var i :| 0 <= i < |w.commits| && CompilesTo(w.commits[i], eff);
    assert u.commits[i] == w.commits[i];
  }

  lemma CallStays(w: World, u: World, c: Call)
    requires Grows(w, u) && CallGood(w, c)
    ensures CallGood(u, c)
  {
    match c
    case PublishDue(eff) => CommitStays(w, u, eff);
    case Reading(_, blob, _) => if blob.Some? && blob.value.Some? { CommitStays(w, u, blob.value.value); }
    case FreshPublishDue(_, eff) => CommitStays(w, u, eff);
    case HealDue(_, eff) => CommitStays(w, u, eff);
    case Served(_, eff) => CommitStays(w, u, eff);
    case _ =>
  }

  lemma CompiledIsFromCommit(w: World)
    requires w.commits != [] && Compiled(Now(w)).Some?
    ensures FromCommit(w, Compiled(Now(w)).value) && Compiled(Now(w)).value.epoch == Now(w).epoch
  {
    assert CompilesTo(w.commits[|w.commits| - 1], Compiled(Now(w)).value);
  }

  /** A step of a call appends no commit and moves nobody else. */
  lemma StepFrame(w: World, u: World, p: nat, counterFirst: bool)
    requires w.commits != [] && p in w.calls && u == ApplyStep(w, p, counterFirst)
    ensures Grows(w, u) && p in u.calls && u.calls == w.calls[p := u.calls[p]] && u.commits == w.commits
  {
  }

  predicate Publishes(c: Call) { c.PublishDue? || c.FreshPublishDue? }

  predicate Mirrors(c: Call) { c.MirrorDue? || c.HealDue? }

  /** Only publishing writes the blob, only mirroring and healing the counter. */
  lemma ReadingStores(w: World, u: World, p: nat, counterFirst: bool)
    requires w.commits != [] && p in w.calls && u == ApplyStep(w, p, counterFirst) && !Publishes(w.calls[p]) && !Mirrors(w.calls[p])
    ensures u.blob == w.blob && u.counter == w.counter
  {
  }

  lemma PublishStores(w: World, u: World, p: nat, counterFirst: bool)
    requires w.commits != [] && p in w.calls && u == ApplyStep(w, p, counterFirst) && Publishes(w.calls[p])
    ensures u.blob == Some(w.calls[p].eff) && u.counter == w.counter
  {
  }

  lemma MirrorStores(w: World, u: World, p: nat, counterFirst: bool)
    requires w.commits != [] && p in w.calls && u == ApplyStep(w, p, counterFirst) && Mirrors(w.calls[p])
    ensures u.blob == w.blob && u.counter == Bump(w.counter, if w.calls[p].MirrorDue? then w.calls[p].epoch else w.calls[p].eff.epoch)
  {
  }

  lemma NotAhead(commits: seq<Db>, eff: Effective)
    requires Ordered(commits) && exists i :: 0 <= i < |commits| && CompilesTo(commits[i], eff)
    ensures eff.epoch <= commits[|commits| - 1].epoch
  {
    var i :| 0 <= i < |commits| && CompilesTo(commits[i], eff);
    CommitEpoch(commits, eff, i);
  }

  /** What a mirroring or healing call is about to mirror is no newer than the newest commit. */
  lemma MirrorsCommitted(w: World, c: Call)
    requires w.commits != [] && Ordered(w.commits) && CallGood(w, c)
    ensures c.MirrorDue? ==> c.epoch <= w.commits[|w.commits| - 1].epoch
    ensures c.HealDue? ==> c.eff.epoch <= w.commits[|w.commits| - 1].epoch
  {
    if c.HealDue? { NotAhead(w.commits, c.eff); }
  }

  lemma MirrorBelow(w: World, u: World, p: nat, counterFirst: bool, last: nat)
    requires w.commits != [] && p in w.calls && u == ApplyStep(w, p, counterFirst) && Mirrors(w.calls[p])
    requires (if w.calls[p].MirrorDue? then w.calls[p].epoch else w.calls[p].eff.epoch) <= last && (w.counter.Some? ==> w.counter.value <= last)
    ensures u.blob == w.blob && (u.counter.Some? ==> u.counter.value <= last)
  {
    MirrorStores(w, u, p, counterFirst);
  }

  lemma PublishedIsCommitted(w: World, u: World, p: nat, counterFirst: bool)
    requires w.commits != [] && p in w.calls && u == ApplyStep(w, p, counterFirst) && Publishes(w.calls[p]) && CallGood(w, w.calls[p])
    ensures u.blob.Some? && FromCommit(w, u.blob.value) && u.counter == w.counter
  {
    PublishStores(w, u, p, counterFirst);
  }

  lemma StepStores(w: World, u: World, p: nat, counterFirst: bool)
    requires Inv(w) && p in w.calls && u == ApplyStep(w, p, counterFirst)
    ensures u.blob == w.blob || (u.blob.Some? && FromCommit(w, u.blob.value))
    ensures u.counter.Some? ==> u.counter.value <= Now(w).epoch
  {
    assert CallGood(w, w.calls[p]);
    if Publishes(w.calls[p]) {
      PublishedIsCommitted(w, u, p, counterFirst);
    } else if Mirrors(w.calls[p]) {
      MirrorsCommitted(w, w.calls[p]);
      MirrorBelow(w, u, p, counterFirst, Now(w).epoch);
    } else {
      ReadingStores(w, u, p, counterFirst);
    }
  }

  lemma CompiledEpoch(db: Db)
    ensures Compiled(db).Some? ==> Compiled(db).value.epoch == db.epoch
  {
  }

  ghost predicate Ordered(commits: seq<Db>) { forall i, j :: 0 <= i < j < |commits| ==> commits[i].epoch <= commits[j].epoch }

  lemma EarlierIsOlder(commits: seq<Db>, i: nat, eff: Effective)
    requires i < |commits| && Ordered(commits) && eff.epoch == commits[i].epoch
    ensures eff.epoch <= commits[|commits| - 1].epoch
  {
  }

  lemma EpochOf(db: Db, eff: Effective)
    requires CompilesTo(db, eff)
    ensures eff.epoch == db.epoch
  {
  }

  /** No compiled policy is ahead of Postgres. */
  lemma CommitEpoch(commits: seq<Db>, eff: Effective, i: nat)
    requires i < |commits| && Ordered(commits) && CompilesTo(commits[i], eff)
    ensures eff.epoch <= commits[|commits| - 1].epoch
  {
    EpochOf(commits[i], eff);
    EarlierIsOlder(commits, i, eff);
  }

  lemma SameCommits(w: World, u: World, eff: Effective)
    requires u.commits == w.commits && FromCommit(w, eff)
    ensures FromCommit(u, eff)
  {
    var i :| 0 <= i < |w.commits| && CompilesTo(w.commits[i], eff);
    assert CompilesTo(u.commits[i], eff);
  }

  lemma SnapshotGood(w: World, u: World, p: nat, counterFirst: bool)
    requires Inv(w) && p in w.calls && u == ApplyStep(w, p, counterFirst) && u.commits == w.commits && (w.calls[p].RepublishDue? || w.calls[p].SnapshotDue?)
    ensures p in u.calls && CallGood(u, u.calls[p])
  {
    assert CallGood(w, w.calls[p]);
    if Compiled(Now(w)).Some? {
      CompiledIsFromCommit(w);
      SameCommits(w, u, Compiled(Now(w)).value);
    }
  }

  lemma DecidedGood(w: World, u: World, floor: nat, blob: Option<Effective>, current: Option<nat>)
    requires Inv(w) && u.commits == w.commits && u.counter == w.counter
    requires CallGood(w, Reading(floor, Some(blob), Some(current)))
    ensures CallGood(u, AfterReading(floor, blob, current))
  {
    if blob.Some? { SameCommits(w, u, blob.value); }
  }

  lemma ReadOneGood(w: World, u: World, floor: nat, blob: Option<Option<Effective>>, counter: Option<Option<nat>>)
    requires Inv(w) && u.commits == w.commits && u.counter == w.counter && CallGood(w, Reading(floor, blob, counter))
    ensures CallGood(u, Reading(floor, Some(w.blob), counter))
    ensures CallGood(u, Reading(floor, blob, Some(w.counter)))
  {
    if w.blob.Some? { SameCommits(w, u, w.blob.value); }
    if blob.Some? && blob.value.Some? { SameCommits(w, u, blob.value.value); }
  }

  lemma ReadingGood(w: World, u: World, p: nat, counterFirst: bool)
    requires Inv(w) && p in w.calls && u == ApplyStep(w, p, counterFirst) && w.calls[p].Reading? && u.commits == w.commits
    ensures p in u.calls && CallGood(u, u.calls[p])
  {
    var c := w.calls[p];
    assert CallGood(w, c);
    if c.blob.Some? && c.counter.Some? { DecidedGood(w, u, c.floor, c.blob.value, c.counter.value); }
    else { ReadOneGood(w, u, c.floor, c.blob, c.counter); }
  }

  lemma OtherGood(w: World, u: World, p: nat, counterFirst: bool)
    requires Inv(w) && p in w.calls && u == ApplyStep(w, p, counterFirst) && u.commits == w.commits
    requires !w.calls[p].Reading? && !w.calls[p].RepublishDue? && !w.calls[p].SnapshotDue?
    ensures p in u.calls && CallGood(u, u.calls[p])
  {
    var c := w.calls[p];
    assert CallGood(w, c);
    if c.FreshPublishDue? || c.HealDue? || c.Served? || c.PublishDue? { SameCommits(w, u, c.eff); }
  }

  lemma StepGood(w: World, u: World, p: nat, counterFirst: bool)
    requires Inv(w) && p in w.calls && u == ApplyStep(w, p, counterFirst) && u.commits == w.commits
    ensures p in u.calls && CallGood(u, u.calls[p])
  {
    if w.calls[p].RepublishDue? || w.calls[p].SnapshotDue? { SnapshotGood(w, u, p, counterFirst); }
    else if w.calls[p].Reading? { ReadingGood(w, u, p, counterFirst); }
    else { OtherGood(w, u, p, counterFirst); }
  }

  lemma CallsStay(w: World, u: World, p: nat)
    requires Inv(w) && Grows(w, u) && p in u.calls && u.calls == w.calls[p := u.calls[p]] && CallGood(u, u.calls[p])
    ensures forall q :: q in u.calls ==> CallGood(u, u.calls[q])
  {
    forall q | q in u.calls
      ensures CallGood(u, u.calls[q])
    {
      if q != p { CallStays(w, u, w.calls[q]); }
    }
  }

  lemma StepKeeps(w: World, u: World, p: nat, counterFirst: bool)
    requires Inv(w) && p in w.calls && u == ApplyStep(w, p, counterFirst)
    ensures Inv(u) && Grows(w, u)
  {
    StepFrame(w, u, p, counterFirst);
    StepStores(w, u, p, counterFirst);
    StepGood(w, u, p, counterFirst);
    CallsStay(w, u, p);
    if u.blob.Some? { SameCommits(w, u, u.blob.value); }
  }

  lemma CommitGrows(w: World, u: World, db: Db)
    requires Inv(w) && u.commits == w.commits + [db] && u.counter == w.counter && Now(w).epoch <= db.epoch
    ensures Grows(w, u) && Now(u) == db
    ensures Ordered(u.commits)
  {
    assert u.commits[..|w.commits|] == w.commits;
    forall i, j | 0 <= i < j < |u.commits|
      ensures u.commits[i].epoch <= u.commits[j].epoch
    {
      if j == |w.commits| && i < |w.commits| - 1 { assert w.commits[i].epoch <= w.commits[|w.commits| - 1].epoch; }
    }
  }

  lemma CommitKeeps(w: World, u: World, db: Db, extra: set<nat>)
    requires Inv(w) && u.commits == w.commits + [db] && u.blob == w.blob && u.counter == w.counter && Now(w).epoch <= db.epoch
    requires forall q :: q in u.calls ==> (q in w.calls && u.calls[q] == w.calls[q]) || (q in extra && u.calls[q] == MirrorDue(db.epoch))
    ensures Inv(u) && Grows(w, u)
  {
    CommitGrows(w, u, db);
    forall q | q in u.calls
      ensures CallGood(u, u.calls[q])
    {
      if q in w.calls && u.calls[q] == w.calls[q] { CallStays(w, u, w.calls[q]); }
    }
    if w.blob.Some? { CommitStays(w, u, w.blob.value); }
  }

  lemma ActionKeeps(w: World, u: World, act: Action)
    requires Inv(w) && Enabled(w, act) && u == Apply(w, act)
    ensures Inv(u) && Grows(w, u)
  {
    match act
    case Edit(p, id, rules) => CommitKeeps(w, u, AddVersion(Now(w), id, rules), {p});
    case AssignTo(a) => CommitKeeps(w, u, Assign(Now(w), a), {});
    case BeginRepublish(p) => CallsStay(w, u, p);
    case BeginResolve(p) => CallsStay(w, u, p);
    case Step(p, counterFirst) => StepKeeps(w, u, p, counterFirst);
    case EvictBlob => forall q | q in u.calls ensures CallGood(u, u.calls[q]) { CallStays(w, u, w.calls[q]); }
  }

  // ---- Runs --------------------------------------------------------------------------------------

  function Next(w: World, act: Action): World { if Enabled(w, act) then Apply(w, act) else w }

  function After(w: World, acts: seq<Action>): World {
    if acts == [] then w else Next(After(w, acts[..|acts| - 1]), acts[|acts| - 1])
  }

  /** One committed state, nothing cached, nobody at work. */
  predicate Initial(w: World) { |w.commits| == 1 && w.blob.None? && w.counter.None? && w.calls == map[] }

  lemma InitialKeeps(w: World)
    requires Initial(w)
    ensures Inv(w)
  {
  }

  lemma GrowsTransitive(w: World, u: World, v: World)
    requires Grows(w, u) && Grows(u, v)
    ensures Grows(w, v)
  {
  }

  lemma {:induction false} RunKeeps(w: World, acts: seq<Action>)
    requires Inv(w)
    ensures Inv(After(w, acts)) && Grows(w, After(w, acts))
  {
    if acts != [] {
      var before, act := After(w, acts[..|acts| - 1]), acts[|acts| - 1];
      RunKeeps(w, acts[..|acts| - 1]);
      if Enabled(before, act) {
        ActionKeeps(before, Apply(before, act), act);
        GrowsTransitive(w, before, Apply(before, act));
      }
    }
  }

  /** A resolve keeps the floor it began with until it has served or failed. */
  predicate Resolving(w: World, p: nat, floor: nat) {
    p in w.calls && (var c := w.calls[p];
      || c.Failed? || (c.Reading? && c.floor == floor) || (c.SnapshotDue? && c.floor == floor)
      || (c.FreshPublishDue? && c.floor == floor) || (c.HealDue? && c.floor == floor) || (c.Served? && c.floor == floor))
  }

  lemma {:induction false} ResolveKeepsFloor(w: World, acts: seq<Action>, p: nat, floor: nat)
    requires Inv(w) && Resolving(w, p, floor)
    ensures Resolving(After(w, acts), p, floor)
  {
    if acts != [] {
      RunKeeps(w, acts[..|acts| - 1]);
      ResolveKeepsFloor(w, acts[..|acts| - 1], p, floor);
      NextKeepsFloor(After(w, acts[..|acts| - 1]), acts[|acts| - 1], p, floor);
    }
  }

  lemma StepKeepsFloor(w: World, p: nat, counterFirst: bool, floor: nat)
    requires Resolving(w, p, floor) && w.commits != []
    ensures Resolving(ApplyStep(w, p, counterFirst), p, floor)
  {
  }

  lemma NextKeepsFloor(w: World, act: Action, p: nat, floor: nat)
    requires Resolving(w, p, floor) && w.commits != []
    ensures Resolving(Next(w, act), p, floor)
  {
    match act
    case Step(q, counterFirst) =>
      if q == p { StepKeepsFloor(w, p, counterFirst, floor); }
      else if q in w.calls { StepFrame(w, ApplyStep(w, q, counterFirst), q, counterFirst); }
    case _ =>
  }

  /** The compile of a committed state at least as new as the edit. */
  ghost predicate AtLeast(w: World, eff: Effective, epoch: nat) {
    exists i :: 0 <= i < |w.commits| && w.commits[i].epoch >= epoch && CompilesTo(w.commits[i], eff)
  }

  /**
   * No stale serve: once an edit has mirrored its epoch, a resolve that starts afterwards serves only the compile of a
   * committed state of that epoch or a later one, whatever late publishes and out-of-order bumps run beside it.
   */
  lemma {:induction false} NeverBehindTheEdit(w: World, acts: seq<Action>, editor: nat, p: nat, more: seq<Action>)
    requires Inv(w) && editor in After(w, acts).calls && After(w, acts).calls[editor].Mirrored? && p !in After(w, acts).calls
    ensures var u := After(Next(After(w, acts), BeginResolve(p)), more);
            p in u.calls && (u.calls[p].Served? ==> AtLeast(u, u.calls[p].eff, After(w, acts).calls[editor].epoch))
  {
    var v := After(w, acts);
    RunKeeps(w, acts);
    assert CallGood(v, v.calls[editor]);
    var start := Next(v, BeginResolve(p));
    ActionKeeps(v, start, BeginResolve(p));
    assert Resolving(start, p, Floor(v.counter));
    RunKeeps(start, more);
    ResolveKeepsFloor(start, more, p, Floor(v.counter));
    var u := After(start, more);
    assert CallGood(u, u.calls[p]);
    if u.calls[p].Served? { ServedAtLeast(u, u.calls[p].eff, v.calls[editor].epoch); }
  }

  lemma ServedAtLeast(w: World, eff: Effective, epoch: nat)
    requires FromCommit(w, eff) && epoch <= eff.epoch
    ensures AtLeast(w, eff, epoch)
  {
    var i :| 0 <= i < |w.commits| && CompilesTo(w.commits[i], eff);
    assert w.commits[i].epoch >= epoch && CompilesTo(w.commits[i], eff);
  }

  // ---- The same calls, one at a time, on stores updated in place -----------------------------------

  class PolicyStore {
    var epoch: nat
    var versions: map<PolicyId, seq<Rules>>
    var assignments: seq<Assignment>

    ghost function Now(): Db
      reads this
    {
      Db(epoch, versions, assignments)
    }

    constructor ()
      ensures Now() == Db(0, map[], [])
    {
      epoch, versions, assignments := 0, map[], [];
    }

    /** The new version's number is one more than the highest so far. */
    method CreatePolicyVersion(id: PolicyId, rules: Rules) returns (version: nat, policyEpoch: nat)
      modifies this`epoch, this`versions
      ensures Now() == AddVersion(old(Now()), id, rules)
      ensures version == |VersionsOf(old(Now()), id)| + 1 == |VersionsOf(Now(), id)| && policyEpoch == epoch == old(epoch) + 1
    {
      var before := if id in versions then versions[id] else [];
      version := |before| + 1;
      versions := versions[id := before + [rules]];
      epoch := epoch + 1;
      policyEpoch := epoch;
    }

    method AssignPolicy(a: Assignment)
      modifies this`assignments
      ensures Now() == Assign(old(Now()), a)
    {
      assignments := assignments + [a];
    }
  }

  class PolicyCache {
    var blob: Option<Effective>
    var counter: Option<nat>

    constructor ()
      ensures blob.None? && counter.None?
    {
      blob, counter := None, None;
    }

    method BumpOrgEpoch(epoch: nat) returns (advanced: bool)
      modifies this`counter
      ensures counter == Bump(old(counter), epoch) && (advanced <==> old(counter).None? || epoch > old(counter).value)
      ensures counter.Some? && epoch <= counter.value && (old(counter).Some? ==> old(counter).value <= counter.value)
    {
      if counter.Some? && epoch <= counter.value { return false; }
      counter := Some(epoch);
      advanced := true;
    }

    method PublishEffectivePolicy(eff: Effective)
      modifies this`blob
      ensures blob == Some(eff)
    {
      blob := Some(eff);
    }

    /** Compiles one snapshot and publishes it; without a layer it throws and publishes nothing. */
    method RecompileAgentPolicy(db: Db) returns (eff: Option<Effective>)
      modifies this`blob
      ensures eff == Compiled(db) && blob == if eff.Some? then eff else old(blob)
    {
      eff := Compiled(db);
      if eff.Some? { PublishEffectivePolicy(eff.value); }
    }

    /** With nothing in between, a resolve serves a fresh blob as it is, or recompiles and leaves the cache fresh. */
    method ResolveEffectivePolicy(db: Db) returns (served: Option<Effective>, recompiled: bool)
      modifies this`blob, this`counter
      ensures recompiled <==> !IsFresh(old(blob), old(counter))
      ensures served == if recompiled then Compiled(db) else old(blob)
      ensures served.Some? && (old(counter).Some? ==> old(counter).value <= db.epoch) ==> IsFresh(blob, counter) && blob == served
      ensures !recompiled || served.None? ==> blob == old(blob) && counter == old(counter)
    {
      if IsFresh(blob, counter) { return blob, false; }
      served := RecompileAgentPolicy(db);
      if served.Some? {
        CompiledEpoch(db);
        var advanced := BumpOrgEpoch(served.value.epoch);
      }
      recompiled := true;
    }
  }
}
