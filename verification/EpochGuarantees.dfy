// What the epoch guard means to whoever edits a policy, and exactly where it ends: an edit of an assigned policy
// binds every later resolve, a new assignment binds only those that do not find a fresh blob
// (src/engines/control/store.ts, src/engines/enforcement/policy-epoch-guard.ts).
module EpochGuarantees {
  import opened Options
  import opened PolicyCompile
  import opened EpochCache

  // ---- Which layers are read -------------------------------------------------------------------------

  /** The compiled policy grants nothing that the latest version of an assigned policy refuses. */
  lemma LatestBinds(db: Db, a: Assignment, rules: Rules, x: Ask)
    requires a in db.assignments && Brings(db, a, rules) && Compiled(db).Some?
    ensures Grants(Compiled(db).value, x) ==> Allows(rules, x)
  {
    CompiledGrants(db, x);
  }

  lemma {:induction false} SpendAssignmentAddsNoAllocation(db: Db, more: Db, assignments: seq<Assignment>, a: Assignment, scope: Scope)
    requires a.spend && more.versions == db.versions
    ensures AllocationIn(more, assignments + [a], scope) == AllocationIn(db, assignments, scope)
  {
    var all := assignments + [a];
    if assignments == [] {
      assert all[1..] == [];
    } else {
      assert all[0] == assignments[0] && all[1..] == assignments[1..] + [a];
      SpendAssignmentAddsNoAllocation(db, more, assignments[1..], a, scope);
    }
  }

  /** A spend assignment of a policy that has a spend version can be compiled if the state could be compiled without it. */
  lemma CompilesWithLayers(db: Db)
    ensures Compiled(db).Some? <==> SpendLayers(db) != [] && AllocationLayers(db) != []
  {
  }

  lemma AssignedLayers(db: Db, more: Db, a: Assignment, p: SpendPolicy)
    requires more == Assign(db, a) && a.spend && VersionsOf(db, a.policy) != [] && AllocationLayers(db) != []
    requires var v := VersionsOf(db, a.policy); v[|v| - 1] == SpendRules(p)
    ensures SpendLayers(more) != [] && AllocationLayers(more) != []
  {
    assert VersionsOf(more, a.policy) == VersionsOf(db, a.policy);
    assert a in more.assignments && Brings(more, a, SpendRules(p));
    SpendLayersExactly(more, p);
    SpendAssignmentAddsNoAllocation(db, more, db.assignments, a, OrgScope);
    SpendAssignmentAddsNoAllocation(db, more, db.assignments, a, TeamScope);
    SpendAssignmentAddsNoAllocation(db, more, db.assignments, a, AgentScope);
  }

  lemma AssignedCompiles(db: Db, a: Assignment, p: SpendPolicy)
    requires a.spend && VersionsOf(db, a.policy) != [] && Compiled(db).Some?
    requires var v := VersionsOf(db, a.policy); v[|v| - 1] == SpendRules(p)
    ensures Compiled(Assign(db, a)).Some?
  {
    CompilesWithLayers(db);
    AssignedLayers(db, Assign(db, a), a, p);
    CompilesWithLayers(Assign(db, a));
  }

  // ---- A resolve that nothing disturbs ------------------------------------------------------------------

  lemma {:induction false} Extends(w: World, acts: seq<Action>, act: Action, u: World, v: World)
    requires After(w, acts) == u && Next(u, act) == v
    ensures After(w, acts + [act]) == v
  {
    assert (acts + [act])[..|acts|] == acts;
  }

  lemma {:induction false} AfterBoth(w: World, first: seq<Action>, second: seq<Action>)
    ensures After(w, first + second) == After(After(w, first), second)
  {
    if second == [] {
      assert first + second == first;
    } else {
      var n := |second| - 1;
      assert (first + second)[..|first + second| - 1] == first + second[..n];
      AfterBoth(w, first, second[..n]);
    }
  }

  function Tick(p: nat): Action { Step(p, false) }

  function Reads(p: nat): seq<Action> { [BeginResolve(p)] + [Tick(p)] + [Tick(p)] + [Tick(p)] }

  /** Enough steps for a resolve to come to its end; further steps of a finished call change nothing. */
  function ResolveAlone(p: nat): seq<Action> { Reads(p) + [Tick(p)] + [Tick(p)] + [Tick(p)] }

  function Put(w: World, p: nat, c: Call): World { w.(calls := w.calls[p := c]) }

  lemma PutTwice(w: World, p: nat, c: Call, next: Call)
    ensures Put(Put(w, p, c), p, next) == Put(w, p, next)
  {
    assert w.calls[p := c][p := next] == w.calls[p := next];
  }

  lemma BlobRead(w: World, p: nat, f: nat)
    requires w.commits != []
    ensures Next(Put(w, p, Reading(f, None, None)), Tick(p)) == Put(w, p, Reading(f, Some(w.blob), None))
  {
    PutTwice(w, p, Reading(f, None, None), Reading(f, Some(w.blob), None));
  }

  lemma CounterRead(w: World, p: nat, f: nat)
    requires w.commits != []
    ensures Next(Put(w, p, Reading(f, Some(w.blob), None)), Tick(p)) == Put(w, p, Reading(f, Some(w.blob), Some(w.counter)))
  {
    PutTwice(w, p, Reading(f, Some(w.blob), None), Reading(f, Some(w.blob), Some(w.counter)));
  }

  lemma BothRead(w: World, p: nat, f: nat)
    requires w.commits != []
    ensures Next(Put(w, p, Reading(f, Some(w.blob), Some(w.counter))), Tick(p)) == Put(w, p, AfterReading(f, w.blob, w.counter))
  {
    PutTwice(w, p, Reading(f, Some(w.blob), Some(w.counter)), AfterReading(f, w.blob, w.counter));
  }

  lemma {:induction false} ReadsAlone(w: World, p: nat)
    requires w.commits != [] && p !in w.calls
    ensures After(w, Reads(p)) == Put(w, p, AfterReading(Floor(w.counter), w.blob, w.counter))
  {
    var f := Floor(w.counter);
    Extends(w, [], BeginResolve(p), w, Put(w, p, Reading(f, None, None)));
    assert [] + [BeginResolve(p)] == [BeginResolve(p)];
    BlobRead(w, p, f);
    Extends(w, [BeginResolve(p)], Tick(p), Put(w, p, Reading(f, None, None)), Put(w, p, Reading(f, Some(w.blob), None)));
    CounterRead(w, p, f);
    Extends(w, [BeginResolve(p)] + [Tick(p)], Tick(p), Put(w, p, Reading(f, Some(w.blob), None)), Put(w, p, Reading(f, Some(w.blob), Some(w.counter))));
    BothRead(w, p, f);
    Extends(w, [BeginResolve(p)] + [Tick(p)] + [Tick(p)], Tick(p), Put(w, p, Reading(f, Some(w.blob), Some(w.counter))),
            Put(w, p, AfterReading(f, w.blob, w.counter)));
  }

  /** What a resolve that nothing disturbs leaves behind. */
  function Resolved(w: World, p: nat): World
    requires w.commits != []
  {
    var f := Floor(w.counter);
    if IsFresh(w.blob, w.counter) then Put(w, p, Served(f, w.blob.value))
    else
      match Compiled(Now(w))
      case Some(eff) => Put(w.(blob := Some(eff), counter := Bump(w.counter, eff.epoch)), p, Served(f, eff))
      case None => Put(w, p, Failed)
  }

  lemma {:induction false} FinishedRests(w: World, acts: seq<Action>, p: nat, u: World)
    requires After(w, acts) == u && p in u.calls && (u.calls[p].Served? || u.calls[p].Failed?)
    ensures After(w, acts + [Tick(p)]) == u
  {
    Extends(w, acts, Tick(p), u, u);
  }

  lemma SnapshotTicks(u: World, p: nat, f: nat)
    requires u.commits != [] && p in u.calls && u.calls[p] == SnapshotDue(f)
    ensures Next(u, Tick(p)) == Put(u, p, AfterSnapshot(u, f))
  {
  }

  lemma SnapshotReads(w: World, u: World, f: nat)
    requires w.commits != [] && u.commits == w.commits
    ensures AfterSnapshot(u, f) == AfterSnapshot(w, f)
  {
    assert Now(u) == Now(w);
  }

  lemma PublishTicks(w: World, p: nat, f: nat, eff: Effective)
    requires w.commits != []
    ensures Next(Put(w, p, FreshPublishDue(f, eff)), Tick(p)) == Put(w.(blob := Some(eff)), p, HealDue(f, eff))
  {
  }

  lemma HealTicks(w: World, p: nat, f: nat, eff: Effective)
    requires w.commits != []
    ensures Next(Put(w, p, HealDue(f, eff)), Tick(p)) == Put(w.(counter := Bump(w.counter, eff.epoch)), p, Served(f, eff))
  {
  }

  lemma {:induction false} PublishesAlone(w: World, p: nat, acts: seq<Action>, f: nat, eff: Effective)
    requires w.commits != [] && After(w, acts) == Put(w, p, FreshPublishDue(f, eff))
    ensures After(w, acts + [Tick(p)] + [Tick(p)]) == Put(w.(blob := Some(eff), counter := Bump(w.counter, eff.epoch)), p, Served(f, eff))
  {
    var published := w.(blob := Some(eff));
    PublishTicks(w, p, f, eff);
    Extends(w, acts, Tick(p), Put(w, p, FreshPublishDue(f, eff)), Put(published, p, HealDue(f, eff)));
    HealTicks(published, p, f, eff);
    Extends(w, acts + [Tick(p)], Tick(p), Put(published, p, HealDue(f, eff)), Put(published.(counter := Bump(w.counter, eff.epoch)), p, Served(f, eff)));
  }

  lemma {:induction false} SnapshotAlone(w: World, p: nat, acts: seq<Action>, f: nat, c: Call)
    requires w.commits != [] && After(w, acts) == Put(w, p, SnapshotDue(f)) && AfterSnapshot(Put(w, p, SnapshotDue(f)), f) == c
    ensures After(w, acts + [Tick(p)]) == Put(w, p, c)
  {
    var u := Put(w, p, SnapshotDue(f));
    SnapshotTicks(u, p, f);
    Extends(w, acts, Tick(p), u, Put(u, p, c));
  }

  lemma {:induction false} RecompilesAlone(w: World, p: nat, acts: seq<Action>, f: nat, eff: Effective)
    requires w.commits != [] && After(w, acts) == Put(w, p, SnapshotDue(f)) && Compiled(Now(w)) == Some(eff)
    ensures After(w, acts + [Tick(p)] + [Tick(p)] + [Tick(p)]) == Put(w.(blob := Some(eff), counter := Bump(w.counter, eff.epoch)), p, Served(f, eff))
  {
    SnapshotReads(w, Put(w, p, SnapshotDue(f)), f);
    SnapshotAlone(w, p, acts, f, FreshPublishDue(f, eff));
    PublishesAlone(w, p, acts + [Tick(p)], f, eff);
  }

  lemma {:induction false} ThrowsAlone(w: World, p: nat, acts: seq<Action>, f: nat)
    requires w.commits != [] && After(w, acts) == Put(w, p, SnapshotDue(f)) && Compiled(Now(w)).None?
    ensures After(w, acts + [Tick(p)] + [Tick(p)] + [Tick(p)]) == Put(w, p, Failed)
  {
    SnapshotReads(w, Put(w, p, SnapshotDue(f)), f);
    SnapshotAlone(w, p, acts, f, Failed);
    FinishedRests(w, acts + [Tick(p)], p, Put(w, p, Failed));
    FinishedRests(w, acts + [Tick(p)] + [Tick(p)], p, Put(w, p, Failed));
  }

  lemma {:induction false} ServesAlone(w: World, p: nat, acts: seq<Action>, f: nat, eff: Effective)
    requires After(w, acts) == Put(w, p, Served(f, eff))
    ensures After(w, acts + [Tick(p)] + [Tick(p)] + [Tick(p)]) == Put(w, p, Served(f, eff))
  {
    FinishedRests(w, acts, p, Put(w, p, Served(f, eff)));
    FinishedRests(w, acts + [Tick(p)], p, Put(w, p, Served(f, eff)));
    FinishedRests(w, acts + [Tick(p)] + [Tick(p)], p, Put(w, p, Served(f, eff)));
  }

  lemma {:induction false} ResolvesAlone(w: World, p: nat)
    requires w.commits != [] && p !in w.calls
    ensures After(w, ResolveAlone(p)) == Resolved(w, p)
  {
    var f := Floor(w.counter);
    ReadsAlone(w, p);
    if IsFresh(w.blob, w.counter) { ServesAlone(w, p, Reads(p), f, w.blob.value); }
    else if Compiled(Now(w)).None? { ThrowsAlone(w, p, Reads(p), f); }
    else { RecompilesAlone(w, p, Reads(p), f, Compiled(Now(w)).value); }
  }

  /** What the caller of a resolve gets; a call that throws gives nothing. */
  function Answer(w: World, p: nat): Option<Effective> { if p in w.calls && w.calls[p].Served? then Some(w.calls[p].eff) else None }

  /**
   * A resolve that nothing disturbs answers with the blob, and leaves everything as it was, if and only if there are a blob
   * and a counter and the blob's epoch is not below it. Otherwise it answers with the compile of the layers as they are, left
   * in the blob under a counter that has caught up; where there is none it throws and leaves everything as it was.
   */
  lemma {:induction false} ServesTheBlobIff(w: World, p: nat)
    requires w.commits != [] && p !in w.calls
    ensures var u, c := After(w, ResolveAlone(p)), Compiled(Now(w));
            && u.commits == w.commits
            && (if w.blob.Some? && w.counter.Some? && w.blob.value.epoch >= w.counter.value
                then Answer(u, p) == w.blob && u.blob == w.blob && u.counter == w.counter
                else if c.None? then Answer(u, p) == None && u.blob == w.blob && u.counter == w.counter
                else Answer(u, p) == c && u.blob == c && u.counter.Some?
                     && u.counter.value == if w.counter.Some? && w.counter.value > c.value.epoch then w.counter.value else c.value.epoch)
  {
    ResolvesAlone(w, p);
  }

  lemma RepublishReads(w: World, p: nat, c: Option<Effective>, next: Call)
    requires w.commits != [] && c == Compiled(Now(w)) && next == (if c.Some? then PublishDue(c.value) else Failed)
    ensures Next(Put(w, p, RepublishDue), Tick(p)) == Put(w, p, next)
  {
    var v := Put(w, p, RepublishDue);
    assert Now(v) == Now(w);
    assert Next(v, Tick(p)) == Put(v, p, next);
    PutTwice(w, p, RepublishDue, next);
  }

  lemma RepublishWrites(w: World, p: nat, eff: Effective)
    requires w.commits != []
    ensures Next(Put(w, p, PublishDue(eff)), Tick(p)) == Put(w.(blob := Some(eff)), p, Published)
  {
    PutTwice(w.(blob := Some(eff)), p, PublishDue(eff), Published);
  }

  /** A republish that nothing disturbs leaves the compile of the layers in the blob, or what was there if there is none, and no trace in the counter. */
  lemma {:induction false} RepublishAlone(w: World, p: nat)
    requires w.commits != [] && p !in w.calls
    ensures var u, c := After(w, [BeginRepublish(p)] + [Tick(p)] + [Tick(p)]), Compiled(Now(w));
            u.blob == (if c.Some? then c else w.blob) && u.counter == w.counter && u.commits == w.commits
  {
    var c := Compiled(Now(w));
    assert [] + [BeginRepublish(p)] == [BeginRepublish(p)];
    Extends(w, [], BeginRepublish(p), w, Put(w, p, RepublishDue));
    RepublishReads(w, p, c, if c.Some? then PublishDue(c.value) else Failed);
    if c.Some? {
      Extends(w, [BeginRepublish(p)], Tick(p), Put(w, p, RepublishDue), Put(w, p, PublishDue(c.value)));
      RepublishWrites(w, p, c.value);
      Extends(w, [BeginRepublish(p)] + [Tick(p)], Tick(p), Put(w, p, PublishDue(c.value)), Put(w.(blob := c), p, Published));
    } else {
      Extends(w, [BeginRepublish(p)], Tick(p), Put(w, p, RepublishDue), Put(w, p, Failed));
      FinishedRests(w, [BeginRepublish(p)] + [Tick(p)], p, Put(w, p, Failed));
    }
  }

  // ---- Where the guarantee ends: assignments -------------------------------------------------------------

  lemma {:induction false} AssignsAlone(w: World, a: Assignment, p: nat)
    requires w.commits != [] && p !in w.calls
    ensures After(w, [AssignTo(a)] + ResolveAlone(p)) == Resolved(w.(commits := w.commits + [Assign(Now(w), a)]), p)
  {
    var joined := w.(commits := w.commits + [Assign(Now(w), a)]);
    Extends(w, [], AssignTo(a), w, joined);
    assert [] + [AssignTo(a)] == [AssignTo(a)];
    AfterBoth(w, [AssignTo(a)], ResolveAlone(p));
    ResolvesAlone(joined, p);
  }

  /**
   * A resolve that follows a new assignment, with nothing in between, answers with the policy compiled from the layers as
   * they now are if and only if it did not find a fresh blob, or the assignment made no difference to that blob.
   */
  lemma {:induction false} AssignmentIsSeenIff(w: World, a: Assignment, p: nat)
    requires w.commits != [] && p !in w.calls
    ensures var u := After(w, [AssignTo(a)] + ResolveAlone(p));
            && u.commits == w.commits + [Assign(Now(w), a)]
            && (Answer(u, p) == Compiled(Assign(Now(w), a)) <==> !IsFresh(w.blob, w.counter) || w.blob == Compiled(Assign(Now(w), a)))
            && (IsFresh(w.blob, w.counter) ==> Answer(u, p) == w.blob)
  {
    AssignsAlone(w, a, p);
  }

  lemma {:induction false} ResolveFillsCache(w: World, p: nat)
    requires Initial(w) && Compiled(Now(w)).Some?
    ensures var u := After(w, ResolveAlone(p));
            u.commits == w.commits && u.blob == Compiled(Now(w)) && IsFresh(u.blob, u.counter) && forall q :: q in u.calls ==> q == p
  {
    ResolvesAlone(w, p);
    CompiledEpoch(Now(w));
  }

  lemma NewLayerRefuses(db: Db, a: Assignment, l: SpendPolicy, x: Spend)
    requires a.spend && VersionsOf(db, a.policy) != [] && Compiled(db).Some? && !Admits(l, x)
    requires var v := VersionsOf(db, a.policy); v[|v| - 1] == SpendRules(l)
    ensures Compiled(Assign(db, a)).Some? && !Admits(Compiled(Assign(db, a)).value.spend, x)
  {
    AssignedCompiles(db, a, l);
    assert VersionsOf(Assign(db, a), a.policy) == VersionsOf(db, a.policy);
    LatestBinds(Assign(db, a), a, SpendRules(l), Pay(x));
  }

  /**
   * From any initial world that compiles: fill the cache with one resolve, assign one more spend policy, resolve again.
   * The policy that is served admits every payment that it admitted before, those included that the new layer refuses;
   * the layers as they now are compile, and to a policy that refuses them.
   */
  lemma {:induction false} AssignmentIsNotSeen(w: World, p: nat, q: nat, a: Assignment, l: SpendPolicy, x: Spend)
    requires Initial(w) && p != q && Compiled(Now(w)).Some? && Admits(Compiled(Now(w)).value.spend, x)
    requires a.spend && VersionsOf(Now(w), a.policy) != [] && !Admits(l, x)
    requires var v := VersionsOf(Now(w), a.policy); v[|v| - 1] == SpendRules(l)
    ensures var u := After(w, ResolveAlone(p) + ([AssignTo(a)] + ResolveAlone(q)));
            && u.commits != [] && Now(u) == Assign(Now(w), a)
            && Answer(u, q).Some? && Admits(Answer(u, q).value.spend, x)
            && Compiled(Now(u)).Some? && !Admits(Compiled(Now(u)).value.spend, x)
  {
    ResolveFillsCache(w, p);
    AfterBoth(w, ResolveAlone(p), [AssignTo(a)] + ResolveAlone(q));
    AssignmentIsSeenIff(After(w, ResolveAlone(p)), a, q);
    NewLayerRefuses(Now(w), a, l, x);
  }

  const WIDE := SpendPolicy(100, 100, ["feed"], ["casper-x402"], 10)
  const TIGHT := SpendPolicy(1, 1, ["feed"], ["casper-x402"], 10)
  const POOL := AllocationPolicy(1000, 100, 0, ["float"])

  /** An org with a wide policy assigned and a tight one that is not. */
  const ORG := Db(0, map["wide" := [SpendRules(WIDE)], "tight" := [SpendRules(TIGHT)], "pool" := [AllocationRules(POOL)]],
                  [Assignment(OrgScope, "wide", true), Assignment(OrgScope, "pool", false)])

  lemma OrgVersions()
    ensures VersionsOf(ORG, "wide") == [SpendRules(WIDE)] && VersionsOf(ORG, "pool") == [AllocationRules(POOL)] && VersionsOf(ORG, "tight") == [SpendRules(TIGHT)]
  {
    assert "wide"[0] == 'w' && "tight"[0] == 't' && "pool"[0] == 'p';
  }

  lemma {:induction false} OrgLayers(scope: Scope)
    ensures SpendIn(ORG, ORG.assignments, scope) == if scope.OrgScope? then [WIDE] else []
    ensures AllocationIn(ORG, ORG.assignments, scope) == if scope.OrgScope? then [POOL] else []
  {
    var s := ORG.assignments;
    OrgVersions();
    assert s[0] == Assignment(OrgScope, "wide", true) && s[1..] == [Assignment(OrgScope, "pool", false)] && s[1..][1..] == [];
    assert SpendIn(ORG, s[1..][1..], scope) == [] && AllocationIn(ORG, s[1..][1..], scope) == [];
    assert SpendIn(ORG, s[1..], scope) == [] && AllocationIn(ORG, s[1..], scope) == if scope.OrgScope? then [POOL] else [];
  }

  lemma OrgCompiles()
    ensures SpendLayers(ORG) == [WIDE] && AllocationLayers(ORG) == [POOL]
  {
    OrgLayers(OrgScope);
    OrgLayers(TeamScope);
    OrgLayers(AgentScope);
  }

  /** Fifty base units, which the tight policy refuses, are still admitted after it was assigned. */
  lemma TightAssignmentIsIgnored()
    ensures var w, x := World([ORG], None, None, map[]), Spend("casper-x402", "feed", 50, 0, 0);
            var u := After(w, ResolveAlone(0) + ([AssignTo(Assignment(AgentScope, "tight", true))] + ResolveAlone(1)));
            && Initial(w) && u.commits != []
            && Answer(u, 1).Some? && Admits(Answer(u, 1).value.spend, x)
            && Compiled(Now(u)).Some? && !Admits(Compiled(Now(u)).value.spend, x)
  {
    var w, x := World([ORG], None, None, map[]), Spend("casper-x402", "feed", 50, 0, 0);
    OrgVersions();
    OrgCompiles();
    SpendMeansEveryLayer(SpendLayers(ORG), x);
    AssignmentIsNotSeen(w, 0, 1, Assignment(AgentScope, "tight", true), TIGHT, x);
  }

  // ---- What an editor may rely on ------------------------------------------------------------------------

  /** Later commits keep every assignment and every version of the earlier ones. */
  ghost predicate History(commits: seq<Db>) {
    forall i, j {:trigger Extended(commits[i], commits[j])} :: 0 <= i < j < |commits| ==> Extended(commits[i], commits[j])
  }

  ghost predicate Extended(earlier: Db, later: Db) {
    earlier.assignments <= later.assignments && forall id :: VersionsOf(earlier, id) <= VersionsOf(later, id)
  }

  lemma CommitExtends(commits: seq<Db>, db: Db)
    requires commits != [] && History(commits) && Extended(commits[|commits| - 1], db)
    ensures History(commits + [db])
  {
    forall i | 0 <= i < |commits|
      ensures Extended(commits[i], db)
    {
      if i < |commits| - 1 { ExtendedTransitive(commits[i], commits[|commits| - 1], db); }
    }
  }

  lemma ExtendedTransitive(a: Db, b: Db, c: Db)
    requires Extended(a, b) && Extended(b, c)
    ensures Extended(a, c)
  {
    forall id
      ensures VersionsOf(a, id) <= VersionsOf(c, id)
    {
      assert VersionsOf(a, id) <= VersionsOf(b, id) && VersionsOf(b, id) <= VersionsOf(c, id);
    }
  }

  lemma NextKeepsHistory(w: World, act: Action)
    requires w.commits != [] && History(w.commits)
    ensures Next(w, act).commits != [] && History(Next(w, act).commits)
  {
    if Enabled(w, act) {
      match act
      case Edit(_, id, rules) => CommitExtends(w.commits, AddVersion(Now(w), id, rules));
      case AssignTo(a) => CommitExtends(w.commits, Assign(Now(w), a));
      case Step(p, counterFirst) => StepFrame(w, Apply(w, act), p, counterFirst);
      case _ =>
    }
  }

  lemma {:induction false} HistoryRuns(w: World, acts: seq<Action>)
    requires w.commits != [] && History(w.commits)
    ensures After(w, acts).commits != [] && History(After(w, acts).commits)
  {
    if acts != [] {
      HistoryRuns(w, acts[..|acts| - 1]);
      NextKeepsHistory(After(w, acts[..|acts| - 1]), acts[|acts| - 1]);
    }
  }

  predicate EditorOf(w: World, editor: nat, epoch: nat) {
    editor in w.calls && (w.calls[editor] == MirrorDue(epoch) || w.calls[editor] == Mirrored(epoch))
  }

  lemma EditorStays(w: World, act: Action, editor: nat, epoch: nat)
    requires w.commits != [] && EditorOf(w, editor, epoch)
    ensures EditorOf(Next(w, act), editor, epoch)
  {
    match act
    case Step(q, counterFirst) => if q != editor && q in w.calls { StepFrame(w, ApplyStep(w, q, counterFirst), q, counterFirst); }
    case _ =>
  }

  lemma {:induction false} EditorRuns(w: World, acts: seq<Action>, editor: nat, epoch: nat)
    requires Inv(w) && EditorOf(w, editor, epoch)
    ensures EditorOf(After(w, acts), editor, epoch)
  {
    if acts != [] {
      RunKeeps(w, acts[..|acts| - 1]);
      EditorRuns(w, acts[..|acts| - 1], editor, epoch);
      EditorStays(After(w, acts[..|acts| - 1]), acts[|acts| - 1], editor, epoch);
    }
  }

  /** The latest version of the policy in a state, if it is of the assignment's class, allows whatever eff grants. */
  predicate Binds(db: Db, a: Assignment, eff: Effective, x: Ask) {
    var v := VersionsOf(db, a.policy);
    v != [] && ((a.spend <==> v[|v| - 1].SpendRules?) && Grants(eff, x) ==> Allows(v[|v| - 1], x))
  }

  lemma OldEpoch(commits: seq<Db>, k: nat, i: nat)
    requires i < k <= |commits| && Ordered(commits)
    ensures commits[i].epoch <= commits[k - 1].epoch
  {
  }

  /** An old commit cannot have the epoch of a new one. */
  lemma NotBefore(commits: seq<Db>, k: nat, i: nat, epoch: nat)
    requires 0 < k && i < |commits| && k <= |commits| && Ordered(commits) && commits[k - 1].epoch < epoch <= commits[i].epoch
    ensures k <= i
  {
    if i < k { OldEpoch(commits, k, i); }
  }

  lemma KeptAfter(commits: seq<Db>, k: nat, i: nat, a: Assignment)
    requires k <= i < |commits| && History(commits) && a in commits[k].assignments && VersionsOf(commits[k], a.policy) != []
    ensures a in commits[i].assignments && VersionsOf(commits[i], a.policy) != []
  {
    if i != k { assert Extended(commits[k], commits[i]); }
    assert VersionsOf(commits[k], a.policy) <= VersionsOf(commits[i], a.policy);
  }

  lemma LatestBindsCompile(db: Db, eff: Effective, a: Assignment, x: Ask)
    requires CompilesTo(db, eff) && a in db.assignments && VersionsOf(db, a.policy) != []
    ensures Binds(db, a, eff, x)
  {
    var v := VersionsOf(db, a.policy);
    if a.spend <==> v[|v| - 1].SpendRules? { LatestBinds(db, a, v[|v| - 1], x); }
  }

  lemma CommitBinds(commits: seq<Db>, eff: Effective, a: Assignment, k: nat, i: nat, x: Ask)
    requires k <= i < |commits| && History(commits) && CompilesTo(commits[i], eff)
    requires a in commits[k].assignments && VersionsOf(commits[k], a.policy) != []
    ensures Binds(commits[i], a, eff, x)
  {
    KeptAfter(commits, k, i, a);
    LatestBindsCompile(commits[i], eff, a, x);
  }

  /** The worlds of an edit: before it, right after its commit, and once its epoch is mirrored. */
  ghost predicate Edited(w: World, acts: seq<Action>, editor: nat, id: PolicyId, rules: Rules, mid: seq<Action>) {
    && editor !in After(w, acts).calls
    && (var mirrored := After(Next(After(w, acts), Edit(editor, id, rules)), mid);
        editor in mirrored.calls && mirrored.calls[editor].Mirrored?)
  }

  ghost function AfterEdit(w: World, acts: seq<Action>, editor: nat, id: PolicyId, rules: Rules): World {
    Next(After(w, acts), Edit(editor, id, rules))
  }

  lemma {:induction false} EditCommits(w: World, acts: seq<Action>, editor: nat, id: PolicyId, rules: Rules)
    requires Initial(w) && editor !in After(w, acts).calls
    ensures var before, edited := After(w, acts), AfterEdit(w, acts, editor, id, rules);
            && before.commits != [] && Inv(edited) && History(edited.commits)
            && edited.commits == before.commits + [AddVersion(Now(before), id, rules)]
            && EditorOf(edited, editor, Now(before).epoch + 1)
  {
    InitialKeeps(w);
    RunKeeps(w, acts);
    HistoryRuns(w, acts);
    var before := After(w, acts);
    ActionKeeps(before, Apply(before, Edit(editor, id, rules)), Edit(editor, id, rules));
    NextKeepsHistory(before, Edit(editor, id, rules));
  }

  /**
   * What an editor may rely on: a resolve that starts after the edit of an assigned policy has mirrored its epoch serves
   * the compile of a state committed by that edit or later; it grants nothing, payment or allocation, that the latest
   * version of the policy in such a state refuses and, as long as the edit's version is the latest there is, nothing that
   * this version refuses.
   */
  lemma {:induction false} ServedPolicyBindsTheEdit(w: World, acts: seq<Action>, editor: nat, rules: Rules, mid: seq<Action>, r: nat, more: seq<Action>,
                                                    a: Assignment, x: Ask)
    requires Initial(w) && Edited(w, acts, editor, a.policy, rules, mid)
    requires After(w, acts).commits != [] && a in Now(After(w, acts)).assignments
    requires r !in After(AfterEdit(w, acts, editor, a.policy, rules), mid).calls
    ensures var k, u := |After(w, acts).commits|, After(Next(After(AfterEdit(w, acts, editor, a.policy, rules), mid), BeginResolve(r)), more);
            && r in u.calls && k < |u.commits| && u.commits[..k] == After(w, acts).commits
            && (u.calls[r].Served? ==> EditGoverns(u.commits, k, u.calls[r].eff, a, rules, x))
  {
    var before, edited := After(w, acts), AfterEdit(w, acts, editor, a.policy, rules);
    EditCommits(w, acts, editor, a.policy, rules);
    EditorRuns(edited, mid, editor, Now(before).epoch + 1);
    RunKeeps(edited, mid);
    NeverBehindTheEdit(edited, mid, editor, r, more);
    ResolveGrows(edited, mid, r, more);
    var u := After(Next(After(edited, mid), BeginResolve(r)), more);
    CommitsKept(before, edited, u, AddVersion(Now(before), a.policy, rules));
    if u.calls[r].Served? { ServedIsGoverned(before, edited, u, u.calls[r].eff, a, rules, x); }
  }

  lemma ServedIsNewEnough(u: World, k: nat, db: Db, eff: Effective)
    requires 0 < k < |u.commits| && Ordered(u.commits) && u.commits[k - 1] == db && AtLeast(u, eff, db.epoch + 1)
    ensures CompiledSince(u.commits, k, eff)
  {
    NewEnough(u, k, eff);
  }

  lemma ServedIsGoverned(before: World, edited: World, u: World, eff: Effective, a: Assignment, rules: Rules, x: Ask)
    requires before.commits != [] && edited.commits == before.commits + [AddVersion(Now(before), a.policy, rules)] && Grows(edited, u)
    requires Ordered(u.commits) && History(u.commits) && AtLeast(u, eff, Now(before).epoch + 1) && a in Now(before).assignments
    ensures |before.commits| < |u.commits| && EditGoverns(u.commits, |before.commits|, eff, a, rules, x)
  {
    var k := |before.commits|;
    CommitsKept(before, edited, u, AddVersion(Now(before), a.policy, rules));
    ServedIsNewEnough(u, k, Now(before), eff);
    EditGovernsServed(u.commits, k, eff, a, rules, x);
  }

  /**
   * Commit k gave the policy these rules; eff is the compile of commit k or a later one, is bound by the latest version
   * of every such commit that it is the compile of, and by these rules while no further version has been added.
   */
  ghost predicate EditGoverns(commits: seq<Db>, k: nat, eff: Effective, a: Assignment, rules: Rules, x: Ask)
    requires 0 < k < |commits|
  {
    && CompiledSince(commits, k, eff)
    && (forall i: nat :: k <= i < |commits| && CompilesTo(commits[i], eff) ==> Binds(commits[i], a, eff, x))
    && EditHolds(commits[|commits| - 1], commits[k - 1], a, rules, eff, x)
  }

  lemma {:induction false} ResolveGrows(w: World, mid: seq<Action>, r: nat, more: seq<Action>)
    requires Inv(w) && History(w.commits) && r !in After(w, mid).calls
    ensures var u := After(Next(After(w, mid), BeginResolve(r)), more); Inv(u) && Grows(w, u) && History(u.commits)
  {
    var v := After(w, mid);
    RunKeeps(w, mid);
    HistoryRuns(w, mid);
    ActionKeeps(v, Apply(v, BeginResolve(r)), BeginResolve(r));
    NextKeepsHistory(v, BeginResolve(r));
    RunKeeps(Next(v, BeginResolve(r)), more);
    HistoryRuns(Next(v, BeginResolve(r)), more);
    GrowsTransitive(w, v, Next(v, BeginResolve(r)));
    GrowsTransitive(w, Next(v, BeginResolve(r)), After(Next(v, BeginResolve(r)), more));
  }

  /** In the state `now` the policy has one version more than before the edit: the edit's version is still the latest. */
  predicate IsLatest(now: Db, before: Db, id: PolicyId) { |VersionsOf(now, id)| == |VersionsOf(before, id)| + 1 }

  /** While these are the latest rules of the policy, and of the class of its assignment, what is served grants nothing that they refuse. */
  predicate EditHolds(now: Db, before: Db, a: Assignment, rules: Rules, eff: Effective, x: Ask) {
    IsLatest(now, before, a.policy) && (a.spend <==> rules.SpendRules?) && Grants(eff, x) ==> Allows(rules, x)
  }

  /** Between the edit and a state without further versions, the edit's version is the latest. */
  lemma LatestInBetween(commits: seq<Db>, k: nat, i: nat, id: PolicyId)
    requires k <= i < |commits| && History(commits) && |VersionsOf(commits[k], id)| == |VersionsOf(commits[|commits| - 1], id)|
    ensures VersionsOf(commits[i], id) == VersionsOf(commits[k], id)
  {
    if k < i { assert Extended(commits[k], commits[i]); }
    if i < |commits| - 1 { assert Extended(commits[i], commits[|commits| - 1]); }
  }

  lemma BoundByCommit(commits: seq<Db>, k: nat, i: nat, eff: Effective, a: Assignment, rules: Rules, x: Ask)
    requires 0 < k <= i < |commits| && History(commits) && CompilesTo(commits[i], eff)
    requires commits[k] == AddVersion(commits[k - 1], a.policy, rules) && a in commits[k].assignments
    ensures EditHolds(commits[|commits| - 1], commits[k - 1], a, rules, eff, x)
  {
    CommitBinds(commits, eff, a, k, i, x);
    if IsLatest(commits[|commits| - 1], commits[k - 1], a.policy) { LatestInBetween(commits, k, i, a.policy); }
  }

  lemma CommitsKept(before: World, edited: World, u: World, db: Db)
    requires before.commits != [] && edited.commits == before.commits + [db] && Grows(edited, u)
    ensures var k := |before.commits|; k < |u.commits| && u.commits[k - 1] == Now(before) && u.commits[k] == db && u.commits[..k] == before.commits
  {
    var k := |before.commits|;
    assert u.commits[..k + 1][k - 1] == edited.commits[k - 1] && u.commits[..k + 1][k] == edited.commits[k];
    assert u.commits[..k] == u.commits[..k + 1][..k];
  }

  lemma AllBind(commits: seq<Db>, k: nat, eff: Effective, a: Assignment, x: Ask)
    requires k < |commits| && History(commits) && a in commits[k].assignments && VersionsOf(commits[k], a.policy) != []
    ensures forall i: nat :: k <= i < |commits| && CompilesTo(commits[i], eff) ==> Binds(commits[i], a, eff, x)
  {
    forall i: nat | k <= i < |commits| && CompilesTo(commits[i], eff)
      ensures Binds(commits[i], a, eff, x)
    {
      CommitBinds(commits, eff, a, k, i, x);
    }
  }

  /** eff is the compile of commit k or a later one. */
  ghost predicate CompiledSince(commits: seq<Db>, k: nat, eff: Effective) { exists i: nat :: k <= i < |commits| && CompilesTo(commits[i], eff) }

  lemma NewEnough(u: World, k: nat, eff: Effective)
    requires 0 < k < |u.commits| && Ordered(u.commits) && AtLeast(u, eff, u.commits[k - 1].epoch + 1)
    ensures CompiledSince(u.commits, k, eff)
  {
    var i :| 0 <= i < |u.commits| && u.commits[i].epoch >= u.commits[k - 1].epoch + 1 && CompilesTo(u.commits[i], eff);
    NotBefore(u.commits, k, i, u.commits[k - 1].epoch + 1);
  }

  lemma HoldsSince(commits: seq<Db>, k: nat, eff: Effective, a: Assignment, rules: Rules, x: Ask)
    requires 0 < k < |commits| && History(commits) && CompiledSince(commits, k, eff)
    requires commits[k] == AddVersion(commits[k - 1], a.policy, rules) && a in commits[k].assignments
    ensures EditHolds(commits[|commits| - 1], commits[k - 1], a, rules, eff, x)
  {
    var i: nat :| k <= i < |commits| && CompilesTo(commits[i], eff);
    BoundByCommit(commits, k, i, eff, a, rules, x);
  }

  lemma EditGovernsServed(commits: seq<Db>, k: nat, eff: Effective, a: Assignment, rules: Rules, x: Ask)
    requires 0 < k < |commits| && commits[k] == AddVersion(commits[k - 1], a.policy, rules) && a in commits[k].assignments
    requires History(commits) && CompiledSince(commits, k, eff)
    ensures EditGoverns(commits, k, eff, a, rules, x)
  {
    AllBind(commits, k, eff, a, x);
    HoldsSince(commits, k, eff, a, rules, x);
  }
}
