// The guard's Postgres rows (src/engines/casper-guard/store.ts, kill-switch.ts).
//
// Every SQL statement or transaction is one atomic function on the tables; the
// class GuardTables runs the same statements on fields that it updates in place.
module GuardTables {
  import opened Options

  type DecisionId = string
  type AgentId = string
  type OrgId = string
  type Key = string

  datatype Status = Quoted | Reserved | Signed | Broadcasting | ExpiryCheck | Settled | Denied | FailedTerminal | Expired

  /** One row of casper_guard_decisions; `intent` stands for the columns copied from the intent. */
  datatype Decision = Decision(org: OrgId, key: Key, agent: AgentId, amount: nat, intent: string, policyRef: string,
                               allow: bool, status: Status,
                               signedHash: Option<string>, txHash: Option<string>, deployHash: Option<string>)

  datatype HoldStatus = HoldReserved | HoldSettled | HoldReleased

  datatype AgentRow = AgentRow(org: OrgId, suspended: bool)

  datatype Tables = Tables(decisions: map<DecisionId, Decision>, holds: map<DecisionId, HoldStatus>, agents: map<AgentId, AgentRow>)

  predicate IsFailed(s: Status) { s.FailedTerminal? || s.Expired? }

  predicate IsTerminal(s: Status) { s.Settled? || s.Denied? || IsFailed(s) }

  /** Not terminal, and past quoting: the states in which money may still move. */
  predicate IsInFlight(s: Status) { s.Reserved? || s.Signed? || s.Broadcasting? || s.ExpiryCheck? }

  function Coalesce<T>(a: Option<T>, b: Option<T>): Option<T> { if a.Some? then a else b }

  // ---- Statements ------------------------------------------------------------------

  predicate KeyTaken(t: Tables, org: OrgId, key: Key) {
    exists d :: d in t.decisions && t.decisions[d].org == org && t.decisions[d].key == key
  }

  /** INSERT of a denied decision; refused by the primary key or by UNIQUE (org_id, idempotency_key). */
  function InsertDecision(t: Tables, d: DecisionId, row: Decision): (Tables, bool) {
    if d in t.decisions || KeyTaken(t, row.org, row.key) then (t, false)
    else (t.(decisions := t.decisions[d := row]), true)
  }

  /** The transaction that inserts a decision together with its hold. */
  function InsertDecisionAndHold(t: Tables, d: DecisionId, row: Decision): (Tables, bool) {
    if d in t.decisions || d in t.holds || KeyTaken(t, row.org, row.key) then (t, false)
    else (t.(decisions := t.decisions[d := row], holds := t.holds[d := HoldReserved]), true)
  }

  predicate HoldIsReserved(t: Tables, d: DecisionId) { d in t.holds && t.holds[d].HoldReserved? }

  function MarkSigned(t: Tables, d: DecisionId, hash: string, tx: Option<string>, deploy: Option<string>): (Tables, bool) {
    if d in t.decisions && t.decisions[d].status.Reserved? && t.decisions[d].allow && HoldIsReserved(t, d) then
      var r := t.decisions[d];
      (t.(decisions := t.decisions[d := r.(status := Signed, signedHash := Some(hash), txHash := Coalesce(tx, r.txHash), deployHash := Coalesce(deploy, r.deployHash))]), true)
    else (t, false)
  }

  function MarkTerminal(t: Tables, d: DecisionId, status: Status): (Tables, bool)
    requires IsFailed(status)
  {
    if d in t.decisions && !IsTerminal(t.decisions[d].status) then
      (t.(decisions := t.decisions[d := t.decisions[d].(status := status)]), true)
    else (t, false)
  }

  function MarkExpiryCheck(t: Tables, d: DecisionId): (Tables, bool) {
    if d in t.decisions && (t.decisions[d].status.Signed? || t.decisions[d].status.Broadcasting?) && t.decisions[d].allow && t.decisions[d].signedHash.Some? then
      (t.(decisions := t.decisions[d := t.decisions[d].(status := ExpiryCheck)]), true)
    else (t, false)
  }

  function MarkSettled(t: Tables, d: DecisionId, tx: Option<string>, deploy: Option<string>): (Tables, bool) {
    if d in t.decisions && (t.decisions[d].status.Signed? || t.decisions[d].status.Broadcasting? || t.decisions[d].status.ExpiryCheck?)
       && t.decisions[d].allow && t.decisions[d].signedHash.Some? && HoldIsReserved(t, d) then
      var r := t.decisions[d];
      (t.(decisions := t.decisions[d := r.(status := Settled, txHash := Coalesce(tx, r.txHash), deployHash := Coalesce(deploy, r.deployHash))]), true)
    else (t, false)
  }

  function SettleHoldRow(t: Tables, d: DecisionId): (Tables, bool) {
    if HoldIsReserved(t, d) then (t.(holds := t.holds[d := HoldSettled]), true) else (t, false)
  }

  function ReleaseHoldRow(t: Tables, d: DecisionId): (Tables, bool) {
    if HoldIsReserved(t, d) then (t.(holds := t.holds[d := HoldReleased]), true) else (t, false)
  }

  /** UPDATE agents … WHERE id AND org_id: returns whether a row matched. */
  function SuspendAgent(t: Tables, a: AgentId, o: OrgId): (Tables, bool) {
    if a in t.agents && t.agents[a].org == o then (t.(agents := t.agents[a := AgentRow(o, true)]), true) else (t, false)
  }

  predicate AgentKnown(t: Tables, a: AgentId, o: OrgId) { a in t.agents && t.agents[a].org == o }

  predicate IsSuspended(t: Tables, a: AgentId, o: OrgId) {
    a in t.agents && t.agents[a].org == o && t.agents[a].suspended
  }

  // ---- What no statement ever undoes ---------------------------------------------

  function Rank(s: Status): nat {
    match s
    case Quoted => 0
    case Reserved => 1
    case Signed => 2
    case Broadcasting => 3
    case ExpiryCheck => 4
    case Settled | Denied | FailedTerminal | Expired => 5
  }

  /** Identity columns are written once, the status only moves forward, a terminal row never changes again. */
  predicate RowAdvances(a: Decision, b: Decision) {
    && b.org == a.org && b.key == a.key && b.agent == a.agent && b.amount == a.amount
    && b.intent == a.intent && b.policyRef == a.policyRef && b.allow == a.allow
    && Rank(a.status) <= Rank(b.status)
    && (Rank(a.status) == Rank(b.status) ==> b == a)
    && (a.signedHash.Some? && Rank(a.status) > 1 ==> b.signedHash == a.signedHash)
  }

  predicate HoldAdvances(a: HoldStatus, b: HoldStatus) { a.HoldReserved? || b == a }

  predicate Advances(t: Tables, u: Tables) {
    && (forall d :: d in t.decisions ==> d in u.decisions && RowAdvances(t.decisions[d], u.decisions[d]))
    && (forall d :: d in t.holds ==> d in u.holds && HoldAdvances(t.holds[d], u.holds[d]))
  }

  lemma AdvancesTransitive(t: Tables, u: Tables, v: Tables)
    requires Advances(t, u) && Advances(u, v)
    ensures Advances(t, v)
  {
  }

  /** No status statement rewrites an identity column, moves a status back, or touches a terminal row. */
  lemma SigningAdvances(t: Tables, d: DecisionId, hash: string, tx: Option<string>, deploy: Option<string>)
    ensures Advances(t, MarkSigned(t, d, hash, tx, deploy).0)
    ensures Advances(t, MarkSettled(t, d, tx, deploy).0)
  {
    if MarkSigned(t, d, hash, tx, deploy).1 { RowUpdateAdvances(t, d, MarkSigned(t, d, hash, tx, deploy).0.decisions[d]); }
    if MarkSettled(t, d, tx, deploy).1 { RowUpdateAdvances(t, d, MarkSettled(t, d, tx, deploy).0.decisions[d]); }
  }

  lemma FailingAdvances(t: Tables, d: DecisionId, s: Status)
    requires IsFailed(s)
    ensures Advances(t, MarkTerminal(t, d, s).0)
    ensures Advances(t, MarkExpiryCheck(t, d).0)
  {
    if MarkTerminal(t, d, s).1 { RowUpdateAdvances(t, d, t.decisions[d].(status := s)); }
    if MarkExpiryCheck(t, d).1 { RowUpdateAdvances(t, d, t.decisions[d].(status := ExpiryCheck)); }
  }

  lemma RowUpdateAdvances(t: Tables, d: DecisionId, row: Decision)
    requires d in t.decisions && RowAdvances(t.decisions[d], row)
    ensures Advances(t, t.(decisions := t.decisions[d := row]))
  {
  }

  lemma HoldStatementsAdvance(t: Tables, d: DecisionId)
    ensures Advances(t, SettleHoldRow(t, d).0) && Advances(t, ReleaseHoldRow(t, d).0)
  {
  }

  // ---- The statements on tables updated in place -----------------------------------

  class GuardStore {
    var decisions: map<DecisionId, Decision>
    var holds: map<DecisionId, HoldStatus>
    var agents: map<AgentId, AgentRow>

    ghost function Now(): Tables
      reads this
    {
      Tables(decisions, holds, agents)
    }

    constructor (agents: map<AgentId, AgentRow>)
      ensures Now() == Tables(map[], map[], agents)
    {
      this.decisions, this.holds, this.agents := map[], map[], agents;
    }

    method MarkCasperGuardDecisionSigned(d: DecisionId, hash: string, tx: Option<string>, deploy: Option<string>) returns (marked: bool)
      modifies this`decisions
      ensures (Now(), marked) == MarkSigned(old(Now()), d, hash, tx, deploy)
    {
      if d !in decisions || !decisions[d].status.Reserved? || !decisions[d].allow { return false; }
      if d !in holds || !holds[d].HoldReserved? { return false; }
      var row := decisions[d];
      decisions := decisions[d := row.(status := Signed, signedHash := Some(hash), txHash := Coalesce(tx, row.txHash), deployHash := Coalesce(deploy, row.deployHash))];
      marked := true;
    }

    method MarkCasperGuardDecisionTerminal(d: DecisionId, status: Status) returns (marked: bool)
      requires IsFailed(status)
      modifies this`decisions
      ensures (Now(), marked) == MarkTerminal(old(Now()), d, status)
    {
      if d !in decisions || IsTerminal(decisions[d].status) { return false; }
      decisions := decisions[d := decisions[d].(status := status)];
      marked := true;
    }

    method MarkCasperGuardDecisionExpiryCheck(d: DecisionId) returns (marked: bool)
      modifies this`decisions
      ensures (Now(), marked) == MarkExpiryCheck(old(Now()), d)
    {
      if d !in decisions { return false; }
      var row := decisions[d];
      if !(row.status.Signed? || row.status.Broadcasting?) || !row.allow || row.signedHash.None? { return false; }
      decisions := decisions[d := row.(status := ExpiryCheck)];
      marked := true;
    }

    method MarkCasperGuardDecisionSettled(d: DecisionId, tx: Option<string>, deploy: Option<string>) returns (marked: bool)
      modifies this`decisions
      ensures (Now(), marked) == MarkSettled(old(Now()), d, tx, deploy)
    {
      if d !in decisions { return false; }
      var row := decisions[d];
      if !(row.status.Signed? || row.status.Broadcasting? || row.status.ExpiryCheck?) || !row.allow || row.signedHash.None? { return false; }
      if d !in holds || !holds[d].HoldReserved? { return false; }
      decisions := decisions[d := row.(status := Settled, txHash := Coalesce(tx, row.txHash), deployHash := Coalesce(deploy, row.deployHash))];
      marked := true;
    }

    method SettleCasperGuardHold(d: DecisionId) returns (settled: bool)
      modifies this`holds
      ensures (Now(), settled) == SettleHoldRow(old(Now()), d)
    {
      settled := d in holds && holds[d].HoldReserved?;
      if settled { holds := holds[d := HoldSettled]; }
    }

    method ReleaseCasperGuardHold(d: DecisionId) returns (released: bool)
      modifies this`holds
      ensures (Now(), released) == ReleaseHoldRow(old(Now()), d)
    {
      released := d in holds && holds[d].HoldReserved?;
      if released { holds := holds[d := HoldReleased]; }
    }

    /** BEGIN, two inserts, COMMIT; a refused insert rolls both back. */
    method CreateCasperGuardDecisionAndHold(d: DecisionId, row: Decision) returns (created: bool)
      modifies this`decisions, this`holds
      ensures (Now(), created) == InsertDecisionAndHold(old(Now()), d, row)
    {
      var decisionsBefore, holdsBefore := decisions, holds;
      if d in decisions || exists e :: e in decisions && decisions[e].org == row.org && decisions[e].key == row.key { return false; }
      decisions := decisions[d := row];
      if d in holds {
        decisions, holds := decisionsBefore, holdsBefore;
        return false;
      }
      holds := holds[d := HoldReserved];
      created := true;
    }

    method CreateCasperGuardDecision(d: DecisionId, row: Decision) returns (created: bool)
      modifies this`decisions
      ensures (Now(), created) == InsertDecision(old(Now()), d, row)
    {
      if d in decisions || exists e :: e in decisions && decisions[e].org == row.org && decisions[e].key == row.key { return false; }
      decisions := decisions[d := row];
      created := true;
    }

    method SuspendAgentRow(a: AgentId, o: OrgId) returns (matched: bool)
      modifies this`agents
      ensures (Now(), matched) == SuspendAgent(old(Now()), a, o)
    {
      matched := a in agents && agents[a].org == o;
      if matched { agents := agents[a := agents[a].(suspended := true)]; }
    }
  }

  /** One row of the SELECT that revoke reads. */
  datatype ListedRow = ListedRow(id: DecisionId, status: Status)

  /** Splits the agent's live decisions into those still abortable and those already committed. */
  method ListForRevoke(rows: seq<ListedRow>) returns (reserved: seq<DecisionId>, committed: seq<DecisionId>)
    ensures forall d :: d in reserved <==> ListedRow(d, Reserved) in rows
    ensures forall d :: d in committed <==>
      exists s :: ListedRow(d, s) in rows && (s.Signed? || s.Broadcasting? || s.ExpiryCheck? || s.Settled?)
  {
    reserved, committed := [], [];
    for i := 0 to |rows|
      invariant forall d :: d in reserved <==> ListedRow(d, Reserved) in rows[..i]
      invariant forall d :: d in committed <==>
        exists s :: ListedRow(d, s) in rows[..i] && (s.Signed? || s.Broadcasting? || s.ExpiryCheck? || s.Settled?)
    {
      var row := rows[i];
      assert rows[..i + 1] == rows[..i] + [row];
      assert row == ListedRow(row.id, row.status);
      if row.status.Reserved? {
        reserved := reserved + [row.id];
      } else if row.status.Signed? || row.status.Broadcasting? || row.status.ExpiryCheck? || row.status.Settled? {
        committed := committed + [row.id];
      }
    }
    assert rows[..|rows|] == rows;
  }
}
