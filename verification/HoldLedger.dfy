// The hot tier of the ledger (src/engines/ledger/window.ts and its Redis scripts).
//
// The specification is one map per agent, from payment id to a hold. The class
// HotLedger is the Redis representation: four sorted sets, a hash of amounts, a
// counter and two id sets, which every script keeps in step with that map.
module HoldLedger {
  import opened Sums
  import opened DecimalText

  type PaymentId = string

  datatype Phase = Held | Settled
  datatype Hold = Hold(amount: nat, at: int, phase: Phase)
  type Ledger = map<PaymentId, Hold>

  datatype SpendWindow = OneHour | OneDay | SevenDays | ThirtyDays

  function WidthSeconds(w: SpendWindow): (seconds: nat)
    ensures seconds > 0
  {
    match w
    case OneHour => 60 * 60
    case OneDay => 24 * 60 * 60
    case SevenDays => 7 * 24 * 60 * 60
    case ThirtyDays => 30 * 24 * 60 * 60
  }

  /** The start of the tumbling bucket that contains `now`. */
  function WindowStart(now: int, w: SpendWindow): int {
    now / WidthSeconds(w) * WidthSeconds(w)
  }

  // ---- Measures of a ledger ------------------------------------------------------

  function HeldWeight(): Hold -> int { (h: Hold) => if h.phase.Held? then h.amount else 0 }

  function SinceWeight(from: int): Hold -> int { (h: Hold) => if h.at >= from then h.amount else 0 }

  function SinceCount(from: int): Hold -> int { (h: Hold) => if h.at >= from then 1 else 0 }

  function BucketWeight(w: SpendWindow, b: int): Hold -> int {
    (h: Hold) => if h.at / WidthSeconds(w) == b then h.amount else 0
  }

  function BucketCount(w: SpendWindow, b: int): Hold -> int {
    (h: Hold) => if h.at / WidthSeconds(w) == b then 1 else 0
  }

  // ---- What each script does to the map ------------------------------------------

  datatype PolicyReserve = Reserved | Duplicate | CapExceeded | VelocityExceeded | InsufficientFloat

  /** The balance leg of a reserve: skipped, or checked against the agent's float. */
  datatype Backing = Unchecked | Float(confirmed: nat, consumed: nat)

  function ReserveSpec(l: Ledger, p: PaymentId, amount: nat, at: int): (Ledger, bool) {
    if p in l then (l, false) else (l[p := Hold(amount, at, Held)], true)
  }

  function SettleSpec(l: Ledger, p: PaymentId): (Ledger, bool) {
    if p in l && l[p].phase.Held? then (l[p := l[p].(phase := Settled)], true) else (l, false)
  }

  function ReleaseSpec(l: Ledger, p: PaymentId): (Ledger, bool) {
    if p in l && l[p].phase.Held? then (l - {p}, true) else (l, false)
  }

  ghost function PolicyOutcome(l: Ledger, p: PaymentId, amount: nat, at: int, cap: nat, limit: nat, backing: Backing): PolicyReserve {
    if p in l then Duplicate
    else if Measure(l, SinceCount(WindowStart(at, OneHour))) >= limit then VelocityExceeded
    else if Measure(l, SinceWeight(WindowStart(at, ThirtyDays))) + amount > cap then CapExceeded
    else if backing.Float? && (backing.consumed + Measure(l, HeldWeight()) >= backing.confirmed
                               || amount > backing.confirmed - backing.consumed - Measure(l, HeldWeight())) then InsufficientFloat
    else Reserved
  }

  ghost function PolicyReserveSpec(l: Ledger, p: PaymentId, amount: nat, at: int, cap: nat, limit: nat, backing: Backing): (Ledger, PolicyReserve) {
    var outcome := PolicyOutcome(l, p, amount, at, cap, limit, backing);
    (if outcome.Reserved? then l[p := Hold(amount, at, Held)] else l, outcome)
  }

  // ---- Properties of the map under the scripts ------------------------------------

  /** No 30-day bucket holds more than the cap, no 1-hour bucket more holds than the limit. */
  ghost predicate WithinPolicy(l: Ledger, cap: nat, limit: nat) {
    && (forall b: int :: Measure(l, BucketWeight(ThirtyDays, b)) <= cap)
    && (forall b: int :: Measure(l, BucketCount(OneHour, b)) <= limit)
  }

  lemma BucketWithinSince(l: Ledger, at: int)
    ensures Measure(l, BucketWeight(ThirtyDays, at / WidthSeconds(ThirtyDays))) <= Measure(l, SinceWeight(WindowStart(at, ThirtyDays)))
    ensures Measure(l, BucketCount(OneHour, at / WidthSeconds(OneHour))) <= Measure(l, SinceCount(WindowStart(at, OneHour)))
  {
    var day, hour := WidthSeconds(ThirtyDays), WidthSeconds(OneHour);
    SumMonotone(l.Keys, WeightAt(l, BucketWeight(ThirtyDays, at / day)), l.Keys, WeightAt(l, SinceWeight(WindowStart(at, ThirtyDays))));
    SumMonotone(l.Keys, WeightAt(l, BucketCount(OneHour, at / hour)), l.Keys, WeightAt(l, SinceCount(WindowStart(at, OneHour))));
  }

  lemma PolicyReserveKeepsPolicy(l: Ledger, p: PaymentId, amount: nat, at: int, cap: nat, limit: nat, backing: Backing)
    requires WithinPolicy(l, cap, limit)
    ensures WithinPolicy(PolicyReserveSpec(l, p, amount, at, cap, limit, backing).0, cap, limit)
  {
    if PolicyOutcome(l, p, amount, at, cap, limit, backing).Reserved? {
      var h := Hold(amount, at, Held);
      BucketWithinSince(l, at);
      forall b: int
        ensures Measure(l[p := h], BucketWeight(ThirtyDays, b)) <= cap
        ensures Measure(l[p := h], BucketCount(OneHour, b)) <= limit
      {
        MeasureAdd(l, p, h, BucketWeight(ThirtyDays, b));
        MeasureAdd(l, p, h, BucketCount(OneHour, b));
      }
    }
  }

  lemma SettleKeepsPolicy(l: Ledger, p: PaymentId, cap: nat, limit: nat)
    requires WithinPolicy(l, cap, limit)
    ensures WithinPolicy(SettleSpec(l, p).0, cap, limit)
  {
    if p in l {
      var h := l[p].(phase := Settled);
      forall b: int
        ensures Measure(l[p := h], BucketWeight(ThirtyDays, b)) == Measure(l, BucketWeight(ThirtyDays, b))
        ensures Measure(l[p := h], BucketCount(OneHour, b)) == Measure(l, BucketCount(OneHour, b))
      {
        MeasureUpdate(l, p, h, BucketWeight(ThirtyDays, b));
        MeasureUpdate(l, p, h, BucketCount(OneHour, b));
      }
    }
  }

  lemma ReleaseKeepsPolicy(l: Ledger, p: PaymentId, cap: nat, limit: nat)
    requires WithinPolicy(l, cap, limit)
    ensures WithinPolicy(ReleaseSpec(l, p).0, cap, limit)
  {
    if p in l {
      forall b: int
        ensures Measure(l - {p}, BucketWeight(ThirtyDays, b)) <= Measure(l, BucketWeight(ThirtyDays, b))
        ensures Measure(l - {p}, BucketCount(OneHour, b)) <= Measure(l, BucketCount(OneHour, b))
      {
        MeasureRemove(l, p, BucketWeight(ThirtyDays, b));
        MeasureRemove(l, p, BucketCount(OneHour, b));
      }
    }
  }

  /** A solvent reserve leaves consumed spend plus outstanding holds within the confirmed float. */
  lemma PolicyReserveIsSolvent(l: Ledger, p: PaymentId, amount: nat, at: int, cap: nat, limit: nat, backing: Backing)
    requires backing.Float? && PolicyOutcome(l, p, amount, at, cap, limit, backing).Reserved?
    ensures backing.consumed + Measure(PolicyReserveSpec(l, p, amount, at, cap, limit, backing).0, HeldWeight()) <= backing.confirmed
  {
    MeasureAdd(l, p, Hold(amount, at, Held), HeldWeight());
  }

  /** Any hold of the window leaves that much less of the cap, and one place less of the velocity limit. */
  lemma HoldTakesRoom(l: Ledger, held: PaymentId, p: PaymentId, amount: nat, at: int, cap: nat, limit: nat, backing: Backing)
    requires held in l && PolicyOutcome(l, p, amount, at, cap, limit, backing).Reserved?
    ensures l[held].at >= WindowStart(at, ThirtyDays) ==> l[held].amount + amount <= cap
    ensures l[held].at >= WindowStart(at, OneHour) ==> 2 <= limit
  {
    SumMember(l.Keys, WeightAt(l, SinceWeight(WindowStart(at, ThirtyDays))), held);
    SumMember(l.Keys, WeightAt(l, SinceCount(WindowStart(at, OneHour))), held);
  }

  // ---- When a payment gets through --------------------------------------------------

  /** The payments recorded in bucket `b` of so many seconds, or in a later one. */
  function RecordedFrom(l: Ledger, seconds: nat, b: int): set<PaymentId>
    requires seconds > 0
  {
    set p | p in l && l[p].at / seconds >= b
  }

  function Outstanding(l: Ledger): set<PaymentId> { set p | p in l && l[p].phase.Held? }

  function AmountIn(l: Ledger): PaymentId -> int { p => if p in l then l[p].amount else 0 }

  /** Fewer payments than the limit in the hour of the payment. */
  predicate HourHasPlace(l: Ledger, at: int, limit: nat) { |RecordedFrom(l, 3600, at / 3600)| < limit }

  /** What was recorded in the 30 days of the payment leaves its amount below the cap. */
  ghost predicate MonthHasRoom(l: Ledger, amount: nat, at: int, cap: nat) {
    SumOver(RecordedFrom(l, 2592000, at / 2592000), AmountIn(l)) + amount <= cap
  }

  /** The confirmed float, less what was consumed and what is outstanding, is positive and covers the amount. */
  ghost predicate FloatCovers(l: Ledger, amount: nat, backing: Backing) {
    backing.Float? ==>
      var drawn := backing.consumed + SumOver(Outstanding(l), AmountIn(l));
      drawn < backing.confirmed && drawn + amount <= backing.confirmed
  }

  ghost predicate MayReserve(l: Ledger, p: PaymentId, amount: nat, at: int, cap: nat, limit: nat, backing: Backing) {
    p !in l && HourHasPlace(l, at, limit) && MonthHasRoom(l, amount, at, cap) && FloatCovers(l, amount, backing)
  }

  lemma CountIsSize(l: Ledger, weight: Hold -> int, members: set<PaymentId>)
    requires members <= l.Keys
    requires forall p :: p in l ==> weight(l[p]) == if p in members then 1 else 0
    ensures Measure(l, weight) == |members|
  {
    SumSupport(members, l.Keys, WeightAt(l, weight));
    SumOnes(members, WeightAt(l, weight));
  }

  lemma {:induction false} MeasureIsSum(l: Ledger, weight: Hold -> int, members: set<PaymentId>)
    requires members <= l.Keys
    requires forall p :: p in l ==> weight(l[p]) == if p in members then l[p].amount else 0
    ensures Measure(l, weight) == SumOver(members, AmountIn(l))
  {
    SumSupport(members, l.Keys, WeightAt(l, weight));
    SumSame(members, WeightAt(l, weight), AmountIn(l));
  }

  lemma HourCounts(l: Ledger, at: int)
    ensures Measure(l, SinceCount(WindowStart(at, OneHour))) == |RecordedFrom(l, 3600, at / 3600)|
  {
    CountIsSize(l, SinceCount(WindowStart(at, OneHour)), RecordedFrom(l, 3600, at / 3600));
  }

  lemma MonthSums(l: Ledger, at: int)
    ensures Measure(l, SinceWeight(WindowStart(at, ThirtyDays))) == SumOver(RecordedFrom(l, 2592000, at / 2592000), AmountIn(l))
  {
    MeasureIsSum(l, SinceWeight(WindowStart(at, ThirtyDays)), RecordedFrom(l, 2592000, at / 2592000));
  }

  lemma HeldSums(l: Ledger)
    ensures Measure(l, HeldWeight()) == SumOver(Outstanding(l), AmountIn(l))
  {
    MeasureIsSum(l, HeldWeight(), Outstanding(l));
  }

  /** The exact condition of every answer, in the order in which the script asks. */
  lemma ReserveAnswers(l: Ledger, p: PaymentId, amount: nat, at: int, cap: nat, limit: nat, backing: Backing)
    ensures var r := PolicyOutcome(l, p, amount, at, cap, limit, backing);
            && (r.Duplicate? <==> p in l)
            && (r.VelocityExceeded? <==> p !in l && !HourHasPlace(l, at, limit))
            && (r.CapExceeded? <==> p !in l && HourHasPlace(l, at, limit) && !MonthHasRoom(l, amount, at, cap))
            && (r.InsufficientFloat? <==>
                  p !in l && HourHasPlace(l, at, limit) && MonthHasRoom(l, amount, at, cap) && !FloatCovers(l, amount, backing))
            && (r.Reserved? <==> MayReserve(l, p, amount, at, cap, limit, backing))
  {
    HourCounts(l, at);
    MonthSums(l, at);
    HeldSums(l);
  }

  /** Where nothing is recorded later than the payment's own buckets, only those two buckets matter. */
  lemma OnlyItsBucketsMatter(l: Ledger, p: PaymentId, amount: nat, at: int, cap: nat, limit: nat, backing: Backing)
    requires forall x :: x in l ==> l[x].at / 3600 <= at / 3600 && l[x].at / 2592000 <= at / 2592000
    ensures MayReserve(l, p, amount, at, cap, limit, backing) <==>
              && p !in l
              && |(set x | x in l && l[x].at / 3600 == at / 3600)| < limit
              && SumOver((set x | x in l && l[x].at / 2592000 == at / 2592000), AmountIn(l)) + amount <= cap
              && FloatCovers(l, amount, backing)
  {
    assert RecordedFrom(l, 3600, at / 3600) == set x | x in l && l[x].at / 3600 == at / 3600;
    assert RecordedFrom(l, 2592000, at / 2592000) == set x | x in l && l[x].at / 2592000 == at / 2592000;
  }

  // ---- Whole runs -----------------------------------------------------------------

  datatype Op =
    | Reserve(p: PaymentId, amount: nat, at: int, backing: Backing)
    | Settle(p: PaymentId)
    | Release(p: PaymentId)

  ghost function Step(l: Ledger, op: Op, cap: nat, limit: nat): Ledger {
    match op
    case Reserve(p, amount, at, backing) => PolicyReserveSpec(l, p, amount, at, cap, limit, backing).0
    case Settle(p) => SettleSpec(l, p).0
    case Release(p) => ReleaseSpec(l, p).0
  }

  ghost function Run(l: Ledger, ops: seq<Op>, cap: nat, limit: nat): Ledger {
    if ops == [] then l else Step(Run(l, ops[..|ops| - 1], cap, limit), ops[|ops| - 1], cap, limit)
  }

  /** Over any run of the scripts under one policy no bucket ever exceeds that policy. */
  lemma {:induction false} RunKeepsPolicy(l: Ledger, ops: seq<Op>, cap: nat, limit: nat)
    requires WithinPolicy(l, cap, limit)
    ensures WithinPolicy(Run(l, ops, cap, limit), cap, limit)
  {
    if ops != [] {
      var before := Run(l, ops[..|ops| - 1], cap, limit);
      RunKeepsPolicy(l, ops[..|ops| - 1], cap, limit);
      match ops[|ops| - 1]
      case Reserve(p, amount, at, backing) => PolicyReserveKeepsPolicy(before, p, amount, at, cap, limit, backing);
      case Settle(p) => SettleKeepsPolicy(before, p, cap, limit);
      case Release(p) => ReleaseKeepsPolicy(before, p, cap, limit);
    }
  }

  lemma EmptyWithinPolicy(cap: nat, limit: nat)
    ensures WithinPolicy(map[], cap, limit)
  {
  }

  /** So whatever an agent's keys hold after any sequence of the scripts, its policy was kept. */
  lemma {:induction false} EveryRunKeepsPolicy(ops: seq<Op>, cap: nat, limit: nat)
    ensures WithinPolicy(Run(map[], ops, cap, limit), cap, limit)
  {
    EmptyWithinPolicy(cap, limit);
    RunKeepsPolicy(map[], ops, cap, limit);
  }

  /** Settled spend never leaves its window: no later script touches a settled hold. */
  lemma {:induction false} SettledForever(l: Ledger, ops: seq<Op>, cap: nat, limit: nat, p: PaymentId)
    requires p in l && l[p].phase.Settled?
    ensures p in Run(l, ops, cap, limit) && Run(l, ops, cap, limit)[p] == l[p]
  {
    if ops != [] {
      SettledForever(l, ops[..|ops| - 1], cap, limit, p);
    }
  }

  /** Repeating a script at once changes nothing and reports that it did nothing. */
  lemma ReplayChangesNothing(l: Ledger, p: PaymentId, amount: nat, at: int, cap: nat, limit: nat, b: Backing)
    ensures var l1 := PolicyReserveSpec(l, p, amount, at, cap, limit, b);
            var l2 := PolicyReserveSpec(l1.0, p, amount, at, cap, limit, b);
            l2.0 == l1.0 && !l2.1.Reserved?
    ensures ReserveSpec(ReserveSpec(l, p, amount, at).0, p, amount, at) == (ReserveSpec(l, p, amount, at).0, false)
    ensures SettleSpec(SettleSpec(l, p).0, p) == (SettleSpec(l, p).0, false)
    ensures ReleaseSpec(ReleaseSpec(l, p).0, p) == (ReleaseSpec(l, p).0, false)
    ensures ReleaseSpec(SettleSpec(l, p).0, p) == (SettleSpec(l, p).0, false)
    ensures SettleSpec(ReleaseSpec(l, p).0, p) == (ReleaseSpec(l, p).0, false)
  {
  }

  // ---- The Redis representation ---------------------------------------------------

  /** The keys of one agent: the four sorted sets, the amounts, the counter and the id sets. */
  datatype Keys = Keys(hour: map<PaymentId, int>, day: map<PaymentId, int>, week: map<PaymentId, int>, month: map<PaymentId, int>,
                       amounts: map<PaymentId, string>, reserved: string,
                       reservedHolds: set<PaymentId>, settledHolds: set<PaymentId>)
  {
    ghost predicate Wellformed() {
      && hour == month && day == month && week == month
      && month.Keys == amounts.Keys && amounts.Keys == reservedHolds + settledHolds
      && reservedHolds !! settledHolds
      && (forall p :: p in amounts ==> IsDigits(amounts[p]))
      && IsDigits(reserved)
    }

    /** The map that the keys stand for. */
    ghost function View(): (l: Ledger)
      requires Wellformed()
      ensures l.Keys == amounts.Keys
    {
      map p | p in amounts :: Hold(Value(amounts[p]), month[p], if p in settledHolds then Settled else Held)
    }

    /** Well-formed, and the counter is the sum of the outstanding holds. */
    ghost predicate Valid() { Wellformed() && Value(reserved) == Measure(View(), HeldWeight()) }

    function WithHold(p: PaymentId, amount: string, at: int, total: string): Keys {
      Keys(hour[p := at], day[p := at], week[p := at], month[p := at], amounts[p := amount], total, reservedHolds + {p}, settledHolds)
    }

    function WithSettled(p: PaymentId, total: string): Keys {
      this.(reserved := total, reservedHolds := reservedHolds - {p}, settledHolds := settledHolds + {p})
    }

    function Without(p: PaymentId, total: string): Keys {
      Keys(hour - {p}, day - {p}, week - {p}, month - {p}, amounts - {p}, total, reservedHolds - {p}, settledHolds)
    }

    /** The two id sets tell, for every recorded payment, whether it is outstanding or settled. */
    lemma IdSetsDecide(p: PaymentId)
      requires Wellformed()
      ensures p in reservedHolds <==> p in View() && View()[p].phase.Held?
      ensures p in settledHolds <==> p in View() && View()[p].phase.Settled?
    {
    }

    lemma {:induction false} HoldWritten(p: PaymentId, amount: string, at: int, total: string)
      requires Valid() && p !in amounts && IsDigits(amount)
      requires IsDigits(total) && Value(total) == Value(reserved) + Value(amount)
      ensures WithHold(p, amount, at, total).Valid()
      ensures WithHold(p, amount, at, total).View() == View()[p := Hold(Value(amount), at, Held)]
    {
      HoldWrittenWellformed(p, amount, at, total);
      HoldWrittenView(p, amount, at, total);
      MeasureAdd(View(), p, Hold(Value(amount), at, Held), HeldWeight());
    }

    lemma HoldWrittenWellformed(p: PaymentId, amount: string, at: int, total: string)
      requires Wellformed() && p !in amounts && IsDigits(amount) && IsDigits(total)
      ensures WithHold(p, amount, at, total).Wellformed()
    {
      assert month[p := at].Keys == month.Keys + {p};
      assert amounts[p := amount].Keys == amounts.Keys + {p};
    }

    lemma {:induction false} HoldWrittenView(p: PaymentId, amount: string, at: int, total: string)
      requires Wellformed() && p !in amounts && IsDigits(amount) && IsDigits(total)
      requires WithHold(p, amount, at, total).Wellformed()
      ensures WithHold(p, amount, at, total).View() == View()[p := Hold(Value(amount), at, Held)]
    {
    }

    lemma {:induction false} HoldSettled(p: PaymentId, total: string)
      requires Valid() && p in reservedHolds
      requires IsDigits(total) && Value(total) == if Value(reserved) <= Value(amounts[p]) then 0 else Value(reserved) - Value(amounts[p])
      ensures WithSettled(p, total).Valid()
      ensures WithSettled(p, total).View() == SettleSpec(View(), p).0 && SettleSpec(View(), p).1
    {
      var after := WithSettled(p, total);
      MeasureUpdate(View(), p, View()[p].(phase := Settled), HeldWeight());
      HeldWithinReserved(View(), p);
      assert after.Wellformed();
      assert after.View() == View()[p := View()[p].(phase := Settled)];
    }

    lemma {:induction false} HoldRemoved(p: PaymentId, total: string)
      requires Valid() && p in reservedHolds
      requires IsDigits(total) && Value(total) == if Value(reserved) <= Value(amounts[p]) then 0 else Value(reserved) - Value(amounts[p])
      ensures Without(p, total).Valid()
      ensures Without(p, total).View() == ReleaseSpec(View(), p).0 && ReleaseSpec(View(), p).1
    {
      HoldRemovedWellformed(p, total);
      HoldRemovedView(p, total);
      MeasureRemove(View(), p, HeldWeight());
      HeldWithinReserved(View(), p);
    }

    lemma HoldRemovedWellformed(p: PaymentId, total: string)
      requires Wellformed() && p in reservedHolds && IsDigits(total)
      ensures Without(p, total).Wellformed()
    {
      var rest, others := amounts - {p}, month - {p};
      assert others.Keys == month.Keys - {p} && rest.Keys == amounts.Keys - {p};
      assert rest.Keys == (reservedHolds - {p}) + settledHolds;
      assert forall x :: x in rest ==> x in amounts && rest[x] == amounts[x];
    }

    lemma HoldRemovedView(p: PaymentId, total: string)
      requires Wellformed() && p in reservedHolds && IsDigits(total) && Without(p, total).Wellformed()
      ensures Without(p, total).View() == View() - {p}
    {
    }

    lemma MemberWeight(p: PaymentId, from: int)
      requires Valid() && p in month && month[p] >= from
      ensures IsDigits(amounts[p]) && WeightAt(View(), SinceWeight(from))(p) == Value(amounts[p])
    {
    }

    /** The members of a window from a score on are exactly what a sum since then counts. */
    lemma {:induction false} MembersSince(from: int, members: set<PaymentId>)
      requires Valid() && members == set p | p in month && month[p] >= from
      ensures SumOver(members, WeightAt(View(), SinceWeight(from))) == Measure(View(), SinceWeight(from))
      ensures |members| == Measure(View(), SinceCount(from))
    {
      SumSupport(members, View().Keys, WeightAt(View(), SinceWeight(from)));
      SumOnes(members, WeightAt(View(), SinceCount(from)));
      SumSupport(members, View().Keys, WeightAt(View(), SinceCount(from)));
    }
  }

  class HotLedger {
    var hour: map<PaymentId, int>    // agent:{id}:spend:1h
    var day: map<PaymentId, int>     // agent:{id}:spend:1d
    var week: map<PaymentId, int>    // agent:{id}:spend:7d
    var month: map<PaymentId, int>   // agent:{id}:spend:30d
    var amounts: map<PaymentId, string>
    var reserved: string
    var reservedHolds: set<PaymentId>
    var settledHolds: set<PaymentId>
    var floatConfirmed: string
    var consumed: string

    ghost function Now(): Keys
      reads this
    {
      Keys(hour, day, week, month, amounts, reserved, reservedHolds, settledHolds)
    }

    ghost predicate Valid()
      reads this
    {
      Now().Valid() && IsDigits(floatConfirmed) && IsDigits(consumed)
    }

    ghost function View(): Ledger
      reads this
      requires Valid()
    {
      Now().View()
    }

    constructor (confirmed: string, spent: string)
      requires IsDigits(confirmed) && IsDigits(spent)
      ensures Valid() && View() == map[]
      ensures floatConfirmed == confirmed && consumed == spent
    {
      hour, day, week, month := map[], map[], map[], map[];
      amounts, reserved, reservedHolds, settledHolds := map[], "0", {}, {};
      floatConfirmed, consumed := confirmed, spent;
      new;
      ValueOfZeros(1);
    }

    /** The seven writes that both reserving scripts end with. */
    method StoreHold(p: PaymentId, amount: string, at: int) returns (total: string)
      requires IsDigits(reserved) && IsDigits(amount)
      modifies this`hour, this`day, this`week, this`month, this`amounts, this`reserved, this`reservedHolds
      ensures IsDigits(total) && Value(total) == Value(old(reserved)) + Value(amount)
      ensures Now() == old(Now()).WithHold(p, amount, at, total)
    {
      hour, day, week, month := hour[p := at], day[p := at], week[p := at], month[p := at];
      amounts := amounts[p := amount];
      total := AddDecimal(reserved, amount);
      reserved := total;
      reservedHolds := reservedHolds + {p};
    }

    method WriteHold(p: PaymentId, amount: string, at: int)
      requires Valid() && p !in amounts && IsDigits(amount)
      modifies this`hour, this`day, this`week, this`month, this`amounts, this`reserved, this`reservedHolds
      ensures Valid() && View() == old(View())[p := Hold(Value(amount), at, Held)]
    {
      ghost var was := Now();
      var total := StoreHold(p, amount, at);
      was.HoldWritten(p, amount, at, total);
    }

    method ReserveHold(p: PaymentId, amount: string, at: int) returns (written: bool)
      requires Valid() && IsDigits(amount)
      modifies this`hour, this`day, this`week, this`month, this`amounts, this`reserved, this`reservedHolds
      ensures Valid() && (View(), written) == ReserveSpec(old(View()), p, Value(amount), at)
    {
      if p in amounts { return false; }
      WriteHold(p, amount, at);
      written := true;
    }

    /** The hold-inclusive total of the 30-day set, added up member by member. */
    method MonthTotal(from: int) returns (total: string)
      requires Valid()
      ensures IsDigits(total) && Value(total) == Measure(View(), SinceWeight(from))
    {
      ghost var l, weight := View(), WeightAt(View(), SinceWeight(from));
      var members := set p | p in month && month[p] >= from;
      var todo := members;
      total := "0";
      ValueOfZeros(1);
      while todo != {}
        invariant todo <= members && IsDigits(total)
        invariant Value(total) == SumOver(members - todo, weight)
      {
        var p :| p in todo;
        TakeOne(members, todo, weight, p);
        Now().MemberWeight(p, from);
        total := AddDecimal(total, amounts[p]);
        todo := todo - {p};
      }
      assert members - todo == members;
      Now().MembersSince(from, members);
    }

    /** ZCOUNT over the 1-hour set. */
    method HourCount(from: int) returns (count: nat)
      requires Valid()
      ensures count == Measure(View(), SinceCount(from))
    {
      var members := set p | p in hour && hour[p] >= from;
      count := |members|;
      Now().MembersSince(from, members);
    }

    /** The solvency gate: spendable float is confirmed minus consumed minus outstanding holds. */
    method FloatFallsShort(amount: string) returns (short: bool)
      requires IsDigits(amount) && IsDigits(reserved) && IsDigits(floatConfirmed) && IsDigits(consumed)
      ensures var drawn := Value(consumed) + Value(reserved);
              short <==> drawn >= Value(floatConfirmed) || Value(amount) > Value(floatConfirmed) - drawn
    {
      var drawn := AddDecimal(consumed, reserved);
      if CompareDecimal(drawn, floatConfirmed) >= 0 { return true; }
      var spendable := BorrowSubtract(Normalize(floatConfirmed), drawn);
      short := CompareDecimal(amount, spendable) == 1;
    }

    /** The gates of reserve-with-policy.lua in their order; none of them writes. */
    method JudgeReserve(p: PaymentId, amount: string, at: int, spendCap: string, velocityLimit: nat, enforceSolvency: bool) returns (outcome: PolicyReserve)
      requires Valid() && IsDigits(amount) && IsDigits(spendCap)
      ensures outcome == PolicyOutcome(View(), p, Value(amount), at, Value(spendCap), velocityLimit,
                                       if enforceSolvency then Float(Value(floatConfirmed), Value(consumed)) else Unchecked)
    {
      if p in amounts { return Duplicate; }
      var velocity := HourCount(WindowStart(at, OneHour));
      if velocity >= velocityLimit { return VelocityExceeded; }
      var total := MonthTotal(WindowStart(at, ThirtyDays));
      var withThis := AddDecimal(total, amount);
      if CompareDecimal(withThis, spendCap) == 1 { return CapExceeded; }
      if enforceSolvency {
        var short := FloatFallsShort(amount);
        if short { return InsufficientFloat; }
      }
      outcome := Reserved;
    }

    method ReserveHoldWithinPolicy(p: PaymentId, amount: string, at: int, spendCap: string, velocityLimit: nat, enforceSolvency: bool)
      returns (outcome: PolicyReserve)
      requires Valid() && IsDigits(amount) && IsDigits(spendCap)
      modifies this`hour, this`day, this`week, this`month, this`amounts, this`reserved, this`reservedHolds
      ensures Valid()
      ensures var backing := if enforceSolvency then Float(Value(floatConfirmed), Value(consumed)) else Unchecked;
              (View(), outcome) == PolicyReserveSpec(old(View()), p, Value(amount), at, Value(spendCap), velocityLimit, backing)
    {
      outcome := JudgeReserve(p, amount, at, spendCap, velocityLimit, enforceSolvency);
      if outcome.Reserved? { WriteHold(p, amount, at); }
    }

    method SettleHold(p: PaymentId) returns (cleared: bool)
      requires Valid()
      modifies this`reserved, this`reservedHolds, this`settledHolds
      ensures Valid() && (View(), cleared) == SettleSpec(old(View()), p)
    {
      Now().IdSetsDecide(p);
      if p !in reservedHolds { return false; }
      var total := SubtractDecimal(reserved, amounts[p]);
      ghost var was := Now();
      reservedHolds, reserved, settledHolds := reservedHolds - {p}, total, settledHolds + {p};
      cleared := true;
      assert Now() == was.WithSettled(p, total);
      was.HoldSettled(p, total);
    }

    /** The removals that release.lua makes once it has found the hold. */
    method DropHold(p: PaymentId) returns (rest: string)
      requires IsDigits(reserved) && p in amounts && IsDigits(amounts[p]) && p in reservedHolds
      modifies this`hour, this`day, this`week, this`month, this`amounts, this`reserved, this`reservedHolds
      ensures IsDigits(rest) && Value(rest) == if Value(old(reserved)) <= Value(old(amounts)[p]) then 0 else Value(old(reserved)) - Value(old(amounts)[p])
      ensures Now() == old(Now()).Without(p, rest)
    {
      rest := SubtractDecimal(reserved, amounts[p]);
      hour, day, week, month, amounts := hour - {p}, day - {p}, week - {p}, month - {p}, amounts - {p};
      if p in reservedHolds {
        reservedHolds, reserved := reservedHolds - {p}, rest;
      }
    }

    method ReleaseHold(p: PaymentId) returns (removed: bool)
      requires Valid()
      modifies this`hour, this`day, this`week, this`month, this`amounts, this`reserved, this`reservedHolds
      ensures Valid() && (View(), removed) == ReleaseSpec(old(View()), p)
    {
      ghost var was := Now();
      was.IdSetsDecide(p);
      if p in settledHolds { return false; }
      if p !in amounts { return false; }
      var rest := DropHold(p);
      removed := true;
      was.HoldRemoved(p, rest);
    }

    /** windowSum: the script fetches the amounts of one window, the caller adds them as bigints. */
    method WindowSum(w: SpendWindow, minTs: int) returns (sum: int)
      requires Valid()
      ensures sum == Measure(View(), SinceWeight(minTs))
    {
      ghost var weight := WeightAt(View(), SinceWeight(minTs));
      var scores := match w case OneHour => hour case OneDay => day case SevenDays => week case ThirtyDays => month;
      var members := set p | p in scores && scores[p] >= minTs;
      var todo := members;
      sum := 0;
      while todo != {}
        invariant todo <= members
        invariant sum == SumOver(members - todo, weight)
      {
        var p :| p in todo;
        TakeOne(members, todo, weight, p);
        Now().MemberWeight(p, minTs);
        sum := sum + Value(amounts[p]);
        todo := todo - {p};
      }
      assert members - todo == members;
      Now().MembersSince(minTs, members);
    }
  }

  /** Adding one more member to a running total. */
  lemma {:induction false} TakeOne(members: set<PaymentId>, todo: set<PaymentId>, weight: PaymentId -> int, p: PaymentId)
    requires p in todo && todo <= members
    ensures SumOver(members - (todo - {p}), weight) == SumOver(members - todo, weight) + weight(p)
  {
    SumInsert(members - todo, weight, p);
    assert members - (todo - {p}) == members - todo + {p};
  }

  /** The counter covers every outstanding hold, so the clamped subtraction is exact. */
  lemma HeldWithinReserved(l: Ledger, p: PaymentId)
    requires p in l && l[p].phase.Held?
    ensures l[p].amount <= Measure(l, HeldWeight())
  {
    SumMember(l.Keys, WeightAt(l, HeldWeight()), p);
  }

  lemma Boundary(now: int, width: nat)
    requires width > 0
    ensures now / width * width <= now < now / width * width + width
    ensures now / width * width % width == 0
  {
  }

  lemma WindowStartIsBoundary(now: int, w: SpendWindow)
    ensures WindowStart(now, w) % WidthSeconds(w) == 0
    ensures WindowStart(now, w) <= now < WindowStart(now, w) + WidthSeconds(w)
  {
    Boundary(now, WidthSeconds(w));
  }

  /** snapshotWindows: each boundary is the multiple of the width that `now` falls after. */
  method SnapshotWindows(now: int) returns (snapshot: map<SpendWindow, int>)
    ensures forall w: SpendWindow :: w in snapshot && snapshot[w] == WindowStart(now, w)
    ensures forall w: SpendWindow :: w in snapshot ==>
      snapshot[w] % WidthSeconds(w) == 0 && snapshot[w] <= now < snapshot[w] + WidthSeconds(w)
    ensures snapshot[OneHour] % 3600 == 0 && snapshot[OneHour] <= now < snapshot[OneHour] + 3600
    ensures snapshot[OneDay] % 86400 == 0 && snapshot[OneDay] <= now < snapshot[OneDay] + 86400
    ensures snapshot[SevenDays] % 604800 == 0 && snapshot[SevenDays] <= now < snapshot[SevenDays] + 604800
    ensures snapshot[ThirtyDays] % 2592000 == 0 && snapshot[ThirtyDays] <= now < snapshot[ThirtyDays] + 2592000
  {
    var windows := [OneHour, OneDay, SevenDays, ThirtyDays];
    snapshot := map[];
    for i := 0 to |windows|
      invariant forall j :: 0 <= j < i ==> windows[j] in snapshot
      invariant forall w: SpendWindow :: w in snapshot ==> snapshot[w] == WindowStart(now, w)
    {
      snapshot := snapshot[windows[i] := WindowStart(now, windows[i])];
    }
    forall w: SpendWindow
      ensures w in snapshot
      ensures snapshot[w] % WidthSeconds(w) == 0 && snapshot[w] <= now < snapshot[w] + WidthSeconds(w)
    {
      assert windows[0] == OneHour && windows[1] == OneDay && windows[2] == SevenDays && windows[3] == ThirtyDays;
      WindowStartIsBoundary(now, w);
    }
  }
}
