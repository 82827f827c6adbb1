/** The roast charge bucket and the daily force allowance (rollpig_cloud/services/usage.py) and the
    migration of legacy rows (rollpig_cloud/migrations.py).

    A row stores how many charges were left at some past second; the present value is worked out
    only when somebody asks.  The functions below are that lazy arithmetic.  Their meaning is given
    twice: by `Stored`, the number of seconds worth of charge a row holds, and by `Meter`, a bucket
    that is advanced second by second. */
module Usage {
  import opened Base

  const DEFAULT_MAX: int := 2
  const DEFAULT_RECOVER: int := 8 * 3600

  datatype Settings = Settings(max: int, recover: int)
  datatype Bucket = Bucket(charges: int, updated: int)

  /** A row of user_usage; the columns that the database allows to be NULL are options. */
  datatype UsageRow = UsageRow(lastRoast: Option<int>, charges: Option<int>, updated: Option<int>,
                               lastForce: Option<Date>)

  datatype Reply = Reply(allowed: bool, remaining: int, left: int, max: int, next: int)

  function OrDefault(v: Option<int>, default: int): int {
    if v.None? || v.value == 0 then default else v.value
  }

  function ClampChargeSettings(maxCharges: Option<int>, recoverSeconds: Option<int>): (s: Settings)
    ensures Sane(s)
  {
    Settings(Max(1, Min(6, OrDefault(maxCharges, DEFAULT_MAX))),
             Max(60, Min(7 * 24 * 3600, OrDefault(recoverSeconds, DEFAULT_RECOVER))))
  }

  predicate Sane(s: Settings) {
    1 <= s.max <= 6 && 60 <= s.recover <= 7 * 24 * 3600
  }

  // ---------------------------------------------------------------- lazy arithmetic

  function LegacyState(last: int, now: int, s: Settings): Bucket
    requires Sane(s)
  {
    if last <= 0 then Bucket(s.max, now)
    else
      var recovered := Max(0, now - last) / s.recover;
      var charges := Min(s.max, 1 + recovered);
      Bucket(charges, if charges >= s.max then now else last + recovered * s.recover)
  }

  function Recover(b: Bucket, now: int, s: Settings): Bucket
    requires Sane(s)
  {
    var charges := Max(0, Min(s.max, b.charges));
    var updated := if b.updated == 0 then now else b.updated;
    if charges >= s.max then Bucket(s.max, now)
    else
      var recovered := Max(0, now - updated) / s.recover;
      if recovered <= 0 then Bucket(charges, updated)
      else
        var charges' := Min(s.max, charges + recovered);
        Bucket(charges', if charges' >= s.max then now else updated + recovered * s.recover)
  }

  function NextRecover(b: Bucket, now: int, s: Settings): int
    requires Sane(s)
  {
    if b.charges >= s.max then 0
    else
      var elapsed := Max(0, now - (if b.updated == 0 then now else b.updated));
      Max(1, s.recover - elapsed % s.recover)
  }

  /** The bucket a request sees before it is recovered; a missing row is a full bucket. */
  function Load(row: Option<UsageRow>, now: int, s: Settings): Bucket
    requires Sane(s)
  {
    if row.None? then Bucket(s.max, now)
    else if row.value.charges.None? || row.value.updated.None? then
      LegacyState(OrDefault(row.value.lastRoast, 0), now, s)
    else Bucket(row.value.charges.value, OrDefault(row.value.updated, now))
  }

  function LastForce(row: Option<UsageRow>): Option<Date> {
    if row.None? then None else row.value.lastForce
  }

  function ConsumeRoast(row: Option<UsageRow>, now: int, s: Settings): (UsageRow, Reply)
    requires Sane(s)
  {
    if row.None? then
      var left := Max(0, s.max - 1);
      (UsageRow(Some(now), Some(left), Some(now), None),
       Reply(true, 0, left, s.max, NextRecover(Bucket(left, now), now, s)))
    else
      var b := Recover(Load(row, now, s), now, s);
      if b.charges <= 0 then
        var remaining := NextRecover(b, now, s);
        (row.value.(charges := Some(b.charges), updated := Some(b.updated)),
         Reply(false, remaining, 0, s.max, remaining))
      else
        var b' := Bucket(b.charges - 1, if b.charges >= s.max then now else b.updated);
        (row.value.(lastRoast := Some(now), charges := Some(b'.charges), updated := Some(b'.updated)),
         Reply(true, 0, b'.charges, s.max, NextRecover(b', now, s)))
  }

  function ConsumeForce(row: Option<UsageRow>, date: Date): (UsageRow, bool) {
    if row.None? then (UsageRow(None, None, None, Some(date)), true)
    else if row.value.lastForce == Some(date) then (row.value, false)
    else (row.value.(lastForce := Some(date)), true)
  }

  /** What a finished oven refill writes for one user. */
  function ResetCharges(row: Option<UsageRow>, max: int, now: int): UsageRow {
    var before := if row.None? then UsageRow(None, None, None, None) else row.value;
    before.(charges := Some(max), updated := Some(now))
  }

  /** The usage table after a finished oven refill of the given users. */
  function FillUp(usage: map<UserId, UsageRow>, users: set<UserId>, max: int, now: int): map<UserId, UsageRow> {
    map u | u in usage.Keys + users :: if u in users then ResetCharges(Lookup(usage, u), max, now) else usage[u]
  }

  /** What the start-up migration writes for one row. */
  function MigrateRow(row: UsageRow, now: int): UsageRow {
    if row.charges.Some? && row.updated.Some? then row
    else
      var last := OrDefault(row.lastRoast, 0);
      if last <= 0 then row.(charges := Some(DEFAULT_MAX), updated := Some(now))
      else
        var recovered := Max(0, now - last) / DEFAULT_RECOVER;
        var charges := Min(DEFAULT_MAX, 1 + recovered);
        row.(charges := Some(charges),
             updated := Some(if charges >= DEFAULT_MAX then now else last + recovered * DEFAULT_RECOVER))
  }

  // ---------------------------------------------------------------- stored seconds

  /** c charges and e seconds, measured in seconds and capped at `max` charges. */
  ghost function Fill(c: int, e: int, s: Settings): int {
    Min(s.max * s.recover, c * s.recover + e)
  }

  /** Seconds worth of charge in a bucket: whole charges count `recover` seconds each. */
  ghost function BucketSeconds(b: Bucket, now: int, s: Settings): int
    requires Sane(s)
  {
    Fill(Max(0, Min(s.max, b.charges)), Max(0, now - b.updated), s)
  }

  ghost function Stored(row: Option<UsageRow>, now: int, s: Settings): int
    requires Sane(s)
  {
    if row.None? then s.max * s.recover
    else if row.value.charges.Some? && row.value.updated.Some? then
      BucketSeconds(Bucket(row.value.charges.value, row.value.updated.value), now, s)
    else if OrDefault(row.value.lastRoast, 0) <= 0 then s.max * s.recover
    else BucketSeconds(Bucket(1, row.value.lastRoast.value), now, s)
  }

  /** Stored times are positive seconds that have already passed. */
  predicate Timely(row: Option<UsageRow>, now: int) {
    && 0 < now
    && (row.Some? ==>
      && (row.value.updated.Some? ==> 0 < row.value.updated.value <= now)
      && (row.value.lastRoast.Some? ==> row.value.lastRoast.value <= now))
  }

  lemma MulLe(a: int, b: int, r: int)
    requires a <= b && 0 <= r
    ensures a * r <= b * r
  {
    assert b * r - a * r == (b - a) * r;
  }

  lemma DivUnique(x: int, r: int, q: int)
    requires r > 0 && q * r <= x < q * r + r
    ensures x / r == q && x % r == x - q * r
  {
    var d := x / r;
    assert d * r <= x < d * r + r;
    assert (q + 1) * r == q * r + r && (d + 1) * r == d * r + r;
    if d > q {
      MulLe(q + 1, d, r);
    } else if d < q {
      MulLe(d + 1, q, r);
    }
  }

  /** Filling a bucket that holds c charges with e seconds: n whole charges, at most `max`. */
  lemma FillMeasures(c: int, e: int, n: int, s: Settings)
    requires Sane(s) && 0 <= c <= s.max && 0 <= e && n == c + e / s.recover
    ensures var v := Fill(c, e, s);
      if n >= s.max then v == s.max * s.recover && v / s.recover == s.max && v % s.recover == 0
      else v == n * s.recover + e % s.recover && v / s.recover == n && v % s.recover == e % s.recover
  {
    var rest, r := e % s.recover, s.recover;
    FillSum(c, e, n, r);
    if n >= s.max {
      MulLe(s.max, n, r);
      DivUnique(s.max * r, r, s.max);
    } else {
      MulLe(n + 1, s.max, r);
      assert (n + 1) * r == n * r + r;
      DivUnique(n * r + rest, r, n);
    }
  }

  lemma FillSum(c: int, e: int, n: int, r: int)
    requires 0 < r && 0 <= e && n == c + e / r
    ensures c * r + e == n * r + e % r && 0 <= e % r < r
  {
    DivPos(e, r);
    assert n * r == c * r + (e / r) * r;
  }

  /** Trading q * recover seconds for q charges changes nothing. */
  lemma FillTrade(c: int, q: int, e: int, s: Settings)
    ensures Fill(c + q, e - q * s.recover, s) == Fill(c, e, s)
  {
    assert (c + q) * s.recover == c * s.recover + q * s.recover;
  }

  lemma FillCapped(c: int, e: int, s: Settings)
    requires s.max <= c && 0 <= e && 0 <= s.recover
    ensures Fill(c, e, s) == s.max * s.recover
  {
    MulLe(s.max, c, s.recover);
  }

  lemma DivPos(e: int, r: int)
    requires 0 <= e && 0 < r
    ensures 0 <= e / r && e == (e / r) * r + e % r && (0 < e / r ==> 0 < e)
    ensures e / r == 0 ==> e % r == e
  {
  }

  /** Recovery by cases: e seconds make q charges. */
  lemma RecoverShape(b: Bucket, now: int, s: Settings, c: int, e: int, q: int)
    requires Sane(s) && b.updated != 0
    requires c == Max(0, Min(s.max, b.charges)) && e == Max(0, now - b.updated) && q == e / s.recover
    ensures 0 <= q
    ensures c + q >= s.max ==> Recover(b, now, s) == Bucket(s.max, now)
    ensures c + q < s.max ==>
      Recover(b, now, s) == Bucket(c + q, if q == 0 then b.updated else b.updated + q * s.recover)
  {
    DivPos(e, s.recover);
    if q == 0 {
      assert c < s.max ==> Recover(b, now, s) == Bucket(c, b.updated);
    } else {
      assert c < s.max && c + q < s.max ==> Recover(b, now, s) == Bucket(c + q, b.updated + q * s.recover);
    }
  }

  /** Recovering shows exactly the whole charges of the stored seconds, and keeps the rest. */
  lemma RecoverMeasures(b: Bucket, now: int, s: Settings)
    requires Sane(s) && b.updated != 0
    ensures var r := Recover(b, now, s);
      && 0 <= r.charges <= s.max
      && r.charges == BucketSeconds(b, now, s) / s.recover
      && BucketSeconds(b, now, s) == r.charges * s.recover + BucketSeconds(b, now, s) % s.recover
      && (r.charges < s.max ==> Max(0, now - r.updated) == BucketSeconds(b, now, s) % s.recover)
      && (r.charges == s.max ==> BucketSeconds(b, now, s) == s.max * s.recover && r.updated == now)
      && (b.updated <= now ==> b.updated <= r.updated <= now)
  {
    var c := Max(0, Min(s.max, b.charges));
    var e := Max(0, now - b.updated);
    var q := e / s.recover;
    RecoverShape(b, now, s, c, e, q);
    FillMeasures(c, e, c + q, s);
    DivPos(e, s.recover);
    if q > 0 {
      MulLe(1, q, s.recover);
    }
  }

  /** Recovery forgets nothing: what it leaves measures the same at every later second. */
  lemma RecoverKeepsLevel(b: Bucket, t1: int, t2: int, s: Settings)
    requires Sane(s) && 0 < b.updated <= t1 <= t2
    ensures BucketSeconds(Recover(b, t1, s), t2, s) == BucketSeconds(b, t2, s)
  {
    var c := Max(0, Min(s.max, b.charges));
    var e := t1 - b.updated;
    var q := e / s.recover;
    RecoverShape(b, t1, s, c, e, q);
    DivPos(e, s.recover);
    FillTrade(c, q, t2 - b.updated, s);
    if c + q >= s.max {
      FillCapped(c + q, t2 - b.updated - q * s.recover, s);
      FillCapped(s.max, t2 - t1, s);
    } else if q > 0 {
      assert t2 - (b.updated + q * s.recover) == t2 - b.updated - q * s.recover;
    }
  }

  /** Recovering at t1 and again at t2 is recovering once at t2. */
  lemma RecoverComposes(b: Bucket, t1: int, t2: int, s: Settings)
    requires Sane(s) && 0 < b.updated <= t1 <= t2
    ensures Recover(Recover(b, t1, s), t2, s) == Recover(b, t2, s)
  {
    RecoverMeasures(b, t1, s);
    var r := Recover(b, t1, s);
    RecoverKeepsLevel(b, t1, t2, s);
    RecoverMeasures(r, t2, s);
    RecoverMeasures(b, t2, s);
  }

  /** A legacy row stands for one charge left at its last roast. */
  lemma LegacyIsOneCharge(last: int, now: int, s: Settings)
    requires Sane(s) && 0 < last
    ensures LegacyState(last, now, s) == Recover(Bucket(1, last), now, s)
  {
    var e := Max(0, now - last);
    RecoverShape(Bucket(1, last), now, s, 1, e, e / s.recover);
    DivPos(e, s.recover);
  }

  // ---------------------------------------------------------------- what one request does

  /** The bucket a Timely row amounts to. */
  ghost function Core(row: Option<UsageRow>, now: int, s: Settings): (b: Bucket)
    requires Sane(s) && Timely(row, now)
    ensures 0 < b.updated <= now
    ensures BucketSeconds(b, now, s) == Stored(row, now, s)
  {
    if row.Some? && row.value.charges.Some? && row.value.updated.Some? then
      Bucket(row.value.charges.value, row.value.updated.value)
    else if row.Some? && OrDefault(row.value.lastRoast, 0) > 0 then Bucket(1, row.value.lastRoast.value)
    else FillCapped(s.max, 0, s); Bucket(s.max, now)
  }

  lemma LoadIsCore(row: Option<UsageRow>, now: int, s: Settings)
    requires Sane(s) && Timely(row, now)
    ensures Recover(Load(row, now, s), now, s) == Recover(Core(row, now, s), now, s)
  {
    if row.Some? && (row.value.charges.None? || row.value.updated.None?) && OrDefault(row.value.lastRoast, 0) > 0 {
      LegacyIsOneCharge(row.value.lastRoast.value, now, s);
      RecoverComposes(Core(row, now, s), now, now, s);
    }
  }

  lemma LevelBounds(b: Bucket, t: int, s: Settings)
    requires Sane(s)
    ensures 0 <= BucketSeconds(b, t, s) <= s.max * s.recover
  {
    MulLe(0, Max(0, Min(s.max, b.charges)), s.recover);
  }

  lemma StoredBounds(row: Option<UsageRow>, now: int, s: Settings)
    requires Sane(s)
    ensures 0 <= Stored(row, now, s) <= s.max * s.recover
  {
    MulLe(0, s.max, s.recover);
    if row.Some? && row.value.charges.Some? && row.value.updated.Some? {
      LevelBounds(Bucket(row.value.charges.value, row.value.updated.value), now, s);
    } else if row.Some? && row.value.lastRoast.Some? {
      LevelBounds(Bucket(1, row.value.lastRoast.value), now, s);
    }
  }

  /** Stored seconds grow by one a second up to the cap. */
  lemma StoredGrows(row: Option<UsageRow>, t1: int, t2: int, s: Settings)
    requires Sane(s) && Timely(row, t1) && t1 <= t2
    ensures Timely(row, t2)
    ensures Stored(row, t2, s) == Min(s.max * s.recover, Stored(row, t1, s) + (t2 - t1))
  {
  }

  lemma FillLess(n: int, left: int, s: Settings)
    requires Sane(s) && 1 <= n <= s.max && 0 <= left < s.recover && (n == s.max ==> left == 0)
    ensures Fill(n - 1, left, s) == n * s.recover + left - s.recover
    ensures n * s.recover >= s.recover
  {
    assert (n - 1) * s.recover == n * s.recover - s.recover;
    MulLe(1, n, s.recover);
    MulLe(n, s.max, s.recover);
  }

  /** Taking one charge out of a recovered bucket that has one. */
  lemma TakeMeasures(core: Bucket, now: int, s: Settings)
    requires Sane(s) && 0 < core.updated <= now
    requires Recover(core, now, s).charges > 0
    ensures var r := Recover(core, now, s);
      var b := Bucket(r.charges - 1, if r.charges >= s.max then now else r.updated);
      && 0 < b.updated <= now
      && BucketSeconds(core, now, s) >= s.recover
      && BucketSeconds(b, now, s) == BucketSeconds(core, now, s) - s.recover
  {
    RecoverMeasures(core, now, s);
    var r, v := Recover(core, now, s), BucketSeconds(core, now, s);
    var left := if r.charges >= s.max then 0 else now - r.updated;
    assert v == r.charges * s.recover + left;
    FillLess(r.charges, left, s);
  }

  /** A recovered bucket without a charge names the seconds that are missing. */
  lemma DenyMeasures(core: Bucket, now: int, s: Settings)
    requires Sane(s) && 0 < core.updated <= now
    requires Recover(core, now, s).charges <= 0
    ensures var r := Recover(core, now, s);
      && 0 < r.updated <= now
      && BucketSeconds(core, now, s) < s.recover
      && BucketSeconds(r, now, s) == BucketSeconds(core, now, s)
      && NextRecover(r, now, s) == s.recover - BucketSeconds(core, now, s)
  {
    RecoverMeasures(core, now, s);
    RecoverKeepsLevel(core, now, now, s);
    var v := BucketSeconds(core, now, s);
    assert v == v % s.recover;
    DivUnique(v, s.recover, 0);
  }

  /** A request is allowed exactly when one charge is stored; it takes that charge and nothing
      else, and a refusal takes nothing and names the seconds that are missing. */
  lemma ConsumeMeasures(row: Option<UsageRow>, now: int, s: Settings)
    requires Sane(s) && Timely(row, now)
    ensures var (row', reply) := ConsumeRoast(row, now, s);
      && Timely(Some(row'), now)
      && (reply.allowed <==> Stored(row, now, s) >= s.recover)
      && Stored(Some(row'), now, s) == Stored(row, now, s) - (if reply.allowed then s.recover else 0)
      && (!reply.allowed ==> reply.remaining == s.recover - Stored(row, now, s))
      && row'.charges.Some? && row'.updated.Some? && row'.lastForce == LastForce(row)
  {
    var core := Core(row, now, s);
    LoadIsCore(row, now, s);
    RecoverMeasures(core, now, s);
    if Recover(core, now, s).charges > 0 {
      TakeMeasures(core, now, s);
    } else {
      DenyMeasures(core, now, s);
    }
  }

  // ---------------------------------------------------------------- rate bound

  /** Something that touches one user's row: an ordinary roast or a refill at some second, or a force use. */
  datatype UsageOp = Roast(at: int) | Refill(at: int) | Force(date: Date)

  function Apply(row: Option<UsageRow>, op: UsageOp, s: Settings): (UsageRow, nat)
    requires Sane(s)
  {
    match op
    case Roast(at) =>
      var (row', reply) := ConsumeRoast(row, at, s);
      (row', if reply.allowed then 1 else 0)
    case Refill(at) => (ResetCharges(row, s.max, at), 0)
    case Force(date) => (ConsumeForce(row, date).0, 0)
  }

  /** The row after a series of operations and the number of roasts that were allowed. */
  function Run(row: Option<UsageRow>, ops: seq<UsageOp>, s: Settings): (Option<UsageRow>, nat)
    requires Sane(s)
    decreases |ops|
  {
    if ops == [] then (row, 0)
    else
      var (row', n) := Apply(row, ops[0], s);
      var (row'', m) := Run(Some(row'), ops[1..], s);
      (row'', n + m)
  }

  function Refills(ops: seq<UsageOp>): nat {
    if ops == [] then 0 else (if ops[0].Refill? then 1 else 0) + Refills(ops[1..])
  }

  /** The second of the operation; a force use takes no time. */
  function Clock(op: UsageOp, from: int): int {
    if op.Force? then from else op.at
  }

  /** The operations fall into the window and the clock never runs backwards. */
  predicate Within(ops: seq<UsageOp>, from: int, to: int) {
    if ops == [] then from <= to else from <= Clock(ops[0], from) && Within(ops[1..], Clock(ops[0], from), to)
  }

  /** A force use leaves the charges alone. */
  lemma ForceKeepsCharges(row: Option<UsageRow>, date: Date, now: int, s: Settings)
    requires Sane(s) && Timely(row, now)
    ensures var row' := Some(ConsumeForce(row, date).0);
      Timely(row', now) && Stored(row', now, s) == Stored(row, now, s)
  {
    hide BucketSeconds;
  }

  lemma ApplySpends(row: Option<UsageRow>, op: UsageOp, from: int, s: Settings)
    requires Sane(s) && Timely(row, from) && from <= Clock(op, from)
    ensures var ((row', n), at) := (Apply(row, op, s), Clock(op, from));
      && Timely(Some(row'), at)
      && n <= 1
      && (if n == 1 then s.recover else 0) + Stored(Some(row'), at, s)
         <= Stored(row, from, s) + (at - from) + (if op.Refill? then s.max * s.recover else 0)
  {
    hide Stored, ConsumeRoast, ConsumeForce;
    var at := Clock(op, from);
    StoredGrows(row, from, at, s);
    StoredBounds(row, from, s);
    StoredBounds(Some(Apply(row, op, s).0), at, s);
    match op
    case Roast(_) => ConsumeMeasures(row, at, s);
    case Refill(_) => assert Timely(Some(ResetCharges(row, s.max, at)), at);
    case Force(date) => ForceKeepsCharges(row, date, at, s);
  }

  lemma {:induction false} SpentWithinStored(row: Option<UsageRow>, ops: seq<UsageOp>, from: int, to: int, s: Settings)
    requires Sane(s) && Timely(row, from) && Within(ops, from, to)
    ensures Run(row, ops, s).1 * s.recover <= Stored(row, from, s) + (to - from) + Refills(ops) * (s.max * s.recover)
    ensures from <= to
    decreases |ops|
  {
    hide Stored, Apply, Timely;
    if ops == [] {
      StoredBounds(row, from, s);
    } else {
      var op := ops[0];
      var (row', n) := Apply(row, op, s);
      ApplySpends(row, op, from, s);
      SpentWithinStored(Some(row'), ops[1..], Clock(op, from), to, s);
      SpentSum(n, Run(Some(row'), ops[1..], s).1, Refills(ops[1..]), if op.Refill? then 1 else 0,
               s.max * s.recover, s.recover);
    }
  }

  lemma SpentSum(n: nat, m: int, k: int, j: nat, cap: int, r: int)
    requires n <= 1 && j <= 1
    ensures (n + m) * r == (if n == 1 then r else 0) + m * r
    ensures (j + k) * cap == (if j == 1 then cap else 0) + k * cap
  {
  }

  /** Rate bound: whatever the row held at first and however calls, refills and force uses are mixed, a window of
      to - from seconds with k refills lets at most max * (1 + k) + (to - from) / recover roasts through. */
  lemma RateBound(row: Option<UsageRow>, ops: seq<UsageOp>, from: int, to: int, s: Settings)
    requires Sane(s) && Timely(row, from) && Within(ops, from, to)
    ensures from <= to
    ensures Run(row, ops, s).1 <= s.max * (1 + Refills(ops)) + (to - from) / s.recover
  {
    SpentWithinStored(row, ops, from, to, s);
    StoredBounds(row, from, s);
    RateArithmetic(Run(row, ops, s).1, Refills(ops), to - from, s);
  }

  lemma RateArithmetic(n: nat, k: nat, d: nat, s: Settings)
    requires Sane(s) && n * s.recover <= s.max * s.recover + d + k * (s.max * s.recover)
    ensures n <= s.max * (1 + k) + d / s.recover
  {
    var a, q := s.max * (1 + k), d / s.recover;
    DivPos(d, s.recover);
    calc {
      a * s.recover;
      (s.max + s.max * k) * s.recover;
      s.max * s.recover + (s.max * k) * s.recover;
      s.max * s.recover + k * (s.max * s.recover);
    }
    WholeBound(n, a, q, d, s.recover);
  }

  lemma WholeBound(n: int, a: int, q: int, d: int, r: int)
    requires 0 < r && n * r <= a * r + d && d < q * r + r
    ensures n <= a + q
  {
    assert (a + q + 1) * r == a * r + q * r + r;
    if n > a + q {
      MulLe(a + q + 1, n, r);
    }
  }

  // ---------------------------------------------------------------- waiting time

  /** After a refusal, polling changes nothing: however often the user retries or spends a force use, retries are
      refused before the announced second and allowed from that second on. */
  lemma DenialIsExact(row: Option<UsageRow>, now: int, polls: seq<UsageOp>, t: int, s: Settings)
    requires Sane(s) && Timely(row, now) && !ConsumeRoast(row, now, s).1.allowed
    requires Within(polls, now, t)
    requires forall i :: 0 <= i < |polls| ==>
      !polls[i].Refill? && Clock(polls[i], now) < now + ConsumeRoast(row, now, s).1.remaining
    ensures var (row', denied) := ConsumeRoast(row, now, s);
      && Run(Some(row'), polls, s).1 == 0
      && (ConsumeRoast(Run(Some(row'), polls, s).0, t, s).1.allowed <==> t >= now + denied.remaining)
  {
    ConsumeMeasures(row, now, s);
    var (row', denied) := ConsumeRoast(row, now, s);
    StoredBounds(Some(row'), now, s);
    PollsRefused(Some(row'), polls, now, t, now + denied.remaining, s);
    ConsumeMeasures(Run(Some(row'), polls, s).0, t, s);
  }

  lemma {:induction false} PollsRefused(row: Option<UsageRow>, polls: seq<UsageOp>, from: int, t: int, due: int,
                                        s: Settings)
    requires Sane(s) && Timely(row, from) && Within(polls, from, t) && from < due
    requires Stored(row, from, s) == s.recover - (due - from)
    requires forall i :: 0 <= i < |polls| ==> !polls[i].Refill? && Clock(polls[i], from) < due
    ensures var (row', n) := Run(row, polls, s);
      n == 0 && Timely(row', t) && (Stored(row', t, s) >= s.recover <==> t >= due)
    decreases |polls|
  {
    hide Stored, ConsumeRoast, ConsumeForce;
    MulLe(1, s.max, s.recover);
    if polls == [] {
      StoredGrows(row, from, t, s);
    } else {
      var at := Clock(polls[0], from);
      StoredGrows(row, from, at, s);
      assert !polls[0].Refill?;
      if polls[0].Roast? { ConsumeMeasures(row, at, s); } else { ForceKeepsCharges(row, polls[0].date, at, s); }
      var row' := Apply(row, polls[0], s).0;
      assert forall i :: 0 <= i < |polls[1..]| ==> polls[1..][i] == polls[i + 1];
      PollsRefused(Some(row'), polls[1..], at, t, due, s);
    }
  }

  // ---------------------------------------------------------------- the bucket second by second

  /** A bucket that is kept up to date every second. */
  datatype Meter = Meter(charges: int, progress: int)
  datatype Beat = Second | Ask | FillBeat | ForceBeat(date: Date)

  function Tick(m: Meter, s: Settings): Meter {
    if m.charges >= s.max then m
    else if m.progress + 1 == s.recover then Meter(m.charges + 1, 0)
    else Meter(m.charges, m.progress + 1)
  }

  /** The answers a second-by-second bucket gives. */
  function EagerRun(m: Meter, beats: seq<Beat>, s: Settings): seq<bool>
    decreases |beats|
  {
    if beats == [] then []
    else
      match beats[0]
      case Second => EagerRun(Tick(m, s), beats[1..], s)
      case Ask =>
        if m.charges <= 0 then [false] + EagerRun(m, beats[1..], s)
        else [true] + EagerRun(Meter(m.charges - 1, m.progress), beats[1..], s)
      case FillBeat => EagerRun(Meter(s.max, 0), beats[1..], s)
      case ForceBeat(_) => EagerRun(m, beats[1..], s)
  }

  /** The answers the stored row gives when it is only looked at on demand. */
  function LazyRun(row: Option<UsageRow>, now: int, beats: seq<Beat>, s: Settings): seq<bool>
    requires Sane(s)
    decreases |beats|
  {
    if beats == [] then []
    else
      match beats[0]
      case Second => LazyRun(row, now + 1, beats[1..], s)
      case Ask =>
        var (row', reply) := ConsumeRoast(row, now, s);
        [reply.allowed] + LazyRun(Some(row'), now, beats[1..], s)
      case FillBeat => LazyRun(Some(ResetCharges(row, s.max, now)), now, beats[1..], s)
      case ForceBeat(date) => LazyRun(Some(ConsumeForce(row, date).0), now, beats[1..], s)
  }

  ghost function MeterOf(row: Option<UsageRow>, now: int, s: Settings): Meter
    requires Sane(s)
  {
    Meter(Stored(row, now, s) / s.recover, Stored(row, now, s) % s.recover)
  }

  /** One more second of charge, divided into whole charges. */
  lemma TickArithmetic(v: int, s: Settings)
    requires Sane(s) && 0 <= v <= s.max * s.recover
    ensures var after := Min(s.max * s.recover, v + 1);
      Meter(after / s.recover, after % s.recover) == Tick(Meter(v / s.recover, v % s.recover), s)
  {
    var r, q := s.recover, v / s.recover;
    DivPos(v, r);
    DivUnique(s.max * r, r, s.max);
    if v < s.max * r {
      assert q < s.max by {
        if q >= s.max { MulLe(s.max, q, r); }
      }
      DivUnique(v + 1, r, if v % r + 1 == r then q + 1 else q) by {
        assert (q + 1) * r == q * r + r;
      }
      assert (q + 1) * r == q * r + r;
    }
  }

  lemma TickRefines(row: Option<UsageRow>, now: int, s: Settings)
    requires Sane(s) && Timely(row, now)
    ensures Timely(row, now + 1)
    ensures MeterOf(row, now + 1, s) == Tick(MeterOf(row, now, s), s)
  {
    hide Stored, Tick;
    StoredGrows(row, now, now + 1, s);
    StoredBounds(row, now, s);
    TickArithmetic(Stored(row, now, s), s);
  }

  /** One charge less, divided into whole charges. */
  lemma TakeArithmetic(v: int, r: int)
    requires 0 < r && 0 <= v
    ensures v >= r <==> v / r > 0
    ensures v >= r ==> (v - r) / r == v / r - 1 && (v - r) % r == v % r
  {
    var q := v / r;
    DivPos(v, r);
    if v >= r {
      assert (q - 1) * r == q * r - r;
      DivUnique(v - r, r, q - 1);
    } else {
      DivUnique(v, r, 0);
    }
  }

  lemma TakeRefines(row: Option<UsageRow>, now: int, s: Settings)
    requires Sane(s) && Timely(row, now)
    ensures var (row', reply) := ConsumeRoast(row, now, s);
      var m := MeterOf(row, now, s);
      && Timely(Some(row'), now)
      && (reply.allowed <==> m.charges > 0)
      && MeterOf(Some(row'), now, s) == if reply.allowed then Meter(m.charges - 1, m.progress) else m
  {
    hide Stored, ConsumeRoast;
    ConsumeMeasures(row, now, s);
    StoredBounds(row, now, s);
    TakeArithmetic(Stored(row, now, s), s.recover);
  }

  lemma FillRefines(row: Option<UsageRow>, now: int, s: Settings)
    requires Sane(s) && Timely(row, now)
    ensures var row' := Some(ResetCharges(row, s.max, now));
      Timely(row', now) && MeterOf(row', now, s) == Meter(s.max, 0)
  {
    FillCapped(s.max, 0, s);
    DivUnique(s.max * s.recover, s.recover, s.max);
  }

  /** The lazy row and the second-by-second bucket give the same answers to every schedule, refills and
      force uses included. */
  lemma {:induction false} LazyRefinesEager(row: Option<UsageRow>, now: int, beats: seq<Beat>, s: Settings)
    requires Sane(s) && Timely(row, now)
    ensures LazyRun(row, now, beats, s) == EagerRun(MeterOf(row, now, s), beats, s)
    decreases |beats|
  {
    hide MeterOf, ConsumeRoast, ConsumeForce, Timely, Tick;
    if beats != [] {
      match beats[0]
      case Second =>
        TickRefines(row, now, s);
        LazyRefinesEager(row, now + 1, beats[1..], s);
      case Ask =>
        TakeRefines(row, now, s);
        LazyRefinesEager(Some(ConsumeRoast(row, now, s).0), now, beats[1..], s);
      case FillBeat =>
        FillRefines(row, now, s);
        LazyRefinesEager(Some(ResetCharges(row, s.max, now)), now, beats[1..], s);
      case ForceBeat(date) =>
        ForceKeepsMeter(row, date, now, s);
        LazyRefinesEager(Some(ConsumeForce(row, date).0), now, beats[1..], s);
    }
  }

  lemma ForceKeepsMeter(row: Option<UsageRow>, date: Date, now: int, s: Settings)
    requires Sane(s) && Timely(row, now)
    ensures var row' := Some(ConsumeForce(row, date).0);
      Timely(row', now) && MeterOf(row', now, s) == MeterOf(row, now, s)
  {
    hide Stored, ConsumeForce;
    ForceKeepsCharges(row, date, now, s);
  }

  // ---------------------------------------------------------------- migration of legacy rows

  const DEFAULTS: Settings := Settings(DEFAULT_MAX, DEFAULT_RECOVER)

  lemma MigratedIsLegacy(row: UsageRow, at: int)
    requires row.charges.None? || row.updated.None?
    ensures var m := MigrateRow(row, at);
      && m.charges.Some? && m.updated.Some?
      && Bucket(m.charges.value, m.updated.value) == LegacyState(OrDefault(row.lastRoast, 0), at, DEFAULTS)
  {
  }

  /** At the default settings a request cannot tell when, or whether, its row was migrated. */
  lemma MigrationIsInvisible(row: UsageRow, at: int, now: int)
    requires Timely(Some(row), at) && at <= now
    ensures ConsumeRoast(Some(MigrateRow(row, at)), now, DEFAULTS) == ConsumeRoast(Some(row), now, DEFAULTS)
    ensures MigrateRow(MigrateRow(row, at), now) == MigrateRow(row, at)
  {
    if row.charges.None? || row.updated.None? {
      MigratedIsLegacy(row, at);
      var last := OrDefault(row.lastRoast, 0);
      if last > 0 {
        LegacyIsOneCharge(last, at, DEFAULTS);
        LegacyIsOneCharge(last, now, DEFAULTS);
        RecoverMeasures(Bucket(1, last), at, DEFAULTS);
        RecoverComposes(Bucket(1, last), at, now, DEFAULTS);
        RecoverComposes(Bucket(1, last), now, now, DEFAULTS);
      }
    }
  }

  /** With other settings the migrated row may hold another charge.  A legacy row without a last roast, such as one
      that only force uses have written, keeps its charge exactly when at most two charges can be stored.  One with a
      last roast keeps it exactly when that was less than a default recovery period before the migration, or one charge
      is all there can be, or exactly one charge had come back, or two are all there can be and at least one had. */
  lemma MigrationKeepsChargeIff(row: UsageRow, at: int, s: Settings)
    requires Timely(Some(row), at) && Sane(s)
    requires row.charges.None? || row.updated.None?
    ensures var last := OrDefault(row.lastRoast, 0);
      var e := at - last;
      Stored(Some(MigrateRow(row, at)), at, s) == Stored(Some(row), at, s)
      <==> if last <= 0 then s.max <= 2
           else e < DEFAULT_RECOVER || s.max == 1 || e == s.recover || (s.max == 2 && e > s.recover)
  {
    hide Stored, MigrateRow, Fill;
    var last := OrDefault(row.lastRoast, 0);
    if last <= 0 {
      NeverRoasted(row, at, s);
      DivUnique(s.max * s.recover, s.recover, s.max);
      DivUnique(Min(s.max, 2) * s.recover, s.recover, Min(s.max, 2));
    } else {
      RoastedOnce(row, at, s);
      if at - last >= DEFAULT_RECOVER { TwoOrMore(at - last, s); }
    }
  }

  /** A legacy row with a last roast reads as one charge and the seconds since, and is migrated to just that, or to
      two charges when a default recovery period has passed. */
  lemma RoastedOnce(row: UsageRow, at: int, s: Settings)
    requires Timely(Some(row), at) && Sane(s)
    requires (row.charges.None? || row.updated.None?) && OrDefault(row.lastRoast, 0) > 0
    ensures var e := at - row.lastRoast.value;
      && Stored(Some(row), at, s) == Fill(1, e, s)
      && Stored(Some(MigrateRow(row, at)), at, s) ==
           if e < DEFAULT_RECOVER then Fill(1, e, s) else Fill(Min(s.max, 2), 0, s)
  {
    var e := at - row.lastRoast.value;
    if e < DEFAULT_RECOVER {
      DivUnique(e, DEFAULT_RECOVER, 0);
    } else {
      DivPos(e, DEFAULT_RECOVER);
      assert MigrateRow(row, at).charges == Some(2) && MigrateRow(row, at).updated == Some(at);
    }
  }

  /** A legacy row without a last roast reads as full and is migrated to two charges. */
  lemma NeverRoasted(row: UsageRow, at: int, s: Settings)
    requires Timely(Some(row), at) && Sane(s)
    requires (row.charges.None? || row.updated.None?) && OrDefault(row.lastRoast, 0) <= 0
    ensures Stored(Some(row), at, s) == s.max * s.recover
    ensures Stored(Some(MigrateRow(row, at)), at, s) == Min(s.max, 2) * s.recover
  {
    MulLe(Min(s.max, 2), s.max, s.recover);
  }

  /** What one charge and e seconds come to, against two charges. */
  lemma TwoOrMore(e: int, s: Settings)
    requires Sane(s) && 0 < e
    ensures Fill(1, e, s) == Fill(Min(s.max, 2), 0, s)
      <==> s.max == 1 || e == s.recover || (s.max == 2 && e > s.recover)
  {
    if s.max >= 3 {
      MulLe(3, s.max, s.recover);
    }
  }

  /** A row from before the buckets, last roast at second 1, migrated three recovery periods later, for a client
      whose maximum is three: one roast fewer is allowed than without the migration. */
  lemma MigrationCostsACharge()
    ensures
      var row, at, s := UsageRow(Some(1), None, None, None), 1 + 3 * DEFAULT_RECOVER, Settings(3, DEFAULT_RECOVER);
      var roasts := [Roast(at), Roast(at), Roast(at)];
      && Timely(Some(row), at)
      && Run(Some(row), roasts, s).1 == 3
      && Run(Some(MigrateRow(row, at)), roasts, s).1 == 2
  {
    var row, at, s := UsageRow(Some(1), None, None, None), 1 + 3 * DEFAULT_RECOVER, Settings(3, DEFAULT_RECOVER);
    MigratedIsLegacy(row, at);
    assert Stored(Some(row), at, s) == 3 * DEFAULT_RECOVER;
    assert Stored(Some(MigrateRow(row, at)), at, s) == 2 * DEFAULT_RECOVER;
    ThreeRoasts(Some(row), at, s);
    ThreeRoasts(Some(MigrateRow(row, at)), at, s);
  }

  /** The row that a first force use leaves, migrated at any later start, for a client whose maximum is three or more:
      it allows two roasts where the row as it was allows three. */
  lemma MigrationCostsAForceOnlyRow(date: Date, at: int, s: Settings)
    requires 0 < at && Sane(s) && s.max >= 3
    ensures var row := ConsumeForce(None, date).0;
      var roasts := [Roast(at), Roast(at), Roast(at)];
      && Timely(Some(row), at)
      && Run(Some(row), roasts, s).1 == 3
      && Run(Some(MigrateRow(row, at)), roasts, s).1 == 2
  {
    var row := ConsumeForce(None, date).0;
    NeverRoasted(row, at, s);
    MulLe(3, s.max, s.recover);
    ThreeRoasts(Some(row), at, s);
    ThreeRoasts(Some(MigrateRow(row, at)), at, s);
  }

  lemma RunHead(row: Option<UsageRow>, op: UsageOp, rest: seq<UsageOp>, s: Settings)
    requires Sane(s)
    ensures Run(row, [op] + rest, s).1 == Apply(row, op, s).1 + Run(Some(Apply(row, op, s).0), rest, s).1
  {
    hide Apply;
    assert ([op] + rest)[1..] == rest;
  }

  /** Three roasts in one second take as many whole charges as are stored. */
  lemma ThreeRoasts(row: Option<UsageRow>, at: int, s: Settings)
    requires Sane(s) && Timely(row, at)
    ensures var v, r := Stored(row, at, s), s.recover;
      Run(row, [Roast(at), Roast(at), Roast(at)], s).1 ==
        if v >= 3 * r then 3 else if v >= 2 * r then 2 else if v >= r then 1 else 0
  {
    hide ConsumeRoast, Stored, Timely, Run;
    var op := Roast(at);
    var a := Some(ConsumeRoast(row, at, s).0);
    ConsumeMeasures(row, at, s);
    var b := Some(ConsumeRoast(a, at, s).0);
    ConsumeMeasures(a, at, s);
    ConsumeMeasures(b, at, s);
    RunHead(row, op, [op, op], s);
    RunHead(a, op, [op], s);
    RunHead(b, op, [], s);
    RunNothing(Some(ConsumeRoast(b, at, s).0), s);
    assert [op] + [op, op] == [op, op, op] && [op] + [op] == [op, op] && [op] + [] == [op];
  }

  lemma RunNothing(row: Option<UsageRow>, s: Settings)
    requires Sane(s)
    ensures Run(row, [], s).1 == 0
  {
  }

  // ---------------------------------------------------------------- the daily force allowance

  function RunForce(row: Option<UsageRow>, dates: seq<Date>): (granted: seq<bool>)
    ensures |granted| == |dates|
    decreases |dates|
  {
    if dates == [] then []
    else
      var (row', ok) := ConsumeForce(row, dates[0]);
      [ok] + RunForce(Some(row'), dates[1..])
  }

  /** Requests for one date are not interrupted by requests for another date. */
  ghost predicate Contiguous(dates: seq<Date>) {
    forall i, j, k :: 0 <= i < j < k < |dates| && dates[i] == dates[k] ==> dates[j] == dates[k]
  }

  ghost predicate GrantedOncePerDate(dates: seq<Date>, granted: seq<bool>)
    requires |granted| == |dates|
  {
    forall i, k :: 0 <= i < k < |dates| && granted[i] && granted[k] ==> dates[i] != dates[k]
  }

  lemma {:induction false} GrantedIffDateChanges(row: Option<UsageRow>, dates: seq<Date>, i: nat)
    requires i < |dates|
    ensures RunForce(row, dates)[i] <==> (if i == 0 then LastForce(row) != Some(dates[0]) else dates[i - 1] != dates[i])
    decreases |dates|
  {
    if i > 0 {
      GrantedIffDateChanges(Some(ConsumeForce(row, dates[0]).0), dates[1..], i - 1);
    }
  }

  lemma FirstArrival(dates: seq<Date>, lo: nat, hi: nat, d: Date) returns (p: nat)
    requires lo < hi < |dates| && dates[lo] != d && dates[hi] == d
    ensures lo < p <= hi && dates[p] == d && dates[p - 1] != d
  {
    p := hi;
    while dates[p - 1] == d
      invariant lo < p <= hi && dates[p] == d
      decreases p
    {
      p := p - 1;
    }
  }

  lemma ContiguousIffOnce(dates: seq<Date>, granted: seq<bool>)
    requires |granted| == |dates|
    requires forall i {:trigger granted[i]} :: 0 <= i < |dates| ==> (granted[i] <==> i == 0 || dates[i - 1] != dates[i])
    ensures GrantedOncePerDate(dates, granted) <==> Contiguous(dates)
  {
    if Contiguous(dates) {
      forall i, k | 0 <= i < k < |dates| && granted[i] && granted[k]
        ensures dates[i] != dates[k]
      {
        assert dates[k - 1] != dates[k];
      }
    } else {
      var i, j, k :| 0 <= i < j < k < |dates| && dates[i] == dates[k] && dates[j] != dates[k];
      var first := 0;
      if dates[0] != dates[i] {
        first := FirstArrival(dates, 0, i, dates[i]);
      }
      var again := FirstArrival(dates, j, k, dates[k]);
      assert granted[first] && granted[again];
    }
  }

  /** The date of the force use the row already holds, if any. */
  function Spent(row: Option<UsageRow>): seq<Date> {
    if LastForce(row).Some? then [LastForce(row).value] else []
  }

  /** No date is granted twice, the one the row already holds included. */
  ghost predicate AllowanceKept(row: Option<UsageRow>, dates: seq<Date>) {
    var granted := RunForce(row, dates);
    GrantedOncePerDate(dates, granted) && forall i :: 0 <= i < |dates| && granted[i] ==>
      LastForce(row) != Some(dates[i])
  }

  /** The stored date only remembers the latest request, so a user is granted at most one force use a date exactly
      when that date's requests are contiguous, counting the one the row already holds; dates that never go back
      always are. */
  lemma ForceOncePerDateIff(row: Option<UsageRow>, dates: seq<Date>)
    ensures AllowanceKept(row, dates) <==> Contiguous(Spent(row) + dates)
    ensures (forall i, j :: 0 <= i < j < |Spent(row) + dates| ==> (Spent(row) + dates)[i] <= (Spent(row) + dates)[j])
              ==> Contiguous(Spent(row) + dates)
  {
    var n, all, granted := |Spent(row)|, Spent(row) + dates, RunForce(row, dates);
    var grantedAll := (if n == 1 then [true] else []) + granted;
    forall i | 0 <= i < |dates|
      ensures granted[i] <==> i + n == 0 || all[i + n - 1] != all[i + n]
    {
      GrantedIffDateChanges(row, dates, i);
    }
    ContiguousIffOnce(all, grantedAll);
    OnceWithSpent(row, dates);
  }

  lemma OnceWithSpent(row: Option<UsageRow>, dates: seq<Date>)
    ensures GrantedOncePerDate(Spent(row) + dates, (if LastForce(row).Some? then [true] else []) + RunForce(row, dates))
      <==> AllowanceKept(row, dates)
  {
    hide RunForce, Contiguous;
    if LastForce(row).Some? {
      OnceAfter(LastForce(row).value, dates, RunForce(row, dates));
    } else {
      assert Spent(row) + dates == dates && [] + RunForce(row, dates) == RunForce(row, dates);
    }
  }

  lemma OnceAfter(d: Date, dates: seq<Date>, granted: seq<bool>)
    requires |granted| == |dates|
    ensures GrantedOncePerDate([d] + dates, [true] + granted)
      <==> GrantedOncePerDate(dates, granted) && forall i :: 0 <= i < |dates| && granted[i] ==> dates[i] != d
  {
    hide GrantedOncePerDate;
    if GrantedOncePerDate([d] + dates, [true] + granted) {
      OnceLater(d, dates, granted);
    }
    if GrantedOncePerDate(dates, granted) && forall i :: 0 <= i < |dates| && granted[i] ==> dates[i] != d {
      OnceEarlier(d, dates, granted);
    }
  }

  lemma OnceLater(d: Date, dates: seq<Date>, granted: seq<bool>)
    requires |granted| == |dates| && GrantedOncePerDate([d] + dates, [true] + granted)
    ensures GrantedOncePerDate(dates, granted) && forall i :: 0 <= i < |dates| && granted[i] ==> dates[i] != d
  {
    var all, grantedAll := [d] + dates, [true] + granted;
    forall i | 0 <= i < |dates| && granted[i]
      ensures dates[i] != d
    {
      assert all[0] == d && all[i + 1] == dates[i] && grantedAll[0] && grantedAll[i + 1];
    }
    forall i, k | 0 <= i < k < |dates| && granted[i] && granted[k]
      ensures dates[i] != dates[k]
    {
      assert all[i + 1] == dates[i] && all[k + 1] == dates[k] && grantedAll[i + 1] && grantedAll[k + 1];
    }
  }

  lemma OnceEarlier(d: Date, dates: seq<Date>, granted: seq<bool>)
    requires |granted| == |dates| && GrantedOncePerDate(dates, granted)
    requires forall i :: 0 <= i < |dates| && granted[i] ==> dates[i] != d
    ensures GrantedOncePerDate([d] + dates, [true] + granted)
  {
    var all, grantedAll := [d] + dates, [true] + granted;
    forall j, k | 0 <= j < k < |all| && grantedAll[j] && grantedAll[k]
      ensures all[j] != all[k]
    {
      assert all[k] == dates[k - 1] && granted[k - 1];
      if j > 0 { assert all[j] == dates[j - 1] && granted[j - 1]; }
    }
  }

  // ---------------------------------------------------------------- the table

  /** The user_usage table. */
  class UsageTable {
    var rows: map<UserId, UsageRow>

    constructor ()
      ensures rows == map[]
    {
      rows := map[];
    }

    method ConsumeRoastUsage(user: UserId, now: int, cooldownSeconds: Option<int>, maxCharges: Option<int>)
      returns (reply: Reply)
      modifies this
      ensures var (row, said) := ConsumeRoast(Lookup(old(rows), user), now,
                                              ClampChargeSettings(maxCharges, cooldownSeconds));
        rows == old(rows)[user := row] && reply == said
    {
      var s := ClampChargeSettings(maxCharges, cooldownSeconds);
      if user !in rows {
        var left := Max(0, s.max - 1);
        rows := rows[user := UsageRow(Some(now), Some(left), Some(now), None)];
        return Reply(true, 0, left, s.max, NextRecover(Bucket(left, now), now, s));
      }
      var usage := rows[user];
      var b;
      if usage.charges.None? || usage.updated.None? {
        b := LegacyState(OrDefault(usage.lastRoast, 0), now, s);
      } else {
        b := Bucket(usage.charges.value, OrDefault(usage.updated, now));
      }
      b := Recover(b, now, s);
      if b.charges <= 0 {
        var remaining := NextRecover(b, now, s);
        usage := usage.(charges := Some(b.charges), updated := Some(b.updated));
        rows := rows[user := usage];
        return Reply(false, remaining, 0, s.max, remaining);
      }
      var wasFull := b.charges >= s.max;
      b := b.(charges := b.charges - 1);
      if wasFull {
        b := b.(updated := now);
      }
      usage := usage.(lastRoast := Some(now));
      usage := usage.(charges := Some(b.charges));
      usage := usage.(updated := Some(b.updated));
      rows := rows[user := usage];
      return Reply(true, 0, b.charges, s.max, NextRecover(b, now, s));
    }

    method ConsumeForceUsage(user: UserId, date: Date) returns (allowed: bool)
      modifies this
      ensures allowed <==> LastForce(Lookup(old(rows), user)) != Some(date)
      ensures rows == old(rows)[user := ConsumeForce(Lookup(old(rows), user), date).0]
      ensures LastForce(Lookup(rows, user)) == Some(date)
    {
      if user !in rows {
        rows := rows[user := UsageRow(None, None, None, Some(date))];
        return true;
      }
      if rows[user].lastForce == Some(date) {
        assert rows == rows[user := rows[user]];
        return false;
      }
      rows := rows[user := rows[user].(lastForce := Some(date))];
      return true;
    }

    /** Fills the buckets of the given users and of nobody else. */
    method ResetRoastCharges(users: seq<UserId>, chargeMax: int, now: int)
      modifies this
      ensures rows.Keys == old(rows).Keys + set u | u in users
      ensures forall u :: u in rows ==>
        rows[u] == if u in users then ResetCharges(Lookup(old(rows), u), chargeMax, now) else old(rows)[u]
    {
      for i := 0 to |users|
        invariant rows.Keys == old(rows).Keys + set u | u in users[..i]
        invariant forall u :: u in rows ==>
          rows[u] == if u in users[..i] then ResetCharges(Lookup(old(rows), u), chargeMax, now) else old(rows)[u]
      {
        assert users[..i + 1] == users[..i] + [users[i]];
        var usage := if users[i] in rows then rows[users[i]] else UsageRow(None, None, None, None);
        usage := usage.(charges := Some(chargeMax));
        usage := usage.(updated := Some(now));
        rows := rows[users[i] := usage];
      }
      assert users[..|users|] == users;
    }

    /** Moves every legacy row to the charge bucket, in whatever order the rows come. */
    method MigrateExistingUserUsage(now: int)
      modifies this
      ensures rows == map u | u in old(rows) :: MigrateRow(old(rows)[u], now)
    {
      var legacy := set u | u in rows && (rows[u].charges.None? || rows[u].updated.None?);
      while legacy != {}
        invariant rows.Keys == old(rows).Keys && legacy <= rows.Keys
        invariant forall u :: u in legacy ==> old(rows)[u].charges.None? || old(rows)[u].updated.None?
        invariant forall u :: u in rows ==>
          if u in legacy then rows[u] == old(rows)[u] else rows[u] == MigrateRow(old(rows)[u], now)
        decreases |legacy|
      {
        var u :| u in legacy;
        legacy := legacy - {u};
        var last := OrDefault(rows[u].lastRoast, 0);
        var charges, updated;
        if last <= 0 {
          charges, updated := DEFAULT_MAX, now;
        } else {
          var recovered := Max(0, now - last) / DEFAULT_RECOVER;
          charges := Min(DEFAULT_MAX, 1 + recovered);
          updated := if charges >= DEFAULT_MAX then now else last + recovered * DEFAULT_RECOVER;
        }
        rows := rows[u := rows[u].(charges := Some(charges), updated := Some(updated))];
      }
    }
  }
}
