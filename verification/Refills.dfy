/** Voted oven refills (rollpig_cloud/services/roast_refills.py): escalating thresholds, one vote per group at a
    time, and the refill that a successful vote pays out. */
module Refills {
  import opened Base
  import opened Usage

  type RefillId = nat

  const TTL: int := 10 * 60 * 1_000_000
  const STEPS: seq<(nat, nat)> := [(25, 8), (35, 12), (45, 16), (55, 20)]
  const LEGACY_RATIOS: seq<nat> := [25, 35, 45, 55, 65]
  const MIN_VOTERS: nat := 2

  // ---------------------------------------------------------------- thresholds

  function CeilPercent(active: nat, ratio: nat): nat {
    (active * ratio + 99) / 100
  }

  /** Ratio and votes of the capped policy. */
  function RefillThreshold(active: nat, successes: nat): (nat, nat) {
    var (ratio, cap) := STEPS[Min(successes, |STEPS| - 1)];
    (ratio, Max(2, Min(CeilPercent(active, ratio), cap)))
  }

  function LegacyRefillThreshold(active: nat, successes: nat): (nat, nat) {
    var ratio := LEGACY_RATIOS[Min(successes, |LEGACY_RATIOS| - 1)];
    (ratio, Max(2, CeilPercent(active, ratio)))
  }

  function Threshold(capped: bool, active: nat, successes: nat): (nat, nat) {
    if capped then RefillThreshold(active, successes) else LegacyRefillThreshold(active, successes)
  }

  lemma PercentMonotone(a: nat, b: nat, p: nat, q: nat)
    requires a <= b && p <= q <= 100
    ensures CeilPercent(a, p) <= CeilPercent(b, q)
    ensures CeilPercent(a, p) <= a
  {
    MulLe(a, b, q);
    MulLe(p, q, a);
    MulLe(p, 100, a);
    Hundredths(a * p, b * q, a);
  }

  lemma Hundredths(x: nat, y: nat, a: nat)
    ensures x <= y ==> (x + 99) / 100 <= (y + 99) / 100
    ensures x <= 100 * a ==> (x + 99) / 100 <= a
  {
  }

  /** More active users or more earlier successes never lower the votes a new request needs. */
  lemma ThresholdIsMonotone(capped: bool, a: nat, b: nat, m: nat, n: nat)
    requires a <= b && m <= n
    ensures Threshold(capped, a, m).1 <= Threshold(capped, b, n).1
  {
    var p, q := Threshold(capped, a, m).0, Threshold(capped, b, n).0;
    assert p <= q <= 100;
    PercentMonotone(a, b, p, q);
  }

  /** The votes needed never exceed the active users of a request that may be created, nor, under the capped
      policy, what the legacy policy asks for; two votes are always needed. */
  lemma ThresholdIsFair(capped: bool, active: nat, successes: nat)
    requires active >= 3
    ensures 2 <= Threshold(capped, active, successes).1 <= active
    ensures Threshold(capped, active, successes).1 <= LegacyRefillThreshold(active, successes).1
    ensures capped ==> Threshold(capped, active, successes).1 <= 20
  {
    var p, q := Threshold(capped, active, successes).0, LegacyRefillThreshold(active, successes).0;
    PercentMonotone(active, active, p, q);
    PercentMonotone(active, active, q, q);
  }

  // ---------------------------------------------------------------- requests

  datatype RefillStatus = Voting | Succeeded | Failed | Expired

  /** A group_roast_refill_requests row; message 0 is a request whose message is not bound yet. */
  datatype Refill = Refill(date: Date, group: GroupId, message: nat, capped: bool, active: nat, ratio: nat,
                           required: nat,
                           successesBefore: nat, status: RefillStatus, benefited: set<UserId>, expires: int)

  /** `keys` is the unique index over active_key; `active` holds the group's active users of a date. */
  datatype Board = Board(rows: map<RefillId, Refill>, keys: map<(Date, GroupId), RefillId>,
                         active: map<(Date, GroupId), set<UserId>>, usage: map<UserId, UsageRow>)

  function KeyOf(r: Refill): (Date, GroupId) {
    (r.date, r.group)
  }

  function ActiveUsers(b: Board, k: (Date, GroupId)): set<UserId> {
    if k in b.active then b.active[k] else {}
  }

  function Successes(rows: map<RefillId, Refill>, k: (Date, GroupId)): set<RefillId> {
    set id | id in rows && KeyOf(rows[id]) == k && rows[id].status == Succeeded
  }

  predicate Lapsed(r: Refill, now: int) {
    r.status == Voting && r.expires <= now
  }

  /** Ends a vote: the status is set and the key is freed. */
  function Close(b: Board, id: RefillId, r: Refill): Board {
    b.(rows := b.rows[id := r], keys := b.keys - {KeyOf(r)})
  }

  function ExpireIfNeeded(b: Board, id: RefillId, now: int): Board {
    if id in b.rows && Lapsed(b.rows[id], now) then Close(b, id, b.rows[id].(status := Expired)) else b
  }

  function MarkActive(b: Board, k: (Date, GroupId), users: set<UserId>): Board {
    if users == {} then b else b.(active := b.active[k := ActiveUsers(b, k) + users])
  }

  /** `eligible` is the group's member list if the client sent one. */
  datatype Call = Call(date: Date, group: GroupId, eligible: Option<set<UserId>>, capped: bool, now: int)

  datatype PrepareReply = Existing(id: RefillId) | TooFewActive | Opened | KeyTaken

  function Counted(b: Board, call: Call): set<UserId> {
    var users := ActiveUsers(b, (call.date, call.group));
    if call.eligible.Some? then users * call.eligible.value else users
  }

  /** Opens a request unless one is being voted on.  `seen` is false for a request that found no row to lock
      and was overtaken: the unique key then rolls it back. */
  function Prepare(b: Board, call: Call, seen: bool, unused: RefillId): (Board, PrepareReply) {
    var k := (call.date, call.group);
    var b' := if seen && k in b.keys then ExpireIfNeeded(b, b.keys[k], call.now) else b;
    if seen && k in b'.keys then (b', Existing(b'.keys[k]))
    else
      var users := Counted(b', call);
      if |users| < 3 then (b', TooFewActive)
      else if k in b'.keys then (b, KeyTaken)
      else
        var n := |Successes(b'.rows, k)|;
        var (ratio, votes) := Threshold(call.capped, |users|, n);
        (b'.(rows := b'.rows[unused := Refill.Refill(call.date, call.group, 0, call.capped, |users|, ratio, votes, n,
                                                     Voting, {}, call.now + TTL)],
             keys := b'.keys[k := unused]), Opened)
  }

  function Bind(b: Board, id: RefillId, message: nat, now: int): (Board, bool) {
    if id !in b.rows || b.rows[id].status != Voting then (b, false)
    else if Lapsed(b.rows[id], now) then (ExpireIfNeeded(b, id, now), false)
    else if message == 0 || (b.rows[id].message != 0 && b.rows[id].message != message) then (b, false)
    else (b.(rows := b.rows[id := b.rows[id].(message := message)]), true)
  }

  function Fail(b: Board, id: RefillId, message: nat): (Board, bool) {
    if id !in b.rows || b.rows[id].status != Voting then (b, false)
    else if message != 0 && b.rows[id].message != 0 && b.rows[id].message != message then (b, false)
    else (Close(b, id, b.rows[id].(status := Failed)), true)
  }

  /** The votes a client hands in; `weighted` when it counts group managers twice. */
  datatype Ballot = Ballot(message: nat, voters: set<UserId>, excluded: set<UserId>, managers: set<UserId>,
                           weighted: bool, maxCharges: Option<int>)

  datatype Result = Missing | NotVoting | MessageMismatch | HasExpired | StillPending | Paid

  function ValidVoters(b: Board, k: (Date, GroupId), ballot: Ballot): set<UserId> {
    ballot.voters * ActiveUsers(b, k) - ballot.excluded
  }

  function Votes(valid: set<UserId>, ballot: Ballot): nat {
    |valid| + if ballot.weighted then |valid * ballot.managers| else 0
  }

  predicate Carried(r: Refill, valid: set<UserId>, ballot: Ballot) {
    |valid| >= MIN_VOTERS && Votes(valid, ballot) >= r.required
  }

  /** `now` is compared with the deadline in microseconds, `epoch` is the second written to the buckets. */
  function Complete(b: Board, id: RefillId, ballot: Ballot, now: int, epoch: int): (Board, Result) {
    if id !in b.rows then (b, Missing)
    else
      var r := b.rows[id];
      if r.status != Voting then (b, NotVoting)
      else if r.message == 0 || ballot.message == 0 || r.message != ballot.message then (b, MessageMismatch)
      else if Lapsed(r, now) then (ExpireIfNeeded(b, id, now), HasExpired)
      else if !Carried(r, ValidVoters(b, KeyOf(r), ballot), ballot) then (b, StillPending)
      else
        var benefited := ActiveUsers(b, KeyOf(r)) - ballot.excluded;
        var after := Close(b, id, r.(status := Succeeded, benefited := benefited));
        (after.(usage := FillUp(b.usage, benefited, ClampChargeSettings(ballot.maxCharges, None).max, epoch)), Paid)
  }

  // ---------------------------------------------------------------- what the board keeps

  /** A vote holds the key of its group and date, and nothing else holds one. */
  ghost predicate KeysOk(rows: map<RefillId, Refill>, keys: map<(Date, GroupId), RefillId>) {
    && (forall k :: k in keys ==> keys[k] in rows && rows[keys[k]].status == Voting && KeyOf(rows[keys[k]]) == k)
    && (forall id :: id in rows && rows[id].status == Voting ==> KeyOf(rows[id]) in keys && keys[KeyOf(rows[id])] == id)
  }

  /** The threshold was frozen when the request was opened. */
  predicate FrozenOk(r: Refill) {
    r.active >= 3 && (r.ratio, r.required) == Threshold(r.capped, r.active, r.successesBefore)
  }

  predicate BothSucceeded(r: Refill, q: Refill) {
    r.status == Succeeded && q.status == Succeeded && KeyOf(r) == KeyOf(q)
  }

  /** The successes of a group and date are numbered 0, 1, 2, ... and a running vote carries the next number. */
  ghost predicate NumberedOk(rows: map<RefillId, Refill>) {
    && (forall id :: id in rows && rows[id].status == Voting ==>
           rows[id].successesBefore == |Successes(rows, KeyOf(rows[id]))|)
    && (forall id :: id in rows && rows[id].status == Succeeded ==>
           rows[id].successesBefore < |Successes(rows, KeyOf(rows[id]))|)
    && (forall a, b :: a in rows && b in rows && a != b && BothSucceeded(rows[a], rows[b]) ==>
           rows[a].successesBefore != rows[b].successesBefore)
  }

  ghost predicate BoardOk(b: Board) {
    KeysOk(b.rows, b.keys) && (forall id :: id in b.rows ==> FrozenOk(b.rows[id])) && NumberedOk(b.rows)
  }

  lemma SuccessesKept(rows: map<RefillId, Refill>, id: RefillId, r: Refill, k: (Date, GroupId))
    requires r.status != Succeeded && (id in rows ==> rows[id].status != Succeeded)
    ensures Successes(rows[id := r], k) == Successes(rows, k)
  {
  }

  lemma SuccessAdded(rows: map<RefillId, Refill>, id: RefillId, r: Refill, k: (Date, GroupId))
    requires id in rows && rows[id].status == Voting && r.status == Succeeded && KeyOf(r) == KeyOf(rows[id])
    ensures |Successes(rows[id := r], k)| == |Successes(rows, k)| + if k == KeyOf(r) then 1 else 0
  {
    assert Successes(rows[id := r], k) == Successes(rows, k) + if k == KeyOf(r) then {id} else {};
  }

  /** Ending a vote without success, or editing its message, keeps the numbering. */
  lemma NumberingKept(rows: map<RefillId, Refill>, id: RefillId, r: Refill)
    requires NumberedOk(rows) && id in rows && rows[id].status == Voting && r.status != Succeeded
    requires KeyOf(r) == KeyOf(rows[id]) && r.successesBefore == rows[id].successesBefore
    ensures NumberedOk(rows[id := r])
  {
    hide Successes;
    forall k { SuccessesKept(rows, id, r, k); }
  }

  lemma NumberingGrows(rows: map<RefillId, Refill>, keys: map<(Date, GroupId), RefillId>, id: RefillId, r: Refill)
    requires NumberedOk(rows) && KeysOk(rows, keys) && id in rows && rows[id].status == Voting && r.status == Succeeded
    requires KeyOf(r) == KeyOf(rows[id]) && r.successesBefore == rows[id].successesBefore
    ensures NumberedOk(rows[id := r])
  {
    hide Successes;
    forall k { SuccessAdded(rows, id, r, k); }
  }

  lemma NumberingOpens(rows: map<RefillId, Refill>, id: RefillId, r: Refill)
    requires NumberedOk(rows) && id !in rows && r.status == Voting && r.successesBefore == |Successes(rows, KeyOf(r))|
    ensures NumberedOk(rows[id := r])
  {
    hide Successes;
    forall k { SuccessesKept(rows, id, r, k); }
  }

  lemma KeyFreed(rows: map<RefillId, Refill>, keys: map<(Date, GroupId), RefillId>, id: RefillId, r: Refill)
    requires KeysOk(rows, keys) && id in rows && rows[id].status == Voting && r.status != Voting
    requires KeyOf(r) == KeyOf(rows[id])
    ensures KeysOk(rows[id := r], keys - {KeyOf(r)})
  {
  }

  lemma ExpireKeepsBoard(b: Board, id: RefillId, now: int)
    requires BoardOk(b)
    ensures BoardOk(ExpireIfNeeded(b, id, now))
  {
    hide NumberedOk, KeysOk, Threshold;
    if id in b.rows && Lapsed(b.rows[id], now) {
      NumberingKept(b.rows, id, b.rows[id].(status := Expired));
      KeyFreed(b.rows, b.keys, id, b.rows[id].(status := Expired));
    }
  }

  lemma OpenKeepsBoard(b: Board, id: RefillId, r: Refill)
    requires BoardOk(b) && id !in b.rows && KeyOf(r) !in b.keys && r.status == Voting && FrozenOk(r)
    requires r.successesBefore == |Successes(b.rows, KeyOf(r))|
    ensures BoardOk(b.(rows := b.rows[id := r], keys := b.keys[KeyOf(r) := id]))
  {
    hide NumberedOk, FrozenOk, Successes;
    NumberingOpens(b.rows, id, r);
  }

  lemma PrepareKeepsBoard(b: Board, call: Call, seen: bool, unused: RefillId)
    requires BoardOk(b) && unused !in b.rows
    ensures BoardOk(Prepare(b, call, seen, unused).0)
  {
    hide BoardOk, Threshold, Successes;
    var k := (call.date, call.group);
    if seen && k in b.keys { ExpireKeepsBoard(b, b.keys[k], call.now); }
    var b' := if seen && k in b.keys then ExpireIfNeeded(b, b.keys[k], call.now) else b;
    if Prepare(b, call, seen, unused).1 == Opened {
      OpenKeepsBoard(b', unused, Prepare(b, call, seen, unused).0.rows[unused]);
    }
  }

  /** A message bound to a running vote moves no key. */
  lemma BoundKeysOk(rows: map<RefillId, Refill>, keys: map<(Date, GroupId), RefillId>, id: RefillId, message: nat)
    requires KeysOk(rows, keys) && id in rows && rows[id].status == Voting
    ensures KeysOk(rows[id := rows[id].(message := message)], keys)
  {
  }

  lemma BindKeepsBoard(b: Board, id: RefillId, message: nat, now: int)
    requires BoardOk(b)
    ensures BoardOk(Bind(b, id, message, now).0)
  {
    hide NumberedOk, Threshold, KeysOk, ExpireIfNeeded, Lapsed, Successes;
    ExpireKeepsBoard(b, id, now);
    if Bind(b, id, message, now).1 {
      BoundKeysOk(b.rows, b.keys, id, message);
      NumberingKept(b.rows, id, b.rows[id].(message := message));
    }
  }

  lemma FailKeepsBoard(b: Board, id: RefillId, message: nat)
    requires BoardOk(b)
    ensures BoardOk(Fail(b, id, message).0)
  {
    hide NumberedOk, KeysOk, Threshold;
    if Fail(b, id, message).1 {
      NumberingKept(b.rows, id, b.rows[id].(status := Failed));
      KeyFreed(b.rows, b.keys, id, b.rows[id].(status := Failed));
    }
  }

  lemma CompleteKeepsBoard(b: Board, id: RefillId, ballot: Ballot, now: int, epoch: int)
    requires BoardOk(b)
    ensures BoardOk(Complete(b, id, ballot, now, epoch).0)
  {
    hide NumberedOk, KeysOk, Threshold, FillUp, Carried;
    ExpireKeepsBoard(b, id, now);
    if Complete(b, id, ballot, now, epoch).1 == Paid {
      var r := b.rows[id].(status := Succeeded, benefited := ActiveUsers(b, KeyOf(b.rows[id])) - ballot.excluded);
      NumberingGrows(b.rows, b.keys, id, r);
      KeyFreed(b.rows, b.keys, id, r);
    }
  }

  // ---------------------------------------------------------------- runs

  datatype RefillStep =
    | MarkStep(key: (Date, GroupId), users: set<UserId>)
    | OpenStep(call: Call, seen: bool, unused: RefillId)
    | LookStep(key: (Date, GroupId), now: int)
    | BindStep(id: RefillId, message: nat, now: int)
    | FailStep(id: RefillId, message: nat)
    | CompleteStep(id: RefillId, ballot: Ballot, now: int, epoch: int)

  function Next(b: Board, step: RefillStep): Board {
    match step
    case MarkStep(k, users) => MarkActive(b, k, users)
    case OpenStep(call, seen, unused) => Prepare(b, call, seen, unused).0
    case LookStep(k, now) => if k in b.keys then ExpireIfNeeded(b, b.keys[k], now) else b
    case BindStep(id, message, now) => Bind(b, id, message, now).0
    case FailStep(id, message) => Fail(b, id, message).0
    case CompleteStep(id, ballot, now, epoch) => Complete(b, id, ballot, now, epoch).0
  }

  ghost predicate Runs(states: seq<Board>, steps: seq<RefillStep>) {
    && |states| == |steps| + 1 && states[0].rows == map[] && states[0].keys == map[]
    && forall i :: 0 <= i < |steps| ==>
         states[i + 1] == Next(states[i], steps[i]) && (steps[i].OpenStep? ==> steps[i].unused !in states[i].rows)
  }

  lemma {:induction false} BoardAlwaysOk(states: seq<Board>, steps: seq<RefillStep>, i: nat)
    requires Runs(states, steps) && i < |states|
    ensures BoardOk(states[i])
  {
    hide NumberedOk, KeysOk, FrozenOk, Prepare, Bind, Fail, Complete, ExpireIfNeeded;
    if i == 0 {
      EmptyOk(states[0]);
    } else {
      BoardAlwaysOk(states, steps, i - 1);
      var b := states[i - 1];
      match steps[i - 1]
      case MarkStep(_, _) =>
      case OpenStep(call, seen, unused) => PrepareKeepsBoard(b, call, seen, unused);
      case LookStep(k, now) => if k in b.keys { ExpireKeepsBoard(b, b.keys[k], now); }
      case BindStep(id, message, now) => BindKeepsBoard(b, id, message, now);
      case FailStep(id, message) => FailKeepsBoard(b, id, message);
      case CompleteStep(id, ballot, now, epoch) => CompleteKeepsBoard(b, id, ballot, now, epoch);
    }
  }

  lemma EmptyOk(b: Board)
    requires b.rows == map[] && b.keys == map[]
    ensures BoardOk(b)
  {
  }

  /** In every reachable state at most one request of a group and date is being voted on. */
  lemma OneVoteAtATime(states: seq<Board>, steps: seq<RefillStep>, i: nat, a: RefillId, c: RefillId)
    requires Runs(states, steps) && i < |states|
    ensures var rows := states[i].rows;
      && a in rows && c in rows && rows[a].status == Voting && rows[c].status == Voting
      && KeyOf(rows[a]) == KeyOf(rows[c])
      ==> a == c
  {
    hide Next, NumberedOk, FrozenOk;
    BoardAlwaysOk(states, steps, i);
  }

  /** Escalation: of two successes of a group and date the one with the higher number had a threshold at least as
      high if at least as many users were active; every number below the count of successes is carried once. */
  lemma SuccessesEscalate(states: seq<Board>, steps: seq<RefillStep>, i: nat, a: RefillId, c: RefillId)
    requires Runs(states, steps) && i < |states| && a in states[i].rows && c in states[i].rows && a != c
    requires KeyOf(states[i].rows[a]) == KeyOf(states[i].rows[c])
    requires states[i].rows[a].status == Succeeded && states[i].rows[c].status == Succeeded
    ensures var p, q, n := states[i].rows[a], states[i].rows[c], |Successes(states[i].rows, KeyOf(states[i].rows[a]))|;
      && p.successesBefore != q.successesBefore && p.successesBefore < n && q.successesBefore < n
      && (p.successesBefore < q.successesBefore && p.active <= q.active && p.capped == q.capped ==>
             p.required <= q.required)
      && 2 <= p.required <= p.active
  {
    hide Next, KeysOk, Threshold, Successes;
    BoardAlwaysOk(states, steps, i);
    var p, q := states[i].rows[a], states[i].rows[c];
    ThresholdIsFair(p.capped, p.active, p.successesBefore);
    if p.successesBefore < q.successesBefore && p.active <= q.active {
      ThresholdIsMonotone(p.capped, p.active, q.active, p.successesBefore, q.successesBefore);
    }
  }

  /** The supporters who count: they voted, are active in the group that date and are not excluded. */
  ghost function Supporters(b: Board, k: (Date, GroupId), ballot: Ballot): set<UserId> {
    set u | u in ballot.voters && k in b.active && u in b.active[k] && u !in ballot.excluded
  }

  /** What a vote has to show to be paid: a second vote for every manager counts only if the client weighs them. */
  ghost predicate Payable(b: Board, id: RefillId, ballot: Ballot, now: int) {
    && id in b.rows && b.rows[id].status == Voting && b.rows[id].message != 0 && b.rows[id].message == ballot.message
    && now < b.rows[id].expires
    && var valid := Supporters(b, (b.rows[id].date, b.rows[id].group), ballot);
       var second := set u | u in valid && ballot.weighted && u in ballot.managers;
       && |valid| + |second| >= b.rows[id].required
       && exists v, w :: v != w && v in valid && w in valid
  }

  lemma CarriedIff(b: Board, r: Refill, ballot: Ballot)
    ensures var valid := Supporters(b, (r.date, r.group), ballot);
      var second := set u | u in valid && ballot.weighted && u in ballot.managers;
      Carried(r, ValidVoters(b, KeyOf(r), ballot), ballot) <==>
        |valid| + |second| >= r.required && exists v, w :: v != w && v in valid && w in valid
  {
    var valid := Supporters(b, (r.date, r.group), ballot);
    var second := set u | u in valid && ballot.weighted && u in ballot.managers;
    assert ValidVoters(b, KeyOf(r), ballot) == valid;
    assert second == if ballot.weighted then valid * ballot.managers else {};
    TwoOf(valid);
  }

  /** A vote pays out exactly when it is running, bound to this message, in time, and carried by enough votes
      of at least two different active supporters who are not excluded. */
  lemma PaidIff(b: Board, id: RefillId, ballot: Ballot, now: int, epoch: int)
    ensures Complete(b, id, ballot, now, epoch).1 == Paid <==> Payable(b, id, ballot, now)
  {
    hide Supporters, Carried, ValidVoters, FillUp, Close, ClampChargeSettings;
    if id in b.rows { CarriedIff(b, b.rows[id], ballot); }
  }

  /** A payment fills up exactly the active users who were not excluded and takes the next number; without a
      payment no bucket is touched. */
  lemma PaysExactly(b: Board, id: RefillId, ballot: Ballot, now: int, epoch: int, u: UserId)
    requires BoardOk(b)
    ensures var (after, result) := Complete(b, id, ballot, now, epoch);
      if result != Paid then after.usage == b.usage
      else
        var k := KeyOf(b.rows[id]);
        && id in after.rows && after.rows[id].status == Succeeded
        && after.rows[id].benefited == ActiveUsers(b, k) - ballot.excluded
        && after.rows[id].successesBefore == |Successes(b.rows, k)|
        && |Successes(after.rows, k)| == |Successes(b.rows, k)| + 1
        && Lookup(after.usage, u) ==
             if u in ActiveUsers(b, k) && u !in ballot.excluded then
               Some(ResetCharges(Lookup(b.usage, u), ClampChargeSettings(ballot.maxCharges, None).max, epoch))
             else Lookup(b.usage, u)
  {
    hide KeysOk, Threshold, Successes, FrozenOk, Carried, ClampChargeSettings, ResetCharges;
    if Complete(b, id, ballot, now, epoch).1 == Paid {
      var r := Complete(b, id, ballot, now, epoch).0.rows[id];
      SuccessAdded(b.rows, id, r, KeyOf(r));
    }
  }

  lemma TwoOf(s: set<UserId>)
    ensures |s| >= 2 <==> exists v, w :: v != w && v in s && w in s
  {
    if |s| >= 2 {
      var v :| v in s;
      assert |s - {v}| >= 1;
      var w :| w in s - {v};
      assert v != w && v in s && w in s;
    } else if v, w :| v != w && v in s && w in s {
      assert {v, w} <= s;
      Smaller({v, w}, s);
    }
  }

  lemma {:induction false} Smaller(s: set<UserId>, t: set<UserId>)
    requires s <= t
    ensures |s| <= |t|
  {
    assert t == s + (t - s);
  }
}
