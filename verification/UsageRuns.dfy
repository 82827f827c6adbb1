/** The rate of ordinary roasts over whole runs of the service. */
module UsageRuns {
  import opened Base
  import opened Growth
  import opened Protections
  import opened Rounds
  import opened Usage
  import opened Database
  import opened RequestLaws
  import opened RoastSystem
  import opened RoastRuns

  // ---------------------------------------------------------------- what a step does to a user's row

  predicate Ordinary(mode: Mode) {
    mode != Normal && mode != Super
  }

  /** What a request does to its attacker's row: an ordinary one that opens a round, or is refused for want of a
      charge, asks the bucket; any other may spend the force use. */
  function RequestOp(db: Db, req: Request, result: Database.Result, u: UserId): Option<UsageOp> {
    if result.Conflict? || req.attacker != u then None
    else if Ordinary(req.mode) && result.verdict in {Created, CooldownDenied} then Some(Roast(req.now))
    else if LastForce(Lookup(result.db.usage, u)) != LastForce(Lookup(db.usage, u)) then Some(Force(req.date))
    else None
  }

  function UsageOpOf(sys: Sys, step: Step, u: UserId): Option<UsageOp> {
    match step
    case PrepareStep(req, seen, unused) => RequestOp(sys.db, req, Prepare(sys.db, req, seen, None, unused), u)
    case ReplyStep(req, seen, bound) => RequestOp(sys.db, req, Prepare(sys.db, req, seen, Some(bound), bound), u)
    case RoastStep(user, now, _, _) => if user == u then Some(Roast(now)) else None
    case ForceStep(user, date) => if user == u then Some(Force(date)) else None
    case RefillStep(users, _, now) => if u in users then Some(Refill(now)) else None
    case _ => None
  }

  /** Everything that asks or fills the user's bucket does so with these settings. */
  predicate UsesSettings(step: Step, u: UserId, s: Settings) {
    match step
    case PrepareStep(req, _, _) => req.attacker == u ==> ClampChargeSettings(req.maxCharges, req.cooldown) == s
    case ReplyStep(req, _, _) => req.attacker == u ==> ClampChargeSettings(req.maxCharges, req.cooldown) == s
    case RoastStep(user, _, cooldown, maxCharges) => user == u ==> ClampChargeSettings(maxCharges, cooldown) == s
    case RefillStep(users, max, _) => u in users ==> max == s.max
    case _ => true
  }

  function AfterUse(row: Option<UsageRow>, op: Option<UsageOp>, s: Settings): Option<UsageRow>
    requires Sane(s)
  {
    if op.Some? then Some(Apply(row, op.value, s).0) else row
  }

  lemma TouchUsage(db: Db, req: Request, id: RoundId, pig: Option<PigId>, u: UserId, s: Settings)
    requires id in db.rounds && Sane(s)
    ensures var result := TouchRound(db, req, id, pig);
      Lookup(result.db.usage, u) == AfterUse(Lookup(db.usage, u), RequestOp(db, req, result, u), s)
      && result.verdict !in {Created, CooldownDenied}
  {
    hide TakeOver, Join, UpdateDelivery;
  }

  lemma OpenUsage(db: Db, req: Request, prot: Option<Prot>, pig: Option<PigId>, id: RoundId, u: UserId, s: Settings)
    requires Sane(s) && (req.attacker == u ==> ClampChargeSettings(req.maxCharges, req.cooldown) == s)
    ensures var result := OpenRound(db, req, prot, pig, id);
      result.Commit? ==>
        && Lookup(result.db.usage, u) == AfterUse(Lookup(db.usage, u), RequestOp(db, req, result, u), s)
        && (Ordinary(req.mode) && result.verdict in {Created, CooldownDenied} ==>
              (result.verdict == Created <==> ConsumeFor(db, req).1.allowed))
  {
    hide Open, ConsumeFor, SpendForce, ForceFree, InsertRound, Apply, LastForce, ClampChargeSettings;
    InsertUsage(db, id, Open(req, OptionLevel(prot), pig));
    if req.mode == Normal {
      InsertUsage(SpendForce(db, req), id, Open(req, OptionLevel(prot), pig));
      ForceUse(db, req, u, s);
    } else if req.mode != Super {
      var paid := db.(usage := db.usage[req.attacker := ConsumeFor(db, req).0]);
      InsertUsage(paid, id, Open(req, OptionLevel(prot), pig));
      if req.attacker == u { RoastUse(db, req, s); }
    }
  }

  lemma InsertUsage(db: Db, id: RoundId, r: Round)
    ensures var result := InsertRound(db, id, r);
      result.Commit? ==> result.db.usage == db.usage && result.verdict == Created
  {
  }

  lemma ForceUse(db: Db, req: Request, u: UserId, s: Settings)
    requires Sane(s)
    ensures u != req.attacker ==> Lookup(SpendForce(db, req).usage, u) == Lookup(db.usage, u)
    ensures u == req.attacker ==>
      Lookup(SpendForce(db, req).usage, u) == Some(Apply(Lookup(db.usage, u), Force(req.date), s).0)
    ensures ForceFree(db, req) ==>
      LastForce(Lookup(SpendForce(db, req).usage, req.attacker)) != LastForce(Lookup(db.usage, req.attacker))
  {
  }

  lemma RoastUse(db: Db, req: Request, s: Settings)
    requires Sane(s) && ClampChargeSettings(req.maxCharges, req.cooldown) == s
    ensures ConsumeFor(db, req).0 == Apply(Lookup(db.usage, req.attacker), Roast(req.now), s).0
  {
    hide ConsumeRoast, ClampChargeSettings;
  }

  lemma PrepareUsage(db: Db, req: Request, seen: bool, expected: Option<RoundId>, id: RoundId, u: UserId, s: Settings)
    requires Sane(s) && (req.attacker == u ==> ClampChargeSettings(req.maxCharges, req.cooldown) == s)
    ensures var result := Prepare(db, req, seen, expected, id);
      result.Commit? ==>
        && Lookup(result.db.usage, u) == AfterUse(Lookup(db.usage, u), RequestOp(db, req, result, u), s)
        && (Ordinary(req.mode) && result.verdict in {Created, CooldownDenied} ==>
              (result.verdict == Created <==> ConsumeFor(db, req).1.allowed))
  {
    hide Guard, FindRound, TouchRound, OpenRound, Apply, ConsumeRoast, RealRoll, LastForce;
    var (mid, prot) := Guard(db, req);
    GuardShape(db, req);
    var pig := if seen then Drawn(db, req.date, req.target) else None;
    var found := FindRound(db, req);
    if found.Some? && found.value in db.rounds { TouchUsage(mid, req, found.value, pig, u, s); }
    OpenUsage(mid, req, prot, pig, id, u, s);
  }

  /** The step is an ordinary roast of the user that was paid with a charge. */
  predicate Pays(sys: Sys, step: Step, u: UserId) {
    match step
    case PrepareStep(req, seen, unused) =>
      var result := Prepare(sys.db, req, seen, None, unused);
      req.attacker == u && Ordinary(req.mode) && result.Commit? && result.verdict == Created
    case RoastStep(user, now, cooldown, maxCharges) =>
      user == u && ConsumeRoast(Lookup(sys.db.usage, user), now, ClampChargeSettings(maxCharges, cooldown)).1.allowed
    case _ => false
  }

  predicate TouchesUsage(step: Step) {
    step.PrepareStep? || step.ReplyStep? || step.RoastStep? || step.ForceStep? || step.RefillStep?
  }

  lemma DrawKeepsUsage(db: Db, date: Date, user: UserId, pig: PigId, locked: set<RoundId>)
    ensures DrawTx(db, date, user, pig, locked).usage == db.usage && MakeupTx(db, date, user, pig).usage == db.usage
  {
    hide Draw, Activate;
  }

  lemma ReconcileKeepsUsage(db: Db, date: Date, user: UserId, pig: PigId, handled: Option<RoundId>)
    ensures ReconcileTx(db, date, user, pig, handled).usage == db.usage
  {
    hide Reconcile;
  }

  lemma FeedKeepsUsage(db: Db, date: Date, user: UserId, source: FeedSource)
    ensures FeedTx(db, date, user, source).usage == db.usage
  {
    hide FeedAll;
  }

  lemma ClaimKeepsUsage(db: Db, poll: ClaimRequest, leases: map<RoundId, Token>, notices: map<RoundId, Token>)
    ensures ClaimTx(db, poll, leases, notices).usage == db.usage
  {
    hide ClaimedRow;
  }

  lemma ListsKeepUsage(db: Db, slot: Slot, level: int, list: DailyList)
    ensures GrantTx(db, slot, level).usage == db.usage && ReplaceTx(db, list).usage == db.usage
  {
    hide Grant, SyncRound, Edits, RowAfter, LevelInForce;
  }

  lemma OutcomeKeepsUsage(db: Db, id: RoundId, token: Token, outcome: Outcome, settle: bool)
    ensures PrepareOutcomeTx(db, id, token, outcome, settle).0.usage == db.usage
  {
    hide PrepareOutcome, PrepareFixing, FeedAll, FeedResults, Settled, BrokenThrough;
  }

  lemma NoticeKeepsUsage(db: Db, id: RoundId, token: Token, action: NoticeAction, today: Date)
    ensures NoticeTx(db, id, token, action, today).0.usage == db.usage
  {
    hide MoveNotice;
  }

  lemma SaveKeepsUsage(db: Db, id: RoundId, token: Token, outcome: Outcome)
    ensures SaveOutcomeTx(db, id, token, outcome).0.usage == db.usage
  {
    hide SaveOutcome;
  }

  lemma HolderKeepsUsage(db: Db, id: RoundId, token: Token)
    ensures MarkSendingTx(db, id, token).0.usage == db.usage
    ensures CompleteTx(db, id, token).0.usage == db.usage && ReleaseTx(db, id, token).0.usage == db.usage
  {
    hide MarkSending, Complete, Release;
  }

  predicate Delivers(step: Step) {
    || step.NoticeStep? || step.PrepareOutcomeStep? || step.SaveOutcomeStep? || step.SendingStep? || step.CompleteStep?
    || step.ReleaseStep?
  }

  lemma DeliveryStepsKeepUsage(sys: Sys, step: Step)
    requires Delivers(step)
    ensures Next(sys, step).db.usage == sys.db.usage
  {
    hide NoticeTx, PrepareOutcomeTx, SaveOutcomeTx, MarkSendingTx, CompleteTx, ReleaseTx, Prepare, ReconcileTx,
         RealRoll;
    match step
    case NoticeStep(id, token, action, today) => NoticeKeepsUsage(sys.db, id, token, action, today);
    case PrepareOutcomeStep(id, token, outcome, settle) => OutcomeKeepsUsage(sys.db, id, token, outcome, settle);
    case SaveOutcomeStep(id, token, outcome) => SaveKeepsUsage(sys.db, id, token, outcome);
    case SendingStep(id, token) => HolderKeepsUsage(sys.db, id, token);
    case CompleteStep(id, token) => HolderKeepsUsage(sys.db, id, token);
    case ReleaseStep(id, token) => HolderKeepsUsage(sys.db, id, token);
  }

  lemma OtherStepsKeepUsage(sys: Sys, step: Step)
    requires !TouchesUsage(step)
    ensures Next(sys, step).db.usage == sys.db.usage
  {
    hide FeedTx, Prepare, DrawTx, MakeupTx, GrantTx, ReplaceTx, ReconcileTx, ClaimTx, NoticeTx, PrepareOutcomeTx,
         SaveOutcomeTx, MarkSendingTx, CompleteTx, ReleaseTx, Minted, RealRoll;
    match step
    case DrawStep(date, user, pig, locked) => DrawKeepsUsage(sys.db, date, user, pig, locked);
    case MakeupStep(date, user, pig) => DrawKeepsUsage(sys.db, date, user, pig, {});
    case JobStep(job) => if job.NeedApply? { ReconcileKeepsUsage(sys.db, job.date, job.target, job.pig, job.handled); }
    case GrantStep(slot, level) => ListsKeepUsage(sys.db, slot, level, DailyList(0, 0, {}, 1));
    case ReplaceStep(list) => ListsKeepUsage(sys.db, Slot(0, 0, 0), 1, list);
    case ClaimStep(claim, leases, notices) => ClaimKeepsUsage(sys.db, claim, leases, notices);
    case FeedStep(date, user, source) => FeedKeepsUsage(sys.db, date, user, source);
    case RedrawStep(_, _) =>
    case _ => DeliveryStepsKeepUsage(sys, step);
  }

  /** Every step treats every user's row as its operation says, and pays exactly when that operation is a roast
      that the bucket allows. */
  lemma UsageStepLaw(sys: Sys, step: Step, u: UserId, s: Settings)
    requires Sane(s) && UsesSettings(step, u, s)
    ensures var (row, op) := (Lookup(sys.db.usage, u), UsageOpOf(sys, step, u));
      && Lookup(Next(sys, step).db.usage, u) == AfterUse(row, op, s)
      && (Pays(sys, step, u) <==> op.Some? && Apply(row, op.value, s).1 == 1)
  {
    hide Prepare, ConsumeRoast, ConsumeForce, LastForce, ClampChargeSettings, RealRoll;
    if !TouchesUsage(step) {
      OtherStepsKeepUsage(sys, step);
    } else {
      match step
      case PrepareStep(req, seen, unused) => PrepareUsage(sys.db, req, seen, None, unused, u, s);
      case ReplyStep(req, seen, bound) =>
        PrepareUsage(sys.db, req, seen, Some(bound), bound, u, s);
        ReplyOpensNothing(sys.db, req, seen, bound);
      case RoastStep(_, _, _, _) =>
      case ForceStep(_, _) =>
      case RefillStep(_, _, _) =>
    }
  }

  /** A join by reply neither opens a round nor asks the bucket. */
  lemma ReplyOpensNothing(db: Db, req: Request, seen: bool, bound: RoundId)
    ensures var result := Prepare(db, req, seen, Some(bound), bound);
      result.Commit? ==> result.verdict !in {Created, CooldownDenied}
  {
    hide Guard, FindRound, TouchRound, OpenRound, RealRoll;
    GuardShape(db, req);
    var pig := if seen then Drawn(db, req.date, req.target) else None;
    var found := FindRound(db, req);
    if found.Some? && found.value in db.rounds {
      TouchUsage(Guard(db, req).0, req, found.value, pig, req.attacker, DEFAULTS);
    }
  }

  // ---------------------------------------------------------------- runs

  /** The operations on the user's row from state i to state j. */
  function UsesBetween(states: seq<Sys>, steps: seq<Step>, i: nat, j: nat, u: UserId): seq<UsageOp>
    requires |states| == |steps| + 1 && i <= j < |states|
    decreases j - i
  {
    if i == j then [] else FirstUse(UsageOpOf(states[i], steps[i], u), UsesBetween(states, steps, i + 1, j, u))
  }

  function FirstUse(op: Option<UsageOp>, rest: seq<UsageOp>): seq<UsageOp> {
    if op.Some? then [op.value] + rest else rest
  }

  /** The ordinary roasts the user was granted between two states, and the refills that reached the user. */
  function RoastsPaid(states: seq<Sys>, steps: seq<Step>, i: nat, j: nat, u: UserId): nat
    requires |states| == |steps| + 1 && i <= j < |states|
    decreases j - i
  {
    if i == j then 0 else (if Pays(states[i], steps[i], u) then 1 else 0) + RoastsPaid(states, steps, i + 1, j, u)
  }

  function RefillsReceived(steps: seq<Step>, i: nat, j: nat, u: UserId): nat
    requires i <= j <= |steps|
    decreases j - i
  {
    if i == j then 0
    else (if steps[i].RefillStep? && u in steps[i].users then 1 else 0) + RefillsReceived(steps, i + 1, j, u)
  }

  lemma RunFirst(row: Option<UsageRow>, op: Option<UsageOp>, rest: seq<UsageOp>, s: Settings)
    requires Sane(s)
    ensures Run(row, FirstUse(op, rest), s).1
      == (if op.Some? then Apply(row, op.value, s).1 else 0) + Run(AfterUse(row, op, s), rest, s).1
    ensures Refills(FirstUse(op, rest)) == (if op.Some? && op.value.Refill? then 1 else 0) + Refills(rest)
  {
    hide Apply;
    if op.Some? {
      assert ([op.value] + rest)[1..] == rest;
    }
  }

  lemma RefillOps(sys: Sys, step: Step, u: UserId)
    ensures (UsageOpOf(sys, step, u).Some? && UsageOpOf(sys, step, u).value.Refill?)
      <==> (step.RefillStep? && u in step.users)
    ensures UsageOpOf(sys, step, u).Some? && !UsageOpOf(sys, step, u).value.Roast? ==> !Pays(sys, step, u)
  {
    hide Prepare, ConsumeRoast, LastForce;
  }

  lemma PaysAtMostOne(row: Option<UsageRow>, op: UsageOp, s: Settings)
    requires Sane(s)
    ensures Apply(row, op, s).1 <= 1
  {
    hide ConsumeRoast, ConsumeForce;
  }

  lemma {:induction false} UsesAreRun(states: seq<Sys>, steps: seq<Step>, i: nat, j: nat, u: UserId, s: Settings)
    requires Runs(states, steps) && i <= j < |states| && Sane(s)
    requires forall k :: i <= k < j ==> UsesSettings(steps[k], u, s)
    ensures RoastsPaid(states, steps, i, j, u) ==
      Run(Lookup(states[i].db.usage, u), UsesBetween(states, steps, i, j, u), s).1
    ensures RefillsReceived(steps, i, j, u) == Refills(UsesBetween(states, steps, i, j, u))
    decreases j - i
  {
    hide Next, Enabled, Initial, Pays, UsageOpOf, UsesSettings, Run, Refills, Apply, AfterUse, FirstUse;
    var row := Lookup(states[i].db.usage, u);
    if i == j {
      RunNothing(row, s);
      NoRefills();
    } else {
      UsesAreRun(states, steps, i + 1, j, u, s);
      var op := UsageOpOf(states[i], steps[i], u);
      UsageStepLaw(states[i], steps[i], u, s);
      RefillOps(states[i], steps[i], u);
      RunFirst(row, op, UsesBetween(states, steps, i + 1, j, u), s);
      if op.Some? { PaysAtMostOne(row, op.value, s); }
    }
  }

  lemma NoRefills()
    ensures Refills([]) == 0
  {
  }

  /** Rate bound over runs: between two states of a run whose clock moves from `from` to `to`, with k refills that
      reached the user, the user was granted at most max * (1 + k) + (to - from) / recover ordinary roasts, whatever
      other requests, force uses, draws and deliveries happened in between. */
  lemma RoastsAreBounded(states: seq<Sys>, steps: seq<Step>, i: nat, j: nat, u: UserId, from: int, to: int, s: Settings)
    requires Runs(states, steps) && i <= j < |states| && Sane(s)
    requires forall k :: i <= k < j ==> UsesSettings(steps[k], u, s)
    requires Timely(Lookup(states[i].db.usage, u), from) && Within(UsesBetween(states, steps, i, j, u), from, to)
    ensures from <= to
    ensures RoastsPaid(states, steps, i, j, u)
      <= s.max * (1 + RefillsReceived(steps, i, j, u)) + (to - from) / s.recover
  {
    hide Next, Enabled, Initial, UsesSettings, Run, Refills, Timely, Within, UsesBetween, RoastsPaid, RefillsReceived;
    UsesAreRun(states, steps, i, j, u, s);
    RateBound(Lookup(states[i].db.usage, u), UsesBetween(states, steps, i, j, u), from, to, s);
  }
}
