/** Protection rows over whole runs, and replacing the daily list. */
module ProtectionRuns {
  import opened Base
  import opened Growth
  import opened Protections
  import opened Rounds
  import opened Usage
  import opened Database
  import opened DatabaseLaws
  import opened RequestLaws
  import opened RoastSystem
  import opened RoastRuns
  import L = RoundLaws
  import V = ProtectionLevels

  // ---------------------------------------------------------------- what a step does to a row

  /** The request copies the global row into the slot. */
  predicate Copies(db: Db, req: Request, s: Slot) {
    s == Target(req) && s !in db.prots && GlobalOf(db, s).Some? && req.gathering
  }

  function CopyOp(db: Db, req: Request, result: Result, s: Slot): Option<RowOp> {
    if result.Commit? && Copies(db, req, s) then Some(Inherited(GlobalOf(db, s).value)) else None
  }

  function ListOp(db: Db, list: DailyList, s: Slot): Option<RowOp> {
    if !Covers(list, s) then None
    else if s.user in list.users then Some(Enlisted(GlobalOf(db, s), Yesterday(db, s), list.initial))
    else Some(Delisted(GlobalOf(db, s)))
  }

  /** The step fixes the first outcome of a protected round of the slot, and it is a success. */
  predicate Breaches(db: Db, step: Step, s: Slot) {
    && step.PrepareOutcomeStep? && step.id in db.rounds && SlotOf(db.rounds[step.id]) == s
    && PrepareFixing(db.rounds[step.id], step.token, step.outcome) == First
    && db.rounds[step.id].required > 0 && step.outcome.success
  }

  /** What the step does to the row of the slot. */
  function RowOpOf(sys: Sys, step: Step, s: Slot): Option<RowOp> {
    match step
    case PrepareStep(req, seen, unused) => CopyOp(sys.db, req, Prepare(sys.db, req, seen, None, unused), s)
    case ReplyStep(req, seen, bound) => CopyOp(sys.db, req, Prepare(sys.db, req, seen, Some(bound), bound), s)
    case GrantStep(slot, level) => if slot == s then Some(Granted(level, GlobalOf(sys.db, s))) else None
    case ReplaceStep(list) => ListOp(sys.db, list, s)
    case PrepareOutcomeStep(_, _, _, _) => if Breaches(sys.db, step, s) then Some(Broken) else None
    case _ => None
  }

  function AfterOp(row: Option<Prot>, op: Option<RowOp>): Option<Prot> {
    if op.Some? then ApplyOp(row, op.value) else row
  }

  lemma OpenKeepsRows(db: Db, req: Request, prot: Option<Prot>, pig: Option<PigId>, id: RoundId)
    ensures var result := OpenRound(db, req, prot, pig, id); result.Commit? ==> result.db.prots == db.prots
  {
    hide Open, ConsumeFor, ForceFree, OptionLevel;
  }

  lemma PrepareRows(db: Db, req: Request, seen: bool, expected: Option<RoundId>, id: RoundId)
    ensures var result := Prepare(db, req, seen, expected, id);
      result.Commit? ==> result.db.prots == Guard(db, req).0.prots
  {
    hide Guard, FindRound, OpenRound, Touch, ForceFree, RealRoll;
    var (mid, prot) := Guard(db, req);
    OpenKeepsRows(mid, req, prot, if seen then Drawn(db, req.date, req.target) else None, id);
  }

  lemma CopyRow(db: Db, req: Request, seen: bool, expected: Option<RoundId>, id: RoundId, s: Slot)
    ensures var result := Prepare(db, req, seen, expected, id);
      result.Commit? ==> Lookup(result.db.prots, s) == AfterOp(Lookup(db.prots, s), CopyOp(db, req, result, s))
  {
    hide Prepare, InheritGlobal;
    PrepareRows(db, req, seen, expected, id);
  }

  lemma GrantRow(db: Db, slot: Slot, level: int, s: Slot)
    ensures Lookup(GrantTx(db, slot, level).prots, s) ==
      if slot == s then Some(Grant(Lookup(db.prots, s), GlobalOf(db, s), level)) else Lookup(db.prots, s)
  {
    hide Grant, SyncRound, LevelInForce;
  }

  lemma ReplaceRow(db: Db, list: DailyList, s: Slot)
    requires WorldOk(WorldOf(db)) && ListOk(list)
    ensures Lookup(ReplaceTx(db, list).prots, s) == AfterOp(Lookup(db.prots, s), ListOp(db, list, s))
  {
    hide ReplaceTx, Delist, Enlist;
    ReplacedRows(db, list);
  }

  lemma BreachRow(db: Db, id: RoundId, token: Token, outcome: Outcome, settle: bool, s: Slot)
    ensures Lookup(PrepareOutcomeTx(db, id, token, outcome, settle).0.prots, s) ==
      AfterOp(Lookup(db.prots, s),
              if Breaches(db, PrepareOutcomeStep(id, token, outcome, settle), s) then Some(Broken) else None)
  {
    hide FeedAll, FeedResults, Settled, PrepareFixing;
  }

  lemma DrawKeepsRows(db: Db, date: Date, user: UserId, pig: PigId, locked: set<RoundId>)
    ensures DrawTx(db, date, user, pig, locked).prots == db.prots && MakeupTx(db, date, user, pig).prots == db.prots
  {
    hide Draw, Activate;
  }

  lemma ReconcileKeepsRows(db: Db, date: Date, user: UserId, pig: PigId, handled: Option<RoundId>)
    ensures ReconcileTx(db, date, user, pig, handled).prots == db.prots
  {
    hide Reconcile;
  }

  lemma ClaimKeepsRows(db: Db, poll: ClaimRequest, leases: map<RoundId, Token>, notices: map<RoundId, Token>)
    ensures ClaimTx(db, poll, leases, notices).prots == db.prots
  {
    hide ClaimedRow;
  }

  lemma FeedKeepsRows(db: Db, date: Date, user: UserId, source: FeedSource)
    ensures FeedTx(db, date, user, source).prots == db.prots
  {
    hide FeedAll;
  }

  lemma DeliveryRows(db: Db, id: RoundId, token: Token, outcome: Outcome, action: NoticeAction, today: Date)
    ensures NoticeTx(db, id, token, action, today).0.prots == db.prots
    ensures SaveOutcomeTx(db, id, token, outcome).0.prots == db.prots
    ensures MarkSendingTx(db, id, token).0.prots == db.prots
    ensures CompleteTx(db, id, token).0.prots == db.prots
    ensures ReleaseTx(db, id, token).0.prots == db.prots
  {
    hide MoveNotice, SaveOutcome, MarkSending, Complete, Release;
  }

  predicate EditsRows(step: Step) {
    step.PrepareStep? || step.ReplyStep? || step.GrantStep? || step.ReplaceStep? || step.PrepareOutcomeStep?
  }

  lemma OtherStepsKeepRows(sys: Sys, step: Step)
    requires !EditsRows(step)
    ensures Next(sys, step).db.prots == sys.db.prots
  {
    hide RoastTx, ForceTx, RefillTx, FeedTx, Prepare, DrawTx, MakeupTx, GrantTx, ReplaceTx, ReconcileTx, ClaimTx,
         NoticeTx, PrepareOutcomeTx,
         SaveOutcomeTx, MarkSendingTx, CompleteTx, ReleaseTx, Minted, RealRoll;
    match step
    case DrawStep(date, user, pig, locked) => DrawKeepsRows(sys.db, date, user, pig, locked);
    case MakeupStep(date, user, pig) => DrawKeepsRows(sys.db, date, user, pig, {});
    case JobStep(job) => if job.NeedApply? { ReconcileKeepsRows(sys.db, job.date, job.target, job.pig, job.handled); }
    case ClaimStep(claim, leases, notices) => ClaimKeepsRows(sys.db, claim, leases, notices);
    case NoticeStep(id, token, action, today) => DeliveryRows(sys.db, id, token, Outcome(true, 0), action, today);
    case SaveOutcomeStep(id, token, outcome) => DeliveryRows(sys.db, id, token, outcome, GiveBack, 0);
    case SendingStep(id, token) => DeliveryRows(sys.db, id, token, Outcome(true, 0), GiveBack, 0);
    case CompleteStep(id, token) => DeliveryRows(sys.db, id, token, Outcome(true, 0), GiveBack, 0);
    case ReleaseStep(id, token) => DeliveryRows(sys.db, id, token, Outcome(true, 0), GiveBack, 0);
    case RoastStep(user, now, cooldown, maxCharges) => UsageOnly(sys.db, user, now, cooldown, maxCharges);
    case ForceStep(user, date) => UsageOnlyForce(sys.db, user, date);
    case RefillStep(users, max, now) => UsageOnlyRefill(sys.db, users, max, now);
    case FeedStep(date, user, source) => FeedKeepsRows(sys.db, date, user, source);
    case _ =>
  }

  /** Every step treats the row of every slot as its row operation says. */
  lemma RowStep(sys: Sys, step: Step, s: Slot)
    requires Inv(sys.db) && Enabled(sys, step)
    ensures Lookup(Next(sys, step).db.prots, s) == AfterOp(Lookup(sys.db.prots, s), RowOpOf(sys, step, s))
  {
    hide Inv, Prepare, GrantTx, ReplaceTx, PrepareOutcomeTx, ClaimOk, FreshTokens, Breaches, ApplyOp, CopyOp, ListOp,
         ListOk, WorldOk, Grant;
    InvWorld(sys.db);
    if !EditsRows(step) {
      OtherStepsKeepRows(sys, step);
    } else {
      match step
      case PrepareStep(req, seen, unused) =>
        CopyRow(sys.db, req, seen, None, unused, s);
        ConflictRow(sys, req, Prepare(sys.db, req, seen, None, unused), s);
      case ReplyStep(req, seen, bound) =>
        CopyRow(sys.db, req, seen, Some(bound), bound, s);
        ConflictRow(sys, req, Prepare(sys.db, req, seen, Some(bound), bound), s);
      case GrantStep(slot, level) =>
        GrantRow(sys.db, slot, level, s);
        GrantedOk(sys.db, s, level);
      case ReplaceStep(list) => ReplaceRow(sys.db, list, s);
      case PrepareOutcomeStep(id, token, outcome, settle) => BreachRow(sys.db, id, token, outcome, settle, s);
    }
  }

  lemma ConflictRow(sys: Sys, req: Request, result: Result, s: Slot)
    ensures result.Conflict? ==> CopyOp(sys.db, req, result, s).None?
  {
  }

  lemma RowOpOk(sys: Sys, step: Step, s: Slot)
    requires Inv(sys.db) && Enabled(sys, step) && RowOpOf(sys, step, s).Some?
    ensures OpOk(RowOpOf(sys, step, s).value)
  {
    hide Inv, Prepare, Breaches, OpOk, CopyOp, ListOp, ListOk, WorldOk, ClaimOk, FreshTokens;
    InvWorld(sys.db);
    match step
    case PrepareStep(req, seen, unused) => CopyOk(sys.db, req, Prepare(sys.db, req, seen, None, unused), s);
    case ReplyStep(req, seen, bound) => CopyOk(sys.db, req, Prepare(sys.db, req, seen, Some(bound), bound), s);
    case GrantStep(_, level) => GrantedOk(sys.db, s, level);
    case ReplaceStep(list) => ListOpOk(sys.db, list, s);
    case PrepareOutcomeStep(_, _, _, _) => BrokenOk();
  }

  lemma CopyOk(db: Db, req: Request, result: Result, s: Slot)
    requires WorldOk(WorldOf(db))
    ensures CopyOp(db, req, result, s).Some? ==> OpOk(CopyOp(db, req, result, s).value)
  {
    hide ProtOk;
    GlobalOk(db, s);
  }

  lemma GrantedOk(db: Db, s: Slot, level: int)
    requires WorldOk(WorldOf(db)) && 1 <= level <= MAX_LEVEL
    ensures OpOk(Granted(level, GlobalOf(db, s)))
    ensures ApplyOp(Lookup(db.prots, s), Granted(level, GlobalOf(db, s))) ==
      Some(Grant(Lookup(db.prots, s), GlobalOf(db, s), level))
  {
    hide ProtOk, Grant;
    GlobalOk(db, s);
  }

  lemma ListOpOk(db: Db, list: DailyList, s: Slot)
    requires WorldOk(WorldOf(db)) && ListOk(list)
    ensures ListOp(db, list, s).Some? ==> OpOk(ListOp(db, list, s).value)
  {
    hide ProtOk;
    GlobalOk(db, s);
    GlobalOk(db, s.(date := s.date - 1));
    DaysOk(Yesterday(db, s));
  }

  lemma BrokenOk()
    ensures OpOk(Broken)
  {
  }

  // ---------------------------------------------------------------- a row over a run

  /** The operations on the row of a slot that a run performs from state i to state j. */
  function OpsBetween(states: seq<Sys>, steps: seq<Step>, i: nat, j: nat, s: Slot): seq<RowOp>
    requires |states| == |steps| + 1 && i <= j < |states|
    decreases j
  {
    if j == i then [] else WithOp(OpsBetween(states, steps, i, j - 1, s), RowOpOf(states[j - 1], steps[j - 1], s))
  }

  function WithOp(ops: seq<RowOp>, op: Option<RowOp>): seq<RowOp> {
    if op.Some? then ops + [op.value] else ops
  }

  lemma ApplyWithOp(row: Option<Prot>, ops: seq<RowOp>, op: Option<RowOp>)
    ensures ApplyOps(row, WithOp(ops, op)) == AfterOp(ApplyOps(row, ops), op)
    ensures Breaks(WithOp(ops, op)) == Breaks(ops) + if op == Some(Broken) then 1 else 0
  {
    if op.Some? {
      assert (ops + [op.value])[..|ops|] == ops;
    }
  }

  /** Between two states of a run the row of a slot changes exactly by its row operations. */
  lemma {:induction false} RowBetween(states: seq<Sys>, steps: seq<Step>, i: nat, j: nat, s: Slot)
    requires Runs(states, steps) && i <= j < |states|
    ensures Lookup(states[j].db.prots, s) == ApplyOps(Lookup(states[i].db.prots, s), OpsBetween(states, steps, i, j, s))
    ensures forall k :: 0 <= k < |OpsBetween(states, steps, i, j, s)| ==> OpOk(OpsBetween(states, steps, i, j, s)[k])
    decreases j
  {
    hide Next, Enabled, Initial, RowOpOf, ApplyOp, OpOk, SysOk;
    if i < j {
      RowBetween(states, steps, i, j - 1, s);
      RunIsOk(states, steps, j - 1);
      SysInv(states[j - 1]);
      RowStep(states[j - 1], steps[j - 1], s);
      if RowOpOf(states[j - 1], steps[j - 1], s).Some? { RowOpOk(states[j - 1], steps[j - 1], s); }
      ApplyWithOp(Lookup(states[i].db.prots, s), OpsBetween(states, steps, i, j - 1, s),
                  RowOpOf(states[j - 1], steps[j - 1], s));
    }
  }

  /** The protected rounds of a slot whose first outcome was fixed as a success between two states. */
  function BreachedRounds(states: seq<Sys>, steps: seq<Step>, i: nat, j: nat, s: Slot): set<RoundId>
    requires |states| == |steps| + 1 && i <= j < |states|
    decreases j
  {
    if j == i then {} else BreachedRounds(states, steps, i, j - 1, s) + BreachedBy(states[j - 1].db, steps[j - 1], s)
  }

  function BreachedBy(db: Db, step: Step, s: Slot): set<RoundId> {
    if Breaches(db, step, s) then {step.id} else {}
  }

  /** A step breaches at most one round, which had no outcome before and has one afterwards. */
  lemma BreachFixes(sys: Sys, step: Step, s: Slot)
    ensures RowOpOf(sys, step, s) == Some(Broken) <==> BreachedBy(sys.db, step, s) != {}
    ensures |BreachedBy(sys.db, step, s)| <= 1
    ensures forall id :: id in BreachedBy(sys.db, step, s) ==>
      && id in sys.db.rounds && sys.db.rounds[id].outcome.None?
      && id in Next(sys, step).db.rounds && Next(sys, step).db.rounds[id].outcome.Some?
  {
    hide Prepare, FeedAll, FeedResults, Settled, BrokenThrough;
    if Breaches(sys.db, step, s) {
      BreachOutcome(sys.db, step.id, step.token, step.outcome, step.settle);
    }
  }

  lemma BreachOutcome(db: Db, id: RoundId, token: Token, outcome: Outcome, settle: bool)
    requires id in db.rounds && PrepareFixing(db.rounds[id], token, outcome) == First
    ensures db.rounds[id].outcome.None?
    ensures id in PrepareOutcomeTx(db, id, token, outcome, settle).0.rounds
    ensures PrepareOutcomeTx(db, id, token, outcome, settle).0.rounds[id].outcome == Some(outcome)
  {
    hide FeedAll, FeedResults, Settled, BrokenThrough;
  }

  /** Every round is counted once: its outcome is written once. */
  lemma {:induction false} BreaksAreRounds(states: seq<Sys>, steps: seq<Step>, i: nat, j: nat, s: Slot)
    requires Runs(states, steps) && i <= j < |states|
    ensures Breaks(OpsBetween(states, steps, i, j, s)) == |BreachedRounds(states, steps, i, j, s)|
    ensures forall id :: id in BreachedRounds(states, steps, i, j, s) ==>
      id in states[j].db.rounds && states[j].db.rounds[id].outcome.Some?
    decreases j
  {
    hide Next, Enabled, Initial, RowOpOf, BreachedBy, SysOk, Settles;
    if i < j {
      BreaksAreRounds(states, steps, i, j - 1, s);
      var sys, step := states[j - 1], steps[j - 1];
      var before, now := BreachedRounds(states, steps, i, j - 1, s), BreachedBy(sys.db, step, s);
      ApplyWithOp(None, OpsBetween(states, steps, i, j - 1, s), RowOpOf(sys, step, s));
      BreachFixes(sys, step, s);
      forall id | id in before
        ensures id in states[j].db.rounds && states[j].db.rounds[id].outcome.Some?
      {
        OutcomeStays(states, steps, j - 1, id);
      }
      assert before !! now;
      assert |before + now| == |before| + |now|;
    }
  }

  lemma OutcomeStays(states: seq<Sys>, steps: seq<Step>, i: nat, id: RoundId)
    requires Runs(states, steps) && i < |steps| && id in states[i].db.rounds && states[i].db.rounds[id].outcome.Some?
    ensures id in states[i + 1].db.rounds && states[i + 1].db.rounds[id].outcome.Some?
  {
    hide Next, Enabled, Initial;
    WriteOnce(states, steps, i, i + 1, id);
  }

  /** Protection floor over runs: a grant lifts the level in force to the granted one if that is higher; from then on,
      whatever else happens on the service, the row survives, its count grows by exactly the number of protected rounds
      that were first fixed as a success, and its level is at least the granted one and one more for each of them, up
      to five. */
  lemma GrantHolds(states: seq<Sys>, steps: seq<Step>, i: nat, j: nat)
    requires Runs(states, steps) && i < j < |states| && steps[i].GrantStep?
    ensures var s, level := steps[i].slot, steps[i].level;
      var before := Basis(Lookup(states[i].db.prots, s), GlobalOf(states[i].db, s));
      var breaches := |BreachedRounds(states, steps, i + 1, j, s)|;
      && s in states[i + 1].db.prots && s in states[j].db.prots
      && Level(states[i + 1].db.prots[s]) == (if before.Some? then Max(Level(before.value), level) else level)
      && Level(states[j].db.prots[s]) >= Min(5, level + breaches) >= level
      && states[j].db.prots[s].count == states[i + 1].db.prots[s].count + breaches
  {
    hide Next, Enabled, Initial, SysOk, Inv, OpOk, Grant, ProtOk, Basis, Level, LevelsOf, SourcesOf, ApplyOps, Breaks,
         OpsBetween, BreachedRounds, WorldOk, V.LevelFrom, V.AwardOf;
    var s, level := steps[i].slot, steps[i].level;
    GrantIsEnabled(states[i], steps[i]);
    RunIsOk(states, steps, i);
    SysInv(states[i]);
    InvWorld(states[i].db);
    GlobalOk(states[i].db, s);
    RowIsOk(states[i].db, s);
    GrantedRow(states[i], steps[i]);
    RowBetween(states, steps, i + 1, j, s);
    BreaksAreRounds(states, steps, i + 1, j, s);
    var ops := OpsBetween(states, steps, i + 1, j, s);
    ProtectionFloor(Lookup(states[i].db.prots, s), GlobalOf(states[i].db, s), level, ops);
    GrantAwards(Lookup(states[i].db.prots, s), GlobalOf(states[i].db, s), level);
    V.FloorClimbs(Grant(Lookup(states[i].db.prots, s), GlobalOf(states[i].db, s), level), level, ops);
  }

  lemma GrantIsEnabled(sys: Sys, step: Step)
    requires Enabled(sys, step) && step.GrantStep?
    ensures 1 <= step.level <= 5
  {
  }

  lemma RowIsOk(db: Db, s: Slot)
    requires WorldOk(WorldOf(db))
    ensures OptionOk(Lookup(db.prots, s))
  {
    if s in db.prots { ProtAt(WorldOf(db), s); }
  }

  lemma GrantAwards(row: Option<Prot>, global: Option<Prot>, level: int)
    requires OptionOk(row) && OptionOk(global) && 1 <= level <= 5
    ensures var q := Grant(row, global, level);
      ProtOk(q) && V.AwardOf(q, V.Manual).Some? && level <= V.LevelFrom(q, V.Manual)
  {
    hide ProtOk, Grant, V.AwardOf;
    GrantKeepsOk(row, global, level);
    V.GrantEffect(row, global, level);
    V.LevelFromIs(Grant(row, global, level), V.Manual);
  }

  /** From state i to state j no grant names the slot and no list covers it. */
  predicate Unedited(steps: seq<Step>, i: nat, j: nat, s: Slot)
    requires i <= j <= |steps|
  {
    forall k :: i <= k < j ==>
      !(steps[k].GrantStep? && steps[k].slot == s) && !(steps[k].ReplaceStep? && Covers(steps[k].list, s))
  }

  lemma UneditedOp(sys: Sys, step: Step, s: Slot)
    requires !(step.GrantStep? && step.slot == s) && !(step.ReplaceStep? && Covers(step.list, s))
    ensures var op := RowOpOf(sys, step, s);
      op.Some? ==> op.value.Broken? || op.value.Inherited?
  {
    hide Prepare, Breaches;
  }

  lemma {:induction false} UneditedOps(states: seq<Sys>, steps: seq<Step>, i: nat, j: nat, s: Slot)
    requires |states| == |steps| + 1 && i <= j <= |steps| && Unedited(steps, i, j, s)
    ensures V.OnlyBreaks(OpsBetween(states, steps, i, j, s))
    decreases j
  {
    hide RowOpOf;
    if i < j {
      UneditedOps(states, steps, i, j - 1, s);
      UneditedOp(states[j - 1], steps[j - 1], s);
      WithLegal(OpsBetween(states, steps, i, j - 1, s), RowOpOf(states[j - 1], steps[j - 1], s));
    }
  }

  lemma WithLegal(ops: seq<RowOp>, op: Option<RowOp>)
    requires V.OnlyBreaks(ops) && (op.Some? ==> op.value.Broken? || op.value.Inherited?)
    ensures V.OnlyBreaks(WithOp(ops, op))
  {
  }

  /** A level climbs with the successes: while no grant and no list touches a row, its level is the earlier one and one
      more for every protected round of its slot first fixed as a success since, up to five, and every round that waits
      in the slot asks for one more fire than that. */
  lemma LevelClimbs(states: seq<Sys>, steps: seq<Step>, i: nat, j: nat, s: Slot)
    requires Runs(states, steps) && i <= j < |states| && s in states[i].db.prots && Unedited(steps, i, j, s)
    ensures s in states[j].db.prots
    ensures var climbed := Min(5, Level(states[i].db.prots[s]) + |BreachedRounds(states, steps, i, j, s)|);
      && Level(states[j].db.prots[s]) == climbed
      && forall id :: id in states[j].db.rounds ==>
           var r := states[j].db.rounds[id];
           SlotOf(r) == s && r.status == Pending && r.mode != Super ==> r.required == 1 + climbed
  {
    hide Next, Enabled, Initial, SysOk, Inv, OpOk, ProtOk, Level, ApplyOps, Breaks, OpsBetween, BreachedRounds, WorldOk,
         Unedited;
    RunIsOk(states, steps, i);
    SysInv(states[i]);
    InvWorld(states[i].db);
    RowIsOk(states[i].db, s);
    RowBetween(states, steps, i, j, s);
    BreaksAreRounds(states, steps, i, j, s);
    UneditedOps(states, steps, i, j, s);
    V.LevelClimbsExactly(states[i].db.prots[s], OpsBetween(states, steps, i, j, s));
    forall id | id in states[j].db.rounds
      ensures var r := states[j].db.rounds[id];
        SlotOf(r) == s && r.status == Pending && r.mode != Super ==> r.required == 1 + Level(states[j].db.prots[s])
    {
      ThresholdAgreement(states, steps, j, id);
    }
  }

  /** One operation that leaves a row in place adds one to its count if it is a break-through, else nothing. */
  lemma OpCounts(row: Prot, op: Option<RowOp>)
    requires AfterOp(Some(row), op).Some?
    ensures AfterOp(Some(row), op).value.count == row.count + if op == Some(Broken) then 1 else 0
  {
    hide SourcesOf, Highest, IsHistoricalDaily, NextDay, Level;
  }

  /** The row of a slot is there in every state from i to j. */
  ghost predicate Survives(states: seq<Sys>, i: nat, j: nat, s: Slot)
    requires i <= j < |states|
  {
    forall k :: i <= k <= j ==> s in states[k].db.prots
  }

  /** Wherever a row comes from, as long as it survives its count grows by exactly the number of its slot's
      protected rounds whose first outcome was fixed in between and is a success. */
  lemma {:induction false} CountGrowsByBreaches(states: seq<Sys>, steps: seq<Step>, i: nat, j: nat, s: Slot)
    requires Runs(states, steps) && i <= j < |states| && Survives(states, i, j, s)
    ensures states[j].db.prots[s].count ==
      states[i].db.prots[s].count + |BreachedRounds(states, steps, i, j, s)|
    decreases j
  {
    hide Next, Enabled, Initial, RowOpOf, ApplyOp, ApplyOps, SysOk, BreachedRounds, Inv;
    BreaksAreRounds(states, steps, i, j, s);
    if i < j {
      CountGrowsByBreaches(states, steps, i, j - 1, s);
      BreaksAreRounds(states, steps, i, j - 1, s);
      var op := RowOpOf(states[j - 1], steps[j - 1], s);
      RunIsOk(states, steps, j - 1);
      SysInv(states[j - 1]);
      RowStep(states[j - 1], steps[j - 1], s);
      assert Lookup(states[j].db.prots, s) == AfterOp(Lookup(states[j - 1].db.prots, s), op);
      OpCounts(states[j - 1].db.prots[s], op);
      ApplyWithOp(None, OpsBetween(states, steps, i, j - 1, s), op);
    }
  }

  lemma NewRowCountsNothing(op: Option<RowOp>)
    requires AfterOp(None, op).Some?
    requires op.Some? ==> OpOk(op.value)
    ensures AfterOp(None, op).value.count == 0
  {
    hide SourcesOf, Highest, NextDay, Level, ProtOk;
  }

  /** A row's count is the number of protected rounds of its slot first fixed as a success since the row was
      created, on top of what it held if it was there from the start. */
  lemma {:induction false} CountIsBreachesSinceBirth(states: seq<Sys>, steps: seq<Step>, j: nat, s: Slot)
    returns (b: nat)
    requires Runs(states, steps) && j < |states| && s in states[j].db.prots
    ensures b <= j && Survives(states, b, j, s) && (b > 0 ==> s !in states[b - 1].db.prots)
    ensures states[j].db.prots[s].count ==
      (if b == 0 then states[0].db.prots[s].count else 0) + |BreachedRounds(states, steps, b, j, s)|
  {
    hide Next, Enabled, Initial, RowOpOf, ApplyOp, OpOk, SysOk, BreachedRounds, Inv;
    b := j;
    while b > 0 && s in states[b - 1].db.prots
      invariant b <= j && Survives(states, b, j, s)
      decreases b
    {
      b := b - 1;
    }
    CountGrowsByBreaches(states, steps, b, j, s);
    if b > 0 {
      RunIsOk(states, steps, b - 1);
      SysInv(states[b - 1]);
      RowStep(states[b - 1], steps[b - 1], s);
      if RowOpOf(states[b - 1], steps[b - 1], s).Some? { RowOpOk(states[b - 1], steps[b - 1], s); }
      assert Lookup(states[b - 1].db.prots, s) == None;
      assert Lookup(states[b].db.prots, s) == AfterOp(None, RowOpOf(states[b - 1], steps[b - 1], s));
      NewRowCountsNothing(RowOpOf(states[b - 1], steps[b - 1], s));
    }
  }

  lemma GrantedRow(sys: Sys, step: Step)
    requires step.GrantStep?
    ensures Lookup(Next(sys, step).db.prots, step.slot) ==
      Some(Grant(Lookup(sys.db.prots, step.slot), GlobalOf(sys.db, step.slot), step.level))
  {
    hide GrantTx, Grant;
    GrantRow(sys.db, step.slot, step.level, step.slot);
  }

  /** In every state each row's levels are 1 to 5 and no baseline is ahead of the row's count. */
  lemma RowsAlwaysOk(states: seq<Sys>, steps: seq<Step>, i: nat, s: Slot)
    requires Runs(states, steps) && i < |states| && s in states[i].db.prots
    ensures ProtOk(states[i].db.prots[s]) && 1 <= Level(states[i].db.prots[s]) <= MAX_LEVEL
  {
    hide Runs, SysOk;
    RunIsOk(states, steps, i);
    SysInv(states[i]);
    InvWorld(states[i].db);
    ProtAt(WorldOf(states[i].db), s);
    LevelInRange(states[i].db.prots[s]);
  }

  // ---------------------------------------------------------------- the same list twice

  lemma RowTwice(db: Db, list: DailyList, s: Slot)
    requires WorldOk(WorldOf(db)) && ListOk(list)
    ensures RowAfter(ReplaceTx(db, list), list, s) == RowAfter(db, list, s)
  {
    hide ReplaceTx, Delist, Enlist, ProtOk;
    var db' := ReplaceTx(db, list);
    ReplacedRows(db, list);
    ReplaceGlobals(db, list);
    GlobalOk(db, s);
    if Covers(list, s) {
      assert Yesterday(db', s) == Yesterday(db, s);
      ReplaceTwiceIsOnce(Lookup(db.prots, s), s.user in list.users, GlobalOf(db, s), Yesterday(db, s), list.initial);
    }
  }

  lemma ReplaceGlobals(db: Db, list: DailyList)
    ensures ReplaceTx(db, list).globals == db.globals
  {
  }

  /** A round after the list was replaced; the second replacement finds nothing to do about it. */
  lemma RoundTwice(db: Db, list: DailyList, id: RoundId)
    requires Inv(db) && ListOk(list) && id in db.rounds
    ensures var once := ReplaceTx(db, list);
      var r := once.rounds[id];
      (if Edits(once, list, SlotOf(r)) then SyncRound(r, OptionLevel(RowAfter(once, list, SlotOf(r)))) else r) == r
  {
    hide Inv, WorldOk, RowAfter, LevelInForce, L.RoundOk, Sync, RealRoll, Covers;
    var once, r0 := ReplaceTx(db, list), db.rounds[id];
    var s, level := SlotOf(r0), OptionLevel(RowAfter(db, list, SlotOf(r0)));
    InvWorld(db);
    InvAt(db, id);
    RowTwice(db, list, s);
    SlotKept(db, list, id);
    if Edits(once, list, s) {
      EditedTwice(db, list, s);
      if r0.status == Pending {
        EditedStaysProtected(db, list, s);
        ContextAtOk(WorldOf(db), s);
        LevelAfterOk(db, list, s);
        L.SyncTwiceIsOnce(r0, level, ContextAt(WorldOf(db), s));
      }
    }
  }

  lemma SlotKept(db: Db, list: DailyList, id: RoundId)
    requires id in db.rounds
    ensures SlotOf(ReplaceTx(db, list).rounds[id]) == SlotOf(db.rounds[id])
  {
    hide Edits, RowAfter, LevelInForce, Sync;
    if db.rounds[id].status == Pending {
      SyncSlot(db.rounds[id], OptionLevel(RowAfter(db, list, SlotOf(db.rounds[id]))));
    }
  }

  lemma EditedTwice(db: Db, list: DailyList, s: Slot)
    requires WorldOk(WorldOf(db)) && ListOk(list) && Edits(ReplaceTx(db, list), list, s)
    ensures Edits(db, list, s)
  {
    hide ReplaceTx, RowAfter, ProtOk, Delist, Enlist;
    ReplacedRows(db, list);
    ReplaceGlobals(db, list);
    RowAfterOk(db, list, s);
  }

  lemma LevelAfterOk(db: Db, list: DailyList, s: Slot)
    requires WorldOk(WorldOf(db)) && ListOk(list)
    ensures var level := OptionLevel(RowAfter(db, list, s)); level.Some? ==> 1 <= level.value <= 5
  {
    hide RowAfter;
    RowAfterOk(db, list, s);
    if RowAfter(db, list, s).Some? { LevelOk(RowAfter(db, list, s).value); }
  }

  /** Replacing the same daily list twice is replacing it once, waiting rounds included. */
  lemma ReplaceTwice(db: Db, list: DailyList)
    requires Inv(db) && ListOk(list)
    ensures ReplaceTx(ReplaceTx(db, list), list) == ReplaceTx(db, list)
  {
    hide Inv, WorldOk, RowAfter, Edits, SyncRound;
    var once := ReplaceTx(db, list);
    var twice := ReplaceTx(once, list);
    InvWorld(db);
    ReplaceTxLaws(db, list);
    LawfulParts(db, once);
    SafeInv(db, once);
    InvWorld(once);
    ReplacedRows(db, list);
    ReplacedRows(once, list);
    forall s
      ensures Lookup(twice.prots, s) == Lookup(once.prots, s)
    {
      RowTwice(db, list, s);
    }
    SameTable(twice.prots, once.prots);
    forall id | id in db.rounds
      ensures twice.rounds[id] == once.rounds[id]
    {
      RoundTwice(db, list, id);
    }
    assert twice.rounds == once.rounds;
  }
}
