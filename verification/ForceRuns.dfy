/** One force use, one double fire: over whole runs a user's force use of a date shows in one round at most. */
module ForceRuns {
  import opened Base
  import opened Growth
  import opened Protections
  import opened Rounds
  import opened Usage
  import opened Database
  import opened DatabaseLaws
  import opened RequestLaws
  import opened RoastSystem
  import opened RoastRuns
  import L = RoundLaws

  function ForceDate(db: Db, u: UserId): Option<Date> {
    LastForce(Lookup(db.usage, u))
  }

  /** The user's last force use, if any, is not dated after d. */
  predicate NotAfter(last: Option<Date>, d: Date) {
    last.Some? ==> last.value <= d
  }

  /** Every mark was paid by a force use of the round's date or an earlier one. */
  ghost predicate MarksDated(db: Db) {
    forall id, u :: id in db.rounds && L.Marked(db.rounds[id], u) ==>
      ForceDate(db, u).Some? && db.rounds[id].date <= ForceDate(db, u).value
  }

  /** A user's marks of one date are in one round. */
  ghost predicate MarksSingle(rounds: map<RoundId, Round>) {
    forall a, b, u ::
      && a in rounds && b in rounds && L.Marked(rounds[a], u) && L.Marked(rounds[b], u)
      && rounds[a].date == rounds[b].date
      ==> a == b
  }

  ghost predicate ForceOk(db: Db) {
    MarksDated(db) && MarksSingle(db.rounds)
  }

  /** Who the step acts for and on which date, if it may spend a force use. */
  function Dated(step: Step): Option<(UserId, Date)> {
    match step
    case PrepareStep(req, _, _) => Some((req.attacker, req.date))
    case ReplyStep(req, _, _) => Some((req.attacker, req.date))
    case ForceStep(user, date) => Some((user, date))
    case _ => None
  }

  /** Force dates only move to the date of a step that spends one. */
  ghost predicate ForceMoves(db: Db, db': Db, who: Option<(UserId, Date)>) {
    forall v {:trigger ForceDate(db', v)} :: ForceDate(db', v) != ForceDate(db, v) ==>
      who.Some? && v == who.value.0 && ForceDate(db', v) == Some(who.value.1)
  }

  /** The step is not dated before the last force use of the user it acts for. */
  predicate InDateOrder(db: Db, who: Option<(UserId, Date)>) {
    who.Some? ==> NotAfter(ForceDate(db, who.value.0), who.value.1)
  }

  lemma MarkedBefore(r: Round, r': Round, u: UserId)
    requires L.NoNewMarks(r, r') && L.Marked(r', u)
    ensures L.Marked(r, u)
  {
    hide L.Marked;
  }

  lemma DateStays(rounds: map<RoundId, Round>, rounds': map<RoundId, Round>, id: RoundId)
    requires RoundsFollow(rounds, rounds') && id in rounds
    ensures id in rounds' && rounds'[id].date == rounds[id].date
  {
    FollowAt(rounds, rounds', id);
  }

  /** No mark appears and force dates only go forward. */
  lemma ForceKept(db: Db, db': Db, who: Option<(UserId, Date)>)
    requires ForceOk(db) && RoundsFollow(db.rounds, db'.rounds) && MarksKept(db.rounds, db'.rounds)
    requires ForceMoves(db, db', who) && InDateOrder(db, who)
    ensures ForceOk(db')
  {
    hide L.Marked, RoundsFollow, ForceDate;
    forall id, u | id in db'.rounds && L.Marked(db'.rounds[id], u)
      ensures id in db.rounds && L.Marked(db.rounds[id], u) && db'.rounds[id].date == db.rounds[id].date
    {
      MarkedBefore(db.rounds[id], db'.rounds[id], u);
      DateStays(db.rounds, db'.rounds, id);
    }
    forall id, u | id in db'.rounds && L.Marked(db'.rounds[id], u)
      ensures ForceDate(db', u).Some? && db'.rounds[id].date <= ForceDate(db', u).value
    {
      assert L.Marked(db.rounds[id], u);
    }
  }

  /** A mark of the round after the request is an earlier mark or has just been paid. */
  lemma PaidMark(db: Db, db': Db, u: UserId, date: Date, touched: RoundId, id: RoundId, v: UserId)
    requires RoundsFollow(db.rounds, db'.rounds) && MarksPaid(db, db', u, date, touched)
    requires id in db'.rounds && L.Marked(db'.rounds[id], v)
    ensures || (id in db.rounds && L.Marked(db.rounds[id], v) && db'.rounds[id].date == db.rounds[id].date)
            || (id == touched && v == u && db'.rounds[id].date == date && Paid(db, db', u, date))
  {
    hide L.Marked, Paid, RoundsFollow;
    if id in db.rounds { DateStays(db.rounds, db'.rounds, id); }
    if id != touched { MarkedBefore(db.rounds[id], db'.rounds[id], v); }
  }

  lemma PaidDate(db: Db, db': Db, u: UserId, date: Date, touched: RoundId, v: UserId)
    requires MarksPaid(db, db', u, date, touched)
    ensures ForceDate(db', v) == ForceDate(db, v) || (v == u && ForceDate(db', v) == Some(date))
    ensures Paid(db, db', u, date) ==> ForceDate(db', u) == Some(date)
  {
    hide L.NoNewMarks, L.Marked;
  }

  /** Marks appear only for a force use that is newer than all earlier ones, so they cannot meet an old mark. */
  lemma ForcePaid(db: Db, db': Db, u: UserId, date: Date, touched: RoundId)
    requires ForceOk(db) && RoundsFollow(db.rounds, db'.rounds) && MarksPaid(db, db', u, date, touched)
    requires NotAfter(ForceDate(db, u), date)
    ensures ForceOk(db') && ForceMoves(db, db', Some((u, date)))
  {
    hide L.Marked, RoundsFollow;
    forall id, v | id in db'.rounds && L.Marked(db'.rounds[id], v)
      ensures ForceDate(db', v).Some? && db'.rounds[id].date <= ForceDate(db', v).value
    {
      PaidMark(db, db', u, date, touched, id, v);
      PaidDate(db, db', u, date, touched, v);
      if id in db.rounds && L.Marked(db.rounds[id], v) {
        assert ForceDate(db, v).Some? && db.rounds[id].date <= ForceDate(db, v).value;
        DateStays(db.rounds, db'.rounds, id);
      }
    }
    forall a, b, v | a in db'.rounds && b in db'.rounds && L.Marked(db'.rounds[a], v) && L.Marked(db'.rounds[b], v)
                     && db'.rounds[a].date == db'.rounds[b].date
      ensures a == b
    {
      PaidMark(db, db', u, date, touched, a, v);
      PaidMark(db, db', u, date, touched, b, v);
    }
  }

  lemma SameForce(db: Db, db': Db, who: Option<(UserId, Date)>)
    requires forall v :: LastForce(Lookup(db'.usage, v)) == LastForce(Lookup(db.usage, v))
    ensures ForceMoves(db, db', who)
  {
  }

  lemma CalmForce(db: Db, db': Db, who: Option<(UserId, Date)>)
    requires ForceOk(db) && InDateOrder(db, who) && Safe(db, db') && MarksKept(db.rounds, db'.rounds)
    requires db'.usage == db.usage
    ensures ForceOk(db') && ForceMoves(db, db', who)
  {
    hide ForceOk, MarksKept, Inv, RoundsFollow, GrowthFollows, LastForce;
    SafeParts(db, db');
    SameForce(db, db', who);
    ForceKept(db, db', who);
  }

  lemma LawfulForce(db: Db, db': Db, who: Option<(UserId, Date)>)
    requires ForceOk(db) && InDateOrder(db, who) && Lawful(db, db')
    ensures ForceOk(db') && ForceMoves(db, db', who)
  {
    hide ForceOk, Safe, MarksKept, NoticesKept, RollsKept, ForceMoves;
    CalmForce(db, db', who);
  }

  lemma UsageForce(db: Db, db': Db, who: Option<(UserId, Date)>)
    requires Inv(db) && ForceOk(db) && InDateOrder(db, who) && db' == db.(usage := db'.usage)
    requires ForceMoves(db, db', who)
    ensures ForceOk(db')
  {
    hide Inv, ForceOk, MarksKept, NoticesKept, RollsKept, Safe, ForceMoves;
    UsageLaws(db, db');
    SafeParts(db, db');
    ForceKept(db, db', who);
  }

  lemma RequestForce(db: Db, req: Request, seen: bool, expected: Option<RoundId>, id: RoundId)
    requires Inv(db) && (expected.Some? || id !in db.rounds) && ForceOk(db)
    requires NotAfter(ForceDate(db, req.attacker), req.date)
    ensures var result := Prepare(db, req, seen, expected, id);
      result.Commit? ==> ForceOk(result.db) && ForceMoves(db, result.db, Some((req.attacker, req.date)))
  {
    hide Prepare, ForceOk, Inv, Safe, RoundsFollow, MarksPaid, ForceMoves, NoticesKept, RollsKept, Opens, L.Marked,
         LastForce;
    PrepareLaws(db, req, seen, expected, id);
    var result := Prepare(db, req, seen, expected, id);
    if result.Commit? {
      SafeParts(db, result.db);
      ForcePaid(db, result.db, req.attacker, req.date, TouchedBy(result, id));
    }
  }

  lemma NothingForce(db: Db, who: Option<(UserId, Date)>)
    ensures ForceMoves(db, db, who)
  {
  }

  /** Every step keeps the marks single, as long as it is not dated before the user's last force use. */
  lemma StepKeepsForce(sys: Sys, step: Step)
    requires SysOk(sys) && Enabled(sys, step) && ForceOk(sys.db) && InDateOrder(sys.db, Dated(step))
    ensures ForceOk(Next(sys, step).db) && ForceMoves(sys.db, Next(sys, step).db, Dated(step))
  {
    hide SysOk, ForceOk, ForceMoves, Safe, Lawful, MarksKept, NoticesKept, RollsKept, RoastTx, ForceTx, RefillTx,
         FeedTx, Prepare, DrawTx, MakeupTx,
         GrantTx, ReplaceTx, ReconcileTx, ClaimTx, NoticeTx, PrepareOutcomeTx, SaveOutcomeTx, MarkSendingTx, CompleteTx,
         ReleaseTx, ClaimOk, FreshTokens, ListOk, Minted, L.NoticeKept, LastForce;
    var who := Dated(step);
    SysInv(sys);
    NothingForce(sys.db, who);
    match step
    case PrepareStep(req, seen, unused) => RequestForce(sys.db, req, seen, None, unused);
    case ReplyStep(req, seen, bound) => RequestForce(sys.db, req, seen, Some(bound), bound);
    case DrawStep(date, user, pig, locked) =>
      DrawTxLaws(sys.db, date, user, pig, locked);
      CalmForce(sys.db, DrawTx(sys.db, date, user, pig, locked), who);
    case MakeupStep(date, user, pig) =>
      MakeupTxLaws(sys.db, date, user, pig);
      LawfulForce(sys.db, MakeupTx(sys.db, date, user, pig), who);
    case JobStep(job) =>
      if job.NeedApply? {
        JobIsOk(sys, job);
        ReconcileTxLaws(sys.db, job.date, job.target, job.pig, job.handled);
        LawfulForce(sys.db, ReconcileTx(sys.db, job.date, job.target, job.pig, job.handled), who);
      }
    case GrantStep(slot, level) =>
      GrantTxLaws(sys.db, slot, level);
      LawfulForce(sys.db, GrantTx(sys.db, slot, level), who);
    case ReplaceStep(list) =>
      ReplaceTxLaws(sys.db, list);
      LawfulForce(sys.db, ReplaceTx(sys.db, list), who);
    case ClaimStep(poll, leases, notices) =>
      ClaimTxLaws(sys.db, poll, leases, notices);
      CalmForce(sys.db, ClaimTx(sys.db, poll, leases, notices), who);
    case NoticeStep(id, token, action, today) =>
      NoticeTxLaws(sys.db, id, token, action, today);
      LawfulForce(sys.db, NoticeTx(sys.db, id, token, action, today).0, who);
    case PrepareOutcomeStep(id, token, outcome, settle) =>
      PrepareOutcomeTxLaws(sys.db, id, token, outcome, settle);
      LawfulForce(sys.db, PrepareOutcomeTx(sys.db, id, token, outcome, settle).0, who);
    case SaveOutcomeStep(id, token, outcome) =>
      SaveOutcomeTxLaws(sys.db, id, token, outcome);
      LawfulForce(sys.db, SaveOutcomeTx(sys.db, id, token, outcome).0, who);
    case SendingStep(id, token) =>
      MarkSendingTxLaws(sys.db, id, token);
      LawfulForce(sys.db, MarkSendingTx(sys.db, id, token).0, who);
    case CompleteStep(id, token) =>
      CompleteTxLaws(sys.db, id, token);
      LawfulForce(sys.db, CompleteTx(sys.db, id, token).0, who);
    case ReleaseStep(id, token) =>
      ReleaseTxLaws(sys.db, id, token);
      LawfulForce(sys.db, ReleaseTx(sys.db, id, token).0, who);
    case RoastStep(user, now, cooldown, maxCharges) =>
      UsageOnly(sys.db, user, now, cooldown, maxCharges);
      SameForce(sys.db, RoastTx(sys.db, user, now, cooldown, maxCharges), who);
      UsageForce(sys.db, RoastTx(sys.db, user, now, cooldown, maxCharges), who);
    case ForceStep(user, date) =>
      UsageOnlyForce(sys.db, user, date);
      ForceStepMoves(sys.db, user, date);
      UsageForce(sys.db, ForceTx(sys.db, user, date), who);
    case RefillStep(users, max, now) =>
      UsageOnlyRefill(sys.db, users, max, now);
      SameForce(sys.db, RefillTx(sys.db, users, max, now), who);
      UsageForce(sys.db, RefillTx(sys.db, users, max, now), who);
    case FeedStep(date, user, source) =>
      FeedTxLaws(sys.db, date, user, source);
      LawfulForce(sys.db, FeedTx(sys.db, date, user, source), who);
    case _ =>
  }

  lemma JobIsOk(sys: Sys, job: Job)
    requires SysOk(sys) && job in sys.jobs && job.NeedApply?
    ensures Drawn(sys.db, job.date, job.target) == Some(job.pig)
  {
    hide Inv, NoticesOk, MintedOk, RaceOk;
  }

  lemma ForceStepMoves(db: Db, user: UserId, date: Date)
    ensures ForceMoves(db, ForceTx(db, user, date), Some((user, date)))
  {
    hide ForceTx;
    UsageOnlyForce(db, user, date);
  }

  // ---------------------------------------------------------------- runs

  /** No step is dated before the last force use of its user. */
  ghost predicate ForwardRun(states: seq<Sys>, steps: seq<Step>) {
    Runs(states, steps) && forall i :: 0 <= i < |steps| ==> InDateOrder(states[i].db, Dated(steps[i]))
  }

  lemma {:induction false} ForceAlwaysOk(states: seq<Sys>, steps: seq<Step>, i: nat)
    requires ForwardRun(states, steps) && i < |states|
    ensures ForceOk(states[i].db)
  {
    hide Next, Enabled, InDateOrder, L.Marked, WorldOk;
    if i > 0 {
      ForceAlwaysOk(states, steps, i - 1);
      RunIsOk(states, steps, i - 1);
      assert InDateOrder(states[i - 1].db, Dated(steps[i - 1]));
      StepKeepsForce(states[i - 1], steps[i - 1]);
    }
  }

  /** One force use, one double fire: a user's force use of a date is worth one normal-force round of their own
      or one double contribution, in one round of one group. */
  lemma OneForceUse(states: seq<Sys>, steps: seq<Step>, i: nat, a: RoundId, b: RoundId, u: UserId)
    requires ForwardRun(states, steps) && i < |states| && a in states[i].db.rounds && b in states[i].db.rounds
    ensures var p, q := states[i].db.rounds[a], states[i].db.rounds[b];
      L.Marked(p, u) && L.Marked(q, u) && p.date == q.date ==> a == b
  {
    hide Next, Enabled, InDateOrder, L.Marked, Initial;
    ForceAlwaysOk(states, steps, i);
  }

  predicate NotBack(first: Option<(UserId, Date)>, second: Option<(UserId, Date)>) {
    first.Some? && second.Some? && first.value.0 == second.value.0 ==> first.value.1 <= second.value.1
  }

  /** Each user's requests never go back in date, nor behind the force use they started with. */
  ghost predicate DatesNeverGoBack(states: seq<Sys>, steps: seq<Step>)
    requires states != []
  {
    && (forall h, i :: 0 <= h < i < |steps| ==> NotBack(Dated(steps[h]), Dated(steps[i])))
    && (forall i :: 0 <= i < |steps| && Dated(steps[i]).Some? ==> InDateOrder(states[0].db, Dated(steps[i])))
  }

  /** Requests that never go back in date are in date order. */
  lemma {:induction false} NeverBackIsForward(states: seq<Sys>, steps: seq<Step>, n: nat)
    requires Runs(states, steps) && DatesNeverGoBack(states, steps) && n < |states|
    ensures ForceOk(states[n].db)
    ensures forall i :: 0 <= i < n ==> InDateOrder(states[i].db, Dated(steps[i]))
    ensures forall i :: n <= i < |steps| ==> InDateOrder(states[n].db, Dated(steps[i]))
  {
    hide Next, Enabled, L.Marked, WorldOk, LastForce;
    if n > 0 {
      NeverBackIsForward(states, steps, n - 1);
      RunIsOk(states, steps, n - 1);
      StepKeepsForce(states[n - 1], steps[n - 1]);
      var who := Dated(steps[n - 1]);
      forall i | n <= i < |steps|
        ensures InDateOrder(states[n].db, Dated(steps[i]))
      {
        var next := Dated(steps[i]);
        assert InDateOrder(states[n - 1].db, next);
        if next.Some? && ForceDate(states[n].db, next.value.0) != ForceDate(states[n - 1].db, next.value.0) {
          assert who.value.0 == next.value.0;
        }
      }
    }
  }

  lemma NeverBackIsForwardRun(states: seq<Sys>, steps: seq<Step>)
    requires Runs(states, steps) && DatesNeverGoBack(states, steps)
    ensures ForwardRun(states, steps)
  {
    hide Next, Enabled, Initial, InDateOrder, DatesNeverGoBack;
    NeverBackIsForward(states, steps, |steps|);
  }

  // ---------------------------------------------------------------- dates that go back

  /** A normal-force request of user 1 against user 2. */
  function ForcedRequest(group: GroupId, date: Date): Request {
    Request(1, 2, group, date, Normal, 7, true, 2, 0, None, None)
  }

  lemma OpensForced(db: Db, group: GroupId, date: Date, id: RoundId)
    requires db.prots == map[] && db.globals == map[] && Slot(date, group, 2) !in db.slots
    requires ForceDate(db, 1) != Some(date)
    ensures var req := ForcedRequest(group, date);
      var r := Open(req, None, None);
      Prepare(db, req, false, None, id)
      == Commit(db.(usage := SpendForce(db, req).usage, rounds := db.rounds[id := r],
                    slots := db.slots[Slot(date, group, 2) := id]),
                Created, Some(id))
  {
    hide Open;
    var req := ForcedRequest(group, date);
    OpenShape(req, None, None);
    SpendForceUsage(db, req);
  }

  lemma ForcedIsMarked(group: GroupId, date: Date)
    ensures var r := Open(ForcedRequest(group, date), None, None); L.Marked(r, 1) && r.date == date
  {
  }

  lemma ForcedStep(sys: Sys, group: GroupId, date: Date, id: RoundId) returns (sys': Sys, step: Step)
    requires sys.db.prots == map[] && sys.db.globals == map[] && Slot(date, group, 2) !in sys.db.slots
    requires ForceDate(sys.db, 1) != Some(date) && id !in sys.db.rounds
    ensures Enabled(sys, step) && sys' == Next(sys, step)
    ensures sys'.db.prots == map[] && sys'.db.globals == map[] && ForceDate(sys'.db, 1) == Some(date)
    ensures sys'.db.rounds == sys.db.rounds[id := Open(ForcedRequest(group, date), None, None)]
    ensures sys'.db.slots == sys.db.slots[Slot(date, group, 2) := id]
    ensures sys'.db.growth == sys.db.growth && forall v :: v != 1 ==> ForceDate(sys'.db, v) == ForceDate(sys.db, v)
  {
    hide Prepare, Open, SpendForce;
    step := PrepareStep(ForcedRequest(group, date), false, id);
    sys' := Next(sys, step);
    OpensForced(sys.db, group, date, id);
    SpendForceLaws(sys.db, ForcedRequest(group, date));
  }

  /** When the dates of a user's requests go back, a force use of the same date is granted again: after
      requests for dates 1, 2 and 1 user 1 owns two normal-force rounds of date 1. */
  lemma ForceTwiceWhenDatesGoBack() returns (states: seq<Sys>, steps: seq<Step>)
    ensures Runs(states, steps) && |steps| == 3
    ensures var rounds := states[3].db.rounds;
      && 11 in rounds && 13 in rounds && rounds[11].date == rounds[13].date == 1
      && L.Marked(rounds[11], 1) && L.Marked(rounds[13], 1)
  {
    hide Next, Enabled, Open, L.Marked;
    var s0 := Sys(EMPTY, multiset{}, {}, {});
    assert Initial(s0) by { EmptyWorld(); }
    var s1, a := ForcedStep(s0, 5, 1, 11);
    var s2, b := ForcedStep(s1, 5, 2, 12);
    var s3, c := ForcedStep(s2, 6, 1, 13);
    ForcedIsMarked(5, 1);
    ForcedIsMarked(6, 1);
    states, steps := [s0, s1, s2, s3], [a, b, c];
  }

  lemma EmptyWorld()
    ensures WorldOk(WorldOf(EMPTY))
  {
  }
}
