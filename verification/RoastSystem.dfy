/** The whole service as a state machine: every endpoint is one or more committed steps, and any steps of
    any requests may come in between.

    What a request still owes after its commit is a job: prepare re-reads the target's draw and then
    reconciles, a draw only reconciles. */
module RoastSystem {
  import opened Base
  import opened Growth
  import opened Protections
  import opened Rounds
  import opened Usage
  import opened Database
  import opened DatabaseLaws
  import opened RequestLaws
  import L = RoundLaws

  datatype Job =
    | NeedRead(date: Date, target: UserId, handled: Option<RoundId>)
    | NeedApply(date: Date, target: UserId, pig: PigId, handled: Option<RoundId>)

  /** What a waiting notice shows its readers. */
  datatype View = View(round: RoundId, members: seq<Member>, required: nat, mode: Mode, pig: Option<PigId>)

  /** `minted` remembers what every notice token was minted for and `used` every token ever drawn. */
  datatype Sys = Sys(db: Db, jobs: multiset<Job>, minted: set<(Token, View)>, used: set<Token>)

  datatype Step =
    | PrepareStep(req: Request, seen: bool, unused: RoundId)
    | ReplyStep(req: Request, seen: bool, bound: RoundId)
    | DrawStep(date: Date, user: UserId, pig: PigId, locked: set<RoundId>)
    | RedrawStep(date: Date, user: UserId)
    | MakeupStep(date: Date, user: UserId, pig: PigId)
    | JobStep(job: Job)
    | GrantStep(slot: Slot, level: int)
    | ReplaceStep(list: DailyList)
    | ClaimStep(poll: ClaimRequest, leases: map<RoundId, Token>, notices: map<RoundId, Token>)
    | NoticeStep(id: RoundId, token: Token, action: NoticeAction, today: Date)
    | PrepareOutcomeStep(id: RoundId, token: Token, outcome: Outcome, settle: bool)
    | SaveOutcomeStep(id: RoundId, token: Token, outcome: Outcome)
    | SendingStep(id: RoundId, token: Token)
    | CompleteStep(id: RoundId, token: Token)
    | ReleaseStep(id: RoundId, token: Token)
    | RoastStep(user: UserId, now: int, cooldown: Option<int>, maxCharges: Option<int>)
    | ForceStep(user: UserId, date: Date)
    | RefillStep(users: set<UserId>, max: int, now: int)
    | FeedStep(date: Date, user: UserId, source: FeedSource)

  // ---------------------------------------------------------------- steps

  function TokensOf(m: map<RoundId, Token>): set<Token> {
    set id | id in m :: m[id]
  }

  /** Tokens come from an unused supply. */
  ghost predicate FreshTokens(leases: map<RoundId, Token>, notices: map<RoundId, Token>, used: set<Token>) {
    && TokensOf(leases) !! used && TokensOf(notices) !! used && TokensOf(leases) !! TokensOf(notices)
    && (forall a, b :: a in leases && b in leases && a != b ==> leases[a] != leases[b])
    && (forall a, b :: a in notices && b in notices && a != b ==> notices[a] != notices[b])
  }

  ghost predicate Enabled(sys: Sys, step: Step) {
    match step
    case PrepareStep(_, _, id) => id !in sys.db.rounds
    case ReplyStep(req, _, _) =>
      && req.mode == NoForce && req.gathering && req.attacker != req.target
      && Drawn(sys.db, req.date, req.attacker).Some?
    case DrawStep(date, user, _, _) => date !in At(sys.db.growth, user).rolls
    case RedrawStep(date, user) => Drawn(sys.db, date, user).Some?
    case MakeupStep(date, user, _) => date !in At(sys.db.growth, user).rolls
    case JobStep(job) => job in sys.jobs
    case GrantStep(_, level) => 1 <= level <= MAX_LEVEL
    case ReplaceStep(list) => ListOk(list)
    case ClaimStep(poll, leases, notices) =>
      ClaimOk(sys.db, poll, leases, notices) && FreshTokens(leases, notices, sys.used)
    case _ => true
  }

  function RunJob(sys: Sys, job: Job): Sys {
    var rest := sys.jobs - multiset{job};
    match job
    case NeedRead(date, target, handled) =>
      var roll := Drawn(sys.db, date, target);
      sys.(jobs := if roll.Some? then rest + multiset{NeedApply(date, target, roll.value, handled)} else rest)
    case NeedApply(date, target, pig, handled) =>
      sys.(jobs := rest, db := ReconcileTx(sys.db, date, target, pig, handled))
  }

  /** Only these answers are followed by a reconciliation. */
  predicate IsReconciled(verdict: Verdict) {
    verdict in {Created, Joined, Upgraded, AlreadyJoined}
  }

  /** After a conflict nothing has happened; a retry is another step. */
  function Answer(sys: Sys, req: Request, result: Result): Sys {
    if result.Conflict? then sys
    else
      sys.(db := result.db,
           jobs :=
             if IsReconciled(result.verdict) then sys.jobs + multiset{NeedRead(req.date, req.target, result.round)}
             else sys.jobs)
  }

  function ViewOf(id: RoundId, r: Round): View {
    View(id, r.members, r.required, r.mode, r.pig)
  }

  /** The notices that go out with their tokens. */
  function Minted(db: Db, notices: map<RoundId, Token>): set<(Token, View)> {
    set id | id in notices && id in db.rounds :: (notices[id], ViewOf(id, db.rounds[id]))
  }

  function RefillTx(db: Db, users: set<UserId>, max: int, now: int): Db {
    db.(usage := FillUp(db.usage, users, max, now))
  }

  function RoastTx(db: Db, user: UserId, now: int, cooldown: Option<int>, maxCharges: Option<int>): Db {
    db.(usage := db.usage[user := ConsumeRoast(Lookup(db.usage, user), now,
                                               ClampChargeSettings(maxCharges, cooldown)).0])
  }

  function ForceTx(db: Db, user: UserId, date: Date): Db {
    db.(usage := db.usage[user := ConsumeForce(Lookup(db.usage, user), date).0])
  }

  function FeedTx(db: Db, date: Date, user: UserId, source: FeedSource): Db {
    db.(growth := FeedAll(db.growth, date, [user], source))
  }

  function Next(sys: Sys, step: Step): Sys {
    match step
    case PrepareStep(req, seen, id) => Answer(sys, req, Prepare(sys.db, req, seen, None, id))
    case ReplyStep(req, seen, bound) =>
      var result := Prepare(sys.db, req, seen, Some(bound), bound);
      if result.Conflict? then sys else sys.(db := result.db)
    case DrawStep(date, user, pig, locked) =>
      sys.(db := DrawTx(sys.db, date, user, pig, locked), jobs := sys.jobs + multiset{NeedApply(date, user, pig, None)})
    case RedrawStep(date, user) =>
      var roll := Drawn(sys.db, date, user);
      if roll.Some? then sys.(jobs := sys.jobs + multiset{NeedApply(date, user, roll.value, None)}) else sys
    case MakeupStep(date, user, pig) => sys.(db := MakeupTx(sys.db, date, user, pig))
    case JobStep(job) => RunJob(sys, job)
    case GrantStep(slot, level) => sys.(db := GrantTx(sys.db, slot, level))
    case ReplaceStep(list) => sys.(db := ReplaceTx(sys.db, list))
    case ClaimStep(poll, leases, notices) =>
      Sys(ClaimTx(sys.db, poll, leases, notices), sys.jobs, sys.minted + Minted(sys.db, notices),
          sys.used + TokensOf(leases) + TokensOf(notices))
    case NoticeStep(id, token, action, today) => sys.(db := NoticeTx(sys.db, id, token, action, today).0)
    case PrepareOutcomeStep(id, token, outcome, settle) =>
      sys.(db := PrepareOutcomeTx(sys.db, id, token, outcome, settle).0)
    case SaveOutcomeStep(id, token, outcome) => sys.(db := SaveOutcomeTx(sys.db, id, token, outcome).0)
    case SendingStep(id, token) => sys.(db := MarkSendingTx(sys.db, id, token).0)
    case CompleteStep(id, token) => sys.(db := CompleteTx(sys.db, id, token).0)
    case ReleaseStep(id, token) => sys.(db := ReleaseTx(sys.db, id, token).0)
    case RoastStep(user, now, cooldown, maxCharges) => sys.(db := RoastTx(sys.db, user, now, cooldown, maxCharges))
    case ForceStep(user, date) => sys.(db := ForceTx(sys.db, user, date))
    case RefillStep(users, max, now) => sys.(db := RefillTx(sys.db, users, max, now))
    case FeedStep(date, user, source) => sys.(db := FeedTx(sys.db, date, user, source))
  }

  // ---------------------------------------------------------------- what every state satisfies

  predicate HasJob(jobs: multiset<Job>, date: Date, target: UserId) {
    exists job :: job in jobs && job.date == date && job.target == target
  }

  /** A job that applies a draw applies the real one. */
  ghost predicate JobsOk(jobs: multiset<Job>, growth: map<UserId, UserGrowth>) {
    forall job :: job in jobs && job.NeedApply? ==> RealRoll(At(growth, job.target), job.date) == Some(job.pig)
  }

  /** The target has arrived and the waiting round does not know it. */
  predicate Unaware(r: Round, growth: map<UserId, UserGrowth>) {
    r.status == Pending && r.pig.None? && RealRoll(At(growth, r.target), r.date).Some?
  }

  /** Somebody is still going to tell every unaware round. */
  ghost predicate RaceOk(rounds: map<RoundId, Round>, growth: map<UserId, UserGrowth>, jobs: multiset<Job>) {
    forall id :: id in rounds && Unaware(rounds[id], growth) ==> HasJob(jobs, rounds[id].date, rounds[id].target)
  }

  /** A live notice token was minted for the round exactly as it is now. */
  ghost predicate NoticesOk(rounds: map<RoundId, Round>, minted: set<(Token, View)>) {
    forall id :: id in rounds && NoticeToken(rounds[id].notice).Some? ==>
      (NoticeToken(rounds[id].notice).value, ViewOf(id, rounds[id])) in minted
  }

  /** No token is minted twice. */
  ghost predicate MintedOk(minted: set<(Token, View)>, used: set<Token>) {
    && (forall m :: m in minted ==> m.0 in used)
    && (forall m, n :: m in minted && n in minted && m.0 == n.0 ==> m == n)
  }

  ghost predicate SysOk(sys: Sys) {
    && Inv(sys.db)
    && JobsOk(sys.jobs, sys.db.growth)
    && RaceOk(sys.db.rounds, sys.db.growth, sys.jobs)
    && NoticesOk(sys.db.rounds, sys.minted)
    && MintedOk(sys.minted, sys.used)
  }

  /** No rounds yet; protection, growth and usage may come from earlier days. */
  ghost predicate Initial(sys: Sys) {
    && sys.db.rounds == map[] && sys.db.slots == map[] && WorldOk(WorldOf(sys.db))
    && sys.jobs == multiset{} && sys.minted == {}
  }

  lemma InitialOk(sys: Sys)
    requires Initial(sys)
    ensures SysOk(sys)
  {
    hide WorldOk, OkIn;
  }

  // ---------------------------------------------------------------- calm steps

  /** Nothing is opened, minted or drawn, and no new mark appears. */
  ghost predicate Calm(db: Db, db': Db) {
    Safe(db, db') && MarksKept(db.rounds, db'.rounds) && NoticesKept(db.rounds, db'.rounds) &&
      RollsKept(db.growth, db'.growth)
  }

  lemma LawfulIsCalm(db: Db, db': Db)
    requires Lawful(db, db')
    ensures Calm(db, db') && db'.usage == db.usage
  {
    hide Safe, MarksKept, NoticesKept, RollsKept;
  }

  lemma JobsKept(jobs: multiset<Job>, growth: map<UserId, UserGrowth>, growth': map<UserId, UserGrowth>)
    requires JobsOk(jobs, growth) && GrowthFollows(growth, growth')
    ensures JobsOk(jobs, growth')
  {
    hide At;
    if growth != growth' {
      forall job | job in jobs && job.NeedApply?
        ensures RealRoll(At(growth', job.target), job.date) == Some(job.pig)
      {
        assert Extends(At(growth, job.target), At(growth', job.target));
      }
    }
  }

  /** A round that is unaware after a change was unaware before, unless it is new or its target just arrived. */
  lemma StillUnaware(r: Round, r': Round, growth: map<UserId, UserGrowth>, growth': map<UserId, UserGrowth>)
    requires L.Evolves(r, r') && Unaware(r', growth')
    requires RealRoll(At(growth', r.target), r.date) == RealRoll(At(growth, r.target), r.date)
    ensures Unaware(r, growth) && r'.date == r.date && r'.target == r.target
  {
    hide RealRoll, At;
  }

  lemma RaceKept(rounds: map<RoundId, Round>, rounds': map<RoundId, Round>, growth: map<UserId, UserGrowth>,
                 growth': map<UserId, UserGrowth>, jobs: multiset<Job>, id: RoundId)
    requires RaceOk(rounds, growth, jobs) && RoundsFollow(rounds, rounds') && RollsKept(growth, growth')
    requires id in rounds && Unaware(rounds'[id], growth')
    ensures HasJob(jobs, rounds'[id].date, rounds'[id].target)
  {
    hide Unaware, HasJob, L.Evolves, RealRoll, At;
    assert L.Evolves(rounds[id], rounds'[id]);
    StillUnaware(rounds[id], rounds'[id], growth, growth');
  }

  lemma NoticeStays(id: RoundId, r: Round, r': Round, minted: set<(Token, View)>)
    requires L.NoticeKept(r, r') && NoticeToken(r'.notice).Some?
    requires NoticeToken(r.notice).Some? ==> (NoticeToken(r.notice).value, ViewOf(id, r)) in minted
    ensures (NoticeToken(r'.notice).value, ViewOf(id, r')) in minted
  {
  }

  lemma NoticesStay(rounds: map<RoundId, Round>, rounds': map<RoundId, Round>, minted: set<(Token, View)>)
    requires NoticesOk(rounds, minted) && NoticesKept(rounds, rounds')
    requires forall id :: id in rounds' && id !in rounds ==> rounds'[id].notice == NoNotice
    ensures NoticesOk(rounds', minted)
  {
    hide L.NoticeKept, ViewOf;
    forall id | id in rounds' && NoticeToken(rounds'[id].notice).Some?
      ensures (NoticeToken(rounds'[id].notice).value, ViewOf(id, rounds'[id])) in minted
    {
      if id in rounds { NoticeStays(id, rounds[id], rounds'[id], minted); }
    }
  }

  lemma SafeParts(db: Db, db': Db)
    requires Safe(db, db')
    ensures Inv(db') && db'.globals == db.globals && RoundsFollow(db.rounds, db'.rounds)
    ensures GrowthFollows(db.growth, db'.growth)
  {
    hide Inv, RoundsFollow, GrowthFollows;
  }

  lemma CalmKeepsSys(sys: Sys, db': Db)
    requires SysOk(sys) && Calm(sys.db, db')
    ensures SysOk(sys.(db := db'))
  {
    hide Inv, Safe, RoundsFollow, GrowthFollows, L.NoNewMarks, NoticesKept, RollsKept, NoticesOk, MintedOk, JobsOk,
         Unaware, HasJob;
    SafeParts(sys.db, db');
    JobsKept(sys.jobs, sys.db.growth, db'.growth);
    NoticesStay(sys.db.rounds, db'.rounds, sys.minted);
    forall id | id in db'.rounds && Unaware(db'.rounds[id], db'.growth)
      ensures HasJob(sys.jobs, db'.rounds[id].date, db'.rounds[id].target)
    {
      RaceKept(sys.db.rounds, db'.rounds, sys.db.growth, db'.growth, sys.jobs, id);
    }
  }

  // ---------------------------------------------------------------- requests, draws, jobs and claims

  lemma MoreJobs(jobs: multiset<Job>, job: Job, date: Date, target: UserId)
    ensures HasJob(jobs, date, target) ==> HasJob(jobs + multiset{job}, date, target)
    ensures HasJob(jobs + multiset{job}, job.date, job.target)
  {
    if HasJob(jobs, date, target) {
      var j :| j in jobs && j.date == date && j.target == target;
      assert j in jobs + multiset{job};
    }
    assert job in jobs + multiset{job};
  }

  /** An orderly request keeps the system correct as long as a round that it opened is going to be reconciled. */
  lemma OrderlyKeepsSys(sys: Sys, db': Db, jobs': multiset<Job>, req: Request, id: RoundId, opened': bool)
    requires SysOk(sys) && Orderly(sys.db, db', req, id, opened')
    requires jobs' == sys.jobs || exists h :: jobs' == sys.jobs + multiset{NeedRead(req.date, req.target, h)}
    requires opened' ==> HasJob(jobs', req.date, req.target) && SlotOf(db'.rounds[id]) == Target(req)
    ensures SysOk(sys.(db := db', jobs := jobs')) && Safe(sys.db, db')
  {
    hide Inv, Safe, RoundsFollow, GrowthFollows, MarksPaid, NoticesKept, RollsKept, NoticesOk, MintedOk, Unaware,
         HasJob, RealRoll;
    SafeParts(sys.db, db');
    JobsKept(sys.jobs, sys.db.growth, db'.growth);
    NoticesStay(sys.db.rounds, db'.rounds, sys.minted);
    forall k | k in db'.rounds && Unaware(db'.rounds[k], db'.growth)
      ensures HasJob(jobs', db'.rounds[k].date, db'.rounds[k].target)
    {
      if k in sys.db.rounds {
        RaceKept(sys.db.rounds, db'.rounds, sys.db.growth, db'.growth, sys.jobs, k);
        if jobs' != sys.jobs {
          var h :| jobs' == sys.jobs + multiset{NeedRead(req.date, req.target, h)};
          MoreJobs(sys.jobs, NeedRead(req.date, req.target, h), db'.rounds[k].date, db'.rounds[k].target);
        }
      }
    }
  }

  lemma PrepareKeepsSys(sys: Sys, req: Request, seen: bool, id: RoundId)
    requires SysOk(sys) && id !in sys.db.rounds
    ensures var after := Answer(sys, req, Prepare(sys.db, req, seen, None, id)); SysOk(after) && Safe(sys.db, after.db)
  {
    hide SysOk, Safe, Orderly, Prepare, HasJob;
    var result := Prepare(sys.db, req, seen, None, id);
    SysInv(sys);
    SameIsSafe(sys.db);
    PrepareLaws(sys.db, req, seen, None, id);
    OpenedIsRequested(sys.db, req, seen, None, id);
    if result.Commit? {
      var jobs' := Answer(sys, req, result).jobs;
      if IsReconciled(result.verdict) {
        MoreJobs(sys.jobs, NeedRead(req.date, req.target, result.round), req.date, req.target);
      }
      OrderlyKeepsSys(sys, result.db, jobs', req, TouchedBy(result, id), result.verdict == Created);
    }
  }

  lemma SameIsSafe(db: Db)
    requires Inv(db)
    ensures Safe(db, db)
  {
    hide Inv, Lawful;
    NothingLaws(db);
    LawfulParts(db, db);
  }

  lemma SysInv(sys: Sys)
    requires SysOk(sys)
    ensures Inv(sys.db)
  {
    hide Inv, JobsOk, RaceOk, NoticesOk, MintedOk;
  }

  lemma ReplyKeepsSys(sys: Sys, req: Request, seen: bool, bound: RoundId)
    requires SysOk(sys)
    ensures SysOk(Next(sys, ReplyStep(req, seen, bound))) && Safe(sys.db, Next(sys, ReplyStep(req, seen, bound)).db)
  {
    hide SysOk, Safe, Orderly, Prepare, HasJob;
    var result := Prepare(sys.db, req, seen, Some(bound), bound);
    SysInv(sys);
    SameIsSafe(sys.db);
    PrepareLaws(sys.db, req, seen, Some(bound), bound);
    OpenedIsRequested(sys.db, req, seen, Some(bound), bound);
    if result.Commit? {
      OrderlyKeepsSys(sys, result.db, sys.jobs, req, TouchedBy(result, bound), false);
    }
  }

  lemma DrawKeepsSys(sys: Sys, date: Date, user: UserId, pig: PigId, locked: set<RoundId>)
    requires SysOk(sys) && date !in At(sys.db.growth, user).rolls
    ensures SysOk(Next(sys, DrawStep(date, user, pig, locked)))
    ensures Safe(sys.db, DrawTx(sys.db, date, user, pig, locked))
  {
    hide Inv, Safe, RoundsFollow, GrowthFollows, MarksKept, NoticesKept, NoticesOk, MintedOk, JobsOk, RealRoll, DrawTx;
    var db' := DrawTx(sys.db, date, user, pig, locked);
    var job := NeedApply(date, user, pig, None);
    var jobs' := sys.jobs + multiset{job};
    DrawTxLaws(sys.db, date, user, pig, locked);
    SafeParts(sys.db, db');
    KeysKept(sys.db, db');
    JobsKept(sys.jobs, sys.db.growth, db'.growth);
    NoticesStay(sys.db.rounds, db'.rounds, sys.minted);
    assert Drawn(db', date, user) == Some(pig);
    JobAdded(sys.jobs, job, db'.growth);
    forall id | id in db'.rounds && Unaware(db'.rounds[id], db'.growth)
      ensures HasJob(jobs', db'.rounds[id].date, db'.rounds[id].target)
    {
      FollowAt(sys.db.rounds, db'.rounds, id);
      DrawRace(sys, db', job, id);
    }
  }

  lemma FollowAt(rounds: map<RoundId, Round>, rounds': map<RoundId, Round>, id: RoundId)
    requires RoundsFollow(rounds, rounds') && id in rounds
    ensures id in rounds' && L.Evolves(rounds[id], rounds'[id])
  {
    hide L.Evolves;
  }

  lemma KeysKept(db: Db, db': Db)
    requires MarksKept(db.rounds, db'.rounds)
    ensures db'.rounds.Keys == db.rounds.Keys
  {
    hide L.NoNewMarks;
  }

  lemma JobAdded(jobs: multiset<Job>, job: Job, growth: map<UserId, UserGrowth>)
    requires JobsOk(jobs, growth) && (job.NeedApply? ==> RealRoll(At(growth, job.target), job.date) == Some(job.pig))
    ensures JobsOk(jobs + multiset{job}, growth)
  {
    hide RealRoll, At;
  }

  /** The draw owes a reconciliation itself; rounds of other targets are as unaware as before. */
  lemma DrawRace(sys: Sys, db': Db, job: Job, id: RoundId)
    requires RaceOk(sys.db.rounds, sys.db.growth, sys.jobs) && id in sys.db.rounds && id in db'.rounds
    requires L.Evolves(sys.db.rounds[id], db'.rounds[id]) && Unaware(db'.rounds[id], db'.growth)
    requires forall u, d {:trigger Drawn(db', d, u)} :: u != job.target || d != job.date ==>
      Drawn(db', d, u) == Drawn(sys.db, d, u)
    ensures HasJob(sys.jobs + multiset{job}, db'.rounds[id].date, db'.rounds[id].target)
  {
    hide HasJob, RealRoll, At, Unaware;
    var r, r' := sys.db.rounds[id], db'.rounds[id];
    MoreJobs(sys.jobs, job, r.date, r.target);
    assert r'.date == r.date && r'.target == r.target;
    if r.target != job.target || r.date != job.date {
      assert Drawn(db', r.date, r.target) == Drawn(sys.db, r.date, r.target);
      StillUnaware(r, r', sys.db.growth, db'.growth);
    }
  }

  lemma RedrawKeepsSys(sys: Sys, date: Date, user: UserId)
    requires SysOk(sys)
    ensures SysOk(Next(sys, RedrawStep(date, user)))
  {
    hide Inv, JobsOk, NoticesOk, MintedOk, RealRoll, At, Unaware, HasJob;
    var roll := Drawn(sys.db, date, user);
    if roll.Some? {
      var job := NeedApply(date, user, roll.value, None);
      JobAdded(sys.jobs, job, sys.db.growth);
      forall id | id in sys.db.rounds && Unaware(sys.db.rounds[id], sys.db.growth)
        ensures HasJob(sys.jobs + multiset{job}, sys.db.rounds[id].date, sys.db.rounds[id].target)
      {
        MoreJobs(sys.jobs, job, sys.db.rounds[id].date, sys.db.rounds[id].target);
      }
    }
  }

  /** A finished job may go once no unaware round of its target is left, or another job of that target stays. */
  lemma JobGone(jobs: multiset<Job>, jobs': multiset<Job>, job: Job, date: Date, target: UserId)
    requires forall j :: j in jobs && j != job ==> j in jobs'
    requires HasJob(jobs, date, target) && ((date, target) == (job.date, job.target) ==> HasJob(jobs', date, target))
    ensures HasJob(jobs', date, target)
  {
    var j :| j in jobs && j.date == date && j.target == target;
    assert j != job ==> j in jobs';
  }

  lemma ReadKeepsSys(sys: Sys, job: Job)
    requires SysOk(sys) && job in sys.jobs && job.NeedRead?
    ensures SysOk(RunJob(sys, job))
  {
    hide Inv, NoticesOk, MintedOk, RealRoll, At, HasJob;
    var roll := Drawn(sys.db, job.date, job.target);
    var rest := sys.jobs - multiset{job};
    var jobs' := RunJob(sys, job).jobs;
    assert JobsOk(rest, sys.db.growth);
    if roll.Some? {
      JobAdded(rest, NeedApply(job.date, job.target, roll.value, job.handled), sys.db.growth);
      MoreJobs(rest, NeedApply(job.date, job.target, roll.value, job.handled), job.date, job.target);
    }
    forall id | id in sys.db.rounds && Unaware(sys.db.rounds[id], sys.db.growth)
      ensures HasJob(jobs', sys.db.rounds[id].date, sys.db.rounds[id].target)
    {
      JobGone(sys.jobs, jobs', job, sys.db.rounds[id].date, sys.db.rounds[id].target);
    }
  }

  lemma ApplyKeepsSys(sys: Sys, job: Job)
    requires SysOk(sys) && job in sys.jobs && job.NeedApply?
    ensures SysOk(RunJob(sys, job)) && Safe(sys.db, RunJob(sys, job).db)
  {
    hide Inv, Safe, Calm, Lawful, NoticesOk, MintedOk, RealRoll, At, HasJob, ReconcileTx, Unaware;
    var db' := ReconcileTx(sys.db, job.date, job.target, job.pig, job.handled);
    var mid := sys.(db := db');
    var rest := sys.jobs - multiset{job};
    ReconcileTxLaws(sys.db, job.date, job.target, job.pig, job.handled);
    LawfulIsCalm(sys.db, db');
    CalmKeepsSys(sys, db');
    CalmParts(sys.db, db');
    forall id | id in db'.rounds && Unaware(db'.rounds[id], db'.growth)
      ensures HasJob(rest, db'.rounds[id].date, db'.rounds[id].target)
    {
      AwareOfTarget(db'.rounds[id], db'.growth, job);
      JobGone(sys.jobs, rest, job, db'.rounds[id].date, db'.rounds[id].target);
    }
  }

  lemma AwareOfTarget(r: Round, growth: map<UserId, UserGrowth>, job: Job)
    requires job.NeedApply? && Unaware(r, growth)
    requires WaitsFor(r, job.date, job.target) ==> r.pig == Some(job.pig)
    ensures (r.date, r.target) != (job.date, job.target)
  {
  }

  lemma ClaimKeepsSys(sys: Sys, poll: ClaimRequest, leases: map<RoundId, Token>, notices: map<RoundId, Token>)
    requires SysOk(sys) && ClaimOk(sys.db, poll, leases, notices) && FreshTokens(leases, notices, sys.used)
    ensures SysOk(Next(sys, ClaimStep(poll, leases, notices))) && Safe(sys.db, ClaimTx(sys.db, poll, leases, notices))
  {
    hide Inv, Safe, RoundsFollow, GrowthFollows, MarksKept, RollsKept, JobsOk, NoticesOk, MintedOk, ClaimTx, Unaware,
         HasJob, ClaimOk, FreshTokens;
    var db' := ClaimTx(sys.db, poll, leases, notices);
    ClaimTxLaws(sys.db, poll, leases, notices);
    SafeParts(sys.db, db');
    KeysKept(sys.db, db');
    JobsKept(sys.jobs, sys.db.growth, db'.growth);
    MintedStays(sys, poll, leases, notices);
    ClaimedNotices(sys, db', poll, notices);
    forall id | id in db'.rounds && Unaware(db'.rounds[id], db'.growth)
      ensures HasJob(sys.jobs, db'.rounds[id].date, db'.rounds[id].target)
    {
      RaceKept(sys.db.rounds, db'.rounds, sys.db.growth, db'.growth, sys.jobs, id);
    }
  }

  lemma MintedStays(sys: Sys, poll: ClaimRequest, leases: map<RoundId, Token>, notices: map<RoundId, Token>)
    requires MintedOk(sys.minted, sys.used) && FreshTokens(leases, notices, sys.used)
    ensures MintedOk(sys.minted + Minted(sys.db, notices), sys.used + TokensOf(leases) + TokensOf(notices))
  {
    forall m | m in Minted(sys.db, notices)
      ensures m.0 in TokensOf(notices)
    {
    }
  }

  lemma ClaimedNotices(sys: Sys, db': Db, poll: ClaimRequest, notices: map<RoundId, Token>)
    requires NoticesOk(sys.db.rounds, sys.minted) && db'.rounds.Keys == sys.db.rounds.Keys
    requires forall id :: id in sys.db.rounds ==>
      if id in notices then
        db'.rounds[id] == sys.db.rounds[id].(botVersion := db'.rounds[id].botVersion,
                                             notice := Leased(notices[id], poll.now))
      else L.NoticeKept(sys.db.rounds[id], db'.rounds[id])
    ensures NoticesOk(db'.rounds, sys.minted + Minted(sys.db, notices))
  {
    hide L.NoticeKept;
    forall id | id in db'.rounds && NoticeToken(db'.rounds[id].notice).Some?
      ensures (NoticeToken(db'.rounds[id].notice).value, ViewOf(id, db'.rounds[id]))
        in sys.minted + Minted(sys.db, notices)
    {
      if id in notices {
        assert ViewOf(id, db'.rounds[id]) == ViewOf(id, sys.db.rounds[id]);
        assert (notices[id], ViewOf(id, sys.db.rounds[id])) in Minted(sys.db, notices);
      } else {
        NoticeStays(id, sys.db.rounds[id], db'.rounds[id], sys.minted);
      }
    }
  }

  // ---------------------------------------------------------------- every step

  lemma CalmStep(sys: Sys, db': Db)
    requires SysOk(sys) && Lawful(sys.db, db')
    ensures SysOk(sys.(db := db')) && Safe(sys.db, db')
  {
    hide SysOk, Lawful, Calm;
    LawfulIsCalm(sys.db, db');
    CalmKeepsSys(sys, db');
    CalmParts(sys.db, db');
  }

  lemma CalmParts(db: Db, db': Db)
    requires Calm(db, db')
    ensures Safe(db, db')
  {
    hide Safe, MarksKept, NoticesKept, RollsKept;
  }

  lemma UsageStep(sys: Sys, db': Db)
    requires SysOk(sys) && db' == sys.db.(usage := db'.usage)
    ensures SysOk(sys.(db := db')) && Safe(sys.db, db')
  {
    hide SysOk, Safe, MarksKept, NoticesKept, RollsKept;
    SysInv(sys);
    UsageLaws(sys.db, db');
    CalmKeepsSys(sys, db');
  }

  /** A feed outside any round. */
  lemma FeedTxLaws(db: Db, date: Date, user: UserId, source: FeedSource)
    requires Inv(db)
    ensures Lawful(db, FeedTx(db, date, user, source))
  {
    hide OkIn, Steps, L.NoticeKept, ProtOk, LedgersOk, GrowthFollows, RealRoll, At, Safe, MarksKept, IndexOk, FeedAll;
    var db' := FeedTx(db, date, user, source);
    FeedAllLaws(db.growth, date, [user], source);
    forall id | id in db.rounds
      ensures Steps(db.rounds[id], db'.rounds[id], WorldOf(db')) && L.NoticeKept(db.rounds[id], db'.rounds[id])
    {
      StaysOk(db.rounds[id], WorldOf(db), WorldOf(db'));
    }
    WorldChange(db, db');
  }

  /** Every enabled step of every endpoint keeps the system correct. */
  lemma StepKeepsSys(sys: Sys, step: Step)
    requires SysOk(sys) && Enabled(sys, step)
    ensures SysOk(Next(sys, step)) && Safe(sys.db, Next(sys, step).db)
  {
    hide SysOk, Safe, Lawful, Answer, RunJob, RoastTx, ForceTx, RefillTx, FeedTx, Prepare, DrawTx, MakeupTx, GrantTx,
         ReplaceTx, ClaimTx, NoticeTx,
         PrepareOutcomeTx, SaveOutcomeTx, MarkSendingTx, CompleteTx, ReleaseTx, ClaimOk, FreshTokens, ListOk;
    SysInv(sys);
    SameIsSafe(sys.db);
    match step
    case PrepareStep(req, seen, id) => PrepareKeepsSys(sys, req, seen, id);
    case ReplyStep(req, seen, bound) => ReplyKeepsSys(sys, req, seen, bound);
    case DrawStep(date, user, pig, locked) => DrawKeepsSys(sys, date, user, pig, locked);
    case RedrawStep(date, user) => RedrawKeepsSys(sys, date, user);
    case MakeupStep(date, user, pig) =>
      MakeupTxLaws(sys.db, date, user, pig);
      CalmStep(sys, MakeupTx(sys.db, date, user, pig));
    case JobStep(job) =>
      if job.NeedRead? { ReadKeepsSys(sys, job); ReadsOnly(sys, job); } else { ApplyKeepsSys(sys, job); }
    case GrantStep(slot, level) =>
      GrantTxLaws(sys.db, slot, level);
      CalmStep(sys, GrantTx(sys.db, slot, level));
    case ReplaceStep(list) =>
      ReplaceTxLaws(sys.db, list);
      CalmStep(sys, ReplaceTx(sys.db, list));
    case ClaimStep(poll, leases, notices) => ClaimKeepsSys(sys, poll, leases, notices);
    case NoticeStep(id, token, action, today) =>
      NoticeTxLaws(sys.db, id, token, action, today);
      CalmStep(sys, NoticeTx(sys.db, id, token, action, today).0);
    case PrepareOutcomeStep(id, token, outcome, settle) =>
      PrepareOutcomeTxLaws(sys.db, id, token, outcome, settle);
      CalmStep(sys, PrepareOutcomeTx(sys.db, id, token, outcome, settle).0);
    case SaveOutcomeStep(id, token, outcome) =>
      SaveOutcomeTxLaws(sys.db, id, token, outcome);
      CalmStep(sys, SaveOutcomeTx(sys.db, id, token, outcome).0);
    case SendingStep(id, token) =>
      MarkSendingTxLaws(sys.db, id, token);
      CalmStep(sys, MarkSendingTx(sys.db, id, token).0);
    case CompleteStep(id, token) =>
      CompleteTxLaws(sys.db, id, token);
      CalmStep(sys, CompleteTx(sys.db, id, token).0);
    case ReleaseStep(id, token) =>
      ReleaseTxLaws(sys.db, id, token);
      CalmStep(sys, ReleaseTx(sys.db, id, token).0);
    case RoastStep(user, now, cooldown, maxCharges) =>
      UsageOnly(sys.db, user, now, cooldown, maxCharges);
      UsageStep(sys, RoastTx(sys.db, user, now, cooldown, maxCharges));
    case ForceStep(user, date) =>
      UsageOnlyForce(sys.db, user, date);
      UsageStep(sys, ForceTx(sys.db, user, date));
    case RefillStep(users, max, now) =>
      UsageOnlyRefill(sys.db, users, max, now);
      UsageStep(sys, RefillTx(sys.db, users, max, now));
    case FeedStep(date, user, source) =>
      FeedTxLaws(sys.db, date, user, source);
      CalmStep(sys, FeedTx(sys.db, date, user, source));
  }

  lemma ReadsOnly(sys: Sys, job: Job)
    requires job.NeedRead?
    ensures RunJob(sys, job).db == sys.db
  {
  }

  lemma UsageOnly(db: Db, user: UserId, now: int, cooldown: Option<int>, maxCharges: Option<int>)
    ensures var db' := RoastTx(db, user, now, cooldown, maxCharges);
      db' == db.(usage := db'.usage) && forall v :: LastForce(Lookup(db'.usage, v)) == LastForce(Lookup(db.usage, v))
  {
    hide ConsumeRoast;
    ConsumeKeepsForce(Lookup(db.usage, user), now, ClampChargeSettings(maxCharges, cooldown));
  }

  lemma UsageOnlyForce(db: Db, user: UserId, date: Date)
    ensures var db' := ForceTx(db, user, date);
      && db' == db.(usage := db'.usage)
      && LastForce(Lookup(db'.usage, user)) == Some(date)
      && forall v :: v != user ==> Lookup(db'.usage, v) == Lookup(db.usage, v)
  {
  }

  lemma UsageOnlyRefill(db: Db, users: set<UserId>, max: int, now: int)
    ensures var db' := RefillTx(db, users, max, now);
      db' == db.(usage := db'.usage) && forall v :: LastForce(Lookup(db'.usage, v)) == LastForce(Lookup(db.usage, v))
  {
  }
}
