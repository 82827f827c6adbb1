/** The tables behind roasting and the transactions on them, each as one step from commit to commit:
    rollpig_cloud/services/reservations.py, routers/roast_reservations.py, routers/protections.py and the
    reservation side of routers/daily_rolls.py.

    Rows read with FOR UPDATE are current.  The daily roll of a target is read without a lock and may come
    from an older snapshot: the flag `seen` says whether the reader's snapshot has it.  The rosters in the reply
    of a claim are read without a lock too; what such a reply may show is said in RoastRuns. */
module Database {
  import opened Base
  import opened Growth
  import opened Protections
  import opened Rounds
  import opened Usage

  /** Date, group and target: the key of a protection row and of an active round. */
  datatype Slot = Slot(date: Date, group: GroupId, user: UserId)

  /** `slots` is the unique index over the rows whose active_slot is 1; `globals` holds the protection rows
      of the pseudo group "__all__". */
  datatype Db = Db(rounds: map<RoundId, Round>, slots: map<Slot, RoundId>, prots: map<Slot, Prot>,
                   globals: map<(Date, UserId), Prot>, growth: map<UserId, UserGrowth>, usage: map<UserId, UsageRow>)

  const EMPTY: Db := Db(map[], map[], map[], map[], map[], map[])

  function SlotOf(r: Round): Slot {
    Slot(r.date, r.group, r.target)
  }

  function Target(req: Request): Slot {
    Slot(req.date, req.group, req.target)
  }

  function GlobalOf(db: Db, s: Slot): Option<Prot> {
    Lookup(db.globals, (s.date, s.user))
  }

  /** The target's draw of the date, if it counts. */
  function Drawn(db: Db, date: Date, user: UserId): Option<PigId> {
    RealRoll(At(db.growth, user), date)
  }

  function LevelInForce(p: Prot): nat {
    if Level(p) < 0 then 0 else Level(p)
  }

  function OptionLevel(p: Option<Prot>): Option<nat> {
    if p.Some? then Some(LevelInForce(p.value)) else None
  }

  // ---------------------------------------------------------------- opening and joining

  /** The protection a request meets; a capable group of a global row gets its own copy first. */
  function Guard(db: Db, req: Request): (Db, Option<Prot>) {
    var s := Target(req);
    if s in db.prots then (db, Some(db.prots[s]))
    else if GlobalOf(db, s).None? then (db, None)
    else if req.gathering then
      var copy := InheritGlobal(GlobalOf(db, s).value);
      (db.(prots := db.prots[s := copy]), Some(copy))
    else (db, GlobalOf(db, s))
  }

  /** The active round a request sees: an ignited unprotected round is invisible to ordinary requests. */
  function FindRound(db: Db, req: Request): Option<RoundId> {
    var s := Target(req);
    if s in db.slots && db.slots[s] in db.rounds then
      var r := db.rounds[db.slots[s]];
      if r.status == Pending || r.required > 0 || req.mode == Super then Some(db.slots[s]) else None
    else None
  }

  datatype Result = Commit(db: Db, verdict: Verdict, round: Option<RoundId>) | Conflict

  function ForceFree(db: Db, req: Request): bool {
    LastForce(Lookup(db.usage, req.attacker)) != Some(req.date)
  }

  function SpendForce(db: Db, req: Request): Db {
    db.(usage := db.usage[req.attacker := ConsumeForce(Lookup(db.usage, req.attacker), req.date).0])
  }

  function ConsumeFor(db: Db, req: Request): (UsageRow, Reply) {
    ConsumeRoast(Lookup(db.usage, req.attacker), req.now, ClampChargeSettings(req.maxCharges, req.cooldown))
  }

  /** A request that is bound to the round `expected` may only join it while it waits. */
  predicate Misses(db: Db, expected: Option<RoundId>, found: Option<RoundId>, pig: Option<PigId>) {
    expected.Some? &&
      (|| found != expected || found.value !in db.rounds
       || (pig.Some? && db.rounds[found.value].required == 0)
       || db.rounds[found.value].status != Pending)
  }

  function TouchRound(db: Db, req: Request, id: RoundId, pig: Option<PigId>): Result
    requires id in db.rounds
  {
    var t := Touch(db.rounds[id], req, pig, ForceFree(db, req));
    var db' := if t.forceSpent then SpendForce(db, req) else db;
    Commit(db'.(rounds := db.rounds[id := t.round]), t.verdict, Some(id))
  }

  function InsertRound(db: Db, id: RoundId, r: Round): Result {
    if SlotOf(r) in db.slots then Conflict
    else Commit(db.(rounds := db.rounds[id := r], slots := db.slots[SlotOf(r) := id]), Created, Some(id))
  }

  function OpenRound(db: Db, req: Request, prot: Option<Prot>, pig: Option<PigId>, id: RoundId): Result {
    if pig.Some? && (prot.None? || (req.mode == Super && !req.gathering)) then Commit(db, TargetReady, None)
    else
      var r := Open(req, OptionLevel(prot), pig);
      if req.mode == Normal then
        if !ForceFree(db, req) then Commit(db, ForceDenied, None) else InsertRound(SpendForce(db, req), id, r)
      else if req.mode != Super then
        var (row, reply) := ConsumeFor(db, req);
        var db' := db.(usage := db.usage[req.attacker := row]);
        if reply.allowed then InsertRound(db', id, r) else Commit(db', CooldownDenied, None)
      else InsertRound(db, id, r)
  }

  /** One attempt of a prepare or of a join by reply.  A conflict rolls the whole attempt back. */
  function Prepare(db: Db, req: Request, seen: bool, expected: Option<RoundId>, id: RoundId): Result {
    var (db', prot) := Guard(db, req);
    if prot.Some? && !Capable(req) && req.mode != Super then Commit(db', TargetProtected, None)
    else
      var pig := if seen then Drawn(db, req.date, req.target) else None;
      var found := FindRound(db, req);
      if Misses(db, expected, found, pig) then Commit(db', Closed, None)
      else if found.Some? && found.value in db.rounds then TouchRound(db', req, found.value, pig)
      else OpenRound(db', req, prot, pig, id)
  }

  // ---------------------------------------------------------------- draws

  predicate WaitsFor(r: Round, date: Date, target: UserId) {
    r.status == Pending && r.date == date && r.target == target
  }

  /** A draw commits together with the activation of the waiting rounds it had locked. */
  function DrawTx(db: Db, date: Date, user: UserId, pig: PigId, locked: set<RoundId>): Db {
    db.(growth := db.growth[user := Draw(At(db.growth, user), date, pig, false)],
        rounds := map id | id in db.rounds ::
          if id in locked && WaitsFor(db.rounds[id], date, user) then Activate(db.rounds[id], pig, true)
          else db.rounds[id])
  }

  function MakeupTx(db: Db, date: Date, user: UserId, pig: PigId): Db {
    db.(growth := db.growth[user := Draw(At(db.growth, user), date, pig, true)])
  }

  /** Reconciliation activates every waiting round of the target; a make-up draw activates none. */
  function ReconcileTx(db: Db, date: Date, target: UserId, pig: PigId, handled: Option<RoundId>): Db {
    if date in At(db.growth, target).rolls && At(db.growth, target).rolls[date].makeup then db
    else
      db.(rounds := map id | id in db.rounds ::
            if WaitsFor(db.rounds[id], date, target) then Rounds.Reconcile(db.rounds[id], pig, handled == Some(id))
            else db.rounds[id])
  }

  // ---------------------------------------------------------------- protection

  /** A waiting round follows the protection of its slot. */
  function SyncRound(r: Round, level: Option<nat>): Round {
    if r.status == Pending then Sync(r, level) else r
  }

  function GrantTx(db: Db, s: Slot, level: int): Db {
    var p := Grant(Lookup(db.prots, s), GlobalOf(db, s), level);
    db.(prots := db.prots[s := p],
        rounds := map id | id in db.rounds ::
          if SlotOf(db.rounds[id]) == s then SyncRound(db.rounds[id], Some(LevelInForce(p))) else db.rounds[id])
  }

  /** A daily list for one group. */
  datatype DailyList = DailyList(date: Date, group: GroupId, users: set<UserId>, initial: int)

  predicate Covers(list: DailyList, s: Slot) {
    s.date == list.date && s.group == list.group
  }

  function Yesterday(db: Db, s: Slot): Option<Prot> {
    Lookup(db.prots, s.(date := s.date - 1))
  }

  function RowAfter(db: Db, list: DailyList, s: Slot): Option<Prot> {
    if Covers(list, s) then
      Replaced(Lookup(db.prots, s), s.user in list.users, GlobalOf(db, s), Yesterday(db, s), list.initial)
    else Lookup(db.prots, s)
  }

  /** Whether the replacement edits the row of the slot at all. */
  predicate Edits(db: Db, list: DailyList, s: Slot) {
    && Covers(list, s)
    && if s.user in list.users then
         var p := Basis(Lookup(db.prots, s), GlobalOf(db, s)); !(p.Some? && SourcesOf(p.value).daily.Some?)
       else s in db.prots
  }

  function ReplaceTx(db: Db, list: DailyList): Db {
    var touched := db.prots.Keys + set u | u in list.users :: Slot(list.date, list.group, u);
    db.(prots := map s | s in touched && RowAfter(db, list, s).Some? :: RowAfter(db, list, s).value,
        rounds := map id | id in db.rounds ::
          if Edits(db, list, SlotOf(db.rounds[id])) then
            SyncRound(db.rounds[id], OptionLevel(RowAfter(db, list, SlotOf(db.rounds[id]))))
          else db.rounds[id])
  }

  // ---------------------------------------------------------------- leases and delivery

  datatype ClaimRequest = ClaimRequest(bot: BotId, date: Date, now: int, capable: bool, supportsPrepared: bool)

  predicate MayClaim(r: Round, req: ClaimRequest) {
    && r.bot == req.bot && r.date == req.date && Claimable(r, req.now)
    && (req.capable || (r.required == 0 && r.operator.None?))
  }

  predicate MayClaimNotice(r: Round, req: ClaimRequest) {
    req.capable && r.bot == req.bot && r.date == req.date && NoticeClaimable(r, req.now)
  }

  /** A capable poll records that the sender can gather. */
  function Confirmed(r: Round, req: ClaimRequest): Round {
    if req.capable && r.bot == req.bot && r.date == req.date && r.status in {Pending, Ready} && r.botVersion < 2
    then r.(botVersion := 2) else r
  }

  /** A row after a claim that leased some rounds and some notices, each under a token of its own. */
  function ClaimedRow(db: Db, req: ClaimRequest, leases: map<RoundId, Token>, notices: map<RoundId, Token>,
                      id: RoundId): Round
    requires id in db.rounds
  {
    var r := Confirmed(db.rounds[id], req);
    var s := if id in leases then ClaimRound(r, leases[id], req.now, req.supportsPrepared) else r;
    if id in notices then MintNotice(s, notices[id], req.now) else s
  }

  function ClaimTx(db: Db, req: ClaimRequest, leases: map<RoundId, Token>, notices: map<RoundId, Token>): Db {
    db.(rounds := map id | id in db.rounds :: ClaimedRow(db, req, leases, notices, id))
  }

  function PutRound(db: Db, id: RoundId, r: Round): Db {
    db.(rounds := db.rounds[id := r])
  }

  function NoticeTx(db: Db, id: RoundId, token: Token, action: NoticeAction, today: Date): (Db, bool) {
    if id !in db.rounds then (db, false)
    else
      var (r, ok) := MoveNotice(db.rounds[id], token, action, today);
      (PutRound(db, id, r), ok)
  }

  /** The first success of a round raises the count of the protection row it broke through. */
  function BrokenThrough(db: Db, r: Round, outcome: Outcome): map<Slot, Prot> {
    var s := SlotOf(r);
    if r.required > 0 && outcome.success && s in db.prots then db.prots[s := BreakThrough(db.prots[s])] else db.prots
  }

  function PrepareOutcomeTx(db: Db, id: RoundId, token: Token, outcome: Outcome, settle: bool): (Db, bool) {
    if id !in db.rounds then (db, false)
    else
      var r := db.rounds[id];
      var fed := Settled(r, outcome, settle);
      var (r', ok) := PrepareOutcome(r, token, outcome, FeedResults(db.growth, r.date, fed, FromRound(id)));
      if PrepareFixing(r, token, outcome) != First then (PutRound(db, id, r'), ok)
      else
        var settled := FeedAll(db.growth, r.date, fed, FromRound(id));
        (PutRound(db.(prots := BrokenThrough(db, r, outcome), growth := settled), id, r'), ok)
  }

  function SaveOutcomeTx(db: Db, id: RoundId, token: Token, outcome: Outcome): (Db, bool) {
    if id !in db.rounds then (db, false)
    else
      var (r, ok) := SaveOutcome(db.rounds[id], token, outcome);
      (PutRound(db, id, r), ok)
  }

  function MarkSendingTx(db: Db, id: RoundId, token: Token): (Db, bool) {
    if id !in db.rounds then (db, false)
    else
      var (r, ok) := MarkSending(db.rounds[id], token);
      (PutRound(db, id, r), ok)
  }

  /** Completion frees the slot. */
  function CompleteTx(db: Db, id: RoundId, token: Token): (Db, bool) {
    if id !in db.rounds then (db, false)
    else
      var r := db.rounds[id];
      var (r', ok) := Complete(r, token);
      var db' := PutRound(db, id, r');
      (if ok && r.status != Completed then db'.(slots := db.slots - {SlotOf(r)}) else db', ok)
  }

  function ReleaseTx(db: Db, id: RoundId, token: Token): (Db, bool) {
    if id !in db.rounds then (db, false)
    else
      var (r, ok) := Release(db.rounds[id], token);
      (PutRound(db, id, r), ok)
  }
}
