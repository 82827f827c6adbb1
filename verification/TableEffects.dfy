/** What each transaction does to the tables and answers: which rows it changes, and that it changes no others. */
module TableEffects {
  import opened Base
  import opened Growth
  import opened Protections
  import opened Rounds
  import opened Usage
  import opened Database
  import opened DatabaseLaws
  import opened RequestLaws
  import S = RoastSystem
  import E = RoundEffects
  import L = RoundLaws

  /** A request waits for this user on this date. */
  predicate WaitsOn(r: Round, date: Date, user: UserId) {
    r.status == Pending && r.date == date && r.target == user
  }

  // ---------------------------------------------------------------- draws

  /** A draw writes the user's ledger and wakes the waiting rounds that it locked; nothing else changes. */
  lemma DrawTxEffect(db: Db, date: Date, user: UserId, pig: PigId, locked: set<RoundId>)
    ensures var db' := DrawTx(db, date, user, pig, locked);
      && db' == db.(growth := db'.growth, rounds := db'.rounds) && db'.rounds.Keys == db.rounds.Keys
      && (forall u ::
            At(db'.growth, u) == if u == user then Draw(At(db.growth, u), date, pig, false) else At(db.growth, u))
      && (forall id :: id in db.rounds ==>
            if id in locked && WaitsOn(db.rounds[id], date, user) then
              E.Arrives(db.rounds[id], db'.rounds[id], pig, false)
            else db'.rounds[id] == db.rounds[id])
  {
    hide Draw, E.Arrives, Activate;
    forall id | id in db.rounds && WaitsOn(db.rounds[id], date, user) {
      E.ActivateEffect(db.rounds[id], pig);
    }
  }

  /** A make-up draw writes the user's ledger alone. */
  lemma MakeupTxEffect(db: Db, date: Date, user: UserId, pig: PigId)
    ensures var db' := MakeupTx(db, date, user, pig);
      && db' == db.(growth := db'.growth)
      && forall u ::
           At(db'.growth, u) == if u == user then Draw(At(db.growth, u), date, pig, true) else At(db.growth, u)
  {
    hide Draw;
  }

  /** A reconciliation wakes every waiting round of the user, unless the row it goes by is a make-up draw. */
  lemma ReconcileTxEffect(db: Db, date: Date, user: UserId, pig: PigId, handled: Option<RoundId>)
    ensures var db' := ReconcileTx(db, date, user, pig, handled);
      var rolls := At(db.growth, user).rolls;
      && db' == db.(rounds := db'.rounds) && db'.rounds.Keys == db.rounds.Keys
      && (forall id :: id in db.rounds ==>
            if WaitsOn(db.rounds[id], date, user) && !(date in rolls && rolls[date].makeup) then
              E.Arrives(db.rounds[id], db'.rounds[id], pig, handled == Some(id))
            else db'.rounds[id] == db.rounds[id])
  {
    hide E.Arrives, Rounds.Reconcile;
    forall id | id in db.rounds && WaitsOn(db.rounds[id], date, user) {
      E.ReconcileEffect(db.rounds[id], pig, handled == Some(id));
    }
  }

  // ---------------------------------------------------------------- protection

  /** The waiting rounds of a slot that were not taken over. */
  predicate FollowsIn(r: Round, s: Slot) {
    r.status == Pending && r.mode != Super && Slot(r.date, r.group, r.target) == s
  }

  /** A grant writes the row of its slot, and the waiting rounds of the slot follow it; nothing else changes. */
  lemma GrantTxEffect(db: Db, s: Slot, level: int)
    requires Inv(db) && 1 <= level <= 5
    ensures var db' := GrantTx(db, s, level);
      && db' == db.(prots := db'.prots, rounds := db'.rounds) && db'.rounds.Keys == db.rounds.Keys && s in db'.prots
      && db'.prots == db.prots[s := Grant(Lookup(db.prots, s), Lookup(db.globals, (s.date, s.user)), level)]
      && 1 <= Level(db'.prots[s]) <= 5
      && (forall id :: id in db.rounds ==>
            if FollowsIn(db.rounds[id], s) then E.Follows(db.rounds[id], db'.rounds[id], Some(Level(db'.prots[s])))
            else db'.rounds[id] == db.rounds[id])
  {
    hide Grant, Level, Sync, E.Follows, Inv, ProtOk, WorldOk, RosterOk;
    var db' := GrantTx(db, s, level);
    InvWorld(db);
    GlobalOk(db, s);
    RowOk(db, s);
    GrantKeepsOk(Lookup(db.prots, s), GlobalOf(db, s), level);
    LevelInRange(db'.prots[s]);
    var level' := Some(LevelInForce(db'.prots[s]));
    forall id | id in db.rounds
      ensures FollowsIn(db.rounds[id], s) ==> E.Follows(db.rounds[id], Sync(db.rounds[id], level'), level')
      ensures db.rounds[id].mode == Super && db.rounds[id].status == Pending ==>
        Sync(db.rounds[id], level') == db.rounds[id]
    {
      RosterAt(db, id);
      if db.rounds[id].status == Pending { E.SyncEffect(db.rounds[id], level'); }
    }
  }

  lemma RowOk(db: Db, s: Slot)
    requires WorldOk(WorldOf(db))
    ensures OptionOk(Lookup(db.prots, s))
  {
    hide ProtOk;
  }

  lemma RosterAt(db: Db, id: RoundId)
    requires Inv(db) && id in db.rounds
    ensures RosterOk(db.rounds[id].members) && L.TakenOk(db.rounds[id])
  {
    hide Inv, RosterOk;
    InvAt(db, id);
  }

  /** Replacing a daily list rewrites the rows of the group and date, for listed and unlisted users; those of other
      groups and dates stay. */
  lemma ReplacedRow(db: Db, list: DailyList, s: Slot)
    requires Inv(db) && 1 <= list.initial <= 5
    ensures Lookup(ReplaceTx(db, list).prots, s) ==
      var row, global := Lookup(db.prots, s), Lookup(db.globals, (s.date, s.user));
      if s.date != list.date || s.group != list.group then row
      else if s.user in list.users then
        Some(Enlist(row, global, Lookup(db.prots, Slot(s.date - 1, s.group, s.user)), list.initial))
      else if row.Some? then Delist(row.value, global) else None
  {
    hide Inv, WorldOk, ReplaceTx, Enlist, Delist;
    InvWorld(db);
    ReplacedRows(db, list);
    assert Lookup(ReplaceTx(db, list).prots, s) == RowAfter(db, list, s);
  }

  /** Every waiting round of the group then follows the row that its target has; nothing else changes. */
  lemma ReplaceTxEffect(db: Db, list: DailyList)
    requires Inv(db) && 1 <= list.initial <= 5
    ensures var db' := ReplaceTx(db, list);
      && db' == db.(prots := db'.prots, rounds := db'.rounds) && db'.rounds.Keys == db.rounds.Keys
      && (forall id :: id in db.rounds ==>
            var r := db.rounds[id];
            var s := Slot(r.date, r.group, r.target);
            if FollowsIn(r, s) && r.date == list.date && r.group == list.group then
              E.Follows(r, db'.rounds[id], OptionLevel(Lookup(db'.prots, s)))
            else db'.rounds[id] == r)
  {
    hide Inv, WorldOk, RowAfter, Edits, SyncRound, E.Follows, OptionLevel;
    var db' := ReplaceTx(db, list);
    InvWorld(db);
    ReplacedRows(db, list);
    forall id | id in db.rounds
      ensures var r := db.rounds[id];
        var s := SlotOf(r);
        if FollowsIn(r, s) && Covers(list, s) then E.Follows(r, db'.rounds[id], OptionLevel(RowAfter(db, list, s)))
        else db'.rounds[id] == r
    {
      RoundAfterList(db, list, id);
    }
  }

  /** A round whose row is not edited agrees with it already. */
  lemma RoundAfterList(db: Db, list: DailyList, id: RoundId)
    requires Inv(db) && ListOk(list) && id in db.rounds
    ensures var r, r' := db.rounds[id], ReplaceTx(db, list).rounds[id];
      if FollowsIn(r, SlotOf(r)) && Covers(list, SlotOf(r)) then
        E.Follows(r, r', OptionLevel(RowAfter(db, list, SlotOf(r))))
      else r' == r
  {
    hide Inv, WorldOk, RowAfter, E.Follows, Sync, OptionLevel, RosterOk, OkIn;
    var r := db.rounds[id];
    var s := SlotOf(r);
    InvWorld(db);
    RosterAt(db, id);
    InvAt(db, id);
    if r.status == Pending {
      E.SyncEffect(r, OptionLevel(RowAfter(db, list, s)));
      if FollowsIn(r, s) && Covers(list, s) && !Edits(db, list, s) {
        UneditedRow(db, list, s);
        Agrees(r, WorldOf(db));
      }
    }
  }

  lemma UneditedRow(db: Db, list: DailyList, s: Slot)
    requires WorldOk(WorldOf(db)) && ListOk(list) && Covers(list, s) && !Edits(db, list, s)
    ensures RowAfter(db, list, s) == Lookup(db.prots, s)
  {
    hide ProtOk;
  }

  /** A correct waiting round already is what following its row makes of it. */
  lemma Agrees(r: Round, w: World)
    requires OkIn(r, w) && FollowsIn(r, SlotOf(r))
    ensures E.Follows(r, r, OptionLevel(Lookup(w.prots, SlotOf(r))))
  {
    hide RosterOk, HasMember, OptionLevel, RealRoll, At;
  }

  // ---------------------------------------------------------------- claims

  /** What a claim may lease: the bot's own rounds of the date, for clients that cannot gather only those that are
      neither protected nor taken over. */
  lemma MayClaimIff(r: Round, req: ClaimRequest)
    ensures MayClaim(r, req) <==> r.bot == req.bot && r.date == req.date && Claimable(r, req.now)
                                  && (!req.capable ==> r.required == 0 && r.operator.None?)
    ensures MayClaimNotice(r, req) <==>
      r.bot == req.bot && r.date == req.date && NoticeClaimable(r, req.now) && req.capable
  {
  }

  /** A claim leases the rounds and the notices it has selected, each under its own token, and records for a capable
      sender that it can gather; nothing else changes. */
  lemma ClaimTxEffect(db: Db, req: ClaimRequest, leases: map<RoundId, Token>, notices: map<RoundId, Token>)
    requires ClaimOk(db, req, leases, notices)
    ensures var db' := ClaimTx(db, req, leases, notices);
      && db' == db.(rounds := db'.rounds) && db'.rounds.Keys == db.rounds.Keys
      && forall id :: id in db.rounds ==>
           var r := db.rounds[id];
           var gathers := req.capable && r.bot == req.bot && r.date == req.date && r.status in {Pending, Ready};
           db'.rounds[id] == r.(
             botVersion := if gathers && r.botVersion < 2 then 2 else r.botVersion,
             notice := if id in notices then Leased(notices[id], req.now) else r.notice,
             token := if id in leases then Some(leases[id]) else r.token,
             claimedAt := if id in leases then Some(req.now) else r.claimedAt,
             status := if id !in leases then r.status
                       else if r.outcome.None? then Processing else if req.supportsPrepared then Prepared else Sending)
  {
    hide ClaimOk, ClaimedRow;
    forall id | id in db.rounds { ClaimedIs(db, req, leases, notices, id); }
  }

  lemma ClaimedIs(db: Db, req: ClaimRequest, leases: map<RoundId, Token>, notices: map<RoundId, Token>, id: RoundId)
    requires id in db.rounds
    ensures var r := db.rounds[id];
      var gathers := req.capable && r.bot == req.bot && r.date == req.date && r.status in {Pending, Ready};
      ClaimedRow(db, req, leases, notices, id) == r.(
        botVersion := if gathers && r.botVersion < 2 then 2 else r.botVersion,
        notice := if id in notices then Leased(notices[id], req.now) else r.notice,
        token := if id in leases then Some(leases[id]) else r.token,
        claimedAt := if id in leases then Some(req.now) else r.claimedAt,
        status := if id !in leases then r.status
                  else if r.outcome.None? then Processing else if req.supportsPrepared then Prepared else Sending)
  {
  }

  // ---------------------------------------------------------------- outcomes

  /** The step fixes the first outcome of the round. */
  predicate FixesFirst(r: Round, token: Token) {
    r.token == Some(token) && r.status == Processing && r.outcome.None?
  }

  /** The users of a list of feed results. */
  function UsersOf(results: seq<(UserId, FeedResult)>): seq<UserId> {
    seq(|results|, i requires 0 <= i < |results| => results[i].0)
  }

  lemma FeedsAre(growth: map<UserId, UserGrowth>, date: Date, fed: seq<UserId>, source: FeedSource)
    requires NoDuplicates(fed)
    ensures var results := FeedResults(growth, date, fed, source);
      && UsersOf(results) == fed
      && (forall k :: 0 <= k < |results| ==> results[k].1 == Feed(At(growth, results[k].0), date, source).1)
      && (forall u :: At(FeedAll(growth, date, fed, source), u) ==
            if u in fed then Feed(At(growth, u), date, source).0 else At(growth, u))
  {
    hide Feed;
    FeedAllPointwise(growth, date, fed, source);
    assert UsersOf(FeedResults(growth, date, fed, source)) == fed;
  }

  lemma FeedsNobody(growth: map<UserId, UserGrowth>, date: Date, source: FeedSource)
    ensures FeedAll(growth, date, [], source) == growth && FeedResults(growth, date, [], source) == []
  {
  }

  lemma ListsSome(us: seq<UserId>, ms: seq<Member>)
    requires us != []
    ensures !E.Lists(us, ms, {})
  {
    assert us[0] in us;
  }

  /** A first outcome settles the round.  A success that the client settles feeds exactly the members whom the round
      feeds, each by one feed of the date from this round, and the stored results list them in joining order; any other
      outcome feeds nobody and stores an empty list.  A success against a protected target adds one to the count of the
      target's row.  Nothing else changes. */
  lemma FirstOutcomeEffect(db: Db, id: RoundId, token: Token, outcome: Outcome, settle: bool)
    requires Inv(db) && id in db.rounds && FixesFirst(db.rounds[id], token)
    ensures var r := db.rounds[id];
      var (db', ok) := PrepareOutcomeTx(db, id, token, outcome, settle);
      && ok && id in db'.rounds && db'.rounds[id].feedResults.Some?
      && var results := db'.rounds[id].feedResults.value;
         var fed := if settle && outcome.success then E.Fed(r, r.members) else {};
         && db'.rounds ==
              db.rounds[id := r.(outcome := Some(outcome), feedResults := Some(results), status := Prepared)]
         && E.Lists(UsersOf(results), r.members, fed)
         && (forall k :: 0 <= k < |results| ==>
               results[k].1 == Feed(At(db.growth, results[k].0), r.date, FromRound(id)).1)
         && (forall u :: At(db'.growth, u) ==
               if u in fed then Feed(At(db.growth, u), r.date, FromRound(id)).0 else At(db.growth, u))
         && (!settle || !outcome.success ==> db'.growth == db.growth && results == [])
         && db' == db.(rounds := db'.rounds, growth := db'.growth, prots := db'.prots)
  {
    hide Inv, E.Lists, E.Fed, Settled, Feed, BrokenThrough, FeedAll, FeedResults;
    var r := db.rounds[id];
    var us := Settled(r, outcome, settle);
    RosterAt(db, id);
    E.SettlesFor(r, outcome, settle);
    ListedOnce(us, r.members, if settle && outcome.success then E.Fed(r, r.members) else {});
    FeedsAre(db.growth, r.date, us, FromRound(id));
    if !settle || !outcome.success {
      if us != [] { ListsSome(us, r.members); }
      FeedsNobody(db.growth, r.date, FromRound(id));
    }
  }

  lemma ListedOnce(us: seq<UserId>, ms: seq<Member>, chosen: set<UserId>)
    requires E.Lists(us, ms, chosen)
    ensures NoDuplicates(us) && forall u :: u in us <==> u in chosen
  {
  }

  /** Of the protection rows a first outcome changes the count of its target's, for a success of a protected round. */
  lemma FirstOutcomeCounts(db: Db, id: RoundId, token: Token, outcome: Outcome, settle: bool)
    requires id in db.rounds && FixesFirst(db.rounds[id], token)
    ensures var r := db.rounds[id];
      var s := Slot(r.date, r.group, r.target);
      PrepareOutcomeTx(db, id, token, outcome, settle).0.prots ==
        if outcome.success && r.required > 0 && s in db.prots then
          db.prots[s := db.prots[s].(count := db.prots[s].count + 1)]
        else db.prots
  {
    hide Settled, FeedAll, FeedResults;
  }

  /** Any later outcome, and a refused one, touches the round alone. */
  lemma LaterOutcomeEffect(db: Db, id: RoundId, token: Token, outcome: Outcome, settle: bool)
    requires id in db.rounds ==> !FixesFirst(db.rounds[id], token)
    ensures var (db', ok) := PrepareOutcomeTx(db, id, token, outcome, settle);
      && db' == db.(rounds := db'.rounds)
      && if id in db.rounds then
           && db'.rounds == db.rounds[id := PrepareOutcome(db.rounds[id], token, outcome, []).0]
           && ok == PrepareOutcome(db.rounds[id], token, outcome, []).1
         else !ok && db'.rounds == db.rounds
  {
    hide Settled, FeedAll, FeedResults;
  }

  // ---------------------------------------------------------------- the other requests of a holder

  /** These write the round alone, as the holder's request does, and a first completion frees the round's slot. */
  lemma HolderTxEffects(db: Db, id: RoundId, token: Token, outcome: Outcome, action: NoticeAction, today: Date)
    requires id in db.rounds
    ensures var r := db.rounds[id];
      && NoticeTx(db, id, token, action, today) ==
           (db.(rounds := db.rounds[id := MoveNotice(r, token, action, today).0]),
            MoveNotice(r, token, action, today).1)
      && SaveOutcomeTx(db, id, token, outcome) ==
           (db.(rounds := db.rounds[id := SaveOutcome(r, token, outcome).0]), SaveOutcome(r, token, outcome).1)
      && MarkSendingTx(db, id, token) ==
           (db.(rounds := db.rounds[id := MarkSending(r, token).0]), MarkSending(r, token).1)
      && ReleaseTx(db, id, token) == (db.(rounds := db.rounds[id := Release(r, token).0]), Release(r, token).1)
    ensures var r := db.rounds[id];
      var (db', ok) := CompleteTx(db, id, token);
      && ok == Complete(r, token).1
      && db' == db.(rounds := db.rounds[id := Complete(r, token).0], slots := db'.slots)
      && forall s :: Lookup(db'.slots, s) ==
           if ok && r.status == Sending && s == Slot(r.date, r.group, r.target) then None else Lookup(db.slots, s)
  {
    hide MoveNotice, SaveOutcome, MarkSending, Release;
  }

  /** A request for a round that is not there changes nothing and is refused. */
  lemma NoRound(db: Db, id: RoundId, token: Token, outcome: Outcome, action: NoticeAction, today: Date, settle: bool)
    requires id !in db.rounds
    ensures NoticeTx(db, id, token, action, today) == SaveOutcomeTx(db, id, token, outcome) == (db, false)
    ensures MarkSendingTx(db, id, token) == ReleaseTx(db, id, token) == CompleteTx(db, id, token) == (db, false)
    ensures PrepareOutcomeTx(db, id, token, outcome, settle) == (db, false)
  {
  }

  // ---------------------------------------------------------------- opening and joining

  /** The target is protected, in the group or everywhere. */
  predicate Guarded(db: Db, req: Request) {
    Slot(req.date, req.group, req.target) in db.prots || (req.date, req.target) in db.globals
  }

  /** A client that cannot gather stays away from a protected target, unless it overrides the protection. */
  predicate TurnedAway(db: Db, req: Request) {
    Guarded(db, req) && req.mode != Super && !(req.gathering && req.version >= 2)
  }

  /** The level that a new round against the target meets: that of the group's row, else of the global one. */
  function LevelMet(db: Db, req: Request): Option<nat> {
    var s := Slot(req.date, req.group, req.target);
    if s in db.prots then Some(LevelInForce(db.prots[s]))
    else if (s.date, s.user) in db.globals then Some(LevelInForce(db.globals[(s.date, s.user)])) else None
  }

  /** The open round that the request sees: an ignited one without protection is there for overrides only. */
  predicate Sees(db: Db, req: Request, id: RoundId) {
    var s := Slot(req.date, req.group, req.target);
    && s in db.slots && db.slots[s] == id && id in db.rounds
    && (db.rounds[id].status == Pending || db.rounds[id].required > 0 || req.mode == Super)
  }

  /** The attacker has no force use of the date. */
  predicate ForceUnspent(db: Db, req: Request) {
    !(req.attacker in db.usage && db.usage[req.attacker].lastForce == Some(req.date))
  }

  /** What the reader knows of the target's draw. */
  function PigSeen(db: Db, req: Request, seen: bool): Option<PigId> {
    if seen then Drawn(db, req.date, req.target) else None
  }

  /** Rounds, slots and charges are as they were. */
  predicate NothingElse(db: Db, db': Db) {
    db'.rounds == db.rounds && db'.slots == db.slots && db'.usage == db.usage
  }

  /** The tables after the group's row was copied for a gathering client. */
  function Copied(db: Db, req: Request): Db {
    var s := Slot(req.date, req.group, req.target);
    if s !in db.prots && (req.date, req.target) in db.globals && req.gathering then
      db.(prots := db.prots[s := InheritGlobal(db.globals[(req.date, req.target)])])
    else db
  }

  lemma GuardIs(db: Db, req: Request)
    ensures Guard(db, req).0 == Copied(db, req)
    ensures Guard(db, req).1.Some? <==> Guarded(db, req)
  {
    hide InheritGlobal;
  }

  lemma FindIs(db: Db, req: Request)
    ensures forall id: RoundId :: FindRound(db, req) == Some(id) <==> Sees(db, req, id)
  {
  }

  lemma FindsNone(db: Db, req: Request)
    requires forall found :: !Sees(db, req, found)
    ensures FindRound(db, req).None?
  {
    var s := Target(req);
    assert s in db.slots ==> !Sees(db, req, db.slots[s]);
  }

  lemma ForceIs(db: Db, req: Request)
    ensures ForceFree(db, req) <==> ForceUnspent(db, req)
    ensures ForceFree(Copied(db, req), req) <==> ForceUnspent(db, req)
  {
    hide InheritGlobal;
  }

  lemma PrepareIs(db: Db, req: Request, seen: bool, expected: Option<RoundId>, id: RoundId)
    ensures var result := Prepare(db, req, seen, expected, id);
      var mid, pig, found := Copied(db, req), PigSeen(db, req, seen), FindRound(db, req);
      if TurnedAway(db, req) then result == Commit(mid, TargetProtected, None)
      else if Misses(db, expected, found, pig) then result == Commit(mid, Closed, None)
      else if found.Some? && found.value in db.rounds then result == TouchRound(mid, req, found.value, pig)
      else result == OpenRound(mid, req, Guard(db, req).1, pig, id)
  {
    hide Guard, Copied, FindRound, Misses, TouchRound, OpenRound, Guarded, RealRoll;
    GuardIs(db, req);
    CopyKeepsRounds(db, req);
  }

  lemma CopyKeepsRounds(db: Db, req: Request)
    ensures var mid := Copied(db, req); mid == db.(prots := mid.prots)
  {
    hide InheritGlobal;
  }

  /** Whatever an attempt is answered, the group's row is copied from the global one if a gathering client needs it, and
      no ledger and no global row changes. */
  lemma PrepareCopies(db: Db, req: Request, seen: bool, expected: Option<RoundId>, id: RoundId)
    ensures var result := Prepare(db, req, seen, expected, id);
      var s := Slot(req.date, req.group, req.target);
      result.Commit? ==>
        && result.db.growth == db.growth && result.db.globals == db.globals
        && result.db.prots ==
             if s !in db.prots && (req.date, req.target) in db.globals && req.gathering then
               db.prots[s := InheritGlobal(db.globals[(req.date, req.target)])]
             else db.prots
  {
    hide Prepare, Touch, OpenRound, FindRound, InheritGlobal, PigSeen, ForceFree, Misses, TurnedAway, Guard;
    PrepareIs(db, req, seen, expected, id);
    OpenKeeps(Copied(db, req), req, Guard(db, req).1, PigSeen(db, req, seen), id);
  }

  lemma OpenKeeps(db: Db, req: Request, prot: Option<Prot>, pig: Option<PigId>, id: RoundId)
    ensures var result := OpenRound(db, req, prot, pig, id);
      result.Commit? ==>
        result.db.growth == db.growth && result.db.globals == db.globals && result.db.prots == db.prots
  {
    hide Open, ConsumeFor, ForceFree, OptionLevel, SpendForce, InsertRound;
    var r := Open(req, OptionLevel(prot), pig);
    InsertKeeps(db, id, r);
    InsertKeeps(SpendForce(db, req), id, r);
    InsertKeeps(db.(usage := db.usage[req.attacker := ConsumeFor(db, req).0]), id, r);
    SpendKeeps(db, req);
  }

  lemma InsertKeeps(db: Db, id: RoundId, r: Round)
    ensures var result := InsertRound(db, id, r);
      result.Commit? ==>
        result.db.growth == db.growth && result.db.globals == db.globals && result.db.prots == db.prots
  {
  }

  lemma SpendKeeps(db: Db, req: Request)
    ensures var db' := SpendForce(db, req);
      db'.growth == db.growth && db'.globals == db.globals && db'.prots == db.prots
  {
    hide ConsumeForce;
  }

  lemma PrepareTurnsAway(db: Db, req: Request, seen: bool, expected: Option<RoundId>, id: RoundId)
    requires TurnedAway(db, req)
    ensures var result := Prepare(db, req, seen, expected, id);
      result.Commit? && result.verdict == TargetProtected && NothingElse(db, result.db)
  {
    hide Prepare, Copied, Touch, OpenRound, FindRound, TurnedAway;
    PrepareIs(db, req, seen, expected, id);
    CopyKeepsRounds(db, req);
  }

  lemma SeesRound(db: Db, req: Request, id: RoundId)
    requires Sees(db, req, id)
    ensures id in db.rounds
  {
  }

  /** A request that is bound to a round joins only that one, while it waits and, if it is not protected, while the
      target is not known to be there. */
  predicate Bound(db: Db, req: Request, seen: bool, expected: Option<RoundId>, found: RoundId) {
    expected.Some? ==>
      && found in db.rounds && expected == Some(found) && db.rounds[found].status == Pending
      && (PigSeen(db, req, seen).Some? ==> db.rounds[found].required > 0)
  }

  /** A request that sees a round acts on it alone, and pays with a force use if the round's answer says so. */
  lemma PrepareTouches(db: Db, req: Request, seen: bool, expected: Option<RoundId>, id: RoundId, found: RoundId)
    requires !TurnedAway(db, req) && Sees(db, req, found)
    ensures var result := Prepare(db, req, seen, expected, id);
      var t := Touch(db.rounds[found], req, PigSeen(db, req, seen), ForceUnspent(db, req));
      && result.Commit?
      && if Bound(db, req, seen, expected, found) then
           && result.verdict == t.verdict && result.round == Some(found)
           && result.db.rounds == db.rounds[found := t.round] && result.db.slots == db.slots
           && result.db.usage ==
                if t.forceSpent then db.usage[req.attacker := ConsumeForce(Lookup(db.usage, req.attacker), req.date).0]
                else db.usage
         else result.verdict == Closed && NothingElse(db, result.db)
  {
    hide Prepare, Copied, Touch, OpenRound, FindRound, TurnedAway, ConsumeForce, PigSeen, Sees, ForceFree, ForceUnspent;
    PrepareIs(db, req, seen, expected, id);
    CopyKeepsRounds(db, req);
    FindIs(db, req);
    SeesRound(db, req, found);
    ForceIs(db, req);
  }

  /** A bound request that sees no round is told that it is closed. */
  lemma PrepareMisses(db: Db, req: Request, seen: bool, expected: Option<RoundId>, id: RoundId)
    requires !TurnedAway(db, req) && expected.Some? && forall found :: !Sees(db, req, found)
    ensures var result := Prepare(db, req, seen, expected, id);
      result.Commit? && result.verdict == Closed && NothingElse(db, result.db)
  {
    hide Prepare, Copied, OpenRound, TouchRound, FindRound, TurnedAway, PigSeen, Sees;
    PrepareIs(db, req, seen, expected, id);
    CopyKeepsRounds(db, req);
    FindsNone(db, req);
  }

  function Charged(db: Db, req: Request): (UsageRow, Reply) {
    ConsumeRoast(Lookup(db.usage, req.attacker), req.now, ClampChargeSettings(req.maxCharges, req.cooldown))
  }

  /** A request that sees no round is told to roast at once if it knows the target is there and nothing stands in
      between; otherwise it opens a round if it can pay, with a force use or a charge or, for an override, nothing, and
      conflicts if the slot is taken after all. A refusal for want of a charge still writes the recovered charges. */
  lemma PrepareOpens(db: Db, req: Request, seen: bool, id: RoundId)
    requires !TurnedAway(db, req) && forall found :: !Sees(db, req, found)
    ensures var result := Prepare(db, req, seen, None, id);
      var pig := PigSeen(db, req, seen);
      var s := Slot(req.date, req.group, req.target);
      var r, paid := Open(req, LevelMet(db, req), pig), Charged(db, req);
      if pig.Some? && (!Guarded(db, req) || (req.mode == Super && !req.gathering)) then
        result.Commit? && result.verdict == TargetReady && NothingElse(db, result.db)
      else
        match req.mode
        case Super => Inserts(db, result, req, r, id, db.usage)
        case Normal =>
          if !ForceUnspent(db, req) then result.Commit? && result.verdict == ForceDenied && NothingElse(db, result.db)
          else Inserts(db, result, req, r, id,
                       db.usage[req.attacker := ConsumeForce(Lookup(db.usage, req.attacker), req.date).0])
        case _ =>
          if !paid.1.allowed then
            && result.Commit? && result.verdict == CooldownDenied && result.db.rounds == db.rounds
            && result.db.slots == db.slots && result.db.usage == db.usage[req.attacker := paid.0]
          else Inserts(db, result, req, r, id, db.usage[req.attacker := paid.0])
  {
    hide Prepare, Copied, OpenRound, TouchRound, FindRound, TurnedAway, PigSeen, Sees, Guarded, LevelMet, Open, Inserts,
         ForceUnspent, Charged, OptionLevel, ConsumeForce;
    PrepareIs(db, req, seen, None, id);
    CopyKeepsRounds(db, req);
    FindsNone(db, req);
    GuardIs(db, req);
    CopyMeets(db, req);
    var mid, prot, pig := Copied(db, req), Guard(db, req).1, PigSeen(db, req, seen);
    if RoastsAtOnce(req, prot, pig) {
      OpensNot(db, mid, req, prot, pig, id);
    } else {
      match req.mode
      case Super => OpensFree(db, mid, req, prot, pig, id);
      case Normal => OpensForced(db, mid, req, prot, pig, id);
      case _ => OpensCharged(db, mid, req, prot, pig, id);
    }
  }

  /** The target is known to be there and nothing stands in between. */
  predicate RoastsAtOnce(req: Request, prot: Option<Prot>, pig: Option<PigId>) {
    pig.Some? && (prot.None? || (req.mode == Super && !req.gathering))
  }

  /** A paid attempt inserts the round, or conflicts if the slot is taken. */
  predicate Inserts(db: Db, result: Result, req: Request, r: Round, id: RoundId, usage: map<UserId, UsageRow>) {
    var s := Slot(req.date, req.group, req.target);
    if s in db.slots then result == Conflict
    else
      && result.Commit? && result.verdict == Created && result.round == Some(id) && result.db.usage == usage
      && result.db.rounds == db.rounds[id := r] && result.db.slots == db.slots[s := id]
  }

  lemma InsertIs(db: Db, paid: Db, req: Request, r: Round, id: RoundId)
    requires paid == db.(prots := paid.prots, usage := paid.usage) && SlotOf(r) == Target(req)
    ensures Inserts(db, InsertRound(paid, id, r), req, r, id, paid.usage)
  {
  }

  lemma OpensForced(db: Db, mid: Db, req: Request, prot: Option<Prot>, pig: Option<PigId>, id: RoundId)
    requires mid == db.(prots := mid.prots) && req.mode == Normal && !RoastsAtOnce(req, prot, pig)
    ensures var result := OpenRound(mid, req, prot, pig, id);
      if !ForceUnspent(db, req) then result.Commit? && result.verdict == ForceDenied && NothingElse(db, result.db)
      else Inserts(db, result, req, Open(req, OptionLevel(prot), pig), id,
                   db.usage[req.attacker := ConsumeForce(Lookup(db.usage, req.attacker), req.date).0])
  {
    hide Open, ConsumeForce, OptionLevel, Inserts, InsertRound, ConsumeFor;
    OpenShape(req, OptionLevel(prot), pig);
    InsertIs(db, SpendForce(mid, req), req, Open(req, OptionLevel(prot), pig), id);
  }

  lemma OpensCharged(db: Db, mid: Db, req: Request, prot: Option<Prot>, pig: Option<PigId>, id: RoundId)
    requires mid == db.(prots := mid.prots) && req.mode in {NoForce, Blank} && !RoastsAtOnce(req, prot, pig)
    ensures var result := OpenRound(mid, req, prot, pig, id);
      var (row, reply) := Charged(db, req);
      if !reply.allowed then
        && result.Commit? && result.verdict == CooldownDenied && result.db.rounds == db.rounds
        && result.db.slots == db.slots && result.db.usage == db.usage[req.attacker := row]
      else Inserts(db, result, req, Open(req, OptionLevel(prot), pig), id, db.usage[req.attacker := row])
  {
    hide Open, ConsumeRoast, ClampChargeSettings, OptionLevel, Inserts, InsertRound, SpendForce, ForceFree;
    OpenShape(req, OptionLevel(prot), pig);
    InsertIs(db, mid.(usage := db.usage[req.attacker := Charged(db, req).0]), req,
             Open(req, OptionLevel(prot), pig), id);
  }

  lemma OpensFree(db: Db, mid: Db, req: Request, prot: Option<Prot>, pig: Option<PigId>, id: RoundId)
    requires mid == db.(prots := mid.prots) && req.mode == Super && !RoastsAtOnce(req, prot, pig)
    ensures Inserts(db, OpenRound(mid, req, prot, pig, id), req, Open(req, OptionLevel(prot), pig), id, db.usage)
  {
    hide Open, ConsumeFor, OptionLevel, Inserts, InsertRound, SpendForce, ForceFree;
    OpenShape(req, OptionLevel(prot), pig);
    InsertIs(db, mid, req, Open(req, OptionLevel(prot), pig), id);
  }

  lemma OpensNot(db: Db, mid: Db, req: Request, prot: Option<Prot>, pig: Option<PigId>, id: RoundId)
    requires mid == db.(prots := mid.prots) && RoastsAtOnce(req, prot, pig)
    ensures var result := OpenRound(mid, req, prot, pig, id);
      result.Commit? && result.verdict == TargetReady && NothingElse(db, result.db)
  {
    hide Open, ConsumeFor, OptionLevel, InsertRound, SpendForce, ForceFree;
  }

  /** The copy of a global row meets the attacker with the same level. */
  lemma CopyMeets(db: Db, req: Request)
    ensures OptionLevel(Guard(db, req).1) == LevelMet(db, req)
  {
  }

  // ---------------------------------------------------------------- what a request still owes

  /** A prepare that commits owes a fresh look at the target's draw exactly if its requester came or stayed aboard. */
  lemma PrepareOwes(sys: S.Sys, req: Request, result: Result)
    ensures var sys' := S.Answer(sys, req, result);
      var owes := result.Commit? && result.verdict in {Created, Joined, Upgraded, AlreadyJoined};
      && sys'.db == (if result.Commit? then result.db else sys.db)
      && sys'.jobs ==
           sys.jobs + (if owes then multiset{S.NeedRead(req.date, req.target, result.round)} else multiset{})
      && sys'.minted == sys.minted && sys'.used == sys.used
  {
  }

  /** That look finds the draw as it is then, and a reconciliation is owed if there is a real one. */
  lemma JobEffects(sys: S.Sys, job: S.Job)
    requires job in sys.jobs
    ensures var sys' := S.RunJob(sys, job);
      && sys'.minted == sys.minted && sys'.used == sys.used
      && match job
         case NeedRead(date, target, handled) =>
           var rolls := At(sys.db.growth, target).rolls;
           && sys'.db == sys.db
           && sys'.jobs == sys.jobs - multiset{job} +
                if date in rolls && !rolls[date].makeup then
                  multiset{S.NeedApply(date, target, rolls[date].pig, handled)}
                else multiset{}
         case NeedApply(date, target, pig, handled) =>
           && sys'.db == ReconcileTx(sys.db, date, target, pig, handled)
           && sys'.jobs == sys.jobs - multiset{job}
  {
    hide ReconcileTx;
  }

  /** A first draw, and a repeated one that finds a real draw, owes a reconciliation; a make-up draw owes nothing. */
  lemma DrawsOwe(sys: S.Sys, date: Date, user: UserId, pig: PigId, locked: set<RoundId>)
    ensures var sys' := S.Next(sys, S.DrawStep(date, user, pig, locked));
      && sys'.db == DrawTx(sys.db, date, user, pig, locked)
      && sys'.jobs == sys.jobs + multiset{S.NeedApply(date, user, pig, None)}
    ensures var sys' := S.Next(sys, S.RedrawStep(date, user));
      var rolls := At(sys.db.growth, user).rolls;
      && sys'.db == sys.db
      && sys'.jobs == sys.jobs + if date in rolls && !rolls[date].makeup then
           multiset{S.NeedApply(date, user, rolls[date].pig, None)} else multiset{}
    ensures var sys' := S.Next(sys, S.MakeupStep(date, user, pig));
      sys'.db == MakeupTx(sys.db, date, user, pig) && sys'.jobs == sys.jobs
  {
    hide DrawTx, MakeupTx;
  }
}
