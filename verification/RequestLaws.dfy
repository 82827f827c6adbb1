/** What one attempt of a request to open, join, boost or take over a round does to the tables. */
module RequestLaws {
  import opened Base
  import opened Growth
  import opened Protections
  import opened Rounds
  import opened Usage
  import opened Database
  import opened DatabaseLaws
  import L = RoundLaws

  /** The user spends the force use of the date, which was still there. */
  predicate Paid(db: Db, db': Db, u: UserId, date: Date) {
    && LastForce(Lookup(db.usage, u)) != Some(date)
    && LastForce(Lookup(db'.usage, u)) == Some(date)
  }

  /** Force marks appear only in the round that was touched and only for the user who paid. */
  ghost predicate MarksPaid(db: Db, db': Db, u: UserId, date: Date, touched: RoundId) {
    && (forall id :: id in db'.rounds && id != touched ==>
           id in db.rounds && L.NoNewMarks(db.rounds[id], db'.rounds[id]))
    && (touched in db'.rounds ==> MarkPaid(db, db', u, date, touched))
    && (forall v :: LastForce(Lookup(db'.usage, v)) != LastForce(Lookup(db.usage, v)) ==>
           v == u && Paid(db, db', u, date))
  }

  ghost predicate MarkPaid(db: Db, db': Db, u: UserId, date: Date, id: RoundId)
    requires id in db'.rounds
  {
    forall v :: L.Marked(db'.rounds[id], v) ==>
      (id in db.rounds && L.Marked(db.rounds[id], v)) ||
        (v == u && db'.rounds[id].date == date && Paid(db, db', u, date))
  }

  /** At most one round is new, and it has told nobody anything yet. */
  ghost predicate Opens(rounds: map<RoundId, Round>, rounds': map<RoundId, Round>, id: RoundId, opened': bool) {
    if opened' then
      id !in rounds && rounds'.Keys == rounds.Keys + {id} && rounds'[id].notice == NoNotice
    else rounds'.Keys == rounds.Keys
  }

  /** Everything a request promises to the rest of the system. */
  ghost predicate Orderly(db: Db, db': Db, req: Request, touched: RoundId, opened': bool) {
    && Safe(db, db') && RollsKept(db.growth, db'.growth) && NoticesKept(db.rounds, db'.rounds)
    && MarksPaid(db, db', req.attacker, req.date, touched)
    && Opens(db.rounds, db'.rounds, touched, opened')
  }

  lemma LawfulIsOrderly(db: Db, db': Db, req: Request, touched: RoundId)
    requires Lawful(db, db')
    ensures Orderly(db, db', req, touched, false)
  {
    hide Safe, RollsKept, NoticesKept, L.Marked;
  }

  lemma SafeTransitive(a: Db, b: Db, c: Db)
    requires Safe(a, b) && Safe(b, c)
    ensures Safe(a, c)
  {
    hide Inv, L.Evolves, Extends, At;
    forall id | id in a.rounds
      ensures L.Evolves(a.rounds[id], c.rounds[id])
    {
      EvolvesOver(a.rounds[id], b.rounds[id], c.rounds[id]);
    }
    GrowthTransitive(a.growth, b.growth, c.growth);
  }

  lemma EvolvesOver(a: Round, b: Round, c: Round)
    requires L.Evolves(a, b) && L.Evolves(b, c)
    ensures L.Evolves(a, c)
  {
    L.EvolvesTransitive(a, b, c);
  }

  lemma GrowthTransitive(a: map<UserId, UserGrowth>, b: map<UserId, UserGrowth>, c: map<UserId, UserGrowth>)
    requires GrowthFollows(a, b) && GrowthFollows(b, c)
    ensures GrowthFollows(a, c)
  {
    hide Extends, At;
    if a != b && b != c {
      forall u
        ensures Extends(At(a, u), At(c, u))
      {
        ExtendsTransitive(At(a, u), At(b, u), At(c, u));
      }
    }
  }

  /** The step that changes the rounds comes after a change that left rounds and usage alone. */
  lemma OrderlyAfter(db: Db, mid: Db, db': Db, req: Request, touched: RoundId, opened': bool)
    requires Lawful(db, mid) && mid == db.(prots := mid.prots)
    requires Orderly(mid, db', req, touched, opened')
    ensures Orderly(db, db', req, touched, opened')
  {
    hide Safe, L.NoNewMarks, L.Marked, L.NoticeKept, Lawful;
    LawfulParts(db, mid);
    SafeTransitive(db, mid, db');
  }

  lemma LawfulParts(db: Db, db': Db)
    requires Lawful(db, db')
    ensures Safe(db, db')
  {
    hide Safe, RollsKept, NoticesKept, MarksKept;
  }

  // ---------------------------------------------------------------- usage

  lemma SpendForceLaws(db: Db, req: Request)
    requires ForceFree(db, req)
    ensures Paid(db, SpendForce(db, req), req.attacker, req.date)
    ensures SpendForce(db, req) == db.(usage := SpendForce(db, req).usage)
    ensures forall v :: v != req.attacker ==> Lookup(SpendForce(db, req).usage, v) == Lookup(db.usage, v)
  {
  }

  lemma ConsumeForLaws(db: Db, req: Request)
    ensures var usage' := db.usage[req.attacker := ConsumeFor(db, req).0];
      forall v :: LastForce(Lookup(usage', v)) == LastForce(Lookup(db.usage, v))
  {
    ConsumeKeepsForce(Lookup(db.usage, req.attacker), req.now, ClampChargeSettings(req.maxCharges, req.cooldown));
  }

  lemma ConsumeKeepsForce(row: Option<UsageRow>, now: int, s: Settings)
    requires Sane(s)
    ensures ConsumeRoast(row, now, s).0.lastForce == LastForce(row)
  {
  }

  // ---------------------------------------------------------------- touching a round

  lemma TouchSteps(r: Round, w: World, req: Request, pig: Option<PigId>, forceFree: bool)
    requires OkIn(r, w) && WorldOk(w) && (pig.Some? ==> pig == RealRoll(At(w.growth, r.target), r.date))
    ensures var t := Touch(r, req, pig, forceFree);
      && OkIn(t.round, w) && L.Evolves(r, t.round) && L.NoticeKept(r, t.round) && SlotOf(t.round) == SlotOf(r)
      && (t.forceSpent ==> forceFree)
      && (t.round.status == Completed <==> r.status == Completed)
      && (forall u :: L.Marked(t.round, u) ==> L.Marked(r, u) || (u == req.attacker && t.forceSpent))
  {
    hide L.RoundOk, L.NoticeKept, L.Marked, WorldOk, RealRoll, Touch;
    ContextAtOk(w, SlotOf(r));
    L.TouchLaws(r, req, pig, forceFree, ContextAt(w, SlotOf(r)));
    TouchStatus(r, req, pig, forceFree);
  }

  lemma TouchStatus(r: Round, req: Request, pig: Option<PigId>, forceFree: bool)
    ensures Touch(r, req, pig, forceFree).round.status == Completed <==> r.status == Completed
  {
  }

  /** One row changes and its attacker may pay for a mark in it. */
  lemma PutPaid(db: Db, db': Db, req: Request, id: RoundId, r: Round)
    requires Inv(db) && id in db.rounds && db' == db.(rounds := db.rounds[id := r], usage := db'.usage)
    requires OkIn(r, WorldOf(db)) && L.Evolves(db.rounds[id], r) && SlotOf(r) == SlotOf(db.rounds[id])
    requires r.status == Completed <==> db.rounds[id].status == Completed
    ensures Safe(db, db') && RollsKept(db.growth, db'.growth)
  {
    hide OkIn, L.Evolves, IndexOk, WorldOk, RollsKept, GrowthFollows, SlotOf;
    PutIndex(db.rounds, db.slots, id, r);
    SameGrowth(db.growth);
    forall k | k in db.rounds
      ensures OkIn(db'.rounds[k], WorldOf(db')) && L.Evolves(db.rounds[k], db'.rounds[k])
    {
      UnchangedOk(db.rounds[k], WorldOf(db));
    }
  }

  lemma UnchangedOk(r: Round, w: World)
    requires OkIn(r, w)
    ensures L.Evolves(r, r) && L.NoNewMarks(r, r) && L.NoticeKept(r, r)
  {
    hide L.RoundOk;
  }

  lemma PutKeepsRest(rounds: map<RoundId, Round>, id: RoundId, r: Round)
    requires id in rounds && L.NoticeKept(rounds[id], r)
    ensures NoticesKept(rounds, rounds[id := r])
    ensures forall k :: k in rounds && k != id ==> L.NoNewMarks(rounds[k], rounds[id := r][k])
  {
    hide L.NoticeKept, L.Marked;
    forall k | k in rounds
      ensures L.NoticeKept(rounds[k], rounds[id := r][k])
    {
      NoticeRefl(rounds[k]);
    }
  }

  lemma NoticeRefl(r: Round)
    ensures L.NoticeKept(r, r)
  {
  }

  lemma TouchPays(db: Db, db': Db, req: Request, id: RoundId, spent: bool)
    requires id in db.rounds && id in db'.rounds && db'.rounds == db.rounds[id := db'.rounds[id]]
    requires db'.rounds[id].date == req.date && (spent ==> ForceFree(db, req))
    requires db'.usage == if spent then SpendForce(db, req).usage else db.usage
    requires forall u :: L.Marked(db'.rounds[id], u) ==> L.Marked(db.rounds[id], u) || (u == req.attacker && spent)
    requires forall k :: k in db.rounds && k != id ==> L.NoNewMarks(db.rounds[k], db'.rounds[k])
    ensures MarksPaid(db, db', req.attacker, req.date, id)
  {
    hide L.Marked, L.NoNewMarks, SpendForce, ForceFree, Paid;
    if spent {
      SpendForceLaws(db, req);
      PaidIsUsage(db, SpendForce(db, req), db', req.attacker, req.date);
    }
  }

  lemma TouchRoundLaws(db: Db, req: Request, id: RoundId, pig: Option<PigId>)
    requires Inv(db) && id in db.rounds && SlotOf(db.rounds[id]) == Target(req)
    requires pig.Some? ==> pig == Drawn(db, req.date, req.target)
    ensures Orderly(db, TouchRound(db, req, id, pig).db, req, id, false)
  {
    hide Inv, Safe, RollsKept, NoticesKept, MarksPaid, Touch, SpendForce, ForceFree, OkIn, L.Evolves, L.Marked,
         L.NoNewMarks, L.NoticeKept, RealRoll;
    var r, db' := db.rounds[id], TouchRound(db, req, id, pig).db;
    var t := Touch(r, req, pig, ForceFree(db, req));
    SpendForceUsage(db, req);
    InvAt(db, id);
    InvWorld(db);
    TouchSteps(r, WorldOf(db), req, pig, ForceFree(db, req));
    PutPaid(db, db', req, id, t.round);
    PutKeepsRest(db.rounds, id, t.round);
    TouchPays(db, db', req, id, t.forceSpent);
  }

  lemma SpendForceUsage(db: Db, req: Request)
    ensures SpendForce(db, req) == db.(usage := SpendForce(db, req).usage)
  {
  }

  lemma InvWorld(db: Db)
    requires Inv(db)
    ensures WorldOk(WorldOf(db)) && IndexOk(db.rounds, db.slots)
  {
    hide WorldOk, RoundsOk, IndexOk;
  }

  // ---------------------------------------------------------------- opening a round

  lemma IndexGrows(rounds: map<RoundId, Round>, slots: map<Slot, RoundId>, id: RoundId, r: Round)
    requires IndexOk(rounds, slots) && id !in rounds && SlotOf(r) !in slots && r.status != Completed
    ensures IndexOk(rounds[id := r], slots[SlotOf(r) := id])
  {
  }

  lemma OpenOk(w: World, req: Request, prot: Option<Prot>, pig: Option<PigId>)
    requires WorldOk(w) && OptionOk(prot) && (pig.Some? ==> pig == RealRoll(At(w.growth, req.target), req.date))
    requires prot.Some? && req.gathering ==> Lookup(w.prots, Target(req)) == prot
    requires prot.None? ==> Target(req) !in w.prots && (req.date, req.target) !in w.globals
    requires prot.Some? && req.mode != Super ==> Capable(req)
    ensures var r := Open(req, OptionLevel(prot), pig);
      && OkIn(r, w) && r.notice == NoNotice && SlotOf(r) == Target(req) && r.status in {Pending, Ready}
      && r.date == req.date
      && forall u :: L.Marked(r, u) ==> u == req.attacker && req.mode == Normal
  {
    hide L.RoundOk, L.Marked, WorldOk, RealRoll, OptionLevel, Open;
    ContextAtOk(w, Target(req));
    OpenShape(req, OptionLevel(prot), pig);
    L.OpenLaws(req, OptionLevel(prot), pig, ContextAt(w, Target(req))) by {
      OptionLevelNone(prot);
    }
  }

  lemma OptionLevelNone(prot: Option<Prot>)
    ensures OptionLevel(prot).Some? <==> prot.Some?
  {
  }

  lemma OpenShape(req: Request, level: Option<nat>, pig: Option<PigId>)
    ensures var r := Open(req, level, pig); SlotOf(r) == Target(req) && r.status in {Pending, Ready} && r.token.None?
  {
  }

  lemma InsertLaws(db: Db, spent: Db, req: Request, id: RoundId, r: Round)
    requires Inv(db) && id !in db.rounds && spent == db.(usage := spent.usage)
    requires OkIn(r, WorldOf(db)) && r.notice == NoNotice && r.status in {Pending, Ready} && SlotOf(r) == Target(req)
    requires forall u :: L.Marked(r, u) ==> u == req.attacker && Paid(db, spent, req.attacker, req.date)
    requires forall v :: LastForce(Lookup(spent.usage, v)) != LastForce(Lookup(db.usage, v)) ==>
      v == req.attacker && Paid(db, spent, req.attacker, req.date)
    ensures InsertRound(spent, id, r).Commit? ==> Orderly(db, InsertRound(spent, id, r).db, req, id, true)
  {
    hide OkIn, L.Evolves, L.Marked, L.NoticeKept, IndexOk, WorldOk, RollsKept, GrowthFollows, Paid;
    if InsertRound(spent, id, r).Commit? {
      var db' := InsertRound(spent, id, r).db;
      IndexGrows(db.rounds, db.slots, id, r);
      SameGrowth(db.growth);
      PaidIsUsage(db, spent, db', req.attacker, req.date);
      forall k | k in db.rounds
        ensures OkIn(db'.rounds[k], WorldOf(db')) && L.Evolves(db.rounds[k], db'.rounds[k])
        ensures L.NoticeKept(db.rounds[k], db'.rounds[k]) && L.NoNewMarks(db.rounds[k], db'.rounds[k])
      {
        UnchangedOk(db.rounds[k], WorldOf(db));
      }
    }
  }

  lemma PaidIsUsage(db: Db, a: Db, b: Db, u: UserId, date: Date)
    requires a.usage == b.usage
    ensures Paid(db, a, u, date) == Paid(db, b, u, date)
  {
  }

  /** Only the usage table changes, and no force use is spent. */
  lemma UsageLaws(db: Db, db': Db)
    requires Inv(db) && db' == db.(usage := db'.usage)
    ensures Safe(db, db') && MarksKept(db.rounds, db'.rounds) && NoticesKept(db.rounds, db'.rounds)
    ensures RollsKept(db.growth, db'.growth)
  {
    hide OkIn, L.Evolves, L.NoNewMarks, L.NoticeKept, IndexOk, WorldOk, RollsKept, GrowthFollows;
    SameGrowth(db.growth);
    forall k | k in db.rounds
      ensures L.Evolves(db.rounds[k], db.rounds[k]) && L.NoNewMarks(db.rounds[k], db.rounds[k])
      ensures L.NoticeKept(db.rounds[k], db.rounds[k])
    {
      UnchangedOk(db.rounds[k], WorldOf(db));
    }
  }

  lemma UsageIsOrderly(db: Db, db': Db, req: Request, touched: RoundId)
    requires Inv(db) && db' == db.(usage := db'.usage)
    requires forall v :: LastForce(Lookup(db'.usage, v)) == LastForce(Lookup(db.usage, v))
    ensures Orderly(db, db', req, touched, false)
  {
    hide Inv, Safe, RollsKept, NoticesKept, L.Marked;
    UsageLaws(db, db');
  }

  lemma OpenRoundLaws(db: Db, req: Request, prot: Option<Prot>, pig: Option<PigId>, id: RoundId)
    requires Inv(db) && id !in db.rounds && OptionOk(prot)
    requires pig.Some? ==> pig == Drawn(db, req.date, req.target)
    requires prot.Some? && req.gathering ==> Lookup(db.prots, Target(req)) == prot
    requires prot.None? ==> Target(req) !in db.prots && (req.date, req.target) !in db.globals
    requires prot.Some? && req.mode != Super ==> Capable(req)
    ensures var result := OpenRound(db, req, prot, pig, id);
      result.Commit? ==> Orderly(db, result.db, req, id, result.verdict == Created)
  {
    hide Inv, Orderly, OkIn, L.Marked, Open, ConsumeFor, SpendForce, ForceFree, RealRoll, OptionLevel, InsertRound,
         Paid;
    InvWorld(db);
    OpenOk(WorldOf(db), req, prot, pig);
    NothingLaws(db);
    LawfulIsOrderly(db, db, req, id);
    InsertVerdict(db, id, Open(req, OptionLevel(prot), pig));
    var r := Open(req, OptionLevel(prot), pig);
    if req.mode == Normal {
      if ForceFree(db, req) {
        SpendForceLaws(db, req);
        InsertLaws(db, SpendForce(db, req), req, id, r);
        InsertVerdict(SpendForce(db, req), id, r);
      }
    } else if req.mode != Super {
      ConsumeForLaws(db, req);
      var db' := db.(usage := db.usage[req.attacker := ConsumeFor(db, req).0]);
      UsageIsOrderly(db, db', req, id);
      InsertLaws(db, db', req, id, r);
      InsertVerdict(db', id, r);
    } else {
      InsertLaws(db, db, req, id, r);
    }
  }

  lemma InsertVerdict(db: Db, id: RoundId, r: Round)
    ensures InsertRound(db, id, r).Commit? ==> InsertRound(db, id, r).verdict == Created
  {
  }

  // ---------------------------------------------------------------- the whole attempt

  lemma FoundLaws(db: Db, req: Request)
    requires IndexOk(db.rounds, db.slots) && FindRound(db, req).Some?
    ensures var id := FindRound(db, req).value; id in db.rounds && SlotOf(db.rounds[id]) == Target(req)
  {
  }

  function TouchedBy(result: Result, id: RoundId): RoundId {
    if result.Commit? && result.round.Some? then result.round.value else id
  }

  /** An attempt either conflicts and is rolled back or leaves correct tables behind: nothing is lost, no
      notice survives a change to its round, and a force mark appears only for a force use that was spent. */
  lemma PrepareLaws(db: Db, req: Request, seen: bool, expected: Option<RoundId>, id: RoundId)
    requires Inv(db) && (expected.Some? || id !in db.rounds)
    ensures var result := Prepare(db, req, seen, expected, id);
      result.Commit? ==> Orderly(db, result.db, req, TouchedBy(result, id), result.verdict == Created)
  {
    hide Inv, Orderly, Lawful, Guard, FindRound, TouchRound, OpenRound, RealRoll;
    var (mid, prot) := Guard(db, req);
    GuardLaws(db, req);
    LawfulParts(db, mid);
    SafeInv(db, mid);
    LawfulIsOrderly(db, mid, req, id);
    if prot.Some? && !Capable(req) && req.mode != Super {
    } else {
      var pig := if seen then Drawn(db, req.date, req.target) else None;
      var found := FindRound(db, req);
      if !Misses(db, expected, found, pig) {
        if found.Some? && found.value in db.rounds {
          InvWorld(db);
          FoundLaws(db, req);
          TouchRoundLaws(mid, req, found.value, pig);
          TouchVerdict(mid, req, found.value, pig);
          OrderlyAfter(db, mid, TouchRound(mid, req, found.value, pig).db, req, found.value, false);
        } else {
          OpenRoundLaws(mid, req, prot, pig, id);
          OpenVerdict(mid, req, prot, pig, id);
          var result := OpenRound(mid, req, prot, pig, id);
          if result.Commit? {
            OrderlyAfter(db, mid, result.db, req, id, result.verdict == Created);
          }
        }
      }
    }
  }

  lemma SafeInv(db: Db, db': Db)
    requires Safe(db, db')
    ensures Inv(db')
  {
    hide Inv, Follows;
  }

  lemma TouchVerdict(db: Db, req: Request, id: RoundId, pig: Option<PigId>)
    requires id in db.rounds
    ensures var result := TouchRound(db, req, id, pig);
      result.Commit? && result.verdict != Created && result.round == Some(id)
  {
  }

  lemma OpenVerdict(db: Db, req: Request, prot: Option<Prot>, pig: Option<PigId>, id: RoundId)
    ensures var result := OpenRound(db, req, prot, pig, id);
      && (result.Commit? ==> (result.round == if result.verdict == Created then Some(id) else None))
      && (result.Commit? && result.verdict == Created ==>
            id in result.db.rounds && SlotOf(result.db.rounds[id]) == Target(req))
  {
    hide Open, ConsumeFor, SpendForce, ForceFree;
    OpenShape(req, OptionLevel(prot), pig);
  }

  /** A round that a request opened is the requested one. */
  lemma OpenedIsRequested(db: Db, req: Request, seen: bool, expected: Option<RoundId>, id: RoundId)
    ensures var result := Prepare(db, req, seen, expected, id);
      result.Commit? && result.verdict == Created ==>
        && expected.None? && result.round == Some(id) && id in result.db.rounds
        && SlotOf(result.db.rounds[id]) == Target(req)
  {
    hide Guard, FindRound, TouchRound, OpenRound, RealRoll, SlotOf, Target;
    var (mid, prot) := Guard(db, req);
    GuardShape(db, req);
    var pig := if seen then Drawn(db, req.date, req.target) else None;
    var found := FindRound(db, req);
    OpenVerdict(mid, req, prot, pig, id);
    if found.Some? && found.value in mid.rounds {
      TouchVerdict(mid, req, found.value, pig);
    }
  }

  // ---------------------------------------------------------------- conflicts

  predicate IsProtected(db: Db, req: Request) {
    Target(req) in db.prots || GlobalOf(db, Target(req)).Some?
  }

  /** The resource a new round costs is there. */
  predicate CanAfford(db: Db, req: Request) {
    if req.mode == Normal then ForceFree(db, req) else req.mode == Super || ConsumeFor(db, req).1.allowed
  }

  /** An ignited round without a threshold keeps its slot but is invisible to ordinary requests. */
  predicate HiddenRound(db: Db, req: Request) {
    var s := Target(req);
    && s in db.slots && db.slots[s] in db.rounds && req.mode != Super
    && db.rounds[db.slots[s]].status != Pending && db.rounds[db.slots[s]].required == 0
  }

  /** The retry after a conflict is meant to join the winner.  An attempt that reads the current draw conflicts exactly
      when an ignited round without a threshold hides in the slot, the cost of a new round can be paid, and the target
      has come under protection since. */
  lemma ConflictIff(db: Db, req: Request, seen: bool, id: RoundId)
    requires Inv(db) && id !in db.rounds
    ensures Prepare(db, req, seen, None, id) == Conflict
      <==> HiddenRound(db, req) && CanAfford(db, req) && if IsProtected(db, req) then Capable(req) else !seen
  {
    hide Inv, OkIn, IndexOk, OpenRound, CanAfford, RealRoll, Touch, ForceFree, SpendForce;
    InvWorld(db);
    SlotsFacts(db, req);
    GuardShape(db, req);
    if HiddenRound(db, req) {
      InvAt(db, db.slots[Target(req)]);
      HiddenHasArrived(db.rounds[db.slots[Target(req)]], WorldOf(db));
    }
    var (mid, prot) := Guard(db, req);
    var pig := if seen then Drawn(db, req.date, req.target) else None;
    OpenConflictIff(mid, req, prot, pig, id);
    AffordIsUsage(db, mid, req);
  }

  lemma OpenConflictIff(db: Db, req: Request, prot: Option<Prot>, pig: Option<PigId>, id: RoundId)
    ensures OpenRound(db, req, prot, pig, id) == Conflict
      <==> Target(req) in db.slots && CanAfford(db, req)
           && !(pig.Some? && (prot.None? || (req.mode == Super && !req.gathering)))
  {
    hide Open, ConsumeRoast, ConsumeForce, LastForce;
    OpenShape(req, OptionLevel(prot), pig);
  }

  lemma AffordIsUsage(a: Db, b: Db, req: Request)
    requires a.usage == b.usage
    ensures CanAfford(a, req) == CanAfford(b, req)
  {
    hide ConsumeRoast, LastForce;
  }

  lemma SlotsFacts(db: Db, req: Request)
    requires IndexOk(db.rounds, db.slots)
    ensures Target(req) in db.slots ==>
      db.slots[Target(req)] in db.rounds && SlotOf(db.rounds[db.slots[Target(req)]]) == Target(req)
  {
  }

  lemma HiddenHasArrived(r: Round, w: World)
    requires OkIn(r, w) && r.status != Pending
    ensures r.pig.Some? && RealRoll(At(w.growth, r.target), r.date) == r.pig
  {
  }

  lemma GuardShape(db: Db, req: Request)
    ensures var (mid, prot) := Guard(db, req);
      mid == db.(prots := mid.prots) && (prot.Some? <==> IsProtected(db, req))
  {
    hide InheritGlobal;
  }

  // ---------------------------------------------------------------- global protection that comes late

  /** The rounds that wait in a slot without having been taken over ask for what its row says. */
  ghost predicate SlotAgrees(db: Db, s: Slot) {
    forall id ::
      && id in db.rounds && SlotOf(db.rounds[id]) == s && db.rounds[id].status == Pending
      && db.rounds[id].mode != Super ==>
      db.rounds[id].required == L.RequiredBy(OptionLevel(Lookup(db.prots, s)))
  }

  /** Global rows have to be there before the first round of the day.  A global row that is added later is
      copied into the group without a sync, and the thresholds still agree exactly if nothing waits there. */
  lemma LateGlobalAgreesIff(db: Db, req: Request, global: Prot)
    requires Inv(db) && ProtOk(global) && req.gathering
    requires Target(req) !in db.prots && (req.date, req.target) !in db.globals
    ensures var late := db.(globals := db.globals[(req.date, req.target) := global]);
      SlotAgrees(Guard(late, req).0, Target(req))
      <==> forall id :: id in db.rounds && SlotOf(db.rounds[id]) == Target(req) ==>
        db.rounds[id].status != Pending || db.rounds[id].mode == Super
  {
    hide Inv, ProtOk;
    var late := db.(globals := db.globals[(req.date, req.target) := global]);
    InheritedLevel(global);
    forall id | id in db.rounds && SlotOf(db.rounds[id]) == Target(req) && db.rounds[id].status == Pending &&
      db.rounds[id].mode != Super
      ensures db.rounds[id].required == 0
    {
      InvAt(db, id);
    }
    assert Lookup(Guard(late, req).0.prots, Target(req)) == Some(InheritGlobal(global));
  }

  lemma InheritedLevel(global: Prot)
    requires ProtOk(global)
    ensures LevelInForce(InheritGlobal(global)) >= 1
  {
    LevelInRange(global);
    InheritOk(global);
    LevelOk(InheritGlobal(global));
  }
}
