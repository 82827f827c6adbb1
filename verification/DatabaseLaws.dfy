/** The invariant of the tables and its preservation by every transaction. */
module DatabaseLaws {
  import opened Base
  import opened Growth
  import opened Protections
  import opened Rounds
  import opened Usage
  import opened Database
  import L = RoundLaws

  /** The tables that rounds depend on. */
  datatype World = World(prots: map<Slot, Prot>, globals: map<(Date, UserId), Prot>, growth: map<UserId, UserGrowth>)

  function WorldOf(db: Db): World {
    World(db.prots, db.globals, db.growth)
  }

  /** What the tables say about the target of a slot. */
  function ContextAt(w: World, s: Slot): L.Context {
    L.Context(OptionLevel(Lookup(w.prots, s)), (s.date, s.user) in w.globals, RealRoll(At(w.growth, s.user), s.date))
  }

  ghost predicate OkIn(r: Round, w: World) {
    L.RoundOk(r, ContextAt(w, SlotOf(r)))
  }

  /** Slot uniqueness: the index lists exactly the rounds that are not completed, one per slot. */
  ghost predicate IndexOk(rounds: map<RoundId, Round>, slots: map<Slot, RoundId>) {
    && (forall s :: s in slots ==>
           slots[s] in rounds && SlotOf(rounds[slots[s]]) == s && rounds[slots[s]].status != Completed)
    && (forall id :: id in rounds && rounds[id].status != Completed ==>
          SlotOf(rounds[id]) in slots && slots[SlotOf(rounds[id])] == id)
  }

  ghost predicate RoundsOk(rounds: map<RoundId, Round>, w: World) {
    forall id :: id in rounds ==> OkIn(rounds[id], w)
  }

  ghost predicate LedgersOk(growth: map<UserId, UserGrowth>) {
    forall u :: u in growth ==> LedgerOk(growth[u])
  }

  ghost predicate WorldOk(w: World) {
    && (forall s :: s in w.prots ==> ProtOk(w.prots[s]))
    && (forall k :: k in w.globals ==> ProtOk(w.globals[k]))
    && LedgersOk(w.growth)
  }

  ghost predicate Inv(db: Db) {
    IndexOk(db.rounds, db.slots) && WorldOk(WorldOf(db)) && RoundsOk(db.rounds, WorldOf(db))
  }

  ghost predicate RoundsFollow(rounds: map<RoundId, Round>, rounds': map<RoundId, Round>) {
    forall id :: id in rounds ==> id in rounds' && L.Evolves(rounds[id], rounds'[id])
  }

  ghost predicate GrowthFollows(growth: map<UserId, UserGrowth>, growth': map<UserId, UserGrowth>) {
    growth == growth' || forall u :: Extends(At(growth, u), At(growth', u))
  }

  /** No round or ledger entry is lost and each changes only as it may. */
  ghost predicate Follows(db: Db, db': Db) {
    db'.globals == db.globals && RoundsFollow(db.rounds, db'.rounds) && GrowthFollows(db.growth, db'.growth)
  }

  /** No round is opened and nobody pays a force use into one. */
  ghost predicate MarksKept(rounds: map<RoundId, Round>, rounds': map<RoundId, Round>) {
    rounds'.Keys == rounds.Keys && forall id :: id in rounds ==> L.NoNewMarks(rounds[id], rounds'[id])
  }

  /** No notice token is handed out, and none survives a change to its round. */
  ghost predicate NoticesKept(rounds: map<RoundId, Round>, rounds': map<RoundId, Round>) {
    forall id :: id in rounds && id in rounds' ==> L.NoticeKept(rounds[id], rounds'[id])
  }

  /** No target arrives. */
  ghost predicate RollsKept(growth: map<UserId, UserGrowth>, growth': map<UserId, UserGrowth>) {
    forall u, date {:trigger RealRoll(At(growth', u), date)} ::
      RealRoll(At(growth', u), date) == RealRoll(At(growth, u), date)
  }

  /** Correctness is kept and the past is respected. */
  ghost predicate Safe(db: Db, db': Db) {
    Inv(db') && Follows(db, db')
  }

  /** Nothing is opened, paid, minted or drawn either. */
  ghost predicate Lawful(db: Db, db': Db) {
    && Safe(db, db') && db'.usage == db.usage && MarksKept(db.rounds, db'.rounds)
    && NoticesKept(db.rounds, db'.rounds) && RollsKept(db.growth, db'.growth)
  }

  lemma LevelOk(p: Prot)
    requires ProtOk(p)
    ensures 1 <= LevelInForce(p) <= 5 && LevelInForce(p) == Level(p)
  {
    LevelInRange(p);
  }

  lemma ContextAtOk(w: World, s: Slot)
    requires WorldOk(w)
    ensures L.ContextOk(ContextAt(w, s))
  {
    if s in w.prots { LevelOk(w.prots[s]); }
  }

  /** A round stays correct when the world around it changes, unless it waits and the threshold moves. */
  lemma ContextChange(r: Round, c: L.Context, c': L.Context)
    requires L.RoundOk(r, c) && (c.roll.Some? ==> c'.roll == c.roll)
    requires r.status == Pending && r.mode != Super ==> c'.level == c.level && c'.global == c.global
    ensures L.RoundOk(r, c')
  {
  }

  /** The ledger of every user, recorded or not, is true. */
  lemma LedgerAt(growth: map<UserId, UserGrowth>, u: UserId)
    requires LedgersOk(growth)
    ensures LedgerOk(At(growth, u))
  {
    NewcomerOk();
  }

  // ---------------------------------------------------------------- rows change one by one

  /** The round may turn into this one: it is correct, keeps its slot, and shows no new mark. */
  ghost predicate Steps(r: Round, r': Round, w: World) {
    OkIn(r', w) && L.Evolves(r, r') && L.NoNewMarks(r, r') && SlotOf(r') == SlotOf(r)
  }

  /** Every round of the table may turn into its successor. */
  ghost predicate AllStep(rounds: map<RoundId, Round>, rounds': map<RoundId, Round>, w: World) {
    rounds'.Keys == rounds.Keys && forall id :: id in rounds ==> Steps(rounds[id], rounds'[id], w)
  }

  lemma SameStep(r: Round, w: World)
    requires OkIn(r, w)
    ensures Steps(r, r, w) && L.NoticeKept(r, r)
  {
    hide L.RoundOk;
  }

  lemma AllStepLaws(rounds: map<RoundId, Round>, rounds': map<RoundId, Round>, w: World)
    requires AllStep(rounds, rounds', w)
    ensures RoundsOk(rounds', w) && RoundsFollow(rounds, rounds') && MarksKept(rounds, rounds')
  {
    hide OkIn, L.Evolves, L.NoNewMarks;
    forall id | id in rounds
      ensures Steps(rounds[id], rounds'[id], w)
    {
    }
  }

  /** As long as no round is completed the index stays as it is. */
  lemma IndexStays(rounds: map<RoundId, Round>, rounds': map<RoundId, Round>, slots: map<Slot, RoundId>)
    requires IndexOk(rounds, slots) && rounds'.Keys == rounds.Keys
    requires forall id :: id in rounds ==> SlotOf(rounds'[id]) == SlotOf(rounds[id])
                                           && (rounds'[id].status == Completed <==> rounds[id].status == Completed)
    ensures IndexOk(rounds', slots)
  {
  }

  lemma StepsSlot(r: Round, r': Round, w: World)
    requires Steps(r, r', w)
    ensures SlotOf(r') == SlotOf(r)
  {
    hide OkIn, L.Evolves, L.NoNewMarks;
  }

  lemma SameGrowth(growth: map<UserId, UserGrowth>)
    ensures GrowthFollows(growth, growth) && RollsKept(growth, growth)
  {
  }

  lemma InvAt(db: Db, id: RoundId)
    requires Inv(db) && id in db.rounds
    ensures OkIn(db.rounds[id], WorldOf(db))
  {
    hide OkIn, WorldOk, IndexOk;
  }

  /** Only rounds change. */
  lemma RoundsChange(db: Db, db': Db)
    requires Inv(db) && db' == db.(rounds := db'.rounds)
    requires AllStep(db.rounds, db'.rounds, WorldOf(db))
    requires forall id :: id in db.rounds ==>
      (db'.rounds[id].status == Completed <==> db.rounds[id].status == Completed)
    ensures Safe(db, db') && db'.usage == db.usage && MarksKept(db.rounds, db'.rounds)
    ensures RollsKept(db.growth, db'.growth)
  {
    hide Steps, RoundsOk, RoundsFollow, MarksKept, IndexOk, WorldOk, GrowthFollows, RollsKept, SlotOf;
    forall id | id in db.rounds
      ensures SlotOf(db'.rounds[id]) == SlotOf(db.rounds[id])
    {
      StepsSlot(db.rounds[id], db'.rounds[id], WorldOf(db));
    }
    IndexStays(db.rounds, db'.rounds, db.slots);
    AllStepLaws(db.rounds, db'.rounds, WorldOf(db));
    SameGrowth(db.growth);
  }

  lemma PutStep(rounds: map<RoundId, Round>, w: World, id: RoundId, r: Round)
    requires RoundsOk(rounds, w) && id in rounds && Steps(rounds[id], r, w) && L.NoticeKept(rounds[id], r)
    ensures AllStep(rounds, rounds[id := r], w) && NoticesKept(rounds, rounds[id := r])
  {
    hide Steps, OkIn, L.NoticeKept;
    forall k | k in rounds
      ensures Steps(rounds[k], rounds[id := r][k], w) && L.NoticeKept(rounds[k], rounds[id := r][k])
    {
      SameStep(rounds[k], w);
    }
  }

  /** One round changes. */
  lemma PutRoundLaws(db: Db, id: RoundId, r: Round)
    requires Inv(db) && id in db.rounds && Steps(db.rounds[id], r, WorldOf(db)) && L.NoticeKept(db.rounds[id], r)
    requires r.status == Completed <==> db.rounds[id].status == Completed
    ensures Lawful(db, PutRound(db, id, r))
  {
    hide Safe, Steps, AllStep, MarksKept, NoticesKept, RollsKept, L.NoticeKept, RoundsOk, IndexOk, WorldOk;
    PutStep(db.rounds, WorldOf(db), id, r);
    RoundsChange(db, PutRound(db, id, r));
  }

  lemma NothingLaws(db: Db)
    requires Inv(db)
    ensures Lawful(db, db)
  {
    hide Inv, Safe, Steps, MarksKept, RollsKept, OkIn, L.NoticeKept;
    forall k | k in db.rounds
      ensures Steps(db.rounds[k], db.rounds[k], WorldOf(db)) && L.NoticeKept(db.rounds[k], db.rounds[k])
    {
      InvAt(db, k);
      SameStep(db.rounds[k], WorldOf(db));
    }
    RoundsChange(db, db);
  }

  // ---------------------------------------------------------------- leases and delivery

  lemma NoticeSteps(r: Round, w: World, token: Token, action: NoticeAction, today: Date)
    requires OkIn(r, w)
    ensures Steps(r, MoveNotice(r, token, action, today).0, w) && L.NoticeKept(r, MoveNotice(r, token, action, today).0)
    ensures MoveNotice(r, token, action, today).0.status == Completed <==> r.status == Completed
  {
    hide L.RoundOk, L.NoticeKept, L.NoNewMarks;
    L.MoveNoticeLaws(r, token, action, today, ContextAt(w, SlotOf(r)));
  }

  lemma NoticeTxLaws(db: Db, id: RoundId, token: Token, action: NoticeAction, today: Date)
    requires Inv(db)
    ensures Lawful(db, NoticeTx(db, id, token, action, today).0)
  {
    hide Inv, Lawful, MoveNotice, OkIn, Steps, L.NoticeKept;
    if id in db.rounds {
      InvAt(db, id);
      NoticeSteps(db.rounds[id], WorldOf(db), token, action, today);
      PutRoundLaws(db, id, MoveNotice(db.rounds[id], token, action, today).0);
    } else {
      NothingLaws(db);
    }
  }

  lemma SaveOutcomeSteps(r: Round, w: World, token: Token, outcome: Outcome)
    requires OkIn(r, w)
    ensures Steps(r, SaveOutcome(r, token, outcome).0, w) && L.NoticeKept(r, SaveOutcome(r, token, outcome).0)
    ensures SaveOutcome(r, token, outcome).0.status == Completed <==> r.status == Completed
  {
    hide L.RoundOk, L.NoticeKept, L.NoNewMarks;
    L.SaveOutcomeLaws(r, token, outcome, ContextAt(w, SlotOf(r)));
  }

  lemma SaveOutcomeTxLaws(db: Db, id: RoundId, token: Token, outcome: Outcome)
    requires Inv(db)
    ensures Lawful(db, SaveOutcomeTx(db, id, token, outcome).0)
  {
    hide Inv, Lawful, SaveOutcome, OkIn, Steps, L.NoticeKept;
    if id in db.rounds {
      InvAt(db, id);
      SaveOutcomeSteps(db.rounds[id], WorldOf(db), token, outcome);
      PutRoundLaws(db, id, SaveOutcome(db.rounds[id], token, outcome).0);
    } else {
      NothingLaws(db);
    }
  }

  lemma MarkSendingSteps(r: Round, w: World, token: Token)
    requires OkIn(r, w)
    ensures Steps(r, MarkSending(r, token).0, w) && L.NoticeKept(r, MarkSending(r, token).0)
    ensures MarkSending(r, token).0.status == Completed <==> r.status == Completed
  {
    hide L.RoundOk, L.NoticeKept, L.NoNewMarks;
    L.MarkSendingLaws(r, token, ContextAt(w, SlotOf(r)));
  }

  lemma MarkSendingTxLaws(db: Db, id: RoundId, token: Token)
    requires Inv(db)
    ensures Lawful(db, MarkSendingTx(db, id, token).0)
  {
    hide Inv, Lawful, MarkSending, OkIn, Steps, L.NoticeKept;
    if id in db.rounds {
      InvAt(db, id);
      MarkSendingSteps(db.rounds[id], WorldOf(db), token);
      PutRoundLaws(db, id, MarkSending(db.rounds[id], token).0);
    } else {
      NothingLaws(db);
    }
  }

  lemma ReleaseSteps(r: Round, w: World, token: Token)
    requires OkIn(r, w)
    ensures Steps(r, Release(r, token).0, w) && L.NoticeKept(r, Release(r, token).0)
    ensures Release(r, token).0.status == Completed <==> r.status == Completed
  {
    hide L.RoundOk, L.NoticeKept, L.NoNewMarks;
    L.ReleaseLaws(r, token, ContextAt(w, SlotOf(r)));
  }

  lemma ReleaseTxLaws(db: Db, id: RoundId, token: Token)
    requires Inv(db)
    ensures Lawful(db, ReleaseTx(db, id, token).0)
  {
    hide Inv, Lawful, Release, OkIn, Steps, L.NoticeKept;
    if id in db.rounds {
      InvAt(db, id);
      ReleaseSteps(db.rounds[id], WorldOf(db), token);
      PutRoundLaws(db, id, Release(db.rounds[id], token).0);
    } else {
      NothingLaws(db);
    }
  }

  /** Completion frees the slot of the round that had it. */
  lemma IndexFreed(rounds: map<RoundId, Round>, slots: map<Slot, RoundId>, id: RoundId, r: Round)
    requires IndexOk(rounds, slots) && id in rounds && SlotOf(r) == SlotOf(rounds[id])
    requires rounds[id].status != Completed && r.status == Completed
    ensures IndexOk(rounds[id := r], slots - {SlotOf(r)})
  {
  }

  lemma CompleteSteps(r: Round, w: World, token: Token)
    requires OkIn(r, w)
    ensures Steps(r, Complete(r, token).0, w) && L.NoticeKept(r, Complete(r, token).0)
    ensures Complete(r, token).1 ==> Complete(r, token).0.status == Completed
    ensures !Complete(r, token).1 ==> Complete(r, token).0 == r
  {
    hide L.RoundOk, L.NoticeKept, L.NoNewMarks;
    L.CompleteLaws(r, token, ContextAt(w, SlotOf(r)));
  }

  lemma CompleteTxLaws(db: Db, id: RoundId, token: Token)
    requires Inv(db)
    ensures Lawful(db, CompleteTx(db, id, token).0)
  {
    hide Steps, AllStep, RoundsOk, RoundsFollow, MarksKept, NoticesKept, IndexOk, WorldOk, GrowthFollows, RollsKept,
         SlotOf, Complete, OkIn, L.NoticeKept;
    if id in db.rounds {
      var r, w := db.rounds[id], WorldOf(db);
      var (r', ok) := Complete(r, token);
      InvAt(db, id);
      CompleteSteps(r, w, token);
      StepsSlot(r, r', w);
      PutStep(db.rounds, w, id, r');
      AllStepLaws(db.rounds, db.rounds[id := r'], w);
      SameGrowth(db.growth);
      if ok && r.status != Completed {
        IndexFreed(db.rounds, db.slots, id, r');
      } else {
        PutIndex(db.rounds, db.slots, id, r');
      }
    } else {
      NothingLaws(db);
    }
  }

  lemma PutIndex(rounds: map<RoundId, Round>, slots: map<Slot, RoundId>, id: RoundId, r: Round)
    requires IndexOk(rounds, slots) && id in rounds && SlotOf(r) == SlotOf(rounds[id])
    requires r.status == Completed <==> rounds[id].status == Completed
    ensures IndexOk(rounds[id := r], slots)
  {
  }

  // ---------------------------------------------------------------- the world changes

  /** The world changes and every round follows. */
  lemma WorldChange(db: Db, db': Db)
    requires Inv(db) && db' == db.(rounds := db'.rounds, prots := db'.prots, growth := db'.growth)
    requires WorldOk(WorldOf(db')) && GrowthFollows(db.growth, db'.growth)
    requires AllStep(db.rounds, db'.rounds, WorldOf(db'))
    requires forall id :: id in db.rounds ==>
      (db'.rounds[id].status == Completed <==> db.rounds[id].status == Completed)
    ensures Safe(db, db') && db'.usage == db.usage && MarksKept(db.rounds, db'.rounds)
  {
    hide Steps, RoundsOk, RoundsFollow, MarksKept, IndexOk, WorldOk, GrowthFollows, SlotOf;
    forall id | id in db.rounds
      ensures SlotOf(db'.rounds[id]) == SlotOf(db.rounds[id])
    {
      StepsSlot(db.rounds[id], db'.rounds[id], WorldOf(db'));
    }
    IndexStays(db.rounds, db'.rounds, db.slots);
    AllStepLaws(db.rounds, db'.rounds, WorldOf(db'));
  }

  /** A round that does not change is at home in the new world too, unless it waits and its threshold moves. */
  lemma StaysOk(r: Round, w: World, w': World)
    requires OkIn(r, w)
    requires RealRoll(At(w.growth, r.target), r.date).Some? ==>
               RealRoll(At(w'.growth, r.target), r.date) == RealRoll(At(w.growth, r.target), r.date)
    requires r.status == Pending && r.mode != Super ==>
               && OptionLevel(Lookup(w'.prots, SlotOf(r))) == OptionLevel(Lookup(w.prots, SlotOf(r)))
               && w'.globals == w.globals
    ensures OkIn(r, w') && Steps(r, r, w') && L.NoticeKept(r, r)
  {
    hide L.RoundOk, RealRoll, OptionLevel, Steps;
    ContextChange(r, ContextAt(w, SlotOf(r)), ContextAt(w', SlotOf(r)));
    SameStep(r, w');
  }

  lemma FeedOneLaws(growth: map<UserId, UserGrowth>, date: Date, order: seq<UserId>, source: FeedSource, u: UserId)
    requires LedgersOk(growth)
    ensures var g := FedAlone(growth, date, order, source, u);
      LedgerOk(g) && Extends(At(growth, u), g) && g.rolls == At(growth, u).rolls
  {
    hide LedgerOk, Extends, Feed, At;
    LedgerAt(growth, u);
    FeedKeepsLedger(At(growth, u), date, source);
    ExtendsRefl(At(growth, u));
  }

  lemma FeedAllLaws(growth: map<UserId, UserGrowth>, date: Date, order: seq<UserId>, source: FeedSource)
    requires LedgersOk(growth) && NoDuplicates(order)
    ensures LedgersOk(FeedAll(growth, date, order, source))
    ensures GrowthFollows(growth, FeedAll(growth, date, order, source))
    ensures RollsKept(growth, FeedAll(growth, date, order, source))
  {
    hide LedgerOk, Extends, FedAlone, FeedAll;
    var after := FeedAll(growth, date, order, source);
    FeedAllPointwise(growth, date, order, source);
    forall u
      ensures LedgerOk(At(after, u)) && Extends(At(growth, u), At(after, u))
      ensures At(after, u).rolls == At(growth, u).rolls
    {
      FeedOneLaws(growth, date, order, source, u);
      assert At(after, u) == FedAlone(growth, date, order, source, u);
    }
    forall u | u in after
      ensures LedgerOk(after[u])
    {
      assert after[u] == At(after, u);
    }
  }

  /** Members are distinct, so the users a round feeds are. */
  lemma {:induction false} EligibleIsDistinct(r: Round, ms: seq<Member>)
    requires forall i, j :: 0 <= i < j < |ms| ==> ms[i].user != ms[j].user
    ensures NoDuplicates(EligibleOf(r, ms))
    ensures forall u :: u in EligibleOf(r, ms) ==> HasMember(ms, u)
    decreases |ms|
  {
    if ms != [] {
      var n := |ms| - 1;
      EligibleIsDistinct(r, ms[..n]);
      assert ms[n].user !in EligibleOf(r, ms[..n]);
      forall u | u in EligibleOf(r, ms)
        ensures HasMember(ms, u)
      {
        if u in EligibleOf(r, ms[..n]) {
          var i :| 0 <= i < n && ms[..n][i].user == u;
          assert ms[i].user == u;
        } else {
          assert ms[n].user == u;
        }
      }
    }
  }

  /** Raising the count without a sync is safe: the round that broke through still holds its slot, so no other
      round waits behind the same row. */
  lemma BreakThroughIsAlone(db: Db, id: RoundId)
    requires IndexOk(db.rounds, db.slots) && id in db.rounds && db.rounds[id].status == Processing
    ensures forall k :: k in db.rounds && SlotOf(db.rounds[k]) == SlotOf(db.rounds[id]) ==>
      db.rounds[k].status != Pending
  {
  }

  /** The world after a first outcome: one count may be higher and some users are fed. */
  function FixedWorld(db: Db, id: RoundId, outcome: Outcome, settle: bool): World
    requires id in db.rounds
  {
    var r := db.rounds[id];
    World(BrokenThrough(db, r, outcome), db.globals,
          FeedAll(db.growth, r.date, Settled(r, outcome, settle), FromRound(id)))
  }

  lemma FeedsDistinct(r: Round, w: World, outcome: Outcome, settle: bool)
    requires OkIn(r, w)
    ensures NoDuplicates(Settled(r, outcome, settle))
  {
    EligibleIsDistinct(r, r.members);
  }

  lemma BrokenThroughLaws(db: Db, r: Round, outcome: Outcome)
    requires WorldOk(WorldOf(db))
    ensures forall s :: s in BrokenThrough(db, r, outcome) ==> ProtOk(BrokenThrough(db, r, outcome)[s])
    ensures forall s :: s != SlotOf(r) ==> Lookup(BrokenThrough(db, r, outcome), s) == Lookup(db.prots, s)
  {
  }

  lemma FixedWorldLaws(db: Db, id: RoundId, outcome: Outcome, settle: bool)
    requires Inv(db) && id in db.rounds && db.rounds[id].status == Processing
    ensures var w := FixedWorld(db, id, outcome, settle);
      && WorldOk(w) && RoundsOk(db.rounds, w)
      && GrowthFollows(db.growth, w.growth) && RollsKept(db.growth, w.growth)
  {
    hide OkIn, ProtOk, LedgersOk, GrowthFollows, Settled, BrokenThrough, FeedAll, IndexOk, RealRoll, At;
    var r, w := db.rounds[id], FixedWorld(db, id, outcome, settle);
    FeedsDistinct(r, WorldOf(db), outcome, settle);
    FeedAllLaws(db.growth, r.date, Settled(r, outcome, settle), FromRound(id));
    BrokenThroughLaws(db, r, outcome);
    BreakThroughIsAlone(db, id);
    forall k | k in db.rounds
      ensures OkIn(db.rounds[k], w)
    {
      StaysOk(db.rounds[k], WorldOf(db), w);
    }
  }

  lemma PrepareOutcomeSteps(r: Round, w: World, token: Token, outcome: Outcome, results: seq<(UserId, FeedResult)>)
    requires OkIn(r, w)
    ensures var r' := PrepareOutcome(r, token, outcome, results).0;
      Steps(r, r', w) && L.NoticeKept(r, r') && (r'.status == Completed <==> r.status == Completed)
  {
    hide L.RoundOk, L.NoticeKept, L.NoNewMarks;
    L.PrepareOutcomeLaws(r, token, outcome, results, ContextAt(w, SlotOf(r)));
  }

  lemma FirstOutcomeLaws(db: Db, id: RoundId, token: Token, outcome: Outcome, settle: bool)
    requires Inv(db) && id in db.rounds && PrepareFixing(db.rounds[id], token, outcome) == First
    ensures Lawful(db, PrepareOutcomeTx(db, id, token, outcome, settle).0)
  {
    hide Steps, AllStep, RoundsOk, MarksKept, NoticesKept, RollsKept, IndexOk, WorldOk, GrowthFollows, Safe,
         PrepareOutcome, BrokenThrough, FeedAll, Settled;
    var r, w, db' := db.rounds[id], FixedWorld(db, id, outcome, settle),
        PrepareOutcomeTx(db, id, token, outcome, settle).0;
    FixedWorldLaws(db, id, outcome, settle);
    RoundAt(db.rounds, w, id);
    var results := FeedResults(db.growth, r.date, Settled(r, outcome, settle), FromRound(id));
    PrepareOutcomeSteps(r, w, token, outcome, results);
    PutStep(db.rounds, w, id, PrepareOutcome(r, token, outcome, results).0);
    WorldChange(db, db');
  }

  lemma RoundAt(rounds: map<RoundId, Round>, w: World, id: RoundId)
    requires RoundsOk(rounds, w) && id in rounds
    ensures OkIn(rounds[id], w)
  {
    hide OkIn;
  }

  lemma PrepareOutcomeTxLaws(db: Db, id: RoundId, token: Token, outcome: Outcome, settle: bool)
    requires Inv(db)
    ensures Lawful(db, PrepareOutcomeTx(db, id, token, outcome, settle).0)
  {
    hide Inv, Lawful, PrepareFixing, PrepareOutcome, OkIn, Steps, L.NoticeKept, Settled, FeedAll, BrokenThrough;
    if id in db.rounds {
      var r := db.rounds[id];
      if PrepareFixing(r, token, outcome) == First {
        FirstOutcomeLaws(db, id, token, outcome, settle);
      } else {
        var results := FeedResults(db.growth, r.date, Settled(r, outcome, settle), FromRound(id));
        InvAt(db, id);
        PrepareOutcomeSteps(r, WorldOf(db), token, outcome, results);
        PutRoundLaws(db, id, PrepareOutcome(r, token, outcome, results).0);
      }
    } else {
      NothingLaws(db);
    }
  }

  // ---------------------------------------------------------------- draws

  /** The real draw of the day, after one more row was inserted. */
  lemma DrawGrowth(growth: map<UserId, UserGrowth>, user: UserId, date: Date, pig: PigId, makeup: bool)
    requires LedgersOk(growth) && date !in At(growth, user).rolls
    ensures var growth' := growth[user := Draw(At(growth, user), date, pig, makeup)];
      && LedgersOk(growth') && GrowthFollows(growth, growth')
      && (forall u, d {:trigger RealRoll(At(growth', u), d)} ::
            RealRoll(At(growth', u), d) ==
              if u == user && d == date then (if makeup then None else Some(pig)) else RealRoll(At(growth, u), d))
      && RealRoll(At(growth, user), date).None?
  {
    hide LedgerOk, Extends, Draw;
    var growth' := growth[user := Draw(At(growth, user), date, pig, makeup)];
    LedgerAt(growth, user);
    DrawKeepsLedger(At(growth, user), date, pig, makeup);
    DrawRolls(At(growth, user), date, pig, makeup);
    forall u
      ensures Extends(At(growth, u), At(growth', u))
    {
      ExtendsRefl(At(growth, u));
    }
  }

  lemma DrawRolls(g: UserGrowth, date: Date, pig: PigId, makeup: bool)
    ensures RealRoll(Draw(g, date, pig, makeup), date) == if makeup then None else Some(pig)
    ensures forall d :: d != date ==> RealRoll(Draw(g, date, pig, makeup), d) == RealRoll(g, d)
  {
  }

  lemma ReconcileSteps(r: Round, w: World, pig: PigId, handled: bool)
    requires OkIn(r, w) && WorldOk(w) && r.status == Pending && RealRoll(At(w.growth, r.target), r.date) == Some(pig)
    ensures var r' := Reconcile(r, pig, handled);
      Steps(r, r', w) && L.NoticeKept(r, r') && r'.status != Completed && r'.pig == Some(pig)
  {
    hide L.RoundOk, L.NoticeKept, L.NoNewMarks, WorldOk, RealRoll;
    ContextAtOk(w, SlotOf(r));
    L.ReconcileLaws(r, pig, handled, ContextAt(w, SlotOf(r)));
    ReconcileShape(r, pig, handled);
  }

  lemma ReconcileShape(r: Round, pig: PigId, handled: bool)
    requires r.status == Pending
    ensures var r' := Reconcile(r, pig, handled); SlotOf(r') == SlotOf(r) && r'.status in {Pending, Ready}
    ensures Reconcile(r, pig, false) == Activate(r, pig, true)
  {
  }

  /** The row of a round after the target's draw committed; the draw had it locked or not. */
  lemma DrawSteps(r: Round, w: World, w': World, date: Date, user: UserId, pig: PigId, locked: bool)
    requires OkIn(r, w) && WorldOk(w') && w'.prots == w.prots && w'.globals == w.globals
    requires RealRoll(At(w.growth, user), date).None? && RealRoll(At(w'.growth, user), date) == Some(pig)
    requires (r.target, r.date) != (user, date) ==>
      RealRoll(At(w'.growth, r.target), r.date) == RealRoll(At(w.growth, r.target), r.date)
    ensures var r' := if locked && WaitsFor(r, date, user) then Activate(r, pig, true) else r;
      Steps(r, r', w') && L.NoticeKept(r, r') && (r'.status == Completed <==> r.status == Completed)
  {
    hide OkIn, Steps, L.NoticeKept, WorldOk, RealRoll, Activate, Reconcile;
    StaysOk(r, w, w');
    if WaitsFor(r, date, user) {
      ReconcileShape(r, pig, false);
      ReconcileSteps(r, w', pig, false);
    }
  }

  /** A draw keeps everything correct; the target it brings is the only thing that arrives. */
  lemma DrawTxLaws(db: Db, date: Date, user: UserId, pig: PigId, locked: set<RoundId>)
    requires Inv(db) && date !in At(db.growth, user).rolls
    ensures var db' := DrawTx(db, date, user, pig, locked);
      && Safe(db, db') && db'.usage == db.usage && MarksKept(db.rounds, db'.rounds)
      && NoticesKept(db.rounds, db'.rounds)
      && forall u, d {:trigger Drawn(db', d, u)} ::
           Drawn(db', d, u) == if u == user && d == date then Some(pig) else Drawn(db, d, u)
  {
    hide OkIn, Steps, L.NoticeKept, ProtOk, LedgersOk, GrowthFollows, RealRoll, At, Safe, MarksKept, IndexOk, Activate;
    var db' := DrawTx(db, date, user, pig, locked);
    DrawGrowth(db.growth, user, date, pig, false);
    forall id | id in db.rounds
      ensures Steps(db.rounds[id], db'.rounds[id], WorldOf(db')) && L.NoticeKept(db.rounds[id], db'.rounds[id])
      ensures db'.rounds[id].status == Completed <==> db.rounds[id].status == Completed
    {
      DrawSteps(db.rounds[id], WorldOf(db), WorldOf(db'), date, user, pig, id in locked);
    }
    WorldChange(db, db');
  }

  lemma MakeupTxLaws(db: Db, date: Date, user: UserId, pig: PigId)
    requires Inv(db) && date !in At(db.growth, user).rolls
    ensures Lawful(db, MakeupTx(db, date, user, pig)) && MakeupTx(db, date, user, pig).rounds == db.rounds
  {
    hide OkIn, Steps, L.NoticeKept, ProtOk, LedgersOk, GrowthFollows, RealRoll, At, Safe, MarksKept, IndexOk;
    var db' := MakeupTx(db, date, user, pig);
    DrawGrowth(db.growth, user, date, pig, true);
    forall id | id in db.rounds
      ensures Steps(db.rounds[id], db'.rounds[id], WorldOf(db')) && L.NoticeKept(db.rounds[id], db'.rounds[id])
    {
      StaysOk(db.rounds[id], WorldOf(db), WorldOf(db'));
    }
    WorldChange(db, db');
  }

  /** Reconciliation records the real draw in every waiting round of its target; after a make-up draw it
      does nothing at all. */
  lemma ReconcileTxLaws(db: Db, date: Date, target: UserId, pig: PigId, handled: Option<RoundId>)
    requires Inv(db) && Drawn(db, date, target) == Some(pig)
    ensures var db' := ReconcileTx(db, date, target, pig, handled);
      && Lawful(db, db')
      && forall id :: id in db'.rounds && WaitsFor(db'.rounds[id], date, target) ==> db'.rounds[id].pig == Some(pig)
  {
    hide OkIn, Steps, L.NoticeKept, WorldOk, RollsKept, Safe, MarksKept, IndexOk, Reconcile;
    var db' := ReconcileTx(db, date, target, pig, handled);
    forall id | id in db.rounds
      ensures Steps(db.rounds[id], db'.rounds[id], WorldOf(db)) && L.NoticeKept(db.rounds[id], db'.rounds[id])
      ensures db'.rounds[id].status == Completed <==> db.rounds[id].status == Completed
      ensures WaitsFor(db.rounds[id], date, target) ==> db'.rounds[id].pig == Some(pig)
    {
      InvAt(db, id);
      SameStep(db.rounds[id], WorldOf(db));
      if WaitsFor(db.rounds[id], date, target) {
        ReconcileSteps(db.rounds[id], WorldOf(db), pig, handled == Some(id));
      }
    }
    RoundsChange(db, db');
  }

  // ---------------------------------------------------------------- protection changes

  /** The row of a round in a slot whose protection changed and was synced. */
  lemma SyncSteps(r: Round, w: World, w': World, level: Option<nat>)
    requires OkIn(r, w) && WorldOk(w) && WorldOk(w') && w'.globals == w.globals && w'.growth == w.growth
    requires OptionLevel(Lookup(w'.prots, SlotOf(r))) == level && ((r.date, r.target) in w.globals ==> level.Some?)
    ensures var r' := SyncRound(r, level);
      Steps(r, r', w') && L.NoticeKept(r, r') && (r'.status == Completed <==> r.status == Completed)
  {
    hide L.RoundOk, L.NoticeKept, L.NoNewMarks, WorldOk, RealRoll, OptionLevel, Sync;
    ContextAtOk(w, SlotOf(r));
    ContextAtOk(w', SlotOf(r));
    if r.status == Pending {
      L.SyncLaws(r, level, ContextAt(w, SlotOf(r)));
      SyncSlot(r, level);
      assert ContextAt(w, SlotOf(r)).(level := level) == ContextAt(w', SlotOf(r));
    } else {
      StaysOk(r, w, w');
    }
  }

  lemma SyncSlot(r: Round, level: Option<nat>)
    requires r.status == Pending
    ensures SlotOf(Sync(r, level)) == SlotOf(r) && Sync(r, level).status in {Pending, Ready}
  {
  }

  lemma GlobalOk(db: Db, s: Slot)
    requires WorldOk(WorldOf(db))
    ensures OptionOk(GlobalOf(db, s)) && OptionOk(Lookup(db.prots, s))
  {
    hide ProtOk;
  }

  lemma GrantTxLaws(db: Db, s: Slot, level: int)
    requires Inv(db) && 1 <= level <= MAX_LEVEL
    ensures Lawful(db, GrantTx(db, s, level))
  {
    hide OkIn, Steps, L.NoticeKept, ProtOk, LedgersOk, GrowthFollows, RollsKept, Safe, MarksKept, IndexOk, SyncRound,
         Grant, LevelInForce;
    var db' := GrantTx(db, s, level);
    GlobalOk(db, s);
    GrantKeepsOk(Lookup(db.prots, s), GlobalOf(db, s), level);
    SameGrowth(db.growth);
    forall id | id in db.rounds
      ensures Steps(db.rounds[id], db'.rounds[id], WorldOf(db')) && L.NoticeKept(db.rounds[id], db'.rounds[id])
      ensures db'.rounds[id].status == Completed <==> db.rounds[id].status == Completed
    {
      if SlotOf(db.rounds[id]) == s {
        SyncSteps(db.rounds[id], WorldOf(db), WorldOf(db'), OptionLevel(Lookup(db'.prots, s)));
      } else {
        StaysOk(db.rounds[id], WorldOf(db), WorldOf(db'));
      }
    }
    WorldChange(db, db');
  }

  // ---------------------------------------------------------------- the daily list

  /** While a global protection is there, leaving the list never deletes the row. */
  lemma GlobalKeepsRow(p: Prot, global: Prot)
    requires ProtOk(p) && ProtOk(global)
    ensures Delist(p, Some(global)).Some?
  {
    LevelInRange(global);
  }

  predicate ListOk(list: DailyList) {
    1 <= list.initial <= MAX_LEVEL
  }

  lemma RowAfterOk(db: Db, list: DailyList, s: Slot)
    requires WorldOk(WorldOf(db)) && ListOk(list)
    ensures OptionOk(RowAfter(db, list, s))
    ensures (s.date, s.user) in db.globals && s in db.prots ==> RowAfter(db, list, s).Some?
    ensures RowAfter(db, list, s).Some? ==>
      s in db.prots || s in set u | u in list.users :: Slot(list.date, list.group, u)
    ensures !Edits(db, list, s) ==> RowAfter(db, list, s) == Lookup(db.prots, s)
  {
    hide ProtOk, Delist, Enlist;
    GlobalOk(db, s);
    GlobalOk(db, s.(date := s.date - 1));
    if Covers(list, s) {
      DaysOk(Yesterday(db, s));
      if s.user in list.users {
        EnlistKeepsOk(Lookup(db.prots, s), GlobalOf(db, s), Yesterday(db, s), list.initial);
        assert s == Slot(list.date, list.group, s.user);
        if !Edits(db, list, s) { UneditedRow(db, list, s); }
      } else if s in db.prots {
        DelistKeepsOk(db.prots[s], GlobalOf(db, s));
        if GlobalOf(db, s).Some? { GlobalKeepsRow(db.prots[s], GlobalOf(db, s).value); }
      }
    }
  }

  lemma DaysOk(row: Option<Prot>)
    requires OptionOk(row)
    ensures row.Some? ==> 0 <= row.value.days
  {
  }

  /** Someone who has a daily source already keeps the row as it is. */
  lemma UneditedRow(db: Db, list: DailyList, s: Slot)
    requires Covers(list, s) && s.user in list.users && !Edits(db, list, s)
    ensures RowAfter(db, list, s) == Lookup(db.prots, s)
  {
  }

  lemma ReplacedRows(db: Db, list: DailyList)
    requires WorldOk(WorldOf(db)) && ListOk(list)
    ensures forall s :: Lookup(ReplaceTx(db, list).prots, s) == RowAfter(db, list, s)
    ensures WorldOk(WorldOf(ReplaceTx(db, list)))
  {
    hide ProtOk, RowAfter, LedgersOk, SyncRound, Edits;
    var db' := ReplaceTx(db, list);
    forall s
      ensures Lookup(db'.prots, s) == RowAfter(db, list, s) && OptionOk(RowAfter(db, list, s))
    {
      RowAfterOk(db, list, s);
    }
    forall s | s in db'.prots
      ensures ProtOk(db'.prots[s])
    {
      assert Lookup(db'.prots, s).Some?;
    }
  }

  lemma ReplaceTxLaws(db: Db, list: DailyList)
    requires Inv(db) && ListOk(list)
    ensures Lawful(db, ReplaceTx(db, list))
  {
    hide OkIn, Steps, L.NoticeKept, WorldOk, GrowthFollows, RollsKept, Safe, MarksKept, IndexOk, SyncRound, Edits,
         RowAfter, LevelInForce;
    var db' := ReplaceTx(db, list);
    ReplacedRows(db, list);
    SameGrowth(db.growth);
    forall id | id in db.rounds
      ensures Steps(db.rounds[id], db'.rounds[id], WorldOf(db')) && L.NoticeKept(db.rounds[id], db'.rounds[id])
      ensures db'.rounds[id].status == Completed <==> db.rounds[id].status == Completed
    {
      ReplaceSteps(db, list, db.rounds[id]);
    }
    WorldChange(db, db');
  }

  lemma ReplaceSteps(db: Db, list: DailyList, r: Round)
    requires WorldOk(WorldOf(db)) && ListOk(list) && OkIn(r, WorldOf(db))
    ensures var w', s := WorldOf(ReplaceTx(db, list)), SlotOf(r);
      var r' := if Edits(db, list, s) then SyncRound(r, OptionLevel(RowAfter(db, list, s))) else r;
      Steps(r, r', w') && L.NoticeKept(r, r') && (r'.status == Completed <==> r.status == Completed)
  {
    hide OkIn, Steps, L.NoticeKept, WorldOk, SyncRound, RowAfter, LevelInForce;
    var s, w, w' := SlotOf(r), WorldOf(db), WorldOf(ReplaceTx(db, list));
    ReplacedRows(db, list);
    RowAfterOk(db, list, s);
    if Edits(db, list, s) {
      EditedStaysProtected(db, list, s);
      SyncSteps(r, w, w', OptionLevel(RowAfter(db, list, s)));
    } else {
      StaysOk(r, w, w');
    }
  }

  /** A row that is edited away has no global protection behind it. */
  lemma EditedStaysProtected(db: Db, list: DailyList, s: Slot)
    requires WorldOk(WorldOf(db)) && ListOk(list) && Edits(db, list, s)
    ensures (s.date, s.user) in db.globals ==> RowAfter(db, list, s).Some?
  {
    hide ProtOk, Delist, Enlist;
    if s.user !in list.users {
      RowAfterOk(db, list, s);
    }
  }

  // ---------------------------------------------------------------- claims

  lemma ConfirmedSteps(r: Round, w: World, req: ClaimRequest)
    requires OkIn(r, w)
    ensures var d := Confirmed(r, req);
      OkIn(d, w) && L.Evolves(r, d) && L.NoticeKept(r, d) && L.NoNewMarks(r, d) && d == r.(botVersion := d.botVersion)
  {
    hide L.NoticeKept, L.NoNewMarks, L.RoundOk, L.Evolves;
    if r.status in {Pending, Ready} {
      L.SenderOnlyLaws(r, Confirmed(r, req), ContextAt(w, SlotOf(r)));
    } else {
      L.UnchangedLaws(r, ContextAt(w, SlotOf(r)));
    }
  }

  lemma LeaseSteps(r: Round, w: World, req: ClaimRequest, token: Token)
    requires OkIn(r, w) && Claimable(r, req.now)
    ensures var r' := ClaimRound(r, token, req.now, req.supportsPrepared);
      Steps(r, r', w) && L.NoticeKept(r, r') && r.status != Completed && r'.status != Completed
  {
    hide L.RoundOk, L.NoticeKept, L.NoNewMarks, L.Evolves;
    L.ClaimLaws(r, token, req.now, req.supportsPrepared, ContextAt(w, SlotOf(r)));
  }

  lemma MintSteps(r: Round, w: World, req: ClaimRequest, token: Token)
    requires OkIn(r, w) && NoticeClaimable(r, req.now)
    ensures Steps(r, r.(notice := Leased(token, req.now)), w)
  {
    assert r.(notice := Leased(token, req.now)).members == r.members;
  }

  lemma StepsCompose(a: Round, b: Round, c: Round, w: World)
    requires L.Evolves(a, b) && L.NoNewMarks(a, b) && SlotOf(b) == SlotOf(a) && Steps(b, c, w)
    ensures Steps(a, c, w)
    ensures L.NoticeKept(a, b) && L.NoticeKept(b, c) ==> L.NoticeKept(a, c)
  {
    hide L.RoundOk, L.Marked;
    L.EvolvesTransitive(a, b, c);
  }

  /** Claims lease only what may be leased. */
  ghost predicate ClaimOk(db: Db, req: ClaimRequest, leases: map<RoundId, Token>, notices: map<RoundId, Token>) {
    && (forall id :: id in leases ==> id in db.rounds && MayClaim(db.rounds[id], req))
    && (forall id :: id in notices ==> id in db.rounds && MayClaimNotice(db.rounds[id], req))
  }

  lemma ClaimedSteps(db: Db, req: ClaimRequest, leases: map<RoundId, Token>, notices: map<RoundId, Token>, id: RoundId)
    requires ClaimOk(db, req, leases, notices) && id in db.rounds && OkIn(db.rounds[id], WorldOf(db))
    ensures var r, r' := db.rounds[id], ClaimedRow(db, req, leases, notices, id);
      && Steps(r, r', WorldOf(db)) && (r'.status == Completed <==> r.status == Completed)
      && (id !in notices ==> L.NoticeKept(r, r'))
      && (id in notices ==> r' == r.(botVersion := r'.botVersion, notice := Leased(notices[id], req.now)))
  {
    hide OkIn, L.Evolves, L.NoticeKept, L.NoNewMarks, Confirmed, ClaimRound;
    var r, w := db.rounds[id], WorldOf(db);
    var d := Confirmed(r, req);
    ConfirmedSteps(r, w, req);
    SameStep(d, w);
    if id in leases {
      LeaseSteps(d, w, req, leases[id]);
      StepsCompose(r, d, ClaimRound(d, leases[id], req.now, req.supportsPrepared), w);
    } else if id in notices {
      MintSteps(d, w, req, notices[id]);
      StepsCompose(r, d, d.(notice := Leased(notices[id], req.now)), w);
    } else {
      StepsCompose(r, d, d, w);
    }
  }

  /** A claim keeps everything correct; the only new notice tokens are the ones it hands out. */
  lemma ClaimTxLaws(db: Db, req: ClaimRequest, leases: map<RoundId, Token>, notices: map<RoundId, Token>)
    requires Inv(db) && ClaimOk(db, req, leases, notices)
    ensures var db' := ClaimTx(db, req, leases, notices);
      && Safe(db, db') && db'.usage == db.usage && MarksKept(db.rounds, db'.rounds) && RollsKept(db.growth, db'.growth)
      && forall id :: id in db.rounds ==>
           if id in notices then
             db'.rounds[id] == db.rounds[id].(botVersion := db'.rounds[id].botVersion,
                                              notice := Leased(notices[id], req.now))
           else L.NoticeKept(db.rounds[id], db'.rounds[id])
  {
    hide OkIn, Steps, L.NoticeKept, RollsKept, Safe, MarksKept, ClaimedRow, ClaimOk;
    var db' := ClaimTx(db, req, leases, notices);
    forall id | id in db.rounds
      ensures Steps(db.rounds[id], db'.rounds[id], WorldOf(db))
      ensures db'.rounds[id].status == Completed <==> db.rounds[id].status == Completed
      ensures if id in notices then
             db'.rounds[id] == db.rounds[id].(botVersion := db'.rounds[id].botVersion,
                                              notice := Leased(notices[id], req.now))
           else L.NoticeKept(db.rounds[id], db'.rounds[id])
    {
      InvAt(db, id);
      ClaimedSteps(db, req, leases, notices, id);
    }
    RoundsChange(db, db');
  }

  // ---------------------------------------------------------------- requests

  /** Copying a global row into the group is safe: no waiting round of an unguarded slot is there that
      could disagree with it. */
  lemma GuardLaws(db: Db, req: Request)
    requires Inv(db)
    ensures var (db', prot) := Guard(db, req);
      && Lawful(db, db') && db' == db.(prots := db'.prots) && OptionOk(prot)
      && (prot.None? ==> Target(req) !in db'.prots && (req.date, req.target) !in db'.globals)
      && (prot.Some? && req.gathering ==> Lookup(db'.prots, Target(req)) == prot)
  {
    hide OkIn, Steps, L.NoticeKept, ProtOk, LedgersOk, GrowthFollows, RollsKept, Safe, MarksKept, IndexOk, Guard;
    var (db', prot) := Guard(db, req);
    GuardRow(db, req);
    SameGrowth(db.growth);
    forall id | id in db.rounds
      ensures Steps(db.rounds[id], db'.rounds[id], WorldOf(db')) && L.NoticeKept(db.rounds[id], db'.rounds[id])
    {
      GuardSteps(db, req, db.rounds[id]);
    }
    WorldChange(db, db');
  }

  lemma GuardRow(db: Db, req: Request)
    requires WorldOk(WorldOf(db))
    ensures var (db', prot) := Guard(db, req);
      && WorldOk(WorldOf(db')) && db' == db.(prots := db'.prots) && OptionOk(prot)
      && (prot.None? ==> Target(req) !in db'.prots && (req.date, req.target) !in db'.globals)
      && (prot.Some? && req.gathering ==> Lookup(db'.prots, Target(req)) == prot)
  {
    hide ProtOk, LedgersOk, InheritGlobal;
    var s := Target(req);
    GlobalOk(db, s);
    if GlobalOf(db, s).Some? { InheritOk(GlobalOf(db, s).value); }
  }

  lemma InheritOk(global: Prot)
    requires ProtOk(global)
    ensures ProtOk(InheritGlobal(global))
  {
    LevelInRange(global);
  }

  lemma GuardSteps(db: Db, req: Request, r: Round)
    requires OkIn(r, WorldOf(db))
    ensures Steps(r, r, WorldOf(Guard(db, req).0)) && L.NoticeKept(r, r)
  {
    hide Steps, L.NoticeKept, L.Evolves, L.NoNewMarks, InheritGlobal, LevelInForce, L.IgnitedOk, L.TakenOk;
    StaysOk(r, WorldOf(db), WorldOf(Guard(db, req).0));
  }
}
