/** Inputs at which the service does not do what it is meant to, each at the end of a run from empty tables,
    and how long the trouble lasts. */
module Counterexamples {
  import opened Base
  import opened Growth
  import opened Protections
  import opened Rounds
  import opened Usage
  import opened Database
  import opened DatabaseLaws
  import opened RequestLaws
  import opened RoastSystem
  import opened RoastRuns
  import opened ForceRuns
  import opened ProtectionRuns
  import L = RoundLaws

  const START: Sys := Sys(EMPTY, multiset{}, {}, {})

  lemma StartIsInitial()
    ensures Initial(START)
  {
    EmptyWorld();
  }

  // ---------------------------------------------------------------- the invisible round

  /** Whatever happens after a grant, an unprotected round that had ignited before stays in its slot unseen until it
      is completed; meanwhile a capable ordinary request conflicts exactly when it can pay for a round of its own. */
  lemma HiddenUntilCompleted(states: seq<Sys>, steps: seq<Step>, i: nat, j: nat, id: RoundId, req: Request, seen: bool,
                             unused: RoundId)
    requires Runs(states, steps) && i < j < |states| && steps[i].GrantStep? && steps[i].slot == Target(req)
    requires id in states[i + 1].db.rounds && SlotOf(states[i + 1].db.rounds[id]) == Target(req)
    requires states[i + 1].db.rounds[id].status != Pending && states[i + 1].db.rounds[id].required == 0
    requires id in states[j].db.rounds && states[j].db.rounds[id].status != Completed && unused !in states[j].db.rounds
    requires Capable(req) && req.mode != Super
    ensures HiddenRound(states[j].db, req) && IsProtected(states[j].db, req)
    ensures Prepare(states[j].db, req, seen, None, unused) == Conflict <==> CanAfford(states[j].db, req)
  {
    hide Next, Enabled, Initial, SysOk, WorldOk, RoundsOk, Prepare, CanAfford;
    RunIsOk(states, steps, j);
    SysInv(states[j]);
    RunEvolves(states, steps, i + 1, j, id);
    SlotHolder(states[j].db, id);
    GrantHolds(states, steps, i, j);
    ConflictIff(states[j].db, req, seen, unused);
  }

  lemma DrawIgnites(db: Db, r: Round)
    requires db.rounds == map[11 := r] && db.growth == map[] && WaitsFor(r, 1, 2)
    ensures var db' := DrawTx(db, 1, 2, 9, {11});
      && db'.rounds == map[11 := Activate(r, 9, true)] && 1 !in At(db.growth, 2).rolls
      && db'.slots == db.slots && db'.prots == db.prots && db'.usage == db.usage
  {
    hide Activate, Draw;
    assert DrawTx(db, 1, 2, 9, {11}).rounds == map[11 := Activate(r, 9, true)];
  }

  lemma GrantLeavesReady(db: Db, r: Round)
    requires db.rounds == map[11 := r] && r.status == Ready
    ensures var db' := GrantTx(db, Slot(1, 5, 2), 1); db'.rounds == db.rounds && db'.usage == db.usage
  {
    hide Protections.Grant, LevelInForce, Sync;
    assert GrantTx(db, Slot(1, 5, 2), 1).rounds == db.rounds;
  }

  /** User 1 opens a round against user 2 and pays with a force use, user 2 draws, the round ignites, and then
      user 2 is granted protection. */
  lemma HiddenRun() returns (states: seq<Sys>, steps: seq<Step>)
    ensures Runs(states, steps) && |steps| == 3
    ensures steps[2] == GrantStep(Slot(1, 5, 2), 1)
    ensures 11 in states[3].db.rounds && SlotOf(states[3].db.rounds[11]) == Slot(1, 5, 2)
    ensures states[3].db.rounds[11].status == Ready && states[3].db.rounds[11].required == 0
    ensures states[3].db.rounds.Keys == {11} && ForceDate(states[3].db, 3) == None
  {
    hide Prepare, Open, DrawTx, GrantTx, Activate, At, WorldOk, ForceDate;
    StartIsInitial();
    ForcedRoundIgnites(5, 1, 9);
    NoForceYet(1);
    NoForceYet(3);
    var s1, a := ForcedStep(START, 5, 1, 11);
    var b, c := DrawStep(1, 2, 9, {11}), GrantStep(Slot(1, 5, 2), 1);
    var r := Open(ForcedRequest(5, 1), None, None);
    DrawIgnites(s1.db, r);
    var s2 := Next(s1, b);
    GrantLeavesReady(s2.db, Activate(r, 9, true));
    var s3 := Next(s2, c);
    states, steps := [START, s1, s2, s3], [a, b, c];
    SameUsageForce(s1.db, s3.db, 3);
  }

  lemma SameUsageForce(a: Db, b: Db, u: UserId)
    requires a.usage == b.usage
    ensures ForceDate(a, u) == ForceDate(b, u)
  {
  }

  lemma NoForceYet(u: UserId)
    ensures ForceDate(EMPTY, u) == None
  {
  }

  lemma ForcedRoundIgnites(group: GroupId, date: Date, pig: PigId)
    ensures var r := Open(ForcedRequest(group, date), None, None);
      && r.status == Pending && SlotOf(r) == Slot(date, group, 2)
      && Activate(r, pig, true).status == Ready && Activate(r, pig, true).required == 0
      && SlotOf(Activate(r, pig, true)) == Slot(date, group, 2)
  {
  }

  /** The retry after a conflict does not find the winner: in a reachable state a capable request of a user who has
      spent nothing conflicts, whether it knows of the draw or not. */
  lemma RetryConflictsAgain() returns (states: seq<Sys>, steps: seq<Step>)
    ensures Runs(states, steps)
    ensures var db, req := states[|steps|].db, ForcedRequest(5, 1).(attacker := 3);
      Prepare(db, req, false, None, 14) == Conflict && Prepare(db, req, true, None, 14) == Conflict
  {
    hide Next, Enabled, Initial, Prepare;
    states, steps := HiddenRun();
    var req := ForcedRequest(5, 1).(attacker := 3);
    HiddenUntilCompleted(states, steps, 2, 3, 11, req, false, 14);
    HiddenUntilCompleted(states, steps, 2, 3, 11, req, true, 14);
  }

  // ---------------------------------------------------------------- the takeover that feeds nobody

  /** A request of the given user against user 2 in group 5 on date 1. */
  function RequestOf(attacker: UserId, mode: Mode): Request {
    Request(attacker, 2, 5, 1, mode, 7, true, 2, 100, None, None)
  }

  lemma BlankOpens()
    ensures var result := Prepare(EMPTY, RequestOf(1, Blank), false, None, 11);
      && result.Commit? && result.db.rounds == map[11 := Open(RequestOf(1, Blank), None, None)]
      && result.db.slots == map[Slot(1, 5, 2) := 11] && result.db.prots == map[] && result.db.globals == map[]
  {
    hide Open;
    OpenShape(RequestOf(1, Blank), None, None);
  }

  lemma BlankFeeds()
    ensures var r := Open(RequestOf(1, Blank), None, None);
      && r.status == Pending && r.mode == Blank && SlotOf(r) == Slot(1, 5, 2) && r.members == [Member(1, 1)]
      && r.required == 0
      && L.WouldFeed(r) == [1] && L.Without([1], 4) == [1]
  {
    assert [Member(1, 1)][..0] == [];
    assert EligibleOf(Open(RequestOf(1, Blank), None, None), []) == [];
    assert [1][..0] == [];
  }

  lemma NobodyIsSaved(r: Round, req: Request, c: L.Context)
    requires L.RoundOk(r, c) && L.ContextOk(c) && r.status == Pending && r.mode == Blank && r.required == 0
    ensures L.WouldFeed(TakeOver(r, req, None)) == []
  {
    hide L.WouldFeed, TakeOver, L.WaitingOk;
    L.TakeOverLaws(r, req, None, c);
    L.TakenSettlesSaved(r, TakeOver(r, req, None), req.attacker);
    L.NothingSaved(r, r.members, req.attacker);
  }

  /** User 1 opens an unprotected round with a blank mode, which a success would feed; user 4 takes it over, and
      from then on no success feeds user 1. */
  lemma BlankTakeoverFeedsNobody() returns (states: seq<Sys>, steps: seq<Step>)
    ensures Runs(states, steps) && |steps| == 2 && 11 in states[1].db.rounds && 11 in states[2].db.rounds
    ensures L.WouldFeed(states[1].db.rounds[11]) == [1] && L.WouldFeed(states[2].db.rounds[11]) == []
  {
    hide Prepare, Open, L.WouldFeed, L.Without, WorldOk, EligibleOf;
    StartIsInitial();
    var a, b := PrepareStep(RequestOf(1, Blank), false, 11), PrepareStep(RequestOf(4, Super), false, 12);
    BlankOpens();
    BlankFeeds();
    var s1 := Next(START, a);
    var s2 := Next(s1, b);
    states, steps := [START, s1, s2], [a, b];
    RunIsOk(states, steps, 1);
    SysInv(s1);
    InvWorld(s1.db);
    RoundIsOk(states, steps, 1, 11);
    ContextAtOk(WorldOf(s1.db), Slot(1, 5, 2));
    PrepareTakesOver(s1.db, RequestOf(4, Super), false, 12, 11);
    NobodyIsSaved(s1.db.rounds[11], RequestOf(4, Super), ContextAt(WorldOf(s1.db), Slot(1, 5, 2)));
  }

  // ---------------------------------------------------------------- the notice that names too few

  const GUARDED: Slot := Slot(1, 5, 2)

  /** Round 11 against user 2, protected at level 5, and round 12 against user 3, as they are opened. */
  const WAITER: Round := Round(1, 5, 2, 1, NoForce, Pending, 6, None, [Member(1, 1)], NoNotice, 7, 2, None, None, None,
                               None, None, None)
  const RUNNER: Round := Round(1, 5, 3, 6, NoForce, Pending, 0, None, [Member(6, 1)], NoNotice, 7, 2, None, None, None,
                               None, None, None)

  /** How they go on. */
  const JOINED: Round := WAITER.(members := [Member(1, 1), Member(4, 1)])
  const ARRIVED: Round := JOINED.(pig := Some(9), notice := Waiting)
  const IGNITED: Round := RUNNER.(pig := Some(8), status := Ready)

  /** The rounds of the run so far; only the payers have a usage row and only the drawn a ledger. */
  ghost predicate Stands(sys: Sys, rounds: map<RoundId, Round>, payers: set<UserId>, drawn: set<UserId>) {
    && sys.db.rounds == rounds && IndexOk(sys.db.rounds, sys.db.slots)
    && sys.db.prots.Keys == {GUARDED} && LevelInForce(sys.db.prots[GUARDED]) == 5 && sys.db.globals == map[]
    && sys.db.usage.Keys <= payers && sys.db.growth.Keys <= drawn && sys.used == {}
  }

  lemma GuardedAtFive() returns (sys: Sys)
    ensures Enabled(START, GrantStep(GUARDED, 5)) && sys == Next(START, GrantStep(GUARDED, 5))
    ensures Stands(sys, map[], {}, {})
  {
    hide Grant, LevelInForce;
    sys := Next(START, GrantStep(GUARDED, 5));
    assert LevelInForce(Grant(None, None, 5)) == 5 by { FreshGrant(); }
  }

  lemma FreshGrant()
    ensures LevelInForce(Grant(None, None, 5)) == 5
  {
  }

  lemma OpensFound(db: Db, req: Request, id: RoundId)
    requires req.mode == NoForce && Capable(req) && Target(req) !in db.slots && db.globals == map[]
    ensures Prepare(db, req, false, None, id) == OpenRound(db, req, Lookup(db.prots, Target(req)), None, id)
  {
    hide OpenRound, RealRoll, TouchRound;
  }

  /** A request that finds no round and has a full bucket opens one. */
  lemma OpensPaid(db: Db, req: Request, id: RoundId)
    requires req.mode == NoForce && Capable(req) && Target(req) !in db.slots && req.attacker !in db.usage
    requires db.globals == map[]
    ensures var result := Prepare(db, req, false, None, id);
      var level := OptionLevel(Lookup(db.prots, Target(req)));
      && result.Commit? && result.db.rounds == db.rounds[id := Open(req, level, None)]
      && result.db.slots == db.slots[Target(req) := id] && result.db.prots == db.prots
      && result.db.globals == db.globals
      && result.db.growth == db.growth && result.db.usage.Keys == db.usage.Keys + {req.attacker}
  {
    hide Prepare, Open, OptionLevel, ConsumeRoast, ClampChargeSettings;
    OpensFound(db, req, id);
    OpenShape(req, OptionLevel(Lookup(db.prots, Target(req))), None);
    FirstRoastIsFree(req);
  }

  lemma FirstRoastIsFree(req: Request)
    ensures ConsumeRoast(None, req.now, ClampChargeSettings(req.maxCharges, req.cooldown)).1.allowed
  {
  }

  lemma WaiterOpens(sys: Sys)
    requires Stands(sys, map[], {}, {})
    ensures var step := PrepareStep(RequestOf(1, NoForce), false, 11);
      Enabled(sys, step) && Stands(Next(sys, step), map[11 := WAITER], {1}, {})
  {
    hide Prepare, LevelInForce;
    OpensPaid(sys.db, RequestOf(1, NoForce), 11);
  }

  lemma SlotIsFree(db: Db)
    requires db.rounds == map[11 := WAITER] && IndexOk(db.rounds, db.slots)
    ensures Slot(1, 5, 3) !in db.slots
  {
  }

  lemma RunnerOpens(sys: Sys)
    requires Stands(sys, map[11 := WAITER], {1}, {})
    ensures var step := PrepareStep(RequestOf(6, NoForce).(target := 3), false, 12);
      Enabled(sys, step) && Stands(Next(sys, step), map[11 := WAITER, 12 := RUNNER], {1, 6}, {})
  {
    hide Prepare, LevelInForce, IndexOk;
    SlotIsFree(sys.db);
    OpensPaid(sys.db, RequestOf(6, NoForce).(target := 3), 12);
    IndexGrows(sys.db.rounds, sys.db.slots, 12, RUNNER);
  }

  /** Round 12 ignites when its target draws. */
  lemma RunnerIgnites(sys: Sys)
    requires Stands(sys, map[11 := WAITER, 12 := RUNNER], {1, 6}, {})
    ensures var step := DrawStep(1, 3, 8, {12});
      Enabled(sys, step) && Stands(Next(sys, step), map[11 := WAITER, 12 := IGNITED], {1, 6}, {3})
  {
    hide DrawTx, LevelInForce, IndexOk;
    RunnerDrawn(sys.db);
    SlotsStay(map[11 := WAITER, 12 := RUNNER], map[11 := WAITER, 12 := IGNITED], sys.db.slots);
  }

  lemma RunnerDrawn(db: Db)
    requires db.rounds == map[11 := WAITER, 12 := RUNNER] && db.growth == map[]
    ensures var db' := DrawTx(db, 1, 3, 8, {12});
      db' == db.(rounds := map[11 := WAITER, 12 := IGNITED], growth := db'.growth) && db'.growth.Keys == {3}
  {
    hide Draw;
    assert DrawTx(db, 1, 3, 8, {12}).rounds == map[11 := WAITER, 12 := IGNITED];
  }

  /** Rounds that keep their slots and stay open keep the index. */
  lemma SlotsStay(rounds: map<RoundId, Round>, rounds': map<RoundId, Round>, slots: map<Slot, RoundId>)
    requires IndexOk(rounds, slots) && rounds'.Keys == rounds.Keys
    requires forall id :: id in rounds ==>
      SlotOf(rounds'[id]) == SlotOf(rounds[id]) && (rounds'[id].status == Completed <==> rounds[id].status == Completed)
    ensures IndexOk(rounds', slots)
  {
  }

  /** User 4 joins the waiting round. */
  lemma FourthJoins(sys: Sys)
    requires Stands(sys, map[11 := WAITER, 12 := IGNITED], {1, 6}, {3})
    ensures var step := PrepareStep(RequestOf(4, NoForce), false, 13);
      Enabled(sys, step) && Stands(Next(sys, step), map[11 := JOINED, 12 := IGNITED], {1, 6}, {3})
  {
    hide Prepare, LevelInForce, IndexOk;
    JoinsFound(sys.db);
    SlotsStay(map[11 := WAITER, 12 := IGNITED], map[11 := JOINED, 12 := IGNITED], sys.db.slots);
  }

  lemma JoinsFound(db: Db)
    requires db.rounds == map[11 := WAITER, 12 := IGNITED] && IndexOk(db.rounds, db.slots) && GUARDED in db.prots
    ensures Prepare(db, RequestOf(4, NoForce), false, None, 13)
      == Commit(db.(rounds := map[11 := JOINED, 12 := IGNITED]), Joined, Some(11))
  {
    hide LevelInForce, RealRoll, OpenRound, Touch, ForceFree, IndexOk;
    SlotHolder(db, 11);
    JoinTouches(ForceFree(db, RequestOf(4, NoForce)));
    assert db.rounds[11 := JOINED] == map[11 := JOINED, 12 := IGNITED];
  }

  lemma JoinTouches(forceFree: bool)
    ensures Touch(WAITER, RequestOf(4, NoForce), None, forceFree) == Touched(JOINED, Joined, false)
  {
    assert IndexOf([Member(1, 1)], 4) == 1;
  }

  /** User 2 draws; the round is short of fire and asks for a notice. */
  lemma WaiterArrives(sys: Sys)
    requires Stands(sys, map[11 := JOINED, 12 := IGNITED], {1, 6}, {3})
    ensures var step := DrawStep(1, 2, 9, {11});
      Enabled(sys, step) && Stands(Next(sys, step), map[11 := ARRIVED, 12 := IGNITED], {1, 6}, {2, 3})
  {
    hide DrawTx, LevelInForce, IndexOk;
    WaiterDrawn(sys.db);
    SlotsStay(map[11 := JOINED, 12 := IGNITED], map[11 := ARRIVED, 12 := IGNITED], sys.db.slots);
  }

  lemma WaiterDrawn(db: Db)
    requires db.rounds == map[11 := JOINED, 12 := IGNITED] && db.growth.Keys <= {3}
    ensures var db' := DrawTx(db, 1, 2, 9, {11});
      db' == db.(rounds := map[11 := ARRIVED, 12 := IGNITED], growth := db'.growth) && db'.growth.Keys <= {2, 3}
  {
    hide Draw, Activate;
    ShortOfFire();
    assert DrawTx(db, 1, 2, 9, {11}).rounds == map[11 := ARRIVED, 12 := IGNITED];
  }

  lemma ShortOfFire()
    ensures Activate(JOINED, 9, true) == ARRIVED
  {
    assert [Member(1, 1), Member(4, 1)][..1] == [Member(1, 1)] && [Member(1, 1)][..0] == [];
    assert Fire([Member(1, 1), Member(4, 1)]) == 2;
  }

  /** Bot 7 leases round 12 and takes the notice of round 11. */
  const POLL: Step := ClaimStep(ClaimRequest(7, 1, 200, true, true), map[12 := 100], map[11 := 101])

  lemma PollMayClaim(db: Db)
    requires db.rounds == map[11 := ARRIVED, 12 := IGNITED]
    ensures ClaimOk(db, POLL.poll, POLL.leases, POLL.notices)
  {
  }

  lemma PollTokensAreFresh()
    ensures FreshTokens(POLL.leases, POLL.notices, {})
  {
  }

  lemma PollLeasesNotice(db: Db)
    requires db.rounds == map[11 := ARRIVED, 12 := IGNITED]
    ensures ClaimedRow(db, POLL.poll, POLL.leases, POLL.notices, 11) == ARRIVED.(notice := Leased(101, 200))
    ensures MoveNotice(ARRIVED.(notice := Leased(101, 200)), 101, StartSending, 1).1
  {
  }

  lemma PollIsServed(sys: Sys)
    requires sys.db.rounds == map[11 := ARRIVED, 12 := IGNITED] && sys.used == {}
    ensures Enabled(sys, POLL)
    ensures 11 in Next(sys, POLL).db.rounds && Next(sys, POLL).db.rounds[11] == ARRIVED.(notice := Leased(101, 200))
    ensures NoticeTx(Next(sys, POLL).db, 11, 101, StartSending, 1).1
  {
    hide ClaimOk, FreshTokens, ClaimedRow, MoveNotice, TokensOf, Minted;
    PollMayClaim(sys.db);
    PollTokensAreFresh();
    PollLeasesNotice(sys.db);
  }

  /** User 4 joins after round 12 has ignited, and then user 2 draws. */
  lemma LateJoinRun() returns (states: seq<Sys>, steps: seq<Step>)
    ensures |states| == 8 && |steps| == 7 && Runs(states, steps) && steps[6] == POLL
    ensures states[7] == Next(states[6], POLL)
    ensures Stands(states[4], map[11 := WAITER, 12 := IGNITED], {1, 6}, {3})
    ensures Stands(states[5], map[11 := JOINED, 12 := IGNITED], {1, 6}, {3})
    ensures Stands(states[6], map[11 := ARRIVED, 12 := IGNITED], {1, 6}, {2, 3})
  {
    hide Next, Enabled, Initial, Stands;
    StartIsInitial();
    var a := GrantStep(GUARDED, 5);
    var b := PrepareStep(RequestOf(1, NoForce), false, 11);
    var c := PrepareStep(RequestOf(6, NoForce).(target := 3), false, 12);
    var d, e, f := DrawStep(1, 3, 8, {12}), PrepareStep(RequestOf(4, NoForce), false, 13), DrawStep(1, 2, 9, {11});
    var s1 := GuardedAtFive();
    WaiterOpens(s1);
    var s2 := Next(s1, b);
    RunnerOpens(s2);
    var s3 := Next(s2, c);
    RunnerIgnites(s3);
    var s4 := Next(s3, d);
    FourthJoins(s4);
    var s5 := Next(s4, e);
    WaiterArrives(s5);
    var s6 := Next(s5, f);
    StandsParts(s6, map[11 := ARRIVED, 12 := IGNITED], {1, 6}, {2, 3});
    PollIsServed(s6);
    states, steps := [START, s1, s2, s3, s4, s5, s6, Next(s6, POLL)], [a, b, c, d, e, f, POLL];
  }

  lemma StandsParts(sys: Sys, rounds: map<RoundId, Round>, payers: set<UserId>, drawn: set<UserId>)
    requires Stands(sys, rounds, payers, drawn)
    ensures sys.db.rounds == rounds && sys.used == {}
  {
    hide IndexOk, LevelInForce;
  }

  /** The reply can name too few.  A claim leases round 12; its snapshot is older than the join of user 4 to round 11,
      whose notice it hands out.  The token may start sending although the roster it came with lacks user 4. */
  lemma NoticeNamesTooFew() returns (states: seq<Sys>, steps: seq<Step>)
    ensures Runs(states, steps) && |steps| == 7 && steps[6] == POLL && MaySee(states, steps, 6, 4)
    ensures NoticeTx(states[7].db, 11, 101, StartSending, 1).1
    ensures 11 in states[6].db.rounds && 11 in states[7].db.rounds
    ensures Shown(states, 6, 4, 11).members == [Member(1, 1)]
    ensures states[7].db.rounds[11].members == [Member(1, 1), Member(4, 1)]
  {
    hide Next, NoticeTx, Stands, Runs;
    states, steps := LateJoinRun();
    StandsParts(states[4], map[11 := WAITER, 12 := IGNITED], {1, 6}, {3});
    StandsParts(states[5], map[11 := JOINED, 12 := IGNITED], {1, 6}, {3});
    StandsParts(states[6], map[11 := ARRIVED, 12 := IGNITED], {1, 6}, {2, 3});
    PollIsServed(states[6]);
    assert steps[6].leases.Keys == {12};
    assert forall k :: 4 <= k <= 6 ==> Lookup(states[k].db.rounds, 12) == Some(IGNITED);
  }
}
