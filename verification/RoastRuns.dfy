/** What holds in every state of every run of the service, and across the states of a run. */
module RoastRuns {
  import opened Base
  import opened Growth
  import opened Protections
  import opened Rounds
  import opened Usage
  import opened Database
  import opened DatabaseLaws
  import opened RequestLaws
  import opened RoastSystem
  import L = RoundLaws

  /** Any enabled steps in any order from a start without rounds. */
  ghost predicate Runs(states: seq<Sys>, steps: seq<Step>) {
    && |states| == |steps| + 1 && Initial(states[0])
    && forall i :: 0 <= i < |steps| ==> Enabled(states[i], steps[i]) && states[i + 1] == Next(states[i], steps[i])
  }

  lemma {:induction false} RunIsOk(states: seq<Sys>, steps: seq<Step>, i: nat)
    requires Runs(states, steps) && i < |states|
    ensures SysOk(states[i])
  {
    hide SysOk, Next, Initial, Enabled;
    if i == 0 {
      InitialOk(states[0]);
    } else {
      RunIsOk(states, steps, i - 1);
      StepKeepsSys(states[i - 1], steps[i - 1]);
    }
  }

  /** Later states of a run keep the rounds, the draws and the feeds of earlier ones. */
  lemma {:induction false} RunFollows(states: seq<Sys>, steps: seq<Step>, i: nat, j: nat)
    requires Runs(states, steps) && i <= j < |states|
    ensures Safe(states[i].db, states[j].db)
    decreases j
  {
    hide SysOk, Safe, Next, Initial, Enabled;
    RunIsOk(states, steps, j);
    SysInv(states[j]);
    if i == j {
      SameIsSafe(states[j].db);
    } else {
      RunFollows(states, steps, i, j - 1);
      RunIsOk(states, steps, j - 1);
      StepKeepsSys(states[j - 1], steps[j - 1]);
      SafeTransitive(states[i].db, states[j - 1].db, states[j].db);
    }
  }

  lemma RoundIsOk(states: seq<Sys>, steps: seq<Step>, i: nat, id: RoundId)
    requires Runs(states, steps) && i < |states| && id in states[i].db.rounds
    ensures OkIn(states[i].db.rounds[id], WorldOf(states[i].db))
  {
    hide SysOk, OkIn, Run;
    RunIsOk(states, steps, i);
    SysInv(states[i]);
    InvAt(states[i].db, id);
  }

  // ---------------------------------------------------------------- thresholds and ignition

  /** Threshold agreement: a waiting round that was not taken over asks for one more fire than the level of
      its target's row, or for none when there is no row. */
  lemma ThresholdAgreement(states: seq<Sys>, steps: seq<Step>, i: nat, id: RoundId)
    requires Runs(states, steps) && i < |states| && id in states[i].db.rounds
    ensures var db, r := states[i].db, states[i].db.rounds[id];
      r.status == Pending && r.mode != Super ==>
        r.required == if SlotOf(r) in db.prots then 1 + Level(db.prots[SlotOf(r)]) else 0
  {
    hide SysOk, Run;
    var db := states[i].db;
    RoundIsOk(states, steps, i, id);
    RunIsOk(states, steps, i);
    SysInv(states[i]);
    InvWorld(db);
    var s := SlotOf(db.rounds[id]);
    if s in db.prots { ProtAt(WorldOf(db), s); }
  }

  lemma ProtAt(w: World, s: Slot)
    requires WorldOk(w) && s in w.prots
    ensures ProtOk(w.prots[s]) && LevelInForce(w.prots[s]) == Level(w.prots[s])
  {
    LevelOk(w.prots[s]);
  }

  /** Slot uniqueness: two rounds of one date, group and target are never open together. */
  lemma OneOpenRoundPerSlot(states: seq<Sys>, steps: seq<Step>, i: nat, a: RoundId, b: RoundId)
    requires Runs(states, steps) && i < |states|
    ensures var rounds := states[i].db.rounds;
      && a in rounds && b in rounds && SlotOf(rounds[a]) == SlotOf(rounds[b])
      && rounds[a].status != Completed && rounds[b].status != Completed
      ==> a == b
  {
    hide SysOk, Run, WorldOk, RoundsOk;
    RunIsOk(states, steps, i);
    SysInv(states[i]);
  }

  /** Exact ignition: a round still waits after its target arrived exactly because it is short of fire and was
      not taken over, and a round that no longer waits had its target's real draw and fire enough. */
  lemma ExactIgnition(states: seq<Sys>, steps: seq<Step>, i: nat, id: RoundId)
    requires Runs(states, steps) && i < |states| && id in states[i].db.rounds
    ensures var db, r := states[i].db, states[i].db.rounds[id];
      && (r.status == Pending && r.pig.Some? ==>
            r.mode != Super && 2 <= r.required <= 6 && Fire(r.members) < r.required && |r.members| < MAX_PARTICIPANTS)
      && (r.status != Pending ==>
            r.pig.Some? && r.pig == Drawn(db, r.date, r.target) && (r.mode == Super || Fire(r.members) >= r.required))
      && (r.notice != NoNotice ==> r.status == Pending && r.pig.Some?)
  {
    hide SysOk, Run;
    RoundIsOk(states, steps, i, id);
    var r := states[i].db.rounds[id];
    if r.status == Pending && r.pig.Some? {
      L.ArrivedIsNeverFull(r, ContextAt(WorldOf(states[i].db), SlotOf(r)));
    }
  }

  // ---------------------------------------------------------------- the race between draws and requests

  /** Race closure: once no request owes a reconciliation for the target, every round that still waits for a
      target who has really drawn knows the pig and is short of fire. */
  lemma RaceClosure(states: seq<Sys>, steps: seq<Step>, i: nat, id: RoundId)
    requires Runs(states, steps) && i < |states| && id in states[i].db.rounds
    requires !HasJob(states[i].jobs, states[i].db.rounds[id].date, states[i].db.rounds[id].target)
    ensures var db, r := states[i].db, states[i].db.rounds[id];
      r.status == Pending && Drawn(db, r.date, r.target).Some? ==>
        r.pig == Drawn(db, r.date, r.target) && r.mode != Super && Fire(r.members) < r.required
  {
    hide Runs, HasJob;
    RunIsOk(states, steps, i);
    RoundIsOk(states, steps, i, id);
    assert !Unaware(states[i].db.rounds[id], states[i].db.growth);
  }

  /** A make-up draw changes no round when it is made, and no round that waits for its user ever ignites. */
  lemma MakeupNeverActivates(states: seq<Sys>, steps: seq<Step>, i: nat, j: nat, id: RoundId)
    requires Runs(states, steps) && i < |steps| && steps[i].MakeupStep? && i < j < |states| && id in states[j].db.rounds
    ensures states[i + 1].db.rounds == states[i].db.rounds
    ensures var r := states[j].db.rounds[id];
      r.date == steps[i].date && r.target == steps[i].user ==> r.status == Pending && r.pig.None?
  {
    hide SysOk, Safe, Initial, Enabled, MakeupTx, OkIn, GrowthFollows;
    var date, user := steps[i].date, steps[i].user;
    RunFollows(states, steps, i + 1, j);
    SafeParts(states[i + 1].db, states[j].db);
    MakeupRounds(states[i].db, date, user, steps[i].pig);
    MakeupStays(states[i].db, states[j].db, date, user, steps[i].pig);
    RoundIsOk(states, steps, j, id);
    WithoutDraw(states[j].db.rounds[id], WorldOf(states[j].db));
  }

  lemma MakeupRounds(db: Db, date: Date, user: UserId, pig: PigId)
    ensures MakeupTx(db, date, user, pig).rounds == db.rounds
  {
  }

  lemma WithoutDraw(r: Round, w: World)
    requires OkIn(r, w)
    ensures RealRoll(At(w.growth, r.target), r.date).None? ==> r.status == Pending && r.pig.None?
  {
  }

  lemma MakeupStays(db: Db, later: Db, date: Date, user: UserId, pig: PigId)
    requires GrowthFollows(MakeupTx(db, date, user, pig).growth, later.growth)
    ensures Drawn(later, date, user).None?
  {
    var g := Draw(At(db.growth, user), date, pig, true);
    assert At(MakeupTx(db, date, user, pig).growth, user) == g;
    DrawRolls(At(db.growth, user), date, pig, true);
    MakeupRow(At(db.growth, user), date, pig);
    assert later.growth == MakeupTx(db, date, user, pig).growth || Extends(g, At(later.growth, user));
  }

  lemma MakeupRow(g: UserGrowth, date: Date, pig: PigId)
    ensures var g' := Draw(g, date, pig, true); date in g'.rolls && g'.rolls[date].makeup
  {
  }

  // ---------------------------------------------------------------- waiting notices

  lemma {:induction false} MintedGrows(states: seq<Sys>, steps: seq<Step>, h: nat, i: nat)
    requires Runs(states, steps) && h <= i < |states|
    ensures states[h].minted <= states[i].minted
    decreases i
  {
    hide Initial, Enabled, Answer, RunJob, RoastTx, ForceTx, RefillTx, FeedTx, Prepare, DrawTx, MakeupTx, GrantTx,
         ReplaceTx, ClaimTx, NoticeTx,
         PrepareOutcomeTx, SaveOutcomeTx, MarkSendingTx, CompleteTx, ReleaseTx;
    if h < i {
      MintedGrows(states, steps, h, i - 1);
      MintedStep(states[i - 1], steps[i - 1]);
    }
  }

  lemma MintedStep(sys: Sys, step: Step)
    ensures sys.minted <= Next(sys, step).minted
  {
    hide RoastTx, ForceTx, RefillTx, FeedTx, Prepare, DrawTx, MakeupTx, GrantTx, ReplaceTx, ClaimTx, NoticeTx,
         ReconcileTx,
         PrepareOutcomeTx, SaveOutcomeTx, MarkSendingTx, CompleteTx, ReleaseTx, Minted;
  }

  lemma StartSendingHolds(r: Round, token: Token, today: Date)
    requires MoveNotice(r, token, StartSending, today).1
    ensures NoticeToken(r.notice) == Some(token) && r.status == Pending
  {
  }

  /** Notice freshness: a token that is allowed to start sending was minted, at whatever earlier moment, for a row with
      exactly the roster, contributions and threshold the round has now, and the round still waits for fire. */
  lemma NoticeFreshness(states: seq<Sys>, steps: seq<Step>, i: nat, h: nat, view: View)
    requires Runs(states, steps) && i < |steps| && h <= i
    requires steps[i].NoticeStep? && steps[i].action == StartSending
    requires NoticeTx(states[i].db, steps[i].id, steps[i].token, StartSending, steps[i].today).1
    requires (steps[i].token, view) in states[h].minted
    ensures steps[i].id in states[i].db.rounds
    ensures var r := states[i].db.rounds[steps[i].id];
      view == ViewOf(steps[i].id, r) && (steps[i].token, view) in states[i].minted
      && r.status == Pending && r.pig.Some? && r.mode != Super && Fire(r.members) < r.required
  {
    hide Next, Enabled, Initial, OkIn, Inv, MoveNotice, ViewOf;
    var id, token := steps[i].id, steps[i].token;
    var r := states[i].db.rounds[id];
    RunIsOk(states, steps, i);
    MintedGrows(states, steps, h, i);
    StartSendingHolds(r, token, steps[i].today);
    ExactIgnition(states, steps, i, id);
    assert (token, ViewOf(id, r)) in states[i].minted;
  }

  // ---------------------------------------------------------------- what a claim's reply shows

  /** The participants of a round as they are committed. */
  function MembersAt(db: Db, id: RoundId): seq<Member> {
    if id in db.rounds then db.rounds[id].members else []
  }

  /** The rows are the same in all states from p to c. */
  ghost predicate Held(states: seq<Sys>, ids: set<RoundId>, p: nat, c: nat)
    requires p <= c < |states|
  {
    forall id, k :: id in ids && p <= k <= c ==> Lookup(states[k].db.rounds, id) == Lookup(states[c].db.rounds, id)
  }

  /** The plain reads of claim c may see the tables of state p.  The snapshot is opened by the first roster read: by
      then the leased rounds are locked, or, when nothing is leased, the rounds whose notices go out. */
  ghost predicate MaySee(states: seq<Sys>, steps: seq<Step>, c: nat, p: nat)
    requires c < |steps| < |states| && steps[c].ClaimStep?
  {
    p <= c && Held(states, if steps[c].leases != map[] then steps[c].leases.Keys else steps[c].notices.Keys, p, c)
  }

  /** A round in the reply of claim c: the row as it is locked, the roster from the snapshot. */
  function Shown(states: seq<Sys>, c: nat, p: nat, id: RoundId): View
    requires p <= c < |states| && id in states[c].db.rounds
  {
    ViewOf(id, states[c].db.rounds[id]).(members := MembersAt(states[p].db, id))
  }

  /** Nobody joins or boosts from state p to state c. */
  ghost predicate RosterStays(states: seq<Sys>, p: nat, c: nat, id: RoundId)
    requires p <= c < |states|
  {
    forall k :: p <= k < c ==> MembersAt(states[k].db, id) == MembersAt(states[k + 1].db, id)
  }

  lemma RosterGrows(states: seq<Sys>, steps: seq<Step>, i: nat, j: nat, id: RoundId)
    requires Runs(states, steps) && i <= j < |states|
    ensures L.Grows(MembersAt(states[i].db, id), MembersAt(states[j].db, id))
  {
    hide Runs;
    if id in states[i].db.rounds { RunEvolves(states, steps, i, j, id); }
  }

  lemma GrowsBothWays(a: seq<Member>, b: seq<Member>)
    requires L.Grows(a, b) && L.Grows(b, a)
    ensures a == b
  {
    forall i | 0 <= i < |a|
      ensures a[i] == b[i]
    {
    }
  }

  lemma {:induction false} FireGrows(a: seq<Member>, b: seq<Member>)
    requires L.Grows(a, b)
    ensures Fire(a) <= Fire(b)
    decreases |b|
  {
    if |b| > 0 {
      FireGrows(if |a| == |b| then a[..|a| - 1] else a, b[..|b| - 1]);
    }
  }

  lemma {:induction false} StillRoster(states: seq<Sys>, p: nat, c: nat, id: RoundId)
    requires p <= c < |states| && RosterStays(states, p, c, id)
    ensures MembersAt(states[p].db, id) == MembersAt(states[c].db, id)
    decreases c
  {
    hide MembersAt;
    if p < c {
      StillRoster(states, p, c - 1, id);
      assert MembersAt(states[c - 1].db, id) == MembersAt(states[c - 1 + 1].db, id);
    }
  }

  /** Rosters only grow, so two equal ones have nothing but equal ones between them. */
  lemma SameRosterIff(states: seq<Sys>, steps: seq<Step>, p: nat, c: nat, id: RoundId)
    requires Runs(states, steps) && p <= c < |states|
    ensures MembersAt(states[p].db, id) == MembersAt(states[c].db, id) <==> RosterStays(states, p, c, id)
  {
    hide Runs, L.Grows, MembersAt;
    if MembersAt(states[p].db, id) == MembersAt(states[c].db, id) {
      forall k | p <= k <= c
        ensures MembersAt(states[k].db, id) == MembersAt(states[p].db, id)
      {
        RosterGrows(states, steps, p, k, id);
        RosterGrows(states, steps, k, c, id);
        GrowsBothWays(MembersAt(states[p].db, id), MembersAt(states[k].db, id));
      }
    } else if RosterStays(states, p, c, id) {
      StillRoster(states, p, c, id);
    }
  }

  /** A claim mints each notice it hands out for the locked row. */
  lemma ClaimMints(sys: Sys, step: Step, id: RoundId)
    requires step.ClaimStep? && Enabled(sys, step) && id in step.notices
    ensures id in sys.db.rounds && (step.notices[id], ViewOf(id, sys.db.rounds[id])) in Next(sys, step).minted
  {
    hide ClaimTx, ViewOf, MayClaim, MayClaimNotice, FreshTokens;
  }

  /** What the reader of a notice was shown: if claim c handed out a token, and that token is later allowed to start
      sending, then it is for the same round, and threshold, mode and pig are still those of the reply.  The roster of
      the reply is an earlier form of the present one, so the fire it shows as missing is at least what is missing;
      it is the present roster exactly when nobody joined or boosted between the snapshot of the claim and its locks,
      and always when the claim leased nothing. */
  lemma NoticeReplyIsFreshIff(states: seq<Sys>, steps: seq<Step>, c: nat, p: nat, i: nat, id: RoundId)
    requires Runs(states, steps) && c < i < |steps|
    requires steps[c].ClaimStep? && id in steps[c].notices && MaySee(states, steps, c, p)
    requires steps[i].NoticeStep? && steps[i].action == StartSending && steps[i].token == steps[c].notices[id]
    requires NoticeTx(states[i].db, steps[i].id, steps[i].token, StartSending, steps[i].today).1
    ensures steps[i].id == id && id in states[c].db.rounds && id in states[i].db.rounds
    ensures var shown, r := Shown(states, c, p, id), states[i].db.rounds[id];
      && shown.required == r.required && shown.mode == r.mode && shown.pig == r.pig
      && L.Grows(shown.members, r.members) && Fire(shown.members) <= Fire(r.members) < r.required
      && (shown == ViewOf(id, r) <==> RosterStays(states, p, c, id))
      && (steps[c].leases == map[] ==> shown == ViewOf(id, r))
  {
    hide Next, Enabled, Initial, L.Grows, NoticeTx, RosterStays;
    assert Enabled(states[c], steps[c]) && states[c + 1] == Next(states[c], steps[c]);
    ClaimMints(states[c], steps[c], id);
    NoticeFreshness(states, steps, i, c + 1, ViewOf(id, states[c].db.rounds[id]));
    RosterGrows(states, steps, p, c, id);
    FireGrows(MembersAt(states[p].db, id), MembersAt(states[c].db, id));
    SameRosterIff(states, steps, p, c, id);
    if steps[c].leases == map[] {
      assert Lookup(states[p].db.rounds, id) == Lookup(states[c].db.rounds, id);
    }
  }

  /** The roster in the reply of a leased round is its roster for ever. */
  lemma LeaseReplyIsFinal(states: seq<Sys>, steps: seq<Step>, c: nat, p: nat, j: nat, id: RoundId)
    requires Runs(states, steps) && c < |steps| && c <= j < |states|
    requires steps[c].ClaimStep? && id in steps[c].leases && MaySee(states, steps, c, p)
    ensures id in states[c].db.rounds && id in states[j].db.rounds
    ensures Shown(states, c, p, id) == ViewOf(id, states[j].db.rounds[id])
  {
    hide Next, Enabled, Initial;
    LeasedIsIgnited(states[c], steps[c], id);
    WriteOnce(states, steps, c, j, id);
    assert Lookup(states[p].db.rounds, id) == Lookup(states[c].db.rounds, id);
  }

  lemma LeasedIsIgnited(sys: Sys, step: Step, id: RoundId)
    requires step.ClaimStep? && Enabled(sys, step) && id in step.leases
    ensures id in sys.db.rounds && sys.db.rounds[id].status != Pending
  {
    hide FreshTokens;
  }

  // ---------------------------------------------------------------- sending at most once

  /** Step i puts the round into sending. */
  ghost predicate Launches(states: seq<Sys>, i: nat, id: RoundId)
    requires i + 1 < |states|
  {
    && id in states[i].db.rounds && !L.Gone(states[i].db.rounds[id].status)
    && id in states[i + 1].db.rounds && L.Gone(states[i + 1].db.rounds[id].status)
  }

  lemma RunEvolves(states: seq<Sys>, steps: seq<Step>, i: nat, j: nat, id: RoundId)
    requires Runs(states, steps) && i <= j < |states| && id in states[i].db.rounds
    ensures id in states[j].db.rounds && L.Evolves(states[i].db.rounds[id], states[j].db.rounds[id])
  {
    hide Runs, Safe, L.Evolves;
    RunFollows(states, steps, i, j);
    SafeParts(states[i].db, states[j].db);
  }

  /** What never changes again once a round has left pending, has an outcome, or is being sent. */
  ghost predicate Settles(r: Round, r': Round) {
    && (r.status != Pending ==>
          && r'.status != Pending && r'.members == r.members && r'.required == r.required
          && r'.mode == r.mode && r'.pig == r.pig)
    && (r.outcome.Some? ==> r'.outcome == r.outcome && r'.feedResults == r.feedResults && r'.bot == r.bot)
    && (L.Gone(r.status) ==> L.Gone(r'.status) && r'.token == r.token)
  }

  /** Roster, threshold and mode are fixed once a round leaves pending; outcome, feed results and delivery bot
      once it has an outcome; the token once it is being sent. */
  lemma WriteOnce(states: seq<Sys>, steps: seq<Step>, i: nat, j: nat, id: RoundId)
    requires Runs(states, steps) && i <= j < |states| && id in states[i].db.rounds
    ensures id in states[j].db.rounds && Settles(states[i].db.rounds[id], states[j].db.rounds[id])
  {
    hide Runs;
    RunEvolves(states, steps, i, j, id);
    RoundIsOk(states, steps, i, id);
  }

  /** The round is neither leased nor put into sending; a new one is not leased. */
  ghost predicate NoLease(rounds: map<RoundId, Round>, rounds': map<RoundId, Round>, id: RoundId) {
    && (id in rounds ==> id in rounds')
    && (id in rounds' ==> if id in rounds then Unleased(rounds[id], rounds'[id]) else rounds'[id].token.None?)
  }

  predicate Unleased(r: Round, r': Round) {
    (L.Gone(r'.status) ==> L.Gone(r.status)) && (r'.token == r.token || r'.token.None?)
  }

  lemma TouchLeasesNone(r: Round, req: Request, pig: Option<PigId>, forceFree: bool)
    ensures Unleased(r, Touch(r, req, pig, forceFree).round)
  {
    hide ActivateIfArrived, Rounds.Join, TakeOver, UpdateDelivery, JoinedMembers;
    var k := IndexOf(r.members, req.attacker);
    L.UpdateDeliveryLaws(r, req);
    if r.status == Pending && r.mode != Super {
      if req.mode == Super {
        TakeOverUnleased(r, req, pig);
      } else {
        JoinUnleased(r, req, pig);
      }
    }
  }

  lemma ArrivalUnleased(r: Round, pig: Option<PigId>, notify: bool)
    ensures r.status == Pending ==> Unleased(r, ActivateIfArrived(r, pig, notify))
  {
  }

  lemma TakeOverUnleased(r: Round, req: Request, pig: Option<PigId>)
    requires r.status == Pending
    ensures Unleased(r, TakeOver(r, req, pig))
  {
    hide ActivateIfArrived, FeedList;
    ArrivalUnleased(r.(feedUsers := Some(FeedList(r, req.attacker)), operator := Some(req.attacker), mode := Super,
                       bot := req.bot, botVersion := 2), pig, true);
  }

  lemma JoinUnleased(r: Round, req: Request, pig: Option<PigId>)
    requires r.status == Pending
    ensures Unleased(r, Rounds.Join(r, req, pig))
  {
    hide ActivateIfArrived, UpdateDelivery, JoinedMembers;
    var m := r.(members := JoinedMembers(r, req));
    L.UpdateDeliveryLaws(m, req);
    ArrivalUnleased(UpdateDelivery(m, req).(notice := NoNotice), pig, false);
  }

  lemma OpenLeasesNone(db: Db, req: Request, prot: Option<Prot>, pig: Option<PigId>, unused: RoundId, id: RoundId)
    requires unused !in db.rounds
    ensures var result := OpenRound(db, req, prot, pig, unused);
      result.Commit? ==> NoLease(db.rounds, result.db.rounds, id)
  {
    hide Open, ConsumeFor, ForceFree, OptionLevel, SpendForce, InsertRound, NoLease;
    var r := Open(req, OptionLevel(prot), pig);
    OpenShape(req, OptionLevel(prot), pig);
    SpendForceUsage(db, req);
    SameRoundsLease(db.rounds, id);
    InsertLeasesNone(db, unused, r, id);
    InsertLeasesNone(SpendForce(db, req), unused, r, id);
    InsertLeasesNone(db.(usage := db.usage[req.attacker := ConsumeFor(db, req).0]), unused, r, id);
  }

  lemma SameRoundsLease(rounds: map<RoundId, Round>, id: RoundId)
    ensures NoLease(rounds, rounds, id)
  {
  }

  lemma InsertLeasesNone(db: Db, unused: RoundId, r: Round, id: RoundId)
    requires unused !in db.rounds && r.token.None?
    ensures InsertRound(db, unused, r).Commit? ==> NoLease(db.rounds, InsertRound(db, unused, r).db.rounds, id)
  {
  }

  lemma PrepareLeasesNone(db: Db, req: Request, seen: bool, expected: Option<RoundId>, unused: RoundId, id: RoundId)
    requires expected.Some? || unused !in db.rounds
    ensures var result := Prepare(db, req, seen, expected, unused);
      result.Commit? ==> NoLease(db.rounds, result.db.rounds, id)
  {
    hide Guard, FindRound, OpenRound, Touch, ForceFree, RealRoll;
    var (mid, prot) := Guard(db, req);
    GuardShape(db, req);
    var pig := if seen then Drawn(db, req.date, req.target) else None;
    var found := FindRound(db, req);
    if found.Some? && found.value in db.rounds {
      TouchLeasesNone(db.rounds[found.value], req, pig, ForceFree(mid, req));
    } else if expected.None? {
      OpenLeasesNone(mid, req, prot, pig, unused, id);
    }
  }

  lemma DrawLeasesNone(db: Db, date: Date, user: UserId, pig: PigId, locked: set<RoundId>, id: RoundId)
    ensures NoLease(db.rounds, DrawTx(db, date, user, pig, locked).rounds, id)
  {
    hide Draw, Activate, Reconcile;
    if id in db.rounds {
      if WaitsFor(db.rounds[id], date, user) { ReconcileShape(db.rounds[id], pig, false); }
      ReconcileUnleased(db.rounds[id], pig, false);
    }
  }

  lemma ReconcileLeasesNone(db: Db, date: Date, target: UserId, pig: PigId, handled: Option<RoundId>, id: RoundId)
    ensures NoLease(db.rounds, ReconcileTx(db, date, target, pig, handled).rounds, id)
  {
    hide Reconcile;
    if id in db.rounds { ReconcileUnleased(db.rounds[id], pig, handled == Some(id)); }
  }

  lemma ReconcileUnleased(r: Round, pig: PigId, handled: bool)
    ensures r.status == Pending ==> Unleased(r, Reconcile(r, pig, handled))
  {
  }

  lemma SyncLeasesNone(r: Round, level: Option<nat>)
    ensures Unleased(r, SyncRound(r, level))
  {
  }

  lemma GrantLeasesNone(db: Db, s: Slot, level: int, id: RoundId)
    ensures NoLease(db.rounds, GrantTx(db, s, level).rounds, id)
  {
    hide SyncRound, Grant, LevelInForce;
    if id in db.rounds {
      SyncLeasesNone(db.rounds[id], Some(LevelInForce(Grant(Lookup(db.prots, s), GlobalOf(db, s), level))));
    }
  }

  lemma ReplaceLeasesNone(db: Db, list: DailyList, id: RoundId)
    ensures NoLease(db.rounds, ReplaceTx(db, list).rounds, id)
  {
    hide SyncRound, Edits, RowAfter, LevelInForce;
    if id in db.rounds {
      SyncLeasesNone(db.rounds[id], OptionLevel(RowAfter(db, list, SlotOf(db.rounds[id]))));
    }
  }

  lemma NoticeLeasesNone(db: Db, k: RoundId, token: Token, action: NoticeAction, today: Date, id: RoundId)
    ensures NoLease(db.rounds, NoticeTx(db, k, token, action, today).0.rounds, id)
  {
  }

  lemma PrepareOutcomeLeasesNone(db: Db, k: RoundId, token: Token, outcome: Outcome, settle: bool, id: RoundId)
    ensures NoLease(db.rounds, PrepareOutcomeTx(db, k, token, outcome, settle).0.rounds, id)
  {
    hide FeedAll, FeedResults, Settled, BrokenThrough;
  }

  lemma CompleteLeasesNone(db: Db, k: RoundId, token: Token, id: RoundId)
    ensures NoLease(db.rounds, CompleteTx(db, k, token).0.rounds, id)
  {
  }

  lemma ReleaseLeasesNone(db: Db, k: RoundId, token: Token, id: RoundId)
    ensures NoLease(db.rounds, ReleaseTx(db, k, token).0.rounds, id)
  {
  }

  /** The token with which a step may put a round into sending. */
  function LaunchToken(step: Step, id: RoundId): Option<Token> {
    match step
    case ClaimStep(poll, leases, _) => if id in leases && !poll.supportsPrepared then Some(leases[id]) else None
    case SaveOutcomeStep(k, token, _) => if k == id then Some(token) else None
    case SendingStep(k, token) => if k == id then Some(token) else None
    case _ => None
  }

  lemma ClaimLaunches(db: Db, poll: ClaimRequest, leases: map<RoundId, Token>, notices: map<RoundId, Token>,
                      id: RoundId)
    requires id in db.rounds
    ensures var r, r' := db.rounds[id], ClaimedRow(db, poll, leases, notices, id);
      && r'.token == (if id in leases then Some(leases[id]) else r.token)
      && (!L.Gone(r.status) && L.Gone(r'.status) ==> id in leases && !poll.supportsPrepared)
  {
  }

  /** A holder's request puts only its own round into sending, and changes no token. */
  ghost predicate OnlyOwn(rounds: map<RoundId, Round>, rounds': map<RoundId, Round>, k: RoundId, token: Token,
                          id: RoundId) {
    && rounds'.Keys == rounds.Keys
    && (id in rounds ==>
          && rounds'[id].token == rounds[id].token
          && (!L.Gone(rounds[id].status) && L.Gone(rounds'[id].status) ==> k == id && rounds[id].token == Some(token)))
  }

  /** What a holder's request may do to its own round. */
  predicate OwnMove(r: Round, r': Round, token: Token) {
    r'.token == r.token && (!L.Gone(r.status) && L.Gone(r'.status) ==> r.token == Some(token))
  }

  lemma OwnMoves(r: Round, token: Token, outcome: Outcome)
    ensures OwnMove(r, SaveOutcome(r, token, outcome).0, token) && OwnMove(r, MarkSending(r, token).0, token)
  {
  }

  lemma HoldersLaunch(db: Db, k: RoundId, token: Token, outcome: Outcome, id: RoundId)
    ensures OnlyOwn(db.rounds, SaveOutcomeTx(db, k, token, outcome).0.rounds, k, token, id)
    ensures OnlyOwn(db.rounds, MarkSendingTx(db, k, token).0.rounds, k, token, id)
  {
    hide SaveOutcome, MarkSending;
    if k in db.rounds { OwnMoves(db.rounds[k], token, outcome); }
  }

  /** A round gets a token only from a claim, and is put into sending only with the token it has then. */
  ghost predicate LeaseMoves(rounds: map<RoundId, Round>, rounds': map<RoundId, Round>, step: Step, id: RoundId) {
    && (id in rounds ==> id in rounds')
    && (id in rounds' ==>
          if id in rounds then
            && (rounds'[id].token in {rounds[id].token, None}
                || (step.ClaimStep? && id in step.leases && rounds'[id].token == Some(step.leases[id])))
            && (!L.Gone(rounds[id].status) && L.Gone(rounds'[id].status) ==>
                  LaunchToken(step, id).Some? && rounds'[id].token == LaunchToken(step, id))
          else rounds'[id].token.None?)
  }

  lemma QuietLease(rounds: map<RoundId, Round>, rounds': map<RoundId, Round>, step: Step, id: RoundId)
    requires NoLease(rounds, rounds', id)
    ensures LeaseMoves(rounds, rounds', step, id)
  {
    hide LaunchToken;
  }

  lemma SameLease(rounds: map<RoundId, Round>, step: Step, id: RoundId)
    ensures LeaseMoves(rounds, rounds, step, id)
  {
    hide LaunchToken;
  }

  lemma ClaimLease(db: Db, step: Step, id: RoundId)
    requires step.ClaimStep?
    ensures LeaseMoves(db.rounds, ClaimTx(db, step.poll, step.leases, step.notices).rounds, step, id)
  {
    hide ClaimedRow;
    if id in db.rounds { ClaimLaunches(db, step.poll, step.leases, step.notices, id); }
  }

  lemma HoldersLease(db: Db, step: Step, id: RoundId)
    ensures step.SaveOutcomeStep? ==>
      LeaseMoves(db.rounds, SaveOutcomeTx(db, step.id, step.token, step.outcome).0.rounds, step, id)
    ensures step.SendingStep? ==> LeaseMoves(db.rounds, MarkSendingTx(db, step.id, step.token).0.rounds, step, id)
  {
    hide SaveOutcomeTx, MarkSendingTx;
    if step.SaveOutcomeStep? { HoldersLaunch(db, step.id, step.token, step.outcome, id); }
    if step.SendingStep? { HoldersLaunch(db, step.id, step.token, Outcome(true, 0), id); }
  }

  lemma DeliverySteps(sys: Sys, step: Step, id: RoundId)
    ensures var lease := LeaseMoves(sys.db.rounds, Next(sys, step).db.rounds, step, id);
      && (step.NoticeStep? || step.PrepareOutcomeStep? || step.SaveOutcomeStep? ==> lease)
      && (step.SendingStep? || step.CompleteStep? || step.ReleaseStep? ==> lease)
  {
    hide NoticeTx, PrepareOutcomeTx, SaveOutcomeTx, MarkSendingTx, CompleteTx, ReleaseTx, Prepare, DrawTx, ReconcileTx,
         ClaimTx, LeaseMoves, NoLease, RealRoll;
    var rounds, after := sys.db.rounds, Next(sys, step).db.rounds;
    match step
    case NoticeStep(k, token, action, today) =>
      NoticeLeasesNone(sys.db, k, token, action, today, id);
      QuietLease(rounds, after, step, id);
    case PrepareOutcomeStep(k, token, outcome, settle) =>
      PrepareOutcomeLeasesNone(sys.db, k, token, outcome, settle, id);
      QuietLease(rounds, after, step, id);
    case SaveOutcomeStep(_, _, _) => HoldersLease(sys.db, step, id);
    case SendingStep(_, _) => HoldersLease(sys.db, step, id);
    case CompleteStep(k, token) => CompleteLeasesNone(sys.db, k, token, id); QuietLease(rounds, after, step, id);
    case ReleaseStep(k, token) => ReleaseLeasesNone(sys.db, k, token, id); QuietLease(rounds, after, step, id);
    case _ =>
  }

  /** Only a lease holder, or a claim on behalf of an old client, puts a round into sending. */
  lemma OnlyHoldersLaunch(sys: Sys, step: Step, id: RoundId)
    requires Enabled(sys, step)
    ensures LeaseMoves(sys.db.rounds, Next(sys, step).db.rounds, step, id)
  {
    hide RoastTx, ForceTx, RefillTx, FeedTx, Prepare, DrawTx, MakeupTx, GrantTx, ReplaceTx, ClaimTx, NoticeTx,
         ReconcileTx,
         PrepareOutcomeTx, SaveOutcomeTx, MarkSendingTx, CompleteTx, ReleaseTx, Minted, ListOk, ClaimOk, FreshTokens,
         LeaseMoves, NoLease, RealRoll;
    var rounds, after := sys.db.rounds, Next(sys, step).db.rounds;
    SameLease(rounds, step, id);
    match step
    case PrepareStep(req, seen, unused) =>
      PrepareLeasesNone(sys.db, req, seen, None, unused, id);
      if Prepare(sys.db, req, seen, None, unused).Commit? { QuietLease(rounds, after, step, id); }
    case ReplyStep(req, seen, bound) =>
      PrepareLeasesNone(sys.db, req, seen, Some(bound), bound, id);
      if Prepare(sys.db, req, seen, Some(bound), bound).Commit? { QuietLease(rounds, after, step, id); }
    case DrawStep(date, user, pig, locked) =>
      DrawLeasesNone(sys.db, date, user, pig, locked, id);
      QuietLease(rounds, after, step, id);
    case MakeupStep(date, user, pig) => MakeupRounds(sys.db, date, user, pig);
    case JobStep(job) =>
      if job.NeedApply? {
        ReconcileLeasesNone(sys.db, job.date, job.target, job.pig, job.handled, id);
        QuietLease(rounds, after, step, id);
      }
    case GrantStep(slot, level) => GrantLeasesNone(sys.db, slot, level, id); QuietLease(rounds, after, step, id);
    case ReplaceStep(list) => ReplaceLeasesNone(sys.db, list, id); QuietLease(rounds, after, step, id);
    case ClaimStep(_, _, _) => ClaimLease(sys.db, step, id);
    case RoastStep(user, now, cooldown, maxCharges) => UsageOnly(sys.db, user, now, cooldown, maxCharges);
    case ForceStep(user, date) => UsageOnlyForce(sys.db, user, date);
    case RefillStep(users, max, now) => UsageOnlyRefill(sys.db, users, max, now);
    case FeedStep(date, user, source) => FeedRounds(sys.db, date, user, source);
    case RedrawStep(_, _) =>
    case _ => DeliverySteps(sys, step, id);
  }

  lemma FeedRounds(db: Db, date: Date, user: UserId, source: FeedSource)
    ensures FeedTx(db, date, user, source).rounds == db.rounds
  {
  }

  /** At-most-once sending: in a whole run at most one step puts a round into sending, it does so with the
      round's token, and from then on the round is never claimable, releasable or changed by any other token. */
  lemma SentAtMostOnce(states: seq<Sys>, steps: seq<Step>, i: nat, j: nat, k: nat, id: RoundId, token: Token, now: int)
    requires Runs(states, steps) && i < |steps| && j < |steps| && i < k < |states|
    requires Launches(states, i, id)
    ensures Launches(states, j, id) ==> j == i
    ensures LaunchToken(steps[i], id).Some?
    ensures id in states[k].db.rounds
    ensures var r := states[k].db.rounds[id];
      && L.Gone(r.status) && r.token == LaunchToken(steps[i], id)
      && !Claimable(r, now) && !Release(r, token).1
      && (MarkSending(r, token).1 || Complete(r, token).1 ==> LaunchToken(steps[i], id) == Some(token))
  {
    hide Initial, Enabled, Next, Settles, Inv;
    OnlyHoldersLaunch(states[i], steps[i], id);
    WriteOnce(states, steps, i + 1, k, id);
    SettlesGone(states[i + 1].db.rounds[id], states[k].db.rounds[id]);
    if j < i && Launches(states, j, id) {
      WriteOnce(states, steps, j + 1, i, id);
      SettlesGone(states[j + 1].db.rounds[id], states[i].db.rounds[id]);
    } else if i < j {
      WriteOnce(states, steps, i + 1, j, id);
      SettlesGone(states[i + 1].db.rounds[id], states[j].db.rounds[id]);
    }
  }

  lemma SettlesGone(r: Round, r': Round)
    requires Settles(r, r') && L.Gone(r.status)
    ensures L.Gone(r'.status) && r'.token == r.token
  {
  }

  // ---------------------------------------------------------------- leases that were lost

  /** Every lease token was drawn from the supply. */
  ghost predicate LeasesUsed(sys: Sys) {
    forall id :: id in sys.db.rounds && sys.db.rounds[id].token.Some? ==> sys.db.rounds[id].token.value in sys.used
  }

  lemma UsedGrows(sys: Sys, step: Step)
    ensures sys.used <= Next(sys, step).used
    ensures step.ClaimStep? ==> TokensOf(step.leases) <= Next(sys, step).used
  {
    hide RoastTx, ForceTx, RefillTx, FeedTx, Prepare, DrawTx, MakeupTx, GrantTx, ReplaceTx, ClaimTx, NoticeTx,
         ReconcileTx,
         PrepareOutcomeTx, SaveOutcomeTx, MarkSendingTx, CompleteTx, ReleaseTx, Minted;
  }

  lemma LeasedToken(step: Step, id: RoundId)
    requires step.ClaimStep? && id in step.leases
    ensures step.leases[id] in TokensOf(step.leases)
  {
  }

  lemma {:induction false} LeasesAlwaysUsed(states: seq<Sys>, steps: seq<Step>, i: nat)
    requires Runs(states, steps) && i < |states|
    ensures LeasesUsed(states[i])
  {
    hide Next, Enabled, WorldOk;
    if i > 0 {
      LeasesAlwaysUsed(states, steps, i - 1);
      UsedGrows(states[i - 1], steps[i - 1]);
      forall id | id in states[i].db.rounds && states[i].db.rounds[id].token.Some?
        ensures states[i].db.rounds[id].token.value in states[i].used
      {
        OnlyHoldersLaunch(states[i - 1], steps[i - 1], id);
        if steps[i - 1].ClaimStep? && id in steps[i - 1].leases { LeasedToken(steps[i - 1], id); }
      }
    }
  }

  lemma ClaimsAreFresh(sys: Sys, step: Step, id: RoundId)
    requires Enabled(sys, step) && step.ClaimStep? && id in step.leases
    ensures step.leases[id] !in sys.used
  {
    hide ClaimOk;
    LeasedToken(step, id);
  }

  /** A lost lease stays lost: a holder whose token was replaced or given back finds every later request for
      the round refused, whoever holds it by then. */
  lemma {:induction false} LostLeaseStaysLost(states: seq<Sys>, steps: seq<Step>, i: nat, j: nat, k: nat, id: RoundId,
                                              token: Token, outcome: Outcome)
    requires Runs(states, steps) && i <= j <= k < |states| && id in states[i].db.rounds && id in states[j].db.rounds
    requires states[i].db.rounds[id].token == Some(token) && states[j].db.rounds[id].token != Some(token)
    ensures id in states[k].db.rounds && token in states[k].used
    ensures var r := states[k].db.rounds[id];
      && !HoldsToken(r, token) && PrepareFixing(r, token, outcome) == Refused
      && !SaveOutcome(r, token, outcome).1 && !MarkSending(r, token).1 && !Complete(r, token).1 && !Release(r, token).1
    decreases k
  {
    hide Next, Enabled, Initial, Inv, L.Gone, LaunchToken;
    LeasesAlwaysUsed(states, steps, i);
    UsedStays(states, steps, i, k);
    if j < k {
      LostLeaseStaysLost(states, steps, i, j, k - 1, id, token, outcome);
      UsedStays(states, steps, i, k - 1);
      OnlyHoldersLaunch(states[k - 1], steps[k - 1], id);
      if steps[k - 1].ClaimStep? && id in steps[k - 1].leases { ClaimsAreFresh(states[k - 1], steps[k - 1], id); }
    }
  }

  lemma {:induction false} UsedStays(states: seq<Sys>, steps: seq<Step>, i: nat, k: nat)
    requires Runs(states, steps) && i <= k < |states|
    ensures states[i].used <= states[k].used
    decreases k
  {
    hide Next, Enabled, Initial;
    if i < k {
      UsedStays(states, steps, i, k - 1);
      UsedGrows(states[k - 1], steps[k - 1]);
    }
  }

  // ---------------------------------------------------------------- takeovers and ledgers

  /** A capable super request takes over the waiting round of its slot. */
  lemma PrepareTakesOver(db: Db, req: Request, seen: bool, unused: RoundId, id: RoundId)
    requires IndexOk(db.rounds, db.slots) && id in db.rounds && SlotOf(db.rounds[id]) == Target(req)
    requires db.rounds[id].status == Pending && db.rounds[id].mode != Super && req.mode == Super && Capable(req)
    ensures var result := Prepare(db, req, seen, None, unused);
      && result.Commit? && id in result.db.rounds
      && result.db.rounds[id] == TakeOver(db.rounds[id], req, if seen then Drawn(db, req.date, req.target) else None)
  {
    hide Guard, TakeOver, RealRoll, IndexOk, SpendForce, ForceFree;
    GuardShape(db, req);
    SlotHolder(db, id);
  }

  lemma SlotHolder(db: Db, id: RoundId)
    requires IndexOk(db.rounds, db.slots) && id in db.rounds && db.rounds[id].status != Completed
    ensures SlotOf(db.rounds[id]) in db.slots && db.slots[SlotOf(db.rounds[id])] == id
  {
  }

  /** Takeover preserves feeding over runs: whatever happens after a super request took a waiting round over, a
      success feeds those whom a success at that moment would have fed, without the operator, in joining order.
      The one exception is an unprotected round with a blank mode and somebody else on board. */
  lemma TakeoverFeedsTheSame(states: seq<Sys>, steps: seq<Step>, i: nat, j: nat, id: RoundId)
    requires Runs(states, steps) && i < |steps| && i < j < |states| && id in states[i].db.rounds
    requires steps[i].PrepareStep? && steps[i].req.mode == Super && Capable(steps[i].req)
    requires var r := states[i].db.rounds[id];
      SlotOf(r) == Target(steps[i].req) && r.status == Pending && r.mode != Super
    ensures id in states[j].db.rounds
    ensures var r, attacker := states[i].db.rounds[id], steps[i].req.attacker;
      L.WouldFeed(states[j].db.rounds[id]) == L.Without(L.WouldFeed(r), attacker)
      <==> !(r.mode == Blank && r.required == 0 && exists m :: 0 <= m < |r.members| && r.members[m].user != attacker)
  {
    hide Enabled, Initial, Prepare, TakeOver, L.Evolves, L.RoundOk, L.WouldFeed, L.Without, WorldOk, RoundsOk, RealRoll,
         SysOk;
    var db, req, r := states[i].db, steps[i].req, states[i].db.rounds[id];
    var pig := if steps[i].seen then Drawn(db, req.date, req.target) else None;
    RunIsOk(states, steps, i);
    SysInv(states[i]);
    InvWorld(db);
    RoundIsOk(states, steps, i, id);
    ContextAtOk(WorldOf(db), SlotOf(r));
    PrepareTakesOver(db, req, steps[i].seen, steps[i].unused, id);
    RunEvolves(states, steps, i + 1, j, id);
    L.TakeoverPreservesFeedingIff(r, req, pig, states[j].db.rounds[id], ContextAt(WorldOf(db), SlotOf(r)));
  }

  /** In every state every user's ledger is true, and later states keep its rows. */
  lemma LedgersAlwaysTrue(states: seq<Sys>, steps: seq<Step>, i: nat, j: nat, u: UserId)
    requires Runs(states, steps) && i <= j < |states|
    ensures LedgerOk(At(states[j].db.growth, u)) && Extends(At(states[i].db.growth, u), At(states[j].db.growth, u))
  {
    hide Runs, SysOk, Safe, LedgerOk, Extends, At, ProtOk;
    RunIsOk(states, steps, j);
    SysInv(states[j]);
    InvWorld(states[j].db);
    LedgerAt(states[j].db.growth, u);
    RunFollows(states, steps, i, j);
    SafeParts(states[i].db, states[j].db);
    ExtendsRefl(At(states[i].db.growth, u));
  }
}
