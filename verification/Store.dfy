/** The handlers as they run: rows are loaded, edited field by field and written back, loops go over the
    rows a query returned, and a conflict rolls everything back.

    Every method is proved to do to the tables exactly what its transaction in Database.dfy says, so that
    all that is proved about the transactions holds of the handlers. */
module Store {
  import opened Base
  import opened Growth
  import opened Protections
  import opened Rounds
  import opened Usage
  import opened Database
  import opened DatabaseLaws
  import opened RequestLaws
  import RoastSystem
  import opened ReservationRows
  import opened ProtectionRows
  import E = RoundEffects
  import T = TableEffects

  class RoastStore {
    var rounds: map<RoundId, Round>
    var slots: map<Slot, RoundId>
    var prots: map<Slot, Prot>
    var globals: map<(Date, UserId), Prot>
    const growth: GrowthTable
    const usage: UsageTable

    /** All the tables. */
    ghost function Tables(): Db
      reads this, growth, usage
    {
      Db(rounds, slots, prots, globals, growth.users, usage.rows)
    }

    constructor ()
      ensures Tables() == EMPTY
      ensures fresh(growth) && fresh(usage)
    {
      rounds, slots, prots, globals := map[], map[], map[], map[];
      growth := new GrowthTable();
      usage := new UsageTable();
    }

    // -------------------------------------------------------------- arrivals

    static method ReconcileRow(r: Round, pig: PigId, handled: bool) returns (r': Round)
      ensures r' == Rounds.Reconcile(r, pig, handled)
    {
      var row := new Reservation(r);
      row.Reconcile(pig, handled);
      r' := row.Row();
    }

    /** Reconciles the rows that a query returned, in whatever order. */
    method ActivateEach(rows: set<RoundId>, pig: PigId, handled: Option<RoundId>)
      requires rows <= rounds.Keys
      modifies `rounds
      ensures rounds.Keys == old(rounds).Keys
      ensures forall id :: id in rounds ==>
        rounds[id] == if id in rows then Rounds.Reconcile(old(rounds)[id], pig, handled == Some(id))
          else old(rounds)[id]
    {
      hide Rounds.Reconcile;
      var before, after, todo := rounds, rounds, rows;
      while todo != {}
        invariant todo <= rows && after.Keys == before.Keys
        invariant forall id :: id in before ==>
          after[id] == if id in rows && id !in todo then Rounds.Reconcile(before[id], pig, handled == Some(id))
            else before[id]
        decreases |todo|
      {
        var id :| id in todo;
        todo := todo - {id};
        var r := ReconcileRow(after[id], pig, handled == Some(id));
        after := after[id := r];
      }
      rounds := after;
    }

    /** Activates the waiting reservations of a target; a make-up draw activates none. */
    method ActivateTargetReservations(date: Date, target: UserId, pig: PigId, handled: Option<RoundId>)
      modifies this
      ensures Tables() == ReconcileTx(old(Tables()), date, target, pig, handled)
    {
      hide Rounds.Reconcile;
      var g := At(growth.users, target);
      if date in g.rolls && g.rolls[date].makeup {
        return;
      }
      var waiting := set id | id in rounds && WaitsFor(rounds[id], date, target);
      ActivateEach(waiting, pig, handled);
      assert rounds == ReconcileTx(old(Tables()), date, target, pig, handled).rounds;
    }

    /** After a request has committed, the target's draw is read again and applied. */
    method ActivateIfTargetAlreadyRolled(date: Date, target: UserId, handled: Option<RoundId>)
      modifies this
      ensures Tables() == match Drawn(old(Tables()), date, target)
                          case None => old(Tables())
                          case Some(pig) => ReconcileTx(old(Tables()), date, target, pig, handled)
    {
      hide ReconcileTx;
      var g := At(growth.users, target);
      if date !in g.rolls || g.rolls[date].makeup {
        return;
      }
      ActivateTargetReservations(date, target, g.rolls[date].pig, handled);
    }

    /** The endpoint without anybody else around: whatever real draw the day ends up with, first or repeated, is
        reconciled after its commit; a make-up draw is answered and nothing else. */
    method GetOrCreateDailyRoll(user: UserId, date: Date, pig: PigId, locked: set<RoundId>) returns (created: bool)
      modifies this, growth
      ensures created <==> date !in At(old(growth.users), user).rolls
      ensures Tables() ==
        (var drawn := if created then DrawTx(old(Tables()), date, user, pig, locked) else old(Tables());
         var roll := Drawn(drawn, date, user);
         if roll.Some? then ReconcileTx(drawn, date, user, roll.value, None) else drawn)
    {
      hide DrawTx, ReconcileTx;
      created := CreateDailyRoll(user, date, pig, locked);
      var g := At(growth.users, user);
      if date in g.rolls && !g.rolls[date].makeup {
        ActivateTargetReservations(date, user, g.rolls[date].pig, None);
      }
    }

    /** The first draw of the day activates the waiting reservations that its transaction had locked. */
    method CreateDailyRoll(user: UserId, date: Date, pig: PigId, locked: set<RoundId>) returns (created: bool)
      modifies this, growth
      ensures created <==> date !in At(old(growth.users), user).rolls
      ensures Tables() == if created then DrawTx(old(Tables()), date, user, pig, locked) else old(Tables())
    {
      hide Rounds.Activate, Rounds.Reconcile, Draw, At;
      created := growth.GetOrCreateRoll(user, date, pig, false);
      if !created {
        return;
      }
      var waiting := set id | id in rounds && id in locked && WaitsFor(rounds[id], date, user);
      ActivateEach(waiting, pig, None);
      forall id | id in rounds && WaitsFor(old(rounds)[id], date, user)
        ensures Rounds.Reconcile(old(rounds)[id], pig, false) == Rounds.Activate(old(rounds)[id], pig, true)
      {
        ReconcileShape(old(rounds)[id], pig, false);
      }
      assert rounds == DrawTx(old(Tables()), date, user, pig, locked).rounds;
    }

    method MakeupDailyRoll(user: UserId, date: Date, pig: PigId) returns (created: bool)
      modifies growth
      ensures created <==> date !in At(old(growth.users), user).rolls
      ensures Tables() == if created then MakeupTx(old(Tables()), date, user, pig) else old(Tables())
    {
      hide Draw;
      created := growth.GetOrCreateRoll(user, date, pig, true);
    }

    // -------------------------------------------------------------- requests

    /** The target's protection; a capable group gets its own copy of a global row. */
    method FindProtection(req: Request) returns (protection: Option<Prot>)
      modifies `prots
      ensures (Tables(), protection) == Guard(old(Tables()), req)
    {
      hide InheritGlobal;
      if Target(req) in prots {
        return Some(prots[Target(req)]);
      }
      if (req.date, req.target) !in globals {
        return None;
      }
      protection := Some(globals[(req.date, req.target)]);
      if req.gathering {
        protection := Some(InheritGlobal(protection.value));
        prots := prots[Target(req) := protection.value];
      }
    }

    method FindActive(req: Request) returns (found: Option<RoundId>)
      ensures found == FindRound(Tables(), req) && (found.Some? ==> found.value in rounds)
    {
      found := None;
      if Target(req) in slots && slots[Target(req)] in rounds {
        var r := rounds[slots[Target(req)]];
        if r.status == Pending || r.required > 0 || req.mode == Super {
          found := Some(slots[Target(req)]);
        }
      }
    }

    /** One attempt; None means that the unique key was hit and everything was rolled back. */
    method PrepareReservation(req: Request, seen: bool, expected: Option<RoundId>, unused: RoundId)
      returns (reply: Option<(Verdict, Option<RoundId>)>)
      modifies this, usage
      ensures match Prepare(old(Tables()), req, seen, expected, unused)
              case Conflict => reply.None? && Tables() == old(Tables())
              case Commit(db, verdict, round) => reply == Some((verdict, round)) && Tables() == db
    {
      hide TouchRound, OpenRound, Guard, FindRound, RealRoll;
      var keptProts := prots;
      GuardShape(Tables(), req);
      var found := FindActive(req);
      var protection := FindProtection(req);
      if protection.Some? && !Capable(req) && req.mode != Super {
        return Some((TargetProtected, None));
      }
      var pig := if seen then RealRoll(At(growth.users, req.target), req.date) else None;
      if expected.Some? && (found != expected || (pig.Some? && rounds[found.value].required == 0)
                            || rounds[found.value].status != Pending) {
        return Some((Closed, None));
      }
      if found.Some? {
        var verdict := TouchReservation(found.value, req, pig);
        return Some((verdict, found));
      }
      reply := OpenReservation(req, protection, pig, unused);
      if reply.None? {
        prots := keptProts;
      }
    }

    /** The prepare endpoint without anybody else around: a conflict is retried once, and an answer that leaves a
        waiting reservation behind is followed by a reconciliation with the draw as it is by then. */
    method PrepareAndReconcile(req: Request, seenFirst: bool, seenAgain: bool, unused: RoundId)
      returns (reply: Option<(Verdict, Option<RoundId>)>)
      modifies this, usage
      ensures var first := Prepare(old(Tables()), req, seenFirst, None, unused);
        var last := if first.Conflict? then Prepare(old(Tables()), req, seenAgain, None, unused) else first;
        match last
        case Conflict => reply.None? && Tables() == old(Tables())
        case Commit(db, verdict, round) =>
          reply == Some((verdict, round)) && Tables() == AfterCommit(db, req, verdict, round)
    {
      hide Prepare, ReconcileTx, RealRoll;
      reply := PrepareReservation(req, seenFirst, None, unused);
      if reply.None? {
        reply := PrepareReservation(req, seenAgain, None, unused);
        if reply.None? {
          return;
        }
      }
      if RoastSystem.IsReconciled(reply.value.0) {
        ActivateIfTargetAlreadyRolled(req.date, req.target, reply.value.1);
      }
    }

    /** Joins, boosts or takes over the reservation that was found. */
    method TouchReservation(id: RoundId, req: Request, pig: Option<PigId>) returns (verdict: Verdict)
      requires id in rounds
      modifies this, usage
      ensures Commit(Tables(), verdict, Some(id)) == TouchRound(old(Tables()), req, id, pig)
    {
      hide Touch, ConsumeForce;
      var row := new Reservation(rounds[id]);
      var spent;
      verdict, spent := Apply(row, req, pig);
      rounds := rounds[id := row.Row()];
    }

    /** The request's edits to the loaded row; `spent` says whether a force use was consumed. */
    method Apply(row: Reservation, req: Request, pig: Option<PigId>) returns (verdict: Verdict, spent: bool)
      modifies row, usage
      ensures Touched(row.Row(), verdict, spent)
        == Touch(old(row.Row()), req, pig, LastForce(Lookup(old(usage.rows), req.attacker)) != Some(req.date))
      ensures usage.rows ==
        if spent then old(usage.rows)[req.attacker := ConsumeForce(Lookup(old(usage.rows), req.attacker), req.date).0]
        else old(usage.rows)
    {
      hide Rounds.TakeOver, Rounds.Join, UpdateDelivery, ConsumeForce, LastForce;
      spent := false;
      if row.status != Pending {
        if CanReassign(row.Row(), req) {
          row.UpdateDeliveryCapability(req);
        }
        return Busy, false;
      }
      if row.mode == Super {
        var operator := if row.operator.Some? then row.operator.value else row.owner;
        return if operator == req.attacker then AlreadyJoined else Closed, false;
      }
      if req.mode == Super {
        if !Capable(req) {
          return Closed, false;
        }
        row.TakeOver(req, pig);
        return Verdict.Joined, false;
      }
      var k := row.FindMember(req.attacker);
      var member := k < |row.members|;
      var boosted := row.required > 0 && req.mode == Normal;
      if member && !(boosted && row.members[k].contribution < 2) {
        row.UpdateDeliveryCapability(req);
        row.notice := NoNotice;
        return AlreadyJoined, false;
      }
      if !member && |row.members| >= MAX_PARTICIPANTS {
        return Full, false;
      }
      if boosted {
        DeniedForceKeeps(usage.rows, req.attacker, req.date);
        spent := usage.ConsumeForceUsage(req.attacker, req.date);
        if !spent {
          return ForceDenied, false;
        }
      }
      row.Join(req, k, boosted, pig);
      verdict := if member then Upgraded else Verdict.Joined;
    }

    /** Consumes what a new reservation costs; None means that it was paid. */
    method Charge(req: Request) returns (refusal: Option<Verdict>)
      modifies usage
      ensures refusal == if CanAfford(old(Tables()), req) then None
        else Some(if req.mode == Normal then ForceDenied else CooldownDenied)
      ensures usage.rows == Charged(old(Tables()), req).usage
    {
      hide ConsumeForce, ConsumeRoast, LastForce;
      refusal := None;
      if req.mode == Normal {
        DeniedForceKeeps(usage.rows, req.attacker, req.date);
        var granted := usage.ConsumeForceUsage(req.attacker, req.date);
        if !granted {
          return Some(ForceDenied);
        }
      } else if req.mode != Super {
        var charge := usage.ConsumeRoastUsage(req.attacker, req.now, req.cooldown, req.maxCharges);
        if !charge.allowed {
          return Some(CooldownDenied);
        }
      }
    }

    method NewReservation(req: Request, protection: Option<Prot>, pig: Option<PigId>) returns (r: Round)
      ensures r == Open(req, OptionLevel(protection), pig)
    {
      hide Rounds.ActivateIfArrived, LevelInForce;
      var level := if protection.Some? then Some(LevelInForce(protection.value)) else None;
      var required := if level.Some? && req.gathering then 1 + level.value else 0;
      var row := new Reservation(
        Round(req.date, req.group, req.target, req.attacker, req.mode, Pending, required, None, [], NoNotice,
              req.bot, if Capable(req) then 2 else 0, None, None, None, None, None, None));
      row.members := [Member(req.attacker, if protection.Some? && req.mode == Normal then 2 else 1)];
      row.ActivateIfArrived(pig, false);
      r := row.Row();
    }

    /** Opens a reservation; None means that the slot is taken, and nothing has changed. */
    method OpenReservation(req: Request, protection: Option<Prot>, pig: Option<PigId>, unused: RoundId)
      returns (reply: Option<(Verdict, Option<RoundId>)>)
      modifies this, usage
      ensures match OpenRound(old(Tables()), req, protection, pig, unused)
              case Conflict => reply.None? && Tables() == old(Tables())
              case Commit(db, verdict, round) => reply == Some((verdict, round)) && Tables() == db
    {
      hide Open, CanAfford, Charged, OpenRound;
      OpenByCharge(Tables(), req, protection, pig, unused);
      ChargedUsage(Tables(), req);
      if pig.Some? && (protection.None? || (req.mode == Super && !req.gathering)) {
        return Some((TargetReady, None));
      }
      var keptUsage := usage.rows;
      var refusal := Charge(req);
      if refusal.Some? {
        return Some((refusal.value, None));
      }
      var r := NewReservation(req, protection, pig);
      if SlotOf(r) in slots {
        usage.rows := keptUsage;
        return None;
      }
      rounds := rounds[unused := r];
      slots := slots[SlotOf(r) := unused];
      return Some((Created, Some(unused)));
    }

    // -------------------------------------------------------------- protection

    static method SyncRow(r: Round, level: Option<nat>) returns (r': Round)
      ensures r' == Sync(r, level)
    {
      var row := new Reservation(r);
      row.SyncProtection(level);
      r' := row.Row();
    }

    /** The waiting reservations of a slot follow its protection. */
    method SyncPendingProtection(s: Slot, level: Option<nat>)
      modifies `rounds
      ensures rounds.Keys == old(rounds).Keys
      ensures forall id :: id in rounds ==>
        rounds[id] == if SlotOf(old(rounds)[id]) == s then SyncRound(old(rounds)[id], level) else old(rounds)[id]
    {
      hide Sync, SlotOf;
      var waiting := set id | id in rounds && SlotOf(rounds[id]) == s && rounds[id].status == Pending;
      var before, after, todo := rounds, rounds, waiting;
      while todo != {}
        invariant todo <= waiting && after.Keys == before.Keys
        invariant forall id :: id in before ==>
          after[id] == if id in waiting && id !in todo then Sync(before[id], level) else before[id]
        decreases |todo|
      {
        var id :| id in todo;
        todo := todo - {id};
        var r := SyncRow(after[id], level);
        after := after[id := r];
      }
      rounds := after;
    }

    /** Grants a manual protection of the day. */
    method GrantProtection(s: Slot, level: int) returns (changed: bool)
      modifies this
      ensures Tables() == GrantTx(old(Tables()), s, level)
      ensures var before := Basis(Lookup(old(prots), s), GlobalOf(old(Tables()), s));
        changed <==> before.None? || level > Level(before.value)
    {
      hide SyncRound, LevelsOf, InheritGlobal, Level, LevelInForce, WithSources;
      var before := Basis(Lookup(prots, s), Lookup(globals, (s.date, s.user)));
      var p;
      if before.None? {
        p := Prot(0, Some(NOTHING.(manual := Some(level))), NOTHING, level, 0);
        changed := true;
      } else {
        GrantInherited(Lookup(prots, s), Lookup(globals, (s.date, s.user)), level);
        var row := new GroupProtection(before.value);
        changed := level > Level(before.value);
        row.Grant(level);
        p := row.Row();
      }
      assert p == Protections.Grant(Lookup(prots, s), GlobalOf(old(Tables()), s), level);
      prots := prots[s := p];
      SyncPendingProtection(s, Some(LevelInForce(p)));
      assert rounds == GrantTx(old(Tables()), s, level).rounds;
    }

    /** The row of one user when the list is replaced; it is edited, kept, created or deleted. */
    method ReplaceRow(list: DailyList, s: Slot, yesterday: Option<Prot>) returns (edited: bool)
      requires Covers(list, s) && yesterday == Yesterday(Tables(), s)
      modifies `prots
      ensures edited <==> Edits(old(Tables()), list, s)
      ensures forall t :: Lookup(prots, t) == if t == s then RowAfter(old(Tables()), list, s) else Lookup(old(prots), t)
    {
      hide Enlist, Delist, IsHistoricalDaily, InheritGlobal;
      var global := Lookup(globals, (s.date, s.user));
      if s.user in list.users {
        var before := Basis(Lookup(prots, s), global);
        var row;
        if before.Some? {
          row := new GroupProtection(before.value);
          EnlistInherited(Lookup(prots, s), global, yesterday, list.initial);
        } else {
          row := new GroupProtection.Blank();
          EnlistNew(yesterday, list.initial);
        }
        edited := row.Enlist(yesterday, list.initial);
        prots := prots[s := row.Row()];
      } else if s in prots {
        var row := new GroupProtection(prots[s]);
        var kept := row.Delist(global);
        prots := if kept then prots[s := row.Row()] else prots - {s};
        edited := true;
      } else {
        edited := false;
      }
    }

    /** One user of the loop below: the row is replaced and the waiting reservations follow it. */
    method ReplaceFor(list: DailyList, u: UserId, previous: map<Slot, Prot>, ghost before: Db, ghost done: set<UserId>)
      requires During(before, Tables(), list, done) && u !in done
      requires previous == PreviousRows(before.prots, list)
      modifies `rounds, `prots
      ensures During(before, Tables(), list, done + {u})
    {
      hide RowAfter, Edits, SyncRound, LevelInForce, RoundDuring, RowsDuring, SlotOf;
      var s := Slot(list.date, list.group, u);
      var yesterday := Lookup(previous, s.(date := s.date - 1));
      YesterdayKept(before, Tables(), list, s, previous, done);
      SameRow(before, Tables(), list, s, done);
      ghost var now := Tables();
      var edited := ReplaceRow(list, s, yesterday);
      RowsStep(before.prots, now.prots, prots, before, list, done, u);
      if edited {
        SyncPendingProtection(s, OptionLevel(Lookup(prots, s)));
      }
      RoundsStep(before, now.rounds, rounds, list, done, u);
    }

    /** Replaces the daily list of a group: everyone who left it or is on it, one after the other. */
    method ReplaceGroup(list: DailyList)
      modifies this
      ensures Tables() == ReplaceTx(old(Tables()), list)
    {
      hide During, ReplaceTx, PreviousRows, Removed;
      ghost var before := Tables();
      var previous := PreviousRows(prots, list);
      var removed := Removed(prots, list);
      var todo := removed + list.users;
      ghost var done: set<UserId> := {};
      NothingDone(before, list);
      while todo != {}
        invariant done !! todo && done + todo == removed + list.users
        invariant During(before, Tables(), list, done)
        decreases |todo|
      {
        var u :| u in todo;
        ReplaceFor(list, u, previous, before, done);
        todo, done := todo - {u}, done + {u};
      }
      Finished(before, Tables(), list, removed);
    }

    // -------------------------------------------------------------- leases and notices

    static method LeaseRow(r: Round, token: Token, now: int, supportsPrepared: bool) returns (r': Round)
      ensures r' == ClaimRound(r, token, now, supportsPrepared)
    {
      var row := new Reservation(r);
      row.Lease(token, now, supportsPrepared);
      r' := row.Row();
    }

    static method MintRow(r: Round, token: Token, now: int) returns (r': Round)
      ensures r' == MintNotice(r, token, now)
    {
      var row := new Reservation(r);
      row.LeaseNotice(token, now);
      r' := row.Row();
    }

    /** Leases the rows that a query returned, each under its own token. */
    method LeaseEach(leases: map<RoundId, Token>, now: int, supportsPrepared: bool)
      requires leases.Keys <= rounds.Keys
      modifies `rounds
      ensures rounds.Keys == old(rounds).Keys
      ensures forall id :: id in rounds ==>
        rounds[id] == if id in leases then ClaimRound(old(rounds)[id], leases[id], now, supportsPrepared)
          else old(rounds)[id]
    {
      hide ClaimRound;
      var before, after, todo := rounds, rounds, leases.Keys;
      while todo != {}
        invariant todo <= leases.Keys && after.Keys == before.Keys
        invariant forall id :: id in before ==>
          after[id] == if id in leases && id !in todo then ClaimRound(before[id], leases[id], now, supportsPrepared)
            else before[id]
        decreases |todo|
      {
        var id :| id in todo;
        todo := todo - {id};
        var r := LeaseRow(after[id], leases[id], now, supportsPrepared);
        after := after[id := r];
      }
      rounds := after;
    }

    /** Leases the waiting notices that a query returned, each under its own token. */
    method MintEach(notices: map<RoundId, Token>, now: int)
      requires notices.Keys <= rounds.Keys
      modifies `rounds
      ensures rounds.Keys == old(rounds).Keys
      ensures forall id :: id in rounds ==>
        rounds[id] == if id in notices then MintNotice(old(rounds)[id], notices[id], now) else old(rounds)[id]
    {
      hide MintNotice;
      var before, after, todo := rounds, rounds, notices.Keys;
      while todo != {}
        invariant todo <= notices.Keys && after.Keys == before.Keys
        invariant forall id :: id in before ==>
          after[id] == if id in notices && id !in todo then MintNotice(before[id], notices[id], now) else before[id]
        decreases |todo|
      {
        var id :| id in todo;
        todo := todo - {id};
        var r := MintRow(after[id], notices[id], now);
        after := after[id := r];
      }
      rounds := after;
    }

    /** Rows of a query: any of the candidates, as many as there are up to the limit. */
    static method Limited(candidates: set<RoundId>, limit: nat) returns (picked: set<RoundId>)
      ensures picked <= candidates && |picked| <= limit && (|picked| == limit || picked == candidates)
    {
      picked := {};
      var todo := candidates;
      while |picked| < limit && todo != {}
        invariant picked !! todo && picked + todo == candidates && |picked| <= limit
        decreases |todo|
      {
        var id :| id in todo;
        picked, todo := picked + {id}, todo - {id};
      }
    }

    /** Gives every row a token of its own from the supply. */
    static method Tokens(rows: set<RoundId>, supply: set<Token>) returns (tokens: map<RoundId, Token>)
      requires |rows| <= |supply|
      ensures tokens.Keys == rows && forall id :: id in tokens ==> tokens[id] in supply
      ensures forall a, b :: a in tokens && b in tokens && a != b ==> tokens[a] != tokens[b]
    {
      tokens := map[];
      var todo, left := rows, supply;
      while todo != {}
        invariant todo <= rows && tokens.Keys == rows - todo
        invariant left <= supply && |todo| <= |left|
        invariant forall id :: id in tokens ==> tokens[id] in supply && tokens[id] !in left
        invariant forall a, b :: a in tokens && b in tokens && a != b ==> tokens[a] != tokens[b]
        decreases |todo|
      {
        var id :| id in todo;
        var t :| t in left;
        tokens := tokens[id := t];
        todo, left := todo - {id}, left - {t};
      }
    }

    /** The queries of a claim: as many claimable reservations and waiting notices as the limit allows, each with a
        token of its own.  Which of them come first is left open. */
    method SelectClaims(poll: ClaimRequest, excluded: set<RoundId>, limit: int, supportsWaitingNotice: bool,
                        supply: set<Token>, moreSupply: set<Token>)
      returns (leases: map<RoundId, Token>, notices: map<RoundId, Token>)
      requires |supply| >= MAX_CLAIMS && |moreSupply| >= MAX_CLAIMS && supply !! moreSupply
      ensures ClaimOk(Tables(), poll, leases, notices)
      ensures forall used :: supply !! used && moreSupply !! used ==> RoastSystem.FreshTokens(leases, notices, used)
      ensures leases.Keys !! excluded && notices.Keys !! excluded && (notices == map[] || supportsWaitingNotice)
      ensures var n := Max(1, Min(MAX_CLAIMS, limit));
        && |leases.Keys| <= n && |notices.Keys| <= n
        && (|leases.Keys| < n ==> forall id :: id in rounds && id !in excluded && MayClaim(rounds[id], poll) ==>
               id in leases)
    {
      hide MayClaim, MayClaimNotice, RoastSystem.FreshTokens;
      var n := Max(1, Min(MAX_CLAIMS, limit));
      var ready := set id | id in rounds && id !in excluded && MayClaim(rounds[id], poll);
      var picked := Limited(ready, n);
      leases := Tokens(picked, supply);
      notices := map[];
      if supportsWaitingNotice {
        var waiting := set id | id in rounds && id !in excluded && MayClaimNotice(rounds[id], poll);
        var noticed := Limited(waiting, n);
        notices := Tokens(noticed, moreSupply);
      }
      forall used | supply !! used && moreSupply !! used
        ensures RoastSystem.FreshTokens(leases, notices, used)
      {
        FromSupply(leases, notices, supply, moreSupply, used);
      }
    }

    /** A claim: capable senders are recorded, then the selected reservations and notices are leased. */
    method Claim(poll: ClaimRequest, excluded: set<RoundId>, limit: int, supportsWaitingNotice: bool,
                 supply: set<Token>, moreSupply: set<Token>)
      returns (leases: map<RoundId, Token>, notices: map<RoundId, Token>)
      requires |supply| >= MAX_CLAIMS && |moreSupply| >= MAX_CLAIMS && supply !! moreSupply
      modifies this
      ensures Tables() == ClaimTx(old(Tables()), poll, leases, notices)
      ensures ClaimOk(old(Tables()), poll, leases, notices)
      ensures forall used :: supply !! used && moreSupply !! used ==> RoastSystem.FreshTokens(leases, notices, used)
      ensures leases.Keys !! excluded && notices.Keys !! excluded && (notices == map[] || supportsWaitingNotice)
      ensures var n := Max(1, Min(MAX_CLAIMS, limit));
        && |leases.Keys| <= n && |notices.Keys| <= n
        && (|leases.Keys| < n ==> forall id ::
               id in old(rounds) && id !in excluded && MayClaim(old(rounds)[id], poll) ==> id in leases)
    {
      hide Confirmed, ClaimRound, MintNotice, ClaimTx, MayClaim, MayClaimNotice, RoastSystem.FreshTokens;
      leases, notices := SelectClaims(poll, excluded, limit, supportsWaitingNotice, supply, moreSupply);
      ConfirmSenders(poll);
      ghost var confirmed := rounds;
      LeaseEach(leases, poll.now, poll.supportsPrepared);
      ghost var leased := rounds;
      MintEach(notices, poll.now);
      ClaimInStages(old(Tables()), poll, leases, notices, confirmed, leased, rounds);
    }

    /** One UPDATE records that the sender can gather. */
    method ConfirmSenders(poll: ClaimRequest)
      modifies `rounds
      ensures rounds.Keys == old(rounds).Keys && forall id :: id in rounds ==>
        rounds[id] == Confirmed(old(rounds)[id], poll)
    {
      hide Confirmed;
      rounds := map id | id in rounds :: Confirmed(rounds[id], poll);
    }

    method TransitionWaitingNotice(id: RoundId, token: Token, action: NoticeAction, today: Date) returns (ok: bool)
      modifies this
      ensures (Tables(), ok) == NoticeTx(old(Tables()), id, token, action, today)
    {
      hide MoveNotice;
      if id !in rounds {
        return false;
      }
      var row := new Reservation(rounds[id]);
      ok := row.MoveNotice(token, action, today);
      rounds := rounds[id := row.Row()];
    }

    // -------------------------------------------------------------- outcomes and delivery

    /** Fixes the outcome of a leased reservation.  A first success raises the count of the protection it broke
        through and feeds the members who are due, all in the same transaction. */
    method PrepareOutcome(id: RoundId, token: Token, outcome: Outcome, settleDailyFeed: bool) returns (ok: bool)
      requires id in rounds ==> NoDuplicates(Settled(rounds[id], outcome, settleDailyFeed))
      modifies this, growth
      ensures (Tables(), ok) == PrepareOutcomeTx(old(Tables()), id, token, outcome, settleDailyFeed)
    {
      hide FeedAll, FeedResults, Settled, PrepareFixing, BrokenThrough;
      if id !in rounds {
        return false;
      }
      var row := new Reservation(rounds[id]);
      var fixing := row.CheckOutcome(token, outcome);
      if fixing == Refused {
        assert rounds == rounds[id := rounds[id]];
        return false;
      }
      var results := None;
      if fixing == First {
        FirstIsProcessing(rounds[id], token, outcome);
        RaiseCount(rounds[id], outcome);
        var settled := SettleDailyFeed(rounds[id], id, outcome, settleDailyFeed);
        results := Some(settled);
      }
      row.FixOutcome(outcome, results);
      rounds := rounds[id := row.Row()];
      return true;
    }

    /** A success against a protected target raises the count of its protection row. */
    method RaiseCount(r: Round, outcome: Outcome)
      modifies `prots
      ensures prots == BrokenThrough(old(Tables()), r, outcome)
    {
      if r.required > 0 && outcome.success && SlotOf(r) in prots {
        var protection := new GroupProtection(prots[SlotOf(r)]);
        protection.BreakThrough();
        prots := prots[SlotOf(r) := protection.Row()];
      }
    }

    /** Feeds the members who are due, in lock order, and lists the results in joining order. */
    method SettleDailyFeed(r: Round, id: RoundId, outcome: Outcome, settle: bool)
      returns (results: seq<(UserId, FeedResult)>)
      requires NoDuplicates(Settled(r, outcome, settle))
      modifies growth
      ensures growth.users == FeedAll(old(growth.users), r.date, Settled(r, outcome, settle), FromRound(id))
      ensures results == FeedResults(old(growth.users), r.date, Settled(r, outcome, settle), FromRound(id))
    {
      hide Eligible, Feed;
      if settle && Feeds(r) && outcome.success {
        var row := new Reservation(r);
        var eligible := row.EligibleMembers();
        results := growth.SettleFeeds(eligible, r.date, FromRound(id));
      } else {
        results := [];
      }
    }

    method SaveOutcome(id: RoundId, token: Token, outcome: Outcome) returns (ok: bool)
      modifies this
      ensures (Tables(), ok) == SaveOutcomeTx(old(Tables()), id, token, outcome)
    {
      hide Rounds.SaveOutcome;
      if id !in rounds {
        return false;
      }
      var row := new Reservation(rounds[id]);
      ok := row.SaveOutcome(token, outcome);
      rounds := rounds[id := row.Row()];
    }

    method MarkSending(id: RoundId, token: Token) returns (ok: bool)
      modifies this
      ensures (Tables(), ok) == MarkSendingTx(old(Tables()), id, token)
    {
      hide Rounds.MarkSending;
      if id !in rounds {
        return false;
      }
      var row := new Reservation(rounds[id]);
      ok := row.MarkSending(token);
      rounds := rounds[id := row.Row()];
    }

    /** Completes a sent reservation and frees its slot. */
    method Complete(id: RoundId, token: Token) returns (ok: bool)
      modifies this
      ensures (Tables(), ok) == CompleteTx(old(Tables()), id, token)
    {
      hide Rounds.Complete;
      if id !in rounds {
        return false;
      }
      var row := new Reservation(rounds[id]);
      ok := row.Complete(token);
      if ok && rounds[id].status != Completed {
        slots := slots - {SlotOf(rounds[id])};
      }
      rounds := rounds[id := row.Row()];
    }

    method Release(id: RoundId, token: Token) returns (ok: bool)
      modifies this
      ensures (Tables(), ok) == ReleaseTx(old(Tables()), id, token)
    {
      hide Rounds.Release;
      if id !in rounds {
        return false;
      }
      var row := new Reservation(rounds[id]);
      ok := row.Release(token);
      rounds := rounds[id := row.Row()];
    }
  }

  function AfterCommit(db: Db, req: Request, verdict: Verdict, round: Option<RoundId>): Db {
    var roll := Drawn(db, req.date, req.target);
    if RoastSystem.IsReconciled(verdict) && roll.Some? then ReconcileTx(db, req.date, req.target, roll.value, round)
    else db
  }

  /** After a request whose requester came or stayed aboard, every waiting round of a target who is really there has
      arrived; the requester's own round owes no notice, as they have been answered. */
  lemma AfterCommitEffect(db: Db, req: Request, verdict: Verdict, round: Option<RoundId>, id: RoundId)
    requires id in db.rounds
    ensures var after := AfterCommit(db, req, verdict, round);
      var rolls := At(db.growth, req.target).rolls;
      var r := db.rounds[id];
      && after == db.(rounds := after.rounds) && after.rounds.Keys == db.rounds.Keys
      && if verdict in {Created, Joined, Upgraded, AlreadyJoined} && req.date in rolls && !rolls[req.date].makeup
            && r.status == Pending && r.date == req.date && r.target == req.target then
           E.Arrives(r, after.rounds[id], rolls[req.date].pig, round == Some(id))
         else after.rounds[id] == r
  {
    hide ReconcileTx, E.Arrives;
    var roll := Drawn(db, req.date, req.target);
    if roll.Some? { T.ReconcileTxEffect(db, req.date, req.target, roll.value, round); }
  }

  /** A refused force use leaves the usage table alone. */
  lemma DeniedForceKeeps(rows: map<UserId, UsageRow>, user: UserId, date: Date)
    ensures LastForce(Lookup(rows, user)) == Some(date) ==>
      rows[user := ConsumeForce(Lookup(rows, user), date).0] == rows
  {
  }

  const MAX_CLAIMS: int := 12

  lemma FromSupply(leases: map<RoundId, Token>, notices: map<RoundId, Token>, a: set<Token>, b: set<Token>,
                   used: set<Token>)
    requires a !! b && a !! used && b !! used
    requires forall id :: id in leases ==> leases[id] in a
    requires forall id :: id in notices ==> notices[id] in b
    requires forall x, y :: x in leases && y in leases && x != y ==> leases[x] != leases[y]
    requires forall x, y :: x in notices && y in notices && x != y ==> notices[x] != notices[y]
    ensures RoastSystem.FreshTokens(leases, notices, used)
  {
  }

  /** Recording, leasing and minting one after the other is the claim. */
  lemma ClaimInStages(db: Db, poll: ClaimRequest, leases: map<RoundId, Token>, notices: map<RoundId, Token>,
                      confirmed: map<RoundId, Round>, leased: map<RoundId, Round>, after: map<RoundId, Round>)
    requires confirmed.Keys == db.rounds.Keys && leased.Keys == db.rounds.Keys && after.Keys == db.rounds.Keys
    requires forall id :: id in confirmed ==> confirmed[id] == Confirmed(db.rounds[id], poll)
    requires forall id :: id in leased ==>
      leased[id] == if id in leases then ClaimRound(confirmed[id], leases[id], poll.now, poll.supportsPrepared)
        else confirmed[id]
    requires forall id :: id in after ==>
      after[id] == if id in notices then MintNotice(leased[id], notices[id], poll.now) else leased[id]
    ensures db.(rounds := after) == ClaimTx(db, poll, leases, notices)
  {
    hide Confirmed, ClaimRound, MintNotice;
    assert after == ClaimTx(db, poll, leases, notices).rounds;
  }

  lemma FirstIsProcessing(r: Round, token: Token, outcome: Outcome)
    ensures PrepareFixing(r, token, outcome) == First ==> r.status == Processing
  {
  }

  /** The tables after a request has paid what a new round costs, as far as it could. */
  function Charged(db: Db, req: Request): Db {
    if req.mode == Normal then if CanAfford(db, req) then SpendForce(db, req) else db
    else if req.mode == Super then db
    else db.(usage := db.usage[req.attacker := ConsumeFor(db, req).0])
  }

  lemma ChargedUsage(db: Db, req: Request)
    ensures Charged(db, req) == db.(usage := Charged(db, req).usage)
  {
    hide ConsumeForce, ConsumeRoast, LastForce;
  }

  lemma OpenByCharge(db: Db, req: Request, prot: Option<Prot>, pig: Option<PigId>, id: RoundId)
    ensures OpenRound(db, req, prot, pig, id) ==
      if pig.Some? && (prot.None? || (req.mode == Super && !req.gathering)) then Commit(db, TargetReady, None)
      else
        var paid := Charged(db, req);
        if !CanAfford(db, req) then Commit(paid, if req.mode == Normal then ForceDenied else CooldownDenied, None)
        else InsertRound(paid, id, Open(req, OptionLevel(prot), pig))
  {
    hide Open, ConsumeForce, ConsumeRoast, LastForce;
  }

  // ---------------------------------------------------------------- the loop over a daily list

  /** Yesterday's rows of the group. */
  function PreviousRows(prots: map<Slot, Prot>, list: DailyList): map<Slot, Prot> {
    map s | s in prots && s.date == list.date - 1 && s.group == list.group :: prots[s]
  }

  /** Users with a row who are not on the list. */
  function Removed(prots: map<Slot, Prot>, list: DailyList): set<UserId> {
    set s | s in prots && Covers(list, s) && s.user !in list.users :: s.user
  }

  /** A round while the users in `done` have been dealt with. */
  function RoundDuring(db: Db, list: DailyList, done: set<UserId>, r: Round): Round {
    var s := SlotOf(r);
    if Covers(list, s) && s.user in done && Edits(db, list, s) then SyncRound(r, OptionLevel(RowAfter(db, list, s)))
    else r
  }

  /** The rows while the users in `done` have been dealt with. */
  ghost predicate RowsDuring(prots: map<Slot, Prot>, prots': map<Slot, Prot>, db: Db, list: DailyList,
                             done: set<UserId>) {
    forall t {:trigger Lookup(prots', t)} :: Lookup(prots', t) ==
      if Covers(list, t) && t.user in done then RowAfter(db, list, t) else Lookup(prots, t)
  }

  /** The tables while the users in `done` have been dealt with. */
  ghost predicate During(before: Db, now: Db, list: DailyList, done: set<UserId>) {
    && now == before.(rounds := now.rounds, prots := now.prots) && now.rounds.Keys == before.rounds.Keys
    && RowsDuring(before.prots, now.prots, before, list, done)
    && forall id :: id in now.rounds ==> now.rounds[id] == RoundDuring(before, list, done, before.rounds[id])
  }

  lemma NothingDone(db: Db, list: DailyList)
    ensures During(db, db, list, {})
  {
  }

  lemma YesterdayKept(before: Db, now: Db, list: DailyList, s: Slot, previous: map<Slot, Prot>, done: set<UserId>)
    requires RowsDuring(before.prots, now.prots, before, list, done) && Covers(list, s)
    requires previous == PreviousRows(before.prots, list)
    ensures Yesterday(now, s) == Yesterday(before, s) == Lookup(previous, s.(date := s.date - 1))
  {
    hide RowAfter;
  }

  lemma SameRow(before: Db, now: Db, list: DailyList, s: Slot, done: set<UserId>)
    requires now.globals == before.globals && Covers(list, s) && s.user !in done
    requires RowsDuring(before.prots, now.prots, before, list, done) && Yesterday(now, s) == Yesterday(before, s)
    ensures RowAfter(now, list, s) == RowAfter(before, list, s) && (Edits(now, list, s) <==> Edits(before, list, s))
  {
    hide Replaced, InheritGlobal;
    assert Lookup(now.prots, s) == Lookup(before.prots, s);
  }

  lemma RowsStep(prots: map<Slot, Prot>, mid: map<Slot, Prot>, prots': map<Slot, Prot>, db: Db, list: DailyList,
                 done: set<UserId>, u: UserId)
    requires RowsDuring(prots, mid, db, list, done)
    requires var s := Slot(list.date, list.group, u);
      forall t {:trigger Lookup(prots', t)} ::
        Lookup(prots', t) == if t == s then RowAfter(db, list, s) else Lookup(mid, t)
    ensures RowsDuring(prots, prots', db, list, done + {u})
  {
    hide RowAfter;
  }

  lemma RoundStep(db: Db, list: DailyList, done: set<UserId>, u: UserId, r: Round)
    requires u !in done
    ensures var s, m := Slot(list.date, list.group, u), RoundDuring(db, list, done, r);
      && SlotOf(m) == SlotOf(r)
      && RoundDuring(db, list, done + {u}, r) ==
           if Edits(db, list, s) && SlotOf(m) == s then SyncRound(m, OptionLevel(RowAfter(db, list, s))) else m
  {
    hide RowAfter, Edits, LevelInForce, Sync;
    if r.status == Pending {
      SyncSlot(r, OptionLevel(RowAfter(db, list, SlotOf(r))));
    }
  }

  lemma RoundsStep(db: Db, mid: map<RoundId, Round>, after: map<RoundId, Round>, list: DailyList, done: set<UserId>,
                   u: UserId)
    requires u !in done && mid.Keys == db.rounds.Keys && after.Keys == db.rounds.Keys
    requires forall id :: id in mid ==> mid[id] == RoundDuring(db, list, done, db.rounds[id])
    requires var s := Slot(list.date, list.group, u);
      forall id :: id in mid ==>
        after[id] ==
          if Edits(db, list, s) && SlotOf(mid[id]) == s then SyncRound(mid[id], OptionLevel(RowAfter(db, list, s)))
          else mid[id]
    ensures forall id :: id in after ==> after[id] == RoundDuring(db, list, done + {u}, db.rounds[id])
  {
    hide RoundDuring, RowAfter, Edits, SyncRound, LevelInForce, SlotOf;
    forall id | id in after
      ensures after[id] == RoundDuring(db, list, done + {u}, db.rounds[id])
    {
      RoundStep(db, list, done, u, db.rounds[id]);
    }
  }

  lemma RowIsTouched(db: Db, list: DailyList, t: Slot)
    ensures Lookup(ReplaceTx(db, list).prots, t) == RowAfter(db, list, t)
    ensures !Covers(list, t) ==> RowAfter(db, list, t) == Lookup(db.prots, t) && !Edits(db, list, t)
    ensures Covers(list, t) && t.user !in list.users && t !in db.prots ==>
      RowAfter(db, list, t).None? && !Edits(db, list, t)
  {
    hide Delist, Enlist, SyncRound;
    if Covers(list, t) {
      assert t == Slot(list.date, list.group, t.user);
    }
  }

  /** When everybody has been dealt with, the tables are those of the transaction. */
  lemma Finished(before: Db, now: Db, list: DailyList, removed: set<UserId>)
    requires removed == Removed(before.prots, list)
    requires During(before, now, list, removed + list.users)
    ensures now == ReplaceTx(before, list)
  {
    hide RowAfter, Edits, SyncRound;
    var after := ReplaceTx(before, list);
    forall t
      ensures Lookup(now.prots, t) == Lookup(after.prots, t)
    {
      RowIsTouched(before, list, t);
    }
    SameTable(now.prots, after.prots);
    forall id | id in now.rounds
      ensures now.rounds[id] == after.rounds[id]
    {
      RowIsTouched(before, list, SlotOf(before.rounds[id]));
    }
    assert now.rounds == after.rounds;
  }
}
