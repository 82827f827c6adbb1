/** What every round satisfies and what every change to a round respects. */
module RoundLaws {
  import opened Base
  import opened Growth
  import opened Rounds

  /** What the rest of the database says about a round's target: the protection level of its group row,
      whether a global protection row exists, and its real draw of the date. */
  datatype Context = Context(level: Option<nat>, global: bool, roll: Option<PigId>)

  predicate ContextOk(c: Context) {
    c.level.Some? ==> 1 <= c.level.value <= 5
  }

  function RequiredBy(level: Option<nat>): nat {
    if level.Some? then 1 + level.value else 0
  }

  /** A waiting round: nothing is leased or fixed yet; if its target has arrived it is short of fire; and
      unless it was taken over its threshold is the one the protection in force asks for. */
  ghost predicate WaitingOk(r: Round, c: Context) {
    && r.token.None? && r.outcome.None? && r.feedResults.None?
    && (r.pig.Some? ==> Underfired(r) && 2 <= r.required <= MAX_REQUIRED)
    && (r.mode != Super ==> r.required == RequiredBy(c.level) && (c.global ==> c.level.Some?))
    && (r.notice != NoNotice ==> r.pig.Some?)
  }

  /** An ignited round: its target had arrived and the fire was enough or was overridden. */
  ghost predicate IgnitedOk(r: Round) {
    && r.pig.Some? && !Underfired(r) && r.notice == NoNotice
    && (r.status == Ready <==> r.token.None?)
    && (r.status == Processing ==> r.outcome.None?)
    && (r.status in {Prepared, Sending, Completed} ==> r.outcome.Some?)
    && (r.outcome.None? ==> r.feedResults.None?)
  }

  /** Only a takeover names an operator and saves a feeding list. */
  predicate TakenOk(r: Round) {
    (r.operator.Some? <==> r.feedUsers.Some?) && (r.operator.Some? ==> r.mode == Super)
  }

  ghost predicate RoundOk(r: Round, c: Context) {
    && RosterOk(r.members) && HasMember(r.members, r.owner)
    && (r.pig.Some? ==> r.pig == c.roll)
    && TakenOk(r)
    && (if r.status == Pending then WaitingOk(r, c) else IgnitedOk(r))
  }

  // ---------------------------------------------------------------- how a round may change

  predicate Gone(s: Status) {
    s in {Sending, Completed}
  }

  /** The later roster has the earlier members first, none of them with less fire. */
  ghost predicate Grows(ms: seq<Member>, ms': seq<Member>) {
    && |ms| <= |ms'|
    && forall i :: 0 <= i < |ms| ==> ms'[i].user == ms[i].user && ms[i].contribution <= ms'[i].contribution
  }

  ghost predicate Evolves(r: Round, r': Round) {
    && r'.date == r.date && r'.group == r.group && r'.target == r.target && r'.owner == r.owner
    && (r.pig.Some? ==> r'.pig == r.pig)
    && Grows(r.members, r'.members)
    && (r.status != Pending ==> r'.status != Pending && r'.required == r.required)
    && (r.status != Pending || r.mode == Super ==>
          r'.members == r.members && r'.mode == r.mode && r'.operator == r.operator && r'.feedUsers == r.feedUsers)
    && (r.outcome.Some? ==> r'.outcome == r.outcome && r'.feedResults == r.feedResults && r'.bot == r.bot)
    && (Gone(r.status) ==> Gone(r'.status) && r'.token == r.token)
    && (r.status == Completed ==> r' == r)
  }

  lemma EvolvesTransitive(a: Round, b: Round, c: Round)
    requires Evolves(a, b) && Evolves(b, c)
    ensures Evolves(a, c)
  {
  }

  /** A notice token that is still there was not minted by this change, and the round it describes is unchanged. */
  ghost predicate NoticeKept(r: Round, r': Round) {
    NoticeToken(r'.notice).Some? ==>
      && NoticeToken(r'.notice) == NoticeToken(r.notice)
      && r'.members == r.members && r'.required == r.required && r'.mode == r.mode && r'.pig == r.pig
  }

  /** The user paid a force use into this round: it is their normal-force round, or they burn double there. */
  ghost predicate Marked(r: Round, u: UserId) {
    || (r.owner == u && r.mode == Normal)
    || exists i :: 0 <= i < |r.members| && r.members[i] == Member(u, 2)
  }

  ghost predicate NoNewMarks(r: Round, r': Round) {
    forall u :: Marked(r', u) ==> Marked(r, u)
  }

  // ---------------------------------------------------------------- ignition

  lemma ActivateLaws(r: Round, pig: PigId, notify: bool, c: Context)
    requires RosterOk(r.members) && HasMember(r.members, r.owner) && r.status == Pending
    requires c.roll == Some(pig) && (r.pig.Some? ==> r.pig == c.roll)
    requires r.token.None? && r.outcome.None? && r.feedResults.None?
    requires TakenOk(r)
    requires r.mode != Super ==> r.required == RequiredBy(c.level) && (c.global ==> c.level.Some?)
    requires ContextOk(c)
    ensures RoundOk(Activate(r, pig, notify), c)
    ensures Activate(r, pig, notify).pig == Some(pig)
    ensures Activate(r, pig, notify).status == if Underfired(r) then Pending else Ready
  {
  }

  lemma ReconcileLaws(r: Round, pig: PigId, handled: bool, c: Context)
    requires RoundOk(r, c) && ContextOk(c) && r.status == Pending && c.roll == Some(pig)
    ensures RoundOk(Reconcile(r, pig, handled), c)
    ensures Reconcile(r, pig, handled).pig == Some(pig)
    ensures Evolves(r, Reconcile(r, pig, handled)) && NoticeKept(r, Reconcile(r, pig, handled))
    ensures NoNewMarks(r, Reconcile(r, pig, handled))
  {
    ActivateLaws(r, pig, !handled, c);
    assert Reconcile(r, pig, handled).members == r.members;
  }

  // ---------------------------------------------------------------- protection changes

  lemma BoostKeepsRoster(ms: seq<Member>, u: UserId)
    requires RosterOk(ms)
    ensures RosterOk(Boost(ms, u)) && Grows(ms, Boost(ms, u))
    ensures forall v :: HasMember(ms, v) ==> HasMember(Boost(ms, u), v)
    ensures forall i :: 0 <= i < |ms| && ms[i].user != u ==> Boost(ms, u)[i] == ms[i]
  {
    forall v | HasMember(ms, v)
      ensures HasMember(Boost(ms, u), v)
    {
      var i :| 0 <= i < |ms| && ms[i].user == v;
      assert Boost(ms, u)[i].user == v;
    }
  }

  /** The round with the new threshold, before it is activated again. */
  function Resized(r: Round, level: Option<nat>): Round {
    var converts := level.Some? && r.required == 0 && r.mode == Normal;
    r.(members := if converts then Boost(r.members, r.owner) else r.members, required := RequiredBy(level))
  }

  lemma ResizedMarks(r: Round, level: Option<nat>)
    requires RosterOk(r.members)
    ensures NoNewMarks(r, Resized(r, level))
  {
    BoostKeepsRoster(r.members, r.owner);
    var s := Resized(r, level);
    forall u | Marked(s, u)
      ensures Marked(r, u)
    {
      if exists i :: 0 <= i < |s.members| && s.members[i] == Member(u, 2) {
        var i :| 0 <= i < |s.members| && s.members[i] == Member(u, 2);
        assert u != r.owner || r.mode != Normal ==> s.members[i] == r.members[i];
      }
    }
  }

  lemma SyncShape(r: Round, level: Option<nat>)
    requires r.mode != Super && r.status == Pending
    ensures var s, t := Resized(r, level), Sync(r, level);
      && t.members == s.members && t.mode == r.mode && t.owner == r.owner && t.required == s.required && t.pig == r.pig
      && (r.pig.None? ==> t == s)
      && (r.pig.Some? ==>
            var a := Activate(s, r.pig.value, true);
            t == a || (a.status == Pending && t == a.(notice := Waiting)))
      && (t.notice == r.notice || t.notice in {NoNotice, Waiting})
      && (t.notice == r.notice && r.pig.Some? && t.status == Pending && t.notice != Waiting ==>
             t.required == r.required)
  {
  }

  lemma SyncLaws(r: Round, level: Option<nat>, c: Context)
    requires RoundOk(r, c) && ContextOk(c) && r.status == Pending
    requires ContextOk(c.(level := level)) && (c.global ==> level.Some?)
    ensures RoundOk(Sync(r, level), c.(level := level))
    ensures Evolves(r, Sync(r, level)) && NoticeKept(r, Sync(r, level))
    ensures NoNewMarks(r, Sync(r, level))
    ensures r.mode != Super && Sync(r, level).status == Pending ==> Sync(r, level).required == RequiredBy(level)
  {
    if r.mode != Super {
      hide Marked, Sync, Activate;
      var s := Resized(r, level);
      SyncShape(r, level);
      BoostKeepsRoster(r.members, r.owner);
      ResizedMarks(r, level);
      assert Grows(r.members, s.members) && RosterOk(s.members);
      assert HasMember(s.members, s.owner);
      if r.pig.Some? {
        ActivateLaws(s, r.pig.value, true, c.(level := level));
        ActivateShape(s, r.pig.value, true);
      }
      forall u | Marked(Sync(r, level), u)
        ensures Marked(r, u)
      {
        MarkedIsLocal(s, Sync(r, level), u);
      }
    }
  }

  lemma MarkedIsLocal(a: Round, b: Round, u: UserId)
    requires a.members == b.members && a.owner == b.owner && a.mode == b.mode
    ensures Marked(a, u) == Marked(b, u)
  {
  }

  lemma ActivateShape(r: Round, pig: PigId, notify: bool)
    ensures var a := Activate(r, pig, notify); a == r.(pig := Some(pig), notice := a.notice, status := a.status)
  {
  }

  /** Following the same protection twice is following it once. */
  lemma SyncTwiceIsOnce(r: Round, level: Option<nat>, c: Context)
    requires RoundOk(r, c) && ContextOk(c) && r.status == Pending
    requires ContextOk(c.(level := level)) && (c.global ==> level.Some?)
    ensures var once := Sync(r, level);
      once.status == Pending ==> Sync(once, level) == once
  {
    SyncLaws(r, level, c);
    var once := Sync(r, level);
    if once.status == Pending && r.mode != Super {
      assert once.required == RequiredBy(level);
      assert level.Some? <==> once.required != 0;
    }
  }

  // ---------------------------------------------------------------- joins

  lemma JoinKeepsRoster(ms: seq<Member>, m: Member)
    requires RosterOk(ms) && |ms| < MAX_PARTICIPANTS && 1 <= m.contribution <= 2
    requires forall i :: 0 <= i < |ms| ==> ms[i].user != m.user
    ensures RosterOk(ms + [m]) && Grows(ms, ms + [m])
    ensures forall v :: HasMember(ms, v) ==> HasMember(ms + [m], v)
    ensures HasMember(ms + [m], m.user)
  {
    forall v | HasMember(ms, v)
      ensures HasMember(ms + [m], v)
    {
      var i :| 0 <= i < |ms| && ms[i].user == v;
      assert (ms + [m])[i].user == v;
    }
    assert (ms + [m])[|ms|] == m;
  }

  lemma JoinedMembersLaws(r: Round, req: Request)
    requires RosterOk(r.members)
    requires IndexOf(r.members, req.attacker) == |r.members| ==> |r.members| < MAX_PARTICIPANTS
    ensures var ms := JoinedMembers(r, req);
      && RosterOk(ms) && Grows(r.members, ms)
      && (forall v :: HasMember(r.members, v) ==> HasMember(ms, v))
      && (forall i :: 0 <= i < |ms| && ms[i].contribution == 2 ==>
            (i < |r.members| && ms[i] == r.members[i]) || (ms[i].user == req.attacker && Boosting(r, req)))
  {
    var k := IndexOf(r.members, req.attacker);
    if k == |r.members| {
      JoinKeepsRoster(r.members, Member(req.attacker, if Boosting(r, req) then 2 else 1));
    } else {
      assert JoinedMembers(r, req) == if Boosting(r, req) then Boost(r.members, req.attacker) else r.members;
      BoostKeepsRoster(r.members, req.attacker);
    }
  }

  lemma UpdateDeliveryLaws(r: Round, req: Request)
    ensures var d := UpdateDelivery(r, req);
      && d == r.(bot := d.bot, botVersion := d.botVersion)
      && (d.bot == r.bot || (r.outcome.None? && r.token.None? && r.status in {Pending, Ready}))
  {
  }

  lemma ArrivalLaws(s: Round, seen: Option<PigId>, c: Context)
    requires RosterOk(s.members) && HasMember(s.members, s.owner) && s.status == Pending
    requires (seen.Some? ==> seen == c.roll) && (s.pig.Some? ==> s.pig == c.roll)
    requires s.token.None? && s.outcome.None? && s.feedResults.None? && s.notice == NoNotice
    requires TakenOk(s)
    requires s.mode != Super ==> s.required == RequiredBy(c.level) && (c.global ==> c.level.Some?)
    requires ContextOk(c)
    ensures var a := ActivateIfArrived(s, seen, false);
      && RoundOk(a, c) && a.notice == NoNotice
      && (s.pig.Some? ==> a.pig == s.pig)
      && a == s.(pig := a.pig, status := a.status)
  {
    if s.pig.Some? {
      ActivateLaws(s, s.pig.value, false, c);
    } else if seen.Some? {
      ActivateLaws(s, seen.value, false, c);
    }
  }

  lemma JoinLaws(r: Round, req: Request, seen: Option<PigId>, c: Context)
    requires RoundOk(r, c) && ContextOk(c) && r.status == Pending && r.mode != Super
    requires IndexOf(r.members, req.attacker) == |r.members| ==> |r.members| < MAX_PARTICIPANTS
    requires seen.Some? ==> seen == c.roll
    ensures RoundOk(Join(r, req, seen), c)
    ensures Evolves(r, Join(r, req, seen)) && Join(r, req, seen).notice == NoNotice
    ensures forall u :: Marked(Join(r, req, seen), u) ==> Marked(r, u) || (u == req.attacker && Boosting(r, req))
  {
    JoinedMembersLaws(r, req);
    var m := r.(members := JoinedMembers(r, req));
    UpdateDeliveryLaws(m, req);
    var s := UpdateDelivery(m, req).(notice := NoNotice);
    assert HasMember(s.members, r.owner);
    ArrivalLaws(s, seen, c);
    assert Join(r, req, seen) == ActivateIfArrived(s, seen, false);
    JoinMarks(r, req, seen);
  }

  lemma ArrivalShape(r: Round, seen: Option<PigId>, notify: bool)
    ensures var a := ActivateIfArrived(r, seen, notify);
      a.members == r.members && a.mode == r.mode && a.owner == r.owner
  {
  }

  lemma JoinMarks(r: Round, req: Request, seen: Option<PigId>)
    requires RosterOk(r.members)
    requires IndexOf(r.members, req.attacker) == |r.members| ==> |r.members| < MAX_PARTICIPANTS
    ensures Join(r, req, seen).members == JoinedMembers(r, req)
    ensures forall u :: Marked(Join(r, req, seen), u) ==> Marked(r, u) || (u == req.attacker && Boosting(r, req))
  {
    hide ActivateIfArrived, UpdateDelivery, JoinedMembers;
    JoinedMembersLaws(r, req);
    var j, m := Join(r, req, seen), r.(members := JoinedMembers(r, req));
    UpdateDeliveryLaws(m, req);
    ArrivalShape(UpdateDelivery(m, req).(notice := NoNotice), seen, false);
    forall u | Marked(j, u)
      ensures Marked(r, u) || (u == req.attacker && Boosting(r, req))
    {
      if exists i :: 0 <= i < |j.members| && j.members[i] == Member(u, 2) {
        var i :| 0 <= i < |j.members| && j.members[i] == Member(u, 2);
        assert (i < |r.members| && r.members[i] == Member(u, 2)) || (u == req.attacker && Boosting(r, req));
      }
    }
  }

  lemma TakeOverLaws(r: Round, req: Request, seen: Option<PigId>, c: Context)
    requires RoundOk(r, c) && ContextOk(c) && r.status == Pending && r.mode != Super
    requires seen.Some? ==> seen == c.roll
    ensures RoundOk(TakeOver(r, req, seen), c)
    ensures Evolves(r, TakeOver(r, req, seen)) && NoticeToken(TakeOver(r, req, seen).notice).None?
    ensures NoNewMarks(r, TakeOver(r, req, seen)) && TakeOver(r, req, seen).notice == NoNotice
    ensures TakeOver(r, req, seen).feedUsers == Some(FeedList(r, req.attacker))
    ensures TakeOver(r, req, seen).mode == Super && TakeOver(r, req, seen).members == r.members
  {
    var s := r.(feedUsers := Some(FeedList(r, req.attacker)), operator := Some(req.attacker), mode := Super,
                bot := req.bot, botVersion := 2);
    if r.pig.Some? {
      ActivateLaws(s, r.pig.value, true, c);
    } else if seen.Some? {
      ActivateLaws(s, seen.value, true, c);
    }
  }

  lemma SenderOnlyLaws(r: Round, d: Round, c: Context)
    requires RoundOk(r, c) && d == r.(bot := d.bot, botVersion := d.botVersion)
    requires r.status in {Pending, Ready} && (d.bot == r.bot || (r.outcome.None? && r.token.None?))
    ensures RoundOk(d, c) && Evolves(r, d) && NoticeKept(r, d) && NoNewMarks(r, d)
    ensures d.status == Pending ==>
      RoundOk(d.(notice := NoNotice), c) && Evolves(r, d.(notice := NoNotice)) && NoNewMarks(r, d.(notice := NoNotice))
  {
    assert d.members == r.members;
  }

  /** A request leaves a correct round behind, kills every notice it makes stale, and marks nobody unless
      the attacker's force use is spent; one that is answered at once leaves no notice at all. */
  lemma TouchLaws(r: Round, req: Request, seen: Option<PigId>, forceFree: bool, c: Context)
    requires RoundOk(r, c) && ContextOk(c)
    requires seen.Some? ==> seen == c.roll
    ensures var t := Touch(r, req, seen, forceFree);
      && RoundOk(t.round, c) && Evolves(r, t.round) && NoticeKept(r, t.round)
      && (t.forceSpent ==> forceFree)
      && (forall u :: Marked(t.round, u) ==> Marked(r, u) || (u == req.attacker && t.forceSpent))
      && (r.status == Pending && r.mode != Super && t.verdict in {Joined, Upgraded, AlreadyJoined} ==>
             t.round.notice == NoNotice)
  {
    hide RoundOk, Evolves, Marked, TakeOver, Join, UpdateDelivery;
    UpdateDeliveryLaws(r, req);
    UnchangedLaws(r, c);
    var k := IndexOf(r.members, req.attacker);
    RosterOf(r, c);
    if r.status != Pending || r.mode == Super {
      if CanReassign(r, req) { SenderOnlyLaws(r, UpdateDelivery(r, req), c); }
    } else if req.mode == Super {
      TakeOverLaws(r, req, seen, c);
    } else if k < |r.members| && !(Boosting(r, req) && r.members[k].contribution < 2) {
      SenderOnlyLaws(r, UpdateDelivery(r, req), c);
    } else if k == |r.members| >= MAX_PARTICIPANTS {
    } else {
      JoinLaws(r, req, seen, c);
    }
  }

  lemma RosterOf(r: Round, c: Context)
    requires RoundOk(r, c)
    ensures RosterOk(r.members)
  {
  }

  lemma UnchangedLaws(r: Round, c: Context)
    requires RoundOk(r, c)
    ensures Evolves(r, r) && NoticeKept(r, r) && NoNewMarks(r, r)
  {
    hide RoundOk;
  }

  lemma OpenLaws(req: Request, level: Option<nat>, seen: Option<PigId>, c: Context)
    requires ContextOk(c) && (seen.Some? ==> seen == c.roll)
    requires req.mode != Super ==> level == c.level && (level.Some? ==> req.gathering) && (c.global ==> level.Some?)
    ensures RoundOk(Open(req, level, seen), c)
    ensures Open(req, level, seen).notice == NoNotice
    ensures forall u :: Marked(Open(req, level, seen), u) ==> u == req.attacker && req.mode == Normal
  {
    var r := Open(req, level, None);
    assert r.members[0].user == req.attacker;
    if seen.Some? {
      ActivateLaws(r, seen.value, false, c);
    }
    assert Open(req, level, seen).members == r.members && |r.members| == 1;
  }

  // ---------------------------------------------------------------- leases

  lemma ClaimLaws(r: Round, token: Token, now: int, supportsPrepared: bool, c: Context)
    requires RoundOk(r, c) && Claimable(r, now)
    ensures RoundOk(ClaimRound(r, token, now, supportsPrepared), c)
    ensures Evolves(r, ClaimRound(r, token, now, supportsPrepared))
    ensures NoticeKept(r, ClaimRound(r, token, now, supportsPrepared))
    ensures NoNewMarks(r, ClaimRound(r, token, now, supportsPrepared))
  {
  }

  lemma MoveNoticeLaws(r: Round, token: Token, action: NoticeAction, today: Date, c: Context)
    requires RoundOk(r, c)
    ensures var (r', ok) := MoveNotice(r, token, action, today);
      && RoundOk(r', c) && Evolves(r, r') && NoticeKept(r, r') && NoNewMarks(r, r')
      && (ok ==> NoticeToken(r.notice) == Some(token))
  {
    var r' := MoveNotice(r, token, action, today).0;
    assert r'.members == r.members && r'.mode == r.mode && r'.owner == r.owner;
  }

  lemma PrepareOutcomeLaws(r: Round, token: Token, outcome: Outcome, results: seq<(UserId, FeedResult)>, c: Context)
    requires RoundOk(r, c)
    ensures var (r', ok) := PrepareOutcome(r, token, outcome, results);
      && RoundOk(r', c) && Evolves(r, r') && NoticeKept(r, r') && NoNewMarks(r, r')
      && (ok ==> r'.outcome == Some(outcome) && HoldsToken(r', token))
  {
    var r' := PrepareOutcome(r, token, outcome, results).0;
    assert r'.members == r.members && r'.mode == r.mode && r'.owner == r.owner;
  }

  lemma SaveOutcomeLaws(r: Round, token: Token, outcome: Outcome, c: Context)
    requires RoundOk(r, c)
    ensures var (r', ok) := SaveOutcome(r, token, outcome);
      && RoundOk(r', c) && Evolves(r, r') && NoticeKept(r, r') && NoNewMarks(r, r')
      && (ok ==> Gone(r'.status) && r'.outcome == Some(outcome))
  {
    var r' := SaveOutcome(r, token, outcome).0;
    assert r'.members == r.members && r'.mode == r.mode && r'.owner == r.owner;
  }

  lemma MarkSendingLaws(r: Round, token: Token, c: Context)
    requires RoundOk(r, c)
    ensures var (r', ok) := MarkSending(r, token);
      && RoundOk(r', c) && Evolves(r, r') && NoticeKept(r, r') && NoNewMarks(r, r')
      && (ok ==> Gone(r'.status) && HoldsToken(r', token))
  {
    assert MarkSending(r, token).0.members == r.members;
  }

  lemma CompleteLaws(r: Round, token: Token, c: Context)
    requires RoundOk(r, c)
    ensures var (r', ok) := Complete(r, token);
      && RoundOk(r', c) && Evolves(r, r') && NoticeKept(r, r') && NoNewMarks(r, r')
      && (ok ==> r'.status == Completed && HoldsToken(r', token) && Gone(r.status))
  {
    assert Complete(r, token).0.members == r.members;
  }

  lemma ReleaseLaws(r: Round, token: Token, c: Context)
    requires RoundOk(r, c)
    ensures var (r', ok) := Release(r, token);
      && RoundOk(r', c) && Evolves(r, r') && NoticeKept(r, r') && NoNewMarks(r, r')
      && (ok ==> r'.status == Ready && !Gone(r.status))
  {
    assert Release(r, token).0.members == r.members;
  }

  // ---------------------------------------------------------------- the last joiners

  /** A waiting round whose target has arrived is never full, and what it still needs is at most five. */
  lemma ArrivedIsNeverFull(r: Round, c: Context)
    requires RoundOk(r, c) && r.status == Pending && r.pig.Some?
    ensures |r.members| <= Fire(r.members) < r.required <= MAX_REQUIRED
    ensures |r.members| < MAX_PARTICIPANTS && r.required - Fire(r.members) <= 5
  {
    FireAtLeast(r.members);
  }

  lemma StrangerIndex(ms: seq<Member>, u: UserId)
    ensures IndexOf(ms, u) < |ms| <==> HasMember(ms, u)
  {
    assert IndexOf(ms, u) < |ms| ==> ms[IndexOf(ms, u)].user == u;
  }

  /** One newcomer adds one fire and ignites the round if that was all it needed. */
  lemma NewcomerLaws(r: Round, req: Request, c: Context)
    requires RoundOk(r, c) && ContextOk(c) && r.status == Pending && r.pig.Some?
    requires req.mode in {NoForce, Blank} && !HasMember(r.members, req.attacker)
    ensures var r' := Touch(r, req, None, true).round;
      && RoundOk(r', c) && r'.members == r.members + [Member(req.attacker, 1)] && r'.required == r.required
      && Fire(r'.members) == Fire(r.members) + 1 && r'.pig == r.pig && r'.mode == r.mode
      && r'.status == if Fire(r.members) + 1 < r.required then Pending else Ready
  {
    ArrivedIsNeverFull(r, c);
    TouchLaws(r, req, None, true, c);
    FireOfJoin(r.members, Member(req.attacker, 1));
    var k := IndexOf(r.members, req.attacker);
    StrangerIndex(r.members, req.attacker);
    UpdateDeliveryLaws(r.(members := JoinedMembers(r, req)), req);
  }

  function TouchAll(r: Round, reqs: seq<Request>): Round
    decreases |reqs|
  {
    if reqs == [] then r else TouchAll(Touch(r, reqs[0], None, true).round, reqs[1..])
  }

  lemma {:induction false} ReadyStaysReady(r: Round, reqs: seq<Request>)
    requires r.status == Ready
    ensures TouchAll(r, reqs).status == Ready
    decreases |reqs|
  {
    if reqs != [] {
      UpdateDeliveryLaws(r, reqs[0]);
      ReadyStaysReady(Touch(r, reqs[0], None, true).round, reqs[1..]);
    }
  }

  /** While the threshold stands, a series of distinct newcomers leaves such a round pending exactly when
      there are fewer of them than the fire it still needs; so at most five of them ignite it. */
  lemma {:induction false} NewcomersIgnite(r: Round, reqs: seq<Request>, c: Context)
    requires RoundOk(r, c) && ContextOk(c) && r.status == Pending && r.pig.Some?
    requires forall i :: 0 <= i < |reqs| ==> reqs[i].mode in {NoForce, Blank} && !HasMember(r.members, reqs[i].attacker)
    requires forall i, j :: 0 <= i < j < |reqs| ==> reqs[i].attacker != reqs[j].attacker
    ensures TouchAll(r, reqs).status == if |reqs| < r.required - Fire(r.members) then Pending else Ready
    ensures |reqs| >= 5 ==> TouchAll(r, reqs).status == Ready
    decreases |reqs|
  {
    ArrivedIsNeverFull(r, c);
    if reqs != [] {
      var r', rest := Touch(r, reqs[0], None, true).round, reqs[1..];
      NewcomerLaws(r, reqs[0], c);
      if r'.status == Pending {
        forall i | 0 <= i < |rest|
          ensures rest[i].mode in {NoForce, Blank} && !HasMember(r'.members, rest[i].attacker)
        {
          assert rest[i] == reqs[i + 1];
          assert !HasMember(r.members, reqs[i + 1].attacker);
        }
        NewcomersIgnite(r', rest, c);
      } else {
        ReadyStaysReady(r', rest);
      }
    }
  }

  // ---------------------------------------------------------------- feeding after a takeover

  /** The users a success of the round would feed as it stands. */
  function WouldFeed(r: Round): seq<UserId> {
    Settled(r, Outcome(true, 0), true)
  }

  function Without(us: seq<UserId>, u: UserId): seq<UserId> {
    if us == [] then []
    else Without(us[..|us| - 1], u) + if us[|us| - 1] != u then [us[|us| - 1]] else []
  }

  lemma WithoutAppend(us: seq<UserId>, v: UserId, u: UserId)
    ensures Without(us + [v], u) == Without(us, u) + if v != u then [v] else []
  {
    assert (us + [v])[..|us|] == us;
  }

  /** The saved list is the feeding list without the operator, as long as the mode counts as unforced. */
  lemma {:induction false} SavedIsEligible(r: Round, ms: seq<Member>, attacker: UserId)
    requires r.mode != Super && (r.mode == NoForce || r.required > 0)
    ensures FeedListOf(r, ms, attacker) == Without(EligibleOf(r, ms), attacker)
    decreases |ms|
  {
    if ms != [] {
      var before, m := ms[..|ms| - 1], ms[|ms| - 1];
      SavedIsEligible(r, before, attacker);
      WithoutAppend(EligibleOf(r, before), m.user, attacker);
      if !(r.required == 0 || m.contribution == 1) {
        assert EligibleOf(r, ms) == EligibleOf(r, before);
      }
    }
  }

  lemma {:induction false} NothingSaved(r: Round, ms: seq<Member>, attacker: UserId)
    requires r.mode != NoForce && r.required == 0
    ensures FeedListOf(r, ms, attacker) == []
    decreases |ms|
  {
    if ms != [] { NothingSaved(r, ms[..|ms| - 1], attacker); }
  }

  lemma {:induction false} AllEligible(r: Round, ms: seq<Member>, u: UserId)
    requires r.mode != Super && r.required == 0
    ensures Without(EligibleOf(r, ms), u) == [] <==> forall i :: 0 <= i < |ms| ==> ms[i].user == u
    decreases |ms|
  {
    if ms != [] {
      var before, m := ms[..|ms| - 1], ms[|ms| - 1];
      AllEligible(r, before, u);
      WithoutAppend(EligibleOf(r, before), m.user, u);
    }
  }

  /** Who is on the saved list. */
  lemma {:induction false} SavedMembers(r: Round, ms: seq<Member>, attacker: UserId, u: UserId)
    ensures u in FeedListOf(r, ms, attacker)
      <==> exists i :: 0 <= i < |ms| && ms[i].user == u && Spared(r, ms[i], attacker)
    decreases |ms|
  {
    if ms != [] {
      var n := |ms| - 1;
      SavedMembers(r, ms[..n], attacker, u);
      assert forall i :: 0 <= i < n ==> ms[..n][i] == ms[i];
    }
  }

  /** A round that was taken over feeds exactly the saved users, in joining order. */
  lemma {:induction false} TakenFeedsSaved(r: Round, t: Round, attacker: UserId, n: nat)
    requires RosterOk(r.members) && n <= |r.members|
    requires t.mode == Super && t.feedUsers == Some(FeedList(r, attacker)) && t.members == r.members
    ensures EligibleOf(t, r.members[..n]) == FeedListOf(r, r.members[..n], attacker)
  {
    if n > 0 {
      TakenFeedsSaved(r, t, attacker, n - 1);
      assert r.members[..n][..n - 1] == r.members[..n - 1];
      SavedMembers(r, r.members, attacker, r.members[n - 1].user);
    }
  }

  /** Takeover preserves feeding: whatever happens to the round after a super request took it over, a success
      feeds those whom a success at that moment would have fed, without the operator.  The one exception is an
      unprotected round with a blank mode and somebody else on board: there the takeover feeds nobody. */
  lemma TakeoverPreservesFeedingIff(r: Round, req: Request, seen: Option<PigId>, later: Round, c: Context)
    requires RoundOk(r, c) && ContextOk(c) && r.status == Pending && r.mode != Super
    requires (seen.Some? ==> seen == c.roll) && Evolves(TakeOver(r, req, seen), later)
    ensures WouldFeed(later) == Without(WouldFeed(r), req.attacker)
      <==> !(r.mode == Blank && r.required == 0
             && exists i :: 0 <= i < |r.members| && r.members[i].user != req.attacker)
  {
    TakeOverLaws(r, req, seen, c);
    TakenSettlesSaved(r, later, req.attacker);
    SavedIff(r, req.attacker);
  }

  lemma TakenSettlesSaved(r: Round, t: Round, attacker: UserId)
    requires RosterOk(r.members)
    requires t.mode == Super && t.feedUsers == Some(FeedList(r, attacker)) && t.members == r.members
    ensures WouldFeed(t) == FeedList(r, attacker)
  {
    assert r.members[..|r.members|] == r.members;
    TakenFeedsSaved(r, t, attacker, |r.members|);
  }

  lemma SavedIff(r: Round, attacker: UserId)
    requires RosterOk(r.members) && TakenOk(r) && r.mode != Super
    ensures FeedList(r, attacker) == Without(WouldFeed(r), attacker)
      <==> !(r.mode == Blank && r.required == 0 && exists i :: 0 <= i < |r.members| && r.members[i].user != attacker)
  {
    if r.mode == NoForce || r.required > 0 {
      SavedIsEligible(r, r.members, attacker);
    } else {
      NothingSaved(r, r.members, attacker);
      AllEligible(r, r.members, attacker);
      assert WouldFeed(r) == if r.mode == Normal then [] else Eligible(r);
      assert FeedList(r, attacker) == [];
      if r.mode == Normal {
        assert Without(WouldFeed(r), attacker) == [];
      }
    }
  }
}
