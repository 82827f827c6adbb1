/** What each request does to the round it has locked and answers, in terms of the row and its participants alone. */
module RoundEffects {
  import opened Base
  import opened Growth
  import opened Rounds
  import L = RoundLaws

  // ---------------------------------------------------------------- fire

  /** Fire is one for every participant and one more for everyone who burns double. */
  lemma {:induction false} FireCountsHeads(ms: seq<Member>)
    requires forall i :: 0 <= i < |ms| ==> 1 <= ms[i].contribution <= 2
    ensures Fire(ms) == |ms| + |set i | 0 <= i < |ms| && ms[i].contribution == 2|
    decreases |ms|
  {
    var doubles := set i | 0 <= i < |ms| && ms[i].contribution == 2;
    if ms == [] {
      assert doubles == {};
    } else {
      var n := |ms| - 1;
      var before := set i | 0 <= i < |ms[..n]| && ms[..n][i].contribution == 2;
      FireCountsHeads(ms[..n]);
      assert doubles == before + if ms[n].contribution == 2 then {n} else {};
    }
  }

  /** One participant changes from contribution a to b. */
  lemma {:induction false} FireOfChange(ms: seq<Member>, k: nat, m: Member)
    requires k < |ms|
    ensures Fire(ms[k := m]) == Fire(ms) - ms[k].contribution + m.contribution
    decreases |ms|
  {
    var n := |ms| - 1;
    if k < n {
      FireOfChange(ms[..n], k, m);
      assert ms[k := m][..n] == ms[..n][k := m];
    } else {
      assert ms[k := m][..n] == ms[..n];
    }
  }

  /** A round with its target there is ignited by enough fire, by an override, or because nothing protects the target.
      */
  predicate Enough(mode: Mode, required: nat, members: seq<Member>) {
    required == 0 || mode == Super || Fire(members) >= required
  }

  /** The row as it is, apart from roster, pig, status, notice and sender. */
  predicate SameTerms(r: Round, r': Round) {
    && r'.date == r.date && r'.group == r.group && r'.target == r.target && r'.owner == r.owner
    && r'.mode == r.mode && r'.required == r.required && r'.operator == r.operator && r'.feedUsers == r.feedUsers
    && r'.outcome == r.outcome && r'.feedResults == r.feedResults && r'.token == r.token && r'.claimedAt == r.claimedAt
  }

  // ---------------------------------------------------------------- the sender

  /** A capable request takes a protected round over from a sender that cannot gather, as long as nothing is leased or
      fixed; and the sender's own capable request is remembered. */
  predicate Sender(r: Round, r': Round, req: Request) {
    var capable := req.gathering && req.version >= 2;
    var takes := capable && r.required > 0 && r.mode != Super && r.botVersion < 2 && r.status in {Pending, Ready}
                 && r.outcome.None? && r.token.None? && req.bot != 0;
    && r'.bot == (if takes then req.bot else r.bot)
    && r'.botVersion == (if capable && r'.bot == req.bot then 2 else r.botVersion)
  }

  lemma SenderIs(r: Round, req: Request)
    ensures Sender(r, UpdateDelivery(r, req), req)
    ensures var d := UpdateDelivery(r, req); d == r.(bot := d.bot, botVersion := d.botVersion)
  {
  }

  // ---------------------------------------------------------------- joining and boosting

  /** The request pays a force use for double fire in a protected round. */
  predicate Boosts(r: Round, req: Request) {
    req.mode == Normal && r.required > 0
  }

  /** The round after a join or boost: the new roster, the sender, no notice, and ready if the target is known to be
      there and the fire is enough. */
  predicate JoinedWith(r: Round, r': Round, req: Request, seen: Option<PigId>, members: seq<Member>) {
    && SameTerms(r, r') && Sender(r, r', req) && r'.members == members && r'.notice == NoNotice
    && r'.pig == (if r.pig.Some? then r.pig else seen)
    && r'.status == if r'.pig.Some? && Enough(r.mode, r.required, members) then Ready else Pending
  }

  lemma ArrivalIs(r: Round, seen: Option<PigId>)
    requires r.status == Pending
    ensures var a := ActivateIfArrived(r, seen, false);
      var pig := if r.pig.Some? then r.pig else seen;
      var ready := pig.Some? && Enough(r.mode, r.required, r.members);
      a == r.(pig := pig, status := if ready then Ready else Pending, notice := if ready then NoNotice else r.notice)
  {
  }

  lemma JoinIs(r: Round, req: Request, seen: Option<PigId>, members: seq<Member>)
    requires r.status == Pending && JoinedMembers(r, req) == members
    ensures JoinedWith(r, Rounds.Join(r, req, seen), req, seen, members)
  {
    hide ActivateIfArrived, UpdateDelivery, JoinedMembers, Enough;
    var m := r.(members := members);
    SenderIs(m, req);
    ArrivalIs(UpdateDelivery(m, req).(notice := NoNotice), seen);
  }

  /** A stranger with room joins last: with double fire for a force use, with one fire otherwise. */
  lemma StrangerJoins(r: Round, req: Request, seen: Option<PigId>, forceFree: bool)
    requires r.status == Pending && r.mode != Super && req.mode != Super
    requires !HasMember(r.members, req.attacker) && |r.members| < 12 && (Boosts(r, req) ==> forceFree)
    ensures var t := Touch(r, req, seen, forceFree);
      var fire := if Boosts(r, req) then 2 else 1;
      && t.verdict == Joined && (t.forceSpent <==> Boosts(r, req))
      && JoinedWith(r, t.round, req, seen, r.members + [Member(req.attacker, fire)])
      && Fire(t.round.members) == Fire(r.members) + fire
  {
    hide Rounds.Join, JoinedWith;
    L.StrangerIndex(r.members, req.attacker);
    var fire := if Boosts(r, req) then 2 else 1;
    FireOfJoin(r.members, Member(req.attacker, fire));
    JoinIs(r, req, seen, r.members + [Member(req.attacker, fire)]);
    JoinedRoster(r, Rounds.Join(r, req, seen), req, seen, r.members + [Member(req.attacker, fire)]);
  }

  lemma JoinedRoster(r: Round, r': Round, req: Request, seen: Option<PigId>, members: seq<Member>)
    requires JoinedWith(r, r', req, seen, members)
    ensures r'.members == members
  {
    hide SameTerms, Sender, Enough;
  }

  lemma MemberIndex(ms: seq<Member>, i: nat)
    requires i < |ms| && forall a, b :: 0 <= a < b < |ms| ==> ms[a].user != ms[b].user
    ensures IndexOf(ms, ms[i].user) == i
  {
  }

  /** A member who pays a force use in a protected round burns double where they stand. */
  lemma MemberBoosts(r: Round, req: Request, seen: Option<PigId>, i: nat)
    requires r.status == Pending && r.mode != Super && Boosts(r, req) && RosterOk(r.members)
    requires i < |r.members| && r.members[i] == Member(req.attacker, 1)
    ensures var t := Touch(r, req, seen, true);
      && t.verdict == Upgraded && t.forceSpent
      && JoinedWith(r, t.round, req, seen, r.members[i := Member(req.attacker, 2)])
      && Fire(t.round.members) == Fire(r.members) + 1
  {
    hide Rounds.Join, JoinedWith;
    MemberIndex(r.members, i);
    FireOfChange(r.members, i, Member(req.attacker, 2));
    JoinIs(r, req, seen, r.members[i := Member(req.attacker, 2)]);
    JoinedRoster(r, Rounds.Join(r, req, seen), req, seen, r.members[i := Member(req.attacker, 2)]);
  }

  /** A member who cannot or need not burn more changes nothing but the sender and the notice. */
  lemma MemberAgain(r: Round, req: Request, seen: Option<PigId>, forceFree: bool, i: nat)
    requires r.status == Pending && r.mode != Super && req.mode != Super && RosterOk(r.members)
    requires i < |r.members| && r.members[i].user == req.attacker
    requires Boosts(r, req) ==> r.members[i].contribution == 2
    ensures var t := Touch(r, req, seen, forceFree);
      && t.verdict == AlreadyJoined && !t.forceSpent && Sender(r, t.round, req)
      && t.round == r.(notice := NoNotice, bot := t.round.bot, botVersion := t.round.botVersion)
  {
    hide UpdateDelivery;
    MemberIndex(r.members, i);
    SenderIs(r, req);
  }

  /** The attacker is aboard with the given contribution. */
  predicate Burns(r: Round, u: UserId, contribution: nat) {
    exists i :: 0 <= i < |r.members| && r.members[i] == Member(u, contribution)
  }

  /** Everything an ordinary request can be answered by a waiting round, and that a refusal changes nothing. */
  lemma JoinVerdict(r: Round, req: Request, seen: Option<PigId>, forceFree: bool)
    requires r.status == Pending && r.mode != Super && req.mode != Super && RosterOk(r.members)
    ensures var t := Touch(r, req, seen, forceFree);
      var aboard := HasMember(r.members, req.attacker);
      var more := Boosts(r, req) && !Burns(r, req.attacker, 2);
      && (t.verdict == AlreadyJoined <==> aboard && !more)
      && (t.verdict == Full <==> !aboard && |r.members| == 12)
      && (t.verdict == ForceDenied <==> more && (aboard || |r.members| < 12) && !forceFree)
      && (t.verdict == Upgraded <==> aboard && more && forceFree)
      && (t.verdict == Joined <==> !aboard && |r.members| < 12 && (more ==> forceFree))
      && (t.verdict in {Full, ForceDenied} ==> t.round == r)
      && (t.forceSpent <==> more && t.verdict in {Upgraded, Joined})
  {
    hide Rounds.Join, UpdateDelivery;
    var k := IndexOf(r.members, req.attacker);
    L.StrangerIndex(r.members, req.attacker);
    if k < |r.members| {
      assert forall i :: 0 <= i < |r.members| && r.members[i].user == req.attacker ==> i == k;
      assert r.members[k] == Member(req.attacker, r.members[k].contribution);
    }
  }

  /** Requests that do not gather: an ignited round is busy, a round that was taken over is the operator's, and a super
      request of a client that cannot gather is refused. */
  lemma ElseVerdict(r: Round, req: Request, seen: Option<PigId>, forceFree: bool)
    ensures var t := Touch(r, req, seen, forceFree);
      && (r.status != Pending ==> t.verdict == Busy)
      && (r.status == Pending && r.mode == Super ==>
            && t.round == r
            && var boss := if r.operator.Some? then r.operator.value else r.owner;
               t.verdict == if req.attacker == boss then AlreadyJoined else Closed)
      && (r.status == Pending && r.mode != Super && req.mode == Super && !(req.gathering && req.version >= 2) ==>
            t.round == r && t.verdict == Closed)
      && (r.status != Pending || r.mode == Super || req.mode == Super ==> !t.forceSpent)
  {
    hide Rounds.Join, TakeOver;
  }

  /** An ignited round that nobody has leased changes its sender for a capable request exactly if its sender cannot
      gather and the target is protected. */
  lemma BusySender(r: Round, req: Request, seen: Option<PigId>, forceFree: bool)
    requires r.status != Pending
    ensures var t := Touch(r, req, seen, forceFree);
      var takes := req.gathering && req.version >= 2 && r.required > 0 && r.mode != Super && r.botVersion < 2
                   && r.status == Ready && r.outcome.None? && r.token.None? && req.bot != 0;
      t.round == if takes then r.(bot := req.bot, botVersion := 2) else r
  {
  }

  // ---------------------------------------------------------------- lists of users

  /** The chosen users, each once, in joining order. */
  ghost predicate Lists(us: seq<UserId>, ms: seq<Member>, chosen: set<UserId>) {
    && NoDuplicates(us) && (forall u :: u in us <==> u in chosen)
    && (forall a, b :: 0 <= a < b < |us| ==> Before(ms, us[a], us[b]))
  }

  ghost predicate Before(ms: seq<Member>, u: UserId, v: UserId) {
    exists i, j :: 0 <= i < j < |ms| && ms[i].user == u && ms[j].user == v
  }

  lemma ListsMore(us: seq<UserId>, ms: seq<Member>, chosen: set<UserId>, m: Member, pick: bool)
    requires Lists(us, ms, chosen) && !HasMember(ms, m.user)
    requires forall u :: u in chosen ==> HasMember(ms, u)
    ensures Lists(us + if pick then [m.user] else [], ms + [m], chosen + if pick then {m.user} else {})
  {
    var us' := us + if pick then [m.user] else [];
    assert m.user !in us;
    forall a, b | 0 <= a < b < |us'|
      ensures Before(ms + [m], us'[a], us'[b])
    {
      if b < |us| {
        assert Before(ms, us[a], us[b]);
        var i, j :| 0 <= i < j < |ms| && ms[i].user == us[a] && ms[j].user == us[b];
        assert (ms + [m])[i].user == us[a] && (ms + [m])[j].user == us[b];
      } else {
        assert us[a] in chosen;
        var i :| 0 <= i < |ms| && ms[i].user == us[a];
        assert (ms + [m])[i].user == us'[a] && (ms + [m])[|ms|].user == us'[b];
      }
    }
  }

  // ---------------------------------------------------------------- takeovers

  /** Who keeps the claim to be fed when `operator` takes the round over: the others, unless the round is unprotected
      and forced, and in a protected one those who paid no force use. */
  ghost function Kept(r: Round, ms: seq<Member>, operator: UserId): set<UserId> {
    set m | m in ms && m.user != operator
            && (if r.required > 0 then m.contribution == 1 else r.mode == NoForce) :: m.user
  }

  lemma {:induction false} KeptInOrder(r: Round, ms: seq<Member>, operator: UserId)
    requires forall a, b :: 0 <= a < b < |ms| ==> ms[a].user != ms[b].user
    ensures Lists(FeedListOf(r, ms, operator), ms, Kept(r, ms, operator))
    decreases |ms|
  {
    hide Lists;
    if ms == [] {
      NobodyListed(Kept(r, ms, operator));
    } else {
      var before, m := ms[..|ms| - 1], ms[|ms| - 1];
      KeptInOrder(r, before, operator);
      var pick := m.user != operator && if r.required > 0 then m.contribution == 1 else r.mode == NoForce;
      ListsMore(FeedListOf(r, before, operator), before, Kept(r, before, operator), m, pick);
      assert before + [m] == ms;
      assert Kept(r, ms, operator) == Kept(r, before, operator) + if pick then {m.user} else {};
    }
  }

  lemma NobodyListed(chosen: set<UserId>)
    requires chosen == {}
    ensures Lists([], [], chosen)
  {
  }

  /** The round after a takeover: an override that lists whom it still feeds, sent by the operator's bot, and ready as
      soon as the target is known to be there. */
  ghost predicate TakenBy(r: Round, r': Round, req: Request, seen: Option<PigId>) {
    && r'.date == r.date && r'.group == r.group && r'.target == r.target && r'.owner == r.owner
    && r'.mode == Super && r'.required == r.required && r'.members == r.members && r'.operator == Some(req.attacker)
    && r'.feedUsers.Some? && Lists(r'.feedUsers.value, r.members, Kept(r, r.members, req.attacker))
    && r'.bot == req.bot && r'.botVersion == 2 && r'.token == r.token && r'.outcome == r.outcome
    && r'.pig == (if r.pig.Some? then r.pig else seen)
    && r'.status == (if r'.pig.Some? then Ready else Pending)
    && r'.notice == if r'.pig.Some? then NoNotice else r.notice
  }

  lemma TakeOverEffect(r: Round, req: Request, seen: Option<PigId>, forceFree: bool)
    requires r.status == Pending && r.mode != Super && req.mode == Super && req.gathering && req.version >= 2
    requires RosterOk(r.members)
    ensures var t := Touch(r, req, seen, forceFree);
      t.verdict == Joined && !t.forceSpent && TakenBy(r, t.round, req, seen)
  {
    hide Lists, FeedListOf;
    KeptInOrder(r, r.members, req.attacker);
  }

  // ---------------------------------------------------------------- new rounds

  /** A new round has its owner aboard, with double fire for a force use against a protected target; it asks for one
      more fire than the level if the client gathers, and is ready at once if the target is there and that is enough. */
  lemma OpenEffect(req: Request, level: Option<nat>, seen: Option<PigId>)
    ensures var r := Open(req, level, seen);
      && r.date == req.date && r.group == req.group && r.target == req.target && r.owner == req.attacker
      && r.mode == req.mode && r.bot == req.bot && r.botVersion == (if req.gathering && req.version >= 2 then 2 else 0)
      && r.required == (if level.Some? && req.gathering then level.value + 1 else 0)
      && r.members == [Member(req.attacker, if level.Some? && req.mode == Normal then 2 else 1)]
      && r.pig == seen && r.notice == NoNotice
      && r.status == (if seen.Some? && Enough(r.mode, r.required, r.members) then Ready else Pending)
      && r.operator.None? && r.feedUsers.None? && r.outcome.None? && r.feedResults.None?
      && r.token.None? && r.claimedAt.None?
  {
  }

  // ---------------------------------------------------------------- protection changes

  /** The owner's contribution is two and everybody else's is as it was. */
  ghost predicate OwnerDoubled(ms: seq<Member>, ms': seq<Member>, owner: UserId) {
    |ms'| == |ms| && forall i :: 0 <= i < |ms| ==>
      ms'[i] == if ms[i].user == owner then Member(owner, 2) else ms[i]
  }

  /** A waiting round after its target's protection changed to `level`: it asks for one more fire than that, or for none
      without protection.  An owner who had paid a force use while there was none burns double from now on.  If the
      target is there the round is ready when that is enough; otherwise a changed threshold asks for a new notice. */
  ghost predicate Follows(r: Round, r': Round, level: Option<nat>) {
    && SameTerms(r.(required := r'.required), r') && r'.bot == r.bot && r'.botVersion == r.botVersion && r'.pig == r.pig
    && r'.required == (if level.Some? then level.value + 1 else 0)
    && (if level.Some? && r.required == 0 && r.mode == Normal then OwnerDoubled(r.members, r'.members, r.owner)
        else r'.members == r.members)
    && var ready := r.pig.Some? && Enough(r.mode, r'.required, r'.members);
       && r'.status == (if ready then Ready else Pending)
       && r'.notice == if ready then NoNotice
                       else if r.pig.Some? && r'.required != r.required then Waiting else r.notice
  }

  lemma BoostDoubles(ms: seq<Member>, owner: UserId)
    requires RosterOk(ms)
    ensures OwnerDoubled(ms, Boost(ms, owner), owner)
  {
    var k := IndexOf(ms, owner);
    forall i | 0 <= i < |ms|
      ensures Boost(ms, owner)[i] == if ms[i].user == owner then Member(owner, 2) else ms[i]
    {
      if k < |ms| && i != k { assert ms[i].user != ms[k].user; }
    }
  }

  lemma SyncEffect(r: Round, level: Option<nat>)
    requires r.status == Pending && RosterOk(r.members)
    ensures if r.mode == Super then Sync(r, level) == r else Follows(r, Sync(r, level), level)
  {
    hide OwnerDoubled, Boost;
    BoostDoubles(r.members, r.owner);
  }

  // ---------------------------------------------------------------- arrivals

  /** A waiting round whose target draws `pig`: it knows the pig, is ready if the fire is enough, and otherwise asks for
      a notice if that is news to it and nobody has been answered yet. */
  predicate Arrives(r: Round, r': Round, pig: PigId, answered: bool) {
    var ready := Enough(r.mode, r.required, r.members);
    r' == r.(pig := Some(pig), status := if ready then Ready else Pending,
             notice := if ready || answered then NoNotice else if r.pig.None? then Waiting else r.notice)
  }

  lemma ActivateEffect(r: Round, pig: PigId)
    requires r.status == Pending
    ensures Arrives(r, Activate(r, pig, true), pig, false)
  {
  }

  lemma ReconcileEffect(r: Round, pig: PigId, handled: bool)
    requires r.status == Pending
    ensures Arrives(r, Reconcile(r, pig, handled), pig, handled)
  {
  }

  // ---------------------------------------------------------------- leases

  const FIVE_MINUTES: int := 5 * 60 * 1_000_000

  /** A lease may start on a ready round, or on one whose lease is over five minutes old and that nobody sends yet. */
  lemma ClaimableIff(r: Round, now: int)
    ensures Claimable(r, now) <==>
      r.status == Ready
      || ((r.status == Processing || r.status == Prepared)
          && (r.claimedAt.Some? ==> r.claimedAt.value + FIVE_MINUTES < now))
  {
  }

  /** A notice goes out for a waiting round against a protected target who is there, if one is asked for or the lease of
      the last one is over five minutes old. */
  lemma NoticeClaimableIff(r: Round, now: int)
    ensures NoticeClaimable(r, now) <==>
      && r.status == Pending && r.pig.Some? && r.required > 0 && r.mode != Super
      && (r.notice == Waiting || exists t, since :: r.notice == Leased(t, since) && since + FIVE_MINUTES < now)
  {
    if r.notice.Leased? { assert r.notice == Leased(r.notice.token, r.notice.since); }
  }

  /** The holder of a live notice of today may start sending it, confirm it afterwards, or give it back before; each of
      the first two may be repeated, and nothing else moves the notice. */
  lemma NoticeEffect(r: Round, token: Token, action: NoticeAction, today: Date)
    ensures var (r', ok) := MoveNotice(r, token, action, today);
      var since := if r.notice.NoNotice? || r.notice.Waiting? then 0 else r.notice.since;
      var live := r.status == Pending && r.date == today;
      && (ok <==> live && match action
                          case StartSending => r.notice in {Leased(token, since), OnItsWay(token, since)}
                          case ConfirmSent => r.notice in {OnItsWay(token, since), Delivered(token, since)}
                          case GiveBack => r.notice == Leased(token, since))
      && r' == if !ok then r
               else r.(notice := match action
                                 case StartSending => OnItsWay(token, since)
                                 case ConfirmSent => Delivered(token, since)
                                 case GiveBack => Waiting)
  {
  }

  // ---------------------------------------------------------------- what a holder does

  /** The round is leased under this token. */
  predicate Holds(r: Round, token: Token) {
    r.token == Some(token)
  }

  /** The holder fixes an outcome once, while the round is being decided; the same outcome is confirmed later and
      another one refused. A first outcome is stored with what was fed and is then ready to be sent. */
  lemma PrepareOutcomeEffect(r: Round, token: Token, outcome: Outcome, results: seq<(UserId, FeedResult)>)
    ensures var (r', ok) := PrepareOutcome(r, token, outcome, results);
      var first := r.status == Processing && r.outcome.None?;
      && (ok <==> Holds(r, token) && r.status in {Processing, Prepared, Sending, Completed}
                  && (first || r.outcome == Some(outcome)))
      && (PrepareFixing(r, token, outcome) == First <==> ok && first)
      && r' == if !ok then r
               else r.(outcome := Some(outcome), status := if r.status == Processing then Prepared else r.status,
                       feedResults := if first then Some(results) else r.feedResults)
  {
  }

  /** An old client saves and sends in one: the same, but the round is being sent then, and nothing is fed. */
  lemma SaveOutcomeEffect(r: Round, token: Token, outcome: Outcome)
    ensures var (r', ok) := SaveOutcome(r, token, outcome);
      var first := r.status == Processing && r.outcome.None?;
      && (ok <==> Holds(r, token) && r.status in {Processing, Sending, Completed}
                  && (first || r.outcome == Some(outcome)))
      && r' == if !ok then r
               else r.(outcome := Some(outcome), status := if r.status == Processing then Sending else r.status)
  {
  }

  /** The holder of a round with an outcome starts sending it, which may be repeated; whoever is sending may complete
      it, which may be repeated; and a holder who has not started to send may give it back, ready for another lease. */
  lemma HolderEffects(r: Round, token: Token)
    ensures var (r', ok) := MarkSending(r, token);
      && (ok <==> Holds(r, token) && r.outcome.Some? && r.status in {Prepared, Sending, Completed})
      && r' == if ok && r.status == Prepared then r.(status := Sending) else r
    ensures var (r', ok) := Complete(r, token);
      && (ok <==> Holds(r, token) && r.status in {Sending, Completed})
      && r' == if ok then r.(status := Completed) else r
    ensures var (r', ok) := Release(r, token);
      && (ok <==> Holds(r, token) && r.status in {Processing, Prepared})
      && r' == if ok then r.(status := Ready, token := None, claimedAt := None) else r
  {
  }

  // ---------------------------------------------------------------- whom a success feeds

  /** The members whom a success of the round feeds: those saved by a takeover; otherwise, against a protected target,
      those who paid no force use; otherwise everybody, unless the owner had paid one for the round. */
  ghost function Fed(r: Round, ms: seq<Member>): set<UserId> {
    set m | m in ms && (if r.mode == Super then r.feedUsers.Some? && m.user in r.feedUsers.value
                        else if r.required > 0 then m.contribution == 1 else r.mode != Normal) :: m.user
  }

  lemma {:induction false} EligibleInOrder(r: Round, ms: seq<Member>)
    requires forall a, b :: 0 <= a < b < |ms| ==> ms[a].user != ms[b].user
    requires r.mode == Normal ==> r.required > 0
    ensures Lists(EligibleOf(r, ms), ms, Fed(r, ms))
    decreases |ms|
  {
    hide Lists;
    if ms == [] {
      NobodyListed(Fed(r, ms));
    } else {
      var before, m := ms[..|ms| - 1], ms[|ms| - 1];
      EligibleInOrder(r, before);
      var pick := if r.mode == Super then r.feedUsers.Some? && m.user in r.feedUsers.value
                  else r.required == 0 || m.contribution == 1;
      ListsMore(EligibleOf(r, before), before, Fed(r, before), m, pick);
      assert before + [m] == ms;
      assert Fed(r, ms) == Fed(r, before) + if pick then {m.user} else {};
    }
  }

  /** An outcome feeds exactly those members, in joining order, if it is a success and the client settles; and nobody
      otherwise. */
  lemma SettlesFor(r: Round, outcome: Outcome, settle: bool)
    requires RosterOk(r.members) && L.TakenOk(r)
    ensures Lists(Settled(r, outcome, settle), r.members, if settle && outcome.success then Fed(r, r.members) else {})
  {
    hide Lists, EligibleOf;
    NobodyOf(r.members);
    if Settled(r, outcome, settle) != [] {
      EligibleInOrder(r, r.members);
    } else if settle && outcome.success {
      NobodyFed(r);
    }
  }

  lemma NobodyOf(ms: seq<Member>)
    ensures Lists([], ms, {})
  {
  }

  lemma NobodyFed(r: Round)
    requires RosterOk(r.members) && L.TakenOk(r) && Settled(r, Outcome(true, 0), true) == []
    ensures Fed(r, r.members) == {}
  {
    if Feeds(r) {
      EligibleInOrder(r, r.members);
    }
  }
}
