/** One roast round (rollpig_cloud/services/reservations.py and the row edits of
    rollpig_cloud/routers/roast_reservations.py and services/protections.py).

    A round gathers members while it is pending, ignites when its target has arrived and enough fire is
    there, and is then handed out under a lease until its message is on the way.  This module describes what
    each request does to the one row it has locked, and what a row always satisfies. */
module Rounds {
  import opened Base
  import opened Growth

  const MAX_PARTICIPANTS: nat := 12
  const MAX_REQUIRED: nat := 6
  const NO_BOT: BotId := 0

  datatype Mode = NoForce | Blank | Normal | Super
  datatype Status = Pending | Ready | Processing | Prepared | Sending | Completed
  datatype Member = Member(user: UserId, contribution: nat)

  /** The waiting notice; `since` is the time of its lease. */
  datatype Notice =
    | NoNotice
    | Waiting
    | Leased(token: Token, since: int)
    | OnItsWay(token: Token, since: int)
    | Delivered(token: Token, since: int)

  datatype Outcome = Outcome(success: bool, details: nat)

  datatype Round = Round(
    date: Date, group: GroupId, target: UserId, owner: UserId,
    mode: Mode, status: Status, required: nat, pig: Option<PigId>, members: seq<Member>, notice: Notice,
    bot: BotId, botVersion: nat, operator: Option<UserId>, feedUsers: Option<seq<UserId>>,
    outcome: Option<Outcome>, feedResults: Option<seq<(UserId, FeedResult)>>, token: Option<Token>,
    claimedAt: Option<int>)

  /** A request to open, join, boost or take over a round. */
  datatype Request = Request(
    attacker: UserId, target: UserId, group: GroupId, date: Date, mode: Mode, bot: BotId,
    gathering: bool, version: nat, now: int, cooldown: Option<int>, maxCharges: Option<int>)

  datatype Verdict =
    | TargetProtected | Closed | Busy | AlreadyJoined | Full | ForceDenied | Joined | Upgraded
    | Created | TargetReady | CooldownDenied

  /** The client takes part in gathering against protection. */
  predicate Capable(req: Request) {
    req.gathering && req.version >= 2
  }

  // ---------------------------------------------------------------- members

  function Fire(ms: seq<Member>): nat {
    if ms == [] then 0 else Fire(ms[..|ms| - 1]) + ms[|ms| - 1].contribution
  }

  predicate HasMember(ms: seq<Member>, u: UserId) {
    exists i :: 0 <= i < |ms| && ms[i].user == u
  }

  /** Position of the user in the roster, or its length. */
  function IndexOf(ms: seq<Member>, u: UserId): (k: nat)
    ensures k <= |ms|
    ensures k < |ms| ==> ms[k].user == u
    ensures forall i :: 0 <= i < k ==> ms[i].user != u
  {
    if ms == [] then 0 else if ms[0].user == u then 0 else 1 + IndexOf(ms[1..], u)
  }

  function Boost(ms: seq<Member>, u: UserId): seq<Member> {
    var k := IndexOf(ms, u);
    if k < |ms| then ms[k := ms[k].(contribution := 2)] else ms
  }

  ghost predicate RosterOk(ms: seq<Member>) {
    && 1 <= |ms| <= MAX_PARTICIPANTS
    && (forall i :: 0 <= i < |ms| ==> 1 <= ms[i].contribution <= 2)
    && (forall i, j :: 0 <= i < j < |ms| ==> ms[i].user != ms[j].user)
  }

  lemma {:induction false} FireAtLeast(ms: seq<Member>)
    requires forall i :: 0 <= i < |ms| ==> 1 <= ms[i].contribution
    ensures Fire(ms) >= |ms|
    decreases |ms|
  {
    if ms != [] {
      FireAtLeast(ms[..|ms| - 1]);
    }
  }

  lemma FireOfJoin(ms: seq<Member>, m: Member)
    ensures Fire(ms + [m]) == Fire(ms) + m.contribution
  {
    assert (ms + [m])[..|ms|] == ms;
  }

  // ---------------------------------------------------------------- ignition

  predicate Underfired(r: Round) {
    r.required > 0 && r.mode != Super && Fire(r.members) < r.required
  }

  /** The target has arrived as `pig`: the round ignites, or waits for more fire and may ask for a notice. */
  function Activate(r: Round, pig: PigId, notify: bool): Round {
    var arrived := r.(pig := Some(pig));
    if Underfired(arrived) then
      if r.pig.None? && notify then arrived.(notice := Waiting) else arrived
    else arrived.(notice := NoNotice, status := Ready)
  }

  function ActivateIfArrived(r: Round, seen: Option<PigId>, notify: bool): Round {
    if r.pig.Some? then Activate(r, r.pig.value, notify)
    else if seen.Some? then Activate(r, seen.value, notify)
    else r
  }

  // ---------------------------------------------------------------- opening and joining

  /** A round whose sender cannot gather may be handed to a capable one before anything is fixed. */
  predicate CanReassign(r: Round, req: Request) {
    && r.required > 0 && r.mode != Super && r.botVersion < 2
    && r.status in {Pending, Ready} && r.outcome.None? && r.token.None?
    && Capable(req) && req.bot != NO_BOT
  }

  function UpdateDelivery(r: Round, req: Request): Round {
    if !Capable(req) then r
    else
      var moved := if CanReassign(r, req) then r.(bot := req.bot) else r;
      if moved.bot == req.bot then moved.(botVersion := 2) else moved
  }

  /** The member's claim to be fed survives a takeover by `attacker`. */
  predicate Spared(r: Round, m: Member, attacker: UserId) {
    m.user != attacker && (r.mode == NoForce || r.required > 0) && (r.required == 0 || m.contribution == 1)
  }

  /** Members who keep their claim to be fed when a super request takes the round over. */
  function FeedList(r: Round, attacker: UserId): seq<UserId> {
    FeedListOf(r, r.members, attacker)
  }

  function FeedListOf(r: Round, ms: seq<Member>, attacker: UserId): seq<UserId> {
    if ms == [] then []
    else
      var m := ms[|ms| - 1];
      FeedListOf(r, ms[..|ms| - 1], attacker) +
        if Spared(r, m, attacker) then [m.user] else []
  }

  /** What a request did to the round it found. */
  datatype Touched = Touched(round: Round, verdict: Verdict, forceSpent: bool)

  function TakeOver(r: Round, req: Request, seen: Option<PigId>): Round {
    var taken := r.(feedUsers := Some(FeedList(r, req.attacker)), operator := Some(req.attacker), mode := Super,
                    bot := req.bot, botVersion := 2);
    ActivateIfArrived(taken, seen, true)
  }

  predicate Boosting(r: Round, req: Request) {
    r.required > 0 && req.mode == Normal
  }

  /** The roster after a join or a boost. */
  function JoinedMembers(r: Round, req: Request): seq<Member> {
    var k := IndexOf(r.members, req.attacker);
    if k == |r.members| then r.members + [Member(req.attacker, if Boosting(r, req) then 2 else 1)]
    else if Boosting(r, req) then r.members[k := r.members[k].(contribution := 2)]
    else r.members
  }

  function Join(r: Round, req: Request, seen: Option<PigId>): Round {
    var joined := UpdateDelivery(r.(members := JoinedMembers(r, req)), req).(notice := NoNotice);
    ActivateIfArrived(joined, seen, false)
  }

  /** A request that found an active round; `seen` is the target's pig as far as the reader knows and
      `forceFree` says whether the attacker's force use of the date is still there. */
  function Touch(r: Round, req: Request, seen: Option<PigId>, forceFree: bool): Touched {
    if r.status != Pending then
      Touched(if CanReassign(r, req) then UpdateDelivery(r, req) else r, Busy, false)
    else if r.mode == Super then
      var operator := if r.operator.Some? then r.operator.value else r.owner;
      Touched(r, if operator == req.attacker then AlreadyJoined else Closed, false)
    else if req.mode == Super then
      if !Capable(req) then Touched(r, Closed, false) else Touched(TakeOver(r, req, seen), Joined, false)
    else
      var k := IndexOf(r.members, req.attacker);
      var member := k < |r.members|;
      if member && !(Boosting(r, req) && r.members[k].contribution < 2) then
        Touched(UpdateDelivery(r, req).(notice := NoNotice), AlreadyJoined, false)
      else if !member && |r.members| >= MAX_PARTICIPANTS then Touched(r, Full, false)
      else if Boosting(r, req) && !forceFree then Touched(r, ForceDenied, false)
      else Touched(Join(r, req, seen), if member then Upgraded else Joined, Boosting(r, req))
  }

  /** A new round; `level` is the protection level in force, if the target is protected at all. */
  function Open(req: Request, level: Option<nat>, seen: Option<PigId>): Round {
    var r := Round(req.date, req.group, req.target, req.attacker, req.mode, Pending,
                   if level.Some? && req.gathering then 1 + level.value else 0,
                   None, [Member(req.attacker, if level.Some? && req.mode == Normal then 2 else 1)], NoNotice,
                   req.bot, if Capable(req) then 2 else 0, None, None, None, None, None, None);
    ActivateIfArrived(r, seen, false)
  }

  /** A waiting round follows its target's protection; None means the protection is gone. */
  function Sync(r: Round, level: Option<nat>): Round {
    if r.mode == Super then r
    else
      var converts := level.Some? && r.required == 0 && r.mode == Normal;
      var required := if level.Some? then 1 + level.value else 0;
      var s := r.(members := if converts then Boost(r.members, r.owner) else r.members, required := required);
      if r.pig.None? then s
      else
        var t := Activate(s, r.pig.value, true);
        if t.status == Pending && r.required != required then t.(notice := Waiting) else t
  }

  /** Reconciliation after a commit: the target's draw is applied to a pending round; `handled` marks the
      round whose progress the request has already answered. */
  function Reconcile(r: Round, pig: PigId, handled: bool): Round {
    var a := Activate(r, pig, !handled);
    if handled then a.(notice := NoNotice) else a
  }

  // ---------------------------------------------------------------- leases and delivery

  const CLAIM_TIMEOUT: int := 300 * 1_000_000

  predicate Claimable(r: Round, now: int) {
    || r.status == Ready
    || (r.status in {Processing, Prepared} && (r.claimedAt.None? || r.claimedAt.value < now - CLAIM_TIMEOUT))
  }

  function ClaimRound(r: Round, token: Token, now: int, supportsPrepared: bool): Round {
    r.(status := if r.outcome.None? then Processing else if supportsPrepared then Prepared else Sending,
       token := Some(token), claimedAt := Some(now))
  }

  /** The waiting notice goes out under a token of its own. */
  function MintNotice(r: Round, token: Token, now: int): Round {
    r.(notice := Leased(token, now))
  }

  predicate NoticeClaimable(r: Round, now: int) {
    && r.status == Pending && r.pig.Some? && r.required > 0 && r.mode != Super
    && (r.notice == Waiting || (r.notice.Leased? && r.notice.since < now - CLAIM_TIMEOUT))
  }

  datatype NoticeAction = StartSending | ConfirmSent | GiveBack

  function NoticeToken(n: Notice): Option<Token> {
    match n
    case Leased(t, _) => Some(t)
    case OnItsWay(t, _) => Some(t)
    case Delivered(t, _) => Some(t)
    case _ => None
  }

  function MoveNotice(r: Round, token: Token, action: NoticeAction, today: Date): (Round, bool) {
    if r.status != Pending || r.date != today || NoticeToken(r.notice) != Some(token) then (r, false)
    else
      match action
      case StartSending =>
        if r.notice.Leased? || r.notice.OnItsWay? then (r.(notice := OnItsWay(token, r.notice.since)), true)
        else (r, false)
      case ConfirmSent =>
        if r.notice.OnItsWay? || r.notice.Delivered? then (r.(notice := Delivered(token, r.notice.since)), true)
        else (r, false)
      case GiveBack =>
        if r.notice.Leased? then (r.(notice := Waiting), true) else (r, false)
  }

  /** Members who are fed when the round succeeds now. */
  function Eligible(r: Round): seq<UserId> {
    EligibleOf(r, r.members)
  }

  function EligibleOf(r: Round, ms: seq<Member>): seq<UserId> {
    if ms == [] then []
    else
      var m := ms[|ms| - 1];
      EligibleOf(r, ms[..|ms| - 1]) +
        if (r.mode == Super && r.feedUsers.Some? && m.user in r.feedUsers.value)
           || (r.mode != Super && (r.required == 0 || m.contribution == 1))
        then [m.user] else []
  }

  /** Whether a success of the round feeds anybody at all. */
  predicate Feeds(r: Round) {
    || (r.feedUsers.Some? && r.feedUsers.value != [])
    || (r.mode != Normal && r.mode != Super)
    || (r.required > 0 && r.mode != Super)
  }

  /** The users a first outcome feeds. */
  function Settled(r: Round, outcome: Outcome, settle: bool): seq<UserId> {
    if settle && Feeds(r) && outcome.success then Eligible(r) else []
  }

  datatype Fixing = Refused | Repeated | First

  predicate HoldsToken(r: Round, token: Token) {
    r.token == Some(token)
  }

  /** What an outcome request finds: a refusal, a repetition, or the first outcome. */
  function FixingOf(r: Round, token: Token, outcome: Outcome, accepted: set<Status>): Fixing {
    if !HoldsToken(r, token) || r.status !in accepted then Refused
    else if r.outcome.None? then (if r.status == Processing then First else Refused)
    else if r.outcome == Some(outcome) then Repeated
    else Refused
  }

  function PrepareFixing(r: Round, token: Token, outcome: Outcome): Fixing {
    FixingOf(r, token, outcome, {Processing, Prepared, Sending, Completed})
  }

  function PrepareOutcome(r: Round, token: Token, outcome: Outcome, results: seq<(UserId, FeedResult)>): (Round, bool) {
    match PrepareFixing(r, token, outcome)
    case Refused => (r, false)
    case Repeated => (r.(status := if r.status == Processing then Prepared else r.status), true)
    case First => (r.(outcome := Some(outcome), feedResults := Some(results), status := Prepared), true)
  }

  function SaveOutcome(r: Round, token: Token, outcome: Outcome): (Round, bool) {
    match FixingOf(r, token, outcome, {Processing, Sending, Completed})
    case Refused => (r, false)
    case Repeated => (r.(status := if r.status == Processing then Sending else r.status), true)
    case First => (r.(outcome := Some(outcome), status := Sending), true)
  }

  function MarkSending(r: Round, token: Token): (Round, bool) {
    if !HoldsToken(r, token) || r.status !in {Prepared, Sending, Completed} || r.outcome.None? then (r, false)
    else (r.(status := if r.status == Prepared then Sending else r.status), true)
  }

  function Complete(r: Round, token: Token): (Round, bool) {
    if !HoldsToken(r, token) || r.status !in {Sending, Completed} then (r, false)
    else (r.(status := Completed), true)
  }

  function Release(r: Round, token: Token): (Round, bool) {
    if !HoldsToken(r, token) || r.status !in {Processing, Prepared} then (r, false)
    else (r.(status := Ready, token := None, claimedAt := None), true)
  }
}
