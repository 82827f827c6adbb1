/** A reservation row as the handlers edit it: rollpig_cloud/services/reservations.py,
    services/protections.py and routers/roast_reservations.py assign its fields one after the other.

    Each method is proved against the function of Rounds.dfy that says what the edit amounts to. */
module ReservationRows {
  import opened Base
  import opened Growth
  import opened Rounds

  class Reservation {
    const date: Date
    const group: GroupId
    const target: UserId
    const owner: UserId
    var mode: Mode
    var status: Status
    var required: nat
    var pig: Option<PigId>
    var members: seq<Member>
    var notice: Notice
    var bot: BotId
    var botVersion: nat
    var operator: Option<UserId>
    var feedUsers: Option<seq<UserId>>
    var outcome: Option<Outcome>
    var feedResults: Option<seq<(UserId, FeedResult)>>
    var token: Option<Token>
    var claimedAt: Option<int>

    /** The row as it stands. */
    function Row(): Round
      reads this
    {
      Round(date, group, target, owner, mode, status, required, pig, members, notice, bot, botVersion,
            operator, feedUsers, outcome, feedResults, token, claimedAt)
    }

    /** Loads a row. */
    constructor (r: Round)
      ensures Row() == r
    {
      date, group, target, owner := r.date, r.group, r.target, r.owner;
      mode, status, required, pig, members, notice := r.mode, r.status, r.required, r.pig, r.members, r.notice;
      bot, botVersion, operator, feedUsers := r.bot, r.botVersion, r.operator, r.feedUsers;
      outcome, feedResults, token, claimedAt := r.outcome, r.feedResults, r.token, r.claimedAt;
    }

    // -------------------------------------------------------------- fire and arrival

    method TotalFire() returns (total: nat)
      ensures total == Fire(members)
    {
      total := 0;
      for i := 0 to |members|
        invariant total == Fire(members[..i])
      {
        assert members[..i + 1][..i] == members[..i];
        total := total + members[i].contribution;
      }
      assert members[..|members|] == members;
    }

    /** Records the arrival and ignites the round if the fire is enough; returns whether it did. */
    method Activate(pigId: PigId, notifyWaiting: bool) returns (ignited: bool)
      modifies this
      ensures Row() == Rounds.Activate(old(Row()), pigId, notifyWaiting)
      ensures ignited <==> !Underfired(old(Row()))
    {
      var firstArrival := pig.None?;
      pig := Some(pigId);
      if required > 0 && mode != Super {
        var total := TotalFire();
        if total < required {
          if firstArrival && notifyWaiting {
            notice := Waiting;
          }
          return false;
        }
      }
      notice := NoNotice;
      status := Ready;
      return true;
    }

    method ActivateIfArrived(seen: Option<PigId>, notifyWaiting: bool)
      modifies this
      ensures Row() == Rounds.ActivateIfArrived(old(Row()), seen, notifyWaiting)
    {
      if pig.Some? {
        var _ := Activate(pig.value, notifyWaiting);
      } else if seen.Some? {
        var _ := Activate(seen.value, notifyWaiting);
      }
    }

    /** Reconciliation of a waiting row; `handled` when the request has already told the progress. */
    method Reconcile(pigId: PigId, handled: bool)
      modifies this
      ensures Row() == Rounds.Reconcile(old(Row()), pigId, handled)
    {
      var _ := Activate(pigId, !handled);
      if handled {
        notice := NoNotice;
      }
    }

    // -------------------------------------------------------------- joining

    method UpdateDeliveryCapability(req: Request)
      modifies this
      ensures Row() == UpdateDelivery(old(Row()), req)
    {
      if !Capable(req) {
        return;
      }
      if CanReassign(Row(), req) {
        bot := req.bot;
      }
      if bot == req.bot {
        botVersion := 2;
      }
    }

    method FindMember(user: UserId) returns (k: nat)
      ensures k == IndexOf(members, user)
    {
      k := 0;
      while k < |members| && members[k].user != user
        invariant k <= |members|
        invariant forall i :: 0 <= i < k ==> members[i].user != user
      {
        k := k + 1;
      }
      FirstIsIndex(members, user, k);
    }

    /** The members whose claim to be fed outlives a takeover, in the order in which they joined. */
    method FeedListWithout(attacker: UserId) returns (saved: seq<UserId>)
      ensures saved == FeedList(Row(), attacker)
    {
      saved := [];
      for i := 0 to |members|
        invariant saved == FeedListOf(Row(), members[..i], attacker)
      {
        var m := members[i];
        assert members[..i + 1][..i] == members[..i];
        if m.user != attacker && (mode == NoForce || required > 0) && (required == 0 || m.contribution == 1) {
          saved := saved + [m.user];
        }
      }
      assert members[..|members|] == members;
    }

    /** A super request takes the round over; the members' claims to be fed are saved first. */
    method TakeOver(req: Request, seen: Option<PigId>)
      modifies this
      ensures Row() == Rounds.TakeOver(old(Row()), req, seen)
    {
      hide FeedList, Rounds.ActivateIfArrived;
      var saved := FeedListWithout(req.attacker);
      feedUsers := Some(saved);
      operator := Some(req.attacker);
      mode := Super;
      bot := req.bot;
      botVersion := 2;
      ActivateIfArrived(seen, true);
    }

    /** The attacker's fire is added; any force use it costs is already spent. */
    method Join(req: Request, k: nat, boosted: bool, seen: Option<PigId>)
      requires k == IndexOf(members, req.attacker) && boosted == Boosting(Row(), req)
      modifies this
      ensures Row() == Rounds.Join(old(Row()), req, seen)
    {
      if k == |members| {
        members := members + [Member(req.attacker, if boosted then 2 else 1)];
      } else if boosted {
        members := members[k := members[k].(contribution := 2)];
      }
      UpdateDeliveryCapability(req);
      notice := NoNotice;
      ActivateIfArrived(seen, false);
    }

    // -------------------------------------------------------------- protection

    /** The row follows its target's protection; None when the protection is gone. */
    method SyncProtection(level: Option<nat>)
      modifies this
      ensures Row() == Sync(old(Row()), level)
    {
      if mode == Super {
        return;
      }
      if level.Some? && required == 0 && mode == Normal {
        var k := FindMember(owner);
        if k < |members| {
          members := members[k := members[k].(contribution := 2)];
        }
      }
      var previous := required;
      required := if level.Some? then 1 + level.value else 0;
      assert members == if level.Some? && previous == 0 && mode == Normal then Boost(old(members), owner)
        else old(members);
      if pig.Some? {
        var _ := Activate(pig.value, true);
        if status == Pending && previous != required {
          notice := Waiting;
        }
      }
    }

    // -------------------------------------------------------------- leases and delivery

    method Lease(newToken: Token, now: int, supportsPrepared: bool)
      modifies this
      ensures Row() == ClaimRound(old(Row()), newToken, now, supportsPrepared)
    {
      if outcome.Some? {
        status := if supportsPrepared then Prepared else Sending;
      } else {
        status := Processing;
      }
      token := Some(newToken);
      claimedAt := Some(now);
    }

    method LeaseNotice(newToken: Token, now: int)
      modifies this
      ensures Row() == MintNotice(old(Row()), newToken, now)
    {
      notice := Leased(newToken, now);
    }

    method MoveNotice(claimToken: Token, action: NoticeAction, today: Date) returns (ok: bool)
      modifies this
      ensures (Row(), ok) == Rounds.MoveNotice(old(Row()), claimToken, action, today)
    {
      if status != Pending || date != today || NoticeToken(notice) != Some(claimToken) {
        return false;
      }
      if action == StartSending && (notice.Leased? || notice.OnItsWay?) {
        notice := OnItsWay(claimToken, notice.since);
      } else if action == ConfirmSent && (notice.OnItsWay? || notice.Delivered?) {
        notice := Delivered(claimToken, notice.since);
      } else if action == GiveBack && notice.Leased? {
        notice := Waiting;
      } else {
        return false;
      }
      return true;
    }

    /** Whether an outcome is refused, repeated or the first. */
    method CheckOutcome(claimToken: Token, result: Outcome) returns (fixing: Fixing)
      ensures fixing == PrepareFixing(Row(), claimToken, result)
    {
      if token != Some(claimToken) || status !in {Processing, Prepared, Sending, Completed} {
        return Refused;
      }
      if outcome.None? {
        return if status == Processing then First else Refused;
      }
      return if outcome == Some(result) then Repeated else Refused;
    }

    /** Fixes the outcome, with its feed results if it is the first, and moves on to prepared. */
    method FixOutcome(result: Outcome, first: Option<seq<(UserId, FeedResult)>>)
      modifies this
      ensures Row() == old(Row()).(outcome := if first.Some? then Some(result) else old(outcome),
                                   feedResults := if first.Some? then first else old(feedResults),
                                   status := if old(status) == Processing then Prepared else old(status))
    {
      if first.Some? {
        outcome := Some(result);
        feedResults := first;
      }
      if status == Processing {
        status := Prepared;
      }
    }

    method SaveOutcome(claimToken: Token, result: Outcome) returns (ok: bool)
      modifies this
      ensures (Row(), ok) == Rounds.SaveOutcome(old(Row()), claimToken, result)
    {
      if token != Some(claimToken) || status !in {Processing, Sending, Completed} {
        return false;
      }
      if outcome.None? {
        if status != Processing {
          return false;
        }
        outcome := Some(result);
      } else if outcome != Some(result) {
        return false;
      }
      if status == Processing {
        status := Sending;
      }
      return true;
    }

    method MarkSending(claimToken: Token) returns (ok: bool)
      modifies this
      ensures (Row(), ok) == Rounds.MarkSending(old(Row()), claimToken)
    {
      if token != Some(claimToken) || status !in {Prepared, Sending, Completed} || outcome.None? {
        return false;
      }
      if status == Prepared {
        status := Sending;
      }
      return true;
    }

    method Complete(claimToken: Token) returns (ok: bool)
      modifies this
      ensures (Row(), ok) == Rounds.Complete(old(Row()), claimToken)
    {
      if token != Some(claimToken) || status !in {Sending, Completed} {
        return false;
      }
      if status != Completed {
        status := Completed;
      }
      return true;
    }

    method Release(claimToken: Token) returns (ok: bool)
      modifies this
      ensures (Row(), ok) == Rounds.Release(old(Row()), claimToken)
    {
      if token != Some(claimToken) || status !in {Processing, Prepared} {
        return false;
      }
      status := Ready;
      token := None;
      claimedAt := None;
      return true;
    }

    /** The members a success feeds, in the order in which they joined. */
    method EligibleMembers() returns (fed: seq<UserId>)
      ensures fed == Eligible(Row())
    {
      fed := [];
      for i := 0 to |members|
        invariant fed == EligibleOf(Row(), members[..i])
      {
        var m := members[i];
        assert members[..i + 1][..i] == members[..i];
        if (mode == Super && feedUsers.Some? && m.user in feedUsers.value)
           || (mode != Super && (required == 0 || m.contribution == 1)) {
          fed := fed + [m.user];
        }
      }
      assert members[..|members|] == members;
    }
  }

  lemma FirstIsIndex(ms: seq<Member>, u: UserId, k: nat)
    requires k <= |ms| && (forall i :: 0 <= i < k ==> ms[i].user != u) && (k < |ms| ==> ms[k].user == u)
    ensures IndexOf(ms, u) == k
  {
  }
}
