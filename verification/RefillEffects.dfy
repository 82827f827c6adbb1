/** What each refill request does to the board and answers, in terms of the rows themselves. */
module RefillEffects {
  import opened Base
  import opened Usage
  import opened Refills

  // ---------------------------------------------------------------- thresholds

  /** The percentage of the active users that the nth request of a date needs. */
  function Percentage(capped: bool, successes: nat): nat {
    if successes == 0 then 25 else if successes == 1 then 35 else if successes == 2 then 45
    else if successes == 3 || capped then 55 else 65
  }

  /** The most votes that the nth request asks for under the capped policy. */
  function Cap(successes: nat): nat {
    if successes == 0 then 8 else if successes == 1 then 12 else if successes == 2 then 16 else 20
  }

  /** The votes needed are the least number that is at least two and covers the percentage or reaches the cap. */
  lemma ThresholdIsLeast(capped: bool, active: nat, successes: nat)
    ensures var p := Percentage(capped, successes);
      var (ratio, votes) := Threshold(capped, active, successes);
      && ratio == p && votes >= 2
      && (100 * votes >= active * p || (capped && votes >= Cap(successes)))
      && (votes > 2 ==> 100 * (votes - 1) < active * p && (capped ==> votes <= Cap(successes)))
  {
    var x := active * Percentage(capped, successes);
    assert 100 * ((x + 99) / 100) >= x && 100 * ((x + 99) / 100 - 1) < x;
  }

  // ---------------------------------------------------------------- boards

  /** The board with one row rewritten and its key freed. */
  ghost predicate Ended(b: Board, b': Board, id: RefillId, r: Refill)
    requires id in b.rows
  {
    && b'.rows == b.rows[id := r] && b'.active == b.active
    && (forall k :: k in b'.keys <==> k in b.keys && k != (b.rows[id].date, b.rows[id].group))
    && (forall k :: k in b'.keys ==> b'.keys[k] == b.keys[k])
  }

  /** A vote that is over time is ended when it is looked at; nothing else happens. */
  lemma ExpireEffect(b: Board, id: RefillId, now: int)
    ensures var b' := ExpireIfNeeded(b, id, now);
      if id in b.rows && b.rows[id].status == Voting && b.rows[id].expires <= now then
        Ended(b, b', id, b.rows[id].(status := Expired)) && b'.usage == b.usage
      else b' == b
  {
  }

  lemma MarkEffect(b: Board, k: (Date, GroupId), users: set<UserId>, j: (Date, GroupId), u: UserId)
    ensures var b' := MarkActive(b, k, users);
      && b' == b.(active := b'.active)
      && (j in b'.active && u in b'.active[j] <==> (j in b.active && u in b.active[j]) || (j == k && u in users))
  {
  }

  /** The users whom a new request counts: active that date and, if the client sent a member list, on it. */
  ghost function Electorate(b: Board, call: Call): set<UserId> {
    set u | u in (if (call.date, call.group) in b.active then b.active[(call.date, call.group)] else {})
      && (call.eligible.Some? ==> u in call.eligible.value)
  }

  /** The vote that a request would join: one that its key names and that is still in time. */
  predicate Running(b: Board, k: (Date, GroupId), now: int) {
    k in b.keys && b.keys[k] in b.rows && now < b.rows[b.keys[k]].expires
  }

  /** A new vote: its threshold is frozen and it is open for ten minutes. */
  predicate OpenedFor(call: Call, active: nat, successes: nat, r: Refill) {
    && r.date == call.date && r.group == call.group && r.message == 0 && r.capped == call.capped
    && r.active == active && r.successesBefore == successes
    && (r.ratio, r.required) == Threshold(call.capped, active, successes)
    && r.status == Voting && r.benefited == {} && r.expires == call.now + 600 * 1_000_000
  }

  ghost function SucceededBefore(b: Board, k: (Date, GroupId)): nat {
    |set id | id in b.rows && (b.rows[id].date, b.rows[id].group) == k && b.rows[id].status == Succeeded|
  }

  lemma OpenAnswer(b: Board, call: Call, seen: bool, unused: RefillId)
    requires KeysOk(b.rows, b.keys)
    ensures var k := (call.date, call.group);
      var (b', reply) := Prepare(b, call, seen, unused);
      var few := |Electorate(b, call)| < 3;
      && (reply.Existing? <==> seen && Running(b, k, call.now))
      && (reply.Existing? ==> reply.id == b.keys[k])
      && (reply == TooFewActive <==> !(seen && Running(b, k, call.now)) && few)
      && (reply == KeyTaken <==> !seen && k in b.keys && !few)
      && (reply.Existing? || reply == KeyTaken ==> b' == b)
  {
    hide Threshold, Successes;
    var k := (call.date, call.group);
    var mid := if seen && k in b.keys then ExpireIfNeeded(b, b.keys[k], call.now) else b;
    assert Counted(mid, call) == Electorate(b, call);
  }

  lemma OpenAdds(b: Board, call: Call, seen: bool, unused: RefillId)
    requires KeysOk(b.rows, b.keys)
    ensures var (b', reply) := Prepare(b, call, seen, unused);
      && b'.active == b.active && b'.usage == b.usage
      && b'.rows.Keys == b.rows.Keys + (if reply == Opened then {unused} else {})
  {
    hide Threshold, Successes, Counted;
  }

  lemma OpenedRow(b: Board, call: Call, seen: bool, unused: RefillId)
    requires KeysOk(b.rows, b.keys) && Prepare(b, call, seen, unused).1 == Opened
    ensures var b' := Prepare(b, call, seen, unused).0;
      var k := (call.date, call.group);
      && k in b'.keys && b'.keys[k] == unused && unused in b'.rows
      && OpenedFor(call, |Electorate(b, call)|, SucceededBefore(b, k), b'.rows[unused])
  {
    hide Threshold, Successes;
    var k := (call.date, call.group);
    var mid := if seen && k in b.keys then ExpireIfNeeded(b, b.keys[k], call.now) else b;
    assert Counted(mid, call) == Electorate(b, call);
    SuccessesAre(b, mid, k, if seen && k in b.keys then b.keys[k] else unused);
  }

  lemma OpenKeepsOthers(b: Board, call: Call, seen: bool, unused: RefillId, id: RefillId)
    requires KeysOk(b.rows, b.keys) && unused !in b.rows && id in b.rows
    ensures var k := (call.date, call.group);
      var b' := Prepare(b, call, seen, unused).0;
      && id in b'.rows
      && b'.rows[id] ==
           if seen && k in b.keys && id == b.keys[k] && !Running(b, k, call.now) then b.rows[id].(status := Expired)
           else b.rows[id]
  {
    hide Threshold, Successes, Counted;
  }

  /** A request joins the running vote; otherwise it opens one for ten minutes if at least three users are counted, with
      a threshold frozen from their number and the successes so far.  An overtaken request changes nothing. */
  lemma OpenEffect(b: Board, call: Call, seen: bool, unused: RefillId)
    requires BoardOk(b) && unused !in b.rows
    ensures var k := (call.date, call.group);
      var (b', reply) := Prepare(b, call, seen, unused);
      var few := |Electorate(b, call)| < 3;
      && (reply.Existing? <==> seen && Running(b, k, call.now))
      && (reply.Existing? ==> reply.id == b.keys[k])
      && (reply == TooFewActive <==> !(seen && Running(b, k, call.now)) && few)
      && (reply == KeyTaken <==> !seen && k in b.keys && !few)
      && (reply.Existing? || reply == KeyTaken ==> b' == b)
      && b'.active == b.active && b'.usage == b.usage
      && b'.rows.Keys == b.rows.Keys + (if reply == Opened then {unused} else {})
      && (reply == Opened ==>
            && k in b'.keys && b'.keys[k] == unused && unused in b'.rows
            && OpenedFor(call, |Electorate(b, call)|, SucceededBefore(b, k), b'.rows[unused]))
      && (forall id :: id in b.rows ==>
            && id in b'.rows
            && b'.rows[id] ==
                 if seen && k in b.keys && id == b.keys[k] && !Running(b, k, call.now) then
                   b.rows[id].(status := Expired)
                 else b.rows[id])
  {
    hide BoardOk, KeysOk, Prepare, OpenedFor, Electorate;
    BoardKeys(b);
    OpenAnswer(b, call, seen, unused);
    OpenAdds(b, call, seen, unused);
    if Prepare(b, call, seen, unused).1 == Opened { OpenedRow(b, call, seen, unused); }
    forall id | id in b.rows { OpenKeepsOthers(b, call, seen, unused, id); }
  }

  lemma BoardKeys(b: Board)
    requires BoardOk(b)
    ensures KeysOk(b.rows, b.keys)
  {
    hide NumberedOk, FrozenOk, KeysOk;
  }

  /** Expiring a vote changes no success. */
  lemma SuccessesAre(b: Board, mid: Board, k: (Date, GroupId), gone: RefillId)
    requires mid == b || (gone in b.rows && b.rows[gone].status == Voting
                          && mid.rows == b.rows[gone := b.rows[gone].(status := Expired)])
    ensures Successes(mid.rows, k)
      == set id | id in b.rows && (b.rows[id].date, b.rows[id].group) == k && b.rows[id].status == Succeeded
  {
  }

  // ---------------------------------------------------------------- running votes

  /** A message is bound to a running vote that is in time and has none or this one. */
  lemma BindEffect(b: Board, id: RefillId, message: nat, now: int)
    ensures var (b', ok) := Bind(b, id, message, now);
      && (ok <==> id in b.rows && b.rows[id].status == Voting && now < b.rows[id].expires
                  && message != 0 && b.rows[id].message in {0, message})
      && (ok ==> b' == b.(rows := b.rows[id := b.rows[id].(message := message)]))
      && (!ok ==> b' == if id in b.rows && b.rows[id].status == Voting && b.rows[id].expires <= now
                        then ExpireIfNeeded(b, id, now) else b)
  {
  }

  /** A running vote is given up by anybody who names no message or the one it is bound to. */
  lemma FailEffect(b: Board, id: RefillId, message: nat)
    ensures var (b', ok) := Fail(b, id, message);
      && (ok <==> id in b.rows && b.rows[id].status == Voting
                  && (message == 0 || b.rows[id].message == 0 || b.rows[id].message == message))
      && (if ok then Ended(b, b', id, b.rows[id].(status := Failed)) && b'.usage == b.usage else b' == b)
  {
  }

  /** The charges a payment fills up to: two by default, and never less than one or more than six. */
  function FillLevel(maxCharges: Option<int>): int {
    if maxCharges.None? || maxCharges.value == 0 then 2
    else if maxCharges.value < 1 then 1 else if maxCharges.value > 6 then 6 else maxCharges.value
  }

  /** What a finished refill leaves of a user's row. */
  predicate Filled(before: Option<UsageRow>, after: Option<UsageRow>, max: int, epoch: int) {
    && after.Some? && after.value.charges == Some(max) && after.value.updated == Some(epoch)
    && after.value.lastRoast == (if before.Some? then before.value.lastRoast else None)
    && after.value.lastForce == (if before.Some? then before.value.lastForce else None)
  }

  /** Everything a completion can answer, and what it changes: an overdue vote is ended, a payable one is paid, and
      otherwise nothing happens. */
  lemma CompleteEffect(b: Board, id: RefillId, ballot: Ballot, now: int, epoch: int, u: UserId)
    ensures var (b', result) := Complete(b, id, ballot, now, epoch);
      if id !in b.rows then result == Missing && b' == b
      else
        var r := b.rows[id];
        var active := if (r.date, r.group) in b.active then b.active[(r.date, r.group)] else {};
        if r.status != Voting then result == NotVoting && b' == b
        else if r.message == 0 || r.message != ballot.message then result == MessageMismatch && b' == b
        else if r.expires <= now then
          result == HasExpired && Ended(b, b', id, r.(status := Expired)) && b'.usage == b.usage
        else if !Payable(b, id, ballot, now) then result == StillPending && b' == b
        else
          && result == Paid
          && Ended(b, b', id, r.(status := Succeeded, benefited := active - ballot.excluded))
          && if u in active && u !in ballot.excluded then
               Filled(Lookup(b.usage, u), Lookup(b'.usage, u), FillLevel(ballot.maxCharges), epoch)
             else Lookup(b'.usage, u) == Lookup(b.usage, u)
  {
    hide Payable, Carried, ValidVoters;
    PaidIff(b, id, ballot, now, epoch);
  }
}
