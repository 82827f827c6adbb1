/** What each claim and each transition does to a delivery row and answers, in terms of the row itself. */
module ReportEffects {
  import opened Base
  import opened Reports

  const MINUTE: int := 60 * 1_000_000

  /** The deadline of a business date is ten past midnight of the next day, in the time zone of the game. */
  lemma DeadlineIs(date: Date)
    ensures var t := RetryDeadline(date);
      && t % 1_000_000 == 0
      && (t / 1_000_000 + 8 * 3600) / 86400 == date + 1 && (t / 1_000_000 + 8 * 3600) % 86400 == 600
  {
    assert RetryDeadline(date) == ((date + 1) * 86400 + 600 - 8 * 3600) * 1_000_000;
  }

  /** No lease: token, lease time, instance and bot are blank. */
  predicate Unleased(row: Row) {
    row.token.None? && row.claimedAt.None? && row.instance == 0 && row.bot == 0
  }

  /** What stays when a lease is taken, given up or lost. */
  predicate SameDelivery(row: Row, row': Row) {
    row'.date == row.date && row'.cutoff == row.cutoff && row'.sentAt == row.sentAt && row'.message == row.message
  }

  /** The row waits to be claimed and may be claimed now. */
  predicate Claimable(row: Row, now: Time) {
    row.status == Pending && row.cutoff <= now && (row.nextAttempt.Some? ==> row.nextAttempt.value <= now)
  }

  /** The lease of the row is more than five minutes old. */
  predicate LeaseLost(row: Row, now: Time) {
    row.status == Claimed && (row.claimedAt.Some? ==> row.claimedAt.value + 5 * MINUTE < now)
  }

  /** What a claim does to a row that it reads as it is: it fails what is past the deadline or due a fifth time, returns
      the requester its own live lease, takes what is due or lost under a new token, and leaves everything else. */
  lemma ClaimEffect(row: Row, req: ClaimRequest, token: Token)
    requires RowOk(row)
    ensures var w := Claim(row, row, req, token);
      var open := row.status in {Pending, Claimed};
      var due := Claimable(row, req.now) || LeaseLost(row, req.now);
      var own := row.status == Claimed && row.instance == req.instance && row.bot == req.bot;
      var r := w.row;
      && r.cutoff == row.cutoff && SameDelivery(row, r)
      && (if open && (req.now >= RetryDeadline(row.date) || (due && row.attempts >= 4)) then
            && r.status == Failed && r.nextAttempt.None? && Unleased(r) && r.attempts == row.attempts
            && r.error == if row.error != 0 then row.error
                          else if req.now >= RetryDeadline(row.date) then DEADLINE_EXCEEDED else ATTEMPTS_EXHAUSTED
          else if open && due then
            && r.status == Claimed && r.token == Some(token) && r.claimedAt == Some(req.now) && r.error == row.error
            && r.instance == req.instance && r.bot == req.bot && r.attempts == row.attempts + 1 && r.nextAttempt.None?
          else r == row)
      && (HandsOut(row, req) <==> open && req.now < RetryDeadline(row.date) && (if due then row.attempts < 4 else own))
  {
  }

  // ---------------------------------------------------------------- transitions

  /** The state that an action moves a row on from; each can be confirmed again in the state it leads to, except for
      giving a lease back. */
  predicate Applies(status: Status, action: Action) {
    match action
    case ToSending => status in {Claimed, Sending}
    case ToSent => status in {Sending, Sent}
    case ToUncertain => status in {Sending, Uncertain}
    case Skip => status in {Claimed, Skipped}
    case Release => status == Claimed
    case Retry => status == Sending
  }

  /** A transition is accepted from the holder of the token in a state that it applies to; starting to send also needs
      the deadline not to have passed, and fails the delivery otherwise. */
  lemma MoveAcceptedIff(row: Row, req: MoveRequest)
    ensures var (w, reply) := Move(row, row, req);
      var late := req.action == ToSending && row.status == Claimed && req.now >= RetryDeadline(row.date);
      && (reply.ok <==> row.token == Some(req.token) && Applies(row.status, req.action) && !late)
      && reply.status == w.row.status && reply.attempts == w.row.attempts && reply.nextAttempt == w.row.nextAttempt
      && (!reply.ok ==>
            if row.token == Some(req.token) && late then
              && w.row.status == Failed && w.row.nextAttempt.None? && Unleased(w.row) && SameDelivery(row, w.row)
              && w.row.attempts == row.attempts
              && w.row.error == (if row.error != 0 then row.error else DEADLINE_EXCEEDED)
            else w.row == row)
  {
  }

  /** The wait after a failed attempt: half a minute, two minutes, five minutes, and then no more. */
  function Wait(attempt: nat): Option<Time> {
    if attempt <= 1 then Some(MINUTE / 2) else if attempt == 2 then Some(2 * MINUTE)
    else if attempt == 3 then Some(5 * MINUTE) else None
  }

  /** The retry schedule: a holder who gives a claimed delivery back, or reports that sending was refused, leaves it
      waiting for half a minute after the first attempt, two minutes after the second and five after the third, exactly
      if that lies before the deadline; otherwise, and after the fourth attempt, it has failed.  The lease is gone in
      either case. */
  lemma RetrySchedule(row: Row, req: MoveRequest)
    requires row.token == Some(req.token)
    requires (req.action == Release && row.status == Claimed) || (req.action == Retry && row.status == Sending)
    ensures var (w, reply) := Move(row, row, req);
      var wait := Wait(row.attempts);
      var again := wait.Some? && req.now + wait.value < RetryDeadline(row.date);
      && reply.ok && w.hit && Unleased(w.row) && SameDelivery(row, w.row)
      && w.row.attempts == row.attempts && w.row.error == req.error
      && w.row.status == (if again then Pending else Failed)
      && w.row.nextAttempt == (if again then Some(req.now + wait.value) else None)
  {
  }

  /** Every other accepted transition moves the row to the state it names and touches only what belongs to that: the
      moment of sending is the first one, and a message id is kept unless a new one is given. */
  lemma MoveEffect(row: Row, req: MoveRequest)
    requires Move(row, row, req).1.ok && req.action !in {Release, Retry}
    ensures var r := Move(row, row, req).0.row;
      && r.status == (match req.action
                      case ToSending => Sending
                      case ToSent => Sent
                      case ToUncertain => Uncertain
                      case _ => Skipped)
      && r.nextAttempt.None? && r.error == req.error && r.attempts == row.attempts
      && r.token == row.token && r.claimedAt == row.claimedAt && r.instance == row.instance && r.bot == row.bot
      && r.date == row.date && r.cutoff == row.cutoff
      && r.sentAt == (if req.action == ToSent && row.sentAt.None? then Some(req.now) else row.sentAt)
      && r.message == (if req.action == ToSent && req.message != 0 then req.message else row.message)
  {
  }

  // ---------------------------------------------------------------- whole claims

  /** A claim that nobody interferes with creates the rows that its groups lack, claims each of them, hands out those
      that it then holds, and leaves every other row alone. */
  lemma BatchEffect(rows: map<GroupId, Row>, batch: Batch, tokens: map<GroupId, Token>, g: GroupId)
    requires batch.bots.Keys <= tokens.Keys
    ensures var after := ClaimAll(rows, batch, tokens);
      && (g in after <==> g in rows || g in batch.bots)
      && (g in batch.bots ==>
            var row := if g in rows then rows[g]
                       else Row(batch.date, batch.cutoff, Pending, 0, 0, None, None, 0, None, None, 0, 0);
            var req := ClaimRequest(batch.instance, batch.bots[g], batch.now);
            after[g] == Claim(row, row, req, tokens[g]).row && (g in Returned(rows, batch) <==> HandsOut(row, req)))
      && (g !in batch.bots ==> g !in Returned(rows, batch) && (g in rows ==> after[g] == rows[g]))
  {
    hide Claim, HandsOut;
  }

  /** When a row may be worth asking for again: when its wait is over, or five minutes into a lease that is not one of
      the asker's own, as long as that lies before the deadline. */
  lemma WakeUpIs(row: Row, mine: set<Token>, now: Time)
    requires RowOk(row)
    ensures var waits := row.status == Pending;
      var others := row.status == Claimed && row.token.value !in mine;
      var at := if waits then (if row.nextAttempt.Some? && row.nextAttempt.value > row.cutoff then row.nextAttempt.value
                               else row.cutoff)
                else if others then row.claimedAt.value + 5 * MINUTE else 0;
      WakeUp(row, mine, now) == if (waits || others) && at < RetryDeadline(row.date) then Some(at) else None
  {
  }
}
