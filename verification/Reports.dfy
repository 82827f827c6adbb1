/** Delivery of the daily group report (rollpig_cloud/routers/daily_reports.py).

    One row per date and group is claimed, sent and finished under a lease.  Every write is a single
    UPDATE whose WHERE clause is evaluated on the current row while the new values were worked out
    from a row read earlier, so both operations below take that earlier row (`seen`) as well as the
    current one.  Times are microseconds; 0 stands for the blank instance, bot, message and error. */
module Reports {
  import opened Base

  type Time = int

  const SECOND: int := 1_000_000
  const CLAIM_TIMEOUT: int := 300 * SECOND
  const RETRY_DELAYS: seq<int> := [30 * SECOND, 120 * SECOND, 300 * SECOND]
  const MAX_ATTEMPTS: int := 4
  const DEADLINE_EXCEEDED: nat := 1
  const ATTEMPTS_EXHAUSTED: nat := 2

  datatype Status = Pending | Claimed | Sending | Sent | Uncertain | Skipped | Failed

  datatype Row = Row(date: Date, cutoff: Time, status: Status, instance: nat, bot: BotId, token: Option<Token>,
                     claimedAt: Option<Time>, attempts: nat, nextAttempt: Option<Time>, sentAt: Option<Time>,
                     message: nat, error: nat)

  datatype ClaimRequest = ClaimRequest(instance: nat, bot: BotId, now: Time)

  datatype Action = ToSending | ToSent | Release | Retry | ToUncertain | Skip
  datatype MoveRequest = MoveRequest(token: Token, action: Action, message: nat, error: nat, now: Time)
  datatype MoveReply = MoveReply(ok: bool, status: Status, attempts: nat, nextAttempt: Option<Time>)

  function NewRow(date: Date, cutoff: Time): Row {
    Row(date, cutoff, Pending, 0, 0, None, None, 0, None, None, 0, 0)
  }

  /** 00:10 of the next day in UTC+8, as UTC. */
  function RetryDeadline(date: Date): Time {
    ((date + 1) * 86400 + 600 - 8 * 3600) * SECOND
  }

  // ---------------------------------------------------------------- claiming

  predicate Due(row: Row, now: Time) {
    row.status == Pending && row.cutoff <= now && (row.nextAttempt.None? || row.nextAttempt.value <= now)
  }

  predicate Stale(row: Row, now: Time) {
    row.status == Claimed && (row.claimedAt.None? || row.claimedAt.value < now - CLAIM_TIMEOUT)
  }

  predicate OwnLease(row: Row, req: ClaimRequest) {
    && row.status == Claimed && row.token.Some?
    && row.claimedAt.Some? && row.claimedAt.value >= req.now - CLAIM_TIMEOUT
    && row.instance == req.instance && row.bot == req.bot
  }

  datatype Plan = Leave | ReturnLease | Fail(reason: nat) | Take

  /** What a claim decides to do about the row it read. */
  function ClaimPlan(seen: Row, req: ClaimRequest): Plan {
    if req.now >= RetryDeadline(seen.date) && seen.status in {Pending, Claimed} then Fail(DEADLINE_EXCEEDED)
    else if OwnLease(seen, req) then ReturnLease
    else if !Due(seen, req.now) && !Stale(seen, req.now) then Leave
    else if seen.attempts >= MAX_ATTEMPTS then Fail(ATTEMPTS_EXHAUSTED)
    else Take
  }

  /** The row after an UPDATE and whether it hit. */
  datatype Write = Write(row: Row, hit: bool)

  function FailIfUnchanged(seen: Row, current: Row, reason: nat): Write {
    if seen.status in {Pending, Claimed} && current.status == seen.status && current.token == seen.token
       && current.attempts == seen.attempts then
      Write(current.(status := Failed, nextAttempt := None, error := if seen.error != 0 then seen.error else reason,
                     token := None, claimedAt := None, instance := 0, bot := 0), true)
    else Write(current, false)
  }

  function TakeIfFree(seen: Row, current: Row, req: ClaimRequest, token: Token): Write {
    if current.attempts == seen.attempts && (Due(current, req.now) || Stale(current, req.now)) then
      Write(current.(status := Claimed, instance := req.instance, bot := req.bot, token := Some(token),
                     claimedAt := Some(req.now), attempts := seen.attempts + 1, nextAttempt := None), true)
    else Write(current, false)
  }

  function Claim(seen: Row, current: Row, req: ClaimRequest, token: Token): Write {
    match ClaimPlan(seen, req)
    case Leave => Write(current, false)
    case ReturnLease => Write(current, false)
    case Fail(reason) => FailIfUnchanged(seen, current, reason)
    case Take => TakeIfFree(seen, current, req, token)
  }

  // ---------------------------------------------------------------- moving on

  function Allowed(action: Action): set<Status> {
    match action
    case ToSending => {Claimed, Sending}
    case ToSent => {Sending, Sent}
    case Release => {Claimed}
    case Retry => {Sending}
    case ToUncertain => {Sending, Uncertain}
    case Skip => {Claimed, Skipped}
  }

  /** When a released or refused delivery may be tried again; None when it never may. */
  function RetryAt(date: Date, attempts: nat, now: Time): Option<Time> {
    var index := Max(0, attempts - 1);
    if index >= |RETRY_DELAYS| then None
    else if now + RETRY_DELAYS[index] >= RetryDeadline(date) then None
    else Some(now + RETRY_DELAYS[index])
  }

  /** The new values, worked out from the row that was read and applied to the current one. */
  function MoveValues(seen: Row, current: Row, req: MoveRequest): Row {
    var row := current.(error := req.error);
    match req.action
    case ToSending => row.(status := Sending, nextAttempt := None)
    case ToSent => row.(status := Sent, nextAttempt := None,
                        sentAt := if current.sentAt.Some? then current.sentAt else Some(req.now),
                        message := if req.message != 0 then req.message else current.message)
    case ToUncertain => row.(status := Uncertain, nextAttempt := None)
    case Skip => row.(status := Skipped, nextAttempt := None)
    case _ =>
      var again := RetryAt(seen.date, seen.attempts, req.now);
      row.(status := if again.Some? then Pending else Failed, nextAttempt := again,
           token := None, claimedAt := None, instance := 0, bot := 0)
  }

  function Report(ok: bool, row: Row): MoveReply {
    MoveReply(ok, row.status, row.attempts, row.nextAttempt)
  }

  predicate TooLate(seen: Row, req: MoveRequest) {
    req.action == ToSending && seen.status == Claimed && req.now >= RetryDeadline(seen.date)
  }

  function Move(seen: Row, current: Row, req: MoveRequest): (Write, MoveReply) {
    if seen.token != Some(req.token) then (Write(current, false), Report(false, seen))
    else if TooLate(seen, req) then
      var w := FailIfUnchanged(seen, current, DEADLINE_EXCEEDED);
      (w, Report(false, w.row))
    else if seen.status !in Allowed(req.action) then (Write(current, false), Report(false, seen))
    else if current.token == Some(req.token) && current.status in Allowed(req.action)
            && current.attempts == seen.attempts then
      var values := MoveValues(seen, seen, req);
      (Write(MoveValues(seen, current, req), true), MoveReply(true, values.status, seen.attempts, values.nextAttempt))
    else (Write(current, false), Report(false, current))
  }

  // ---------------------------------------------------------------- how a row may change

  predicate RowOk(row: Row) {
    && row.attempts <= MAX_ATTEMPTS
    && (row.status == Pending ==> row.attempts < MAX_ATTEMPTS && row.token.None?)
    && (row.status in {Claimed, Sending} ==> 1 <= row.attempts)
    && (row.status == Claimed ==> row.token.Some? && row.claimedAt.Some?)
  }

  /** Status changes a row can still make. */
  function Fuel(row: Row): int {
    match row.status
    case Pending => 3 * (MAX_ATTEMPTS - row.attempts)
    case Claimed => 3 * (MAX_ATTEMPTS - row.attempts) + 2
    case Sending => 3 * (MAX_ATTEMPTS - row.attempts) + 1
    case _ => 0
  }

  /** Times a row can still start sending. */
  function Shots(row: Row): int {
    match row.status
    case Pending => MAX_ATTEMPTS - row.attempts
    case Claimed => MAX_ATTEMPTS - row.attempts + 1
    case Sending => MAX_ATTEMPTS - row.attempts
    case _ => 0
  }

  /** A row either keeps its status, attempt and token, or burns fuel; a waiting or leased row that
      burns none has not changed at all. */
  ghost predicate Evolves(a: Row, b: Row) {
    && a.date == b.date && a.cutoff == b.cutoff
    && (|| a == b
        || Fuel(b) < Fuel(a)
        || (a.status == b.status && a.status !in {Pending, Claimed} && a.attempts == b.attempts && a.token == b.token))
  }

  lemma EvolvesRefl(a: Row)
    ensures Evolves(a, a)
  {
  }

  lemma EvolvesTransitive(a: Row, b: Row, c: Row)
    requires Evolves(a, b) && Evolves(b, c)
    ensures Evolves(a, c)
  {
  }

  /** No write is undone behind a reader's back: a waiting or leased row that looks the same is the same. */
  lemma NoAba(seen: Row, current: Row)
    requires Evolves(seen, current) && seen.status in {Pending, Claimed}
    requires current.status == seen.status && current.attempts == seen.attempts
    ensures current == seen
  {
  }

  lemma ClaimEvolves(seen: Row, current: Row, req: ClaimRequest, token: Token)
    requires RowOk(current) && Evolves(seen, current)
    ensures var w := Claim(seen, current, req, token);
      && RowOk(w.row) && Evolves(current, w.row)
      && (w.hit ==> Fuel(w.row) < Fuel(current)) && (!w.hit ==> w.row == current)
  {
  }

  lemma MoveEvolves(seen: Row, current: Row, req: MoveRequest)
    requires RowOk(current) && Evolves(seen, current)
    ensures var w := Move(seen, current, req).0;
      && RowOk(w.row) && Evolves(current, w.row)
      && (w.row.status != current.status ==> Fuel(w.row) < Fuel(current)) && (!w.hit ==> w.row == current)
  {
  }

  // ---------------------------------------------------------------- stale reads are harmless

  /** A claim that hits has exactly the effect of a claim that read the row at that very moment. */
  lemma ClaimIsAtomic(seen: Row, current: Row, req: ClaimRequest, token: Token)
    requires RowOk(seen) && RowOk(current) && Evolves(seen, current)
    ensures var w := Claim(seen, current, req, token);
      if w.hit then w == Claim(current, current, req, token) && ClaimPlan(current, req) == ClaimPlan(seen, req)
      else w.row == current
  {
  }

  /** A transition that hits has exactly the effect, and gives exactly the answer, of one that read the
      row at that very moment; one that misses changes nothing and is not confirmed. */
  lemma MoveIsAtomic(seen: Row, current: Row, req: MoveRequest)
    requires RowOk(seen) && RowOk(current) && Evolves(seen, current)
    ensures var (w, reply) := Move(seen, current, req);
      if w.hit then Move(current, current, req) == (w, reply)
      else w.row == current && !reply.ok
  {
  }

  // ---------------------------------------------------------------- whole histories of a row

  /** One request against the row; `read` is the moment of the row it had read. */
  datatype Event = ClaimEvent(read: nat, claim: ClaimRequest, issued: Token) | MoveEvent(read: nat, move: MoveRequest)

  function Update(seen: Row, current: Row, e: Event): Write {
    match e
    case ClaimEvent(_, req, token) => Claim(seen, current, req, token)
    case MoveEvent(_, req) => Move(seen, current, req).0
  }

  /** States of one row under any requests, each of which may have read any earlier state. */
  ghost predicate History(h: seq<Row>, es: seq<Event>) {
    && |h| == |es| + 1 && RowOk(h[0])
    && forall i :: 0 <= i < |es| ==> es[i].read <= i && h[i + 1] == Update(h[es[i].read], h[i], es[i]).row
  }

  lemma {:induction false} HistoryEvolves(h: seq<Row>, es: seq<Event>, i: nat, j: nat)
    requires History(h, es) && i <= j < |h|
    ensures RowOk(h[i]) && RowOk(h[j]) && Evolves(h[i], h[j])
    decreases j, i
  {
    hide RowOk, Evolves, Claim, Move;
    if j > 0 {
      if i < j {
        HistoryEvolves(h, es, i, j - 1);
        var r := es[j - 1].read;
        HistoryEvolves(h, es, r, j - 1);
        if es[j - 1].ClaimEvent? {
          ClaimEvolves(h[r], h[j - 1], es[j - 1].claim, es[j - 1].issued);
        } else {
          MoveEvolves(h[r], h[j - 1], es[j - 1].move);
        }
        EvolvesTransitive(h[i], h[j - 1], h[j]);
      } else if i > 0 {
        HistoryEvolves(h, es, i - 1, j);
        EvolvesRefl(h[j]);
      }
    } else {
      EvolvesRefl(h[0]);
    }
  }

  /** Stale-read linearizability: in every history each UPDATE that hits is the atomic operation on the
      row of that moment, answer included, and each one that misses changes nothing. */
  lemma HistoryIsAtomic(h: seq<Row>, es: seq<Event>, i: nat)
    requires History(h, es) && i < |es|
    ensures var e, seen := es[i], h[es[i].read];
      if Update(seen, h[i], e).hit then
        && h[i + 1] == Update(h[i], h[i], e).row
        && (e.ClaimEvent? ==> ClaimPlan(seen, e.claim) == ClaimPlan(h[i], e.claim))
        && (e.MoveEvent? ==> Move(seen, h[i], e.move).1 == Move(h[i], h[i], e.move).1)
      else h[i + 1] == h[i] && (e.MoveEvent? ==> !Move(seen, h[i], e.move).1.ok)
  {
    HistoryEvolves(h, es, es[i].read, i);
    if es[i].ClaimEvent? {
      ClaimIsAtomic(h[es[i].read], h[i], es[i].claim, es[i].issued);
    } else {
      MoveIsAtomic(h[es[i].read], h[i], es[i].move);
    }
  }

  function StatusChanges(h: seq<Row>): nat {
    if |h| <= 1 then 0 else StatusChanges(h[1..]) + if h[0].status != h[1].status then 1 else 0
  }

  function SendStarts(h: seq<Row>): nat {
    if |h| <= 1 then 0 else SendStarts(h[1..]) + if h[0].status != Sending && h[1].status == Sending then 1 else 0
  }

  lemma {:induction false} FuelIsSpent(h: seq<Row>)
    requires |h| > 0 && forall i :: 0 <= i < |h| ==> RowOk(h[i])
    requires forall i :: 0 <= i < |h| - 1 ==> Evolves(h[i], h[i + 1])
    ensures StatusChanges(h) <= Fuel(h[0])
  {
    if |h| > 1 {
      assert forall i :: 0 <= i < |h[1..]| ==> h[1..][i] == h[i + 1];
      FuelIsSpent(h[1..]);
      assert Evolves(h[0], h[1]);
    }
  }

  lemma {:induction false} ShotsAreSpent(h: seq<Row>, es: seq<Event>, n: nat)
    requires History(h, es) && n < |h|
    ensures SendStarts(h[n..]) <= Shots(h[n])
    decreases |h| - n
  {
    HistoryEvolves(h, es, 0, n);
    if n + 1 < |h| {
      ShotsAreSpent(h, es, n + 1);
      HistoryIsAtomic(h, es, n);
      HistoryEvolves(h, es, n, n + 1);
      assert h[n..][1..] == h[n + 1..];
      assert h[n..][1] == h[n + 1];
    }
  }

  /** Every delivery terminates: at most twelve status changes and at most four starts of sending. */
  lemma DeliveryTerminates(h: seq<Row>, es: seq<Event>, date: Date, cutoff: Time)
    requires History(h, es) && h[0] == NewRow(date, cutoff)
    ensures StatusChanges(h) <= 12
    ensures SendStarts(h) <= 4
  {
    forall i | 0 <= i < |h|
      ensures RowOk(h[i]) && (i < |h| - 1 ==> Evolves(h[i], h[i + 1]))
    {
      HistoryEvolves(h, es, i, if i < |h| - 1 then i + 1 else i);
    }
    FuelIsSpent(h);
    ShotsAreSpent(h, es, 0);
    assert h[0..] == h;
  }

  /** Sending starts only by the holder of the lease and only before the deadline, and once it has
      started only the holder can end it: no claim, fresh or stale, ever takes the row back. */
  lemma SendingIsTheHolders(h: seq<Row>, es: seq<Event>, i: nat)
    requires History(h, es) && i < |es|
    ensures h[i].status != Sending && h[i + 1].status == Sending ==>
      && h[i].status == Claimed && es[i].MoveEvent? && es[i].move.action == ToSending
      && h[i].token == Some(es[i].move.token) && es[i].move.now < RetryDeadline(h[i].date)
    ensures h[i].status == Sending && h[i + 1] != h[i] ==>
      && es[i].MoveEvent? && h[i].token == Some(es[i].move.token)
      && (h[i + 1].status == Pending ==> es[i].move.action == Retry)
  {
    HistoryIsAtomic(h, es, i);
  }

  /** What may happen to a leased row without its holder: claims inside the lease and before the
      deadline, and transitions with other tokens. */
  ghost predicate Undisturbed(e: Event, lease: Row) {
    match e
    case ClaimEvent(_, req, _) =>
      lease.claimedAt.Some? && req.now <= lease.claimedAt.value + CLAIM_TIMEOUT && req.now < RetryDeadline(lease.date)
    case MoveEvent(_, req) => lease.token != Some(req.token)
  }

  /** A holder that acts within five minutes and before the deadline still owns the row, whatever the
      others tried meanwhile, and its request to start sending succeeds. */
  lemma {:induction false} LeaseHolds(h: seq<Row>, es: seq<Event>, i: nat, j: nat, r: nat, req: MoveRequest)
    requires History(h, es) && i <= r <= j < |h|
    requires h[i].status == Claimed && forall k :: i <= k < j ==> Undisturbed(es[k], h[i])
    requires h[i].token == Some(req.token) && req.action == ToSending && req.now < RetryDeadline(h[i].date)
    ensures forall k :: i <= k <= j ==> h[k] == h[i]
    ensures Move(h[r], h[j], req).1.ok && Move(h[r], h[j], req).0.row.status == Sending
    decreases j
  {
    if i < j {
      LeaseHolds(h, es, i, j - 1, if r < j then r else i, req);
      HistoryIsAtomic(h, es, j - 1);
      assert Undisturbed(es[j - 1], h[i]);
    }
    HistoryEvolves(h, es, i, j);
  }

  // ---------------------------------------------------------------- claiming a batch of groups

  /** The groups one instance asks for, each with the bot that would send its report. */
  datatype Batch = Batch(date: Date, cutoff: Time, instance: nat, bots: map<GroupId, BotId>, now: Time)

  function RequestFor(batch: Batch, g: GroupId): ClaimRequest
    requires g in batch.bots
  {
    ClaimRequest(batch.instance, batch.bots[g], batch.now)
  }

  function Present(rows: map<GroupId, Row>, batch: Batch, g: GroupId): Row {
    if g in rows then rows[g] else NewRow(batch.date, batch.cutoff)
  }

  /** The row of one group after a batch that nobody interferes with. */
  function ClaimOne(rows: map<GroupId, Row>, batch: Batch, tokens: map<GroupId, Token>, g: GroupId): Row
    requires batch.bots.Keys <= tokens.Keys
  {
    var row := Present(rows, batch, g);
    if g in batch.bots then Claim(row, row, RequestFor(batch, g), tokens[g]).row else row
  }

  /** The table after such a batch. */
  function ClaimAll(rows: map<GroupId, Row>, batch: Batch, tokens: map<GroupId, Token>): (after: map<GroupId, Row>)
    requires batch.bots.Keys <= tokens.Keys
  {
    map g | g in rows.Keys + batch.bots.Keys :: ClaimOne(rows, batch, tokens, g)
  }

  /** The groups whose lease the batch hands out. */
  function Returned(rows: map<GroupId, Row>, batch: Batch): set<GroupId> {
    set g | g in batch.bots && HandsOut(Present(rows, batch, g), RequestFor(batch, g))
  }

  /** When a row may be worth claiming again, seen by a requester that holds the tokens `mine`. */
  function WakeUp(row: Row, mine: set<Token>, now: Time): Option<Time> {
    var at :=
      if row.status == Pending then
        Some(Max(row.cutoff, if row.nextAttempt.Some? then row.nextAttempt.value else row.cutoff))
      else if row.status == Claimed && !(row.token.Some? && row.token.value in mine) then
        Some((if row.claimedAt.Some? then row.claimedAt.value else now) + CLAIM_TIMEOUT)
      else None;
    if at.Some? && at.value < RetryDeadline(row.date) then at else None
  }

  ghost predicate IsNextClaim(rows: map<GroupId, Row>, batch: Batch, mine: set<Token>, next: Option<Time>)
    requires batch.bots.Keys <= rows.Keys
  {
    && (forall g :: g in batch.bots && WakeUp(rows[g], mine, batch.now).Some? ==>
          next.Some? && next.value <= WakeUp(rows[g], mine, batch.now).value)
    && (next.Some? ==> exists g :: g in batch.bots && WakeUp(rows[g], mine, batch.now) == next)
  }

  ghost predicate TableOk(rows: map<GroupId, Row>, date: Date) {
    && (forall g :: g in rows ==> RowOk(rows[g]) && rows[g].date == date)
    && (forall g, k :: g in rows && k in rows && g != k && rows[g].token.Some? ==> rows[g].token != rows[k].token)
  }

  /** Tokens of the leases a batch has just handed out. */
  function Mine(after: map<GroupId, Row>, returned: set<GroupId>): set<Token> {
    set g | g in returned && g in after && after[g].token.Some? :: after[g].token.value
  }

  /** Tokens come from an unused supply. */
  ghost predicate FreshTokens(rows: map<GroupId, Row>, tokens: map<GroupId, Token>) {
    && (forall g, k :: g in tokens && k in tokens && g != k ==> tokens[g] != tokens[k])
    && (forall g, k :: g in tokens && k in rows ==> rows[k].token != Some(tokens[g]))
  }

  lemma ClaimKeepsRow(row: Row, req: ClaimRequest, token: Token)
    requires RowOk(row)
    ensures var after := Claim(row, row, req, token).row;
      RowOk(after) && after.date == row.date && after.token in {row.token, Some(token), None}
  {
    ClaimEvolves(row, row, req, token);
  }

  lemma ClaimKeepsTable(rows: map<GroupId, Row>, batch: Batch, tokens: map<GroupId, Token>)
    requires batch.bots.Keys <= tokens.Keys && FreshTokens(rows, tokens) && TableOk(rows, batch.date)
    ensures TableOk(ClaimAll(rows, batch, tokens), batch.date)
  {
    hide Claim, RowOk, Evolves;
    var after := ClaimAll(rows, batch, tokens);
    forall g | g in after
      ensures RowOk(after[g]) && after[g].date == batch.date
      ensures after[g].token.Some? ==>
        (g in rows && after[g].token == rows[g].token) || (g in tokens && after[g].token == Some(tokens[g]))
    {
      PresentOk(rows, batch, g);
      if g in batch.bots {
        ClaimKeepsRow(Present(rows, batch, g), RequestFor(batch, g), tokens[g]);
      }
    }
  }

  predicate HandsOut(row: Row, req: ClaimRequest) {
    ClaimPlan(row, req) in {Plan.ReturnLease, Plan.Take}
  }

  /** A claim has `todo` still to go. */
  ghost predicate Partway(before: map<GroupId, Row>, rows: map<GroupId, Row>, items: map<GroupId, Row>,
                          todo: set<GroupId>, batch: Batch, tokens: map<GroupId, Token>)
    requires batch.bots.Keys <= tokens.Keys
  {
    && rows.Keys == before.Keys && todo <= batch.bots.Keys <= rows.Keys && items.Keys == Returned(before, batch) - todo
    && (forall g :: g in rows ==> rows[g] == if g in todo then before[g] else ClaimOne(before, batch, tokens, g))
    && (forall g :: g in items ==> items[g] == rows[g])
  }

  lemma NoneClaimed(rows: map<GroupId, Row>, batch: Batch, tokens: map<GroupId, Token>)
    requires batch.bots.Keys <= tokens.Keys && batch.bots.Keys <= rows.Keys
    ensures Partway(rows, rows, map[], batch.bots.Keys, batch, tokens)
  {
    hide Claim, HandsOut;
  }

  lemma OneClaimed(before: map<GroupId, Row>, rows: map<GroupId, Row>, items: map<GroupId, Row>, todo: set<GroupId>,
                   batch: Batch, tokens: map<GroupId, Token>, g: GroupId)
    requires batch.bots.Keys <= tokens.Keys && Partway(before, rows, items, todo, batch, tokens) && g in todo
    ensures g in rows
    ensures var req := RequestFor(batch, g);
      var row := Claim(rows[g], rows[g], req, tokens[g]).row;
      Partway(before, rows[g := row], if HandsOut(rows[g], req) then items[g := row] else items, todo - {g},
              batch, tokens)
  {
    hide Claim, HandsOut;
  }

  lemma AllClaimed(before: map<GroupId, Row>, rows: map<GroupId, Row>, items: map<GroupId, Row>, batch: Batch,
                   tokens: map<GroupId, Token>)
    requires batch.bots.Keys <= tokens.Keys && Partway(before, rows, items, {}, batch, tokens)
    ensures rows.Keys == before.Keys && items.Keys == Returned(before, batch)
    ensures forall g :: g in rows ==> rows[g] == ClaimOne(before, batch, tokens, g)
    ensures forall g :: g in items ==> items[g] == rows[g]
  {
    hide Claim, HandsOut;
  }

  /** One row: until it wakes up for the requester it is handed out only if it already was. */
  lemma SleepsUntilWakeUp(row: Row, req: ClaimRequest, token: Token, mine: set<Token>, t: Time)
    requires RowOk(row) && req.now <= t
    requires var after := Claim(row, row, req, token).row;
      && (WakeUp(after, mine, req.now).Some? ==> t < WakeUp(after, mine, req.now).value)
      && (after.token.Some? && after.token.value in mine ==> HandsOut(row, req))
    ensures HandsOut(Claim(row, row, req, token).row, req.(now := t)) ==> HandsOut(row, req)
  {
  }

  /** A token of a lease that was just handed out belongs to that group's row alone. */
  lemma MineIsReturned(after: map<GroupId, Row>, returned: set<GroupId>, date: Date, g: GroupId)
    requires TableOk(after, date) && g in after && after[g].token.Some? && after[g].token.value in Mine(after, returned)
    ensures g in returned
  {
    hide RowOk;
  }

  /** Before next_claim_at nothing new can be had: with no writes in between, the same requester is
      handed no group it was not handed already. */
  lemma NextClaimIsSound(rows: map<GroupId, Row>, batch: Batch, tokens: map<GroupId, Token>, next: Option<Time>,
                         t: Time)
    requires batch.bots.Keys <= tokens.Keys && FreshTokens(rows, tokens) && TableOk(rows, batch.date)
    requires IsNextClaim(ClaimAll(rows, batch, tokens), batch,
                         Mine(ClaimAll(rows, batch, tokens), Returned(rows, batch)), next)
    requires batch.now <= t && (next.Some? ==> t < next.value)
    ensures Returned(ClaimAll(rows, batch, tokens), batch.(now := t)) <= Returned(rows, batch)
  {
    hide Claim, WakeUp, HandsOut, RowOk, Mine;
    ClaimKeepsTable(rows, batch, tokens);
    var after, later := ClaimAll(rows, batch, tokens), batch.(now := t);
    var mine := Mine(after, Returned(rows, batch));
    forall g | g in Returned(after, later)
      ensures g in Returned(rows, batch)
    {
      var row := Present(rows, batch, g);
      PresentOk(rows, batch, g);
      if after[g].token.Some? && after[g].token.value in mine {
        MineIsReturned(after, Returned(rows, batch), batch.date, g);
      }
      assert WakeUp(after[g], mine, batch.now).Some? ==> next.Some?;
      SleepsUntilWakeUp(row, RequestFor(batch, g), tokens[g], mine, t);
    }
  }

  lemma PresentOk(rows: map<GroupId, Row>, batch: Batch, g: GroupId)
    requires TableOk(rows, batch.date)
    ensures RowOk(Present(rows, batch, g)) && Present(rows, batch, g).date == batch.date
  {
  }

  /** The row is first handed out to `req` at n if it waits, and right after n, while attempts are left and
      the deadline has not passed, if somebody else leases it. */
  ghost predicate OpensAt(row: Row, req: ClaimRequest, n: Time) {
    && n < RetryDeadline(row.date)
    && (if row.status == Pending then
          HandsOut(row, req.(now := n)) && (forall t :: t < n ==> !HandsOut(row, req.(now := t)))
        else
          row.status == Claimed &&
          (forall t :: t < RetryDeadline(row.date) ==>
             (HandsOut(row, req.(now := t)) <==> n < t && row.attempts < MAX_ATTEMPTS)))
  }

  lemma WakeUpOpens(row: Row, req: ClaimRequest, mine: set<Token>)
    requires RowOk(row) && WakeUp(row, mine, req.now).Some?
    requires row.status == Claimed ==> !(row.instance == req.instance && row.bot == req.bot)
    ensures OpensAt(row, req, WakeUp(row, mine, req.now).value)
  {
  }

  /** next_claim_at is tight: every row whose moment it is opens then.  A waiting row can be claimed at that moment, a
      foreign lease can be taken over just after it; a lease on its fourth attempt is the exception, it can only
      expire. */
  lemma NextClaimIsTight(rows: map<GroupId, Row>, batch: Batch, tokens: map<GroupId, Token>, next: Option<Time>)
    requires batch.bots.Keys <= tokens.Keys && FreshTokens(rows, tokens) && TableOk(rows, batch.date)
    requires IsNextClaim(ClaimAll(rows, batch, tokens), batch,
                         Mine(ClaimAll(rows, batch, tokens), Returned(rows, batch)), next)
    requires next.Some?
    ensures var after := ClaimAll(rows, batch, tokens);
      var mine := Mine(after, Returned(rows, batch));
      && (exists g :: g in batch.bots && WakeUp(after[g], mine, batch.now) == next)
      && (forall g :: g in batch.bots && WakeUp(after[g], mine, batch.now) == next ==>
            OpensAt(after[g], RequestFor(batch, g), next.value))
  {
    hide Claim, WakeUp, HandsOut, RowOk, OpensAt;
    ClaimKeepsTable(rows, batch, tokens);
    var after := ClaimAll(rows, batch, tokens);
    var mine := Mine(after, Returned(rows, batch));
    forall g | g in batch.bots && WakeUp(after[g], mine, batch.now) == next
      ensures OpensAt(after[g], RequestFor(batch, g), next.value)
    {
      PresentOk(rows, batch, g);
      SleeperIsForeign(after[g], mine, batch.now);
      OwnLeaseIsMine(Present(rows, batch, g), RequestFor(batch, g), tokens[g]);
      assert g in Returned(rows, batch) && after[g].token.Some? ==> after[g].token.value in mine;
      WakeUpOpens(after[g], RequestFor(batch, g), mine);
    }
  }

  /** Somebody else's lease on the fourth attempt. */
  predicate Exhausted(row: Row) {
    row.status == Claimed && row.attempts >= MAX_ATTEMPTS
  }

  /** Right after its moment a row is handed out unless it is a lease on its last attempt. */
  lemma OpenAfter(row: Row, req: ClaimRequest, n: Time)
    requires RowOk(row) && OpensAt(row, req, n) && n + 1 < RetryDeadline(row.date)
    ensures HandsOut(row, req.(now := n + 1)) <==> !Exhausted(row)
  {
  }

  /** The groups whose moment is the announced one. */
  function Announcers(after: map<GroupId, Row>, batch: Batch, mine: set<Token>, next: Option<Time>): set<GroupId>
    requires batch.bots.Keys <= after.Keys
  {
    set g | g in batch.bots && WakeUp(after[g], mine, batch.now) == next
  }

  /** Right after the announced moment, deadline permitting, a row that announced it is handed out unless it is a lease
      on its fourth attempt; so the requester gets none of them exactly when they are all such leases. */
  lemma AnnouncementIsKeptIff(rows: map<GroupId, Row>, batch: Batch, tokens: map<GroupId, Token>, next: Option<Time>)
    requires batch.bots.Keys <= tokens.Keys && FreshTokens(rows, tokens) && TableOk(rows, batch.date)
    requires IsNextClaim(ClaimAll(rows, batch, tokens), batch,
                         Mine(ClaimAll(rows, batch, tokens), Returned(rows, batch)), next)
    requires next.Some? && next.value + 1 < RetryDeadline(batch.date)
    ensures var after := ClaimAll(rows, batch, tokens);
      var announcers := Announcers(after, batch, Mine(after, Returned(rows, batch)), next);
      var handed := Returned(after, batch.(now := next.value + 1));
      && (forall g :: g in announcers ==> (g in handed <==> !Exhausted(after[g])))
      && (announcers * handed == {} <==> forall g :: g in announcers ==> Exhausted(after[g]))
  {
    hide Claim, WakeUp, HandsOut, RowOk, OpensAt, IsNextClaim, Mine;
    ClaimKeepsTable(rows, batch, tokens);
    NextClaimIsTight(rows, batch, tokens, next);
    var after := ClaimAll(rows, batch, tokens);
    var mine := Mine(after, Returned(rows, batch));
    var later := batch.(now := next.value + 1);
    var announcers, handed := Announcers(after, batch, mine, next), Returned(after, later);
    forall g | g in announcers
      ensures g in handed <==> !Exhausted(after[g])
      ensures g in announcers * handed <==> !Exhausted(after[g])
    {
      OpenAfter(after[g], RequestFor(batch, g), next.value);
      assert RequestFor(later, g) == RequestFor(batch, g).(now := next.value + 1);
    }
    assert forall g :: g in announcers * handed ==> g in announcers;
  }

  lemma SleeperIsForeign(row: Row, mine: set<Token>, now: Time)
    requires WakeUp(row, mine, now).Some?
    ensures row.status == Claimed && row.token.Some? ==> row.token.value !in mine
  {
  }

  /** A batch for one group. */
  function Alone(instance: nat, now: Time): Batch {
    Batch(0, 0, instance, map[7 := 1], now)
  }

  /** The table after a claim for one group that has a row. */
  lemma AloneClaims(row: Row, instance: nat, now: Time, token: Token)
    ensures ClaimAll(map[7 := row], Alone(instance, now), map[7 := token])
      == map[7 := Claim(row, row, ClaimRequest(instance, 1, now), token).row]
    ensures Returned(map[7 := row], Alone(instance, now)) ==
      if HandsOut(row, ClaimRequest(instance, 1, now)) then {7} else {}
  {
    hide Claim, HandsOut;
  }

  /** The same when the claim creates the row. */
  lemma AloneCreates(instance: nat, now: Time, token: Token)
    ensures ClaimAll(map[], Alone(instance, now), map[7 := token])
      == map[7 := Claim(NewRow(0, 0), NewRow(0, 0), ClaimRequest(instance, 1, now), token).row]
  {
    hide Claim, HandsOut;
  }

  /** The row under a lease that instance 1 took on attempt n at `at`. */
  function LeaseRow(at: Time, n: nat): Row {
    Row(0, 0, Claimed, 1, 1, Some(n), Some(at), n, None, None, 0, 0)
  }

  const SLOT: Time := 301 * SECOND

  /** A claim right after the lease of the attempt before has lapsed. */
  lemma NextAttempt(n: nat)
    requires 1 <= n < MAX_ATTEMPTS
    ensures var row := LeaseRow((n - 1) * SLOT, n);
      Claim(row, row, ClaimRequest(1, 1, n * SLOT), n + 1).row == LeaseRow(n * SLOT, n + 1)
  {
  }

  /** Four attempts of instance 1 lapse, each after five minutes, before the deadline. */
  function FourAttempts(): map<GroupId, Row> {
    var one := ClaimAll(map[], Alone(1, 0), map[7 := 1]);
    var two := ClaimAll(one, Alone(1, SLOT), map[7 := 2]);
    var three := ClaimAll(two, Alone(1, 2 * SLOT), map[7 := 3]);
    ClaimAll(three, Alone(1, 3 * SLOT), map[7 := 4])
  }

  lemma FourAttemptsLease()
    ensures FourAttempts() == map[7 := LeaseRow(3 * SLOT, 4)]
  {
    hide Claim, ClaimAll;
    AloneCreates(1, 0, 1);
    assert Claim(NewRow(0, 0), NewRow(0, 0), ClaimRequest(1, 1, 0), 1).row == LeaseRow(0, 1) by { FirstAttempt(); }
    AloneClaims(LeaseRow(0, 1), 1, SLOT, 2);
    NextAttempt(1);
    AloneClaims(LeaseRow(SLOT, 2), 1, 2 * SLOT, 3);
    NextAttempt(2);
    AloneClaims(LeaseRow(2 * SLOT, 3), 1, 3 * SLOT, 4);
    NextAttempt(3);
  }

  lemma FirstAttempt()
    ensures Claim(NewRow(0, 0), NewRow(0, 0), ClaimRequest(1, 1, 0), 1).row == LeaseRow(0, 1)
  {
  }

  lemma LastLease(now: Time)
    requires 3 * SLOT <= now
    ensures var row := LeaseRow(3 * SLOT, 4);
      && !HandsOut(row, ClaimRequest(2, 1, now))
      && (now == 3 * SLOT + SECOND ==> Claim(row, row, ClaimRequest(2, 1, now), 5).row == row)
      && (now < RetryDeadline(0) ==> WakeUp(row, {}, now) == Some(3 * SLOT + CLAIM_TIMEOUT))
  {
  }

  /** next_claim_at can be hollow.  After four attempts of instance 1, instance 2 asks: it is told to come back when the
      fourth lease lapses, and at no later time is there anything for it. */
  lemma NextClaimCanBeHollow(t: Time)
    requires 3 * SLOT + SECOND <= t
    ensures var batch := Alone(2, 3 * SLOT + SECOND);
      var after := ClaimAll(FourAttempts(), batch, map[7 := 5]);
      && IsNextClaim(after, batch, Mine(after, Returned(FourAttempts(), batch)), Some(3 * SLOT + CLAIM_TIMEOUT))
      && 3 * SLOT + CLAIM_TIMEOUT < RetryDeadline(0)
      && Returned(after, batch.(now := t)) == {}
  {
    hide Claim, HandsOut, WakeUp, FourAttempts, ClaimAll;
    var row, batch := LeaseRow(3 * SLOT, 4), Alone(2, 3 * SLOT + SECOND);
    FourAttemptsLease();
    LastLease(3 * SLOT + SECOND);
    LastLease(t);
    AloneClaims(row, 2, 3 * SLOT + SECOND, 5);
    AloneClaims(row, 2, t, 5);
    assert Mine(map[7 := row], {}) == {};
    assert batch.(now := t) == Alone(2, t);
    assert 7 in batch.bots && WakeUp(row, {}, batch.now) == Some(3 * SLOT + CLAIM_TIMEOUT);
  }

  /** After a claim the requester's own leases are among those it was handed. */
  lemma OwnLeaseIsMine(row: Row, req: ClaimRequest, token: Token)
    requires RowOk(row)
    ensures var after := Claim(row, row, req, token).row;
      && (HandsOut(row, req) ==> after.token.Some? && after.status == Claimed)
      && (after.status == Claimed && after.instance == req.instance && after.bot == req.bot ==> HandsOut(row, req))
  {
  }

  // ---------------------------------------------------------------- the table

  /** The daily_report_deliveries rows of one business date. */
  class DeliveryTable {
    var rows: map<GroupId, Row>

    constructor ()
      ensures rows == map[]
    {
      rows := map[];
    }

    method FailDeliveryIfUnchanged(g: GroupId, seen: Row, reason: nat) returns (hit: bool)
      requires g in rows
      modifies this
      ensures var w := FailIfUnchanged(seen, old(rows)[g], reason);
        rows == old(rows)[g := w.row] && hit == w.hit
    {
      if seen.status !in {Pending, Claimed} {
        assert rows == rows[g := rows[g]];
        return false;
      }
      var row := rows[g];
      hit := row.status == seen.status && row.token == seen.token && row.attempts == seen.attempts;
      if hit {
        row := row.(status := Failed, nextAttempt := None);
        row := row.(error := if seen.error != 0 then seen.error else reason);
        row := row.(token := None, claimedAt := None, instance := 0, bot := 0);
      }
      rows := rows[g := row];
    }

    /** One row of a claim; `seen` is the row that was read, possibly some time ago. */
    method ClaimRow(g: GroupId, seen: Row, req: ClaimRequest, token: Token) returns (item: Option<Row>)
      requires g in rows
      modifies this
      ensures rows == old(rows)[g := Claim(seen, old(rows)[g], req, token).row]
      ensures item == (match ClaimPlan(seen, req)
                       case ReturnLease => Some(seen)
                       case Take => if Claim(seen, old(rows)[g], req, token).hit then Some(rows[g]) else None
                       case _ => None)
      ensures seen == old(rows)[g] ==> item == if HandsOut(seen, req) then Some(rows[g]) else None
    {
      item := None;
      if req.now >= RetryDeadline(seen.date) && seen.status in {Pending, Claimed} {
        var _ := FailDeliveryIfUnchanged(g, seen, DEADLINE_EXCEEDED);
        return;
      }
      assert old(rows) == old(rows)[g := old(rows)[g]];
      if OwnLease(seen, req) {
        return Some(seen);
      }
      if !Due(seen, req.now) && !Stale(seen, req.now) {
        return;
      }
      if seen.attempts >= MAX_ATTEMPTS {
        var _ := FailDeliveryIfUnchanged(g, seen, ATTEMPTS_EXHAUSTED);
        return;
      }
      var row := rows[g];
      if row.attempts == seen.attempts && (Due(row, req.now) || Stale(row, req.now)) {
        row := row.(status := Claimed, instance := req.instance, bot := req.bot);
        row := row.(token := Some(token), claimedAt := Some(req.now));
        row := row.(attempts := seen.attempts + 1, nextAttempt := None);
        rows := rows[g := row];
        item := Some(row);
      }
    }

    /** A whole claim: missing rows are created, each row is read and claimed, and the moment of the next
        worthwhile claim is worked out. */
    method ClaimOnce(batch: Batch, tokens: map<GroupId, Token>) returns (items: map<GroupId, Row>, next: Option<Time>)
      requires batch.bots.Keys <= tokens.Keys
      modifies this
      ensures rows == ClaimAll(old(rows), batch, tokens)
      ensures items.Keys == Returned(old(rows), batch) && forall g :: g in items ==> items[g] == rows[g]
      ensures IsNextClaim(rows, batch, Mine(rows, Returned(old(rows), batch)), next)
    {
      rows := map g | g in rows.Keys + batch.bots.Keys :: Present(rows, batch, g);
      items := ClaimEach(batch, tokens);
      assert forall g :: g in batch.bots ==> old(Present(rows, batch, g)) == Present(old(rows), batch, g);
      assert items.Keys == Returned(old(rows), batch);
      assert rows == ClaimAll(old(rows), batch, tokens);
      var claimedTokens := set g | g in items && items[g].token.Some? :: items[g].token.value;
      assert claimedTokens == Mine(rows, items.Keys);
      next := NextClaimAt(batch, claimedTokens);
    }

    /** The loop over the rows of a claim; every candidate has its row. */
    method ClaimEach(batch: Batch, tokens: map<GroupId, Token>) returns (items: map<GroupId, Row>)
      requires batch.bots.Keys <= tokens.Keys && batch.bots.Keys <= rows.Keys
      modifies this
      ensures rows.Keys == old(rows).Keys
      ensures forall g :: g in rows ==> rows[g] == ClaimOne(old(rows), batch, tokens, g)
      ensures items.Keys == Returned(old(rows), batch) && forall g :: g in items ==> items[g] == rows[g]
    {
      hide Claim, ClaimPlan, HandsOut, ClaimOne, Returned, RequestFor, Partway;
      ghost var before := rows;
      items := map[];
      var todo := batch.bots.Keys;
      NoneClaimed(rows, batch, tokens);
      while todo != {}
        invariant todo <= batch.bots.Keys && todo <= rows.Keys && Partway(before, rows, items, todo, batch, tokens)
        decreases |todo|
      {
        var g :| g in todo;
        OneClaimed(before, rows, items, todo, batch, tokens, g);
        todo := todo - {g};
        var item := ClaimRow(g, rows[g], RequestFor(batch, g), tokens[g]);
        if item.Some? {
          items := items[g := item.value];
        }
      }
      AllClaimed(before, rows, items, batch, tokens);
    }

    method NextClaimAt(batch: Batch, mine: set<Token>) returns (next: Option<Time>)
      requires batch.bots.Keys <= rows.Keys
      ensures IsNextClaim(rows, batch, mine, next)
    {
      next := None;
      var todo := batch.bots.Keys;
      while todo != {}
        invariant todo <= batch.bots.Keys
        invariant forall g :: g in batch.bots && g !in todo && WakeUp(rows[g], mine, batch.now).Some? ==>
          next.Some? && next.value <= WakeUp(rows[g], mine, batch.now).value
        invariant next.Some? ==> exists g :: g in batch.bots && WakeUp(rows[g], mine, batch.now) == next
        decreases |todo|
      {
        var g :| g in todo;
        todo := todo - {g};
        var candidate := WakeUp(rows[g], mine, batch.now);
        if candidate.Some? && (next.None? || candidate.value < next.value) {
          next := candidate;
        }
      }
    }

    /** A transition; `seen` is the row that was read, possibly some time ago. */
    method TransitionDailyReport(g: GroupId, seen: Row, req: MoveRequest) returns (reply: MoveReply)
      requires g in rows
      modifies this
      ensures var (w, said) := Move(seen, old(rows)[g], req);
        rows == old(rows)[g := w.row] && reply == said
    {
      assert rows == rows[g := rows[g]];
      if seen.token != Some(req.token) {
        return Report(false, seen);
      }
      if req.action == ToSending && seen.status == Claimed && req.now >= RetryDeadline(seen.date) {
        var _ := FailDeliveryIfUnchanged(g, seen, DEADLINE_EXCEEDED);
        return Report(false, rows[g]);
      }
      var status, nextAttempt := seen.status, seen.nextAttempt;
      match req.action {
        case ToSending => status, nextAttempt := Sending, None;
        case ToSent => status, nextAttempt := Sent, None;
        case ToUncertain => status, nextAttempt := Uncertain, None;
        case Skip => status, nextAttempt := Skipped, None;
        case _ =>
          nextAttempt := RetryAt(seen.date, seen.attempts, req.now);
          status := if nextAttempt.Some? then Pending else Failed;
      }
      if seen.status !in Allowed(req.action) {
        return Report(false, seen);
      }
      var row := rows[g];
      if row.token != Some(req.token) || row.status !in Allowed(req.action) || row.attempts != seen.attempts {
        return Report(false, row);
      }
      row := row.(error := req.error, status := status, nextAttempt := nextAttempt);
      match req.action {
        case ToSent =>
          if row.sentAt.None? { row := row.(sentAt := Some(req.now)); }
          if req.message != 0 { row := row.(message := req.message); }
        case Release => row := row.(token := None, claimedAt := None, instance := 0, bot := 0);
        case Retry => row := row.(token := None, claimedAt := None, instance := 0, bot := 0);
        case _ =>
      }
      rows := rows[g := row];
      return MoveReply(true, status, seen.attempts, nextAttempt);
    }
  }
}
