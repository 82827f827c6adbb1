/** The refill handlers as they run, proved to do to the tables what Refills.dfy says. */
module RefillStore {
  import opened Base
  import opened Usage
  import opened Refills

  /** The users of a set as a list, in some order. */
  method Listed(users: set<UserId>) returns (list: seq<UserId>)
    ensures NoDuplicates(list)
    ensures forall u :: u in list <==> u in users
  {
    list := [];
    var todo := users;
    while todo != {}
      invariant todo <= users && NoDuplicates(list)
      invariant forall u :: u in list <==> u in users && u !in todo
      decreases |todo|
    {
      var u :| u in todo;
      todo := todo - {u};
      list := list + [u];
    }
  }

  class RefillBoard {
    var rows: map<RefillId, Refill>
    var keys: map<(Date, GroupId), RefillId>
    var active: map<(Date, GroupId), set<UserId>>
    const usage: UsageTable

    ghost function Tables(): Board
      reads this, usage
    {
      Board(rows, keys, active, usage.rows)
    }

    constructor (table: UsageTable)
      ensures usage == table && Tables() == Board(map[], map[], map[], table.rows)
    {
      rows, keys, active := map[], map[], map[];
      usage := table;
    }

    method MarkGroupActiveUsers(date: Date, group: GroupId, users: set<UserId>)
      modifies `active
      ensures Tables() == MarkActive(old(Tables()), (date, group), users)
    {
      if users == {} {
        return;
      }
      var known := if (date, group) in active then active[(date, group)] else {};
      active := active[(date, group) := known + users];
    }

    /** Ends a vote whose time is over; returns whether it did. */
    method ExpireIfNeeded(id: RefillId, now: int) returns (expired: bool)
      requires id in rows
      modifies `rows, `keys
      ensures Tables() == Refills.ExpireIfNeeded(old(Tables()), id, now)
      ensures expired <==> Lapsed(old(rows)[id], now)
    {
      var row := rows[id];
      if row.status != Voting || row.expires > now {
        return false;
      }
      row := row.(status := Expired);
      keys := keys - {KeyOf(row)};
      rows := rows[id := row];
      return true;
    }

    method CountSuccesses(k: (Date, GroupId)) returns (n: nat)
      ensures n == |Successes(rows, k)|
    {
      var succeeded := set id | id in rows && KeyOf(rows[id]) == k && rows[id].status == Succeeded;
      assert succeeded == Successes(rows, k);
      n := |succeeded|;
    }

    /** Freezes the threshold and opens a request; a key conflict rolls the expiry back as well. */
    method PrepareRefill(call: Call, seen: bool, unused: RefillId) returns (reply: PrepareReply)
      requires forall k :: k in keys ==> keys[k] in rows
      modifies `rows, `keys
      ensures (Tables(), reply) == Refills.Prepare(old(Tables()), call, seen, unused)
    {
      hide Threshold, Successes;
      var k := (call.date, call.group);
      if seen && k in keys {
        var id := keys[k];
        var expired := ExpireIfNeeded(id, call.now);
        if k in keys {
          return Existing(keys[k]);
        }
      }
      var users := if k in active then active[k] else {};
      if call.eligible.Some? {
        users := users * call.eligible.value;
      }
      if |users| < 3 {
        return TooFewActive;
      }
      if k in keys {
        return KeyTaken;
      }
      var n := CountSuccesses(k);
      var (ratio, votes) := Threshold(call.capped, |users|, n);
      rows := rows[unused := Refill.Refill(call.date, call.group, 0, call.capped, |users|, ratio, votes, n, Voting, {},
                                           call.now + TTL)];
      keys := keys[k := unused];
      return Opened;
    }

    method GetActiveRefill(date: Date, group: GroupId, now: int) returns (found: Option<RefillId>)
      requires forall k :: k in keys ==> keys[k] in rows
      modifies `rows, `keys
      ensures Tables() == Refills.Next(old(Tables()), LookStep((date, group), now))
      ensures found == var k := (date, group);
        if k in old(keys) && old(rows)[old(keys)[k]].status == Voting && now < old(rows)[old(keys)[k]].expires
        then Some(old(keys)[k]) else None
    {
      if (date, group) !in keys {
        return None;
      }
      var id := keys[(date, group)];
      var expired := ExpireIfNeeded(id, now);
      found := if !expired && rows[id].status == Voting then Some(id) else None;
    }

    method BindRefillMessage(id: RefillId, message: nat, now: int) returns (ok: bool)
      modifies `rows, `keys
      ensures (Tables(), ok) == Refills.Bind(old(Tables()), id, message, now)
    {
      if id !in rows || rows[id].status != Voting {
        return false;
      }
      var expired := ExpireIfNeeded(id, now);
      if expired {
        return false;
      }
      if message == 0 || (rows[id].message != 0 && rows[id].message != message) {
        return false;
      }
      rows := rows[id := rows[id].(message := message)];
      return true;
    }

    method FailRefill(id: RefillId, message: nat) returns (ok: bool)
      modifies `rows, `keys
      ensures (Tables(), ok) == Refills.Fail(old(Tables()), id, message)
    {
      if id !in rows || rows[id].status != Voting {
        return false;
      }
      if message != 0 && rows[id].message != 0 && rows[id].message != message {
        return false;
      }
      keys := keys - {KeyOf(rows[id])};
      rows := rows[id := rows[id].(status := Failed)];
      return true;
    }

    /** Counts the vote against the users who are active now and, if it carries, fills everybody up. */
    method CompleteRefill(id: RefillId, ballot: Ballot, now: int, epoch: int) returns (result: Refills.Result)
      modifies `rows, `keys, usage
      ensures (Tables(), result) == Refills.Complete(old(Tables()), id, ballot, now, epoch)
    {
      hide ClampChargeSettings, ResetCharges;
      if id !in rows {
        return Missing;
      }
      if rows[id].status != Voting {
        return NotVoting;
      }
      if rows[id].message == 0 || ballot.message == 0 || rows[id].message != ballot.message {
        return MessageMismatch;
      }
      var expired := ExpireIfNeeded(id, now);
      if expired {
        return HasExpired;
      }
      var users := if KeyOf(rows[id]) in active then active[KeyOf(rows[id])] else {};
      var valid := ballot.voters * users - ballot.excluded;
      var managers := if ballot.weighted then valid * ballot.managers else {};
      if |valid| < MIN_VOTERS || |valid| + |managers| < rows[id].required {
        return StillPending;
      }
      var benefited := users - ballot.excluded;
      var list := Listed(benefited);
      var max := ClampChargeSettings(ballot.maxCharges, None).max;
      ghost var before := usage.rows;
      usage.ResetRoastCharges(list, max, epoch);
      assert usage.rows == FillUp(before, benefited, max, epoch);
      keys := keys - {KeyOf(rows[id])};
      rows := rows[id := rows[id].(status := Succeeded, benefited := benefited)];
      return Paid;
    }
  }
}
