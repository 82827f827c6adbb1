/** What a client is told about its charges, and what the rows keep. */
module ChargeEffects {
  import opened Base
  import opened Usage

  const HOUR: int := 3600
  const WEEK: int := 7 * 24 * HOUR

  /** A setting that is missing or 0 takes its default, one inside its range is kept, and one outside is moved to the
      nearer end: one to six charges, a minute to a week. */
  lemma SettingsAre(maxCharges: Option<int>, recoverSeconds: Option<int>)
    ensures var s := ClampChargeSettings(maxCharges, recoverSeconds);
      && (maxCharges in {None, Some(0)} ==> s.max == 2)
      && (recoverSeconds in {None, Some(0)} ==> s.recover == 8 * HOUR)
      && (maxCharges.Some? && 1 <= maxCharges.value <= 6 ==> s.max == maxCharges.value)
      && (maxCharges.Some? && maxCharges.value < 0 ==> s.max == 1)
      && (maxCharges.Some? && maxCharges.value > 6 ==> s.max == 6)
      && (recoverSeconds.Some? && 60 <= recoverSeconds.value <= WEEK ==> s.recover == recoverSeconds.value)
      && (recoverSeconds.Some? && recoverSeconds.value < 60 && recoverSeconds.value != 0 ==> s.recover == 60)
      && (recoverSeconds.Some? && recoverSeconds.value > WEEK ==> s.recover == WEEK)
  {
  }

  /** The seconds until a bucket that is not full has one more whole charge. */
  lemma NextIs(b: Bucket, now: int, s: Settings)
    requires Sane(s) && 0 < b.updated <= now && 0 <= b.charges < s.max && now - b.updated < s.recover
    ensures var v := BucketSeconds(b, now, s);
      && v / s.recover == b.charges && NextRecover(b, now, s) == s.recover - v % s.recover
  {
    var e, r := now - b.updated, s.recover;
    MulLe(b.charges + 1, s.max, r);
    assert (b.charges + 1) * r == b.charges * r + r;
    DivUnique(b.charges * r + e, r, b.charges);
    DivUnique(e, r, 0);
  }

  lemma ReplyForm(row: Option<UsageRow>, now: int, s: Settings)
    requires Sane(s) && Timely(row, now)
    ensures var (row', reply) := ConsumeRoast(row, now, s);
      && row'.charges.Some? && row'.updated.Some? && reply.max == s.max
      && reply.next == NextRecover(Bucket(row'.charges.value, row'.updated.value), now, s)
      && reply.left == row'.charges.value && reply.remaining == (if reply.allowed then 0 else reply.next)
      && row'.lastRoast == (if reply.allowed then Some(now) else if row.Some? then row.value.lastRoast else None)
  {
    hide Load, NextRecover;
    RecoverForm(Load(row, now, s), now, s);
  }

  lemma RecoverForm(b: Bucket, now: int, s: Settings)
    requires Sane(s)
    ensures 0 <= Recover(b, now, s).charges <= s.max
  {
    var u := if b.updated == 0 then now else b.updated;
    DivPos(Max(0, now - u), s.recover);
  }

  lemma TakenForm(row: Option<UsageRow>, now: int, s: Settings)
    requires Sane(s) && Timely(row, now)
    ensures var row' := ConsumeRoast(row, now, s).0;
      && row'.charges.Some? && row'.updated.Some? && 0 < row'.updated.value <= now
      && 0 <= row'.charges.value < s.max && now - row'.updated.value < s.recover
  {
    hide Recover, Load;
    var core := Core(row, now, s);
    LoadIsCore(row, now, s);
    RecoverMeasures(core, now, s);
    RecoverForm(core, now, s);
  }

  /** The reply to a roast: the whole charges that are left, and the seconds until the next one is there. */
  lemma ReplyIs(row: Option<UsageRow>, now: int, s: Settings)
    requires Sane(s) && Timely(row, now)
    ensures var (row', reply) := ConsumeRoast(row, now, s);
      var left := Stored(Some(row'), now, s);
      && reply.max == s.max && reply.left == left / s.recover
      && reply.next == s.recover - left % s.recover
      && reply.remaining == (if reply.allowed then 0 else reply.next)
      && row'.lastRoast == (if reply.allowed then Some(now) else if row.Some? then row.value.lastRoast else None)
  {
    hide ConsumeRoast, BucketSeconds, NextRecover;
    var row' := ConsumeRoast(row, now, s).0;
    ReplyForm(row, now, s);
    TakenForm(row, now, s);
    NextIs(Bucket(row'.charges.value, row'.updated.value), now, s);
  }

  /** A force use is granted unless the row holds one of that date; the row then holds that date, and its charges and
      last roast are as before. */
  lemma ForceEffect(row: Option<UsageRow>, date: Date)
    ensures var (row', ok) := ConsumeForce(row, date);
      && (ok <==> !(row.Some? && row.value.lastForce == Some(date))) && row'.lastForce == Some(date)
      && (if row.Some? then
            row'.charges == row.value.charges && row'.updated == row.value.updated
            && row'.lastRoast == row.value.lastRoast
          else row'.charges.None? && row'.updated.None? && row'.lastRoast.None?)
  {
  }
}
