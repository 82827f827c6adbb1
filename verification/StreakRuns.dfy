/** Award streaks over whole runs of the service. */
module StreakRuns {
  import opened Base
  import opened Protections
  import opened Rounds
  import opened Database
  import opened DatabaseLaws
  import opened RoastSystem
  import opened RoastRuns
  import opened ProtectionRuns

  /** The user's award of the date after one more step. */
  function Relisted(award: Option<int>, step: Step, s: Slot): Option<int> {
    if !step.ReplaceStep? || !Covers(step.list, s) then award
    else if s.user !in step.list.users then None
    else if award.Some? then award
    else Some(step.list.initial)
  }

  /** Whether the user is on the date's list after the first j steps, and the initial level of the list that put
      them there. */
  function ListAward(steps: seq<Step>, j: nat, s: Slot): Option<int>
    requires j <= |steps|
  {
    if j == 0 then None else Relisted(ListAward(steps, j - 1, s), steps[j - 1], s)
  }

  /** Length of the run of awarded dates that ends with the slot's date. */
  function AwardRun(steps: seq<Step>, j: nat, s: Slot, first: Date): nat
    requires j <= |steps|
    decreases if s.date < first then 0 else s.date - first + 1
  {
    if s.date < first || ListAward(steps, j, s).None? then 0 else 1 + AwardRun(steps, j, s.(date := s.date - 1), first)
  }

  /** The lists of the group come in date order, none before the first date. */
  predicate ListsInOrder(steps: seq<Step>, group: GroupId, first: Date) {
    && (forall i :: 0 <= i < |steps| && ListsFor(steps[i], group) ==> first <= steps[i].list.date)
    && (forall i, k :: 0 <= i < k < |steps| && ListsFor(steps[i], group) && ListsFor(steps[k], group) ==>
          steps[i].list.date <= steps[k].list.date)
  }

  predicate ListsFor(step: Step, group: GroupId) {
    step.ReplaceStep? && step.list.group == group
  }

  /** The user starts without any row in the group. */
  ghost predicate FreshStart(db: Db, group: GroupId, user: UserId) {
    forall d :: Slot(d, group, user) !in db.prots
  }

  /** When the list of a date is replaced, no later date has had a list yet. */
  lemma {:induction false} LaterIsUnlisted(steps: seq<Step>, n: nat, j: nat, s: Slot, first: Date)
    requires ListsInOrder(steps, s.group, first) && n <= j < |steps| && ListsFor(steps[j], s.group)
    requires steps[j].list.date < s.date
    ensures ListAward(steps, n, s).None?
  {
    if n > 0 {
      LaterIsUnlisted(steps, n - 1, j, s, first);
      assert ListsFor(steps[n - 1], s.group) ==> steps[n - 1].list.date <= steps[j].list.date;
    }
  }

  /** A step that replaces no list of the group up to the date leaves the run of the date alone. */
  lemma {:induction false} RunStays(steps: seq<Step>, j: nat, s: Slot, first: Date)
    requires j < |steps| && (ListsFor(steps[j], s.group) ==> s.date < steps[j].list.date)
    ensures AwardRun(steps, j + 1, s, first) == AwardRun(steps, j, s, first)
    decreases if s.date < first then 0 else s.date - first + 1
  {
    if s.date >= first {
      RunStays(steps, j, s.(date := s.date - 1), first);
    }
  }

  lemma ListOpIsAward(sys: Sys, step: Step, s: Slot, award: Option<int>)
    ensures var op := RowOpOf(sys, step, s);
      Relisted(award, step, s) == if op.Some? then AwardAfter(award, op.value) else award
    ensures RowOpOf(sys, step, s).Some? && RowOpOf(sys, step, s).value.Enlisted? ==>
      ListsFor(step, s.group) && step.list.date == s.date &&
        RowOpOf(sys, step, s).value.yesterday == Yesterday(sys.db, s)
  {
    hide Database.Prepare, Breaches;
  }

  /** What yesterday's row says about the next day. */
  lemma NextDayIsRun(row: Option<Prot>, award: Option<int>, run: nat)
    requires AwardShown(row, award, run) && (award.None? ==> run == 0)
    ensures NextDay(row) == run + 1
  {
  }

  /** In every state of a run each row of the user shows the award of its date and the run of awarded dates. */
  lemma {:induction false} RowsShowAwards(states: seq<Sys>, steps: seq<Step>, j: nat, s: Slot, first: Date)
    requires Runs(states, steps) && j < |states| && ListsInOrder(steps, s.group, first)
    requires FreshStart(states[0].db, s.group, s.user)
    ensures AwardShown(Lookup(states[j].db.prots, s), ListAward(steps, j, s), AwardRun(steps, j, s, first))
    ensures ListAward(steps, j, s).Some? ==> first <= s.date
    decreases j
  {
    hide Next, Enabled, Initial, SysOk, RowOpOf, AwardShown, NextDay, AwardAfter, ListsInOrder, OpOk, ApplyOp;
    if j == 0 {
      NothingShown(AwardRun(steps, 0, s, first));
    } else {
      var sys, step, yesterday := states[j - 1], steps[j - 1], s.(date := s.date - 1);
      RowsShowAwards(states, steps, j - 1, s, first);
      RowsShowAwards(states, steps, j - 1, yesterday, first);
      RunIsOk(states, steps, j - 1);
      SysInv(sys);
      RowStep(sys, step, s);
      ListOpIsAward(sys, step, s, ListAward(steps, j - 1, s));
      if RowOpOf(sys, step, s).Some? { RowOpOk(sys, step, s); }
      StepShowsAward(steps, j - 1, s, first, Lookup(sys.db.prots, s), Lookup(sys.db.prots, yesterday),
                     RowOpOf(sys, step, s));
    }
  }

  lemma NothingShown(run: nat)
    ensures AwardShown(None, None, run)
  {
  }

  /** One step of the induction, on the row and on yesterday's row. */
  lemma StepShowsAward(steps: seq<Step>, j: nat, s: Slot, first: Date, row: Option<Prot>, yesterday: Option<Prot>,
                       op: Option<RowOp>)
    requires j < |steps| && ListsInOrder(steps, s.group, first)
    requires var award := ListAward(steps, j, s);
      && AwardShown(row, award, AwardRun(steps, j, s, first))
      && Relisted(award, steps[j], s) == (if op.Some? then AwardAfter(award, op.value) else award)
    requires var y := s.(date := s.date - 1);
      AwardShown(yesterday, ListAward(steps, j, y), AwardRun(steps, j, y, first))
    requires ListAward(steps, j, s).Some? ==> first <= s.date
    requires op.Some? ==> OpOk(op.value)
    requires op.Some? && op.value.Enlisted? ==>
      ListsFor(steps[j], s.group) && steps[j].list.date == s.date && op.value.yesterday == yesterday
    ensures AwardShown(AfterOp(row, op), ListAward(steps, j + 1, s), AwardRun(steps, j + 1, s, first))
    ensures ListAward(steps, j + 1, s).Some? ==> first <= s.date
  {
    hide AwardShown, NextDay, ApplyOp, OpOk;
    var y, award := s.(date := s.date - 1), ListAward(steps, j, s);
    if ListsFor(steps[j], s.group) && steps[j].list.date < s.date {
      LaterIsUnlisted(steps, j, j, s, first);
      UnlistedShows(row, AwardRun(steps, j, s, first), AwardRun(steps, j + 1, s, first));
      if op.Some? { OpShowsAward(row, op.value, None, AwardRun(steps, j + 1, s, first)); }
    } else if ListsFor(steps[j], s.group) && steps[j].list.date == s.date {
      RunStays(steps, j, y, first);
      var days := 1 + AwardRun(steps, j, y, first);
      if award.None? { UnlistedShows(row, AwardRun(steps, j, s, first), days); }
      NextDayIsRun(yesterday, ListAward(steps, j, y), AwardRun(steps, j, y, first));
      if op.Some? { OpShowsAward(row, op.value, award, days); }
      if ListAward(steps, j + 1, s).None? { UnlistedShows(AfterOp(row, op), days, AwardRun(steps, j + 1, s, first)); }
    } else {
      RunStays(steps, j, s, first);
      if op.Some? { OpShowsAward(row, op.value, award, AwardRun(steps, j, s, first)); }
    }
  }

  lemma UnlistedShows(row: Option<Prot>, a: int, b: int)
    requires AwardShown(row, None, a)
    ensures AwardShown(row, None, b)
  {
  }

  lemma RunOfAward(steps: seq<Step>, j: nat, s: Slot, first: Date)
    requires j <= |steps|
    ensures ListAward(steps, j, s).Some? && first <= s.date ==> AwardRun(steps, j, s, first) >= 1
  {
  }

  /** Award streaks over runs: if the lists of a group come in date order and the user starts without rows there, then
      in every state consecutive_days of a row is the length of the run of awarded dates up to its own, and its daily
      level grows with that run from the initial level of the list that awarded it, up to five; a row without an
      award counts no days and has no daily level. */
  lemma StreaksOverRuns(states: seq<Sys>, steps: seq<Step>, j: nat, s: Slot, first: Date)
    requires Runs(states, steps) && j < |states| && ListsInOrder(steps, s.group, first)
    requires FreshStart(states[0].db, s.group, s.user)
    ensures var row, award, run := Lookup(states[j].db.prots, s), ListAward(steps, j, s), AwardRun(steps, j, s, first);
      && (award.Some? ==>
            && row.Some? && run >= 1 && row.value.days == run
            && SourcesOf(row.value).daily == Some(Min(MAX_LEVEL, award.value + run - 1)))
      && (award.None? && row.Some? ==> row.value.days == 0 && SourcesOf(row.value).daily.None?)
  {
    hide Next, Enabled, Initial, AwardShown, SourcesOf, ListsInOrder, FreshStart, ListAward;
    RunOfAward(steps, j, s, first);
    RowsShowAwards(states, steps, j, s, first);
    AwardRead(Lookup(states[j].db.prots, s), ListAward(steps, j, s), AwardRun(steps, j, s, first));
  }
}
