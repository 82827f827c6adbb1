/** Protection of a target inside a group on one date: rollpig_cloud/services/protections.py and the row
    edits of rollpig_cloud/routers/protections.py.

    A row collects levels from several sources.  Each source counts the break-throughs that happened after
    it was awarded, by means of its own baseline, and the highest one is in force. */
module Protections {
  import opened Base

  const MAX_LEVEL: int := 5

  /** The JSON dictionaries of the row; every source has its own optional entry. */
  datatype Sources = Sources(daily: Option<int>, manual: Option<int>, pig: Option<int>, legacy: Option<int>)
  const NOTHING: Sources := Sources(None, None, None, None)

  /** A group_protections row.  Rows from before sources were told apart have none. */
  datatype Prot = Prot(count: int, sources: Option<Sources>, baselines: Sources, baseLevel: int, days: int)

  function SourcesOf(p: Prot): Sources {
    if p.sources.Some? then p.sources.value else NOTHING.(legacy := Some(p.baseLevel))
  }

  function ValueOr(v: Option<int>, default: int): int {
    if v.Some? then v.value else default
  }

  function Grown(level: Option<int>, baseline: Option<int>, count: int): Option<int> {
    if level.None? then None else Some(Min(MAX_LEVEL, level.value + Max(0, count - ValueOr(baseline, 0))))
  }

  function LevelsOf(p: Prot): Sources {
    var s, b := SourcesOf(p), p.baselines;
    Sources(Grown(s.daily, b.daily, p.count), Grown(s.manual, b.manual, p.count),
            Grown(s.pig, b.pig, p.count), Grown(s.legacy, b.legacy, p.count))
  }

  function Higher(a: Option<int>, b: Option<int>): Option<int> {
    if a.None? then b else if b.None? then a else Some(Max(a.value, b.value))
  }

  function Highest(s: Sources): Option<int> {
    Higher(Higher(s.daily, s.manual), Higher(s.pig, s.legacy))
  }

  /** The level in force. */
  function Level(p: Prot): int {
    ValueOr(Highest(LevelsOf(p)), 0)
  }

  function InheritGlobal(global: Prot): Prot {
    var level := Level(global);
    Prot(0, Some(NOTHING.(legacy := Some(level))), NOTHING.(legacy := Some(0)), level, 0)
  }

  predicate IsHistoricalDaily(p: Prot) {
    SourcesOf(p).legacy.Some? && SourcesOf(p).daily.None? && p.days > 0
  }

  // ---------------------------------------------------------------- edits

  /** A row whose sources and baselines were edited. */
  function WithSources(p: Prot, s: Sources, b: Sources): Prot {
    p.(sources := Some(s), baselines := b, baseLevel := ValueOr(Highest(s), 0))
  }

  function Grant(row: Option<Prot>, global: Option<Prot>, level: int): Prot {
    if row.None? && global.None? then Prot(0, Some(NOTHING.(manual := Some(level))), NOTHING, level, 0)
    else
      var p := if row.Some? then row.value else InheritGlobal(global.value);
      if level > ValueOr(LevelsOf(p).manual, 0) then
        WithSources(p, SourcesOf(p).(manual := Some(level)), p.baselines.(manual := Some(p.count)))
      else WithSources(p, SourcesOf(p), p.baselines)
  }

  /** Baselines of sources that are still there. */
  function Restrict(b: Sources, s: Sources): Sources {
    Sources(if s.daily.Some? then b.daily else None, if s.manual.Some? then b.manual else None,
            if s.pig.Some? then b.pig else None, if s.legacy.Some? then b.legacy else None)
  }

  /** A row whose user is no longer on the daily list; None when nothing protects the user any more. */
  function Delist(p: Prot, global: Option<Prot>): Option<Prot> {
    var legacy := if IsHistoricalDaily(p) || global.None? then None else SourcesOf(p).legacy;
    var kept := SourcesOf(p).(daily := None, legacy := legacy);
    var inherited := if IsHistoricalDaily(p) then 0 else ValueOr(LevelsOf(p).legacy, 0);
    var renewed := global.Some? && Level(global.value) > inherited;
    var s := if renewed then kept.(legacy := Some(Level(global.value))) else kept;
    var b := if renewed then p.baselines.(legacy := Some(p.count)) else p.baselines;
    if s == NOTHING then None else Some(WithSources(p, s, Restrict(b, s)).(days := 0))
  }

  function NextDay(yesterday: Option<Prot>): int {
    if yesterday.Some? && yesterday.value.days != 0 then yesterday.value.days + 1 else 1
  }

  /** The row an enlisted user starts from: the present one, or a copy of the global one. */
  function Basis(row: Option<Prot>, global: Option<Prot>): Option<Prot> {
    if row.Some? then row else if global.Some? then Some(InheritGlobal(global.value)) else None
  }

  /** The row of a user who is on the daily list. */
  function Enlist(row: Option<Prot>, global: Option<Prot>, yesterday: Option<Prot>, initial: int): Prot {
    var p := Basis(row, global);
    if p.Some? && SourcesOf(p.value).daily.Some? then p.value
    else if p.Some? && IsHistoricalDaily(p.value) then
      var q := p.value;
      WithSources(q, SourcesOf(q).(daily := SourcesOf(q).legacy, legacy := None),
                  q.baselines.(daily := Some(ValueOr(q.baselines.legacy, 0)), legacy := None))
    else
      var days := NextDay(yesterday);
      var q := if p.Some? then p.value else Prot(0, Some(NOTHING), NOTHING, 0, 0);
      WithSources(q, SourcesOf(q).(daily := Some(Min(MAX_LEVEL, initial + days - 1))),
                  q.baselines.(daily := Some(q.count))).(days := days)
  }

  /** A success of a round against this row's target. */
  function BreakThrough(p: Prot): Prot {
    p.(count := p.count + 1)
  }

  // ---------------------------------------------------------------- what a row keeps

  predicate SourceOk(level: Option<int>, baseline: Option<int>, count: int) {
    level.Some? ==> 1 <= level.value <= MAX_LEVEL && 0 <= ValueOr(baseline, 0) <= count
  }

  /** Levels are 1 to 5, some source is there, and no baseline is ahead of the count. */
  predicate ProtOk(p: Prot) {
    var s, b := SourcesOf(p), p.baselines;
    && 0 <= p.count && 0 <= p.days && s != NOTHING
    && SourceOk(s.daily, b.daily, p.count) && SourceOk(s.manual, b.manual, p.count)
    && SourceOk(s.pig, b.pig, p.count) && SourceOk(s.legacy, b.legacy, p.count)
  }

  predicate OptionOk(row: Option<Prot>) {
    row.Some? ==> ProtOk(row.value)
  }

  lemma LevelInRange(p: Prot)
    requires ProtOk(p)
    ensures 1 <= Level(p) <= MAX_LEVEL
    ensures ValueOr(LevelsOf(p).manual, 0) <= Level(p)
  {
  }

  /** Something that happens to the row of one user in one group on one date. */
  datatype RowOp =
    | Granted(level: int, global: Option<Prot>)
    | Enlisted(global: Option<Prot>, yesterday: Option<Prot>, initial: int)
    | Delisted(global: Option<Prot>)
    | Inherited(source: Prot)
    | Broken

  function ApplyOp(row: Option<Prot>, op: RowOp): Option<Prot> {
    match op
    case Granted(level, global) => Some(Grant(row, global, level))
    case Enlisted(global, yesterday, initial) => Some(Enlist(row, global, yesterday, initial))
    case Delisted(global) => if row.Some? then Delist(row.value, global) else None
    case Inherited(global) => if row.Some? then row else Some(InheritGlobal(global))
    case Broken => if row.Some? then Some(BreakThrough(row.value)) else None
  }

  predicate OpOk(op: RowOp) {
    match op
    case Granted(level, global) => 1 <= level <= MAX_LEVEL && OptionOk(global)
    case Enlisted(global, yesterday, initial) =>
      1 <= initial <= MAX_LEVEL && OptionOk(global) && (yesterday.Some? ==> 0 <= yesterday.value.days)
    case Delisted(global) => OptionOk(global)
    case Inherited(global) => ProtOk(global)
    case Broken => true
  }

  function ApplyOps(row: Option<Prot>, ops: seq<RowOp>): Option<Prot> {
    if ops == [] then row else ApplyOp(ApplyOps(row, ops[..|ops| - 1]), ops[|ops| - 1])
  }

  function Breaks(ops: seq<RowOp>): nat {
    if ops == [] then 0 else Breaks(ops[..|ops| - 1]) + if ops[|ops| - 1].Broken? then 1 else 0
  }

  lemma GrantKeepsOk(row: Option<Prot>, global: Option<Prot>, level: int)
    requires OptionOk(row) && OptionOk(global) && 1 <= level <= MAX_LEVEL
    ensures ProtOk(Grant(row, global, level))
  {
    if global.Some? { LevelInRange(global.value); }
  }

  lemma DelistKeepsOk(p: Prot, global: Option<Prot>)
    requires ProtOk(p) && OptionOk(global)
    ensures OptionOk(Delist(p, global))
  {
    if global.Some? { LevelInRange(global.value); }
  }

  lemma EnlistKeepsOk(row: Option<Prot>, global: Option<Prot>, yesterday: Option<Prot>, initial: int)
    requires OptionOk(row) && OptionOk(global) && 1 <= initial <= MAX_LEVEL
    requires (yesterday.Some? ==> 0 <= yesterday.value.days)
    ensures ProtOk(Enlist(row, global, yesterday, initial))
  {
    if global.Some? { LevelInRange(global.value); }
  }

  lemma OpKeepsOk(row: Option<Prot>, op: RowOp)
    requires OptionOk(row) && OpOk(op)
    ensures OptionOk(ApplyOp(row, op))
  {
    match op
    case Granted(level, global) => GrantKeepsOk(row, global, level);
    case Enlisted(global, yesterday, initial) => EnlistKeepsOk(row, global, yesterday, initial);
    case Delisted(global) => if row.Some? { DelistKeepsOk(row.value, global); }
    case Inherited(global) => LevelInRange(global);
    case Broken =>
  }

  // ---------------------------------------------------------------- the floor set by a grant

  lemma HighestReplaced(s: Sources, level: int)
    requires level > ValueOr(s.manual, 0) && 0 < level
    ensures ValueOr(Highest(s.(manual := Some(level))), 0) == Max(ValueOr(Highest(s), 0), level)
  {
  }

  lemma GrantOverRow(p: Prot, level: int)
    requires ProtOk(p) && 1 <= level <= MAX_LEVEL
    ensures Level(Grant(Some(p), None, level)) == Max(Level(p), level)
  {
    var q := Grant(Some(p), None, level);
    if level > ValueOr(LevelsOf(p).manual, 0) {
      assert LevelsOf(q) == LevelsOf(p).(manual := Some(level));
      HighestReplaced(LevelsOf(p), level);
    } else {
      assert LevelsOf(q) == LevelsOf(p);
      LevelInRange(p);
    }
  }

  /** A grant lifts the level in force to the granted one if that is higher, and never lowers it. */
  lemma GrantIsMaximum(row: Option<Prot>, global: Option<Prot>, level: int)
    requires OptionOk(row) && OptionOk(global) && 1 <= level <= MAX_LEVEL
    ensures var before := Basis(row, global);
      Level(Grant(row, global, level)) == if before.Some? then Max(Level(before.value), level) else level
    ensures ValueOr(LevelsOf(Grant(row, global, level)).manual, 0) >= level
  {
    if global.Some? { LevelInRange(global.value); }
    var before := Basis(row, global);
    if before.Some? {
      assert Grant(row, global, level) == Grant(before, None, level);
      GrantOverRow(before.value, level);
    }
  }

  /** Nothing lowers the granted source, deletes a row that has one, or loses a break-through. */
  lemma OpKeepsGrant(p: Prot, op: RowOp)
    requires ProtOk(p) && OpOk(op) && SourcesOf(p).manual.Some?
    ensures var q := ApplyOp(Some(p), op);
      && q.Some? && SourcesOf(q.value).manual.Some?
      && LevelsOf(q.value).manual.value >= LevelsOf(p).manual.value
      && q.value.count == p.count + if op.Broken? then 1 else 0
  {
  }

  /** Protection floor: after a grant at some level the level in force is the higher of the two, and under
      any further grants, list replacements, inheritances and break-throughs of that date the row survives,
      never drops below the grant, and counts exactly its break-throughs. */
  lemma {:induction false} ProtectionFloor(row: Option<Prot>, global: Option<Prot>, level: int, ops: seq<RowOp>)
    requires OptionOk(row) && OptionOk(global) && 1 <= level <= MAX_LEVEL
    requires forall i :: 0 <= i < |ops| ==> OpOk(ops[i])
    ensures var granted := Grant(row, global, level);
      var after := ApplyOps(Some(granted), ops);
      && Level(granted) == (if Basis(row, global).Some? then Max(Level(Basis(row, global).value), level) else level)
      && after.Some? && ProtOk(after.value)
      && SourcesOf(after.value).manual.Some? && LevelsOf(after.value).manual.value >= level
      && Level(after.value) >= level
      && after.value.count == granted.count + Breaks(ops)
    decreases |ops|
  {
    GrantKeepsOk(row, global, level);
    GrantIsMaximum(row, global, level);
    if ops != [] {
      var before := ops[..|ops| - 1];
      ProtectionFloor(row, global, level, before);
      var p := ApplyOps(Some(Grant(row, global, level)), before).value;
      OpKeepsOk(Some(p), ops[|ops| - 1]);
      OpKeepsGrant(p, ops[|ops| - 1]);
      LevelInRange(ApplyOps(Some(Grant(row, global, level)), ops).value);
    }
  }

  // ---------------------------------------------------------------- replacing the daily list

  /** What replacing the list does to the row of one user. */
  function Replaced(row: Option<Prot>, listed: bool, global: Option<Prot>, yesterday: Option<Prot>,
                    initial: int): Option<Prot> {
    ApplyOp(row, if listed then Enlisted(global, yesterday, initial) else Delisted(global))
  }

  lemma RestrictTwice(b: Sources, s: Sources)
    ensures Restrict(Restrict(b, s), s) == Restrict(b, s)
  {
  }

  lemma DelistTwice(p: Prot, global: Option<Prot>)
    requires ProtOk(p) && OptionOk(global) && Delist(p, global).Some?
    ensures Delist(Delist(p, global).value, global) == Delist(p, global)
  {
    var q := Delist(p, global).value;
    RestrictTwice(p.baselines, SourcesOf(q));
    if global.Some? {
      LevelInRange(global.value);
      assert LevelsOf(q).legacy.Some? && LevelsOf(q).legacy.value >= Level(global.value);
    }
  }

  /** Replacing the same list twice is replacing it once. */
  lemma ReplaceTwiceIsOnce(row: Option<Prot>, listed: bool, global: Option<Prot>, yesterday: Option<Prot>, initial: int)
    requires OptionOk(row) && OptionOk(global)
    ensures var once := Replaced(row, listed, global, yesterday, initial);
      Replaced(once, listed, global, yesterday, initial) == once
  {
    if !listed && row.Some? && Delist(row.value, global).Some? {
      DelistTwice(row.value, global);
    }
  }

  // ---------------------------------------------------------------- award streaks

  /** The award of a user after one more operation: the initial level of the list that put them on, while they
      are on it. */
  function AwardAfter(award: Option<int>, op: RowOp): Option<int> {
    match op
    case Enlisted(_, _, initial) => if award.Some? then award else Some(initial)
    case Delisted(_) => None
    case _ => award
  }

  function Award(ops: seq<RowOp>): Option<int> {
    if ops == [] then None else AwardAfter(Award(ops[..|ops| - 1]), ops[|ops| - 1])
  }

  /** Everything that happens to the user's row on one date; its lists see the row that yesterday ended with. */
  predicate DayOk(ops: seq<RowOp>, yesterday: Option<Prot>) {
    && (forall i :: 0 <= i < |ops| ==> OpOk(ops[i]))
    && (forall i :: 0 <= i < |ops| && ops[i].Enlisted? ==> ops[i].yesterday == yesterday)
  }

  /** A row of a date that started without one: it shows the award and the number of consecutive days. */
  predicate AwardShown(row: Option<Prot>, award: Option<int>, days: int) {
    if row.None? then award.None?
    else
      && row.value.sources.Some? && ProtOk(row.value)
      && SourcesOf(row.value).daily == (if award.Some? then Some(Min(MAX_LEVEL, award.value + days - 1)) else None)
      && row.value.days == if award.Some? then days else 0
  }

  lemma AwardRead(row: Option<Prot>, award: Option<int>, days: int)
    requires AwardShown(row, award, days)
    ensures award.Some? ==>
      && row.Some? && row.value.days == days
      && SourcesOf(row.value).daily == Some(Min(MAX_LEVEL, award.value + days - 1))
    ensures award.None? && row.Some? ==> row.value.days == 0 && SourcesOf(row.value).daily.None?
  {
  }

  lemma OpShowsAward(row: Option<Prot>, op: RowOp, award: Option<int>, days: int)
    requires OpOk(op) && AwardShown(row, award, days)
    requires op.Enlisted? ==> NextDay(op.yesterday) == days
    ensures AwardShown(ApplyOp(row, op), AwardAfter(award, op), days)
  {
    OpKeepsOk(row, op);
  }

  lemma {:induction false} DayShowsAward(ops: seq<RowOp>, yesterday: Option<Prot>, n: nat)
    requires DayOk(ops, yesterday) && n <= |ops|
    ensures AwardShown(ApplyOps(None, ops[..n]), Award(ops[..n]), NextDay(yesterday))
  {
    if n > 0 {
      DayShowsAward(ops, yesterday, n - 1);
      assert ops[..n][..n - 1] == ops[..n - 1];
      OpShowsAward(ApplyOps(None, ops[..n - 1]), ops[n - 1], Award(ops[..n - 1]), NextDay(yesterday));
    }
  }

  function LastRow(days: seq<seq<RowOp>>): Option<Prot> {
    if days == [] then None else ApplyOps(None, days[|days| - 1])
  }

  /** Consecutive dates from a fresh start, each after the one before it is over. */
  predicate InDateOrder(days: seq<seq<RowOp>>) {
    forall k :: 0 <= k < |days| ==> DayOk(days[k], LastRow(days[..k]))
  }

  /** Length of the run of awarded dates that ends with the last one. */
  function RunLength(days: seq<seq<RowOp>>): nat {
    if days == [] || Award(days[|days| - 1]).None? then 0 else 1 + RunLength(days[..|days| - 1])
  }

  /** Award streaks: consecutive_days is the length of the run of awarded dates and the daily level grows with it from
      the initial level of the awarding list, whatever grants, inherited global levels, removals and re-additions
      happen in between. */
  lemma {:induction false} StreakIsRunLength(days: seq<seq<RowOp>>)
    requires InDateOrder(days)
    ensures LastRow(days).Some? ==> LastRow(days).value.days == RunLength(days)
    ensures RunLength(days) > 0 ==>
      && LastRow(days).Some?
      && SourcesOf(LastRow(days).value).daily ==
           Some(Min(MAX_LEVEL, Award(days[|days| - 1]).value + RunLength(days) - 1))
    decreases |days|
  {
    hide DayOk, AwardShown, Award;
    if days != [] {
      var before, today := days[..|days| - 1], days[|days| - 1];
      forall k | 0 <= k < |before|
        ensures DayOk(before[k], LastRow(before[..k]))
      {
        assert before[..k] == days[..k];
      }
      StreakIsRunLength(before);
      DayShowsAward(today, LastRow(before), |today|);
      assert today[..|today|] == today;
      AwardRead(LastRow(days), Award(today), NextDay(LastRow(before)));
    }
  }
}
