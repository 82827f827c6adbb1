/** The level in force of a protection row, worked out from the awards it holds, and what a break-through, a grant and a
    daily list do to it. */
module ProtectionLevels {
  import opened Base
  import opened Protections

  datatype Source = Daily | Manual | Pig | Legacy

  /** An award and the count at which it was made. */
  datatype Award = Award(level: int, since: int)

  function EntryOf(s: Sources, x: Source): Option<int> {
    match x
    case Daily => s.daily
    case Manual => s.manual
    case Pig => s.pig
    case Legacy => s.legacy
  }

  /** The award of a source; a row from before sources were told apart holds its base level from the start. */
  function AwardOf(p: Prot, x: Source): Option<Award> {
    var s := if p.sources.Some? then p.sources.value else Sources(None, None, None, Some(p.baseLevel));
    if EntryOf(s, x).None? then None
    else Some(Award(EntryOf(s, x).value, if EntryOf(p.baselines, x).Some? then EntryOf(p.baselines, x).value else 0))
  }

  /** The row holds this award and no other. */
  ghost predicate HoldsOnly(p: Prot, x: Source, a: Award) {
    forall y :: AwardOf(p, y) == if y == x then Some(a) else None
  }

  /** What one source protects: its award and a level for every break-through since, at most five; 0 without an award.
      */
  function LevelFrom(p: Prot, x: Source): int {
    if AwardOf(p, x).None? then 0 else Min(5, AwardOf(p, x).value.level + (p.count - AwardOf(p, x).value.since))
  }

  lemma LevelFromIs(p: Prot, x: Source)
    requires ProtOk(p)
    ensures LevelFrom(p, x) == ValueOr(EntryOf(LevelsOf(p), x), 0)
    ensures AwardOf(p, x).Some? <==> EntryOf(SourcesOf(p), x).Some?
    ensures AwardOf(p, x).Some? <==> EntryOf(LevelsOf(p), x).Some?
    ensures AwardOf(p, x).Some? ==> 1 <= LevelFrom(p, x) <= 5
  {
  }

  lemma HighestIs(s: Sources)
    requires s != NOTHING && forall x :: EntryOf(s, x).Some? ==> 1 <= EntryOf(s, x).value
    ensures forall x :: ValueOr(EntryOf(s, x), 0) <= ValueOr(Highest(s), 0)
    ensures exists x :: EntryOf(s, x).Some? && EntryOf(s, x).value == ValueOr(Highest(s), 0)
  {
    var h := ValueOr(Highest(s), 0);
    var x := if s.daily == Some(h) then Daily else if s.manual == Some(h) then Manual else if s.pig == Some(h) then Pig
             else Legacy;
    assert EntryOf(s, x).Some? && EntryOf(s, x).value == h;
  }

  lemma LevelsThere(p: Prot)
    requires ProtOk(p)
    ensures LevelsOf(p) != NOTHING
  {
  }

  /** The level in force is that of the highest source. */
  lemma LevelIsHighest(p: Prot)
    requires ProtOk(p)
    ensures forall x :: LevelFrom(p, x) <= Level(p)
    ensures exists x :: AwardOf(p, x).Some? && Level(p) == LevelFrom(p, x)
  {
    hide ProtOk, LevelFrom, AwardOf, LevelsOf, SourcesOf, Highest, EntryOf;
    forall x { LevelFromIs(p, x); }
    LevelsThere(p);
    HighestIs(LevelsOf(p));
  }

  lemma BreakThroughOk(p: Prot)
    requires ProtOk(p)
    ensures ProtOk(BreakThrough(p)) && forall x :: AwardOf(BreakThrough(p), x) == AwardOf(p, x)
  {
  }

  lemma BreakThroughRaisesSource(p: Prot, x: Source)
    ensures AwardOf(BreakThrough(p), x) == AwardOf(p, x)
    ensures LevelFrom(BreakThrough(p), x) == if AwardOf(p, x).None? then 0 else Min(5, LevelFrom(p, x) + 1)
  {
    hide EntryOf;
  }

  /** A break-through raises every source that holds an award, and the level in force, by one, up to five. */
  lemma BreakThroughRaises(p: Prot)
    requires ProtOk(p)
    ensures Level(BreakThrough(p)) == Min(5, Level(p) + 1)
    ensures forall x :: AwardOf(BreakThrough(p), x) == AwardOf(p, x)
    ensures forall x :: AwardOf(p, x).Some? ==> LevelFrom(BreakThrough(p), x) == Min(5, LevelFrom(p, x) + 1)
  {
    hide ProtOk, LevelFrom, AwardOf, Level, BreakThrough;
    var q := BreakThrough(p);
    BreakThroughOk(p);
    forall x { BreakThroughRaisesSource(p, x); }
    LevelIsHighest(p);
    LevelIsHighest(q);
    var x :| AwardOf(p, x).Some? && Level(p) == LevelFrom(p, x);
    var y :| AwardOf(q, y).Some? && Level(q) == LevelFrom(q, y);
    assert LevelFrom(q, x) <= Level(q) && LevelFrom(p, y) <= Level(p);
    LevelInRange(p);
  }

  /** A copy of the global row protects at its level, as an inherited source, and counts from zero. */
  lemma InheritEffect(global: Prot)
    requires ProtOk(global)
    ensures var q := InheritGlobal(global);
      && HoldsOnly(q, Legacy, Award(Level(global), 0)) && q.count == 0 && q.days == 0
      && q.baseLevel == Level(global)
  {
    LevelInRange(global);
  }

  /** The cached base level is the highest award. */
  ghost predicate CachesHighest(p: Prot) {
    && (forall x :: AwardOf(p, x).Some? ==> AwardOf(p, x).value.level <= p.baseLevel)
    && (exists x :: AwardOf(p, x).Some? && AwardOf(p, x).value.level == p.baseLevel)
  }

  lemma Caches(p: Prot, s: Sources, b: Sources)
    requires s != NOTHING && forall x :: EntryOf(s, x).Some? ==> 1 <= EntryOf(s, x).value
    ensures CachesHighest(WithSources(p, s, b))
  {
    hide Highest, EntryOf;
    HighestIs(s);
    forall x { EditAward(p, s, b, x); }
  }

  /** The awards of an edited row are the edited entries. */
  lemma EditAward(p: Prot, s: Sources, b: Sources, x: Source)
    ensures var q := WithSources(p, s, b);
      AwardOf(q, x) == if EntryOf(s, x).None? then None
        else Some(Award(EntryOf(s, x).value, if EntryOf(b, x).Some? then EntryOf(b, x).value else 0))
  {
    hide Highest, EntryOf;
  }

  lemma GrantSource(p: Prot, level: int, x: Source)
    requires ProtOk(p) && 1 <= level <= 5
    ensures LevelFrom(Grant(Some(p), None, level), x) ==
      if x == Manual then Max(LevelFrom(p, Manual), level) else LevelFrom(p, x)
  {
    hide Highest, LevelFrom, AwardOf;
    var lifts := level > ValueOr(LevelsOf(p).manual, 0);
    LevelFromIs(p, x);
    GrantedFrom(p, if lifts then SourcesOf(p).(manual := Some(level)) else SourcesOf(p),
                if lifts then p.baselines.(manual := Some(p.count)) else p.baselines, x);
  }

  lemma GrantedFrom(p: Prot, s: Sources, b: Sources, x: Source)
    ensures LevelFrom(WithSources(p, s, b), x) ==
      if EntryOf(s, x).None? then 0
      else Min(5, EntryOf(s, x).value + (p.count - (if EntryOf(b, x).Some? then EntryOf(b, x).value else 0)))
  {
    hide Highest, EntryOf, AwardOf, WithSources;
    EditAward(p, s, b, x);
    KeepsCount(p, s, b);
  }

  lemma KeepsCount(p: Prot, s: Sources, b: Sources)
    ensures WithSources(p, s, b).count == p.count && WithSources(p, s, b).days == p.days
  {
  }

  lemma GrantCaches(p: Prot, level: int)
    requires ProtOk(p) && 1 <= level <= 5
    ensures var q := Grant(Some(p), None, level); q.count == p.count && q.days == p.days && CachesHighest(q)
  {
    hide Highest, CachesHighest;
    var lifts := level > ValueOr(LevelsOf(p).manual, 0);
    Caches(p, if lifts then SourcesOf(p).(manual := Some(level)) else SourcesOf(p),
           if lifts then p.baselines.(manual := Some(p.count)) else p.baselines);
  }

  /** A grant lifts the manual source to the granted level if it is lower, and leaves everything else alone. */
  lemma GrantEffect(row: Option<Prot>, global: Option<Prot>, level: int)
    requires OptionOk(row) && OptionOk(global) && 1 <= level <= 5
    ensures var q := Grant(row, global, level);
      if row.None? && global.None? then
        HoldsOnly(q, Manual, Award(level, 0)) && q.count == 0 && q.days == 0 && q.baseLevel == level
      else
        var p := if row.Some? then row.value else InheritGlobal(global.value);
        && q.count == p.count && q.days == p.days && CachesHighest(q)
        && LevelFrom(q, Manual) == Max(LevelFrom(p, Manual), level)
        && forall x :: x != Manual ==> LevelFrom(q, x) == LevelFrom(p, x)
  {
    hide CachesHighest, ProtOk, LevelFrom, Level, LevelsOf, WithSources;
    if row.Some? || global.Some? {
      var p := if row.Some? then row.value else InheritGlobal(global.value);
      if row.None? { InheritOk(global.value); }
      assert Grant(row, global, level) == Grant(Some(p), None, level);
      GrantCaches(p, level);
      forall x { GrantSource(p, level, x); }
    }
  }

  /** A row from before daily lists were a source of their own. */
  predicate Historical(p: Prot) {
    AwardOf(p, Legacy).Some? && AwardOf(p, Daily).None? && p.days > 0
  }

  lemma DelistGone(p: Prot, global: Option<Prot>)
    requires ProtOk(p) && OptionOk(global)
    ensures Delist(p, global).None? <==> AwardOf(p, Manual).None? && AwardOf(p, Pig).None? && global.None?
  {
    hide Highest, Level, WithSources;
    if global.Some? { LevelInRange(global.value); }
  }

  lemma DelistSource(p: Prot, global: Option<Prot>, x: Source)
    requires ProtOk(p) && (global.Some? ==> 1 <= Level(global.value) <= 5) && Delist(p, global).Some?
    ensures LevelFrom(Delist(p, global).value, x) ==
      match x
      case Daily => 0
      case Legacy => if global.None? then 0
                     else if Historical(p) then Level(global.value) else Max(LevelFrom(p, Legacy), Level(global.value))
      case _ => LevelFrom(p, x)
  {
    hide Highest, Level;
  }

  lemma DelistCaches(p: Prot, global: Option<Prot>)
    requires ProtOk(p) && (global.Some? ==> 1 <= Level(global.value) <= 5) && Delist(p, global).Some?
    ensures var q := Delist(p, global).value; q.count == p.count && q.days == 0 && CachesHighest(q)
  {
    hide Highest, Level, CachesHighest;
    var q := Delist(p, global).value;
    Caches(p.(days := 0), q.sources.value, q.baselines);
  }

  /** A user who leaves the daily list keeps what was granted and what the global row protects, the latter at the higher
      of its own and the inherited level; the row goes when that is nothing. */
  lemma DelistEffect(p: Prot, global: Option<Prot>)
    requires ProtOk(p) && OptionOk(global)
    ensures Delist(p, global).None? <==> AwardOf(p, Manual).None? && AwardOf(p, Pig).None? && global.None?
    ensures Delist(p, global).Some? ==>
      var q := Delist(p, global).value;
      && q.count == p.count && q.days == 0 && CachesHighest(q)
      && LevelFrom(q, Daily) == 0 && LevelFrom(q, Manual) == LevelFrom(p, Manual)
      && LevelFrom(q, Pig) == LevelFrom(p, Pig)
      && LevelFrom(q, Legacy) == if global.None? then 0
           else if Historical(p) then Level(global.value) else Max(LevelFrom(p, Legacy), Level(global.value))
  {
    hide ProtOk, CachesHighest, LevelFrom, Level, Delist, AwardOf;
    if global.Some? { LevelInRange(global.value); }
    DelistGone(p, global);
    if Delist(p, global).Some? {
      DelistCaches(p, global);
      DelistSource(p, global, Daily);
      DelistSource(p, global, Manual);
      DelistSource(p, global, Pig);
      DelistSource(p, global, Legacy);
    }
  }

  /** What a listed user's row starts from. */
  ghost predicate StartsFrom(row: Option<Prot>, global: Option<Prot>, p: Prot) {
    if row.Some? then p == row.value
    else if global.Some? then HoldsOnly(p, Legacy, Award(Level(global.value), 0)) && p.count == 0 && p.days == 0
    else (forall x :: AwardOf(p, x).None?) && p.count == 0 && p.days == 0
  }

  /** What being on the list makes of the row p that the user starts from. */
  ghost predicate Listed(p: Prot, q: Prot, days: int, initial: int) {
    && q.count == p.count && (forall x :: x in {Manual, Pig} ==> LevelFrom(q, x) == LevelFrom(p, x))
    && if AwardOf(p, Daily).Some? then q == p
       else
         CachesHighest(q) &&
         if Historical(p) then
           q.days == p.days && LevelFrom(q, Daily) == LevelFrom(p, Legacy) && LevelFrom(q, Legacy) == 0
         else
           && q.days == days && LevelFrom(q, Daily) == Min(5, initial + days - 1)
           && LevelFrom(q, Legacy) == LevelFrom(p, Legacy)
  }

  function DayAfter(yesterday: Option<Prot>): int {
    if yesterday.Some? then yesterday.value.days + 1 else 1
  }

  /** A row to start from: a correct one, or the blank one of a user without protection. */
  predicate Startable(p: Prot) {
    ProtOk(p) || p == Prot(0, Some(NOTHING), NOTHING, 0, 0)
  }

  lemma EnlistSource(p: Prot, yesterday: Option<Prot>, initial: int, x: Source)
    requires Startable(p) && 1 <= initial <= 5 && (yesterday.Some? ==> 0 <= yesterday.value.days)
    requires AwardOf(p, Daily).None?
    ensures LevelFrom(Enlist(Some(p), None, yesterday, initial), x) ==
      match x
      case Daily => if Historical(p) then LevelFrom(p, Legacy) else Min(5, initial + DayAfter(yesterday) - 1)
      case Legacy => if Historical(p) then 0 else LevelFrom(p, Legacy)
      case _ => LevelFrom(p, x)
  {
    hide Highest;
  }

  lemma EnlistCaches(p: Prot, yesterday: Option<Prot>, initial: int)
    requires Startable(p) && 1 <= initial <= 5 && (yesterday.Some? ==> 0 <= yesterday.value.days)
    requires AwardOf(p, Daily).None?
    ensures var q := Enlist(Some(p), None, yesterday, initial);
      && q.count == p.count && q.days == (if Historical(p) then p.days else DayAfter(yesterday)) && CachesHighest(q)
  {
    hide Highest, CachesHighest;
    var q := Enlist(Some(p), None, yesterday, initial);
    Caches(p.(days := q.days), q.sources.value, q.baselines);
  }

  lemma EnlistOverRow(p: Prot, yesterday: Option<Prot>, initial: int)
    requires Startable(p) && 1 <= initial <= 5 && (yesterday.Some? ==> 0 <= yesterday.value.days)
    ensures Listed(p, Enlist(Some(p), None, yesterday, initial), DayAfter(yesterday), initial)
  {
    hide CachesHighest, Enlist, LevelFrom, ProtOk;
    if AwardOf(p, Daily).None? {
      hide AwardOf;
      EnlistCaches(p, yesterday, initial);
      forall x { EnlistSource(p, yesterday, initial, x); }
    } else {
      StaysListed(p, yesterday, initial);
    }
  }

  lemma StaysListed(p: Prot, yesterday: Option<Prot>, initial: int)
    requires AwardOf(p, Daily).Some?
    ensures Enlist(Some(p), None, yesterday, initial) == p
  {
  }

  /** A user who is on the daily list gets the daily source once: a daily award stays as it is, a historical row's award
      becomes the daily one, and otherwise it is the initial level and one more for every consecutive day before. */
  lemma EnlistEffect(row: Option<Prot>, global: Option<Prot>, yesterday: Option<Prot>, initial: int, p: Prot)
    requires OptionOk(row) && OptionOk(global) && 1 <= initial <= 5 && (yesterday.Some? ==> 0 <= yesterday.value.days)
    requires StartsFrom(row, global, p)
    ensures Listed(p, Enlist(row, global, yesterday, initial), DayAfter(yesterday), initial)
  {
    hide CachesHighest, ProtOk, Enlist;
    if row.Some? {
      EnlistAs(row, global, yesterday, initial);
      EnlistOverRow(row.value, yesterday, initial);
    } else {
      var b := if global.Some? then InheritGlobal(global.value) else Prot(0, Some(NOTHING), NOTHING, 0, 0);
      EnlistAs(row, global, yesterday, initial);
      if global.Some? { InheritEffect(global.value); InheritOk(global.value); }
      EnlistOverRow(b, yesterday, initial);
      SameStart(b, p);
    }
  }

  lemma EnlistAs(row: Option<Prot>, global: Option<Prot>, yesterday: Option<Prot>, initial: int)
    ensures var b := if row.Some? then row.value
                     else if global.Some? then InheritGlobal(global.value) else Prot(0, Some(NOTHING), NOTHING, 0, 0);
      Enlist(row, global, yesterday, initial) == Enlist(Some(b), None, yesterday, initial)
  {
  }

  lemma InheritOk(global: Prot)
    requires ProtOk(global)
    ensures ProtOk(InheritGlobal(global))
  {
    LevelInRange(global);
  }

  /** Rows with the same awards, count and days protect alike. */
  lemma SameStart(b: Prot, p: Prot)
    requires b.count == p.count && b.days == p.days && forall x :: AwardOf(b, x) == AwardOf(p, x)
    ensures forall x :: LevelFrom(b, x) == LevelFrom(p, x)
    ensures Historical(b) == Historical(p)
  {
  }

  // ---------------------------------------------------------------- levels under later operations

  /** Nothing takes a granted award away, and a break-through raises it. */
  lemma ManualClimbs(p: Prot, op: RowOp)
    requires ProtOk(p) && OpOk(op) && AwardOf(p, Manual).Some?
    ensures var q := ApplyOp(Some(p), op);
      && q.Some? && AwardOf(q.value, Manual).Some?
      && LevelFrom(q.value, Manual) >= Min(5, LevelFrom(p, Manual) + if op.Broken? then 1 else 0)
  {
    hide ApplyOp, OpOk, BreakThrough, LevelFrom, Level;
    OpKeepsGrant(p, op);
    OpKeepsOk(Some(p), op);
    LevelFromIs(p, Manual);
    LevelFromIs(ApplyOp(Some(p), op).value, Manual);
    if op.Broken? {
      BrokenApplied(p);
      BreakThroughRaisesSource(p, Manual);
    }
  }

  lemma BrokenApplied(p: Prot)
    ensures ApplyOp(Some(p), Broken) == Some(BreakThrough(p))
  {
  }

  /** From an award at some level on, the level in force is at least that and one more for every break-through, up to
      five, whatever lists, grants and copies come in between. */
  lemma {:induction false} FloorClimbs(p: Prot, level: int, ops: seq<RowOp>)
    requires ProtOk(p) && AwardOf(p, Manual).Some? && level <= LevelFrom(p, Manual)
    requires forall i :: 0 <= i < |ops| ==> OpOk(ops[i])
    ensures var q := ApplyOps(Some(p), ops);
      && q.Some? && ProtOk(q.value) && AwardOf(q.value, Manual).Some?
      && Min(5, level + Breaks(ops)) <= LevelFrom(q.value, Manual) <= Level(q.value)
    decreases |ops|
  {
    hide ProtOk, OpOk, LevelFrom, AwardOf, Level, ApplyOp;
    if ops == [] {
      LevelFromIs(p, Manual);
      LevelIsHighest(p);
    } else {
      var before, op := ops[..|ops| - 1], ops[|ops| - 1];
      FloorClimbs(p, level, before);
      var q := ApplyOps(Some(p), before).value;
      ManualClimbs(q, op);
      OpKeepsOk(Some(q), op);
      LevelIsHighest(ApplyOps(Some(p), ops).value);
    }
  }

  predicate OnlyBreaks(ops: seq<RowOp>) {
    forall i :: 0 <= i < |ops| ==> ops[i].Broken? || ops[i].Inherited?
  }

  /** While nothing but break-throughs and copies happen, the level is exactly that. */
  lemma {:induction false} LevelClimbsExactly(p: Prot, ops: seq<RowOp>)
    requires ProtOk(p) && OnlyBreaks(ops)
    ensures var q := ApplyOps(Some(p), ops);
      q.Some? && ProtOk(q.value) && Level(q.value) == Min(5, Level(p) + Breaks(ops))
    decreases |ops|
  {
    hide ProtOk, Level, BreakThrough;
    if ops == [] {
      LevelInRange(p);
    } else {
      LevelClimbsExactly(p, ops[..|ops| - 1]);
      var q := ApplyOps(Some(p), ops[..|ops| - 1]).value;
      if ops[|ops| - 1].Broken? {
        BreakThroughOk(q);
        BreakThroughRaises(q);
      }
    }
  }
}
