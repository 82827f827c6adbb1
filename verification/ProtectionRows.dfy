/** A protection row as rollpig_cloud/routers/protections.py edits it: dictionaries are copied, changed entry
    by entry and written back.  Each method is proved against the function of Protections.dfy that says what
    the edit amounts to. */
module ProtectionRows {
  import opened Base
  import opened Protections

  class GroupProtection {
    var count: int
    var sources: Option<Sources>
    var baselines: Sources
    var baseLevel: int
    var days: int

    function Row(): Prot
      reads this
    {
      Prot(count, sources, baselines, baseLevel, days)
    }

    /** Loads a row. */
    constructor (p: Prot)
      ensures Row() == p
    {
      count, sources, baselines, baseLevel, days := p.count, p.sources, p.baselines, p.baseLevel, p.days;
    }

    /** A row that holds nothing yet. */
    constructor Blank()
      ensures Row() == Prot(0, Some(NOTHING), NOTHING, 0, 0)
    {
      count, sources, baselines, baseLevel, days := 0, Some(NOTHING), NOTHING, 0, 0;
    }

    method WriteBack(s: Sources, b: Sources)
      modifies this
      ensures Row() == WithSources(old(Row()), s, b)
    {
      sources := Some(s);
      baselines := b;
      baseLevel := ValueOr(Highest(s), 0);
    }

    /** A grant on a row that is already there. */
    method Grant(level: int)
      modifies this
      ensures Row() == Protections.Grant(Some(old(Row())), None, level)
    {
      var s, b := SourcesOf(Row()), baselines;
      if level > ValueOr(LevelsOf(Row()).manual, 0) {
        s := s.(manual := Some(level));
        b := b.(manual := Some(count));
      }
      WriteBack(s, b);
    }

    /** The user left the daily list; returns whether anything still protects them.  If not, the row is about
        to be deleted and its fields no longer matter. */
    method Delist(global: Option<Prot>) returns (kept: bool)
      modifies this
      ensures kept <==> Protections.Delist(old(Row()), global).Some?
      ensures kept ==> Row() == Protections.Delist(old(Row()), global).value
    {
      var s := SourcesOf(Row());
      s := s.(daily := None);
      var historical := IsHistoricalDaily(Row());
      if historical {
        s := s.(legacy := None);
      }
      var b := baselines;
      if global.None? {
        s := s.(legacy := None);
      } else {
        var inherited := if historical then 0 else ValueOr(LevelsOf(Row()).legacy, 0);
        var globalLevel := Level(global.value);
        if globalLevel > inherited {
          s := s.(legacy := Some(globalLevel));
          b := b.(legacy := Some(count));
        }
      }
      if s == NOTHING {
        return false;
      }
      WriteBack(s, Restrict(b, s));
      days := 0;
      return true;
    }

    /** The user is on the daily list; returns whether the row had to be edited. */
    method Enlist(yesterday: Option<Prot>, initial: int) returns (edited: bool)
      modifies this
      ensures edited <==> SourcesOf(old(Row())).daily.None?
      ensures Row() == Protections.Enlist(Some(old(Row())), None, yesterday, initial)
    {
      var s := SourcesOf(Row());
      if s.daily.Some? {
        return false;
      }
      var previousDays := if yesterday.Some? then yesterday.value.days else 0;
      var newDays := if previousDays != 0 then previousDays + 1 else 1;
      var b := baselines;
      var dailyLevel;
      if IsHistoricalDaily(Row()) {
        dailyLevel := s.legacy.value;
        s := s.(legacy := None);
        newDays := days;
        b := b.(daily := Some(ValueOr(b.legacy, 0)));
        b := b.(legacy := None);
      } else {
        dailyLevel := Min(MAX_LEVEL, initial + newDays - 1);
        b := b.(daily := Some(count));
      }
      s := s.(daily := Some(dailyLevel));
      WriteBack(s, b);
      days := newDays;
      return true;
    }

    method BreakThrough()
      modifies this
      ensures Row() == Protections.BreakThrough(old(Row()))
    {
      count := count + 1;
    }
  }

  /** A new row for a user without any is enlisted like a blank one, and an inherited one like any other. */
  lemma EnlistNew(yesterday: Option<Prot>, initial: int)
    ensures Enlist(Some(Prot(0, Some(NOTHING), NOTHING, 0, 0)), None, yesterday, initial) ==
      Enlist(None, None, yesterday, initial)
  {
  }

  lemma EnlistInherited(row: Option<Prot>, global: Option<Prot>, yesterday: Option<Prot>, initial: int)
    requires row.Some? || global.Some?
    ensures Enlist(Basis(row, global), None, yesterday, initial) == Enlist(row, global, yesterday, initial)
  {
  }

  lemma GrantInherited(row: Option<Prot>, global: Option<Prot>, level: int)
    requires row.Some? || global.Some?
    ensures Grant(Basis(row, global), None, level) == Grant(row, global, level)
  {
  }
}
