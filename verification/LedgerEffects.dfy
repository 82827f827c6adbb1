/** Levels and feeds counted from the rows of the ledger. */
module LedgerEffects {
  import opened Base
  import opened Growth

  /** The level of a pig: one for every draw after the first and one for every feed, at most five. */
  ghost function CountedLevel(g: UserGrowth, pig: PigId): int {
    var draws := |set d | d in g.rolls && g.rolls[d].pig == pig|;
    var feeds := |set d | d in g.feeds && g.feeds[d].pig == pig|;
    if draws == 0 then 0 else if draws + feeds > 5 then 5 else draws - 1 + feeds
  }

  /** In a true ledger every pig stands at its counted level. */
  lemma LevelIsCounted(g: UserGrowth, pig: PigId)
    requires LedgerOk(g)
    ensures LevelOf(g, pig) == CountedLevel(g, pig)
  {
    hide RollsOk;
    assert RollsOf(g.rolls, pig) == set d | d in g.rolls && g.rolls[d].pig == pig;
    assert FeedsOf(g.feeds, pig) == set d | d in g.feeds && g.feeds[d].pig == pig;
    if pig in g.progress {
      assert CountOk(g, pig);
    } else {
      NotDrawn(g, pig);
    }
  }

  /** A draw freezes the counted levels before and after it, and whether it was a make-up draw. */
  lemma DrawEffect(g: UserGrowth, date: Date, pig: PigId, makeup: bool)
    requires LedgerOk(g) && date !in g.rolls
    ensures var g' := Draw(g, date, pig, makeup);
      && date in g'.rolls && g'.rolls.Keys == g.rolls.Keys + {date}
      && (forall d :: d in g.rolls ==> g'.rolls[d] == g.rolls[d])
      && g'.feeds == g.feeds
      && var row := g'.rolls[date];
         && row.pig == pig && row.makeup == makeup
         && row.previousLevel == CountedLevel(g, pig) && row.levelAfter == CountedLevel(g', pig)
         && row.copiesAfter == |set d | d in g'.rolls && g'.rolls[d].pig == pig|
  {
    hide LedgerOk, CountedLevel, LevelOf, CountsOk, RollsOk, Draw;
    var g' := Draw(g, date, pig, makeup);
    DrawKeepsLedger(g, date, pig, makeup);
    LevelIsCounted(g, pig);
    LevelIsCounted(g', pig);
    DrawnRow(g, date, pig, makeup);
  }

  lemma DrawnRow(g: UserGrowth, date: Date, pig: PigId, makeup: bool)
    requires LedgerOk(g) && date !in g.rolls
    ensures var g' := Draw(g, date, pig, makeup);
      && date in g'.rolls && g'.rolls == g.rolls[date := g'.rolls[date]] && g'.feeds == g.feeds
      && g'.rolls[date].pig == pig && g'.rolls[date].makeup == makeup
      && g'.rolls[date].copiesAfter == |set d | d in g'.rolls && g'.rolls[d].pig == pig|
  {
    hide RollsOk, CountsOk;
    var g' := Draw(g, date, pig, makeup);
    DrawCopies(g, date, pig, makeup);
    assert RollsOf(g'.rolls, pig) == set d | d in g'.rolls && g'.rolls[d].pig == pig;
  }

  /** What a feed does and answers: nothing without a real draw of that day, the recorded feed again if there is one,
      nothing at level five, and otherwise one level and the day's feed row. */
  lemma FeedEffect(g: UserGrowth, date: Date, source: FeedSource)
    requires LedgerOk(g)
    ensures var (g', r) := Feed(g, date, source);
      if date !in g.rolls || g.rolls[date].makeup then g' == g && r == FeedResult(NoDailyPig, None, 0, 0, source)
      else if date in g.feeds then
        var row := g.feeds[date];
        && g' == g
        && r == FeedResult(if row.source == source then Fed else AlreadyFed, Some(row.pig), row.previousLevel,
                           row.newLevel, source)
      else
        var pig := g.rolls[date].pig;
        var level := CountedLevel(g, pig);
        if level == 5 then g' == g && r == FeedResult(MaxLevel, Some(pig), 5, 5, source)
        else
          && g'.feeds == g.feeds[date := FeedRow(pig, source, level, level + 1)]
          && g'.rolls == g.rolls && g'.collection == g.collection && g'.streak == g.streak
          && (forall p :: CountedLevel(g', p) == if p == pig then level + 1 else CountedLevel(g, p))
          && r == FeedResult(Fed, Some(pig), level, level + 1, source)
  {
    hide CountedLevel, RollsOk, Feed, LevelOf, LedgerOk;
    var g' := Feed(g, date, source).0;
    FeedKeepsLedger(g, date, source);
    FeedAnswer(g, date, source);
    forall p
      ensures LevelOf(g, p) == CountedLevel(g, p) && LevelOf(g', p) == CountedLevel(g', p)
    {
      LevelIsCounted(g, p);
      LevelIsCounted(g', p);
    }
  }

  lemma FeedAnswer(g: UserGrowth, date: Date, source: FeedSource)
    requires LedgerOk(g)
    ensures var (g', r) := Feed(g, date, source);
      if date !in g.rolls || g.rolls[date].makeup then g' == g && r == FeedResult(NoDailyPig, None, 0, 0, source)
      else if date in g.feeds then
        var row := g.feeds[date];
        && g' == g
        && r == FeedResult(if row.source == source then Fed else AlreadyFed, Some(row.pig), row.previousLevel,
                           row.newLevel, source)
      else
        var pig := g.rolls[date].pig;
        var level := LevelOf(g, pig);
        && level <= 5
        && if level == 5 then g' == g && r == FeedResult(MaxLevel, Some(pig), 5, 5, source)
           else
             && g'.feeds == g.feeds[date := FeedRow(pig, source, level, level + 1)]
             && g'.rolls == g.rolls && g'.collection == g.collection && g'.streak == g.streak
             && (forall p :: LevelOf(g', p) == if p == pig then level + 1 else LevelOf(g, p))
             && r == FeedResult(Fed, Some(pig), level, level + 1, source)
  {
    hide RollsOk, CountOk, FeedOk;
    if RealRoll(g, date).Some? && date !in g.feeds {
      var pig := g.rolls[date].pig;
      CountsAreSane(g, pig);
      assert g.progress[pig := g.progress[pig]] == g.progress;
    }
  }

  lemma CountsAreSane(g: UserGrowth, pig: PigId)
    requires LedgerOk(g) && exists d :: d in g.rolls && g.rolls[d].pig == pig
    ensures pig in g.progress && g.progress[pig].copies >= 1 && g.progress[pig].bonus >= 0
  {
    hide RollsOk;
    var d :| d in g.rolls && g.rolls[d].pig == pig;
    assert CountOk(g, pig);
  }

  /** Pigs from before copies were counted stand for one draw: the next draw of one is its second, and a feed on the day
      of such a draw starts from level 0. */
  lemma UncountedPig(g: UserGrowth, date: Date, pig: PigId, makeup: bool, source: FeedSource)
    requires pig !in g.progress
    ensures pig in g.collection ==>
      var row := Draw(g, date, pig, makeup).rolls[date];
      !row.isNew && row.previousCopies == 1 && row.copiesAfter == 2 && row.previousLevel == 0 && row.levelAfter == 1
    ensures date in g.rolls && !g.rolls[date].makeup && g.rolls[date].pig == pig && date !in g.feeds ==>
      var (g', r) := Feed(g, date, source);
      g'.progress == g.progress[pig := Progress(1, 1)] && r == FeedResult(Fed, Some(pig), 0, 1, source)
  {
  }
}
