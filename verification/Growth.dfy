/** The growth ledger (rollpig_cloud/services/progress.py): daily draws, copies, the duplicate streak and
    the once-a-day feed.  Every unique key of the tables starts with the user, so the rows of one user
    form one record. */
module Growth {
  import opened Base

  const MAX_EXPERT_LEVEL: int := 5

  /** A daily_rolls row with the outcome that was frozen when it was drawn.  `rank` is its position among
      the user's rows in insertion order. */
  datatype RollRow = RollRow(rank: nat, pig: PigId, makeup: bool, isNew: bool, previousCopies: int, copiesAfter: int,
                             previousLevel: int, levelAfter: int, collectionSize: int, previousStreak: int,
                             streakAfter: int)
  datatype Progress = Progress(copies: int, bonus: int)
  datatype FeedSource = FromRound(round: RoundId) | FromRoast(event: nat)
  datatype FeedRow = FeedRow(pig: PigId, source: FeedSource, previousLevel: int, newLevel: int)
  datatype UserGrowth = UserGrowth(rolls: map<Date, RollRow>, collection: set<PigId>, progress: map<PigId, Progress>,
                                   streak: Option<int>, feeds: map<Date, FeedRow>)

  datatype FeedStatus = NoDailyPig | Fed | AlreadyFed | MaxLevel
  datatype FeedResult = FeedResult(status: FeedStatus, pig: Option<PigId>, previousLevel: int, newLevel: int,
                                   source: FeedSource)

  const NEWCOMER: UserGrowth := UserGrowth(map[], {}, map[], None, map[])

  function ExpertLevel(copies: int, bonus: int): int {
    Min(Max(copies - 1 + bonus, 0), MAX_EXPERT_LEVEL)
  }

  function LevelOf(g: UserGrowth, pig: PigId): int {
    if pig in g.progress then ExpertLevel(g.progress[pig].copies, g.progress[pig].bonus) else 0
  }

  /** The pig of a day that counts as having arrived: a make-up draw does not. */
  function RealRoll(g: UserGrowth, date: Date): Option<PigId> {
    if date in g.rolls && !g.rolls[date].makeup then Some(g.rolls[date].pig) else None
  }

  // ---------------------------------------------------------------- drawing

  predicate IsNewPig(g: UserGrowth, pig: PigId) {
    pig !in g.collection && pig !in g.progress
  }

  /** Copies before a draw; a collected pig without a progress row counts as drawn once. */
  function CopiesBefore(g: UserGrowth, pig: PigId): int {
    if IsNewPig(g, pig) then 0 else if pig in g.progress then g.progress[pig].copies else 1
  }

  function Draw(g: UserGrowth, date: Date, pig: PigId, makeup: bool): UserGrowth {
    var previousStreak := if g.streak.Some? then g.streak.value else 0;
    var bonus := if pig in g.progress then Max(0, g.progress[pig].bonus) else 0;
    var isNew := IsNewPig(g, pig);
    var previousCopies := CopiesBefore(g, pig);
    var copies := previousCopies + 1;
    var streak := if isNew then 0 else previousStreak + 1;
    var progress := if pig in g.progress then g.progress[pig].(copies := copies) else Progress(copies, 0);
    var collection := g.collection + {pig};
    g.(rolls := g.rolls[date := RollRow(|g.rolls|, pig, makeup, isNew, previousCopies, copies,
                                        ExpertLevel(previousCopies, bonus), ExpertLevel(copies, bonus),
                                        |collection|, previousStreak, streak)],
       collection := collection, progress := g.progress[pig := progress], streak := Some(streak))
  }

  // ---------------------------------------------------------------- feeding

  function Feed(g: UserGrowth, date: Date, source: FeedSource): (UserGrowth, FeedResult) {
    if RealRoll(g, date).None? then (g, FeedResult(NoDailyPig, None, 0, 0, source))
    else if date in g.feeds then
      var row := g.feeds[date];
      (g, FeedResult(if row.source == source then Fed else AlreadyFed,
                     Some(row.pig), row.previousLevel, row.newLevel, source))
    else
      var pig := g.rolls[date].pig;
      var progress := if pig in g.progress then g.progress[pig] else Progress(1, 0);
      var level := ExpertLevel(progress.copies, progress.bonus);
      if level >= MAX_EXPERT_LEVEL then
        (g.(progress := g.progress[pig := progress]), FeedResult(MaxLevel, Some(pig), level, level, source))
      else
        var bonus := Max(0, progress.bonus) + 1;
        var level' := ExpertLevel(progress.copies, bonus);
        (g.(progress := g.progress[pig := progress.(bonus := bonus)],
            feeds := g.feeds[date := FeedRow(pig, source, level, level')]),
         FeedResult(Fed, Some(pig), level, level', source))
  }

  // ---------------------------------------------------------------- what the ledger means

  ghost function RollsOf(rolls: map<Date, RollRow>, pig: PigId): set<Date> {
    set d | d in rolls && rolls[d].pig == pig
  }

  ghost function FeedsOf(feeds: map<Date, FeedRow>, pig: PigId): set<Date> {
    set d | d in feeds && feeds[d].pig == pig
  }

  /** Rows of the same pig drawn up to and including day d. */
  ghost function DrawnBy(rolls: map<Date, RollRow>, d: Date): set<Date>
    requires d in rolls
  {
    set e | e in rolls && rolls[e].pig == rolls[d].pig && rolls[e].rank <= rolls[d].rank
  }

  /** The rows of rank at most r that showed a new pig. */
  ghost function NewBy(rolls: map<Date, RollRow>, r: int): set<Date> {
    set e | e in rolls && rolls[e].isNew && rolls[e].rank <= r
  }

  /** n rows were drawn after the last row, among those of rank at most r, that showed a new pig. */
  ghost predicate SinceNew(rolls: map<Date, RollRow>, r: nat, n: int) {
    exists d :: d in rolls && rolls[d].isNew && rolls[d].rank == r - n
      && forall e :: e in rolls && r - n < rolls[e].rank <= r ==> !rolls[e].isNew
  }

  ghost predicate Ranked(rolls: map<Date, RollRow>) {
    && (forall d :: d in rolls ==> rolls[d].rank < |rolls|)
    && (forall d, e :: d in rolls && e in rolls && d != e ==> rolls[d].rank != rolls[e].rank)
  }

  /** The snapshot frozen in the row of day d tells the truth about the rows up to that one. */
  ghost predicate Frozen(rolls: map<Date, RollRow>, d: Date)
    requires d in rolls
  {
    var row := rolls[d];
    && row.copiesAfter == |DrawnBy(rolls, d)| && row.previousCopies == row.copiesAfter - 1
    && (row.isNew <==> row.copiesAfter == 1)
    && SinceNew(rolls, row.rank, row.streakAfter)
    && row.collectionSize == |NewBy(rolls, row.rank)|
  }

  /** Copies count the rolls of a pig, the bonus counts its feeds. */
  ghost predicate CountsOk(g: UserGrowth) {
    && g.collection == g.progress.Keys
    && (forall p :: p in g.progress ==> CountOk(g, p))
    && (forall d :: d in g.rolls ==> g.rolls[d].pig in g.progress)
    && (forall d :: d in g.feeds ==> FeedOk(g, d))
  }

  ghost predicate CountOk(g: UserGrowth, p: PigId)
    requires p in g.progress
  {
    g.progress[p].copies == |RollsOf(g.rolls, p)| >= 1 && g.progress[p].bonus == |FeedsOf(g.feeds, p)|
  }

  ghost predicate FeedOk(g: UserGrowth, d: Date)
    requires d in g.feeds
  {
    && RealRoll(g, d) == Some(g.feeds[d].pig)
    && 0 <= g.feeds[d].previousLevel < MAX_EXPERT_LEVEL
    && g.feeds[d].newLevel == g.feeds[d].previousLevel + 1
  }

  /** The streak counts the draws since the last new pig. */
  ghost predicate StreakOk(rolls: map<Date, RollRow>, streak: Option<int>) {
    && (rolls != map[] ==> streak.Some?)
    && (streak.Some? ==> |rolls| >= 1 && SinceNew(rolls, |rolls| - 1, streak.value))
  }

  /** The rows are numbered in order, their snapshots are true, and as many pigs were new as there are
      in the collection. */
  ghost predicate RollsOk(rolls: map<Date, RollRow>, collected: nat, streak: Option<int>) {
    && Ranked(rolls)
    && (forall d :: d in rolls ==> Frozen(rolls, d))
    && collected == |NewBy(rolls, |rolls|)|
    && StreakOk(rolls, streak)
  }

  ghost predicate LedgerOk(g: UserGrowth) {
    CountsOk(g) && RollsOk(g.rolls, |g.collection|, g.streak)
  }

  /** Rows already written are never rewritten and nothing is forgotten. */
  ghost predicate Extends(g: UserGrowth, g': UserGrowth) {
    && (forall d :: d in g.rolls ==> d in g'.rolls && g'.rolls[d] == g.rolls[d])
    && (forall d :: d in g.feeds ==> d in g'.feeds && g'.feeds[d] == g.feeds[d])
    && g.collection <= g'.collection
  }

  /** g' has one more roll than g, the latest one. */
  ghost predicate AddsRoll(g: UserGrowth, g': UserGrowth, date: Date) {
    && date !in g.rolls && date in g'.rolls
    && g'.rolls == g.rolls[date := g'.rolls[date]]
    && g'.rolls[date].rank == |g.rolls| && |g'.rolls| == |g.rolls| + 1
    && g'.feeds == g.feeds
  }

  lemma AddsToPig(g: UserGrowth, g': UserGrowth, date: Date, p: PigId)
    requires AddsRoll(g, g', date)
    ensures |RollsOf(g'.rolls, p)| == |RollsOf(g.rolls, p)| + (if p == g'.rolls[date].pig then 1 else 0)
    ensures RollsOf(g.rolls, p) <= RollsOf(g'.rolls, p) && FeedsOf(g'.feeds, p) == FeedsOf(g.feeds, p)
    ensures p == g'.rolls[date].pig ==> date in RollsOf(g'.rolls, p)
  {
    RollsOfUpdate(g.rolls, date, g'.rolls[date], p);
  }

  lemma RollsOfUpdate(rolls: map<Date, RollRow>, date: Date, row: RollRow, p: PigId)
    requires date !in rolls
    ensures RollsOf(rolls[date := row], p) == RollsOf(rolls, p) + if p == row.pig then {date} else {}
    ensures date !in RollsOf(rolls, p)
  {
  }

  lemma AddsKeepsFrozen(g: UserGrowth, g': UserGrowth, date: Date, d: Date)
    requires AddsRoll(g, g', date) && Ranked(g.rolls) && d in g.rolls && Frozen(g.rolls, d)
    ensures Frozen(g'.rolls, d)
  {
    assert DrawnBy(g'.rolls, d) == DrawnBy(g.rolls, d);
    assert NewBy(g'.rolls, g.rolls[d].rank) == NewBy(g.rolls, g.rolls[d].rank);
    AddsKeepsSinceNew(g, g', g.rolls[d].rank, g.rolls[d].streakAfter, date);
  }

  lemma AddsKeepsSinceNew(g: UserGrowth, g': UserGrowth, r: int, n: int, date: Date)
    requires AddsRoll(g, g', date) && 0 <= r < |g.rolls| && SinceNew(g.rolls, r, n)
    ensures SinceNew(g'.rolls, r, n)
  {
    var d :| d in g.rolls && g.rolls[d].isNew && g.rolls[d].rank == r - n
      && forall e :: e in g.rolls && r - n < g.rolls[e].rank <= r ==> !g.rolls[e].isNew;
    assert d in g'.rolls && g'.rolls[d] == g.rolls[d];
  }

  lemma DrawAddsRoll(g: UserGrowth, date: Date, pig: PigId, makeup: bool)
    requires date !in g.rolls
    ensures AddsRoll(g, Draw(g, date, pig, makeup), date)
  {
  }

  lemma NotDrawn(g: UserGrowth, pig: PigId)
    requires CountsOk(g) && pig !in g.progress
    ensures RollsOf(g.rolls, pig) == {} && FeedsOf(g.feeds, pig) == {}
  {
    assert forall d :: d in g.rolls ==> d !in RollsOf(g.rolls, pig);
    assert forall d :: d in g.feeds ==> FeedOk(g, d) && g.feeds[d].pig != pig;
    assert forall d :: d in g.feeds ==> d !in FeedsOf(g.feeds, pig);
  }

  lemma DrawnBefore(g: UserGrowth, pig: PigId)
    requires CountsOk(g) && pig in g.progress
    ensures g.rolls != map[]
  {
    assert CountOk(g, pig);
    assert g.rolls == map[] ==> RollsOf(g.rolls, pig) == {};
  }

  lemma DrawStreak(g: UserGrowth, date: Date, pig: PigId, makeup: bool)
    requires CountsOk(g) && Ranked(g.rolls) && StreakOk(g.rolls, g.streak) && date !in g.rolls
    ensures var g' := Draw(g, date, pig, makeup); g'.streak.Some? && StreakOk(g'.rolls, g'.streak)
  {
    var g' := Draw(g, date, pig, makeup);
    var n := |g.rolls|;
    DrawAddsRoll(g, date, pig, makeup);
    if IsNewPig(g, pig) {
      assert g'.rolls[date].rank == n - 0;
    } else {
      DrawnBefore(g, pig);
      var r := n - 1 - g.streak.value;
      AddsKeepsSinceNew(g, g', n - 1, g.streak.value, date);
      var d :| d in g'.rolls && g'.rolls[d].isNew && g'.rolls[d].rank == r
        && forall e :: e in g'.rolls && r < g'.rolls[e].rank <= n - 1 ==> !g'.rolls[e].isNew;
      assert g'.rolls[d].rank == n - (g.streak.value + 1);
    }
  }

  lemma DrawCopies(g: UserGrowth, date: Date, pig: PigId, makeup: bool)
    requires CountsOk(g) && date !in g.rolls
    ensures var g' := Draw(g, date, pig, makeup);
      && CountOk(g', pig)
      && g'.rolls[date].copiesAfter == |RollsOf(g'.rolls, pig)|
      && g'.rolls[date].previousCopies == g'.rolls[date].copiesAfter - 1
      && (g'.rolls[date].isNew <==> g'.rolls[date].copiesAfter == 1)
  {
    var g' := Draw(g, date, pig, makeup);
    DrawAddsRoll(g, date, pig, makeup);
    AddsToPig(g, g', date, pig);
    if pig in g.progress {
      assert CountOk(g, pig);
    } else {
      NotDrawn(g, pig);
    }
  }

  lemma DrawElsewhere(g: UserGrowth, date: Date, pig: PigId, makeup: bool, p: PigId)
    requires CountsOk(g) && date !in g.rolls && p != pig && p in g.progress
    ensures CountOk(Draw(g, date, pig, makeup), p)
  {
    assert CountOk(g, p);
    DrawAddsRoll(g, date, pig, makeup);
    AddsToPig(g, Draw(g, date, pig, makeup), date, p);
  }

  lemma DrawShape(g: UserGrowth, date: Date, pig: PigId, makeup: bool)
    ensures var g' := Draw(g, date, pig, makeup);
      && g'.collection == g.collection + {pig} && (forall p :: p in g'.progress <==> p in g.progress || p == pig)
      && g'.feeds == g.feeds && date in g'.rolls && g'.rolls[date].pig == pig
  {
  }

  /** A feed row stays true as long as its day's roll does. */
  lemma FeedStays(g: UserGrowth, g': UserGrowth, d: Date)
    requires d in g.feeds && FeedOk(g, d) && g'.feeds == g.feeds && d in g'.rolls && d in g.rolls
    requires g'.rolls[d] == g.rolls[d]
    ensures FeedOk(g', d)
  {
  }

  lemma DrawKeys(g: UserGrowth, date: Date, pig: PigId, makeup: bool)
    requires g.collection == g.progress.Keys && date !in g.rolls
    requires forall d :: d in g.rolls ==> g.rolls[d].pig in g.progress
    ensures var g' := Draw(g, date, pig, makeup);
      g'.collection == g'.progress.Keys && forall d :: d in g'.rolls ==> g'.rolls[d].pig in g'.progress
  {
    hide Draw;
    DrawShape(g, date, pig, makeup);
    DrawAddsRoll(g, date, pig, makeup);
  }

  lemma DrawKeepsFeeds(g: UserGrowth, date: Date, pig: PigId, makeup: bool, d: Date)
    requires CountsOk(g) && date !in g.rolls && d in Draw(g, date, pig, makeup).feeds
    ensures FeedOk(Draw(g, date, pig, makeup), d)
  {
    hide Draw, CountOk, FeedOk;
    DrawShape(g, date, pig, makeup);
    DrawAddsRoll(g, date, pig, makeup);
    FeedIsRolled(g, d);
    FeedStays(g, Draw(g, date, pig, makeup), d);
  }

  lemma DrawKeepsCounts(g: UserGrowth, date: Date, pig: PigId, makeup: bool)
    requires CountsOk(g) && date !in g.rolls
    ensures CountsOk(Draw(g, date, pig, makeup))
  {
    hide Draw, CountOk, FeedOk;
    DrawKeys(g, date, pig, makeup);
    DrawCopies(g, date, pig, makeup);
    forall p | p in Draw(g, date, pig, makeup).progress
      ensures CountOk(Draw(g, date, pig, makeup), p)
    {
      DrawShape(g, date, pig, makeup);
      if p != pig {
        DrawElsewhere(g, date, pig, makeup, p);
      }
    }
    forall d | d in Draw(g, date, pig, makeup).feeds
      ensures FeedOk(Draw(g, date, pig, makeup), d)
    {
      DrawKeepsFeeds(g, date, pig, makeup, d);
    }
  }

  lemma FeedIsRolled(g: UserGrowth, d: Date)
    requires d in g.feeds && FeedOk(g, d)
    ensures d in g.rolls
  {
  }

  lemma DrawSize(g: UserGrowth, date: Date, pig: PigId, makeup: bool)
    requires g.collection == g.progress.Keys && |g.collection| == |NewBy(g.rolls, |g.rolls|)| && Ranked(g.rolls)
    requires date !in g.rolls
    ensures var g' := Draw(g, date, pig, makeup);
      |g'.collection| == |NewBy(g'.rolls, |g.rolls|)| == |NewBy(g'.rolls, |g'.rolls|)|
  {
    var row := Draw(g, date, pig, makeup).rolls[date];
    AddsToNew(g.rolls, date, row);
    if IsNewPig(g, pig) {
      assert pig !in g.collection;
    } else {
      assert g.collection + {pig} == g.collection;
    }
  }

  /** Rows that showed a new pig, after one more row of the highest rank. */
  lemma AddsToNew(rolls: map<Date, RollRow>, date: Date, row: RollRow)
    requires Ranked(rolls) && date !in rolls && row.rank == |rolls|
    ensures |rolls[date := row]| == |rolls| + 1
    ensures NewBy(rolls[date := row], |rolls| + 1) == NewBy(rolls[date := row], |rolls|)
    ensures |NewBy(rolls[date := row], |rolls|)| == |NewBy(rolls, |rolls|)| + if row.isNew then 1 else 0
  {
    hide NewBy;
    NewByUpdate(rolls, date, row, |rolls|);
    NewByStable(rolls, date, row);
  }

  lemma NewByUpdate(rolls: map<Date, RollRow>, date: Date, row: RollRow, n: nat)
    requires date !in rolls && row.rank <= n
    ensures NewBy(rolls[date := row], n) == NewBy(rolls, n) + if row.isNew then {date} else {}
    ensures date !in NewBy(rolls, n)
  {
  }

  lemma NewByStable(rolls: map<Date, RollRow>, date: Date, row: RollRow)
    requires Ranked(rolls) && row.rank == |rolls|
    ensures NewBy(rolls[date := row], |rolls| + 1) == NewBy(rolls[date := row], |rolls|)
  {
    var after := rolls[date := row];
    assert forall e :: e in after ==> after[e].rank <= |rolls|;
  }

  lemma AddsIsFrozen(g: UserGrowth, g': UserGrowth, date: Date)
    requires AddsRoll(g, g', date) && Ranked(g.rolls)
    requires var row := g'.rolls[date];
      && row.copiesAfter == |RollsOf(g'.rolls, row.pig)| && row.previousCopies == row.copiesAfter - 1
      && (row.isNew <==> row.copiesAfter == 1)
      && SinceNew(g'.rolls, row.rank, row.streakAfter)
      && row.collectionSize == |NewBy(g'.rolls, row.rank)|
    ensures Frozen(g'.rolls, date)
  {
    assert forall e :: e in g'.rolls ==> g'.rolls[e].rank <= |g.rolls|;
    assert DrawnBy(g'.rolls, date) == RollsOf(g'.rolls, g'.rolls[date].pig);
  }

  lemma DrawIsFrozen(g: UserGrowth, date: Date, pig: PigId, makeup: bool)
    requires CountsOk(g) && |g.collection| == |NewBy(g.rolls, |g.rolls|)| && Ranked(g.rolls)
    requires StreakOk(g.rolls, g.streak) && date !in g.rolls
    ensures Frozen(Draw(g, date, pig, makeup).rolls, date)
  {
    DrawAddsRoll(g, date, pig, makeup);
    DrawCopies(g, date, pig, makeup);
    DrawStreak(g, date, pig, makeup);
    DrawSize(g, date, pig, makeup);
    AddsIsFrozen(g, Draw(g, date, pig, makeup), date);
  }

  lemma DrawIsRanked(g: UserGrowth, date: Date, pig: PigId, makeup: bool)
    requires Ranked(g.rolls) && date !in g.rolls
    ensures Ranked(Draw(g, date, pig, makeup).rolls) && Extends(g, Draw(g, date, pig, makeup))
  {
    DrawAddsRoll(g, date, pig, makeup);
  }

  lemma DrawLevels(g: UserGrowth, date: Date, pig: PigId, makeup: bool)
    requires CountsOk(g) && date !in g.rolls
    ensures var g' := Draw(g, date, pig, makeup);
      g'.rolls[date].previousLevel == LevelOf(g, pig) && g'.rolls[date].levelAfter == LevelOf(g', pig)
  {
    assert pig in g.progress ==> CountOk(g, pig);
  }

  lemma AllFrozen(g: UserGrowth, g': UserGrowth, date: Date)
    requires AddsRoll(g, g', date) && Ranked(g.rolls) && Frozen(g'.rolls, date)
    requires forall d :: d in g.rolls ==> Frozen(g.rolls, d)
    ensures forall d :: d in g'.rolls ==> Frozen(g'.rolls, d)
  {
    forall d | d in g'.rolls
      ensures Frozen(g'.rolls, d)
    {
      if d != date {
        AddsKeepsFrozen(g, g', date, d);
      }
    }
  }

  /** A draw keeps the whole ledger true, rewrites no earlier row and freezes the level before and after. */
  lemma DrawKeepsLedger(g: UserGrowth, date: Date, pig: PigId, makeup: bool)
    requires LedgerOk(g) && date !in g.rolls
    ensures var g' := Draw(g, date, pig, makeup);
      && LedgerOk(g') && Extends(g, g')
      && g'.rolls[date].previousLevel == LevelOf(g, pig) && g'.rolls[date].levelAfter == LevelOf(g', pig)
  {
    DrawAddsRoll(g, date, pig, makeup);
    DrawKeepsCounts(g, date, pig, makeup);
    DrawSize(g, date, pig, makeup);
    DrawIsFrozen(g, date, pig, makeup);
    DrawIsRanked(g, date, pig, makeup);
    DrawStreak(g, date, pig, makeup);
    DrawLevels(g, date, pig, makeup);
    AllFrozen(g, Draw(g, date, pig, makeup), date);
  }

  /** g' records one more feed than g, for the pig of that day. */
  ghost predicate AddsFeed(g: UserGrowth, g': UserGrowth, date: Date, pig: PigId) {
    && date !in g.feeds && RealRoll(g, date) == Some(pig) && pig in g.progress
    && date in g'.feeds && g'.feeds == g.feeds[date := g'.feeds[date]] && g'.feeds[date].pig == pig
    && g' == g.(feeds := g'.feeds, progress := g.progress[pig := g.progress[pig].(bonus := g.progress[pig].bonus + 1)])
  }

  lemma FeedShape(g: UserGrowth, date: Date, source: FeedSource)
    requires CountsOk(g)
    ensures var (g', result) := Feed(g, date, source);
      if date in g'.feeds && date !in g.feeds then
        var pig := g.rolls[date].pig;
        && AddsFeed(g, g', date, pig)
        && g'.feeds[date] == FeedRow(pig, source, LevelOf(g, pig), LevelOf(g', pig))
        && result == FeedResult(Fed, Some(pig), LevelOf(g, pig), LevelOf(g', pig), source)
        && 0 <= LevelOf(g, pig) < MAX_EXPERT_LEVEL && LevelOf(g', pig) == LevelOf(g, pig) + 1
      else g' == g
  {
    if RealRoll(g, date).Some? && date !in g.feeds {
      var pig := g.rolls[date].pig;
      assert CountOk(g, pig);
      assert g.progress[pig := g.progress[pig]] == g.progress;
    }
  }

  lemma FeedCounts(g: UserGrowth, g': UserGrowth, date: Date, pig: PigId)
    requires CountsOk(g) && AddsFeed(g, g', date, pig)
    requires 0 <= g'.feeds[date].previousLevel < MAX_EXPERT_LEVEL
    requires g'.feeds[date].newLevel == g'.feeds[date].previousLevel + 1
    ensures CountsOk(g')
  {
    assert FeedsOf(g'.feeds, pig) == FeedsOf(g.feeds, pig) + {date};
    forall p | p in g'.progress
      ensures CountOk(g', p)
    {
      assert CountOk(g, p);
      assert p != pig ==> FeedsOf(g'.feeds, p) == FeedsOf(g.feeds, p);
    }
    forall d | d in g'.feeds
      ensures FeedOk(g', d)
    {
      assert d != date ==> FeedOk(g, d);
    }
  }

  lemma AddsFeedKeepsLedger(g: UserGrowth, g': UserGrowth, date: Date, pig: PigId)
    requires LedgerOk(g) && AddsFeed(g, g', date, pig) && CountsOk(g')
    ensures LedgerOk(g') && Extends(g, g') && g'.rolls == g.rolls && g'.feeds.Keys == g.feeds.Keys + {date}
    ensures forall p :: p != pig ==> LevelOf(g', p) == LevelOf(g, p)
  {
    hide RollsOk, CountsOk;
  }

  /** A feed keeps the ledger true; a feed that is newly recorded raises the level by exactly one, and
      nothing else changes a level or records a feed. */
  lemma FeedKeepsLedger(g: UserGrowth, date: Date, source: FeedSource)
    requires LedgerOk(g)
    ensures LedgerOk(Feed(g, date, source).0) && Extends(g, Feed(g, date, source).0)
    ensures Feed(g, date, source).0.rolls == g.rolls
    ensures if date in Feed(g, date, source).0.feeds && date !in g.feeds then FedOnce(g, date, source)
            else Feed(g, date, source).0 == g
  {
    var g' := Feed(g, date, source).0;
    FeedShape(g, date, source);
    if date in g'.feeds && date !in g.feeds {
      FeedCounts(g, g', date, g.rolls[date].pig);
      AddsFeedKeepsLedger(g, g', date, g.rolls[date].pig);
    }
  }

  /** What a newly recorded feed of the day does. */
  ghost predicate FedOnce(g: UserGrowth, date: Date, source: FeedSource) {
    var (g', result) := Feed(g, date, source);
    && RealRoll(g, date).Some?
    && var pig := g.rolls[date].pig;
    && LevelOf(g', pig) == LevelOf(g, pig) + 1
    && (forall p :: p != pig ==> LevelOf(g', p) == LevelOf(g, p))
    && g'.feeds.Keys == g.feeds.Keys + {date}
    && result == FeedResult(Fed, Some(pig), LevelOf(g, pig), LevelOf(g', pig), source)
  }

  // ---------------------------------------------------------------- whole histories of a user

  datatype LedgerEvent = DrawEvent(date: Date, pig: PigId, makeup: bool) | FeedEvent(date: Date, source: FeedSource)

  /** A draw for a day that has a row is answered from that row. */
  function Record(g: UserGrowth, e: LedgerEvent): UserGrowth {
    match e
    case DrawEvent(date, pig, makeup) => if date in g.rolls then g else Draw(g, date, pig, makeup)
    case FeedEvent(date, source) => Feed(g, date, source).0
  }

  function RecordAll(g: UserGrowth, es: seq<LedgerEvent>): UserGrowth {
    if es == [] then g else Record(RecordAll(g, es[..|es| - 1]), es[|es| - 1])
  }

  lemma ExtendsRefl(g: UserGrowth)
    ensures Extends(g, g)
  {
  }

  lemma RecordKeepsLedger(g: UserGrowth, e: LedgerEvent)
    requires LedgerOk(g)
    ensures LedgerOk(Record(g, e)) && Extends(g, Record(g, e))
  {
    hide LedgerOk, Extends, Draw, Feed;
    ExtendsRefl(g);
    match e
    case DrawEvent(date, pig, makeup) =>
      if date !in g.rolls {
        DrawKeepsLedger(g, date, pig, makeup);
      }
    case FeedEvent(date, source) =>
      FeedKeepsLedger(g, date, source);
  }

  lemma NewcomerOk()
    ensures LedgerOk(NEWCOMER)
  {
    assert NewBy(NEWCOMER.rolls, 0) == {};
  }

  lemma ExtendsTransitive(a: UserGrowth, b: UserGrowth, c: UserGrowth)
    requires Extends(a, b) && Extends(b, c)
    ensures Extends(a, c)
  {
  }

  lemma {:induction false} RecordAllKeepsLedger(g: UserGrowth, es: seq<LedgerEvent>)
    requires LedgerOk(g)
    ensures LedgerOk(RecordAll(g, es)) && Extends(g, RecordAll(g, es))
    decreases |es|
  {
    if es != [] {
      var before := RecordAll(g, es[..|es| - 1]);
      RecordAllKeepsLedger(g, es[..|es| - 1]);
      RecordKeepsLedger(before, es[|es| - 1]);
      ExtendsTransitive(g, before, RecordAll(g, es));
    }
  }

  lemma {:induction false} RecordAllSplits(g: UserGrowth, es: seq<LedgerEvent>, n: nat)
    requires n <= |es|
    ensures RecordAll(g, es) == RecordAll(RecordAll(g, es[..n]), es[n..])
    decreases |es|
  {
    hide Record;
    if n == |es| {
      assert es[..n] == es;
    } else {
      RecordAllSplits(g, es[..|es| - 1], n);
      assert es[..|es| - 1][..n] == es[..n];
      assert es[..|es| - 1][n..] == es[n..][..|es[n..]| - 1];
    }
  }

  /** From an empty record the ledger is true after every history, and rows are never rewritten. */
  lemma LedgerAlwaysHolds(es: seq<LedgerEvent>, n: nat)
    requires n <= |es|
    ensures LedgerOk(RecordAll(NEWCOMER, es))
    ensures Extends(RecordAll(NEWCOMER, es[..n]), RecordAll(NEWCOMER, es))
  {
    NewcomerOk();
    RecordAllSplits(NEWCOMER, es, n);
    RecordAllKeepsLedger(NEWCOMER, es[..n]);
    RecordAllKeepsLedger(RecordAll(NEWCOMER, es[..n]), es[n..]);
  }

  // ---------------------------------------------------------------- feeding several users

  function At(users: map<UserId, UserGrowth>, u: UserId): UserGrowth {
    if u in users then users[u] else NEWCOMER
  }

  function FeedAll(users: map<UserId, UserGrowth>, date: Date, order: seq<UserId>, source: FeedSource): map<UserId,
                   UserGrowth>
  {
    if order == [] then users
    else
      var before := FeedAll(users, date, order[..|order| - 1], source);
      var u := order[|order| - 1];
      before[u := Feed(At(before, u), date, source).0]
  }

  function FedAlone(users: map<UserId, UserGrowth>, date: Date, order: seq<UserId>, source: FeedSource,
                    u: UserId): UserGrowth {
    if u in order then Feed(At(users, u), date, source).0 else At(users, u)
  }

  /** The result each user is given, in the order of the list. */
  function FeedResults(users: map<UserId, UserGrowth>, date: Date, order: seq<UserId>, source: FeedSource): seq<(UserId,
                       FeedResult)> {
    seq(|order|, i requires 0 <= i < |order| => (order[i], Feed(At(users, order[i]), date, source).1))
  }

  /** Feeding distinct users one after the other is feeding each of them alone. */
  lemma {:induction false} FeedAllPointwise(users: map<UserId, UserGrowth>, date: Date, order: seq<UserId>,
                                            source: FeedSource)
    requires NoDuplicates(order)
    ensures forall u :: u in FeedAll(users, date, order, source) <==> u in users || u in order
    ensures forall u :: At(FeedAll(users, date, order, source), u) == FedAlone(users, date, order, source, u)
  {
    if order != [] {
      var before, last := order[..|order| - 1], order[|order| - 1];
      FeedAllPointwise(users, date, before, source);
      assert order == before + [last];
      assert last !in before;
      var mid := FeedAll(users, date, before, source);
      assert At(mid, last) == At(users, last);
      forall u
        ensures At(FeedAll(users, date, order, source), u) == FedAlone(users, date, order, source, u)
      {
        assert u != last ==> At(FeedAll(users, date, order, source), u) == At(mid, u);
      }
    }
  }

  /** Locking users in another order than they joined changes neither the final state nor, looked up in
      joining order, the list of results. */
  lemma FeedOrderIsIrrelevant(users: map<UserId, UserGrowth>, date: Date, joined: seq<UserId>, locked: seq<UserId>,
                              source: FeedSource)
    requires NoDuplicates(joined) && multiset(joined) == multiset(locked)
    ensures NoDuplicates(locked)
    ensures FeedAll(users, date, locked, source) == FeedAll(users, date, joined, source)
    ensures forall i, k :: 0 <= i < |joined| && 0 <= k < |locked| && joined[i] == locked[k] ==>
      FeedResults(users, date, joined, source)[i] == FeedResults(users, date, locked, source)[k]
  {
    hide Feed, FeedAll;
    DistinctByCount(joined, locked);
    SameMembers(joined, locked);
    FeedAllPointwise(users, date, joined, source);
    FeedAllPointwise(users, date, locked, source);
    var a, b := FeedAll(users, date, joined, source), FeedAll(users, date, locked, source);
    assert a.Keys == b.Keys;
    forall u | u in a
      ensures a[u] == b[u]
    {
      assert At(a, u) == At(b, u);
    }
  }

  lemma SameMembers(a: seq<UserId>, b: seq<UserId>)
    requires multiset(a) == multiset(b)
    ensures forall u :: u in a <==> u in b
  {
    forall u
      ensures u in a <==> u in b
    {
      assert u in a <==> u in multiset(a);
      assert u in b <==> u in multiset(b);
    }
  }

  lemma DistinctByCount(a: seq<UserId>, b: seq<UserId>)
    requires NoDuplicates(a) && multiset(a) == multiset(b)
    ensures NoDuplicates(b)
  {
    forall u | u in multiset(a)
      ensures multiset(a)[u] == 1
    {
      CountOnce(a, u);
    }
    forall i, j | 0 <= i < j < |b|
      ensures b[i] != b[j]
    {
      var front, back := b[..j], b[j..];
      assert b == front + back;
      assert b[i] == front[i] && b[j] == back[0];
      assert b[j] in multiset(b);
    }
  }

  lemma {:induction false} CountOnce(a: seq<UserId>, u: UserId)
    requires NoDuplicates(a)
    ensures multiset(a)[u] <= 1
  {
    if a != [] {
      var front, last := a[..|a| - 1], a[|a| - 1];
      CountOnce(front, u);
      assert a == front + [last];
      if last == u {
        assert u !in front;
        assert u !in multiset(front);
      }
    }
  }

  // ---------------------------------------------------------------- the table

  predicate InOrder(s: seq<UserId>) {
    forall i, j :: 0 <= i < j < |s| ==> s[i] <= s[j]
  }

  function Insert(u: UserId, s: seq<UserId>): (r: seq<UserId>)
    ensures multiset(r) == multiset(s) + multiset{u}
  {
    if s == [] || u <= s[0] then [u] + s
    else
      assert s == [s[0]] + s[1..];
      [s[0]] + Insert(u, s[1..])
  }

  /** The users in the order in which their rows are locked. */
  function Sorted(s: seq<UserId>): (r: seq<UserId>)
    ensures multiset(r) == multiset(s)
  {
    if s == [] then []
    else
      assert s == [s[0]] + s[1..];
      Insert(s[0], Sorted(s[1..]))
  }

  lemma {:induction false} InsertKeepsOrder(u: UserId, s: seq<UserId>)
    requires InOrder(s)
    ensures InOrder(Insert(u, s))
    ensures Insert(u, s)[0] == if s == [] || u <= s[0] then u else s[0]
  {
    if s != [] && s[0] < u {
      InsertKeepsOrder(u, s[1..]);
      assert Insert(u, s)[1..] == Insert(u, s[1..]);
    }
  }

  /** Rows are locked in increasing order, so two rounds never wait for each other. */
  lemma {:induction false} SortedInOrder(s: seq<UserId>)
    ensures InOrder(Sorted(s))
  {
    if s != [] {
      SortedInOrder(s[1..]);
      InsertKeepsOrder(s[0], Sorted(s[1..]));
    }
  }

  /** The ledger tables, grouped by user. */
  class GrowthTable {
    var users: map<UserId, UserGrowth>

    constructor ()
      ensures users == map[]
    {
      users := map[];
    }

    /** The record after the progress of a new draw, and the outcome to be frozen in its row. */
    static method ApplyCreatedRollProgress(g: UserGrowth, pig: PigId, makeup: bool, ghost date: Date)
      returns (g': UserGrowth, row: RollRow)
      ensures row == Draw(g, date, pig, makeup).rolls[date]
      ensures g' == Draw(g, date, pig, makeup).(rolls := g.rolls)
    {
      var previousStreak := if g.streak.Some? then g.streak.value else 0;
      var isNew := pig !in g.collection && pig !in g.progress;
      var bonus := if pig in g.progress then Max(0, g.progress[pig].bonus) else 0;
      var collection := g.collection + {pig};
      var progress, previousCopies, streak;
      if isNew {
        previousCopies, streak := 0, 0;
        progress := Progress(1, 0);
      } else {
        previousCopies := if pig in g.progress then g.progress[pig].copies else 1;
        streak := previousStreak + 1;
        if pig in g.progress {
          progress := g.progress[pig].(copies := previousCopies + 1);
        } else {
          progress := Progress(previousCopies + 1, 0);
        }
      }
      assert previousCopies == CopiesBefore(g, pig);
      assert progress == Draw(g, date, pig, makeup).progress[pig];
      assert streak == Draw(g, date, pig, makeup).streak.value;
      row := RollRow(|g.rolls|, pig, makeup, isNew, previousCopies, previousCopies + 1,
                     ExpertLevel(previousCopies, bonus),
                     ExpertLevel(previousCopies + 1, bonus), |collection|, previousStreak, streak);
      g' := g.(collection := collection, progress := g.progress[pig := progress], streak := Some(streak));
    }

    /** First draw of a day, or the existing row's answer; returns whether a row was created. */
    method GetOrCreateRoll(user: UserId, date: Date, pig: PigId, makeup: bool) returns (created: bool)
      modifies this
      ensures created <==> date !in At(old(users), user).rolls
      ensures users == if created then old(users)[user := Draw(At(old(users), user), date, pig, makeup)] else old(users)
    {
      var g := At(users, user);
      if date in g.rolls {
        return false;
      }
      var g', row := ApplyCreatedRollProgress(g, pig, makeup, date);
      users := users[user := g'.(rolls := g.rolls[date := row])];
      return true;
    }

    method ApplyDailyFeed(user: UserId, date: Date, source: FeedSource) returns (result: FeedResult)
      modifies this
      ensures users == old(users)[user := Feed(At(old(users), user), date, source).0]
      ensures result == Feed(At(old(users), user), date, source).1
    {
      var g := At(users, user);
      if date !in g.rolls || g.rolls[date].makeup {
        users := users[user := g];
        return FeedResult(NoDailyPig, None, 0, 0, source);
      }
      if date in g.feeds {
        users := users[user := g];
        var row := g.feeds[date];
        return FeedResult(if row.source == source then Fed else AlreadyFed,
                          Some(row.pig), row.previousLevel, row.newLevel, source);
      }
      var pig := g.rolls[date].pig;
      var known := g.progress;
      if pig !in g.progress {
        g := g.(progress := g.progress[pig := Progress(1, 0)]);
      }
      var progress := g.progress[pig];
      var level := ExpertLevel(progress.copies, progress.bonus);
      if level >= MAX_EXPERT_LEVEL {
        assert g.progress == known[pig := progress];
        users := users[user := g];
        return FeedResult(MaxLevel, Some(pig), level, level, source);
      }
      var bonus := Max(0, progress.bonus) + 1;
      var newLevel := ExpertLevel(progress.copies, bonus);
      g := g.(feeds := g.feeds[date := FeedRow(pig, source, level, newLevel)]);
      g := g.(progress := g.progress[pig := progress.(bonus := bonus)]);
      assert g.progress == known[pig := progress.(bonus := bonus)];
      users := users[user := g];
      return FeedResult(Fed, Some(pig), level, newLevel, source);
    }

    method FeedInOrder(locked: seq<UserId>, date: Date, source: FeedSource) returns (byUser: map<UserId, FeedResult>)
      requires NoDuplicates(locked)
      modifies this
      ensures users == FeedAll(old(users), date, locked, source)
      ensures forall u :: u in locked ==> u in byUser && byUser[u] == Feed(At(old(users), u), date, source).1
    {
      byUser := map[];
      for i := 0 to |locked|
        invariant users == FeedAll(old(users), date, locked[..i], source)
        invariant forall u :: u in locked[..i] ==> u in byUser && byUser[u] == Feed(At(old(users), u), date, source).1
      {
        assert locked[..i + 1][..i] == locked[..i];
        FeedAllPointwise(old(users), date, locked[..i], source);
        assert locked[i] !in locked[..i];
        var result := ApplyDailyFeed(locked[i], date, source);
        byUser := byUser[locked[i] := result];
      }
      assert locked[..|locked|] == locked;
    }

    /** Feeds the users in lock order and lists the results in joining order. */
    method SettleFeeds(eligible: seq<UserId>, date: Date, source: FeedSource)
      returns (results: seq<(UserId, FeedResult)>)
      requires NoDuplicates(eligible)
      modifies this
      ensures users == FeedAll(old(users), date, eligible, source)
      ensures results == FeedResults(old(users), date, eligible, source)
    {
      hide Feed, FeedAll, Sorted;
      var locked := Sorted(eligible);
      FeedOrderIsIrrelevant(users, date, eligible, locked, source);
      SameMembers(eligible, locked);
      var byUser := FeedInOrder(locked, date, source);
      results := [];
      for i := 0 to |eligible|
        invariant |results| == i
        invariant forall k :: 0 <= k < i ==>
          results[k] == (eligible[k], Feed(At(old(users), eligible[k]), date, source).1)
      {
        results := results + [(eligible[i], byUser[eligible[i]])];
      }
    }
  }
}
