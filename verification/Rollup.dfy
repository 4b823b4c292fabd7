/** Three roll-ups of the same bots: createPortfolioSnapshot and the backfill query in
    apps/worker/src/portfolio-snapshots.ts, and the dashboard totals in apps/web/src/lib/data.ts.
    Amounts are in 1e-10 units. */
module Rollup {
  import opened Wrappers

  datatype BotStatus = Running | Cooldown | OtherStatus

  datatype Pnl = Pnl(realized: int, unrealized: int)

  datatype State = State(createdAt: int, status: BotStatus, deployed: int, pnl: Pnl, equity: int)

  /** budget is config.maxDeployableUsd, None without a config; states are the recorded snapshots, oldest first. */
  datatype Bot = Bot(createdAt: int, status: BotStatus, archivedAt: Option<int>, position: Option<Pnl>, budget: Option<int>,
                     states: seq<State>)

  datatype Totals = Totals(botCount: int, active: int, budget: int, deployed: int, realized: int, unrealized: int,
                           total: int, equity: int)

  const NOTHING := Totals(0, 0, 0, 0, 0, 0, 0, 0)

  function Plus(a: Totals, b: Totals): Totals {
    Totals(a.botCount + b.botCount, a.active + b.active, a.budget + b.budget, a.deployed + b.deployed,
           a.realized + b.realized, a.unrealized + b.unrealized, a.total + b.total, a.equity + b.equity)
  }

  predicate IsActive(s: BotStatus) { s.Running? || s.Cooldown? }

  function Count(b: bool): int { if b then 1 else 0 }

  function Sum(p: Pnl): int { p.realized + p.unrealized }

  function Latest(b: Bot): Option<State> {
    if b.states == [] then None else Some(b.states[|b.states| - 1])
  }

  function LatestPnl(b: Bot): Pnl {
    if b.states == [] then Pnl(0, 0) else b.states[|b.states| - 1].pnl
  }

  function ArchivedBy(b: Bot, now: int): bool { b.archivedAt.Some? && b.archivedAt.value <= now }

  /** What an archived bot closed at: its position if it has one, else its latest state. */
  function ClosedPnl(b: Bot): int { Sum(b.position.UnwrapOr(LatestPnl(b))) }

  // ---------------------------------------------------------------- the snapshot fold

  /** A bot without a state counts at its budget. */
  function EquityOf(b: Bot): int {
    if b.states == [] then b.budget.UnwrapOr(0) else Latest(b).value.equity
  }

  function Closed(pnl: int): Totals { NOTHING.(realized := pnl, total := pnl) }

  /** What one bot adds: a closed bot only its final PnL, as realised. */
  function SnapshotShare(b: Bot, now: int): Totals {
    var p, budget := LatestPnl(b), b.budget.UnwrapOr(0);
    if ArchivedBy(b, now) then Closed(ClosedPnl(b))
    else Totals(1, Count(IsActive(b.status)), budget, if b.states == [] then 0 else Latest(b).value.deployed,
                p.realized, p.unrealized, Sum(p), EquityOf(b))
  }

  function SnapshotTotals(bots: seq<Bot>, now: int): Totals {
    if bots == [] then NOTHING else Plus(SnapshotTotals(bots[..|bots| - 1], now), SnapshotShare(bots[|bots| - 1], now))
  }

  // ---------------------------------------------------------------- the dashboard

  /** What a visible bot's card shows. */
  function Card(b: Bot, p: Pnl): Totals {
    Totals(1, Count(IsActive(b.status)), b.budget.UnwrapOr(0), if b.states == [] then 0 else Latest(b).value.deployed,
           p.realized, p.unrealized, Sum(p), if b.states == [] then 0 else Latest(b).value.equity)
  }

  /** A visible bot's card, and an archived bot's closed PnL, whatever its archive date. */
  function DashboardShare(b: Bot): Totals {
    if b.archivedAt.Some? then Closed(ClosedPnl(b)) else Card(b, LatestPnl(b))
  }

  function DashboardTotals(bots: seq<Bot>): Totals {
    if bots == [] then NOTHING else Plus(DashboardTotals(bots[..|bots| - 1]), DashboardShare(bots[|bots| - 1]))
  }

  // ---------------------------------------------------------------- the backfill

  /** The states recorded by the bucket. */
  function StatesBy(states: seq<State>, bucket: int): seq<State> {
    if states == [] then [] else
    var last := states[|states| - 1];
    StatesBy(states[..|states| - 1], bucket) + if last.createdAt <= bucket then [last] else []
  }

  /** The bot as the query sees it: joined to its latest state at the bucket, if any. */
  function AsOf(b: Bot, bucket: int): Bot {
    b.(states := StatesBy(b.states, bucket))
  }

  /** The query's CASE expressions for one joined row; a bot created later is not joined at all. */
  function BackfillShare(row: Bot, bucket: int): Totals {
    if row.createdAt > bucket || row.states == [] then NOTHING else
    var latest := Latest(row).value;
    if ArchivedBy(row, bucket) then
      var closed := if row.position.Some? then row.position.value.realized + row.position.value.unrealized
                    else latest.pnl.realized + latest.pnl.unrealized;
      NOTHING.(realized := closed, total := closed)
    else Totals(1, Count(IsActive(latest.status)), row.budget.UnwrapOr(0), latest.deployed,
                latest.pnl.realized, latest.pnl.unrealized, latest.pnl.realized + latest.pnl.unrealized, latest.equity)
  }

  /** COALESCE(SUM(...), 0) over the joined rows. */
  function BackfillTotals(bots: seq<Bot>, bucket: int): Totals {
    if bots == [] then NOTHING
    else Plus(BackfillTotals(bots[..|bots| - 1], bucket), BackfillShare(AsOf(bots[|bots| - 1], bucket), bucket))
  }

  /** HAVING: no row for a bucket at which no bot had a state. */
  function BackfillRow(bots: seq<Bot>, bucket: int): Option<Totals> {
    if exists b :: b in bots && b.createdAt <= bucket && StatesBy(b.states, bucket) != []
    then Some(BackfillTotals(bots, bucket)) else None
  }

  // ---------------------------------------------------------------- total = realised + unrealised

  ghost predicate Balanced(t: Totals) { t.total == t.realized + t.unrealized }

  lemma ShareBalanced(b: Bot, now: int)
    ensures Balanced(SnapshotShare(b, now)) && Balanced(DashboardShare(b)) && Balanced(BackfillShare(b, now))
  {
  }

  /** After any number of bots, in all three. */
  lemma {:induction false} AlwaysBalanced(bots: seq<Bot>, now: int)
    ensures Balanced(SnapshotTotals(bots, now)) && Balanced(DashboardTotals(bots)) && Balanced(BackfillTotals(bots, now))
  {
    hide SnapshotShare, DashboardShare, BackfillShare;
    if bots != [] {
      var n := |bots| - 1;
      AlwaysBalanced(bots[..n], now);
      ShareBalanced(bots[n], now);
      ShareBalanced(AsOf(bots[n], now), now);
    }
  }

  // ---------------------------------------------------------------- the code

  lemma ClosedPnlIs(b: Bot)
    ensures b.position.Some? ==> ClosedPnl(b) == Sum(b.position.value)
    ensures b.position.None? ==> ClosedPnl(b) == LatestPnl(b).realized + LatestPnl(b).unrealized
  {
  }

  lemma LatestPnlIs(b: Bot)
    ensures Latest(b).Some? ==> LatestPnl(b) == Latest(b).value.pnl
    ensures Latest(b).None? ==> LatestPnl(b) == Pnl(0, 0)
  {
  }

  /** The PnL part of the callback. */
  method BotPnl(bot: Bot, now: int) returns (isArchived: bool, realizedPnl: int, unrealizedPnl: int)
    ensures isArchived == ArchivedBy(bot, now)
    ensures if isArchived then realizedPnl + unrealizedPnl == ClosedPnl(bot)
            else realizedPnl == LatestPnl(bot).realized && unrealizedPnl == LatestPnl(bot).unrealized
  {
    hide Latest, LatestPnl, ClosedPnl, Sum;
    ClosedPnlIs(bot);
    LatestPnlIs(bot);
    var latest := Latest(bot);
    isArchived := bot.archivedAt.Some? && bot.archivedAt.value <= now;
    if isArchived && bot.position.Some? {
      realizedPnl, unrealizedPnl := Sum(bot.position.value), 0;
    } else {
      realizedPnl := if latest.Some? then latest.value.pnl.realized else 0;
      unrealizedPnl := if latest.Some? then latest.value.pnl.unrealized else 0;
    }
  }

  /** The callback of the reduce, which updates the accumulator. */
  method AddBot(accumulator: Totals, bot: Bot, now: int) returns (t: Totals)
    ensures t == Plus(accumulator, SnapshotShare(bot, now))
  {
    hide LatestPnl, ClosedPnl, ArchivedBy, EquityOf;
    var isArchived, realizedPnl, unrealizedPnl := BotPnl(bot, now);
    var totalPnl := realizedPnl + unrealizedPnl;
    var latest, budget := Latest(bot), bot.budget.UnwrapOr(0);
    t := accumulator;
    if !isArchived {
      var deployed, equity := if latest.Some? then latest.value.deployed else 0, if latest.Some? then latest.value.equity else budget;
      assert equity == EquityOf(bot) by { EquityIs(bot); }
      t := t.(botCount := t.botCount + 1, active := t.active + Count(IsActive(bot.status)), budget := t.budget + budget,
              deployed := t.deployed + deployed, realized := t.realized + realizedPnl,
              unrealized := t.unrealized + unrealizedPnl, equity := t.equity + equity);
    } else {
      t := t.(realized := t.realized + totalPnl);
    }
    t := t.(total := t.total + totalPnl);
  }

  lemma EquityIs(b: Bot)
    ensures EquityOf(b) == if Latest(b).Some? then Latest(b).value.equity else b.budget.UnwrapOr(0)
  {
  }

  /** createPortfolioSnapshot over one mode's bots: realised and unrealised PnL add up to the total after every bot. */
  method FoldSnapshot(bots: seq<Bot>, now: int) returns (t: Totals)
    ensures t == SnapshotTotals(bots, now) && Balanced(t)
  {
    hide SnapshotShare, Plus, Balanced;
    t := NOTHING;
    AlwaysBalanced(bots[..0], now);
    for i := 0 to |bots|
      invariant t == SnapshotTotals(bots[..i], now)
      invariant Balanced(t)
    {
      assert bots[..i + 1][..i] == bots[..i];
      AlwaysBalanced(bots[..i + 1], now);
      t := AddBot(t, bots[i], now);
    }
    assert bots[..|bots|] == bots;
  }

  // ---------------------------------------------------------------- snapshot against dashboard

  function Total(f: Bot -> int, bots: seq<Bot>): int {
    if bots == [] then 0 else Total(f, bots[..|bots| - 1]) + f(bots[|bots| - 1])
  }

  /** What one bot adds to the snapshot, in numbers: a bot that is not archived by now counts once, as active when it
      is running or cooling down, with its budget and the figures of its last state (a bot without one stands at its
      budget); an archived bot adds only what its position, or else its last state, closed at. */
  ghost function ShareInNumbers(b: Bot, now: int): Totals {
    var last := if b.states == [] then State(0, OtherStatus, 0, Pnl(0, 0), b.budget.UnwrapOr(0)) else b.states[|b.states| - 1];
    if b.archivedAt.None? || b.archivedAt.value > now then
      Totals(1, if b.status == Running || b.status == Cooldown then 1 else 0, b.budget.UnwrapOr(0), last.deployed,
             last.pnl.realized, last.pnl.unrealized, last.pnl.realized + last.pnl.unrealized, last.equity)
    else
      var closed := if b.position.Some? then b.position.value else last.pnl;
      Totals(0, 0, 0, 0, closed.realized + closed.unrealized, 0, closed.realized + closed.unrealized, 0)
  }

  lemma ShareIs(b: Bot, now: int)
    ensures SnapshotShare(b, now) == ShareInNumbers(b, now)
  {
  }

  /** One figure of every bot's share. */
  ghost function Figure(now: int, f: Totals -> int): Bot -> int {
    (b: Bot) => f(ShareInNumbers(b, now))
  }

  /** Every total of the snapshot is the sum of that figure over the bots. */
  lemma {:induction false} SnapshotSums(bots: seq<Bot>, now: int)
    ensures var t := SnapshotTotals(bots, now);
      && t.botCount == Total(Figure(now, (x: Totals) => x.botCount), bots) && t.active == Total(Figure(now, (x: Totals) => x.active), bots)
      && t.budget == Total(Figure(now, (x: Totals) => x.budget), bots)
      && t.deployed == Total(Figure(now, (x: Totals) => x.deployed), bots)
      && t.realized == Total(Figure(now, (x: Totals) => x.realized), bots)
      && t.unrealized == Total(Figure(now, (x: Totals) => x.unrealized), bots)
      && t.total == Total(Figure(now, (x: Totals) => x.total), bots) && t.equity == Total(Figure(now, (x: Totals) => x.equity), bots)
  {
    hide SnapshotShare, ShareInNumbers;
    if bots != [] {
      SnapshotSums(bots[..|bots| - 1], now);
      ShareIs(bots[|bots| - 1], now);
    }
  }

  /** An archive date that lies in the future: closed for the dashboard, still open for the snapshot. */
  predicate FutureArchive(b: Bot, now: int) { b.archivedAt.Some? && b.archivedAt.value > now }

  ghost function FutureUnrealized(now: int): Bot -> int {
    (b: Bot) => if FutureArchive(b, now) then LatestPnl(b).unrealized else 0
  }

  ghost function FutureClosed(now: int): Bot -> int {
    (b: Bot) => if FutureArchive(b, now) then ClosedPnl(b) - LatestPnl(b).realized else 0
  }

  ghost function StatelessBudget(now: int): Bot -> int {
    (b: Bot) => if b.archivedAt.None? && b.states == [] then b.budget.UnwrapOr(0) else 0
  }

  lemma ShareAgainstDashboard(b: Bot, now: int)
    ensures var s, d := SnapshotShare(b, now), DashboardShare(b);
      && s.unrealized - d.unrealized == FutureUnrealized(now)(b)
      && d.realized - s.realized == FutureClosed(now)(b)
      && d.total - s.total == FutureClosed(now)(b) - FutureUnrealized(now)(b)
      && (!FutureArchive(b, now) ==> s == d.(equity := d.equity + StatelessBudget(now)(b)))
  {
  }

  /** How far apart the two are, for any bots: only bots with a future archive date make the PnL differ. */
  lemma {:induction false} SnapshotAgainstDashboard(bots: seq<Bot>, now: int)
    ensures var s, d := SnapshotTotals(bots, now), DashboardTotals(bots);
      && s.unrealized - d.unrealized == Total(FutureUnrealized(now), bots)
      && d.realized - s.realized == Total(FutureClosed(now), bots)
      && d.total - s.total == Total(FutureClosed(now), bots) - Total(FutureUnrealized(now), bots)
  {
    hide SnapshotShare, DashboardShare, FutureUnrealized, FutureClosed;
    if bots != [] {
      SnapshotAgainstDashboard(bots[..|bots| - 1], now);
      ShareAgainstDashboard(bots[|bots| - 1], now);
    }
  }

  ghost predicate NoFutureArchive(bots: seq<Bot>, now: int) {
    forall b :: b in bots ==> !FutureArchive(b, now)
  }

  /** With no archive date in the future they agree on everything but equity, where the snapshot counts
      a visible bot without a state at its budget and the dashboard at nothing. */
  lemma {:induction false} SnapshotIsDashboard(bots: seq<Bot>, now: int)
    requires NoFutureArchive(bots, now)
    ensures SnapshotTotals(bots, now) ==
            var d := DashboardTotals(bots); d.(equity := d.equity + Total(StatelessBudget(now), bots))
  {
    hide SnapshotShare, DashboardShare, StatelessBudget, FutureArchive;
    if bots != [] {
      var n := |bots| - 1;
      assert bots[n] in bots;
      SnapshotIsDashboard(bots[..n], now);
      ShareAgainstDashboard(bots[n], now);
    }
  }

  lemma OneBot(b: Bot, now: int)
    ensures SnapshotTotals([b], now) == SnapshotShare(b, now) && DashboardTotals([b]) == DashboardShare(b)
  {
    hide SnapshotShare, DashboardShare;
    assert [b][..0] == [];
  }

  /** A future archive date really separates them: a bot whose position closed at another PnL than its
      latest state, archived an hour from now. */
  lemma FutureArchiveDisagrees(now: int)
    ensures exists b: Bot ::
      (&& FutureArchive(b, now)
       && SnapshotTotals([b], now).total != DashboardTotals([b]).total
       && SnapshotTotals([b], now).unrealized != DashboardTotals([b]).unrealized)
  {
    var b := Bot(now - 2, Running, Some(now + 3_600_000), Some(Pnl(5, 0)), Some(100), [State(now - 1, Running, 40, Pnl(1, 2), 103)]);
    OneBot(b, now);
    assert SnapshotShare(b, now).total == 3 && DashboardShare(b).total == 5;
    assert SnapshotShare(b, now).unrealized == 2 && DashboardShare(b).unrealized == 0;
    hide SnapshotTotals, DashboardTotals, SnapshotShare, DashboardShare;
    assert FutureArchive(b, now);
  }

  // ---------------------------------------------------------------- backfill against snapshot

  /** What had been recorded by the bucket: the bots created by then, each with its states up to then. */
  function SeenAt(bots: seq<Bot>, bucket: int): seq<Bot> {
    if bots == [] then [] else
    var last := bots[|bots| - 1];
    SeenAt(bots[..|bots| - 1], bucket) + if last.createdAt <= bucket then [AsOf(last, bucket)] else []
  }

  /** s is the last of the states that was recorded by the bucket. */
  ghost predicate LatestBy(s: State, states: seq<State>, bucket: int) {
    exists i :: 0 <= i < |states| && s == states[i] && s.createdAt <= bucket && forall j :: i < j < |states| ==> states[j].createdAt > bucket
  }

  lemma LatestSnoc(init: seq<State>, last: State, bucket: int)
    ensures last.createdAt <= bucket ==> LatestBy(last, init + [last], bucket)
    ensures forall s :: last.createdAt > bucket && LatestBy(s, init, bucket) ==> LatestBy(s, init + [last], bucket)
  {
    var states := init + [last];
    if last.createdAt <= bucket { assert states[|init|] == last; }
    forall s | last.createdAt > bucket && LatestBy(s, init, bucket) ensures LatestBy(s, states, bucket) {
      var i :| 0 <= i < |init| && s == init[i] && s.createdAt <= bucket && forall j :: i < j < |init| ==> init[j].createdAt > bucket;
      assert states[i] == s;
    }
  }

  lemma StatesBySnoc(init: seq<State>, last: State, bucket: int)
    ensures StatesBy(init + [last], bucket) == if last.createdAt <= bucket then StatesBy(init, bucket) + [last] else StatesBy(init, bucket)
  {
    assert (init + [last])[..|init|] == init;
  }

  lemma {:induction false} StatesKept(states: seq<State>, bucket: int)
    ensures forall s :: s in StatesBy(states, bucket) <==> s in states && s.createdAt <= bucket
  {
    if states != [] {
      hide StatesBy;
      var init, last := states[..|states| - 1], states[|states| - 1];
      assert states == init + [last];
      StatesKept(init, bucket);
      StatesBySnoc(init, last, bucket);
    }
  }

  ghost predicate EndsInLatest(kept: seq<State>, states: seq<State>, bucket: int) {
    kept != [] ==> LatestBy(kept[|kept| - 1], states, bucket)
  }

  lemma {:induction false} StatesLatest(states: seq<State>, bucket: int)
    ensures EndsInLatest(StatesBy(states, bucket), states, bucket)
  {
    if states != [] {
      hide LatestBy, StatesBy;
      var init, last := states[..|states| - 1], states[|states| - 1];
      assert states == init + [last];
      StatesLatest(init, bucket);
      LatestSnoc(init, last, bucket);
      StatesBySnoc(init, last, bucket);
    }
  }

  /** The states recorded by the bucket are kept and no others, and the one the query joins is the last of them. */
  lemma StatesByBucket(states: seq<State>, bucket: int)
    ensures forall s :: s in StatesBy(states, bucket) <==> s in states && s.createdAt <= bucket
    ensures var kept := StatesBy(states, bucket); kept != [] ==> LatestBy(kept[|kept| - 1], states, bucket)
  {
    hide LatestBy, StatesBy;
    StatesKept(states, bucket);
    StatesLatest(states, bucket);
  }

  ghost function Unseen(bucket: int): Bot -> int {
    (b: Bot) => if b.states == [] && ArchivedBy(b, bucket) then ClosedPnl(b) else 0
  }

  ghost function UnseenBudget(bucket: int): Bot -> int {
    (b: Bot) => if b.states == [] && !ArchivedBy(b, bucket) then b.budget.UnwrapOr(0) else 0
  }

  ghost function UnseenCount(bucket: int): Bot -> int {
    (b: Bot) => if b.states == [] && !ArchivedBy(b, bucket) then 1 else 0
  }

  /** Where the bot's own status and that of its latest state count differently. */
  ghost function StatusGap(bucket: int): Bot -> int {
    (b: Bot) => if ArchivedBy(b, bucket) then 0
                else Count(IsActive(b.status)) - (if b.states == [] then 0 else Count(IsActive(Latest(b).value.status)))
  }

  /** Two totals that differ by so many bots, active bots, budget (also as equity) and realised PnL. */
  ghost predicate Apart(s: Totals, f: Totals, count: int, active: int, budget: int, realized: int) {
    && s.botCount - f.botCount == count && s.active - f.active == active
    && s.budget - f.budget == budget == s.equity - f.equity
    && s.realized - f.realized == realized == s.total - f.total
    && s.deployed == f.deployed && s.unrealized == f.unrealized
  }

  lemma ShareAgainstBackfill(row: Bot, bucket: int)
    requires row.createdAt <= bucket
    ensures Apart(SnapshotShare(row, bucket), BackfillShare(row, bucket),
                  UnseenCount(bucket)(row), StatusGap(bucket)(row), UnseenBudget(bucket)(row), Unseen(bucket)(row))
  {
  }

  lemma ApartPlus(s: Totals, f: Totals, t: Totals, g: Totals, c: int, a: int, b: int, r: int, c': int, a': int, b': int, r': int)
    requires Apart(s, f, c, a, b, r) && Apart(t, g, c', a', b', r')
    ensures Apart(Plus(s, t), Plus(f, g), c + c', a + a', b + b', r + r')
  {
  }

  lemma TotalSnoc(f: Bot -> int, bots: seq<Bot>, b: Bot)
    ensures Total(f, bots + [b]) == Total(f, bots) + f(b)
  {
    assert (bots + [b])[..|bots|] == bots;
  }

  lemma SnapshotSnoc(bots: seq<Bot>, b: Bot, now: int)
    ensures SnapshotTotals(bots + [b], now) == Plus(SnapshotTotals(bots, now), SnapshotShare(b, now))
  {
    hide SnapshotShare;
    assert (bots + [b])[..|bots|] == bots;
  }

  /** What the last bot adds on either side; a bot created after the bucket adds nothing. */
  lemma LastBot(bots: seq<Bot>, bucket: int)
    requires bots != []
    ensures var n := |bots| - 1; var row, seen := AsOf(bots[n], bucket), SeenAt(bots[..n], bucket);
      && row.createdAt == bots[n].createdAt
      && SeenAt(bots, bucket) == (if row.createdAt <= bucket then seen + [row] else seen)
      && BackfillTotals(bots, bucket) == (if row.createdAt <= bucket
           then Plus(BackfillTotals(bots[..n], bucket), BackfillShare(row, bucket)) else BackfillTotals(bots[..n], bucket))
  {
    if bots[|bots| - 1].createdAt <= bucket { hide BackfillShare; }
    hide StatesBy;
  }

  lemma NothingApart(bucket: int)
    ensures Apart(SnapshotTotals(SeenAt([], bucket), bucket), BackfillTotals([], bucket), 0, 0, 0, 0)
    ensures forall f: Bot -> int :: Total(f, SeenAt([], bucket)) == 0
  {
  }

  /** How far the backfill of a bucket is from a snapshot of what had been recorded by then, whatever was
      recorded later: it misses exactly the bots without a state, their budgets (also as equity) and the PnL
      of those already archived, and it reads the active count off the latest states. */
  lemma {:induction false} BackfillAgainstSnapshot(bots: seq<Bot>, bucket: int)
    ensures var seen := SeenAt(bots, bucket);
      Apart(SnapshotTotals(seen, bucket), BackfillTotals(bots, bucket),
            Total(UnseenCount(bucket), seen), Total(StatusGap(bucket), seen),
            Total(UnseenBudget(bucket), seen), Total(Unseen(bucket), seen))
  {
    hide *;
    if bots == [] {
      NothingApart(bucket);
    } else {
      var init := bots[..|bots| - 1];
      var row, seen := AsOf(bots[|bots| - 1], bucket), SeenAt(init, bucket);
      BackfillAgainstSnapshot(init, bucket);
      LastBot(bots, bucket);
      if row.createdAt <= bucket {
        ShareAgainstBackfill(row, bucket);
        SnapshotSnoc(seen, row, bucket);
        TotalSnoc(UnseenCount(bucket), seen, row);
        TotalSnoc(StatusGap(bucket), seen, row);
        TotalSnoc(UnseenBudget(bucket), seen, row);
        TotalSnoc(Unseen(bucket), seen, row);
        ApartPlus(SnapshotTotals(seen, bucket), BackfillTotals(init, bucket), SnapshotShare(row, bucket), BackfillShare(row, bucket),
                  Total(UnseenCount(bucket), seen), Total(StatusGap(bucket), seen), Total(UnseenBudget(bucket), seen),
                  Total(Unseen(bucket), seen), UnseenCount(bucket)(row), StatusGap(bucket)(row), UnseenBudget(bucket)(row),
                  Unseen(bucket)(row));
      }
    }
  }

  lemma {:induction false} NothingUnseen(bots: seq<Bot>, bucket: int)
    requires forall b :: b in bots ==> b.states != []
    ensures Total(Unseen(bucket), bots) == Total(UnseenBudget(bucket), bots) == Total(UnseenCount(bucket), bots) == 0
  {
    if bots != [] {
      assert bots[|bots| - 1] in bots;
      NothingUnseen(bots[..|bots| - 1], bucket);
    }
  }

  lemma SameButActive(s: Totals, f: Totals, active: int)
    requires Apart(s, f, 0, active, 0, 0)
    ensures s == f.(active := s.active)
  {
  }

  lemma {:induction false} SeenComesFrom(bots: seq<Bot>, bucket: int)
    ensures forall row :: row in SeenAt(bots, bucket) ==> exists b :: b in bots && b.createdAt <= bucket && row == AsOf(b, bucket)
  {
    hide AsOf;
    if bots != [] {
      var init, last := bots[..|bots| - 1], bots[|bots| - 1];
      assert bots == init + [last];
      SeenComesFrom(init, bucket);
    }
  }

  lemma HasRow(bots: seq<Bot>, bucket: int)
    requires SeenAt(bots, bucket) != [] && forall b :: b in SeenAt(bots, bucket) ==> b.states != []
    ensures BackfillRow(bots, bucket) == Some(BackfillTotals(bots, bucket))
  {
    hide BackfillTotals, StatesBy, SeenAt;
    SeenComesFrom(bots, bucket);
    var row := SeenAt(bots, bucket)[0];
    assert row in SeenAt(bots, bucket) && row.states != [];
    var b :| b in bots && b.createdAt <= bucket && row == AsOf(b, bucket);
    assert StatesBy(b.states, bucket) == row.states;
  }

  /** The backfill writes a row for a bucket exactly when a bot created by then has a state recorded by then. */
  lemma BackfillRowIff(bots: seq<Bot>, bucket: int)
    ensures BackfillRow(bots, bucket).Some? <==>
            exists b, s :: b in bots && s in b.states && b.createdAt <= bucket && s.createdAt <= bucket
    ensures BackfillRow(bots, bucket).Some? ==> BackfillRow(bots, bucket).value == BackfillTotals(bots, bucket)
  {
    hide BackfillTotals, StatesBy, LatestBy;
    forall b | b in bots ensures StatesBy(b.states, bucket) != [] <==> exists s :: s in b.states && s.createdAt <= bucket {
      StatesByBucket(b.states, bucket);
      if StatesBy(b.states, bucket) != [] { assert StatesBy(b.states, bucket)[0] in StatesBy(b.states, bucket); }
    }
  }

  /** When every bot of that moment has a state by then, the backfill has a row and agrees with the snapshot
      on all but the active count. */
  lemma BackfillIsSnapshot(bots: seq<Bot>, bucket: int)
    requires SeenAt(bots, bucket) != [] && forall b :: b in SeenAt(bots, bucket) ==> b.states != []
    ensures BackfillRow(bots, bucket).Some?
    ensures var s, f := SnapshotTotals(SeenAt(bots, bucket), bucket), BackfillRow(bots, bucket).value; s == f.(active := s.active)
  {
    hide *;
    var seen := SeenAt(bots, bucket);
    HasRow(bots, bucket);
    BackfillAgainstSnapshot(bots, bucket);
    NothingUnseen(seen, bucket);
    SameButActive(SnapshotTotals(seen, bucket), BackfillTotals(bots, bucket), Total(StatusGap(bucket), seen));
  }
}
