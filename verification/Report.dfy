/** Report aggregation (internal/report/reporter.go): the match / group / fold pipeline and its calendar windows. */
module Report {
  import opened Common
  import opened Workers
  import opened Calendar

  datatype Action = Placed | Filled | Cancelled | Rejected

  /** The stored side: the strings "BID" and "ASK", or any other. */
  datatype Side = Bid | Ask | Other(text: string)

  /** A TradeHistory document. */
  datatype Trade = Trade(bot: BotId, side: Side, action: Action, price: real, filledQty: real, fee: real,
                         timestamp: Instant)

  datatype Period = Daily | Weekly | Monthly

  datatype Totals = Totals(fills: int, volume: real, fees: real, pnl: real, bids: int, asks: int)

  const ZERO := Totals(0, 0.0, 0.0, 0.0, 0, 0)

  function Plus(a: Totals, b: Totals): Totals {
    Totals(a.fills + b.fills, a.volume + b.volume, a.fees + b.fees, a.pnl + b.pnl, a.bids + b.bids, a.asks + b.asks)
  }

  // ---- The pipeline ----

  predicate InWindow(t: Trade, bot: BotId, lo: Instant, hi: Instant) {
    t.bot == bot && t.action == Filled && lo <= t.timestamp < hi
  }

  /** $match. */
  function Match(trades: seq<Trade>, bot: BotId, lo: Instant, hi: Instant): seq<Trade> {
    if trades == [] then []
    else
      var n := |trades| - 1;
      var before := Match(trades[..n], bot, lo, hi);
      if InWindow(trades[n], bot, lo, hi) then before + [trades[n]] else before
  }

  datatype GroupRow = GroupRow(side: Side, count: int, volume: real, fees: real)

  /** The $group row of one side. */
  function RowOf(trades: seq<Trade>, side: Side): GroupRow {
    if trades == [] then GroupRow(side, 0, 0.0, 0.0)
    else
      var n := |trades| - 1;
      var row := RowOf(trades[..n], side);
      if trades[n].side == side
      then GroupRow(side, row.count + 1, row.volume + trades[n].filledQty, row.fees + trades[n].fee) else row
  }

  /** $group: one row for every side that occurs. */
  function Group(trades: seq<Trade>): map<Side, GroupRow> {
    map side | side in (set t | t in trades :: t.side) :: RowOf(trades, side)
  }

  /** What one row adds to the report. */
  function RowTotals(row: GroupRow): Totals {
    Totals(row.count, row.volume, row.fees,
           if row.side == Ask then row.volume - row.fees else 0.0,
           if row.side == Bid then row.count else 0,
           if row.side == Ask then row.count else 0)
  }

  function FoldRows(trades: seq<Trade>, sides: seq<Side>): Totals {
    if sides == [] then ZERO
    else Plus(FoldRows(trades, sides[..|sides| - 1]), RowTotals(RowOf(trades, sides[|sides| - 1])))
  }

  // ---- One pass over the trades ----

  /** What one filled trade is worth to the report. */
  function Contribution(t: Trade): Totals {
    Totals(1, t.filledQty, t.fee,
           if t.side == Ask then t.filledQty - t.fee else 0.0,
           if t.side == Bid then 1 else 0,
           if t.side == Ask then 1 else 0)
  }

  /** The totals of the filled trades of a bot in [lo, hi), read off in a single pass. */
  function Direct(trades: seq<Trade>, bot: BotId, lo: Instant, hi: Instant): Totals {
    if trades == [] then ZERO
    else
      var t := trades[|trades| - 1];
      var before := Direct(trades[..|trades| - 1], bot, lo, hi);
      if InWindow(t, bot, lo, hi) then Plus(before, Contribution(t)) else before
  }

  /** The part of a one-pass sum that falls on the given sides. */
  function SumOn(trades: seq<Trade>, sides: set<Side>): Totals {
    if trades == [] then ZERO
    else
      var t := trades[|trades| - 1];
      var before := SumOn(trades[..|trades| - 1], sides);
      if t.side in sides then Plus(before, Contribution(t)) else before
  }

  lemma {:induction false} OneMoreSide(trades: seq<Trade>, sides: set<Side>, side: Side)
    requires side !in sides
    ensures SumOn(trades, sides + {side}) == Plus(SumOn(trades, sides), RowTotals(RowOf(trades, side)))
  {
    RowSide(trades, side);
    if trades != [] {
      RowSide(trades[..|trades| - 1], side);
      OneMoreSide(trades[..|trades| - 1], sides, side);
    }
  }

  lemma {:induction false} FoldIsSum(trades: seq<Trade>, sides: seq<Side>)
    requires NoDuplicates(sides)
    ensures FoldRows(trades, sides) == SumOn(trades, set s | s in sides)
  {
    hide SumOn, RowOf, RowTotals;
    if sides == [] {
      NoSides(trades);
      assert (set s | s in sides) == {};
    } else {
      var n := |sides| - 1;
      FoldIsSum(trades, sides[..n]);
      OneMoreSide(trades, (set s | s in sides[..n]), sides[n]);
      assert sides == sides[..n] + [sides[n]];
      assert (set s | s in sides) == (set s | s in sides[..n]) + {sides[n]};
    }
  }

  lemma {:induction false} NoSides(trades: seq<Trade>)
    ensures SumOn(trades, {}) == ZERO
  {
    if trades != [] {
      NoSides(trades[..|trades| - 1]);
    }
  }

  lemma {:induction false} MatchedSum(trades: seq<Trade>, bot: BotId, lo: Instant, hi: Instant, sides: set<Side>)
    requires forall t :: t in Match(trades, bot, lo, hi) ==> t.side in sides
    ensures SumOn(Match(trades, bot, lo, hi), sides) == Direct(trades, bot, lo, hi)
  {
    if trades != [] {
      var n := |trades| - 1;
      var before := Match(trades[..n], bot, lo, hi);
      assert forall t :: t in before ==> t in Match(trades, bot, lo, hi);
      MatchedSum(trades[..n], bot, lo, hi, sides);
      if InWindow(trades[n], bot, lo, hi) {
        assert (before + [trades[n]])[..|before|] == before;
        assert trades[n] in Match(trades, bot, lo, hi);
      }
    }
  }

  lemma FoldAll(trades: seq<Trade>, order: seq<Side>, sides: set<Side>)
    requires Enumerates(order, sides)
    ensures FoldRows(trades, order) == SumOn(trades, sides)
  {
    hide FoldRows, SumOn;
    assert (set s | s in order) == sides;
    FoldIsSum(trades, order);
  }

  /** Matching, grouping by side and folding the group rows in any order is the same report
      as one pass over the trades. */
  lemma PipelineIsDirect(trades: seq<Trade>, bot: BotId, lo: Instant, hi: Instant, sides: seq<Side>)
    requires Enumerates(sides, Group(Match(trades, bot, lo, hi)).Keys)
    ensures FoldRows(Match(trades, bot, lo, hi), sides) == Direct(trades, bot, lo, hi)
  {
    var matched := Match(trades, bot, lo, hi);
    FoldAll(matched, sides, Group(matched).Keys);
    MatchedSum(trades, bot, lo, hi, Group(matched).Keys);
  }

  /** The report does not depend on the order in which the history is stored. */
  lemma {:induction false} DirectOfPermutation(a: seq<Trade>, b: seq<Trade>, bot: BotId, lo: Instant, hi: Instant)
    requires multiset(a) == multiset(b)
    ensures Direct(a, bot, lo, hi) == Direct(b, bot, lo, hi)
  {
    hide Direct;
    if a == [] {
      assert |b| == |multiset(b)| == 0;
    } else {
      var n, t := |a| - 1, a[|a| - 1];
      assert a == a[..n] + [t];
      assert t in multiset(b);
      var i :| 0 <= i < |b| && b[i] == t;
      var rest := b[..i] + b[i + 1..];
      RemoveOne(a[..n], t, b, i);
      DirectOfPermutation(a[..n], rest, bot, lo, hi);
      DirectAppend(a[..n], [t], bot, lo, hi);
      DirectWithout(b, i, bot, lo, hi);
    }
  }

  lemma DirectWithout(b: seq<Trade>, i: nat, bot: BotId, lo: Instant, hi: Instant)
    requires i < |b|
    ensures Direct(b, bot, lo, hi) == Plus(Direct(b[..i] + b[i + 1..], bot, lo, hi), Direct([b[i]], bot, lo, hi))
  {
    hide Direct;
    var t := b[i];
    assert b == b[..i] + [t] + b[i + 1..];
    DirectAppend(b[..i] + [t], b[i + 1..], bot, lo, hi);
    DirectAppend(b[..i], [t], bot, lo, hi);
    DirectAppend(b[..i], b[i + 1..], bot, lo, hi);
  }

  lemma RemoveOne<T>(a: seq<T>, t: T, b: seq<T>, i: nat)
    requires i < |b| && b[i] == t
    requires multiset(a + [t]) == multiset(b)
    ensures b == b[..i] + [t] + b[i + 1..]
    ensures multiset(a) == multiset(b[..i] + b[i + 1..])
  {
    assert b == b[..i] + [t] + b[i + 1..];
    assert multiset(a) == multiset(a + [t]) - multiset{t};
    assert multiset(b) == multiset(b[..i] + b[i + 1..]) + multiset{t};
  }

  lemma {:induction false} DirectAppend(a: seq<Trade>, b: seq<Trade>, bot: BotId, lo: Instant, hi: Instant)
    ensures Direct(a + b, bot, lo, hi) == Plus(Direct(a, bot, lo, hi), Direct(b, bot, lo, hi))
  {
    if b == [] {
      assert a + b == a;
    } else {
      var n := |b| - 1;
      assert (a + b)[..|a + b| - 1] == a + b[..n];
      DirectAppend(a, b[..n], bot, lo, hi);
    }
  }

  // ---- What the totals mean ----

  /** One more trade counts iff it is a fill of this bot in the window; then it adds one fill, its quantity
      and its fee, one bid or ask by its side, and, for an ask, its quantity less its fee to the PnL.
      Without trades everything is zero. */
  lemma OneMoreTrade(trades: seq<Trade>, t: Trade, bot: BotId, lo: Instant, hi: Instant)
    ensures Direct([], bot, lo, hi) == Totals(0, 0.0, 0.0, 0.0, 0, 0)
    ensures var d, d' := Direct(trades, bot, lo, hi), Direct(trades + [t], bot, lo, hi);
            && (d' != d <==> t.bot == bot && t.action == Filled && lo <= t.timestamp < hi)
            && (d' != d ==>
                  && d'.fills == d.fills + 1
                  && d'.volume == d.volume + t.filledQty
                  && d'.fees == d.fees + t.fee
                  && d'.bids == d.bids + (if t.side == Bid then 1 else 0)
                  && d'.asks == d.asks + (if t.side == Ask then 1 else 0)
                  && d'.pnl == d.pnl + if t.side == Ask then t.filledQty - t.fee else 0.0)
  {
    assert (trades + [t])[..|trades|] == trades;
  }

  lemma {:induction false} CountsAdd(trades: seq<Trade>, bot: BotId, lo: Instant, hi: Instant)
    ensures var d := Direct(trades, bot, lo, hi);
            && d.bids >= 0 && d.asks >= 0 && d.bids + d.asks <= d.fills
            && (d.fills == d.bids + d.asks <==>
                  forall t :: t in trades && InWindow(t, bot, lo, hi) ==> t.side == Bid || t.side == Ask)
  {
    if trades != [] {
      var n := |trades| - 1;
      CountsAdd(trades[..n], bot, lo, hi);
      assert trades == trades[..n] + [trades[n]];
      assert forall t :: t in trades <==> t in trades[..n] || t == trades[n];
    }
  }

  /** The PnL is the filled quantity of the asks minus their fees. */
  lemma {:induction false} PnlIsAskVolumeMinusAskFees(trades: seq<Trade>, bot: BotId, lo: Instant, hi: Instant)
    ensures var row := RowOf(Match(trades, bot, lo, hi), Ask);
            Direct(trades, bot, lo, hi).pnl == row.volume - row.fees && Direct(trades, bot, lo, hi).asks == row.count
  {
    if trades != [] {
      var n := |trades| - 1;
      PnlIsAskVolumeMinusAskFees(trades[..n], bot, lo, hi);
      var before := Match(trades[..n], bot, lo, hi);
      assert (before + [trades[n]])[..|before|] == before;
    }
  }

  /** The PnL that the source's comment describes: ask revenue, price times quantity, minus ask fees. */
  function DocumentedPnl(trades: seq<Trade>, bot: BotId, lo: Instant, hi: Instant): real {
    if trades == [] then 0.0
    else
      var t := trades[|trades| - 1];
      var before := DocumentedPnl(trades[..|trades| - 1], bot, lo, hi);
      if InWindow(t, bot, lo, hi) && t.side == Ask then before + Revenue(t) - t.fee else before
  }

  function Revenue(t: Trade): real { t.price * t.filledQty }

  /** What the documented PnL counts for an ask beyond what the code counts. */
  function Excess(t: Trade): real { (t.price - 1.0) * t.filledQty }

  /** The excess of the filled asks of a bot in [lo, hi), added up. */
  function ExcessSum(trades: seq<Trade>, bot: BotId, lo: Instant, hi: Instant): real {
    if trades == [] then 0.0
    else
      var t := trades[|trades| - 1];
      var before := ExcessSum(trades[..|trades| - 1], bot, lo, hi);
      if InWindow(t, bot, lo, hi) && t.side == Ask then before + Excess(t) else before
  }

  /** The gap of one report, exactly: the code counts every ask as if its price were 1. */
  lemma {:induction false} PnlGap(trades: seq<Trade>, bot: BotId, lo: Instant, hi: Instant)
    ensures DocumentedPnl(trades, bot, lo, hi) - Direct(trades, bot, lo, hi).pnl == ExcessSum(trades, bot, lo, hi)
  {
    if trades != [] {
      var t := trades[|trades| - 1];
      PnlGap(trades[..|trades| - 1], bot, lo, hi);
      assert Revenue(t) - t.filledQty == Excess(t);
      hide Revenue, Excess;
    }
  }

  predicate FilledAsk(t: Trade, bot: BotId, lo: Instant, hi: Instant) {
    InWindow(t, bot, lo, hi) && t.side == Ask
  }

  /** One report shows the documented PnL iff the excesses of its asks cancel. When no ask falls short of its quantity,
      as with prices from 1 on, that is iff every ask has price 1 or quantity 0. */
  lemma OneReportAsDocumentedIff(trades: seq<Trade>, bot: BotId, lo: Instant, hi: Instant)
    ensures var documented := Direct(trades, bot, lo, hi).pnl == DocumentedPnl(trades, bot, lo, hi);
            && (documented <==> ExcessSum(trades, bot, lo, hi) == 0.0)
            && ((forall t :: t in trades && FilledAsk(t, bot, lo, hi) ==> Excess(t) >= 0.0) ==>
                  (documented <==> forall t :: t in trades && FilledAsk(t, bot, lo, hi) ==> UnitPriced(t)))
  {
    PnlGap(trades, bot, lo, hi);
    if forall t :: t in trades && FilledAsk(t, bot, lo, hi) ==> Excess(t) >= 0.0 {
      NothingToCancel(trades, bot, lo, hi);
    }
  }

  lemma {:induction false} NothingToCancel(trades: seq<Trade>, bot: BotId, lo: Instant, hi: Instant)
    requires forall t :: t in trades && FilledAsk(t, bot, lo, hi) ==> Excess(t) >= 0.0
    ensures ExcessSum(trades, bot, lo, hi) >= 0.0
    ensures ExcessSum(trades, bot, lo, hi) == 0.0 <==>
            (forall t :: t in trades && FilledAsk(t, bot, lo, hi) ==> UnitPriced(t))
  {
    if trades != [] {
      var n, last := |trades| - 1, trades[|trades| - 1];
      assert trades == trades[..n] + [last];
      assert forall t :: t in trades <==> t in trades[..n] || t == last;
      NothingToCancel(trades[..n], bot, lo, hi);
      ExcessZeroIff(last);
      hide Excess, UnitPriced;
    }
  }

  lemma ExcessZeroIff(t: Trade)
    ensures Excess(t) == 0.0 <==> UnitPriced(t)
  {
    RevenueIsQuantityIff(t);
    assert Revenue(t) - t.filledQty == Excess(t);
  }

  predicate UnitPriced(t: Trade) { t.price == 1.0 || t.filledQty == 0.0 }

  /** The report shows the documented PnL after every trade of a growing history. */
  predicate PnlAsDocumented(trades: seq<Trade>, bot: BotId, lo: Instant, hi: Instant) {
    trades != [] ==>
    && PnlAsDocumented(trades[..|trades| - 1], bot, lo, hi)
    && Direct(trades, bot, lo, hi).pnl == DocumentedPnl(trades, bot, lo, hi)
  }

  /** That holds iff every filled ask in the window has price 1 or quantity 0: the code adds
      up quantities, not revenue. */
  lemma {:induction false} PnlAsDocumentedIff(trades: seq<Trade>, bot: BotId, lo: Instant, hi: Instant)
    ensures PnlAsDocumented(trades, bot, lo, hi)
       <==> (forall t :: t in trades && InWindow(t, bot, lo, hi) && t.side == Ask ==> UnitPriced(t))
  {
    if trades != [] {
      var n, last := |trades| - 1, trades[|trades| - 1];
      PnlAsDocumentedIff(trades[..n], bot, lo, hi);
      PrefixAgrees(trades[..n], bot, lo, hi);
      assert trades == trades[..n] + [last];
      assert forall t :: t in trades <==> t in trades[..n] || t == last;
      RevenueIsQuantityIff(last);
      hide Revenue, UnitPriced;
    }
  }

  lemma PrefixAgrees(trades: seq<Trade>, bot: BotId, lo: Instant, hi: Instant)
    ensures PnlAsDocumented(trades, bot, lo, hi) ==>
            Direct(trades, bot, lo, hi).pnl == DocumentedPnl(trades, bot, lo, hi)
  {
  }

  lemma RevenueIsQuantityIff(t: Trade)
    ensures Revenue(t) == t.filledQty <==> UnitPriced(t)
  {
    var x, q := t.price - 1.0, t.filledQty;
    assert Revenue(t) - q == x * q;
    if x * q == 0.0 && q != 0.0 {
      assert x == x * q / q;
    }
  }

  /** One ask of quantity 2 at price 3: the code reports a PnL of 2, the comment describes 6. */
  lemma PnlDiffersFromDocumented(bot: BotId)
    ensures var ask := Trade(bot, Ask, Filled, 3.0, 2.0, 0.0, 0);
            Direct([ask], bot, 0, 1).pnl == 2.0 && DocumentedPnl([ask], bot, 0, 1) == 6.0
  {
    var ask := Trade(bot, Ask, Filled, 3.0, 2.0, 0.0, 0);
    assert [ask][..0] == [];
    assert Direct([], bot, 0, 1) == ZERO;
    assert DocumentedPnl([], bot, 0, 1) == 0.0;
  }

  // ---- Windows ----

  /** windowStart, on the day that ends the window. */
  function WindowStart(period: Period, end: Day): Day {
    match period
    case Weekly => AddDate(end, 0, 0, -7)
    case Monthly => AddDate(end, 0, -1, 0)
    case Daily => AddDate(end, 0, 0, -1)
  }

  /** The totals of the report of a period whose window ends at the start of day `end`. */
  function ReportTotals(trades: seq<Trade>, bot: BotId, period: Period, end: Day): Totals {
    Direct(trades, bot, Midnight(WindowStart(period, end)), Midnight(end))
  }

  lemma {:induction false} WindowsAdd(trades: seq<Trade>, bot: BotId, lo: Instant, mid: Instant, hi: Instant)
    requires lo <= mid <= hi
    ensures Direct(trades, bot, lo, hi) == Plus(Direct(trades, bot, lo, mid), Direct(trades, bot, mid, hi))
  {
    if trades != [] {
      WindowsAdd(trades[..|trades| - 1], bot, lo, mid, hi);
    }
  }

  /** The daily reports of the n days from `first` on, added up. */
  function DailySum(trades: seq<Trade>, bot: BotId, first: Day, n: nat): Totals {
    if n == 0 then ZERO
    else Plus(DailySum(trades, bot, first, n - 1), ReportTotals(trades, bot, Daily, first + n))
  }

  lemma {:induction false} EmptyWindow(trades: seq<Trade>, bot: BotId, at: Instant)
    ensures Direct(trades, bot, at, at) == ZERO
  {
    if trades != [] {
      EmptyWindow(trades[..|trades| - 1], bot, at);
    }
  }

  /** Consecutive daily reports partition the history of the span they cover. */
  lemma {:induction false} DailyReportsTile(trades: seq<Trade>, bot: BotId, first: Day, n: nat)
    ensures DailySum(trades, bot, first, n) == Direct(trades, bot, Midnight(first), Midnight(first + n))
  {
    hide AddDate, Direct;
    if n == 0 {
      EmptyWindow(trades, bot, Midnight(first));
    } else {
      DailyReportsTile(trades, bot, first, n - 1);
      AddDays(first + n, -1);
      WindowsAdd(trades, bot, Midnight(first), Midnight(first + n - 1), Midnight(first + n));
    }
  }

  /** A weekly report equals the sum of the daily reports of its seven days. */
  lemma WeeklyConservesDaily(trades: seq<Trade>, bot: BotId, end: Day)
    ensures ReportTotals(trades, bot, Weekly, end) == DailySum(trades, bot, end - 7, 7)
  {
    hide AddDate;
    AddDays(end, -7);
    DailyReportsTile(trades, bot, end - 7, 7);
  }

  lemma MonthStart(end: Day)
    ensures 28 <= end - WindowStart(Monthly, end) <= 31
    ensures IsFirst(end) ==>
              && WindowStart(Monthly, end) == PreviousFirst(end)
              && end - WindowStart(Monthly, end) == PreviousLength(end)
  {
    hide AddDate, PreviousFirst, PreviousLength, Date, IsDate;
    PreviousMonth(end);
  }

  /** A monthly report ending on a 1st equals the sum of the daily reports of the month before, 28 to 31 of them;
      ending on any other day it covers the days back to windowStart, and conserves them too. */
  lemma MonthlyConservesDaily(trades: seq<Trade>, bot: BotId, end: Day)
    ensures var start := WindowStart(Monthly, end);
            && 28 <= end - start <= 31
            && ReportTotals(trades, bot, Monthly, end) == DailySum(trades, bot, start, end - start)
            && (IsFirst(end) ==> start == PreviousFirst(end) && end - start == PreviousLength(end))
  {
    hide WindowStart, IsFirst, PreviousFirst, PreviousLength;
    MonthStart(end);
    DailyReportsTile(trades, bot, WindowStart(Monthly, end), end - WindowStart(Monthly, end));
  }

  /** Monthly reports of consecutive firsts leave no gap and count nothing twice. */
  lemma MonthlyReportsTile(trades: seq<Trade>, bot: BotId, end: Day)
    requires IsFirst(end)
    ensures WindowStart(Monthly, NextFirst(end)) == end
    ensures Plus(ReportTotals(trades, bot, Monthly, end), ReportTotals(trades, bot, Monthly, NextFirst(end)))
         == Direct(trades, bot, Midnight(WindowStart(Monthly, end)), Midnight(NextFirst(end)))
  {
    MonthBackFromNextFirst(end);
    hide WindowStart, IsFirst, NextFirst, Direct;
    MonthStart(end);
    MonthStart(NextFirst(end));
    WindowsAdd(trades, bot, Midnight(WindowStart(Monthly, end)), Midnight(end), Midnight(NextFirst(end)));
  }

  lemma MonthBackFromNextFirst(end: Day)
    requires IsFirst(end)
    ensures IsFirst(NextFirst(end)) && WindowStart(Monthly, NextFirst(end)) == end
  {
    hide AddDate, IsFirst, NextFirst;
    MonthsTile(end);
  }

  // ---- Generate ----

  datatype ReportError = AggregateFailed | DecodeFailed | CursorFailed

  /** What the database does to one aggregation: work, refuse, hand out an undecodable k-th row, or break at the end of
      the cursor. */
  datatype Fault = Healthy | RefusesAggregate | UndecodableRow(k: nat) | BreaksCursor

  datatype Report = Report(bot: BotId, period: Period, windowStart: Instant, windowEnd: Instant, totals: Totals)

  /** The report whose window ends at the start of day `end`. */
  function ReportOn(trades: seq<Trade>, bot: BotId, period: Period, end: Day): Report {
    Report(bot, period, Midnight(WindowStart(period, end)), Midnight(end), ReportTotals(trades, bot, period, end))
  }

  /** The report for the day of `at`, whichever way the rows come. */
  function ReportFor(trades: seq<Trade>, bot: BotId, period: Period, at: Instant): Report {
    ReportOn(trades, bot, period, DayOf(at))
  }

  function RowCount(trades: seq<Trade>, bot: BotId, period: Period, at: Instant): nat {
    |Group(Match(trades, bot, Midnight(WindowStart(period, DayOf(at))), Midnight(DayOf(at))))|
  }

  /** The sides that occur among the fills of the report's window. */
  function SidesIn(trades: seq<Trade>, bot: BotId, period: Period, at: Instant): set<Side> {
    var lo, hi := Midnight(WindowStart(period, DayOf(at))), Midnight(DayOf(at));
    set t | t in trades && t.bot == bot && t.action == Filled && lo <= t.timestamp < hi :: t.side
  }

  lemma {:induction false} MatchedIff(trades: seq<Trade>, bot: BotId, lo: Instant, hi: Instant)
    ensures forall t :: t in Match(trades, bot, lo, hi) <==>
              t in trades && t.bot == bot && t.action == Filled && lo <= t.timestamp < hi
  {
    if trades != [] {
      var n := |trades| - 1;
      MatchedIff(trades[..n], bot, lo, hi);
      assert trades == trades[..n] + [trades[n]];
    }
  }

  /** What Generate returns: an error exactly when the database faults before the last row is in, else the report of the
      day of `at`. */
  function Outcome(trades: seq<Trade>, fault: Fault, bot: BotId, period: Period, at: Instant)
    : Result<Report, ReportError>
  {
    match fault
    case RefusesAggregate => Err(AggregateFailed)
    case UndecodableRow(k) =>
      if k < RowCount(trades, bot, period, at) then Err(DecodeFailed) else Ok(ReportFor(trades, bot, period, at))
    case BreaksCursor => Err(CursorFailed)
    case Healthy => Ok(ReportFor(trades, bot, period, at))
  }

  /** A report is the one asked for, over a window that ends with the day of `at`, one or seven days long unless
      monthly; none comes exactly when the database refuses, breaks or hands out an undecodable row. */
  ghost predicate AsAsked(trades: seq<Trade>, fault: Fault, bot: BotId, period: Period, at: Instant,
                          r: Result<Report, ReportError>) {
    && (r.Err? <==>
          || fault == RefusesAggregate || fault == BreaksCursor
          || (fault.UndecodableRow? && fault.k < |SidesIn(trades, bot, period, at)|))
    && (r.Ok? ==>
          var rep := r.value;
          && rep.bot == bot && rep.period == period
          && rep.windowEnd <= at < rep.windowEnd + Minutes(1440) && rep.windowEnd % Minutes(1440) == 0
          && (period == Daily ==> rep.windowEnd - rep.windowStart == Minutes(1440))
          && (period == Weekly ==> rep.windowEnd - rep.windowStart == 7 * Minutes(1440))
          && rep.totals == Direct(trades, bot, rep.windowStart, rep.windowEnd))
  }

  lemma OutcomeAsAsked(trades: seq<Trade>, fault: Fault, bot: BotId, period: Period, at: Instant)
    ensures AsAsked(trades, fault, bot, period, at, Outcome(trades, fault, bot, period, at))
  {
    RowsAreSides(trades, bot, period, at);
    WindowLength(period, at);
    hide Direct, WindowStart, Midnight, Minutes, DayOf, SidesIn, Match, Group;
  }

  lemma RowsAreSides(trades: seq<Trade>, bot: BotId, period: Period, at: Instant)
    ensures RowCount(trades, bot, period, at) == |SidesIn(trades, bot, period, at)|
  {
    hide Match, Midnight, WindowStart;
    var lo, hi := Midnight(WindowStart(period, DayOf(at))), Midnight(DayOf(at));
    MatchedIff(trades, bot, lo, hi);
    assert Group(Match(trades, bot, lo, hi)).Keys == SidesIn(trades, bot, period, at);
  }

  lemma WindowLength(period: Period, at: Instant)
    ensures var lo, hi := Midnight(WindowStart(period, DayOf(at))), Midnight(DayOf(at));
            && hi <= at < hi + Minutes(1440) && hi % Minutes(1440) == 0
            && (period == Daily ==> hi - lo == Minutes(1440))
            && (period == Weekly ==> hi - lo == 7 * Minutes(1440))
  {
    hide AddDate;
    AddDays(DayOf(at), -1);
    AddDays(DayOf(at), -7);
  }

  /** The loop over the cursor, whatever order it yields the group rows in: the sum over all matched trades, unless a
      row does not decode. */
  method FoldCursor(matched: seq<Trade>, fault: Fault) returns (r: Result<Totals, ReportError>)
    ensures r ==
            if fault.UndecodableRow? && fault.k < |Group(matched)| then Err(DecodeFailed)
            else Ok(SumOn(matched, Group(matched).Keys))
  {
    hide Enumerates, Group, RowOf, FoldRows;
    var rows := Group(matched);
    var fills, volume, fees, pnl, bids, asks := 0, 0.0, 0.0, 0.0, 0, 0;
    var remaining, decoded := rows.Keys, 0;
    ghost var sides: seq<Side> := [];
    EnumerateNone<Side>();
    FoldNone(matched);
    assert rows.Keys - remaining == {};
    while remaining != {}
      invariant remaining <= rows.Keys
      invariant Enumerates(sides, rows.Keys - remaining)
      invariant decoded + |remaining| == |rows|
      invariant fault.UndecodableRow? ==> decoded <= fault.k
      invariant Totals(fills, volume, fees, pnl, bids, asks) == FoldRows(matched, sides)
      decreases remaining
    {
      var side :| side in remaining;
      if fault == UndecodableRow(decoded) {
        return Err(DecodeFailed);
      }
      var row := rows[side];
      fills := fills + row.count;
      volume := volume + row.volume;
      fees := fees + row.fees;
      if side == Bid {
        bids := bids + row.count;
      } else if side == Ask {
        asks := asks + row.count;
        pnl := pnl + row.volume - row.fees;
      }
      GroupAt(matched, side);
      FoldOneMore(matched, sides, side);
      EnumerateOneMore(sides, rows.Keys - remaining, side);
      assert rows.Keys - remaining + {side} == rows.Keys - (remaining - {side});
      sides, remaining, decoded := sides + [side], remaining - {side}, decoded + 1;
    }
    assert rows.Keys - remaining == rows.Keys;
    FoldAll(matched, sides, rows.Keys);
    r := Ok(Totals(fills, volume, fees, pnl, bids, asks));
  }

  lemma GroupAt(trades: seq<Trade>, side: Side)
    requires side in Group(trades)
    ensures Group(trades)[side] == RowOf(trades, side) && RowOf(trades, side).side == side
  {
    RowSide(trades, side);
  }

  lemma FoldNone(trades: seq<Trade>)
    ensures FoldRows(trades, []) == ZERO
  {
  }

  lemma FoldOneMore(trades: seq<Trade>, sides: seq<Side>, side: Side)
    ensures FoldRows(trades, sides + [side]) == Plus(FoldRows(trades, sides), RowTotals(RowOf(trades, side)))
  {
    assert (sides + [side])[..|sides|] == sides;
  }

  /** Generate: match on the window that ends with the day of `at`, group by side, fold what the cursor yields. */
  method Generate(trades: seq<Trade>, fault: Fault, bot: BotId, period: Period, at: Instant)
    returns (r: Result<Report, ReportError>)
    ensures r == Outcome(trades, fault, bot, period, at)
    ensures AsAsked(trades, fault, bot, period, at, r)
  {
    OutcomeAsAsked(trades, fault, bot, period, at);
    hide AsAsked;
    hide WindowStart, Midnight, Match, Direct, SumOn, InWindow;
    var windowEnd := TruncateToDay(at);
    var windowStart := Midnight(WindowStart(period, DayOf(at)));
    if fault == RefusesAggregate {
      return Err(AggregateFailed);
    }
    var matched := Match(trades, bot, windowStart, windowEnd);
    var totals := FoldCursor(matched, fault);
    if totals.Err? {
      return Err(totals.error);
    }
    if fault == BreaksCursor {
      return Err(CursorFailed);
    }
    MatchedSum(trades, bot, windowStart, windowEnd, Group(matched).Keys);
    r := Ok(Report(bot, period, windowStart, windowEnd, totals.value));
  }

  lemma {:induction false} RowSide(trades: seq<Trade>, side: Side)
    ensures RowOf(trades, side).side == side
  {
    if trades != [] {
      RowSide(trades[..|trades| - 1], side);
    }
  }
}
