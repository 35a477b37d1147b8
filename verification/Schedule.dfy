/** The report scheduler (internal/report/reporter.go): which ticks fire which reports, and what
    the stored reports add up to. */
module Schedule {
  import opened Common
  import opened Workers
  import opened Calendar
  import opened Report

  /** What happens to the n-th report run: the aggregation may fault, and the insert of its report may fail. */
  datatype CallFault = CallFault(fault: Fault, insertFails: bool)

  /** Faults by run number, none after the last one. */
  type Faults = seq<CallFault>

  function FaultAt(faults: Faults, n: nat): CallFault {
    if n < |faults| then faults[n] else CallFault(Healthy, false)
  }

  predicate AllHealthy(faults: Faults) {
    forall f :: f in faults ==> f == CallFault(Healthy, false)
  }

  /** The Reports collection and the number of report runs so far. */
  datatype Log = Log(reports: seq<Report>, calls: nat)

  // ---- When reports fire ----

  /** The days on which a period's report is due. */
  predicate Due(period: Period, day: Day) {
    match period
    case Daily => true
    case Weekly => Weekday(day) == 1
    case Monthly => CivilOf(day).d == 1
  }

  predicate Fires(period: Period, now: Instant) {
    Due(period, DayOf(now)) && HourOf(now) == 0 && MinuteOf(now) == 5
  }

  // ---- What a run stores ----

  function Attempt(trades: seq<Trade>, f: CallFault, bot: BotId, period: Period, now: Instant): seq<Report> {
    var r := Outcome(trades, f.fault, bot, period, now);
    if r.Ok? && !f.insertFails then [r.value] else []
  }

  function RunAll(trades: seq<Trade>, faults: Faults, log: Log, bots: seq<BotId>, period: Period, now: Instant): Log {
    if bots == [] then log
    else
      var before := RunAll(trades, faults, log, bots[..|bots| - 1], period, now);
      var stored := Attempt(trades, FaultAt(faults, before.calls), bots[|bots| - 1], period, now);
      Log(before.reports + stored, before.calls + 1)
  }

  function Fire(trades: seq<Trade>, faults: Faults, log: Log, bots: seq<BotId>, period: Period, now: Instant): Log {
    if Fires(period, now) then RunAll(trades, faults, log, bots, period, now) else log
  }

  function Tick(trades: seq<Trade>, faults: Faults, log: Log, bots: seq<BotId>, now: Instant): Log {
    var daily := Fire(trades, faults, log, bots, Daily, now);
    var weekly := Fire(trades, faults, daily, bots, Weekly, now);
    Fire(trades, faults, weekly, bots, Monthly, now)
  }

  function AfterTicks(trades: seq<Trade>, faults: Faults, start: Log, bots: seq<BotId>, ticks: seq<Instant>): Log {
    if ticks == [] then start
    else Tick(trades, faults, AfterTicks(trades, faults, start, bots, ticks[..|ticks| - 1]), bots, ticks[|ticks| - 1])
  }

  /** How many trades of the history are stored by each tick. */
  predicate Counts(trades: seq<Trade>, stored: seq<nat>, ticks: seq<Instant>) {
    |stored| == |ticks| && forall i :: 0 <= i < |stored| ==> stored[i] <= |trades|
  }

  /** The same over a history that grows while the scheduler runs: by tick i its first stored[i] trades are in the
      collection. */
  function AfterTicksOn(trades: seq<Trade>, stored: seq<nat>, faults: Faults, start: Log, bots: seq<BotId>,
                        ticks: seq<Instant>): Log
    requires Counts(trades, stored, ticks)
  {
    if ticks == [] then start
    else
      var n := |ticks| - 1;
      var before := AfterTicksOn(trades, stored[..n], faults, start, bots, ticks[..n]);
      Tick(trades[..stored[n]], faults, before, bots, ticks[n])
  }

  class Reporter {
    /** All trades that are ever stored, in the order of their arrival. */
    const history: seq<Trade>
    const faults: Faults

    var reports: seq<Report>
    var calls: nat

    ghost function Abs(): Log
      reads this
    {
      Log(reports, calls)
    }

    constructor (history: seq<Trade>, faults: Faults)
      ensures this.history == history && this.faults == faults && Abs() == Log([], 0)
    {
      this.history, this.faults := history, faults;
      reports, calls := [], 0;
    }

    /** One turn of the loop: a run that fails, or whose insert fails, stores nothing. */
    method GenerateOne(trades: seq<Trade>, botID: BotId, period: Period, now: Instant)
      modifies this
      ensures calls == old(calls) + 1
      ensures reports == old(reports) + Attempt(trades, FaultAt(faults, old(calls)), botID, period, now)
    {
      hide Outcome, AsAsked, FaultAt;
      var f := FaultAt(faults, calls);
      calls := calls + 1;
      var r := Generate(trades, f.fault, botID, period, now);
      if r.Err? {
        return;
      }
      if !f.insertFails {
        reports := reports + [r.value];
      }
    }

    /** One report per bot; a run that fails, or whose insert fails, stores nothing and stops nothing. */
    method GenerateAll(trades: seq<Trade>, botIDs: seq<BotId>, period: Period, now: Instant)
      modifies this
      ensures Abs() == RunAll(trades, faults, old(Abs()), botIDs, period, now)
    {
      hide Attempt, FaultAt;
      for i := 0 to |botIDs|
        invariant Abs() == RunAll(trades, faults, old(Abs()), botIDs[..i], period, now)
      {
        assert botIDs[..i + 1][..i] == botIDs[..i];
        GenerateOne(trades, botIDs[i], period, now);
      }
      assert botIDs[..|botIDs|] == botIDs;
    }

    /** The loop over the ticker, up to the cancellation that follows the last of `ticks`. */
    method Schedule(ticks: seq<Instant>, stored: seq<nat>, botIDs: seq<BotId>)
      requires Counts(history, stored, ticks)
      modifies this
      ensures Abs() == AfterTicksOn(history, stored, faults, old(Abs()), botIDs, ticks)
    {
      hide RunAll, Due, DayOf, HourOf, MinuteOf;
      for i := 0 to |ticks|
        invariant Abs() == AfterTicksOn(history, stored[..i], faults, old(Abs()), botIDs, ticks[..i])
      {
        assert ticks[..i + 1][..i] == ticks[..i] && stored[..i + 1][..i] == stored[..i];
        var utc, trades := ticks[i], history[..stored[i]];
        if Fires(Daily, utc) {
          GenerateAll(trades, botIDs, Daily, utc);
        }
        if Fires(Weekly, utc) {
          GenerateAll(trades, botIDs, Weekly, utc);
        }
        if Fires(Monthly, utc) {
          GenerateAll(trades, botIDs, Monthly, utc);
        }
      }
      assert ticks[..|ticks|] == ticks && stored[..|stored|] == stored;
    }
  }

  // ---- Which ticks fire, and what they store ----

  /** Daily reports are due every day, weekly ones on Mondays, of which 1970-01-05 is one, monthly ones on the 1st. */
  lemma DueDays(day: Day)
    ensures CivilOf(4) == Civil(1970, 1, 5) && Weekday(4) == 1
    ensures Due(Daily, day)
    ensures Due(Weekly, day) <==> (day - 4) % 7 == 0
    ensures Due(Monthly, day) <==> day == Date(CivilOf(day).y, CivilOf(day).m, 1)
  {
    FirstMonday();
    FirstOfItsMonth(day);
    hide CivilOf, Date;
  }

  lemma FirstMonday()
    ensures CivilOf(4) == Civil(1970, 1, 5)
  {
    AnchorNumbers();
    hide Jan1, DaysBefore, CivilOf;
    CivilOfDate(Civil(1970, 1, 5));
    assert Date(1970, 1, 5) == Date(1970, 1, 1) + 4;
  }

  lemma FirstOfItsMonth(day: Day)
    ensures CivilOf(day).d == 1 <==> day == Date(CivilOf(day).y, CivilOf(day).m, 1)
  {
    hide CivilOf, Jan1, DaysBefore, DaysIn;
    var c := CivilOf(day);
    assert Date(c.y, c.m, c.d) == Date(c.y, c.m, 1) + c.d - 1;
  }

  /** A tick fires a report iff it lies in the sixth minute of a day on which it is due. */
  lemma FiresWhen(t: Instant)
    ensures var day := DayOf(t);
            var sixth := Midnight(day) + Minutes(5) <= t < Midnight(day) + Minutes(6);
            && (Fires(Daily, t) <==> sixth)
            && (Fires(Weekly, t) <==> sixth && (day - 4) % 7 == 0)
            && (Fires(Monthly, t) <==> sixth && day == Date(CivilOf(day).y, CivilOf(day).m, 1))
  {
    FiveAfterMidnight(t);
    DueDays(DayOf(t));
    hide Due, CivilOf, Date, Midnight, Minutes, DayOf, HourOf, MinuteOf, Weekday;
  }

  /** A run with these faults yields and stores its report. */
  predicate Works(trades: seq<Trade>, f: CallFault, bot: BotId, period: Period, now: Instant) {
    && !f.insertFails
    && (f.fault == Healthy || (f.fault.UndecodableRow? && f.fault.k >= |SidesIn(trades, bot, period, now)|))
  }

  /** The reports of the bots whose own run works, in the order of the list; the i-th bot meets the i-th next fault. */
  function ReportsOfWorking(trades: seq<Trade>, faults: Faults, first: nat, bots: seq<BotId>, period: Period,
                            now: Instant)
    : seq<Report>
  {
    if bots == [] then []
    else
      var n := |bots| - 1;
      ReportsOfWorking(trades, faults, first, bots[..n], period, now) +
      if Works(trades, FaultAt(faults, first + n), bots[n], period, now)
      then [ReportFor(trades, bots[n], period, now)] else []
  }

  /** A run over all bots tries each of them and stores exactly the reports of those whose own run works, whatever the
      others do. */
  lemma {:induction false} RunAllIsEach(trades: seq<Trade>, faults: Faults, log: Log, bots: seq<BotId>,
                                        period: Period, now: Instant)
    ensures var after := RunAll(trades, faults, log, bots, period, now);
            && after.calls == log.calls + |bots|
            && after.reports == log.reports + ReportsOfWorking(trades, faults, log.calls, bots, period, now)
  {
    hide Attempt, Works, ReportFor, FaultAt;
    if bots != [] {
      var n := |bots| - 1;
      RunAllIsEach(trades, faults, log, bots[..n], period, now);
      AttemptWorks(trades, FaultAt(faults, log.calls + n), bots[n], period, now);
    }
  }

  lemma AttemptWorks(trades: seq<Trade>, f: CallFault, bot: BotId, period: Period, now: Instant)
    ensures Attempt(trades, f, bot, period, now) ==
            if Works(trades, f, bot, period, now) then [ReportFor(trades, bot, period, now)] else []
  {
    RowsAreSides(trades, bot, period, now);
    hide SidesIn, RowCount, ReportFor;
  }

  lemma {:induction false} WorkingGetTheirs(trades: seq<Trade>, faults: Faults, first: nat, bots: seq<BotId>,
                                            period: Period, now: Instant, i: nat)
    requires i < |bots| && Works(trades, FaultAt(faults, first + i), bots[i], period, now)
    ensures ReportFor(trades, bots[i], period, now) in ReportsOfWorking(trades, faults, first, bots, period, now)
  {
    hide Works, ReportFor, FaultAt;
    var n := |bots| - 1;
    if i < n {
      WorkingGetTheirs(trades, faults, first, bots[..n], period, now, i);
    }
  }

  /** A bot whose own run and insert succeed gets its report, whatever the others did. */
  lemma WorkingBotGetsReport(trades: seq<Trade>, faults: Faults, log: Log, bots: seq<BotId>, period: Period,
                             now: Instant, i: nat)
    requires i < |bots| && Works(trades, FaultAt(faults, log.calls + i), bots[i], period, now)
    ensures ReportFor(trades, bots[i], period, now) in RunAll(trades, faults, log, bots, period, now).reports
  {
    hide Works, ReportFor, FaultAt, RunAll, ReportsOfWorking;
    RunAllIsEach(trades, faults, log, bots, period, now);
    WorkingGetTheirs(trades, faults, log.calls, bots, period, now, i);
  }

  /** One tick, exactly: it tries the bots for the daily report if that fires, then for the
      weekly, then for the monthly. */
  lemma TickIsEach(trades: seq<Trade>, faults: Faults, log: Log, bots: seq<BotId>, now: Instant)
    ensures var after, n := Tick(trades, faults, log, bots, now), |bots|;
            var weekly := log.calls + if Fires(Daily, now) then n else 0;
            var monthly := weekly + if Fires(Weekly, now) then n else 0;
            && after.calls == monthly + (if Fires(Monthly, now) then n else 0)
            && after.reports == log.reports
               + (if Fires(Daily, now) then ReportsOfWorking(trades, faults, log.calls, bots, Daily, now) else [])
               + (if Fires(Weekly, now) then ReportsOfWorking(trades, faults, weekly, bots, Weekly, now) else [])
               + (if Fires(Monthly, now) then ReportsOfWorking(trades, faults, monthly, bots, Monthly, now) else [])
  {
    hide RunAll, ReportsOfWorking, Fires;
    var daily := Fire(trades, faults, log, bots, Daily, now);
    var weekly := Fire(trades, faults, daily, bots, Weekly, now);
    RunAllIsEach(trades, faults, log, bots, Daily, now);
    RunAllIsEach(trades, faults, daily, bots, Weekly, now);
    RunAllIsEach(trades, faults, weekly, bots, Monthly, now);
  }

  // ---- A growing history ----

  /** By every tick that fires, all trades of the days before are stored: no trade is stored later than five minutes
      into the next day. */
  ghost predicate Timely(trades: seq<Trade>, stored: seq<nat>, ticks: seq<Instant>) {
    && Counts(trades, stored, ticks)
    && forall i, j :: 0 <= i < |ticks| && Fires(Daily, ticks[i]) && stored[i] <= j < |trades| ==>
         trades[j].timestamp >= Midnight(DayOf(ticks[i]))
  }

  /** Then the scheduler stores exactly what it would store if the whole history had been there all along. */
  lemma {:induction false} GrowingHistory(trades: seq<Trade>, stored: seq<nat>, faults: Faults, start: Log,
                                          bots: seq<BotId>, ticks: seq<Instant>)
    requires Timely(trades, stored, ticks)
    ensures AfterTicksOn(trades, stored, faults, start, bots, ticks) == AfterTicks(trades, faults, start, bots, ticks)
  {
    hide Tick, Fires, Midnight, DayOf;
    if ticks != [] {
      var n := |ticks| - 1;
      GrowingHistory(trades, stored[..n], faults, start, bots, ticks[..n]);
      TickOfPrefix(trades, stored[n], faults, AfterTicks(trades, faults, start, bots, ticks[..n]), bots, ticks[n]);
    }
  }

  lemma TickOfPrefix(trades: seq<Trade>, c: nat, faults: Faults, log: Log, bots: seq<BotId>, now: Instant)
    requires c <= |trades|
    requires Fires(Daily, now) ==> forall j :: c <= j < |trades| ==> trades[j].timestamp >= Midnight(DayOf(now))
    ensures Tick(trades[..c], faults, log, bots, now) == Tick(trades, faults, log, bots, now)
  {
    FiresIffDue(Weekly, now);
    FiresIffDue(Monthly, now);
    hide RunAll, Fires, Midnight, DayOf;
    if Fires(Daily, now) {
      RunAllOfPrefix(trades, c, faults, log, bots, Daily, now);
      var daily := Fire(trades, faults, log, bots, Daily, now);
      RunAllOfPrefix(trades, c, faults, daily, bots, Weekly, now);
      var weekly := Fire(trades, faults, daily, bots, Weekly, now);
      RunAllOfPrefix(trades, c, faults, weekly, bots, Monthly, now);
    }
  }

  lemma {:induction false} RunAllOfPrefix(trades: seq<Trade>, c: nat, faults: Faults, log: Log, bots: seq<BotId>,
                                          period: Period, now: Instant)
    requires c <= |trades| && forall j :: c <= j < |trades| ==> trades[j].timestamp >= Midnight(DayOf(now))
    ensures RunAll(trades[..c], faults, log, bots, period, now) == RunAll(trades, faults, log, bots, period, now)
  {
    hide Outcome, Midnight, DayOf;
    if bots != [] {
      RunAllOfPrefix(trades, c, faults, log, bots[..|bots| - 1], period, now);
      var before := RunAll(trades, faults, log, bots[..|bots| - 1], period, now);
      OutcomeOfPrefix(trades, c, FaultAt(faults, before.calls).fault, bots[|bots| - 1], period, now);
    }
  }

  lemma OutcomeOfPrefix(trades: seq<Trade>, c: nat, fault: Fault, bot: BotId, period: Period, now: Instant)
    requires c <= |trades| && forall j :: c <= j < |trades| ==> trades[j].timestamp >= Midnight(DayOf(now))
    ensures Outcome(trades[..c], fault, bot, period, now) == Outcome(trades, fault, bot, period, now)
  {
    hide Match, Direct, Midnight, DayOf, WindowStart, Group;
    LateTradesOutside(trades, c, bot, Midnight(WindowStart(period, DayOf(now))), Midnight(DayOf(now)));
  }

  lemma {:induction false} LateTradesOutside(trades: seq<Trade>, c: nat, bot: BotId, lo: Instant, hi: Instant)
    requires c <= |trades| && forall j :: c <= j < |trades| ==> trades[j].timestamp >= hi
    ensures Match(trades[..c], bot, lo, hi) == Match(trades, bot, lo, hi)
    ensures Direct(trades[..c], bot, lo, hi) == Direct(trades, bot, lo, hi)
  {
    if c == |trades| {
      assert trades[..c] == trades;
    } else {
      var n := |trades| - 1;
      assert trades[..n][..c] == trades[..c];
      LateTradesOutside(trades[..n], c, bot, lo, hi);
    }
  }

  // ---- Ticks a minute apart ----

  /** The k-th tick of a ticker with the given first tick. */
  function TickAt(phase: Instant, k: nat): Instant { phase + Minutes(k) }

  function Ticks(phase: Instant, n: nat): seq<Instant> {
    if n == 0 then [] else Ticks(phase, n - 1) + [TickAt(phase, n - 1)]
  }

  /** The days whose ticks fire a period's report, in firing order. */
  function Ends(period: Period, phase: Instant, n: nat): seq<Day> {
    if n == 0 then []
    else if Fires(period, TickAt(phase, n - 1)) then Ends(period, phase, n - 1) + [DayOf(TickAt(phase, n - 1))]
    else Ends(period, phase, n - 1)
  }

  /** The first day that the ticker can still report on: the one whose sixth minute ends after the first tick. */
  function FirstEnd(phase: Instant): Day { DayOf(phase - Minutes(6)) + 1 }

  lemma FirstEndIsFirst(phase: Instant)
    ensures Midnight(FirstEnd(phase) - 1) + Minutes(6) <= phase < Midnight(FirstEnd(phase)) + Minutes(6)
  {
  }

  /** The n first ticks fire the daily report for `count` consecutive days from FirstEnd on, each once; the next tick
      lies after the sixth minute of the last of them and not after that of the following day. */
  lemma {:induction false} DailyEndsAreConsecutive(phase: Instant, n: nat)
    ensures var ends, first := Ends(Daily, phase, n), FirstEnd(phase);
            && (forall i :: 0 <= i < |ends| ==> ends[i] == first + i)
            && Midnight(first + |ends| - 1) + Minutes(6) <= TickAt(phase, n) < Midnight(first + |ends|) + Minutes(6)
  {
    if n == 0 {
      FirstEndIsFirst(phase);
    } else {
      DailyEndsAreConsecutive(phase, n - 1);
      var before, first := Ends(Daily, phase, n - 1), FirstEnd(phase);
      var t, next := TickAt(phase, n - 1), first + |before|;
      FiveAfterMidnight(t);
      DayOfLateTick(t, next);
    }
  }

  lemma DayOfLateTick(t: Instant, next: Day)
    requires Midnight(next - 1) + Minutes(6) <= t < Midnight(next) + Minutes(6)
    ensures DayOf(t) == if t < Midnight(next) then next - 1 else next
  {
  }

  /** Every full UTC day between the first tick and the one after the last fires the daily report exactly once. */
  lemma EveryFullDayFiresOnce(phase: Instant, n: nat, day: Day)
    requires phase <= Midnight(day) && Midnight(day + 1) <= TickAt(phase, n)
    ensures var ends, i := Ends(Daily, phase, n), day - FirstEnd(phase);
            0 <= i < |ends| && ends[i] == day && forall j :: 0 <= j < |ends| && ends[j] == day ==> j == i
  {
    DailyEndsAreConsecutive(phase, n);
    FirstEndIsFirst(phase);
    hide Ends, FirstEnd, TickAt;
    var ends, first := Ends(Daily, phase, n), FirstEnd(phase);
    assert first <= day < first + |ends|;
  }

  // ---- Consecutive windows of every period ----

  /** No report of the period is due strictly between days a and b. */
  ghost predicate NoneDueBetween(period: Period, a: Day, b: Day) {
    forall d :: a < d < b ==> !Due(period, d)
  }

  /** The window of a due day starts at the due day before it. */
  lemma SuccessiveDue(period: Period, a: Day, b: Day)
    requires Due(period, a) && Due(period, b) && a < b && NoneDueBetween(period, a, b)
    ensures WindowStart(period, b) == a
  {
    hide Due, WindowStart;
    match period
    case Daily => SuccessiveDays(a, b);
    case Weekly => SuccessiveMondays(a, b);
    case Monthly => SuccessiveFirsts(a, b);
  }

  lemma SuccessiveDays(a: Day, b: Day)
    requires a < b && NoneDueBetween(Daily, a, b)
    ensures WindowStart(Daily, b) == a
  {
    hide AddDate;
    AddDays(b, -1);
    assert Due(Daily, a + 1);
  }

  lemma SuccessiveMondays(a: Day, b: Day)
    requires Due(Weekly, a) && Due(Weekly, b) && a < b && NoneDueBetween(Weekly, a, b)
    ensures WindowStart(Weekly, b) == a
  {
    hide AddDate;
    AddDays(b, -7);
    if a + 7 < b { assert Due(Weekly, a + 7); }
  }

  lemma SuccessiveFirsts(a: Day, b: Day)
    requires Due(Monthly, a) && Due(Monthly, b) && a < b && NoneDueBetween(Monthly, a, b)
    ensures WindowStart(Monthly, b) == a
  {
    hide NextFirst, AddDate, CivilOf, Date, IsDate;
    MonthsTile(a);
    MonthBackFromNextFirst(a);
    MonthsAreNonempty(CivilOf(a).y);
    assert IsFirst(b) && Due(Monthly, NextFirst(a));
  }

  /** The windows of the reports that end on `ends` follow each other without gap or overlap. */
  predicate Chained(period: Period, ends: seq<Day>) {
    forall i :: 0 < i < |ends| ==> WindowStart(period, ends[i]) == ends[i - 1]
  }

  lemma {:induction false} EndsAreChained(period: Period, phase: Instant, n: nat)
    ensures var ends, horizon := Ends(period, phase, n), FirstEnd(phase) + |Ends(Daily, phase, n)|;
            && Chained(period, ends)
            && (forall i :: 0 <= i < |ends| ==> Due(period, ends[i]) && ends[i] < horizon)
            && (forall d :: (if ends == [] then FirstEnd(phase) else ends[|ends| - 1] + 1) <= d < horizon ==>
                    !Due(period, d))
  {
    hide Due, WindowStart, FirstEnd, DayOf, Fires;
    if n > 0 {
      EndsAreChained(period, phase, n - 1);
      DailyEndsAreConsecutive(phase, n - 1);
      DailyEndsAreConsecutive(phase, n);
      var t := TickAt(phase, n - 1);
      FiresIffDue(period, t);
      var before, day := Ends(period, phase, n - 1), DayOf(t);
      if Fires(Daily, t) {
        var daily := Ends(Daily, phase, n);
        assert daily[|daily| - 1] == day;
        if Due(period, day) && before != [] {
          SuccessiveDue(period, before[|before| - 1], day);
        }
      }
    }
  }

  lemma FiresIffDue(period: Period, t: Instant)
    ensures Fires(period, t) <==> Fires(Daily, t) && Due(period, DayOf(t))
  {
    hide DayOf, HourOf, MinuteOf;
  }

  /** The totals of the reports ending on `ends`, added up. */
  function TotalsOf(trades: seq<Trade>, bot: BotId, period: Period, ends: seq<Day>): Totals {
    if ends == [] then ZERO
    else Plus(TotalsOf(trades, bot, period, ends[..|ends| - 1]), ReportTotals(trades, bot, period, ends[|ends| - 1]))
  }

  lemma {:induction false} ChainedTotals(trades: seq<Trade>, bot: BotId, period: Period, ends: seq<Day>)
    requires Chained(period, ends) && ends != []
    ensures WindowStart(period, ends[0]) < ends[|ends| - 1]
    ensures TotalsOf(trades, bot, period, ends)
         == Direct(trades, bot, Midnight(WindowStart(period, ends[0])), Midnight(ends[|ends| - 1]))
  {
    hide Direct, WindowStart;
    var n := |ends| - 1;
    WindowIsNonempty(period, ends[n]);
    if n > 0 {
      ChainedTotals(trades, bot, period, ends[..n]);
      WindowsAdd(trades, bot, Midnight(WindowStart(period, ends[0])), Midnight(ends[n - 1]), Midnight(ends[n]));
    } else {
      assert ends[..0] == [];
    }
  }

  lemma WindowIsNonempty(period: Period, end: Day)
    ensures WindowStart(period, end) < end
  {
    hide AddDate;
    match period
    case Daily => AddDays(end, -1);
    case Weekly => AddDays(end, -7);
    case Monthly => MonthStart(end);
  }

  // ---- What the stored reports add up to ----

  /** The stored reports of one bot and period, in order. */
  function ReportsOf(reports: seq<Report>, bot: BotId, period: Period): seq<Report> {
    if reports == [] then []
    else
      var n := |reports| - 1;
      var before := ReportsOf(reports[..n], bot, period);
      if reports[n].bot == bot && reports[n].period == period then before + [reports[n]] else before
  }

  function SumOf(reports: seq<Report>): Totals {
    if reports == [] then ZERO else Plus(SumOf(reports[..|reports| - 1]), reports[|reports| - 1].totals)
  }

  lemma HealthyAttempt(trades: seq<Trade>, faults: Faults, k: nat, bot: BotId, period: Period, now: Instant)
    requires AllHealthy(faults)
    ensures Attempt(trades, FaultAt(faults, k), bot, period, now) == [ReportFor(trades, bot, period, now)]
  {
    hide ReportFor, RowCount;
    if k < |faults| {
      assert faults[k] in faults;
    }
  }

  lemma Keep(reports: seq<Report>, r: Report, bot: BotId, p: Period)
    ensures ReportsOf(reports + [r], bot, p) ==
            ReportsOf(reports, bot, p) + if r.bot == bot && r.period == p then [r] else []
  {
    assert (reports + [r])[..|reports|] == reports;
  }

  /** How often a bot is listed. */
  function Listed(bots: seq<BotId>, bot: BotId): nat { multiset(bots)[bot] }

  function Copies(r: Report, m: nat): seq<Report> {
    if m == 0 then [] else Copies(r, m - 1) + [r]
  }

  /** Without failures a run stores a report of each bot as often as the bot is listed, and
      none of other bots or periods. */
  lemma {:induction false} RunAllStores(trades: seq<Trade>, faults: Faults, log: Log, bots: seq<BotId>,
                                        period: Period, now: Instant, bot: BotId, p: Period)
    requires AllHealthy(faults)
    ensures ReportsOf(RunAll(trades, faults, log, bots, period, now).reports, bot, p)
         == ReportsOf(log.reports, bot, p) +
            if p == period then Copies(ReportFor(trades, bot, period, now), Listed(bots, bot)) else []
  {
    hide ReportFor, Attempt, ReportsOf, Listed, AllHealthy, FaultAt;
    if bots != [] {
      var n := |bots| - 1;
      RunAllStores(trades, faults, log, bots[..n], period, now, bot, p);
      var before := RunAll(trades, faults, log, bots[..n], period, now);
      HealthyAttempt(trades, faults, before.calls, bots[n], period, now);
      ReportForNames(trades, bots[n], period, now);
      Keep(before.reports, ReportFor(trades, bots[n], period, now), bot, p);
      ListedNext(bots, bot);
    } else {
      ListedNowhere(bot);
    }
  }

  lemma ListedNowhere(bot: BotId)
    ensures Listed([], bot) == 0
  {
  }

  lemma ListedNext(bots: seq<BotId>, bot: BotId)
    requires bots != []
    ensures var n := |bots| - 1; Listed(bots, bot) == Listed(bots[..n], bot) + if bots[n] == bot then 1 else 0
  {
    assert bots == bots[..|bots| - 1] + [bots[|bots| - 1]];
  }

  lemma ReportForNames(trades: seq<Trade>, bot: BotId, p: Period, now: Instant)
    ensures ReportFor(trades, bot, p, now).bot == bot && ReportFor(trades, bot, p, now).period == p
  {
  }

  /** One tick adds to the reports of a bot and period the report of its day, as often as the bot is listed, iff it
      fires that period. */
  lemma TickStores(trades: seq<Trade>, faults: Faults, log: Log, bots: seq<BotId>, now: Instant, bot: BotId, p: Period)
    requires AllHealthy(faults)
    ensures ReportsOf(Tick(trades, faults, log, bots, now).reports, bot, p)
         == ReportsOf(log.reports, bot, p) +
            if Fires(p, now) then Copies(ReportFor(trades, bot, p, now), Listed(bots, bot)) else []
  {
    hide ReportFor, RunAll, Fires, ReportsOf, AllHealthy, Copies, Listed;
    var daily := Fire(trades, faults, log, bots, Daily, now);
    var weekly := Fire(trades, faults, daily, bots, Weekly, now);
    RunAllStores(trades, faults, log, bots, Daily, now, bot, p);
    RunAllStores(trades, faults, daily, bots, Weekly, now, bot, p);
    RunAllStores(trades, faults, weekly, bots, Monthly, now, bot, p);
  }

  /** The stored reports of a bot listed m times when the reports that fired ended on `ends`. */
  function ReportsEnding(trades: seq<Trade>, bot: BotId, p: Period, ends: seq<Day>, m: nat): seq<Report> {
    if ends == [] then []
    else ReportsEnding(trades, bot, p, ends[..|ends| - 1], m) + Copies(ReportOn(trades, bot, p, ends[|ends| - 1]), m)
  }

  lemma {:induction false} ReportsEndingOnce(trades: seq<Trade>, bot: BotId, p: Period, ends: seq<Day>)
    ensures var rs := ReportsEnding(trades, bot, p, ends, 1);
            |rs| == |ends| && forall i :: 0 <= i < |ends| ==> rs[i] == ReportOn(trades, bot, p, ends[i])
  {
    hide ReportOn;
    if ends != [] {
      var last := ReportOn(trades, bot, p, ends[|ends| - 1]);
      ReportsEndingOnce(trades, bot, p, ends[..|ends| - 1]);
      assert Copies(last, 0) + [last] == [last];
    }
  }

  lemma WindowsAdjoin(trades: seq<Trade>, bot: BotId, p: Period, ends: seq<Day>)
    requires Chained(p, ends)
    ensures var rs := ReportsEnding(trades, bot, p, ends, 1);
            && |rs| == |ends|
            && (forall i :: 0 <= i < |ends| ==> rs[i] == ReportOn(trades, bot, p, ends[i]))
            && (forall i :: 0 < i < |ends| ==> rs[i].windowStart == rs[i - 1].windowEnd)
  {
    hide ReportsEnding, WindowStart, Midnight, ReportTotals;
    ReportsEndingOnce(trades, bot, p, ends);
  }

  /** Totals counted m times over. */
  function Scale(m: nat, t: Totals): Totals {
    if m == 0 then ZERO else Plus(Scale(m - 1, t), t)
  }

  lemma PlusLaws(a: Totals, b: Totals, c: Totals, d: Totals)
    ensures Plus(Plus(a, b), Plus(c, d)) == Plus(Plus(a, c), Plus(b, d))
    ensures Plus(a, Plus(b, c)) == Plus(Plus(a, b), c)
    ensures Plus(a, ZERO) == a == Plus(ZERO, a)
    ensures Plus(a, b) == b <==> a == ZERO
  {
  }

  lemma {:induction false} ScalePlus(m: nat, a: Totals, b: Totals)
    ensures Scale(m, Plus(a, b)) == Plus(Scale(m, a), Scale(m, b))
  {
    hide Plus;
    if m > 0 {
      ScalePlus(m - 1, a, b);
      PlusLaws(Scale(m - 1, a), Scale(m - 1, b), a, b);
    } else {
      PlusLaws(ZERO, ZERO, ZERO, ZERO);
    }
  }

  /** Totals that are not all zero come out right only when they are counted exactly once. */
  lemma ScaleIsIdentityIff(m: nat, t: Totals)
    ensures Scale(m, t) == t <==> m == 1 || t == ZERO
  {
    hide Plus;
    if m > 0 {
      ScaleIsZeroIff(m - 1, t);
      PlusLaws(Scale(m - 1, t), t, t, t);
    }
  }

  lemma {:induction false} ScaleIsZeroIff(m: nat, t: Totals)
    ensures Scale(m, t) == ZERO <==> m == 0 || t == ZERO
  {
    ScaleKeepsSigns(m, t);
  }

  /** What a total counted m more times has in common with one counted once. */
  predicate SameSigns(a: Totals, b: Totals) {
    && (a.fills < 0 <==> b.fills < 0) && (a.fills > 0 <==> b.fills > 0)
    && (a.bids < 0 <==> b.bids < 0) && (a.bids > 0 <==> b.bids > 0)
    && (a.asks < 0 <==> b.asks < 0) && (a.asks > 0 <==> b.asks > 0)
    && (a.volume < 0.0 <==> b.volume < 0.0) && (a.volume > 0.0 <==> b.volume > 0.0)
    && (a.fees < 0.0 <==> b.fees < 0.0) && (a.fees > 0.0 <==> b.fees > 0.0)
    && (a.pnl < 0.0 <==> b.pnl < 0.0) && (a.pnl > 0.0 <==> b.pnl > 0.0)
  }

  lemma PlusKeepsSigns(a: Totals, t: Totals)
    requires a == ZERO || SameSigns(a, t)
    ensures SameSigns(Plus(a, t), t)
  {
  }

  lemma {:induction false} ScaleKeepsSigns(m: nat, t: Totals)
    ensures if m == 0 then Scale(m, t) == ZERO else SameSigns(Scale(m, t), t)
  {
    hide Plus, SameSigns;
    if m > 0 {
      ScaleKeepsSigns(m - 1, t);
      PlusKeepsSigns(Scale(m - 1, t), t);
    }
  }

  lemma {:induction false} SumOfCopies(reports: seq<Report>, r: Report, m: nat)
    ensures SumOf(reports + Copies(r, m)) == Plus(SumOf(reports), Scale(m, r.totals))
  {
    hide Plus, SumOf;
    if m == 0 {
      assert reports + [] == reports;
      PlusLaws(SumOf(reports), ZERO, ZERO, ZERO);
    } else {
      var before := reports + Copies(r, m - 1);
      SumOfCopies(reports, r, m - 1);
      PlusLaws(SumOf(reports), Scale(m - 1, r.totals), r.totals, ZERO);
      assert reports + Copies(r, m) == before + [r];
      SumOfOneMore(before, r);
    }
  }

  lemma SumOfOneMore(reports: seq<Report>, r: Report)
    ensures SumOf(reports + [r]) == Plus(SumOf(reports), r.totals)
  {
    assert (reports + [r])[..|reports|] == reports;
  }

  lemma {:induction false} ReportsEndingTotals(trades: seq<Trade>, bot: BotId, p: Period, ends: seq<Day>, m: nat)
    ensures SumOf(ReportsEnding(trades, bot, p, ends, m)) == Scale(m, TotalsOf(trades, bot, p, ends))
  {
    hide ReportTotals, WindowStart, Midnight, Copies, SumOf, Scale;
    if ends == [] {
      NothingSums();
      ScaleIsZeroIff(m, ZERO);
    } else {
      var n := |ends| - 1;
      ReportsEndingTotals(trades, bot, p, ends[..n], m);
      SumOfCopies(ReportsEnding(trades, bot, p, ends[..n], m), ReportOn(trades, bot, p, ends[n]), m);
      ScalePlus(m, TotalsOf(trades, bot, p, ends[..n]), ReportTotals(trades, bot, p, ends[n]));
    }
  }

  lemma NothingSums()
    ensures SumOf([]) == ZERO
  {
  }

  /** Without failures, the stored reports of a bot and period are those of the days that fired, in order, each as often
      as the bot is listed. */
  lemma {:induction false} StoredReports(trades: seq<Trade>, faults: Faults, bots: seq<BotId>, phase: Instant, n: nat,
                                         bot: BotId, p: Period)
    requires AllHealthy(faults)
    ensures ReportsOf(AfterTicks(trades, faults, Log([], 0), bots, Ticks(phase, n)).reports, bot, p)
         == ReportsEnding(trades, bot, p, Ends(p, phase, n), Listed(bots, bot))
  {
    hide ReportOn, DayOf, Tick, Fires, ReportsOf, AllHealthy, Copies, Listed;
    if n > 0 {
      StoredReports(trades, faults, bots, phase, n - 1, bot, p);
      var ticks, now := Ticks(phase, n - 1), TickAt(phase, n - 1);
      assert (ticks + [now])[..|ticks|] == ticks;
      TickStores(trades, faults, AfterTicks(trades, faults, Log([], 0), bots, ticks), bots, now, bot, p);
      var ends := Ends(p, phase, n - 1);
      assert (ends + [DayOf(now)])[..|ends|] == ends;
    } else {
      NothingStored(bot, p);
    }
  }

  lemma NothingStored(bot: BotId, p: Period)
    ensures ReportsOf([], bot, p) == []
  {
  }

  /** The reports of a bot and period stored after n ticks, a minute apart, on an empty collection. */
  function StoredAfter(trades: seq<Trade>, faults: Faults, bots: seq<BotId>, phase: Instant, n: nat,
                       bot: BotId, p: Period)
    : seq<Report>
  {
    ReportsOf(AfterTicks(trades, faults, Log([], 0), bots, Ticks(phase, n)).reports, bot, p)
  }

  /** The totals of all filled trades of a bot from the start of the window that ends first to the end of the one that
      ends last. */
  function SpanTotals(trades: seq<Trade>, bot: BotId, p: Period, ends: seq<Day>): Totals {
    if ends == [] then ZERO else Direct(trades, bot, Midnight(WindowStart(p, ends[0])), Midnight(ends[|ends| - 1]))
  }

  /** For a ticker of exact minutes, any phase, and runs that do not fail: over any number of ticks the stored reports
      of a bot and period add up to the totals of all its filled trades in the covered span, once for every time the bot
      is listed. Listed once, its windows adjoin. */
  lemma StoredReportsPartitionHistory(trades: seq<Trade>, faults: Faults, bots: seq<BotId>, phase: Instant, n: nat,
                                      bot: BotId, p: Period)
    requires AllHealthy(faults)
    ensures var stored, ends := StoredAfter(trades, faults, bots, phase, n, bot, p), Ends(p, phase, n);
            && SumOf(stored) == Scale(Listed(bots, bot), SpanTotals(trades, bot, p, ends))
            && (Listed(bots, bot) == 1 ==>
                  && |stored| == |ends|
                  && (forall i :: 0 <= i < |ends| ==> stored[i] == ReportOn(trades, bot, p, ends[i]))
                  && (forall i :: 0 < i < |ends| ==> stored[i].windowStart == stored[i - 1].windowEnd))
  {
    hide WindowStart, Midnight, Direct, AfterTicks, Ticks, Ends, ReportsOf, ReportsEnding;
    hide ReportOn, SumOf, Due, Scale, Listed, Chained;
    StoredReports(trades, faults, bots, phase, n, bot, p);
    var ends := Ends(p, phase, n);
    ReportsEndingTotals(trades, bot, p, ends, Listed(bots, bot));
    EndsAreChained(p, phase, n);
    WindowsAdjoin(trades, bot, p, ends);
    if ends == [] {
      NothingTotals(trades, bot, p);
    } else {
      ChainedTotals(trades, bot, p, ends);
    }
  }

  lemma NothingTotals(trades: seq<Trade>, bot: BotId, p: Period)
    ensures TotalsOf(trades, bot, p, []) == ZERO
  {
  }

  /** So the stored reports count the span exactly once iff the bot is listed once, or has nothing to count. */
  lemma CountedOnceIff(trades: seq<Trade>, faults: Faults, bots: seq<BotId>, phase: Instant, n: nat, bot: BotId,
                       p: Period)
    requires AllHealthy(faults)
    ensures var span := SpanTotals(trades, bot, p, Ends(p, phase, n));
            SumOf(StoredAfter(trades, faults, bots, phase, n, bot, p)) == span <==>
                Listed(bots, bot) == 1 || span == ZERO
  {
    hide StoredAfter, SpanTotals, Ends, AllHealthy, SumOf, Listed, Scale;
    StoredReportsPartitionHistory(trades, faults, bots, phase, n, bot, p);
    ScaleIsIdentityIff(Listed(bots, bot), SpanTotals(trades, bot, p, Ends(p, phase, n)));
  }

  /** The daily reports cover, without gap, every trade from the midnight before the first day they can report on to the
      last midnight whose sixth minute is over. */
  lemma DailyReportsCover(trades: seq<Trade>, faults: Faults, bots: seq<BotId>, phase: Instant, n: nat, bot: BotId)
    requires AllHealthy(faults)
    ensures var first, count := FirstEnd(phase), |Ends(Daily, phase, n)|;
            && SumOf(StoredAfter(trades, faults, bots, phase, n, bot, Daily))
               == Scale(Listed(bots, bot), Direct(trades, bot, Midnight(first - 1), Midnight(first - 1 + count)))
            && Midnight(first - 1) + Minutes(6) <= phase < Midnight(first) + Minutes(6)
            && Midnight(first - 1 + count) + Minutes(6) <= TickAt(phase, n) < Midnight(first + count) + Minutes(6)
  {
    hide StoredAfter, Ends, AllHealthy, SumOf, Listed, Scale, FirstEnd;
    StoredReportsPartitionHistory(trades, faults, bots, phase, n, bot, Daily);
    DailyEndsAreConsecutive(phase, n);
    FirstEndIsFirst(phase);
    DailySpan(trades, bot, phase, n);
  }

  lemma DailySpan(trades: seq<Trade>, bot: BotId, phase: Instant, n: nat)
    ensures var first, ends := FirstEnd(phase), Ends(Daily, phase, n);
            SpanTotals(trades, bot, Daily, ends)
                == Direct(trades, bot, Midnight(first - 1), Midnight(first - 1 + |ends|))
  {
    hide Ends, Direct, FirstEnd, AddDate, TickAt, Minutes, Midnight;
    DailyEndsAreConsecutive(phase, n);
    AddDays(FirstEnd(phase), -1);
    if Ends(Daily, phase, n) == [] {
      EmptyWindow(trades, bot, Midnight(FirstEnd(phase) - 1));
    }
  }
}
