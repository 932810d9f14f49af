/** The inverter's own clock: what a bare HH:MM range does on it day after day, and how the
    optimizer recovers its zone (solis_agile_charge.py, verify_inverter_clock, _inverter_hhmm). */
module InverterClock {
  import opened Options
  import opened Windows

  const ABORT_DRIFT := 1500

  // ---------- days, minutes and seconds ----------

  ghost predicate Reads(x: int, day: int, minute: int, second: int) {
    x == 86400 * day + 60 * minute + second && 0 <= minute < 1440 && 0 <= second < 60
  }

  lemma ReadingOf(x: int) returns (day: int, minute: int, second: int)
    ensures Reads(x, day, minute, second)
    ensures x / 86400 == day && x % 86400 / 60 == minute && x % 60 == second
  {
    var r := x % 86400;
    day, minute, second := x / 86400, r / 60, r % 60;
    ReadingIs(x, day, minute, second);
  }

  lemma ReadingIs(x: int, day: int, minute: int, second: int)
    requires Reads(x, day, minute, second)
    ensures x / 86400 == day && x % 86400 / 60 == minute && x % 60 == second
  {
    DivIs(x, 86400, day, 60 * minute + second);
    DivIs(60 * minute + second, 60, minute, second);
    DivIs(x, 60, 1440 * day + minute, second);
  }

  lemma DivIs(x: int, n: int, q: int, r: int)
    requires (n == 60 || n == 1800 || n == 3600 || n == 86400) && x == n * q + r && 0 <= r < n
    ensures x / n == q && x % n == r
  {
  }

  // ---------- verify_inverter_clock ----------

  /** Python's round(): to the nearest hour, a tie going to the even one. */
  function RoundToHour(delta: int): int {
    var q, r := delta / 3600, delta % 3600;
    if 2 * r < 3600 then q
    else if 2 * r > 3600 then q + 1
    else if q % 2 == 0 then q else q + 1
  }

  predicate Abs(x: int, bound: int) { -bound <= x <= bound }

  /** The offset every slot time is written in, or None when the run is abandoned.
      `delta` is how far the clock reading lies from real UTC, in seconds. */
  function VerifyClock(delta: int): Option<int> {
    var offset := RoundToHour(delta) * 3600;
    if !Abs(offset, 14 * 3600) || !Abs(delta - offset, ABORT_DRIFT) then None else Some(offset)
  }

  /** A clock that runs `hours` from UTC with at most 25 minutes of drift is read as exactly
      that, and the run goes on just when the zone is within 14 hours. */
  lemma ClockRecovery(hours: int, drift: int)
    requires -1500 <= drift <= 1500
    ensures VerifyClock(hours * 3600 + drift) == if Abs(hours, 14) then Some(hours * 3600) else None
  {
    var delta := hours * 3600 + drift;
    if drift >= 0 {
      DivIs(delta, 3600, hours, drift);
    } else {
      DivIs(delta, 3600, hours - 1, drift + 3600);
    }
  }

  ghost predicate ReadsAs(delta: int, hours: int, drift: int) {
    -1500 <= drift <= 1500 && delta == hours * 3600 + drift
  }

  /** A reading that is accepted has one reading only as zone plus tolerated drift, and one
      that is refused has none within 14 hours. */
  lemma ClockReadingIsUnambiguous(delta: int)
    ensures VerifyClock(delta).Some? ==>
      && VerifyClock(delta).value % 3600 == 0
      && -1500 <= delta - VerifyClock(delta).value <= 1500
      && forall h, d :: ReadsAs(delta, h, d) ==> VerifyClock(delta).value == h * 3600
    ensures VerifyClock(delta).None? ==>
      forall h, d :: Abs(h, 14) ==> !ReadsAs(delta, h, d)
  {
    forall h, d | ReadsAs(delta, h, d)
      ensures VerifyClock(delta).Some? ==> VerifyClock(delta).value == h * 3600
      ensures Abs(h, 14) ==> VerifyClock(delta).Some?
    {
      ClockRecovery(h, d);
    }
  }

  // ---------- bare HH:MM ranges ----------

  /** A slot as it is written: minutes of the inverter's day. */
  datatype Range = Range(from: int, to: int)

  /** _inverter_hhmm: seconds are dropped. */
  function Hhmm(t: int, offset: int): int { (t + offset) % 86400 / 60 }

  function WrittenRange(w: Window, offset: int): Range {
    Range(Hhmm(w.start, offset), Hhmm(w.end, offset))
  }

  /** When a switched-on slot may run, by the inverter's clock. What the firmware does with
      start >= end is not known, so such a range may run at any time. */
  predicate MayFire(r: Range, clock: int) {
    r.from < r.to ==> r.from <= clock % 86400 / 60 < r.to
  }

  /** The window `p`, written in the zone `offset`, may run when the clock shows `u + offset`. */
  predicate FiresWhen(p: Window, offset: int, u: int) {
    MayFire(WrittenRange(p, offset), u + offset)
  }

  predicate WholeMinutes(w: Window) { w.start % 60 == 0 && w.end % 60 == 0 }

  /** The written range is in order and both ends fall on one day of the inverter. */
  predicate OneDay(p: Window, offset: int) {
    && Hhmm(p.start, offset) < Hhmm(p.end, offset)
    && (p.start + offset) / 86400 == (p.end + offset) / 86400
  }

  function Shift(p: Window, days: int): Window {
    p.(start := p.start + 86400 * days, end := p.end + 86400 * days)
  }

  /** A written range runs at the window and at its images on every other day, no more and no less. */
  lemma WrittenRangeRecursDaily(p: Window, offset: int, u: int)
    requires WholeMinutes(p) && offset % 60 == 0 && OneDay(p, offset)
    ensures FiresWhen(p, offset, u) <==> exists days :: Holds(Shift(p, days), u)
    ensures FiresWhen(p, offset, u) <==> Holds(Shift(p, (u + offset) / 86400 - (p.start + offset) / 86400), u)
  {
    var home, from, s0 := ReadingOf(p.start + offset);
    var _, to, s1 := ReadingOf(p.end + offset);
    var today, minute, second := ReadingOf(u + offset);
    WholeMinuteReads(p.start, offset);
    WholeMinuteReads(p.end, offset);
    assert FiresWhen(p, offset, u) <==> from <= minute < to;
    ReplayIsShift(p, offset, u, home, from, to, today, minute, second);
  }

  lemma WholeMinuteReads(t: int, offset: int)
    requires t % 60 == 0 && offset % 60 == 0
    ensures (t + offset) % 60 == 0
  {
    DivIs(t + offset, 60, t / 60 + offset / 60, 0);
  }

  /** The arithmetic of a daily replay, on readings alone. */
  lemma ReplayIsShift(p: Window, offset: int, u: int, home: int, from: int, to: int, today: int, minute: int, second: int)
    requires Reads(p.start + offset, home, from, 0) && Reads(p.end + offset, home, to, 0)
    requires Reads(u + offset, today, minute, second)
    ensures from <= minute < to <==> Holds(Shift(p, today - home), u)
    ensures forall k :: Holds(Shift(p, k), u) ==> k == today - home
  {
  }

  /** The window does not begin in the very last minute before a midnight it reaches, and does
      not reach a second one. */
  predicate SplitsCleanly(w: Window, offset: int) {
    var cut := NextMidnight(w.start, offset);
    w.end < cut || (w.start < cut - 60 && w.end < cut + 86400)
  }

  /** Splitting gives ranges that are in order and inside one inverter day exactly when the
      window splits cleanly. */
  lemma SplitFitsOneDayIff(w: Window, offset: int)
    requires w.start < w.end && WholeMinutes(w) && offset % 60 == 0
    ensures (forall p :: p in SplitOne(w, offset) ==> OneDay(p, offset) && WholeMinutes(p)) <==> SplitsCleanly(w, offset)
  {
    var cut := NextMidnight(w.start, offset);
    var first, second := w.(end := cut - 60), w.(start := cut);
    if w.end < cut {
      assert SplitOne(w, offset) == [w];
      FitsBeforeMidnight(w, offset, cut);
    } else if w.end == cut {
      assert SplitOne(w, offset) == [first];
      assert first in SplitOne(w, offset);
      FirstHalfFits(w, offset, cut);
    } else {
      assert SplitOne(w, offset) == [first, second];
      assert first in SplitOne(w, offset) && second in SplitOne(w, offset);
      FirstHalfFits(w, offset, cut);
      SecondHalfFits(w, offset, cut);
    }
  }

  /** Two inputs on a UTC clock. The first half of 23:59-00:30 is written as 23:59-23:59; of 30
      hours from 22:00 the second half is written as 00:00-04:00, a day short of its end. */
  lemma SplitCanMiss() returns (late: Window, long: Window)
    ensures late == Window(86340, 88200, true) && |SplitOne(late, 0)| == 2
    ensures WrittenRange(SplitOne(late, 0)[0], 0) == Range(1439, 1439)
    ensures long == Window(79200, 187200, true) && |SplitOne(long, 0)| == 2
    ensures WrittenRange(SplitOne(long, 0)[1], 0) == Range(0, 240) && SplitOne(long, 0)[1].end == 2 * 86400 + 240 * 60
  {
    late := LateSplit(0);
    long := LongSplit(0);
  }

  lemma LateSplit(offset: int) returns (w: Window)
    requires offset == 0
    ensures w == Window(86340, 88200, true) && SplitOne(w, offset) == [w.(end := 86340), w.(start := 86400)]
    ensures WrittenRange(w.(end := 86340), offset) == Range(1439, 1439)
  {
    w := Window(86340, 88200, true);
    assert NextMidnight(w.start, offset) == 86400;
  }

  lemma LongSplit(offset: int) returns (w: Window)
    requires offset == 0
    ensures w == Window(79200, 187200, true) && SplitOne(w, offset) == [w.(end := 86340), w.(start := 86400)]
    ensures WrittenRange(w.(start := 86400), offset) == Range(0, 240)
  {
    w := Window(79200, 187200, true);
    assert NextMidnight(w.start, offset) == 86400;
  }

  lemma FitsBeforeMidnight(w: Window, offset: int, cut: int)
    requires w.start < w.end < cut && WholeMinutes(w) && offset % 60 == 0 && cut == NextMidnight(w.start, offset)
    ensures OneDay(w, offset)
  {
    var d, m, s := ReadingOf(w.start + offset);
    var e, n, z := ReadingOf(w.end + offset);
    WholeMinuteReads(w.start, offset);
    WholeMinuteReads(w.end, offset);
  }

  lemma FirstHalfFits(w: Window, offset: int, cut: int)
    requires WholeMinutes(w) && offset % 60 == 0 && cut == NextMidnight(w.start, offset)
    ensures var first := w.(end := cut - 60); WholeMinutes(first) && (OneDay(first, offset) <==> w.start < cut - 60)
  {
    var d, m, s := ReadingOf(w.start + offset);
    WholeMinuteReads(w.start, offset);
    MidnightIsWholeMinute(cut, offset, d);
    ReadingIs(cut - 60 + offset, d, 1439, 0);
  }

  lemma SecondHalfFits(w: Window, offset: int, cut: int)
    requires cut < w.end && WholeMinutes(w) && offset % 60 == 0 && cut == NextMidnight(w.start, offset)
    ensures var second := w.(start := cut); WholeMinutes(second) && (OneDay(second, offset) <==> w.end < cut + 86400)
  {
    var d := (w.start + offset) / 86400;
    var e, n, z := ReadingOf(w.end + offset);
    WholeMinuteReads(w.end, offset);
    MidnightIsWholeMinute(cut, offset, d);
    ReadingIs(cut + offset, d + 1, 0, 0);
  }

  lemma MidnightIsWholeMinute(cut: int, offset: int, day: int)
    requires cut + offset == 86400 * (day + 1) && offset % 60 == 0
    ensures cut % 60 == 0 && (cut - 60) % 60 == 0
  {
    DivIs(cut, 60, 1440 * (day + 1) - offset / 60, 0);
    DivIs(cut - 60, 60, 1440 * (day + 1) - offset / 60 - 1, 0);
  }

  // ---------- no range fires on a day nobody priced ----------

  /** The longest horizon of the promises below. */
  const FUTURE := 23 * 3600

  /** From now until `horizon` seconds on, at any tolerated drift, the clock shows `u + offset`
      for some `u` in this span. */
  predicate InSpan(now: int, horizon: int, u: int) { now - ABORT_DRIFT <= u <= now + horizon + ABORT_DRIFT }

  /** In that span the written range runs only inside the window that was meant. */
  ghost predicate AliasFree(p: Window, offset: int, now: int, horizon: int) {
    forall u :: InSpan(now, horizon, u) && FiresWhen(p, offset, u) ==> Holds(p, u)
  }

  /** What began at `start` does not come round again within the horizon. */
  predicate Recent(start: int, now: int, horizon: int) { start + DAY > now + horizon + ABORT_DRIFT }

  /** A window that ends inside the planning cutoff (24 h less the tolerated drift) and does not
      come round again within the horizon does not alias. */
  lemma InsideCutoffNeverAliases(p: Window, offset: int, now: int, horizon: int)
    requires WholeMinutes(p) && offset % 60 == 0 && OneDay(p, offset)
    requires p.end <= now + DAY - ABORT_DRIFT && Recent(p.start, now, horizon)
    ensures AliasFree(p, offset, now, horizon)
  {
    forall u | InSpan(now, horizon, u) && FiresWhen(p, offset, u) ensures Holds(p, u) {
      WrittenRangeRecursDaily(p, offset, u);
      var days :| Holds(Shift(p, days), u);
      assert days == 0;
    }
  }

  /** The images of a window on earlier days miss the span. */
  predicate EarlierImagesMiss(p: Window, now: int, horizon: int) {
    || p.end <= now + DAY - ABORT_DRIFT
    || (p.start - DAY > now + horizon + ABORT_DRIFT && p.end <= now + 2 * DAY - ABORT_DRIFT)
  }

  /** Exactly when a range does not alias, for any window admitted up to 36 hours ahead, which
      is the bound on sessions: it does not come round again within the horizon, and it ends
      inside the cutoff (or lies so far ahead that the horizon ends before its image of today). */
  lemma AliasFreeIffInsideCutoff(p: Window, offset: int, now: int, horizon: int)
    requires WholeMinutes(p) && offset % 60 == 0 && OneDay(p, offset)
    requires now < p.end && p.start < now + 36 * 3600 && 0 <= horizon <= FUTURE
    ensures AliasFree(p, offset, now, horizon) <==> EarlierImagesMiss(p, now, horizon) && Recent(p.start, now, horizon)
  {
    if EarlierImagesMiss(p, now, horizon) && Recent(p.start, now, horizon) {
      forall u | InSpan(now, horizon, u) && FiresWhen(p, offset, u) ensures Holds(p, u) {
        WrittenRangeRecursDaily(p, offset, u);
        var days :| Holds(Shift(p, days), u);
        assert days == 0;
      }
    } else {
      var days := if !Recent(p.start, now, horizon) then 1 else if p.start - DAY <= now + horizon + ABORT_DRIFT then -1 else -2;
      AliasAt(p, offset, now, horizon, days);
    }
  }

  lemma AliasAt(p: Window, offset: int, now: int, horizon: int, days: int)
    requires WholeMinutes(p) && offset % 60 == 0 && OneDay(p, offset) && days != 0
    requires p.start + 86400 * days <= now + horizon + ABORT_DRIFT && now - ABORT_DRIFT < p.end + 86400 * days
    requires 0 <= horizon
    ensures !AliasFree(p, offset, now, horizon)
  {
    var image := p.start + 86400 * days;
    var u := if image >= now - ABORT_DRIFT then image else now - ABORT_DRIFT;
    OneDayIsShort(p, offset);
    assert Holds(Shift(p, days), u);
    WrittenRangeRecursDaily(p, offset, u);
    assert InSpan(now, horizon, u) && FiresWhen(p, offset, u) && !Holds(p, u);
  }

  lemma OneDayIsShort(p: Window, offset: int)
    requires OneDay(p, offset)
    ensures -86400 < p.end - p.start < 86400
  {
  }
}
