/** Half-hour prices, the feeds they come from, and the windows built from them:
    solis_agile_charge.py, "Octopus data" and "Window logic". All instants are
    whole UTC seconds; second 0 is a UTC midnight. */
module SolisFeeds {
  import opened Sorting
  import opened Windows
  import opened InverterClock

  const MAX_SLOTS := 3

  /** One published half-hour. `localMinute` is the UK wall-clock minute of its start. */
  datatype Rate = Rate(start: int, end: int, price: int, localMinute: int)

  /** MAX_RATE and the CHARGE_WINDOW_START/END knob, in minutes of the day. */
  datatype Config = Config(maxRate: int, windowStart: int, windowEnd: int)

  predicate RateAt(r: Rate, t: int) { r.start <= t < r.end }

  /** No two entries of the feed share an instant. */
  ghost predicate Disjoint(rates: seq<Rate>) {
    forall i, j :: 0 <= i < j < |rates| ==> rates[i].end <= rates[j].start || rates[j].end <= rates[i].start
  }

  ghost predicate HalfHours(rates: seq<Rate>) {
    forall r :: r in rates ==> r.start % 1800 == 0 && r.end == r.start + 1800
  }

  ghost predicate Positive(rates: seq<Rate>) {
    forall r :: r in rates ==> r.start < r.end
  }

  // ---------- which slots may be planned ----------

  /** The last end a slot may have. */
  function Cutoff(now: int): int { now + DAY - ABORT_DRIFT }

  predicate CoversNow(rates: seq<Rate>, now: int) {
    exists i :: 0 <= i < |rates| && RateAt(rates[i], now)
  }

  function GetRates(current: seq<Rate>, next: seq<Rate>, now: int): seq<Rate> {
    if CoversNow(current, now) then current
    else if CoversNow(next, now) then next
    else if next != [] && next[0].start > now then next
    else []
  }

  function StillAhead(rates: seq<Rate>, now: int): seq<Rate> {
    if rates == [] then []
    else if rates[0].end > now && rates[0].end <= Cutoff(now) then [rates[0]] + StillAhead(rates[1..], now)
    else StillAhead(rates[1..], now)
  }

  function FromHorizon(rates: seq<Rate>, horizon: int, now: int): seq<Rate> {
    if rates == [] then []
    else if rates[0].start >= horizon && rates[0].end <= Cutoff(now) then [rates[0]] + FromHorizon(rates[1..], horizon, now)
    else FromHorizon(rates[1..], horizon, now)
  }

  function LastEnd(rates: seq<Rate>): int
    requires rates != []
  {
    if |rates| == 1 then rates[0].end
    else if rates[0].end >= LastEnd(rates[1..]) then rates[0].end else LastEnd(rates[1..])
  }

  /** get_planning_slots: `current` and `next` are what get_rates read at its own instant
      `ratesNow`, `nextAgain` is the second read of the next-day feed. */
  function PlanningSlots(now: int, ratesNow: int, current: seq<Rate>, next: seq<Rate>, nextAgain: seq<Rate>): seq<Rate> {
    var today := StillAhead(GetRates(current, next, ratesNow), now);
    if today == [] then [] else today + FromHorizon(nextAgain, LastEnd(today), now)
  }

  lemma {:induction false} StillAheadIs(rates: seq<Rate>, now: int)
    ensures forall r :: r in StillAhead(rates, now) <==> r in rates && now < r.end <= Cutoff(now)
  {
    if rates == [] {
    } else {
      StillAheadIs(rates[1..], now);
      assert rates == [rates[0]] + rates[1..];
    }
  }

  lemma {:induction false} FromHorizonIs(rates: seq<Rate>, horizon: int, now: int)
    ensures forall r :: r in FromHorizon(rates, horizon, now) <==> r in rates && horizon <= r.start && r.end <= Cutoff(now)
  {
    if rates == [] {
    } else {
      FromHorizonIs(rates[1..], horizon, now);
      assert rates == [rates[0]] + rates[1..];
    }
  }

  lemma {:induction false} LastEndIsLast(rates: seq<Rate>)
    requires rates != []
    ensures forall r :: r in rates ==> r.end <= LastEnd(rates)
  {
    assert rates == [rates[0]] + rates[1..];
    if |rates| == 1 {
    } else {
      LastEndIsLast(rates[1..]);
    }
  }

  lemma DisjointTail(rates: seq<Rate>)
    requires rates != [] && Disjoint(rates)
    ensures Disjoint(rates[1..])
    ensures forall r :: r in rates[1..] ==> rates[0].end <= r.start || r.end <= rates[0].start
  {
    forall i, j | 0 <= i < j < |rates[1..]|
      ensures rates[1..][i].end <= rates[1..][j].start || rates[1..][j].end <= rates[1..][i].start
    {
      assert rates[1..][i] == rates[i + 1] && rates[1..][j] == rates[j + 1];
    }
  }

  lemma DisjointCons(r: Rate, rates: seq<Rate>)
    requires Disjoint(rates)
    requires forall x :: x in rates ==> r.end <= x.start || x.end <= r.start
    ensures Disjoint([r] + rates)
  {
    var s := [r] + rates;
    forall i, j | 0 <= i < j < |s| ensures s[i].end <= s[j].start || s[j].end <= s[i].start {
      assert s[j] == rates[j - 1];
      if i > 0 {
        assert s[i] == rates[i - 1];
      }
    }
  }

  lemma {:induction false} StillAheadDisjoint(rates: seq<Rate>, now: int)
    requires Disjoint(rates)
    ensures Disjoint(StillAhead(rates, now))
  {
    if rates == [] {
    } else {
      DisjointTail(rates);
      StillAheadDisjoint(rates[1..], now);
      StillAheadIs(rates[1..], now);
      if now < rates[0].end <= Cutoff(now) {
        DisjointCons(rates[0], StillAhead(rates[1..], now));
      }
    }
  }

  lemma {:induction false} FromHorizonDisjoint(rates: seq<Rate>, horizon: int, now: int)
    requires Disjoint(rates)
    ensures Disjoint(FromHorizon(rates, horizon, now))
  {
    if rates == [] {
    } else {
      DisjointTail(rates);
      FromHorizonDisjoint(rates[1..], horizon, now);
      FromHorizonIs(rates[1..], horizon, now);
      if horizon <= rates[0].start && rates[0].end <= Cutoff(now) {
        DisjointCons(rates[0], FromHorizon(rates[1..], horizon, now));
      }
    }
  }

  /** Every planned slot comes from a feed, has not ended, and ends inside the cutoff; and
      however the two reads of the next-day feed differ, two non-overlapping feeds never give
      a plan that prices an instant twice. */
  lemma PlanningSlotsAreSound(now: int, ratesNow: int, current: seq<Rate>, next: seq<Rate>, nextAgain: seq<Rate>)
    requires Positive(nextAgain)
    ensures forall r :: r in PlanningSlots(now, ratesNow, current, next, nextAgain) ==>
      now < r.end <= Cutoff(now) && (r in current || r in next || r in nextAgain)
    ensures Disjoint(current) && Disjoint(next) && Disjoint(nextAgain) ==>
      Disjoint(PlanningSlots(now, ratesNow, current, next, nextAgain))
  {
    var source := GetRates(current, next, ratesNow);
    var today := StillAhead(source, now);
    StillAheadIs(source, now);
    if today != [] {
      LastEndIsLast(today);
      assert today[0] in today;
      FromHorizonIs(nextAgain, LastEnd(today), now);
      if Disjoint(current) && Disjoint(next) && Disjoint(nextAgain) {
        StillAheadDisjoint(source, now);
        FromHorizonDisjoint(nextAgain, LastEnd(today), now);
        var ahead := FromHorizon(nextAgain, LastEnd(today), now);
        var all := today + ahead;
        forall i, j | 0 <= i < j < |all| ensures all[i].end <= all[j].start || all[j].end <= all[i].start {
          if i < |today| <= j {
            assert all[i] in today && all[j] in ahead;
          }
        }
      }
    }
  }

  // ---------- find_cheap_windows ----------

  predicate InChargeWindow(cfg: Config, minute: int) {
    if cfg.windowStart == cfg.windowEnd then true
    else if cfg.windowStart < cfg.windowEnd then cfg.windowStart <= minute < cfg.windowEnd
    else minute >= cfg.windowStart || minute < cfg.windowEnd
  }

  predicate IsCheap(cfg: Config, r: Rate) {
    r.price <= cfg.maxRate && InChargeWindow(cfg, r.localMinute)
  }

  function Eligible(cfg: Config, rates: seq<Rate>): seq<Rate> {
    if rates == [] then []
    else if IsCheap(cfg, rates[0]) then [rates[0]] + Eligible(cfg, rates[1..])
    else Eligible(cfg, rates[1..])
  }

  predicate EarlierRate(a: Rate, b: Rate) { a.start <= b.start }

  function SortedCheap(cfg: Config, rates: seq<Rate>): seq<Rate> {
    StableSort(Eligible(cfg, rates), EarlierRate)
  }

  /** The runs of touching slots in `rest`, the first one already reaching from `cs` to `ce`. */
  function RunsFrom(cs: int, ce: int, rest: seq<Rate>): seq<Window>
    decreases rest
  {
    if rest == [] then [Window(cs, ce, false)]
    else if rest[0].start == ce then RunsFrom(cs, rest[0].end, rest[1..])
    else [Window(cs, ce, false)] + RunsFrom(rest[0].start, rest[0].end, rest[1..])
  }

  function Runs(cheap: seq<Rate>): seq<Window> {
    if cheap == [] then [] else RunsFrom(cheap[0].start, cheap[0].end, cheap[1..])
  }

  function FirstFew(ws: seq<Window>): seq<Window> {
    if |ws| <= MAX_SLOTS then ws else ws[..MAX_SLOTS]
  }

  function CheapWindows(cfg: Config, rates: seq<Rate>): seq<Window> {
    FirstFew(Runs(SortedCheap(cfg, rates)))
  }

  method FindCheapWindows(cfg: Config, rates: seq<Rate>) returns (windows: seq<Window>)
    ensures windows == CheapWindows(cfg, rates)
  {
    var cheap := SortedCheap(cfg, rates);
    windows := [];
    if cheap == [] {
      return;
    }
    var cs, ce := cheap[0].start, cheap[0].end;
    var i := 1;
    while i < |cheap|
      invariant 1 <= i <= |cheap|
      invariant Runs(cheap) == windows + RunsFrom(cs, ce, cheap[i..])
    {
      var r := cheap[i];
      if r.start == ce {
        ce := r.end;
      } else {
        windows := windows + [Window(cs, ce, false)];
        cs, ce := r.start, r.end;
      }
      i := i + 1;
    }
    windows := windows + [Window(cs, ce, false)];
    windows := FirstFew(windows);
  }

  lemma {:induction false} EligibleIs(cfg: Config, rates: seq<Rate>)
    ensures forall r :: r in Eligible(cfg, rates) <==> r in rates && IsCheap(cfg, r)
  {
    if rates == [] {
    } else {
      EligibleIs(cfg, rates[1..]);
      assert rates == [rates[0]] + rates[1..];
    }
  }

  lemma {:induction false} EligibleDisjoint(cfg: Config, rates: seq<Rate>)
    requires Disjoint(rates)
    ensures Disjoint(Eligible(cfg, rates))
  {
    if rates == [] {
    } else {
      DisjointTail(rates);
      EligibleDisjoint(cfg, rates[1..]);
      EligibleIs(cfg, rates[1..]);
      if IsCheap(cfg, rates[0]) {
        DisjointCons(rates[0], Eligible(cfg, rates[1..]));
      }
    }
  }

  /** Slots in start order that do not overlap. */
  ghost predicate Chain(rates: seq<Rate>) {
    forall i, j :: 0 <= i < j < |rates| ==> rates[i].end <= rates[j].start
  }

  lemma ChainCons(r: Rate, rates: seq<Rate>)
    requires Chain(rates) && forall x :: x in rates ==> r.end <= x.start
    ensures Chain([r] + rates)
  {
    var s := [r] + rates;
    forall i, j | 0 <= i < j < |s| ensures s[i].end <= s[j].start {
      assert s[j] == rates[j - 1];
      if i > 0 {
        assert s[i] == rates[i - 1];
      }
    }
  }

  lemma ChainTail(rates: seq<Rate>)
    requires rates != [] && Chain(rates)
    ensures Chain(rates[1..]) && forall x :: x in rates[1..] ==> rates[0].end <= x.start
  {
    forall i, j | 0 <= i < j < |rates[1..]| ensures rates[1..][i].end <= rates[1..][j].start {
      assert rates[1..][i] == rates[i + 1] && rates[1..][j] == rates[j + 1];
    }
    forall x | x in rates[1..] ensures rates[0].end <= x.start {
      var k :| 0 <= k < |rates[1..]| && rates[1..][k] == x;
      assert x == rates[k + 1];
    }
  }

  lemma {:induction false} InsertChain(r: Rate, rates: seq<Rate>)
    requires Chain(rates) && Positive(rates) && r.start < r.end
    requires forall x :: x in rates ==> r.end <= x.start || x.end <= r.start
    ensures Chain(Insert(r, rates, EarlierRate))
  {
    if rates == [] {
    } else {
      ChainTail(rates);
      assert rates == [rates[0]] + rates[1..] && rates[0] in rates;
      if EarlierRate(r, rates[0]) {
        forall x | x in rates ensures r.end <= x.start {
          assert x == rates[0] || x in rates[1..];
        }
        ChainCons(r, rates);
      } else {
        InsertChain(r, rates[1..]);
        InsertKeeps(r, rates[1..]);
        ChainCons(rates[0], Insert(r, rates[1..], EarlierRate));
      }
    }
  }

  lemma {:induction false} InsertKeeps(r: Rate, rates: seq<Rate>)
    ensures forall x :: x in Insert(r, rates, EarlierRate) <==> x == r || x in rates
  {
    if rates == [] || EarlierRate(r, rates[0]) {
    } else {
      InsertKeeps(r, rates[1..]);
      assert rates == [rates[0]] + rates[1..];
    }
  }

  /** Sorting a non-overlapping feed by start lays its slots end to end. */
  lemma {:induction false} SortChain(rates: seq<Rate>)
    requires Disjoint(rates) && Positive(rates)
    ensures Chain(StableSort(rates, EarlierRate))
  {
    if rates == [] {
    } else {
      DisjointTail(rates);
      SortChain(rates[1..]);
      StableSortSorts(rates[1..], EarlierRate);
      InsertChain(rates[0], StableSort(rates[1..], EarlierRate));
    }
  }

  lemma SortedCheapIs(cfg: Config, rates: seq<Rate>)
    ensures forall r :: r in SortedCheap(cfg, rates) <==> r in rates && IsCheap(cfg, r)
    ensures Disjoint(rates) && Positive(rates) ==> Chain(SortedCheap(cfg, rates))
  {
    EligibleIs(cfg, rates);
    StableSortSorts(Eligible(cfg, rates), EarlierRate);
    if Disjoint(rates) && Positive(rates) {
      EligibleDisjoint(cfg, rates);
      SortChain(Eligible(cfg, rates));
    }
  }

  lemma {:induction false} RunsFromCover(cs: int, ce: int, rest: seq<Rate>, t: int)
    requires cs < ce && Positive(rest)
    ensures Covers(RunsFrom(cs, ce, rest), t) <==> cs <= t < ce || exists r :: r in rest && RateAt(r, t)
    decreases rest
  {
    if rest == [] {
      assert Window(cs, ce, false) in RunsFrom(cs, ce, rest);
      assert Holds(Window(cs, ce, false), t) <==> cs <= t < ce;
    } else {
      assert rest == [rest[0]] + rest[1..];
      assert RateAt(rest[0], t) <==> rest[0].start <= t < rest[0].end;
      if rest[0].start == ce {
        RunsFromCover(cs, rest[0].end, rest[1..], t);
      } else {
        RunsFromCover(rest[0].start, rest[0].end, rest[1..], t);
        var w := Window(cs, ce, false);
        assert Holds(w, t) <==> cs <= t < ce;
        CoversAppend([w], RunsFrom(rest[0].start, rest[0].end, rest[1..]), t);
      }
    }
  }

  /** The runs cover exactly the instants of the slots they are built from. */
  lemma RunsCover(cheap: seq<Rate>, t: int)
    requires Positive(cheap)
    ensures Covers(Runs(cheap), t) <==> exists r :: r in cheap && RateAt(r, t)
  {
    if cheap != [] {
      assert cheap == [cheap[0]] + cheap[1..];
      assert cheap[0] in cheap;
      RunsFromCover(cheap[0].start, cheap[0].end, cheap[1..], t);
      assert RateAt(cheap[0], t) <==> cheap[0].start <= t < cheap[0].end;
    }
  }

  lemma {:induction false} RunsFromSeparated(cs: int, ce: int, rest: seq<Rate>)
    requires cs < ce && Positive(rest) && Chain(rest)
    requires forall r :: r in rest ==> ce <= r.start
    ensures Proper(RunsFrom(cs, ce, rest)) && Separated(RunsFrom(cs, ce, rest))
    ensures forall w :: w in RunsFrom(cs, ce, rest) ==> cs <= w.start && !w.free
    ensures RunsFrom(cs, ce, rest) != [] && RunsFrom(cs, ce, rest)[0].start == cs && RunsFrom(cs, ce, rest)[0].end >= ce
    decreases rest
  {
    if rest == [] {
    } else {
      assert rest == [rest[0]] + rest[1..];
      assert rest[0] in rest;
      ChainTail(rest);
      if rest[0].start == ce {
        RunsFromSeparated(cs, rest[0].end, rest[1..]);
      } else {
        RunsFromSeparated(rest[0].start, rest[0].end, rest[1..]);
        SeparatedCons(Window(cs, ce, false), RunsFrom(rest[0].start, rest[0].end, rest[1..]));
      }
    }
  }

  lemma RunsSeparated(cheap: seq<Rate>)
    requires Positive(cheap) && Chain(cheap)
    ensures Proper(Runs(cheap)) && Separated(Runs(cheap))
    ensures forall w :: w in Runs(cheap) ==> !w.free
    ensures cheap != [] ==> Runs(cheap) != [] && Runs(cheap)[0].start == cheap[0].start && Runs(cheap)[0].end >= cheap[0].end
  {
    if cheap != [] {
      assert cheap == [cheap[0]] + cheap[1..];
      assert cheap[0] in cheap;
      ChainTail(cheap);
      RunsFromSeparated(cheap[0].start, cheap[0].end, cheap[1..]);
    }
  }

  /** Whatever the feed, a cheap window only covers instants of eligible slots at or below the
      cap; and for a non-overlapping feed the windows are whole maximal runs, in order. */
  lemma CheapWindowsAreCheapRuns(cfg: Config, rates: seq<Rate>, t: int)
    requires Positive(rates)
    ensures |CheapWindows(cfg, rates)| <= MAX_SLOTS
    ensures Covers(CheapWindows(cfg, rates), t) ==> exists r :: r in rates && IsCheap(cfg, r) && RateAt(r, t)
    ensures Disjoint(rates) ==>
      var all := Runs(SortedCheap(cfg, rates));
      && Proper(all) && Separated(all) && CheapWindows(cfg, rates) <= all
      && (Covers(all, t) <==> exists r :: r in rates && IsCheap(cfg, r) && RateAt(r, t))
  {
    SortedCheapIs(cfg, rates);
    var cheap := SortedCheap(cfg, rates);
    assert Positive(cheap);
    RunsCover(cheap, t);
    var all := Runs(cheap);
    if Covers(CheapWindows(cfg, rates), t) {
      var w :| w in CheapWindows(cfg, rates) && Holds(w, t);
      assert w in all;
      assert Covers(all, t);
      var r :| r in cheap && RateAt(r, t);
      assert r in rates && IsCheap(cfg, r) && RateAt(r, t);
    }
    if Disjoint(rates) {
      RunsSeparated(cheap);
      assert Covers(all, t) ==> exists r :: r in rates && IsCheap(cfg, r) && RateAt(r, t) by {
        if Covers(all, t) {
          var r :| r in cheap && RateAt(r, t);
          assert r in rates && IsCheap(cfg, r) && RateAt(r, t);
        }
      }
    }
  }

  /** The minutes that the knob allows are those met on a 24 h dial when going from its start to
      its end; all of them if the two are equal. */
  lemma ChargeWindowIsAnArc(cfg: Config, minute: int)
    requires 0 <= cfg.windowStart < 1440 && 0 <= cfg.windowEnd < 1440 && 0 <= minute < 1440
    ensures InChargeWindow(cfg, minute) <==>
      cfg.windowStart == cfg.windowEnd || (minute - cfg.windowStart) % 1440 < (cfg.windowEnd - cfg.windowStart) % 1440
  {
    OnTheDial(minute - cfg.windowStart);
    OnTheDial(cfg.windowEnd - cfg.windowStart);
  }

  lemma OnTheDial(d: int)
    requires -1440 < d < 1440
    ensures d % 1440 == if d < 0 then d + 1440 else d
  {
  }

  /** An instant of a slot at or below the cap whose start the knob allows. */
  ghost predicate EligibleAt(cfg: Config, rates: seq<Rate>, t: int) {
    exists r :: r in rates && r.price <= cfg.maxRate && InChargeWindow(cfg, r.localMinute) && r.start <= t < r.end
  }

  /** For a non-overlapping feed the windows are at most three, in order and strictly apart; they
      cover eligible instants only; and every eligible instant is covered, unless there are three
      windows and it lies after the last of them. No other list of windows is like that. */
  lemma EarliestRunsAreTaken(cfg: Config, rates: seq<Rate>, t: int)
    requires Positive(rates) && Disjoint(rates)
    ensures var ws := CheapWindows(cfg, rates);
      && |ws| <= 3 && Proper(ws) && Separated(ws)
      && (Covers(ws, t) ==> EligibleAt(cfg, rates, t))
      && (EligibleAt(cfg, rates, t) ==> Covers(ws, t) || (|ws| == 3 && ws[2].end < t))
  {
    CheapWindowsAreCheapRuns(cfg, rates, t);
    var all, ws := Runs(SortedCheap(cfg, rates)), CheapWindows(cfg, rates);
    FirstOfSeparated(all, ws);
    assert EligibleAt(cfg, rates, t) <==> exists r :: r in rates && IsCheap(cfg, r) && RateAt(r, t) by {
      if EligibleAt(cfg, rates, t) {
        var r :| r in rates && r.price <= cfg.maxRate && InChargeWindow(cfg, r.localMinute) && r.start <= t < r.end;
        assert IsCheap(cfg, r) && RateAt(r, t);
      }
    }
    if Covers(all, t) && !Covers(ws, t) {
      LeftOutIsLater(all, t);
    }
  }

  lemma FirstOfSeparated(all: seq<Window>, ws: seq<Window>)
    requires Proper(all) && Separated(all) && ws <= all
    ensures Proper(ws) && Separated(ws)
  {
    assert forall w :: w in ws ==> w in all;
    assert forall i :: 0 <= i < |ws| ==> ws[i] == all[i];
  }

  lemma LeftOutIsLater(all: seq<Window>, t: int)
    requires Proper(all) && Separated(all) && Covers(all, t) && !Covers(FirstFew(all), t)
    ensures |FirstFew(all)| == 3 && FirstFew(all)[2].end < t
  {
    var w :| w in all && Holds(w, t);
    var k :| 0 <= k < |all| && all[k] == w;
    assert forall i :: 0 <= i < |FirstFew(all)| ==> FirstFew(all)[i] in FirstFew(all) && FirstFew(all)[i] == all[i];
    assert all[2].end < all[k].start;
  }

  /** Which slots may be planned: those of today's source that have not ended and end inside the
      cutoff; and, if there is any of those, the slots of tomorrow that begin when all of those
      are over. The source is the first feed that covers the instant of the read; if neither
      does, the next-day feed while it is still ahead. */
  lemma PlannedIff(now: int, ratesNow: int, current: seq<Rate>, next: seq<Rate>, nextAgain: seq<Rate>, r: Rate)
    ensures r in PlanningSlots(now, ratesNow, current, next, nextAgain) <==>
      || StillToday(current, next, ratesNow, now, r)
      || (r in nextAgain && r.end <= now + 86400 - 1500
          && (exists x :: StillToday(current, next, ratesNow, now, x))
          && (forall x :: StillToday(current, next, ratesNow, now, x) ==> x.end <= r.start))
  {
    var source := GetRates(current, next, ratesNow);
    var today := StillAhead(source, now);
    StillAheadIs(source, now);
    forall x ensures x in source <==> ReadToday(current, next, ratesNow, x) {
      SourceIs(current, next, ratesNow, x);
    }
    assert forall x :: x in today <==> StillToday(current, next, ratesNow, now, x);
    if today != [] {
      assert today[0] in today;
      FromLastEndIs(today, nextAgain, now, r);
    }
  }

  lemma FromLastEndIs(today: seq<Rate>, nextAgain: seq<Rate>, now: int, r: Rate)
    requires today != []
    ensures r in FromHorizon(nextAgain, LastEnd(today), now) <==>
      r in nextAgain && r.end <= Cutoff(now) && forall x :: x in today ==> x.end <= r.start
  {
    LastEndIsLast(today);
    LastEndIsReached(today);
    FromHorizonIs(nextAgain, LastEnd(today), now);
  }

  ghost predicate AnyCovers(rates: seq<Rate>, t: int) { exists r :: r in rates && r.start <= t < r.end }

  /** A slot of the feed that is read for today. */
  ghost predicate ReadToday(current: seq<Rate>, next: seq<Rate>, now: int, r: Rate) {
    || (AnyCovers(current, now) && r in current)
    || (!AnyCovers(current, now) && r in next && (AnyCovers(next, now) || next[0].start > now))
  }

  ghost predicate StillToday(current: seq<Rate>, next: seq<Rate>, ratesNow: int, now: int, r: Rate) {
    ReadToday(current, next, ratesNow, r) && now < r.end <= now + 86400 - 1500
  }

  lemma CoversIs(rates: seq<Rate>, now: int)
    ensures CoversNow(rates, now) <==> AnyCovers(rates, now)
  {
    if CoversNow(rates, now) {
      var i :| 0 <= i < |rates| && RateAt(rates[i], now);
      assert rates[i] in rates;
    }
  }

  lemma SourceIs(current: seq<Rate>, next: seq<Rate>, now: int, r: Rate)
    ensures r in GetRates(current, next, now) <==> ReadToday(current, next, now, r)
  {
    CoversIs(current, now);
    CoversIs(next, now);
  }

  lemma {:induction false} LastEndIsReached(rates: seq<Rate>)
    requires rates != []
    ensures exists r :: r in rates && r.end == LastEnd(rates)
  {
    if |rates| == 1 {
      assert rates[0] in rates;
    } else if rates[0].end >= LastEnd(rates[1..]) {
      assert rates[0] in rates;
    } else {
      LastEndIsReached(rates[1..]);
      var r :| r in rates[1..] && r.end == LastEnd(rates);
      assert r in rates;
    }
  }
}
