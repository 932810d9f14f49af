/** From prices and sessions to the charge windows that are written (solis_agile_charge.py,
    run_optimizer steps 4 to 5.5), and what the inverter then does with them. */
module SolisPlan {
  import opened Options
  import opened Sorting
  import opened Windows
  import opened InverterClock
  import opened SolisFeeds

  // ---------- filter_safe_windows ----------

  predicate Overlaps(r: Rate, w: Window) { r.start < w.end && r.end > w.start }

  predicate HasExpensive(cfg: Config, rates: seq<Rate>, w: Window) {
    exists i :: 0 <= i < |rates| && rates[i].price > cfg.maxRate && Overlaps(rates[i], w)
  }

  function FilterSafe(cfg: Config, ws: seq<Window>, rates: seq<Rate>): seq<Window> {
    if ws == [] then []
    else if HasExpensive(cfg, rates, ws[0]) then FilterSafe(cfg, ws[1..], rates)
    else [ws[0]] + FilterSafe(cfg, ws[1..], rates)
  }

  function FilterUnsafe(cfg: Config, ws: seq<Window>, rates: seq<Rate>): seq<Window> {
    if ws == [] then []
    else if HasExpensive(cfg, rates, ws[0]) then [ws[0]] + FilterUnsafe(cfg, ws[1..], rates)
    else FilterUnsafe(cfg, ws[1..], rates)
  }

  method FindExpensive(cfg: Config, rates: seq<Rate>, w: Window) returns (bad: bool)
    ensures bad <==> HasExpensive(cfg, rates, w)
  {
    bad := false;
    var k := 0;
    while k < |rates| && !bad
      invariant 0 <= k <= |rates|
      invariant bad <==> exists j :: 0 <= j < k && rates[j].price > cfg.maxRate && Overlaps(rates[j], w)
    {
      bad := rates[k].price > cfg.maxRate && Overlaps(rates[k], w);
      k := k + 1;
    }
  }

  method FilterSafeWindows(cfg: Config, ws: seq<Window>, rates: seq<Rate>) returns (safe: seq<Window>, dropped: seq<Window>)
    ensures safe == FilterSafe(cfg, ws, rates) && dropped == FilterUnsafe(cfg, ws, rates)
  {
    safe, dropped := [], [];
    var i := 0;
    while i < |ws|
      invariant 0 <= i <= |ws|
      invariant FilterSafe(cfg, ws, rates) == safe + FilterSafe(cfg, ws[i..], rates)
      invariant FilterUnsafe(cfg, ws, rates) == dropped + FilterUnsafe(cfg, ws[i..], rates)
    {
      var bad := FindExpensive(cfg, rates, ws[i]);
      FilterStep(cfg, ws[i..], rates, safe, dropped);
      if bad {
        dropped := dropped + [ws[i]];
      } else {
        safe := safe + [ws[i]];
      }
      i := i + 1;
    }
    assert ws[i..] == [] && safe + [] == safe && dropped + [] == dropped;
  }

  lemma FilterStep(cfg: Config, rest: seq<Window>, rates: seq<Rate>, safe: seq<Window>, dropped: seq<Window>)
    requires rest != []
    ensures var bad := HasExpensive(cfg, rates, rest[0]);
      && safe + FilterSafe(cfg, rest, rates) == (if bad then safe else safe + [rest[0]]) + FilterSafe(cfg, rest[1..], rates)
      && dropped + FilterUnsafe(cfg, rest, rates)
         == (if bad then dropped + [rest[0]] else dropped) + FilterUnsafe(cfg, rest[1..], rates)
  {
    Push(safe, rest[0], FilterSafe(cfg, rest[1..], rates));
    Push(dropped, rest[0], FilterUnsafe(cfg, rest[1..], rates));
  }

  lemma Push(done: seq<Window>, w: Window, rest: seq<Window>)
    ensures (done + [w]) + rest == done + ([w] + rest)
  {
  }

  /** Every window is either kept or dropped, once. */
  lemma {:induction false} FilterPartitions(cfg: Config, ws: seq<Window>, rates: seq<Rate>)
    ensures multiset(FilterSafe(cfg, ws, rates)) + multiset(FilterUnsafe(cfg, ws, rates)) == multiset(ws)
    ensures forall w :: w in FilterUnsafe(cfg, ws, rates) ==> HasExpensive(cfg, rates, w)
  {
    if ws == [] {
    } else {
      FilterPartitions(cfg, ws[1..], rates);
      assert ws == [ws[0]] + ws[1..];
    }
  }

  // ---------- the cap of three ----------

  function FreeOnes(ws: seq<Window>, free: bool): seq<Window> {
    if ws == [] then []
    else if ws[0].free == free then [ws[0]] + FreeOnes(ws[1..], free)
    else FreeOnes(ws[1..], free)
  }

  function Cap(ws: seq<Window>): seq<Window> {
    if |ws| <= MAX_SLOTS then ws
    else StableSort(FirstFew(FreeOnes(ws, true) + FreeOnes(ws, false)), EarlierWindow)
  }

  // ---------- verify_written_slots_are_cheap ----------

  /** The instant that the written start stands for on the window's inverter date. */
  function Rederive(w: Window, offset: int): int {
    var invDate := (w.start + offset) / 86400;
    86400 * invDate + 60 * Hhmm(w.start, offset) - offset
  }

  function RateLookup(rates: seq<Rate>, t: int): Option<int> {
    if rates == [] then None
    else if RateAt(rates[0], t) then Some(rates[0].price)
    else RateLookup(rates[1..], t)
  }

  predicate TooDear(cfg: Config, rates: seq<Rate>, t: int) {
    var rate := RateLookup(rates, t);
    rate.Some? && rate.value > cfg.maxRate
  }

  predicate FailsProbe(cfg: Config, rates: seq<Rate>, w: Window, offset: int) {
    !w.free && (TooDear(cfg, rates, Rederive(w, offset)) || TooDear(cfg, rates, w.end - 60))
  }

  /** None is the abort on a start that does not come back from its own HH:MM. */
  function RoundTrip(cfg: Config, ws: seq<Window>, rates: seq<Rate>, offset: int): Option<seq<Window>> {
    if ws == [] then Some([])
    else if Rederive(ws[0], offset) != ws[0].start - ws[0].start % 60 then None
    else
      var rest := RoundTrip(cfg, ws[1..], rates, offset);
      if rest.None? then None
      else if FailsProbe(cfg, rates, ws[0], offset) then rest
      else Some([ws[0]] + rest.value)
  }

  function Prepend(safe: seq<Window>, rest: Option<seq<Window>>): Option<seq<Window>> {
    if rest.None? then None else Some(safe + rest.value)
  }

  method VerifyWrittenSlotsAreCheap(cfg: Config, ws: seq<Window>, rates: seq<Rate>, offset: int)
    returns (result: Option<seq<Window>>)
    ensures result == RoundTrip(cfg, ws, rates, offset)
  {
    var safe := [];
    var i := 0;
    ghost var whole := RoundTrip(cfg, ws, rates, offset);
    assert whole.Some? ==> [] + whole.value == whole.value;
    while i < |ws|
      invariant 0 <= i <= |ws|
      invariant RoundTrip(cfg, ws, rates, offset) == Prepend(safe, RoundTrip(cfg, ws[i..], rates, offset))
    {
      var w := ws[i];
      if Rederive(w, offset) != w.start - w.start % 60 {
        return None;
      }
      ghost var rest := RoundTrip(cfg, ws[i + 1..], rates, offset);
      if !FailsProbe(cfg, rates, w, offset) {
        assert rest.Some? ==> safe + ([w] + rest.value) == (safe + [w]) + rest.value;
        safe := safe + [w];
      }
      i := i + 1;
    }
    assert safe + [] == safe;
    return Some(safe);
  }

  // ---------- the plan ----------

  function MergedCharge(cfg: Config, upcoming: seq<Rate>, free: seq<Window>): seq<Window> {
    Merge(free + FilterSafe(cfg, CheapWindows(cfg, upcoming), upcoming))
  }

  function ChargePlan(cfg: Config, upcoming: seq<Rate>, free: seq<Window>, offset: int): Option<seq<Window>> {
    RoundTrip(cfg, Cap(Split(MergedCharge(cfg, upcoming, free), offset)), upcoming, offset)
  }

  function DischargePlan(saving: seq<Window>, offset: int): seq<Window> {
    FirstFew(Split(Merge(saving), offset))
  }

  method BuildWindows(cfg: Config, upcoming: seq<Rate>, free: seq<Window>, saving: seq<Window>, offset: int)
    returns (charge: Option<seq<Window>>, discharge: seq<Window>)
    ensures charge == ChargePlan(cfg, upcoming, free, offset)
    ensures discharge == DischargePlan(saving, offset)
  {
    var cheap := FindCheapWindows(cfg, upcoming);
    var safe, _ := FilterSafeWindows(cfg, cheap, upcoming);
    var merged := MergeWindows(free + safe);
    var all := SplitAtInverterMidnight(merged, offset);
    if |all| > MAX_SLOTS {
      all := StableSort(FirstFew(FreeOnes(all, true) + FreeOnes(all, false)), EarlierWindow);
    }
    merged := MergeWindows(saving);
    discharge := SplitAtInverterMidnight(merged, offset);
    discharge := FirstFew(discharge);
    charge := Some([]);
    if all != [] {
      charge := VerifyWrittenSlotsAreCheap(cfg, all, upcoming, offset);
    }
  }

  // ---------- everything written comes from a merged window ----------

  /** Some slot above the cap shares an instant with the window. */
  ghost predicate TouchesDear(cfg: Config, rates: seq<Rate>, w: Window) {
    exists r :: r in rates && r.price > cfg.maxRate && !(r.end <= w.start || w.end <= r.start)
  }

  lemma ExpensiveIs(cfg: Config, rates: seq<Rate>, w: Window)
    ensures HasExpensive(cfg, rates, w) <==> TouchesDear(cfg, rates, w)
  {
    if HasExpensive(cfg, rates, w) {
      var i :| 0 <= i < |rates| && rates[i].price > cfg.maxRate && Overlaps(rates[i], w);
      assert rates[i] in rates;
    }
    if TouchesDear(cfg, rates, w) {
      var r :| r in rates && r.price > cfg.maxRate && !(r.end <= w.start || w.end <= r.start);
      var i :| 0 <= i < |rates| && rates[i] == r;
      assert Overlaps(rates[i], w);
    }
  }

  /** A window is kept exactly when no slot above the cap shares an instant with it. */
  lemma FilterKeepsTheClean(cfg: Config, ws: seq<Window>, rates: seq<Rate>, w: Window)
    ensures w in FilterSafe(cfg, ws, rates) <==> w in ws && !TouchesDear(cfg, rates, w)
  {
    FilterSafeKeeps(cfg, ws, rates);
    ExpensiveIs(cfg, rates, w);
  }

  lemma {:induction false} FilterSafeKeeps(cfg: Config, ws: seq<Window>, rates: seq<Rate>)
    ensures forall w :: w in FilterSafe(cfg, ws, rates) <==> w in ws && !HasExpensive(cfg, rates, w)
  {
    if ws == [] {
    } else {
      FilterSafeKeeps(cfg, ws[1..], rates);
      assert ws == [ws[0]] + ws[1..];
    }
  }

  lemma {:induction false} FilterSafeKeepsAll(cfg: Config, ws: seq<Window>, rates: seq<Rate>)
    requires forall w :: w in ws ==> !HasExpensive(cfg, rates, w)
    ensures FilterSafe(cfg, ws, rates) == ws
  {
    if ws == [] {
    } else {
      FilterSafeKeepsAll(cfg, ws[1..], rates);
      assert ws == [ws[0]] + ws[1..];
    }
  }

  lemma {:induction false} FreeOnesIs(ws: seq<Window>, free: bool)
    ensures forall w :: w in FreeOnes(ws, free) <==> w in ws && w.free == free
  {
    if ws == [] {
    } else {
      FreeOnesIs(ws[1..], free);
      assert ws == [ws[0]] + ws[1..];
    }
  }

  lemma {:induction false} FreeOnesOfUnfree(ws: seq<Window>)
    requires forall w :: w in ws ==> !w.free
    ensures FreeOnes(ws, false) == ws && FreeOnes(ws, true) == []
  {
    if ws == [] {
    } else {
      FreeOnesOfUnfree(ws[1..]);
      assert ws == [ws[0]] + ws[1..];
    }
  }

  /** The cap keeps at most three of the windows, in start order when it had to choose. */
  lemma CapKeeps(ws: seq<Window>)
    ensures |Cap(ws)| <= MAX_SLOTS
    ensures forall w :: w in Cap(ws) ==> w in ws
    ensures |ws| > MAX_SLOTS ==> Sorted(Cap(ws), EarlierWindow)
  {
    if |ws| > MAX_SLOTS {
      FreeOnesIs(ws, true);
      FreeOnesIs(ws, false);
      StableSortSorts(FirstFew(FreeOnes(ws, true) + FreeOnes(ws, false)), EarlierWindow);
    }
  }

  /** A free window is only left out for other free ones. */
  lemma CapPrefersFree(ws: seq<Window>, v: Window, w: Window)
    requires v in ws && v.free && v !in Cap(ws) && w in Cap(ws)
    ensures w.free
  {
    FreeOnesIs(ws, true);
    var free, rest := FreeOnes(ws, true), FreeOnes(ws, false);
    var few := FirstFew(free + rest);
    StableSortSorts(few, EarlierWindow);
    assert v in free;
    var k :| 0 <= k < |free| && free[k] == v;
    assert forall i :: 0 <= i < |few| && i < |free| ==> few[i] == free[i];
    assert few == free[..MAX_SLOTS];
    assert w in few;
  }

  /** With no free window the first three stay. */
  lemma CapKeepsEarliest(ws: seq<Window>, i: nat)
    requires (forall w :: w in ws ==> !w.free) && i < |ws| && i < MAX_SLOTS
    ensures ws[i] in Cap(ws)
  {
    if |ws| > MAX_SLOTS {
      FreeOnesOfUnfree(ws);
      assert [] + ws == ws;
      StableSortSorts(FirstFew(ws), EarlierWindow);
      assert FirstFew(ws)[i] == ws[i];
    }
  }

  /** Free windows go before others, and earlier ones before later ones of their kind. */
  predicate Precedes(v: Window, w: Window) { if v.free != w.free then v.free else v.start < w.start }

  /** How many of the windows go before `w`. */
  function GoFirst(ws: seq<Window>, w: Window): nat {
    if ws == [] then 0 else (if Precedes(ws[0], w) then 1 else 0) + GoFirst(ws[1..], w)
  }

  lemma {:induction false} GoFirstAppend(a: seq<Window>, b: seq<Window>, w: Window)
    ensures GoFirst(a + b, w) == GoFirst(a, w) + GoFirst(b, w)
  {
    if a == [] {
      assert a + b == b;
    } else {
      assert (a + b)[1..] == a[1..] + b;
      GoFirstAppend(a[1..], b, w);
    }
  }

  lemma {:induction false} GoFirstByKind(ws: seq<Window>, w: Window)
    ensures GoFirst(ws, w) == GoFirst(FreeOnes(ws, true), w) + GoFirst(FreeOnes(ws, false), w)
    ensures |ws| == |FreeOnes(ws, true)| + |FreeOnes(ws, false)|
  {
    if ws == [] {
    } else {
      GoFirstByKind(ws[1..], w);
      assert ([ws[0]] + FreeOnes(ws[1..], ws[0].free))[1..] == FreeOnes(ws[1..], ws[0].free);
    }
  }

  /** In a list ordered by precedence a window stands behind those that go before it. */
  lemma {:induction false} StandsBehind(ws: seq<Window>, k: nat)
    requires k < |ws| && forall i, j :: 0 <= i < j < |ws| ==> Precedes(ws[i], ws[j])
    ensures GoFirst(ws, ws[k]) == k
  {
    if k == 0 {
      NoneGoFirst(ws, ws[0]);
    } else {
      assert forall i, j :: 0 <= i < j < |ws[1..]| ==> ws[1..][i] == ws[i + 1] && ws[1..][j] == ws[j + 1];
      assert ws[k] == ws[1..][k - 1] && Precedes(ws[0], ws[k]);
      StandsBehind(ws[1..], k - 1);
    }
  }

  lemma {:induction false} NoneGoFirst(ws: seq<Window>, w: Window)
    requires forall v :: v in ws ==> !Precedes(v, w)
    ensures GoFirst(ws, w) == 0
  {
    if ws == [] {
    } else {
      assert ws[0] in ws && forall v :: v in ws[1..] ==> v in ws;
      NoneGoFirst(ws[1..], w);
    }
  }

  lemma {:induction false} FreeOnesInOrder(ws: seq<Window>, free: bool)
    requires InOrder(ws)
    ensures InOrder(FreeOnes(ws, free))
  {
    if ws == [] {
    } else {
      assert forall i, j :: 0 <= i < j < |ws[1..]| ==> ws[1..][i] == ws[i + 1] && ws[1..][j] == ws[j + 1];
      FreeOnesInOrder(ws[1..], free);
      FreeOnesIs(ws[1..], free);
      if ws[0].free == free {
        forall q | q in FreeOnes(ws[1..], free) ensures ws[0].start < q.start && ws[0].end < q.start {
          var k :| 0 <= k < |ws[1..]| && ws[1..][k] == q;
          assert q == ws[k + 1];
        }
        InOrderAppend([ws[0]], FreeOnes(ws[1..], free));
      }
    }
  }

  lemma ByKindOrdered(ws: seq<Window>)
    requires InOrder(ws)
    ensures var all := FreeOnes(ws, true) + FreeOnes(ws, false);
      && |all| == |ws| && (forall w :: w in all <==> w in ws)
      && (forall i, j :: 0 <= i < j < |all| ==> Precedes(all[i], all[j]))
      && (forall w :: GoFirst(all, w) == GoFirst(ws, w))
  {
    FreeOnesIs(ws, true);
    FreeOnesIs(ws, false);
    FreeOnesInOrder(ws, true);
    FreeOnesInOrder(ws, false);
    var a, b := FreeOnes(ws, true), FreeOnes(ws, false);
    GoFirstByKind(ws, Window(0, 0, true));
    forall w ensures GoFirst(a + b, w) == GoFirst(ws, w) {
      GoFirstAppend(a, b, w);
      GoFirstByKind(ws, w);
    }
    forall i, j | 0 <= i < j < |a + b| ensures Precedes((a + b)[i], (a + b)[j]) {
      assert (a + b)[i] in (if i < |a| then a else b) && (a + b)[j] in (if j < |a| then a else b);
    }
  }

  /** Of windows in order exactly those stay that fewer than three others go before, so the cap
      fills all three places if it can: with free windows first, and the earliest of each kind. */
  lemma CapIsTheFirstThree(ws: seq<Window>, w: Window)
    requires InOrder(ws)
    ensures w in Cap(ws) <==> w in ws && GoFirst(ws, w) < 3
    ensures |Cap(ws)| == if |ws| < 3 then |ws| else 3
  {
    var all := FreeOnes(ws, true) + FreeOnes(ws, false);
    ByKindOrdered(ws);
    if |ws| > 3 {
      StableSortSorts(FirstFew(all), EarlierWindow);
    }
    if w in ws {
      var k :| 0 <= k < |all| && all[k] == w;
      StandsBehind(all, k);
      assert k < |FirstFew(all)| ==> FirstFew(all)[k] == w;
      if w in FirstFew(all) {
        var i :| 0 <= i < |FirstFew(all)| && FirstFew(all)[i] == w;
        StandsBehind(all, i);
      }
    }
  }

  lemma {:induction false} RoundTripKeeps(cfg: Config, ws: seq<Window>, rates: seq<Rate>, offset: int)
    requires offset % 60 == 0
    ensures RoundTrip(cfg, ws, rates, offset).Some?
    ensures forall w :: w in RoundTrip(cfg, ws, rates, offset).value <==> w in ws && !FailsProbe(cfg, rates, w, offset)
    ensures |RoundTrip(cfg, ws, rates, offset).value| <= |ws|
  {
    if ws == [] {
    } else {
      RoundTripKeeps(cfg, ws[1..], rates, offset);
      assert ws == [ws[0]] + ws[1..];
      StartComesBack(ws[0], offset);
    }
  }

  ghost predicate FirstToCover(rates: seq<Rate>, i: nat, t: int) {
    && i < |rates| && rates[i].start <= t < rates[i].end
    && forall j :: 0 <= j < i ==> !(rates[j].start <= t < rates[j].end)
  }

  /** The first slot that covers the instant, if there is one, is above the cap. */
  ghost predicate PricedTooDear(cfg: Config, rates: seq<Rate>, t: int) {
    exists i: nat :: FirstToCover(rates, i, t) && rates[i].price > cfg.maxRate
  }

  lemma FirstToCoverTail(rates: seq<Rate>, i: nat, t: int)
    requires rates != [] && !RateAt(rates[0], t)
    ensures FirstToCover(rates, i + 1, t) <==> FirstToCover(rates[1..], i, t)
  {
    assert i < |rates| - 1 ==> rates[1..][i] == rates[i + 1];
    assert forall j :: 0 < j <= i < |rates| ==> rates[j] == rates[1..][j - 1];
  }

  lemma {:induction false} TooDearIs(cfg: Config, rates: seq<Rate>, t: int)
    ensures TooDear(cfg, rates, t) <==> PricedTooDear(cfg, rates, t)
  {
    if rates == [] {
    } else if RateAt(rates[0], t) {
      assert FirstToCover(rates, 0, t);
    } else {
      TooDearIs(cfg, rates[1..], t);
      if i: nat :| FirstToCover(rates[1..], i, t) && rates[1..][i].price > cfg.maxRate {
        FirstToCoverTail(rates, i, t);
      }
      if i: nat :| FirstToCover(rates, i, t) && rates[i].price > cfg.maxRate {
        FirstToCoverTail(rates, i - 1, t);
      }
    }
  }

  /** In a zone of whole minutes the check never aborts, and keeps a free window always and any
      other exactly when neither the minute of its start nor the minute before its end is priced
      above the cap. */
  lemma RoundTripKeepsTheCheap(cfg: Config, ws: seq<Window>, rates: seq<Rate>, offset: int, w: Window)
    requires offset % 60 == 0
    ensures RoundTrip(cfg, ws, rates, offset).Some?
    ensures w in RoundTrip(cfg, ws, rates, offset).value <==>
      w in ws && (w.free || !(PricedTooDear(cfg, rates, w.start - w.start % 60) || PricedTooDear(cfg, rates, w.end - 60)))
  {
    RoundTripKeeps(cfg, ws, rates, offset);
    FailsProbeIs(cfg, rates, w, offset);
  }

  lemma FailsProbeIs(cfg: Config, rates: seq<Rate>, w: Window, offset: int)
    requires offset % 60 == 0
    ensures FailsProbe(cfg, rates, w, offset) <==>
      !w.free && (PricedTooDear(cfg, rates, w.start - w.start % 60) || PricedTooDear(cfg, rates, w.end - 60))
  {
    StartComesBack(w, offset);
    TooDearIs(cfg, rates, w.start - w.start % 60);
    TooDearIs(cfg, rates, w.end - 60);
  }

  lemma {:induction false} RoundTripKeepsAll(cfg: Config, ws: seq<Window>, rates: seq<Rate>, offset: int)
    requires offset % 60 == 0
    requires forall w :: w in ws ==> !FailsProbe(cfg, rates, w, offset)
    ensures RoundTrip(cfg, ws, rates, offset) == Some(ws)
  {
    if ws == [] {
    } else {
      RoundTripKeepsAll(cfg, ws[1..], rates, offset);
      assert ws == [ws[0]] + ws[1..];
      StartComesBack(ws[0], offset);
    }
  }

  /** In any zone of whole minutes the written start names the minute it came from. */
  lemma StartComesBack(w: Window, offset: int)
    requires offset % 60 == 0
    ensures Rederive(w, offset) == w.start - w.start % 60
  {
    var day, minute, second := ReadingOf(w.start + offset);
    DivIs(w.start, 60, 1440 * day + minute - offset / 60, second);
  }

  // ---------- end-to-end price safety ----------

  /** A session that the 24 h left by the drift margin can hold: whole minutes, over by the
      cutoff, and not coming round again within the horizon. */
  predicate SessionFits(s: Window, now: int, horizon: int) {
    s.start < s.end && WholeMinutes(s) && s.end <= Cutoff(now) && Recent(s.start, now, horizon)
  }

  ghost predicate AllWholeMinutes(ws: seq<Window>) { forall w :: w in ws ==> w.start < w.end && WholeMinutes(w) }

  ghost predicate AllSplitCleanly(ws: seq<Window>, offset: int) { forall w :: w in ws ==> SplitsCleanly(w, offset) }

  /** The ranges of a list of windows are all in order and on one inverter day exactly when
      every window splits cleanly. */
  lemma SplitIsInOrderIff(ws: seq<Window>, offset: int)
    requires AllWholeMinutes(ws) && offset % 60 == 0
    ensures AllSplitCleanly(ws, offset) <==> forall p :: p in Split(ws, offset) ==> OneDay(p, offset) && WholeMinutes(p)
  {
    if AllSplitCleanly(ws, offset) {
      forall p | p in Split(ws, offset) ensures OneDay(p, offset) && WholeMinutes(p) {
        SplitPieces(ws, offset, p);
        var w :| w in ws && p in SplitOne(w, offset);
        SplitFitsOneDayIff(w, offset);
      }
    } else {
      var w :| w in ws && !SplitsCleanly(w, offset);
      SplitFitsOneDayIff(w, offset);
      var p :| p in SplitOne(w, offset) && !(OneDay(p, offset) && WholeMinutes(p));
      SplitPieces(ws, offset, p);
    }
  }

  ghost predicate InFreeSession(free: seq<Window>, u: int) {
    exists s :: s in free && Holds(s, u)
  }

  /** `u` lies in a slot of the feed at or below the cap, or in a free session. */
  ghost predicate PaidFor(cfg: Config, upcoming: seq<Rate>, free: seq<Window>, u: int) {
    InFreeSession(free, u) || exists r :: r in upcoming && IsCheap(cfg, r) && RateAt(r, u)
  }

  /** What get_planning_slots guarantees of half-hour feeds (PlanningSlotsAreSound). */
  ghost predicate Plannable(upcoming: seq<Rate>, now: int) {
    HalfHours(upcoming) && forall r :: r in upcoming ==> now < r.end <= Cutoff(now)
  }

  lemma {:induction false} RunsFromBounds(cs: int, ce: int, rest: seq<Rate>, w: Window)
    requires w in RunsFrom(cs, ce, rest)
    ensures w.start == cs || exists r :: r in rest && r.start == w.start
    ensures w.end == ce || exists r :: r in rest && r.end == w.end
    ensures !w.free
    decreases rest
  {
    if rest == [] {
    } else {
      assert rest == [rest[0]] + rest[1..];
      if rest[0].start == ce {
        RunsFromBounds(cs, rest[0].end, rest[1..], w);
      } else if w in RunsFrom(rest[0].start, rest[0].end, rest[1..]) {
        RunsFromBounds(rest[0].start, rest[0].end, rest[1..], w);
      }
      assert rest[0] in rest;
    }
  }

  lemma CheapWindowBounds(cfg: Config, rates: seq<Rate>, w: Window)
    requires w in CheapWindows(cfg, rates)
    ensures !w.free
    ensures exists r :: r in rates && IsCheap(cfg, r) && r.start == w.start
    ensures exists r :: r in rates && IsCheap(cfg, r) && r.end == w.end
  {
    SortedCheapIs(cfg, rates);
    var cheap := SortedCheap(cfg, rates);
    assert w in Runs(cheap);
    assert cheap == [cheap[0]] + cheap[1..];
    assert cheap[0] in cheap;
    RunsFromBounds(cheap[0].start, cheap[0].end, cheap[1..], w);
    assert exists r :: r in cheap && r.start == w.start;
    assert exists r :: r in cheap && r.end == w.end;
  }

  /** Where a window may begin and end so that every range cut from it is sound. */
  predicate Startable(start: int, now: int, offset: int) {
    && start % 60 == 0
    && NextMidnight(start, offset) > start + 60
    && NextMidnight(start, offset) + 86400 > Cutoff(now)
  }

  predicate Endable(end: int, now: int) { end % 60 == 0 && end <= Cutoff(now) }

  lemma SlotStartable(r: Rate, now: int, offset: int)
    requires r.start % 1800 == 0 && r.end == r.start + 1800 && now < r.end <= Cutoff(now)
    requires offset % 3600 == 0
    ensures Startable(r.start, now, offset) && Endable(r.end, now) && Recent(r.start, now, FUTURE)
  {
    var d := (r.start + offset) / 86400;
    var k, h := r.start / 1800, offset / 3600;
    DivIs(r.start, 60, 30 * k, 0);
    DivIs(r.end, 60, 30 * k + 30, 0);
    assert NextMidnight(r.start, offset) == 86400 * (d + 1) - offset == 1800 * (48 * (d + 1) - 2 * h);
  }

  lemma SessionMidnight(start: int, offset: int)
    requires start % 60 == 0 && offset % 3600 == 0 && (start + offset) % 86400 != 86340
    ensures NextMidnight(start, offset) > start + 60
  {
    var d, m, z := ReadingOf(start + offset);
    DivIs(offset, 60, 60 * (offset / 3600), 0);
    WholeMinuteReads(start, offset);
    DivIs(start + offset, 86400, d, 60 * m);
    assert NextMidnight(start, offset) == start + 86400 - 60 * m;
  }

  lemma StartableSplits(m: Window, now: int, offset: int)
    requires Startable(m.start, now, offset) && Endable(m.end, now)
    ensures WholeMinutes(m) && SplitsCleanly(m, offset)
  {
  }

  /** Every range of a window that splits cleanly is in order and on one day. */
  lemma PiecesAreSound(m: Window, p: Window, offset: int)
    requires m.start < m.end && WholeMinutes(m) && SplitsCleanly(m, offset) && offset % 60 == 0
    requires p in SplitOne(m, offset)
    ensures WholeMinutes(p) && OneDay(p, offset)
    ensures p.free == m.free && m.start <= p.start < p.end <= m.end
    ensures forall u :: Holds(p, u) ==> Holds(m, u)
  {
    SplitFitsOneDayIff(m, offset);
    assert m.start <= p.start && p.end <= m.end;
  }

  /** What reaches the merge, and what leaves it, lies in whole minutes. */
  lemma MergedIsWhole(cfg: Config, upcoming: seq<Rate>, free: seq<Window>)
    requires HalfHours(upcoming) && AllWholeMinutes(free)
    ensures AllWholeMinutes(MergedCharge(cfg, upcoming, free))
  {
    var cheap := CheapWindows(cfg, upcoming);
    var ws := free + FilterSafe(cfg, cheap, upcoming);
    FilterSafeKeeps(cfg, cheap, upcoming);
    assert Positive(upcoming);
    CheapWindowsProper(cfg, upcoming);
    forall w | w in cheap ensures w.start < w.end && WholeMinutes(w) {
      CheapWindowIsWhole(cfg, upcoming, w);
    }
    MergeIsWhole(ws);
  }

  lemma MergeIsWhole(ws: seq<Window>)
    requires AllWholeMinutes(ws)
    ensures AllWholeMinutes(Merge(ws))
  {
    MergeKeepsInstants(ws, 0);
    forall m | m in Merge(ws) ensures m.start < m.end && WholeMinutes(m) {
      MergeBounds(ws, m);
    }
  }

  lemma CheapWindowIsWhole(cfg: Config, upcoming: seq<Rate>, w: Window)
    requires HalfHours(upcoming) && w in CheapWindows(cfg, upcoming)
    ensures WholeMinutes(w)
  {
    CheapWindowBounds(cfg, upcoming, w);
    var a :| a in upcoming && IsCheap(cfg, a) && a.start == w.start;
    var b :| b in upcoming && IsCheap(cfg, b) && b.end == w.end;
    DivIs(a.start, 60, 30 * (a.start / 1800), 0);
    DivIs(b.end, 60, 30 * (b.start / 1800) + 30, 0);
  }

  /** The merged windows end inside the cutoff and do not come round again within the horizon. */
  lemma MergedIsSound(cfg: Config, upcoming: seq<Rate>, free: seq<Window>, now: int, offset: int, horizon: int, m: Window)
    requires Plannable(upcoming, now) && offset % 3600 == 0 && horizon <= FUTURE
    requires forall s :: s in free ==> SessionFits(s, now, horizon)
    requires m in MergedCharge(cfg, upcoming, free)
    ensures m.start < m.end && WholeMinutes(m) && m.end <= Cutoff(now) && Recent(m.start, now, horizon)
  {
    var cheap := CheapWindows(cfg, upcoming);
    var ws := free + FilterSafe(cfg, cheap, upcoming);
    FilterSafeKeeps(cfg, cheap, upcoming);
    forall v | v in ws ensures v.end <= Cutoff(now) && Recent(v.start, now, horizon) {
      if v !in free {
        CheapWindowIsSound(cfg, upcoming, now, offset, v);
      }
    }
    MergedIsWhole(cfg, upcoming, free);
    MergeBounds(ws, m);
  }

  /** Sessions are enough to see that every merged window splits cleanly: none begins in the last
      minute of an inverter day, and none began before a midnight that is over. */
  lemma FreshSessionsSplitCleanly(cfg: Config, upcoming: seq<Rate>, free: seq<Window>, now: int, offset: int)
    requires Plannable(upcoming, now) && offset % 3600 == 0
    requires forall s :: s in free ==>
      && s.start < s.end && WholeMinutes(s) && s.end <= Cutoff(now)
      && (s.start + offset) % 86400 != 86340 && NextMidnight(s.start, offset) + 86400 > Cutoff(now)
    ensures AllSplitCleanly(MergedCharge(cfg, upcoming, free), offset)
  {
    var cheap := CheapWindows(cfg, upcoming);
    var ws := free + FilterSafe(cfg, cheap, upcoming);
    FilterSafeKeeps(cfg, cheap, upcoming);
    forall v | v in ws ensures Startable(v.start, now, offset) && Endable(v.end, now) {
      if v in free {
        SessionMidnight(v.start, offset);
      } else {
        CheapWindowIsSound(cfg, upcoming, now, offset, v);
      }
    }
    forall m | m in Merge(ws) ensures SplitsCleanly(m, offset) {
      MergeBounds(ws, m);
      StartableSplits(m, now, offset);
    }
  }

  lemma {:induction false} RunsFromProper(cs: int, ce: int, rest: seq<Rate>)
    requires cs < ce && Positive(rest)
    ensures Proper(RunsFrom(cs, ce, rest))
    decreases rest
  {
    if rest == [] {
    } else {
      assert rest == [rest[0]] + rest[1..];
      assert rest[0] in rest;
      RunsFromProper(if rest[0].start == ce then cs else rest[0].start, rest[0].end, rest[1..]);
    }
  }

  lemma CheapWindowsProper(cfg: Config, rates: seq<Rate>)
    requires Positive(rates)
    ensures Proper(CheapWindows(cfg, rates))
  {
    SortedCheapIs(cfg, rates);
    var cheap := SortedCheap(cfg, rates);
    if cheap != [] {
      assert cheap == [cheap[0]] + cheap[1..] && cheap[0] in cheap;
      RunsFromProper(cheap[0].start, cheap[0].end, cheap[1..]);
    }
  }

  /** Every written window is a piece of a merged one. */
  lemma PlanIsCutFromMerged(cfg: Config, upcoming: seq<Rate>, free: seq<Window>, offset: int, p: Window) returns (m: Window)
    requires offset % 60 == 0
    requires ChargePlan(cfg, upcoming, free, offset).Some? && p in ChargePlan(cfg, upcoming, free, offset).value
    ensures m in MergedCharge(cfg, upcoming, free) && p in SplitOne(m, offset)
  {
    var merged := MergedCharge(cfg, upcoming, free);
    RoundTripKeeps(cfg, Cap(Split(merged, offset)), upcoming, offset);
    CapKeeps(Split(merged, offset));
    SplitPieces(merged, offset, p);
    m :| m in merged && p in SplitOne(m, offset);
  }

  lemma MergedIsPaidFor(cfg: Config, upcoming: seq<Rate>, free: seq<Window>, m: Window, u: int)
    requires Positive(upcoming) && m in MergedCharge(cfg, upcoming, free) && Holds(m, u)
    ensures PaidFor(cfg, upcoming, free, u)
  {
    var cheap := CheapWindows(cfg, upcoming);
    var ws := free + FilterSafe(cfg, cheap, upcoming);
    FilterSafeKeeps(cfg, cheap, upcoming);
    MergeKeepsInstants(ws, u);
    assert Covers(Merge(ws), u);
    var v :| v in ws && Holds(v, u);
    if v !in free {
      assert v in cheap;
      assert Covers(cheap, u);
      CheapWindowsAreCheapRuns(cfg, upcoming, u);
    }
  }

  lemma PlannableIsPositive(upcoming: seq<Rate>, now: int)
    requires Plannable(upcoming, now)
    ensures Positive(upcoming)
  {
  }

  /** The central promise. The clock reads `delta` seconds away from UTC and is accepted; the
      plan is written in the zone recovered from it; the inverter, still that far from UTC,
      replays the written ranges every day. Then at any instant up to the horizon it runs
      only when its clock stands at a moment that was paid for, at most 25 minutes away: in a
      slot at or below the cap that the knob admits, or in a free session. And when the feed
      does not overlap, no dearer slot covers that moment outside a free session. */
  lemma EndToEndPriceSafety(cfg: Config, upcoming: seq<Rate>, free: seq<Window>, now: int, delta: int, horizon: int,
                            t: int, p: Window)
    requires Plannable(upcoming, now)
    requires VerifyClock(delta).Some?
    requires forall s :: s in free ==> SessionFits(s, now, horizon)
    requires AllSplitCleanly(MergedCharge(cfg, upcoming, free), VerifyClock(delta).value)
    requires var offset := VerifyClock(delta).value;
      && ChargePlan(cfg, upcoming, free, offset).Some?
      && p in ChargePlan(cfg, upcoming, free, offset).value
      && MayFire(WrittenRange(p, offset), t + delta)
    requires now <= t <= now + horizon && horizon <= FUTURE
    ensures var u := t + delta - VerifyClock(delta).value;
      && t - 1500 <= u <= t + 1500
      && Holds(p, u)
      && PaidFor(cfg, upcoming, free, u)
      && (Disjoint(upcoming) && !InFreeSession(free, u) ==>
            forall r :: r in upcoming && RateAt(r, u) ==> r.price <= cfg.maxRate)
  {
    var offset := VerifyClock(delta).value;
    var u := t + delta - offset;
    ClockReadingIsUnambiguous(delta);
    var m := PlanIsCutFromMerged(cfg, upcoming, free, offset, p);
    MergedIsSound(cfg, upcoming, free, now, offset, horizon, m);
    DivIs(offset, 60, 60 * (offset / 3600), 0);
    PiecesAreSound(m, p, offset);
    InsideCutoffNeverAliases(p, offset, now, horizon);
    assert FiresWhen(p, offset, u) && InSpan(now, horizon, u);
    PlannableIsPositive(upcoming, now);
    MergedIsPaidFor(cfg, upcoming, free, m, u);
    if Disjoint(upcoming) && !InFreeSession(free, u) {
      NoDearerSlot(cfg, upcoming, free, u);
    }
  }

  lemma NoDearerSlot(cfg: Config, upcoming: seq<Rate>, free: seq<Window>, u: int)
    requires Disjoint(upcoming) && PaidFor(cfg, upcoming, free, u) && !InFreeSession(free, u)
    ensures forall r :: r in upcoming && RateAt(r, u) ==> r.price <= cfg.maxRate
  {
    var c :| c in upcoming && IsCheap(cfg, c) && RateAt(c, u);
    forall r | r in upcoming && RateAt(r, u) ensures r.price <= cfg.maxRate {
      OneSlotAnInstant(upcoming, c, r, u);
    }
  }

  lemma OneSlotAnInstant(rates: seq<Rate>, a: Rate, b: Rate, u: int)
    requires Disjoint(rates) && a in rates && b in rates && RateAt(a, u) && RateAt(b, u)
    ensures a == b
  {
    var i :| 0 <= i < |rates| && rates[i] == a;
    var j :| 0 <= j < |rates| && rates[j] == b;
    assert i == j;
  }

  /** The plan has at most three ranges, and if the merged windows split cleanly each is in order
      and on one inverter day, so the inverter is never handed a range with start >= end. */
  lemma WrittenRangesAreInOrder(cfg: Config, upcoming: seq<Rate>, free: seq<Window>, offset: int)
    requires HalfHours(upcoming) && AllWholeMinutes(free) && offset % 60 == 0
    ensures ChargePlan(cfg, upcoming, free, offset).Some? && |ChargePlan(cfg, upcoming, free, offset).value| <= MAX_SLOTS
    ensures AllSplitCleanly(MergedCharge(cfg, upcoming, free), offset) ==>
      forall p :: p in ChargePlan(cfg, upcoming, free, offset).value ==>
        OneDay(p, offset) && WrittenRange(p, offset).from < WrittenRange(p, offset).to
  {
    var all := Split(MergedCharge(cfg, upcoming, free), offset);
    RoundTripKeeps(cfg, Cap(all), upcoming, offset);
    CapKeeps(all);
    MergedIsWhole(cfg, upcoming, free);
    SplitIsInOrderIff(MergedCharge(cfg, upcoming, free), offset);
  }

  /** The same of the discharge ranges that saving sessions become. */
  lemma DischargeRangesAreInOrder(saving: seq<Window>, offset: int)
    requires AllWholeMinutes(saving) && offset % 60 == 0
    ensures |DischargePlan(saving, offset)| <= MAX_SLOTS
    ensures AllSplitCleanly(Merge(saving), offset) ==>
      forall p :: p in DischargePlan(saving, offset) ==>
        OneDay(p, offset) && WrittenRange(p, offset).from < WrittenRange(p, offset).to
  {
    MergeIsWhole(saving);
    SplitIsInOrderIff(Merge(saving), offset);
  }

  /** Sessions are admitted up to 36 hours ahead and never held to the cutoff, so the promise
      needs that hypothesis: at 09:00 a session for 10:00-11:00 tomorrow is written, and an
      exact UTC clock runs it this morning at 10:00, in a slot priced above the cap. */
  lemma SessionBeyondCutoffIsUnsafe() returns (cfg: Config, upcoming: seq<Rate>, session: Window, now: int)
    ensures now == 9 * 3600 && session == Window(34 * 3600, 35 * 3600, true) && VerifyClock(0) == Some(0)
    ensures Plannable(upcoming, now) && now < session.end && session.start < now + 36 * 3600
    ensures ChargePlan(cfg, upcoming, [session], 0) == Some([session])
    ensures MayFire(WrittenRange(session, 0), 10 * 3600)
    ensures !PaidFor(cfg, upcoming, [session], 10 * 3600)
    ensures exists r :: r in upcoming && RateAt(r, 10 * 3600) && r.price > cfg.maxRate
  {
    var dear := Rate(10 * 3600, 10 * 3600 + 1800, 30, 600);
    cfg, upcoming, session, now := Config(15, 0, 0), [dear], Window(34 * 3600, 35 * 3600, true), 9 * 3600;
    OneDearSlot(cfg, upcoming, dear, now);
    LoneSessionPlan(cfg, upcoming, session, 0);
    TomorrowsRangeIsTodays(session);
  }

  lemma OneDearSlot(cfg: Config, upcoming: seq<Rate>, dear: Rate, now: int)
    requires upcoming == [dear] && dear.price > cfg.maxRate
    requires dear.start % 1800 == 0 && dear.end == dear.start + 1800 && now < dear.end <= Cutoff(now)
    ensures Plannable(upcoming, now) && CheapWindows(cfg, upcoming) == []
    ensures dear in upcoming && forall r :: r in upcoming ==> r == dear
  {
    NothingCheapPlansNothing(cfg, upcoming);
  }

  lemma TomorrowsRangeIsTodays(s: Window)
    requires s.start == 34 * 3600 && s.end == 35 * 3600
    ensures MayFire(WrittenRange(s, 0), 10 * 3600)
  {
    assert Hhmm(s.start, 0) == 600 && Hhmm(s.end, 0) == 660;
  }

  lemma NothingCheapPlansNothing(cfg: Config, upcoming: seq<Rate>)
    requires forall r :: r in upcoming ==> !IsCheap(cfg, r)
    ensures CheapWindows(cfg, upcoming) == []
  {
    SortedCheapIs(cfg, upcoming);
    assert SortedCheap(cfg, upcoming) != [] ==> SortedCheap(cfg, upcoming)[0] in SortedCheap(cfg, upcoming);
  }

  lemma LoneSessionPlan(cfg: Config, upcoming: seq<Rate>, s: Window, offset: int)
    requires CheapWindows(cfg, upcoming) == [] && s.free && s.start < s.end
    requires s.end < NextMidnight(s.start, offset) && offset % 60 == 0
    ensures ChargePlan(cfg, upcoming, [s], offset) == Some([s])
  {
    assert [s] + [] == [s];
    MergeOfSeparated([s]);
    assert [s][1..] == [];
    assert Split([s], offset) == [s];
    RoundTripKeepsAll(cfg, [s], upcoming, offset);
  }

  // ---------- the safety nets ----------

  lemma {:induction false} LookupFindsTheSlot(rates: seq<Rate>, r: Rate, u: int)
    requires Disjoint(rates) && r in rates && RateAt(r, u)
    ensures RateLookup(rates, u) == Some(r.price)
  {
    if RateAt(rates[0], u) {
      OneSlotAnInstant(rates, rates[0], r, u);
    } else {
      assert rates == [rates[0]] + rates[1..];
      DisjointTail(rates);
      LookupFindsTheSlot(rates[1..], r, u);
    }
  }

  /** For a non-overlapping feed the checks are what they claim to be, a second line only:
      filter_safe_windows drops no cheap window, the re-derivation never fails, and the probes
      drop nothing, so the plan is exactly the capped, split, merged windows. */
  lemma SafetyNetsNeverFire(cfg: Config, upcoming: seq<Rate>, free: seq<Window>, now: int, offset: int)
    requires Plannable(upcoming, now) && Disjoint(upcoming) && offset % 3600 == 0
    requires Proper(free) && forall s :: s in free ==> s.free
    ensures FilterSafe(cfg, CheapWindows(cfg, upcoming), upcoming) == CheapWindows(cfg, upcoming)
    ensures ChargePlan(cfg, upcoming, free, offset) ==
      Some(Cap(Split(Merge(free + CheapWindows(cfg, upcoming)), offset)))
  {
    var cheap := CheapWindows(cfg, upcoming);
    PlannableIsPositive(upcoming, now);
    CheapWindowsProper(cfg, upcoming);
    forall w | w in cheap ensures !HasExpensive(cfg, upcoming, w) {
      CheapWindowHasNoExpensive(cfg, upcoming, w);
    }
    FilterSafeKeepsAll(cfg, cheap, upcoming);
    var all := Split(Merge(free + cheap), offset);
    CapKeeps(all);
    forall p | p in Cap(all) ensures !FailsProbe(cfg, upcoming, p, offset) {
      WrittenPiecePasses(cfg, upcoming, free, now, offset, p);
    }
    RoundTripKeepsAll(cfg, Cap(all), upcoming, offset);
  }

  lemma WrittenPiecePasses(cfg: Config, upcoming: seq<Rate>, free: seq<Window>, now: int, offset: int, p: Window)
    requires Plannable(upcoming, now) && Disjoint(upcoming) && offset % 3600 == 0
    requires Proper(free) && forall s :: s in free ==> s.free
    requires p in Split(Merge(free + CheapWindows(cfg, upcoming)), offset)
    ensures !FailsProbe(cfg, upcoming, p, offset)
  {
    var merged := Merge(free + CheapWindows(cfg, upcoming));
    SplitPieces(merged, offset, p);
    var m :| m in merged && p in SplitOne(m, offset);
    if m.free {
      SplitOneCover(m, offset, 0);
    } else {
      UnfreePiecePasses(cfg, upcoming, free, now, offset, m, p);
    }
  }

  lemma CheapWindowHasNoExpensive(cfg: Config, upcoming: seq<Rate>, w: Window)
    requires Positive(upcoming) && Disjoint(upcoming) && w in CheapWindows(cfg, upcoming)
    ensures !HasExpensive(cfg, upcoming, w)
  {
    CheapWindowsProper(cfg, upcoming);
    forall i | 0 <= i < |upcoming| && Overlaps(upcoming[i], w) ensures upcoming[i].price <= cfg.maxRate {
      var r := upcoming[i];
      assert r in upcoming;
      var u := if r.start >= w.start then r.start else w.start;
      assert Holds(w, u);
      CheapWindowsAreCheapRuns(cfg, upcoming, u);
      var c :| c in upcoming && IsCheap(cfg, c) && RateAt(c, u);
      OneSlotAnInstant(upcoming, c, r, u);
    }
  }

  /** The probes of a range that no free session is part of fall in eligible slots. */
  lemma UnfreePiecePasses(cfg: Config, upcoming: seq<Rate>, free: seq<Window>, now: int, offset: int, m: Window, p: Window)
    requires Plannable(upcoming, now) && Disjoint(upcoming) && offset % 3600 == 0
    requires Proper(free) && forall s :: s in free ==> s.free
    requires m in Merge(free + CheapWindows(cfg, upcoming)) && !m.free && p in SplitOne(m, offset)
    ensures !FailsProbe(cfg, upcoming, p, offset)
  {
    UnfreeMergedIsSound(cfg, upcoming, free, now, offset, m);
    var probe := ProbesAreInside(cfg, upcoming, m, p, offset);
    PlannableIsPositive(upcoming, now);
    InsideIsCheap(cfg, upcoming, free, m, probe, p.end - 60);
  }

  lemma InsideIsCheap(cfg: Config, upcoming: seq<Rate>, free: seq<Window>, m: Window, a: int, b: int)
    requires Positive(upcoming) && Disjoint(upcoming)
    requires Proper(free) && forall s :: s in free ==> s.free
    requires m in Merge(free + CheapWindows(cfg, upcoming)) && !m.free && Holds(m, a) && Holds(m, b)
    ensures !TooDear(cfg, upcoming, a) && !TooDear(cfg, upcoming, b)
  {
    ProbeIsCheap(cfg, upcoming, free, m, a);
    ProbeIsCheap(cfg, upcoming, free, m, b);
  }

  /** Both probes of a range lie inside the window it was cut from. */
  lemma ProbesAreInside(cfg: Config, upcoming: seq<Rate>, m: Window, p: Window, offset: int) returns (probe: int)
    requires m.start < m.end && WholeMinutes(m) && SplitsCleanly(m, offset) && offset % 3600 == 0
    requires p in SplitOne(m, offset)
    ensures Holds(m, probe) && Holds(m, p.end - 60)
    ensures FailsProbe(cfg, upcoming, p, offset) ==> TooDear(cfg, upcoming, probe) || TooDear(cfg, upcoming, p.end - 60)
  {
    DivIs(offset, 60, 60 * (offset / 3600), 0);
    PiecesAreSound(m, p, offset);
    StartComesBack(p, offset);
    probe := p.start;
    assert p.start % 60 == 0 && p.end % 60 == 0;
    assert Holds(p, p.start) && Holds(p, p.end - 60);
  }

  lemma UnfreeMergedIsSound(cfg: Config, upcoming: seq<Rate>, free: seq<Window>, now: int, offset: int, m: Window)
    requires Plannable(upcoming, now) && offset % 3600 == 0
    requires Proper(free) && forall s :: s in free ==> s.free
    requires m in Merge(free + CheapWindows(cfg, upcoming)) && !m.free
    ensures m.start < m.end && WholeMinutes(m) && SplitsCleanly(m, offset)
  {
    var ws := free + CheapWindows(cfg, upcoming);
    PlannableIsPositive(upcoming, now);
    CheapWindowsProper(cfg, upcoming);
    MergeKeepsInstants(ws, 0);
    MergedUnfreeInstant(ws, m, m.start);
    MergedUnfreeInstant(ws, m, m.end - 1);
    var v :| v in ws && !v.free && Holds(v, m.start);
    var e :| e in ws && !e.free && Holds(e, m.end - 1);
    MergedStartIsStart(ws, m, v);
    MergedEndIsEnd(ws, m, e);
    CheapWindowIsSound(cfg, upcoming, now, offset, v);
    CheapWindowIsSound(cfg, upcoming, now, offset, e);
    StartableSplits(m, now, offset);
  }

  lemma CheapWindowIsSound(cfg: Config, upcoming: seq<Rate>, now: int, offset: int, w: Window)
    requires Plannable(upcoming, now) && offset % 3600 == 0
    requires w in CheapWindows(cfg, upcoming)
    ensures Startable(w.start, now, offset) && Endable(w.end, now) && Recent(w.start, now, FUTURE)
  {
    CheapWindowBounds(cfg, upcoming, w);
    var a :| a in upcoming && IsCheap(cfg, a) && a.start == w.start;
    var b :| b in upcoming && IsCheap(cfg, b) && b.end == w.end;
    SlotStartable(a, now, offset);
    SlotStartable(b, now, offset);
  }

  lemma MergedStartIsStart(ws: seq<Window>, m: Window, v: Window)
    requires Proper(ws) && m in Merge(ws) && v in ws && Holds(v, m.start)
    ensures v.start == m.start
  {
    MergeKeepsInstants(ws, 0);
    var home := MergeKeepsEach(ws, v);
    SeparatedHolders(Merge(ws), m, home, m.start);
  }

  lemma MergedEndIsEnd(ws: seq<Window>, m: Window, v: Window)
    requires Proper(ws) && m in Merge(ws) && v in ws && Holds(v, m.end - 1)
    ensures v.end == m.end
  {
    MergeKeepsInstants(ws, 0);
    var home := MergeKeepsEach(ws, v);
    SeparatedHolders(Merge(ws), m, home, m.end - 1);
  }

  lemma ProbeIsCheap(cfg: Config, upcoming: seq<Rate>, free: seq<Window>, m: Window, u: int)
    requires Positive(upcoming) && Disjoint(upcoming)
    requires Proper(free) && forall s :: s in free ==> s.free
    requires m in Merge(free + CheapWindows(cfg, upcoming)) && !m.free && Holds(m, u)
    ensures !TooDear(cfg, upcoming, u)
  {
    CheapWindowsProper(cfg, upcoming);
    MergedUnfreeInstant(free + CheapWindows(cfg, upcoming), m, u);
    assert Covers(CheapWindows(cfg, upcoming), u);
    CheapWindowsAreCheapRuns(cfg, upcoming, u);
    var c :| c in upcoming && IsCheap(cfg, c) && RateAt(c, u);
    LookupFindsTheSlot(upcoming, c, u);
  }

  // ---------- nothing cheap is lost ----------

  /** With no session in play, at any planning instant inside an eligible slot that whole slot
      is armed, whatever the cap leaves out, but for the minute before the inverter's midnight. */
  lemma CurrentCheapSlotIsArmed(cfg: Config, upcoming: seq<Rate>, now: int, offset: int, r: Rate, u: int)
    requires Plannable(upcoming, now) && Disjoint(upcoming) && offset % 3600 == 0
    requires r in upcoming && IsCheap(cfg, r) && RateAt(r, now)
    requires RateAt(r, u) && (u + offset) % 86400 < 86340
    ensures ChargePlan(cfg, upcoming, [], offset).Some?
    ensures Covers(ChargePlan(cfg, upcoming, [], offset).value, u)
  {
    var cheap := CheapWindows(cfg, upcoming);
    PlannableIsPositive(upcoming, now);
    SafetyNetsNeverFire(cfg, upcoming, [], now, offset);
    assert [] + cheap == cheap;
    CheapWindowsSeparated(cfg, upcoming);
    MergeOfSeparated(cheap);
    var first := CurrentSlotLeads(cfg, upcoming, now, r);
    var p := PieceAt(first, offset, u);
    FirstPiecesStay(cfg, upcoming, offset, p);
    assert p in Cap(Split(cheap, offset)) && Holds(p, u);
  }

  lemma PieceAt(w: Window, offset: int, u: int) returns (p: Window)
    requires Holds(w, u) && (u + offset) % 86400 < 86340
    ensures p in SplitOne(w, offset) && Holds(p, u)
  {
    assert !LostMinute(w, offset, u) by {
      var d := (w.start + offset) / 86400;
      if LostMinute(w, offset, u) {
        DivIs(u + offset, 86400, d, u + offset - 86400 * d);
      }
    }
    SplitOneCover(w, offset, u);
    p :| p in SplitOne(w, offset) && Holds(p, u);
  }

  /** The cap never drops a piece of the first window. */
  lemma FirstPiecesStay(cfg: Config, upcoming: seq<Rate>, offset: int, p: Window)
    requires CheapWindows(cfg, upcoming) != [] && p in SplitOne(CheapWindows(cfg, upcoming)[0], offset)
    ensures p in Cap(Split(CheapWindows(cfg, upcoming), offset))
  {
    var cheap := CheapWindows(cfg, upcoming);
    var head := SplitOne(cheap[0], offset);
    var all := Split(cheap, offset);
    assert all == head + Split(cheap[1..], offset);
    var k :| 0 <= k < |head| && head[k] == p;
    assert all[k] == p;
    forall w | w in all ensures !w.free {
      SplitPieces(cheap, offset, w);
      var m :| m in cheap && w in SplitOne(m, offset);
      CheapWindowBounds(cfg, upcoming, m);
    }
    CapKeepsEarliest(all, k);
  }

  /** What the saving sessions become: at most three ranges in order, inside the sessions, that
      leave out nothing but the last minute of the inverter's day, unless there are three and it
      lies after the last of them. */
  lemma SavingSessionsAreArmed(saving: seq<Window>, offset: int, u: int)
    requires Proper(saving)
    ensures var ranges := DischargePlan(saving, offset);
      && |ranges| <= 3 && InOrder(ranges)
      && (Covers(ranges, u) ==> Covers(saving, u))
      && (Covers(saving, u) && (u + offset) % 86400 < 86340 ==> Covers(ranges, u) || (|ranges| == 3 && ranges[2].end < u))
  {
    var merged, all, ranges := Merge(saving), Split(Merge(saving), offset), DischargePlan(saving, offset);
    MergeKeepsInstants(saving, u);
    SplitInOrder(merged, offset);
    assert forall i :: 0 <= i < |ranges| ==> ranges[i] == all[i];
    if Covers(ranges, u) {
      var p :| p in ranges && Holds(p, u);
      assert p in all;
      SplitCover(merged, offset, u);
    }
    if Covers(saving, u) && (u + offset) % 86400 < 86340 {
      var m :| m in merged && Holds(m, u);
      var p := PieceAt(m, offset, u);
      SplitPieces(merged, offset, p);
      BehindTheFirst(all, p, u);
    }
  }

  lemma BehindTheFirst(all: seq<Window>, p: Window, u: int)
    requires InOrder(all) && p in all && Holds(p, u)
    ensures Covers(FirstFew(all), u) || (|FirstFew(all)| == 3 && FirstFew(all)[2].end < u)
  {
    var k :| 0 <= k < |all| && all[k] == p;
    assert k < |FirstFew(all)| ==> FirstFew(all)[k] in FirstFew(all);
    assert k >= 3 ==> all[2].end < all[k].start;
  }

  /** For a non-overlapping feed a piece of a merged window is written exactly when fewer than
      three others go before it: the free ones first, and the earliest of each kind. The merged
      windows are those of the free sessions and the cheap runs, and every instant of them but
      the last minute of an inverter day is in a piece. */
  lemma PlanIsTheFirstThree(cfg: Config, upcoming: seq<Rate>, free: seq<Window>, now: int, offset: int, p: Window, u: int)
    requires Plannable(upcoming, now) && Disjoint(upcoming) && offset % 3600 == 0
    requires Proper(free) && forall s :: s in free ==> s.free
    ensures var pieces := Split(Merge(free + CheapWindows(cfg, upcoming)), offset);
      && InOrder(pieces)
      && ChargePlan(cfg, upcoming, free, offset).Some?
      && (p in ChargePlan(cfg, upcoming, free, offset).value <==> p in pieces && GoFirst(pieces, p) < 3)
      && (Covers(pieces, u) ==> Covers(free, u) || Covers(CheapWindows(cfg, upcoming), u))
      && (Covers(free, u) || Covers(CheapWindows(cfg, upcoming), u) ==> (u + offset) % 86400 >= 86340 || Covers(pieces, u))
  {
    var merged := Merge(free + CheapWindows(cfg, upcoming));
    PlannableIsPositive(upcoming, now);
    CheapWindowsProper(cfg, upcoming);
    SafetyNetsNeverFire(cfg, upcoming, free, now, offset);
    MergeKeepsInstants(free + CheapWindows(cfg, upcoming), u);
    CoversAppend(free, CheapWindows(cfg, upcoming), u);
    SplitInOrder(merged, offset);
    CapIsTheFirstThree(Split(merged, offset), p);
    SplitCover(merged, offset, u);
    if Covers(merged, u) && (u + offset) % 86400 < 86340 {
      var m :| m in merged && Holds(m, u);
      var q := PieceAt(m, offset, u);
      SplitPieces(merged, offset, q);
    }
  }

  /** Whatever the feed, even one that overlaps: what is written and not free has no instant in a
      slot above the cap, and neither of its probes is priced above it. */
  lemma WrittenWindowsAreClean(cfg: Config, upcoming: seq<Rate>, free: seq<Window>, offset: int, p: Window, u: int)
    requires Positive(upcoming) && Proper(free) && (forall s :: s in free ==> s.free) && offset % 60 == 0
    requires ChargePlan(cfg, upcoming, free, offset).Some? && p in ChargePlan(cfg, upcoming, free, offset).value && !p.free
    ensures Holds(p, u) ==> !exists r :: r in upcoming && r.price > cfg.maxRate && r.start <= u < r.end
    ensures !PricedTooDear(cfg, upcoming, p.start - p.start % 60) && !PricedTooDear(cfg, upcoming, p.end - 60)
  {
    var m := PlanIsCutFromMerged(cfg, upcoming, free, offset, p);
    RoundTripKeepsTheCheap(cfg, Cap(Split(MergedCharge(cfg, upcoming, free), offset)), upcoming, offset, p);
    SplitOneCover(m, offset, u);
    if Holds(p, u) {
      assert Covers(SplitOne(m, offset), u);
      UnfreeMergedIsClean(cfg, upcoming, free, m, u);
    }
  }

  lemma UnfreeMergedIsClean(cfg: Config, upcoming: seq<Rate>, free: seq<Window>, m: Window, u: int)
    requires Positive(upcoming) && Proper(free) && forall s :: s in free ==> s.free
    requires m in MergedCharge(cfg, upcoming, free) && !m.free && Holds(m, u)
    ensures !exists r :: r in upcoming && r.price > cfg.maxRate && r.start <= u < r.end
  {
    var cheap := CheapWindows(cfg, upcoming);
    var safe := FilterSafe(cfg, cheap, upcoming);
    CheapWindowsProper(cfg, upcoming);
    FilterSafeKeeps(cfg, cheap, upcoming);
    MergedUnfreeInstant(free + safe, m, u);
    var w :| w in free + safe && !w.free && Holds(w, u);
    FilterKeepsTheClean(cfg, cheap, upcoming, w);
    if r :| r in upcoming && r.price > cfg.maxRate && r.start <= u < r.end {
      assert TouchesDear(cfg, upcoming, w);
    }
  }

  lemma CheapWindowsSeparated(cfg: Config, upcoming: seq<Rate>)
    requires Positive(upcoming) && Disjoint(upcoming)
    ensures Separated(CheapWindows(cfg, upcoming)) && Proper(CheapWindows(cfg, upcoming))
  {
    CheapWindowsAreCheapRuns(cfg, upcoming, 0);
    CheapWindowsProper(cfg, upcoming);
  }

  /** The slot that covers now starts the first cheap window. */
  lemma CurrentSlotLeads(cfg: Config, upcoming: seq<Rate>, now: int, r: Rate) returns (first: Window)
    requires Plannable(upcoming, now) && Disjoint(upcoming)
    requires r in upcoming && IsCheap(cfg, r) && RateAt(r, now)
    ensures CheapWindows(cfg, upcoming) != [] && first == CheapWindows(cfg, upcoming)[0]
    ensures first.start == r.start && first.end >= r.end
  {
    PlannableIsPositive(upcoming, now);
    SortedCheapIs(cfg, upcoming);
    var cheap := SortedCheap(cfg, upcoming);
    var k :| 0 <= k < |cheap| && cheap[k] == r;
    assert cheap[0] in cheap;
    assert k == 0;
    RunsSeparated(cheap);
    first := CheapWindows(cfg, upcoming)[0];
  }

  lemma {:induction false} EligibleAppend(cfg: Config, a: seq<Rate>, b: seq<Rate>)
    ensures Eligible(cfg, a + b) == Eligible(cfg, a) + Eligible(cfg, b)
  {
    if a == [] {
      assert a + b == b;
    } else {
      assert (a + b)[1..] == a[1..] + b;
      EligibleAppend(cfg, a[1..], b);
    }
  }

  /** `more` keeps every window of `some`, except that the last one may reach further. */
  predicate Extends(some: seq<Window>, more: seq<Window>) {
    && |some| <= |more|
    && (forall i :: 0 <= i < |some| - 1 ==> more[i] == some[i])
    && (some != [] ==> more[|some| - 1].start == some[|some| - 1].start && more[|some| - 1].end >= some[|some| - 1].end)
  }

  lemma {:induction false} RunsFromExtend(cs: int, ce: int, a: seq<Rate>, b: seq<Rate>)
    requires cs < ce && Positive(a) && Positive(b)
    ensures Extends(RunsFrom(cs, ce, a), RunsFrom(cs, ce, a + b))
    decreases |a| + |b|
  {
    if a == [] {
      assert a + b == b;
      if b != [] && b[0].start == ce {
        assert b[0] in b && b == [b[0]] + b[1..];
        RunsFromExtend(cs, b[0].end, [], b[1..]);
        assert [] + b[1..] == b[1..];
      }
    } else {
      assert a[0] in a && a == [a[0]] + a[1..] && (a + b)[1..] == a[1..] + b;
      if a[0].start == ce {
        RunsFromExtend(cs, a[0].end, a[1..], b);
      } else {
        RunsFromExtend(a[0].start, a[0].end, a[1..], b);
        var some, more := RunsFrom(a[0].start, a[0].end, a[1..]), RunsFrom(a[0].start, a[0].end, a[1..] + b);
        var w := Window(cs, ce, false);
        forall i | 0 <= i < |[w] + some| - 1 ensures ([w] + some)[i] == ([w] + more)[i] {
          if i > 0 {
            assert some[i - 1] == more[i - 1];
          }
        }
      }
    }
  }

  /** Admitting tomorrow's slots displaces nothing chosen for today. */
  lemma TomorrowOnlyExtends(cfg: Config, today: seq<Rate>, ahead: seq<Rate>)
    requires Positive(today) && Positive(ahead)
    requires forall r, x :: r in today && x in ahead ==> r.end <= x.start
    ensures Extends(CheapWindows(cfg, today), CheapWindows(cfg, today + ahead))
  {
    SortedCheapAppend(cfg, today, ahead);
    SortedCheapIs(cfg, today);
    SortedCheapIs(cfg, ahead);
    var a, b := SortedCheap(cfg, today), SortedCheap(cfg, ahead);
    if a != [] {
      assert a[0] in a && a == [a[0]] + a[1..] && (a + b)[1..] == a[1..] + b;
      RunsFromExtend(a[0].start, a[0].end, a[1..], b);
    }
    FirstFewExtend(Runs(a), Runs(a + b));
  }

  lemma FirstFewExtend(some: seq<Window>, more: seq<Window>)
    requires Extends(some, more)
    ensures Extends(FirstFew(some), FirstFew(more))
  {
  }

  lemma SortedCheapAppend(cfg: Config, today: seq<Rate>, ahead: seq<Rate>)
    requires Positive(today)
    requires forall r, x :: r in today && x in ahead ==> r.end <= x.start
    ensures SortedCheap(cfg, today + ahead) == SortedCheap(cfg, today) + SortedCheap(cfg, ahead)
  {
    EligibleAppend(cfg, today, ahead);
    EligibleIs(cfg, today);
    EligibleIs(cfg, ahead);
    forall x, y | x in Eligible(cfg, today) && y in Eligible(cfg, ahead) ensures EarlierRate(x, y) {
      assert x in today && y in ahead;
    }
    SortAppend(Eligible(cfg, today), Eligible(cfg, ahead), EarlierRate);
  }

  // ---------- from the feeds ----------

  ghost predicate GoodFeeds(current: seq<Rate>, next: seq<Rate>, nextAgain: seq<Rate>) {
    && HalfHours(current) && HalfHours(next) && HalfHours(nextAgain)
    && Disjoint(current) && Disjoint(next) && Disjoint(nextAgain)
  }

  lemma FeedsArePlannable(now: int, ratesNow: int, current: seq<Rate>, next: seq<Rate>, nextAgain: seq<Rate>)
    requires GoodFeeds(current, next, nextAgain)
    ensures Plannable(PlanningSlots(now, ratesNow, current, next, nextAgain), now)
    ensures Disjoint(PlanningSlots(now, ratesNow, current, next, nextAgain))
  {
    PlanningSlotsAreSound(now, ratesNow, current, next, nextAgain);
  }

  /** The central promise from the feeds as read, whatever the reads returned: no dearer slot
      of the plan's prices covers the moment at which the inverter's clock makes it run. */
  lemma FeedPriceSafety(cfg: Config, current: seq<Rate>, next: seq<Rate>, nextAgain: seq<Rate>, free: seq<Window>,
                        now: int, ratesNow: int, delta: int, horizon: int, t: int, p: Window)
    requires GoodFeeds(current, next, nextAgain) && VerifyClock(delta).Some?
    requires forall s :: s in free ==> SessionFits(s, now, horizon)
    requires var upcoming, offset := PlanningSlots(now, ratesNow, current, next, nextAgain), VerifyClock(delta).value;
      && AllSplitCleanly(MergedCharge(cfg, upcoming, free), offset)
      && ChargePlan(cfg, upcoming, free, offset).Some?
      && p in ChargePlan(cfg, upcoming, free, offset).value
      && MayFire(WrittenRange(p, offset), t + delta)
    requires now <= t <= now + horizon && horizon <= FUTURE
    ensures var u := t + delta - VerifyClock(delta).value;
      && t - 1500 <= u <= t + 1500
      && (InFreeSession(free, u) || exists r :: (r in current || r in next || r in nextAgain) && IsCheap(cfg, r) && RateAt(r, u))
      && (!InFreeSession(free, u) ==>
            forall r :: r in PlanningSlots(now, ratesNow, current, next, nextAgain) && RateAt(r, u) ==> r.price <= cfg.maxRate)
  {
    var upcoming := PlanningSlots(now, ratesNow, current, next, nextAgain);
    FeedsArePlannable(now, ratesNow, current, next, nextAgain);
    EndToEndPriceSafety(cfg, upcoming, free, now, delta, horizon, t, p);
    PlanningSlotsAreSound(now, ratesNow, current, next, nextAgain);
  }

  /** Reading tomorrow's prices keeps every window that today's prices alone would give, in its
      place, except that the last one may reach further. */
  lemma TomorrowDisplacesNothing(cfg: Config, now: int, ratesNow: int, current: seq<Rate>, next: seq<Rate>, nextAgain: seq<Rate>)
    requires GoodFeeds(current, next, nextAgain)
    ensures Extends(CheapWindows(cfg, PlanningSlots(now, ratesNow, current, next, [])),
                    CheapWindows(cfg, PlanningSlots(now, ratesNow, current, next, nextAgain)))
  {
    var source := GetRates(current, next, ratesNow);
    var today := StillAhead(source, now);
    StillAheadIs(source, now);
    assert today + [] == today;
    if today != [] {
      var ahead := FromHorizon(nextAgain, LastEnd(today), now);
      FromHorizonIs(nextAgain, LastEnd(today), now);
      LastEndIsLast(today);
      TomorrowOnlyExtends(cfg, today, ahead);
    }
  }
}
