/** The electricity briefing's maths (tariffs.py): merging the two rate feeds, exact averages
    over covered windows, and the contiguous chart. All instants are whole UTC seconds. */
module Tariffs {
  import opened Options
  import opened Sorting

  const SLOT := 1800
  const HOUR := 3600
  const CHART_HORIZON := 21600

  /** A published slot; `pence` counts the feed's smallest price unit. */
  datatype Rate = Rate(start: int, end: int, pence: int, capped: bool)

  /** What parse_rate guarantees. */
  ghost predicate Parsed(rates: seq<Rate>) { forall r :: r in rates ==> r.end == r.start + SLOT }

  predicate At(r: Rate, t: int) { r.start <= t < r.end }

  /** The same slot at the same price. */
  predicate Identical(a: Rate, b: Rate) { a.start == b.start && a.end == b.end && a.pence == b.pence }

  predicate Apart(a: Rate, b: Rate) { a.end <= b.start || b.end <= a.start }

  /** Positive slots one after the other. */
  ghost predicate Clean(rates: seq<Rate>) {
    && (forall i :: 0 <= i < |rates| ==> rates[i].start < rates[i].end)
    && (forall i, j :: 0 <= i < j < |rates| ==> rates[i].end <= rates[j].start)
  }

  // ---------- merge_rates ----------

  datatype Merged = Rates(rates: seq<Rate>) | Conflict | Overlap

  /** Ordered by start, end and price. */
  predicate RateOrder(a: Rate, b: Rate) {
    if a.start != b.start then a.start < b.start
    else if a.end != b.end then a.end < b.end
    else a.pence <= b.pence
  }

  function Merging(merged: seq<Rate>, rest: seq<Rate>): Merged
    decreases rest
  {
    if rest == [] then Rates(merged)
    else if merged == [] then Merging([rest[0]], rest[1..])
    else
      var r, previous := rest[0], merged[|merged| - 1];
      if r.start == previous.start && r.end == previous.end then
        if r.pence == previous.pence then Merging(merged, rest[1..]) else Conflict
      else if r.start < previous.end then Overlap
      else Merging(merged + [r], rest[1..])
  }

  function Combined(feeds: seq<seq<Rate>>): seq<Rate> {
    if feeds == [] then [] else Combined(feeds[..|feeds| - 1]) + feeds[|feeds| - 1]
  }

  function Merge(feeds: seq<seq<Rate>>): Merged { Merging([], StableSort(Combined(feeds), RateOrder)) }

  method MergeRates(feeds: seq<seq<Rate>>) returns (m: Merged)
    ensures m == Merge(feeds)
  {
    var all, f := [], 0;
    while f < |feeds|
      invariant 0 <= f <= |feeds| && all == Combined(feeds[..f])
    {
      assert feeds[..f + 1][..f] == feeds[..f];
      all := all + feeds[f];
      f := f + 1;
    }
    assert feeds[..f] == feeds;
    var combined := StableSort(all, RateOrder);
    var merged, i := [], 0;
    while i < |combined|
      invariant 0 <= i <= |combined|
      invariant Merge(feeds) == Merging(merged, combined[i..])
    {
      var r := combined[i];
      if merged == [] {
        merged := [r];
      } else {
        var previous := merged[|merged| - 1];
        if r.start == previous.start && r.end == previous.end {
          if r.pence != previous.pence {
            return Conflict;
          }
        } else {
          if r.start < previous.end {
            return Overlap;
          }
          merged := merged + [r];
        }
      }
      i := i + 1;
    }
    return Rates(merged);
  }

  /** Any two are the same slot at the same price, or share no instant. */
  ghost predicate Compatible(rates: seq<Rate>) {
    forall a, b :: a in rates && b in rates ==> Identical(a, b) || Apart(a, b)
  }

  ghost predicate Stands(kept: seq<Rate>, r: Rate) { exists k :: k in kept && Identical(k, r) }

  lemma CleanSnoc(rates: seq<Rate>, r: Rate)
    requires Clean(rates) && r.start < r.end && (rates != [] ==> rates[|rates| - 1].end <= r.start)
    ensures Clean(rates + [r])
  {
    forall i | 0 <= i < |rates| ensures rates[i].end <= r.start {
      if i < |rates| - 1 {
        assert rates[i].end <= rates[|rates| - 1].start;
      }
    }
  }

  /** What is kept stands for what has been gone through. */
  ghost predicate StandsForAll(merged: seq<Rate>, done: seq<Rate>) {
    (forall k :: k in merged ==> k in done) && (forall r :: r in done ==> Stands(merged, r))
  }

  /** What is kept lies before what has not been gone through. */
  ghost predicate Ahead(merged: seq<Rate>, rest: seq<Rate>) {
    && Sorted(rest, RateOrder) && (forall r :: r in rest ==> r.start < r.end)
    && (merged != [] ==> forall r :: r in rest ==> RateOrder(merged[|merged| - 1], r))
  }

  ghost predicate Progress(merged: seq<Rate>, done: seq<Rate>, rest: seq<Rate>) {
    Clean(merged) && StandsForAll(merged, done) && Ahead(merged, rest)
  }

  lemma StandsStill(kept: seq<Rate>, r: Rate, x: Rate)
    ensures Stands(kept, x) || x == r ==> Stands(kept + [r], x)
  {
    if k :| k in kept && Identical(k, x) {
      assert k in kept + [r];
    }
    assert r in kept + [r] && Identical(r, r);
  }

  lemma StandsForOneMore(merged: seq<Rate>, done: seq<Rate>, r: Rate)
    requires StandsForAll(merged, done)
    ensures StandsForAll(merged + [r], done + [r])
  {
    forall x | x in done + [r] ensures Stands(merged + [r], x) {
      StandsStill(merged, r, x);
    }
  }

  lemma StillAhead(merged: seq<Rate>, rest: seq<Rate>)
    requires Ahead(merged, rest) && rest != []
    ensures Ahead(merged, rest[1..]) && Ahead(merged + [rest[0]], rest[1..])
  {
    assert forall x :: x in rest[1..] ==> x in rest && RateOrder(rest[0], x);
  }

  lemma ProgressKept(merged: seq<Rate>, done: seq<Rate>, rest: seq<Rate>)
    requires Progress(merged, done, rest) && rest != [] && (merged == [] || merged[|merged| - 1].end <= rest[0].start)
    ensures Progress(merged + [rest[0]], done + [rest[0]], rest[1..])
  {
    CleanSnoc(merged, rest[0]);
    StandsForOneMore(merged, done, rest[0]);
    StillAhead(merged, rest);
  }

  lemma ProgressSkipped(merged: seq<Rate>, done: seq<Rate>, rest: seq<Rate>)
    requires Progress(merged, done, rest) && rest != [] && merged != [] && Identical(merged[|merged| - 1], rest[0])
    ensures Progress(merged, done + [rest[0]], rest[1..])
  {
    StillAhead(merged, rest);
    assert merged[|merged| - 1] in merged;
    assert Stands(merged, rest[0]);
  }

  lemma {:induction false} MergingIs(merged: seq<Rate>, done: seq<Rate>, rest: seq<Rate>, all: seq<Rate>)
    requires Progress(merged, done, rest) && all == done + rest
    ensures var m := Merging(merged, rest); (m.Rates? <==> Compatible(all)) && (m.Rates? ==> Progress(m.rates, all, []))
    ensures var m := Merging(merged, rest); (m.Conflict? ==> PricedTwice(all)) && (m.Overlap? ==> Crossing(all))
    decreases rest
  {
    if rest == [] {
      assert all == done;
      StandingIsCompatible(merged, done);
    } else {
      var r, tail := rest[0], rest[1..];
      assert all == (done + [r]) + tail;
      if merged == [] {
        ProgressKept(merged, done, rest);
        assert merged + [r] == [r];
        MergingIs([r], done + [r], tail, all);
      } else {
        var previous := merged[|merged| - 1];
        assert previous in merged && previous in all && r in all;
        if Identical(previous, r) {
          ProgressSkipped(merged, done, rest);
          MergingIs(merged, done + [r], tail, all);
        } else if r.start >= previous.end {
          ProgressKept(merged, done, rest);
          MergingIs(merged + [r], done + [r], tail, all);
        } else {
          Clash(previous, r, all);
          assert RateOrder(previous, r);
        }
      }
    }
  }

  /** Two prices for one slot. */
  ghost predicate PricedTwice(rates: seq<Rate>) {
    exists a, b :: a in rates && b in rates && a.start == b.start && a.end == b.end && a.pence != b.pence
  }

  /** Two different slots that share an instant. */
  ghost predicate Crossing(rates: seq<Rate>) {
    exists a, b :: a in rates && b in rates && (a.start, a.end) != (b.start, b.end) && a.start < b.end && b.start < a.end
  }

  lemma Clash(a: Rate, b: Rate, rates: seq<Rate>)
    requires a in rates && b in rates && !Identical(a, b) && !Apart(a, b)
    ensures !Compatible(rates)
  {
  }

  lemma StandingIsCompatible(merged: seq<Rate>, done: seq<Rate>)
    requires Clean(merged) && forall r :: r in done ==> Stands(merged, r)
    ensures Compatible(done)
  {
    forall a, b | a in done && b in done ensures Identical(a, b) || Apart(a, b) {
      var k :| k in merged && Identical(k, a);
      var l :| l in merged && Identical(l, b);
      var i :| 0 <= i < |merged| && merged[i] == k;
      var j :| 0 <= j < |merged| && merged[j] == l;
    }
  }

  /** merge_rates fails exactly when two slots of the feeds conflict or overlap. Otherwise it
      returns slots of the feeds one after the other, one for every slot that was fed in. */
  lemma MergeIsSound(feeds: seq<seq<Rate>>)
    requires Parsed(Combined(feeds))
    ensures Merge(feeds).Rates? <==> Compatible(Combined(feeds))
    ensures Merge(feeds).Rates? ==>
      var rates := Merge(feeds).rates;
      Clean(rates) && Parsed(rates)
      && (forall r :: r in rates ==> r in Combined(feeds)) && (forall r :: r in Combined(feeds) ==> Stands(rates, r))
  {
    var all := Combined(feeds);
    var sorted := StableSort(all, RateOrder);
    StableSortSorts(all, RateOrder);
    SortedMerge(all, sorted);
    SameCompatible(all, sorted);
  }

  /** Of the two errors, a conflict means two prices for one slot, and an overlap two different
      slots that share an instant. */
  lemma MergeErrorsAreRight(feeds: seq<seq<Rate>>)
    requires Parsed(Combined(feeds))
    ensures (Merge(feeds).Conflict? ==> PricedTwice(Combined(feeds))) && (Merge(feeds).Overlap? ==> Crossing(Combined(feeds)))
  {
    var all := Combined(feeds);
    var sorted := StableSort(all, RateOrder);
    StableSortSorts(all, RateOrder);
    SortedMerge(all, sorted);
    SameClashes(all, sorted);
  }

  lemma SortedMerge(all: seq<Rate>, sorted: seq<Rate>)
    requires Parsed(all) && Sorted(sorted, RateOrder) && forall r :: r in sorted <==> r in all
    ensures var m := Merging([], sorted);
      && (m.Rates? <==> Compatible(sorted)) && (m.Rates? ==> Progress(m.rates, sorted, []))
      && (m.Conflict? ==> PricedTwice(sorted)) && (m.Overlap? ==> Crossing(sorted))
  {
    NothingYet(all, sorted);
    MergingIs([], [], sorted, sorted);
  }

  lemma NothingYet(all: seq<Rate>, sorted: seq<Rate>)
    requires Parsed(all) && Sorted(sorted, RateOrder) && forall r :: r in sorted <==> r in all
    ensures Progress([], [], sorted) && sorted == [] + sorted
  {
  }

  lemma SameCompatible(a: seq<Rate>, b: seq<Rate>)
    requires forall r :: r in a <==> r in b
    ensures Compatible(a) <==> Compatible(b)
  {
  }

  lemma SameClashes(a: seq<Rate>, b: seq<Rate>)
    requires forall r :: r in a <==> r in b
    ensures (PricedTwice(a) <==> PricedTwice(b)) && (Crossing(a) <==> Crossing(b))
  {
  }

  // ---------- window_average ----------

  function Max(a: int, b: int): int { if a >= b then a else b }

  function Min(a: int, b: int): int { if a <= b then a else b }

  /** Seconds that the slot spends in [start, end). */
  function Inside(r: Rate, start: int, end: int): nat {
    Max(0, Min(r.end, end) - Max(r.start, start))
  }

  function Seconds(rates: seq<Rate>, start: int, end: int): nat {
    if rates == [] then 0 else Seconds(rates[..|rates| - 1], start, end) + Inside(rates[|rates| - 1], start, end)
  }

  function Weighted(rates: seq<Rate>, start: int, end: int): int {
    if rates == [] then 0
    else
      var r := rates[|rates| - 1];
      Weighted(rates[..|rates| - 1], start, end) + r.pence * Inside(r, start, end)
  }

  function Average(rates: seq<Rate>, start: int, end: int): Option<real>
    requires start < end
  {
    if Seconds(rates, start, end) != end - start then None
    else Some(Quotient(Weighted(rates, start, end), end - start))
  }

  function Quotient(n: int, d: int): real
    requires d > 0
  {
    n as real / d as real
  }

  /** window_average; not `ok` stands for its ValueError on an empty window. */
  method WindowAverage(rates: seq<Rate>, start: int, end: int) returns (ok: bool, average: Option<real>)
    ensures ok <==> start < end
    ensures ok ==> average == Average(rates, start, end)
  {
    if end <= start {
      return false, None;
    }
    var covered, weighted, i := 0, 0, 0;
    while i < |rates|
      invariant 0 <= i <= |rates|
      invariant covered == Seconds(rates[..i], start, end) && weighted == Weighted(rates[..i], start, end)
    {
      assert rates[..i + 1][..i] == rates[..i];
      var low, high := Max(rates[i].start, start), Min(rates[i].end, end);
      if high > low {
        var seconds := high - low;
        covered := covered + seconds;
        weighted := weighted + rates[i].pence * seconds;
      }
      i := i + 1;
    }
    assert rates[..i] == rates;
    if covered != end - start {
      return true, None;
    }
    return true, Some(Quotient(weighted, end - start));
  }

  /** How many slots cover an instant, and at what price in all. */
  function Hits(rates: seq<Rate>, t: int): nat {
    if rates == [] then 0 else Hits(rates[..|rates| - 1], t) + if At(rates[|rates| - 1], t) then 1 else 0
  }

  function Price(rates: seq<Rate>, t: int): int {
    if rates == [] then 0
    else Price(rates[..|rates| - 1], t) + if At(rates[|rates| - 1], t) then rates[|rates| - 1].pence else 0
  }

  /** Second by second. */
  function HitSum(rates: seq<Rate>, start: int, end: int): nat
    decreases end - start
  {
    if start >= end then 0 else HitSum(rates, start, end - 1) + Hits(rates, end - 1)
  }

  /** The time integral of the price, second by second. */
  function Integral(rates: seq<Rate>, start: int, end: int): int
    decreases end - start
  {
    if start >= end then 0 else Integral(rates, start, end - 1) + Price(rates, end - 1)
  }

  lemma {:induction false} OneMoreSlot(rates: seq<Rate>, start: int, end: int)
    requires rates != []
    ensures var init, r := rates[..|rates| - 1], rates[|rates| - 1];
      && HitSum(rates, start, end) == HitSum(init, start, end) + Inside(r, start, end)
      && Integral(rates, start, end) == Integral(init, start, end) + r.pence * Inside(r, start, end)
    decreases end - start
  {
    if start >= end {
    } else {
      OneMoreSlot(rates, start, end - 1);
      var r := rates[|rates| - 1];
      assert Inside(r, start, end) == Inside(r, start, end - 1) + if At(r, end - 1) then 1 else 0;
      Distributes(r.pence, Inside(r, start, end - 1));
    }
  }

  lemma Distributes(p: int, n: nat)
    ensures p * (n + 1) == p * n + p
  {
  }

  /** The slot-by-slot sums of the loop are the second-by-second ones. */
  lemma {:induction false} SlotsOrSeconds(rates: seq<Rate>, start: int, end: int)
    requires start <= end
    ensures Seconds(rates, start, end) == HitSum(rates, start, end)
    ensures Weighted(rates, start, end) == Integral(rates, start, end)
  {
    if rates == [] {
      EmptySums(start, end);
    } else {
      SlotsOrSeconds(rates[..|rates| - 1], start, end);
      OneMoreSlot(rates, start, end);
    }
  }

  lemma {:induction false} EmptySums(start: int, end: int)
    ensures HitSum([], start, end) == 0 && Integral([], start, end) == 0
    decreases end - start
  {
    if start >= end {
    } else {
      EmptySums(start, end - 1);
    }
  }

  ghost predicate Covered(rates: seq<Rate>, t: int) { exists r :: r in rates && At(r, t) }

  lemma CleanPrefix(rates: seq<Rate>)
    requires Clean(rates) && rates != []
    ensures Clean(rates[..|rates| - 1])
    ensures forall r :: r in rates[..|rates| - 1] ==> r.end <= rates[|rates| - 1].start
  {
  }

  lemma CoveredSnoc(rates: seq<Rate>, t: int)
    requires Clean(rates) && rates != []
    ensures var init, last := rates[..|rates| - 1], rates[|rates| - 1];
      && Clean(init) && (Covered(rates, t) <==> Covered(init, t) || At(last, t)) && !(Covered(init, t) && At(last, t))
  {
    CleanPrefix(rates);
    assert rates == rates[..|rates| - 1] + [rates[|rates| - 1]];
  }

  /** Slots one after the other cover an instant at most once. */
  lemma {:induction false} HitsAre(rates: seq<Rate>, t: int)
    requires Clean(rates)
    ensures Hits(rates, t) == if Covered(rates, t) then 1 else 0
    ensures !Covered(rates, t) ==> Price(rates, t) == 0
  {
    if rates == [] {
    } else {
      CoveredSnoc(rates, t);
      HitsAre(rates[..|rates| - 1], t);
    }
  }

  lemma {:induction false} PriceIs(rates: seq<Rate>, t: int, r: Rate)
    requires Clean(rates) && r in rates && At(r, t)
    ensures Price(rates, t) == r.pence
  {
    var init, last := rates[..|rates| - 1], rates[|rates| - 1];
    assert rates == init + [last];
    CoveredSnoc(rates, t);
    if r in init {
      PriceIs(init, t, r);
    } else {
      HitsAre(init, t);
    }
  }

  lemma {:induction false} FullIff(rates: seq<Rate>, start: int, end: int)
    requires Clean(rates) && start <= end
    ensures HitSum(rates, start, end) <= end - start
    ensures HitSum(rates, start, end) == end - start <==> forall t :: start <= t < end ==> Covered(rates, t)
    decreases end - start
  {
    if start >= end {
    } else {
      FullIff(rates, start, end - 1);
      HitsAre(rates, end - 1);
    }
  }

  /** The prices of the slots that overlap the window lie in this range. */
  ghost predicate PricedWithin(rates: seq<Rate>, start: int, end: int, low: int, high: int) {
    forall r :: r in rates && r.start < end && r.end > start ==> low <= r.pence <= high
  }

  lemma OneMoreSecond(sum: int, pence: int, n: nat, low: int, high: int)
    requires low * n <= sum <= high * n && low <= pence <= high
    ensures low * (n + 1) <= sum + pence <= high * (n + 1)
  {
    Distributes(low, n);
    Distributes(high, n);
  }

  lemma {:induction false} IntegralBounds(rates: seq<Rate>, start: int, end: int, low: int, high: int)
    requires Clean(rates) && start <= end && PricedWithin(rates, start, end, low, high)
    requires forall t :: start <= t < end ==> Covered(rates, t)
    ensures low * (end - start) <= Integral(rates, start, end) <= high * (end - start)
    decreases end - start
  {
    if start >= end {
    } else {
      IntegralBounds(rates, start, end - 1, low, high);
      assert Covered(rates, end - 1);
      var r :| r in rates && At(r, end - 1);
      PriceIs(rates, end - 1, r);
      OneMoreSecond(Integral(rates, start, end - 1), r.pence, end - 1 - start, low, high);
      assert end - 1 - start + 1 == end - start;
    }
  }

  /** `mean` is `n` divided by `d`. */
  ghost predicate IsQuotient(mean: real, n: int, d: int) { mean * d as real == n as real }

  lemma QuotientIs(n: int, d: int)
    requires d > 0
    ensures IsQuotient(Quotient(n, d), n, d)
  {
  }

  lemma QuotientBounds(mean: real, n: int, d: int, low: int, high: int)
    requires d > 0 && low * d <= n <= high * d && IsQuotient(mean, n, d)
    ensures low as real <= mean <= high as real
  {
    Product(low, d);
    Product(high, d);
    NoSmaller(low as real, mean, d as real);
    NoSmaller(mean, high as real, d as real);
  }

  lemma Product(a: int, b: int)
    ensures (a * b) as real == a as real * b as real
  {
  }

  lemma NoSmaller(a: real, b: real, d: real)
    requires d > 0.0 && a * d <= b * d
    ensures a <= b
  {
    if a > b {
      Scaled(a, b, d);
    }
  }

  lemma Scaled(a: real, b: real, d: real)
    requires d > 0.0 && a > b
    ensures a * d > b * d
  {
    assert (a - b) * d > 0.0;
  }

  /** An average exists exactly when every instant of the window is covered. */
  lemma AverageIff(rates: seq<Rate>, start: int, end: int)
    requires Clean(rates) && start < end
    ensures Average(rates, start, end).Some? <==> forall t :: start <= t < end ==> Covered(rates, t)
  {
    SlotsOrSeconds(rates, start, end);
    FullIff(rates, start, end);
  }

  /** It is then the time integral of the price over the window, divided by its length, and
      lies between any bounds on the prices of the slots that overlap the window. */
  lemma AverageIsExact(rates: seq<Rate>, start: int, end: int, low: int, high: int)
    requires Clean(rates) && start < end && PricedWithin(rates, start, end, low, high)
    requires Average(rates, start, end).Some?
    ensures var average := Average(rates, start, end).value;
      IsQuotient(average, Integral(rates, start, end), end - start) && low as real <= average <= high as real
  {
    AverageIff(rates, start, end);
    IntegralBounds(rates, start, end, low, high);
    SlotsOrSeconds(rates, start, end);
    MeanBounds(Average(rates, start, end).value, Integral(rates, start, end), end - start, low, high);
  }

  lemma MeanBounds(mean: real, n: int, d: int, low: int, high: int)
    requires d > 0 && low * d <= n <= high * d && mean == Quotient(n, d)
    ensures IsQuotient(mean, n, d) && low as real <= mean <= high as real
  {
    QuotientIs(n, d);
    QuotientBounds(mean, n, d, low, high);
  }

  // ---------- chart_slots ----------

  predicate Earlier(a: Rate, b: Rate) { a.start <= b.start }

  function Charting(chosen: seq<Rate>, rest: seq<Rate>, now: int, limit: int): seq<Rate>
    decreases rest
  {
    if rest == [] then chosen
    else if rest[0].end <= now || rest[0].start >= limit then Charting(chosen, rest[1..], now, limit)
    else if chosen != [] && rest[0].start != chosen[|chosen| - 1].end then chosen
    else Charting(chosen + [rest[0]], rest[1..], now, limit)
  }

  function Chart(rates: seq<Rate>, now: int): seq<Rate> {
    Charting([], StableSort(rates, Earlier), now, now + CHART_HORIZON)
  }

  predicate Truncated(chart: seq<Rate>, now: int) {
    chart == [] || chart[|chart| - 1].end < now + CHART_HORIZON
  }

  method ChartSlots(rates: seq<Rate>, now: int) returns (chart: seq<Rate>, truncated: bool)
    ensures chart == Chart(rates, now) && truncated == Truncated(chart, now)
  {
    var limit := now + CHART_HORIZON;
    var ordered := StableSort(rates, Earlier);
    var i := 0;
    chart := [];
    while i < |ordered|
      invariant 0 <= i <= |ordered|
      invariant Chart(rates, now) == Charting(chart, ordered[i..], now, limit)
    {
      var r := ordered[i];
      if !(r.end <= now || r.start >= limit) {
        if chart != [] && r.start != chart[|chart| - 1].end {
          break;
        }
        chart := chart + [r];
      }
      i := i + 1;
    }
    truncated := chart == [] || chart[|chart| - 1].end < limit;
  }

  ghost predicate Contiguous(chart: seq<Rate>) {
    forall i :: 0 <= i < |chart| - 1 ==> chart[i].end == chart[i + 1].start
  }

  lemma CleanTail(rates: seq<Rate>)
    requires Clean(rates) && rates != []
    ensures Clean(rates[1..]) && forall r :: r in rates[1..] ==> rates[0].end <= r.start
  {
  }

  /** Once begun, the chart grows slot by slot without a gap. */
  lemma {:induction false} ChartingGrows(chosen: seq<Rate>, rest: seq<Rate>, now: int, limit: int)
    requires chosen != [] && Contiguous(chosen)
    ensures chosen <= Charting(chosen, rest, now, limit) && Contiguous(Charting(chosen, rest, now, limit))
    decreases rest
  {
    if rest == [] {
    } else {
      var r := rest[0];
      if r.end <= now || r.start >= limit {
        ChartingGrows(chosen, rest[1..], now, limit);
      } else if r.start == chosen[|chosen| - 1].end {
        ChartingGrows(chosen + [r], rest[1..], now, limit);
      }
    }
  }

  lemma {:induction false} ChartingChooses(chosen: seq<Rate>, rest: seq<Rate>, now: int, limit: int, r: Rate)
    requires r in Charting(chosen, rest, now, limit)
    ensures r in chosen || (r in rest && r.end > now && r.start < limit)
    decreases rest
  {
    if rest == [] {
    } else {
      assert rest == [rest[0]] + rest[1..];
      if rest[0].end <= now || rest[0].start >= limit {
        ChartingChooses(chosen, rest[1..], now, limit, r);
      } else if r !in chosen && r in Charting(chosen + [rest[0]], rest[1..], now, limit) {
        ChartingChooses(chosen + [rest[0]], rest[1..], now, limit, r);
      }
    }
  }

  function EndOf(chart: seq<Rate>): int
    requires chart != []
  {
    chart[|chart| - 1].end
  }

  ghost predicate AllFrom(rates: seq<Rate>, t: int) { forall r :: r in rates ==> t <= r.start }

  /** What a chart that has begun makes of the next slot. */
  lemma ChartingStep(chosen: seq<Rate>, rest: seq<Rate>, now: int, limit: int)
    requires chosen != [] && EndOf(chosen) > now && Clean(rest) && rest != [] && AllFrom(rest, EndOf(chosen))
    ensures Charting(chosen, rest, now, limit) ==
      if rest[0].start >= limit then Charting(chosen, rest[1..], now, limit)
      else if rest[0].start == EndOf(chosen) then Charting(chosen + [rest[0]], rest[1..], now, limit)
      else chosen
    ensures EndOf(chosen) <= rest[0].start < rest[0].end && EndOf(chosen + [rest[0]]) == rest[0].end
    ensures Clean(rest[1..]) && AllFrom(rest[1..], rest[0].end) && AllFrom(rest[1..], EndOf(chosen))
  {
    CleanTail(rest);
    assert rest[0] in rest;
  }

  /** A chart never ends before what it began with. */
  lemma {:induction false} ChartEndsLate(chosen: seq<Rate>, rest: seq<Rate>, now: int, limit: int)
    requires chosen != [] && EndOf(chosen) > now && Clean(rest) && AllFrom(rest, EndOf(chosen))
    ensures var chart := Charting(chosen, rest, now, limit); chart != [] && EndOf(chart) >= EndOf(chosen)
    decreases rest
  {
    if rest == [] {
    } else {
      ChartingStep(chosen, rest, now, limit);
      if rest[0].start >= limit {
        ChartEndsLate(chosen, rest[1..], now, limit);
      } else if rest[0].start == EndOf(chosen) {
        ChartEndsLate(chosen + [rest[0]], rest[1..], now, limit);
      }
    }
  }

  /** Where the chart ends before the limit, no slot goes on. */
  lemma {:induction false} ChartingStops(chosen: seq<Rate>, rest: seq<Rate>, now: int, limit: int, r: Rate)
    requires chosen != [] && EndOf(chosen) > now && Clean(rest) && AllFrom(rest, EndOf(chosen)) && r in rest
    requires Charting(chosen, rest, now, limit) != []
    ensures var end := EndOf(Charting(chosen, rest, now, limit)); end < limit ==> !At(r, end)
    decreases rest
  {
    var first, tail := rest[0], rest[1..];
    ChartingStep(chosen, rest, now, limit);
    assert r == first || r in tail;
    if first.start >= limit {
      if r != first {
        ChartingStops(chosen, tail, now, limit, r);
      }
    } else if first.start == EndOf(chosen) {
      ChartEndsLate(chosen + [first], tail, now, limit);
      if r != first {
        ChartingStops(chosen + [first], tail, now, limit, r);
      }
    }
  }

  /** The slots before the one that covers now are skipped. */
  lemma {:induction false} ChartingBegins(rest: seq<Rate>, now: int, limit: int, k: nat)
    requires Clean(rest) && k < |rest| && At(rest[k], now) && now < limit
    ensures Charting([], rest, now, limit) == Charting([rest[k]], rest[k + 1..], now, limit)
  {
    assert [] + [rest[0]] == [rest[0]];
    if k == 0 {
    } else {
      CleanTail(rest);
      assert rest[k] in rest[1..] && rest[0].end <= now;
      ChartingBegins(rest[1..], now, limit, k - 1);
      assert rest[1..][k..] == rest[k + 1..];
    }
  }

  lemma CleanIsSorted(rates: seq<Rate>)
    requires Clean(rates)
    ensures StableSort(rates, Earlier) == rates
  {
    SortedIsFixed(rates, Earlier);
  }

  lemma SplitAt(rates: seq<Rate>, k: nat)
    requires Clean(rates) && k < |rates|
    ensures Clean(rates[k + 1..]) && forall r :: r in rates[k + 1..] ==> rates[k].end <= r.start
    ensures forall r :: r in rates ==> r in rates[..k] || r == rates[k] || r in rates[k + 1..]
    ensures forall r :: r in rates[..k] ==> r.end <= rates[k].start
  {
    assert rates == rates[..k] + [rates[k]] + rates[k + 1..];
  }

  /** The chart goes on as far as it can: up to the six hours, or to the first instant from now on
      that is not covered. */
  ghost predicate ReachesGap(rates: seq<Rate>, now: int, chart: seq<Rate>)
    requires chart != []
  {
    && (forall t :: now <= t < EndOf(chart) ==> Covered(rates, t))
    && (EndOf(chart) < now + 6 * 3600 ==> !Covered(rates, EndOf(chart)))
  }

  /** With a slot that covers now: the chart begins with it, has no gap, keeps to the six hours,
      goes on as far as it can, and is flagged as truncated exactly when some instant of them is
      not covered. */
  lemma ChartIsRight(rates: seq<Rate>, now: int, k: nat)
    requires Clean(rates) && k < |rates| && At(rates[k], now)
    ensures var chart := Chart(rates, now);
      && chart != [] && chart[0] == rates[k] && Contiguous(chart)
      && (forall r :: r in chart ==> r in rates && r.end > now && r.start < now + CHART_HORIZON)
      && (Truncated(chart, now) <==> exists t :: now <= t < now + 6 * 3600 && !Covered(rates, t))
      && ReachesGap(rates, now, chart)
  {
    var limit, chart := now + CHART_HORIZON, Chart(rates, now);
    CleanIsSorted(rates);
    ChartingBegins(rates, now, limit, k);
    SplitAt(rates, k);
    ChartingGrows([rates[k]], rates[k + 1..], now, limit);
    ChartEndsLate([rates[k]], rates[k + 1..], now, limit);
    forall r | r in chart ensures r in rates && r.end > now && r.start < limit {
      ChartingChooses([rates[k]], rates[k + 1..], now, limit, r);
    }
    if Truncated(chart, now) {
      ChartStopsAtGap(rates, now, k, chart);
    }
    ChartIsCovered(rates, now, chart);
  }

  lemma ChartIsCovered(rates: seq<Rate>, now: int, chart: seq<Rate>)
    requires chart != [] && Contiguous(chart) && chart[0].start <= now && forall r :: r in chart ==> r in rates
    ensures forall t :: now <= t < EndOf(chart) ==> Covered(rates, t)
  {
    forall t | now <= t < EndOf(chart) ensures Covered(rates, t) {
      ContiguousCovers(chart, t);
    }
  }

  lemma ChartStopsAtGap(rates: seq<Rate>, now: int, k: nat, chart: seq<Rate>)
    requires Clean(rates) && k < |rates| && At(rates[k], now)
    requires chart == Charting([rates[k]], rates[k + 1..], now, now + CHART_HORIZON)
    requires chart != [] && rates[k].end <= chart[|chart| - 1].end < now + CHART_HORIZON
    ensures !Covered(rates, chart[|chart| - 1].end)
  {
    SplitAt(rates, k);
    forall r | r in rates ensures !At(r, chart[|chart| - 1].end) {
      if r in rates[k + 1..] {
        ChartingStops([rates[k]], rates[k + 1..], now, now + CHART_HORIZON, r);
      }
    }
  }

  lemma ContiguousTail(chart: seq<Rate>)
    requires |chart| > 1 && Contiguous(chart)
    ensures Contiguous(chart[1..])
  {
    var tail := chart[1..];
    forall i | 0 <= i < |tail| - 1 ensures tail[i].end == tail[i + 1].start {
      assert tail[i] == chart[i + 1];
    }
  }

  lemma {:induction false} ContiguousCovers(chart: seq<Rate>, t: int)
    requires chart != [] && Contiguous(chart) && chart[0].start <= t < chart[|chart| - 1].end
    ensures exists r :: r in chart && At(r, t)
  {
    if t < chart[0].end {
      assert chart[0] in chart;
    } else {
      ContiguousTail(chart);
      ContiguousCovers(chart[1..], t);
    }
  }

  /** Half-hours without a gap. */
  lemma {:induction false} HalfHourSpan(chart: seq<Rate>)
    requires chart != [] && Contiguous(chart) && Parsed(chart)
    ensures chart[|chart| - 1].start == chart[0].start + SLOT * (|chart| - 1)
  {
    assert chart[0] in chart;
    if |chart| == 1 {
    } else {
      var tail := chart[1..];
      ContiguousTail(chart);
      assert forall r :: r in tail ==> r in chart;
      assert chart[0].end == tail[0].start;
      HalfHourSpan(tail);
    }
  }

  // ---------- build_briefing ----------

  function Cheapest(chart: seq<Rate>): Rate
    requires chart != []
  {
    if |chart| == 1 then chart[0]
    else
      var best, r := Cheapest(chart[..|chart| - 1]), chart[|chart| - 1];
      if r.pence < best.pence || (r.pence == best.pence && r.start < best.start) then r else best
  }

  function Peak(chart: seq<Rate>): Rate
    requires chart != []
  {
    if |chart| == 1 then chart[0]
    else
      var best, r := Peak(chart[..|chart| - 1]), chart[|chart| - 1];
      if r.pence > best.pence || (r.pence == best.pence && r.start < best.start) then r else best
  }

  /** No slot of the chart beats it, and none that equals it is earlier. */
  ghost predicate EarliestBest(chart: seq<Rate>, best: Rate, cheap: bool) {
    best in chart && forall r :: r in chart ==>
      (if cheap then best.pence <= r.pence else best.pence >= r.pence) && (r.pence == best.pence ==> best.start <= r.start)
  }

  /** Whether a slot takes the place of the best one so far. */
  predicate Beats(r: Rate, best: Rate, cheap: bool) {
    (if cheap then r.pence < best.pence else r.pence > best.pence) || (r.pence == best.pence && r.start < best.start)
  }

  lemma BestSnoc(chart: seq<Rate>, r: Rate, best: Rate, cheap: bool)
    requires EarliestBest(chart, best, cheap)
    ensures EarliestBest(chart + [r], if Beats(r, best, cheap) then r else best, cheap)
  {
  }

  lemma {:induction false} ExtremesAreEarliest(chart: seq<Rate>)
    requires chart != []
    ensures EarliestBest(chart, Cheapest(chart), true) && EarliestBest(chart, Peak(chart), false)
  {
    if |chart| == 1 {
    } else {
      var init, r := chart[..|chart| - 1], chart[|chart| - 1];
      ExtremesAreEarliest(init);
      BestSnoc(init, r, Cheapest(init), true);
      BestSnoc(init, r, Peak(init), false);
      assert chart == init + [r];
    }
  }

  datatype Briefing = Briefing(current: Rate, hour: int, thisHour: Option<real>, nextHour: Option<real>,
                               chart: seq<Rate>, cheapest: Rate, peak: Rate, truncated: bool)

  function FloorHour(now: int): int { now - now % HOUR }

  /** slot_covering, as an index. */
  method SlotCovering(rates: seq<Rate>, now: int) returns (k: Option<nat>)
    ensures k.Some? ==> k.value < |rates| && At(rates[k.value], now)
    ensures k.None? <==> !Covered(rates, now)
  {
    var i := 0;
    while i < |rates|
      invariant 0 <= i <= |rates| && forall j :: 0 <= j < i ==> !At(rates[j], now)
    {
      if At(rates[i], now) {
        return Some(i);
      }
      i := i + 1;
    }
    return None;
  }

  predicate OnTheHour(t: int) { t % 3600 == 0 }

  ghost predicate RightChart(rates: seq<Rate>, now: int, current: Rate, chart: seq<Rate>, truncated: bool) {
    && chart != [] && chart[0] == current && Contiguous(chart) && |chart| <= 13
    && (forall r :: r in chart ==> r in rates && r.end > now && r.start < now + 6 * 3600)
    && (truncated <==> exists t :: now <= t < now + 6 * 3600 && !Covered(rates, t))
    && ReachesGap(rates, now, chart)
  }

  /** The current slot covers now and leads a contiguous chart of at most thirteen half-hours,
      flagged exactly when the next six hours are not all covered; cheapest and peak are the
      earliest extremes; and the averages are those of the full hours that now begins in. */
  ghost predicate RightBriefing(rates: seq<Rate>, now: int, b: Briefing) {
    match b case Briefing(current, hour, thisHour, nextHour, chart, cheapest, peak, truncated) =>
      && current in rates && At(current, now)
      && RightChart(rates, now, current, chart, truncated)
      && EarliestBest(chart, cheapest, true) && EarliestBest(chart, peak, false)
      && OnTheHour(hour) && hour <= now < hour + 3600
      && thisHour == Average(rates, hour, hour + 3600) && nextHour == Average(rates, hour + 3600, hour + 7200)
  }

  lemma FloorHourIs(now: int, hour: int)
    requires hour == FloorHour(now)
    ensures OnTheHour(hour) && hour <= now < hour + HOUR
  {
    assert hour == HOUR * (now / HOUR);
  }

  lemma BriefingIs(rates: seq<Rate>, now: int, b: Briefing)
    requires b.current in rates && At(b.current, now) && RightChart(rates, now, b.current, b.chart, b.truncated)
    requires EarliestBest(b.chart, b.cheapest, true) && EarliestBest(b.chart, b.peak, false)
    requires OnTheHour(b.hour) && b.hour <= now < b.hour + HOUR
    requires b.thisHour == Average(rates, b.hour, b.hour + HOUR)
    requires b.nextHour == Average(rates, b.hour + HOUR, b.hour + 2 * HOUR)
    ensures RightBriefing(rates, now, b)
  {
  }

  lemma ChartIsShort(rates: seq<Rate>, chart: seq<Rate>, now: int)
    requires Parsed(rates) && chart != [] && Contiguous(chart)
    requires forall r :: r in chart ==> r in rates && r.end > now && r.start < now + CHART_HORIZON
    ensures |chart| <= 13
  {
    assert chart[0] in chart && chart[|chart| - 1] in chart;
    HalfHourSpan(chart);
  }

  lemma BriefingChart(rates: seq<Rate>, now: int, k: nat)
    requires Clean(rates) && Parsed(rates) && k < |rates| && At(rates[k], now)
    ensures RightChart(rates, now, rates[k], Chart(rates, now), Truncated(Chart(rates, now), now))
  {
    ChartIsRight(rates, now, k);
    ChartIsShort(rates, Chart(rates, now), now);
  }

  method Brief(rates: seq<Rate>, now: int, k: nat, hour: int) returns (b: Briefing)
    requires Clean(rates) && Parsed(rates) && k < |rates| && At(rates[k], now)
    requires OnTheHour(hour) && hour <= now < hour + HOUR
    ensures RightBriefing(rates, now, b)
  {
    var _, thisHour := WindowAverage(rates, hour, hour + HOUR);
    var _, nextHour := WindowAverage(rates, hour + HOUR, hour + 2 * HOUR);
    var chart, truncated := ChartSlots(rates, now);
    BriefingChart(rates, now, k);
    ExtremesAreEarliest(chart);
    b := Briefing(rates[k], hour, thisHour, nextHour, chart, Cheapest(chart), Peak(chart), truncated);
    BriefingIs(rates, now, b);
  }

  // ---------- the order of the rates does not matter ----------

  ghost predicate AllApart(rates: seq<Rate>) {
    forall i, j :: 0 <= i < j < |rates| ==> Apart(rates[i], rates[j])
  }

  lemma CleanCons(x: Rate, rates: seq<Rate>)
    requires Clean(rates) && x.start < x.end && forall r :: r in rates ==> x.end <= r.start
    ensures Clean([x] + rates)
  {
  }

  lemma {:induction false} InsertKeepsClean(x: Rate, rates: seq<Rate>)
    requires Clean(rates) && x.start < x.end && forall r :: r in rates ==> Apart(x, r)
    ensures Clean(Insert(x, rates, Earlier))
    ensures forall r :: r in Insert(x, rates, Earlier) <==> r == x || r in rates
  {
    if rates == [] {
    } else if Earlier(x, rates[0]) {
      forall r | r in rates ensures x.end <= r.start {
        assert rates[0] in rates && rates[0].start <= r.start;
      }
      CleanCons(x, rates);
    } else {
      CleanTail(rates);
      InsertKeepsClean(x, rates[1..]);
      assert Apart(x, rates[0]);
      CleanCons(rates[0], Insert(x, rates[1..], Earlier));
    }
  }

  /** Slots that share no instant, in any order, sort into slots one after the other. */
  lemma {:induction false} SortingCleans(rates: seq<Rate>)
    requires Parsed(rates) && AllApart(rates)
    ensures Clean(StableSort(rates, Earlier))
    ensures forall r :: r in StableSort(rates, Earlier) <==> r in rates
  {
    if rates == [] {
    } else {
      var x, rest := rates[0], rates[1..];
      assert x in rates && rates == [x] + rest;
      forall i, j | 0 <= i < j < |rest| ensures Apart(rest[i], rest[j]) {
        assert Apart(rates[i + 1], rates[j + 1]);
      }
      forall r | r in rest ensures Apart(x, r) {
        var j :| 0 <= j < |rest| && rest[j] == r;
        assert Apart(rates[0], rates[j + 1]);
      }
      SortingCleans(rest);
      InsertKeepsClean(x, StableSort(rest, Earlier));
    }
  }

  lemma {:induction false} SumsCons(x: Rate, rates: seq<Rate>, start: int, end: int)
    ensures Seconds([x] + rates, start, end) == Inside(x, start, end) + Seconds(rates, start, end)
    ensures Weighted([x] + rates, start, end) == x.pence * Inside(x, start, end) + Weighted(rates, start, end)
  {
    if rates == [] {
      assert [x] + rates == [x];
    } else {
      var n := |rates| - 1;
      assert ([x] + rates)[..n + 1] == [x] + rates[..n];
      SumsCons(x, rates[..n], start, end);
    }
  }

  lemma {:induction false} SumsOfInsert(x: Rate, rates: seq<Rate>, start: int, end: int)
    ensures Seconds(Insert(x, rates, Earlier), start, end) == Inside(x, start, end) + Seconds(rates, start, end)
    ensures Weighted(Insert(x, rates, Earlier), start, end) == x.pence * Inside(x, start, end) + Weighted(rates, start, end)
  {
    SumsCons(x, rates, start, end);
    if rates == [] || Earlier(x, rates[0]) {
    } else {
      SumsOfInsert(x, rates[1..], start, end);
      SumsCons(rates[0], Insert(x, rates[1..], Earlier), start, end);
      SumsCons(rates[0], rates[1..], start, end);
      assert rates == [rates[0]] + rates[1..];
    }
  }

  lemma {:induction false} SumsOfSort(rates: seq<Rate>, start: int, end: int)
    ensures Seconds(StableSort(rates, Earlier), start, end) == Seconds(rates, start, end)
    ensures Weighted(StableSort(rates, Earlier), start, end) == Weighted(rates, start, end)
  {
    if rates == [] {
    } else {
      SumsOfSort(rates[1..], start, end);
      SumsOfInsert(rates[0], StableSort(rates[1..], Earlier), start, end);
      SumsCons(rates[0], rates[1..], start, end);
      assert rates == [rates[0]] + rates[1..];
    }
  }

  lemma ChartInAnyOrder(rates: seq<Rate>, other: seq<Rate>, now: int, current: Rate, chart: seq<Rate>, truncated: bool)
    requires RightChart(rates, now, current, chart, truncated) && forall r :: r in rates <==> r in other
    ensures RightChart(other, now, current, chart, truncated)
  {
    assert forall t :: Covered(rates, t) <==> Covered(other, t);
  }

  /** A briefing that is right for the sorted rates is right for the rates. */
  lemma RightInAnyOrder(rates: seq<Rate>, now: int, b: Briefing)
    requires RightBriefing(StableSort(rates, Earlier), now, b)
    requires forall r :: r in StableSort(rates, Earlier) <==> r in rates
    ensures RightBriefing(rates, now, b)
  {
    SumsOfSort(rates, b.hour, b.hour + HOUR);
    SumsOfSort(rates, b.hour + HOUR, b.hour + 2 * HOUR);
    ChartInAnyOrder(StableSort(rates, Earlier), rates, now, b.current, b.chart, b.truncated);
    BriefingIs(rates, now, b);
  }

  /** build_briefing; None stands for NoCurrentCoverage. */
  method BuildBriefing(rates: seq<Rate>, now: int) returns (b: Option<Briefing>)
    requires Parsed(rates) && AllApart(rates)
    ensures b.None? <==> !Covered(rates, now)
    ensures b.Some? ==> RightBriefing(rates, now, b.value)
  {
    var ordered := StableSort(rates, Earlier);
    SortingCleans(rates);
    var k := SlotCovering(ordered, now);
    assert Covered(ordered, now) <==> Covered(rates, now);
    if k.None? {
      return None;
    }
    var hour := FloorHour(now);
    FloorHourIs(now, hour);
    var briefing := Brief(ordered, now, k.value, hour);
    RightInAnyOrder(rates, now, briefing);
    return Some(briefing);
  }
}
