/** Half-open windows of instants: merging them, and cutting them at the midnights of the
    inverter's clock (solis_agile_charge.py, merge_windows and split_at_inverter_midnight). */
module Windows {
  import opened Sorting

  const DAY := 86400

  /** A window of UTC seconds; `free` says whether its tag mentions a free session. */
  datatype Window = Window(start: int, end: int, free: bool)

  predicate Holds(w: Window, t: int) { w.start <= t < w.end }

  ghost predicate Covers(ws: seq<Window>, t: int) { exists w :: w in ws && Holds(w, t) }

  ghost predicate Proper(ws: seq<Window>) {
    forall w :: w in ws ==> w.start < w.end
  }

  /** In order, with a gap before each next window: every set of instants that
      windows can cover has exactly one proper list like this (SeparatedIsUnique). */
  ghost predicate Separated(ws: seq<Window>) {
    forall i, j :: 0 <= i < j < |ws| ==> ws[i].end < ws[j].start
  }

  lemma CoversAppend(a: seq<Window>, b: seq<Window>, t: int)
    ensures Covers(a + b, t) <==> Covers(a, t) || Covers(b, t)
  {
    if Covers(a, t) {
      var w :| w in a && Holds(w, t);
      assert w in a + b;
    }
    if Covers(b, t) {
      var w :| w in b && Holds(w, t);
      assert w in a + b;
    }
  }

  lemma CoversOne(w: Window, t: int)
    ensures Covers([w], t) <==> Holds(w, t)
  {
    if Holds(w, t) {
      assert w in [w];
    }
  }

  lemma CoversCons(w: Window, ws: seq<Window>, t: int)
    ensures Covers([w] + ws, t) <==> Holds(w, t) || Covers(ws, t)
  {
    CoversAppend([w], ws, t);
    CoversOne(w, t);
  }

  // ---------- merge_windows ----------

  predicate EarlierWindow(a: Window, b: Window) { a.start <= b.start }

  function Max(a: int, b: int): int { if a >= b then a else b }

  function Absorb(last: Window, w: Window): Window {
    Window(last.start, Max(last.end, w.end), last.free || w.free)
  }

  function MergeFrom(last: Window, rest: seq<Window>): seq<Window>
    decreases rest
  {
    if rest == [] then [last]
    else if rest[0].start <= last.end then MergeFrom(Absorb(last, rest[0]), rest[1..])
    else [last] + MergeFrom(rest[0], rest[1..])
  }

  function Merge(ws: seq<Window>): seq<Window> {
    var sorted := StableSort(ws, EarlierWindow);
    if sorted == [] then [] else MergeFrom(sorted[0], sorted[1..])
  }

  /** What the loop of merge_windows will end with. */
  function Merging(merged: seq<Window>, rest: seq<Window>): seq<Window>
    requires merged != []
  {
    merged[..|merged| - 1] + MergeFrom(merged[|merged| - 1], rest)
  }

  method MergeWindows(ws: seq<Window>) returns (merged: seq<Window>)
    ensures merged == Merge(ws)
  {
    var parsed := StableSort(ws, EarlierWindow);
    if parsed == [] {
      return [];
    }
    merged := [parsed[0]];
    var i := 1;
    while i < |parsed|
      invariant 1 <= i <= |parsed| && merged != []
      invariant Merge(ws) == Merging(merged, parsed[i..])
    {
      var last, w := merged[|merged| - 1], parsed[i];
      MergingStep(merged, parsed[i..]);
      if w.start <= last.end {
        merged := merged[..|merged| - 1] + [Absorb(last, w)];
      } else {
        merged := merged + [w];
      }
      i := i + 1;
    }
    assert Merging(merged, []) == merged;
  }

  lemma MergingStep(merged: seq<Window>, rest: seq<Window>)
    requires merged != [] && rest != []
    ensures var init, last, w := merged[..|merged| - 1], merged[|merged| - 1], rest[0];
      Merging(merged, rest) == Merging(if w.start <= last.end then init + [Absorb(last, w)] else merged + [w], rest[1..])
  {
    var init, last, w := merged[..|merged| - 1], merged[|merged| - 1], rest[0];
    if w.start <= last.end {
      assert (init + [Absorb(last, w)])[..|init|] == init;
    } else {
      assert (merged + [w])[..|merged|] == merged == init + [last];
    }
  }

  lemma {:induction false} MergeFromCover(last: Window, rest: seq<Window>, t: int)
    requires forall w :: w in rest ==> last.start <= w.start
    requires Sorted(rest, EarlierWindow)
    ensures Covers(MergeFrom(last, rest), t) <==> Holds(last, t) || Covers(rest, t)
    decreases rest
  {
    if rest == [] {
      CoversOne(last, t);
    } else {
      var w := rest[0];
      assert rest == [w] + rest[1..];
      CoversCons(w, rest[1..], t);
      assert forall v :: v in rest[1..] ==> EarlierWindow(w, v);
      if w.start <= last.end {
        MergeFromCover(Absorb(last, w), rest[1..], t);
      } else {
        MergeFromCover(w, rest[1..], t);
        CoversCons(last, MergeFrom(w, rest[1..]), t);
      }
    }
  }

  lemma {:induction false} MergeFromShape(last: Window, rest: seq<Window>)
    requires forall w :: w in rest ==> last.start <= w.start
    requires Sorted(rest, EarlierWindow)
    ensures var m := MergeFrom(last, rest);
      && m != [] && m[0].start == last.start && m[0].end >= last.end
      && Separated(m) && (forall w :: w in m ==> last.start <= w.start)
      && (last.start < last.end && Proper(rest) ==> Proper(m))
    decreases rest
  {
    if rest == [] {
    } else {
      var w := rest[0];
      assert rest == [w] + rest[1..];
      assert forall v :: v in rest[1..] ==> EarlierWindow(w, v);
      if w.start <= last.end {
        MergeFromShape(Absorb(last, w), rest[1..]);
      } else {
        MergeFromShape(w, rest[1..]);
        SeparatedCons(last, MergeFrom(w, rest[1..]));
      }
    }
  }

  lemma SeparatedCons(w: Window, ws: seq<Window>)
    requires Separated(ws) && forall v :: v in ws ==> w.end < v.start
    ensures Separated([w] + ws)
  {
    var s := [w] + ws;
    forall i, j | 0 <= i < j < |s| ensures s[i].end < s[j].start {
      assert s[j] == ws[j - 1];
      if i > 0 {
        assert s[i] == ws[i - 1];
      }
    }
  }

  lemma SeparatedTail(ws: seq<Window>)
    requires ws != [] && Separated(ws)
    ensures Separated(ws[1..]) && forall v :: v in ws[1..] ==> ws[0].end < v.start
  {
    forall i, j | 0 <= i < j < |ws[1..]| ensures ws[1..][i].end < ws[1..][j].start {
      assert ws[1..][i] == ws[i + 1] && ws[1..][j] == ws[j + 1];
    }
    forall v | v in ws[1..] ensures ws[0].end < v.start {
      var k :| 0 <= k < |ws[1..]| && ws[1..][k] == v;
      assert v == ws[k + 1];
    }
  }

  predicate Inside(v: Window, w: Window) { w.start <= v.start && v.end <= w.end }

  ghost predicate SomeFreeInside(ws: seq<Window>, w: Window) {
    exists v :: v in ws && v.free && Inside(v, w)
  }

  lemma {:induction false} MergeFromFree(last: Window, rest: seq<Window>, w: Window)
    requires forall v :: v in rest ==> last.start <= v.start
    requires Sorted(rest, EarlierWindow) && last.start < last.end && Proper(rest)
    requires w in MergeFrom(last, rest)
    ensures w.free <==> SomeFreeInside([last] + rest, w)
    decreases rest
  {
    if rest == [] {
      assert [last] + rest == [last];
      assert last in [last];
    } else {
      var x := rest[0];
      assert rest == [x] + rest[1..];
      assert forall v :: v in rest[1..] ==> EarlierWindow(x, v);
      var tail := [x] + rest[1..];
      if x.start <= last.end {
        var a := Absorb(last, x);
        MergeFromFree(a, rest[1..], w);
        MergeFromShape(a, rest[1..]);
        AbsorbInside(last, x, rest[1..], w);
      } else {
        MergeFromShape(x, rest[1..]);
        assert x in rest;
        if w == last {
          assert forall v :: v in rest ==> !Inside(v, w);
          assert last in [last] + rest;
        } else {
          assert w in MergeFrom(x, rest[1..]);
          MergeFromFree(x, rest[1..], w);
          assert !Inside(last, w);
          if SomeFreeInside(tail, w) {
            var v :| v in tail && v.free && Inside(v, w);
            assert v in [last] + rest;
          }
        }
      }
    }
  }

  /** The window that absorbed two others lies inside `w` just when both do. */
  lemma AbsorbInside(last: Window, x: Window, rest: seq<Window>, w: Window)
    requires last.start <= x.start <= last.end
    requires last.start < last.end && x.start < x.end
    requires w in MergeFrom(Absorb(last, x), rest)
    requires forall v :: v in rest ==> x.start <= v.start
    requires Sorted(rest, EarlierWindow)
    ensures SomeFreeInside([Absorb(last, x)] + rest, w) <==> SomeFreeInside([last] + ([x] + rest), w)
  {
    var a := Absorb(last, x);
    var merged, parts := [a] + rest, [last] + ([x] + rest);
    MergeFromShape(a, rest);
    var m := MergeFrom(a, rest);
    var k :| 0 <= k < |m| && m[k] == w;
    assert k == 0 || m[0].end < m[k].start;
    assert Inside(a, w) <==> k == 0;
    assert Inside(last, w) ==> k == 0;
    assert Inside(x, w) ==> k == 0;
    if SomeFreeInside(merged, w) {
      var v :| v in merged && v.free && Inside(v, w);
      if v == a {
        assert last in parts && x in parts;
        assert Inside(last, w) && Inside(x, w);
      } else {
        assert v in parts;
      }
    }
    if SomeFreeInside(parts, w) {
      var v :| v in parts && v.free && Inside(v, w);
      if v == last || v == x {
        assert a in merged && a.free;
      } else {
        assert v in merged;
      }
    }
  }

  /** Two proper separated lists that cover the same instants have the same bounds. */
  lemma {:induction false} SeparatedIsUnique(a: seq<Window>, b: seq<Window>)
    requires Proper(a) && Separated(a) && Proper(b) && Separated(b)
    requires forall t :: Covers(a, t) <==> Covers(b, t)
    ensures |a| == |b| && forall i :: 0 <= i < |a| ==> a[i].start == b[i].start && a[i].end == b[i].end
  {
    if a == [] {
      if b != [] {
        StartIsCovered(b);
      }
    } else {
      FirstWindowFits(a, b);
      FirstWindowFits(b, a);
      SeparatedTail(a);
      SeparatedTail(b);
      assert a == [a[0]] + a[1..] && b == [b[0]] + b[1..];
      forall t ensures Covers(a[1..], t) <==> Covers(b[1..], t) {
        CoversCons(a[0], a[1..], t);
        CoversCons(b[0], b[1..], t);
      }
      SeparatedIsUnique(a[1..], b[1..]);
      forall i | 0 <= i < |a| ensures a[i].start == b[i].start && a[i].end == b[i].end {
        if i > 0 {
          assert a[i] == a[1..][i - 1] && b[i] == b[1..][i - 1];
        }
      }
    }
  }

  lemma StartIsCovered(ws: seq<Window>)
    requires ws != [] && Proper(ws)
    ensures Covers(ws, ws[0].start)
  {
    assert ws[0] in ws && Holds(ws[0], ws[0].start);
  }

  lemma FirstWindowFits(a: seq<Window>, b: seq<Window>)
    requires a != [] && Proper(a) && Separated(a) && Proper(b) && Separated(b)
    requires forall t :: Covers(a, t) <==> Covers(b, t)
    ensures b != [] && b[0].start <= a[0].start && (a[0].start <= b[0].start ==> a[0].end <= b[0].end)
  {
    assert a[0] in a && Holds(a[0], a[0].start);
    assert Covers(a, a[0].start);
    var w :| w in b && Holds(w, a[0].start);
    assert b[0] in b;
    if a[0].start <= b[0].start {
      NoPointAtEnd(b);
      var end := b[0].end;
      assert Holds(a[0], end) ==> Covers(a, end);
    }
  }

  /** The instant at which the first window ends is not covered. */
  lemma NoPointAtEnd(ws: seq<Window>)
    requires ws != [] && Separated(ws)
    ensures !Covers(ws, ws[0].end)
  {
    forall v | v in ws ensures !Holds(v, ws[0].end) {
      var k :| 0 <= k < |ws| && ws[k] == v;
    }
  }

  /** What merge_windows promises: the same instants, in separated order, and a window is
      tagged free exactly when one of the windows merged into it was. */
  lemma MergeKeepsInstants(ws: seq<Window>, t: int)
    ensures Covers(Merge(ws), t) <==> Covers(ws, t)
    ensures Separated(Merge(ws))
    ensures Proper(ws) ==> Proper(Merge(ws))
    ensures Proper(ws) ==> forall w :: w in Merge(ws) ==> (w.free <==> SomeFreeInside(ws, w))
  {
    var s := StableSort(ws, EarlierWindow);
    StableSortSorts(ws, EarlierWindow);
    assert Covers(s, t) <==> Covers(ws, t);
    if s != [] {
      assert s == [s[0]] + s[1..];
      assert forall v :: v in s[1..] ==> EarlierWindow(s[0], v);
      assert s[0] in s;
      CoversCons(s[0], s[1..], t);
      MergeFromCover(s[0], s[1..], t);
      MergeFromShape(s[0], s[1..]);
      if Proper(ws) {
        forall w | w in Merge(ws) ensures w.free <==> SomeFreeInside(ws, w) {
          MergeFromFree(s[0], s[1..], w);
          assert SomeFreeInside(s, w) <==> SomeFreeInside(ws, w);
        }
      }
    }
  }

  lemma {:induction false} MergeFromKeepsEach(last: Window, rest: seq<Window>, v: Window)
    requires v in [last] + rest && forall x :: x in rest ==> last.start <= x.start
    requires Sorted(rest, EarlierWindow)
    ensures exists m :: m in MergeFrom(last, rest) && Inside(v, m)
    decreases rest
  {
    if rest == [] {
      assert last in MergeFrom(last, rest);
    } else {
      var x := rest[0];
      assert rest == [x] + rest[1..];
      assert forall y :: y in rest[1..] ==> EarlierWindow(x, y);
      if x.start <= last.end {
        var a := Absorb(last, x);
        if v == last || v == x {
          MergeFromKeepsEach(a, rest[1..], a);
          var m :| m in MergeFrom(a, rest[1..]) && Inside(a, m);
          assert Inside(v, m);
        } else {
          MergeFromKeepsEach(a, rest[1..], v);
        }
      } else if v == last {
        assert last in MergeFrom(last, rest);
      } else {
        MergeFromKeepsEach(x, rest[1..], v);
        var m :| m in MergeFrom(x, rest[1..]) && Inside(v, m);
        assert m in MergeFrom(last, rest);
      }
    }
  }

  lemma {:induction false} MergeFromBounds(last: Window, rest: seq<Window>, m: Window)
    requires m in MergeFrom(last, rest)
    ensures exists v :: v in [last] + rest && v.start == m.start
    ensures exists v :: v in [last] + rest && v.end == m.end
    decreases rest
  {
    assert last in [last] + rest;
    if rest == [] {
    } else {
      var x := rest[0];
      assert x in [last] + rest && rest == [x] + rest[1..];
      var next := if x.start <= last.end then Absorb(last, x) else x;
      if m in MergeFrom(next, rest[1..]) {
        MergeFromBounds(next, rest[1..], m);
        var v :| v in [next] + rest[1..] && v.start == m.start;
        assert v != next ==> v in [last] + rest;
        var e :| e in [next] + rest[1..] && e.end == m.end;
        assert e != next ==> e in [last] + rest;
      }
    }
  }

  /** Every merged window runs from the start of one of its windows to the end of one. */
  lemma MergeBounds(ws: seq<Window>, m: Window)
    requires m in Merge(ws)
    ensures exists v :: v in ws && v.start == m.start
    ensures exists v :: v in ws && v.end == m.end
  {
    var s := StableSort(ws, EarlierWindow);
    StableSortSorts(ws, EarlierWindow);
    assert s == [s[0]] + s[1..];
    MergeFromBounds(s[0], s[1..], m);
    var v :| v in s && v.start == m.start;
    var e :| e in s && e.end == m.end;
    assert v in ws && e in ws;
  }

  /** Every window handed over lies inside a merged one. */
  lemma MergeKeepsEach(ws: seq<Window>, v: Window) returns (m: Window)
    requires v in ws
    ensures m in Merge(ws) && Inside(v, m)
  {
    var s := StableSort(ws, EarlierWindow);
    StableSortSorts(ws, EarlierWindow);
    assert s == [s[0]] + s[1..];
    assert forall x :: x in s[1..] ==> EarlierWindow(s[0], x);
    MergeFromKeepsEach(s[0], s[1..], v);
    m :| m in Merge(ws) && Inside(v, m);
  }

  lemma SeparatedHolders(ws: seq<Window>, a: Window, b: Window, t: int)
    requires Separated(ws) && a in ws && b in ws && Holds(a, t) && Holds(b, t)
    ensures a == b
  {
    var i :| 0 <= i < |ws| && ws[i] == a;
    var j :| 0 <= j < |ws| && ws[j] == b;
    assert i == j;
  }

  /** A merged window that is not free covers only instants of windows that are not free. */
  lemma MergedUnfreeInstant(ws: seq<Window>, m: Window, t: int)
    requires Proper(ws) && m in Merge(ws) && !m.free && Holds(m, t)
    ensures exists v :: v in ws && !v.free && Holds(v, t)
  {
    MergeKeepsInstants(ws, t);
    assert Covers(Merge(ws), t);
    var v :| v in ws && Holds(v, t);
    var home := MergeKeepsEach(ws, v);
    SeparatedHolders(Merge(ws), m, home, t);
    assert v.free ==> SomeFreeInside(ws, m);
  }

  lemma MergeOfSeparated(ws: seq<Window>)
    requires Separated(ws) && Proper(ws)
    ensures Merge(ws) == ws
  {
    forall i, j | 0 <= i < j < |ws| ensures EarlierWindow(ws[i], ws[j]) {
      assert ws[i] in ws;
    }
    SortedIsFixed(ws, EarlierWindow);
    if ws != [] {
      MergeFromOfSeparated(ws[0], ws[1..]);
      assert ws == [ws[0]] + ws[1..];
    }
  }

  lemma {:induction false} MergeFromOfSeparated(last: Window, rest: seq<Window>)
    requires Separated([last] + rest)
    ensures MergeFrom(last, rest) == [last] + rest
    decreases rest
  {
    if rest == [] {
    } else {
      assert ([last] + rest)[1] == rest[0];
      SeparatedTail([last] + rest);
      assert ([last] + rest)[1..] == rest == [rest[0]] + rest[1..];
      MergeFromOfSeparated(rest[0], rest[1..]);
    }
  }

  lemma MergeIsDecidedByInstants(a: seq<Window>, b: seq<Window>)
    requires Proper(a) && Proper(b)
    requires forall t :: Covers(a, t) <==> Covers(b, t)
    requires forall w :: SomeFreeInside(a, w) <==> SomeFreeInside(b, w)
    ensures Merge(a) == Merge(b)
  {
    forall t ensures Covers(Merge(a), t) <==> Covers(Merge(b), t) {
      MergeKeepsInstants(a, t);
      MergeKeepsInstants(b, t);
    }
    MergeKeepsInstants(a, 0);
    MergeKeepsInstants(b, 0);
    SeparatedIsUnique(Merge(a), Merge(b));
    forall i | 0 <= i < |Merge(a)| ensures Merge(a)[i] == Merge(b)[i] {
      var v, w := Merge(a)[i], Merge(b)[i];
      assert v in Merge(a) && w in Merge(b);
      assert SomeFreeInside(b, v) <==> SomeFreeInside(b, w);
    }
  }

  /** The order in which windows are handed over does not matter. */
  lemma MergeIgnoresOrder(a: seq<Window>, b: seq<Window>)
    requires Proper(a) && multiset(a) == multiset(b)
    ensures Merge(a) == Merge(b)
  {
    forall w ensures w in a <==> w in b {
      assert w in a <==> w in multiset(a);
      assert w in b <==> w in multiset(b);
    }
    MergeIsDecidedByInstants(a, b);
  }

  /** Merging what is already merged changes nothing. */
  lemma MergeIsIdempotent(ws: seq<Window>)
    requires Proper(ws)
    ensures Merge(Merge(ws)) == Merge(ws)
  {
    MergeKeepsInstants(ws, 0);
    MergeOfSeparated(Merge(ws));
  }

  // ---------- split_at_inverter_midnight ----------

  /** The first midnight of a clock at UTC + `offset` after the instant `start`. */
  function NextMidnight(start: int, offset: int): int {
    ((start + offset) / 86400 + 1) * 86400 - offset
  }

  function SplitOne(w: Window, offset: int): seq<Window> {
    var cut := NextMidnight(w.start, offset);
    if w.end < cut then [w]
    else if w.end == cut then [w.(end := w.end - 60)]
    else [w.(end := cut - 60), w.(start := cut)]
  }

  function Split(ws: seq<Window>, offset: int): seq<Window> {
    if ws == [] then [] else SplitOne(ws[0], offset) + Split(ws[1..], offset)
  }

  method SplitWindow(w: Window, offset: int) returns (pieces: seq<Window>)
    ensures pieces == SplitOne(w, offset)
  {
    var invStart, invEnd := w.start + offset, w.end + offset;
    var nextDay := invStart + DAY;
    var boundary := nextDay - nextDay % 86400;
    MidnightOf(w.start, offset);
    if invEnd < boundary {
      return [w];
    }
    if invEnd == boundary {
      return [w.(end := w.end - 60)];
    }
    var cut := boundary - offset;
    return [w.(end := cut - 60), w.(start := cut)];
  }

  method SplitAtInverterMidnight(ws: seq<Window>, offset: int) returns (out: seq<Window>)
    ensures out == Split(ws, offset)
  {
    out := [];
    var i := 0;
    while i < |ws|
      invariant 0 <= i <= |ws|
      invariant Split(ws, offset) == out + Split(ws[i..], offset)
    {
      var pieces := SplitWindow(ws[i], offset);
      SplitStep(out, ws[i..], offset);
      out := out + pieces;
      i := i + 1;
    }
    assert ws[i..] == [] && out + [] == out;
  }

  lemma SplitStep(out: seq<Window>, rest: seq<Window>, offset: int)
    requires rest != []
    ensures out + Split(rest, offset) == (out + SplitOne(rest[0], offset)) + Split(rest[1..], offset)
  {
  }

  lemma MidnightOf(start: int, offset: int)
    ensures (start + offset + 86400) - (start + offset + 86400) % 86400 - offset == NextMidnight(start, offset)
  {
    var x := start + offset;
    assert x == 86400 * (x / 86400) + x % 86400;
    assert (x + 86400) % 86400 == x % 86400;
  }

  /** The minute that splitting gives up: the one before a midnight that the window reaches. */
  predicate LostMinute(w: Window, offset: int, t: int) {
    var cut := NextMidnight(w.start, offset);
    w.end >= cut && cut - 60 <= t < cut
  }

  /** One window keeps every instant but the minute before the midnight it reaches. */
  lemma SplitOneCover(w: Window, offset: int, t: int)
    ensures Covers(SplitOne(w, offset), t) <==> Holds(w, t) && !LostMinute(w, offset, t)
    ensures forall p :: p in SplitOne(w, offset) ==> p.free == w.free
    ensures w.start < NextMidnight(w.start, offset) <= w.start + 86400
  {
    var cut := NextMidnight(w.start, offset);
    var first := w.(end := cut - 60);
    var second := w.(start := cut);
    CoversOne(w, t);
    CoversOne(first, t);
    CoversOne(second, t);
    if w.end > cut {
      CoversAppend([first], [second], t);
      assert SplitOne(w, offset) == [first] + [second];
    }
  }

  /** All windows together: exactly the minutes before the midnights they reach are lost. */
  lemma {:induction false} SplitCover(ws: seq<Window>, offset: int, t: int)
    ensures Covers(Split(ws, offset), t) <==> exists w :: w in ws && Holds(w, t) && !LostMinute(w, offset, t)
  {
    if ws == [] {
    } else {
      assert ws == [ws[0]] + ws[1..];
      SplitOneCover(ws[0], offset, t);
      SplitCover(ws[1..], offset, t);
      CoversAppend(SplitOne(ws[0], offset), Split(ws[1..], offset), t);
    }
  }

  lemma {:induction false} SplitPieces(ws: seq<Window>, offset: int, p: Window)
    ensures p in Split(ws, offset) <==> exists w :: w in ws && p in SplitOne(w, offset)
  {
    if ws == [] {
    } else {
      assert ws == [ws[0]] + ws[1..];
      SplitPieces(ws[1..], offset, p);
    }
  }

  /** Each window begins after the ones before it have begun and have ended. */
  ghost predicate InOrder(ws: seq<Window>) {
    forall i, j :: 0 <= i < j < |ws| ==> ws[i].start < ws[j].start && ws[i].end < ws[j].start
  }

  lemma PiecesInOrder(w: Window, offset: int)
    requires w.start < w.end
    ensures InOrder(SplitOne(w, offset))
    ensures forall p :: p in SplitOne(w, offset) ==> w.start <= p.start < w.end && p.end <= w.end
  {
    SplitOneCover(w, offset, 0);
  }

  /** Splitting keeps windows in order. */
  lemma {:induction false} SplitInOrder(ws: seq<Window>, offset: int)
    requires Proper(ws) && Separated(ws)
    ensures InOrder(Split(ws, offset))
    ensures forall p :: p in Split(ws, offset) ==> ws[0].start <= p.start
  {
    if ws == [] {
    } else {
      var head, rest := SplitOne(ws[0], offset), Split(ws[1..], offset);
      assert ws[0] in ws && forall w :: w in ws[1..] ==> w in ws;
      assert forall i, j :: 0 <= i < j < |ws[1..]| ==> ws[1..][i] == ws[i + 1] && ws[1..][j] == ws[j + 1];
      SplitInOrder(ws[1..], offset);
      PiecesInOrder(ws[0], offset);
      assert ws[1..] != [] ==> ws[0].end < ws[1..][0].start;
      InOrderAppend(head, rest);
    }
  }

  lemma InOrderAppend(a: seq<Window>, b: seq<Window>)
    requires InOrder(a) && InOrder(b) && forall p, q :: p in a && q in b ==> p.start < q.start && p.end < q.start
    ensures InOrder(a + b)
  {
    var s := a + b;
    forall i, j | 0 <= i < j < |s| ensures s[i].start < s[j].start && s[i].end < s[j].start {
      if i < |a| <= j {
        assert s[i] in a && s[j] in b;
      }
    }
  }
}
