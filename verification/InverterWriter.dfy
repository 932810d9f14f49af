/** Programming the inverter's registers through a control call that may fail after having
    taken effect (solis_agile_charge.py, SolisCloud.write, _desired_slots, _apply). */
module InverterWriter {
  import opened Options
  import opened Windows
  import opened InverterClock
  import opened SolisFeeds
  import opened SolisPlan

  /** Charge slots 1-3 are 0, 1, 2 and discharge slots 1-3 are 3, 4, 5: the order of sorted keys. */
  const SLOTS := 6

  type SlotId = i: nat | i < SLOTS
  const CHARGE_CURRENT := 50
  const DISCHARGE_CURRENT := 50
  const RETRIES := 4

  datatype Slot = Slot(enabled: bool, window: Range, current: int)

  const DISABLED := Slot(false, Range(0, 0), 0)

  /** The registers behind the cids: one switch register shared by every slot, including slots
      this program never touches, and a window and a current for each slot. */
  datatype Registers = Registers(switches: set<nat>, windows: seq<Range>, currents: seq<int>)

  ghost predicate WellFormed(regs: Registers) {
    match regs case Registers(_, windows, currents) => |windows| == SLOTS && |currents| == SLOTS
  }

  datatype Write =
    | SwitchOff(slot: SlotId)
    | SwitchOn(slot: SlotId)
    | SetCurrent(slot: SlotId, amps: int)
    | SetWindow(slot: SlotId, range: Range)

  predicate IsSwitch(w: Write) { w.SwitchOff? || w.SwitchOn? }

  /** A bit is set in the register value that the caller sends along, not in the live one. */
  function Effect(regs: Registers, w: Write, raw: set<nat>): Registers
    requires WellFormed(regs)
  {
    match w
    case SwitchOff(i) => regs.(switches := raw - {i})
    case SwitchOn(i) => regs.(switches := raw + {i})
    case SetCurrent(i, amps) => regs.(currents := regs.currents[i := amps])
    case SetWindow(i, range) => regs.(windows := regs.windows[i := range])
  }

  /** The write done as meant: from the live register. */
  function Done(regs: Registers, w: Write): Registers
    requires WellFormed(regs)
  {
    Effect(regs, w, regs.switches)
  }

  /** Reading the cid back gives the value that is to be written. */
  predicate HoldsValue(regs: Registers, w: Write)
    requires WellFormed(regs)
  {
    match w
    case SwitchOff(i) => i !in regs.switches
    case SwitchOn(i) => i in regs.switches
    case SetCurrent(i, amps) => regs.currents[i] == amps
    case SetWindow(i, range) => regs.windows[i] == range
  }

  // ---------- the wire ----------

  /** Acked carries the register value of the echo, when it can be parsed. Busy stands for a
      retry code or a timeout, Refused for every other answer or exception. */
  datatype Answer = Acked(echo: Option<set<nat>>) | Busy | Refused

  datatype WriteResult = Raised | Returned(echo: Option<set<nat>>)

  /** One POST as the registers saw it, and what came back. */
  datatype Posted = Posted(write: Write, after: Registers, answer: Answer)

  /** The posts from `from` on ended with a refusal, or with as many busy answers as are taken. */
  ghost predicate GivenUp(log: seq<Posted>, from: nat) {
    && from < |log|
    && (log[|log| - 1].answer.Refused?
        || (|log| >= from + 4 && forall m :: |log| - 4 <= m < |log| ==> log[m].answer.Busy?))
  }

  class Inverter {
    var regs: Registers
    ghost var log: seq<Posted>
    ghost var unanswered: nat

    constructor (regs: Registers)
      requires WellFormed(regs)
      ensures this.regs == regs && log == [] && unanswered == 0
    {
      this.regs := regs;
      log, unanswered := [], 0;
    }

    /** A control POST: acknowledged ones took effect; others may or may not have. */
    method Control(w: Write, raw: set<nat>) returns (answer: Answer)
      requires WellFormed(regs)
      modifies this`regs, this`log
      ensures regs == old(regs) || regs == Effect(old(regs), w, raw)
      ensures answer.Acked? ==> regs == Effect(old(regs), w, raw)
      ensures answer.Acked? && IsSwitch(w) && answer.echo.Some? ==> answer.echo.value == regs.switches
      ensures log == old(log) + [Posted(w, regs, answer)]
    {
      var applied, acked, parsed, busy: bool := *, *, *, *;
      if applied || acked {
        regs := Effect(regs, w, raw);
      }
      if acked {
        answer := Acked(if parsed then Some(regs.switches) else None);
      } else {
        answer := if busy then Busy else Refused;
      }
      log := log + [Posted(w, regs, answer)];
    }

    /** A live read either answers truthfully or raises. */
    method Answers() returns (ok: bool)
      modifies this`unanswered
      ensures unanswered == old(unanswered) + if ok then 0 else 1
    {
      ok := *;
      if !ok {
        unanswered := unanswered + 1;
      }
    }

    /** SolisCloud.write. The caller hands over the live switch register as `raw`. Whatever the
        attempts do, no register but the one written changes, and a normal return means it
        holds the value. Only a busy answer is tried again, up to four times and only after a
        read; it raises only on a read that does, a refusal, or four busy answers. */
    method Write(w: Write, raw0: set<nat>, mustWrite: bool) returns (result: WriteResult)
      requires WellFormed(regs)
      requires IsSwitch(w) ==> raw0 == regs.switches
      modifies this
      ensures regs == old(regs) || regs == Done(old(regs), w)
      ensures result.Returned? ==> regs == Done(old(regs), w)
      ensures result.Returned? && IsSwitch(w) && result.echo.Some? ==> result.echo.value == regs.switches
      ensures |old(log)| <= |log| && log[..|old(log)|] == old(log)
      ensures forall m :: |old(log)| <= m < |log| ==>
        log[m].write == w && (log[m].after == old(regs) || log[m].after == Done(old(regs), w))
      ensures |log| <= |old(log)| + RETRIES
      ensures |old(log)| < |log| && forall m :: |old(log)| <= m < |log| - 1 ==> log[m].answer.Busy?
      ensures forall m :: |old(log)| <= m < |log| - 1 && !mustWrite ==>
        WellFormed(log[m].after) && !HoldsValue(log[m].after, w)
      ensures mustWrite && result.Returned? ==> log[|log| - 1].answer.Acked?
      ensures result.Returned? ==> unanswered == old(unanswered) && !log[|log| - 1].answer.Refused?
      ensures result.Raised? ==> unanswered > old(unanswered) || GivenUp(log, |old(log)|)
    {
      var raw := raw0;
      var attempt := 1;
      while attempt <= RETRIES
        invariant 1 <= attempt <= RETRIES + 1
        invariant WellFormed(regs)
        invariant regs == old(regs) || regs == Done(old(regs), w)
        invariant IsSwitch(w) ==> raw == regs.switches
        invariant |log| == |old(log)| + attempt - 1 && log[..|old(log)|] == old(log)
        invariant unanswered == old(unanswered)
        invariant forall m :: |old(log)| <= m < |log| ==> log[m].answer.Busy? && WellFormed(log[m].after)
        invariant forall m :: |old(log)| <= m < |log| && !mustWrite ==> !HoldsValue(log[m].after, w)
        invariant forall m :: |old(log)| <= m < |log| ==>
          log[m].write == w && (log[m].after == old(regs) || log[m].after == Done(old(regs), w))
      {
        DoneTwice(old(regs), w);
        var answer := Control(w, raw);
        assert regs == old(regs) || regs == Done(old(regs), w);
        match answer {
          case Acked(echo) => return Returned(echo);
          case Refused => return Raised;
          case Busy =>
        }
        var ok := Answers();
        if !ok {
          return Raised;
        }
        if HoldsValue(regs, w) && !mustWrite {
          HoldingIsDone(regs, w);
          return Returned(None);
        }
        raw := regs.switches;
        attempt := attempt + 1;
      }
      return Raised;
    }
  }

  lemma DoneTwice(regs: Registers, w: Write)
    requires WellFormed(regs)
    ensures Done(Done(regs, w), w) == Done(regs, w) && HoldsValue(Done(regs, w), w)
  {
  }

  lemma HoldingIsDone(regs: Registers, w: Write)
    requires WellFormed(regs) && HoldsValue(regs, w)
    ensures Done(regs, w) == regs
  {
  }

  // ---------- what is written, and in which order ----------

  /** A run of _apply: what is wanted, the live registers it reads, what Home Assistant last
      saw of each slot, and whether everything is rewritten. */
  datatype Cached = Cached(window: Option<Range>, current: Option<int>)
  datatype Job = Job(desired: seq<Slot>, live: Registers, cached: seq<Cached>, force: bool)

  ghost predicate ValidJob(j: Job) {
    match j case Job(desired, live, cached, _) => |desired| == SLOTS && |cached| == SLOTS && WellFormed(live)
  }

  /** The values compared against: live ones for slots that will run, otherwise the cache,
      and nothing at all when everything is rewritten. */
  function Known(j: Job, i: nat): Cached
    requires ValidJob(j) && i < SLOTS
  {
    if j.desired[i].enabled then Cached(Some(j.live.windows[i]), Some(j.live.currents[i]))
    else if j.force then Cached(None, None)
    else j.cached[i]
  }

  predicate NeedSwitch(j: Job, i: nat)
    requires ValidJob(j) && i < SLOTS
  {
    j.force || (i in j.live.switches) != j.desired[i].enabled
  }

  predicate NeedCurrent(j: Job, i: nat)
    requires ValidJob(j) && i < SLOTS
  {
    j.force || Known(j, i).current != Some(j.desired[i].current)
  }

  predicate NeedWindow(j: Job, i: nat)
    requires ValidJob(j) && i < SLOTS
  {
    j.force || Known(j, i).window != Some(j.desired[i].window)
  }

  function SlotValues(j: Job, i: nat): seq<Write>
    requires ValidJob(j) && i < SLOTS
  {
    (if NeedCurrent(j, i) then [SetCurrent(i, j.desired[i].current)] else [])
    + (if NeedWindow(j, i) then [SetWindow(i, j.desired[i].window)] else [])
  }

  function Offs(j: Job, n: nat): seq<Write>
    requires ValidJob(j) && n <= SLOTS
  {
    if n == 0 then []
    else Offs(j, n - 1) + if NeedSwitch(j, n - 1) && !j.desired[n - 1].enabled then [SwitchOff(n - 1)] else []
  }

  function Values(j: Job, n: nat): seq<Write>
    requires ValidJob(j) && n <= SLOTS
  {
    if n == 0 then [] else Values(j, n - 1) + SlotValues(j, n - 1)
  }

  function Ons(j: Job, n: nat): seq<Write>
    requires ValidJob(j) && n <= SLOTS
  {
    if n == 0 then []
    else Ons(j, n - 1) + if NeedSwitch(j, n - 1) && j.desired[n - 1].enabled then [SwitchOn(n - 1)] else []
  }

  function AllWrites(j: Job): seq<Write>
    requires ValidJob(j)
  {
    Offs(j, SLOTS) + Values(j, SLOTS) + Ons(j, SLOTS)
  }

  /** The registers once these writes are done. */
  function After(regs: Registers, ws: seq<Write>): (r: Registers)
    requires WellFormed(regs)
    ensures WellFormed(r)
  {
    if ws == [] then regs else Done(After(regs, ws[..|ws| - 1]), ws[|ws| - 1])
  }

  lemma AfterSnoc(regs: Registers, ws: seq<Write>, w: Write)
    requires WellFormed(regs)
    ensures After(regs, ws + [w]) == Done(After(regs, ws), w)
  {
    assert (ws + [w])[..|ws + [w]| - 1] == ws;
  }

  lemma {:induction false} AfterAppend(regs: Registers, a: seq<Write>, b: seq<Write>)
    requires WellFormed(regs)
    ensures After(regs, a + b) == After(After(regs, a), b)
  {
    if b == [] {
      assert a + b == a;
    } else {
      var c := b[..|b| - 1];
      assert (a + b)[..|a + b| - 1] == a + c;
      AfterAppend(regs, a, c);
    }
  }

  lemma WritesAre(j: Job, n: nat)
    requires ValidJob(j) && n <= SLOTS
    ensures forall w :: w in Offs(j, n) ==> w.SwitchOff? && w.slot < n && !j.desired[w.slot].enabled
    ensures forall w :: w in Values(j, n) ==> w.slot < n && HoldsValueOf(j.desired, w) && !IsSwitch(w)
    ensures forall w :: w in Ons(j, n) ==> w.SwitchOn? && w.slot < n && j.desired[w.slot].enabled
  {
    OffsAre(j, n);
    ValuesAre(j, n);
    OnsAre(j, n);
  }

  lemma {:induction false} OffsAre(j: Job, n: nat)
    requires ValidJob(j) && n <= SLOTS
    ensures forall w :: w in Offs(j, n) ==> w.SwitchOff? && w.slot < n && !j.desired[w.slot].enabled
  {
    if n == 0 {
    } else {
      OffsAre(j, n - 1);
    }
  }

  lemma {:induction false} ValuesAre(j: Job, n: nat)
    requires ValidJob(j) && n <= SLOTS
    ensures forall w :: w in Values(j, n) ==> w.slot < n && HoldsValueOf(j.desired, w) && !IsSwitch(w)
  {
    if n == 0 {
    } else {
      ValuesAre(j, n - 1);
      SlotValuesAre(j, n - 1);
    }
  }

  lemma SlotValuesAre(j: Job, i: nat)
    requires ValidJob(j) && i < SLOTS
    ensures forall w :: w in SlotValues(j, i) ==> w.slot == i && HoldsValueOf(j.desired, w) && !IsSwitch(w)
  {
  }

  lemma {:induction false} OnsAre(j: Job, n: nat)
    requires ValidJob(j) && n <= SLOTS
    ensures forall w :: w in Ons(j, n) ==> w.SwitchOn? && w.slot < n && j.desired[w.slot].enabled
  {
    if n == 0 {
    } else {
      OnsAre(j, n - 1);
    }
  }

  /** The write gives the slot its planned current or window. */
  predicate HoldsValueOf(desired: seq<Slot>, w: Write)
    requires |desired| == SLOTS
  {
    match w
    case SwitchOff(i) => !desired[i].enabled
    case SwitchOn(i) => desired[i].enabled
    case SetCurrent(i, amps) => amps == desired[i].current
    case SetWindow(i, range) => range == desired[i].window
  }

  lemma AllWritesAre(j: Job)
    requires ValidJob(j)
    ensures forall w :: w in AllWrites(j) ==> HoldsValueOf(j.desired, w)
  {
    WritesAre(j, SLOTS);
  }

  /** The value is known to be the wanted one, so that it need not be written: read live for a
      slot that is to run, remembered by Home Assistant for one that is not. */
  predicate KnownToHold(j: Job, w: Write)
    requires ValidJob(j)
  {
    match w
    case SwitchOff(i) => i !in j.live.switches
    case SwitchOn(i) => i in j.live.switches
    case SetCurrent(i, amps) => if j.desired[i].enabled then j.live.currents[i] == amps else j.cached[i].current == Some(amps)
    case SetWindow(i, range) => if j.desired[i].enabled then j.live.windows[i] == range else j.cached[i].window == Some(range)
  }

  /** A write is planned exactly when the plan wants what it writes and everything is rewritten
      or it is not known to be there already. */
  lemma PlannedIffNeeded(j: Job, w: Write)
    requires ValidJob(j)
    ensures w in AllWrites(j) <==> HoldsValueOf(j.desired, w) && (j.force || !KnownToHold(j, w))
  {
    OffIff(j, SLOTS, w);
    ValueIff(j, SLOTS, w);
    OnIff(j, SLOTS, w);
  }

  lemma {:induction false} OffIff(j: Job, n: nat, w: Write)
    requires ValidJob(j) && n <= SLOTS
    ensures w in Offs(j, n) <==> w.SwitchOff? && w.slot < n && !j.desired[w.slot].enabled && (j.force || w.slot in j.live.switches)
  {
    if n == 0 {
    } else {
      OffIff(j, n - 1, w);
    }
  }

  lemma {:induction false} OnIff(j: Job, n: nat, w: Write)
    requires ValidJob(j) && n <= SLOTS
    ensures w in Ons(j, n) <==> w.SwitchOn? && w.slot < n && j.desired[w.slot].enabled && (j.force || w.slot !in j.live.switches)
  {
    if n == 0 {
    } else {
      OnIff(j, n - 1, w);
    }
  }

  lemma {:induction false} ValueIff(j: Job, n: nat, w: Write)
    requires ValidJob(j) && n <= SLOTS
    ensures w in Values(j, n) <==> !IsSwitch(w) && w.slot < n && HoldsValueOf(j.desired, w) && (j.force || !KnownToHold(j, w))
  {
    if n == 0 {
    } else {
      ValueIff(j, n - 1, w);
      SlotValueIff(j, n - 1, w);
    }
  }

  lemma SlotValueIff(j: Job, i: nat, w: Write)
    requires ValidJob(j) && i < SLOTS
    ensures w in SlotValues(j, i) <==> !IsSwitch(w) && w.slot == i && HoldsValueOf(j.desired, w) && (j.force || !KnownToHold(j, w))
  {
  }

  /** Switch-offs come first, then values, then switch-ons; in each phase slot by slot, and the
      current of a slot before its window. */
  function Rank(w: Write): nat {
    match w
    case SwitchOff(i) => i
    case SetCurrent(i, _) => 10 + 2 * i
    case SetWindow(i, _) => 11 + 2 * i
    case SwitchOn(i) => 30 + i
  }

  ghost predicate Ranked(ws: seq<Write>) { forall a, b :: 0 <= a < b < |ws| ==> Rank(ws[a]) < Rank(ws[b]) }

  lemma RankedAppend(a: seq<Write>, b: seq<Write>, bound: nat)
    requires Ranked(a) && Ranked(b)
    requires (forall w :: w in a ==> Rank(w) < bound) && (forall w :: w in b ==> bound <= Rank(w))
    ensures Ranked(a + b)
  {
    var s := a + b;
    forall i, k | 0 <= i < k < |s| ensures Rank(s[i]) < Rank(s[k]) {
      if i < |a| <= k {
        assert s[i] in a && s[k] in b;
      }
    }
  }

  /** The order of the planned writes, in which none is there twice. */
  lemma WritesAreRanked(j: Job)
    requires ValidJob(j)
    ensures Ranked(AllWrites(j))
  {
    OffsRanked(j, SLOTS);
    ValuesRanked(j, SLOTS);
    OnsRanked(j, SLOTS);
    WritesAre(j, SLOTS);
    ValuesBelow(j, SLOTS);
    RankedAppend(Offs(j, SLOTS), Values(j, SLOTS), 10);
    RankedAppend(Offs(j, SLOTS) + Values(j, SLOTS), Ons(j, SLOTS), 30);
  }

  lemma {:induction false} OffsRanked(j: Job, n: nat)
    requires ValidJob(j) && n <= SLOTS
    ensures Ranked(Offs(j, n))
  {
    if n == 0 {
    } else {
      OffsRanked(j, n - 1);
      OffsAre(j, n - 1);
      OffsAre(j, n);
      if NeedSwitch(j, n - 1) && !j.desired[n - 1].enabled {
        RankedAppend(Offs(j, n - 1), [SwitchOff(n - 1)], n - 1);
      }
    }
  }

  lemma {:induction false} OnsRanked(j: Job, n: nat)
    requires ValidJob(j) && n <= SLOTS
    ensures Ranked(Ons(j, n))
  {
    if n == 0 {
    } else {
      OnsRanked(j, n - 1);
      OnsAre(j, n - 1);
      if NeedSwitch(j, n - 1) && j.desired[n - 1].enabled {
        RankedAppend(Ons(j, n - 1), [SwitchOn(n - 1)], 30 + n - 1);
      }
    }
  }

  lemma ValuesBelow(j: Job, n: nat)
    requires ValidJob(j) && n <= SLOTS
    ensures forall w :: w in Values(j, n) ==> 10 <= Rank(w) < 10 + 2 * n
  {
    ValuesAre(j, n);
  }

  lemma SlotValuesRanked(j: Job, i: nat)
    requires ValidJob(j) && i < SLOTS
    ensures Ranked(SlotValues(j, i)) && forall w :: w in SlotValues(j, i) ==> 10 + 2 * i <= Rank(w)
  {
    SlotValuesAre(j, i);
  }

  lemma {:induction false} ValuesRanked(j: Job, n: nat)
    requires ValidJob(j) && n <= SLOTS
    ensures Ranked(Values(j, n))
  {
    if n == 0 {
    } else {
      ValuesRanked(j, n - 1);
      ValuesBelow(j, n - 1);
      SlotValuesRanked(j, n - 1);
      RankedAppend(Values(j, n - 1), SlotValues(j, n - 1), 10 + 2 * (n - 1));
    }
  }

  /** The registers at the stopping point after `k` writes. */
  function At(j: Job, k: nat): Registers
    requires ValidJob(j) && k <= |AllWrites(j)|
  {
    AllWritesAre(j);
    After(j.live, AllWrites(j)[..k])
  }

  lemma AtNext(j: Job, k: nat)
    requires ValidJob(j) && k < |AllWrites(j)|
    ensures WellFormed(At(j, k)) && At(j, k + 1) == Done(At(j, k), AllWrites(j)[k])
  {
    AllWritesAre(j);
    assert AllWrites(j)[..k + 1][..k] == AllWrites(j)[..k];
    assert AllWrites(j)[k] in AllWrites(j);
  }

  // ---------- _apply ----------

  datatype ApplyResult = Failed | Mismatch | Wrote(count: nat)

  /** No slot that the plan disables is on. */
  ghost predicate NoDisabledOn(desired: seq<Slot>, regs: Registers) {
    forall i: nat :: i < |desired| && !desired[i].enabled ==> i !in regs.switches
  }

  /** Every slot that the plan enables has its planned window and current. */
  ghost predicate EnabledHold(desired: seq<Slot>, regs: Registers) {
    forall i: nat :: i < |desired| && desired[i].enabled ==>
      i < |regs.windows| && i < |regs.currents|
      && regs.windows[i] == desired[i].window && regs.currents[i] == desired[i].current
  }

  predicate SlotProgrammed(desired: seq<Slot>, regs: Registers, i: nat)
    requires i < |desired|
  {
    && (i in regs.switches) == desired[i].enabled
    && (desired[i].enabled ==>
          i < |regs.windows| && i < |regs.currents|
          && regs.windows[i] == desired[i].window && regs.currents[i] == desired[i].current)
  }

  /** The switches of the plan's slots are as planned, and those that run hold their values. */
  ghost predicate Programmed(desired: seq<Slot>, regs: Registers) {
    forall i: nat :: i < |desired| ==> SlotProgrammed(desired, regs, i)
  }

  method Plan(j: Job) returns (writes: seq<Write>)
    requires ValidJob(j)
    ensures writes == AllWrites(j)
  {
    var offs, values, ons := [], [], [];
    var i := 0;
    while i < SLOTS
      invariant 0 <= i <= SLOTS
      invariant offs == Offs(j, i) && values == Values(j, i) && ons == Ons(j, i)
    {
      var d := j.desired[i];
      if NeedSwitch(j, i) {
        if d.enabled {
          ons := ons + [SwitchOn(i)];
        } else {
          offs := offs + [SwitchOff(i)];
        }
      }
      if NeedCurrent(j, i) {
        values := values + [SetCurrent(i, d.current)];
      }
      if NeedWindow(j, i) {
        values := values + [SetWindow(i, d.window)];
      }
      i := i + 1;
    }
    return offs + values + ons;
  }

  /** Every POST of a run leaves the registers at a stopping point of the plan: just before or
      just after the write it makes. */
  ghost predicate OnTrack(j: Job, p: Posted)
    requires ValidJob(j)
  {
    exists k: nat :: k < |AllWrites(j)| && p.write == AllWrites(j)[k] && (p.after == At(j, k) || p.after == At(j, k + 1))
  }

  ghost predicate AtSomePoint(j: Job, regs: Registers)
    requires ValidJob(j)
  {
    exists k: nat :: k <= |AllWrites(j)| && regs == At(j, k)
  }

  /** Posting the write that comes next: the registers stay on the track, and on success stand
      at the next stopping point with the switch register known. */
  method PostNext(inv: Inverter, j: Job, k: nat, raw: set<nat>) returns (ok: bool, next: set<nat>)
    requires ValidJob(j) && k < |AllWrites(j)| && inv.regs == At(j, k) && raw == inv.regs.switches
    modifies inv
    ensures |old(inv.log)| <= |inv.log| && inv.log[..|old(inv.log)|] == old(inv.log)
    ensures forall m :: |old(inv.log)| <= m < |inv.log| ==> OnTrack(j, inv.log[m])
    ensures AtSomePoint(j, inv.regs)
    ensures ok ==> inv.regs == At(j, k + 1) && next == inv.regs.switches && inv.unanswered == old(inv.unanswered)
    ensures !ok ==> inv.unanswered > old(inv.unanswered) || GivenUp(inv.log, |old(inv.log)|)
  {
    var w := AllWrites(j)[k];
    AtNext(j, k);
    PointIsAPoint(j, k);
    PointIsAPoint(j, k + 1);
    var r := inv.Write(w, raw, j.force);
    forall m | |old(inv.log)| <= m < |inv.log| ensures OnTrack(j, inv.log[m]) {
      StepOnTrack(j, k, inv.log[m]);
    }
    if r.Raised? {
      return false, raw;
    }
    if !IsSwitch(w) {
      return true, raw;
    }
    if r.echo.Some? {
      return true, r.echo.value;
    }
    var answers := inv.Answers();
    return answers, inv.regs.switches;
  }

  /** Posting the planned writes in order, threading the switch register from each to the next. */
  method Execute(inv: Inverter, j: Job, writes: seq<Write>) returns (ok: bool)
    requires ValidJob(j) && j.live == inv.regs && writes == AllWrites(j)
    modifies inv
    ensures |old(inv.log)| <= |inv.log| && inv.log[..|old(inv.log)|] == old(inv.log)
    ensures forall m :: |old(inv.log)| <= m < |inv.log| ==> OnTrack(j, inv.log[m])
    ensures AtSomePoint(j, inv.regs)
    ensures ok ==> inv.regs == At(j, |writes|) && inv.unanswered == old(inv.unanswered)
    ensures !ok ==> inv.unanswered > old(inv.unanswered) || GivenUp(inv.log, |old(inv.log)|)
  {
    StartIsAPoint(j);
    var raw, k := inv.regs.switches, 0;
    ok := true;
    while k < |writes| && ok
      invariant 0 <= k <= |writes| && AtSomePoint(j, inv.regs)
      invariant ok ==> inv.regs == At(j, k) && raw == inv.regs.switches && inv.unanswered == old(inv.unanswered)
      invariant !ok ==> inv.unanswered > old(inv.unanswered) || GivenUp(inv.log, |old(inv.log)|)
      invariant |old(inv.log)| <= |inv.log| && inv.log[..|old(inv.log)|] == old(inv.log)
      invariant forall m :: |old(inv.log)| <= m < |inv.log| ==> OnTrack(j, inv.log[m])
      decreases |writes| - k, ok
    {
      ghost var before := inv.log;
      ok, raw := PostNext(inv, j, k, raw);
      TrackGrows(j, |old(inv.log)|, before, inv.log);
      k := k + 1;
    }
  }

  lemma TrackGrows(j: Job, from: nat, before: seq<Posted>, after: seq<Posted>)
    requires ValidJob(j) && from <= |before| <= |after| && after[..|before|] == before
    requires forall m :: from <= m < |before| ==> OnTrack(j, before[m])
    requires forall m :: |before| <= m < |after| ==> OnTrack(j, after[m])
    ensures after[..from] == before[..from] && forall m :: from <= m < |after| ==> OnTrack(j, after[m])
  {
    forall m | from <= m < |before| ensures OnTrack(j, after[m]) {
      assert after[m] == after[..|before|][m] == before[m];
    }
  }

  lemma StepOnTrack(j: Job, k: nat, p: Posted)
    requires ValidJob(j) && k < |AllWrites(j)|
    requires p.write == AllWrites(j)[k] && (p.after == At(j, k) || p.after == At(j, k + 1))
    ensures OnTrack(j, p)
  {
  }

  lemma PointIsAPoint(j: Job, k: nat)
    requires ValidJob(j) && k <= |AllWrites(j)|
    ensures AtSomePoint(j, At(j, k))
  {
  }

  lemma StartIsAPoint(j: Job)
    requires ValidJob(j)
    ensures AtSomePoint(j, j.live) && At(j, 0) == j.live
  {
    assert AllWrites(j)[..0] == [];
    assert At(j, 0) == j.live;
  }

  /** The read-back of every switch and of the values of every slot that runs; None when a
      read raises. */
  method ReadBack(inv: Inverter, desired: seq<Slot>) returns (bad: Option<bool>)
    requires |desired| == SLOTS && WellFormed(inv.regs)
    modifies inv`unanswered
    ensures bad.Some? ==> (bad.value <==> !Programmed(desired, inv.regs)) && inv.unanswered == old(inv.unanswered)
    ensures bad.None? ==> inv.unanswered > old(inv.unanswered)
  {
    var wrong, i := false, 0;
    while i < SLOTS
      invariant 0 <= i <= SLOTS && inv.unanswered == old(inv.unanswered)
      invariant wrong <==> exists k: nat :: k < i && !SlotProgrammed(desired, inv.regs, k)
    {
      var answers := inv.Answers();
      if !answers {
        return None;
      }
      if !SlotProgrammed(desired, inv.regs, i) {
        wrong := true;
      }
      i := i + 1;
    }
    return Some(wrong);
  }

  /** _apply, from the reads of the current state on. The run stays on the plan's track
      wherever it stops, a normal end leaves the inverter programmed, and the read-back never
      finds anything else. It fails only on a read that raises, a refusal or four busy answers:
      if every POST is acknowledged and every read answers, it ends normally. */
  method Apply(inv: Inverter, desired: seq<Slot>, cached: seq<Cached>, force: bool) returns (result: ApplyResult)
    requires |desired| == SLOTS && |cached| == SLOTS && WellFormed(inv.regs)
    modifies inv
    ensures |old(inv.log)| <= |inv.log| && inv.log[..|old(inv.log)|] == old(inv.log)
    ensures forall m :: |old(inv.log)| <= m < |inv.log| ==>
      OnTrack(Job(desired, old(inv.regs), cached, force), inv.log[m])
    ensures AtSomePoint(Job(desired, old(inv.regs), cached, force), inv.regs)
    ensures result != Mismatch
    ensures result.Wrote? ==> Programmed(desired, inv.regs)
    ensures result.Wrote? ==> result.count == |AllWrites(Job(desired, old(inv.regs), cached, force))|
    ensures result.Wrote? ==> inv.unanswered == old(inv.unanswered)
    ensures result.Failed? ==> inv.unanswered > old(inv.unanswered) || GivenUp(inv.log, |old(inv.log)|)
    ensures inv.unanswered == old(inv.unanswered) && (forall m :: |old(inv.log)| <= m < |inv.log| ==> inv.log[m].answer.Acked?)
      ==> result.Wrote?
  {
    var j := Job(desired, inv.regs, cached, force);
    StartIsAPoint(j);
    FullRunPrograms(j);
    var answers := inv.Answers();
    if !answers {
      return Failed;
    }
    var writes := Plan(j);
    if writes == [] {
      return Wrote(0);
    }
    var ok := Execute(inv, j, writes);
    if !ok {
      return Failed;
    }
    AllWritesAre(j);
    var bad := ReadBack(inv, desired);
    return match bad { case None => Failed case Some(b) => if b then Mismatch else Wrote(|writes|) };
  }

  // ---------- what holds at every stopping point ----------

  lemma PrefixSplits(j: Job, k: nat)
    requires ValidJob(j) && k <= |AllWrites(j)|
    ensures k >= |Offs(j, SLOTS)| ==>
      AllWrites(j)[..k] == Offs(j, SLOTS) + (Values(j, SLOTS) + Ons(j, SLOTS))[..k - |Offs(j, SLOTS)|]
    ensures k >= |Offs(j, SLOTS)| + |Values(j, SLOTS)| ==>
      AllWrites(j)[..k] == (Offs(j, SLOTS) + Values(j, SLOTS)) + Ons(j, SLOTS)[..k - |Offs(j, SLOTS)| - |Values(j, SLOTS)|]
  {
  }

  ghost predicate OffsDone(j: Job, n: nat, r: Registers)
    requires ValidJob(j)
  {
    && r.windows == j.live.windows && r.currents == j.live.currents
    && (forall i: nat :: i < n && i < SLOTS && !j.desired[i].enabled ==> i !in r.switches)
    && (forall i: nat :: i >= n || i >= SLOTS || j.desired[i].enabled ==> (i in r.switches <==> i in j.live.switches))
  }

  /** Doing the first `n` slots' switch-offs: those slots are off, and nothing else changed. */
  lemma {:induction false} AfterOffs(j: Job, n: nat)
    requires ValidJob(j) && n <= SLOTS
    ensures OffsDone(j, n, After(j.live, Offs(j, n)))
  {
    if n == 0 {
    } else {
      AfterOffs(j, n - 1);
      var r := After(j.live, Offs(j, n - 1));
      if NeedSwitch(j, n - 1) && !j.desired[n - 1].enabled {
        AfterSnoc(j.live, Offs(j, n - 1), SwitchOff(n - 1));
      } else {
        assert Offs(j, n) == Offs(j, n - 1);
      }
      OffStep(j, n, r);
    }
  }

  lemma OffStep(j: Job, n: nat, r: Registers)
    requires ValidJob(j) && 0 < n <= SLOTS && WellFormed(r) && OffsDone(j, n - 1, r)
    ensures OffsDone(j, n, if NeedSwitch(j, n - 1) && !j.desired[n - 1].enabled then Done(r, SwitchOff(n - 1)) else r)
  {
  }

  ghost predicate ValuesDone(j: Job, n: nat, before: Registers, r: Registers)
    requires ValidJob(j) && n <= SLOTS && WellFormed(r)
  {
    && r.switches == before.switches
    && (forall i: nat :: i < n && j.desired[i].enabled ==>
          r.windows[i] == j.desired[i].window && r.currents[i] == j.desired[i].current)
    && (forall i: nat :: n <= i < SLOTS ==> r.windows[i] == j.live.windows[i] && r.currents[i] == j.live.currents[i])
  }

  /** Doing the first `n` slots' values: those slots that will run hold theirs, the windows
      of later slots and every switch are untouched. */
  lemma {:induction false} AfterValues(j: Job, regs: Registers, n: nat)
    requires ValidJob(j) && n <= SLOTS && WellFormed(regs)
    requires regs.windows == j.live.windows && regs.currents == j.live.currents
    ensures ValuesDone(j, n, regs, After(regs, Values(j, n)))
  {
    if n == 0 {
    } else {
      AfterValues(j, regs, n - 1);
      AfterAppend(regs, Values(j, n - 1), SlotValues(j, n - 1));
      AfterSlotValues(j, After(regs, Values(j, n - 1)), n - 1);
    }
  }

  lemma AfterSlotValues(j: Job, regs: Registers, i: nat)
    requires ValidJob(j) && i < SLOTS && WellFormed(regs)
    requires regs.windows[i] == j.live.windows[i] && regs.currents[i] == j.live.currents[i]
    ensures var r := After(regs, SlotValues(j, i));
      && r.switches == regs.switches
      && (j.desired[i].enabled ==> r.windows[i] == j.desired[i].window && r.currents[i] == j.desired[i].current)
      && (forall k: nat :: k < SLOTS && k != i ==> r.windows[k] == regs.windows[k] && r.currents[k] == regs.currents[k])
  {
    var c, w := SetCurrent(i, j.desired[i].current), SetWindow(i, j.desired[i].window);
    AfterSnoc(regs, [], c);
    AfterSnoc(regs, [], w);
    AfterSnoc(regs, [c], w);
    assert [] + [c] == [c] && [] + [w] == [w] && [c] + [w] == [c, w];
    assert SlotValues(j, i) == if NeedCurrent(j, i) then if NeedWindow(j, i) then [c, w] else [c]
                               else if NeedWindow(j, i) then [w] else [];
  }

  /** Values and switch-ons never turn on what the plan disables. */
  lemma {:induction false} NoDisabledStays(desired: seq<Slot>, regs: Registers, ws: seq<Write>)
    requires WellFormed(regs) && |desired| == SLOTS && NoDisabledOn(desired, regs)
    requires forall w :: w in ws ==> HoldsValueOf(desired, w)
    ensures NoDisabledOn(desired, After(regs, ws))
  {
    if ws == [] {
    } else {
      NoDisabledStays(desired, regs, ws[..|ws| - 1]);
      assert ws[|ws| - 1] in ws;
    }
  }

  /** Switch writes never change a window or a current. */
  lemma {:induction false} SwitchesKeepValues(regs: Registers, ws: seq<Write>)
    requires WellFormed(regs) && forall w :: w in ws ==> IsSwitch(w)
    ensures After(regs, ws).windows == regs.windows && After(regs, ws).currents == regs.currents
  {
    if ws == [] {
    } else {
      SwitchesKeepValues(regs, ws[..|ws| - 1]);
      assert ws[|ws| - 1] in ws;
    }
  }

  lemma PastOffs(j: Job, k: nat)
    requires ValidJob(j) && |Offs(j, SLOTS)| <= k <= |AllWrites(j)|
    ensures NoDisabledOn(j.desired, At(j, k))
  {
    AllWritesAre(j);
    PrefixSplits(j, k);
    var offs, rest := Offs(j, SLOTS), (Values(j, SLOTS) + Ons(j, SLOTS))[..k - |Offs(j, SLOTS)|];
    assert forall w :: w in rest ==> w in AllWrites(j);
    AfterOffs(j, SLOTS);
    AfterAppend(j.live, offs, rest);
    NoDisabledStays(j.desired, After(j.live, offs), rest);
  }

  /** The switch-offs, then the values of the first `n` slots. */
  lemma AfterBoth(j: Job, n: nat) returns (cleared: Registers, r: Registers)
    requires ValidJob(j) && n <= SLOTS
    ensures r == After(j.live, Offs(j, SLOTS) + Values(j, n))
    ensures WellFormed(r) && OffsDone(j, SLOTS, cleared) && ValuesDone(j, n, cleared, r)
  {
    AfterOffs(j, SLOTS);
    cleared := After(j.live, Offs(j, SLOTS));
    AfterValues(j, cleared, n);
    AfterAppend(j.live, Offs(j, SLOTS), Values(j, n));
    r := After(cleared, Values(j, n));
  }

  lemma PastValues(j: Job, k: nat)
    requires ValidJob(j) && |Offs(j, SLOTS)| + |Values(j, SLOTS)| <= k <= |AllWrites(j)|
    ensures EnabledHold(j.desired, At(j, k))
  {
    AllWritesAre(j);
    PrefixSplits(j, k);
    var cleared, valued := AfterBoth(j, SLOTS);
    var ons := Ons(j, SLOTS);
    var rest := ons[..k - |Offs(j, SLOTS)| - |Values(j, SLOTS)|];
    WritesAre(j, SLOTS);
    assert forall w :: w in rest ==> w in ons;
    AfterAppend(j.live, Offs(j, SLOTS) + Values(j, SLOTS), rest);
    SwitchesKeepValues(valued, rest);
    ValuedHolds(j, cleared, valued, At(j, k));
  }

  lemma ValuedHolds(j: Job, cleared: Registers, valued: Registers, r: Registers)
    requires ValidJob(j) && WellFormed(valued) && WellFormed(r) && ValuesDone(j, SLOTS, cleared, valued)
    requires r.windows == valued.windows && r.currents == valued.currents
    ensures EnabledHold(j.desired, r)
  {
  }

  /** The phase a write belongs to gives the place it stands at. */
  lemma PhaseOf(j: Job, k: nat)
    requires ValidJob(j) && k < |AllWrites(j)|
    ensures !AllWrites(j)[k].SwitchOff? ==> k >= |Offs(j, SLOTS)|
    ensures AllWrites(j)[k].SwitchOn? ==> k >= |Offs(j, SLOTS)| + |Values(j, SLOTS)|
  {
    WritesAre(j, SLOTS);
    InOnePart(Offs(j, SLOTS), Values(j, SLOTS), Ons(j, SLOTS), k);
  }

  lemma InOnePart(a: seq<Write>, b: seq<Write>, c: seq<Write>, k: nat)
    requires k < |a + b + c|
    ensures k < |a| ==> (a + b + c)[k] in a
    ensures |a| <= k < |a| + |b| ==> (a + b + c)[k] in b
  {
  }

  /** Partial-failure safety. Whatever was acknowledged, refused or lost, and wherever the run
      stopped: once any window or current has been posted, no slot the plan disables is on;
      once any switch-on has been posted, every slot the plan enables already holds its
      planned window and current. */
  lemma PartialFailureSafety(j: Job, p: Posted)
    requires ValidJob(j) && OnTrack(j, p)
    ensures !p.write.SwitchOff? ==> NoDisabledOn(j.desired, p.after)
    ensures p.write.SwitchOn? ==> EnabledHold(j.desired, p.after)
  {
    var k: nat :| k < |AllWrites(j)| && p.write == AllWrites(j)[k] && (p.after == At(j, k) || p.after == At(j, k + 1));
    SafeAround(j, k);
  }

  lemma SafeAround(j: Job, k: nat)
    requires ValidJob(j) && k < |AllWrites(j)|
    ensures !AllWrites(j)[k].SwitchOff? ==> NoDisabledOn(j.desired, At(j, k)) && NoDisabledOn(j.desired, At(j, k + 1))
    ensures AllWrites(j)[k].SwitchOn? ==> EnabledHold(j.desired, At(j, k)) && EnabledHold(j.desired, At(j, k + 1))
  {
    PhaseOf(j, k);
    if !AllWrites(j)[k].SwitchOff? {
      PastOffs(j, k);
      PastOffs(j, k + 1);
    }
    if AllWrites(j)[k].SwitchOn? {
      PastValues(j, k);
      PastValues(j, k + 1);
    }
  }

  /** At every stopping point each switch, window and current is as found or as planned. No bit
      of the shared register moves with another one, and the bits of slots this program never
      touches are as found. */
  ghost predicate Between(desired: seq<Slot>, found: Registers, regs: Registers)
    requires |desired| == SLOTS && WellFormed(found) && WellFormed(regs)
  {
    && (forall i: nat :: (i in regs.switches) != (i in found.switches) ==>
          i < SLOTS && (i in regs.switches) == desired[i].enabled)
    && (forall i: nat :: i < SLOTS ==> regs.windows[i] == found.windows[i] || regs.windows[i] == desired[i].window)
    && (forall i: nat :: i < SLOTS ==> regs.currents[i] == found.currents[i] || regs.currents[i] == desired[i].current)
  }

  lemma {:induction false} AfterIsBetween(j: Job, ws: seq<Write>)
    requires ValidJob(j) && forall w :: w in ws ==> HoldsValueOf(j.desired, w)
    ensures Between(j.desired, j.live, After(j.live, ws))
  {
    if ws == [] {
    } else {
      AfterIsBetween(j, ws[..|ws| - 1]);
      assert ws[|ws| - 1] in ws;
    }
  }

  lemma NothingElseMoves(j: Job, k: nat)
    requires ValidJob(j) && k <= |AllWrites(j)|
    ensures Between(j.desired, j.live, At(j, k))
  {
    AllWritesAre(j);
    AfterIsBetween(j, AllWrites(j)[..k]);
  }

  ghost predicate OnsDone(j: Job, n: nat, before: Registers, r: Registers)
    requires ValidJob(j)
  {
    && before.switches <= r.switches
    && (forall i: nat :: i < n && i < SLOTS && j.desired[i].enabled && (NeedSwitch(j, i) || i in before.switches) ==>
          i in r.switches)
  }

  lemma {:induction false} AfterOns(j: Job, regs: Registers, n: nat)
    requires ValidJob(j) && n <= SLOTS && WellFormed(regs)
    ensures OnsDone(j, n, regs, After(regs, Ons(j, n)))
  {
    if n == 0 {
    } else {
      AfterOns(j, regs, n - 1);
      var r := After(regs, Ons(j, n - 1));
      if NeedSwitch(j, n - 1) && j.desired[n - 1].enabled {
        AfterSnoc(regs, Ons(j, n - 1), SwitchOn(n - 1));
      } else {
        assert Ons(j, n) == Ons(j, n - 1);
      }
      OnStep(j, n, regs, r);
    }
  }

  lemma OnStep(j: Job, n: nat, before: Registers, r: Registers)
    requires ValidJob(j) && 0 < n <= SLOTS && WellFormed(r) && OnsDone(j, n - 1, before, r)
    ensures OnsDone(j, n, before, if NeedSwitch(j, n - 1) && j.desired[n - 1].enabled then Done(r, SwitchOn(n - 1)) else r)
  {
  }

  /** A run that gets through leaves the inverter programmed as planned. */
  lemma FullRunPrograms(j: Job)
    requires ValidJob(j)
    ensures Programmed(j.desired, At(j, |AllWrites(j)|))
  {
    AllWritesAre(j);
    var offs, values, ons := Offs(j, SLOTS), Values(j, SLOTS), Ons(j, SLOTS);
    assert AllWrites(j)[..|AllWrites(j)|] == (offs + values) + ons;
    var end := At(j, |AllWrites(j)|);
    PastOffs(j, |AllWrites(j)|);
    PastValues(j, |AllWrites(j)|);
    var cleared, valued := AfterBoth(j, SLOTS);
    AfterAppend(j.live, offs + values, ons);
    AfterOns(j, valued, SLOTS);
    PhasesProgram(j, cleared, valued, end);
  }

  lemma PhasesProgram(j: Job, cleared: Registers, valued: Registers, end: Registers)
    requires ValidJob(j) && WellFormed(valued)
    requires OffsDone(j, SLOTS, cleared) && ValuesDone(j, SLOTS, cleared, valued) && OnsDone(j, SLOTS, valued, end)
    requires NoDisabledOn(j.desired, end) && EnabledHold(j.desired, end)
    ensures Programmed(j.desired, end)
  {
  }

  /** Nothing at all is written exactly when no rewrite is forced, every switch is as planned,
      and every slot's values, live or cached, are the planned ones. */
  lemma NothingToWriteIff(j: Job)
    requires ValidJob(j)
    ensures AllWrites(j) == [] <==>
      !j.force && forall i: nat :: i < SLOTS ==>
        && (i in j.live.switches) == j.desired[i].enabled
        && Known(j, i) == Cached(Some(j.desired[i].window), Some(j.desired[i].current))
  {
    assert |AllWrites(j)| == |Offs(j, SLOTS)| + |Values(j, SLOTS)| + |Ons(j, SLOTS)|;
    forall i: nat | i < SLOTS
      ensures !NeedCurrent(j, i) && !NeedWindow(j, i) <==>
        !j.force && Known(j, i) == Cached(Some(j.desired[i].window), Some(j.desired[i].current))
      ensures AllWrites(j) == [] ==> !NeedSwitch(j, i) && !NeedCurrent(j, i) && !NeedWindow(j, i)
    {
      EmptyPlan(j, SLOTS, i);
    }
    if forall i: nat :: i < SLOTS ==> !NeedSwitch(j, i) && !NeedCurrent(j, i) && !NeedWindow(j, i) {
      NoNeedNoWrite(j, SLOTS);
    }
    assert j.force ==> NeedSwitch(j, 0);
  }

  lemma {:induction false} EmptyPlan(j: Job, n: nat, i: nat)
    requires ValidJob(j) && i < n <= SLOTS
    ensures Offs(j, n) == [] && Values(j, n) == [] && Ons(j, n) == [] ==>
      !NeedSwitch(j, i) && !NeedCurrent(j, i) && !NeedWindow(j, i)
  {
    if i >= n - 1 {
    } else {
      EmptyPlan(j, n - 1, i);
    }
  }

  lemma {:induction false} NoNeedNoWrite(j: Job, n: nat)
    requires ValidJob(j) && n <= SLOTS
    requires forall i: nat :: i < SLOTS ==> !NeedSwitch(j, i) && !NeedCurrent(j, i) && !NeedWindow(j, i)
    ensures Offs(j, n) == [] && Values(j, n) == [] && Ons(j, n) == []
  {
    if n == 0 {
    } else {
      NoNeedNoWrite(j, n - 1);
    }
  }

  // ---------- a stale slot next to a new one ----------

  /** The slot runs on something the plan does not want. */
  predicate StaleLive(j: Job, regs: Registers, i: nat)
    requires ValidJob(j) && WellFormed(regs)
  {
    i < SLOTS && i in regs.switches && (!j.desired[i].enabled || regs.windows[i] != j.desired[i].window)
  }

  /** The slot runs its planned window, and did not before this run. */
  predicate NewLive(j: Job, regs: Registers, i: nat)
    requires ValidJob(j) && WellFormed(regs)
  {
    && i < SLOTS && i in regs.switches && j.desired[i].enabled && regs.windows[i] == j.desired[i].window
    && (i !in j.live.switches || j.live.windows[i] != j.desired[i].window)
  }

  ghost predicate StaleNextToNew(j: Job, k: nat)
    requires ValidJob(j) && k <= |AllWrites(j)|
  {
    exists a, b :: StaleLive(j, At(j, k), a) && NewLive(j, At(j, k), b)
  }

  /** The slot is on, stays on, and gets another window. */
  predicate KeptAndMoved(j: Job, i: nat)
    requires ValidJob(j)
  {
    i < SLOTS && i in j.live.switches && j.desired[i].enabled && j.live.windows[i] != j.desired[i].window
  }

  lemma BeforeValues(j: Job, k: nat)
    requires ValidJob(j) && k <= |Offs(j, SLOTS)|
    ensures k <= |AllWrites(j)| && At(j, k).windows == j.live.windows && At(j, k).switches <= j.live.switches
  {
    AllWritesAre(j);
    WritesAre(j, SLOTS);
    var ws := Offs(j, SLOTS)[..k];
    assert AllWrites(j)[..k] == ws;
    assert forall w :: w in ws ==> w in Offs(j, SLOTS);
    SwitchesKeepValues(j.live, ws);
    OffsOnlyClear(j.live, ws);
  }

  lemma {:induction false} OffsOnlyClear(regs: Registers, ws: seq<Write>)
    requires WellFormed(regs) && forall w :: w in ws ==> w.SwitchOff?
    ensures After(regs, ws).switches <= regs.switches
  {
    if ws == [] {
    } else {
      OffsOnlyClear(regs, ws[..|ws| - 1]);
      assert ws[|ws| - 1] in ws;
    }
  }

  lemma {:induction false} ValuesKeepSwitches(regs: Registers, ws: seq<Write>)
    requires WellFormed(regs) && forall w :: w in ws ==> !IsSwitch(w)
    ensures After(regs, ws).switches == regs.switches
  {
    if ws == [] {
    } else {
      ValuesKeepSwitches(regs, ws[..|ws| - 1]);
      assert ws[|ws| - 1] in ws;
    }
  }

  lemma DuringValues(j: Job, k: nat)
    requires ValidJob(j) && |Offs(j, SLOTS)| <= k <= |Offs(j, SLOTS)| + |Values(j, SLOTS)|
    ensures k <= |AllWrites(j)| && At(j, k).switches <= j.live.switches
  {
    AllWritesAre(j);
    WritesAre(j, SLOTS);
    var offs := Offs(j, SLOTS);
    var ws := Values(j, SLOTS)[..k - |offs|];
    assert AllWrites(j)[..k] == offs + ws;
    assert forall w :: w in ws ==> w in Values(j, SLOTS);
    AfterAppend(j.live, offs, ws);
    ValuesKeepSwitches(After(j.live, offs), ws);
    OffsOnlyClear(j.live, offs);
  }

  lemma {:induction false} ValuesPrefix(j: Job, m: nat, n: nat)
    requires ValidJob(j) && m <= n <= SLOTS
    ensures Values(j, m) <= Values(j, n)
  {
    if m >= n {
    } else {
      ValuesPrefix(j, m, n - 1);
    }
  }

  lemma MixedNeedsTwo(j: Job, k: nat, a: nat, b: nat)
    requires ValidJob(j) && k <= |AllWrites(j)|
    requires StaleLive(j, At(j, k), a) && NewLive(j, At(j, k), b)
    ensures a != b && KeptAndMoved(j, a) && KeptAndMoved(j, b)
  {
    NothingElseMoves(j, k);
    if k <= |Offs(j, SLOTS)| {
      BeforeValues(j, k);
    }
    if k >= |Offs(j, SLOTS)| {
      PastOffs(j, k);
    }
    if k >= |Offs(j, SLOTS)| + |Values(j, SLOTS)| {
      PastValues(j, k);
    } else if k >= |Offs(j, SLOTS)| {
      DuringValues(j, k);
    }
  }

  /** apply_schedule says that a failure part-way can never leave a stale slot live next to a
      new one. That holds exactly when at most one slot is on, stays on and changes its
      window: two such slots are rewritten one after the other, and a run that stops between
      them leaves the second one running its old window beside the first one's new window. */
  lemma StaleNextToNewIff(j: Job)
    requires ValidJob(j)
    ensures (exists k: nat :: k <= |AllWrites(j)| && StaleNextToNew(j, k)) <==>
            (exists a: nat, b: nat :: a < b && KeptAndMoved(j, a) && KeptAndMoved(j, b))
  {
    if k: nat :| k <= |AllWrites(j)| && StaleNextToNew(j, k) {
      var a, b :| StaleLive(j, At(j, k), a) && NewLive(j, At(j, k), b);
      MixedNeedsTwo(j, k, a, b);
    }
    if a: nat, b: nat :| a < b && KeptAndMoved(j, a) && KeptAndMoved(j, b) {
      var k := TwoMovedMix(j, a, b);
    }
  }

  lemma TwoMovedMix(j: Job, a: nat, b: nat) returns (k: nat)
    requires ValidJob(j) && a < b && KeptAndMoved(j, a) && KeptAndMoved(j, b)
    ensures k <= |AllWrites(j)| && StaleNextToNew(j, k)
  {
    var r: Registers;
    k, r := PointInValues(j, a + 1);
    assert StaleLive(j, r, b) && NewLive(j, r, a);
  }

  /** An input: charge slots 1 and 2 are on from 00:00 to 01:00 and are to run from 02:00 to
      03:00 instead. */
  lemma StaleNextToNewHappens() returns (j: Job, k: nat)
    ensures ValidJob(j) && !j.force && j.live.switches == {0, 1}
    ensures j.live.windows[0] == j.live.windows[1] == Range(0, 60)
    ensures j.desired[0] == j.desired[1] == Slot(true, Range(120, 180), CHARGE_CURRENT)
    ensures k <= |AllWrites(j)| && StaleNextToNew(j, k)
  {
    var live := Registers({0, 1}, seq(SLOTS, _ => Range(0, 60)), seq(SLOTS, _ => CHARGE_CURRENT));
    var desired := seq(SLOTS, i => if i < 2 then Slot(true, Range(120, 180), CHARGE_CURRENT) else DISABLED);
    j := Job(desired, live, seq(SLOTS, _ => Cached(None, None)), false);
    k := TwoMovedMix(j, 0, 1);
  }

  /** The stopping point after the values of the first `n` slots. */
  ghost predicate ValuesPoint(j: Job, n: nat, r: Registers)
    requires ValidJob(j) && n <= SLOTS && WellFormed(r)
  {
    && (forall i: nat :: i < SLOTS && j.desired[i].enabled ==> (i in r.switches <==> i in j.live.switches))
    && (forall i: nat :: i < n && j.desired[i].enabled ==> r.windows[i] == j.desired[i].window)
    && (forall i: nat :: n <= i < SLOTS ==> r.windows[i] == j.live.windows[i])
  }

  lemma PointInValues(j: Job, n: nat) returns (k: nat, r: Registers)
    requires ValidJob(j) && n <= SLOTS
    ensures k == |Offs(j, SLOTS)| + |Values(j, n)| <= |AllWrites(j)| && r == At(j, k)
    ensures WellFormed(r) && ValuesPoint(j, n, r)
  {
    var cleared: Registers;
    cleared, r := AfterBoth(j, n);
    PhasesMeet(j, n, cleared, r);
    PrefixOfValues(j, n);
    k := |Offs(j, SLOTS)| + |Values(j, n)|;
    AtPrefix(j, k, Offs(j, SLOTS) + Values(j, n));
  }

  lemma AtPrefix(j: Job, k: nat, ws: seq<Write>)
    requires ValidJob(j) && k <= |AllWrites(j)| && AllWrites(j)[..k] == ws
    ensures At(j, k) == After(j.live, ws)
  {
  }

  lemma PrefixOfValues(j: Job, n: nat)
    requires ValidJob(j) && n <= SLOTS
    ensures |Offs(j, SLOTS)| + |Values(j, n)| <= |AllWrites(j)|
    ensures AllWrites(j)[..|Offs(j, SLOTS)| + |Values(j, n)|] == Offs(j, SLOTS) + Values(j, n)
  {
    ValuesPrefix(j, n, SLOTS);
    PrefixOfParts(Offs(j, SLOTS), Values(j, n), Values(j, SLOTS), Ons(j, SLOTS));
  }

  lemma PrefixOfParts(a: seq<Write>, some: seq<Write>, b: seq<Write>, c: seq<Write>)
    requires some <= b
    ensures |a| + |some| <= |a + b + c| && (a + b + c)[..|a| + |some|] == a + some
  {
  }

  lemma PhasesMeet(j: Job, n: nat, before: Registers, r: Registers)
    requires ValidJob(j) && n <= SLOTS && WellFormed(r)
    requires OffsDone(j, SLOTS, before) && ValuesDone(j, n, before, r)
    ensures ValuesPoint(j, n, r)
  {
  }

  // ---------- from the plan to the running inverter ----------

  /** _desired_slots, for one kind. */
  function KindSlots(ws: seq<Window>, amps: int, offset: int): (slots: seq<Slot>)
    ensures |slots| == MAX_SLOTS
  {
    seq(MAX_SLOTS, i requires 0 <= i => if i < |ws| then Slot(true, WrittenRange(ws[i], offset), amps) else DISABLED)
  }

  function Desired(charge: seq<Window>, discharge: seq<Window>, offset: int): (slots: seq<Slot>)
    ensures |slots| == SLOTS
  {
    KindSlots(charge, CHARGE_CURRENT, offset) + KindSlots(discharge, DISCHARGE_CURRENT, offset)
  }

  /** Some charge slot may be drawing from the grid when the inverter's clock shows `clock`. */
  ghost predicate MayCharge(regs: Registers, clock: int)
    requires WellFormed(regs)
  {
    exists i: nat :: i < MAX_SLOTS && i in regs.switches && MayFire(regs.windows[i], clock)
  }

  /** Clearing the schedule, or planning nothing, stops every grid charge. */
  lemma ClearedNeverCharges(regs: Registers, offset: int, clock: int)
    requires WellFormed(regs) && Programmed(Desired([], [], offset), regs)
    ensures !MayCharge(regs, clock)
  {
    forall i: nat | i < MAX_SLOTS ensures i !in regs.switches {
      assert SlotProgrammed(Desired([], [], offset), regs, i);
    }
  }

  /** The whole chain. Prices and sessions were planned, the plan was written in the zone read
      from the inverter's clock, and programming ended normally. Then whenever a charge slot
      may run within the horizon, the clock stands at a paid-for moment at most 25
      minutes from real time. */
  lemma ProgrammedInverterIsSafe(cfg: Config, upcoming: seq<Rate>, free: seq<Window>, discharge: seq<Window>,
                                 now: int, delta: int, horizon: int, regs: Registers, t: int)
    requires Plannable(upcoming, now)
    requires VerifyClock(delta).Some?
    requires forall s :: s in free ==> SessionFits(s, now, horizon)
    requires WellFormed(regs)
    requires var offset := VerifyClock(delta).value;
      && AllSplitCleanly(MergedCharge(cfg, upcoming, free), offset)
      && ChargePlan(cfg, upcoming, free, offset).Some?
      && Programmed(Desired(ChargePlan(cfg, upcoming, free, offset).value, discharge, offset), regs)
    requires now <= t <= now + horizon && horizon <= FUTURE && MayCharge(regs, t + delta)
    ensures var u := t + delta - VerifyClock(delta).value;
      && t - 1500 <= u <= t + 1500
      && PaidFor(cfg, upcoming, free, u)
      && (Disjoint(upcoming) && !InFreeSession(free, u) ==>
            forall r :: r in upcoming && RateAt(r, u) ==> r.price <= cfg.maxRate)
  {
    var offset := VerifyClock(delta).value;
    var plan := ChargePlan(cfg, upcoming, free, offset).value;
    var p := ArmedRange(plan, discharge, offset, regs, t + delta);
    EndToEndPriceSafety(cfg, upcoming, free, now, delta, horizon, t, p);
  }

  /** A programmed charge slot that may run is one of the plan's. */
  lemma ArmedRange(plan: seq<Window>, discharge: seq<Window>, offset: int, regs: Registers, clock: int) returns (p: Window)
    requires WellFormed(regs) && Programmed(Desired(plan, discharge, offset), regs) && MayCharge(regs, clock)
    ensures p in plan && MayFire(WrittenRange(p, offset), clock)
  {
    var i: nat :| i < MAX_SLOTS && i in regs.switches && MayFire(regs.windows[i], clock);
    assert SlotProgrammed(Desired(plan, discharge, offset), regs, i);
    assert i < |plan|;
    p := plan[i];
  }

  /** Slot `i` is on, with this current, and its range is in order and on at this reading. */
  predicate Runs(regs: Registers, i: nat, amps: int, clock: int)
    requires WellFormed(regs) && i < SLOTS
  {
    && i in regs.switches && regs.currents[i] == amps
    && regs.windows[i].from < regs.windows[i].to
    && regs.windows[i].from <= clock % 86400 / 60 < regs.windows[i].to
  }

  /** A programmed inverter has just the planned windows on, one to a slot, charging and
      discharging at 50 A, and each of them runs when its clock stands at an instant of it. */
  lemma ProgrammedSlots(charge: seq<Window>, discharge: seq<Window>, offset: int, regs: Registers, i: nat, u: int)
    requires WellFormed(regs) && Programmed(Desired(charge, discharge, offset), regs) && i < 3
    requires (forall p :: p in charge + discharge ==> OneDay(p, offset) && WholeMinutes(p)) && offset % 60 == 0
    ensures (i in regs.switches <==> i < |charge|) && (3 + i in regs.switches <==> i < |discharge|)
    ensures i < |charge| && Holds(charge[i], u) ==> Runs(regs, i, 50, u + offset)
    ensures i < |discharge| && Holds(discharge[i], u) ==> Runs(regs, 3 + i, 50, u + offset)
  {
    var desired := Desired(charge, discharge, offset);
    assert SlotProgrammed(desired, regs, i) && SlotProgrammed(desired, regs, 3 + i);
    if i < |charge| && Holds(charge[i], u) {
      assert charge[i] in charge + discharge;
      RangeIsOn(charge[i], offset, u);
    }
    if i < |discharge| && Holds(discharge[i], u) {
      assert discharge[i] in charge + discharge;
      RangeIsOn(discharge[i], offset, u);
    }
  }

  lemma RangeIsOn(p: Window, offset: int, u: int)
    requires WholeMinutes(p) && offset % 60 == 0 && OneDay(p, offset) && Holds(p, u)
    ensures var r := WrittenRange(p, offset); r.from < r.to && r.from <= (u + offset) % 86400 / 60 < r.to
  {
    WrittenRangeRecursDaily(p, offset, u);
    assert Holds(Shift(p, 0), u);
    assert FiresWhen(p, offset, u);
  }

  /** The other half of the chain, with no session in play: once programming has ended normally,
      an inverter whose clock is right to the second charges through the whole of a slot that
      is cheap now, but for the minute before its midnight. */
  lemma ProgrammedInverterCharges(cfg: Config, upcoming: seq<Rate>, discharge: seq<Window>, now: int, offset: int,
                                  regs: Registers, r: Rate, u: int) returns (i: nat)
    requires Plannable(upcoming, now) && Disjoint(upcoming) && offset % 3600 == 0
    requires forall p :: p in discharge ==> OneDay(p, offset) && WholeMinutes(p)
    requires WellFormed(regs) && ChargePlan(cfg, upcoming, [], offset).Some?
    requires Programmed(Desired(ChargePlan(cfg, upcoming, [], offset).value, discharge, offset), regs)
    requires r in upcoming && r.price <= cfg.maxRate && InChargeWindow(cfg, r.localMinute) && RateAt(r, now)
    requires RateAt(r, u) && (u + offset) % 86400 < 86340
    ensures i < 3 && Runs(regs, i, 50, u + offset)
  {
    var plan := ChargePlan(cfg, upcoming, [], offset).value;
    CurrentCheapSlotIsArmed(cfg, upcoming, now, offset, r, u);
    WholeWithoutSessions(cfg, upcoming, now, offset);
    i := ArmedAt(plan, u);
    ProgrammedSlots(plan, discharge, offset, regs, i, u);
  }

  lemma ArmedAt(plan: seq<Window>, u: int) returns (i: nat)
    requires Covers(plan, u)
    ensures i < |plan| && Holds(plan[i], u)
  {
    var p :| p in plan && Holds(p, u);
    i :| i < |plan| && plan[i] == p;
  }

  lemma WholeWithoutSessions(cfg: Config, upcoming: seq<Rate>, now: int, offset: int)
    requires Plannable(upcoming, now) && offset % 3600 == 0 && ChargePlan(cfg, upcoming, [], offset).Some?
    ensures forall p :: p in ChargePlan(cfg, upcoming, [], offset).value ==> OneDay(p, offset) && WholeMinutes(p)
    ensures |ChargePlan(cfg, upcoming, [], offset).value| <= 3 && offset % 60 == 0
  {
    DivIs(offset, 60, 60 * (offset / 3600), 0);
    FreshSessionsSplitCleanly(cfg, upcoming, [], now, offset);
    PlanIsWhole(cfg, upcoming, [], offset);
  }

  lemma PlanIsWhole(cfg: Config, upcoming: seq<Rate>, free: seq<Window>, offset: int)
    requires HalfHours(upcoming) && AllWholeMinutes(free) && offset % 60 == 0
    requires AllSplitCleanly(MergedCharge(cfg, upcoming, free), offset) && ChargePlan(cfg, upcoming, free, offset).Some?
    ensures forall p :: p in ChargePlan(cfg, upcoming, free, offset).value ==> OneDay(p, offset) && WholeMinutes(p)
    ensures |ChargePlan(cfg, upcoming, free, offset).value| <= 3
  {
    WrittenRangesAreInOrder(cfg, upcoming, free, offset);
    forall p | p in ChargePlan(cfg, upcoming, free, offset).value ensures WholeMinutes(p) {
      var m := PlanIsCutFromMerged(cfg, upcoming, free, offset, p);
      MergedIsWhole(cfg, upcoming, free);
      SplitFitsOneDayIff(m, offset);
    }
  }
}
