/** The durable alert queue (bridge.py, AlertBridge): alerts are observed, the events persisted,
    then delivered as a digest, with save failures, notify failures and crashes at every point. */
module AlertQueue {
  import opened Collections
  import opened Options
  import opened Sorting

  const MAX_ALERTS := 2000
  const MAX_PENDING := 4000
  const MAX_HISTORY := 50

  type Id = nat

  /** `text` stands for title, message, host and start time. */
  datatype Alert = Alert(id: Id, critical: bool, text: nat, suppressed: bool)

  datatype Event = Event(id: Id, critical: bool, text: nat, resolved: bool, time: int)

  type Snapshot = map<Id, Alert>

  /** The state file. */
  datatype Saved = Saved(observed: Snapshot, pending: seq<Event>, history: seq<Event>)

  /** What parse_alerts returns. */
  ghost predicate ValidSnapshot(alerts: Snapshot) {
    |alerts| <= MAX_ALERTS && forall k :: k in alerts ==> alerts[k].id == k
  }

  /** Whether the encoded state stays inside the byte limit. All that is known of it is that
      dropping queued events never makes a state too large. */
  type Limit = Saved -> bool

  ghost predicate Monotone(fits: Limit) {
    forall s, t :: Drops(s, t) && fits(s) ==> fits(t)
  }

  /** `t` is `s` with some queued events dropped. */
  ghost predicate Drops(s: Saved, t: Saved) {
    t.observed == s.observed && t.history == s.history && multiset(t.pending) <= multiset(s.pending)
  }

  predicate WithinLimits(s: Saved) {
    && |s.observed| <= MAX_ALERTS && |s.pending| <= MAX_PENDING && |s.history| <= MAX_HISTORY
    && forall k :: k in s.observed ==> s.observed[k].id == k
  }

  /** The checks made when the state file is loaded. */
  ghost predicate LoadOk(fits: Limit, s: Saved) { fits(s) && WithinLimits(s) }

  // ---------- loading ----------

  /** A state file: of this version, of the one before (which had no queue), or not one. */
  datatype StateFile = Current(saved: Saved) | Legacy(notified: Snapshot, history: seq<Event>) | Malformed

  /** What a readable state file says. */
  function StateIn(file: StateFile): Saved
    requires !file.Malformed?
  {
    match file
    case Current(saved) => saved
    case Legacy(notified, history) => Saved(notified, [], history)
  }

  const EMPTY := Saved(map[], [], [])

  /** The loading part of AlertBridge.__init__; None stands for its exceptions. `oversized` is
      the size check on the file itself. Nothing is loaded that the checks do not pass, and
      corrupt state never turns into an empty one. */
  method Load(file: Option<StateFile>, oversized: bool) returns (loaded: Option<Saved>)
    ensures file.None? ==> loaded == Some(EMPTY)
    ensures file.Some? ==>
      (loaded.Some? <==> !oversized && !file.value.Malformed? && WithinLimits(StateIn(file.value)))
    ensures file.Some? && loaded.Some? ==> loaded.value == StateIn(file.value)
  {
    if file.None? {
      return Some(EMPTY);
    }
    if oversized || file.value.Malformed? {
      return None;
    }
    var s := StateIn(file.value);
    if |s.observed| > MAX_ALERTS || |s.pending| > MAX_PENDING || |s.history| > MAX_HISTORY {
      return None;
    }
    var todo := s.observed.Keys;
    while todo != {}
      invariant todo <= s.observed.Keys
      invariant forall k :: k in s.observed && k !in todo ==> s.observed[k].id == k
    {
      var k :| k in todo;
      if s.observed[k].id != k {
        return None;
      }
      todo := todo - {k};
    }
    return Some(s);
  }

  // ---------- the log of events, newest batch first ----------

  /** The latest event of `id` is a firing one. */
  predicate Firing(log: seq<Event>, id: Id) {
    log != [] && if log[0].id == id then !log[0].resolved else Firing(log[1..], id)
  }

  /** Each event follows one of the other kind: a resolution follows a firing, and a firing
      follows a resolution or nothing. */
  predicate Alternates(log: seq<Event>) {
    log == [] || (log[0].resolved == Firing(log[1..], log[0].id) && Alternates(log[1..]))
  }

  function Newest(log: seq<Event>): seq<Event> {
    if |log| <= MAX_HISTORY then log else log[..MAX_HISTORY]
  }

  /** The log, the observed map and the visible history agree. */
  ghost predicate LogAgrees(log: seq<Event>, observed: Snapshot, history: seq<Event>) {
    && Alternates(log)
    && (forall id :: id in observed <==> Firing(log, id))
    && history == Newest(log)
  }

  // ---------- observe ----------

  function FiringEvent(a: Alert, stamp: int): Event { Event(a.id, a.critical, a.text, false, stamp) }

  function ResolvedEvent(a: Alert, stamp: int): Event { Event(a.id, a.critical, a.text, true, stamp) }

  predicate IsNew(observed: Snapshot, alerts: Snapshot, k: Id) {
    k in alerts && k !in observed && !alerts[k].suppressed
  }

  predicate IsGone(observed: Snapshot, alerts: Snapshot, k: Id) {
    k in observed && k !in alerts
  }

  /** Critical first, firing before resolved, then by id. */
  predicate ChangeOrder(a: Event, b: Event) {
    if a.critical != b.critical then a.critical
    else if a.resolved != b.resolved then b.resolved
    else a.id <= b.id
  }

  ghost predicate DistinctIds(events: seq<Event>) {
    forall i, j :: 0 <= i < j < |events| ==> events[i].id != events[j].id
  }

  /** The events of one observation: one firing for every new unsuppressed alert, one
      resolution for every observed alert that is no longer there, in order, and no other. */
  ghost predicate Changes(observed: Snapshot, alerts: Snapshot, stamp: int, events: seq<Event>) {
    && DistinctIds(events)
    && Sorted(events, ChangeOrder)
    && (forall e :: e in events ==>
          (!e.resolved && IsNew(observed, alerts, e.id) && e == FiringEvent(alerts[e.id], stamp))
          || (e.resolved && IsGone(observed, alerts, e.id) && e == ResolvedEvent(observed[e.id], stamp)))
    && (forall k :: IsNew(observed, alerts, k) ==> FiringEvent(alerts[k], stamp) in events)
    && (forall k :: IsGone(observed, alerts, k) ==> ResolvedEvent(observed[k], stamp) in events)
  }

  function NextObserved(observed: Snapshot, alerts: Snapshot): Snapshot {
    map k | k in observed.Keys + alerts.Keys && ((k in observed && k in alerts) || IsNew(observed, alerts, k)) ::
      if k in observed then observed[k] else alerts[k]
  }

  lemma SameIdSameEvent(events: seq<Event>, a: Event, b: Event)
    requires DistinctIds(events) && a in events && b in events && a.id == b.id
    ensures a == b
  {
    var i :| 0 <= i < |events| && events[i] == a;
    var j :| 0 <= j < |events| && events[j] == b;
    assert i == j;
  }

  lemma TwiceCounts(events: seq<Event>, i: nat, j: nat)
    requires i < j < |events| && events[i] == events[j]
    ensures multiset(events)[events[i]] >= 2
  {
    assert events == events[..j] + [events[j]] + events[j + 1..];
    assert events[..j][i] == events[i];
    assert events[i] in multiset(events[..j]);
  }

  lemma {:induction false} AtMostOnce(events: seq<Event>, x: Event)
    requires DistinctIds(events)
    ensures multiset(events)[x] <= 1
  {
    if events == [] {
    } else {
      assert events == [events[0]] + events[1..];
      forall i, j | 0 <= i < j < |events[1..]| ensures events[1..][i].id != events[1..][j].id {
        assert events[1..][i] == events[i + 1] && events[1..][j] == events[j + 1];
      }
      AtMostOnce(events[1..], x);
      assert events[0] !in events[1..];
    }
  }

  lemma SortKeepsDistinct(events: seq<Event>)
    requires DistinctIds(events)
    ensures DistinctIds(StableSort(events, ChangeOrder))
  {
    var sorted := StableSort(events, ChangeOrder);
    StableSortSorts(events, ChangeOrder);
    forall i, j | 0 <= i < j < |sorted| ensures sorted[i].id != sorted[j].id {
      if sorted[i].id == sorted[j].id {
        AtMostOnce(events, sorted[i]);
        SameIdSameEvent(events, sorted[i], sorted[j]);
        TwiceCounts(sorted, i, j);
      }
    }
  }

  /** One observation has one possible list of events. */
  lemma ChangesAreDetermined(observed: Snapshot, alerts: Snapshot, stamp: int, a: seq<Event>, b: seq<Event>)
    requires ValidSnapshot(alerts) && forall k :: k in observed ==> observed[k].id == k
    requires Changes(observed, alerts, stamp, a) && Changes(observed, alerts, stamp, b)
    ensures a == b
  {
    forall e ensures e in a <==> e in b {
      SameChange(observed, alerts, stamp, a, b, e);
      SameChange(observed, alerts, stamp, b, a, e);
    }
    SortedSameMembers(a, b);
  }

  lemma SameChange(observed: Snapshot, alerts: Snapshot, stamp: int, a: seq<Event>, b: seq<Event>, e: Event)
    requires Changes(observed, alerts, stamp, a) && Changes(observed, alerts, stamp, b)
    ensures e in a ==> e in b
  {
  }

  lemma {:induction false} SortedSameMembers(a: seq<Event>, b: seq<Event>)
    requires DistinctIds(a) && DistinctIds(b) && Sorted(a, ChangeOrder) && Sorted(b, ChangeOrder)
    requires forall e :: e in a <==> e in b
    ensures a == b
  {
    if a == [] {
      assert forall i :: 0 <= i < |b| ==> b[i] in b;
    } else {
      assert a[0] in b && b[0] in a;
      assert a[0] == b[0];
      assert a == [a[0]] + a[1..] && b == [b[0]] + b[1..];
      TailDistinct(a);
      TailDistinct(b);
      forall e ensures e in a[1..] <==> e in b[1..] {
        assert e in a[1..] ==> e in a && e != a[0];
        assert e in b[1..] ==> e in b && e != b[0];
      }
      SortedSameMembers(a[1..], b[1..]);
    }
  }

  lemma TailDistinct(events: seq<Event>)
    requires events != [] && DistinctIds(events)
    ensures DistinctIds(events[1..]) && forall e :: e in events[1..] ==> e.id != events[0].id
  {
    forall i, j | 0 <= i < j < |events[1..]| ensures events[1..][i].id != events[1..][j].id {
      assert events[1..][i] == events[i + 1] && events[1..][j] == events[j + 1];
    }
    forall e | e in events[1..] ensures e.id != events[0].id {
      var k :| 0 <= k < |events[1..]| && events[1..][k] == e;
      assert e == events[k + 1];
    }
  }

  // ---------- the log goes on alternating ----------

  lemma {:induction false} FiringUnderBatch(events: seq<Event>, log: seq<Event>, id: Id)
    requires DistinctIds(events)
    ensures (forall e :: e in events ==> e.id != id) ==> (Firing(events + log, id) <==> Firing(log, id))
    ensures forall e :: e in events && e.id == id ==> (Firing(events + log, id) <==> !e.resolved)
  {
    if events == [] {
      assert events + log == log;
    } else {
      TailDistinct(events);
      assert events == [events[0]] + events[1..];
      assert (events + log)[1..] == events[1..] + log;
      FiringUnderBatch(events[1..], log, id);
    }
  }

  lemma {:induction false} BatchAlternates(events: seq<Event>, log: seq<Event>)
    requires DistinctIds(events) && Alternates(log)
    requires forall e :: e in events ==> (e.resolved <==> Firing(log, e.id))
    ensures Alternates(events + log)
  {
    if events == [] {
      assert events + log == log;
    } else {
      TailDistinct(events);
      assert events == [events[0]] + events[1..];
      assert (events + log)[1..] == events[1..] + log;
      BatchAlternates(events[1..], log);
      FiringUnderBatch(events[1..], log, events[0].id);
    }
  }

  /** One observation keeps the log alternating per alert, keeps the observed map equal to the
      alerts whose last event is firing, and keeps the history the newest fifty events. */
  lemma ObservationKeepsLog(observed: Snapshot, alerts: Snapshot, stamp: int, events: seq<Event>, log: seq<Event>, history: seq<Event>)
    requires LogAgrees(log, observed, history) && ValidSnapshot(alerts)
    requires forall k :: k in observed ==> observed[k].id == k
    requires Changes(observed, alerts, stamp, events)
    ensures LogAgrees(events + log, NextObserved(observed, alerts), Newest(events + history))
  {
    BatchAlternates(events, log);
    var next := NextObserved(observed, alerts);
    forall id ensures id in next <==> Firing(events + log, id) {
      FiringUnderBatch(events, log, id);
      if IsNew(observed, alerts, id) {
        assert FiringEvent(alerts[id], stamp) in events;
      } else if IsGone(observed, alerts, id) {
        assert ResolvedEvent(observed[id], stamp) in events;
      } else {
        assert forall e :: e in events ==> e.id != id;
      }
    }
    NewestOfNewest(events, log);
  }

  lemma NewestOfNewest(events: seq<Event>, log: seq<Event>)
    ensures Newest(events + Newest(log)) == Newest(events + log)
  {
  }

  /** The observed map never outgrows the snapshot it was taken from. */
  lemma ObservedIsBounded(observed: Snapshot, alerts: Snapshot)
    requires ValidSnapshot(alerts) && forall k :: k in observed ==> observed[k].id == k
    ensures NextObserved(observed, alerts).Keys <= alerts.Keys && |NextObserved(observed, alerts)| <= MAX_ALERTS
    ensures forall k :: k in NextObserved(observed, alerts) ==> NextObserved(observed, alerts)[k].id == k
  {
    var next := NextObserved(observed, alerts);
    SubsetSize(next.Keys, alerts.Keys);
  }

  /** One observation never has more changes than an empty queue has room for. */
  lemma ChangesFitEmptyQueue(observed: Snapshot, alerts: Snapshot, stamp: int, events: seq<Event>)
    requires ValidSnapshot(alerts) && |observed| <= MAX_ALERTS
    requires Changes(observed, alerts, stamp, events)
    ensures |events| <= MAX_PENDING
  {
    var ids := set e | e in events :: e.id;
    assert ids <= alerts.Keys + observed.Keys;
    SubsetSize(ids, alerts.Keys + observed.Keys);
    UnionSize(alerts.Keys, observed.Keys);
    DistinctSize(events);
  }

  lemma {:induction false} DistinctSize(events: seq<Event>)
    requires DistinctIds(events)
    ensures |set e | e in events :: e.id| == |events|
  {
    if events == [] {
    } else {
      TailDistinct(events);
      DistinctSize(events[1..]);
      assert events == [events[0]] + events[1..];
      var rest := set e | e in events[1..] :: e.id;
      assert (set e | e in events :: e.id) == {events[0].id} + rest;
    }
  }

  // ---------- deliver ----------

  predicate Held(alerts: Snapshot, e: Event) {
    e.id in alerts && alerts[e.id].suppressed
  }

  /** The queued events that are not, or that are, under a suppression. */
  function Select(pending: seq<Event>, alerts: Snapshot, held: bool): seq<Event> {
    if pending == [] then []
    else if Held(alerts, pending[0]) == held then [pending[0]] + Select(pending[1..], alerts, held)
    else Select(pending[1..], alerts, held)
  }

  /** Critical first, then oldest, firing before resolved, then by id. */
  predicate DigestOrder(a: Event, b: Event) {
    if a.critical != b.critical then a.critical
    else if a.time != b.time then a.time < b.time
    else if a.resolved != b.resolved then b.resolved
    else a.id <= b.id
  }

  function Digest(pending: seq<Event>, alerts: Snapshot): seq<Event> {
    StableSort(Select(pending, alerts, false), DigestOrder)
  }

  predicate Sent(digest: seq<Event>, e: Event) {
    exists i :: 0 <= i < |digest| && digest[i].id == e.id && digest[i].resolved == e.resolved
  }

  /** What is left of the queue once everything with a sent id and status is taken out. */
  function Unsent(pending: seq<Event>, digest: seq<Event>): seq<Event> {
    if pending == [] then []
    else if Sent(digest, pending[0]) then Unsent(pending[1..], digest)
    else [pending[0]] + Unsent(pending[1..], digest)
  }

  lemma {:induction false} SelectIs(pending: seq<Event>, alerts: Snapshot, held: bool)
    ensures forall e :: e in Select(pending, alerts, held) <==> e in pending && Held(alerts, e) == held
  {
    if pending == [] {
    } else {
      SelectIs(pending[1..], alerts, held);
      assert pending == [pending[0]] + pending[1..];
    }
  }

  lemma {:induction false} SelectSplits(pending: seq<Event>, alerts: Snapshot)
    ensures multiset(pending) == multiset(Select(pending, alerts, false)) + multiset(Select(pending, alerts, true))
  {
    if pending == [] {
    } else {
      SelectSplits(pending[1..], alerts);
      assert pending == [pending[0]] + pending[1..];
    }
  }

  lemma {:induction false} UnsentIsHeld(pending: seq<Event>, digest: seq<Event>, alerts: Snapshot)
    requires forall e :: e in pending ==> (Sent(digest, e) <==> !Held(alerts, e))
    ensures Unsent(pending, digest) == Select(pending, alerts, true)
  {
    if pending == [] {
    } else {
      UnsentIsHeld(pending[1..], digest, alerts);
      assert pending == [pending[0]] + pending[1..];
    }
  }

  /** Removing by id and status removes exactly the events of the digest, although the queue may
      hold several with one id and status: what stays is every held-back event and nothing else. */
  lemma DeliveryTakesExactlyTheDigest(pending: seq<Event>, alerts: Snapshot)
    ensures Unsent(pending, Digest(pending, alerts)) == Select(pending, alerts, true)
    ensures multiset(pending) == multiset(Digest(pending, alerts)) + multiset(Unsent(pending, Digest(pending, alerts)))
  {
    var ready := Select(pending, alerts, false);
    var digest := Digest(pending, alerts);
    StableSortSorts(ready, DigestOrder);
    SelectIs(pending, alerts, false);
    forall e | e in pending ensures Sent(digest, e) <==> !Held(alerts, e) {
      if !Held(alerts, e) {
        assert e in digest;
        var i :| 0 <= i < |digest| && digest[i] == e;
      }
      if i :| 0 <= i < |digest| && digest[i].id == e.id && digest[i].resolved == e.resolved {
        assert digest[i] in digest;
      }
    }
    UnsentIsHeld(pending, digest, alerts);
    SelectSplits(pending, alerts);
  }

  // ---------- the events of an observation, as a function ----------

  ghost predicate KeyedById(s: Snapshot) { forall k :: k in s ==> s[k].id == k }

  ghost predicate IsChange(observed: Snapshot, alerts: Snapshot, stamp: int, e: Event) {
    || (!e.resolved && IsNew(observed, alerts, e.id) && e == FiringEvent(alerts[e.id], stamp))
    || (e.resolved && IsGone(observed, alerts, e.id) && e == ResolvedEvent(observed[e.id], stamp))
  }

  /** The change of one id, if there is one. */
  ghost function ChangeOf(observed: Snapshot, alerts: Snapshot, stamp: int, k: Id): seq<Event> {
    if IsNew(observed, alerts, k) then [FiringEvent(alerts[k], stamp)]
    else if IsGone(observed, alerts, k) then [ResolvedEvent(observed[k], stamp)]
    else []
  }

  ghost function EventsFor(observed: Snapshot, alerts: Snapshot, stamp: int, todo: set<Id>): seq<Event> {
    if todo == {} then []
    else
      var k :| k in todo;
      ChangeOf(observed, alerts, stamp, k) + EventsFor(observed, alerts, stamp, todo - {k})
  }

  ghost function EventsOf(observed: Snapshot, alerts: Snapshot, stamp: int): seq<Event> {
    StableSort(EventsFor(observed, alerts, stamp, observed.Keys + alerts.Keys), ChangeOrder)
  }

  lemma {:induction false} EventsForAre(observed: Snapshot, alerts: Snapshot, stamp: int, todo: set<Id>)
    requires KeyedById(observed) && KeyedById(alerts)
    ensures var es := EventsFor(observed, alerts, stamp, todo);
      && DistinctIds(es)
      && (forall e :: e in es <==> e.id in todo && IsChange(observed, alerts, stamp, e))
  {
    if todo == {} {
    } else {
      var k :| k in todo && EventsFor(observed, alerts, stamp, todo) ==
        ChangeOf(observed, alerts, stamp, k) + EventsFor(observed, alerts, stamp, todo - {k});
      var head, rest := ChangeOf(observed, alerts, stamp, k), EventsFor(observed, alerts, stamp, todo - {k});
      EventsForAre(observed, alerts, stamp, todo - {k});
      assert forall e :: e in head <==> e.id == k && IsChange(observed, alerts, stamp, e);
      DistinctCons(head, rest);
    }
  }

  lemma DistinctCons(head: seq<Event>, rest: seq<Event>)
    requires |head| <= 1 && DistinctIds(rest)
    requires forall d, e :: d in head && e in rest ==> d.id != e.id
    ensures DistinctIds(head + rest)
  {
    var s := head + rest;
    forall i, j | 0 <= i < j < |s| ensures s[i].id != s[j].id {
      assert s[j] == rest[j - |head|];
      if i < |head| {
        assert s[i] in head && s[j] in rest;
      } else {
        assert s[i] == rest[i - |head|];
      }
    }
  }

  lemma EventsOfAre(observed: Snapshot, alerts: Snapshot, stamp: int)
    requires KeyedById(observed) && KeyedById(alerts)
    ensures Changes(observed, alerts, stamp, EventsOf(observed, alerts, stamp))
  {
    var es := EventsFor(observed, alerts, stamp, observed.Keys + alerts.Keys);
    EventsForAre(observed, alerts, stamp, observed.Keys + alerts.Keys);
    StableSortSorts(es, ChangeOrder);
    SortKeepsDistinct(es);
    forall k | IsNew(observed, alerts, k) ensures FiringEvent(alerts[k], stamp) in es {
      assert IsChange(observed, alerts, stamp, FiringEvent(alerts[k], stamp));
    }
    forall k | IsGone(observed, alerts, k) ensures ResolvedEvent(observed[k], stamp) in es {
      assert IsChange(observed, alerts, stamp, ResolvedEvent(observed[k], stamp));
    }
  }

  // ---------- memory, disk and Home Assistant ----------

  /** The process: its state, and of its log what has been delivered. */
  datatype Memory = Memory(state: Saved, log: seq<Event>, gone: multiset<Event>)

  /** A running process: its memory and state_error. */
  datatype Process = Process(mem: Memory, err: bool)

  /** A notify call: what it carried, the queue on disk at that moment, and its answer. */
  datatype Attempt = Attempt(digest: seq<Event>, onDisk: Option<seq<Event>>, ok: bool)

  /** What outlives the process: the memory as it was at the last save, every event of a digest
      that notify accepted, every attempt, and whether a process ever died. */
  datatype World = World(disk: Option<Memory>, accepted: multiset<Event>, attempts: seq<Attempt>, crashed: bool)

  /** How a save goes: it may raise, or the process die, before or after the file is replaced. */
  datatype SaveLuck = Works | FailsBefore | FailsAfter | DiesBefore | DiesAfter

  /** How a notify call goes; a process that dies may have been heard. */
  datatype NotifyLuck = Accepts | Rejects | DiesUnheard | DiesHeard

  datatype Luck = Luck(save: SaveLuck, notify: NotifyLuck, saveAgain: SaveLuck)

  datatype Outcome = Fine | Raised | Died

  /** How a cycle ends: the process died, the alerts are reported as unavailable, or it goes on
      to report them. */
  datatype End = Dead | Offline | Reporting

  function EndOf(o: Outcome): End { match o case Died => Dead case Raised => Offline case Fine => Reporting }

  /** A cycle that reports nothing. */
  function Silent(e: End): End { if e.Dead? then Dead else Offline }

  /** Full says which limit refused the observation: the number of queued events or the bytes. */
  datatype Observation = Observed | Full(bytes: bool) | Failed(outcome: Outcome)

  function SaveOutcome(luck: SaveLuck): Outcome {
    match luck
    case Works => Fine
    case FailsBefore | FailsAfter => Raised
    case DiesBefore | DiesAfter => Died
  }

  predicate Replaces(luck: SaveLuck) { luck.Works? || luck.FailsAfter? || luck.DiesAfter? }

  /** save */
  ghost function Saving(m: Memory, w: World, luck: SaveLuck): World {
    w.(disk := if Replaces(luck) then Some(m) else w.disk, crashed := w.crashed || SaveOutcome(luck) == Died)
  }

  /** The memory once the events of a snapshot have been observed. */
  ghost function WithEvents(m: Memory, alerts: Snapshot, events: seq<Event>): Memory {
    var s := m.state;
    Memory(Saved(NextObserved(s.observed, alerts), s.pending + events, Newest(events + s.history)), events + m.log, m.gone)
  }

  /** observe */
  ghost function Observing(fits: Limit, p: Process, w: World, alerts: Snapshot, stamp: int, luck: SaveLuck)
    : (Observation, Process, World)
  {
    var events := EventsOf(p.mem.state.observed, alerts, stamp);
    var m := WithEvents(p.mem, alerts, events);
    if |p.mem.state.pending| + |events| > MAX_PENDING then (Full(false), p, w)
    else if events != [] && !fits(m.state) then (Full(true), p, w)
    else Committing(m, p.err, w, events != [], luck)
  }

  /** The end of observe: persist if anything changed, an error is noted, or there is no file. */
  ghost function Committing(m: Memory, err: bool, w: World, changed: bool, luck: SaveLuck): (Observation, Process, World) {
    if changed || err || w.disk.None? then
      var o := SaveOutcome(luck);
      (if o == Fine then Observed else Failed(o), Process(m, o != Fine && err), Saving(m, w, luck))
    else (Observed, Process(m, false), w)
  }

  /** The memory once an accepted digest has left the queue. */
  ghost function Delivered(m: Memory, alerts: Snapshot): Memory {
    m.(state := m.state.(pending := Select(m.state.pending, alerts, true)),
       gone := m.gone + multiset(Digest(m.state.pending, alerts)))
  }

  /** deliver */
  ghost function Delivering(p: Process, w: World, alerts: Snapshot, notify: NotifyLuck, luck: SaveLuck)
    : (Outcome, Process, World)
  {
    var digest := Digest(p.mem.state.pending, alerts);
    if digest == [] then (Fine, p, w)
    else
      var sent := Sending(w, digest, notify.Accepts? || notify.DiesHeard?);
      match notify
      case DiesUnheard | DiesHeard => (Died, p, sent.(crashed := true))
      case Rejects => (Fine, p, sent)
      case Accepts =>
        var m := Delivered(p.mem, alerts);
        (SaveOutcome(luck), p.(mem := m), Saving(m, sent, luck))
  }

  /** cycle, up to what is published about it. */
  ghost function Cycling(fits: Limit, p: Process, w: World, alerts: Option<Snapshot>, stamp: int, luck: Luck)
    : (End, Process, World)
  {
    if alerts.None? then (Offline, p, w)
    else
      var (r, p1, w1) := Observing(fits, p, w, alerts.value, stamp, luck.save);
      Proceeding(r, p1, w1, alerts.value, luck)
  }

  ghost function Proceeding(r: Observation, p: Process, w: World, alerts: Snapshot, luck: Luck): (End, Process, World) {
    match r
    case Observed => Finishing(p, w, alerts, luck)
    case Failed(o) => (Silent(EndOf(o)), p.(err := p.err || o == Raised), w)
    case Full(_) => Draining(p, w, alerts, luck)
  }

  ghost function Finishing(p: Process, w: World, alerts: Snapshot, luck: Luck): (End, Process, World) {
    var (o, p1, w1) := Delivering(p, w, alerts, luck.notify, luck.saveAgain);
    (EndOf(o), p1.(err := p1.err || o == Raised), w1)
  }

  /** A refused observation: prove the queue durable again, then let it drain. */
  ghost function Draining(p: Process, w: World, alerts: Snapshot, luck: Luck): (End, Process, World) {
    var o, w1 := SaveOutcome(luck.save), Saving(p.mem, w, luck.save);
    if o != Fine then (Silent(EndOf(o)), p.(err := true), w1)
    else
      var (e, p2, w2) := Finishing(p.(err := true), w1, alerts, luck);
      (Silent(e), p2, w2)
  }

  // ---------- what every step keeps ----------

  ghost predicate Suffix(a: seq<Event>, b: seq<Event>) {
    |a| <= |b| && b[|b| - |a|..] == a
  }

  /** The state loads, agrees with its log, and queues exactly what was not delivered. */
  ghost predicate Consistent(fits: Limit, m: Memory) {
    match m case Memory(state, log, gone) =>
      && LoadOk(fits, state)
      && LogAgrees(log, state.observed, state.history)
      && multiset(log) == gone + multiset(state.pending)
  }

  /** Every event of every digest was in the queue on disk when the digest was sent. */
  ghost predicate DurableFirst(w: World) {
    forall a :: a in w.attempts ==> a.onDisk.Some? && multiset(a.digest) <= multiset(a.onDisk.value)
  }

  ghost predicate Sound(fits: Limit, w: World) {
    match w.disk
    case None => DurableFirst(w)
    case Some(m) => DurableFirst(w) && Consistent(fits, m) && m.gone <= w.accepted
  }

  ghost function SavedLog(w: World): seq<Event> { if w.disk.None? then [] else w.disk.value.log }

  /** Every event that reached the disk is in an accepted digest or still in the queue on disk. */
  ghost predicate AtLeastOnce(w: World) {
    w.disk.Some? ==> multiset(w.disk.value.log) <= w.accepted + multiset(w.disk.value.state.pending)
  }

  /** What holds even while a save is outstanding. */
  ghost predicate Core(fits: Limit, m: Memory, w: World) {
    match w case World(_, accepted, _, crashed) =>
      && Sound(fits, w)
      && Consistent(fits, m)
      && m.gone <= accepted
      && (!crashed ==> m.gone == accepted)
      && Suffix(SavedLog(w), m.log)
  }

  /** No error noted and a file present means the disk equals memory. */
  ghost predicate Healthy(fits: Limit, p: Process, w: World) {
    match p case Process(mem, err) => Core(fits, mem, w) && (!err && w.disk.Some? ==> w.disk == Some(mem))
  }

  /** The disk only moves forward: no event that reached it is forgotten. */
  ghost predicate Onward(w: World, v: World) {
    Suffix(SavedLog(w), SavedLog(v)) && (w.crashed ==> v.crashed)
  }

  lemma SuffixSelf(a: seq<Event>)
    ensures Suffix(a, a)
  {
  }

  lemma SuffixTransitive(a: seq<Event>, b: seq<Event>, c: seq<Event>)
    requires Suffix(a, b) && Suffix(b, c)
    ensures Suffix(a, c)
  {
  }

  lemma SuffixUnderBatch(a: seq<Event>, log: seq<Event>, events: seq<Event>)
    requires Suffix(a, log)
    ensures Suffix(a, events + log)
  {
  }

  lemma SavingKeeps(fits: Limit, m: Memory, w: World, luck: SaveLuck)
    requires Core(fits, m, w)
    ensures Sound(fits, Saving(m, w, luck)) && Onward(w, Saving(m, w, luck))
    ensures Core(fits, m, Saving(m, w, luck))
  {
    SuffixSelf(m.log);
    SuffixSelf(SavedLog(w));
  }

  lemma WithEventsKeeps(fits: Limit, m: Memory, w: World, alerts: Snapshot, stamp: int, events: seq<Event>)
    requires Core(fits, m, w) && ValidSnapshot(alerts) && Changes(m.state.observed, alerts, stamp, events)
    requires |m.state.pending| + |events| <= MAX_PENDING && fits(WithEvents(m, alerts, events).state)
    ensures Core(fits, WithEvents(m, alerts, events), w)
  {
    WithEventsConsistent(fits, m, alerts, stamp, events);
    SuffixUnderBatch(SavedLog(w), m.log, events);
  }

  lemma WithEventsConsistent(fits: Limit, m: Memory, alerts: Snapshot, stamp: int, events: seq<Event>)
    requires Consistent(fits, m) && ValidSnapshot(alerts) && Changes(m.state.observed, alerts, stamp, events)
    requires |m.state.pending| + |events| <= MAX_PENDING && fits(WithEvents(m, alerts, events).state)
    ensures Consistent(fits, WithEvents(m, alerts, events))
  {
    var n := WithEvents(m, alerts, events);
    ObservedIsBounded(m.state.observed, alerts);
    ObservationKeepsLog(m.state.observed, alerts, stamp, events, m.log, m.state.history);
    assert multiset(n.log) == multiset(events) + multiset(m.log);
    assert LogAgrees(n.log, n.state.observed, n.state.history);
  }

  lemma NothingChanged(m: Memory, alerts: Snapshot, stamp: int)
    requires KeyedById(m.state.observed) && KeyedById(alerts) && |m.state.history| <= MAX_HISTORY
    requires EventsOf(m.state.observed, alerts, stamp) == []
    ensures WithEvents(m, alerts, []) == m
  {
    EventsOfAre(m.state.observed, alerts, stamp);
    NothingObserved(m, alerts, stamp);
  }

  lemma NothingObserved(m: Memory, alerts: Snapshot, stamp: int)
    requires Changes(m.state.observed, alerts, stamp, []) && |m.state.history| <= MAX_HISTORY
    ensures WithEvents(m, alerts, []) == m
  {
    assert NextObserved(m.state.observed, alerts) == m.state.observed;
    assert m.state.pending + [] == m.state.pending && [] + m.state.history == m.state.history && [] + m.log == m.log;
  }

  lemma CommittingKeeps(fits: Limit, m: Memory, err: bool, w: World, changed: bool, luck: SaveLuck)
    requires Core(fits, m, w) && (!changed && !err && w.disk.Some? ==> w.disk == Some(m))
    ensures var (r, p1, w1) := Committing(m, err, w, changed, luck);
      && Core(fits, p1.mem, w1) && Onward(w, w1) && p1.mem == m && !r.Full? && r != Failed(Fine)
      && (r == Observed ==> w1.disk == Some(m) && !p1.err)
      && (r == Failed(Died) ==> w1.crashed)
  {
    SuffixSelf(SavedLog(w));
    SavingKeeps(fits, m, w, luck);
  }

  /** How an observation may end. One that is accepted is on disk with no error noted; one
      that is refused has touched nothing, and the count never refuses while the queue is empty. */
  ghost predicate ObservedWell(fits: Limit, p: Process, w: World, r: Observation, p1: Process, w1: World) {
    match p1 case Process(mem, err) =>
    && Core(fits, p1.mem, w1) && Onward(w, w1) && r != Failed(Fine)
    && (r == Observed ==> w1.disk == Some(p1.mem) && !p1.err)
    && (r.Full? ==> p1 == p && w1 == w)
    && (r == Full(false) ==> p.mem.state.pending != [])
    && (r == Failed(Died) ==> w1.crashed)
  }

  lemma ObservingKeeps(fits: Limit, p: Process, w: World, alerts: Snapshot, stamp: int, luck: SaveLuck)
    requires Healthy(fits, p, w) && ValidSnapshot(alerts)
    ensures var (r, p1, w1) := Observing(fits, p, w, alerts, stamp, luck); ObservedWell(fits, p, w, r, p1, w1)
  {
    var events := EventsOf(p.mem.state.observed, alerts, stamp);
    EventsOfAre(p.mem.state.observed, alerts, stamp);
    ObservingTheseKeeps(fits, p, w, alerts, stamp, luck, events);
  }

  lemma ObservingTheseKeeps(fits: Limit, p: Process, w: World, alerts: Snapshot, stamp: int, luck: SaveLuck, events: seq<Event>)
    requires Healthy(fits, p, w) && ValidSnapshot(alerts) && Changes(p.mem.state.observed, alerts, stamp, events)
    requires events == EventsOf(p.mem.state.observed, alerts, stamp)
    ensures var (r, p1, w1) := Observing(fits, p, w, alerts, stamp, luck); ObservedWell(fits, p, w, r, p1, w1)
  {
    ChangesFitEmptyQueue(p.mem.state.observed, alerts, stamp, events);
    var m := WithEvents(p.mem, alerts, events);
    if |p.mem.state.pending| + |events| > MAX_PENDING {
      RefusedWell(fits, p, w, false);
    } else if events != [] && !fits(m.state) {
      RefusedWell(fits, p, w, true);
    } else {
      AdmittedWell(fits, p, w, alerts, stamp, luck, events);
    }
  }

  lemma RefusedWell(fits: Limit, p: Process, w: World, bytes: bool)
    requires Healthy(fits, p, w) && (!bytes ==> p.mem.state.pending != [])
    ensures ObservedWell(fits, p, w, Full(bytes), p, w)
  {
    SuffixSelf(SavedLog(w));
  }

  lemma AdmittedWell(fits: Limit, p: Process, w: World, alerts: Snapshot, stamp: int, luck: SaveLuck, events: seq<Event>)
    requires Healthy(fits, p, w) && ValidSnapshot(alerts) && Changes(p.mem.state.observed, alerts, stamp, events)
    requires |p.mem.state.pending| + |events| <= MAX_PENDING
    requires events == [] || fits(WithEvents(p.mem, alerts, events).state)
    ensures var (r, p1, w1) := Committing(WithEvents(p.mem, alerts, events), p.err, w, events != [], luck);
      ObservedWell(fits, p, w, r, p1, w1)
  {
    var m := WithEvents(p.mem, alerts, events);
    if events == [] {
      NothingObserved(p.mem, alerts, stamp);
    } else {
      WithEventsKeeps(fits, p.mem, w, alerts, stamp, events);
    }
    CommittingKeeps(fits, m, p.err, w, events != [], luck);
  }

  lemma {:induction false} SelectIsShorter(pending: seq<Event>, alerts: Snapshot, held: bool)
    ensures |Select(pending, alerts, held)| <= |pending|
  {
    if pending == [] {
    } else {
      SelectIsShorter(pending[1..], alerts, held);
    }
  }

  lemma DeliveredKeeps(fits: Limit, m: Memory, w: World, v: World, alerts: Snapshot)
    requires Core(fits, m, w) && Monotone(fits) && Sound(fits, v) && v.disk == w.disk && v.crashed == w.crashed
    requires v.accepted == w.accepted + multiset(Digest(m.state.pending, alerts))
    ensures Core(fits, Delivered(m, alerts), v)
  {
    DeliveredIsConsistent(fits, m, alerts);
    DeliveredAccounts(m, alerts);
  }

  lemma DeliveredAccounts(m: Memory, alerts: Snapshot)
    ensures Delivered(m, alerts).log == m.log
    ensures Delivered(m, alerts).gone == m.gone + multiset(Digest(m.state.pending, alerts))
  {
  }

  lemma DeliveredIsConsistent(fits: Limit, m: Memory, alerts: Snapshot)
    requires Consistent(fits, m) && Monotone(fits)
    ensures Consistent(fits, Delivered(m, alerts))
  {
    DeliveryTakesExactlyTheDigest(m.state.pending, alerts);
    SelectIsShorter(m.state.pending, alerts, true);
    assert Drops(m.state, Delivered(m, alerts).state);
  }

  /** The world once a digest has been sent. */
  ghost function Sending(w: World, digest: seq<Event>, ok: bool): World {
    var onDisk := if w.disk.None? then None else Some(w.disk.value.state.pending);
    w.(attempts := w.attempts + [Attempt(digest, onDisk, ok)],
       accepted := if ok then w.accepted + multiset(digest) else w.accepted)
  }

  lemma SendingKeeps(fits: Limit, m: Memory, w: World, alerts: Snapshot, ok: bool)
    requires Core(fits, m, w) && w.disk == Some(m)
    ensures Sound(fits, Sending(w, Digest(m.state.pending, alerts), ok))
    ensures !ok ==> Core(fits, m, Sending(w, Digest(m.state.pending, alerts), ok))
  {
    DeliveryTakesExactlyTheDigest(m.state.pending, alerts);
    SentWasDurable(w, Digest(m.state.pending, alerts), ok);
    SentLeavesDisk(fits, w, Digest(m.state.pending, alerts), ok);
  }

  lemma SentWasDurable(w: World, digest: seq<Event>, ok: bool)
    requires DurableFirst(w) && w.disk.Some? && multiset(digest) <= multiset(w.disk.value.state.pending)
    ensures DurableFirst(Sending(w, digest, ok))
  {
  }

  lemma SentLeavesDisk(fits: Limit, w: World, digest: seq<Event>, ok: bool)
    requires Sound(fits, w) && DurableFirst(Sending(w, digest, ok))
    ensures Sound(fits, Sending(w, digest, ok)) && Sending(w, digest, ok).disk == w.disk
  {
  }

  /** How a delivery may end: an accepted digest leaves the queue, and a delivery that ends
      well leaves disk and memory equal. */
  ghost predicate DeliveredWell(fits: Limit, p: Process, w: World, o: Outcome, p1: Process, w1: World) {
    match o
    case Died => Sound(fits, w1) && Onward(w, w1) && w1.crashed
    case Raised => Core(fits, p1.mem, w1) && Onward(w, w1) && p1.err == p.err
    case Fine => Core(fits, p1.mem, w1) && Onward(w, w1) && p1.err == p.err && w1.disk == Some(p1.mem)
  }

  lemma DeliveringKeeps(fits: Limit, p: Process, w: World, alerts: Snapshot, notify: NotifyLuck, luck: SaveLuck)
    requires Core(fits, p.mem, w) && Monotone(fits) && w.disk == Some(p.mem)
    ensures var (o, p1, w1) := Delivering(p, w, alerts, notify, luck); DeliveredWell(fits, p, w, o, p1, w1)
  {
    var digest := Digest(p.mem.state.pending, alerts);
    SuffixSelf(SavedLog(w));
    if digest != [] {
      var ok := notify.Accepts? || notify.DiesHeard?;
      SendingKeeps(fits, p.mem, w, alerts, ok);
      if notify.Accepts? {
        AcceptedKeeps(fits, p, w, alerts, luck);
      } else if !notify.Rejects? {
        CrashKeeps(fits, Sending(w, digest, ok));
      }
    }
  }

  lemma CrashKeeps(fits: Limit, w: World)
    requires Sound(fits, w)
    ensures Sound(fits, w.(crashed := true))
  {
  }

  lemma AcceptedKeeps(fits: Limit, p: Process, w: World, alerts: Snapshot, luck: SaveLuck)
    requires Core(fits, p.mem, w) && Monotone(fits) && w.disk == Some(p.mem)
    ensures var m := Delivered(p.mem, alerts);
      var sent := Sending(w, Digest(p.mem.state.pending, alerts), true);
      DeliveredWell(fits, p, w, SaveOutcome(luck), p.(mem := m), Saving(m, sent, luck))
  {
    var sent := Sending(w, Digest(p.mem.state.pending, alerts), true);
    var m := Delivered(p.mem, alerts);
    SendingKeeps(fits, p.mem, w, alerts, true);
    DeliveredKeeps(fits, p.mem, w, sent, alerts);
    SavingKeeps(fits, m, sent, luck);
  }

  /** How a cycle may end. The disk is sound even if the process died; if it lives on it is
      healthy; and alerts are reported only with no error noted and the disk equal to memory. */
  ghost predicate CycledWell(fits: Limit, end: End, p1: Process, w1: World) {
    match end
    case Dead => Sound(fits, w1) && w1.crashed
    case Offline => Healthy(fits, p1, w1)
    case Reporting => Healthy(fits, p1, w1) && !p1.err && w1.disk == Some(p1.mem)
  }

  lemma FinishingKeeps(fits: Limit, p: Process, w: World, alerts: Snapshot, luck: Luck)
    requires Core(fits, p.mem, w) && Monotone(fits) && w.disk == Some(p.mem)
    ensures var (end, p1, w1) := Finishing(p, w, alerts, luck);
      && Onward(w, w1)
      && CycledWell(fits, Silent(end), p1, w1)
      && (!p.err ==> CycledWell(fits, end, p1, w1))
  {
    DeliveringKeeps(fits, p, w, alerts, luck.notify, luck.saveAgain);
  }

  lemma DrainingKeeps(fits: Limit, p: Process, w: World, alerts: Snapshot, luck: Luck)
    requires Core(fits, p.mem, w) && Monotone(fits)
    ensures var (end, p1, w1) := Draining(p, w, alerts, luck); Onward(w, w1) && CycledWell(fits, end, p1, w1)
  {
    var w1 := Saving(p.mem, w, luck.save);
    SavingKeeps(fits, p.mem, w, luck.save);
    if SaveOutcome(luck.save) == Fine {
      DrainedWell(fits, p, w, w1, alerts, luck);
    } else {
      UnsavedWell(fits, p, w, w1, SaveOutcome(luck.save));
    }
  }

  lemma DrainedWell(fits: Limit, p: Process, w: World, w1: World, alerts: Snapshot, luck: Luck)
    requires Onward(w, w1) && Core(fits, p.mem, w1) && Monotone(fits) && w1.disk == Some(p.mem)
    ensures var (end, p2, w2) := Finishing(p.(err := true), w1, alerts, luck); Onward(w, w2) && CycledWell(fits, Silent(end), p2, w2)
  {
    FinishingKeeps(fits, p.(err := true), w1, alerts, luck);
    var (end, p2, w2) := Finishing(p.(err := true), w1, alerts, luck);
    OnwardTransitive(w, w1, w2);
  }

  lemma UnsavedWell(fits: Limit, p: Process, w: World, w1: World, o: Outcome)
    requires Onward(w, w1) && Core(fits, p.mem, w1) && o != Fine && (o == Died ==> w1.crashed)
    ensures Onward(w, w1) && CycledWell(fits, Silent(EndOf(o)), p.(err := true), w1)
  {
    NotedIsHealthy(fits, p.(err := true), w1);
  }

  /** A process that has noted an error need not agree with the disk. */
  lemma NotedIsHealthy(fits: Limit, p: Process, w: World)
    requires Core(fits, p.mem, w) && p.err
    ensures Healthy(fits, p, w) && Sound(fits, w)
  {
  }

  lemma OnwardTransitive(w: World, w1: World, w2: World)
    requires Onward(w, w1) && Onward(w1, w2)
    ensures Onward(w, w2)
  {
    SuffixTransitive(SavedLog(w), SavedLog(w1), SavedLog(w2));
  }

  lemma ObservedCycle(fits: Limit, p: Process, w: World, p1: Process, w1: World, alerts: Snapshot, luck: Luck)
    requires Monotone(fits) && ObservedWell(fits, p, w, Observed, p1, w1)
    ensures var (end, p2, w2) := Proceeding(Observed, p1, w1, alerts, luck); Onward(w, w2) && CycledWell(fits, end, p2, w2)
  {
    FinishingKeeps(fits, p1, w1, alerts, luck);
    var (end, p2, w2) := Finishing(p1, w1, alerts, luck);
    OnwardTransitive(w, w1, w2);
  }

  lemma FailedCycle(fits: Limit, w: World, o: Outcome, p1: Process, w1: World, alerts: Snapshot, luck: Luck)
    requires Core(fits, p1.mem, w1) && Onward(w, w1) && o != Fine && (o == Died ==> w1.crashed)
    ensures var (end, p2, w2) := Proceeding(Failed(o), p1, w1, alerts, luck); Onward(w, w2) && CycledWell(fits, end, p2, w2)
  {
    NotedIsHealthy(fits, p1.(err := true), w1);
  }

  lemma RefusedCycle(fits: Limit, p: Process, w: World, bytes: bool, p1: Process, w1: World, alerts: Snapshot, luck: Luck)
    requires Healthy(fits, p, w) && Monotone(fits) && ObservedWell(fits, p, w, Full(bytes), p1, w1)
    ensures var (end, p2, w2) := Proceeding(Full(bytes), p1, w1, alerts, luck); Onward(w, w2) && CycledWell(fits, end, p2, w2)
  {
    assert p1 == p && w1 == w;
    DrainingKeeps(fits, p, w, alerts, luck);
  }

  lemma ProceedingKeeps(fits: Limit, p: Process, w: World, r: Observation, p1: Process, w1: World, alerts: Snapshot, luck: Luck)
    requires Healthy(fits, p, w) && Monotone(fits) && ObservedWell(fits, p, w, r, p1, w1)
    ensures var (end, p2, w2) := Proceeding(r, p1, w1, alerts, luck); Onward(w, w2) && CycledWell(fits, end, p2, w2)
  {
    match r {
      case Observed => ObservedCycle(fits, p, w, p1, w1, alerts, luck);
      case Full(bytes) => RefusedCycle(fits, p, w, bytes, p1, w1, alerts, luck);
      case Failed(o) => FailedCycle(fits, w, o, p1, w1, alerts, luck);
    }
  }

  lemma OnlyObservedReports(r: Observation, p: Process, w: World, alerts: Snapshot, luck: Luck)
    requires Proceeding(r, p, w, alerts, luck).0.Reporting?
    ensures r == Observed
  {
  }

  /** Every cycle keeps the disk sound, and a cycle that ends keeps the process healthy. Alerts
      are reported only after an accepted observation, with disk and memory equal. */
  lemma CyclingKeeps(fits: Limit, p: Process, w: World, alerts: Option<Snapshot>, stamp: int, luck: Luck)
    requires Healthy(fits, p, w) && Monotone(fits) && (alerts.Some? ==> ValidSnapshot(alerts.value))
    ensures var (end, p1, w1) := Cycling(fits, p, w, alerts, stamp, luck);
      && Onward(w, w1) && CycledWell(fits, end, p1, w1)
      && (end.Reporting? ==> alerts.Some? && Observing(fits, p, w, alerts.value, stamp, luck.save).0 == Observed)
  {
    if alerts.None? {
      SuffixSelf(SavedLog(w));
    } else {
      ObservingKeeps(fits, p, w, alerts.value, stamp, luck.save);
      var (r, p1, w1) := Observing(fits, p, w, alerts.value, stamp, luck.save);
      ProceedingKeeps(fits, p, w, r, p1, w1, alerts.value, luck);
      if Proceeding(r, p1, w1, alerts.value, luck).0.Reporting? {
        OnlyObservedReports(r, p1, w1, alerts.value, luck);
      }
    }
  }

  // ---------- what an observation, a delivery and a cycle do ----------

  lemma {:induction false} SelectCounts(pending: seq<Event>, alerts: Snapshot, held: bool, e: Event)
    ensures multiset(Select(pending, alerts, held))[e] == if Held(alerts, e) == held then multiset(pending)[e] else 0
  {
    if pending == [] {
    } else {
      SelectCounts(pending[1..], alerts, held, e);
      assert pending == [pending[0]] + pending[1..];
    }
  }

  /** The order of a digest: critical ones, then older ones, then firing ones, then by id. */
  predicate MoreUrgent(a: Event, b: Event) {
    || (a.critical && !b.critical)
    || (a.critical == b.critical && a.time < b.time)
    || (a.critical == b.critical && a.time == b.time && !a.resolved && b.resolved)
    || (a.critical == b.critical && a.time == b.time && a.resolved == b.resolved && a.id <= b.id)
  }

  /** The digest has every queued event, as often as it is queued, whose alert is gone or not
      suppressed, and no other, in order. */
  ghost predicate CarriesAllDue(digest: seq<Event>, pending: seq<Event>, alerts: Snapshot) {
    && (forall e :: multiset(digest)[e] == if e.id in alerts && alerts[e.id].suppressed then 0 else multiset(pending)[e])
    && (forall i, j :: 0 <= i < j < |digest| ==> MoreUrgent(digest[i], digest[j]))
  }

  lemma DigestCarriesAllDue(pending: seq<Event>, alerts: Snapshot)
    ensures CarriesAllDue(Digest(pending, alerts), pending, alerts)
  {
    StableSortSorts(Select(pending, alerts, false), DigestOrder);
    SortedByUrgency(Digest(pending, alerts));
    forall e ensures multiset(Digest(pending, alerts))[e] ==
      if e.id in alerts && alerts[e.id].suppressed then 0 else multiset(pending)[e]
    {
      SelectCounts(pending, alerts, false, e);
    }
  }

  lemma SortedByUrgency(digest: seq<Event>)
    requires Sorted(digest, DigestOrder)
    ensures forall i, j :: 0 <= i < j < |digest| ==> MoreUrgent(digest[i], digest[j])
  {
    forall i, j | 0 <= i < j < |digest| ensures MoreUrgent(digest[i], digest[j]) {
      assert DigestOrder(digest[i], digest[j]);
    }
  }

  /** Some queued event belongs to an alert that is gone or not suppressed. */
  ghost predicate SomeDue(pending: seq<Event>, alerts: Snapshot) {
    exists e :: e in pending && !(e.id in alerts && alerts[e.id].suppressed)
  }

  lemma DigestEmptyIff(pending: seq<Event>, alerts: Snapshot)
    ensures Digest(pending, alerts) != [] <==> SomeDue(pending, alerts)
  {
    var digest := Digest(pending, alerts);
    StableSortSorts(Select(pending, alerts, false), DigestOrder);
    SelectIs(pending, alerts, false);
    assert digest != [] ==> digest[0] in digest;
  }

  /** What is left of a queue: every event whose alert is in the snapshot and suppressed, as
      often as it was queued, and no other. */
  ghost predicate OnlySuppressedLeft(before: seq<Event>, after: seq<Event>, alerts: Snapshot) {
    forall e :: multiset(after)[e] == if e.id in alerts && alerts[e.id].suppressed then multiset(before)[e] else 0
  }

  lemma DeliveredLeaves(m: Memory, alerts: Snapshot)
    ensures OnlySuppressedLeft(m.state.pending, Delivered(m, alerts).state.pending, alerts)
  {
    forall e ensures multiset(Delivered(m, alerts).state.pending)[e] ==
      if e.id in alerts && alerts[e.id].suppressed then multiset(m.state.pending)[e] else 0
    {
      SelectCounts(m.state.pending, alerts, true, e);
    }
  }

  /** A delivery makes one notify call when some queued event is due, and none otherwise. The
      call carries everything that is due. If it is answered with success, only what is
      suppressed stays queued; if it is not, nothing leaves the queue. */
  lemma DeliveringSends(p: Process, w: World, alerts: Snapshot, notify: NotifyLuck, luck: SaveLuck)
    ensures var (o, p1, w1) := Delivering(p, w, alerts, notify, luck);
      if SomeDue(p.mem.state.pending, alerts) then
        && |w1.attempts| == |w.attempts| + 1 && w1.attempts[..|w.attempts|] == w.attempts
        && CarriesAllDue(w1.attempts[|w.attempts|].digest, p.mem.state.pending, alerts)
        && (w1.attempts[|w.attempts|].ok <==> notify.Accepts? || notify.DiesHeard?)
        && (notify.Accepts? ==> OnlySuppressedLeft(p.mem.state.pending, p1.mem.state.pending, alerts))
        && (!notify.Accepts? ==> p1.mem == p.mem)
      else w1 == w && p1 == p && o == Fine
  {
    DigestEmptyIff(p.mem.state.pending, alerts);
    if SomeDue(p.mem.state.pending, alerts) {
      DigestCarriesAllDue(p.mem.state.pending, alerts);
      DeliveredLeaves(p.mem, alerts);
    }
  }

  /** A firing for an alert that is there, unsuppressed and not yet observed, or a resolution
      for an observed one that is gone, each with the severity and text of its alert. */
  predicate IsEventOf(observed: Snapshot, alerts: Snapshot, stamp: int, e: Event) {
    && e.time == stamp
    && (if e.resolved then
          e.id in observed && e.id !in alerts && e.critical == observed[e.id].critical && e.text == observed[e.id].text
        else
          && e.id in alerts && e.id !in observed && !alerts[e.id].suppressed
          && e.critical == alerts[e.id].critical && e.text == alerts[e.id].text)
  }

  /** The events of an observation are just these, one for an id, critical ones first, then
      firing ones, then by id. */
  lemma EventsAre(observed: Snapshot, alerts: Snapshot, stamp: int, e: Event)
    requires KeyedById(observed) && KeyedById(alerts)
    ensures e in EventsOf(observed, alerts, stamp) <==> IsEventOf(observed, alerts, stamp, e)
    ensures var events := EventsOf(observed, alerts, stamp);
      forall i, j :: 0 <= i < j < |events| ==> events[i].id != events[j].id && MoreUrgent(events[i], events[j])
  {
    EventsOfAre(observed, alerts, stamp);
    var events := EventsOf(observed, alerts, stamp);
    if IsNew(observed, alerts, e.id) {
      assert FiringEvent(alerts[e.id], stamp) in events;
    }
    if IsGone(observed, alerts, e.id) {
      assert ResolvedEvent(observed[e.id], stamp) in events;
    }
    forall i, j | 0 <= i < j < |events| ensures events[i].id != events[j].id && MoreUrgent(events[i], events[j]) {
      assert events[i] in events && events[j] in events && ChangeOrder(events[i], events[j]);
    }
  }

  /** The memory after these events: they are queued, they lead the history of at most fifty, and
      what is observed is what is still there, as it was first seen, and what is new. */
  ghost predicate Took(m: Memory, alerts: Snapshot, events: seq<Event>, n: Memory) {
    && n.state.pending == m.state.pending + events && n.log == events + m.log && n.gone == m.gone
    && n.state.history == (if |events| + |m.state.history| <= 50 then events + m.state.history
                           else (events + m.state.history)[..50])
    && forall k :: (k in n.state.observed <==> k in alerts && (k in m.state.observed || !alerts[k].suppressed))
                   && (k in n.state.observed ==>
                         n.state.observed[k] == if k in m.state.observed then m.state.observed[k] else alerts[k])
  }

  lemma WithEventsTakes(m: Memory, alerts: Snapshot, events: seq<Event>)
    ensures Took(m, alerts, events, WithEvents(m, alerts, events))
  {
  }

  /** An observation is refused exactly when its events would make more than 4000 queued ones or
      a state that does not fit; a refused one changes nothing. Any other is taken into memory,
      and it is accepted exactly when there is nothing to save or the save works. */
  lemma ObservingTakes(fits: Limit, p: Process, w: World, alerts: Snapshot, stamp: int, luck: SaveLuck)
    requires KeyedById(p.mem.state.observed) && KeyedById(alerts)
    ensures var events := EventsOf(p.mem.state.observed, alerts, stamp);
      var (r, p1, w1) := Observing(fits, p, w, alerts, stamp, luck);
      var n := WithEvents(p.mem, alerts, events);
      && Took(p.mem, alerts, events, n)
      && (r.Full? <==> |p.mem.state.pending| + |events| > 4000 || (events != [] && !fits(n.state)))
      && (r.Full? ==> p1 == p && w1 == w)
      && (!r.Full? ==> p1.mem == n && w1.attempts == w.attempts)
      && (r == Observed <==> !r.Full? && ((events == [] && !p.err && w.disk.Some?) || luck.Works?))
  {
    WithEventsTakes(p.mem, alerts, EventsOf(p.mem.state.observed, alerts, stamp));
  }

  /** A cycle that fetches its alerts, whose observation is not refused, whose saves work and
      whose notify call is answered with success. */
  ghost predicate GoesWell(fits: Limit, p: Process, alerts: Snapshot, stamp: int, luck: Luck) {
    var events := EventsOf(p.mem.state.observed, alerts, stamp);
    && |p.mem.state.pending| + |events| <= 4000 && (events != [] ==> fits(WithEvents(p.mem, alerts, events).state))
    && luck.save.Works? && luck.notify.Accepts? && luck.saveAgain.Works?
  }

  /** Such a cycle goes on to report. All it observed and all that was queued is sent in its one
      digest, but for what is suppressed, and only that stays queued. */
  lemma GoodCycleDelivers(fits: Limit, p: Process, w: World, alerts: Snapshot, stamp: int, luck: Luck)
    requires KeyedById(p.mem.state.observed) && KeyedById(alerts) && GoesWell(fits, p, alerts, stamp, luck)
    ensures var (end, p1, w1) := Cycling(fits, p, w, Some(alerts), stamp, luck);
      var all := p.mem.state.pending + EventsOf(p.mem.state.observed, alerts, stamp);
      && end == Reporting && OnlySuppressedLeft(all, p1.mem.state.pending, alerts)
      && (SomeDue(all, alerts) ==>
            && |w1.attempts| == |w.attempts| + 1 && w1.attempts[|w.attempts|].ok
            && CarriesAllDue(w1.attempts[|w.attempts|].digest, all, alerts))
      && (!SomeDue(all, alerts) ==> w1.attempts == w.attempts)
  {
    var (r, p1, w1) := Observing(fits, p, w, alerts, stamp, luck.save);
    ObservingTakes(fits, p, w, alerts, stamp, luck.save);
    assert r == Observed;
    DeliveringSends(p1, w1, alerts, luck.notify, luck.saveAgain);
    NothingDueStays(p1.mem.state.pending, alerts);
  }

  lemma NothingDueStays(pending: seq<Event>, alerts: Snapshot)
    ensures !SomeDue(pending, alerts) ==> OnlySuppressedLeft(pending, pending, alerts)
  {
    if !SomeDue(pending, alerts) {
      forall e ensures multiset(pending)[e] ==
        if e.id in alerts && alerts[e.id].suppressed then multiset(pending)[e] else 0
      {
        assert e in multiset(pending) ==> e in pending;
      }
    }
  }

  /** So a new alert that is not suppressed is announced in that very cycle, and the end of an
      observed one is reported in it, each with its severity and text. */
  lemma GoodCycleAnnounces(fits: Limit, p: Process, w: World, alerts: Snapshot, stamp: int, luck: Luck, e: Event)
    requires KeyedById(p.mem.state.observed) && KeyedById(alerts) && GoesWell(fits, p, alerts, stamp, luck)
    requires IsEventOf(p.mem.state.observed, alerts, stamp, e)
    ensures var w1 := Cycling(fits, p, w, Some(alerts), stamp, luck).2;
      |w1.attempts| == |w.attempts| + 1 && w1.attempts[|w.attempts|].ok && e in w1.attempts[|w.attempts|].digest
  {
    var events := EventsOf(p.mem.state.observed, alerts, stamp);
    var all := p.mem.state.pending + events;
    GoodCycleDelivers(fits, p, w, alerts, stamp, luck);
    EventsAre(p.mem.state.observed, alerts, stamp, e);
    assert e in all && !(e.id in alerts && alerts[e.id].suppressed);
    assert multiset(all)[e] > 0;
  }

  /** A refused observation still lets the queue drain: if the saves work and notify accepts,
      all that is due of it is sent and leaves it. The cycle then ends as unavailable. */
  lemma FullCycleDrains(fits: Limit, p: Process, w: World, alerts: Snapshot, stamp: int, luck: Luck)
    requires Observing(fits, p, w, alerts, stamp, luck.save).0.Full?
    requires luck.save.Works? && luck.notify.Accepts? && luck.saveAgain.Works?
    ensures var (end, p1, w1) := Cycling(fits, p, w, Some(alerts), stamp, luck);
      && end == Offline && OnlySuppressedLeft(p.mem.state.pending, p1.mem.state.pending, alerts)
      && (SomeDue(p.mem.state.pending, alerts) ==>
            && |w1.attempts| == |w.attempts| + 1 && w1.attempts[|w.attempts|].ok
            && CarriesAllDue(w1.attempts[|w.attempts|].digest, p.mem.state.pending, alerts))
  {
    var q, v := p.(err := true), Saving(p.mem, w, luck.save);
    DeliveringSends(q, v, alerts, luck.notify, luck.saveAgain);
    NothingDueStays(p.mem.state.pending, alerts);
  }

  /** Whatever the rest of the luck: when alerts are reported after an accepted notify call, every
      event that is still queued belongs to a suppressed alert of the snapshot. */
  lemma ReportingLeavesOnlySuppressed(fits: Limit, p: Process, w: World, alerts: Snapshot, stamp: int, luck: Luck, e: Event)
    requires var (end, p1, w1) := Cycling(fits, p, w, Some(alerts), stamp, luck);
      end.Reporting? && luck.notify.Accepts? && e in p1.mem.state.pending
    ensures e.id in alerts && alerts[e.id].suppressed
  {
    var (r, p1, w1) := Observing(fits, p, w, alerts, stamp, luck.save);
    OnlyObservedReports(r, p1, w1, alerts, luck);
    DeliveringSends(p1, w1, alerts, luck.notify, luck.saveAgain);
    var (o, p2, w2) := Delivering(p1, w1, alerts, luck.notify, luck.saveAgain);
    assert multiset(p2.mem.state.pending)[e] > 0;
  }

  // ---------- every run ----------

  /** A run is any sequence of cycles, each with its own luck, and of kills between them. */
  datatype Input = Cycle(alerts: Option<Snapshot>, stamp: int, luck: Luck) | Kill

  ghost predicate ValidInput(i: Input) {
    i.Cycle? && i.alerts.Some? ==> ValidSnapshot(i.alerts.value)
  }

  /** A process started from what is on disk. */
  ghost function Restarted(w: World): Process {
    Process(if w.disk.None? then Memory(EMPTY, [], multiset{}) else w.disk.value, false)
  }

  ghost function Stepping(fits: Limit, i: Input, p: Process, w: World): (Process, World) {
    match i
    case Kill => (Restarted(w), w.(crashed := true))
    case Cycle(alerts, stamp, luck) =>
      var (end, p1, w1) := Cycling(fits, p, w, alerts, stamp, luck);
      (if end.Dead? then Restarted(w1) else p1, w1)
  }

  ghost function Running(fits: Limit, inputs: seq<Input>, p: Process, w: World): (Process, World) {
    if inputs == [] then (p, w)
    else
      var (p1, w1) := Stepping(fits, inputs[0], p, w);
      Running(fits, inputs[1..], p1, w1)
  }

  /** What a crash leaves on disk always loads, and a process started from it is healthy. */
  lemma RestartIsHealthy(fits: Limit, w: World)
    requires Sound(fits, w) && fits(EMPTY) && (w.crashed || w == World(None, multiset{}, [], false))
    ensures Healthy(fits, Restarted(w), w)
    ensures w.disk.Some? ==> LoadOk(fits, w.disk.value.state)
  {
    SuffixSelf(SavedLog(w));
    var m := Restarted(w).mem;
    assert Consistent(fits, m);
  }

  lemma SteppingKeeps(fits: Limit, i: Input, p: Process, w: World)
    requires Healthy(fits, p, w) && Monotone(fits) && fits(EMPTY) && ValidInput(i)
    ensures var (p1, w1) := Stepping(fits, i, p, w); Healthy(fits, p1, w1) && Onward(w, w1)
  {
    match i {
      case Kill =>
        SuffixSelf(SavedLog(w));
        CrashKeeps(fits, w);
        RestartIsHealthy(fits, w.(crashed := true));
      case Cycle(alerts, stamp, luck) =>
        CyclingKeeps(fits, p, w, alerts, stamp, luck);
        var (end, p1, w1) := Cycling(fits, p, w, alerts, stamp, luck);
        if end.Dead? {
          RestartIsHealthy(fits, w1);
        }
    }
  }

  lemma {:induction false} RunningKeeps(fits: Limit, inputs: seq<Input>, p: Process, w: World)
    requires Healthy(fits, p, w) && Monotone(fits) && fits(EMPTY) && forall i :: i in inputs ==> ValidInput(i)
    ensures var (p1, w1) := Running(fits, inputs, p, w); Healthy(fits, p1, w1) && Onward(w, w1)
  {
    if inputs == [] {
      SuffixSelf(SavedLog(w));
    } else {
      assert inputs[0] in inputs;
      SteppingKeeps(fits, inputs[0], p, w);
      var (p1, w1) := Stepping(fits, inputs[0], p, w);
      assert forall i :: i in inputs[1..] ==> i in inputs;
      RunningKeeps(fits, inputs[1..], p1, w1);
      var (p2, w2) := Running(fits, inputs[1..], p1, w1);
      SuffixTransitive(SavedLog(w), SavedLog(w1), SavedLog(w2));
    }
  }

  /** Over every run with save failures, notify failures and crashes at every point: each event
      of a sent digest was in the queue on disk when it was sent; every event that ever reached
      the disk is in an accepted digest or still in the queue on disk; without a crash the
      events generated are exactly those accepted plus those queued; and per alert the events
      alternate, with the alert observed just when its last event is firing; and what is on disk
      always passes the checks of the next load. */
  lemma EveryRunIsDurable(fits: Limit, inputs: seq<Input>)
    requires Monotone(fits) && fits(EMPTY) && forall i :: i in inputs ==> ValidInput(i)
    ensures var start := World(None, multiset{}, [], false);
      var (p, w) := Running(fits, inputs, Restarted(start), start);
      && DurableFirst(w)
      && AtLeastOnce(w)
      && (!w.crashed ==> multiset(p.mem.log) == w.accepted + multiset(p.mem.state.pending))
      && LogAgrees(p.mem.log, p.mem.state.observed, p.mem.state.history)
      && (!p.err && w.disk.Some? ==> w.disk == Some(p.mem))
      && (w.disk.Some? ==> LoadOk(fits, w.disk.value.state))
  {
    var start := World(None, multiset{}, [], false);
    RestartIsHealthy(fits, start);
    RunningKeeps(fits, inputs, Restarted(start), start);
    var (p, w) := Running(fits, inputs, Restarted(start), start);
    HealthyIsDurable(fits, p, w);
  }

  lemma HealthyIsDurable(fits: Limit, p: Process, w: World)
    requires Healthy(fits, p, w)
    ensures DurableFirst(w) && AtLeastOnce(w)
    ensures !w.crashed ==> multiset(p.mem.log) == w.accepted + multiset(p.mem.state.pending)
    ensures LogAgrees(p.mem.log, p.mem.state.observed, p.mem.state.history)
    ensures LoadOk(fits, p.mem.state)
    ensures !p.err && w.disk.Some? ==> w.disk == Some(p.mem)
    ensures w.disk.Some? ==> LoadOk(fits, w.disk.value.state)
  {
  }

  // ---------- AlertBridge ----------

  /** The state file and Home Assistant. The ghost world is what the file and the calls were. */
  class Outside {
    var file: Option<Saved>
    ghost var world: World

    constructor ()
      ensures file == None && world == World(None, multiset{}, [], false)
    {
      file, world := None, World(None, multiset{}, [], false);
    }

    ghost predicate Valid()
      reads this
    {
      file == match world.disk { case None => None case Some(m) => Some(m.state) }
    }
  }

  class AlertBridge {
    const out: Outside
    const fits: Limit
    var observed: Snapshot
    var pending: seq<Event>
    var history: seq<Event>
    var stateError: bool
    var notifyFailures: nat
    ghost var log: seq<Event>
    ghost var gone: multiset<Event>

    constructor (out: Outside, fits: Limit)
      requires out.Valid()
      ensures this.out == out && this.fits == fits && View() == Restarted(out.world)
    {
      this.out, this.fits := out, fits;
      var s := match out.file { case None => EMPTY case Some(saved) => saved };
      observed, pending, history := s.observed, s.pending, s.history;
      stateError, notifyFailures := false, 0;
      log, gone := Restarted(out.world).mem.log, Restarted(out.world).mem.gone;
    }

    ghost function View(): Process
      reads this
    {
      Process(Memory(Saved(observed, pending, history), log, gone), stateError)
    }

    /** Replace the file, as luck has it. */
    method Save(luck: SaveLuck) returns (o: Outcome)
      requires out.Valid()
      modifies out
      ensures out.Valid()
      ensures fits(Saved(observed, pending, history)) ==>
        o == SaveOutcome(luck) && out.world == Saving(View().mem, old(out.world), luck)
      ensures !fits(Saved(observed, pending, history)) ==> o == Raised && out.world == old(out.world)
    {
      if !fits(Saved(observed, pending, history)) {
        return Raised;
      }
      if Replaces(luck) {
        out.file := Some(Saved(observed, pending, history));
      }
      out.world := Saving(View().mem, out.world, luck);
      return SaveOutcome(luck);
    }

    method Observe(alerts: Snapshot, stamp: int, luck: SaveLuck) returns (r: Observation)
      requires out.Valid() && ValidSnapshot(alerts) && LoadOk(fits, View().mem.state)
      modifies this, out
      ensures out.Valid()
      ensures (r, View(), out.world) == Observing(fits, old(View()), old(out.world), alerts, stamp, luck)
    {
      var changes := Collect(observed, alerts, stamp);
      ObservingIs(fits, View(), out.world, alerts, stamp, luck, changes);
      if |pending| + |changes| > MAX_PENDING {
        return Full(false);
      }
      var ok := Adopt(alerts, stamp, changes);
      if !ok {
        return Full(true);
      }
      r := Persist(changes != [], luck);
    }

    /** Take the changes into memory, unless that would pass the byte limit. */
    method Adopt(alerts: Snapshot, stamp: int, changes: seq<Event>) returns (ok: bool)
      requires ValidSnapshot(alerts) && LoadOk(fits, View().mem.state) && changes == EventsOf(observed, alerts, stamp)
      modifies this`observed, this`pending, this`history, this`log
      ensures ok <==> changes == [] || fits(WithEvents(old(View()).mem, alerts, changes).state)
      ensures ok ==> View().mem == WithEvents(old(View()).mem, alerts, changes) && fits(View().mem.state)
      ensures !ok ==> View() == old(View())
    {
      var nextObserved := ApplyChanges(observed, alerts, stamp, changes);
      if changes == [] {
        NothingChanged(View().mem, alerts, stamp);
        return true;
      }
      var nextPending := pending + changes;
      var nextHistory := Newest(changes + history);
      if !fits(Saved(nextObserved, nextPending, nextHistory)) {
        return false;
      }
      observed, pending, history := nextObserved, nextPending, nextHistory;
      log := changes + log;
      return true;
    }

    /** The end of observe. */
    method Persist(changed: bool, luck: SaveLuck) returns (r: Observation)
      requires out.Valid() && fits(Saved(observed, pending, history))
      modifies this`stateError, out
      ensures out.Valid()
      ensures (r, View(), out.world) == Committing(old(View()).mem, old(stateError), old(out.world), changed, luck)
    {
      if changed || stateError || out.file.None? {
        var o := Save(luck);
        if o != Fine {
          return Failed(o);
        }
      }
      stateError := false;
      return Observed;
    }

    method Deliver(alerts: Snapshot, notify: NotifyLuck, luck: SaveLuck) returns (o: Outcome)
      requires out.Valid() && LoadOk(fits, View().mem.state) && Monotone(fits)
      modifies this, out
      ensures out.Valid()
      ensures (o, View(), out.world) == Delivering(old(View()), old(out.world), alerts, notify, luck)
    {
      var digest := Digest(pending, alerts);
      if digest == [] {
        return Fine;
      }
      out.world := Sending(out.world, digest, notify.Accepts? || notify.DiesHeard?);
      match notify {
        case DiesUnheard | DiesHeard =>
          out.world := out.world.(crashed := true);
          return Died;
        case Rejects =>
          notifyFailures := notifyFailures + 1;
          return Fine;
        case Accepts =>
          o := Dequeue(alerts, digest, luck);
      }
    }

    /** The end of deliver: what was accepted leaves the queue, and the queue is saved. */
    method Dequeue(alerts: Snapshot, digest: seq<Event>, luck: SaveLuck) returns (o: Outcome)
      requires out.Valid() && LoadOk(fits, View().mem.state) && Monotone(fits) && digest == Digest(pending, alerts)
      modifies this`pending, this`gone, out
      ensures out.Valid()
      ensures o == SaveOutcome(luck) && View() == old(View()).(mem := Delivered(old(View()).mem, alerts))
      ensures out.world == Saving(View().mem, old(out.world), luck)
    {
      DequeueFits(fits, View().mem, alerts);
      pending := Unsent(pending, digest);
      gone := gone + multiset(digest);
      o := Save(luck);
    }

    method Cycle(alerts: Option<Snapshot>, stamp: int, luck: Luck) returns (end: End)
      requires out.Valid() && Monotone(fits) && Healthy(fits, View(), out.world)
      requires alerts.Some? ==> ValidSnapshot(alerts.value)
      modifies this, out
      ensures out.Valid()
      ensures (end, View(), out.world) == Cycling(fits, old(View()), old(out.world), alerts, stamp, luck)
    {
      if alerts.None? {
        return Offline;
      }
      ObservingLoads(fits, View(), out.world, alerts.value, stamp, luck.save);
      var r := Observe(alerts.value, stamp, luck.save);
      end := Proceed(r, alerts.value, luck);
    }

    /** The rest of cycle, after observe. */
    method Proceed(r: Observation, alerts: Snapshot, luck: Luck) returns (end: End)
      requires out.Valid() && Monotone(fits) && LoadOk(fits, View().mem.state)
      modifies this, out
      ensures out.Valid()
      ensures (end, View(), out.world) == Proceeding(r, old(View()), old(out.world), alerts, luck)
    {
      match r {
        case Observed =>
          end := Finish(alerts, luck);
        case Failed(o) =>
          if o == Raised {
            stateError := true;
          }
          return Silent(EndOf(o));
        case Full(_) =>
          end := Drain(alerts, luck);
      }
    }

    method Drain(alerts: Snapshot, luck: Luck) returns (end: End)
      requires out.Valid() && Monotone(fits) && LoadOk(fits, View().mem.state)
      modifies this, out
      ensures out.Valid()
      ensures (end, View(), out.world) == Draining(old(View()), old(out.world), alerts, luck)
    {
      stateError := true;
      var o := Save(luck.save);
      if o != Fine {
        return Silent(EndOf(o));
      }
      end := Finish(alerts, luck);
      return Silent(end);
    }

    method Finish(alerts: Snapshot, luck: Luck) returns (end: End)
      requires out.Valid() && LoadOk(fits, View().mem.state) && Monotone(fits)
      modifies this, out
      ensures out.Valid()
      ensures (end, View(), out.world) == Finishing(old(View()), old(out.world), alerts, luck)
    {
      var o := Deliver(alerts, luck.notify, luck.saveAgain);
      if o == Raised {
        stateError := true;
      }
      return EndOf(o);
    }
  }

  lemma ObservingIs(fits: Limit, p: Process, w: World, alerts: Snapshot, stamp: int, luck: SaveLuck, events: seq<Event>)
    requires events == EventsOf(p.mem.state.observed, alerts, stamp)
    ensures Observing(fits, p, w, alerts, stamp, luck) ==
      var m := WithEvents(p.mem, alerts, events);
      if |p.mem.state.pending| + |events| > MAX_PENDING then (Full(false), p, w)
      else if events != [] && !fits(m.state) then (Full(true), p, w)
      else Committing(m, p.err, w, events != [], luck)
  {
  }

  lemma DequeueFits(fits: Limit, m: Memory, alerts: Snapshot)
    requires fits(m.state) && Monotone(fits)
    ensures fits(Delivered(m, alerts).state)
    ensures Unsent(m.state.pending, Digest(m.state.pending, alerts)) == Select(m.state.pending, alerts, true)
  {
    DeliveryTakesExactlyTheDigest(m.state.pending, alerts);
    assert Drops(m.state, Delivered(m, alerts).state);
  }

  lemma ObservingLoads(fits: Limit, p: Process, w: World, alerts: Snapshot, stamp: int, luck: SaveLuck)
    requires Healthy(fits, p, w) && ValidSnapshot(alerts)
    ensures LoadOk(fits, p.mem.state)
    ensures LoadOk(fits, Observing(fits, p, w, alerts, stamp, luck).1.mem.state)
  {
    HealthyIsDurable(fits, p, w);
    ObservingKeeps(fits, p, w, alerts, stamp, luck);
    var (r, p1, w1) := Observing(fits, p, w, alerts, stamp, luck);
    assert Core(fits, p1.mem, w1);
  }

  lemma SortedAreEventsOf(observed: Snapshot, alerts: Snapshot, stamp: int, changes: seq<Event>)
    requires ValidSnapshot(alerts) && KeyedById(observed) && DistinctIds(changes)
    requires forall e :: e in changes ==> IsChange(observed, alerts, stamp, e)
    requires forall k :: IsNew(observed, alerts, k) ==> FiringEvent(alerts[k], stamp) in changes
    requires forall k :: IsGone(observed, alerts, k) ==> ResolvedEvent(observed[k], stamp) in changes
    ensures StableSort(changes, ChangeOrder) == EventsOf(observed, alerts, stamp)
  {
    StableSortSorts(changes, ChangeOrder);
    SortKeepsDistinct(changes);
    EventsOfAre(observed, alerts, stamp);
    ChangesAreDetermined(observed, alerts, stamp, StableSort(changes, ChangeOrder), EventsOf(observed, alerts, stamp));
  }

  /** The changes of a snapshot, in their order. */
  method Collect(observed: Snapshot, alerts: Snapshot, stamp: int) returns (changes: seq<Event>)
    requires ValidSnapshot(alerts) && KeyedById(observed)
    ensures changes == EventsOf(observed, alerts, stamp)
  {
    changes := [];
    var todo := alerts.Keys;
    while todo != {}
      invariant todo <= alerts.Keys && DistinctIds(changes)
      invariant forall e :: e in changes ==>
        e.id !in todo && IsNew(observed, alerts, e.id) && e == FiringEvent(alerts[e.id], stamp)
      invariant forall k :: k !in todo && IsNew(observed, alerts, k) ==> FiringEvent(alerts[k], stamp) in changes
    {
      var k :| k in todo;
      todo := todo - {k};
      if IsNew(observed, alerts, k) {
        changes := changes + [FiringEvent(alerts[k], stamp)];
      }
    }
    todo := observed.Keys;
    while todo != {}
      invariant todo <= observed.Keys && DistinctIds(changes)
      invariant forall e :: e in changes ==>
        IsChange(observed, alerts, stamp, e) && (e.resolved ==> e.id !in todo)
      invariant forall k :: IsNew(observed, alerts, k) ==> FiringEvent(alerts[k], stamp) in changes
      invariant forall k :: k !in todo && IsGone(observed, alerts, k) ==> ResolvedEvent(observed[k], stamp) in changes
    {
      var k :| k in todo;
      todo := todo - {k};
      if IsGone(observed, alerts, k) {
        changes := changes + [ResolvedEvent(observed[k], stamp)];
      }
    }
    SortedAreEventsOf(observed, alerts, stamp, changes);
    changes := StableSort(changes, ChangeOrder);
  }

  /** The observed map once the events have been gone through. */
  function ApplyEvents(observed: Snapshot, alerts: Snapshot, events: seq<Event>): Snapshot {
    if events == [] then observed
    else
      var before, e := ApplyEvents(observed, alerts, events[..|events| - 1]), events[|events| - 1];
      if e.resolved || e.id !in alerts then before - {e.id} else before[e.id := alerts[e.id]]
  }

  method ApplyChanges(observed: Snapshot, alerts: Snapshot, stamp: int, changes: seq<Event>) returns (next: Snapshot)
    requires KeyedById(observed) && KeyedById(alerts) && changes == EventsOf(observed, alerts, stamp)
    ensures next == NextObserved(observed, alerts)
  {
    ApplyingAllIsNext(observed, alerts, stamp);
    next := observed;
    var i := 0;
    while i < |changes|
      invariant 0 <= i <= |changes|
      invariant next == ApplyEvents(observed, alerts, changes[..i])
    {
      var e := changes[i];
      assert e in changes;
      ApplyEventsSnoc(observed, alerts, changes, i);
      if e.resolved {
        next := next - {e.id};
      } else {
        next := next[e.id := alerts[e.id]];
      }
      i := i + 1;
    }
    assert changes[..i] == changes;
  }

  lemma ApplyEventsSnoc(observed: Snapshot, alerts: Snapshot, events: seq<Event>, i: nat)
    requires i < |events|
    ensures var before, e := ApplyEvents(observed, alerts, events[..i]), events[i];
      ApplyEvents(observed, alerts, events[..i + 1]) ==
        if e.resolved || e.id !in alerts then before - {e.id} else before[e.id := alerts[e.id]]
  {
    assert events[..i + 1][..i] == events[..i];
  }

  lemma ApplyingAllIsNext(observed: Snapshot, alerts: Snapshot, stamp: int)
    requires KeyedById(observed) && KeyedById(alerts)
    ensures ApplyEvents(observed, alerts, EventsOf(observed, alerts, stamp)) == NextObserved(observed, alerts)
    ensures forall e :: e in EventsOf(observed, alerts, stamp) ==> e.resolved || e.id in alerts
  {
    EventsOfAre(observed, alerts, stamp);
    ApplyEventsIsNext(observed, alerts, stamp, EventsOf(observed, alerts, stamp));
  }

  lemma InitDistinct(events: seq<Event>)
    requires events != [] && DistinctIds(events)
    ensures var init, last := events[..|events| - 1], events[|events| - 1];
      DistinctIds(init) && forall e :: e in init ==> e.id != last.id
  {
  }

  lemma {:induction false} ApplyEventsAt(observed: Snapshot, alerts: Snapshot, events: seq<Event>, k: Id)
    requires DistinctIds(events)
    ensures var s := ApplyEvents(observed, alerts, events);
      && ((forall e :: e in events ==> e.id != k) ==> (k in s <==> k in observed) && (k in s ==> s[k] == observed[k]))
      && (forall e :: e in events && e.id == k && e.resolved ==> k !in s)
      && (forall e :: e in events && e.id == k && !e.resolved && k in alerts ==> k in s && s[k] == alerts[k])
  {
    if events == [] {
    } else {
      var init, last := events[..|events| - 1], events[|events| - 1];
      assert events == init + [last];
      ApplyEventsAt(observed, alerts, init, k);
      InitDistinct(events);
    }
  }

  lemma ApplyEventsIsNext(observed: Snapshot, alerts: Snapshot, stamp: int, events: seq<Event>)
    requires Changes(observed, alerts, stamp, events) && KeyedById(observed) && KeyedById(alerts)
    ensures ApplyEvents(observed, alerts, events) == NextObserved(observed, alerts)
  {
    var s, n := ApplyEvents(observed, alerts, events), NextObserved(observed, alerts);
    forall k ensures (k in s <==> k in n) && (k in s ==> s[k] == n[k]) {
      ApplyEventsAt(observed, alerts, events, k);
      if IsNew(observed, alerts, k) {
        assert FiringEvent(alerts[k], stamp) in events;
      } else if IsGone(observed, alerts, k) {
        assert ResolvedEvent(observed[k], stamp) in events;
      } else {
        assert forall e :: e in events ==> e.id != k;
      }
    }
    assert s.Keys == n.Keys;
  }
}
