/** The drive-bay view that bw-ui keeps of an agent: a snapshot on joining, then one event for
    every bay that changed (BayWatch: agent/main.go, agent/hub.go, ui/fleet.go). */
module Replication {
  import opened Options
  import opened Sorting

  const BUFFER := 64

  datatype SlotState = Unset | Healthy | Faulty | Empty

  /** A bay is known by its enclosure's logical id and its slot number. */
  datatype Key = Key(enclosure: nat, number: int)

  /** `rest` stands for the fields that `changed` leaves out: component, model, serial, size
      and pool. */
  datatype Slot = Slot(key: Key, present: bool, state: SlotState, fault: bool, locate: bool, until: Option<int>,
                       dev: nat, temp: int, zfs: nat, smart: nat, reason: nat, rest: nat)

  datatype Enclosure = Enclosure(id: nat, slots: seq<Slot>)

  type Snapshot = seq<Enclosure>

  /** Go's zero Slot, which a missing key of the index gives. */
  const ZERO := Slot(Key(0, 0), false, Unset, false, false, None, 0, 0, 0, 0, 0, 0)

  predicate Changed(prev: Slot, cur: Slot) {
    || prev.state != cur.state || prev.fault != cur.fault || prev.locate != cur.locate || prev.dev != cur.dev
    || prev.temp != cur.temp || prev.zfs != cur.zfs || prev.smart != cur.smart || prev.reason != cur.reason
    || prev.until.None? != cur.until.None?
  }

  /** Every bay of a snapshot, in order. */
  function Bays(encs: Snapshot): seq<Slot> {
    if encs == [] then [] else encs[0].slots + Bays(encs[1..])
  }

  // ---------- reconcile ----------

  /** What was read about one bay. */
  datatype Reading = Reading(key: Key, present: bool, bad: bool, locate: bool, until: Option<int>,
                             dev: nat, temp: int, zfs: nat, smart: nat, reason: nat, rest: nat)

  datatype Cage = Cage(id: nat, readings: seq<Reading>)

  function SlotOf(r: Reading): Slot {
    var bad := r.present && r.bad;
    Slot(r.key, r.present, if !r.present then Empty else if bad then Faulty else Healthy, bad, r.locate, r.until,
         r.dev, r.temp, r.zfs, r.smart, if r.present then r.reason else 0, r.rest)
  }

  function SlotsOf(readings: seq<Reading>): seq<Slot> {
    seq(|readings|, i requires 0 <= i < |readings| => SlotOf(readings[i]))
  }

  predicate LowerBay(a: Slot, b: Slot) { a.key.number <= b.key.number }

  /** The snapshot made of a set of readings. */
  function Published(cages: seq<Cage>): Snapshot {
    seq(|cages|, i requires 0 <= i < |cages| => Enclosure(cages[i].id, StableSort(SlotsOf(cages[i].readings), LowerBay)))
  }

  /** slotIndex: the last bay under each key. */
  function IndexBays(bays: seq<Slot>): map<Key, Slot> {
    if bays == [] then map[] else IndexBays(bays[..|bays| - 1])[bays[|bays| - 1].key := bays[|bays| - 1]]
  }

  function SlotIndex(cur: Option<Snapshot>): map<Key, Slot> {
    if cur.None? then map[] else IndexBays(Bays(cur.value))
  }

  function Was(prev: map<Key, Slot>, k: Key): Slot { if k in prev then prev[k] else ZERO }

  /** One event for each of these bays that changed. */
  function DiffSlots(prev: map<Key, Slot>, slots: seq<Slot>): seq<Slot> {
    if slots == [] then []
    else
      var s := slots[|slots| - 1];
      DiffSlots(prev, slots[..|slots| - 1]) + if Changed(Was(prev, s.key), s) then [s] else []
  }

  function Diff(prev: map<Key, Slot>, cages: seq<Cage>): seq<Slot> {
    if cages == [] then [] else Diff(prev, cages[..|cages| - 1]) + DiffSlots(prev, SlotsOf(cages[|cages| - 1].readings))
  }

  // ---------- the UI ----------

  function PutSlots(slots: seq<Slot>, ev: Slot): seq<Slot> {
    seq(|slots|, i requires 0 <= i < |slots| => if slots[i].key.number == ev.key.number then ev else slots[i])
  }

  /** applySlot: in every enclosure with the event's id, every slot with its number. */
  function Apply(encs: Snapshot, ev: Slot): Snapshot {
    seq(|encs|, e requires 0 <= e < |encs| =>
      if encs[e].id == ev.key.enclosure then encs[e].(slots := PutSlots(encs[e].slots, ev)) else encs[e])
  }

  datatype Counts = Counts(drives: nat, faults: nat, locates: nat, empty: nat)

  function Counted(c: Counts, s: Slot): Counts {
    Counts(c.drives + if s.present then 1 else 0, c.faults + if s.fault then 1 else 0,
           c.locates + if s.locate then 1 else 0, c.empty + if s.present then 0 else 1)
  }

  function CountBays(bays: seq<Slot>): Counts {
    if bays == [] then Counts(0, 0, 0, 0) else Counted(CountBays(bays[..|bays| - 1]), bays[|bays| - 1])
  }

  ghost function Where(bays: seq<Slot>, holds: Slot -> bool): set<int> { set i | 0 <= i < |bays| && holds(bays[i]) }

  lemma WhereSnoc(bays: seq<Slot>, holds: Slot -> bool)
    requires bays != []
    ensures |Where(bays, holds)| == |Where(bays[..|bays| - 1], holds)| + if holds(bays[|bays| - 1]) then 1 else 0
  {
    var n := |bays| - 1;
    var some := Where(bays[..n], holds);
    assert Where(bays, holds) == if holds(bays[n]) then some + {n} else some;
  }

  /** The header counts are the numbers of bays with a drive, with a fault, with a locate, and
      without a drive. */
  lemma {:induction false} CountsAreNumbers(bays: seq<Slot>)
    ensures var c := CountBays(bays);
      && c.drives == |Where(bays, (s: Slot) => s.present)| && c.faults == |Where(bays, (s: Slot) => s.fault)|
      && c.locates == |Where(bays, (s: Slot) => s.locate)| && c.empty == |Where(bays, (s: Slot) => !s.present)|
  {
    if bays == [] {
    } else {
      CountsAreNumbers(bays[..|bays| - 1]);
      WhereSnoc(bays, (s: Slot) => s.present);
      WhereSnoc(bays, (s: Slot) => s.fault);
      WhereSnoc(bays, (s: Slot) => s.locate);
      WhereSnoc(bays, (s: Slot) => !s.present);
    }
  }

  // ---------- bays by key ----------

  function KeysOf(bays: seq<Slot>): seq<Key> {
    seq(|bays|, i requires 0 <= i < |bays| => bays[i].key)
  }

  ghost predicate Distinct(keys: seq<Key>) {
    forall i, j :: 0 <= i < j < |keys| ==> keys[i] != keys[j]
  }

  /** Slots are filed under their own enclosure. */
  ghost predicate Filed(encs: Snapshot) {
    forall e, i :: 0 <= e < |encs| && 0 <= i < |encs[e].slots| ==> encs[e].slots[i].key.enclosure == encs[e].id
  }

  /** What reconcile makes: an empty bay is one without a drive. */
  predicate Honest(s: Slot) { s.state != Unset && (s.present <==> s.state != Empty) }

  /** A snapshot of exactly these bays. */
  ghost predicate Shows(keys: seq<Key>, encs: Snapshot) {
    Filed(encs) && KeysOf(Bays(encs)) == keys && forall s :: s in Bays(encs) ==> Honest(s)
  }

  function Put(bays: seq<Slot>, ev: Slot): seq<Slot> {
    seq(|bays|, i requires 0 <= i < |bays| => if bays[i].key == ev.key then ev else bays[i])
  }

  lemma PutAppend(a: seq<Slot>, b: seq<Slot>, ev: Slot)
    ensures Put(a + b, ev) == Put(a, ev) + Put(b, ev)
  {
  }

  lemma {:induction false} ApplyPuts(encs: Snapshot, ev: Slot)
    requires Filed(encs)
    ensures Bays(Apply(encs, ev)) == Put(Bays(encs), ev) && Filed(Apply(encs, ev))
  {
    if encs == [] {
    } else {
      var head, rest := encs[0], encs[1..];
      assert Apply(encs, ev)[1..] == Apply(rest, ev);
      forall e, i | 0 <= e < |rest| && 0 <= i < |rest[e].slots| ensures rest[e].slots[i].key.enclosure == rest[e].id {
        assert rest[e] == encs[e + 1];
      }
      ApplyPuts(rest, ev);
      HeadPuts(head, ev);
      PutAppend(head.slots, Bays(rest), ev);
    }
  }

  lemma HeadPuts(head: Enclosure, ev: Slot)
    requires forall i :: 0 <= i < |head.slots| ==> head.slots[i].key.enclosure == head.id
    ensures (if head.id == ev.key.enclosure then PutSlots(head.slots, ev) else head.slots) == Put(head.slots, ev)
  {
  }

  lemma ApplyShows(keys: seq<Key>, encs: Snapshot, ev: Slot)
    requires Shows(keys, encs) && Honest(ev)
    ensures Shows(keys, Apply(encs, ev)) && Bays(Apply(encs, ev)) == Put(Bays(encs), ev)
  {
    ApplyPuts(encs, ev);
    var bays, put := Bays(encs), Put(Bays(encs), ev);
    assert KeysOf(put) == KeysOf(bays);
    forall s | s in put ensures Honest(s) {
      var i :| 0 <= i < |put| && put[i] == s;
      assert bays[i] in bays;
    }
  }

  // ---------- what a bay says of its reading ----------

  /** The bay as it was read: empty without a drive, faulty with a bad one, healthy with a good
      one, and the rest as it is. */
  predicate ShowsReading(s: Slot, r: Reading) {
    && s.key == r.key && (s.present <==> r.present)
    && (s.state == Empty <==> !r.present)
    && (s.state == Faulty <==> r.present && r.bad) && (s.fault <==> r.present && r.bad)
    && (s.state == Healthy <==> r.present && !r.bad)
    && s.locate == r.locate && s.until == r.until && s.dev == r.dev && s.temp == r.temp && s.zfs == r.zfs
    && s.smart == r.smart && s.rest == r.rest && (if r.present then s.reason == r.reason else s.reason == 0)
  }

  lemma SlotShows(r: Reading)
    ensures ShowsReading(SlotOf(r), r)
  {
  }

  /** The enclosure has one bay for each reading, in the order of their numbers. */
  ghost predicate ShowsCage(enc: Enclosure, cage: Cage) {
    && enc.id == cage.id && |enc.slots| == |cage.readings|
    && (forall r :: r in cage.readings ==> Shown(enc.slots, r)) && (forall s :: s in enc.slots ==> IsRead(cage.readings, s))
    && ByNumber(enc.slots)
  }

  ghost predicate Shown(slots: seq<Slot>, r: Reading) { exists s :: s in slots && ShowsReading(s, r) }

  ghost predicate IsRead(readings: seq<Reading>, s: Slot) { exists r :: r in readings && ShowsReading(s, r) }

  ghost predicate ByNumber(slots: seq<Slot>) {
    forall i, j :: 0 <= i < j < |slots| ==> slots[i].key.number <= slots[j].key.number
  }

  /** The snapshot is that of these readings, enclosure by enclosure. */
  ghost predicate ShowsCages(encs: Snapshot, cages: seq<Cage>) {
    |encs| == |cages| && forall c :: 0 <= c < |cages| ==> ShowsCage(encs[c], cages[c])
  }

  lemma PublishedShows(cages: seq<Cage>)
    ensures ShowsCages(Published(cages), cages)
  {
    forall c | 0 <= c < |cages| ensures ShowsCage(Published(cages)[c], cages[c]) {
      SortedSlotsShow(cages[c]);
    }
  }

  lemma SortedSlotsShow(cage: Cage)
    ensures ShowsCage(Enclosure(cage.id, StableSort(SlotsOf(cage.readings), LowerBay)), cage)
  {
    var all := SlotsOf(cage.readings);
    var slots := StableSort(all, LowerBay);
    StableSortSorts(all, LowerBay);
    forall r | r in cage.readings ensures Shown(slots, r) {
      SlotShows(r);
      var i :| 0 <= i < |cage.readings| && cage.readings[i] == r;
      assert all[i] in all;
    }
    forall s | s in slots ensures IsRead(cage.readings, s) {
      var i :| 0 <= i < |all| && all[i] == s;
      SlotShows(cage.readings[i]);
    }
    LowerBaysInOrder(slots);
  }

  lemma LowerBaysInOrder(slots: seq<Slot>)
    requires Sorted(slots, LowerBay)
    ensures ByNumber(slots)
  {
    forall i, j | 0 <= i < j < |slots| ensures slots[i].key.number <= slots[j].key.number {
      assert LowerBay(slots[i], slots[j]);
    }
  }

  // ---------- what one reconcile publishes ----------

  lemma {:induction false} IndexIs(bays: seq<Slot>, i: nat)
    requires Distinct(KeysOf(bays)) && i < |bays|
    ensures Was(IndexBays(bays), bays[i].key) == bays[i]
  {
    var init := bays[..|bays| - 1];
    if i >= |bays| - 1 {
    } else {
      forall j, k | 0 <= j < k < |init| ensures KeysOf(init)[j] != KeysOf(init)[k] {
        assert KeysOf(bays)[j] != KeysOf(bays)[k];
      }
      IndexIs(init, i);
      assert KeysOf(bays)[i] != KeysOf(bays)[|bays| - 1];
    }
  }

  /** The index has the last bay under each key, and no other key. */
  lemma {:induction false} IndexIsLast(bays: seq<Slot>, k: Key) returns (i: int)
    ensures k !in IndexBays(bays) ==> forall j :: 0 <= j < |bays| ==> bays[j].key != k
    ensures k in IndexBays(bays) ==> 0 <= i < |bays| && bays[i].key == k && IndexBays(bays)[k] == bays[i]
                                     && forall j :: i < j < |bays| ==> bays[j].key != k
  {
    if bays == [] {
      i := 0;
    } else if bays[|bays| - 1].key == k {
      i := |bays| - 1;
    } else {
      i := IndexIsLast(bays[..|bays| - 1], k);
    }
  }

  ghost predicate Read(cages: seq<Cage>, s: Slot) {
    exists c :: 0 <= c < |cages| && s in SlotsOf(cages[c].readings)
  }

  lemma {:induction false} DiffSlotsIs(prev: map<Key, Slot>, slots: seq<Slot>, s: Slot)
    ensures s in DiffSlots(prev, slots) <==> s in slots && Changed(Was(prev, s.key), s)
  {
    if slots == [] {
    } else {
      var init := slots[..|slots| - 1];
      DiffSlotsIs(prev, init, s);
      assert slots == init + [slots[|slots| - 1]];
    }
  }

  lemma {:induction false} DiffIs(prev: map<Key, Slot>, cages: seq<Cage>, s: Slot)
    ensures s in Diff(prev, cages) <==> Read(cages, s) && Changed(Was(prev, s.key), s)
  {
    if cages == [] {
    } else {
      var init, last := cages[..|cages| - 1], cages[|cages| - 1];
      DiffIs(prev, init, s);
      DiffSlotsIs(prev, SlotsOf(last.readings), s);
      ReadSnoc(cages, s);
    }
  }

  lemma ReadSnoc(cages: seq<Cage>, s: Slot)
    requires cages != []
    ensures Read(cages, s) <==> Read(cages[..|cages| - 1], s) || s in SlotsOf(cages[|cages| - 1].readings)
  {
    if c :| 0 <= c < |cages| && s in SlotsOf(cages[c].readings) {
      assert c < |cages| - 1 ==> cages[..|cages| - 1][c] == cages[c];
    }
    var init := cages[..|cages| - 1];
    if c :| 0 <= c < |init| && s in SlotsOf(init[c].readings) {
      assert cages[c] == init[c];
    }
  }

  lemma {:induction false} BaysAre(encs: Snapshot, s: Slot)
    ensures s in Bays(encs) <==> exists e :: 0 <= e < |encs| && s in encs[e].slots
  {
    if encs == [] {
    } else {
      BaysAre(encs[1..], s);
      assert forall e :: 0 <= e < |encs| - 1 ==> encs[1..][e] == encs[e + 1];
      if e :| 0 <= e < |encs| && s in encs[e].slots {
        assert e > 0 ==> encs[1..][e - 1] == encs[e];
      }
    }
  }

  lemma PublishedHolds(cages: seq<Cage>, s: Slot)
    ensures s in Bays(Published(cages)) <==> Read(cages, s)
  {
    BaysAre(Published(cages), s);
    forall c | 0 <= c < |cages| ensures s in Published(cages)[c].slots <==> s in SlotsOf(cages[c].readings) {
      StableSortSorts(SlotsOf(cages[c].readings), LowerBay);
    }
    if c :| 0 <= c < |cages| && s in SlotsOf(cages[c].readings) {
      assert s in Published(cages)[c].slots;
    }
  }

  /** The readings are of exactly these bays, each under one key. */
  ghost predicate Keyed(keys: seq<Key>, cages: seq<Cage>) {
    && Distinct(keys) && KeysOf(Bays(Published(cages))) == keys
    && forall c, i :: 0 <= c < |cages| && 0 <= i < |cages[c].readings| ==> cages[c].readings[i].key.enclosure == cages[c].id
  }

  lemma KeyedShows(keys: seq<Key>, cages: seq<Cage>)
    requires Keyed(keys, cages)
    ensures Shows(keys, Published(cages))
  {
    var encs := Published(cages);
    forall e, i | 0 <= e < |encs| && 0 <= i < |encs[e].slots| ensures encs[e].slots[i].key.enclosure == encs[e].id {
      StableSortSorts(SlotsOf(cages[e].readings), LowerBay);
      assert encs[e].slots[i] in SlotsOf(cages[e].readings);
    }
    forall s | s in Bays(encs) ensures Honest(s) {
      PublishedHolds(cages, s);
    }
  }

  lemma DiffIsPublished(keys: seq<Key>, prev: map<Key, Slot>, cages: seq<Cage>, n: nat, ev: Slot)
    requires Distinct(keys) && KeysOf(Bays(Published(cages))) == keys && n < |keys|
    requires ev in Diff(prev, cages) && ev.key == keys[n]
    ensures |Bays(Published(cages))| == |keys| && ev == Bays(Published(cages))[n]
  {
    var bays := Bays(Published(cages));
    DiffIs(prev, cages, ev);
    PublishedHolds(cages, ev);
    var i :| 0 <= i < |bays| && bays[i] == ev;
    assert KeysOf(bays)[i] == keys[i];
  }

  /** The events of a reconcile are the bays of its snapshot that differ, in a compared field,
      from the snapshot before; all of them when there was none. */
  lemma DiffIsWhatChanged(keys: seq<Key>, cur: Option<Snapshot>, cages: seq<Cage>, n: nat)
    requires Keyed(keys, cages) && n < |keys| && (cur.Some? ==> Shows(keys, cur.value))
    ensures |Bays(Published(cages))| == |keys| && (cur.Some? ==> |Bays(cur.value)| == |keys|)
    ensures var now, events := Bays(Published(cages))[n], Diff(SlotIndex(cur), cages);
      && (forall ev :: ev in events && ev.key == keys[n] ==> ev == now)
      && (now in events <==> cur.None? || Changed(Bays(cur.value)[n], now))
  {
    KeyedShows(keys, cages);
    var bays := Bays(Published(cages));
    var now, events := bays[n], Diff(SlotIndex(cur), cages);
    assert KeysOf(bays)[n] == keys[n] && now in bays;
    forall ev | ev in events && ev.key == keys[n] ensures ev == now {
      DiffIsPublished(keys, SlotIndex(cur), cages, n, ev);
    }
    DiffIs(SlotIndex(cur), cages, now);
    PublishedHolds(cages, now);
    if cur.Some? {
      assert KeysOf(Bays(cur.value))[n] == keys[n];
      IndexIs(Bays(cur.value), n);
    }
  }

  // ---------- what a stream of events leaves of one bay ----------

  function LastFor(k: Key, v: Slot, events: seq<Slot>): Slot
    decreases events
  {
    if events == [] then v else LastFor(k, if events[0].key == k then events[0] else v, events[1..])
  }

  lemma {:induction false} LastForAppend(k: Key, v: Slot, a: seq<Slot>, b: seq<Slot>)
    ensures LastFor(k, v, a + b) == LastFor(k, LastFor(k, v, a), b)
    decreases a
  {
    if a == [] {
      assert a + b == b;
    } else {
      assert (a + b)[1..] == a[1..] + b;
      LastForAppend(k, if a[0].key == k then a[0] else v, a[1..], b);
    }
  }

  /** If every event of the bay says the same, that is what is left. */
  lemma {:induction false} LastForOnly(k: Key, v: Slot, events: seq<Slot>, x: Slot)
    requires forall ev :: ev in events && ev.key == k ==> ev == x
    requires x.key == k
    ensures LastFor(k, v, events) == if x in events then x else v
    decreases events
  {
    if events == [] {
    } else {
      assert events == [events[0]] + events[1..];
      LastForOnly(k, if events[0].key == k then events[0] else v, events[1..], x);
    }
  }

  /** Either the stream has an event of the bay, and what it leaves does not depend on what
      was there, or it leaves everything as it was. */
  lemma {:induction false} LastForEither(k: Key, v: Slot, w: Slot, events: seq<Slot>)
    ensures LastFor(k, v, events) == LastFor(k, w, events) || (LastFor(k, v, events) == v && LastFor(k, w, events) == w)
    decreases events
  {
    if events == [] {
    } else {
      if events[0].key != k {
        LastForEither(k, v, w, events[1..]);
      }
    }
  }

  // ---------- one agent, one subscriber ----------

  /** Away: not connected. Registered: in the hub, the snapshot not read yet. Streaming: after
      that. */
  datatype Phase = Away | Registered | Streaming

  /** `unpublished` are the events of the reconcile under way; `queue` is the subscriber's
      channel; `greeting` and `wire` are the snapshot and the events written and not yet
      applied; `ui` is the enclosures of the UI's host, None while it has none. `dropped` says
      that the full channel lost an event of this connection. */
  datatype State = State(cur: Option<Snapshot>, unpublished: seq<Slot>, phase: Phase, queue: seq<Slot>,
                         greeting: Option<Snapshot>, wire: seq<Slot>, ui: Option<Snapshot>, dropped: bool)

  datatype Step =
    | Reconcile(cages: seq<Cage>)
    | Publish
    | Connect
    | Greet
    | Forward
    | Dispatch
    | Disconnect
    | Restart

  const START := State(None, [], Away, [], None, [], None, false)

  ghost predicate Enabled(keys: seq<Key>, s: State, step: Step) {
    match step
    case Reconcile(cages) => s.unpublished == [] && Keyed(keys, cages)
    case Publish => s.unpublished != []
    case Connect => s.phase.Away?
    case Greet => s.phase.Registered?
    case Forward => s.phase.Streaming? && s.queue != []
    case Dispatch => s.greeting.Some? || s.wire != []
    case Disconnect => !s.phase.Away?
    case Restart => true
  }

  function Push(queue: seq<Slot>, ev: Slot): seq<Slot> { if |queue| < BUFFER then queue + [ev] else queue }

  function Stepping(s: State, step: Step): State
    requires step.Publish? ==> s.unpublished != []
    requires step.Forward? ==> s.queue != []
    requires step.Dispatch? ==> s.greeting.Some? || s.wire != []
  {
    match step
    case Reconcile(cages) => s.(cur := Some(Published(cages)), unpublished := Diff(SlotIndex(s.cur), cages))
    case Publish =>
      var (ev, rest) := (s.unpublished[0], s.unpublished[1..]);
      if s.phase.Away? then s.(unpublished := rest)
      else s.(unpublished := rest, queue := Push(s.queue, ev), dropped := s.dropped || |s.queue| >= BUFFER)
    case Connect => s.(phase := Registered, dropped := false)
    case Greet => s.(phase := Streaming, greeting := s.cur)
    case Forward => s.(queue := s.queue[1..], wire := s.wire + [s.queue[0]])
    case Dispatch =>
      if s.greeting.Some? then s.(greeting := None, ui := s.greeting)
      else s.(wire := s.wire[1..], ui := if s.ui.None? then None else Some(Apply(s.ui.value, s.wire[0])))
    case Disconnect => s.(phase := Away, queue := [], greeting := None, wire := [])
    case Restart => State(None, [], Away, [], None, [], s.ui, s.dropped)
  }

  /** What the subscriber's view is built on, and what is still on its way to it. */
  function Base(s: State): Option<Snapshot> { if s.greeting.Some? then s.greeting else s.ui }

  function Pending(s: State): seq<Slot> { s.wire + s.queue + s.unpublished }

  ghost predicate ShowsSome(keys: seq<Key>, view: Option<Snapshot>) { view.Some? ==> Shows(keys, view.value) }

  ghost predicate AllHonest(events: seq<Slot>) { forall ev :: ev in events ==> Honest(ev) }

  /** Two views of a bay that differ in no compared field. */
  predicate Same(a: Slot, b: Slot) { a.key == b.key && !Changed(a, b) }

  /** After these events, each bay of `view` is as in `cur`. */
  ghost predicate Settles(keys: seq<Key>, view: seq<Slot>, events: seq<Slot>, cur: seq<Slot>) {
    |view| == |cur| == |keys| && forall n :: 0 <= n < |keys| ==> Same(LastFor(keys[n], view[n], events), cur[n])
  }

  /** The events still to be published are of the snapshot already there. */
  ghost predicate FromCur(keys: seq<Key>, events: seq<Slot>, cur: seq<Slot>) {
    |cur| == |keys| && forall n, ev :: 0 <= n < |keys| && ev in events && ev.key == keys[n] ==> ev == cur[n]
  }

  ghost predicate Tidy(keys: seq<Key>, s: State) {
    && Distinct(keys)
    && ShowsSome(keys, s.cur) && ShowsSome(keys, s.greeting) && ShowsSome(keys, s.ui)
    && AllHonest(s.unpublished) && AllHonest(s.queue) && AllHonest(s.wire)
    && (s.cur.None? ==> s.unpublished == [] && s.queue == [] && s.wire == [] && s.greeting.None?)
    && (s.phase.Away? ==> s.queue == [] && s.wire == [] && s.greeting.None?)
    && (s.phase.Registered? ==> s.wire == [] && s.greeting.None?)
  }

  /** Once there is a snapshot: the unpublished events are its own, a view taken of it now would
      settle, and so does the view of a subscriber that has one, if its channel lost nothing. */
  ghost predicate Converging(keys: seq<Key>, s: State) {
    s.cur.Some? ==>
      var cur := Bays(s.cur.value);
      && FromCur(keys, s.unpublished, cur)
      && (!s.dropped ==> Settles(keys, cur, Pending(s), cur))
      && (!s.dropped && s.phase.Streaming? && Base(s).Some? ==> Settles(keys, Bays(Base(s).value), Pending(s), cur))
  }

  ghost predicate Good(keys: seq<Key>, s: State) { Tidy(keys, s) && Converging(keys, s) }

  lemma StepIsTidy(keys: seq<Key>, s: State, step: Step)
    requires Tidy(keys, s) && Enabled(keys, s, step)
    ensures Tidy(keys, Stepping(s, step))
  {
    match step {
      case Reconcile(cages) =>
        KeyedShows(keys, cages);
        forall ev | ev in Diff(SlotIndex(s.cur), cages) ensures Honest(ev) {
          DiffIs(SlotIndex(s.cur), cages, ev);
        }
      case Dispatch =>
        if s.greeting.None? && s.ui.Some? {
          ApplyShows(keys, s.ui.value, s.wire[0]);
        }
      case _ =>
    }
  }

  // ---------- settling ----------

  lemma FromCurSettles(keys: seq<Key>, events: seq<Slot>, cur: seq<Slot>)
    requires FromCur(keys, events, cur) && KeysOf(cur) == keys
    ensures Settles(keys, cur, events, cur)
  {
    forall n | 0 <= n < |keys| ensures Same(LastFor(keys[n], cur[n], events), cur[n]) {
      assert KeysOf(cur)[n] == keys[n];
      LastForOnly(keys[n], cur[n], events, cur[n]);
    }
  }

  /** The events of a reconcile carry a settled view over to the new snapshot. */
  lemma ReconcileSettles(keys: seq<Key>, cur: Snapshot, cages: seq<Cage>, view: seq<Slot>, before: seq<Slot>)
    requires Keyed(keys, cages) && Shows(keys, cur) && Settles(keys, view, before, Bays(cur))
    ensures Settles(keys, view, before + Diff(SlotIndex(Some(cur)), cages), Bays(Published(cages)))
  {
    var events, next := Diff(SlotIndex(Some(cur)), cages), Bays(Published(cages));
    assert |next| == |keys| by { KeyedShows(keys, cages); }
    forall n | 0 <= n < |keys| ensures Same(LastFor(keys[n], view[n], before + events), next[n]) {
      DiffIsWhatChanged(keys, Some(cur), cages, n);
      LastForAppend(keys[n], view[n], before, events);
      assert KeysOf(next)[n] == keys[n] && KeysOf(Bays(cur))[n] == keys[n];
      LastForOnly(keys[n], LastFor(keys[n], view[n], before), events, next[n]);
    }
  }

  /** A first snapshot has an event for every bay, so any view of the bays settles. */
  lemma FirstSettles(keys: seq<Key>, cages: seq<Cage>, view: seq<Slot>)
    requires Keyed(keys, cages) && |view| == |keys|
    ensures Settles(keys, view, Diff(SlotIndex(None), cages), Bays(Published(cages)))
  {
    var events, next := Diff(SlotIndex(None), cages), Bays(Published(cages));
    assert |next| == |keys| by { KeyedShows(keys, cages); }
    forall n | 0 <= n < |keys| ensures Same(LastFor(keys[n], view[n], events), next[n]) {
      DiffIsWhatChanged(keys, None, cages, n);
      assert KeysOf(next)[n] == keys[n];
      LastForOnly(keys[n], view[n], events, next[n]);
    }
  }

  /** A new snapshot settles by whatever is already on its way from the old one. */
  lemma NextSettlesItself(keys: seq<Key>, cur: Snapshot, cages: seq<Cage>, before: seq<Slot>)
    requires Keyed(keys, cages) && Shows(keys, cur) && Settles(keys, Bays(cur), before, Bays(cur))
    ensures Settles(keys, Bays(Published(cages)), before + Diff(SlotIndex(Some(cur)), cages), Bays(Published(cages)))
  {
    var events, next := Diff(SlotIndex(Some(cur)), cages), Bays(Published(cages));
    assert |next| == |keys| by { KeyedShows(keys, cages); }
    forall n | 0 <= n < |keys| ensures Same(LastFor(keys[n], next[n], before + events), next[n]) {
      DiffIsWhatChanged(keys, Some(cur), cages, n);
      LastForAppend(keys[n], next[n], before, events);
      assert KeysOf(next)[n] == keys[n] && KeysOf(Bays(cur))[n] == keys[n];
      LastForOnly(keys[n], LastFor(keys[n], next[n], before), events, next[n]);
      LastForEither(keys[n], next[n], Bays(cur)[n], before);
    }
  }

  /** Applying the first event leaves the rest to settle. */
  lemma PutSettles(keys: seq<Key>, view: seq<Slot>, ev: Slot, rest: seq<Slot>, cur: seq<Slot>)
    requires Settles(keys, view, [ev] + rest, cur) && KeysOf(view) == keys
    ensures Settles(keys, Put(view, ev), rest, cur)
  {
    forall n | 0 <= n < |keys| ensures Same(LastFor(keys[n], Put(view, ev)[n], rest), cur[n]) {
      assert KeysOf(view)[n] == keys[n];
      assert ([ev] + rest)[1..] == rest;
    }
  }

  /** A view taken of the snapshot itself also settles when the first event is not for it. */
  lemma DropSettles(keys: seq<Key>, ev: Slot, rest: seq<Slot>, cur: seq<Slot>)
    requires Settles(keys, cur, [ev] + rest, cur) && KeysOf(cur) == keys
    ensures Settles(keys, cur, rest, cur)
  {
    forall n | 0 <= n < |keys| ensures Same(LastFor(keys[n], cur[n], rest), cur[n]) {
      assert KeysOf(cur)[n] == keys[n];
      assert ([ev] + rest)[1..] == rest;
      LastForEither(keys[n], cur[n], if ev.key == keys[n] then ev else cur[n], rest);
    }
  }

  lemma ReconcileConverges(keys: seq<Key>, s: State, cages: seq<Cage>)
    requires Good(keys, s) && Enabled(keys, s, Reconcile(cages))
    ensures Converging(keys, Stepping(s, Reconcile(cages)))
  {
    var v, next := Stepping(s, Reconcile(cages)), Bays(Published(cages));
    KeyedShows(keys, cages);
    forall n, ev | 0 <= n < |keys| && ev in v.unpublished && ev.key == keys[n] ensures ev == next[n] {
      DiffIsWhatChanged(keys, s.cur, cages, n);
    }
    if !s.dropped {
      assert Pending(s) == s.wire + s.queue;
      if s.cur.None? {
        FirstPending(s, v);
        FirstSettles(keys, cages, next);
        if s.phase.Streaming? && Base(s).Some? {
          FirstSettles(keys, cages, Bays(Base(s).value));
        }
      } else {
        NextSettlesItself(keys, s.cur.value, cages, Pending(s));
        if s.phase.Streaming? && Base(s).Some? {
          ReconcileSettles(keys, s.cur.value, cages, Bays(Base(s).value), Pending(s));
        }
      }
    }
  }

  lemma FirstPending(s: State, v: State)
    requires s.wire == [] && s.queue == [] && v.wire == s.wire && v.queue == s.queue
    ensures Pending(v) == v.unpublished
  {
  }

  lemma PublishConverges(keys: seq<Key>, s: State)
    requires Good(keys, s) && Enabled(keys, s, Publish)
    ensures Converging(keys, Stepping(s, Publish))
  {
    var v, cur := Stepping(s, Publish), Bays(s.cur.value);
    assert s.unpublished == [s.unpublished[0]] + v.unpublished;
    assert forall ev :: ev in v.unpublished ==> ev in s.unpublished;
    if s.phase.Away? {
      FromCurSettles(keys, v.unpublished, cur);
      FirstPending(s, v);
    } else if !v.dropped {
      assert Pending(v) == Pending(s);
    }
  }

  lemma ForwardConverges(keys: seq<Key>, s: State)
    requires Good(keys, s) && Enabled(keys, s, Forward)
    ensures Converging(keys, Stepping(s, Forward))
  {
    assert s.queue == [s.queue[0]] + s.queue[1..];
    assert Pending(Stepping(s, Forward)) == Pending(s);
  }

  lemma DispatchConverges(keys: seq<Key>, s: State)
    requires Good(keys, s) && Enabled(keys, s, Dispatch)
    ensures Converging(keys, Stepping(s, Dispatch))
  {
    var v := Stepping(s, Dispatch);
    if s.greeting.None? && s.cur.Some? && !s.dropped {
      var ev, cur := s.wire[0], Bays(s.cur.value);
      assert s.wire == [ev] + v.wire;
      assert Pending(s) == [ev] + Pending(v);
      DropSettles(keys, ev, Pending(v), cur);
      if s.phase.Streaming? && s.ui.Some? {
        ApplyShows(keys, s.ui.value, ev);
        PutSettles(keys, Bays(s.ui.value), ev, Pending(v), cur);
      }
    }
  }

  lemma JoiningConverges(keys: seq<Key>, s: State, step: Step)
    requires Good(keys, s) && Enabled(keys, s, step) && (step.Connect? || step.Greet? || step.Disconnect? || step.Restart?)
    ensures Converging(keys, Stepping(s, step))
  {
    var v := Stepping(s, step);
    if v.cur.Some? && !step.Greet? {
      FromCurSettles(keys, v.unpublished, Bays(v.cur.value));
      assert Pending(v) == v.unpublished;
    }
  }

  /** Every step keeps what is on its way enough to bring the view up to the snapshot. */
  lemma StepIsGood(keys: seq<Key>, s: State, step: Step)
    requires Good(keys, s) && Enabled(keys, s, step)
    ensures Good(keys, Stepping(s, step))
  {
    StepIsTidy(keys, s, step);
    match step {
      case Reconcile(cages) => ReconcileConverges(keys, s, cages);
      case Publish => PublishConverges(keys, s);
      case Forward => ForwardConverges(keys, s);
      case Dispatch => DispatchConverges(keys, s);
      case _ => JoiningConverges(keys, s, step);
    }
  }

  // ---------- every run ----------

  ghost predicate Run(keys: seq<Key>, s: State, steps: seq<Step>)
    decreases steps
  {
    steps == [] || (Enabled(keys, s, steps[0]) && Run(keys, Stepping(s, steps[0]), steps[1..]))
  }

  function After(keys: seq<Key>, s: State, steps: seq<Step>): State
    requires Run(keys, s, steps)
    decreases steps
  {
    if steps == [] then s else After(keys, Stepping(s, steps[0]), steps[1..])
  }

  lemma {:induction false} RunIsGood(keys: seq<Key>, s: State, steps: seq<Step>)
    requires Good(keys, s) && Run(keys, s, steps)
    ensures Good(keys, After(keys, s, steps))
    decreases steps
  {
    if steps == [] {
    } else {
      var v := Stepping(s, steps[0]);
      StepIsGood(keys, s, steps[0]);
      RunIsGood(keys, v, steps[1..]);
    }
  }

  /** A view once all these events are applied. */
  function ApplyAll(view: Snapshot, events: seq<Slot>): Snapshot
    decreases events
  {
    if events == [] then view else ApplyAll(Apply(view, events[0]), events[1..])
  }

  /** The same bays, with no compared field different, and so the same header counts. */
  ghost predicate Agrees(a: Snapshot, b: Snapshot) {
    && |Bays(a)| == |Bays(b)|
    && (forall n :: 0 <= n < |Bays(a)| ==> Same(Bays(a)[n], Bays(b)[n]))
    && CountBays(Bays(a)) == CountBays(Bays(b))
  }

  lemma {:induction false} SameCounts(a: seq<Slot>, b: seq<Slot>)
    requires |a| == |b| && (forall n :: 0 <= n < |a| ==> Same(a[n], b[n]))
    requires AllHonest(a) && AllHonest(b)
    ensures CountBays(a) == CountBays(b)
  {
    if a == [] {
    } else {
      var i, j := a[..|a| - 1], b[..|b| - 1];
      assert a[|a| - 1] in a && b[|b| - 1] in b;
      assert forall n :: 0 <= n < |i| ==> i[n] == a[n] && j[n] == b[n];
      SameCounts(i, j);
    }
  }

  lemma {:induction false} ApplyAllLeaves(keys: seq<Key>, view: Snapshot, events: seq<Slot>, n: nat)
    requires Shows(keys, view) && AllHonest(events) && n < |keys|
    ensures Shows(keys, ApplyAll(view, events)) && |Bays(ApplyAll(view, events))| == |Bays(view)| == |keys|
    ensures Bays(ApplyAll(view, events))[n] == LastFor(keys[n], Bays(view)[n], events)
    decreases events
  {
    if events == [] {
    } else {
      ApplyShows(keys, view, events[0]);
      assert KeysOf(Bays(view))[n] == keys[n];
      assert events == [events[0]] + events[1..];
      ApplyAllLeaves(keys, Apply(view, events[0]), events[1..], n);
    }
  }

  /** A view ends up agreeing with a snapshot exactly when every bay of it settles. */
  lemma AgreesIffSettles(keys: seq<Key>, view: Snapshot, events: seq<Slot>, cur: Snapshot)
    requires Shows(keys, view) && AllHonest(events) && Shows(keys, cur)
    ensures Agrees(ApplyAll(view, events), cur) <==> Settles(keys, Bays(view), events, Bays(cur))
  {
    var end := ApplyAll(view, events);
    EndShows(keys, view, events);
    assert |Bays(view)| == |KeysOf(Bays(view))| && |Bays(cur)| == |KeysOf(Bays(cur))|;
    forall n: nat | n < |keys| ensures Bays(end)[n] == LastFor(keys[n], Bays(view)[n], events) {
      ApplyAllLeaves(keys, view, events, n);
    }
    if Settles(keys, Bays(view), events, Bays(cur)) {
      SameCounts(Bays(end), Bays(cur));
    }
  }

  lemma {:induction false} EndShows(keys: seq<Key>, view: Snapshot, events: seq<Slot>)
    requires Shows(keys, view) && AllHonest(events)
    ensures Shows(keys, ApplyAll(view, events)) && |Bays(ApplyAll(view, events))| == |keys|
    decreases events
  {
    if events == [] {
      assert |Bays(view)| == |KeysOf(Bays(view))|;
    } else {
      ApplyShows(keys, view, events[0]);
      assert events == [events[0]] + events[1..];
      EndShows(keys, Apply(view, events[0]), events[1..]);
    }
  }

  /** Wherever a subscription lands in a reconcile cycle, and however stale the events queued
      behind the snapshot it was greeted with: once what is queued, written and still
      unpublished has been applied, the UI's view agrees with the agent's snapshot in every
      compared field and in the counts, provided the channel lost nothing and the UI has a
      view of the host at all. */
  lemma SubscriberConverges(keys: seq<Key>, steps: seq<Step>)
    requires Distinct(keys) && Run(keys, START, steps)
    ensures var s := After(keys, START, steps);
      s.phase.Streaming? && s.cur.Some? && !s.dropped && Base(s).Some? ==>
        Agrees(ApplyAll(Base(s).value, Pending(s)), s.cur.value)
        && (s.greeting.None? && Pending(s) == [] ==> s.ui.Some? && Agrees(s.ui.value, s.cur.value))
  {
    RunIsGood(keys, START, steps);
    var s := After(keys, START, steps);
    if s.phase.Streaming? && s.cur.Some? && !s.dropped && Base(s).Some? {
      AgreesIffSettles(keys, Base(s).value, Pending(s), s.cur.value);
    }
  }

  /** What the UI shows of a bay: all that is read of it but the exact end of a locate and what
      only a snapshot or another change brings. */
  predicate UiShows(s: Slot, r: Reading) {
    && s.key == r.key && (s.present <==> r.present)
    && s.state == (if !r.present then Empty else if r.bad then Faulty else Healthy) && s.fault == (r.present && r.bad)
    && s.locate == r.locate && (s.until.None? <==> r.until.None?) && s.dev == r.dev && s.temp == r.temp
    && s.zfs == r.zfs && s.smart == r.smart && s.reason == (if r.present then r.reason else 0)
  }

  /** The view has a bay for this reading. */
  ghost predicate InView(view: Snapshot, r: Reading) { exists s :: s in Bays(view) && UiShows(s, r) }

  /** So once everything is applied the UI shows the readings of the last reconcile, each under
      its key, in one bay each. */
  lemma UiShowsTheReadings(keys: seq<Key>, steps: seq<Step>, cages: seq<Cage>, c: nat, r: Reading)
    requires Distinct(keys) && Run(keys, START, steps) && Keyed(keys, cages)
    requires var s := After(keys, START, steps);
      && s.phase.Streaming? && !s.dropped && s.greeting.None? && Pending(s) == [] && s.ui.Some?
      && s.cur == Some(Published(cages))
    requires c < |cages| && r in cages[c].readings
    ensures var view := After(keys, START, steps).ui.value; InView(view, r) && KeysOf(Bays(view)) == keys
  {
    var s := After(keys, START, steps);
    SubscriberConverges(keys, steps);
    RunIsGood(keys, START, steps);
    var n := BayOfReading(cages, c, r);
    SameBayShows(keys, s.ui.value, s.cur.value, n, r);
  }

  lemma BayOfReading(cages: seq<Cage>, c: nat, r: Reading) returns (n: nat)
    requires c < |cages| && r in cages[c].readings
    ensures n < |Bays(Published(cages))| && ShowsReading(Bays(Published(cages))[n], r)
  {
    var encs := Published(cages);
    PublishedShows(cages);
    var s := BayShown(encs[c], cages[c], r);
    BaysAre(encs, s);
    n := PlaceOf(Bays(encs), s);
  }

  lemma BayShown(enc: Enclosure, cage: Cage, r: Reading) returns (s: Slot)
    requires ShowsCage(enc, cage) && r in cage.readings
    ensures s in enc.slots && ShowsReading(s, r)
  {
    assert Shown(enc.slots, r);
    s :| s in enc.slots && ShowsReading(s, r);
  }

  lemma PlaceOf(bays: seq<Slot>, s: Slot) returns (n: nat)
    requires s in bays
    ensures n < |bays| && bays[n] == s
  {
    n :| n < |bays| && bays[n] == s;
  }

  lemma SameBayShows(keys: seq<Key>, view: Snapshot, cur: Snapshot, n: nat, r: Reading)
    requires Shows(keys, view) && Shows(keys, cur) && Agrees(view, cur) && n < |Bays(cur)| && ShowsReading(Bays(cur)[n], r)
    ensures InView(view, r)
  {
    var a, b := Bays(view)[n], Bays(cur)[n];
    assert KeysOf(Bays(view))[n] == keys[n] && KeysOf(Bays(cur))[n] == keys[n];
    assert Same(a, b) && a in Bays(view) && Honest(a);
    assert UiShows(a, r);
  }

  lemma {:induction false} RunAppend(keys: seq<Key>, s: State, a: seq<Step>, b: seq<Step>)
    requires Run(keys, s, a) && Run(keys, After(keys, s, a), b)
    ensures Run(keys, s, a + b) && After(keys, s, a + b) == After(keys, After(keys, s, a), b)
    decreases a
  {
    if a == [] {
      assert a + b == b;
    } else {
      assert (a + b)[0] == a[0] && (a + b)[1..] == a[1..] + b;
      RunAppend(keys, Stepping(s, a[0]), a[1..], b);
    }
  }

  /** From any state of a connection, taking what is on its way step by step empties it, and
      loses nothing: forwarding goes before publishing. */
  lemma {:induction false} Drains(keys: seq<Key>, s: State) returns (steps: seq<Step>)
    requires s.phase.Streaming?
    ensures Run(keys, s, steps)
    ensures var v := After(keys, s, steps);
      && v.phase.Streaming? && v.dropped == s.dropped && v.cur == s.cur && v.greeting.None? && Pending(v) == []
      && (v.ui.Some? <==> Base(s).Some?)
    decreases 3 * |s.unpublished| + 2 * |s.queue| + |s.wire| + if s.greeting.Some? then 1 else 0
  {
    if s.greeting.Some? || s.wire != [] {
      steps := DrainsAfter(keys, s, Dispatch);
    } else if s.queue != [] {
      steps := DrainsAfter(keys, s, Forward);
    } else if s.unpublished != [] {
      steps := DrainsAfter(keys, s, Publish);
    } else {
      steps := [];
    }
  }

  lemma DrainsAfter(keys: seq<Key>, s: State, step: Step) returns (steps: seq<Step>)
    requires s.phase.Streaming? && (step.Dispatch? || step.Forward? || step.Publish?) && Enabled(keys, s, step)
    requires step.Publish? ==> s.queue == [] && s.wire == [] && s.greeting.None?
    requires step.Forward? ==> s.wire == [] && s.greeting.None?
    ensures Run(keys, s, steps)
    ensures var v := After(keys, s, steps);
      && v.phase.Streaming? && v.dropped == s.dropped && v.cur == s.cur && v.greeting.None? && Pending(v) == []
      && (v.ui.Some? <==> Base(s).Some?)
    decreases 3 * |s.unpublished| + 2 * |s.queue| + |s.wire| + (if s.greeting.Some? then 1 else 0), 0
  {
    var rest := Drains(keys, Stepping(s, step));
    assert ([step] + rest)[1..] == rest;
    steps := [step] + rest;
  }

  /** Nothing stands in the way of that but a lost event or a missing view: from every other
      state of a connection the UI can be brought to show every reading of the last reconcile. */
  lemma UiCanCatchUp(keys: seq<Key>, steps: seq<Step>, cages: seq<Cage>) returns (more: seq<Step>)
    requires Distinct(keys) && Run(keys, START, steps) && Keyed(keys, cages)
    requires var s := After(keys, START, steps);
      s.phase.Streaming? && !s.dropped && Base(s).Some? && s.cur == Some(Published(cages))
    ensures Run(keys, START, steps + more) && After(keys, START, steps + more).ui.Some?
    ensures forall c, r :: 0 <= c < |cages| && r in cages[c].readings ==>
      InView(After(keys, START, steps + more).ui.value, r)
  {
    more := Drains(keys, After(keys, START, steps));
    RunAppend(keys, START, steps, more);
    forall c, r | 0 <= c < |cages| && r in cages[c].readings
      ensures InView(After(keys, START, steps + more).ui.value, r)
    {
      UiShowsTheReadings(keys, steps + more, cages, c, r);
    }
  }

  // ---------- a full channel ----------

  lemma LastForSkip(k: Key, v: Slot, a: seq<Slot>, ev: Slot, b: seq<Slot>)
    requires ev.key != k
    ensures LastFor(k, v, a + ([ev] + b)) == LastFor(k, v, a + b)
  {
    LastForAppend(k, v, a, [ev] + b);
    LastForAppend(k, v, a, b);
    assert ([ev] + b)[1..] == b;
  }

  lemma LosingOne(s: State)
    requires !s.phase.Away? && s.unpublished != []
    ensures var v := Stepping(s, Publish);
      && Base(v) == Base(s) && v.cur == s.cur && v.phase == s.phase
      && Pending(s) == (s.wire + s.queue) + ([s.unpublished[0]] + s.unpublished[1..])
      && Pending(v) == if |s.queue| < BUFFER then Pending(s) else (s.wire + s.queue) + s.unpublished[1..]
  {
    assert s.unpublished == [s.unpublished[0]] + s.unpublished[1..];
  }

  /** When an event is published with room in the channel, the view still ends up as it should.
      When it meets a full channel, the view ends up as it should exactly when what is on its
      way without it leaves the one bay that it was about as the snapshot has it. */
  lemma LostEventMattersIff(keys: seq<Key>, s: State, n: nat)
    requires Good(keys, s) && !s.dropped && s.phase.Streaming? && s.cur.Some? && Base(s).Some?
    requires s.unpublished != [] && n < |keys| && s.unpublished[0].key == keys[n]
    ensures |Bays(Base(s).value)| == |Bays(s.cur.value)| == |keys|
    ensures var v := Stepping(s, Publish);
      Agrees(ApplyAll(Base(v).value, Pending(v)), v.cur.value) <==>
        |s.queue| < BUFFER
        || Same(LastFor(keys[n], Bays(Base(s).value)[n], s.wire + s.queue + s.unpublished[1..]), Bays(s.cur.value)[n])
  {
    var v := Stepping(s, Publish);
    var base, cur := Bays(Base(s).value), Bays(s.cur.value);
    StepIsTidy(keys, s, Publish);
    LosingOne(s);
    AgreesIffSettles(keys, Base(v).value, Pending(v), v.cur.value);
    if |s.queue| >= BUFFER {
      forall m | 0 <= m < |keys| && m != n
        ensures LastFor(keys[m], base[m], Pending(v)) == LastFor(keys[m], base[m], Pending(s))
      {
        LastForSkip(keys[m], base[m], s.wire + s.queue, s.unpublished[0], s.unpublished[1..]);
      }
    }
  }

  // ---------- a stale bay stays stale ----------

  /** What is on its way leaves the bay different from the snapshot. */
  ghost predicate Stale(keys: seq<Key>, s: State, n: nat) {
    && s.cur.Some? && Base(s).Some? && n < |keys|
    && |Bays(Base(s).value)| == |Bays(s.cur.value)| == |keys|
    && !Same(LastFor(keys[n], Bays(Base(s).value)[n], Pending(s)), Bays(s.cur.value)[n])
  }

  /** No step joins or leaves, and no reconcile changes the bay. */
  ghost predicate Quiet(keys: seq<Key>, s: State, steps: seq<Step>, n: nat)
    requires Run(keys, s, steps)
    decreases steps
  {
    steps == [] || (QuietStep(s, steps[0], n) && Quiet(keys, Stepping(s, steps[0]), steps[1..], n))
  }

  ghost predicate QuietStep(s: State, step: Step, n: nat) {
    && !Joining(step)
    && (step.Reconcile? && s.cur.Some? && n < |Bays(s.cur.value)| && n < |Bays(Published(step.cages))| ==>
          !Changed(Bays(s.cur.value)[n], Bays(Published(step.cages))[n]))
  }

  lemma ReconcileStep(s: State, cages: seq<Cage>)
    requires s.unpublished == []
    ensures var v := Stepping(s, Reconcile(cages));
      v.cur == Some(Published(cages)) && Base(v) == Base(s) && Pending(v) == Pending(s) + Diff(SlotIndex(s.cur), cages)
  {
    assert Pending(s) == s.wire + s.queue;
  }

  lemma StaleReconcile(keys: seq<Key>, s: State, cages: seq<Cage>, n: nat)
    requires s.cur.Some? && Shows(keys, s.cur.value) && s.unpublished == [] && Keyed(keys, cages)
    requires Stale(keys, s, n) && QuietStep(s, Reconcile(cages), n)
    ensures Stale(keys, Stepping(s, Reconcile(cages)), n)
  {
    var was, now, events := Bays(s.cur.value), Bays(Published(cages)), Diff(SlotIndex(s.cur), cages);
    DiffIsWhatChanged(keys, s.cur, cages, n);
    ReconcileStep(s, cages);
    assert KeysOf(now)[n] == keys[n] && KeysOf(was)[n] == keys[n];
    StaleBay(keys[n], Bays(Base(s).value)[n], Pending(s), events, was[n], now[n]);
  }

  /** Events that say nothing of a bay leave it as wrong as it was going to be. */
  lemma StaleBay(k: Key, base: Slot, pending: seq<Slot>, events: seq<Slot>, was: Slot, now: Slot)
    requires was.key == now.key == k && !Changed(was, now) && now !in events
    requires forall ev :: ev in events && ev.key == k ==> ev == now
    requires !Same(LastFor(k, base, pending), was)
    ensures !Same(LastFor(k, base, pending + events), now)
  {
    LastForAppend(k, base, pending, events);
    LastForOnly(k, LastFor(k, base, pending), events, now);
  }

  lemma StalePublish(keys: seq<Key>, s: State, n: nat)
    requires Good(keys, s) && s.phase.Streaming? && Enabled(keys, s, Publish) && Stale(keys, s, n)
    ensures Stale(keys, Stepping(s, Publish), n)
  {
    var base, cur := Bays(Base(s).value)[n], Bays(s.cur.value)[n];
    LosingOne(s);
    assert KeysOf(Bays(s.cur.value))[n] == keys[n];
    LastForAppend(keys[n], base, s.wire + s.queue, s.unpublished);
    LastForOnly(keys[n], LastFor(keys[n], base, s.wire + s.queue), s.unpublished, cur);
    assert s.unpublished[0] in s.unpublished && s.unpublished[0].key != keys[n];
    LastForSkip(keys[n], base, s.wire + s.queue, s.unpublished[0], s.unpublished[1..]);
  }

  lemma StaleDispatch(keys: seq<Key>, s: State, n: nat)
    requires Good(keys, s) && Enabled(keys, s, Dispatch) && Stale(keys, s, n)
    ensures Stale(keys, Stepping(s, Dispatch), n)
  {
    if s.greeting.None? {
      var ev, rest := s.wire[0], Pending(Stepping(s, Dispatch));
      assert s.wire == [ev] + s.wire[1..];
      assert Pending(s) == [ev] + rest && ([ev] + rest)[1..] == rest;
      ApplyShows(keys, s.ui.value, ev);
      assert KeysOf(Bays(s.ui.value))[n] == keys[n];
    }
  }

  lemma StaleForward(keys: seq<Key>, s: State, n: nat)
    requires Enabled(keys, s, Forward) && Stale(keys, s, n)
    ensures Stale(keys, Stepping(s, Forward), n)
  {
    assert s.queue == [s.queue[0]] + s.queue[1..];
    assert Pending(Stepping(s, Forward)) == Pending(s);
  }

  /** The hub's comment counts on a next snapshot or poll. A subscriber that stays gets neither:
      a bay that is on its way to the wrong state stays wrong, whatever else is published and
      applied, for as long as the connection lasts and the bay itself does not change. */
  lemma {:induction false} StaleUntilItChanges(keys: seq<Key>, s: State, steps: seq<Step>, n: nat)
    requires Good(keys, s) && s.phase.Streaming? && Stale(keys, s, n) && Run(keys, s, steps) && Quiet(keys, s, steps, n)
    ensures Stale(keys, After(keys, s, steps), n)
    decreases steps
  {
    if steps == [] {
    } else {
      var v := Stepping(s, steps[0]);
      match steps[0] {
        case Reconcile(cages) => StaleReconcile(keys, s, cages, n);
        case Publish => StalePublish(keys, s, n);
        case Forward => StaleForward(keys, s, n);
        case Dispatch => StaleDispatch(keys, s, n);
        case _ =>
      }
      StepIsGood(keys, s, steps[0]);
      StaleUntilItChanges(keys, v, steps[1..], n);
    }
  }

  lemma StaleDisagrees(keys: seq<Key>, steps: seq<Step>, n: nat)
    requires Distinct(keys) && Run(keys, START, steps) && Stale(keys, After(keys, START, steps), n)
    requires After(keys, START, steps).phase.Streaming?
    ensures var s := After(keys, START, steps); !Agrees(ApplyAll(Base(s).value, Pending(s)), s.cur.value)
  {
    var s := After(keys, START, steps);
    RunIsGood(keys, START, steps);
    AgreesIffSettles(keys, Base(s).value, Pending(s), s.cur.value);
  }

  // ---------- a run that loses an event ----------

  /** Two enclosures of one bay each, with a healthy drive at this temperature. */
  function Bay(enclosure: nat, temp: int): Reading {
    Reading(Key(enclosure, 0), true, false, false, None, 1, temp, 0, 0, 0, 0)
  }

  function TwoCages(a: int, b: int): seq<Cage> { [Cage(0, [Bay(0, a)]), Cage(1, [Bay(1, b)])] }

  const TWO_KEYS := [Key(0, 0), Key(1, 0)]

  lemma OneBay(r: Reading)
    ensures SlotsOf([r]) == [SlotOf(r)] && StableSort(SlotsOf([r]), LowerBay) == [SlotOf(r)]
  {
    assert SlotsOf([r]) == [SlotOf(r)];
    assert [SlotOf(r)][1..] == [];
  }

  lemma TwoBays(a: int, b: int)
    ensures Bays(Published(TwoCages(a, b))) == [SlotOf(Bay(0, a)), SlotOf(Bay(1, b))]
    ensures Keyed(TWO_KEYS, TwoCages(a, b))
  {
    OneBay(Bay(0, a));
    OneBay(Bay(1, b));
    var x, y := SlotOf(Bay(0, a)), SlotOf(Bay(1, b));
    assert Published(TwoCages(a, b)) == [Enclosure(0, [x]), Enclosure(1, [y])];
    assert [Enclosure(0, [x]), Enclosure(1, [y])][1..] == [Enclosure(1, [y])] && [Enclosure(1, [y])][1..] == [];
    assert Bays([Enclosure(1, [y])]) == [y];
    assert KeysOf([x, y]) == TWO_KEYS;
  }

  lemma DiffOfTwo(prev: map<Key, Slot>, a: int, b: int)
    ensures var x, y := SlotOf(Bay(0, a)), SlotOf(Bay(1, b));
      Diff(prev, TwoCages(a, b)) ==
        (if Changed(Was(prev, x.key), x) then [x] else []) + (if Changed(Was(prev, y.key), y) then [y] else [])
  {
    OneBay(Bay(0, a));
    OneBay(Bay(1, b));
    DiffOfOne(prev, SlotOf(Bay(0, a)));
    DiffOfOne(prev, SlotOf(Bay(1, b)));
    var cages := TwoCages(a, b);
    assert cages[..1] == [cages[0]] && [cages[0]][..0] == [];
    assert Diff(prev, [cages[0]]) == [] + DiffSlots(prev, SlotsOf(cages[0].readings));
  }

  lemma DiffOfOne(prev: map<Key, Slot>, x: Slot)
    ensures DiffSlots(prev, [x]) == if Changed(Was(prev, x.key), x) then [x] else []
  {
    assert [x][..0] == [];
  }

  lemma IndexOfTwo(a: int, b: int)
    ensures var x, y, index := SlotOf(Bay(0, a)), SlotOf(Bay(1, b)), SlotIndex(Some(Published(TwoCages(a, b))));
      Was(index, x.key) == x && Was(index, y.key) == y
  {
    TwoBays(a, b);
    var bays := Bays(Published(TwoCages(a, b)));
    assert KeysOf(bays) == TWO_KEYS;
    IndexIs(bays, 0);
    IndexIs(bays, 1);
  }

  /** The subscriber has its view, nothing is on the wire, and the channel holds events of the
      first bay only. */
  ghost predicate Filled(s: State, a: int, queued: nat) {
    && s.cur == Some(Published(TwoCages(a, 30))) && s.ui == Some(Published(TwoCages(30, 30)))
    && s.unpublished == [] && s.phase == Streaming && s.greeting == None && s.wire == [] && !s.dropped
    && |s.queue| == queued && forall ev :: ev in s.queue ==> ev.key == TWO_KEYS[0]
  }

  lemma RunOne(keys: seq<Key>, s: State, step: Step)
    requires Enabled(keys, s, step)
    ensures Run(keys, s, [step]) && After(keys, s, [step]) == Stepping(s, step)
  {
    var rest := [step][1..];
    assert rest == [] && Run(keys, Stepping(s, step), rest);
    assert After(keys, Stepping(s, step), rest) == Stepping(s, step);
  }

  lemma Then(keys: seq<Key>, s: State, a: seq<Step>, step: Step) returns (b: seq<Step>)
    requires Run(keys, s, a) && Enabled(keys, After(keys, s, a), step)
    ensures b == a + [step] && Run(keys, s, b) && After(keys, s, b) == Stepping(After(keys, s, a), step)
  {
    RunOne(keys, After(keys, s, a), step);
    RunAppend(keys, s, a, [step]);
    b := a + [step];
  }

  lemma JoinWithView() returns (steps: seq<Step>)
    ensures Run(TWO_KEYS, START, steps) && Filled(After(TWO_KEYS, START, steps), 30, 0)
  {
    TwoBays(30, 30);
    DiffOfTwo(map[], 30, 30);
    steps := Then(TWO_KEYS, START, [], Reconcile(TwoCages(30, 30)));
    assert |After(TWO_KEYS, START, steps).unpublished| == 2;
    steps := Then(TWO_KEYS, START, steps, Publish);
    steps := Then(TWO_KEYS, START, steps, Publish);
    steps := Then(TWO_KEYS, START, steps, Connect);
    steps := Then(TWO_KEYS, START, steps, Greet);
    steps := Then(TWO_KEYS, START, steps, Dispatch);
  }

  /** A reconcile with one event, and that event published. */
  lemma ReconcileOne(keys: seq<Key>, start: State, steps: seq<Step>, cages: seq<Cage>, x: Slot) returns (more: seq<Step>)
    requires Run(keys, start, steps) && Keyed(keys, cages)
    requires var s := After(keys, start, steps);
      s.unpublished == [] && s.phase == Streaming && Diff(SlotIndex(s.cur), cages) == [x]
    ensures Run(keys, start, more)
    ensures var s := After(keys, start, steps);
      After(keys, start, more) ==
        s.(cur := Some(Published(cages)), queue := Push(s.queue, x), dropped := s.dropped || |s.queue| >= BUFFER)
  {
    more := Then(keys, start, steps, Reconcile(cages));
    more := Then(keys, start, more, Publish);
  }

  /** One more reading of the two bays, with one of them changed, published. */
  lemma ChangeOne(s: State, steps: seq<Step>, a: int, a1: int, b1: int) returns (more: seq<Step>)
    requires Run(TWO_KEYS, START, steps) && s == After(TWO_KEYS, START, steps) && Filled(s, a, |s.queue|)
    requires (a1 != a) != (b1 != 30)
    ensures Run(TWO_KEYS, START, more)
    ensures var v, x := After(TWO_KEYS, START, more), SlotOf(if a1 != a then Bay(0, a1) else Bay(1, b1));
      v == s.(cur := Some(Published(TwoCages(a1, b1))), queue := Push(s.queue, x), dropped := |s.queue| >= BUFFER)
  {
    TwoBays(a1, b1);
    OneDiffers(a, a1, b1);
    more := ReconcileOne(TWO_KEYS, START, steps, TwoCages(a1, b1), SlotOf(if a1 != a then Bay(0, a1) else Bay(1, b1)));
  }

  lemma OneDiffers(a: int, a1: int, b1: int)
    requires (a1 != a) != (b1 != 30)
    ensures Diff(SlotIndex(Some(Published(TwoCages(a, 30)))), TwoCages(a1, b1)) ==
      [SlotOf(if a1 != a then Bay(0, a1) else Bay(1, b1))]
  {
    IndexOfTwo(a, 30);
    DiffOfTwo(SlotIndex(Some(Published(TwoCages(a, 30)))), a1, b1);
  }

  lemma {:induction false} FillUp(n: nat) returns (steps: seq<Step>, a: int)
    requires n <= BUFFER
    ensures Run(TWO_KEYS, START, steps) && Filled(After(TWO_KEYS, START, steps), a, n)
  {
    if n == 0 {
      steps := JoinWithView();
      a := 30;
    } else {
      steps, a := FillUp(n - 1);
      var s := After(TWO_KEYS, START, steps);
      steps := ChangeOne(s, steps, a, a + 1, 30);
      a := a + 1;
    }
  }

  /** An input: while a subscriber is slow, one bay of two changes 64 times and then the other
      once. That last event is lost, and everything on its way leaves the view wrong. */
  lemma LossHappens() returns (steps: seq<Step>)
    ensures Run(TWO_KEYS, START, steps)
    ensures var s := After(TWO_KEYS, START, steps);
      && s.phase.Streaming? && s.cur.Some? && Base(s).Some? && s.dropped
      && Stale(TWO_KEYS, s, 1) && !Agrees(ApplyAll(Base(s).value, Pending(s)), s.cur.value)
  {
    var a: int;
    steps, a := FillUp(BUFFER);
    var s := After(TWO_KEYS, START, steps);
    steps := ChangeOne(s, steps, a, a, 31);
    var v := After(TWO_KEYS, START, steps);
    assert Pending(v) == v.queue;
    LeftStale(v, a, 31);
    StaleDisagrees(TWO_KEYS, steps, 1);
  }

  lemma LeftStale(v: State, a: int, b: int)
    requires v.cur == Some(Published(TwoCages(a, b))) && v.ui == Some(Published(TwoCages(30, 30))) && b != 30
    requires v.greeting.None? && Pending(v) == v.queue && forall ev :: ev in v.queue ==> ev.key == TWO_KEYS[0]
    ensures Stale(TWO_KEYS, v, 1)
  {
    TwoBays(30, 30);
    TwoBays(a, b);
    LastForOnly(TWO_KEYS[1], SlotOf(Bay(1, 30)), v.queue, SlotOf(Bay(1, 30)));
  }

  // ---------- joining before the first snapshot ----------

  predicate Joining(step: Step) { step.Connect? || step.Greet? || step.Disconnect? || step.Restart? }

  /** The server listens before the first reconcile is done. A subscriber that joins then is
      greeted with nothing, and a UI that has no view of the host yet drops every slot event:
      however long the connection lasts and whatever is published, it never gets one. */
  lemma {:induction false} EarlyJoinerIsStranded(keys: seq<Key>, s: State, steps: seq<Step>)
    requires s.phase.Streaming? && Run(keys, s, steps)
    requires forall step :: step in steps ==> !Joining(step)
    ensures var v := After(keys, s, steps); v.phase.Streaming? && (Base(v).None? <==> Base(s).None?)
    decreases steps
  {
    if steps == [] {
    } else {
      assert steps[0] in steps;
      assert forall step :: step in steps[1..] ==> step in steps;
      var v := Stepping(s, steps[0]);
      EarlyJoinerIsStranded(keys, v, steps[1..]);
    }
  }

  /** For every run up to a greeting and everything that follows in the connection: the UI is
      without a view exactly when, at the greeting, there was no snapshot yet and the UI had no
      view from an earlier connection. */
  lemma StrandedIff(keys: seq<Key>, before: seq<Step>, after: seq<Step>)
    requires Distinct(keys) && Run(keys, START, before) && After(keys, START, before).phase.Registered?
    requires Run(keys, Stepping(After(keys, START, before), Greet), after)
    requires forall step :: step in after ==> !Joining(step)
    ensures var s := After(keys, START, before);
      Base(After(keys, Stepping(s, Greet), after)).None? <==> s.cur.None? && s.ui.None?
  {
    RunIsGood(keys, START, before);
    EarlyJoinerIsStranded(keys, Stepping(After(keys, START, before), Greet), after);
  }

  // ---------- the hub ----------

  class Hub {
    var subs: map<nat, seq<Slot>>

    constructor ()
      ensures subs == map[]
    {
      subs := map[];
    }

    method Sub(c: nat)
      requires c !in subs
      modifies this
      ensures subs == old(subs)[c := []]
    {
      subs := subs[c := []];
    }

    /** Every channel with room gets the event; a full one loses it. */
    method Pub(ev: Slot)
      modifies this
      ensures subs == map c | c in old(subs) :: Push(old(subs)[c], ev)
    {
      ghost var was := subs;
      var todo := subs.Keys;
      while todo != {}
        invariant todo <= was.Keys == subs.Keys
        invariant forall c :: c in was ==> subs[c] == if c in todo then was[c] else Push(was[c], ev)
        decreases |todo|
      {
        var c :| c in todo;
        if |subs[c]| < BUFFER {
          subs := subs[c := subs[c] + [ev]];
        }
        todo := todo - {c};
      }
    }
  }

  function PushAll(queue: seq<Slot>, events: seq<Slot>): seq<Slot> {
    if events == [] then queue else Push(PushAll(queue, events[..|events| - 1]), events[|events| - 1])
  }

  /** A subscriber that joins gets exactly what is published from then on, in order, as far as
      its channel has room: the first 64 events, if it takes none in the meantime. */
  lemma {:induction false} JoinerGetsWhatFollows(queue: seq<Slot>, events: seq<Slot>)
    requires |queue| <= 64
    ensures PushAll(queue, events) == queue + events[..if |events| <= 64 - |queue| then |events| else 64 - |queue|]
  {
    if events == [] {
      assert queue + [] == queue;
    } else {
      var init, last := events[..|events| - 1], events[|events| - 1];
      JoinerGetsWhatFollows(queue, init);
      assert events == init + [last];
    }
  }

  // ---------- the agent ----------

  lemma {:induction false} BaysSnoc(encs: Snapshot, e: nat)
    requires e < |encs|
    ensures Bays(encs[..e + 1]) == Bays(encs[..e]) + encs[e].slots
  {
    if e == 0 {
      assert encs[..1] == [encs[0]] && Bays([]) == [];
      assert [encs[0]][1..] == [];
    } else {
      assert encs[..e + 1][1..] == encs[1..][..e] && encs[..e][1..] == encs[1..][..e - 1];
      BaysSnoc(encs[1..], e - 1);
    }
  }

  lemma IndexSnoc(done: seq<Slot>, slots: seq<Slot>, i: nat)
    requires i < |slots|
    ensures IndexBays(done + slots[..i + 1]) == IndexBays(done + slots[..i])[slots[i].key := slots[i]]
  {
    assert (done + slots[..i + 1])[..|done| + i] == done + slots[..i];
  }

  lemma CountSnoc(done: seq<Slot>, slots: seq<Slot>, i: nat)
    requires i < |slots|
    ensures CountBays(done + slots[..i + 1]) == Counted(CountBays(done + slots[..i]), slots[i])
  {
    assert (done + slots[..i + 1])[..|done| + i] == done + slots[..i];
  }

  class Agent {
    const hub: Hub
    var cur: Option<Snapshot>

    constructor (hub: Hub)
      ensures this.hub == hub && cur == None
    {
      this.hub, cur := hub, None;
    }

    /** slotIndex */
    method Index() returns (index: map<Key, Slot>)
      ensures index == SlotIndex(cur)
    {
      index := map[];
      if cur.None? {
        return;
      }
      var encs := cur.value;
      var e := 0;
      while e < |encs|
        invariant 0 <= e <= |encs| && index == IndexBays(Bays(encs[..e]))
      {
        var slots, i := encs[e].slots, 0;
        ghost var done := Bays(encs[..e]);
        assert done + slots[..0] == done;
        while i < |slots|
          invariant 0 <= i <= |slots| && index == IndexBays(done + slots[..i])
        {
          IndexSnoc(done, slots, i);
          index := index[slots[i].key := slots[i]];
          i := i + 1;
        }
        assert slots[..i] == slots;
        BaysSnoc(encs, e);
        e := e + 1;
      }
      assert encs[..e] == encs;
    }

    /** The slots of one enclosure and the events of those that changed. */
    method Build(prev: map<Key, Slot>, readings: seq<Reading>) returns (slots: seq<Slot>, events: seq<Slot>)
      ensures slots == SlotsOf(readings) && events == DiffSlots(prev, SlotsOf(readings))
    {
      slots, events := [], [];
      ghost var all := SlotsOf(readings);
      var i := 0;
      while i < |readings|
        invariant 0 <= i <= |readings| && slots == all[..i] && events == DiffSlots(prev, all[..i])
      {
        var slot := SlotOf(readings[i]);
        assert all[..i + 1][..i] == all[..i];
        slots := slots + [slot];
        if Changed(Was(prev, slot.key), slot) {
          events := events + [slot];
        }
        i := i + 1;
      }
      assert all[..i] == all;
    }

    /** reconcile, from the readings on. */
    method Reconcile(cages: seq<Cage>)
      modifies this, hub
      ensures cur == Some(Published(cages)) && ShowsCages(cur.value, cages)
      ensures hub.subs == map c | c in old(hub.subs) :: PushAll(old(hub.subs)[c], Diff(SlotIndex(old(cur)), cages))
    {
      var encs, events := [], [];
      var prev := Index();
      var k := 0;
      while k < |cages|
        invariant cur == old(cur) && hub.subs == old(hub.subs)
        invariant 0 <= k <= |cages| && encs == Published(cages[..k]) && events == Diff(prev, cages[..k])
      {
        var slots, more := Build(prev, cages[k].readings);
        assert cages[..k + 1][..k] == cages[..k];
        encs := encs + [Enclosure(cages[k].id, StableSort(slots, LowerBay))];
        events := events + more;
        k := k + 1;
      }
      assert cages[..k] == cages;
      PublishedShows(cages);
      cur := Some(encs);
      Announce(events);
    }

    method Announce(events: seq<Slot>)
      modifies hub
      ensures hub.subs == map c | c in old(hub.subs) :: PushAll(old(hub.subs)[c], events)
    {
      ghost var was := hub.subs;
      var i := 0;
      while i < |events|
        invariant 0 <= i <= |events|
        invariant hub.subs == map c | c in was :: PushAll(was[c], events[..i])
      {
        assert events[..i + 1][..i] == events[..i];
        hub.Pub(events[i]);
        i := i + 1;
      }
      assert events[..i] == events;
    }
  }

  // ---------- the UI's fleet ----------

  datatype HostState = HostState(enclosures: Snapshot, online: bool, counts: Counts)

  class Fleet {
    var hosts: map<nat, HostState>

    constructor ()
      ensures hosts == map[]
    {
      hosts := map[];
    }

    method ApplySnapshot(host: nat, encs: Snapshot)
      modifies this
      ensures hosts == old(hosts)[host := HostState(encs, true, CountBays(Bays(encs)))]
    {
      var counts := Recount(encs);
      hosts := hosts[host := HostState(encs, true, counts)];
    }

    method ApplySlot(host: nat, ev: Slot)
      modifies this
      ensures host !in old(hosts) ==> hosts == old(hosts)
      ensures host in old(hosts) ==>
        var encs := Apply(old(hosts)[host].enclosures, ev);
        hosts == old(hosts)[host := HostState(encs, true, CountBays(Bays(encs)))]
    {
      if host !in hosts {
        return;
      }
      ghost var was := hosts[host].enclosures;
      var encs := hosts[host].enclosures;
      var e := 0;
      while e < |encs|
        invariant hosts == old(hosts) && 0 <= e <= |encs| == |was|
        invariant forall j :: 0 <= j < e ==> encs[j] == Apply(was, ev)[j]
        invariant forall j :: e <= j < |encs| ==> encs[j] == was[j]
      {
        if encs[e].id == ev.key.enclosure {
          var slots := PutInto(encs[e].slots, ev);
          encs := encs[e := encs[e].(slots := slots)];
        }
        e := e + 1;
      }
      ghost var after := Apply(was, ev);
      assert encs == after;
      var counts := Recount(encs);
      hosts := hosts[host := HostState(encs, true, counts)];
    }

    static method PutInto(slots: seq<Slot>, ev: Slot) returns (put: seq<Slot>)
      ensures put == PutSlots(slots, ev)
    {
      put := slots;
      var i := 0;
      while i < |put|
        invariant 0 <= i <= |put| == |slots|
        invariant forall j :: 0 <= j < i ==> put[j] == PutSlots(slots, ev)[j]
        invariant forall j :: i <= j < |put| ==> put[j] == slots[j]
      {
        if put[i].key.number == ev.key.number {
          put := put[i := ev];
        }
        i := i + 1;
      }
    }

    /** recount */
    static method Recount(encs: Snapshot) returns (counts: Counts)
      ensures counts == CountBays(Bays(encs))
    {
      counts := Counts(0, 0, 0, 0);
      var e := 0;
      while e < |encs|
        invariant 0 <= e <= |encs| && counts == CountBays(Bays(encs[..e]))
      {
        var slots, i := encs[e].slots, 0;
        ghost var done := Bays(encs[..e]);
        assert done + slots[..0] == done;
        while i < |slots|
          invariant 0 <= i <= |slots| && counts == CountBays(done + slots[..i])
        {
          CountSnoc(done, slots, i);
          counts := Counted(counts, slots[i]);
          i := i + 1;
        }
        assert slots[..i] == slots;
        BaysSnoc(encs, e);
        e := e + 1;
      }
      assert encs[..e] == encs;
    }
  }
}
