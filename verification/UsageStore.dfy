/** The counters of the usage queue exporter (cliproxy-exporter.py, Store and Poller.poll_once):
    batches applied in transactions, a cap on label pairs, rollbacks and restarts. */
module UsageStore {
  import opened Collections
  import opened Options

  /** A provider and a model; label 0 stands for the overflow label. */
  datatype Pair = Pair(provider: nat, model: nat)

  const OVERFLOW := Pair(0, 0)

  /** What parse_record makes of a record. `tokens` has a count for every kind, `latency` is
      in milliseconds. */
  datatype Sample = Sample(pair: Pair, status: nat, tokens: seq<nat>, latency: nat)

  datatype Record = Valid(sample: Sample) | Invalid(reason: nat)

  datatype Request = Request(pair: Pair, status: nat)

  datatype Token = Token(pair: Pair, kind: nat)

  /** The tables. */
  datatype Db = Db(requests: map<Request, nat>, tokens: map<Token, nat>, latency: map<Pair, nat>,
                   count: map<Pair, nat>, invalid: map<nat, nat>, overflow: nat)

  const EMPTY := Db(map[], map[], map[], map[], map[], 0)

  /** The value of a store: its database and the pairs it knows. */
  datatype Ledger = Ledger(max: nat, db: Db, pairs: set<Pair>)

  function Get<K>(m: map<K, nat>, k: K): nat { if k in m then m[k] else 0 }

  function Bump<K>(m: map<K, nat>, k: K, n: nat): map<K, nat> { m[k := Get(m, k) + n] }

  function AddTokens(m: map<Token, nat>, pair: Pair, tokens: seq<nat>): map<Token, nat> {
    if tokens == [] then m
    else
      var kind := |tokens| - 1;
      var before := AddTokens(m, pair, tokens[..kind]);
      if tokens[kind] == 0 then before else Bump(before, Token(pair, kind), tokens[kind])
  }

  /** One valid record counted under `pair`. */
  function Counted(db: Db, pair: Pair, s: Sample): Db {
    Db(Bump(db.requests, Request(pair, s.status), 1), AddTokens(db.tokens, pair, s.tokens),
       Bump(db.latency, pair, s.latency), Bump(db.count, pair, 1), db.invalid, db.overflow)
  }

  // ---------- apply ----------

  /** A transaction under way: `seen` are the known pairs and the pending ones. */
  datatype Tally = Tally(db: Db, seen: set<Pair>, overflowed: nat, valid: nat, invalid: nat)

  predicate Folds(seen: set<Pair>, max: nat, pair: Pair) { pair !in seen && |seen| >= max }

  function One(t: Tally, max: nat, r: Record): Tally {
    match r
    case Invalid(reason) => t.(db := t.db.(invalid := Bump(t.db.invalid, reason, 1)), invalid := t.invalid + 1)
    case Valid(s) =>
      if Folds(t.seen, max, s.pair) then
        t.(db := Counted(t.db, OVERFLOW, s), overflowed := t.overflowed + 1, valid := t.valid + 1)
      else t.(db := Counted(t.db, s.pair, s), seen := t.seen + {s.pair}, valid := t.valid + 1)
  }

  function All(t: Tally, max: nat, records: seq<Record>): Tally {
    if records == [] then t else One(All(t, max, records[..|records| - 1]), max, records[|records| - 1])
  }

  function Begin(s: Ledger): Tally { Tally(s.db, s.pairs, 0, 0, 0) }

  function Committed(s: Ledger, records: seq<Record>): Ledger {
    var t := All(Begin(s), s.max, records);
    Ledger(s.max, t.db.(overflow := t.db.overflow + t.overflowed), t.seen)
  }

  function PairsOf(db: Db): set<Pair> { set k | k in db.requests :: k.pair }

  /** A store opened on what is on disk. */
  function Reopened(s: Ledger): Ledger { Ledger(s.max, s.db, PairsOf(s.db)) }

  // ---------- apply of two batches ----------

  lemma {:induction false} AllAppend(t: Tally, max: nat, a: seq<Record>, b: seq<Record>)
    ensures All(t, max, a + b) == All(All(t, max, a), max, b)
  {
    if b == [] {
      assert a + b == a;
    } else {
      assert (a + b)[..|a + b| - 1] == a + b[..|b| - 1];
      AllAppend(t, max, a, b[..|b| - 1]);
    }
  }

  /** What was counted before a transaction does not change what it counts. */
  ghost predicate Follows(t: Tally, u: Tally, o: nat) {
    && u.db == t.db.(overflow := t.db.overflow + o) && u.seen == t.seen && u.overflowed + o == t.overflowed
  }

  lemma {:induction false} AllFollows(t: Tally, u: Tally, max: nat, o: nat, records: seq<Record>)
    requires Follows(t, u, o)
    ensures Follows(All(t, max, records), All(u, max, records), o)
    ensures All(t, max, records).valid - t.valid == All(u, max, records).valid - u.valid
    ensures All(t, max, records).invalid - t.invalid == All(u, max, records).invalid - u.invalid
  {
    if records == [] {
    } else {
      var init, r := records[..|records| - 1], records[|records| - 1];
      AllFollows(t, u, max, o, init);
      OneFollows(All(t, max, init), All(u, max, init), max, o, r);
    }
  }

  lemma OneFollows(t: Tally, u: Tally, max: nat, o: nat, r: Record)
    requires Follows(t, u, o)
    ensures Follows(One(t, max, r), One(u, max, r), o)
    ensures One(t, max, r).valid - t.valid == One(u, max, r).valid - u.valid
    ensures One(t, max, r).invalid - t.invalid == One(u, max, r).invalid - u.invalid
  {
  }

  /** Two batches leave what their concatenation leaves, and their numbers of valid and invalid
      records add up. */
  lemma BatchesAdd(s: Ledger, a: seq<Record>, b: seq<Record>)
    ensures Committed(s, a + b) == Committed(Committed(s, a), b)
    ensures var whole, first, second := All(Begin(s), s.max, a + b), All(Begin(s), s.max, a), All(Begin(Committed(s, a)), s.max, b);
      whole.valid == first.valid + second.valid && whole.invalid == first.invalid + second.invalid
  {
    AllAppend(Begin(s), s.max, a, b);
    AllFollows(All(Begin(s), s.max, a), Begin(Committed(s, a)), s.max, All(Begin(s), s.max, a).overflowed, b);
  }

  // ---------- the cap ----------

  /** The pairs of the table are those the store knows, but for the overflow pair, which shows
      up only once the cap is reached. */
  ghost predicate Capped(pairs: set<Pair>, table: set<Pair>, max: nat) {
    && pairs <= table <= pairs + {OVERFLOW}
    && (OVERFLOW in table && OVERFLOW !in pairs ==> |pairs| >= max)
    && |pairs - {OVERFLOW}| <= max
  }

  ghost predicate Ok(s: Ledger) { Capped(s.pairs, PairsOf(s.db), s.max) }

  lemma PairsOfCounted(db: Db, pair: Pair, s: Sample)
    ensures PairsOf(Counted(db, pair, s)) == PairsOf(db) + {pair}
  {
    var after := Counted(db, pair, s);
    assert Request(pair, s.status) in after.requests;
    forall p ensures p in PairsOf(after) <==> p in PairsOf(db) || p == pair {
      if p in PairsOf(db) {
        var k :| k in db.requests && k.pair == p;
        assert k in after.requests;
      }
    }
  }

  lemma OneIsCapped(t: Tally, max: nat, r: Record)
    requires Capped(t.seen, PairsOf(t.db), max)
    ensures Capped(One(t, max, r).seen, PairsOf(One(t, max, r).db), max)
  {
    match r {
      case Invalid(_) =>
        assert PairsOf(One(t, max, r).db) == PairsOf(t.db);
      case Valid(s) =>
        if Folds(t.seen, max, s.pair) {
          PairsOfCounted(t.db, OVERFLOW, s);
        } else {
          PairsOfCounted(t.db, s.pair, s);
          AddingKeepsRoom(t.seen, s.pair, max);
        }
    }
  }

  lemma AddingKeepsRoom(seen: set<Pair>, pair: Pair, max: nat)
    requires |seen - {OVERFLOW}| <= max && !Folds(seen, max, pair)
    ensures |seen + {pair} - {OVERFLOW}| <= max && |seen + {pair}| >= |seen|
  {
    SubsetSize(seen - {OVERFLOW}, seen);
    SubsetSize(seen, seen + {pair});
    if pair in seen {
      assert seen + {pair} == seen;
    } else {
      assert |seen + {pair}| == |seen| + 1;
      SubsetSize(seen + {pair} - {OVERFLOW}, seen + {pair});
    }
  }

  lemma {:induction false} AllIsCapped(t: Tally, max: nat, records: seq<Record>)
    requires Capped(t.seen, PairsOf(t.db), max)
    ensures Capped(All(t, max, records).seen, PairsOf(All(t, max, records).db), max)
  {
    if records == [] {
    } else {
      AllIsCapped(t, max, records[..|records| - 1]);
      OneIsCapped(All(t, max, records[..|records| - 1]), max, records[|records| - 1]);
    }
  }

  lemma CommittedIsOk(s: Ledger, records: seq<Record>)
    requires Ok(s)
    ensures Ok(Committed(s, records))
  {
    AllIsCapped(Begin(s), s.max, records);
    assert PairsOf(Committed(s, records).db) == PairsOf(All(Begin(s), s.max, records).db);
  }

  lemma ReopenedIsOk(s: Ledger)
    requires Ok(s)
    ensures Ok(Reopened(s))
    ensures Reopened(s).pairs == s.pairs
         || (Reopened(s).pairs == s.pairs + {OVERFLOW} && OVERFLOW !in s.pairs && |s.pairs| >= s.max)
  {
    assert PairsOf(s.db) - {OVERFLOW} == s.pairs - {OVERFLOW};
  }

  /** The tables never hold more pairs than the cap and the overflow pair. */
  lemma PairsAreBounded(s: Ledger)
    requires Ok(s)
    ensures |PairsOf(s.db)| <= s.max + 1
  {
    var table := PairsOf(s.db);
    assert table - {OVERFLOW} == s.pairs - {OVERFLOW};
    assert table <= (table - {OVERFLOW}) + {OVERFLOW};
    SubsetSize(table, (table - {OVERFLOW}) + {OVERFLOW});
  }

  // ---------- restarts ----------

  predicate IsOverflow(r: Record) { r.Valid? && r.sample.pair == OVERFLOW }

  function Overflows(records: seq<Record>): nat {
    if records == [] then 0
    else Overflows(records[..|records| - 1]) + if IsOverflow(records[|records| - 1]) then 1 else 0
  }

  /** `u` went through a restart that made the overflow pair a known one. */
  ghost predicate KnowsOverflow(t: Tally, u: Tally, max: nat) {
    && u.db == t.db && u.seen == t.seen + {OVERFLOW} && OVERFLOW !in t.seen && |t.seen| >= max
    && u.valid == t.valid && u.invalid == t.invalid
  }

  lemma {:induction false} AllAfterRestart(t: Tally, u: Tally, max: nat, records: seq<Record>)
    requires KnowsOverflow(t, u, max) && u.overflowed == t.overflowed
    ensures KnowsOverflow(All(t, max, records), All(u, max, records), max)
    ensures All(u, max, records).overflowed + Overflows(records) == All(t, max, records).overflowed
  {
    if records == [] {
    } else {
      var init, r := records[..|records| - 1], records[|records| - 1];
      AllAfterRestart(t, u, max, init);
      OneAfterRestart(All(t, max, init), All(u, max, init), max, r);
    }
  }

  lemma OneAfterRestart(t: Tally, u: Tally, max: nat, r: Record)
    requires KnowsOverflow(t, u, max)
    ensures KnowsOverflow(One(t, max, r), One(u, max, r), max)
    ensures One(u, max, r).overflowed - u.overflowed + (if IsOverflow(r) then 1 else 0)
         == One(t, max, r).overflowed - t.overflowed
  {
    SubsetSize(t.seen, u.seen);
    if r.Valid? && r.sample.pair in t.seen {
      assert t.seen + {r.sample.pair} == t.seen && u.seen + {r.sample.pair} == u.seen;
    }
    assert u.seen + {OVERFLOW} == u.seen;
  }

  /** A restart changes nothing that is counted later but one number, and that one exactly when
      the overflow pair was in the table without being a known pair: then each later record
      whose own labels are the overflow labels is not counted as folded any more. */
  lemma RestartChangesOnlyOverflow(s: Ledger, records: seq<Record>)
    requires Ok(s)
    ensures var a, b := Committed(s, records), Committed(Reopened(s), records);
      && b.db == a.db.(overflow := b.db.overflow)
      && a.db.overflow == b.db.overflow + (if OVERFLOW in PairsOf(s.db) && OVERFLOW !in s.pairs then Overflows(records) else 0)
  {
    ReopenedIsOk(s);
    if OVERFLOW in PairsOf(s.db) && OVERFLOW !in s.pairs {
      AllAfterRestart(Begin(s), Begin(Reopened(s)), s.max, records);
    }
  }

  // ---------- every history ----------

  /** What can happen to a store: a batch committed, a batch rolled back, a restart. */
  datatype Op = Commit(records: seq<Record>) | RollBack(records: seq<Record>) | Restart

  function Start(max: nat): Ledger { Ledger(max, EMPTY, {}) }

  function Doing(s: Ledger, op: Op): Ledger {
    match op
    case Commit(records) => Committed(s, records)
    case RollBack(_) => s
    case Restart => Reopened(s)
  }

  function Running(s: Ledger, ops: seq<Op>): Ledger {
    if ops == [] then s else Doing(Running(s, ops[..|ops| - 1]), ops[|ops| - 1])
  }

  /** The records of the committed batches, one after the other. */
  function Kept(ops: seq<Op>): seq<Record> {
    if ops == [] then []
    else
      var before, op := Kept(ops[..|ops| - 1]), ops[|ops| - 1];
      if op.Commit? then before + op.records else before
  }

  lemma StartIsOk(max: nat)
    ensures Ok(Start(max))
  {
    assert PairsOf(EMPTY) == {};
    assert {} - {OVERFLOW} == {};
  }

  lemma {:induction false} RunningIsOk(max: nat, ops: seq<Op>)
    ensures Ok(Running(Start(max), ops)) && Running(Start(max), ops).max == max
    ensures |PairsOf(Running(Start(max), ops).db)| <= max + 1
  {
    if ops == [] {
      StartIsOk(max);
    } else {
      var init, op := ops[..|ops| - 1], ops[|ops| - 1];
      RunningIsOk(max, init);
      var s := Running(Start(max), init);
      match op {
        case Commit(records) => CommittedIsOk(s, records);
        case RollBack(_) =>
        case Restart => ReopenedIsOk(s);
      }
    }
    PairsAreBounded(Running(Start(max), ops));
  }

  /** The same tables, and the same known pairs but perhaps for the overflow pair. */
  ghost predicate Alike(s: Ledger, t: Ledger) {
    && s.db == t.db && s.max == t.max
    && (s.pairs == t.pairs || (s.pairs == t.pairs + {OVERFLOW} && OVERFLOW !in t.pairs && |t.pairs| >= t.max))
  }

  lemma CommitAlike(s: Ledger, t: Ledger, records: seq<Record>)
    requires Alike(s, t) && Overflows(records) == 0
    ensures Alike(Committed(s, records), Committed(t, records))
  {
    if s.pairs != t.pairs {
      AllAfterRestart(Begin(t), Begin(s), s.max, records);
    }
  }

  lemma {:induction false} OverflowsAppend(a: seq<Record>, b: seq<Record>)
    ensures Overflows(a + b) == Overflows(a) + Overflows(b)
  {
    if b == [] {
      assert a + b == a;
    } else {
      assert (a + b)[..|a + b| - 1] == a + b[..|b| - 1];
      OverflowsAppend(a, b[..|b| - 1]);
    }
  }

  lemma {:induction false} RunningAlike(max: nat, ops: seq<Op>)
    requires Overflows(Kept(ops)) == 0
    ensures Alike(Running(Start(max), ops), Committed(Start(max), Kept(ops))) && Ok(Committed(Start(max), Kept(ops)))
  {
    StartIsOk(max);
    CommittedIsOk(Start(max), Kept(ops));
    if ops == [] {
    } else {
      var init, op := ops[..|ops| - 1], ops[|ops| - 1];
      var s, t := Running(Start(max), init), Committed(Start(max), Kept(init));
      match op {
        case Commit(records) =>
          OverflowsAppend(Kept(init), records);
          RunningAlike(max, init);
          CommitAlike(s, t, records);
          BatchesAdd(Start(max), Kept(init), records);
        case RollBack(_) =>
          RunningAlike(max, init);
        case Restart =>
          RunningAlike(max, init);
          ReopenedIsOk(t);
      }
    }
  }

  /** However the records were batched, whatever was rolled back and however often the exporter
      restarted: as long as no record's own labels are the overflow labels, every counter is
      what one transaction with all the committed records would have made it. */
  lemma BatchingAndRestartsAreInvisible(max: nat, ops: seq<Op>)
    requires Overflows(Kept(ops)) == 0
    ensures Running(Start(max), ops).db == Committed(Start(max), Kept(ops)).db
  {
    RunningAlike(max, ops);
  }

  /** An input: with room for one pair, a record of a first pair, one of a second (folded), and
      one whose own labels are the overflow labels. A restart before the last one is seen in
      the overflow counter. */
  lemma RestartShowsInOverflow() returns (early: seq<Record>, late: seq<Record>)
    ensures Running(Start(1), [Commit(early), Commit(late)]).db.overflow == 2
    ensures Running(Start(1), [Commit(early), Restart, Commit(late)]).db.overflow == 1
  {
    var a, b := Valid(Sample(Pair(1, 1), 200, [], 0)), Valid(Sample(Pair(2, 2), 200, [], 0));
    var o := Valid(Sample(OVERFLOW, 200, [], 0));
    early, late := [a, b], [o];
    RestartShows(a, b, o);
  }

  lemma RestartShows(a: Record, b: Record, o: Record)
    requires a.Valid? && b.Valid? && a.sample.pair != b.sample.pair && a.sample.pair != OVERFLOW && IsOverflow(o)
    ensures Running(Start(1), [Commit([a, b]), Commit([o])]).db.overflow == 2
    ensures Running(Start(1), [Commit([a, b]), Restart, Commit([o])]).db.overflow == 1
  {
    var s := Committed(Start(1), [a, b]);
    TwoPairsOneRoom(a, b);
    StartIsOk(1);
    CommittedIsOk(Start(1), [a, b]);
    RestartChangesOnlyOverflow(s, [o]);
    ThreeOps(Start(1), Commit([a, b]), Restart, Commit([o]));
    OneOverflow(s, o);
  }

  lemma OneOverflow(s: Ledger, r: Record)
    requires IsOverflow(r) && OVERFLOW !in s.pairs && |s.pairs| >= s.max
    ensures Overflows([r]) == 1 && Committed(s, [r]).db.overflow == s.db.overflow + 1
  {
    assert [r][..0] == [];
    assert All(Begin(s), s.max, [r]) == One(Begin(s), s.max, r);
  }

  lemma ThreeOps(s: Ledger, a: Op, b: Op, c: Op)
    ensures Running(s, [a, c]) == Doing(Doing(s, a), c)
    ensures Running(s, [a, b, c]) == Doing(Doing(Doing(s, a), b), c)
  {
    assert [a][..0] == [] && [a, c][..1] == [a] && [a, b][..1] == [a] && [a, b, c][..2] == [a, b];
    assert Running(s, [a]) == Doing(s, a);
  }

  lemma TwoPairsOneRoom(a: Record, b: Record)
    requires a.Valid? && b.Valid? && a.sample.pair != b.sample.pair && a.sample.pair != OVERFLOW
    ensures var s := Committed(Start(1), [a, b]);
      s.pairs == {a.sample.pair} && OVERFLOW in PairsOf(s.db) && s.db.overflow == 1
  {
    var t := Begin(Start(1));
    var t1 := One(t, 1, a);
    AllOfTwo(t, 1, a, b);
    assert t1.seen == {a.sample.pair} && |t1.seen| == 1;
    var db := Counted(t1.db, OVERFLOW, b.sample);
    assert One(t1, 1, b) == Tally(db, t1.seen, 1, 2, 0);
    PairsOfCounted(t1.db, OVERFLOW, b.sample);
    assert PairsOf(db.(overflow := 1)) == PairsOf(db);
  }

  lemma AllOfTwo(t: Tally, max: nat, a: Record, b: Record)
    ensures All(t, max, [a, b]) == One(One(t, max, a), max, b)
  {
    assert [a][..0] == [] && [a, b][..1] == [a];
    assert All(t, max, [a]) == One(t, max, a);
  }

  // ---------- conservation ----------

  ghost function Total<K(!new)>(m: map<K, nat>): nat
    decreases |m|
  {
    if m == map[] then 0
    else
      var k :| k in m;
      assert |m - {k}| < |m|;
      m[k] + Total(m - {k})
  }

  lemma {:induction false} TotalTake<K(!new)>(m: map<K, nat>, k: K)
    requires k in m
    ensures Total(m) == m[k] + Total(m - {k})
    decreases |m|
  {
    var j :| j in m && Total(m) == m[j] + Total(m - {j});
    if j == k {
    } else {
      TotalTake(m - {j}, k);
      TotalTake(m - {k}, j);
      assert m - {j} - {k} == m - {k} - {j};
    }
  }

  lemma TotalBump<K(!new)>(m: map<K, nat>, k: K, n: nat)
    ensures Total(Bump(m, k, n)) == Total(m) + n
  {
    var b := Bump(m, k, n);
    TotalTake(b, k);
    if k in m {
      TotalTake(m, k);
      assert b - {k} == m - {k};
    } else {
      assert b - {k} == m;
    }
  }

  function Only(m: map<Request, nat>, pair: Pair): map<Request, nat> {
    map k | k in m && k.pair == pair :: m[k]
  }

  lemma OnlyBump(m: map<Request, nat>, k: Request, n: nat, pair: Pair)
    ensures Only(Bump(m, k, n), pair) == if k.pair == pair then Bump(Only(m, pair), k, n) else Only(m, pair)
  {
  }

  function TokenSum(tokens: seq<nat>): nat {
    if tokens == [] then 0 else TokenSum(tokens[..|tokens| - 1]) + tokens[|tokens| - 1]
  }

  /** What the records report in all. */
  function Tokens(records: seq<Record>): nat {
    if records == [] then 0
    else
      var r := records[|records| - 1];
      Tokens(records[..|records| - 1]) + if r.Valid? then TokenSum(r.sample.tokens) else 0
  }

  function Latency(records: seq<Record>): nat {
    if records == [] then 0
    else
      var r := records[|records| - 1];
      Latency(records[..|records| - 1]) + if r.Valid? then r.sample.latency else 0
  }

  /** Every record is counted once, as a request or as invalid; tokens and latencies add up to
      what was reported; and each pair has as many durations as requests. */
  ghost predicate Balanced(db: Db, records: seq<Record>) {
    && Total(db.requests) + Total(db.invalid) == |records|
    && Total(db.tokens) == Tokens(records)
    && Total(db.latency) == Latency(records)
    && forall p :: Total(Only(db.requests, p)) == Get(db.count, p)
  }

  lemma {:induction false} AddTokensTotal(m: map<Token, nat>, pair: Pair, tokens: seq<nat>)
    ensures Total(AddTokens(m, pair, tokens)) == Total(m) + TokenSum(tokens)
  {
    if tokens == [] {
    } else {
      var kind := |tokens| - 1;
      AddTokensTotal(m, pair, tokens[..kind]);
      TotalBump(AddTokens(m, pair, tokens[..kind]), Token(pair, kind), tokens[kind]);
    }
  }

  lemma CountedBalance(db: Db, pair: Pair, s: Sample, records: seq<Record>, r: Record)
    requires Balanced(db, records) && r.Valid? && r.sample == s
    ensures Balanced(Counted(db, pair, s), records + [r])
  {
    var all, after := records + [r], Counted(db, pair, s);
    assert all[..|all| - 1] == records;
    assert Total(after.requests) == Total(db.requests) + 1 by { TotalBump(db.requests, Request(pair, s.status), 1); }
    assert Total(after.tokens) == Total(db.tokens) + TokenSum(s.tokens) by { AddTokensTotal(db.tokens, pair, s.tokens); }
    assert Total(after.latency) == Total(db.latency) + s.latency by { TotalBump(db.latency, pair, s.latency); }
    forall p ensures Total(Only(after.requests, p)) == Get(after.count, p) {
      assert Total(Only(db.requests, p)) == Get(db.count, p);
      PairBalance(db, pair, s, p);
    }
  }

  lemma PairBalance(db: Db, pair: Pair, s: Sample, p: Pair)
    requires Total(Only(db.requests, p)) == Get(db.count, p)
    ensures Total(Only(Counted(db, pair, s).requests, p)) == Get(Counted(db, pair, s).count, p)
  {
    OnlyBump(db.requests, Request(pair, s.status), 1, p);
    TotalBump(Only(db.requests, p), Request(pair, s.status), 1);
  }

  lemma OneBalances(t: Tally, max: nat, records: seq<Record>, r: Record)
    requires Balanced(t.db, records)
    ensures Balanced(One(t, max, r).db, records + [r])
  {
    match r {
      case Valid(s) =>
        CountedBalance(t.db, if Folds(t.seen, max, s.pair) then OVERFLOW else s.pair, s, records, r);
      case Invalid(reason) =>
        TotalBump(t.db.invalid, reason, 1);
        assert (records + [r])[..|records + [r]| - 1] == records;
    }
  }

  lemma {:induction false} AllBalances(t: Tally, max: nat, before: seq<Record>, records: seq<Record>)
    requires Balanced(t.db, before)
    ensures Balanced(All(t, max, records).db, before + records)
  {
    if records == [] {
      assert before + records == before;
    } else {
      var init, r := records[..|records| - 1], records[|records| - 1];
      AllBalances(t, max, before, init);
      OneBalances(All(t, max, init), max, before + init, r);
      assert before + records == (before + init) + [r];
    }
  }

  /** In every history, nothing committed is lost or counted twice. */
  lemma {:induction false} CountersConserve(max: nat, ops: seq<Op>)
    ensures Balanced(Running(Start(max), ops).db, Kept(ops))
  {
    if ops == [] {
      assert forall p :: Only(EMPTY.requests, p) == map[];
    } else {
      var init, op := ops[..|ops| - 1], ops[|ops| - 1];
      CountersConserve(max, init);
      if op.Commit? {
        var s := Running(Start(max), init);
        AllBalances(Begin(s), max, Kept(init), op.records);
        RunningIsOk(max, init);
      }
    }
  }

  // ---------- what each counter is ----------

  ghost function PairsIn(records: seq<Record>): set<Pair> { set r | r in records && r.Valid? :: r.sample.pair }

  /** The pair turned up before as many different ones as the cap allows had been there. */
  ghost predicate IsEarly(records: seq<Record>, max: nat, p: Pair) {
    exists i :: 0 <= i < |records| && Shows(records[i], p) && |PairsIn(records[..i])| < max
  }

  predicate Shows(r: Record, p: Pair) { r.Valid? && r.sample.pair == p }

  /** The pairs that are counted under their own labels: the first ones, as many as the cap. */
  ghost function Early(records: seq<Record>, max: nat): set<Pair> {
    set p | p in PairsIn(records) && IsEarly(records, max, p)
  }

  function Under(own: set<Pair>, p: Pair): Pair { if p in own then p else OVERFLOW }

  predicate IsUnder(own: set<Pair>, r: Record, p: Pair) { r.Valid? && Under(own, r.sample.pair) == p }

  /** How many of the records are valid, of these labels and of this status. */
  function RequestsOf(records: seq<Record>, own: set<Pair>, q: Request): nat {
    if records == [] then 0
    else
      var r := records[|records| - 1];
      RequestsOf(records[..|records| - 1], own, q) + if IsUnder(own, r, q.pair) && r.sample.status == q.status then 1 else 0
  }

  function TokensOf(records: seq<Record>, own: set<Pair>, q: Token): nat {
    if records == [] then 0
    else
      var r := records[|records| - 1];
      TokensOf(records[..|records| - 1], own, q)
        + if IsUnder(own, r, q.pair) && q.kind < |r.sample.tokens| then r.sample.tokens[q.kind] else 0
  }

  function LatencyOf(records: seq<Record>, own: set<Pair>, p: Pair): nat {
    if records == [] then 0
    else
      var r := records[|records| - 1];
      LatencyOf(records[..|records| - 1], own, p) + if IsUnder(own, r, p) then r.sample.latency else 0
  }

  function CountOf(records: seq<Record>, own: set<Pair>, p: Pair): nat {
    if records == [] then 0
    else
      var r := records[|records| - 1];
      CountOf(records[..|records| - 1], own, p) + if IsUnder(own, r, p) then 1 else 0
  }

  function InvalidOf(records: seq<Record>, reason: nat): nat {
    if records == [] then 0
    else InvalidOf(records[..|records| - 1], reason) + if records[|records| - 1] == Invalid(reason) then 1 else 0
  }

  function FoldedOf(records: seq<Record>, own: set<Pair>): nat {
    if records == [] then 0
    else
      var r := records[|records| - 1];
      FoldedOf(records[..|records| - 1], own) + if r.Valid? && r.sample.pair !in own then 1 else 0
  }

  /** Every entry of every table is the number, or the sum, over the records with its key. */
  ghost predicate Entered(db: Db, records: seq<Record>, own: set<Pair>) {
    && (forall q :: Get(db.requests, q) == RequestsOf(records, own, q))
    && (forall q :: Get(db.tokens, q) == TokensOf(records, own, q))
    && (forall p :: Get(db.latency, p) == LatencyOf(records, own, p))
    && (forall p :: Get(db.count, p) == CountOf(records, own, p))
    && (forall reason :: Get(db.invalid, reason) == InvalidOf(records, reason))
  }

  lemma {:induction false} SameOwn(records: seq<Record>, own: set<Pair>, other: set<Pair>)
    requires forall p :: p in PairsIn(records) ==> (p in own <==> p in other)
    ensures forall q :: RequestsOf(records, own, q) == RequestsOf(records, other, q)
    ensures forall q :: TokensOf(records, own, q) == TokensOf(records, other, q)
    ensures forall p :: LatencyOf(records, own, p) == LatencyOf(records, other, p)
    ensures forall p :: CountOf(records, own, p) == CountOf(records, other, p)
    ensures FoldedOf(records, own) == FoldedOf(records, other)
  {
    if records == [] {
    } else {
      var init, r := records[..|records| - 1], records[|records| - 1];
      assert records == init + [r];
      PairsSnoc(init, r);
      SameOwn(init, own, other);
    }
  }

  lemma PairsSnoc(records: seq<Record>, r: Record)
    ensures PairsIn(records + [r]) == PairsIn(records) + if r.Valid? then {r.sample.pair} else {}
  {
  }

  lemma PrefixHasFewer(records: seq<Record>, i: nat)
    requires i <= |records|
    ensures |PairsIn(records[..i])| <= |PairsIn(records)|
  {
    assert forall r :: r in records[..i] ==> r in records;
    SubsetSize(PairsIn(records[..i]), PairsIn(records));
  }

  /** While there is room every pair that turned up is early; and a record makes no pair early
      but its own, and that only while there is room. */
  lemma EarlySnoc(records: seq<Record>, max: nat, r: Record, p: Pair)
    ensures IsEarly(records + [r], max, p) <==> IsEarly(records, max, p) || (Shows(r, p) && |PairsIn(records)| < max)
  {
    var all := records + [r];
    assert all[..|records|] == records && all[|records|] == r;
    assert forall i :: 0 <= i < |records| ==> all[..i] == records[..i] && all[i] == records[i];
  }

  lemma EarlyWhileRoom(records: seq<Record>, max: nat, p: Pair)
    requires p in PairsIn(records) && |PairsIn(records)| < max
    ensures IsEarly(records, max, p)
  {
    var r :| r in records && r.Valid? && r.sample.pair == p;
    var i :| 0 <= i < |records| && records[i] == r;
    PrefixHasFewer(records, i);
    assert Shows(records[i], p);
  }

  lemma EarlyStays(records: seq<Record>, max: nat, r: Record)
    ensures forall p :: p in PairsIn(records) ==> (p in Early(records, max) <==> p in Early(records + [r], max))
  {
    PairsSnoc(records, r);
    forall p | p in PairsIn(records) ensures p in Early(records, max) <==> p in Early(records + [r], max) {
      EarlySnoc(records, max, r, p);
      if |PairsIn(records)| < max {
        EarlyWhileRoom(records, max, p);
      }
    }
  }

  /** A store has room exactly while few pairs have turned up, and then knows all of them. */
  ghost predicate HasRoom(seen: set<Pair>, records: seq<Record>, max: nat) {
    && (|PairsIn(records)| < max ==> seen == PairsIn(records))
    && (|PairsIn(records)| >= max ==> |seen| >= max)
  }

  /** A store knows the early pairs, but for the overflow pair, of which it does not matter. */
  ghost predicate Tracks(seen: set<Pair>, records: seq<Record>, max: nat) {
    HasRoom(seen, records, max) && forall p :: p != OVERFLOW ==> (p in seen <==> p in Early(records, max))
  }

  function Seen(seen: set<Pair>, max: nat, r: Record): set<Pair> {
    if r.Valid? && !Folds(seen, max, r.sample.pair) then seen + {r.sample.pair} else seen
  }

  lemma FoldsIffLate(seen: set<Pair>, records: seq<Record>, max: nat, r: Record)
    requires Tracks(seen, records, max) && r.Valid?
    ensures (if Folds(seen, max, r.sample.pair) then OVERFLOW else r.sample.pair) == Under(Early(records + [r], max), r.sample.pair)
    ensures r.sample.pair != OVERFLOW ==> (Folds(seen, max, r.sample.pair) <==> r.sample.pair !in Early(records + [r], max))
  {
    var p := r.sample.pair;
    EarlySnoc(records, max, r, p);
    PairsSnoc(records, r);
    if IsEarly(records, max, p) {
      EarlyIsIn(records, max, p);
    }
  }

  lemma EarlyIsIn(records: seq<Record>, max: nat, p: Pair)
    requires IsEarly(records, max, p)
    ensures p in PairsIn(records)
  {
    var i :| 0 <= i < |records| && Shows(records[i], p) && |PairsIn(records[..i])| < max;
    assert records[i] in records;
  }

  lemma RoomGoesOn(seen: set<Pair>, records: seq<Record>, max: nat, r: Record)
    requires HasRoom(seen, records, max)
    ensures HasRoom(Seen(seen, max, r), records + [r], max)
  {
    PairsSnoc(records, r);
    SubsetSize(PairsIn(records), PairsIn(records + [r]));
    SubsetSize(seen, Seen(seen, max, r));
    if r.Valid? && r.sample.pair in seen {
      assert seen + {r.sample.pair} == seen;
    }
  }

  lemma KnownGoesOn(seen: set<Pair>, records: seq<Record>, max: nat, r: Record, p: Pair)
    requires Tracks(seen, records, max) && p != OVERFLOW
    ensures p in Seen(seen, max, r) <==> p in Early(records + [r], max)
  {
    PairsSnoc(records, r);
    EarlySnoc(records, max, r, p);
    if Shows(r, p) {
      FoldsIffLate(seen, records, max, r);
    } else if IsEarly(records, max, p) {
      EarlyIsIn(records, max, p);
    }
  }

  lemma TracksOn(seen: set<Pair>, records: seq<Record>, max: nat, r: Record)
    requires Tracks(seen, records, max)
    ensures Tracks(Seen(seen, max, r), records + [r], max)
  {
    RoomGoesOn(seen, records, max, r);
    forall p | p != OVERFLOW ensures p in Seen(seen, max, r) <==> p in Early(records + [r], max) {
      KnownGoesOn(seen, records, max, r, p);
    }
  }

  lemma {:induction false} AddTokensEntry(m: map<Token, nat>, pair: Pair, tokens: seq<nat>, q: Token)
    ensures Get(AddTokens(m, pair, tokens), q) == Get(m, q) + if q.pair == pair && q.kind < |tokens| then tokens[q.kind] else 0
  {
    if tokens == [] {
    } else {
      AddTokensEntry(m, pair, tokens[..|tokens| - 1], q);
    }
  }

  lemma CountedEnters(db: Db, records: seq<Record>, own: set<Pair>, r: Record)
    requires Entered(db, records, own) && r.Valid?
    ensures Entered(Counted(db, Under(own, r.sample.pair), r.sample), records + [r], own)
  {
    var all, pair := records + [r], Under(own, r.sample.pair);
    assert all[..|all| - 1] == records;
    forall q ensures Get(AddTokens(db.tokens, pair, r.sample.tokens), q) == TokensOf(all, own, q) {
      AddTokensEntry(db.tokens, pair, r.sample.tokens, q);
    }
  }

  ghost predicate Enters(t: Tally, records: seq<Record>, max: nat) {
    match t case Tally(db, seen, _, _, _) => Entered(db, records, Early(records, max)) && Tracks(seen, records, max)
  }

  lemma OneEnters(t: Tally, max: nat, records: seq<Record>, r: Record)
    requires Enters(t, records, max)
    ensures Enters(One(t, max, r), records + [r], max)
  {
    var own := Early(records + [r], max);
    EarlyStays(records, max, r);
    SameOwn(records, Early(records, max), own);
    TracksOn(t.seen, records, max, r);
    match r {
      case Valid(_) =>
        CountedEnters(t.db, records, own, r);
        FoldsIffLate(t.seen, records, max, r);
      case Invalid(reason) =>
        assert (records + [r])[..|records + [r]| - 1] == records;
    }
  }

  lemma {:induction false} AllEnter(t: Tally, max: nat, before: seq<Record>, records: seq<Record>)
    requires Enters(t, before, max)
    ensures Enters(All(t, max, records), before + records, max)
  {
    if records == [] {
      assert before + records == before;
    } else {
      var init, r := records[..|records| - 1], records[|records| - 1];
      var v, all := All(t, max, init), before + init;
      AllEnter(t, max, before, init);
      assert before + records == all + [r];
      OneEnters(v, max, all, r);
    }
  }

  lemma ReopenedTracks(s: Ledger, records: seq<Record>)
    requires Ok(s) && Tracks(s.pairs, records, s.max)
    ensures Tracks(Reopened(s).pairs, records, s.max)
  {
    ReopenedIsOk(s);
    SubsetSize(s.pairs, s.pairs + {OVERFLOW});
  }

  /** In every history, whatever was rolled back and however often the exporter restarted, every
      entry of every table is the number, or the sum, over the committed records with its key.
      The first pairs to turn up, as many as the cap, are counted under their own labels, and
      all others under the overflow labels. */
  lemma {:induction false} EveryEntryIsRight(max: nat, ops: seq<Op>)
    ensures var s, records := Running(Start(max), ops), Kept(ops);
      Entered(s.db, records, Early(records, max)) && Tracks(s.pairs, records, max)
  {
    if ops == [] {
      assert PairsIn([]) == {};
    } else {
      var init, op := ops[..|ops| - 1], ops[|ops| - 1];
      EveryEntryIsRight(max, init);
      RunningIsOk(max, init);
      var s := Running(Start(max), init);
      match op {
        case Commit(records) => AllEnter(Begin(s), max, Kept(init), records);
        case RollBack(_) =>
        case Restart => ReopenedTracks(s, Kept(init));
      }
    }
  }

  lemma StartEnters(max: nat)
    ensures Enters(Begin(Start(max)), [], max)
  {
    assert PairsIn([]) == {};
  }

  /** So far the overflow counter of a transaction is right, and not yet in the table. */
  ghost predicate FoldsRight(t: Tally, records: seq<Record>, max: nat) {
    match t case Tally(db, _, overflowed, _, _) => overflowed == FoldedOf(records, Early(records, max)) && db.overflow == 0
  }

  lemma {:induction false} AllFold(max: nat, records: seq<Record>)
    requires Overflows(records) == 0
    ensures var t := All(Begin(Start(max)), max, records); Enters(t, records, max) && FoldsRight(t, records, max)
  {
    if records == [] {
      StartEnters(max);
    } else {
      var init, r := records[..|records| - 1], records[|records| - 1];
      var t := All(Begin(Start(max)), max, init);
      assert records == init + [r];
      AllFold(max, init);
      OneEnters(t, max, init, r);
      OneFolds(t, max, init, r);
    }
  }

  lemma OneFolds(t: Tally, max: nat, records: seq<Record>, r: Record)
    requires Enters(t, records, max) && FoldsRight(t, records, max) && !IsOverflow(r)
    ensures FoldsRight(One(t, max, r), records + [r], max)
  {
    var all := records + [r];
    assert all[..|all| - 1] == records;
    EarlyStays(records, max, r);
    SameOwn(records, Early(records, max), Early(all, max));
    if r.Valid? {
      FoldsIffLate(t.seen, records, max, r);
    }
  }

  /** And as long as no record's own labels are the overflow labels, the overflow counter is the
      number of records that came too late for labels of their own. */
  lemma OverflowIsRight(max: nat, ops: seq<Op>)
    requires Overflows(Kept(ops)) == 0
    ensures Running(Start(max), ops).db.overflow == FoldedOf(Kept(ops), Early(Kept(ops), max))
  {
    BatchingAndRestartsAreInvisible(max, ops);
    AllFold(max, Kept(ops));
  }

  function ValidOf(records: seq<Record>): nat {
    if records == [] then 0 else ValidOf(records[..|records| - 1]) + if records[|records| - 1].Valid? then 1 else 0
  }

  /** A transaction reports the numbers of its valid and of its other records. */
  lemma {:induction false} ReportIsRight(t: Tally, max: nat, records: seq<Record>)
    ensures All(t, max, records).valid == t.valid + ValidOf(records)
    ensures All(t, max, records).invalid + ValidOf(records) == t.invalid + |records|
  {
    if records == [] {
    } else {
      ReportIsRight(t, max, records[..|records| - 1]);
    }
  }

  // ---------- Store and Poller ----------

  lemma Growing(pairs: set<Pair>, pending: set<Pair>, pair: Pair)
    ensures pairs + pending + {pair} == if pair in pairs then pairs + pending else pairs + (pending + {pair})
  {
  }

  class Store {
    const max: nat
    var db: Db
    var pairs: set<Pair>

    constructor (db: Db, max: nat)
      ensures View() == Reopened(Ledger(max, db, {}))
    {
      this.db, this.max, pairs := db, max, set k | k in db.requests :: k.pair;
    }

    function View(): Ledger
      reads this
    {
      Ledger(max, db, pairs)
    }

    /** One transaction. It raises at record `failsAt`, or in the end if that is past the last. */
    method Apply(records: seq<Record>, failsAt: Option<nat>) returns (ok: bool, valid: nat, invalid: nat)
      modifies this
      ensures ok == failsAt.None?
      ensures !ok ==> View() == old(View())
      ensures ok ==> View() == Committed(old(View()), records)
      ensures ok ==> valid == All(Begin(old(View())), max, records).valid && invalid == All(Begin(old(View())), max, records).invalid
    {
      var begun, overflowed, pending, i := db, 0, {}, 0;
      valid, invalid := 0, 0;
      ghost var start := Begin(View());
      assert pairs + pending == pairs;
      while i < |records|
        invariant 0 <= i <= |records| && pairs == old(pairs) && pairs !! pending
        invariant Tally(db, pairs + pending, overflowed, valid, invalid) == All(start, max, records[..i])
      {
        if failsAt == Some(i) {
          db := begun;
          return false, valid, invalid;
        }
        assert records[..i + 1][..i] == records[..i];
        match records[i] {
          case Invalid(reason) =>
            invalid := invalid + 1;
            db := db.(invalid := Bump(db.invalid, reason, 1));
          case Valid(sample) =>
            var pair, over := FindPair(sample.pair, pending);
            Growing(pairs, pending, pair);
            if over {
              overflowed := overflowed + 1;
            } else if pair !in pairs {
              pending := pending + {pair};
            }
            valid := valid + 1;
            db := Counted(db, pair, sample);
        }
        i := i + 1;
      }
      assert records[..i] == records;
      if failsAt.Some? {
        db := begun;
        return false, valid, invalid;
      }
      db := db.(overflow := db.overflow + overflowed);
      pairs := pairs + pending;
      return true, valid, invalid;
    }

    /** _pair */
    method FindPair(pair: Pair, pending: set<Pair>) returns (found: Pair, over: bool)
      requires pairs !! pending
      ensures over == Folds(pairs + pending, max, pair) && found == if over then OVERFLOW else pair
    {
      assert |pairs + pending| == |pairs| + |pending|;
      if pair in pairs || pair in pending {
        return pair, false;
      }
      if |pairs| + |pending| >= max {
        return OVERFLOW, true;
      }
      return pair, false;
    }
  }

  /** How one round of the poll loop goes. */
  datatype Pop = Stopped | Unfetched | Popped(records: seq<Record>, failsAt: Option<nat>)

  /** The records that a poll commits, and whether it ends well. */
  function Drained(batch: nat, pops: seq<Pop>): (seq<Record>, bool) {
    if pops == [] || pops[0].Stopped? then ([], true)
    else if pops[0].Unfetched? || pops[0].failsAt.Some? then ([], false)
    else if |pops[0].records| < batch then (pops[0].records, true)
    else
      var (rest, ok) := Drained(batch, pops[1..]);
      (pops[0].records + rest, ok)
  }

  function AllPopped(pops: seq<Pop>): seq<Record> {
    if pops == [] then []
    else (if pops[0].Popped? then pops[0].records else []) + AllPopped(pops[1..])
  }

  predicate Commits(p: Pop) { p.Popped? && p.failsAt.None? }

  predicate IsShort(p: Pop, batch: nat) { Commits(p) && |p.records| < batch }

  /** A poll commits the batches of its first rounds, whole and in order, until it is stopped, a
      fetch or a commit fails, or a batch falls short. It ends badly only on such a failure. */
  lemma {:induction false} PollGoesOn(batch: nat, pops: seq<Pop>) returns (n: nat)
    ensures n <= |pops| && (forall i :: 0 <= i < n ==> Commits(pops[i]))
    ensures forall i :: 0 <= i < n - 1 ==> !IsShort(pops[i], batch)
    ensures Drained(batch, pops).0 == AllPopped(pops[..n])
    ensures n == |pops| || !Commits(pops[n]) || (n > 0 && IsShort(pops[n - 1], batch))
    ensures !Drained(batch, pops).1 <==>
      n < |pops| && !Commits(pops[n]) && !pops[n].Stopped? && (n > 0 ==> !IsShort(pops[n - 1], batch))
  {
    if pops == [] || !Commits(pops[0]) {
      n := 0;
    } else if |pops[0].records| < batch {
      n := 1;
      assert AllPopped(pops[..1]) == pops[0].records + AllPopped([]);
    } else {
      var m := PollGoesOn(batch, pops[1..]);
      n := m + 1;
      assert pops[..n][1..] == pops[1..][..m];
    }
  }

  /** What a poll that has committed `done` will have committed in the end. */
  function Ahead(done: seq<Record>, batch: nat, pops: seq<Pop>): (seq<Record>, bool) {
    var (rest, ok) := Drained(batch, pops);
    (done + rest, ok)
  }

  lemma AheadStep(done: seq<Record>, batch: nat, pops: seq<Pop>)
    ensures pops == [] || pops[0].Stopped? ==> Ahead(done, batch, pops) == (done, true)
    ensures pops != [] && !pops[0].Stopped? ==>
      (Ahead(done, batch, pops) ==
       if pops[0].Unfetched? || pops[0].failsAt.Some? then (done, false)
       else if |pops[0].records| < batch then (done + pops[0].records, true)
       else Ahead(done + pops[0].records, batch, pops[1..]))
  {
    assert done + [] == done;
    if pops != [] && pops[0].Popped? {
      var rest := Drained(batch, pops[1..]).0;
      assert done + (pops[0].records + rest) == (done + pops[0].records) + rest;
    }
  }

  class Poller {
    const store: Store
    const batch: nat
    var seen: nat

    constructor (store: Store, batch: nat)
      ensures this.store == store && this.batch == batch && seen == 0
    {
      this.store, this.batch, seen := store, batch, 0;
    }

    /** poll_once: however the pops are cut into batches, the store ends as after one
        transaction with every record that was committed. */
    method PollOnce(pops: seq<Pop>) returns (ok: bool)
      modifies this, store
      ensures store.View() == Committed(old(store.View()), Drained(batch, pops).0) && ok == Drained(batch, pops).1
      ensures seen == old(seen) + All(Begin(old(store.View())), store.max, Drained(batch, pops).0).valid
    {
      ghost var start, done: seq<Record> := store.View(), [];
      assert [] + Drained(batch, pops).0 == Drained(batch, pops).0;
      var i := 0;
      while i < |pops|
        invariant 0 <= i <= |pops|
        invariant store.View() == Committed(start, done) && seen == old(seen) + All(Begin(start), start.max, done).valid
        invariant Drained(batch, pops) == Ahead(done, batch, pops[i..])
      {
        AheadStep(done, batch, pops[i..]);
        if pops[i].Stopped? {
          return true;
        }
        if pops[i].Unfetched? {
          return false;
        }
        var records := pops[i].records;
        var fine, valid, _ := store.Apply(records, pops[i].failsAt);
        if !fine {
          return false;
        }
        BatchesAdd(start, done, records);
        seen := seen + valid;
        done := done + records;
        if |records| < batch {
          return true;
        }
        i := i + 1;
      }
      AheadStep(done, batch, []);
      return true;
    }
  }
}
