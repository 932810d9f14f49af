/** Native Alexa camera sessions (session.py, SessionManager): requests that yield to the event
    loop while others run, and a close that may come from a disconnect, the state watcher, the
    expiry timer, a stop, a cancellation or a failed negotiation. */
module RtcSessions {
  import opened Collections
  import opened Options

  const ANSWER_TIMEOUT := 5
  const SESSION_DURATION := 600
  const MAX_SESSIONS := 14

  type Key = nat
  type Entity = nat
  type User = nat

  /** A Session object. `offer` is the hash of the offer, `owner` the request that negotiates,
      `expiry` the armed timer's instant. */
  datatype Session = Session(key: Key, entity: Entity, user: User, offer: nat, owner: nat, born: int,
                             answer: Option<nat>, expiry: Option<int>, closed: bool)

  /** What the camera is told under one session key. */
  datatype Call = Offered(sid: nat) | Closed(sid: nat)

  /** Sessions are objects: `table` holds every one ever made, and the map refers into it. */
  datatype Registry = Registry(stopping: bool, sessions: map<Key, nat>, table: seq<Session>, calls: map<Key, seq<Call>>)

  type Manager = r: Registry | forall k :: k in r.sessions ==> r.sessions[k] < |r.table|
    witness Registry(false, map[], [], map[])

  function Heard(calls: map<Key, seq<Call>>, k: Key): seq<Call> { if k in calls then calls[k] else [] }

  function History(m: Registry, k: Key): seq<Call> { Heard(m.calls, k) }

  function Called(calls: map<Key, seq<Call>>, k: Key, c: Call): map<Key, seq<Call>> { calls[k := Heard(calls, k) + [c]] }

  /** close */
  function Closing(m: Manager, sid: nat): Manager
    requires sid < |m.table|
  {
    var s := m.table[sid];
    if s.closed then m
    else Registry(m.stopping,
                  if s.key in m.sessions && m.sessions[s.key] == sid then m.sessions - {s.key} else m.sessions,
                  m.table[sid := s.(closed := true, expiry := None)],
                  Called(m.calls, s.key, Closed(sid)))
  }

  /** The sessions mapped under these keys closed, in whatever order. */
  function ClosingAll(m: Manager, doomed: set<Key>): Manager {
    Registry(m.stopping, m.sessions - doomed, TableClosing(m.table, m.sessions, doomed), CallsClosing(m.calls, m.sessions, doomed))
  }

  predicate Doomed(x: Session, sid: nat, sessions: map<Key, nat>, doomed: set<Key>) {
    x.key in doomed && x.key in sessions && sessions[x.key] == sid
  }

  function TableClosing(table: seq<Session>, sessions: map<Key, nat>, doomed: set<Key>): seq<Session> {
    seq(|table|, i requires 0 <= i < |table| =>
      if Doomed(table[i], i, sessions, doomed) then table[i].(closed := true, expiry := None) else table[i])
  }

  function CallsClosing(calls: map<Key, seq<Call>>, sessions: map<Key, nat>, doomed: set<Key>): map<Key, seq<Call>> {
    map k | k in calls.Keys + doomed * sessions.Keys ::
      if k in doomed && k in sessions then Heard(calls, k) + [Closed(sessions[k])] else calls[k]
  }

  /** stop */
  function Stopping(m: Manager): Manager {
    ClosingAll(m.(stopping := true), m.sessions.Keys)
  }

  function KeysOf(m: Manager, entity: Entity): set<Key> {
    set k | k in m.sessions && m.table[m.sessions[k]].entity == entity
  }

  // ---------- requests ----------

  /** A missing key or offer is one that does not parse. */
  datatype Request =
    | Initiate(key: Option<Key>, entity: Entity, user: User, offer: Option<nat>)
    | Disconnect(key: Option<Key>, entity: Entity, user: User)

  datatype Reply = Denied | Unreachable | Malformed | Mismatch | Busy | Answer(text: nat) | Disconnected | Gone

  /** Where a negotiation waits: for the camera's task, its answer, or its candidates. */
  datatype Stage = Task | Answering | Gathering

  datatype Pc =
    | Checking(req: Request)
    | Negotiating(req: Request, sid: nat, stage: Stage)
    | Replied(req: Request, reply: Reply)

  /** What the user and camera lookups say. */
  datatype Access = Granted | Refused | Missing

  /** How a negotiation ends. */
  datatype Verdict = Good(text: nat) | Bad | Cancelled

  predicate Owns(s: Session, req: Request) { s.entity == req.entity && s.user == req.user }

  /** initiate, from the lookups to the next await. */
  function Entering(m: Manager, req: Request, access: Access, owner: nat, now: int): (Manager, Pc)
    requires req.Initiate?
  {
    match access
    case Refused => (m, Replied(req, Denied))
    case Missing => (m, Replied(req, Unreachable))
    case Granted =>
      if req.key.None? || req.offer.None? then (m, Replied(req, Malformed))
      else if req.key.value in m.sessions then
        var s := m.table[m.sessions[req.key.value]];
        (m, Replied(req,
                    if !Owns(s, req) || s.offer != req.offer.value then Mismatch
                    else if s.answer.None? then Busy else Answer(s.answer.value)))
      else if m.stopping || |m.sessions| >= MAX_SESSIONS then (m, Replied(req, Busy))
      else (Opening(m, req, owner, now), Negotiating(req, |m.table|, Task))
  }

  function Opening(m: Manager, req: Request, owner: nat, now: int): Manager
    requires req.Initiate? && req.key.Some? && req.offer.Some?
  {
    var k := req.key.value;
    Registry(m.stopping, m.sessions[k := |m.table|],
             m.table + [Session(k, req.entity, req.user, req.offer.value, owner, now, None, None, false)],
             Called(m.calls, k, Offered(|m.table|)))
  }

  /** initiate, from the end of the negotiation on. A session that was closed meanwhile never
      gets an answer. */
  function Resuming(m: Manager, sid: nat, verdict: Verdict, now: int): (Manager, Reply)
    requires sid < |m.table|
  {
    var s := m.table[sid];
    if verdict.Good? && !s.closed then
      (m.(table := m.table[sid := s.(answer := Some(verdict.text), expiry := Some(now + SESSION_DURATION))]), Answer(verdict.text))
    else (Closing(m, sid), if verdict.Cancelled? && !s.closed then Gone else Unreachable)
  }

  /** disconnected, from the user lookup on. */
  function Releasing(m: Manager, req: Request, access: Access): (Manager, Reply) {
    if access.Refused? then (m, Denied)
    else if req.key.None? then (m, Malformed)
    else if req.key.value !in m.sessions then (m, Disconnected)
    else
      var sid := m.sessions[req.key.value];
      if !Owns(m.table[sid], req) then (m, Mismatch) else (Closing(m, sid), Disconnected)
  }

  // ---------- the event loop ----------

  /** `allowed` are the configured cameras; request `r` is the `r`-th that arrived. */
  datatype State = State(allowed: set<Entity>, now: int, m: Manager, requests: seq<Pc>)

  /** What the loop may run next, each without a yield. */
  datatype Step =
    | Arrive(req: Request)
    | Checked(r: nat, access: Access)
    | Advance(r: nat)
    | Negotiated(r: nat, verdict: Verdict)
    | Abandon(r: nat)
    | Unavailable(entity: Entity)
    | Expire(sid: nat)
    | Stop
    | Tick(seconds: nat)

  ghost predicate Enabled(s: State, step: Step) {
    match step
    case Arrive(_) | Unavailable(_) | Stop | Tick(_) => true
    case Checked(r, _) => r < |s.requests| && s.requests[r].Checking?
    case Abandon(r) => r < |s.requests| && s.requests[r].Checking?
    case Advance(r) => r < |s.requests| && s.requests[r].Negotiating? && !s.requests[r].stage.Gathering?
    case Negotiated(r, v) =>
      && r < |s.requests| && s.requests[r].Negotiating? && s.requests[r].sid < |s.m.table|
      && (v.Good? ==> s.requests[r].stage.Gathering?)
    case Expire(sid) => sid < |s.m.table| && s.m.table[sid].expiry.Some? && s.m.table[sid].expiry.value <= s.now
  }

  function Stepping(s: State, step: Step): State
    requires Enabled(s, step)
  {
    match step
    case Arrive(req) =>
      s.(requests := s.requests +
        [if s.m.stopping || req.entity !in s.allowed then Replied(req, Denied) else Checking(req)])
    case Checked(r, access) =>
      var req := s.requests[r].req;
      if req.Initiate? then
        var (m, pc) := Entering(s.m, req, access, r, s.now);
        s.(m := m, requests := s.requests[r := pc])
      else
        var (m, reply) := Releasing(s.m, req, access);
        s.(m := m, requests := s.requests[r := Replied(req, reply)])
    case Abandon(r) => s.(requests := s.requests[r := Replied(s.requests[r].req, Gone)])
    case Advance(r) =>
      var pc := s.requests[r];
      s.(requests := s.requests[r := pc.(stage := if pc.stage.Task? then Answering else Gathering)])
    case Negotiated(r, verdict) =>
      var pc := s.requests[r];
      var (m, reply) := Resuming(s.m, pc.sid, verdict, s.now);
      s.(m := m, requests := s.requests[r := Replied(pc.req, reply)])
    case Unavailable(entity) => s.(m := ClosingAll(s.m, KeysOf(s.m, entity)))
    case Expire(sid) => s.(m := Closing(s.m, sid))
    case Stop => s.(m := Stopping(s.m))
    case Tick(seconds) => s.(now := s.now + seconds)
  }

  // ---------- what every step keeps ----------

  /** A session is open exactly when it is the one mapped under its key. */
  ghost predicate OpenIffMapped(m: Manager) {
    && (forall k :: k in m.sessions ==> m.table[m.sessions[k]].key == k && !m.table[m.sessions[k]].closed)
    && (forall i: nat :: i < |m.table| && !m.table[i].closed ==>
          m.table[i].key in m.sessions && m.sessions[m.table[i].key] == i)
  }

  function StillOpen(h: seq<Call>): Option<nat> {
    if h == [] || h[|h| - 1].Closed? then None else Some(h[|h| - 1].sid)
  }

  /** Offers and closes take turns, and each close is for the session of the offer before it. */
  predicate TakesTurns(h: seq<Call>) {
    h == [] || (TakesTurns(h[..|h| - 1]) && MayFollow(h[..|h| - 1], h[|h| - 1]))
  }

  predicate MayFollow(h: seq<Call>, c: Call) {
    StillOpen(h) == if c.Offered? then None else Some(c.sid)
  }

  /** The camera's view of one key is that of the map. */
  ghost predicate CameraAgrees(m: Manager, k: Key) {
    TakesTurns(History(m, k)) && StillOpen(History(m, k)) == if k in m.sessions then Some(m.sessions[k]) else None
  }

  /** The calls made for one session: one offer, and one close once it is closed, all under
      its own key. */
  ghost predicate CallsOf(m: Manager, k: Key, i: nat) {
    var calls := multiset(History(m, k));
    && calls[Offered(i)] == (if i < |m.table| && m.table[i].key == k then 1 else 0)
    && calls[Closed(i)] == (if i < |m.table| && m.table[i].key == k && m.table[i].closed then 1 else 0)
  }

  ghost predicate CameraKnows(m: Manager) { forall k :: CameraAgrees(m, k) }

  ghost predicate CallsAreRight(m: Manager) { forall k, i :: CallsOf(m, k, i) }

  ghost predicate Sound(m: Manager) {
    match m case Registry(_, sessions, _, _) =>
      OpenIffMapped(m) && CameraKnows(m) && CallsAreRight(m) && |sessions| <= MAX_SESSIONS
  }

  lemma TurnsSnoc(h: seq<Call>, c: Call)
    requires TakesTurns(h) && MayFollow(h, c)
    ensures TakesTurns(h + [c]) && StillOpen(h + [c]) == if c.Offered? then Some(c.sid) else None
  {
    assert (h + [c])[..|h + [c]| - 1] == h;
  }

  lemma ClosingCalls(m: Manager, sid: nat, k: Key, i: nat)
    requires sid < |m.table| && !m.table[sid].closed && CallsOf(m, k, i)
    ensures CallsOf(Closing(m, sid), k, i)
  {
  }

  lemma OpeningCalls(m: Manager, req: Request, owner: nat, now: int, k: Key, i: nat)
    requires req.Initiate? && req.key.Some? && req.offer.Some? && CallsOf(m, k, i)
    ensures CallsOf(Opening(m, req, owner, now), k, i)
  {
  }

  lemma ClosingTurns(m: Manager, sid: nat, k: Key)
    requires sid < |m.table| && OpenIffMapped(m) && !m.table[sid].closed && CameraAgrees(m, k)
    ensures CameraAgrees(Closing(m, sid), k)
  {
    if k == m.table[sid].key {
      TurnsSnoc(History(m, k), Closed(sid));
    }
  }

  lemma OpeningTurns(m: Manager, req: Request, owner: nat, now: int, k: Key)
    requires req.Initiate? && req.key.Some? && req.offer.Some? && req.key.value !in m.sessions && CameraAgrees(m, k)
    ensures CameraAgrees(Opening(m, req, owner, now), k)
  {
    if k == req.key.value {
      TurnsSnoc(History(m, k), Offered(|m.table|));
    }
  }

  lemma ClosingOpen(m: Manager, sid: nat)
    requires sid < |m.table| && OpenIffMapped(m)
    ensures OpenIffMapped(Closing(m, sid)) && |Closing(m, sid).sessions| <= |m.sessions|
  {
    SubsetSize(Closing(m, sid).sessions.Keys, m.sessions.Keys);
  }

  lemma OpeningOpen(m: Manager, req: Request, owner: nat, now: int)
    requires req.Initiate? && req.key.Some? && req.offer.Some? && req.key.value !in m.sessions && OpenIffMapped(m)
    ensures OpenIffMapped(Opening(m, req, owner, now))
  {
  }

  lemma ClosingKeeps(m: Manager, sid: nat)
    requires sid < |m.table| && Sound(m)
    ensures Sound(Closing(m, sid))
  {
    if !m.table[sid].closed {
      ClosingOpen(m, sid);
      forall k ensures CameraAgrees(Closing(m, sid), k) {
        ClosingTurns(m, sid, k);
      }
      forall k, i ensures CallsOf(Closing(m, sid), k, i) {
        ClosingCalls(m, sid, k, i);
      }
    }
  }

  lemma OpeningKeeps(m: Manager, req: Request, owner: nat, now: int)
    requires req.Initiate? && req.key.Some? && req.offer.Some? && Sound(m)
    requires req.key.value !in m.sessions && |m.sessions| < MAX_SESSIONS
    ensures Sound(Opening(m, req, owner, now))
  {
    OpeningOpen(m, req, owner, now);
    forall k ensures CameraAgrees(Opening(m, req, owner, now), k) {
      OpeningTurns(m, req, owner, now, k);
    }
    forall k, i ensures CallsOf(Opening(m, req, owner, now), k, i) {
      OpeningCalls(m, req, owner, now, k, i);
    }
  }

  lemma ClosingOneMore(m: Manager, done: set<Key>, k: Key)
    requires OpenIffMapped(m) && k in m.sessions && k !in done
    ensures m.sessions[k] < |ClosingAll(m, done).table|
    ensures ClosingAll(m, done + {k}) == Closing(ClosingAll(m, done), m.sessions[k])
  {
    var sid := m.sessions[k];
    assert m.table[sid].key == k && !m.table[sid].closed;
    OneMoreTable(m.table, m.sessions, done, k);
    OneMoreCalls(m.calls, m.sessions, done, k);
    assert m.sessions - (done + {k}) == (m.sessions - done) - {k};
    ClosingIs(ClosingAll(m, done), k, sid, ClosingAll(m, done + {k}));
  }

  lemma ClosingIs(m: Manager, k: Key, sid: nat, n: Manager)
    requires sid < |m.table| && m.table[sid].key == k && !m.table[sid].closed && k in m.sessions && m.sessions[k] == sid
    requires n.stopping == m.stopping && n.sessions == m.sessions - {k} && n.calls == Called(m.calls, k, Closed(sid))
    requires n.table == m.table[sid := m.table[sid].(closed := true, expiry := None)]
    ensures n == Closing(m, sid)
  {
  }

  lemma OneMoreTable(table: seq<Session>, sessions: map<Key, nat>, done: set<Key>, k: Key)
    requires k in sessions && k !in done && sessions[k] < |table| && table[sessions[k]].key == k
    ensures TableClosing(table, sessions, done)[sessions[k]] == table[sessions[k]]
    ensures TableClosing(table, sessions, done + {k}) ==
      TableClosing(table, sessions, done)[sessions[k] := table[sessions[k]].(closed := true, expiry := None)]
  {
    forall i: nat | i < |table|
      ensures Doomed(table[i], i, sessions, done + {k}) <==> i == sessions[k] || Doomed(table[i], i, sessions, done)
    {
    }
  }

  lemma OneMoreCalls(calls: map<Key, seq<Call>>, sessions: map<Key, nat>, done: set<Key>, k: Key)
    requires k in sessions && k !in done
    ensures CallsClosing(calls, sessions, done + {k}) == Called(CallsClosing(calls, sessions, done), k, Closed(sessions[k]))
  {
  }

  lemma ClosingNone(m: Manager, done: set<Key>)
    requires forall k :: k in done ==> k !in m.sessions
    ensures ClosingAll(m, done) == m
  {
    assert m.sessions - done == m.sessions;
    assert TableClosing(m.table, m.sessions, done) == m.table;
    assert CallsClosing(m.calls, m.sessions, done) == m.calls;
  }

  lemma {:induction false} ClosingAllKeeps(m: Manager, doomed: set<Key>)
    requires Sound(m)
    ensures Sound(ClosingAll(m, doomed))
    decreases |doomed|
  {
    if k :| k in doomed && k in m.sessions {
      var rest := WithoutOne(doomed, k);
      ClosingAllKeeps(m, rest);
      OneMoreKeeps(m, rest, k);
    } else {
      ClosingNone(m, doomed);
    }
  }

  lemma WithoutOne(keys: set<Key>, k: Key) returns (rest: set<Key>)
    requires k in keys
    ensures k !in rest && rest + {k} == keys && |rest| < |keys|
  {
    rest := keys - {k};
  }

  lemma OneMoreKeeps(m: Manager, done: set<Key>, k: Key)
    requires Sound(m) && Sound(ClosingAll(m, done)) && k in m.sessions && k !in done
    ensures Sound(ClosingAll(m, done + {k}))
  {
    ClosingOneMore(m, done, k);
    ClosingKeeps(ClosingAll(m, done), m.sessions[k]);
  }

  /** `n` differs from `m` only in that some sessions are closed. */
  ghost predicate OnlyCloses(m: Manager, n: Manager) {
    && |n.table| == |m.table|
    && (forall i: nat :: i < |m.table| ==>
          n.table[i] == m.table[i] || n.table[i] == m.table[i].(closed := true, expiry := None))
  }

  // ---------- sessions and the requests that negotiate them ----------

  /** The session is the one this request asked for. */
  predicate Matches(s: Session, req: Request) {
    req.Initiate? && req.key == Some(s.key) && req.offer == Some(s.offer) && Owns(s, req)
  }

  /** A negotiation is for an unanswered session of its own. */
  ghost predicate Negotiates(s: State, r: nat)
    requires r < |s.requests| && s.requests[r].Negotiating?
  {
    var pc := s.requests[r];
    && pc.sid < |s.m.table|
    && s.m.table[pc.sid].owner == r && s.m.table[pc.sid].answer.None? && Matches(s.m.table[pc.sid], pc.req)
  }

  ghost predicate Coherent(s: State) {
    forall r: nat :: r < |s.requests| && s.requests[r].Negotiating? ==> Negotiates(s, r)
  }

  /** Unanswered and being negotiated, or answered with its expiry armed. */
  ghost predicate Attended(s: State, i: nat)
    requires i < |s.m.table|
  {
    var x := s.m.table[i];
    if x.answer.Some? then x.expiry.Some?
    else x.expiry.None? && x.owner < |s.requests| && s.requests[x.owner].Negotiating? && s.requests[x.owner].sid == i
  }

  ghost predicate Live(s: State) {
    forall i: nat :: i < |s.m.table| && !s.m.table[i].closed ==> Attended(s, i)
  }

  predicate GaveTo(x: Session, req: Request, text: nat) { Matches(x, req) && x.answer == Some(text) }

  /** An answer only goes to a request for the very session it was negotiated for. */
  ghost predicate AnswersOwned(s: State) {
    forall r: nat :: r < |s.requests| && s.requests[r].Replied? && s.requests[r].reply.Answer? ==>
      exists i: nat :: i < |s.m.table| && GaveTo(s.m.table[i], s.requests[r].req, s.requests[r].reply.text)
  }

  /** What holds between any two steps of the loop. */
  ghost predicate Orderly(s: State) {
    match s case State(_, _, m, _) =>
      Sound(m) && Coherent(s) && Live(s) && AnswersOwned(s) && (m.stopping ==> m.sessions == map[])
  }

  lemma ClosingOnly(s: State, n: Manager)
    requires Coherent(s) && Live(s) && AnswersOwned(s) && OnlyCloses(s.m, n)
    ensures Coherent(s.(m := n)) && Live(s.(m := n)) && AnswersOwned(s.(m := n))
  {
    var v := s.(m := n);
    forall r: nat | r < |s.requests| && s.requests[r].Negotiating? ensures Negotiates(v, r) {
      assert Negotiates(s, r);
    }
    forall i: nat | i < |n.table| && !n.table[i].closed ensures Attended(v, i) {
      assert Attended(s, i);
    }
    forall r: nat | r < |s.requests| && s.requests[r].Replied? && s.requests[r].reply.Answer?
      ensures exists i: nat :: i < |n.table| && GaveTo(n.table[i], s.requests[r].req, s.requests[r].reply.text)
    {
      var i: nat :| i < |s.m.table| && GaveTo(s.m.table[i], s.requests[r].req, s.requests[r].reply.text);
      assert GaveTo(n.table[i], s.requests[r].req, s.requests[r].reply.text);
    }
  }

  predicate LetsGo(m: Manager, sid: nat, pc: Pc) {
    sid < |m.table| && (m.table[sid].closed || m.table[sid].answer.Some? || (pc.Negotiating? && pc.sid == sid))
  }

  /** Setting the place of one request, when no open session needs it where it was. */
  lemma Moving(s: State, r: nat, pc: Pc)
    requires Live(s) && AnswersOwned(s) && r < |s.requests|
    requires forall q: nat :: q < |s.requests| && q != r && s.requests[q].Negotiating? ==> Negotiates(s, q)
    requires s.requests[r].Negotiating? ==> LetsGo(s.m, s.requests[r].sid, pc)
    requires pc.Negotiating? ==> Negotiates(s.(requests := s.requests[r := pc]), r)
    requires pc.Replied? && pc.reply.Answer? ==>
      exists i: nat :: i < |s.m.table| && GaveTo(s.m.table[i], pc.req, pc.reply.text)
    ensures var v := s.(requests := s.requests[r := pc]); Coherent(v) && Live(v) && AnswersOwned(v)
  {
    var v := s.(requests := s.requests[r := pc]);
    forall q: nat | q < |v.requests| && v.requests[q].Negotiating? ensures Negotiates(v, q) {
      assert q != r ==> Negotiates(s, q);
    }
    forall i: nat | i < |v.m.table| && !v.m.table[i].closed ensures Attended(v, i) {
      assert Attended(s, i);
    }
  }

  lemma ArrivingKeeps(s: State, pc: Pc)
    requires Orderly(s) && (pc.Checking? || (pc.Replied? && !pc.reply.Answer?))
    ensures Orderly(s.(requests := s.requests + [pc]))
  {
    var v := s.(requests := s.requests + [pc]);
    forall r: nat | r < |v.requests| && v.requests[r].Negotiating? ensures Negotiates(v, r) {
      assert r < |s.requests| && Negotiates(s, r);
    }
    forall i: nat | i < |v.m.table| && !v.m.table[i].closed ensures Attended(v, i) {
      assert Attended(s, i);
    }
    forall r: nat | r < |v.requests| && v.requests[r].Replied? && v.requests[r].reply.Answer?
      ensures exists i: nat :: i < |v.m.table| && GaveTo(v.m.table[i], v.requests[r].req, v.requests[r].reply.text)
    {
      assert v.requests[r] == s.requests[r];
    }
  }

  lemma ClosingSomeKeeps(s: State, n: Manager)
    requires Orderly(s) && OnlyCloses(s.m, n) && Sound(n) && (n.stopping ==> n.sessions == map[])
    ensures Orderly(s.(m := n))
  {
    ClosingOnly(s, n);
  }

  lemma ReplyingKeeps(s: State, r: nat, reply: Reply)
    requires Orderly(s) && r < |s.requests|
    requires s.requests[r].Negotiating? ==> s.requests[r].sid < |s.m.table| && s.m.table[s.requests[r].sid].closed
    requires reply.Answer? ==> exists i: nat :: i < |s.m.table| && GaveTo(s.m.table[i], s.requests[r].req, reply.text)
    ensures Orderly(s.(requests := s.requests[r := Replied(s.requests[r].req, reply)]))
  {
    Moving(s, r, Replied(s.requests[r].req, reply));
  }

  lemma AdvancingKeeps(s: State, r: nat)
    requires Orderly(s) && Enabled(s, Advance(r))
    ensures Orderly(Stepping(s, Advance(r)))
  {
    var pc := s.requests[r];
    assert Negotiates(s, r);
    Moving(s, r, pc.(stage := if pc.stage.Task? then Answering else Gathering));
  }

  /** One more session, for request `r`, that nobody has answered. */
  ghost predicate Appends(before: seq<Session>, after: seq<Session>, req: Request, r: nat) {
    && |after| == |before| + 1
    && (forall i: nat :: i < |before| ==> after[i] == before[i])
    && var x := after[|before|];
      Matches(x, req) && x.owner == r && x.answer.None? && x.expiry.None? && !x.closed
  }

  lemma OpenedCoherent(s: State, r: nat, req: Request, v: State)
    requires Coherent(s)
    requires r < |s.requests| && s.requests[r] == Checking(req)
    requires Appends(s.m.table, v.m.table, req, r)
    requires v.requests == s.requests[r := Negotiating(req, |s.m.table|, Task)]
    ensures Coherent(v)
  {
    forall q: nat | q < |v.requests| && v.requests[q].Negotiating? ensures Negotiates(v, q) {
      assert q != r ==> Negotiates(s, q);
    }
  }

  lemma OpenedLive(s: State, r: nat, req: Request, v: State)
    requires Live(s)
    requires r < |s.requests| && s.requests[r] == Checking(req)
    requires Appends(s.m.table, v.m.table, req, r)
    requires v.requests == s.requests[r := Negotiating(req, |s.m.table|, Task)]
    ensures Live(v)
  {
    forall i: nat | i < |v.m.table| && !v.m.table[i].closed ensures Attended(v, i) {
      assert i < |s.m.table| ==> Attended(s, i);
    }
  }

  lemma OpenedOwned(s: State, r: nat, req: Request, v: State)
    requires AnswersOwned(s)
    requires r < |s.requests| && s.requests[r] == Checking(req)
    requires Appends(s.m.table, v.m.table, req, r)
    requires v.requests == s.requests[r := Negotiating(req, |s.m.table|, Task)]
    ensures AnswersOwned(v)
  {
    forall q: nat | q < |v.requests| && v.requests[q].Replied? && v.requests[q].reply.Answer?
      ensures exists i: nat :: i < |v.m.table| && GaveTo(v.m.table[i], v.requests[q].req, v.requests[q].reply.text)
    {
      var i: nat :| i < |s.m.table| && GaveTo(s.m.table[i], s.requests[q].req, s.requests[q].reply.text);
      assert v.m.table[i] == s.m.table[i];
    }
  }

  lemma OpenedKeeps(s: State, r: nat, req: Request)
    requires Orderly(s) && r < |s.requests| && s.requests[r] == Checking(req)
    requires req.Initiate? && req.key.Some? && req.offer.Some?
    requires req.key.value !in s.m.sessions && |s.m.sessions| < MAX_SESSIONS && !s.m.stopping
    ensures Orderly(s.(m := Opening(s.m, req, r, s.now), requests := s.requests[r := Negotiating(req, |s.m.table|, Task)]))
  {
    var v := s.(m := Opening(s.m, req, r, s.now), requests := s.requests[r := Negotiating(req, |s.m.table|, Task)]);
    OpeningKeeps(s.m, req, r, s.now);
    OpeningAppends(s.m, req, r, s.now);
    OpenedCoherent(s, r, req, v);
    OpenedLive(s, r, req, v);
    OpenedOwned(s, r, req, v);
  }

  lemma OpeningAppends(m: Manager, req: Request, owner: nat, now: int)
    requires req.Initiate? && req.key.Some? && req.offer.Some?
    ensures Appends(m.table, Opening(m, req, owner, now).table, req, owner)
  {
  }

  /** Whether initiate gets as far as making a session. */
  predicate Reserves(m: Manager, req: Request, access: Access) {
    && req.Initiate? && access.Granted? && req.key.Some? && req.offer.Some?
    && req.key.value !in m.sessions && !m.stopping && |m.sessions| < MAX_SESSIONS
  }

  /** Initiate makes a session, or replies and leaves everything as it was. */
  lemma EnteringIs(m: Manager, req: Request, access: Access, owner: nat, now: int) returns (reply: Reply)
    requires OpenIffMapped(m) && req.Initiate?
    ensures Reserves(m, req, access) ==>
      Entering(m, req, access, owner, now) == (Opening(m, req, owner, now), Negotiating(req, |m.table|, Task))
    ensures !Reserves(m, req, access) ==>
      && Entering(m, req, access, owner, now) == (m, Replied(req, reply))
      && (reply.Answer? ==> exists i: nat :: i < |m.table| && GaveTo(m.table[i], req, reply.text))
  {
    var (n, pc) := Entering(m, req, access, owner, now);
    reply := Busy;
    if !Reserves(m, req, access) {
      reply := pc.reply;
      if reply.Answer? {
        assert GaveTo(m.table[m.sessions[req.key.value]], req, reply.text);
      }
    }
  }

  lemma EnteringKeeps(s: State, r: nat, access: Access)
    requires Orderly(s) && Enabled(s, Checked(r, access)) && s.requests[r].req.Initiate?
    ensures Orderly(Stepping(s, Checked(r, access)))
  {
    var req := s.requests[r].req;
    var reply := EnteringIs(s.m, req, access, r, s.now);
    if Reserves(s.m, req, access) {
      OpenedKeeps(s, r, req);
    } else {
      ReplyingKeeps(s, r, reply);
    }
  }

  lemma ReleasingKeeps(s: State, r: nat, access: Access)
    requires Orderly(s) && Enabled(s, Checked(r, access)) && !s.requests[r].req.Initiate?
    ensures Orderly(Stepping(s, Checked(r, access)))
  {
    var (m, reply) := Releasing(s.m, s.requests[r].req, access);
    if m != s.m {
      var sid := s.m.sessions[s.requests[r].req.key.value];
      ClosingOneKeeps(s, sid);
    }
    ReplyingKeeps(s.(m := m), r, reply);
  }

  lemma ClosingOneKeeps(s: State, sid: nat)
    requires Orderly(s) && sid < |s.m.table|
    ensures Orderly(s.(m := Closing(s.m, sid))) && Closing(s.m, sid).table[sid].closed
  {
    var n := Closing(s.m, sid);
    ClosingKeeps(s.m, sid);
    assert n.sessions.Keys <= s.m.sessions.Keys;
    ClosingSomeKeeps(s, n);
  }

  lemma AnsweringKeeps(s: State, r: nat, text: nat)
    requires Orderly(s) && Enabled(s, Negotiated(r, Good(text))) && !s.m.table[s.requests[r].sid].closed
    ensures Orderly(Stepping(s, Negotiated(r, Good(text))))
  {
    var sid, req := s.requests[r].sid, s.requests[r].req;
    var (n, _) := Resuming(s.m, sid, Good(text), s.now);
    var u := s.(m := n);
    assert Negotiates(s, r);
    AnsweredIsSound(s.m, n, sid);
    AnsweredFor(s, u, r);
    assert GaveTo(n.table[sid], req, text);
    Moving(u, r, Replied(req, Answer(text)));
  }

  lemma AnsweredIsSound(m: Manager, n: Manager, sid: nat)
    requires Sound(m) && sid < |m.table| && n.sessions == m.sessions && n.calls == m.calls
    requires Answers(m.table, n.table, sid)
    ensures Sound(n)
  {
    SameButAnswers(m, n);
  }

  /** The answers and timers of sessions are of no concern to the map and the camera. */
  lemma SameButAnswers(m: Manager, n: Manager)
    requires Sound(m) && n.sessions == m.sessions && n.calls == m.calls && |n.table| == |m.table|
    requires forall i: nat :: i < |m.table| ==> n.table[i].key == m.table[i].key && n.table[i].closed == m.table[i].closed
    ensures Sound(n)
  {
    forall k ensures CameraAgrees(n, k) {
      assert CameraAgrees(m, k);
    }
    forall k, i ensures CallsOf(n, k, i) {
      assert CallsOf(m, k, i);
    }
  }

  /** Answering one session leaves every other request and session in order. */
  lemma AnsweredFor(s: State, u: State, r: nat)
    requires Coherent(s) && Live(s) && AnswersOwned(s) && r < |s.requests| && s.requests[r].Negotiating?
    requires s.requests[r].sid < |s.m.table| && u == s.(m := u.m) && u.m.sessions == s.m.sessions
    requires Answers(s.m.table, u.m.table, s.requests[r].sid)
    ensures forall q: nat :: q < |u.requests| && q != r && u.requests[q].Negotiating? ==> Negotiates(u, q)
    ensures Live(u) && AnswersOwned(u)
  {
    assert Negotiates(s, r);
    forall q: nat | q < |u.requests| && q != r && u.requests[q].Negotiating? ensures Negotiates(u, q) {
      assert Negotiates(s, q);
    }
    forall i: nat | i < |u.m.table| && !u.m.table[i].closed ensures Attended(u, i) {
      assert Attended(s, i);
    }
    forall q: nat | q < |u.requests| && u.requests[q].Replied? && u.requests[q].reply.Answer?
      ensures exists i: nat :: i < |u.m.table| && GaveTo(u.m.table[i], u.requests[q].req, u.requests[q].reply.text)
    {
      var i: nat :| i < |s.m.table| && GaveTo(s.m.table[i], s.requests[q].req, s.requests[q].reply.text);
      assert i != s.requests[r].sid;
      assert GaveTo(u.m.table[i], s.requests[q].req, s.requests[q].reply.text);
    }
  }

  ghost predicate Answers(before: seq<Session>, after: seq<Session>, sid: nat) {
    && sid < |before| == |after|
    && before[sid].answer.None? && after[sid].answer.Some? && after[sid].expiry.Some?
    && after == before[sid := before[sid].(answer := after[sid].answer, expiry := after[sid].expiry)]
  }

  lemma ResumingKeeps(s: State, r: nat, verdict: Verdict)
    requires Orderly(s) && Enabled(s, Negotiated(r, verdict))
    ensures Orderly(Stepping(s, Negotiated(r, verdict)))
  {
    var sid := s.requests[r].sid;
    if verdict.Good? && !s.m.table[sid].closed {
      AnsweringKeeps(s, r, verdict.text);
    } else {
      ClosingOneKeeps(s, sid);
      var (m, reply) := Resuming(s.m, sid, verdict, s.now);
      ReplyingKeeps(s.(m := m), r, reply);
    }
  }

  lemma ClosingManyKeeps(s: State, doomed: set<Key>)
    requires Orderly(s)
    ensures Orderly(s.(m := ClosingAll(s.m, doomed)))
  {
    ClosingAllKeeps(s.m, doomed);
    ClosingSomeKeeps(s, ClosingAll(s.m, doomed));
  }

  lemma StoppingKeeps(s: State)
    requires Orderly(s)
    ensures Orderly(s.(m := Stopping(s.m)))
  {
    StoppingIsSound(s.m);
    ClosingSomeKeeps(s, Stopping(s.m));
  }

  lemma StoppingIsSound(m: Manager)
    requires Sound(m)
    ensures Sound(Stopping(m)) && Stopping(m).sessions == map[] && OnlyCloses(m, Stopping(m))
  {
    var told := m.(stopping := true);
    SameButAnswers(m, told);
    ClosingAllKeeps(told, told.sessions.Keys);
  }

  lemma TickingKeeps(s: State, seconds: nat)
    requires Orderly(s)
    ensures Orderly(s.(now := s.now + seconds))
  {
    var v := s.(now := s.now + seconds);
    assert forall r: nat :: r < |s.requests| && s.requests[r].Negotiating? ==> Negotiates(v, r) == Negotiates(s, r);
    assert forall i: nat :: i < |s.m.table| ==> Attended(v, i) == Attended(s, i);
  }

  /** Every step of the loop keeps the sessions, the camera and the requests in order. */
  lemma SteppingKeeps(s: State, step: Step)
    requires Orderly(s) && Enabled(s, step)
    ensures Orderly(Stepping(s, step))
  {
    match step {
      case Arrive(req) => ArrivingKeeps(s, if s.m.stopping || req.entity !in s.allowed then Replied(req, Denied) else Checking(req));
      case Checked(r, access) =>
        if s.requests[r].req.Initiate? {
          EnteringKeeps(s, r, access);
        } else {
          ReleasingKeeps(s, r, access);
        }
      case Abandon(r) => ReplyingKeeps(s, r, Gone);
      case Advance(r) => AdvancingKeeps(s, r);
      case Negotiated(r, verdict) => ResumingKeeps(s, r, verdict);
      case Unavailable(entity) => ClosingManyKeeps(s, KeysOf(s.m, entity));
      case Expire(sid) => ClosingOneKeeps(s, sid);
      case Stop => StoppingKeeps(s);
      case Tick(seconds) => TickingKeeps(s, seconds);
    }
  }

  // ---------- time ----------

  /** When the loop's timer is due for an open session: the negotiation deadline, then expiry. */
  function Due(x: Session): int {
    match x.expiry
    case None => x.born + ANSWER_TIMEOUT
    case Some(at) => at
  }

  ghost predicate InTime(x: Session, now: int) {
    x.born <= now <= Due(x) <= x.born + ANSWER_TIMEOUT + SESSION_DURATION
    && (x.expiry.None? ==> Due(x) == x.born + ANSWER_TIMEOUT)
  }

  ghost predicate OnTime(s: State) {
    forall i: nat :: i < |s.m.table| && !s.m.table[i].closed ==> InTime(s.m.table[i], s.now)
  }

  /** Time does not pass a timer that is due. */
  ghost predicate Prompt(s: State, step: Step) {
    step.Tick? ==> forall i: nat :: i < |s.m.table| && !s.m.table[i].closed ==> s.now + step.seconds <= Due(s.m.table[i])
  }

  /** A table in which every session is as it was, or closed, or just answered, or just made. */
  ghost predicate Ages(before: seq<Session>, after: seq<Session>, now: int) {
    && |before| <= |after|
    && (forall i: nat :: i < |after| && !after[i].closed ==>
          if i < |before| then
            !before[i].closed && after[i].born == before[i].born
            && (after[i].expiry == before[i].expiry
                || (before[i].expiry.None? && after[i].expiry == Some(now + SESSION_DURATION)))
          else after[i].born == now && after[i].expiry.None?)
  }

  lemma SteppingAges(s: State, step: Step)
    requires Orderly(s) && Enabled(s, step)
    ensures Ages(s.m.table, Stepping(s, step).m.table, s.now)
  {
    match step {
      case Checked(r, access) => CheckedAges(s, r, access);
      case Negotiated(r, verdict) => NegotiatedAges(s, r, verdict);
      case Expire(sid) => ClosingAges(s.m, sid, s.now);
      case _ =>
    }
  }

  lemma ClosingAges(m: Manager, sid: nat, now: int)
    requires sid < |m.table|
    ensures Ages(m.table, Closing(m, sid).table, now)
  {
  }

  lemma OpeningAges(m: Manager, req: Request, owner: nat, now: int)
    requires req.Initiate? && req.key.Some? && req.offer.Some?
    ensures Ages(m.table, Opening(m, req, owner, now).table, now)
  {
  }

  lemma StillAges(table: seq<Session>, now: int)
    ensures Ages(table, table, now)
  {
  }

  lemma CheckedAges(s: State, r: nat, access: Access)
    requires Orderly(s) && Enabled(s, Checked(r, access))
    ensures Ages(s.m.table, Stepping(s, Checked(r, access)).m.table, s.now)
  {
    var req, table := s.requests[r].req, Stepping(s, Checked(r, access)).m.table;
    if req.Initiate? {
      var _ := EnteringIs(s.m, req, access, r, s.now);
      if Reserves(s.m, req, access) {
        assert table == Opening(s.m, req, r, s.now).table;
        OpeningAges(s.m, req, r, s.now);
      } else {
        assert table == s.m.table;
        StillAges(s.m.table, s.now);
      }
    } else {
      var (m, _) := Releasing(s.m, req, access);
      assert table == m.table;
      ReleasingAges(s.m, req, access, s.now);
    }
  }

  lemma ReleasingAges(m: Manager, req: Request, access: Access, now: int)
    ensures Ages(m.table, Releasing(m, req, access).0.table, now)
  {
    var (n, _) := Releasing(m, req, access);
    if n == m {
      StillAges(m.table, now);
    } else {
      var sid := m.sessions[req.key.value];
      assert n == Closing(m, sid);
      ClosingAges(m, sid, now);
    }
  }

  lemma AnsweringAges(table: seq<Session>, sid: nat, x: Session, now: int)
    requires sid < |table| && !table[sid].closed && table[sid].expiry.None?
    requires x.expiry == Some(now + SESSION_DURATION) && x.born == table[sid].born && !x.closed
    ensures Ages(table, table[sid := x], now)
  {
  }

  lemma NegotiatedAges(s: State, r: nat, verdict: Verdict)
    requires Orderly(s) && Enabled(s, Negotiated(r, verdict))
    ensures Ages(s.m.table, Stepping(s, Negotiated(r, verdict)).m.table, s.now)
  {
    var sid := s.requests[r].sid;
    assert Negotiates(s, r);
    if verdict.Good? && !s.m.table[sid].closed {
      assert Attended(s, sid);
      var x := s.m.table[sid].(answer := Some(verdict.text), expiry := Some(s.now + SESSION_DURATION));
      AnsweringAges(s.m.table, sid, x, s.now);
    } else {
      ClosingAges(s.m, sid, s.now);
    }
  }

  lemma SteppingOnTime(s: State, step: Step)
    requires Orderly(s) && Enabled(s, step) && OnTime(s) && Prompt(s, step)
    ensures OnTime(Stepping(s, step))
  {
    SteppingAges(s, step);
    var v := Stepping(s, step);
    forall i: nat | i < |v.m.table| && !v.m.table[i].closed ensures InTime(v.m.table[i], v.now) {
      assert i < |s.m.table| ==> InTime(s.m.table[i], s.now);
    }
  }

  // ---------- every run ----------

  function Start(allowed: set<Entity>): State { State(allowed, 0, Registry(false, map[], [], map[]), []) }

  /** These steps can be taken one after the other. */
  ghost predicate Run(s: State, steps: seq<Step>)
    decreases steps
  {
    steps == [] || (Enabled(s, steps[0]) && Run(Stepping(s, steps[0]), steps[1..]))
  }

  function After(s: State, steps: seq<Step>): State
    requires Run(s, steps)
    decreases steps
  {
    if steps == [] then s else After(Stepping(s, steps[0]), steps[1..])
  }

  ghost predicate PromptRun(s: State, steps: seq<Step>)
    requires Run(s, steps)
    decreases steps
  {
    steps == [] || (Prompt(s, steps[0]) && PromptRun(Stepping(s, steps[0]), steps[1..]))
  }

  lemma StartIsOrderly(allowed: set<Entity>)
    ensures Orderly(Start(allowed)) && OnTime(Start(allowed))
  {
    var m := Start(allowed).m;
    forall k ensures CameraAgrees(m, k) {
      assert History(m, k) == [];
    }
    forall k, i ensures CallsOf(m, k, i) {
      assert History(m, k) == [];
    }
  }

  lemma {:induction false} RunningKeeps(s: State, steps: seq<Step>)
    requires Orderly(s) && Run(s, steps)
    ensures Orderly(After(s, steps))
    decreases steps
  {
    if steps == [] {
    } else {
      var v := Stepping(s, steps[0]);
      SteppingKeeps(s, steps[0]);
      RunningKeeps(v, steps[1..]);
    }
  }

  lemma {:induction false} RunningOnTime(s: State, steps: seq<Step>)
    requires Orderly(s) && OnTime(s) && Run(s, steps) && PromptRun(s, steps)
    ensures OnTime(After(s, steps))
    decreases steps
  {
    if steps == [] {
    } else {
      var v := Stepping(s, steps[0]);
      SteppingKeeps(s, steps[0]);
      SteppingOnTime(s, steps[0]);
      RunningOnTime(v, steps[1..]);
    }
  }

  lemma {:induction false} RunningStopped(s: State, steps: seq<Step>)
    requires s.m.stopping && Run(s, steps)
    ensures After(s, steps).m.stopping
    decreases steps
  {
    if steps == [] {
    } else {
      var v := Stepping(s, steps[0]);
      SteppingStopped(s, steps[0]);
      RunningStopped(v, steps[1..]);
    }
  }

  lemma SteppingStopped(s: State, step: Step)
    requires Enabled(s, step)
    ensures s.m.stopping || step.Stop? ==> Stepping(s, step).m.stopping
  {
  }

  /** In every interleaving: a session is open exactly when it is the one mapped under its
      key; the camera was offered it once and told to close it once if it is closed, not at
      all if it is open; and under each key offers and closes take turns, each close for the
      session offered last, so no close ever hits a newer session with the same key. */
  lemma EverySessionClosesOnce(allowed: set<Entity>, steps: seq<Step>, sid: nat)
    requires Run(Start(allowed), steps) && sid < |After(Start(allowed), steps).m.table|
    ensures var m := After(Start(allowed), steps).m; var x := m.table[sid];
      && (!x.closed <==> x.key in m.sessions && m.sessions[x.key] == sid)
      && TakesTurns(History(m, x.key))
      && multiset(History(m, x.key))[Offered(sid)] == 1
      && multiset(History(m, x.key))[Closed(sid)] == if x.closed then 1 else 0
  {
    StartIsOrderly(allowed);
    RunningKeeps(Start(allowed), steps);
    var m := After(Start(allowed), steps).m;
    var k := m.table[sid].key;
    assert CameraAgrees(m, k) && CallsOf(m, k, sid);
  }

  /** At every yield point at most fourteen sessions are mapped, and each is either unanswered
      with its negotiation under way or answered with its expiry armed. */
  lemma SessionsAreBounded(allowed: set<Entity>, steps: seq<Step>, k: Key)
    requires Run(Start(allowed), steps)
    ensures var s := After(Start(allowed), steps);
      && |s.m.sessions| <= MAX_SESSIONS
      && (k in s.m.sessions ==>
            var x := s.m.table[s.m.sessions[k]];
            if x.answer.Some? then x.expiry.Some?
            else x.owner < |s.requests| && s.requests[x.owner].Negotiating? && s.requests[x.owner].sid == s.m.sessions[k])
  {
    StartIsOrderly(allowed);
    RunningKeeps(Start(allowed), steps);
    var s := After(Start(allowed), steps);
    if k in s.m.sessions {
      assert Attended(s, s.m.sessions[k]);
    }
  }

  /** If no timer is late, no mapped session is older than the negotiation deadline and the
      session duration together, and no unanswered one older than the deadline. */
  lemma AgesAreBounded(allowed: set<Entity>, steps: seq<Step>, k: Key)
    requires Run(Start(allowed), steps) && PromptRun(Start(allowed), steps)
    requires k in After(Start(allowed), steps).m.sessions
    ensures var s := After(Start(allowed), steps); var x := s.m.table[s.m.sessions[k]];
      && s.now - x.born <= ANSWER_TIMEOUT + SESSION_DURATION
      && (x.answer.None? ==> s.now - x.born <= ANSWER_TIMEOUT)
  {
    StartIsOrderly(allowed);
    RunningKeeps(Start(allowed), steps);
    RunningOnTime(Start(allowed), steps);
    var s := After(Start(allowed), steps);
    assert Attended(s, s.m.sessions[k]);
    assert InTime(s.m.table[s.m.sessions[k]], s.now);
  }

  /** After a stop no session is ever open again, whatever was still in flight. */
  lemma StoppedForever(allowed: set<Entity>, before: seq<Step>, after: seq<Step>, sid: nat)
    requires Run(Start(allowed), before) && Run(Stepping(After(Start(allowed), before), Stop), after)
    ensures var m := After(Stepping(After(Start(allowed), before), Stop), after).m;
      m.sessions == map[] && (sid < |m.table| ==> m.table[sid].closed)
  {
    StartIsOrderly(allowed);
    RunningKeeps(Start(allowed), before);
    StoppedRun(After(Start(allowed), before), after, sid);
  }

  lemma StoppedRun(s: State, after: seq<Step>, sid: nat)
    requires Orderly(s) && Run(Stepping(s, Stop), after)
    ensures var m := After(Stepping(s, Stop), after).m;
      m.sessions == map[] && (sid < |m.table| ==> m.table[sid].closed)
  {
    SteppingKeeps(s, Stop);
    SteppingStopped(s, Stop);
    var v := Stepping(s, Stop);
    RunningKeeps(v, after);
    RunningStopped(v, after);
    OrderlyStopped(After(v, after), sid);
  }

  lemma OrderlyStopped(s: State, sid: nat)
    requires Orderly(s) && s.m.stopping
    ensures s.m.sessions == map[] && (sid < |s.m.table| ==> s.m.table[sid].closed)
  {
  }

  /** Every request from the `n`-th on has been refused. */
  ghost predicate RefusedSince(s: State, n: nat) {
    n <= |s.requests| && forall r :: n <= r < |s.requests| ==> s.requests[r].Replied? && s.requests[r].reply == Denied
  }

  lemma StoppedStep(s: State, step: Step, n: nat)
    requires s.m.stopping && Enabled(s, step) && RefusedSince(s, n)
    ensures RefusedSince(Stepping(s, step), n) && |Stepping(s, step).m.table| == |s.m.table|
  {
  }

  /** Once stopped, no request that arrives is admitted, and no session is made any more, not
      even for the requests that had been admitted before. */
  lemma {:induction false} NothingStartsOnceStopped(s: State, steps: seq<Step>, n: nat)
    requires s.m.stopping && Run(s, steps) && RefusedSince(s, n)
    ensures RefusedSince(After(s, steps), n) && |After(s, steps).m.table| == |s.m.table|
    decreases steps
  {
    if steps == [] {
    } else {
      var v := Stepping(s, steps[0]);
      SteppingStopped(s, steps[0]);
      StoppedStep(s, steps[0], n);
      NothingStartsOnceStopped(v, steps[1..], n);
    }
  }

  /** An answer is only handed to a request with the key, camera, user and offer that it was
      negotiated for. */
  lemma AnswersStayWithTheirOwner(allowed: set<Entity>, steps: seq<Step>, r: nat)
    requires Run(Start(allowed), steps)
    requires var s := After(Start(allowed), steps); r < |s.requests| && s.requests[r].Replied? && s.requests[r].reply.Answer?
    ensures var s := After(Start(allowed), steps);
      exists i: nat :: i < |s.m.table| && GaveTo(s.m.table[i], s.requests[r].req, s.requests[r].reply.text)
  {
    StartIsOrderly(allowed);
    RunningKeeps(Start(allowed), steps);
  }

  /** However an initiate ends, and however late, it touches no session but the one it made:
      every other stays in the table and in the map as it was. One whose session was closed
      meanwhile changes nothing at all, and its request is told so. */
  lemma LateInitiateHarmsNobody(s: State, r: nat, verdict: Verdict, i: nat)
    requires Orderly(s) && Enabled(s, Negotiated(r, verdict)) && i < |s.m.table|
    ensures var sid, v := s.requests[r].sid, Stepping(s, Negotiated(r, verdict));
      && |v.m.table| == |s.m.table|
      && (i != sid ==> v.m.table[i] == s.m.table[i]
                       && (s.m.table[i].key in v.m.sessions && v.m.sessions[s.m.table[i].key] == i
                           <==> s.m.table[i].key in s.m.sessions && s.m.sessions[s.m.table[i].key] == i))
      && (s.m.table[sid].closed ==> v.m == s.m && v.requests[r].reply == Unreachable)
  {
    assert Negotiates(s, r);
  }

  // ---------- what each step does ----------

  /** What ends an open session: a stop, its camera becoming unavailable, its own expiry, its own
      negotiation failing or being cancelled, or a disconnect for its key by the user and camera
      it belongs to. */
  predicate Ends(s: State, step: Step, i: nat)
    requires Enabled(s, step) && i < |s.m.table|
  {
    var x := s.m.table[i];
    match step
    case Stop => true
    case Unavailable(entity) => x.entity == entity
    case Expire(sid) => sid == i
    case Negotiated(r, verdict) => s.requests[r].sid == i && !verdict.Good?
    case Checked(r, access) =>
      var req := s.requests[r].req;
      req.Disconnect? && !access.Refused? && req.key == Some(x.key) && req.entity == x.entity && req.user == x.user
    case _ => false
  }

  /** A session as the step leaves it: nothing ever happens to a closed one, and to an open one
      only its end, or the answer of its own negotiation, which arms the expiry. */
  function Left(s: State, step: Step, i: nat): Session
    requires Enabled(s, step) && i < |s.m.table|
  {
    var x := s.m.table[i];
    if x.closed then x
    else if Ends(s, step, i) then x.(closed := true, expiry := None)
    else if step.Negotiated? && step.verdict.Good? && s.requests[step.r].sid == i then
      x.(answer := Some(step.verdict.text), expiry := Some(s.now + 600))
    else x
  }

  /** Each step leaves each session just as that, whatever else is in flight. */
  lemma SessionsAreLeft(s: State, step: Step, i: nat)
    requires OpenIffMapped(s.m) && Enabled(s, step) && i < |s.m.table|
    ensures i < |Stepping(s, step).m.table| && Stepping(s, step).m.table[i] == Left(s, step, i)
  {
    match step {
      case Stop => StopLeaves(s, i);
      case Unavailable(entity) => UnavailableLeaves(s, entity, i);
      case Checked(r, access) => CheckedLeaves(s, r, access, i);
      case Negotiated(r, verdict) => ResumingLeaves(s.m, s.requests[r].sid, verdict, s.now, i);
      case Expire(sid) => ClosingLeaves(s.m, sid, i);
      case _ =>
    }
  }

  lemma StopLeaves(s: State, i: nat)
    requires OpenIffMapped(s.m) && i < |s.m.table|
    ensures var v := Stepping(s, Stop); |v.m.table| == |s.m.table| && v.m.table[i] == Left(s, Stop, i)
  {
    EndsAll(s.m, s.m.sessions.Keys, i);
    assert Stepping(s, Stop).m.table == TableClosing(s.m.table, s.m.sessions, s.m.sessions.Keys);
  }

  lemma UnavailableLeaves(s: State, entity: Entity, i: nat)
    requires OpenIffMapped(s.m) && i < |s.m.table|
    ensures var v := Stepping(s, Unavailable(entity));
      |v.m.table| == |s.m.table| && v.m.table[i] == Left(s, Unavailable(entity), i)
  {
    EndsAll(s.m, KeysOf(s.m, entity), i);
    assert Stepping(s, Unavailable(entity)).m.table == TableClosing(s.m.table, s.m.sessions, KeysOf(s.m, entity));
  }

  lemma CheckedLeaves(s: State, r: nat, access: Access, i: nat)
    requires OpenIffMapped(s.m) && Enabled(s, Checked(r, access)) && i < |s.m.table|
    ensures var v := Stepping(s, Checked(r, access)); i < |v.m.table| && v.m.table[i] == Left(s, Checked(r, access), i)
  {
    if s.requests[r].req.Disconnect? {
      ReleasingLeaves(s.m, s.requests[r].req, access, i);
    } else {
      EnteringLeaves(s.m, s.requests[r].req, access, r, s.now, i);
    }
  }

  function Ended(x: Session): Session { if x.closed then x else x.(closed := true, expiry := None) }

  lemma EndsAll(m: Manager, doomed: set<Key>, i: nat)
    requires i < |m.table| && OpenIffMapped(m)
    ensures TableClosing(m.table, m.sessions, doomed)[i] == if m.table[i].key in doomed then Ended(m.table[i]) else m.table[i]
  {
  }

  lemma ClosingLeaves(m: Manager, sid: nat, i: nat)
    requires sid < |m.table| && i < |m.table|
    ensures |Closing(m, sid).table| == |m.table|
    ensures Closing(m, sid).table[i] == if i == sid then Ended(m.table[i]) else m.table[i]
  {
  }

  lemma ResumingLeaves(m: Manager, sid: nat, verdict: Verdict, now: int, i: nat)
    requires sid < |m.table| && i < |m.table|
    ensures var x, n := m.table[i], Resuming(m, sid, verdict, now).0;
      && |n.table| == |m.table|
      && n.table[i] == if i != sid || x.closed then x
                       else if verdict.Good? then x.(answer := Some(verdict.text), expiry := Some(now + 600)) else Ended(x)
  {
    ClosingLeaves(m, sid, i);
  }

  lemma EnteringLeaves(m: Manager, req: Request, access: Access, owner: nat, now: int, i: nat)
    requires req.Initiate? && i < |m.table|
    ensures var n := Entering(m, req, access, owner, now).0; i < |n.table| && n.table[i] == m.table[i]
  {
  }

  lemma ReleasingLeaves(m: Manager, req: Request, access: Access, i: nat)
    requires OpenIffMapped(m) && i < |m.table|
    ensures var x, n := m.table[i], Releasing(m, req, access).0;
      && |n.table| == |m.table|
      && n.table[i] == if !access.Refused? && req.key == Some(x.key) && req.entity == x.entity && req.user == x.user
                       then Ended(x) else x
  {
    if req.key.Some? && req.key.value in m.sessions {
      var sid := m.sessions[req.key.value];
      assert m.table[sid].key == req.key.value;
      ClosingLeaves(m, sid, i);
    }
  }

  /** A request that gets a session of its own: it has a key under which none is mapped and a good
      offer, its user and camera are accepted, the manager is not stopping and there is room. */
  predicate Starts(s: State, step: Step)
    requires Enabled(s, step)
  {
    step.Checked? && step.access.Granted? &&
    var req := s.requests[step.r].req;
    && req.Initiate? && req.key.Some? && req.offer.Some? && req.key.value !in s.m.sessions
    && !s.m.stopping && |s.m.sessions| < 14
  }

  /** Exactly such a request makes a session, one, and reserves it under its key. The camera is
      offered it, and the request goes on to negotiate. */
  lemma FreshOfferStartsSession(s: State, step: Step)
    requires Enabled(s, step)
    ensures var v := Stepping(s, step);
      if Starts(s, step) then
        var req, n := s.requests[step.r].req, |s.m.table|;
        && v.m.table == s.m.table + [Session(req.key.value, req.entity, req.user, req.offer.value, step.r, s.now, None, None, false)]
        && v.m.sessions == s.m.sessions[req.key.value := n]
        && History(v.m, req.key.value) == History(s.m, req.key.value) + [Offered(n)]
        && v.requests[step.r] == Negotiating(req, n, Task)
      else |v.m.table| == |s.m.table|
  {
  }

  /** The reply to a request whose lookups are done and that starts nothing: to an offer that
      repeats that of an answered session, for its camera and user, the very answer. */
  function ReplyTo(s: State, req: Request, access: Access): Reply {
    if access.Refused? then Denied
    else if req.Disconnect? then
      if req.key.None? then Malformed
      else if req.key.value !in s.m.sessions then Disconnected
      else
        var x := s.m.table[s.m.sessions[req.key.value]];
        if x.entity == req.entity && x.user == req.user then Disconnected else Mismatch
    else if access.Missing? then Unreachable
    else if req.key.None? || req.offer.None? then Malformed
    else if req.key.value in s.m.sessions then
      var x := s.m.table[s.m.sessions[req.key.value]];
      if (x.entity, x.user, x.offer) != (req.entity, req.user, req.offer.value) then Mismatch
      else if x.answer.Some? then Answer(x.answer.value) else Busy
    else Busy
  }

  lemma RepliesAreRight(s: State, r: nat, access: Access)
    requires Enabled(s, Checked(r, access)) && !Starts(s, Checked(r, access))
    ensures Stepping(s, Checked(r, access)).requests[r] == Replied(s.requests[r].req, ReplyTo(s, s.requests[r].req, access))
  {
  }

  /** A good negotiation of a session that is still open is answered with its text; the session
      stays open under its key for ten minutes more, and the camera hears nothing. */
  lemma GoodNegotiationIsAnswered(s: State, r: nat, text: nat)
    requires OpenIffMapped(s.m) && Enabled(s, Negotiated(r, Good(text))) && !s.m.table[s.requests[r].sid].closed
    ensures var v, sid := Stepping(s, Negotiated(r, Good(text))), s.requests[r].sid;
      && v.requests[r] == Replied(s.requests[r].req, Answer(text))
      && !v.m.table[sid].closed && v.m.table[sid].answer == Some(text) && v.m.table[sid].expiry == Some(s.now + 600)
      && v.m.sessions == s.m.sessions && v.m.calls == s.m.calls
      && v.m.table[sid].key in v.m.sessions && v.m.sessions[v.m.table[sid].key] == sid
  {
  }

  /** One that failed or was cancelled closes it: the key is free again and the camera is told. */
  lemma FailedNegotiationCloses(s: State, r: nat, verdict: Verdict)
    requires OpenIffMapped(s.m) && Enabled(s, Negotiated(r, verdict)) && !verdict.Good?
    requires !s.m.table[s.requests[r].sid].closed
    ensures var v, sid := Stepping(s, Negotiated(r, verdict)), s.requests[r].sid;
      var k := s.m.table[sid].key;
      && v.requests[r] == Replied(s.requests[r].req, if verdict.Cancelled? then Gone else Unreachable)
      && v.m.table[sid].closed && k !in v.m.sessions && History(v.m, k) == History(s.m, k) + [Closed(sid)]
  {
  }

  /** From then on, whatever runs in between: as long as the session has not been closed, the
      same offer for the same camera and user under the same key gets the same answer. */
  lemma RepeatedOfferGetsTheAnswer(s: State, r: nat, text: nat, steps: seq<Step>, again: nat)
    requires Orderly(s) && Enabled(s, Negotiated(r, Good(text))) && !s.m.table[s.requests[r].sid].closed
    requires Run(Stepping(s, Negotiated(r, Good(text))), steps)
    requires var w, sid := After(Stepping(s, Negotiated(r, Good(text))), steps), s.requests[r].sid;
      && Enabled(w, Checked(again, Granted)) && sid < |w.m.table| && !w.m.table[sid].closed
      && Repeats(w.requests[again].req, s.m.table[sid])
    ensures var w := After(Stepping(s, Negotiated(r, Good(text))), steps);
      Stepping(w, Checked(again, Granted)).requests[again] == Replied(w.requests[again].req, Answer(text))
  {
    var v, sid := Stepping(s, Negotiated(r, Good(text))), s.requests[r].sid;
    GoodNegotiationIsAnswered(s, r, text);
    SteppingKeeps(s, Negotiated(r, Good(text)));
    AnswerStays(v, steps, sid);
    RunningKeeps(v, steps);
    OfferIsRepeated(After(v, steps), again, sid);
  }

  lemma OfferIsRepeated(w: State, again: nat, sid: nat)
    requires OpenIffMapped(w.m) && Enabled(w, Checked(again, Granted)) && sid < |w.m.table| && !w.m.table[sid].closed
    requires w.m.table[sid].answer.Some? && Repeats(w.requests[again].req, w.m.table[sid])
    ensures Stepping(w, Checked(again, Granted)).requests[again] ==
      Replied(w.requests[again].req, Answer(w.m.table[sid].answer.value))
  {
    assert w.m.sessions[w.m.table[sid].key] == sid;
    RepliesAreRight(w, again, Granted);
  }

  predicate Repeats(req: Request, x: Session) {
    req.Initiate? && req.key == Some(x.key) && req.entity == x.entity && req.user == x.user && req.offer == Some(x.offer)
  }

  lemma {:induction false} AnswerStays(s: State, steps: seq<Step>, sid: nat)
    requires Orderly(s) && Run(s, steps) && sid < |s.m.table| && s.m.table[sid].answer.Some?
    ensures var w := After(s, steps);
      && sid < |w.m.table| && w.m.table[sid].answer == s.m.table[sid].answer
      && w.m.table[sid].key == s.m.table[sid].key && w.m.table[sid].entity == s.m.table[sid].entity
      && w.m.table[sid].user == s.m.table[sid].user && w.m.table[sid].offer == s.m.table[sid].offer
    decreases steps
  {
    if steps == [] {
    } else {
      SessionsAreLeft(s, steps[0], sid);
      AnsweredOnce(s, steps[0], sid);
      SteppingKeeps(s, steps[0]);
      AnswerStays(Stepping(s, steps[0]), steps[1..], sid);
    }
  }

  /** An answered open session has no negotiation left. */
  lemma AnsweredOnce(s: State, step: Step, sid: nat)
    requires Orderly(s) && Enabled(s, step) && sid < |s.m.table| && s.m.table[sid].answer.Some?
    ensures Left(s, step, sid).answer == s.m.table[sid].answer
  {
    assert step.Negotiated? ==> Negotiates(s, step.r);
  }

  /** A disconnect closes an open session exactly when it comes for its key from the user and
      camera it belongs to and the lookup does not refuse it. Then the key is free again, the
      camera is told, and the reply says so. */
  lemma OwnerDisconnectsIff(s: State, r: nat, access: Access, i: nat)
    requires OpenIffMapped(s.m) && Enabled(s, Checked(r, access)) && s.requests[r].req.Disconnect?
    requires i < |s.m.table| && !s.m.table[i].closed
    ensures var v, x, req := Stepping(s, Checked(r, access)), s.m.table[i], s.requests[r].req;
      && i < |v.m.table|
      && (v.m.table[i].closed <==>
            !access.Refused? && req.key == Some(x.key) && req.entity == x.entity && req.user == x.user)
      && (v.m.table[i].closed ==>
            && x.key !in v.m.sessions && History(v.m, x.key) == History(s.m, x.key) + [Closed(i)]
            && v.requests[r] == Replied(req, Disconnected))
  {
    ReleasingLeaves(s.m, s.requests[r].req, access, i);
  }

  lemma StepThen(s: State, step: Step, rest: seq<Step>)
    requires Enabled(s, step) && Run(Stepping(s, step), rest)
    ensures Run(s, [step] + rest) && After(s, [step] + rest) == After(Stepping(s, step), rest)
  {
    assert ([step] + rest)[1..] == rest;
  }

  /** A request that negotiates for an open session is answered once its negotiation is good. */
  lemma NegotiationIsServed(s: State, r: nat, text: nat) returns (steps: seq<Step>)
    requires r < |s.requests| && s.requests[r].Negotiating? && s.requests[r].stage.Task?
    requires s.requests[r].sid < |s.m.table| && !s.m.table[s.requests[r].sid].closed
    ensures steps == [Advance(r)] + ([Advance(r)] + ([Negotiated(r, Good(text))] + [])) && Run(s, steps)
    ensures var v, n := After(s, steps), s.requests[r].sid;
      && r < |v.requests| && v.requests[r] == Replied(s.requests[r].req, Answer(text))
      && v.m.sessions == s.m.sessions && n < |v.m.table| && !v.m.table[n].closed && v.m.table[n].answer == Some(text)
  {
    var one := Stepping(s, Advance(r));
    var two := Stepping(one, Advance(r));
    StepThen(two, Negotiated(r, Good(text)), []);
    StepThen(one, Advance(r), [Negotiated(r, Good(text))] + []);
    StepThen(s, Advance(r), [Advance(r)] + ([Negotiated(r, Good(text))] + []));
    steps := [Advance(r)] + ([Advance(r)] + ([Negotiated(r, Good(text))] + []));
  }

  /** When nothing stands in its way, an offer for a configured camera is served: it is looked
      up, given a session, negotiated and answered with the camera's text, and the session is
      open under its key. */
  lemma OfferIsServed(s: State, req: Request, text: nat) returns (steps: seq<Step>)
    requires !s.m.stopping && |s.m.sessions| < 14
    requires req.Initiate? && req.entity in s.allowed && req.key.Some? && req.offer.Some? && req.key.value !in s.m.sessions
    ensures Run(s, steps) && |s.requests| < |After(s, steps).requests| && |s.m.table| < |After(s, steps).m.table|
    ensures var v := After(s, steps);
      && v.requests[|s.requests|] == Replied(req, Answer(text))
      && v.m.sessions == s.m.sessions[req.key.value := |s.m.table|]
      && !v.m.table[|s.m.table|].closed && v.m.table[|s.m.table|].answer == Some(text)
  {
    var r := |s.requests|;
    var one := Stepping(s, Arrive(req));
    var two := Stepping(one, Checked(r, Granted));
    FreshOfferStartsSession(one, Checked(r, Granted));
    var rest := NegotiationIsServed(two, r, text);
    StepThen(one, Checked(r, Granted), rest);
    StepThen(s, Arrive(req), [Checked(r, Granted)] + rest);
    steps := [Arrive(req)] + ([Checked(r, Granted)] + rest);
  }

  /** Nothing is looked up, negotiated or kept for a camera that is not configured. */
  ghost predicate OnlyConfigured(s: State) {
    && (forall r: nat :: r < |s.requests| && !s.requests[r].Replied? ==> s.requests[r].req.entity in s.allowed)
    && (forall i: nat :: i < |s.m.table| ==> s.m.table[i].entity in s.allowed)
  }

  lemma ConfiguredRequest(s: State, step: Step, r: nat)
    requires OnlyConfigured(s) && Enabled(s, step)
    ensures var v := Stepping(s, step);
      v.allowed == s.allowed && (r < |v.requests| && !v.requests[r].Replied? ==> v.requests[r].req.entity in s.allowed)
  {
  }

  lemma ConfiguredSession(s: State, step: Step, i: nat)
    requires OnlyConfigured(s) && OpenIffMapped(s.m) && Enabled(s, step) && i < |Stepping(s, step).m.table|
    ensures Stepping(s, step).m.table[i].entity in s.allowed
  {
    if i < |s.m.table| {
      SessionsAreLeft(s, step, i);
    } else {
      FreshOfferStartsSession(s, step);
    }
  }

  lemma ConfiguredStep(s: State, step: Step)
    requires OnlyConfigured(s) && OpenIffMapped(s.m) && Enabled(s, step)
    ensures OnlyConfigured(Stepping(s, step)) && Stepping(s, step).allowed == s.allowed
  {
    var v := Stepping(s, step);
    ConfiguredRequest(s, step, 0);
    forall r: nat | r < |v.requests| && !v.requests[r].Replied? ensures v.requests[r].req.entity in v.allowed {
      ConfiguredRequest(s, step, r);
    }
    forall i: nat | i < |v.m.table| ensures v.m.table[i].entity in v.allowed {
      ConfiguredSession(s, step, i);
    }
  }

  lemma {:induction false} ConfiguredRun(s: State, steps: seq<Step>)
    requires Orderly(s) && OnlyConfigured(s) && Run(s, steps)
    ensures OnlyConfigured(After(s, steps)) && After(s, steps).allowed == s.allowed
    decreases steps
  {
    if steps == [] {
    } else {
      ConfiguredStep(s, steps[0]);
      SteppingKeeps(s, steps[0]);
      ConfiguredRun(Stepping(s, steps[0]), steps[1..]);
    }
  }

  /** In every run only configured cameras are ever asked. */
  lemma OnlyConfiguredCamerasAreAsked(allowed: set<Entity>, steps: seq<Step>, sid: nat)
    requires Run(Start(allowed), steps) && sid < |After(Start(allowed), steps).m.table|
    ensures After(Start(allowed), steps).m.table[sid].entity in allowed
  {
    StartIsOrderly(allowed);
    ConfiguredRun(Start(allowed), steps);
  }

  // ---------- SessionManager ----------

  /** The keys that are no longer to do have had their sessions closed. */
  ghost predicate ClosedSoFar(was: Manager, keys: set<Key>, todo: set<Key>, m: Manager) {
    match m case Registry(_, _, _, _) => m == ClosingAll(was, keys - todo)
  }

  lemma NoneClosed(was: Manager, keys: set<Key>)
    ensures ClosedSoFar(was, keys, keys, was)
  {
    ClosingNone(was, keys - keys);
  }

  lemma AllClosed(was: Manager, keys: set<Key>, m: Manager)
    requires ClosedSoFar(was, keys, {}, m)
    ensures m == ClosingAll(was, keys)
  {
    assert keys - {} == keys;
  }

  lemma CloseStep(was: Manager, keys: set<Key>, todo: set<Key>, k: Key, m: Manager)
    requires OpenIffMapped(was) && k in todo && todo <= keys && k in was.sessions && ClosedSoFar(was, keys, todo, m)
    ensures was.sessions[k] < |m.table| && ClosedSoFar(was, keys, todo - {k}, Closing(m, was.sessions[k]))
    ensures |todo - {k}| < |todo|
  {
    TakeOne(keys, todo, k);
    ClosingOneMore(was, keys - todo, k);
  }

  lemma TakeOne(keys: set<Key>, todo: set<Key>, k: Key)
    requires k in todo && todo <= keys
    ensures keys - (todo - {k}) == (keys - todo) + {k} && |todo - {k}| < |todo|
  {
  }

  class SessionManager {
    const allowed: set<Entity>
    var sessions: map<Key, nat>
    var table: seq<Session>
    var stopping: bool
    ghost var calls: map<Key, seq<Call>>

    constructor (allowed: set<Entity>)
      ensures this.allowed == allowed && Valid() && View() == Start(allowed).m
    {
      this.allowed, sessions, table, stopping, calls := allowed, map[], [], false, map[];
    }

    ghost predicate Valid()
      reads this
    {
      forall k :: k in sessions ==> sessions[k] < |table|
    }

    ghost function View(): Manager
      reads this
      requires Valid()
    {
      Registry(stopping, sessions, table, calls)
    }

    method Close(sid: nat)
      requires Valid() && sid < |table|
      modifies this`sessions, this`table, this`calls
      ensures Valid() && View() == Closing(old(View()), sid)
    {
      var s := table[sid];
      if s.closed {
        return;
      }
      table := table[sid := s.(closed := true, expiry := None)];
      if s.key in sessions && sessions[s.key] == sid {
        sessions := sessions - {s.key};
      }
      calls := Called(calls, s.key, Closed(sid));
    }

    method Stop()
      requires Valid() && OpenIffMapped(View())
      modifies this
      ensures Valid() && View() == Stopping(old(View()))
    {
      ghost var was, told := View(), View().(stopping := true);
      stopping := true;
      assert View() == told;
      CloseEach(sessions.Keys);
      assert View() == ClosingAll(told, was.sessions.Keys);
    }

    /** camera_state_changed */
    method CameraUnavailable(entity: Entity)
      requires Valid() && OpenIffMapped(View())
      modifies this`sessions, this`table, this`calls
      ensures Valid() && View() == ClosingAll(old(View()), KeysOf(old(View()), entity))
    {
      CloseEach(set k | k in sessions && table[sessions[k]].entity == entity);
    }

    /** The loop over a copy of the map's items. */
    method CloseEach(keys: set<Key>)
      requires Valid() && OpenIffMapped(View()) && keys <= sessions.Keys
      modifies this`sessions, this`table, this`calls
      ensures Valid() && View() == ClosingAll(old(View()), keys)
    {
      var items, todo := sessions, keys;
      ghost var was := View();
      NoneClosed(was, keys);
      while todo != {}
        invariant Valid() && todo <= keys && ClosedSoFar(was, keys, todo, View())
        decreases |todo|
      {
        var k :| k in todo;
        CloseStep(was, keys, todo, k, View());
        Close(items[k]);
        todo := todo - {k};
      }
      AllClosed(was, keys, View());
    }

    /** _identity, up to its await. */
    method Admit(req: Request) returns (pc: Pc)
      ensures pc == if stopping || req.entity !in allowed then Replied(req, Denied) else Checking(req)
    {
      return if stopping || req.entity !in allowed then Replied(req, Denied) else Checking(req);
    }

    method Enter(req: Request, access: Access, owner: nat, now: int) returns (pc: Pc)
      requires Valid() && req.Initiate?
      modifies this`sessions, this`table, this`calls
      ensures Valid() && (View(), pc) == Entering(old(View()), req, access, owner, now)
    {
      if access.Refused? {
        return Replied(req, Denied);
      }
      if access.Missing? {
        return Replied(req, Unreachable);
      }
      if req.key.None? || req.offer.None? {
        return Replied(req, Malformed);
      }
      var key := req.key.value;
      if key in sessions {
        var existing := table[sessions[key]];
        if !Owns(existing, req) || existing.offer != req.offer.value {
          return Replied(req, Mismatch);
        }
        if existing.answer.None? {
          return Replied(req, Busy);
        }
        return Replied(req, Answer(existing.answer.value));
      }
      if stopping || |sessions| >= MAX_SESSIONS {
        return Replied(req, Busy);
      }
      var sid := |table|;
      table := table + [Session(key, req.entity, req.user, req.offer.value, owner, now, None, None, false)];
      sessions := sessions[key := sid];
      calls := Called(calls, key, Offered(sid));
      assert View() == Opening(old(View()), req, owner, now);
      return Negotiating(req, sid, Task);
    }

    method Resume(sid: nat, verdict: Verdict, now: int) returns (reply: Reply)
      requires Valid() && sid < |table|
      modifies this`sessions, this`table, this`calls
      ensures Valid() && (View(), reply) == Resuming(old(View()), sid, verdict, now)
    {
      var s := table[sid];
      if verdict.Good? && !s.closed {
        table := table[sid := s.(answer := Some(verdict.text), expiry := Some(now + SESSION_DURATION))];
        return Answer(verdict.text);
      }
      Close(sid);
      return if verdict.Cancelled? && !s.closed then Gone else Unreachable;
    }

    /** disconnected, from the user lookup on. */
    method Release(req: Request, access: Access) returns (reply: Reply)
      requires Valid()
      modifies this`sessions, this`table, this`calls
      ensures Valid() && (View(), reply) == Releasing(old(View()), req, access)
    {
      if access.Refused? {
        return Denied;
      }
      if req.key.None? {
        return Malformed;
      }
      if req.key.value in sessions {
        var sid := sessions[req.key.value];
        if !Owns(table[sid], req) {
          return Mismatch;
        }
        Close(sid);
      }
      return Disconnected;
    }
  }
}
