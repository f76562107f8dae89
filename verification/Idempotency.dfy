/** The idempotency middleware (`api/idempotency.py`) as requests that interleave at every await: a replay
    cache with a TTL, and a map of per-key lock objects that are dropped from the map while still held. */
module Idempotency {
  import opened Wrappers

  /** Tenant and idempotency key. */
  type Key = (string, string)

  datatype Response = Response(status: int, contentType: string, body: string)

  datatype Row = Row(route: string, response: Response, expiresAt: int)

  datatype Reply = Raised | Fresh(response: Response) | Replay(response: Response) | RouteMismatch(stored: string)

  /** A lock object: made for `key`, told apart from the others made for it by `serial`. */
  datatype Lock = Lock(key: Key, serial: nat)

  datatype Pc =
    | Looking                                      // before the first cache lookup
    | Locking                                      // before `_lock_for`
    | Waiting(lock: Lock)
    | Rechecking(lock: Lock)                        // holds the lock from here to Exiting
    | Handling(lock: Lock)
    | Storing(lock: Lock, response: Response)
    | Releasing(lock: Lock, response: Response)     // before `_release_inflight`
    | Exiting(lock: Lock, reply: Reply)
    | Done(reply: Reply)

  datatype Request = Request(key: Key, route: string, pc: Pc)

  /** A handler run that returned a response. */
  datatype Success = Success(request: nat, key: Key, route: string, response: Response)

  /** `inflight` is the lock map; `holders` says which request holds a lock object, in the map or not. */
  datatype State = State(inflight: map<Key, Lock>, nextLock: nat, holders: map<Lock, nat>, rows: map<Key, Row>,
                         requests: map<nat, Request>, now: int, successes: seq<Success>)

  datatype Event =
    | Arrives(request: nat, key: Key, route: string)
    | Advances(request: nat)
    | HandlerReturns(request: nat, response: Response)
    | HandlerRaises(request: nat)
    | StoreFails(request: nat)
    | Cancelled(request: nat)
    | Passes(ms: nat)
    | Purges

  predicate Cacheable(r: Response) {
    200 <= r.status < 300 && !("text/event-stream" <= r.contentType)
  }

  function Start(now: int): State {
    State(map[], 0, map[], map[], map[], now, [])
  }

  function Lookup(rows: map<Key, Row>, key: Key, now: int): Option<Row> {
    if key in rows && rows[key].expiresAt > now then Some(rows[key]) else None
  }

  /** What a cache hit answers. */
  function Hit(row: Row, route: string): Reply {
    if row.route != route then RouteMismatch(row.route) else Replay(row.response)
  }

  predicate Holds(pc: Pc) {
    pc.Rechecking? || pc.Handling? || pc.Storing? || pc.Releasing? || pc.Exiting?
  }

  predicate Enabled(s: State, e: Event) {
    match e
    case Arrives(r, _, _) => r !in s.requests
    case Advances(r) =>
      && r in s.requests
      && var pc := s.requests[r].pc;
         && !pc.Done? && !pc.Handling?
         && (pc.Waiting? ==> pc.lock !in s.holders)
    case HandlerReturns(r, _) => r in s.requests && s.requests[r].pc.Handling?
    case HandlerRaises(r) => r in s.requests && s.requests[r].pc.Handling?
    case StoreFails(r) => r in s.requests && s.requests[r].pc.Storing?
    case Cancelled(r) =>
      && r in s.requests
      && var pc := s.requests[r].pc;
         pc.Looking? || pc.Locking? || pc.Waiting? || pc.Rechecking? || pc.Releasing?
    case Passes(_) => true
    case Purges => true
  }

  predicate HasLock(pc: Pc) {
    pc.Waiting? || Holds(pc)
  }

  ghost predicate LockMatches(q: Request) {
    HasLock(q.pc) ==> q.pc.lock.key == q.key
  }

  /** A step of request `r`, on key `k`, touches no other request and no other key. */
  ghost predicate OnlyTouches(s: State, s1: State, r: nat, k: Key) {
    && s1.now == s.now
    && s1.requests.Keys == s.requests.Keys
    && (forall u :: u in s.requests && u != r ==> s1.requests[u] == s.requests[u])
    && (forall j :: j != k ==>
          (j in s1.inflight <==> j in s.inflight) && (j in s.inflight ==> s1.inflight[j] == s.inflight[j]))
    && (forall j :: j != k ==> (j in s1.rows <==> j in s.rows) && (j in s.rows ==> s1.rows[j] == s.rows[j]))
    && (forall l: Lock :: l.key != k && l in s.holders ==> l in s1.holders && s1.holders[l] == s.holders[l])
  }

  /** A step of request `r` is one on its own key, and keeps to that key's lock objects. */
  ghost predicate Local(s: State, s1: State, r: nat)
    requires r in s.requests
  {
    var q := s.requests[r];
    LockMatches(q) && (q.key in s.inflight ==> s.inflight[q.key].key == q.key) ==>
      && OnlyTouches(s, s1, r, q.key)
      && s1.requests[r] == q.(pc := s1.requests[r].pc)
      && LockMatches(s1.requests[r])
      && (q.key in s1.inflight ==> s1.inflight[q.key].key == q.key)
  }

  function Goto(s: State, r: nat, pc: Pc): State
    requires r in s.requests
  {
    s.(requests := s.requests[r := s.requests[r].(pc := pc)])
  }

  function Look(s: State, r: nat): (s1: State)
    requires r in s.requests
    ensures Local(s, s1, r)
  {
    var found := Lookup(s.rows, s.requests[r].key, s.now);
    Goto(s, r, if found.Some? then Done(Hit(found.value, s.requests[r].route)) else Locking)
  }

  /** `_lock_for`: the key's lock object, made if the map has none; then queue for it. */
  function TakeNumber(s: State, r: nat): (s1: State)
    requires r in s.requests
    ensures Local(s, s1, r)
  {
    var key := s.requests[r].key;
    if key in s.inflight then Goto(s, r, Waiting(s.inflight[key]))
    else
      var lock := Lock(key, s.nextLock);
      Goto(s, r, Waiting(lock)).(inflight := s.inflight[key := lock], nextLock := s.nextLock + 1)
  }

  function Acquire(s: State, r: nat): (s1: State)
    requires r in s.requests && s.requests[r].pc.Waiting?
    ensures Local(s, s1, r)
  {
    Goto(s, r, Rechecking(s.requests[r].pc.lock)).(holders := s.holders[s.requests[r].pc.lock := r])
  }

  function Recheck(s: State, r: nat): (s1: State)
    requires r in s.requests && s.requests[r].pc.Rechecking?
    ensures Local(s, s1, r)
  {
    var lock := s.requests[r].pc.lock;
    var found := Lookup(s.rows, s.requests[r].key, s.now);
    Goto(s, r, if found.Some? then Exiting(lock, Hit(found.value, s.requests[r].route)) else Handling(lock))
  }

  function Store(s: State, r: nat, ttl: int): (s1: State)
    requires r in s.requests && s.requests[r].pc.Storing?
    ensures Local(s, s1, r)
  {
    var q := s.requests[r];
    Goto(s, r, Releasing(q.pc.lock, q.pc.response)).(rows := s.rows[q.key := Row(q.route, q.pc.response, s.now + ttl)])
  }

  /** Drops whatever lock object the map has for the key. */
  function Release(s: State, r: nat): (s1: State)
    requires r in s.requests && s.requests[r].pc.Releasing?
    ensures Local(s, s1, r)
  {
    var q := s.requests[r];
    Goto(s, r, Exiting(q.pc.lock, Fresh(q.pc.response))).(inflight := s.inflight - {q.key})
  }

  function Exit(s: State, r: nat): (s1: State)
    requires r in s.requests && s.requests[r].pc.Exiting?
    ensures Local(s, s1, r)
  {
    Goto(s, r, Done(s.requests[r].pc.reply)).(holders := s.holders - {s.requests[r].pc.lock})
  }

  function Advance(s: State, r: nat, ttl: int): (s1: State)
    requires Enabled(s, Advances(r))
    ensures Local(s, s1, r)
  {
    var pc := s.requests[r].pc;
    if pc.Looking? then Look(s, r)
    else if pc.Locking? then TakeNumber(s, r)
    else if pc.Waiting? then Acquire(s, r)
    else if pc.Rechecking? then Recheck(s, r)
    else if pc.Storing? then Store(s, r, ttl)
    else if pc.Releasing? then Release(s, r)
    else Exit(s, r)
  }

  function Return(s: State, r: nat, response: Response): (s1: State)
    requires r in s.requests && s.requests[r].pc.Handling?
    ensures Local(s, s1, r)
  {
    var q := s.requests[r];
    Goto(s, r, if Cacheable(response) then Storing(q.pc.lock, response) else Releasing(q.pc.lock, response))
    .(successes := s.successes + [Success(r, q.key, q.route, response)])
  }

  /** An exception leaves the `async with`, and nothing else. */
  function Raise(s: State, r: nat): (s1: State)
    requires r in s.requests
    ensures Local(s, s1, r)
  {
    Goto(s, r, if Holds(s.requests[r].pc) then Exiting(s.requests[r].pc.lock, Raised) else Done(Raised))
  }

  function Next(s: State, e: Event, ttl: int): State
    requires Enabled(s, e)
  {
    match e
    case Arrives(r, key, route) => s.(requests := s.requests[r := Request(key, route, Looking)])
    case Advances(r) => Advance(s, r, ttl)
    case HandlerReturns(r, response) => Return(s, r, response)
    case HandlerRaises(r) => Raise(s, r)
    case StoreFails(r) => Raise(s, r)
    case Cancelled(r) => Raise(s, r)
    case Passes(ms) => s.(now := s.now + ms)
    case Purges => s.(rows := map key | key in s.rows && s.rows[key].expiresAt > s.now :: s.rows[key])
  }

  /** The middleware, one method for each stretch of `dispatch` between two awaits. */
  class IdempotencyMiddleware {
    var inflight: map<Key, Lock>
    var nextLock: nat
    var holders: map<Lock, nat>
    var rows: map<Key, Row>
    var requests: map<nat, Request>
    var now: int
    ghost var successes: seq<Success>
    const ttl: int

    constructor (now: int, ttl: int)
      ensures Current() == Start(now) && this.ttl == ttl
    {
      inflight, nextLock, holders, rows, requests, successes := map[], 0, map[], map[], map[], [];
      this.now, this.ttl := now, ttl;
    }

    ghost function Current(): State
      reads this
    {
      State(inflight, nextLock, holders, rows, requests, now, successes)
    }

    method LookupIdempotency(key: Key) returns (found: Option<Row>)
      ensures found == Lookup(rows, key, now)
    {
      if key in rows && rows[key].expiresAt > now {
        found := Some(rows[key]);
      } else {
        found := None;
      }
    }

    method LockFor(key: Key) returns (lock: Lock)
      modifies this`inflight, this`nextLock
      ensures key in inflight && lock == inflight[key]
      ensures if key in old(inflight) then inflight == old(inflight) && nextLock == old(nextLock)
              else inflight == old(inflight)[key := Lock(key, old(nextLock))] && nextLock == old(nextLock) + 1
    {
      if key !in inflight {
        inflight := inflight[key := Lock(key, nextLock)];
        nextLock := nextLock + 1;
      }
      lock := inflight[key];
    }

    method ReleaseInflight(key: Key)
      modifies this`inflight
      ensures inflight == old(inflight) - {key}
    {
      inflight := inflight - {key};
    }

    /** Run a request to its next await. */
    method Dispatch(r: nat)
      requires Enabled(Current(), Advances(r))
      modifies this
      ensures Current() == Next(old(Current()), Advances(r), ttl)
    {
      var q := requests[r];
      match q.pc
      case Looking =>
        var found := LookupIdempotency(q.key);
        requests := requests[r := q.(pc := if found.Some? then Done(Hit(found.value, q.route)) else Locking)];
      case Locking =>
        var lock := LockFor(q.key);
        requests := requests[r := q.(pc := Waiting(lock))];
      case Waiting(lock) =>
        holders := holders[lock := r];
        requests := requests[r := q.(pc := Rechecking(lock))];
      case Rechecking(lock) =>
        var found := LookupIdempotency(q.key);
        var next := if found.Some? then Exiting(lock, Hit(found.value, q.route)) else Handling(lock);
        requests := requests[r := q.(pc := next)];
      case Storing(lock, response) =>
        rows := rows[q.key := Row(q.route, response, now + ttl)];
        requests := requests[r := q.(pc := Releasing(lock, response))];
      case Releasing(lock, response) =>
        ReleaseInflight(q.key);
        requests := requests[r := q.(pc := Exiting(lock, Fresh(response)))];
      case Exiting(lock, reply) =>
        holders := holders - {lock};
        requests := requests[r := q.(pc := Done(reply))];
    }

    /** The handler's response comes back from `call_next`. */
    method HandlerReturned(r: nat, response: Response)
      requires Enabled(Current(), HandlerReturns(r, response))
      modifies this
      ensures Current() == Next(old(Current()), HandlerReturns(r, response), ttl)
    {
      var q := requests[r];
      var cached := 200 <= response.status < 300 && !("text/event-stream" <= response.contentType);
      var next := if cached then Storing(q.pc.lock, response) else Releasing(q.pc.lock, response);
      requests := requests[r := q.(pc := next)];
      successes := successes + [Success(r, q.key, q.route, response)];
    }
  }

  // ----- one key -----

  /** The handler runs for key `k` that returned a response. */
  function SuccessesOf(h: seq<Success>, k: Key): seq<Success>
    decreases |h|
  {
    if h == [] then []
    else SuccessesOf(h[..|h| - 1], k) + if h[|h| - 1].key == k then [h[|h| - 1]] else []
  }

  /** Every lock object in use belongs to the key it is used for. */
  ghost predicate LocksMatch(s: State) {
    && (forall r :: r in s.requests ==> LockMatches(s.requests[r]))
    && (forall k :: k in s.inflight ==> s.inflight[k].key == k)
  }

  /** A reply is right for the key: an answer other than an exception agrees with the stored row, and only
      the one request that ran the handler answers its own response. */
  ghost predicate ReplyRight(s: State, k: Key, r: nat, route: string, reply: Reply) {
    match reply
    case Raised => true
    case Fresh(response) =>
      && k in s.rows && s.rows[k].response == response && s.rows[k].route == route
      && SuccessesOf(s.successes, k) == [Success(r, k, route, response)]
    case Replay(response) => k in s.rows && s.rows[k].response == response && s.rows[k].route == route
    case RouteMismatch(stored) => k in s.rows && s.rows[k].route == stored && stored != route
  }

  ghost predicate RequestInv(s: State, k: Key, r: nat) {
    r in s.requests && s.requests[r].key == k ==>
      var q := s.requests[r];
      && (Holds(q.pc) ==> q.pc.lock in s.holders && s.holders[q.pc.lock] == r)
      // a lock object dropped from the map while held or awaited: then the key is cached
      && (HasLock(q.pc) && k !in s.rows ==> k in s.inflight && s.inflight[k] == q.pc.lock)
      && (q.pc.Handling? || q.pc.Storing? ==> k !in s.rows)
      && (q.pc.Handling? ==> SuccessesOf(s.successes, k) == [])
      && (q.pc.Storing? ==> SuccessesOf(s.successes, k) == [Success(r, k, q.route, q.pc.response)])
      && (q.pc.Releasing? ==> ReplyRight(s, k, r, q.route, Fresh(q.pc.response)))
      && (q.pc.Exiting? || q.pc.Done? ==> ReplyRight(s, k, r, q.route, q.pc.reply))
  }

  ghost predicate Stores(s: State, k: Key, r: nat) {
    r in s.requests && s.requests[r].key == k && s.requests[r].pc.Storing?
  }

  ghost predicate RowInv(s: State, k: Key) {
    && (k in s.rows ==>
          && s.rows[k].expiresAt > s.now
          && |SuccessesOf(s.successes, k)| == 1
          && SuccessesOf(s.successes, k)[0].response == s.rows[k].response
          && SuccessesOf(s.successes, k)[0].route == s.rows[k].route)
    && (k !in s.rows && (forall r :: !Stores(s, k, r)) ==> SuccessesOf(s.successes, k) == [])
  }

  ghost predicate Inv(s: State, k: Key) {
    LocksMatch(s) && RowInv(s, k) && forall r :: r in s.requests ==> RequestInv(s, k, r)
  }

  /** The event keeps within the promise for `k`: the handler raises or returns an `allowed` response, storing
      it succeeds, and the stored row does not expire. */
  ghost predicate Gentle(s: State, e: Event, k: Key, allowed: Response -> bool, ttl: int)
    requires Enabled(s, e)
  {
    && (e.HandlerReturns? && s.requests[e.request].key == k ==> allowed(e.response))
    && (e.StoreFails? ==> s.requests[e.request].key != k)
    && var s' := Next(s, e, ttl);
       k in s'.rows ==> s'.rows[k].expiresAt > s'.now
  }

  ghost predicate Subject(s: State, e: Event, k: Key) {
    e.Arrives? || e.Passes? || e.Purges? || (e.request in s.requests && s.requests[e.request].key == k)
  }

  lemma {:induction false} SuccessesAppend(h: seq<Success>, x: Success, k: Key)
    ensures SuccessesOf(h + [x], k) == SuccessesOf(h, k) + if x.key == k then [x] else []
  {
    assert (h + [x])[..|h|] == h;
  }

  predicate OfRequest(e: Event) {
    !e.Arrives? && !e.Passes? && !e.Purges?
  }

  lemma {:induction false} StepIsLocal(s: State, e: Event, ttl: int)
    requires Enabled(s, e) && OfRequest(e)
    ensures Local(s, Next(s, e, ttl), e.request)
  {
    hide Local, Advance, Return, Raise;
  }

  lemma {:induction false} SuccessesElsewhere(s: State, e: Event, ttl: int, j: Key)
    requires Enabled(s, e) && OfRequest(e) && s.requests[e.request].key != j
    ensures SuccessesOf(Next(s, e, ttl).successes, j) == SuccessesOf(s.successes, j)
  {
    hide Lookup, Hit, Local;
    if e.HandlerReturns? {
      var q := s.requests[e.request];
      SuccessesAppend(s.successes, Success(e.request, q.key, q.route, e.response), j);
    }
  }

  lemma {:induction false} LocksStayMatched(s: State, e: Event, ttl: int)
    requires Enabled(s, e) && LocksMatch(s)
    ensures LocksMatch(Next(s, e, ttl))
  {
    if OfRequest(e) {
      StepIsLocal(s, e, ttl);
      hide Next, LockMatches;
    }
  }

  /** A request of another key changes nothing that concerns `k`. */
  lemma {:induction false} ElsewhereKeepsInv(s: State, e: Event, k: Key, ttl: int)
    requires Enabled(s, e) && Inv(s, k) && !Subject(s, e, k)
    ensures Inv(Next(s, e, ttl), k)
  {
    LocksStayMatched(s, e, ttl);
    StepIsLocal(s, e, ttl);
    SuccessesElsewhere(s, e, ttl, k);
    hide Next, SuccessesOf, LockMatches;
    var s1 := Next(s, e, ttl);
    assert LockMatches(s.requests[e.request]) && OnlyTouches(s, s1, e.request, s.requests[e.request].key);
    forall r | r in s1.requests ensures RequestInv(s1, k, r) {
      assert RequestInv(s, k, r);
      if s.requests[r].key == k {
        assert s1.requests[r] == s.requests[r];
        assert LockMatches(s.requests[r]);
        OtherRequestKept(s, s1, k, r);
      }
    }
    assert RowInv(s1, k) by {
      forall r | Stores(s, k, r) ensures Stores(s1, k, r) {
        assert s1.requests[r] == s.requests[r];
      }
    }
  }

  /** Nothing a waiting or finished request of `k` depends on has changed. */
  lemma {:induction false} OtherRequestKept(s: State, s1: State, k: Key, r: nat)
    requires RequestInv(s, k, r) && r in s.requests && r in s1.requests && s1.requests[r] == s.requests[r]
    requires s.requests[r].key == k && LockMatches(s.requests[r])
    requires (k in s1.inflight <==> k in s.inflight) && (k in s.inflight ==> s1.inflight[k] == s.inflight[k])
    requires (k in s1.rows <==> k in s.rows) && (k in s.rows ==> s1.rows[k] == s.rows[k])
    requires forall l: Lock :: l.key == k && l in s.holders ==> l in s1.holders && s1.holders[l] == s.holders[l]
    requires SuccessesOf(s1.successes, k) == SuccessesOf(s.successes, k)
    ensures RequestInv(s1, k, r)
  {
    hide SuccessesOf;
  }

  /** While `k` is not cached, all its requests that hold a lock object hold the one in the map: at most one. */
  lemma {:induction false} OneInside(s: State, k: Key, r: nat, u: nat)
    requires r in s.requests && u in s.requests && s.requests[r].key == k && s.requests[u].key == k
    requires RequestInv(s, k, r) && RequestInv(s, k, u) && k !in s.rows
    requires Holds(s.requests[r].pc) && Holds(s.requests[u].pc)
    ensures r == u
  {
  }

  predicate Quiet(s: State, e: Event)
    requires Enabled(s, e)
  {
    OfRequest(e) && !e.HandlerReturns? && !(e.Advances? && s.requests[e.request].pc.Storing?) && !e.StoreFails?
  }

  /** Whoever holds a lock object of an uncached key, short of storing, is the first to get through. */
  lemma {:induction false} NoSuccessBefore(s: State, k: Key, r: nat)
    requires Inv(s, k) && r in s.requests && s.requests[r].key == k && k !in s.rows
    requires Holds(s.requests[r].pc) && !s.requests[r].pc.Storing?
    ensures SuccessesOf(s.successes, k) == []
  {
    hide SuccessesOf, LocksMatch;
    assert RequestInv(s, k, r);
    forall u ensures !Stores(s, k, u) {
      if Stores(s, k, u) {
        assert RequestInv(s, k, u);
        OneInside(s, k, u, r);
      }
    }
  }

  lemma {:induction false} QuietAdvanceMoved(s: State, r: nat, k: Key, ttl: int)
    requires Enabled(s, Advances(r)) && !s.requests[r].pc.Storing? && s.requests[r].key == k
    requires RequestInv(s, k, r) && (k in s.rows ==> s.rows[k].expiresAt > s.now)
    requires s.requests[r].pc.Rechecking? && k !in s.rows ==> SuccessesOf(s.successes, k) == []
    ensures RequestInv(Advance(s, r, ttl), k, r)
  {
    hide SuccessesOf, Local, Next, Raise, Return;
  }

  lemma {:induction false} RaiseMoved(s: State, r: nat, k: Key)
    requires r in s.requests && s.requests[r].key == k && RequestInv(s, k, r) && !s.requests[r].pc.Exiting?
    ensures RequestInv(Raise(s, r), k, r)
  {
    hide SuccessesOf, Local, Next, Advance, Return;
  }

  lemma {:induction false} QuietStepMoved(s: State, e: Event, k: Key, ttl: int)
    requires Enabled(s, e) && Quiet(s, e) && s.requests[e.request].key == k
    requires RequestInv(s, k, e.request) && (k in s.rows ==> s.rows[k].expiresAt > s.now)
    requires s.requests[e.request].pc.Rechecking? && k !in s.rows ==> SuccessesOf(s.successes, k) == []
    ensures RequestInv(Next(s, e, ttl), k, e.request)
  {
    hide SuccessesOf, Local, RequestInv, Advance, Raise;
    if e.Advances? {
      QuietAdvanceMoved(s, e.request, k, ttl);
    } else {
      RaiseMoved(s, e.request, k);
    }
  }

  /** A quiet step is a step of `dispatch` short of storing, or an exception. */
  lemma {:induction false} QuietStepIs(s: State, e: Event, ttl: int)
    requires Enabled(s, e) && Quiet(s, e)
    ensures e.request in s.requests && !s.requests[e.request].pc.Storing?
    ensures Next(s, e, ttl) == if e.Advances? then Advance(s, e.request, ttl) else Raise(s, e.request)
    ensures !e.Advances? ==> !s.requests[e.request].pc.Exiting?
  {
    hide Advance, Raise;
  }

  lemma {:induction false} QuietStepShape(s: State, e: Event, ttl: int)
    requires Enabled(s, e) && Quiet(s, e)
    ensures Next(s, e, ttl).rows == s.rows && Next(s, e, ttl).successes == s.successes && Next(s, e, ttl).now == s.now
    ensures e.request in Next(s, e, ttl).requests
    ensures !Next(s, e, ttl).requests[e.request].pc.Storing? && !s.requests[e.request].pc.Storing?
  {
    QuietStepIs(s, e, ttl);
    hide Next, Local, Quiet;
  }

  lemma {:induction false} AdvanceOther(s: State, r: nat, k: Key, ttl: int, u: nat)
    requires Enabled(s, Advances(r)) && !s.requests[r].pc.Storing? && s.requests[r].key == k
    requires u in s.requests && u != r
    requires RequestInv(s, k, r) && RequestInv(s, k, u)
    ensures RequestInv(Advance(s, r, ttl), k, u)
  {
    hide SuccessesOf, Local, Lookup, Hit;
  }

  lemma {:induction false} RaiseOther(s: State, r: nat, k: Key, u: nat)
    requires r in s.requests && s.requests[r].key == k && u in s.requests && u != r && RequestInv(s, k, u)
    ensures RequestInv(Raise(s, r), k, u)
  {
    hide SuccessesOf, Local, Lookup, Hit;
  }

  /** A quiet step of `r` leaves the other requests of the key as they were. */
  lemma {:induction false} QuietStepOther(s: State, e: Event, k: Key, ttl: int, u: nat)
    requires Enabled(s, e) && Quiet(s, e) && s.requests[e.request].key == k && u != e.request
    requires RequestInv(s, k, e.request) && RequestInv(s, k, u)
    requires u in s.requests
    ensures RequestInv(Next(s, e, ttl), k, u)
  {
    QuietStepIs(s, e, ttl);
    hide Next, RequestInv, Advance, Raise, Quiet;
    if e.Advances? {
      AdvanceOther(s, e.request, k, ttl, u);
    } else {
      RaiseOther(s, e.request, k, u);
    }
  }

  lemma {:induction false} QuietStepKeepsInv(s: State, e: Event, k: Key, ttl: int)
    requires Enabled(s, e) && Inv(s, k) && Quiet(s, e) && s.requests[e.request].key == k
    ensures Inv(Next(s, e, ttl), k)
  {
    var s1 := Next(s, e, ttl);
    assert RequestInv(s, k, e.request);
    if s.requests[e.request].pc.Rechecking? && k !in s.rows {
      NoSuccessBefore(s, k, e.request);
    }
    LocksStayMatched(s, e, ttl);
    QuietStepMoved(s, e, k, ttl);
    QuietStepShape(s, e, ttl);
    StepIsLocal(s, e, ttl);
    hide Next, SuccessesOf, RequestInv, LockMatches, Quiet;
    assert s1.requests.Keys == s.requests.Keys by {
      assert LockMatches(s.requests[e.request]);
    }
    forall u | u in s1.requests ensures RequestInv(s1, k, u) {
      if u != e.request {
        assert RequestInv(s, k, u);
        QuietStepOther(s, e, k, ttl, u);
      }
    }
    assert RowInv(s1, k) by {
      forall r | Stores(s, k, r) ensures Stores(s1, k, r) {
        assert LockMatches(s.requests[e.request]);
        assert s1.requests[r] == s.requests[r];
      }
    }
  }

  lemma {:induction false} ReturnKeepsInv(s: State, r: nat, response: Response, k: Key)
    requires Inv(s, k) && Enabled(s, HandlerReturns(r, response)) && s.requests[r].key == k && Cacheable(response)
    ensures Inv(Return(s, r, response), k)
  {
    var s1 := Return(s, r, response);
    assert RequestInv(s, k, r);
    LocksStayMatched(s, HandlerReturns(r, response), 0);
    SuccessesAppend(s.successes, Success(r, k, s.requests[r].route, response), k);
    hide SuccessesOf, Cacheable, Local, LocksMatch;
    forall u | u in s1.requests ensures RequestInv(s1, k, u) {
      assert RequestInv(s, k, u);
      if u != r && u in s.requests && s.requests[u].key == k && Holds(s.requests[u].pc) {
        OneInside(s, k, r, u);
      }
    }
    assert Stores(s1, k, r);
  }

  lemma {:induction false} StoreKeepsInv(s: State, r: nat, k: Key, ttl: int)
    requires Inv(s, k) && r in s.requests && s.requests[r].pc.Storing? && s.requests[r].key == k && ttl > 0
    ensures Inv(Store(s, r, ttl), k)
  {
    var s1 := Store(s, r, ttl);
    assert RequestInv(s, k, r);
    LocksStayMatched(s, Advances(r), ttl);
    hide SuccessesOf, Local, LocksMatch;
    forall u | u in s1.requests ensures RequestInv(s1, k, u) {
      assert RequestInv(s, k, u);
      if u != r && u in s.requests && s.requests[u].key == k && Holds(s.requests[u].pc) {
        OneInside(s, k, r, u);
      }
    }
  }

  lemma {:induction false} OutsideKeepsInv(s: State, e: Event, k: Key, ttl: int)
    requires Inv(s, k) && Enabled(s, e) && !OfRequest(e) && Gentle(s, e, k, Cacheable, ttl)
    ensures Inv(Next(s, e, ttl), k)
  {
    var s1 := Next(s, e, ttl);
    hide SuccessesOf;
    LocksStayMatched(s, e, ttl);
    hide LocksMatch;
    assert forall r :: Stores(s, k, r) ==> Stores(s1, k, r);
    forall u | u in s1.requests ensures RequestInv(s1, k, u) {
      if u in s.requests {
        assert RequestInv(s, k, u);
      }
    }
  }

  lemma {:induction false} StepKeepsInv(s: State, e: Event, k: Key, ttl: int)
    requires Inv(s, k) && Enabled(s, e) && Gentle(s, e, k, Cacheable, ttl)
    ensures Inv(Next(s, e, ttl), k)
  {
    hide Inv, RequestInv, SuccessesOf, Look, TakeNumber, Acquire, Recheck, Release, Exit, Raise;
    if !OfRequest(e) {
      OutsideKeepsInv(s, e, k, ttl);
    } else if s.requests[e.request].key != k {
      ElsewhereKeepsInv(s, e, k, ttl);
    } else if Quiet(s, e) {
      QuietStepKeepsInv(s, e, k, ttl);
    } else if e.HandlerReturns? {
      ReturnKeepsInv(s, e.request, e.response, k);
    } else {
      assert e.Advances? && s.requests[e.request].pc.Storing?;
      assert Next(s, e, ttl) == Store(s, e.request, ttl);
      StoreKeepsInv(s, e.request, k, ttl);
    }
  }

  // ----- runs -----

  ghost predicate Possible(s: State, es: seq<Event>, ttl: int)
    decreases |es|
  {
    es == [] || (Enabled(s, es[0]) && Possible(Next(s, es[0], ttl), es[1..], ttl))
  }

  ghost function Exec(s: State, es: seq<Event>, ttl: int): State
    requires Possible(s, es, ttl)
    decreases |es|
  {
    if es == [] then s else Exec(Next(s, es[0], ttl), es[1..], ttl)
  }

  ghost predicate GentleRun(s: State, es: seq<Event>, k: Key, allowed: Response -> bool, ttl: int)
    requires Possible(s, es, ttl)
    decreases |es|
  {
    es == [] || (Gentle(s, es[0], k, allowed, ttl) && GentleRun(Next(s, es[0], ttl), es[1..], k, allowed, ttl))
  }

  lemma {:induction false} ExecKeepsInv(s: State, es: seq<Event>, k: Key, ttl: int)
    requires Inv(s, k) && Possible(s, es, ttl) && GentleRun(s, es, k, Cacheable, ttl)
    ensures Inv(Exec(s, es, ttl), k)
    decreases |es|
  {
    if es != [] {
      hide Inv, Next, Gentle;
      StepKeepsInv(s, es[0], k, ttl);
      ExecKeepsInv(Next(s, es[0], ttl), es[1..], k, ttl);
    }
  }

  predicate Running(s: State, k: Key, r: nat) {
    r in s.requests && s.requests[r].key == k && (s.requests[r].pc.Handling? || s.requests[r].pc.Storing?)
  }

  /** No two requests of the key are between starting the handler and having stored its response. */
  ghost predicate NoOverlap(s: State, k: Key) {
    forall r, u :: Running(s, k, r) && Running(s, k, u) ==> r == u
  }

  /** A finished request was answered by its own handler run, the only one of the key that returned, or by
      the stored response of that one run, or told that the run was for another route, or got an exception. */
  ghost predicate Answered(s: State, k: Key, r: nat)
    requires r in s.requests && s.requests[r].pc.Done?
  {
    var q := s.requests[r];
    var ran := SuccessesOf(s.successes, k);
    match q.pc.reply
    case Raised => true
    case Fresh(response) => ran == [Success(r, k, q.route, response)]
    case Replay(response) => |ran| == 1 && ran[0].response == response && ran[0].route == q.route
    case RouteMismatch(stored) => |ran| == 1 && ran[0].route == stored && stored != q.route
  }

  /** At most once, over every interleaving of any number of requests with any keys: if for `k` the handler
      only raises or returns a cacheable response, stores succeed and the TTL does not run out, then the
      handler's runs for `k` never overlap, at most one returns, and every finished request of `k` is answered
      from that one, although lock objects leave the map while they are held and awaited. */
  lemma {:induction false} KeyIsServedOnce(es: seq<Event>, k: Key, now: int, ttl: int)
    requires Possible(Start(now), es, ttl) && GentleRun(Start(now), es, k, Cacheable, ttl)
    ensures var s := Exec(Start(now), es, ttl);
            && NoOverlap(s, k)
            && |SuccessesOf(s.successes, k)| <= 1
            && (forall r :: r in s.requests && s.requests[r].key == k && s.requests[r].pc.Done? ==> Answered(s, k, r))
  {
    ExecKeepsInv(Start(now), es, k, ttl);
    var s := Exec(Start(now), es, ttl);
    hide Exec, Possible, GentleRun, SuccessesOf, LocksMatch;
    forall r, u | Running(s, k, r) && Running(s, k, u) ensures r == u {
      assert RequestInv(s, k, r) && RequestInv(s, k, u);
      OneInside(s, k, r, u);
    }
    forall r | r in s.requests && s.requests[r].key == k && s.requests[r].pc.Done? ensures Answered(s, k, r) {
      assert RequestInv(s, k, r);
    }
    if k !in s.rows && exists r :: Stores(s, k, r) {
      var r :| Stores(s, k, r);
      assert RequestInv(s, k, r);
    }
  }

  // ----- why the responses have to be cacheable -----

  lemma {:induction false} ExecAppend(s: State, es: seq<Event>, e: Event, k: Key, allowed: Response -> bool, ttl: int)
    requires Possible(s, es, ttl) && Enabled(Exec(s, es, ttl), e)
    ensures Possible(s, es + [e], ttl) && Exec(s, es + [e], ttl) == Next(Exec(s, es, ttl), e, ttl)
    ensures GentleRun(s, es, k, allowed, ttl) && Gentle(Exec(s, es, ttl), e, k, allowed, ttl) ==>
              GentleRun(s, es + [e], k, allowed, ttl)
    decreases |es|
  {
    hide Next, Gentle;
    if es == [] {
      assert [e][1..] == [] && ([] + [e])[1..] == [];
    } else {
      assert (es + [e])[0] == es[0] && (es + [e])[1..] == es[1..] + [e];
      ExecAppend(Next(s, es[0], ttl), es[1..], e, k, allowed, ttl);
    }
  }

  /** A gentle run so far, the state it leads to, and nothing cached. */
  ghost predicate Reaches(now: int, es: seq<Event>, s: State, k: Key, allowed: Response -> bool, ttl: int) {
    && Possible(Start(now), es, ttl) && Exec(Start(now), es, ttl) == s
    && GentleRun(Start(now), es, k, allowed, ttl)
    && s.rows == map[]
  }

  lemma {:induction false} Continue(now: int, es: seq<Event>, s: State, e: Event, k: Key, allowed: Response -> bool,
                                    ttl: int)
      returns (es1: seq<Event>, s1: State)
    requires Reaches(now, es, s, k, allowed, ttl) && Enabled(s, e) && Next(s, e, ttl).rows == map[]
    requires !e.StoreFails? && (e.HandlerReturns? ==> allowed(e.response))
    ensures s1 == Next(s, e, ttl) && Reaches(now, es1, s1, k, allowed, ttl)
  {
    es1, s1 := es + [e], Next(s, e, ttl);
    ExecAppend(Start(now), es, e, k, allowed, ttl);
  }

  /** A request arrives and misses the cache. */
  lemma {:induction false} Miss(now: int, es: seq<Event>, s: State, r: nat, route: string, k: Key,
                                allowed: Response -> bool, ttl: int)
      returns (es1: seq<Event>, s1: State)
    requires Reaches(now, es, s, k, allowed, ttl) && r !in s.requests
    ensures Reaches(now, es1, s1, k, allowed, ttl)
    ensures s1 == s.(requests := s.requests[r := Request(k, route, Locking)])
  {
    EmptyRows(now, es, s, k, allowed, ttl);
    hide Reaches, Local;
    es1, s1 := Continue(now, es, s, Arrives(r, k, route), k, allowed, ttl);
    EmptyRows(now, es1, s1, k, allowed, ttl);
    es1, s1 := Continue(now, es1, s1, Advances(r), k, allowed, ttl);
  }

  /** A request arrives, misses the cache and queues for a lock object. */
  lemma {:induction false} Queue(now: int, es: seq<Event>, s: State, r: nat, route: string, k: Key,
                                 allowed: Response -> bool, ttl: int)
      returns (es1: seq<Event>, s1: State)
    requires Reaches(now, es, s, k, allowed, ttl) && r !in s.requests
    ensures Reaches(now, es1, s1, k, allowed, ttl)
    ensures var lock := if k in s.inflight then s.inflight[k] else Lock(k, s.nextLock);
            s1 == s.(requests := s.requests[r := Request(k, route, Waiting(lock))], inflight := s.inflight[k := lock],
                     nextLock := if k in s.inflight then s.nextLock else s.nextLock + 1)
  {
    es1, s1 := Miss(now, es, s, r, route, k, allowed, ttl);
    EmptyRows(now, es1, s1, k, allowed, ttl);
    hide Reaches, Local;
    assert Enabled(s1, Advances(r)) && Next(s1, Advances(r), ttl) == TakeNumber(s1, r);
    TakeNumberIs(s1, r);
    hide Next, Enabled, TakeNumber;
    es1, s1 := Continue(now, es1, s1, Advances(r), k, allowed, ttl);
  }

  lemma {:induction false} TakeNumberIs(s: State, r: nat)
    requires r in s.requests
    ensures var key := s.requests[r].key;
            var lock := if key in s.inflight then s.inflight[key] else Lock(key, s.nextLock);
            TakeNumber(s, r) == s.(requests := s.requests[r := s.requests[r].(pc := Waiting(lock))],
                                   inflight := s.inflight[key := lock],
                                   nextLock := if key in s.inflight then s.nextLock else s.nextLock + 1)
  {
    hide Local;
    var key := s.requests[r].key;
    assert key in s.inflight ==> s.inflight == s.inflight[key := s.inflight[key]];
  }

  lemma {:induction false} EmptyRows(now: int, es: seq<Event>, s: State, k: Key, allowed: Response -> bool, ttl: int)
    requires Reaches(now, es, s, k, allowed, ttl)
    ensures s.rows == map[]
  {
  }

  /** A queued request whose lock object is free gets through to the handler. */
  lemma {:induction false} GetIn(now: int, es: seq<Event>, s: State, r: nat, k: Key, allowed: Response -> bool,
                                 ttl: int)
      returns (es1: seq<Event>, s1: State)
    requires Reaches(now, es, s, k, allowed, ttl) && r in s.requests && s.requests[r].pc.Waiting?
    requires s.requests[r].pc.lock !in s.holders
    ensures Reaches(now, es1, s1, k, allowed, ttl)
    ensures var lock := s.requests[r].pc.lock;
            s1 == s.(requests := s.requests[r := s.requests[r].(pc := Handling(lock))], holders := s.holders[lock := r])
  {
    EmptyRows(now, es, s, k, allowed, ttl);
    hide Reaches, Local;
    es1, s1 := Continue(now, es, s, Advances(r), k, allowed, ttl);
    EmptyRows(now, es1, s1, k, allowed, ttl);
    es1, s1 := Continue(now, es1, s1, Advances(r), k, allowed, ttl);
  }

  /** The handler returns a response that is not cached, and the lock object leaves the map, still held. */
  lemma {:induction false} Drop(now: int, es: seq<Event>, s: State, r: nat, response: Response, k: Key,
                                allowed: Response -> bool, ttl: int)
      returns (es1: seq<Event>, s1: State)
    requires Reaches(now, es, s, k, allowed, ttl)
    requires r in s.requests && s.requests[r].pc.Handling? && s.requests[r].key == k
    requires allowed(response) && !Cacheable(response)
    ensures Reaches(now, es1, s1, k, allowed, ttl)
    ensures s1 == s.(requests := s.requests[r := s.requests[r].(pc := Exiting(s.requests[r].pc.lock, Fresh(response)))],
                     inflight := s.inflight - {k},
                     successes := s.successes + [Success(r, k, s.requests[r].route, response)])
  {
    EmptyRows(now, es, s, k, allowed, ttl);
    hide Reaches, Local, Cacheable;
    es1, s1 := Continue(now, es, s, HandlerReturns(r, response), k, allowed, ttl);
    EmptyRows(now, es1, s1, k, allowed, ttl);
    es1, s1 := Continue(now, es1, s1, Advances(r), k, allowed, ttl);
  }

  lemma {:induction false} Leave(now: int, es: seq<Event>, s: State, r: nat, k: Key, allowed: Response -> bool,
                                 ttl: int)
      returns (es1: seq<Event>, s1: State)
    requires Reaches(now, es, s, k, allowed, ttl) && r in s.requests && s.requests[r].pc.Exiting?
    ensures Reaches(now, es1, s1, k, allowed, ttl)
    ensures s1 == s.(requests := s.requests[r := s.requests[r].(pc := Done(s.requests[r].pc.reply))],
                     holders := s.holders - {s.requests[r].pc.lock})
  {
    EmptyRows(now, es, s, k, allowed, ttl);
    hide Reaches, Local;
    es1, s1 := Continue(now, es, s, Advances(r), k, allowed, ttl);
  }

  /** The first request runs while a second waits on its lock object; then its response, not cached, drops that
      object from the map. */
  lemma {:induction false} DropWhileAwaited(response: Response, k: Key, allowed: Response -> bool, now: int, ttl: int)
      returns (es: seq<Event>, s: State)
    requires allowed(response) && !Cacheable(response)
    ensures Reaches(now, es, s, k, allowed, ttl)
    ensures s.requests == map[0 := Request(k, "", Exiting(Lock(k, 0), Fresh(response))),
                              1 := Request(k, "", Waiting(Lock(k, 0)))]
    ensures s.inflight == map[] && s.nextLock == 1 && s.holders == map[Lock(k, 0) := 0]
  {
    s := Start(now);
    es := [];
    assert Reaches(now, es, s, k, allowed, ttl);
    hide Reaches, Exec, Possible, GentleRun, Cacheable;
    es, s := Queue(now, es, s, 0, "", k, allowed, ttl);
    es, s := GetIn(now, es, s, 0, k, allowed, ttl);
    es, s := Queue(now, es, s, 1, "", k, allowed, ttl);
    assert s.requests[0].pc == Handling(Lock(k, 0));
    es, s := Drop(now, es, s, 0, response, k, allowed, ttl);
  }

  /** One response that is not cached is enough: a waiter on the dropped lock object and a newcomer on a fresh
      one run the handler at the same time. */
  lemma {:induction false} UncacheableOverlaps(response: Response, k: Key, allowed: Response -> bool, now: int,
                                               ttl: int)
      returns (es: seq<Event>)
    requires allowed(response) && !Cacheable(response)
    ensures Possible(Start(now), es, ttl) && GentleRun(Start(now), es, k, allowed, ttl)
    ensures !NoOverlap(Exec(Start(now), es, ttl), k)
  {
    hide Reaches, Exec, Possible, GentleRun, Cacheable;
    var s;
    es, s := DropWhileAwaited(response, k, allowed, now, ttl);
    es, s := Queue(now, es, s, 2, "", k, allowed, ttl);
    assert s.requests[2].pc == Waiting(Lock(k, 1));
    es, s := GetIn(now, es, s, 2, k, allowed, ttl);
    es, s := Leave(now, es, s, 0, k, allowed, ttl);
    assert Lock(k, 0) !in s.holders && s.requests[1].pc == Waiting(Lock(k, 0));
    es, s := GetIn(now, es, s, 1, k, allowed, ttl);
    assert Running(s, k, 1) && Running(s, k, 2);
    Arrived(now, es, s, k, allowed, ttl);
  }

  lemma {:induction false} Arrived(now: int, es: seq<Event>, s: State, k: Key, allowed: Response -> bool, ttl: int)
    requires Reaches(now, es, s, k, allowed, ttl)
    ensures Possible(Start(now), es, ttl) && Exec(Start(now), es, ttl) == s
    ensures GentleRun(Start(now), es, k, allowed, ttl)
  {
  }

  // ----- exclusion alone, without the promise that stores succeed -----

  /** What exclusion needs: the lock part of the invariant. A store that fails keeps the lock object in the map. */
  ghost predicate Excludes(s: State, k: Key, r: nat) {
    r in s.requests && s.requests[r].key == k ==>
      var q := s.requests[r];
      && (Holds(q.pc) ==> q.pc.lock in s.holders && s.holders[q.pc.lock] == r)
      && (HasLock(q.pc) && k !in s.rows ==> k in s.inflight && s.inflight[k] == q.pc.lock)
      && (q.pc.Handling? || q.pc.Storing? ==> k !in s.rows)
      && (q.pc.Releasing? ==> k in s.rows)
  }

  ghost predicate ExclusionInv(s: State, k: Key) {
    && LocksMatch(s)
    && (k in s.rows ==> s.rows[k].expiresAt > s.now)
    && forall r :: r in s.requests ==> Excludes(s, k, r)
  }

  /** The handler raises or returns an `allowed` response, and the stored row does not expire; storing may fail. */
  ghost predicate Lenient(s: State, e: Event, k: Key, allowed: Response -> bool, ttl: int)
    requires Enabled(s, e)
  {
    && (e.HandlerReturns? && s.requests[e.request].key == k ==> allowed(e.response))
    && var s' := Next(s, e, ttl);
       k in s'.rows ==> s'.rows[k].expiresAt > s'.now
  }

  ghost predicate LenientRun(s: State, es: seq<Event>, k: Key, allowed: Response -> bool, ttl: int)
    requires Possible(s, es, ttl)
    decreases |es|
  {
    es == [] || (Lenient(s, es[0], k, allowed, ttl) && LenientRun(Next(s, es[0], ttl), es[1..], k, allowed, ttl))
  }

  lemma {:induction false} OneExcludes(s: State, k: Key, r: nat, u: nat)
    requires r in s.requests && u in s.requests && s.requests[r].key == k && s.requests[u].key == k
    requires Excludes(s, k, r) && Excludes(s, k, u) && k !in s.rows
    requires Holds(s.requests[r].pc) && Holds(s.requests[u].pc)
    ensures r == u
  {
  }

  lemma {:induction false} AdvanceExcludes(s: State, r: nat, k: Key, ttl: int)
    requires Enabled(s, Advances(r)) && s.requests[r].key == k && Excludes(s, k, r)
    requires k in s.rows ==> s.rows[k].expiresAt > s.now
    ensures Excludes(Advance(s, r, ttl), k, r)
  {
    hide Local, Next, Raise, Return;
  }

  lemma {:induction false} AdvanceExcludesOther(s: State, r: nat, k: Key, ttl: int, u: nat)
    requires Enabled(s, Advances(r)) && s.requests[r].key == k && u in s.requests && u != r
    requires Excludes(s, k, r) && Excludes(s, k, u)
    ensures Excludes(Advance(s, r, ttl), k, u)
  {
    if s.requests[r].pc.Storing? && s.requests[u].key == k && Holds(s.requests[u].pc) {
      OneExcludes(s, k, r, u);
    }
    hide Local, Next, Raise, Return, Lookup, Hit;
  }

  lemma {:induction false} RaiseExcludes(s: State, r: nat, k: Key, u: nat)
    requires r in s.requests && s.requests[r].key == k && u in s.requests && Excludes(s, k, u)
    requires !s.requests[r].pc.Exiting?
    ensures Excludes(Raise(s, r), k, u)
  {
    hide Local, Next, Advance, Return;
  }

  lemma {:induction false} ReturnExcludes(s: State, r: nat, response: Response, k: Key, u: nat)
    requires r in s.requests && s.requests[r].pc.Handling? && s.requests[r].key == k && Cacheable(response)
    requires u in s.requests && Excludes(s, k, u)
    ensures Excludes(Return(s, r, response), k, u)
  {
    hide Local, Next, Advance, Cacheable;
  }

  lemma {:induction false} OwnStepExcludes(s: State, e: Event, k: Key, ttl: int, u: nat)
    requires Enabled(s, e) && OfRequest(e) && s.requests[e.request].key == k && u in s.requests
    requires Excludes(s, k, e.request) && Excludes(s, k, u) && (k in s.rows ==> s.rows[k].expiresAt > s.now)
    requires e.HandlerReturns? ==> Cacheable(e.response)
    ensures Excludes(Next(s, e, ttl), k, u)
  {
    hide Advance, Raise, Return, Excludes;
    var r := e.request;
    if e.HandlerReturns? {
      ReturnExcludes(s, r, e.response, k, u);
    } else if !e.Advances? {
      RaiseExcludes(s, r, k, u);
    } else if u == r {
      AdvanceExcludes(s, r, k, ttl);
    } else {
      AdvanceExcludesOther(s, r, k, ttl, u);
    }
  }

  /** A step on another key, */
  lemma {:induction false} ElsewhereExcludes(s: State, e: Event, k: Key, ttl: int, u: nat)
    requires Enabled(s, e) && OfRequest(e) && s.requests[e.request].key != k && LocksMatch(s)
    requires u in s.requests && Excludes(s, k, u)
    ensures Excludes(Next(s, e, ttl), k, u)
  {
    StepIsLocal(s, e, ttl);
    assert LockMatches(s.requests[e.request]) && LockMatches(s.requests[u]);
    hide Next, LockMatches;
    assert OnlyTouches(s, Next(s, e, ttl), e.request, s.requests[e.request].key);
  }

  /** or of the clock, a purge, or an arrival. */
  lemma {:induction false} OutsideExcludes(s: State, e: Event, k: Key, ttl: int, u: nat)
    requires Enabled(s, e) && !OfRequest(e) && u in s.requests && Excludes(s, k, u)
    requires k in s.rows ==> s.rows[k].expiresAt > s.now
    ensures Excludes(Next(s, e, ttl), k, u)
  {
  }

  lemma {:induction false} StepExcludes(s: State, e: Event, k: Key, ttl: int)
    requires ExclusionInv(s, k) && Enabled(s, e) && Lenient(s, e, k, Cacheable, ttl)
    ensures ExclusionInv(Next(s, e, ttl), k)
  {
    var s1 := Next(s, e, ttl);
    LocksStayMatched(s, e, ttl);
    RequestsAfter(s, e, ttl);
    assert OfRequest(e) ==> Excludes(s, k, e.request);
    hide Excludes, Advance, Raise, Return, LocksMatch, Cacheable;
    forall u | u in s1.requests ensures Excludes(s1, k, u) {
      if u !in s.requests {
        NewcomerExcludes(s, e, k, ttl, u);
      } else if !OfRequest(e) {
        OutsideExcludes(s, e, k, ttl, u);
      } else if s.requests[e.request].key != k {
        ElsewhereExcludes(s, e, k, ttl, u);
      } else {
        OwnStepExcludes(s, e, k, ttl, u);
      }
    }
  }

  lemma {:induction false} RequestsAfter(s: State, e: Event, ttl: int)
    requires Enabled(s, e) && LocksMatch(s)
    ensures OfRequest(e) ==> e.request in s.requests && Next(s, e, ttl).requests.Keys == s.requests.Keys
    ensures !OfRequest(e) ==> Next(s, e, ttl).requests.Keys == s.requests.Keys + if e.Arrives? then {e.request} else {}
  {
    if OfRequest(e) {
      StepIsLocal(s, e, ttl);
      assert LockMatches(s.requests[e.request]);
      hide Next, LockMatches;
    }
  }

  lemma {:induction false} NewcomerExcludes(s: State, e: Event, k: Key, ttl: int, u: nat)
    requires Enabled(s, e) && e.Arrives? && u == e.request
    ensures Excludes(Next(s, e, ttl), k, u)
  {
  }

  lemma {:induction false} ExecExcludes(s: State, es: seq<Event>, k: Key, ttl: int)
    requires ExclusionInv(s, k) && Possible(s, es, ttl) && LenientRun(s, es, k, Cacheable, ttl)
    ensures ExclusionInv(Exec(s, es, ttl), k)
    decreases |es|
  {
    if es != [] {
      hide ExclusionInv, Next, Lenient;
      StepExcludes(s, es[0], k, ttl);
      ExecExcludes(Next(s, es[0], ttl), es[1..], k, ttl);
    }
  }

  ghost predicate NeverOverlaps(k: Key, allowed: Response -> bool, now: int, ttl: int) {
    forall es :: (Possible(Start(now), es, ttl) && LenientRun(Start(now), es, k, allowed, ttl)) ==>
                   NoOverlap(Exec(Start(now), es, ttl), k)
  }

  lemma {:induction false} CacheableNeverOverlaps(es: seq<Event>, k: Key, now: int, ttl: int)
    requires Possible(Start(now), es, ttl) && LenientRun(Start(now), es, k, Cacheable, ttl)
    ensures NoOverlap(Exec(Start(now), es, ttl), k)
  {
    ExecExcludes(Start(now), es, k, ttl);
    var s := Exec(Start(now), es, ttl);
    hide Exec, Possible, LenientRun, LocksMatch;
    forall r, u | Running(s, k, r) && Running(s, k, u) ensures r == u {
      assert Excludes(s, k, r) && Excludes(s, k, u);
      OneExcludes(s, k, r, u);
    }
  }

  /** The exact condition: handlers that return only `allowed` responses for a key never overlap, in any run
      within the TTL and whether or not stores succeed, if and only if every such response is cacheable. */
  lemma {:induction false} NeverOverlapsIffCacheable(k: Key, allowed: Response -> bool, now: int, ttl: int)
    ensures NeverOverlaps(k, allowed, now, ttl) <==> (forall response :: allowed(response) ==> Cacheable(response))
  {
    hide Exec, Possible, GentleRun, NoOverlap, Cacheable;
    if forall response :: allowed(response) ==> Cacheable(response) {
      forall es | Possible(Start(now), es, ttl) && LenientRun(Start(now), es, k, allowed, ttl)
        ensures NoOverlap(Exec(Start(now), es, ttl), k)
      {
        LenientWeakens(Start(now), es, k, allowed, ttl);
        CacheableNeverOverlaps(es, k, now, ttl);
      }
    } else {
      var response :| allowed(response) && !Cacheable(response);
      var es := UncacheableOverlaps(response, k, allowed, now, ttl);
      GentleIsLenient(Start(now), es, k, allowed, ttl);
    }
  }

  lemma {:induction false} LenientWeakens(s: State, es: seq<Event>, k: Key, allowed: Response -> bool, ttl: int)
    requires Possible(s, es, ttl) && LenientRun(s, es, k, allowed, ttl)
    requires forall response :: allowed(response) ==> Cacheable(response)
    ensures LenientRun(s, es, k, Cacheable, ttl)
    decreases |es|
  {
    if es != [] {
      hide Next, Cacheable;
      LenientWeakens(Next(s, es[0], ttl), es[1..], k, allowed, ttl);
    }
  }

  lemma {:induction false} GentleIsLenient(s: State, es: seq<Event>, k: Key, allowed: Response -> bool, ttl: int)
    requires Possible(s, es, ttl) && GentleRun(s, es, k, allowed, ttl)
    ensures LenientRun(s, es, k, allowed, ttl)
    decreases |es|
  {
    if es != [] {
      hide Next;
      GentleIsLenient(Next(s, es[0], ttl), es[1..], k, allowed, ttl);
    }
  }
}
