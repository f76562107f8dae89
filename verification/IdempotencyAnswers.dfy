/** What the idempotency middleware answers, told from the events of a run alone. The runs are arbitrary: rows expire
    and are purged, stores fail, requests are cancelled, and handlers return responses that are not cached. */
module IdempotencyAnswers {
  import opened Wrappers
  import opened Idempotency

  // ----- reading a run -----

  predicate Of(e: Event, r: nat) {
    !e.Passes? && !e.Purges? && e.request == r
  }

  /** The last event of request `r`. */
  function LastOf(es: seq<Event>, r: nat): Option<Event>
    decreases |es|
  {
    if es == [] then None
    else if Of(es[|es| - 1], r) then Some(es[|es| - 1])
    else LastOf(es[..|es| - 1], r)
  }

  /** The last event of `r` that is not a step of `dispatch`: its arrival, or what became of it after that. */
  function FateOf(es: seq<Event>, r: nat): Option<Event>
    decreases |es|
  {
    if es == [] then None
    else if Of(es[|es| - 1], r) && !es[|es| - 1].Advances? then Some(es[|es| - 1])
    else FateOf(es[..|es| - 1], r)
  }

  function ArrivalOf(es: seq<Event>, r: nat): Option<Event>
    decreases |es|
  {
    if es == [] then None
    else if Of(es[|es| - 1], r) && es[|es| - 1].Arrives? then Some(es[|es| - 1])
    else ArrivalOf(es[..|es| - 1], r)
  }

  function Clock(es: seq<Event>, start: int): int
    decreases |es|
  {
    if es == [] then start
    else Clock(es[..|es| - 1], start) + if es[|es| - 1].Passes? then es[|es| - 1].ms else 0
  }

  /** A handler has just returned a response with a 2xx status that is not an event stream. */
  predicate MayStore(last: Option<Event>) {
    && last.Some? && last.value.HandlerReturns?
    && 200 <= last.value.response.status <= 299
    && !("text/event-stream" <= last.value.response.contentType)
  }

  /** After `before`, the event `e` stores a response for `k`. */
  predicate StoresFor(before: seq<Event>, e: Event, k: Key) {
    && e.Advances? && MayStore(LastOf(before, e.request))
    && var arrival := ArrivalOf(before, e.request);
       arrival.Some? && arrival.value.Arrives? && arrival.value.key == k
  }

  datatype Stored = Stored(route: string, response: Response, at: int)

  /** The last response stored for `k`, the route it was for, and when. */
  function LastStore(es: seq<Event>, start: int, k: Key): Option<Stored>
    decreases |es|
  {
    if es == [] then None
    else
      var before, e := es[..|es| - 1], es[|es| - 1];
      if StoresFor(before, e, k) then
        Some(Stored(ArrivalOf(before, e.request).value.route, LastOf(before, e.request).value.response,
                    Clock(before, start)))
      else LastStore(before, start, k)
  }

  lemma {:induction false} OneMore(es: seq<Event>, e: Event, r: nat)
    ensures LastOf(es + [e], r) == if Of(e, r) then Some(e) else LastOf(es, r)
    ensures FateOf(es + [e], r) == if Of(e, r) && !e.Advances? then Some(e) else FateOf(es, r)
    ensures ArrivalOf(es + [e], r) == if Of(e, r) && e.Arrives? then Some(e) else ArrivalOf(es, r)
  {
    assert (es + [e])[..|es|] == es;
  }

  lemma {:induction false} OneMoreTick(es: seq<Event>, e: Event, start: int)
    ensures Clock(es + [e], start) == Clock(es, start) + if e.Passes? then e.ms else 0
  {
    assert (es + [e])[..|es|] == es;
  }

  lemma {:induction false} OneMoreStore(es: seq<Event>, e: Event, start: int, k: Key)
    ensures LastStore(es + [e], start, k) ==
            if StoresFor(es, e, k)
            then Some(Stored(ArrivalOf(es, e.request).value.route, LastOf(es, e.request).value.response,
                             Clock(es, start)))
            else LastStore(es, start, k)
  {
    assert (es + [e])[..|es|] == es;
  }

  // ----- the state agrees with it -----

  /** The answer a stored response gives to a request for `route`. */
  predicate Answers(stored: Stored, route: string, reply: Reply) {
    reply == if stored.route == route then Replay(stored.response) else RouteMismatch(stored.route)
  }

  /** At the `n`-th event the request looked, and found a response whose TTL had not run out. */
  predicate FoundAt(es: seq<Event>, n: nat, r: nat, k: Key, route: string, reply: Reply, start: int, ttl: int) {
    && n < |es| && es[n] == Advances(r)
    && var stored := LastStore(es[..n], start, k);
       stored.Some? && Clock(es[..n], start) < stored.value.at + ttl && Answers(stored.value, route, reply)
  }

  /** Some look of the request found the answer it gives. */
  ghost predicate Found(es: seq<Event>, r: nat, k: Key, route: string, reply: Reply, start: int, ttl: int) {
    exists n: nat :: FoundAt(es, n, r, k, route, reply, start, ttl)
  }

  /** The reply follows from what became of the request; one that still has only arrived was answered from the
      cache. */
  predicate ReplyAgrees(reply: Reply, fate: Event) {
    && (fate.Arrives? <==> FromCache(reply))
    && (fate.HandlerReturns? <==> reply.Fresh?)
    && (fate.HandlerReturns? ==> reply.response == fate.response)
  }

  predicate FromCache(reply: Reply) {
    reply.Replay? || reply.RouteMismatch?
  }

  /** Where request `r` stands, given its last event and what became of it. */
  predicate PcAgrees(pc: Pc, r: nat, last: Option<Event>, fate: Option<Event>) {
    && fate.Some?
    && (pc.Storing? <==> MayStore(last))
    && (pc.Storing? ==> last == fate)
    && match pc
       case Storing(_, response) => fate == Some(HandlerReturns(r, response))
       case Releasing(_, response) => fate == Some(HandlerReturns(r, response))
       case Exiting(_, reply) => ReplyAgrees(reply, fate.value)
       case Done(reply) => ReplyAgrees(reply, fate.value)
       case _ => fate.value.Arrives?
  }

  predicate Replies(pc: Pc) {
    pc.Exiting? || pc.Done?
  }

  ghost predicate RequestAgrees(es: seq<Event>, r: nat, q: Request, start: int, ttl: int) {
    && ArrivalOf(es, r) == Some(Arrives(r, q.key, q.route))
    && PcAgrees(q.pc, r, LastOf(es, r), FateOf(es, r))
    && (Replies(q.pc) && FromCache(q.pc.reply) ==> Found(es, r, q.key, q.route, q.pc.reply, start, ttl))
  }

  ghost predicate RowAgrees(s: State, es: seq<Event>, k: Key, start: int, ttl: int) {
    var stored := LastStore(es, start, k);
    && (k in s.rows ==>
          stored.Some? && s.rows[k] == Row(stored.value.route, stored.value.response, stored.value.at + ttl))
    && (stored.Some? && s.now < stored.value.at + ttl ==> k in s.rows)
  }

  ghost predicate Agrees(s: State, es: seq<Event>, start: int, ttl: int) {
    && s.now == Clock(es, start)
    && (forall r :: r in s.requests ==> RequestAgrees(es, r, s.requests[r], start, ttl))
    && (forall r :: r !in s.requests ==> LastOf(es, r) == None)
    && (forall k :: RowAgrees(s, es, k, start, ttl))
  }

  lemma {:induction false} StillFound(es: seq<Event>, e: Event, r: nat, k: Key, route: string, reply: Reply, start: int,
                                      ttl: int)
    requires Found(es, r, k, route, reply, start, ttl)
    ensures Found(es + [e], r, k, route, reply, start, ttl)
  {
    var n: nat :| FoundAt(es, n, r, k, route, reply, start, ttl);
    assert (es + [e])[..n] == es[..n];
    assert FoundAt(es + [e], n, r, k, route, reply, start, ttl);
  }

  lemma {:induction false} OtherRequestAgrees(es: seq<Event>, e: Event, r: nat, q: Request, start: int, ttl: int)
    requires RequestAgrees(es, r, q, start, ttl) && !Of(e, r)
    ensures RequestAgrees(es + [e], r, q, start, ttl)
  {
    OneMore(es, e, r);
    hide LastOf, FateOf, ArrivalOf, Found, PcAgrees;
    if Replies(q.pc) && FromCache(q.pc.reply) {
      StillFound(es, e, r, q.key, q.route, q.pc.reply, start, ttl);
    }
  }

  /** Looking something up finds a response exactly when the last one stored has not expired. */
  lemma {:induction false} LookupAgrees(s: State, es: seq<Event>, k: Key, start: int, ttl: int)
    requires RowAgrees(s, es, k, start, ttl)
    ensures var stored, found := LastStore(es, start, k), Lookup(s.rows, k, s.now);
            && (found.Some? <==> stored.Some? && s.now < stored.value.at + ttl)
            && (found.Some? ==> forall route :: Answers(stored.value, route, Hit(found.value, route)))
  {
  }

  lemma {:induction false} OthersStay(s: State, e: Event, ttl: int)
    requires Enabled(s, e)
    ensures OfRequest(e) ==> e.request in Next(s, e, ttl).requests
    ensures forall r :: (e.Passes? || e.Purges? || r != e.request) ==>
              (r in Next(s, e, ttl).requests <==> r in s.requests)
              && (r in s.requests ==> Next(s, e, ttl).requests[r] == s.requests[r])
  {
    hide Local, Lookup, Hit;
  }

  /** A request that looks: */
  lemma {:induction false} LookedAgrees(s: State, es: seq<Event>, r: nat, start: int, ttl: int)
    requires Agrees(s, es, start, ttl) && Enabled(s, Advances(r))
    requires s.requests[r].pc.Looking? || s.requests[r].pc.Rechecking?
    ensures RequestAgrees(es + [Advances(r)], r, Advance(s, r, ttl).requests[r], start, ttl)
  {
    var e, q := Advances(r), s.requests[r];
    var q1 := Advance(s, r, ttl).requests[r];
    assert q1 == (if q.pc.Looking? then Look(s, r) else Recheck(s, r)).requests[r];
    assert RequestAgrees(es, r, q, start, ttl) && RowAgrees(s, es, q.key, start, ttl);
    LookupAgrees(s, es, q.key, start, ttl);
    OneMore(es, e, r);
    hide LastOf, FateOf, ArrivalOf, LastStore, Lookup, Clock, Answers, Local, Advance, RowAgrees;
    if Replies(q1.pc) {
      assert (es + [e])[..|es|] == es;
      assert FoundAt(es + [e], |es|, r, q1.key, q1.route, q1.pc.reply, start, ttl);
    }
  }

  /** any other step of `dispatch`: */
  lemma {:induction false} PassesTo(s: State, r: nat, ttl: int)
    requires Enabled(s, Advances(r)) && !s.requests[r].pc.Looking? && !s.requests[r].pc.Rechecking?
    ensures var q, q1 := s.requests[r], Advance(s, r, ttl).requests[r];
            && q1 == q.(pc := q1.pc)
            && (q.pc.Locking? ==> q1.pc.Waiting?)
            && (q.pc.Waiting? ==> q1.pc == Rechecking(q.pc.lock))
            && (q.pc.Storing? ==> q1.pc == Releasing(q.pc.lock, q.pc.response))
            && (q.pc.Releasing? ==> q1.pc == Exiting(q.pc.lock, Fresh(q.pc.response)))
            && (q.pc.Exiting? ==> q1.pc == Done(q.pc.reply))
  {
    var pc := s.requests[r].pc;
    assert Advance(s, r, ttl) == if pc.Locking? then TakeNumber(s, r) else if pc.Waiting? then Acquire(s, r)
                                 else if pc.Storing? then Store(s, r, ttl) else if pc.Releasing? then Release(s, r)
                                 else Exit(s, r);
    hide Advance, Local, Look, Recheck, Enabled;
  }

  lemma {:induction false} PassedPc(s: State, r: nat, ttl: int, last: Option<Event>, fate: Option<Event>)
    requires Enabled(s, Advances(r)) && PcAgrees(s.requests[r].pc, r, last, fate)
    requires !s.requests[r].pc.Looking? && !s.requests[r].pc.Rechecking?
    ensures var q, q1 := s.requests[r], Advance(s, r, ttl).requests[r];
            && q1 == q.(pc := q1.pc) && PcAgrees(q1.pc, r, Some(Advances(r)), fate)
            && (Replies(q1.pc) && FromCache(q1.pc.reply) ==> q.pc.Exiting? && q.pc.reply == q1.pc.reply)
  {
    PassesTo(s, r, ttl);
    hide Local, Advance;
  }

  lemma {:induction false} PassedAgrees(s: State, es: seq<Event>, r: nat, start: int, ttl: int)
    requires Enabled(s, Advances(r)) && RequestAgrees(es, r, s.requests[r], start, ttl)
    requires !s.requests[r].pc.Looking? && !s.requests[r].pc.Rechecking?
    ensures RequestAgrees(es + [Advances(r)], r, Advance(s, r, ttl).requests[r], start, ttl)
  {
    var e, q := Advances(r), s.requests[r];
    OneMore(es, e, r);
    PassedPc(s, r, ttl, LastOf(es, r), FateOf(es, r));
    hide LastOf, FateOf, ArrivalOf, Found, Local, Advance, PcAgrees, Enabled;
    if q.pc.Exiting? && FromCache(q.pc.reply) {
      StillFound(es, e, r, q.key, q.route, q.pc.reply, start, ttl);
    }
  }

  /** One that arrives, or whose handler or store ends. */
  lemma {:induction false} StoppedPc(s: State, e: Event, ttl: int, last: Option<Event>, fate: Option<Event>)
    requires Enabled(s, e) && !e.Passes? && !e.Purges? && !e.Advances?
    requires e.request in s.requests ==> PcAgrees(s.requests[e.request].pc, e.request, last, fate)
    ensures e.request in Next(s, e, ttl).requests
    ensures var q1 := Next(s, e, ttl).requests[e.request];
            && PcAgrees(q1.pc, e.request, Some(e), Some(e))
            && (Replies(q1.pc) ==> !FromCache(q1.pc.reply))
            && (if e.Arrives? then q1.key == e.key && q1.route == e.route
                else q1 == s.requests[e.request].(pc := q1.pc))
  {
    hide Local, Lookup, Advance;
  }

  lemma {:induction false} StoppedAgrees(s: State, es: seq<Event>, e: Event, start: int, ttl: int)
    requires Agrees(s, es, start, ttl) && Enabled(s, e) && !e.Passes? && !e.Purges? && !e.Advances?
    ensures e.request in Next(s, e, ttl).requests
    ensures RequestAgrees(es + [e], e.request, Next(s, e, ttl).requests[e.request], start, ttl)
  {
    var r := e.request;
    OneMore(es, e, r);
    assert !e.Arrives? ==> r in s.requests && RequestAgrees(es, r, s.requests[r], start, ttl);
    StoppedPc(s, e, ttl, LastOf(es, r), FateOf(es, r));
    hide LastOf, FateOf, ArrivalOf, Found, PcAgrees, Next, Agrees;
  }

  lemma {:induction false} RowsAfter(s: State, e: Event, ttl: int)
    requires Enabled(s, e) && !e.Purges?
    ensures Next(s, e, ttl).rows == if e.Advances? && s.requests[e.request].pc.Storing?
                                    then Store(s, e.request, ttl).rows else s.rows
    ensures Next(s, e, ttl).now == s.now + if e.Passes? then e.ms else 0
  {
    hide Local, Lookup, Hit;
  }

  /** A stored response, */
  lemma {:induction false} StoredAgrees(s: State, es: seq<Event>, r: nat, k: Key, start: int, ttl: int)
    requires Enabled(s, Advances(r)) && s.requests[r].pc.Storing? && s.now == Clock(es, start)
    requires RequestAgrees(es, r, s.requests[r], start, ttl) && RowAgrees(s, es, k, start, ttl)
    ensures RowAgrees(Store(s, r, ttl), es + [Advances(r)], k, start, ttl)
  {
    OneMoreStore(es, Advances(r), start, k);
    hide LastOf, FateOf, ArrivalOf, LastStore, Clock, Local;
  }

  /** and an event that stores nothing. */
  lemma {:induction false} UnstoredAgrees(s: State, s1: State, es: seq<Event>, e: Event, k: Key, start: int, ttl: int)
    requires RowAgrees(s, es, k, start, ttl) && !StoresFor(es, e, k) && s.now <= s1.now
    requires k in s1.rows ==> k in s.rows && s1.rows[k] == s.rows[k]
    requires k in s.rows && s.rows[k].expiresAt > s1.now ==> k in s1.rows
    ensures RowAgrees(s1, es + [e], k, start, ttl)
  {
    OneMoreStore(es, e, start, k);
    hide LastOf, FateOf, ArrivalOf, LastStore, Clock, StoresFor;
  }

  lemma {:induction false} RowStillAgrees(s: State, es: seq<Event>, e: Event, k: Key, start: int, ttl: int)
    requires Agrees(s, es, start, ttl) && Enabled(s, e)
    ensures RowAgrees(Next(s, e, ttl), es + [e], k, start, ttl)
  {
    var s1 := Next(s, e, ttl);
    assert RowAgrees(s, es, k, start, ttl);
    if e.Purges? {
      assert !StoresFor(es, e, k);
      UnstoredAgrees(s, s1, es, e, k, start, ttl);
    } else {
      RowsAfter(s, e, ttl);
      assert OfRequest(e) ==> RequestAgrees(es, e.request, s.requests[e.request], start, ttl);
      hide Next, LastStore, Local, LastOf, FateOf, ArrivalOf, RowAgrees;
      if e.Advances? && s.requests[e.request].pc.Storing? {
        StoredAgrees(s, es, e.request, k, start, ttl);
        SameRows(Store(s, e.request, ttl), s1, es + [e], k, start, ttl);
      } else {
        assert !StoresFor(es, e, k);
        UnstoredAgrees(s, s1, es, e, k, start, ttl);
      }
    }
  }

  lemma {:induction false} SameRows(s: State, s1: State, es: seq<Event>, k: Key, start: int, ttl: int)
    requires RowAgrees(s, es, k, start, ttl) && s1.rows == s.rows && s1.now == s.now
    ensures RowAgrees(s1, es, k, start, ttl)
  {
  }

  lemma {:induction false} StepAgrees(s: State, es: seq<Event>, e: Event, start: int, ttl: int)
    requires Agrees(s, es, start, ttl) && Enabled(s, e)
    ensures Agrees(Next(s, e, ttl), es + [e], start, ttl)
  {
    var s1 := Next(s, e, ttl);
    OthersStay(s, e, ttl);
    OneMoreTick(es, e, start);
    assert s1.now == s.now + if e.Passes? then e.ms else 0 by {
      if !e.Purges? {
        RowsAfter(s, e, ttl);
      }
    }
    if e.Advances? {
      assert s1 == Advance(s, e.request, ttl);
      if s.requests[e.request].pc.Looking? || s.requests[e.request].pc.Rechecking? {
        LookedAgrees(s, es, e.request, start, ttl);
      } else {
        PassedAgrees(s, es, e.request, start, ttl);
      }
    } else if !e.Passes? && !e.Purges? {
      StoppedAgrees(s, es, e, start, ttl);
    }
    hide Advance, Raise, Return, Local, RowAgrees;
    hide Next, LastOf, Clock, RequestAgrees;
    forall r | r !in s1.requests ensures LastOf(es + [e], r) == None {
      OneMore(es, e, r);
    }
    forall r | r in s1.requests ensures RequestAgrees(es + [e], r, s1.requests[r], start, ttl) {
      if !Of(e, r) {
        OtherRequestAgrees(es, e, r, s.requests[r], start, ttl);
      }
    }
    forall k ensures RowAgrees(s1, es + [e], k, start, ttl) {
      RowStillAgrees(s, es, e, k, start, ttl);
    }
  }

  /** Every state of every run agrees with the events that led to it. */
  lemma {:induction false} ExecAgrees(s: State, past: seq<Event>, es: seq<Event>, start: int, ttl: int)
    requires Agrees(s, past, start, ttl) && Possible(s, es, ttl)
    ensures Agrees(Exec(s, es, ttl), past + es, start, ttl)
    decreases |es|
  {
    if es == [] {
      assert past + es == past;
    } else {
      hide Agrees, Next;
      StepAgrees(s, past, es[0], start, ttl);
      ExecAgrees(Next(s, es[0], ttl), past + [es[0]], es[1..], start, ttl);
      assert past + es == past + [es[0]] + es[1..];
    }
  }

  lemma {:induction false} RunAgrees(es: seq<Event>, start: int, ttl: int)
    requires Possible(Start(start), es, ttl)
    ensures Agrees(Exec(Start(start), es, ttl), es, start, ttl)
  {
    assert Agrees(Start(start), [], start, ttl);
    hide Agrees, Possible, Exec;
    ExecAgrees(Start(start), [], es, start, ttl);
    assert [] + es == es;
  }

  // ----- the theorems -----

  /** Replay while fresh, run again once expired. Over every run, a request that looks, before the lock or under it,
      is answered from the cache if and only if the last 2xx response stored for its key, event streams not counting,
      was stored less than a TTL ago; it is then answered with exactly that response, or told the route it was for.
      Otherwise it goes on to the lock, or to the handler. */
  lemma {:induction false} ReplayedIffFresh(es: seq<Event>, r: nat, start: int, ttl: int)
    requires Possible(Start(start), es, ttl)
    requires var s := Exec(Start(start), es, ttl);
             r in s.requests && (s.requests[r].pc.Looking? || s.requests[r].pc.Rechecking?)
    ensures var s := Exec(Start(start), es, ttl);
            var q, stored := s.requests[r], LastStore(es, start, s.requests[r].key);
            var pc := Next(s, Advances(r), ttl).requests[r].pc;
            && (stored.Some? && Clock(es, start) < stored.value.at + ttl ==>
                  && (if q.pc.Looking? then pc.Done? else pc.Exiting?)
                  && pc.reply == if stored.value.route == q.route then Replay(stored.value.response)
                                 else RouteMismatch(stored.value.route))
            && (stored == None || Clock(es, start) >= stored.value.at + ttl ==>
                  if q.pc.Looking? then pc == Locking else pc == Handling(q.pc.lock))
  {
    RunAgrees(es, start, ttl);
    var s := Exec(Start(start), es, ttl);
    var q := s.requests[r];
    LookupAgrees(s, es, q.key, start, ttl);
    hide Exec, Possible, LastStore, Clock, Lookup, Hit, Local, RequestAgrees;
    assert Enabled(s, Advances(r)) && Next(s, Advances(r), ttl) == if q.pc.Looking? then Look(s, r) else Recheck(s, r);
    hide Next;
    var found := Lookup(s.rows, q.key, s.now);
    assert found.Some? ==> Answers(LastStore(es, start, q.key).value, q.route, Hit(found.value, q.route));
  }

  /** Every answer is explained by the events. A finished request whose handler returned, and which nothing stopped
      after that, answers that response, cached or not; one whose handler raised, whose store failed or which was
      cancelled answers an exception; any other looked, at some event of its own, when a response stored for its key
      had not expired, and answers from that. */
  lemma {:induction false} EveryAnswerIsExplained(es: seq<Event>, r: nat, start: int, ttl: int)
    requires Possible(Start(start), es, ttl)
    requires var s := Exec(Start(start), es, ttl); r in s.requests && s.requests[r].pc.Done?
    ensures var q, fate := Exec(Start(start), es, ttl).requests[r], FateOf(es, r);
            && fate.Some?
            && (fate.value.HandlerReturns? ==> q.pc.reply == Fresh(fate.value.response))
            && (fate.value.HandlerRaises? || fate.value.StoreFails? || fate.value.Cancelled? ==> q.pc.reply == Raised)
            && (fate.value.Arrives? ==> Found(es, r, q.key, q.route, q.pc.reply, start, ttl))
  {
    RunAgrees(es, start, ttl);
    hide Exec, Possible, FateOf, LastOf, ArrivalOf, Found, RowAgrees;
    assert RequestAgrees(es, r, Exec(Start(start), es, ttl).requests[r], start, ttl);
  }

  // ----- locks are given back -----

  /** A lock object is held exactly by the request that is inside with it. */
  ghost predicate HeldIffInside(s: State) {
    && (forall l :: l in s.holders ==>
          var r := s.holders[l]; r in s.requests && Holds(s.requests[r].pc) && s.requests[r].pc.lock == l)
    && (forall r :: r in s.requests && Holds(s.requests[r].pc) ==>
          s.requests[r].pc.lock in s.holders && s.holders[s.requests[r].pc.lock] == r)
  }

  /** One request moves from `pc` to `pc1`, taking its lock object when it goes in and giving it back when it comes
      out. */
  ghost predicate Passage(s: State, s1: State, r: nat, pc1: Pc)
    requires r in s.requests
  {
    var pc := s.requests[r].pc;
    && s1.requests == s.requests[r := s.requests[r].(pc := pc1)]
    && (Holds(pc) && Holds(pc1) ==> pc1.lock == pc.lock && s1.holders == s.holders)
    && (Holds(pc) && !Holds(pc1) ==> s1.holders == s.holders - {pc.lock})
    && (!Holds(pc) && Holds(pc1) ==> pc1.lock !in s.holders && s1.holders == s.holders[pc1.lock := r])
    && (!Holds(pc) && !Holds(pc1) ==> s1.holders == s.holders)
  }

  lemma {:induction false} OutsideIsPassage(s: State, r: nat, ttl: int)
    requires Enabled(s, Advances(r)) && !Holds(s.requests[r].pc)
    ensures var s1 := Advance(s, r, ttl); r in s1.requests && Passage(s, s1, r, s1.requests[r].pc)
  {
    var pc := s.requests[r].pc;
    assert Advance(s, r, ttl) == if pc.Looking? then Look(s, r) else if pc.Locking? then TakeNumber(s, r)
                                 else Acquire(s, r);
    hide Advance, Local, Lookup, Hit, Recheck, Store, Release, Exit;
  }

  lemma {:induction false} InsideIsPassage(s: State, r: nat, ttl: int)
    requires Enabled(s, Advances(r)) && Holds(s.requests[r].pc)
    ensures var s1 := Advance(s, r, ttl); r in s1.requests && Passage(s, s1, r, s1.requests[r].pc)
  {
    var pc := s.requests[r].pc;
    assert Advance(s, r, ttl) == if pc.Rechecking? then Recheck(s, r) else if pc.Storing? then Store(s, r, ttl)
                                 else if pc.Releasing? then Release(s, r) else Exit(s, r);
    hide Advance, Local, Lookup, Hit, Look, TakeNumber, Acquire;
  }

  lemma {:induction false} RaiseIsPassage(s: State, r: nat)
    requires r in s.requests && !s.requests[r].pc.Exiting? && !s.requests[r].pc.Done?
    ensures var s1 := Raise(s, r); r in s1.requests && Passage(s, s1, r, s1.requests[r].pc)
  {
    hide Local;
  }

  lemma {:induction false} PassageKeepsHeld(s: State, s1: State, r: nat, pc1: Pc)
    requires HeldIffInside(s) && r in s.requests && Passage(s, s1, r, pc1)
    ensures HeldIffInside(s1)
  {
    hide Holds;
  }

  lemma {:induction false} StepKeepsHeld(s: State, e: Event, ttl: int)
    requires HeldIffInside(s) && Enabled(s, e)
    ensures HeldIffInside(Next(s, e, ttl))
  {
    var s1 := Next(s, e, ttl);
    if e.Advances? {
      if Holds(s.requests[e.request].pc) {
        InsideIsPassage(s, e.request, ttl);
      } else {
        OutsideIsPassage(s, e.request, ttl);
      }
      PassageKeepsHeld(s, s1, e.request, s1.requests[e.request].pc);
    } else if e.HandlerReturns? {
      assert Passage(s, s1, e.request, s1.requests[e.request].pc);
      PassageKeepsHeld(s, s1, e.request, s1.requests[e.request].pc);
    } else if OfRequest(e) {
      RaiseIsPassage(s, e.request);
      PassageKeepsHeld(s, s1, e.request, s1.requests[e.request].pc);
    }
    hide Local, Advance, Raise, Return, Passage, Cacheable;
  }

  /** In every run, whatever is raised, cancelled or fails to be stored: no lock object stays held once its holder has
      left, and none is held by two requests; so whoever waits can go on when nobody is inside with the same object. */
  lemma {:induction false} LocksAreGivenBack(s: State, es: seq<Event>, ttl: int)
    requires HeldIffInside(s) && Possible(s, es, ttl)
    ensures var s1 := Exec(s, es, ttl);
            && HeldIffInside(s1)
            && forall r :: r in s1.requests && s1.requests[r].pc.Waiting?
                           && (forall u :: u in s1.requests && Holds(s1.requests[u].pc) ==>
                                 s1.requests[u].pc.lock != s1.requests[r].pc.lock) ==>
                             Enabled(s1, Advances(r))
    decreases |es|
  {
    if es != [] {
      hide HeldIffInside, Next, Enabled;
      StepKeepsHeld(s, es[0], ttl);
      LocksAreGivenBack(Next(s, es[0], ttl), es[1..], ttl);
    }
  }
}
