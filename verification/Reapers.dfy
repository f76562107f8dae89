/** The reaper's sweep (`api/reaper.py`) and the deadlines the API reports (`compute_etas`). */
module Reapers {
  import opened Wrappers
  import opened Registry
  import opened SessionEffects
  import opened SessionRuns
  import opened Sessions

  /** The sweep's settings, in milliseconds. */
  datatype Policy = Policy(idleMs: int, ttlMs: int)

  function PolicyOf(idleStopMinutes: int, hardDestroyHours: int): Policy {
    Policy(idleStopMinutes * 60 * 1000, hardDestroyHours * 60 * 60 * 1000)
  }

  /** What the idle pass does to one session, given how many of its processes are running. */
  function IdlePass(sid: string, s: Session, processes: string -> nat, now: int, p: Policy, o: Oracle): Session {
    if IdleSince(s.row, now - p.idleMs) && processes(sid) == 0 then ReapStopEffect(sid, s, o).session else s
  }

  function ExpiryPass(sid: string, s: Session, now: int, p: Policy, o: Oracle): Session {
    if ExpiredBefore(s.row, now - p.ttlMs) then ReapDestroyEffect(sid, s, o).session else s
  }

  function TickEffect(sid: string, s: Session, processes: string -> nat, now: int, p: Policy, o: Oracle): Session {
    ExpiryPass(sid, IdlePass(sid, s, processes, now, p, o), now, p, o)
  }

  class Reaper {
    const sessions: SessionService
    const policy: Policy

    constructor (sessions: SessionService, idleStopMinutes: int, hardDestroyHours: int)
      ensures this.sessions == sessions && policy == Policy(idleStopMinutes * 60_000, hardDestroyHours * 3_600_000)
    {
      this.sessions, policy := sessions, PolicyOf(idleStopMinutes, hardDestroyHours);
    }

    method StopIdle(now: int, processes: string -> nat, o: Oracle)
      modifies sessions.registry, sessions.docker
      ensures sessions.Sessions() == map sid | sid in old(sessions.Sessions()) ::
                                       IdlePass(sid, old(sessions.Sessions())[sid], processes, now, policy, o)
    {
      hide SessionService.Sessions, SessionService.View, Patched, ReapStopEffect;
      ghost var w := sessions.Sessions();
      ghost var f := (sid: string, s: Session) => IdlePass(sid, s, processes, now, policy, o);
      var ids := sessions.Matching((r: Row) => IdleSince(r, now - policy.idleMs));
      ghost var done: set<string> := {};
      PatchNone(w, f);
      for k := 0 to |ids|
        invariant forall sid :: sid in done <==> sid in ids[..k]
        invariant sessions.Sessions() == Patched(w, done, f)
      {
        var sid := ids[k];
        assert sid in ids && sid !in done;
        PatchOneMore(w, done, sid, f);
        if processes(sid) == 0 {
          ReapStop(sid, o);
        } else {
          assert w[sid] == f(sid, w[sid]);
        }
        done := done + {sid};
      }
      AllPatched(w, done, f);
    }

    method DestroyExpired(now: int, o: Oracle)
      modifies sessions.registry, sessions.docker
      ensures sessions.Sessions() == map sid | sid in old(sessions.Sessions()) ::
                                       ExpiryPass(sid, old(sessions.Sessions())[sid], now, policy, o)
    {
      hide SessionService.Sessions, SessionService.View, Patched, ReapDestroyEffect;
      ghost var w := sessions.Sessions();
      ghost var f := (sid: string, s: Session) => ExpiryPass(sid, s, now, policy, o);
      var ids := sessions.Matching((r: Row) => ExpiredBefore(r, now - policy.ttlMs));
      ghost var done: set<string> := {};
      PatchNone(w, f);
      for k := 0 to |ids|
        invariant forall sid :: sid in done <==> sid in ids[..k]
        invariant sessions.Sessions() == Patched(w, done, f)
      {
        var sid := ids[k];
        assert sid in ids && sid !in done;
        PatchOneMore(w, done, sid, f);
        ReapDestroy(sid, o);
        done := done + {sid};
      }
      AllPatched(w, done, f);
    }

    /** One uninterrupted sweep; an operation that raises is logged and the sweep goes on. */
    method Tick(now: int, processes: string -> nat, o: Oracle)
      modifies sessions.registry, sessions.docker
      ensures sessions.Sessions() == map sid | sid in old(sessions.Sessions()) ::
                                       TickEffect(sid, old(sessions.Sessions())[sid], processes, now, policy, o)
    {
      hide SessionService.Sessions, SessionService.View, IdlePass, ExpiryPass;
      StopIdle(now, processes, o);
      DestroyExpired(now, o);
    }

    method ReapStop(sid: string, o: Oracle)
      requires sid in sessions.Sessions()
      modifies sessions.registry, sessions.docker
      ensures sessions.Sessions() == old(sessions.Sessions())[
                                       sid := ReapStopEffect(sid, old(sessions.Sessions())[sid], o).session]
    {
      var outcome := sessions.ReapStop(sid, o);
    }

    method ReapDestroy(sid: string, o: Oracle)
      requires sid in sessions.Sessions()
      modifies sessions.registry, sessions.docker
      ensures sessions.Sessions() == old(sessions.Sessions())[
                                       sid := ReapDestroyEffect(sid, old(sessions.Sessions())[sid], o).session]
    {
      var outcome := sessions.ReapDestroy(sid, o);
    }

    /** Nothing is left out when `f` leaves the sessions not in `done` alone. */
    static lemma {:induction false} AllPatched(w: World, done: set<string>, f: (string, Session) -> Session)
      requires forall sid :: sid in w && sid !in done ==> f(sid, w[sid]) == w[sid]
      ensures Patched(w, done, f) == map sid | sid in w :: f(sid, w[sid])
    {
    }
  }

  // ----- what a tick comes to -----

  /** With succeeding Docker calls, and RUNNING rows that have a container id: rows created before now minus
      the TTL that are not DESTROYING or DESTROYED end DESTROYED with nothing left behind; other RUNNING or
      IDLE rows without activity since now minus the idle time and without running processes end STOPPED;
      every other session is unchanged. */
  lemma {:induction false} TickPointwise(sid: string, s: Session, processes: string -> nat, now: int, p: Policy,
                                         o: Oracle)
    requires CallsSucceed(o, sid)
    requires Sweepable(s.row.status) ==> s.row.containerId.Some?
    requires s.container != Absent ==> s.row.containerId.Some?
    ensures var s' := TickEffect(sid, s, processes, now, p, o);
            var expired := Live(s.row.status) && s.row.createdAt < now - p.ttlMs;
            var idle := Sweepable(s.row.status) && s.row.lastActivityAt < now - p.idleMs && processes(sid) == 0;
            && (expired ==> s'.row.status == DESTROYED && Clean(s'))
            && (!expired && idle ==>
                  s'.row.status == STOPPED && s'.volume == s.volume
                  && s'.container == if s.container == Absent then Absent else Stopped)
            && (!expired && !idle ==> s' == s)
  {
    assert o.fault(sid, StopContainer) == Fine && o.fault(sid, RemoveContainer) == Fine;
    assert o.fault(sid, QuotaTeardown) == Fine && o.fault(sid, RemoveVolume) == Fine;
  }

  /** The idle pass comes first, for all Docker endings: a session that is idle and expired is stopped and then
      destroyed, so what a failed removal leaves is a stopped container. */
  lemma {:induction false} StoppedBeforeDestroyed(sid: string, s: Session, processes: string -> nat, now: int,
                                                  p: Policy, o: Oracle)
    requires Sweepable(s.row.status) && s.row.containerId.Some?
    requires s.row.lastActivityAt < now - p.idleMs && processes(sid) == 0 && s.row.createdAt < now - p.ttlMs
    requires Took(o.fault(sid, StopContainer))
    ensures var s' := TickEffect(sid, s, processes, now, p, o);
            && s'.row.status == DESTROYED
            && s'.container == if Took(o.fault(sid, RemoveContainer)) || s.container == Absent then Absent else Stopped
  {
  }

  // ----- the deadlines the API reports -----

  function IdleStopAt(r: Row, p: Policy): Option<int> {
    if Sweepable(r.status) then Some(r.lastActivityAt + p.idleMs) else None
  }

  function HardDestroyAt(r: Row, p: Policy): int {
    r.lastActivityAt + p.ttlMs
  }

  ghost predicate HardDeadlinePassed(r: Row, p: Policy, now: int) {
    Live(r.status) && HardDestroyAt(r, p) < now
  }

  /** The reported hard deadline is the moment the sweep takes the row. */
  ghost predicate HardDeadlineIsExact(r: Row, p: Policy) {
    forall now :: HardDeadlinePassed(r, p, now) <==> ExpiredBefore(r, now - p.ttlMs)
  }

  /** At every point of every run: a reported idle deadline has passed exactly when the sweep would take the
      row; a live row whose reported hard deadline has passed is in the sweep's expired list, which holds live rows
      only; and the converse holds at all times if and only if the row has seen no activity since its creation. */
  lemma {:induction false} DeadlinesAreKept(es: seq<Event>, cap: int, start: int, now: int, p: Policy, sid: string)
    requires RunTimed(es, start) && End(es, start) <= now
    requires sid in Run(map[], es, cap)
    ensures var r := Run(map[], es, cap)[sid].row;
            && (IdleStopAt(r, p).Some? <==> r.status == RUNNING)
            && (IdleStopAt(r, p).Some? && IdleStopAt(r, p).value < now <==> IdleSince(r, now - p.idleMs))
            && (HardDeadlinePassed(r, p, now) ==> ExpiredBefore(r, now - p.ttlMs))
            && (ExpiredBefore(r, now - p.ttlMs) ==> r.status !in {DESTROYING, DESTROYED})
            && (Live(r.status) ==> (HardDeadlineIsExact(r, p) <==> r.lastActivityAt == r.createdAt))
  {
    RunKeepsSound(map[], es, cap, start);
    var r := Run(map[], es, cap)[sid].row;
    assert RowSound(r, End(es, start));
    if Live(r.status) && r.createdAt < r.lastActivityAt {
      var between := r.createdAt + p.ttlMs + 1;
      assert ExpiredBefore(r, between - p.ttlMs) && !HardDeadlinePassed(r, p, between);
    }
  }

  /** The reported hard deadline is not a promise: activity moves it, but expiry counts from creation. A
      session used once, just before its TTL is over, is destroyed a whole TTL before the deadline. */
  lemma {:induction false} HardDeadlineIsMissed(p: Policy, start: int, o1: Oracle, o2: Oracle) returns (es: seq<Event>)
    requires p.ttlMs > 0 && CallsSucceed(o1, "s") && o1.auditHealthy
    requires forall sid, st :: o1.clock(sid, st) == start && o2.clock(sid, st) == start + p.ttlMs
    ensures RunTimed(es, start) && End(es, start) == start + p.ttlMs
    ensures var w := Run(map[], es, 1);
            var now := start + p.ttlMs + 1;
            "s" in w && ExpiredBefore(w["s"].row, now - p.ttlMs) && HardDestroyAt(w["s"].row, p) == now + p.ttlMs - 1
  {
    var e1 := Event(Create("s", "t"), o1, start);
    var e2 := Event(Touch("s"), o2, start + p.ttlMs);
    es := [e1, e2];
    assert es[1..] == [e2] && [e2][1..] == [];
    assert Timed(e1, start) && Timed(e2, start) && RunTimed([e2], start);
    var w0: World := map[];
    assert Concurrent(w0, "t") == {};
    assert forall c :: o1.fault("s", c) == Fine;
    FailedCreateLeavesContainerIff("s", "t", o1);
    var w1 := Apply(w0, e1.op, o1, 1);
    assert Run(w0, es, 1) == Run(w1, [e2], 1) == Run(Apply(w1, e2.op, o2, 1), [], 1);
  }
}
