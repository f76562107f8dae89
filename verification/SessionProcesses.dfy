/** Sessions and their processes together, one operation at a time: what the destroy hook is for. */
module SessionProcesses {
  import opened Wrappers
  import opened Registry
  import opened SessionEffects
  import opened SessionRuns
  import Processes

  datatype System = System(sessions: World, processes: Processes.Table)

  /** A session operation, with what becomes of the hook if it destroys; a process start, admitted by its cap; or
      any other process write. */
  datatype Event =
    | Operates(op: Op, oracle: Oracle, hookOk: bool, clock: string -> int)
    | Starts(id: string, row: Processes.ProcessRow)
    | Writes(write: Processes.Write)

  /** The operation takes a session through DESTROYING, which is when the hook runs. */
  predicate Destroys(op: Op, sid: string, s: Session, o: Oracle) {
    (op.Destroy? || op.ReapDestroy?) && op.sid == sid && EffectOn(op, sid, s, o).trail == [DESTROYING, DESTROYED]
  }

  /** The hook does nothing for a session without a container id, and one that raises is only logged. */
  function Hooked(t: Processes.Table, sid: string, s: Session, hookOk: bool, clock: string -> int): Processes.Table {
    if hookOk && s.row.containerId.Some? then Processes.Reaped(t, sid, clock) else t
  }

  ghost function Step(sys: System, e: Event, cap: int): System {
    match e
    case Operates(op, o, hookOk, clock) =>
      System(Apply(sys.sessions, op, o, cap),
             if (op.Destroy? || op.ReapDestroy?) && op.sid in sys.sessions
                && Destroys(op, op.sid, sys.sessions[op.sid], o)
             then Hooked(sys.processes, op.sid, sys.sessions[op.sid], hookOk, clock) else sys.processes)
    case Starts(id, row) =>
      if row.sessionId in sys.sessions && sys.sessions[row.sessionId].row.status == RUNNING
      then sys.(processes := Processes.Written(sys.processes, Processes.Insert(id, row))) else sys
    case Writes(w) => if w.Insert? then sys else sys.(processes := Processes.Written(sys.processes, w))
  }

  ghost function Run(sys: System, es: seq<Event>, cap: int): System
    decreases |es|
  {
    if es == [] then sys else Run(Step(sys, es[0], cap), es[1..], cap)
  }

  /** No hook of this session raises. */
  ghost predicate HooksSucceed(es: seq<Event>, sid: string) {
    forall i :: 0 <= i < |es| && OfDestroy(es[i], sid) ==> es[i].hookOk
  }

  predicate OfDestroy(e: Event, sid: string) {
    e.Operates? && (e.op.Destroy? || e.op.ReapDestroy?) && e.op.sid == sid
  }

  /** A RUNNING session has a container id, and only a live session with one has running processes. */
  ghost predicate Sound(sys: System, sid: string) {
    && (sid in sys.sessions && sys.sessions[sid].row.status == RUNNING ==> sys.sessions[sid].row.containerId.Some?)
    && (Processes.RunningIds(sys.processes, sid) != {} ==>
          sid in sys.sessions && Live(sys.sessions[sid].row.status) && sys.sessions[sid].row.containerId.Some?)
  }

  lemma {:induction false} EffectKeepsId(op: Op, sid: string, s: Session, o: Oracle)
    requires s.row.status == RUNNING ==> s.row.containerId.Some?
    ensures var e := EffectOn(op, sid, s, o);
            && (e.session.row.status == RUNNING ==> e.session.row.containerId.Some?)
            && (s.row.containerId.Some? ==> e.session.row.containerId.Some?)
            && (Live(s.row.status) && !Live(e.session.row.status) ==> Destroys(op, sid, s, o))
  {
    hide CreateEffect;
  }

  lemma {:induction false} CreateHasId(sid: string, tenant: string, o: Oracle)
    ensures var s := CreateEffect(sid, tenant, o).session; s.row.status == RUNNING ==> s.row.containerId.Some?
  {
    hide Rollback, SessionEffects.Provision;
  }

  lemma {:induction false} ReapedRunsNothing(t: Processes.Table, sid: string, other: string, clock: string -> int)
    ensures Processes.RunningIds(Processes.Reaped(t, sid, clock), sid) == {}
    ensures Processes.RunningIds(Processes.Reaped(t, sid, clock), other) <= Processes.RunningIds(t, other)
  {
  }

  lemma {:induction false} StepKeepsSound(sys: System, e: Event, cap: int, sid: string)
    requires Sound(sys, sid) && HooksSucceed([e], sid)
    ensures Sound(Step(sys, e, cap), sid)
  {
    match e
    case Operates(op, o, hookOk, clock) => OperationKeepsSound(sys, op, o, hookOk, clock, cap, sid);
    case Starts(id, row) =>
      Processes.OnlyInsertsRun(sys.processes, Processes.Insert(id, row), sid);
      hide Processes.RunningIds, Processes.Written;
    case Writes(w) =>
      Processes.OnlyInsertsRun(sys.processes, w, sid);
      hide Processes.RunningIds, Processes.Written;
  }

  lemma {:induction false} OperationKeepsSound(sys: System, op: Op, o: Oracle, hookOk: bool, clock: string -> int,
                                               cap: int, sid: string)
    requires Sound(sys, sid) && HooksSucceed([Operates(op, o, hookOk, clock)], sid)
    ensures Sound(Step(sys, Operates(op, o, hookOk, clock), cap), sid)
  {
    var w := sys.sessions;
    assert [Operates(op, o, hookOk, clock)][0].Operates?;
    if op.Create? {
      CreateHasId(op.sid, op.tenant, o);
    } else if op.Destroy? || op.ReapDestroy? {
      ReapedRunsNothing(sys.processes, op.sid, sid, clock);
    }
    if sid in w {
      EffectKeepsId(op, sid, w[sid], o);
    }
    hide EffectOn, CreateEffect, Processes.RunningIds, Processes.Reaped;
  }

  lemma {:induction false} RunKeepsSound(sys: System, es: seq<Event>, cap: int, sid: string)
    requires Sound(sys, sid) && HooksSucceed(es, sid)
    ensures Sound(Run(sys, es, cap), sid)
    decreases |es|
  {
    if es != [] {
      assert HooksSucceed([es[0]], sid);
      assert HooksSucceed(es[1..], sid) by {
        assert forall i :: 0 <= i < |es[1..]| ==> es[1..][i] == es[i + 1];
      }
      hide Sound, Step;
      StepKeepsSound(sys, es[0], cap, sid);
      RunKeepsSound(Step(sys, es[0], cap), es[1..], cap, sid);
    }
  }

  /** In every serial run, once a session is DESTROYED it has no running process, and never again has one, as long
      as its hook does not raise; nor has a session that never had a container. */
  lemma {:induction false} DestroyedRunsNothing(es: seq<Event>, cap: int, sid: string)
    requires HooksSucceed(es, sid)
    ensures var sys := Run(System(map[], map[]), es, cap);
            sid in sys.sessions ==>
              var row := sys.sessions[sid].row;
              !Live(row.status) || row.containerId == None ==> Processes.RunningIds(sys.processes, sid) == {}
  {
    assert Processes.RunningIds(map[], sid) == {};
    RunKeepsSound(System(map[], map[]), es, cap, sid);
  }

  /** The hook is what does it: a destroy leaves no running process if and only if the hook ran, for a session with
      a container id, or there was none. */
  lemma {:induction false} DestroyLeavesNoProcessIff(sys: System, op: Op, o: Oracle, hookOk: bool,
                                                     clock: string -> int, cap: int)
    requires (op.Destroy? || op.ReapDestroy?) && op.sid in sys.sessions && Destroys(op, op.sid, sys.sessions[op.sid], o)
    ensures var sys1 := Step(sys, Operates(op, o, hookOk, clock), cap);
            && sys1.sessions[op.sid].row.status == DESTROYED
            && (Processes.RunningIds(sys1.processes, op.sid) == {} <==>
                || (hookOk && sys.sessions[op.sid].row.containerId.Some?)
                || Processes.RunningIds(sys.processes, op.sid) == {})
  {
    ReapedRunsNothing(sys.processes, op.sid, op.sid, clock);
    hide Processes.RunningIds, Processes.Reaped;
  }
}
