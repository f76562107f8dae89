/** The lifecycle operations of `api/sessions.py` interleaved at every await: a task advances by one
    Docker call, one registry read or one registry write at a time, `transition` included, whose SELECT and
    UPDATE are two steps. Each operation takes the session's lock first, except the resume that exec and
    file operations perform without it. */
module SessionLocks {
  import opened Wrappers
  import opened Registry
  import opened SessionEffects
  import opened SessionRuns

  /** Where a task stands. `row` is the row it fetched, which may be stale. */
  datatype Pc =
    | Entering
    | Waiting
    | Fetching
    | Halting(row: Row)
    | Starting(row: Row)
    | MoveRead(to: Status, clean: bool, row: Row)
    | MoveWrite(to: Status, clean: bool, row: Row)
    | DroppingContainer(row: Row)
    | TearingDownQuota(row: Row)
    | DroppingVolume(row: Row)
    | Leaving(outcome: Outcome)
    | Finished(outcome: Outcome)

  /** A request or sweep step in flight, with the clock readings and Docker endings it will meet. */
  datatype Task = Task(op: Op, oracle: Oracle, lock: Option<nat>, pc: Pc)

  datatype Entry = Entry(task: nat, op: Op, oracle: Oracle, outcome: Outcome)

  /** `locks` is the service's map from session id to lock object; `holders` says who holds an object;
      `history` lists the locked operations in the order they released. */
  datatype State = State(sessions: World, locks: map<string, nat>, nextLock: nat, holders: map<nat, nat>,
                         tasks: map<nat, Task>, history: seq<Entry>)

  datatype Event = Arrives(task: nat, op: Op, oracle: Oracle) | Advances(task: nat)

  predicate Locking(op: Op) {
    op.Stop? || op.Resume? || op.Destroy? || op.ReapStop? || op.ReapDestroy?
  }

  predicate Taskable(op: Op) {
    Locking(op) || op.AutoResume?
  }

  function Start(sessions: World): State {
    State(sessions, map[], 0, map[], map[], [])
  }

  // ----- one task, one session -----

  function FetchPc(op: Op, found: Option<Session>): (pc: Pc)
    requires Taskable(op)
    ensures Working(pc) || (pc.Leaving? && pc.outcome != AuditUnhealthy)
  {
    if found == None then Leaving(if Scoped(op) then SessionNotFound else Ok) else
    var row := found.value.row;
    if Scoped(op) && !VisibleTo(row, op.tenant) then Leaving(SessionNotFound)
    else if op.Stop? || op.ReapStop? then
      if !Sweepable(row.status) then Leaving(if op.Stop? then InvalidState else Ok)
      else if row.containerId == None then Leaving(AssertionFailed)
      else Halting(row)
    else if op.Resume? || op.AutoResume? then
      if op.AutoResume? && row.status == RUNNING then Leaving(Ok)
      else if row.status !in {STOPPED, IDLE} then Leaving(InvalidState)
      else if row.containerId == None then Leaving(AssertionFailed)
      else Starting(row)
    else if op.ReapDestroy? && !Live(row.status) then Leaving(Ok)
    else MoveRead(DESTROYING, true, row)
  }

  /** The pcs between fetching the row and leaving. */
  predicate Working(pc: Pc) {
    !pc.Entering? && !pc.Waiting? && !pc.Fetching? && !pc.Leaving? && !pc.Finished?
  }

  /** One step of the work on an existing session: the new pc and the new session. */
  function Work(sid: string, o: Oracle, pc: Pc, s: Session): (r: (Pc, Session))
    requires Working(pc)
    ensures Working(r.0) || (r.0.Leaving? && r.0.outcome != AuditUnhealthy)
  {
    match pc
    case Halting(row) =>
      var f := o.fault(sid, StopContainer);
      (if f != Fine then Leaving(DockerError) else MoveRead(STOPPED, true, row),
       s.(container := Halted(s.container, f)))
    case Starting(row) =>
      var f := o.fault(sid, StartContainer);
      (if StartRaises(s.container, f) then Leaving(DockerError) else MoveRead(RUNNING, true, row),
       s.(container := Started(s.container, f)))
    case MoveRead(to, clean, row) =>
      (if to in Transitions(s.row.status) then MoveWrite(to, clean, row) else Leaving(InvalidTransition), s)
    case MoveWrite(to, clean, row) =>
      (if to != DESTROYING then Leaving(if clean then Ok else DockerError)
       else if row.containerId.Some? then DroppingContainer(row) else TearingDownQuota(row),
       s.(row := Moved(s.row, to, o.clock(sid, to))))
    case DroppingContainer(row) =>
      var f := o.fault(sid, RemoveContainer);
      (if f != Fine then MoveRead(DESTROYED, false, row) else TearingDownQuota(row),
       s.(container := Removed(s.container, f)))
    case TearingDownQuota(row) =>
      (if o.fault(sid, QuotaTeardown) != Fine then MoveRead(DESTROYED, false, row) else DroppingVolume(row), s)
    case DroppingVolume(row) =>
      var f := o.fault(sid, RemoveVolume);
      (MoveRead(DESTROYED, f == Fine, row), if Took(f) then s.(volume := false) else s)
  }

  function Rank(pc: Pc): nat {
    match pc
    case Halting(_) => 8
    case Starting(_) => 8
    case MoveRead(to, _, _) => if to == DESTROYING then 7 else 2
    case MoveWrite(to, _, _) => if to == DESTROYING then 6 else 1
    case DroppingContainer(_) => 5
    case TearingDownQuota(_) => 4
    case DroppingVolume(_) => 3
    case _ => 0
  }

  /** The work left at `pc`, done without interruption: how the operation ends and what it leaves. */
  function Finish(sid: string, o: Oracle, pc: Pc, s: Session): (r: (Pc, Session))
    requires Working(pc) || pc.Leaving?
    ensures r.0.Leaving?
    decreases Rank(pc)
  {
    if pc.Leaving? then (pc, s)
    else
      var (pc1, s1) := Work(sid, o, pc, s);
      Finish(sid, o, pc1, s1)
  }

  // ----- the whole service -----

  predicate Enabled(s: State, e: Event) {
    match e
    case Arrives(t, op, _) => t !in s.tasks && Taskable(op)
    case Advances(t) =>
      && t in s.tasks
      && Taskable(s.tasks[t].op)
      && !s.tasks[t].pc.Finished?
      && (s.tasks[t].pc.Waiting? ==> s.tasks[t].lock.Some? && s.tasks[t].lock.value !in s.holders)
      && (Working(s.tasks[t].pc) ==> s.tasks[t].op.sid in s.sessions)
  }

  function Goto(s: State, t: nat, pc: Pc): State
    requires t in s.tasks
  {
    s.(tasks := s.tasks[t := s.tasks[t].(pc := pc)])
  }

  /** `_lock_for`: the session's lock object, made if there is none; then queue for it. */
  function LockFor(s: State, t: nat): State
    requires t in s.tasks && Taskable(s.tasks[t].op)
  {
    var sid := s.tasks[t].op.sid;
    var s1 := if sid in s.locks then s else s.(locks := s.locks[sid := s.nextLock], nextLock := s.nextLock + 1);
    s1.(tasks := s.tasks[t := s.tasks[t].(lock := Some(s1.locks[sid]), pc := Waiting)])
  }

  /** Give the lock up and return. */
  function Leave(s: State, t: nat): State
    requires t in s.tasks && s.tasks[t].pc.Leaving?
  {
    var task := s.tasks[t];
    var s1 := Goto(s, t, Finished(task.pc.outcome));
    if task.lock == None then s1
    else s1.(holders := s.holders - {task.lock.value},
             history := s.history + [Entry(t, task.op, task.oracle, task.pc.outcome)])
  }

  function WorkOn(s: State, t: nat): State
    requires t in s.tasks && Working(s.tasks[t].pc) && Taskable(s.tasks[t].op) && s.tasks[t].op.sid in s.sessions
  {
    var task := s.tasks[t];
    var (pc, session) := Work(task.op.sid, task.oracle, task.pc, s.sessions[task.op.sid]);
    Goto(s, t, pc).(sessions := s.sessions[task.op.sid := session])
  }

  function Fetch(s: State, t: nat): State
    requires t in s.tasks && Taskable(s.tasks[t].op)
  {
    var sid := s.tasks[t].op.sid;
    Goto(s, t, FetchPc(s.tasks[t].op, if sid in s.sessions then Some(s.sessions[sid]) else None))
  }

  function Enter(s: State, t: nat): State
    requires t in s.tasks && Taskable(s.tasks[t].op)
  {
    var task := s.tasks[t];
    if Prechecked(task.op) && !task.oracle.auditHealthy then Goto(s, t, Finished(AuditUnhealthy))
    else if Locking(task.op) then LockFor(s, t)
    else Goto(s, t, Fetching)
  }

  function Acquire(s: State, t: nat): State
    requires t in s.tasks && s.tasks[t].lock.Some?
  {
    Goto(s, t, Fetching).(holders := s.holders[s.tasks[t].lock.value := t])
  }

  function Next(s: State, e: Event): State
    requires Enabled(s, e)
  {
    var t := e.task;
    if e.Arrives? then s.(tasks := s.tasks[t := Task(e.op, e.oracle, None, Entering)])
    else
      var pc := s.tasks[t].pc;
      if pc.Entering? then Enter(s, t)
      else if pc.Waiting? then Acquire(s, t)
      else if pc.Fetching? then Fetch(s, t)
      else if pc.Leaving? then Leave(s, t)
      else WorkOn(s, t)
  }

  ghost predicate Possible(s: State, es: seq<Event>)
    decreases |es|
  {
    es == [] || (Enabled(s, es[0]) && Possible(Next(s, es[0]), es[1..]))
  }

  ghost function Exec(s: State, es: seq<Event>): State
    requires Possible(s, es)
    decreases |es|
  {
    if es == [] then s else Exec(Next(s, es[0]), es[1..])
  }

  /** Every operation in the run takes the lock. */
  ghost predicate AllLocking(es: seq<Event>) {
    forall i :: 0 <= i < |es| && es[i].Arrives? ==> Locking(es[i].op)
  }

  /** The session after the operations of `h`, each run on its own by the sequential specification. */
  ghost function Replay(sid: string, s: Session, h: seq<Entry>): Session
    decreases |h|
  {
    if h == [] then s
    else
      var last := h[|h| - 1];
      EffectOn(last.op, sid, Replay(sid, s, h[..|h| - 1]), last.oracle).session
  }

  function MissingOutcome(op: Op): Outcome {
    if Scoped(op) then SessionNotFound else Ok
  }

  ghost predicate Holding(task: Task) {
    task.pc.Fetching? || task.pc.Leaving? || Working(task.pc)
  }

  ghost predicate Free(s: State, sid: string) {
    sid in s.locks ==> s.locks[sid] !in s.holders
  }

  /** The entry's outcome is what its operation returns when run alone after the entries before it. */
  ghost predicate EntryCorrect(init: World, h: seq<Entry>, i: nat)
    requires i < |h| && Taskable(h[i].op)
  {
    var sid := h[i].op.sid;
    h[i].outcome == if sid in init then EffectOn(h[i].op, sid, Replay(sid, init[sid], h[..i]), h[i].oracle).outcome
                    else MissingOutcome(h[i].op)
  }

  /** Lock objects are made fresh, so no two sessions share one. */
  ghost predicate LocksDistinct(s: State) {
    && (forall sid :: sid in s.locks ==> s.locks[sid] < s.nextLock)
    && (forall a, b :: a in s.locks && b in s.locks && a != b ==> s.locks[a] != s.locks[b])
  }

  /** A held lock object is held by a task in its critical section. */
  ghost predicate HolderSound(s: State, l: nat) {
    l in s.holders ==>
      var t := s.holders[l];
      t in s.tasks && Holding(s.tasks[t]) && s.tasks[t].lock == Some(l)
  }

  ghost predicate TaskSound(s: State, t: nat)
    requires t in s.tasks
  {
    var task := s.tasks[t];
    && Locking(task.op)
    && (Prechecked(task.op) && !task.pc.Entering? && !task.pc.Finished? ==> task.oracle.auditHealthy)
    && (task.pc.Waiting? || Holding(task) ==>
          task.lock.Some? && task.op.sid in s.locks && s.locks[task.op.sid] == task.lock.value)
    && (Holding(task) ==> task.lock.value in s.holders && s.holders[task.lock.value] == t)
  }

  /** What a task in its critical section will leave is what its operation does to the replayed session. */
  ghost predicate WorkSound(s: State, init: World, t: nat)
    requires t in s.tasks
  {
    var task := s.tasks[t];
    Holding(task) && Locking(task.op) ==>
      var sid := task.op.sid;
      if sid !in init then task.pc.Fetching? || task.pc == Leaving(MissingOutcome(task.op))
      else
        sid in s.sessions &&
        var base := Replay(sid, init[sid], s.history);
        if task.pc.Fetching? then s.sessions[sid] == base
        else
          var e := EffectOn(task.op, sid, base, task.oracle);
          Finish(sid, task.oracle, task.pc, s.sessions[sid]) == (Leaving(e.outcome), e.session)
  }

  ghost predicate HistorySound(s: State, init: World) {
    forall i :: 0 <= i < |s.history| ==> Locking(s.history[i].op) && EntryCorrect(init, s.history, i)
  }

  ghost predicate Recorded(s: State, t: nat)
    requires t in s.tasks
  {
    s.tasks[t].pc.Finished? && s.tasks[t].pc.outcome != AuditUnhealthy ==>
      exists i :: 0 <= i < |s.history| &&
                  s.history[i] == Entry(t, s.tasks[t].op, s.tasks[t].oracle, s.tasks[t].pc.outcome)
  }

  ghost predicate TaskInv(s: State, init: World, t: nat)
    requires t in s.tasks
  {
    TaskSound(s, t) && WorkSound(s, init, t) && Recorded(s, t)
  }

  ghost predicate Settled(s: State, init: World, sid: string)
    requires sid in init
  {
    Free(s, sid) ==> sid in s.sessions && s.sessions[sid] == Replay(sid, init[sid], s.history)
  }

  ghost predicate Inv(s: State, init: World) {
    && s.sessions.Keys == init.Keys
    && LocksDistinct(s)
    && (forall l :: l in s.holders ==> HolderSound(s, l))
    && (forall t :: t in s.tasks ==> TaskInv(s, init, t))
    && (forall sid :: sid in init ==> Settled(s, init, sid))
    && HistorySound(s, init)
  }

  // ----- the invariant is kept by every step -----

  lemma {:induction false} FinishMove(sid: string, o: Oracle, to: Status, clean: bool, row: Row, s: Session)
    requires to != DESTROYING && to in Transitions(s.row.status)
    ensures var s1 := s.(row := Moved(s.row, to, o.clock(sid, to)));
            Finish(sid, o, MoveRead(to, clean, row), s) == (Leaving(if clean then Ok else DockerError), s1)
  {
    var s1 := s.(row := Moved(s.row, to, o.clock(sid, to)));
    assert Finish(sid, o, MoveRead(to, clean, row), s) == Finish(sid, o, MoveWrite(to, clean, row), s);
    assert Finish(sid, o, MoveWrite(to, clean, row), s)
        == Finish(sid, o, Leaving(if clean then Ok else DockerError), s1);
  }

  lemma {:induction false} FinishVolume(sid: string, o: Oracle, row: Row, s: Session)
    requires s.row.status == DESTROYING
    ensures var f := o.fault(sid, RemoveVolume);
            var s1 := if Took(f) then s.(volume := false) else s;
            var row1 := Moved(s.row, DESTROYED, o.clock(sid, DESTROYED));
            Finish(sid, o, DroppingVolume(row), s) == (Leaving(if f == Fine then Ok else DockerError), s1.(row := row1))
  {
    var (pc, s1) := Work(sid, o, DroppingVolume(row), s);
    FinishMove(sid, o, DESTROYED, pc.clean, row, s1);
  }

  lemma {:induction false} FinishQuota(sid: string, o: Oracle, row: Row, s: Session)
    requires s.row.status == DESTROYING
    ensures o.fault(sid, QuotaTeardown) == Fine ==>
              Finish(sid, o, TearingDownQuota(row), s) == Finish(sid, o, DroppingVolume(row), s)
    ensures o.fault(sid, QuotaTeardown) != Fine ==>
              var row1 := Moved(s.row, DESTROYED, o.clock(sid, DESTROYED));
              Finish(sid, o, TearingDownQuota(row), s) == (Leaving(DockerError), s.(row := row1))
  {
    if o.fault(sid, QuotaTeardown) != Fine {
      FinishMove(sid, o, DESTROYED, false, row, s);
    }
  }

  lemma {:induction false} FinishDestroy(sid: string, o: Oracle, s: Session)
    ensures var e := DestroyLocked(sid, s, o);
            Finish(sid, o, MoveRead(DESTROYING, true, s.row), s) == (Leaving(e.outcome), e.session)
  {
    if Live(s.row.status) {
      var row := s.row;
      var s1 := s.(row := Moved(s.row, DESTROYING, o.clock(sid, DESTROYING)));
      var pc := if row.containerId.Some? then DroppingContainer(row) else TearingDownQuota(row);
      assert Finish(sid, o, MoveRead(DESTROYING, true, row), s)
          == Finish(sid, o, MoveWrite(DESTROYING, true, row), s) == Finish(sid, o, pc, s1);
      var s2 := s1;
      if row.containerId.Some? {
        var f := o.fault(sid, RemoveContainer);
        s2 := s1.(container := Removed(s1.container, f));
        if f != Fine {
          FinishMove(sid, o, DESTROYED, false, row, s2);
        }
      }
      FinishQuota(sid, o, row, s2);
      FinishVolume(sid, o, row, s2);
    }
  }

  /** An operation run step by step without interruption does what its sequential specification says. */
  lemma {:induction false} WorkIsEffect(op: Op, sid: string, s: Session, o: Oracle)
    requires Taskable(op) && op.sid == sid && (Prechecked(op) ==> o.auditHealthy)
    ensures var pc := FetchPc(op, Some(s));
            var e := EffectOn(op, sid, s, o);
            Finish(sid, o, pc, s) == (Leaving(e.outcome), e.session)
  {
    hide DestroyLocked;
    var pc := FetchPc(op, Some(s));
    if pc.Halting? {
      var (pc1, s1) := Work(sid, o, pc, s);
      if pc1.MoveRead? {
        FinishMove(sid, o, STOPPED, true, s.row, s1);
      }
    } else if pc.Starting? {
      var (pc1, s1) := Work(sid, o, pc, s);
      if pc1.MoveRead? {
        FinishMove(sid, o, RUNNING, true, s.row, s1);
      }
    } else if pc.MoveRead? {
      FinishDestroy(sid, o, s);
    }
  }

  lemma {:induction false} ReplayAppend(sid: string, s: Session, h: seq<Entry>, last: Entry)
    ensures Replay(sid, s, h + [last]) == EffectOn(last.op, sid, Replay(sid, s, h), last.oracle).session
  {
    assert (h + [last])[..|h|] == h;
  }

  lemma {:induction false} LocksStayDistinct(s: State, e: Event)
    requires Enabled(s, e) && LocksDistinct(s)
    ensures LocksDistinct(Next(s, e))
  {
    hide Work, FetchPc;
  }

  lemma {:induction false} HolderKept(s: State, e: Event, l: nat)
    requires Enabled(s, e) && (e.Advances? ==> TaskSound(s, e.task)) && (l in s.holders ==> HolderSound(s, l))
    ensures HolderSound(Next(s, e), l)
  {
    hide Work, FetchPc;
  }

  lemma {:induction false} MovedTaskSound(s: State, e: Event)
    requires Enabled(s, e) && if e.Arrives? then Locking(e.op) else TaskSound(s, e.task)
    ensures TaskSound(Next(s, e), e.task)
  {
    hide Work, FetchPc;
  }

  lemma {:induction false} MovedWorkSound(s: State, e: Event, init: World)
    requires Enabled(s, e) && s.sessions.Keys == init.Keys
    requires e.Advances? ==> TaskInv(s, init, e.task)
    requires e.Advances? && s.tasks[e.task].op.sid in init ==> Settled(s, init, s.tasks[e.task].op.sid)
    ensures WorkSound(Next(s, e), init, e.task)
  {
    if e.Advances? {
      var task := s.tasks[e.task];
      var sid := task.op.sid;
      if task.pc.Fetching? && sid in init {
        WorkIsEffect(task.op, sid, s.sessions[sid], task.oracle);
      } else if Working(task.pc) {
        var (pc, session) := Work(sid, task.oracle, task.pc, s.sessions[sid]);
        assert Finish(sid, task.oracle, task.pc, s.sessions[sid]) == Finish(sid, task.oracle, pc, session);
      }
    }
    hide Finish, EffectOn, Replay, Work;
  }

  lemma {:induction false} MovedRecorded(s: State, e: Event, init: World)
    requires Enabled(s, e) && (e.Advances? ==> TaskInv(s, init, e.task))
    ensures Recorded(Next(s, e), e.task)
  {
    hide Work, WorkSound, EffectOn, Replay;
    if e.Advances? && s.tasks[e.task].pc.Leaving? {
      var last := Entry(e.task, s.tasks[e.task].op, s.tasks[e.task].oracle, s.tasks[e.task].pc.outcome);
      assert Next(s, e).history[|s.history|] == last;
    }
  }

  /** No other task is in the critical section of the same session. */
  lemma {:induction false} OthersElsewhere(s: State, t: nat, u: nat)
    requires t in s.tasks && u in s.tasks && t != u && TaskSound(s, t) && TaskSound(s, u)
    requires Holding(s.tasks[t]) && Holding(s.tasks[u])
    ensures s.tasks[t].op.sid != s.tasks[u].op.sid && s.tasks[t].lock != s.tasks[u].lock
  {
  }

  lemma {:induction false} ReplayElsewhere(s: State, e: Event, init: World, sid: string)
    requires Enabled(s, e) && (e.Advances? ==> Locking(s.tasks[e.task].op)) && sid in init
    requires e.Advances? ==> s.tasks[e.task].op.sid != sid
    ensures Replay(sid, init[sid], Next(s, e).history) == Replay(sid, init[sid], s.history)
  {
    var h := Next(s, e).history;
    assert h == s.history || (|h| == |s.history| + 1 && h == s.history + [h[|s.history|]] && Locking(h[|s.history|].op)
                              && h[|s.history|].op.sid != sid);
    hide Next, Enabled, Replay, EffectOn;
    if h != s.history {
      var last := h[|s.history|];
      ReplayAppend(sid, init[sid], s.history, last);
    }
  }

  lemma {:induction false} RecordedKept(s: State, s1: State, u: nat)
    requires u in s.tasks && u in s1.tasks && s1.tasks[u] == s.tasks[u] && s.history <= s1.history && Recorded(s, u)
    ensures Recorded(s1, u)
  {
    var task := s.tasks[u];
    if task.pc.Finished? && task.pc.outcome != AuditUnhealthy {
      var i :| 0 <= i < |s.history| && s.history[i] == Entry(u, task.op, task.oracle, task.pc.outcome);
      assert s1.history[i] == s.history[i];
    }
  }

  lemma {:induction false} OtherTaskSound(s: State, e: Event, u: nat)
    requires Enabled(s, e) && u in s.tasks && u != e.task && TaskSound(s, u)
    requires e.Advances? ==> TaskSound(s, e.task)
    ensures u in Next(s, e).tasks && TaskSound(Next(s, e), u)
  {
    hide Finish, EffectOn, Replay, Work, FetchPc;
    if Holding(s.tasks[u]) && e.Advances? && Holding(s.tasks[e.task]) {
      OthersElsewhere(s, e.task, u);
    }
  }

  lemma {:induction false} OtherWorkSound(s: State, e: Event, init: World, u: nat)
    requires Enabled(s, e) && u in s.tasks && u != e.task && TaskSound(s, u) && WorkSound(s, init, u)
    requires e.Advances? ==> TaskSound(s, e.task)
    ensures u in Next(s, e).tasks && WorkSound(Next(s, e), init, u)
  {
    var s1 := Next(s, e);
    var task := s.tasks[u];
    hide Finish, EffectOn, Replay, Work, FetchPc;
    assert s1.tasks[u] == task;
    if Holding(task) && Locking(task.op) {
      var sid := task.op.sid;
      if e.Advances? && Holding(s.tasks[e.task]) {
        OthersElsewhere(s, e.task, u);
      }
      assert sid in s.sessions ==> sid in s1.sessions && s1.sessions[sid] == s.sessions[sid];
      if sid in init && s1.history != s.history {
        ReplayElsewhere(s, e, init, sid);
      }
      hide Next, Enabled;
    }
  }

  lemma {:induction false} OtherTaskKept(s: State, e: Event, init: World, u: nat)
    requires Enabled(s, e) && u in s.tasks && u != e.task && TaskInv(s, init, u)
    requires e.Advances? ==> TaskInv(s, init, e.task)
    ensures TaskInv(Next(s, e), init, u)
  {
    var s1 := Next(s, e);
    assert s1.tasks[u] == s.tasks[u] && s.history <= s1.history by {
      hide Work, FetchPc, WorkSound, TaskSound, Recorded;
    }
    hide Next, Enabled, TaskSound, WorkSound, Recorded;
    RecordedKept(s, s1, u);
    OtherTaskSound(s, e, u);
    OtherWorkSound(s, e, init, u);
  }

  lemma {:induction false} SettledKept(s: State, e: Event, init: World, sid: string)
    requires Enabled(s, e) && sid in init && Settled(s, init, sid) && s.sessions.Keys == init.Keys && LocksDistinct(s)
    requires e.Advances? ==> TaskInv(s, init, e.task)
    ensures Settled(Next(s, e), init, sid)
  {
    if e.Advances? && s.tasks[e.task].op.sid == sid {
      var task := s.tasks[e.task];
      if task.pc.Leaving? {
        assert Next(s, e).history == s.history + [Entry(e.task, task.op, task.oracle, task.pc.outcome)];
        ReplayAppend(sid, init[sid], s.history, Entry(e.task, task.op, task.oracle, task.pc.outcome));
      }
    } else {
      ReplayElsewhere(s, e, init, sid);
    }
    hide EffectOn, Replay, Work, FetchPc, Recorded;
  }

  lemma {:induction false} HistoryKept(s: State, e: Event, init: World)
    requires Enabled(s, e) && HistorySound(s, init) && (e.Advances? ==> TaskInv(s, init, e.task))
    ensures HistorySound(Next(s, e), init)
  {
    var s1 := Next(s, e);
    forall i | 0 <= i < |s1.history| ensures Locking(s1.history[i].op) && EntryCorrect(init, s1.history, i) {
      if i < |s.history| {
        assert s1.history[..i] == s.history[..i] && s1.history[i] == s.history[i];
        assert EntryCorrect(init, s.history, i);
      } else {
        assert s1.history[..i] == s.history;
      }
    }
  }

  lemma {:induction false} StepShape(s: State, e: Event)
    requires Enabled(s, e)
    ensures Next(s, e).sessions.Keys == s.sessions.Keys && Next(s, e).tasks.Keys == s.tasks.Keys + {e.task}
  {
    hide Work, FetchPc;
    if e.Advances? && s.tasks[e.task].pc.Entering? {
      assert Next(s, e) == Enter(s, e.task);
    } else if e.Advances? && s.tasks[e.task].pc.Leaving? {
      assert Next(s, e) == Leave(s, e.task);
    }
  }

  lemma {:induction false} TasksKept(s: State, e: Event, init: World)
    requires Inv(s, init) && Enabled(s, e) && (e.Arrives? ==> Locking(e.op))
    ensures forall u :: u in Next(s, e).tasks ==> TaskInv(Next(s, e), init, u)
  {
    var s1 := Next(s, e);
    var t := e.task;
    StepShape(s, e);
    hide Next;
    assert e.Advances? ==> TaskInv(s, init, t) && (s.tasks[t].op.sid in init ==> Settled(s, init, s.tasks[t].op.sid));
    MovedTaskSound(s, e);
    MovedWorkSound(s, e, init);
    MovedRecorded(s, e, init);
    forall u | u in s1.tasks ensures TaskInv(s1, init, u) {
      if u != t {
        OtherTaskKept(s, e, init, u);
      }
    }
    hide TaskSound, WorkSound, Recorded, HolderSound, Settled, HistorySound, LocksDistinct;
  }

  lemma {:induction false} StepKeepsInv(s: State, e: Event, init: World)
    requires Inv(s, init) && Enabled(s, e) && (e.Arrives? ==> Locking(e.op))
    ensures Inv(Next(s, e), init)
  {
    hide Next, TaskSound, WorkSound, Recorded, HolderSound, Settled, HistorySound, LocksDistinct;
    var s1 := Next(s, e);
    StepShape(s, e);
    TasksKept(s, e, init);
    assert e.Advances? ==> TaskInv(s, init, e.task);
    LocksStayDistinct(s, e);
    HistoryKept(s, e, init);
    forall l | l in s1.holders ensures HolderSound(s1, l) {
      HolderKept(s, e, l);
    }
    forall sid | sid in init ensures Settled(s1, init, sid) {
      SettledKept(s, e, init, sid);
    }
  }

  // ----- refusals by the audit log -----

  /** A task that met an unhealthy audit log, and checks it, has not started or has ended in the refusal, and no
      other ends that way. */
  ghost predicate AuditSound(task: Task) {
    var refused := Prechecked(task.op) && !task.oracle.auditHealthy;
    && (refused ==> task.pc.Entering? || task.pc == Finished(AuditUnhealthy))
    && (task.pc.Leaving? || task.pc.Finished? ==> (task.pc.outcome == AuditUnhealthy <==> refused))
  }

  ghost predicate AllAuditSound(s: State) {
    forall t :: t in s.tasks ==> AuditSound(s.tasks[t])
  }

  lemma {:induction false} StepKeepsAuditSound(s: State, e: Event)
    requires Enabled(s, e) && AllAuditSound(s)
    ensures AllAuditSound(Next(s, e))
  {
    hide Work, FetchPc;
    StepShape(s, e);
    var s1 := Next(s, e);
    forall t | t in s1.tasks ensures AuditSound(s1.tasks[t]) {
      if t in s.tasks {
        assert AuditSound(s.tasks[t]);
      }
    }
  }

  /** In every interleaving, with or without locks: a finished request was refused by the audit log exactly when it
      checks the log and found it unhealthy; one that is refused has done nothing, not even taken a lock. */
  lemma {:induction false} RefusedIffUnhealthy(s: State, es: seq<Event>)
    requires Possible(s, es) && AllAuditSound(s)
    ensures AllAuditSound(Exec(s, es))
    decreases |es|
  {
    if es != [] {
      hide AllAuditSound, Next;
      StepKeepsAuditSound(s, es[0]);
      RefusedIffUnhealthy(Next(s, es[0]), es[1..]);
    }
  }

  // ----- the theorems -----

  lemma {:induction false} ExecKeepsInv(s: State, es: seq<Event>, init: World)
    requires Inv(s, init) && Possible(s, es) && AllLocking(es)
    ensures Inv(Exec(s, es), init)
    decreases |es|
  {
    if es != [] {
      hide Inv, Next;
      StepKeepsInv(s, es[0], init);
      assert AllLocking(es[1..]) by {
        forall i | 0 <= i < |es[1..]| && es[1..][i].Arrives? ensures Locking(es[1..][i].op) {
          assert es[1..][i] == es[i + 1];
        }
      }
      ExecKeepsInv(Next(s, es[0]), es[1..], init);
    }
  }

  /** Serializability. In every interleaving, whatever Docker does: a session whose lock is free is what the
      operations that released it leave when run one at a time by the sequential specification, in release
      order; each of them returned what it returns when run that way; and every finished request is one of
      them, unless it was refused by the audit log, which happens exactly to those that check it and find it
      unhealthy. */
  lemma {:induction false} LockedOperationsAreSerializable(init: World, es: seq<Event>)
    requires Possible(Start(init), es) && AllLocking(es)
    ensures var s := Exec(Start(init), es);
            && (forall sid :: sid in init && Free(s, sid) ==>
                  sid in s.sessions && s.sessions[sid] == Replay(sid, init[sid], s.history))
            && (forall i :: 0 <= i < |s.history| ==> Locking(s.history[i].op) && EntryCorrect(init, s.history, i))
            && (forall t :: t in s.tasks ==> Recorded(s, t) && AuditSound(s.tasks[t]))
  {
    ExecKeepsInv(Start(init), es, init);
    RefusedIffUnhealthy(Start(init), es);
    var s := Exec(Start(init), es);
    hide Replay, EffectOn, EntryCorrect, Recorded, Exec, Possible;
    forall t | t in s.tasks ensures Recorded(s, t) {
      assert TaskInv(s, init, t);
    }
    forall sid | sid in init && Free(s, sid)
      ensures sid in s.sessions && s.sessions[sid] == Replay(sid, init[sid], s.history)
    {
      assert Settled(s, init, sid);
    }
  }

  /** Row, container and volume agree: what `create` leaves, and what must hold whenever the lock is free. */
  predicate Consistent(s: Session) {
    && s.row.containerId.Some?
    && match s.row.status
       case RUNNING => s.container == Running && s.volume
       case STOPPED => s.container == Stopped && s.volume
       case DESTROYED => s.container == Absent && !s.volume
       case _ => false
  }

  lemma {:induction false} EffectKeepsConsistent(op: Op, sid: string, s: Session, o: Oracle)
    requires Locking(op) && Consistent(s) && CallsSucceed(o, op.sid)
    ensures var e := EffectOn(op, sid, s, o);
            Consistent(e.session) && e.outcome !in {InvalidTransition, AssertionFailed, DockerError}
  {
    assert forall c :: o.fault(op.sid, c) == Fine;
  }

  ghost predicate HistoryCallsSucceed(h: seq<Entry>) {
    forall i :: 0 <= i < |h| ==> Locking(h[i].op) && CallsSucceed(h[i].oracle, h[i].op.sid)
  }

  lemma {:induction false} ReplayKeepsConsistent(sid: string, s: Session, h: seq<Entry>)
    requires Consistent(s) && HistoryCallsSucceed(h)
    ensures Consistent(Replay(sid, s, h))
    decreases |h|
  {
    if h != [] {
      var h' := h[..|h| - 1];
      assert HistoryCallsSucceed(h') by {
        assert forall i :: 0 <= i < |h'| ==> h'[i] == h[i];
      }
      ReplayKeepsConsistent(sid, s, h');
      var last := h[|h| - 1];
      EffectKeepsConsistent(last.op, sid, Replay(sid, s, h'), last.oracle);
    }
  }

  ghost predicate CallsSucceedIn(es: seq<Event>) {
    forall i :: 0 <= i < |es| && es[i].Arrives? ==> Taskable(es[i].op) && CallsSucceed(es[i].oracle, es[i].op.sid)
  }

  ghost predicate Untroubled(s: State) {
    && (forall t :: t in s.tasks ==> Taskable(s.tasks[t].op) && CallsSucceed(s.tasks[t].oracle, s.tasks[t].op.sid))
    && (forall i :: 0 <= i < |s.history| ==>
          Taskable(s.history[i].op) && CallsSucceed(s.history[i].oracle, s.history[i].op.sid))
  }

  lemma {:induction false} StepKeepsUntroubled(s: State, e: Event)
    requires Enabled(s, e) && Untroubled(s)
    requires e.Arrives? ==> CallsSucceed(e.oracle, e.op.sid)
    ensures Untroubled(Next(s, e))
  {
    hide CallsSucceed, Work, FetchPc;
    StepShape(s, e);
    var s1 := Next(s, e);
    forall t | t in s1.tasks ensures Taskable(s1.tasks[t].op) && CallsSucceed(s1.tasks[t].oracle, s1.tasks[t].op.sid) {
      if t in s.tasks {
        assert s1.tasks[t].op == s.tasks[t].op && s1.tasks[t].oracle == s.tasks[t].oracle;
      }
    }
  }

  lemma {:induction false} ExecKeepsUntroubled(s: State, es: seq<Event>)
    requires Possible(s, es) && CallsSucceedIn(es) && Untroubled(s)
    ensures Untroubled(Exec(s, es))
    decreases |es|
  {
    if es != [] {
      hide CallsSucceed, Next;
      StepKeepsUntroubled(s, es[0]);
      assert CallsSucceedIn(es[1..]) by {
        assert forall i :: 0 <= i < |es[1..]| ==> es[1..][i] == es[i + 1];
      }
      ExecKeepsUntroubled(Next(s, es[0]), es[1..]);
    }
  }

  /** Whenever a session's lock is free its row, container and volume agree, so DESTROYING is seen only while
      some task holds the lock; and no operation has ended in a refused transition, a failed assertion or a
      Docker error. */
  ghost predicate Safe(s: State, init: World) {
    && (forall sid :: sid in init && Free(s, sid) ==> sid in s.sessions && Consistent(s.sessions[sid]))
    && (forall t :: t in s.tasks && (s.tasks[t].pc.Leaving? || s.tasks[t].pc.Finished?) ==>
          s.tasks[t].pc.outcome !in {InvalidTransition, AssertionFailed, DockerError})
  }

  ghost predicate AllConsistent(init: World) {
    forall sid :: sid in init ==> Consistent(init[sid])
  }

  /** With succeeding Docker calls, every interleaving of locked operations on sessions whose create has
      returned is safe. */
  lemma {:induction false} LockMakesLifecycleSafe(init: World, es: seq<Event>)
    requires AllConsistent(init)
    requires Possible(Start(init), es) && AllLocking(es) && CallsSucceedIn(es)
    ensures Safe(Exec(Start(init), es), init)
  {
    var s := Exec(Start(init), es);
    ExecKeepsInv(Start(init), es, init);
    ExecKeepsUntroubled(Start(init), es);
    hide Exec, Possible, EffectOn, Replay, CallsSucceed;
    forall sid | sid in init && Free(s, sid) ensures sid in s.sessions && Consistent(s.sessions[sid]) {
      assert Settled(s, init, sid);
      ReplayKeepsConsistent(sid, init[sid], s.history);
    }
    forall t | t in s.tasks && (s.tasks[t].pc.Leaving? || s.tasks[t].pc.Finished?)
      ensures s.tasks[t].pc.outcome !in {InvalidTransition, AssertionFailed, DockerError}
    {
      OutcomeIsOrdinary(s, init, t);
    }
  }

  lemma {:induction false} OutcomeIsOrdinary(s: State, init: World, t: nat)
    requires Inv(s, init) && Untroubled(s) && t in s.tasks && (s.tasks[t].pc.Leaving? || s.tasks[t].pc.Finished?)
    requires forall sid :: sid in init ==> Consistent(init[sid])
    ensures s.tasks[t].pc.outcome !in {InvalidTransition, AssertionFailed, DockerError}
  {
    hide EffectOn, Replay, CallsSucceed;
    var task := s.tasks[t];
    assert TaskInv(s, init, t);
    if task.pc.Leaving? {
      if task.op.sid in init {
        ReplayKeepsConsistent(task.op.sid, init[task.op.sid], s.history);
        EffectKeepsConsistent(task.op, task.op.sid, Replay(task.op.sid, init[task.op.sid], s.history), task.oracle);
      }
    } else if task.pc.outcome != AuditUnhealthy {
      var i :| 0 <= i < |s.history| && s.history[i] == Entry(t, task.op, task.oracle, task.pc.outcome);
      assert EntryCorrect(init, s.history, i);
      if task.op.sid in init {
        assert HistoryCallsSucceed(s.history[..i]);
        ReplayKeepsConsistent(task.op.sid, init[task.op.sid], s.history[..i]);
        EffectKeepsConsistent(task.op, task.op.sid, Replay(task.op.sid, init[task.op.sid], s.history[..i]),
                              task.oracle);
      }
    }
  }

  // ----- why every operation must take it -----

  lemma {:induction false} ExecAppend(s: State, es: seq<Event>, e: Event)
    requires Possible(s, es) && Enabled(Exec(s, es), e)
    ensures Possible(s, es + [e]) && Exec(s, es + [e]) == Next(Exec(s, es), e)
    decreases |es|
  {
    if es == [] {
      assert [e][1..] == [];
    } else {
      assert (es + [e])[0] == es[0] && (es + [e])[1..] == es[1..] + [e];
      ExecAppend(Next(s, es[0]), es[1..], e);
    }
  }

  /** A run so far: the events and the state they lead to. */
  ghost predicate Reaches(init: World, es: seq<Event>, s: State) {
    Possible(Start(init), es) && Exec(Start(init), es) == s
  }

  lemma {:induction false} Continue(init: World, es: seq<Event>, s: State, e: Event) returns (es1: seq<Event>)
    requires Reaches(init, es, s) && Enabled(s, e)
    ensures es1 == es + [e] && Reaches(init, es1, Next(s, e))
  {
    es1 := es + [e];
    ExecAppend(Start(init), es, e);
  }

  lemma {:induction false} ContinueTask(init: World, es: seq<Event>, s: State, t: nat)
      returns (es1: seq<Event>, s1: State)
    requires Reaches(init, es, s) && Enabled(s, Advances(t)) && s.tasks[t].op.sid in s.sessions
    requires s.tasks[t].pc.Fetching? || Working(s.tasks[t].pc)
    ensures Reaches(init, es1, s1) && es1 == es + [Advances(t)]
    ensures var task := s.tasks[t];
            var session := s.sessions[task.op.sid];
            var (pc, session1) := if task.pc.Fetching? then (FetchPc(task.op, Some(session)), session)
                                  else Work(task.op.sid, task.oracle, task.pc, session);
            s1 == s.(tasks := s.tasks[t := task.(pc := pc)], sessions := s.sessions[task.op.sid := session1])
  {
    hide Work, FetchPc;
    es1 := Continue(init, es, s, Advances(t));
    s1 := Next(s, Advances(t));
    assert s.tasks[t].pc.Fetching? ==> s.sessions == s.sessions[s.tasks[t].op.sid := s.sessions[s.tasks[t].op.sid]];
  }

  /** A resume without the lock, and an operation that destroys the same session. */
  predicate ResumeAndDestroy(op: Op, op2: Op) {
    op.AutoResume? && (op2 == Destroy(op.sid, op.tenant) || op2 == ReapDestroy(op.sid))
  }

  predicate Resumable(init: World, op: Op)
    requires op.AutoResume?
  {
    && op.sid in init && Consistent(init[op.sid])
    && init[op.sid].row.status == STOPPED && init[op.sid].row.tenant == op.tenant
  }

  lemma {:induction false} BothArrive(init: World, op: Op, op2: Op, o: Oracle, o2: Oracle)
      returns (es: seq<Event>, s: State)
    requires ResumeAndDestroy(op, op2) && o.auditHealthy
    ensures Reaches(init, es, s)
    ensures es == [Arrives(0, op, o), Arrives(1, op2, o2), Advances(0)]
    ensures s == State(init, map[], 0, map[],
                       map[0 := Task(op, o, None, Fetching), 1 := Task(op2, o2, None, Entering)], [])
  {
    es, s := [], Start(init);
    es := Continue(init, es, s, Arrives(0, op, o));
    s := Next(s, Arrives(0, op, o));
    es := Continue(init, es, s, Arrives(1, op2, o2));
    s := Next(s, Arrives(1, op2, o2));
    es := Continue(init, es, s, Advances(0));
    s := Next(s, Advances(0));
  }

  /** The resume has started the container and read STOPPED, but not yet written RUNNING. */
  lemma {:induction false} ResumeHalfway(init: World, op: Op, op2: Op, o: Oracle, o2: Oracle)
      returns (es: seq<Event>, s: State)
    requires ResumeAndDestroy(op, op2) && Resumable(init, op)
    requires o.fault(op.sid, StartContainer) == Fine && o.auditHealthy
    ensures Reaches(init, es, s)
    ensures es == [Arrives(0, op, o), Arrives(1, op2, o2), Advances(0), Advances(0), Advances(0), Advances(0)]
    ensures var session := init[op.sid];
            s == State(init[op.sid := session.(container := Running)], map[], 0, map[],
                       map[0 := Task(op, o, None, MoveWrite(RUNNING, true, session.row)),
                           1 := Task(op2, o2, None, Entering)], [])
  {
    hide Next, Exec, Possible, Reaches;
    es, s := BothArrive(init, op, op2, o, o2);
    es, s := ContinueTask(init, es, s, 0);
    es, s := ContinueTask(init, es, s, 0);
    es, s := ContinueTask(init, es, s, 0);
  }

  /** Take the lock and fetch, with nobody else holding one. */
  lemma {:induction false} EnterAndAcquire(init: World, es: seq<Event>, s: State, t: nat)
      returns (es1: seq<Event>, s1: State)
    requires Reaches(init, es, s) && t in s.tasks && s.tasks[t].pc.Entering? && Locking(s.tasks[t].op)
    requires s.tasks[t].oracle.auditHealthy && s.locks == map[] && s.holders == map[]
    ensures Reaches(init, es1, s1) && es1 == es + [Advances(t), Advances(t)]
    ensures s1 == s.(locks := map[s.tasks[t].op.sid := s.nextLock], nextLock := s.nextLock + 1,
                     holders := map[s.nextLock := t],
                     tasks := s.tasks[t := s.tasks[t].(lock := Some(s.nextLock), pc := Fetching)])
  {
    es1 := Continue(init, es, s, Advances(t));
    s1 := Next(s, Advances(t));
    es1 := Continue(init, es1, s1, Advances(t));
    s1 := Next(s1, Advances(t));
  }

  lemma {:induction false} LeaveLast(init: World, es: seq<Event>, s: State, t: nat) returns (es1: seq<Event>, s1: State)
    requires Reaches(init, es, s) && t in s.tasks && s.tasks[t].pc.Leaving? && Locking(s.tasks[t].op)
    requires s.tasks[t].lock.Some? && s.holders == map[s.tasks[t].lock.value := t]
    ensures Reaches(init, es1, s1) && es1 == es + [Advances(t)]
    ensures s1.holders == map[] && s1.sessions == s.sessions
    ensures t in s1.tasks && s1.tasks[t] == s.tasks[t].(pc := Finished(s.tasks[t].pc.outcome))
  {
    es1 := Continue(init, es, s, Advances(t));
    s1 := Next(s, Advances(t));
  }

  /** The destroy holds the lock and has found the session STOPPED. */
  lemma {:induction false} DestroyBegins(init: World, op: Op, op2: Op, o: Oracle, o2: Oracle)
      returns (es: seq<Event>, s: State)
    requires ResumeAndDestroy(op, op2) && Resumable(init, op)
    requires o.fault(op.sid, StartContainer) == Fine && o.auditHealthy && o2.auditHealthy
    ensures Reaches(init, es, s)
    ensures |es| == 9 && es[0] == Arrives(0, op, o) && es[1] == Arrives(1, op2, o2)
    ensures forall i :: 2 <= i < |es| ==> es[i].Advances?
    ensures var session := init[op.sid];
            s == State(init[op.sid := session.(container := Running)], map[op.sid := 0], 1, map[0 := 1],
                       map[0 := Task(op, o, None, MoveWrite(RUNNING, true, session.row)),
                           1 := Task(op2, o2, Some(0), MoveRead(DESTROYING, true, session.row))], [])
  {
    hide Next, Exec, Possible, Reaches;
    es, s := ResumeHalfway(init, op, op2, o, o2);
    es, s := EnterAndAcquire(init, es, s, 1);
    es, s := ContinueTask(init, es, s, 1);
  }

  /** The destroy has recorded DESTROYING and is about to remove the container. */
  lemma {:induction false} DestroyHalfway(init: World, op: Op, op2: Op, o: Oracle, o2: Oracle)
      returns (es: seq<Event>, s: State)
    requires ResumeAndDestroy(op, op2) && Resumable(init, op)
    requires o.fault(op.sid, StartContainer) == Fine && o.auditHealthy && o2.auditHealthy
    ensures Reaches(init, es, s)
    ensures |es| == 11 && es[0] == Arrives(0, op, o) && es[1] == Arrives(1, op2, o2)
    ensures forall i :: 2 <= i < |es| ==> es[i].Advances?
    ensures s.holders == map[0 := 1]
    ensures var row := init[op.sid].row;
            && s.tasks == map[0 := Task(op, o, None, MoveWrite(RUNNING, true, row)),
                              1 := Task(op2, o2, Some(0), DroppingContainer(row))]
            && var destroying := Session(Moved(row, DESTROYING, o2.clock(op.sid, DESTROYING)), Running, true);
               s.sessions == init[op.sid := destroying]
  {
    hide Next, Exec, Possible, Reaches;
    es, s := DestroyBegins(init, op, op2, o, o2);
    es, s := ContinueTask(init, es, s, 1);
    es, s := ContinueTask(init, es, s, 1);
  }

  /** The destroy has removed the container and torn the quota down. */
  lemma {:induction false} DestroyPastQuota(sid: string, tenant: string, audited: bool, session: Session, o: Oracle,
                                            o2: Oracle)
      returns (es: seq<Event>, s: State)
    requires Consistent(session) && session.row.status == STOPPED && session.row.tenant == tenant
    requires o.fault(sid, StartContainer) == Fine && o.auditHealthy && o2.auditHealthy
    requires o2.fault(sid, RemoveContainer) == Fine && o2.fault(sid, QuotaTeardown) == Fine
    ensures Reaches(map[sid := session], es, s)
    ensures |es| == 13 && es[0] == Arrives(0, AutoResume(sid, tenant, audited), o)
    ensures es[1] == Arrives(1, Destroy(sid, tenant), o2)
    ensures forall i :: 2 <= i < |es| ==> es[i].Advances?
    ensures s.holders == map[0 := 1]
    ensures s.tasks == map[0 := Task(AutoResume(sid, tenant, audited), o, None, MoveWrite(RUNNING, true, session.row)),
                           1 := Task(Destroy(sid, tenant), o2, Some(0), DroppingVolume(session.row))]
    ensures s.sessions == map[sid := Session(Moved(session.row, DESTROYING, o2.clock(sid, DESTROYING)), Absent, true)]
  {
    var init := map[sid := session];
    assert Resumable(init, AutoResume(sid, tenant, audited));
    hide Next, Exec, Possible, Reaches, Consistent, Resumable, FetchPc;
    es, s := DestroyHalfway(init, AutoResume(sid, tenant, audited), Destroy(sid, tenant), o, o2);
    es, s := ContinueTask(init, es, s, 1);
    assert s.tasks[1].pc == TearingDownQuota(session.row);
    es, s := ContinueTask(init, es, s, 1);
  }

  /** The destroy has removed everything and is about to record DESTROYED. */
  lemma {:induction false} DestroyAlmostDone(sid: string, tenant: string, audited: bool, session: Session, o: Oracle,
                                             o2: Oracle)
      returns (es: seq<Event>, s: State)
    requires Consistent(session) && session.row.status == STOPPED && session.row.tenant == tenant
    requires o.fault(sid, StartContainer) == Fine && o.auditHealthy && CallsSucceed(o2, sid) && o2.auditHealthy
    ensures Reaches(map[sid := session], es, s)
    ensures |es| == 14 && es[0] == Arrives(0, AutoResume(sid, tenant, audited), o)
    ensures es[1] == Arrives(1, Destroy(sid, tenant), o2)
    ensures forall i :: 2 <= i < |es| ==> es[i].Advances?
    ensures s.holders == map[0 := 1]
    ensures s.tasks == map[0 := Task(AutoResume(sid, tenant, audited), o, None, MoveWrite(RUNNING, true, session.row)),
                           1 := Task(Destroy(sid, tenant), o2, Some(0), MoveRead(DESTROYED, true, session.row))]
    ensures s.sessions == map[sid := Session(Moved(session.row, DESTROYING, o2.clock(sid, DESTROYING)), Absent, false)]
  {
    assert o2.fault(sid, RemoveContainer) == Fine && o2.fault(sid, QuotaTeardown) == Fine &&
           o2.fault(sid, RemoveVolume) == Fine;
    hide Next, Exec, Possible, Reaches, CallsSucceed, Consistent;
    es, s := DestroyPastQuota(sid, tenant, audited, session, o, o2);
    es, s := ContinueTask(map[sid := session], es, s, 1);
  }

  /** The resume has recorded RUNNING, and the destroy's last transition is refused. */
  lemma {:induction false} DestroyIsRefused(sid: string, tenant: string, audited: bool, session: Session, o: Oracle,
                                            o2: Oracle)
      returns (es: seq<Event>, s: State)
    requires Consistent(session) && session.row.status == STOPPED && session.row.tenant == tenant
    requires o.fault(sid, StartContainer) == Fine && o.auditHealthy && CallsSucceed(o2, sid) && o2.auditHealthy
    ensures Reaches(map[sid := session], es, s)
    ensures |es| == 16 && es[0] == Arrives(0, AutoResume(sid, tenant, audited), o)
    ensures es[1] == Arrives(1, Destroy(sid, tenant), o2)
    ensures forall i :: 2 <= i < |es| ==> es[i].Advances?
    ensures s.holders == map[0 := 1] && s.tasks.Keys == {0, 1}
    ensures s.tasks[1] == Task(Destroy(sid, tenant), o2, Some(0), Leaving(InvalidTransition))
    ensures sid in s.sessions && s.sessions[sid].row.status == RUNNING
    ensures s.sessions[sid].container == Absent && !s.sessions[sid].volume
  {
    hide Next, Exec, Possible, Reaches, CallsSucceed, Consistent;
    es, s := DestroyAlmostDone(sid, tenant, audited, session, o, o2);
    es, s := ContinueTask(map[sid := session], es, s, 0);
    es, s := ContinueTask(map[sid := session], es, s, 1);
  }

  /** The lock is needed by every operation: one resume that does not take it, with Docker calls that all
      succeed, can leave a destroyed session RUNNING with neither container nor volume, and the destroy
      failing with a refused transition. */
  lemma {:induction false} UnlockedResumeBreaksSafety(sid: string, tenant: string, audited: bool, session: Session,
                                                      o: Oracle, o2: Oracle)
      returns (es: seq<Event>)
    requires Consistent(session) && session.row.status == STOPPED && session.row.tenant == tenant
    requires CallsSucceed(o, sid) && o.auditHealthy && CallsSucceed(o2, sid) && o2.auditHealthy
    ensures Possible(Start(map[sid := session]), es) && CallsSucceedIn(es)
    ensures forall i :: 0 <= i < |es| && es[i].Arrives? ==>
                          es[i].op == Destroy(sid, tenant) || es[i].op == AutoResume(sid, tenant, audited)
    ensures var s := Exec(Start(map[sid := session]), es);
            && sid in s.sessions && Free(s, sid)
            && s.sessions[sid].row.status == RUNNING && s.sessions[sid].container == Absent && !s.sessions[sid].volume
            && 1 in s.tasks && s.tasks[1].op == Destroy(sid, tenant) && s.tasks[1].pc == Finished(InvalidTransition)
  {
    assert o.fault(sid, StartContainer) == Fine;
    hide Next, Exec, Possible, CallsSucceed, Consistent;
    var s;
    es, s := DestroyIsRefused(sid, tenant, audited, session, o, o2);
    es, s := LeaveLast(map[sid := session], es, s, 1);
  }

  /** Two unlocked resumes of one stopped session are enough, with no destroy at all: both have found it
      STOPPED, and the second to record RUNNING is refused. */
  lemma {:induction false} TwoResumesCollide(sid: string, tenant: string, audited: bool, session: Session, o: Oracle)
      returns (es: seq<Event>)
    requires Consistent(session) && session.row.status == STOPPED && session.row.tenant == tenant
    requires CallsSucceed(o, sid) && o.auditHealthy
    ensures Possible(Start(map[sid := session]), es) && CallsSucceedIn(es)
    ensures forall i :: 0 <= i < |es| && es[i].Arrives? ==> es[i].op == AutoResume(sid, tenant, audited)
    ensures var s := Exec(Start(map[sid := session]), es);
            1 in s.tasks && s.tasks[1].pc == Leaving(InvalidTransition)
  {
    assert o.fault(sid, StartContainer) == Fine;
    hide Next, Exec, Possible, CallsSucceed, Consistent;
    var s;
    es, s := SecondIsRefused(sid, AutoResume(sid, tenant, audited), session, o);
  }

  lemma {:induction false} SecondIsRefused(sid: string, op: Op, session: Session, o: Oracle)
      returns (es: seq<Event>, s: State)
    requires op.AutoResume? && op.sid == sid && o.auditHealthy && o.fault(sid, StartContainer) == Fine
    requires Consistent(session) && session.row.status == STOPPED && session.row.tenant == op.tenant
    ensures Reaches(map[sid := session], es, s)
    ensures |es| == 11 && es[0] == Arrives(0, op, o) && es[1] == Arrives(1, op, o)
    ensures forall i :: 2 <= i < |es| ==> es[i].Advances?
    ensures 1 in s.tasks && s.tasks[1].pc == Leaving(InvalidTransition)
  {
    hide Next, Exec, Possible, Reaches;
    var init := map[sid := session];
    es, s := BothStart(sid, op, session, o);
    es, s := ContinueTask(init, es, s, 0);
    es, s := ContinueTask(init, es, s, 0);
    es, s := ContinueTask(init, es, s, 1);
  }

  /** Both have found the session STOPPED and started its container. */
  lemma {:induction false} BothStart(sid: string, op: Op, session: Session, o: Oracle)
      returns (es: seq<Event>, s: State)
    requires op.AutoResume? && op.sid == sid && o.auditHealthy && o.fault(sid, StartContainer) == Fine
    requires Consistent(session) && session.row.status == STOPPED && session.row.tenant == op.tenant
    ensures Reaches(map[sid := session], es, s)
    ensures |es| == 8 && es[0] == Arrives(0, op, o) && es[1] == Arrives(1, op, o)
    ensures forall i :: 2 <= i < |es| ==> es[i].Advances?
    ensures s == State(map[sid := session.(container := Running)], map[], 0, map[],
                       map[0 := Task(op, o, None, MoveRead(RUNNING, true, session.row)),
                           1 := Task(op, o, None, MoveRead(RUNNING, true, session.row))], [])
  {
    hide Next, Exec, Possible, Reaches;
    var init := map[sid := session];
    es, s := BothFetch(sid, op, session, o);
    es, s := ContinueTask(init, es, s, 0);
    es, s := ContinueTask(init, es, s, 1);
    es, s := ContinueTask(init, es, s, 0);
    es, s := ContinueTask(init, es, s, 1);
  }

  lemma {:induction false} BothFetch(sid: string, op: Op, session: Session, o: Oracle)
      returns (es: seq<Event>, s: State)
    requires op.AutoResume? && op.sid == sid && o.auditHealthy
    ensures Reaches(map[sid := session], es, s)
    ensures es == [Arrives(0, op, o), Arrives(1, op, o), Advances(0), Advances(1)]
    ensures s == State(map[sid := session], map[], 0, map[],
                       map[0 := Task(op, o, None, Fetching), 1 := Task(op, o, None, Fetching)], [])
  {
    var init := map[sid := session];
    es, s := [], Start(init);
    es := Continue(init, es, s, Arrives(0, op, o));
    s := Next(s, Arrives(0, op, o));
    es := Continue(init, es, s, Arrives(1, op, o));
    s := Next(s, Arrives(1, op, o));
    es := Continue(init, es, s, Advances(0));
    s := Next(s, Advances(0));
    es := Continue(init, es, s, Advances(1));
    s := Next(s, Advances(1));
  }

  ghost predicate Admits(es: seq<Event>, allowed: Op -> bool) {
    forall i :: 0 <= i < |es| && es[i].Arrives? ==> allowed(es[i].op)
  }

  /** Safe in every run with succeeding Docker calls in which only `allowed` operations arrive. */
  ghost predicate AlwaysSafe(allowed: Op -> bool) {
    forall init: World, es: seq<Event> ::
      (AllConsistent(init) && Possible(Start(init), es) && Admits(es, allowed) && CallsSucceedIn(es)) ==>
        Safe(Exec(Start(init), es), init)
  }

  /** The exact condition: the lifecycle is safe in every such run if and only if every operation that may
      arrive takes the session's lock. */
  lemma {:induction false} SafeIffAllTakeTheLock(allowed: Op -> bool)
    ensures AlwaysSafe(allowed) <==> forall op :: allowed(op) && Taskable(op) ==> Locking(op)
  {
    hide Exec, Possible, Safe, Consistent, CallsSucceed;
    if forall op :: allowed(op) && Taskable(op) ==> Locking(op) {
      forall init: World, es: seq<Event> | AllConsistent(init) && Possible(Start(init), es) && Admits(es, allowed)
                                           && CallsSucceedIn(es)
        ensures Safe(Exec(Start(init), es), init)
      {
        assert AllLocking(es);
        LockMakesLifecycleSafe(init, es);
      }
    } else {
      var op :| allowed(op) && Taskable(op) && !Locking(op);
      UnlockedIsUnsafe(op, allowed);
    }
  }

  lemma {:induction false} UnlockedIsUnsafe(op: Op, allowed: Op -> bool)
    requires allowed(op) && op.AutoResume?
    ensures !AlwaysSafe(allowed)
  {
    var o := Oracle((_, _) => 0, (_, _) => Fine, _ => "", true);
    var session := Session(Row(op.tenant, STOPPED, Some(""), "", 0, 0, None), Stopped, true);
    var init := map[op.sid := session];
    var es := TwoResumesCollide(op.sid, op.tenant, op.audited, session, o);
    assert AllConsistent(init);
    hide Exec, Possible, CallsSucceedIn;
    assert Admits(es, allowed);
    assert !Safe(Exec(Start(init), es), init);
  }
}
