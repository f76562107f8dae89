/** The tenant's cap on concurrent sessions, next to everything that can move it: creates, interleaved step by step
    from their count to their last write, with the lifecycle operations of `SessionLocks`, interleaved step by step
    with each other, some of which may not take the session's lock. */
module TenantCap {
  import opened Wrappers
  import opened Registry
  import opened SessionEffects
  import opened SessionRuns
  import Admission
  import SessionLocks

  /** The lifecycle operations and the creates under way, on one table of sessions. */
  datatype State = State(lifecycle: SessionLocks.State, creates: map<nat, Admission.Claim<Session>>)

  datatype Event = Lifecycle(step: SessionLocks.Event) | Creating(write: Admission.Event<Session>)

  /** A tenant, its cap, how many of its creates are in flight at once at most, and the lifecycle operations that
      may arrive. */
  datatype Policy = Policy(tenant: string, cap: nat, n: nat, allowed: Op -> bool)

  /** The sessions and creates as the admission pattern sees them. */
  function Rows(s: State): Admission.State<Session> {
    Admission.State(s.lifecycle.sessions, s.creates)
  }

  function Begin(init: World): State {
    State(SessionLocks.Start(init), map[])
  }

  predicate IsNew(s: Session) {
    s.row.status == CREATING && s.row.containerId == None && s.container == Absent && !s.volume
  }

  /** A create writes its own row without looking whether anyone else has moved it: RUNNING when all went well, as
      the last thing it does, or DESTROYING and DESTROYED to roll back. Its other writes keep the status. */
  predicate OwnWrite(was: Session, now: Session, last: bool) {
    && now.row.tenant == was.row.tenant
    && (now.row.status == was.row.status || !Live(now.row.status) || (last && now.row.status == RUNNING))
  }

  predicate CreateStep(s: State, e: Admission.Event<Session>) {
    match e
    case Counts(_, _, session) => IsNew(session)
    case Inserts(_) => true
    case Writes(t, session, last) =>
      && t in s.creates && s.creates[t].id in s.lifecycle.sessions
      && OwnWrite(s.lifecycle.sessions[s.creates[t].id], session, last)
    case Finishes(_) => true
    case Rewrites(_, _) => false
    case Deletes(_) => false
  }

  predicate Enabled(s: State, e: Event, p: Policy) {
    match e
    case Lifecycle(step) => SessionLocks.Enabled(s.lifecycle, step) && (step.Arrives? ==> p.allowed(step.op))
    case Creating(step) => CreateStep(s, step) && Admission.Enabled(Rows(s), step, PlaceOf(p.tenant), p.cap, false)
  }

  predicate Alive(s: State, e: Event) {
    match e
    case Lifecycle(step) => SessionLocks.Enabled(s.lifecycle, step)
    case Creating(step) => Admission.Alive(Rows(s), step)
  }

  function Next(s: State, e: Event): State
    requires Alive(s, e)
  {
    match e
    case Lifecycle(step) => s.(lifecycle := SessionLocks.Next(s.lifecycle, step))
    case Creating(step) =>
      var rows := Admission.Next(Rows(s), step);
      State(s.lifecycle.(sessions := rows.table), rows.pending)
  }

  ghost predicate WithinFlight(s: State, p: Policy) {
    |Admission.InFlight(Rows(s), PlaceOf(p.tenant))| <= p.n
  }

  ghost predicate Possible(s: State, es: seq<Event>, p: Policy)
    decreases |es|
  {
    es == [] || (Enabled(s, es[0], p) && WithinFlight(Next(s, es[0]), p) && Possible(Next(s, es[0]), es[1..], p))
  }

  ghost function Exec(s: State, es: seq<Event>, p: Policy): State
    requires Possible(s, es, p)
    decreases |es|
  {
    if es == [] then s else Exec(Next(s, es[0]), es[1..], p)
  }

  ghost function Sessions(s: State, p: Policy): set<string> {
    Concurrent(s.lifecycle.sessions, p.tenant)
  }

  /** An exec or file operation may resume, without the lock, a session of the tenant that another operation may
      destroy. */
  ghost predicate Reviving(p: Policy) {
    exists op, op2 :: SessionLocks.ResumeAndDestroy(op, op2) && op.tenant == p.tenant && p.allowed(op) && p.allowed(op2)
  }

  // ----- the tasks, and what they are about to write -----

  predicate Stopping(op: Op) {
    op.Stop? || op.ReapStop?
  }

  predicate Resuming(op: Op) {
    op.Resume? || op.AutoResume?
  }

  predicate Destroying(op: Op) {
    op.Destroy? || op.ReapDestroy?
  }

  /** The steps of each operation. */
  predicate Shape(op: Op, pc: SessionLocks.Pc) {
    match pc
    case Halting(_) => Stopping(op)
    case Starting(_) => Resuming(op)
    case MoveRead(to, _, _) => Moves(op, to)
    case MoveWrite(to, _, _) => Moves(op, to)
    case _ => Destroying(op)
  }

  predicate Moves(op: Op, to: Status) {
    (Stopping(op) && to == STOPPED) || (Resuming(op) && to == RUNNING) || (Destroying(op) && !Live(to))
  }

  /** About to write a live status. */
  predicate LiveWriter(task: SessionLocks.Task) {
    SessionLocks.Working(task.pc) && !Destroying(task.op)
  }

  predicate Unclaimed(s: State, sid: string) {
    forall t :: t in s.creates && s.creates[t].inserted ==> s.creates[t].id != sid
  }

  ghost predicate LockSound(l: SessionLocks.State, t: nat)
    requires t in l.tasks
  {
    var task := l.tasks[t];
    && SessionLocks.Taskable(task.op)
    && (SessionLocks.Locking(task.op) ==> SessionLocks.TaskSound(l, t))
    && (task.op.AutoResume? ==> task.lock == None)
  }

  ghost predicate WorkSound(s: State, p: Policy, t: nat)
    requires t in s.lifecycle.tasks
  {
    var task := s.lifecycle.tasks[t];
    SessionLocks.Working(task.pc) ==>
      && SessionLocks.Taskable(task.op) && task.op.sid in s.lifecycle.sessions && Shape(task.op, task.pc)
      && var row := s.lifecycle.sessions[task.op.sid].row;
         && (Scoped(task.op) ==> row.tenant == task.op.tenant)
         && (LiveWriter(task) ==> Unclaimed(s, task.op.sid))
         && (LiveWriter(task) && task.pc.MoveWrite? && row.tenant == p.tenant ==> Live(row.status))
  }

  ghost predicate TaskOk(s: State, p: Policy, t: nat)
    requires t in s.lifecycle.tasks
  {
    p.allowed(s.lifecycle.tasks[t].op) && LockSound(s.lifecycle, t) && WorkSound(s, p, t)
  }

  /** A create in flight that has inserted its row is alone with it, but for operations that destroy it. */
  ghost predicate ClaimOk(s: State, t: nat)
    requires t in s.creates
  {
    s.creates[t].row.row.status == CREATING &&
    (s.creates[t].inserted ==>
      && s.creates[t].id in s.lifecycle.sessions
      && var row := s.lifecycle.sessions[s.creates[t].id].row;
         && (row.status == CREATING || !Live(row.status))
         && row.tenant == s.creates[t].row.row.tenant)
  }

  ghost predicate ClaimsApart(s: State) {
    forall t, u :: t in s.creates && u in s.creates && t != u && s.creates[t].inserted && s.creates[u].inserted ==>
                     s.creates[t].id != s.creates[u].id
  }

  ghost predicate Inv(s: State, p: Policy) {
    && (forall t :: t in s.lifecycle.tasks ==> TaskOk(s, p, t))
    && (forall t :: t in s.creates ==> ClaimOk(s, t))
    && ClaimsApart(s)
  }

  // ----- one step of the work -----

  lemma {:induction false} WorkKeeps(op: Op, o: Oracle, pc: SessionLocks.Pc, s: Session)
    requires SessionLocks.Working(pc) && Shape(op, pc) && SessionLocks.Taskable(op)
    ensures var (pc1, s1) := SessionLocks.Work(op.sid, o, pc, s);
            && s1.row.tenant == s.row.tenant
            && (s1.row.status == s.row.status || (pc.MoveWrite? && s1.row.status == pc.to))
            && (SessionLocks.Working(pc1) ==> Shape(op, pc1))
            && (pc1.MoveWrite? ==> pc1.to in Transitions(s1.row.status))
  {
  }

  lemma {:induction false} FetchKeeps(op: Op, found: Session)
    requires SessionLocks.Taskable(op)
    ensures var pc := SessionLocks.FetchPc(op, Some(found));
            SessionLocks.Working(pc) ==>
              && Shape(op, pc) && !pc.MoveWrite?
              && (Scoped(op) ==> found.row.tenant == op.tenant)
              && (!Destroying(op) ==> found.row.status in {RUNNING, IDLE, STOPPED})
  {
  }

  /** What a lifecycle step does to the table: nothing, or the work of its task on its session. */
  lemma {:induction false} LifecycleWrites(l: SessionLocks.State, e: SessionLocks.Event)
    requires SessionLocks.Enabled(l, e)
    ensures SessionLocks.Next(l, e).sessions ==
            if e.Advances? && SessionLocks.Working(l.tasks[e.task].pc) then Worked(l, e.task) else l.sessions
  {
    hide SessionLocks.Work, SessionLocks.FetchPc;
  }

  function Worked(l: SessionLocks.State, t: nat): World
    requires t in l.tasks && SessionLocks.Working(l.tasks[t].pc) && SessionLocks.Taskable(l.tasks[t].op)
    requires l.tasks[t].op.sid in l.sessions
  {
    var task := l.tasks[t];
    l.sessions[task.op.sid := SessionLocks.Work(task.op.sid, task.oracle, task.pc, l.sessions[task.op.sid]).1]
  }

  // ----- lifecycle steps keep the invariant -----

  lemma {:induction false} OtherLockSound(l: SessionLocks.State, e: SessionLocks.Event, u: nat)
    requires SessionLocks.Enabled(l, e) && u in l.tasks && u != e.task && LockSound(l, u)
    requires e.Advances? ==> LockSound(l, e.task)
    ensures u in SessionLocks.Next(l, e).tasks && LockSound(SessionLocks.Next(l, e), u)
    ensures SessionLocks.Next(l, e).tasks[u] == l.tasks[u]
  {
    hide SessionLocks.Work, SessionLocks.FetchPc;
    if e.Arrives? || SessionLocks.Locking(l.tasks[e.task].op) {
      if SessionLocks.Locking(l.tasks[u].op) {
        SessionLocks.OtherTaskSound(l, e, u);
      }
      hide SessionLocks.TaskSound;
    }
  }

  lemma {:induction false} MovedLockSound(l: SessionLocks.State, e: SessionLocks.Event)
    requires SessionLocks.Enabled(l, e) && (e.Advances? ==> LockSound(l, e.task))
    ensures e.task in SessionLocks.Next(l, e).tasks && LockSound(SessionLocks.Next(l, e), e.task)
    ensures SessionLocks.Next(l, e).tasks[e.task].op == if e.Arrives? then e.op else l.tasks[e.task].op
  {
    hide SessionLocks.Work, SessionLocks.FetchPc;
    var op := if e.Arrives? then e.op else l.tasks[e.task].op;
    if SessionLocks.Locking(op) {
      SessionLocks.MovedTaskSound(l, e);
      hide SessionLocks.TaskSound;
    }
  }

  /** The moved task's next pc: from its fetch, from its work, or not working. */
  lemma {:induction false} MovedPc(l: SessionLocks.State, e: SessionLocks.Event)
    requires SessionLocks.Enabled(l, e) && e.task in SessionLocks.Next(l, e).tasks
    ensures var pc1 := SessionLocks.Next(l, e).tasks[e.task].pc;
            SessionLocks.Working(pc1) ==>
              && e.Advances?
              && var task := l.tasks[e.task];
                 && (task.pc.Fetching? || SessionLocks.Working(task.pc))
                 && task.op.sid in l.sessions
                 && var session := l.sessions[task.op.sid];
                    pc1 == if task.pc.Fetching? then SessionLocks.FetchPc(task.op, Some(session))
                           else SessionLocks.Work(task.op.sid, task.oracle, task.pc, session).0
  {
    hide SessionLocks.Work;
  }

  lemma {:induction false} MovedWorkSound(s: State, e: SessionLocks.Event, p: Policy)
    requires SessionLocks.Enabled(s.lifecycle, e) && (e.Advances? ==> TaskOk(s, p, e.task))
    requires forall t :: t in s.creates ==> ClaimOk(s, t)
    ensures var s1 := Next(s, Lifecycle(e)); e.task in s1.lifecycle.tasks && WorkSound(s1, p, e.task)
  {
    var l, s1 := s.lifecycle, Next(s, Lifecycle(e));
    MovedLockSound(l, e);
    MovedPc(l, e);
    LifecycleWrites(l, e);
    hide SessionLocks.Next, SessionLocks.Enabled, SessionLocks.Work, SessionLocks.FetchPc, LockSound;
    if SessionLocks.Working(s1.lifecycle.tasks[e.task].pc) {
      var task := l.tasks[e.task];
      var sid := task.op.sid;
      var session := l.sessions[sid];
      if task.pc.Fetching? {
        FetchKeeps(task.op, session);
        if !Destroying(task.op) {
          forall t | t in s.creates && s.creates[t].inserted ensures s.creates[t].id != sid {
            assert ClaimOk(s, t);
          }
        }
      } else {
        WorkKeeps(task.op, task.oracle, task.pc, session);
      }
    }
  }

  /** Nobody else writes a session between a live writer's read and its write. */
  lemma {:induction false} NotDestroyedMeanwhile(s: State, e: SessionLocks.Event, p: Policy, u: nat)
    requires SessionLocks.Enabled(s.lifecycle, e) && e.Advances? && u in s.lifecycle.tasks && u != e.task
    requires TaskOk(s, p, e.task) && TaskOk(s, p, u) && !Reviving(p)
    requires var task, other := s.lifecycle.tasks[e.task], s.lifecycle.tasks[u];
             && SessionLocks.Working(task.pc) && LiveWriter(other) && other.op.sid == task.op.sid
             && s.lifecycle.sessions[other.op.sid].row.tenant == p.tenant
    ensures !Destroying(s.lifecycle.tasks[e.task].op)
  {
    var task, other := s.lifecycle.tasks[e.task], s.lifecycle.tasks[u];
    if Destroying(task.op) {
      if SessionLocks.Locking(other.op) {
        SessionLocks.OthersElsewhere(s.lifecycle, e.task, u);
      } else {
        assert SessionLocks.ResumeAndDestroy(other.op, task.op);
        assert false;
      }
    }
  }

  lemma {:induction false} OtherWorkSound(s: State, e: SessionLocks.Event, p: Policy, u: nat)
    requires SessionLocks.Enabled(s.lifecycle, e) && u in s.lifecycle.tasks && u != e.task && TaskOk(s, p, u)
    requires (e.Advances? ==> TaskOk(s, p, e.task)) && !Reviving(p)
    ensures var s1 := Next(s, Lifecycle(e)); u in s1.lifecycle.tasks && WorkSound(s1, p, u)
  {
    var l := s.lifecycle;
    OtherLockSound(l, e, u);
    LifecycleWrites(l, e);
    if e.Advances? && SessionLocks.Working(l.tasks[e.task].pc) {
      var task, other := l.tasks[e.task], l.tasks[u];
      WorkKeeps(task.op, task.oracle, task.pc, l.sessions[task.op.sid]);
      if LiveWriter(other) && other.op.sid == task.op.sid && l.sessions[other.op.sid].row.tenant == p.tenant {
        NotDestroyedMeanwhile(s, e, p, u);
      }
    }
    hide SessionLocks.Next, SessionLocks.Enabled, SessionLocks.Work, SessionLocks.FetchPc, LockSound, Reviving;
  }

  lemma {:induction false} LifecycleKeepsClaim(s: State, e: SessionLocks.Event, p: Policy, t: nat)
    requires SessionLocks.Enabled(s.lifecycle, e) && (e.Advances? ==> TaskOk(s, p, e.task))
    requires t in s.creates && ClaimOk(s, t)
    ensures ClaimOk(Next(s, Lifecycle(e)), t)
  {
    var l := s.lifecycle;
    LifecycleWrites(l, e);
    if e.Advances? && SessionLocks.Working(l.tasks[e.task].pc) {
      var task := l.tasks[e.task];
      WorkKeeps(task.op, task.oracle, task.pc, l.sessions[task.op.sid]);
    }
    hide SessionLocks.Next, SessionLocks.Enabled, SessionLocks.Work, SessionLocks.FetchPc, LockSound;
  }

  lemma {:induction false} LifecycleKeepsInv(s: State, e: SessionLocks.Event, p: Policy)
    requires Inv(s, p) && Enabled(s, Lifecycle(e), p) && !Reviving(p)
    ensures Inv(Next(s, Lifecycle(e)), p)
  {
    var s1 := Next(s, Lifecycle(e));
    SessionLocks.StepShape(s.lifecycle, e);
    MovedLockSound(s.lifecycle, e);
    MovedWorkSound(s, e, p);
    assert s1.creates == s.creates;
    hide SessionLocks.Next, SessionLocks.Enabled, LockSound, WorkSound, ClaimOk, Reviving;
    forall t | t in s1.lifecycle.tasks ensures TaskOk(s1, p, t) {
      if t != e.task {
        assert TaskOk(s, p, t);
        OtherLockSound(s.lifecycle, e, t);
        OtherWorkSound(s, e, p, t);
      }
    }
    forall t | t in s1.creates ensures ClaimOk(s1, t) {
      LifecycleKeepsClaim(s, e, p, t);
    }
  }

  /** A rewrite that gives no row of the tenant a place it did not hold. */
  ghost predicate QuietRewrite(rows: Admission.State<Session>, rows1: Admission.State<Session>, sid: string,
                               session: Session, p: Policy)
  {
    && Admission.Enabled(rows, Admission.Rewrites(sid, session), PlaceOf(p.tenant), p.cap, false)
    && rows1 == Admission.Next(rows, Admission.Rewrites(sid, session))
  }

  /** No step gives a row of the tenant its place back. */
  lemma {:induction false} StepNeverRevives(s: State, e: SessionLocks.Event, p: Policy)
    requires Inv(s, p) && Enabled(s, Lifecycle(e), p)
    ensures var rows, rows1 := Rows(s), Rows(Next(s, Lifecycle(e)));
            rows1 == rows || exists sid, session :: QuietRewrite(rows, rows1, sid, session, p)
  {
    var l := s.lifecycle;
    LifecycleWrites(l, e);
    if e.Advances? && SessionLocks.Working(l.tasks[e.task].pc) {
      var task := l.tasks[e.task];
      assert TaskOk(s, p, e.task);
      var session := l.sessions[task.op.sid];
      WorkKeeps(task.op, task.oracle, task.pc, session);
      var session1 := SessionLocks.Work(task.op.sid, task.oracle, task.pc, session).1;
      hide SessionLocks.Next, SessionLocks.Work, SessionLocks.FetchPc, SessionLocks.Enabled, LockSound;
      assert QuietRewrite(Rows(s), Rows(Next(s, Lifecycle(e))), task.op.sid, session1, p);
    }
  }

  // ----- creates keep it -----

  lemma {:induction false} CreateKeepsTask(s: State, e: Admission.Event<Session>, p: Policy, t: nat)
    requires Enabled(s, Creating(e), p) && t in s.lifecycle.tasks && TaskOk(s, p, t)
    ensures TaskOk(Next(s, Creating(e)), p, t)
  {
    var s1 := Next(s, Creating(e));
    assert s1.lifecycle == s.lifecycle.(sessions := s1.lifecycle.sessions);
    assert LockSound(s1.lifecycle, t);
    hide LockSound;
    if e.Inserts? || e.Writes? {
      var id := s.creates[e.task].id;
      assert forall sid :: sid in s.lifecycle.sessions && sid != id ==>
                             sid in s1.lifecycle.sessions && s1.lifecycle.sessions[sid] == s.lifecycle.sessions[sid];
    }
  }

  lemma {:induction false} CreateKeepsClaims(s: State, e: Admission.Event<Session>, p: Policy)
    requires Enabled(s, Creating(e), p) && ClaimsApart(s) && forall t :: t in s.creates ==> ClaimOk(s, t)
    ensures var s1 := Next(s, Creating(e)); ClaimsApart(s1) && forall t :: t in s1.creates ==> ClaimOk(s1, t)
  {
    var s1 := Next(s, Creating(e));
    if e.Inserts? || e.Writes? || e.Finishes? {
      assert ClaimOk(s, e.task);
    }
    forall t | t in s1.creates ensures ClaimOk(s1, t) {
      if t in s.creates {
        assert ClaimOk(s, t);
        assert e.Writes? && t != e.task && s.creates[t].inserted ==> s.creates[t].id != s.creates[e.task].id;
      }
    }
    forall t, u | t in s1.creates && u in s1.creates && t != u && s1.creates[t].inserted && s1.creates[u].inserted
      ensures s1.creates[t].id != s1.creates[u].id
    {
      assert t in s.creates && u in s.creates && ClaimOk(s, t) && ClaimOk(s, u);
    }
  }

  lemma {:induction false} CreateKeepsInv(s: State, e: Admission.Event<Session>, p: Policy)
    requires Inv(s, p) && Enabled(s, Creating(e), p)
    ensures Inv(Next(s, Creating(e)), p)
  {
    var s1 := Next(s, Creating(e));
    CreateKeepsClaims(s, e, p);
    hide TaskOk, ClaimOk, ClaimsApart;
    forall t | t in s1.lifecycle.tasks ensures TaskOk(s1, p, t) {
      CreateKeepsTask(s, e, p, t);
    }
  }

  // ----- the bound -----

  lemma {:induction false} StepKeepsPeak(s: State, e: Event, p: Policy)
    requires Inv(s, p) && Enabled(s, e, p) && WithinFlight(Next(s, e), p)
    requires Admission.WithinPeak(Rows(s), PlaceOf(p.tenant), p.cap, p.n)
    ensures Admission.WithinPeak(Rows(Next(s, e)), PlaceOf(p.tenant), p.cap, p.n)
  {
    hide Inv, Admission.WithinPeak, Admission.InFlight;
    match e
    case Lifecycle(step) =>
      StepNeverRevives(s, step, p);
      var rows, rows1 := Rows(s), Rows(Next(s, e));
      hide Next, Enabled, Rows;
      if rows1 != rows {
        var sid, session :| QuietRewrite(rows, rows1, sid, session, p);
        Admission.StepKeepsPeak(rows, Admission.Rewrites(sid, session), PlaceOf(p.tenant), p.cap, p.n);
      }
    case Creating(step) =>
      Admission.StepKeepsPeak(Rows(s), step, PlaceOf(p.tenant), p.cap, p.n);
  }

  lemma {:induction false} ExecKeepsPeak(s: State, es: seq<Event>, p: Policy)
    requires Inv(s, p) && Possible(s, es, p) && !Reviving(p)
    requires Admission.WithinPeak(Rows(s), PlaceOf(p.tenant), p.cap, p.n)
    ensures Admission.WithinPeak(Rows(Exec(s, es, p)), PlaceOf(p.tenant), p.cap, p.n)
    decreases |es|
  {
    if es != [] {
      assert Alive(s, es[0]);
      hide Inv, Next, WithinFlight, Reviving, Admission.WithinPeak;
      StepKeepsPeak(s, es[0], p);
      match es[0] {
        case Lifecycle(step) => LifecycleKeepsInv(s, step, p);
        case Creating(step) => CreateKeepsInv(s, step, p);
      }
      ExecKeepsPeak(Next(s, es[0]), es[1..], p);
    }
  }

  /** Where no session can be destroyed under an unlocked resume, a tenant's sessions exceed its cap by less than
      the number of its creates that are in flight at once, whatever else interleaves. */
  lemma {:induction false} CreatesStayBelowPeak(init: World, es: seq<Event>, p: Policy)
    requires |Concurrent(init, p.tenant)| <= p.cap && Possible(Begin(init), es, p) && !Reviving(p)
    ensures |Sessions(Exec(Begin(init), es, p), p)| <= Admission.Peak(p.cap, p.n)
  {
    var place := PlaceOf(p.tenant);
    var s := Begin(init);
    assert Inv(s, p);
    assert Admission.InFlight(Rows(s), place) == {};
    ConcurrentHold(init, p.tenant);
    assert Admission.Reserved(Rows(s), place) == Concurrent(init, p.tenant);
    hide Inv, Possible, Exec, Reviving;
    ExecKeepsPeak(s, es, p);
    var s1 := Exec(s, es, p);
    ConcurrentHold(s1.lifecycle.sessions, p.tenant);
    SubsetSize(Sessions(s1, p), Admission.Reserved(Rows(s1), place));
  }

  // ----- runs in which nobody is admitted -----

  /** Only sessions that were there are live, or about to be written live. */
  ghost predicate Closed(s: State, was: set<string>, p: Policy) {
    && Admission.InFlight(Rows(s), PlaceOf(p.tenant)) == {}
    && Sessions(s, p) <= was
    && forall t :: t in s.lifecycle.tasks ==> WriterIn(s, was, p, t)
  }

  ghost predicate WriterIn(s: State, was: set<string>, p: Policy, t: nat)
    requires t in s.lifecycle.tasks
  {
    var task := s.lifecycle.tasks[t];
    SessionLocks.Working(task.pc) ==>
      && SessionLocks.Taskable(task.op) && task.op.sid in s.lifecycle.sessions && Shape(task.op, task.pc)
      && (LiveWriter(task) && s.lifecycle.sessions[task.op.sid].row.tenant == p.tenant ==> task.op.sid in was)
  }

  lemma {:induction false} LifecycleStaysIn(s: State, e: SessionLocks.Event, was: set<string>, p: Policy)
    requires Closed(s, was, p) && Enabled(s, Lifecycle(e), p)
    ensures Sessions(Next(s, Lifecycle(e)), p) <= was
  {
    var l := s.lifecycle;
    LifecycleWrites(l, e);
    if e.Advances? && SessionLocks.Working(l.tasks[e.task].pc) {
      var task := l.tasks[e.task];
      assert WriterIn(s, was, p, e.task);
      WorkKeeps(task.op, task.oracle, task.pc, l.sessions[task.op.sid]);
    }
    hide SessionLocks.Next, SessionLocks.Work, SessionLocks.Enabled, Admission.InFlight;
  }

  lemma {:induction false} LifecycleKeepsClosed(s: State, e: SessionLocks.Event, was: set<string>, p: Policy)
    requires Closed(s, was, p) && Enabled(s, Lifecycle(e), p)
    ensures Closed(Next(s, Lifecycle(e)), was, p)
  {
    var l, s1 := s.lifecycle, Next(s, Lifecycle(e));
    SessionLocks.StepShape(l, e);
    LifecycleWrites(l, e);
    OthersStay(l, e);
    LifecycleStaysIn(s, e, was, p);
    assert s1.creates == s.creates;
    assert Admission.InFlight(Rows(s1), PlaceOf(p.tenant)) == Admission.InFlight(Rows(s), PlaceOf(p.tenant));
    assert e.Advances? && SessionLocks.Working(l.tasks[e.task].pc) ==> WriterIn(s, was, p, e.task);
    hide SessionLocks.Next, SessionLocks.Work, SessionLocks.Enabled, Admission.InFlight, Sessions;
    if e.Advances? && SessionLocks.Working(l.tasks[e.task].pc) {
      var task := l.tasks[e.task];
      WorkKeeps(task.op, task.oracle, task.pc, l.sessions[task.op.sid]);
    }
    forall t | t in s1.lifecycle.tasks ensures WriterIn(s1, was, p, t) {
      if t == e.task {
        MovedWriterIn(s, e, was, p);
      } else {
        assert WriterIn(s, was, p, t);
      }
    }
  }

  lemma {:induction false} OthersStay(l: SessionLocks.State, e: SessionLocks.Event)
    requires SessionLocks.Enabled(l, e)
    ensures forall t :: t in l.tasks && t != e.task ==>
                          t in SessionLocks.Next(l, e).tasks && SessionLocks.Next(l, e).tasks[t] == l.tasks[t]
    ensures e.task in SessionLocks.Next(l, e).tasks
    ensures SessionLocks.Next(l, e).tasks[e.task].op == if e.Arrives? then e.op else l.tasks[e.task].op
  {
    hide SessionLocks.Work, SessionLocks.FetchPc;
  }

  lemma {:induction false} MovedWriterIn(s: State, e: SessionLocks.Event, was: set<string>, p: Policy)
    requires Closed(s, was, p) && Enabled(s, Lifecycle(e), p)
    ensures var s1 := Next(s, Lifecycle(e)); e.task in s1.lifecycle.tasks && WriterIn(s1, was, p, e.task)
  {
    var l, s1 := s.lifecycle, Next(s, Lifecycle(e));
    OthersStay(l, e);
    LifecycleWrites(l, e);
    MovedPc(l, e);
    assert e.Advances? ==> WriterIn(s, was, p, e.task);
    hide SessionLocks.Next, SessionLocks.Work, SessionLocks.FetchPc, Admission.InFlight;
    if SessionLocks.Working(s1.lifecycle.tasks[e.task].pc) {
      var task := l.tasks[e.task];
      var session := l.sessions[task.op.sid];
      if task.pc.Fetching? {
        FetchKeeps(task.op, session);
        assert !Destroying(task.op) && session.row.tenant == p.tenant ==> task.op.sid in Sessions(s, p);
      } else {
        WorkKeeps(task.op, task.oracle, task.pc, session);
      }
    }
  }

  lemma {:induction false} CreateKeepsClosed(s: State, e: Admission.Event<Session>, was: set<string>, p: Policy)
    requires Closed(s, was, p) && Enabled(s, Creating(e), p) && WithinFlight(Next(s, Creating(e)), p)
    requires p.cap == 0 || p.n == 0
    ensures Closed(Next(s, Creating(e)), was, p)
  {
    var place, s1 := PlaceOf(p.tenant), Next(s, Creating(e));
    var f, f1 := Admission.InFlight(Rows(s), place), Admission.InFlight(Rows(s1), place);
    if p.n > 0 {
      assert f1 <= f;
    }
    assert f1 == {};
    if e.Inserts? || e.Writes? {
      assert e.task !in f;
    }
    assert Sessions(s1, p) <= Sessions(s, p);
    forall t | t in s1.lifecycle.tasks ensures WriterIn(s1, was, p, t) {
      assert WriterIn(s, was, p, t);
    }
  }

  lemma {:induction false} ExecKeepsClosed(s: State, es: seq<Event>, was: set<string>, p: Policy)
    requires Closed(s, was, p) && Possible(s, es, p) && (p.cap == 0 || p.n == 0)
    ensures Closed(Exec(s, es, p), was, p)
    decreases |es|
  {
    if es != [] {
      assert Alive(s, es[0]);
      hide Closed, Next, WithinFlight, Enabled;
      match es[0] {
        case Lifecycle(step) => LifecycleKeepsClosed(s, step, was, p);
        case Creating(write) => CreateKeepsClosed(s, write, was, p);
      }
      ExecKeepsClosed(Next(s, es[0]), es[1..], was, p);
    }
  }

  // ----- runs that exceed the cap -----

  function Creatings(es: seq<Admission.Event<Session>>): seq<Event>
    decreases |es|
  {
    if es == [] then [] else [Creating(es[0])] + Creatings(es[1..])
  }

  /** Creates alone are runs of the admission pattern. */
  lemma {:induction false} CreatesAlone(s: State, es: seq<Admission.Event<Session>>, session: Session, p: Policy)
    requires Admission.Requests(es, session) && IsNew(session)
    requires Admission.Possible(Rows(s), es, PlaceOf(p.tenant), p.cap, p.n, false)
    ensures Possible(s, Creatings(es), p)
    ensures Rows(Exec(s, Creatings(es), p)) == Admission.Exec(Rows(s), es, PlaceOf(p.tenant), p.cap, p.n, false)
    decreases |es|
  {
    if es != [] {
      assert es[0] in es;
      var s1 := Next(s, Creating(es[0]));
      assert Rows(s1) == Admission.Next(Rows(s), es[0]);
      assert Enabled(s, Creating(es[0]), p) && WithinFlight(s1, p);
      assert Admission.Requests(es[1..], session);
      hide Next, Enabled, Admission.Next, Admission.Enabled, Rows, WithinFlight;
      CreatesAlone(s1, es[1..], session, p);
      assert Creatings(es)[1..] == Creatings(es[1..]);
    }
  }

  /** The bound is reached: as many creates as may be in flight, all counting before any of them inserts. */
  lemma {:induction false} OverlappingCreatesExceedCap(p: Policy) returns (es: seq<Event>)
    requires p.cap >= 1 && p.n >= 1
    ensures Possible(Begin(map[]), es, p)
    ensures |Sessions(Exec(Begin(map[]), es, p), p)| == p.cap + p.n - 1
  {
    var place, session := PlaceOf(p.tenant), Fresh("", p.tenant, 0);
    assert place(session) == Admission.Held && IsNew(session);
    assert Rows(Begin(map[])) == Admission.Idle(map[]);
    hide Possible, Exec, Admission.Possible, Admission.Exec, Rows;
    var requests := Admission.PeakIsReached(session, place, p.cap, p.n);
    es := Creatings(requests);
    CreatesAlone(Begin(map[]), requests, session, p);
    SessionsAreHolders(Exec(Begin(map[]), es, p), p);
  }

  lemma {:induction false} SessionsAreHolders(s: State, p: Policy)
    ensures Sessions(s, p) == Admission.Holders(Rows(s).table, PlaceOf(p.tenant))
  {
    ConcurrentHold(s.lifecycle.sessions, p.tenant);
  }

  function Lifecycles(es: seq<SessionLocks.Event>): seq<Event>
    decreases |es|
  {
    if es == [] then [] else [Lifecycle(es[0])] + Lifecycles(es[1..])
  }

  /** Lifecycle operations alone are runs of theirs. */
  lemma {:induction false} LifecycleAlone(l: SessionLocks.State, es: seq<SessionLocks.Event>, p: Policy)
    requires SessionLocks.Possible(l, es) && SessionLocks.Admits(es, p.allowed)
    ensures Possible(State(l, map[]), Lifecycles(es), p)
    ensures Exec(State(l, map[]), Lifecycles(es), p) == State(SessionLocks.Exec(l, es), map[])
    decreases |es|
  {
    if es != [] {
      var s, l1 := State(l, map[]), SessionLocks.Next(l, es[0]);
      assert Next(s, Lifecycle(es[0])) == State(l1, map[]);
      assert Admission.InFlight(Rows(State(l1, map[])), PlaceOf(p.tenant)) == {};
      assert Enabled(s, Lifecycle(es[0]), p) && WithinFlight(State(l1, map[]), p);
      assert SessionLocks.Admits(es[1..], p.allowed) by {
        assert forall i :: 0 <= i < |es[1..]| ==> es[1..][i] == es[i + 1];
      }
      hide Next, Enabled, SessionLocks.Next, SessionLocks.Enabled, WithinFlight;
      LifecycleAlone(l1, es[1..], p);
      assert Lifecycles(es)[1..] == Lifecycles(es[1..]);
    }
  }

  lemma {:induction false} ExecAppend(s: State, es: seq<Event>, e: Event, p: Policy)
    requires Possible(s, es, p)
    requires Enabled(Exec(s, es, p), e, p) && WithinFlight(Next(Exec(s, es, p), e), p)
    ensures Possible(s, es + [e], p) && Exec(s, es + [e], p) == Next(Exec(s, es, p), e)
    decreases |es|
  {
    if es == [] {
      assert (es + [e])[0] == e && (es + [e])[1..] == [];
    } else {
      assert (es + [e])[0] == es[0] && (es + [e])[1..] == es[1..] + [e];
      assert Alive(s, es[0]);
      hide Next, Enabled, WithinFlight;
      ExecAppend(Next(s, es[0]), es[1..], e, p);
    }
  }

  function Name(length: nat): (name: string)
    ensures |name| == length
  {
    seq(length, _ => ' ')
  }

  /** `k` sessions with names longer than `from`. */
  function Crowd(k: nat, from: nat, session: Session): World {
    if k == 0 then map[] else Crowd(k - 1, from, session)[Name(from + k) := session]
  }

  lemma {:induction false} CrowdSize(k: nat, from: nat, session: Session)
    ensures forall sid :: sid in Crowd(k, from, session) ==>
                            Crowd(k, from, session)[sid] == session && from < |sid| <= from + k
    ensures |Crowd(k, from, session).Keys| == k
    decreases k
  {
    hide Name;
    if k > 0 {
      CrowdSize(k - 1, from, session);
      var crowd, name := Crowd(k - 1, from, session), Name(from + k);
      assert Crowd(k, from, session) == crowd[name := session];
      hide Crowd;
      assert name !in crowd;
      assert crowd[name := session].Keys == crowd.Keys + {name};
    }
  }

  lemma {:induction false} AllLive(w: World, session: Session, tenant: string)
    requires session.row.tenant == tenant && Live(session.row.status)
    requires forall sid :: sid in w ==> w[sid] == session
    ensures Concurrent(w, tenant) == w.Keys
  {
  }

  /** A full table of the tenant's sessions, one of them STOPPED. */
  lemma {:induction false} FullTable(op: Op, p: Policy) returns (init: World)
    requires op.AutoResume? && op.tenant == p.tenant && p.cap >= 1
    ensures SessionLocks.Resumable(init, op)
    ensures |Concurrent(init, p.tenant)| == p.cap && Concurrent(init, p.tenant) == init.Keys
    ensures Name(|op.sid| + p.cap) !in init
  {
    var session := Session(Row(op.tenant, STOPPED, Some(""), "", 0, 0, None), Stopped, true);
    var crowd := Crowd(p.cap - 1, |op.sid|, session);
    CrowdSize(p.cap - 1, |op.sid|, session);
    hide Crowd, Name;
    assert op.sid !in crowd;
    init := crowd[op.sid := session];
    AllLive(init, session, p.tenant);
    assert init.Keys == crowd.Keys + {op.sid};
    hide Concurrent;
  }

  /** A resume without the lock has found a session of a full table STOPPED, and a destroy has recorded
      DESTROYING. */
  lemma {:induction false} PlaceGivenUp(op: Op, op2: Op, p: Policy) returns (init: World, es: seq<Event>, s: State)
    requires SessionLocks.ResumeAndDestroy(op, op2) && op.tenant == p.tenant && p.allowed(op) && p.allowed(op2)
    requires p.cap >= 1 && p.n >= 1
    ensures |Concurrent(init, p.tenant)| == p.cap
    ensures Possible(Begin(init), es, p) && Exec(Begin(init), es, p) == s && s.creates == map[]
    ensures |Sessions(s, p)| == p.cap - 1 && op.sid in s.lifecycle.sessions && op.sid !in Sessions(s, p)
    ensures s.lifecycle.sessions[op.sid].row.tenant == p.tenant
    ensures Name(|op.sid| + p.cap) !in s.lifecycle.sessions
    ensures 0 in s.lifecycle.tasks && s.lifecycle.tasks[0].op == op
    ensures s.lifecycle.tasks[0].pc.MoveWrite? && s.lifecycle.tasks[0].pc.to == RUNNING
  {
    init := FullTable(op, p);
    var o := Oracle((_, _) => 0, (_, _) => Fine, _ => "", true);
    var steps, l := SessionLocks.DestroyHalfway(init, op, op2, o, o);
    assert SessionLocks.Possible(SessionLocks.Start(init), steps);
    assert SessionLocks.Exec(SessionLocks.Start(init), steps) == l;
    assert SessionLocks.Admits(steps, p.allowed);
    hide Possible, Exec, SessionLocks.Possible, SessionLocks.Exec, SessionLocks.Consistent;
    LifecycleAlone(SessionLocks.Start(init), steps, p);
    es, s := Lifecycles(steps), State(l, map[]);
    assert Sessions(s, p) == Concurrent(init, p.tenant) - {op.sid};
  }

  /** One create at a time exceeds the cap: it takes the place a destroy has given up, and then the resume, which
      has not looked again, gives it back. */
  lemma {:induction false} RevivalExceedsCap(op: Op, op2: Op, p: Policy) returns (init: World, es: seq<Event>)
    requires SessionLocks.ResumeAndDestroy(op, op2) && op.tenant == p.tenant && p.allowed(op) && p.allowed(op2)
    requires p.cap >= 1 && p.n >= 1
    ensures |Concurrent(init, p.tenant)| == p.cap && Possible(Begin(init), es, p)
    ensures |Sessions(Exec(Begin(init), es, p), p)| == p.cap + 1
  {
    var s;
    init, es, s := PlaceGivenUp(op, op2, p);
    hide Possible, Exec;
    var sid := Name(|op.sid| + p.cap);
    var s2;
    es, s2 := OneCreate(init, es, s, sid, p);
    var back := Lifecycle(SessionLocks.Advances(0));
    RunningAgain(s2, op, p);
    ExecAppend(Begin(init), es, back, p);
    es := es + [back];
  }

  /** The two steps of one create, with no other in flight. */
  lemma {:induction false} CreateAlone(s: State, sid: string, p: Policy)
    requires s.creates == map[] && |Sessions(s, p)| < p.cap && p.n >= 1 && sid !in s.lifecycle.sessions
    ensures var session := Fresh(sid, p.tenant, 0);
            var counts, inserts := Creating(Admission.Counts(0, sid, session)), Creating(Admission.Inserts(0));
            var l := s.lifecycle;
            var counted := State(l, map[0 := Admission.Claim(sid, session, false)]);
            var inserted := State(l.(sessions := l.sessions[sid := session]),
                                  map[0 := Admission.Claim(sid, session, true)]);
            && Enabled(s, counts, p) && Next(s, counts) == counted && WithinFlight(counted, p)
            && Enabled(counted, inserts, p) && Next(counted, inserts) == inserted && WithinFlight(inserted, p)
  {
    var session := Fresh(sid, p.tenant, 0);
    SessionsAreHolders(s, p);
    var counted := State(s.lifecycle, map[0 := Admission.Claim(sid, session, false)]);
    var inserted := Next(counted, Creating(Admission.Inserts(0)));
    assert Next(s, Creating(Admission.Counts(0, sid, session))) == counted;
    assert Admission.InFlight(Rows(counted), PlaceOf(p.tenant)) == {0};
    assert Admission.InFlight(Rows(inserted), PlaceOf(p.tenant)) == {0};
  }

  lemma {:induction false} FreshTakesAPlace(w: World, sid: string, tenant: string)
    requires sid !in w
    ensures Concurrent(w[sid := Fresh(sid, tenant, 0)], tenant) == Concurrent(w, tenant) + {sid}
    ensures sid !in Concurrent(w, tenant)
  {
  }

  /** One create, from its count to its insert. */
  lemma {:induction false} OneCreate(init: World, es: seq<Event>, s: State, sid: string, p: Policy)
      returns (es1: seq<Event>, s1: State)
    requires Possible(Begin(init), es, p) && Exec(Begin(init), es, p) == s && s.creates == map[]
    requires |Sessions(s, p)| < p.cap && p.n >= 1 && sid !in s.lifecycle.sessions
    ensures Possible(Begin(init), es1, p) && Exec(Begin(init), es1, p) == s1 && WithinFlight(s1, p)
    ensures s1.lifecycle == s.lifecycle.(sessions := s.lifecycle.sessions[sid := Fresh(sid, p.tenant, 0)])
    ensures |Sessions(s1, p)| == |Sessions(s, p)| + 1 && Sessions(s1, p) == Sessions(s, p) + {sid}
  {
    var session := Fresh(sid, p.tenant, 0);
    var counts, inserts := Creating(Admission.Counts(0, sid, session)), Creating(Admission.Inserts(0));
    CreateAlone(s, sid, p);
    FreshTakesAPlace(s.lifecycle.sessions, sid, p.tenant);
    hide Possible, Exec, Next, Enabled, Alive, WithinFlight, Fresh, Concurrent;
    ExecAppend(Begin(init), es, counts, p);
    ExecAppend(Begin(init), es + [counts], inserts, p);
    es1, s1 := es + [counts] + [inserts], Exec(Begin(init), es + [counts] + [inserts], p);
  }

  lemma {:induction false} RunningWorked(l: SessionLocks.State, t: nat, tenant: string)
    requires t in l.tasks && SessionLocks.Taskable(l.tasks[t].op) && l.tasks[t].op.sid in l.sessions
    requires l.tasks[t].pc.MoveWrite? && l.tasks[t].pc.to == RUNNING
    requires l.sessions[l.tasks[t].op.sid].row.tenant == tenant
    ensures Concurrent(Worked(l, t), tenant) == Concurrent(l.sessions, tenant) + {l.tasks[t].op.sid}
  {
  }

  /** The resume's UPDATE. */
  lemma {:induction false} RunningAgain(s: State, op: Op, p: Policy)
    requires op.AutoResume? && op.sid in s.lifecycle.sessions && op.sid !in Sessions(s, p) && WithinFlight(s, p)
    requires s.lifecycle.sessions[op.sid].row.tenant == p.tenant
    requires 0 in s.lifecycle.tasks && s.lifecycle.tasks[0].op == op
    requires s.lifecycle.tasks[0].pc.MoveWrite? && s.lifecycle.tasks[0].pc.to == RUNNING
    ensures var back := Lifecycle(SessionLocks.Advances(0));
            && Enabled(s, back, p) && WithinFlight(Next(s, back), p)
            && |Sessions(Next(s, back), p)| == |Sessions(s, p)| + 1
  {
    var back := Lifecycle(SessionLocks.Advances(0));
    var s1 := Next(s, back);
    assert Enabled(s, back, p) && s1.creates == s.creates;
    LifecycleWrites(s.lifecycle, back.step);
    hide SessionLocks.Next, SessionLocks.Work, SessionLocks.Enabled;
    SameFlight(s, s1, p);
    RunningWorked(s.lifecycle, 0, p.tenant);
    hide Worked;
    assert Sessions(s1, p) == Sessions(s, p) + {op.sid};
  }

  lemma {:induction false} SameFlight(s: State, s1: State, p: Policy)
    requires s1.creates == s.creates && WithinFlight(s, p)
    ensures WithinFlight(s1, p)
  {
    assert Admission.InFlight(Rows(s1), PlaceOf(p.tenant)) == Admission.InFlight(Rows(s), PlaceOf(p.tenant));
  }

  // ----- when the cap holds -----

  /** In every run, from any table within the cap. */
  ghost predicate AlwaysKeepsCap(p: Policy) {
    forall init: World, es: seq<Event> ::
      (|Concurrent(init, p.tenant)| <= p.cap && Possible(Begin(init), es, p)) ==>
        |Sessions(Exec(Begin(init), es, p), p)| <= p.cap
  }

  lemma {:induction false} ClosedKeepsCap(init: World, es: seq<Event>, p: Policy)
    requires |Concurrent(init, p.tenant)| <= p.cap && Possible(Begin(init), es, p) && (p.cap == 0 || p.n == 0)
    ensures |Sessions(Exec(Begin(init), es, p), p)| <= p.cap
  {
    var was := Concurrent(init, p.tenant);
    assert Admission.InFlight(Rows(Begin(init)), PlaceOf(p.tenant)) == {};
    assert Closed(Begin(init), was, p);
    hide Possible, Exec;
    ExecKeepsClosed(Begin(init), es, was, p);
    SubsetSize(Sessions(Exec(Begin(init), es, p), p), was);
  }

  /** The exact condition: nobody is ever admitted; or the tenant's creates never overlap, from their count until
      they return, and no session of it that may be destroyed may be resumed without the lock. */
  lemma {:induction false} CreatesKeepCapIff(p: Policy)
    ensures AlwaysKeepsCap(p) <==> p.cap == 0 || p.n == 0 || (p.n == 1 && !Reviving(p))
  {
    hide Possible, Exec, Sessions;
    if p.cap == 0 || p.n == 0 {
      forall init: World, es: seq<Event> | |Concurrent(init, p.tenant)| <= p.cap && Possible(Begin(init), es, p)
        ensures |Sessions(Exec(Begin(init), es, p), p)| <= p.cap
      {
        ClosedKeepsCap(init, es, p);
      }
    } else if Reviving(p) {
      var op, op2 :| SessionLocks.ResumeAndDestroy(op, op2) && op.tenant == p.tenant && p.allowed(op) && p.allowed(op2);
      var init, es := RevivalExceedsCap(op, op2, p);
    } else if p.n == 1 {
      forall init: World, es: seq<Event> | |Concurrent(init, p.tenant)| <= p.cap && Possible(Begin(init), es, p)
        ensures |Sessions(Exec(Begin(init), es, p), p)| <= p.cap
      {
        CreatesStayBelowPeak(init, es, p);
      }
    } else {
      var es := OverlappingCreatesExceedCap(p);
      var none: World := map[];
      assert Concurrent(none, p.tenant) == {};
      assert Possible(Begin(none), es, p);
    }
  }
}
