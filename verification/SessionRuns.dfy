/** Runs: any sequence of complete lifecycle operations, with any Docker failures and any clock that
    does not go backwards. */
module SessionRuns {
  import opened Wrappers
  import opened Registry
  import opened SessionEffects
  import Admission

  type World = map<string, Session>

  datatype Op =
    | Create(sid: string, tenant: string)
    | Stop(sid: string, tenant: string)
    | Resume(sid: string, tenant: string)
    | Destroy(sid: string, tenant: string)
    | ReapStop(sid: string)
    | ReapDestroy(sid: string)
    | AutoResume(sid: string, tenant: string, audited: bool)
    | Touch(sid: string)
    | Reconcile
    | ContainerVanishes(sid: string)  // removed behind the API's back

  function TouchEffect(sid: string, s: Session, o: Oracle): Effect {
    Unchanged(s.(row := Touched(s.row, o.clock(sid, s.row.status))), Ok)
  }

  /** What `op` does to a session that already has a row. */
  function EffectOn(op: Op, sid: string, s: Session, o: Oracle): Effect {
    if op.Reconcile? then ReconcileEffect(sid, s, o)
    else if op.sid != sid then Unchanged(s, Ok)
    else match op
      case Create(_, _) => Unchanged(s, Ok)  // an id already in the table is never created again
      case Stop(_, tenant) => StopEffect(sid, tenant, s, o)
      case Resume(_, tenant) => ResumeEffect(sid, tenant, s, o)
      case Destroy(_, tenant) => DestroyEffect(sid, tenant, s, o)
      case ReapStop(_) => ReapStopEffect(sid, s, o)
      case ReapDestroy(_) => ReapDestroyEffect(sid, s, o)
      case AutoResume(_, tenant, audited) => AutoResumeEffect(sid, tenant, audited, s, o)
      case Touch(_) => TouchEffect(sid, s, o)
      case ContainerVanishes(_) => Unchanged(s.(container := Absent), Ok)
  }

  /** The API operations check the audit log before anything else; the reaper's, and reading and listing files, do
      not. */
  predicate Prechecked(op: Op) {
    op.Create? || op.Stop? || op.Resume? || op.Destroy? || (op.AutoResume? && op.audited)
  }

  ghost function Concurrent(w: World, tenant: string): set<string> {
    set sid | sid in w && w[sid].row.tenant == tenant && Live(w[sid].row.status)
  }

  /** A create is admitted when the audit log is healthy and the tenant is below its cap. */
  ghost predicate Admitted(w: World, op: Op, o: Oracle, cap: int)
    requires op.Create?
  {
    op.sid !in w && o.auditHealthy && |Concurrent(w, op.tenant)| < cap
  }

  ghost function Apply(w: World, op: Op, o: Oracle, cap: int): World {
    if op.Create? then
      if Admitted(w, op, o, cap) then w[op.sid := CreateEffect(op.sid, op.tenant, o).session] else w
    else map sid | sid in w :: EffectOn(op, sid, w[sid], o).session
  }

  /** `w` with `f` applied to the sessions in `done` only. */
  ghost function Patched(w: World, done: set<string>, f: (string, Session) -> Session): World {
    map sid | sid in w :: if sid in done then f(sid, w[sid]) else w[sid]
  }

  lemma {:induction false} PatchNone(w: World, f: (string, Session) -> Session)
    ensures Patched(w, {}, f) == w
  {
  }

  lemma {:induction false} PatchOneMore(w: World, done: set<string>, sid: string, f: (string, Session) -> Session)
    requires sid in w && sid !in done
    ensures sid in Patched(w, done, f) && Patched(w, done, f)[sid] == w[sid]
    ensures Patched(w, done, f)[sid := f(sid, w[sid])] == Patched(w, done + {sid}, f)
  {
  }

  /** The rows whose interrupted destroy reconciliation completes. */
  ghost function Finished(w: World, o: Oracle): set<string> {
    set sid | sid in w && w[sid].row.status == DESTROYING && Teardown(sid, w[sid], o).1
  }

  /** The rows reconciliation counts as orphaned: a live row with no container id, whatever its status,
      or one not STOPPED whose container is gone. */
  predicate CountedOrphan(s: Session) {
    Live(s.row.status) && (s.row.containerId == None || (s.container == Absent && s.row.status != STOPPED))
  }

  ghost function Orphans(w: World): set<string> {
    set sid | sid in w && CountedOrphan(w[sid])
  }

  datatype Event = Event(op: Op, oracle: Oracle, after: int)

  /** The event's clock readings lie between `before` and its own end, a row's insertion first. */
  ghost predicate Timed(e: Event, before: int) {
    && before <= e.after
    && forall sid, st :: before <= e.oracle.clock(sid, CREATING) <= e.oracle.clock(sid, st) <= e.after
  }

  ghost predicate RunTimed(es: seq<Event>, before: int) {
    es == [] || (Timed(es[0], before) && RunTimed(es[1..], es[0].after))
  }

  ghost function Run(w: World, es: seq<Event>, cap: int): World
    decreases |es|
  {
    if es == [] then w else Run(Apply(w, es[0].op, es[0].oracle, cap), es[1..], cap)
  }

  function End(es: seq<Event>, before: int): int {
    if es == [] then before else es[|es| - 1].after
  }

  // ----- what holds of every row, at every point of every run -----

  ghost predicate RowSound(r: Row, now: int) {
    && r.status != IDLE
    && (r.destroyedAt.Some? <==> r.status == DESTROYED)
    && (r.status == RUNNING ==> r.containerId.Some?)
    && r.createdAt <= r.lastActivityAt <= now
  }

  ghost predicate WorldSound(w: World, now: int) {
    forall sid :: sid in w ==> RowSound(w[sid].row, now)
  }

  /** The single recovery edge the transition table lacks. */
  predicate Recovery(a: Status, b: Status) {
    a in {CREATING, RUNNING, IDLE} && b == STOPPED
  }

  predicate Path(a: Status, trail: seq<Status>, b: Status)
    decreases |trail|
  {
    if trail == [] then a == b
    else (trail[0] in Transitions(a) || Recovery(a, trail[0])) && Path(trail[0], trail[1..], b)
  }

  lemma {:induction false} PathToDestroyed(a: Status)
    requires Live(a)
    ensures Path(a, [DESTROYING, DESTROYED], DESTROYED)
  {
    assert [DESTROYING, DESTROYED][1..] == [DESTROYED] && [DESTROYED][1..] == [];
    assert Path(DESTROYING, [DESTROYED], DESTROYED);
  }

  /** Every status change of every operation is an edge of the transition table, or the recovery edge
      and then only in reconciliation; IDLE is never written. */
  lemma {:induction false} EffectFollowsEdges(op: Op, sid: string, s: Session, o: Oracle)
    ensures var e := EffectOn(op, sid, s, o);
            && Path(s.row.status, e.trail, e.session.row.status)
            && IDLE !in e.trail
            && (!op.Reconcile? && e.trail != [] ==> e.trail[0] in Transitions(s.row.status))
  {
    hide DestroyLocked;
    var e := EffectOn(op, sid, s, o);
    if Live(s.row.status) {
      PathToDestroyed(s.row.status);
    }
    assert |e.trail| == 1 ==> e.trail[1..] == [];
  }

  /** A new session starts at CREATING and follows the table too. */
  lemma {:induction false} CreateFollowsEdges(sid: string, tenant: string, o: Oracle)
    ensures var e := CreateEffect(sid, tenant, o);
            && e.trail != [] && e.trail[0] == CREATING && IDLE !in e.trail
            && Path(CREATING, e.trail[1..], e.session.row.status)
  {
    hide Rollback;
    var rest := CreateEffect(sid, tenant, o).trail[1..];
    assert rest == [] || rest == [RUNNING] || rest == [DESTROYING, DESTROYED];
    PathToDestroyed(CREATING);
    assert rest == [RUNNING] ==> rest[1..] == [];
  }

  lemma {:induction false} EffectKeepsRowSound(op: Op, sid: string, s: Session, e: Event, before: int)
    requires Timed(e, before) && RowSound(s.row, before)
    ensures RowSound(EffectOn(op, sid, s, e.oracle).session.row, e.after)
  {
    hide DestroyLocked;
    assert forall st :: before <= e.oracle.clock(sid, st) <= e.after;
  }

  lemma {:induction false} CreateIsSound(sid: string, tenant: string, e: Event, before: int)
    requires Timed(e, before)
    ensures RowSound(CreateEffect(sid, tenant, e.oracle).session.row, e.after)
  {
    hide Rollback;
    assert forall st :: e.oracle.clock(sid, CREATING) <= e.oracle.clock(sid, st) <= e.after;
  }

  lemma {:induction false} ApplyKeepsSound(w: World, e: Event, cap: int, before: int)
    requires Timed(e, before) && WorldSound(w, before)
    ensures WorldSound(Apply(w, e.op, e.oracle, cap), e.after)
  {
    if e.op.Create? {
      CreateIsSound(e.op.sid, e.op.tenant, e, before);
    } else {
      forall sid | sid in w ensures RowSound(EffectOn(e.op, sid, w[sid], e.oracle).session.row, e.after) {
        EffectKeepsRowSound(e.op, sid, w[sid], e, before);
      }
    }
  }

  /** Safety over whole runs: IDLE never appears, destroyed_at is set exactly on DESTROYED rows, a
      RUNNING row has a container id, and created_at <= last_activity_at <= now. */
  lemma {:induction false} RunKeepsSound(w: World, es: seq<Event>, cap: int, before: int)
    requires WorldSound(w, before) && RunTimed(es, before)
    ensures WorldSound(Run(w, es, cap), End(es, before))
    decreases |es|
  {
    if es != [] {
      ApplyKeepsSound(w, es[0], cap, before);
      RunKeepsSound(Apply(w, es[0].op, es[0].oracle, cap), es[1..], cap, es[0].after);
    }
  }

  /** last_activity_at moves exactly with the status, to the time of that write, or when a RUNNING or IDLE row is
      touched; destroyed_at is the time of the write of DESTROYED; nothing else in a row ever changes. */
  lemma {:induction false} StampsFollowStatus(op: Op, sid: string, s: Session, o: Oracle)
    ensures var r, r' := s.row, EffectOn(op, sid, s, o).session.row;
            && r' == r.(status := r'.status, lastActivityAt := r'.lastActivityAt, destroyedAt := r'.destroyedAt)
            && (r'.status != r.status ==> r'.lastActivityAt == o.clock(sid, r'.status))
            && (r'.status == r.status ==>
                  r'.lastActivityAt == if op == Touch(sid) && r.status in {RUNNING, IDLE} then o.clock(sid, r.status)
                                       else r.lastActivityAt)
            && r'.destroyedAt == if r'.status == DESTROYED && r.status != DESTROYED then Some(o.clock(sid, DESTROYED))
                                 else r.destroyedAt
  {
    hide CreateEffect;
  }

  // ----- an audit log that cannot be written -----

  /** On every row, an operation that checks the audit log ends in its refusal, with nothing changed, exactly when
      the log is unhealthy; for any other operation the log makes no difference. */
  lemma {:induction false} AuditRefusesIffUnhealthy(op: Op, sid: string, s: Session, o: Oracle)
    requires !op.Create? && (op.Reconcile? || op.sid == sid)
    ensures var e := EffectOn(op, sid, s, o);
            && (Prechecked(op) && !o.auditHealthy ==> e == Unchanged(s, AuditUnhealthy))
            && (e.outcome == AuditUnhealthy ==> Prechecked(op) && !o.auditHealthy)
            && (!Prechecked(op) ==> EffectOn(op, sid, s, o.(auditHealthy := !o.auditHealthy)) == e)
  {
    hide CreateEffect;
  }

  predicate RefusedByAudit(e: Event) {
    Prechecked(e.op) && !e.oracle.auditHealthy
  }

  /** The run without the operations that met an unhealthy audit log. */
  function Heeded(es: seq<Event>): seq<Event>
    decreases |es|
  {
    if es == [] then [] else (if RefusedByAudit(es[0]) then [] else [es[0]]) + Heeded(es[1..])
  }

  lemma {:induction false} RefusedChangesNothing(w: World, e: Event, cap: int)
    requires RefusedByAudit(e)
    ensures Apply(w, e.op, e.oracle, cap) == w
  {
    if !e.op.Create? {
      forall sid | sid in w ensures EffectOn(e.op, sid, w[sid], e.oracle).session == w[sid] {
        if e.op.sid == sid {
          AuditRefusesIffUnhealthy(e.op, sid, w[sid], e.oracle);
        }
      }
    }
  }

  /** Fail-closed, over any run: API operations that meet an unhealthy audit log, creates included, might as well
      not have been asked for. */
  lemma {:induction false} UnhealthyAuditChangesNothing(w: World, es: seq<Event>, cap: int)
    ensures Run(w, es, cap) == Run(w, Heeded(es), cap)
    decreases |es|
  {
    if es != [] {
      var w1 := Apply(w, es[0].op, es[0].oracle, cap);
      if RefusedByAudit(es[0]) {
        RefusedChangesNothing(w, es[0], cap);
        assert [] + Heeded(es[1..]) == Heeded(es[1..]);
      } else {
        assert Heeded(es)[0] == es[0] && Heeded(es)[1..] == Heeded(es[1..]);
      }
      hide Apply, RefusedByAudit;
      UnhealthyAuditChangesNothing(w1, es[1..], cap);
    }
  }

  // ----- other tenants -----

  /** The operations that name a tenant. */
  predicate Scoped(op: Op) {
    op.Stop? || op.Resume? || op.Destroy? || op.AutoResume?
  }

  /** A tenant's operation does not find the session exactly when it belongs to another tenant or is DESTROYED, and
      then leaves it alone. */
  lemma {:induction false} NotFoundIff(op: Op, sid: string, s: Session, o: Oracle)
    requires Scoped(op) && op.sid == sid
    ensures var e := EffectOn(op, sid, s, o);
            && (e.outcome == SessionNotFound <==>
                (Prechecked(op) ==> o.auditHealthy) && (s.row.tenant != op.tenant || s.row.status == DESTROYED))
            && (s.row.tenant != op.tenant || s.row.status == DESTROYED ==> e.session == s)
  {
    hide CreateEffect;
  }

  predicate Foreign(op: Op, tenant: string) {
    (Scoped(op) || op.Create?) && op.tenant != tenant
  }

  /** The run without the operations of other tenants. */
  function OwnOnly(es: seq<Event>, tenant: string): seq<Event>
    decreases |es|
  {
    if es == [] then [] else (if Foreign(es[0].op, tenant) then [] else [es[0]]) + OwnOnly(es[1..], tenant)
  }

  lemma {:induction false} AppliedTo(w: World, e: Event, cap: int, sid: string)
    requires sid in w
    ensures var w1 := Apply(w, e.op, e.oracle, cap);
            && sid in w1
            && w1[sid] == (if e.op.Create? then w[sid] else EffectOn(e.op, sid, w[sid], e.oracle).session)
            && w1[sid].row.tenant == w[sid].row.tenant
            && (Foreign(e.op, w[sid].row.tenant) ==> w1[sid] == w[sid])
  {
    StampsFollowStatus(e.op, sid, w[sid], e.oracle);
    if Scoped(e.op) && e.op.sid == sid {
      NotFoundIff(e.op, sid, w[sid], e.oracle);
    }
    hide EffectOn, CreateEffect;
  }

  /** Isolation, over any run: what becomes of a session is what its own tenant's operations and the reaper's make of
      it, whatever other tenants do, even in a world where all other sessions are different. */
  lemma {:induction false} OtherTenantsDoNothing(w: World, v: World, es: seq<Event>, cap: int, sid: string)
    requires sid in w && sid in v && w[sid] == v[sid]
    ensures var w', v' := Run(w, es, cap), Run(v, OwnOnly(es, w[sid].row.tenant), cap);
            sid in w' && sid in v' && w'[sid] == v'[sid]
    decreases |es|
  {
    if es != [] {
      var tenant, e := w[sid].row.tenant, es[0];
      AppliedTo(w, e, cap, sid);
      AppliedTo(v, e, cap, sid);
      var w1, v1 := Apply(w, e.op, e.oracle, cap), v;
      if Foreign(e.op, tenant) {
        assert [] + OwnOnly(es[1..], tenant) == OwnOnly(es[1..], tenant);
      } else {
        v1 := Apply(v, e.op, e.oracle, cap);
        assert OwnOnly(es, tenant)[0] == e && OwnOnly(es, tenant)[1..] == OwnOnly(es[1..], tenant);
      }
      hide Apply, Foreign, EffectOn;
      OtherTenantsDoNothing(w1, v1, es[1..], cap, sid);
    }
  }

  // ----- the table -----

  /** Where each status can be entered from: CREATING from nowhere, IDLE only from RUNNING, STOPPED from the sweepable
      two, RUNNING from what is not running, DESTROYING from anything live, DESTROYED only from DESTROYING. */
  lemma {:induction false} EnteredFrom(a: Status, b: Status)
    ensures b in Transitions(a) <==>
            match b
            case CREATING => false
            case RUNNING => a in {CREATING, IDLE, STOPPED}
            case IDLE => a == RUNNING
            case STOPPED => a in {RUNNING, IDLE}
            case DESTROYING => a in {CREATING, RUNNING, IDLE, STOPPED}
            case DESTROYED => a == DESTROYING
  {
  }

  // ----- destruction is final -----

  lemma {:induction false} EffectKeepsDestruction(op: Op, sid: string, s: Session, o: Oracle)
    requires !Live(s.row.status)
    ensures var e := EffectOn(op, sid, s, o);
            !Live(e.session.row.status) && (s.row.status == DESTROYED ==> e.session.row == s.row)
  {
    hide CreateEffect;
  }

  /** From DESTROYING a row can only go to DESTROYED; a DESTROYED row never changes again, and rows
      are never deleted. */
  lemma {:induction false} DestructionIsFinal(w: World, es: seq<Event>, cap: int, sid: string)
    requires sid in w && !Live(w[sid].row.status)
    ensures var w' := Run(w, es, cap);
            && sid in w' && !Live(w'[sid].row.status)
            && (w[sid].row.status == DESTROYED ==> w'[sid].row == w[sid].row)
    decreases |es|
  {
    hide EffectOn, CreateEffect;
    if es != [] {
      EffectKeepsDestruction(es[0].op, sid, w[sid], es[0].oracle);
      DestructionIsFinal(Apply(w, es[0].op, es[0].oracle, cap), es[1..], cap, sid);
    }
  }

  ghost predicate NoVanishing(es: seq<Event>, sid: string) {
    forall i :: 0 <= i < |es| ==> es[i].op != ContainerVanishes(sid)
  }

  /** Whatever a session leaves behind in Docker when its row turns DESTROYED stays for good: no later
      operation, reap or reconciliation touches it again. */
  lemma {:induction false} LeftoversAreForGood(w: World, es: seq<Event>, cap: int, sid: string)
    requires sid in w && w[sid].row.status == DESTROYED && NoVanishing(es, sid)
    ensures var w' := Run(w, es, cap); sid in w' && w'[sid] == w[sid]
    decreases |es|
  {
    if es != [] {
      var w1 := Apply(w, es[0].op, es[0].oracle, cap);
      assert es[0].op != ContainerVanishes(sid);
      assert NoVanishing(es[1..], sid) by {
        forall i | 0 <= i < |es[1..]| ensures es[1..][i].op != ContainerVanishes(sid) {
          assert es[1..][i] == es[i + 1];
        }
      }
      LeftoversAreForGood(w1, es[1..], cap, sid);
    }
  }

  // ----- exactly when a session stops and starts -----

  /** A stop reaches Docker for a RUNNING or IDLE session of the caller with a container id; it then stops the
      container it finds, if the call takes effect, and records STOPPED only if the call returned. */
  lemma {:induction false} StopsIff(op: Op, sid: string, s: Session, o: Oracle)
    requires (op.Stop? || op.ReapStop?) && op.sid == sid
    ensures var e := EffectOn(op, sid, s, o);
            var reached := && (op.Stop? ==> o.auditHealthy && s.row.tenant == op.tenant)
                           && s.row.status in {RUNNING, IDLE} && s.row.containerId.Some?;
            && e.session.row.status == (if reached && o.fault(sid, StopContainer) == Fine then STOPPED
                                        else s.row.status)
            && e.session.container == (if reached && s.container != Absent && o.fault(sid, StopContainer) != Lost
                                       then Stopped else s.container)
            && e.session.volume == s.volume
            && (e.outcome == Ok <==> if reached then o.fault(sid, StopContainer) == Fine
                                     else op.ReapStop? && s.row.status !in {RUNNING, IDLE})
  {
    hide CreateEffect;
  }

  /** A resume, by the caller or for exec and file operations, reaches Docker for a STOPPED or IDLE session of the
      caller with a container id; a container that is gone, or a call that raises, leaves the row as it was. */
  lemma {:induction false} ResumesIff(op: Op, sid: string, s: Session, o: Oracle)
    requires (op.Resume? || op.AutoResume?) && op.sid == sid
    ensures var e := EffectOn(op, sid, s, o);
            var found := (Prechecked(op) ==> o.auditHealthy) && s.row.tenant == op.tenant;
            var reached := found && s.row.status in {STOPPED, IDLE} && s.row.containerId.Some? && s.container != Absent;
            var f := o.fault(sid, StartContainer);
            && e.session.row.status == (if reached && f == Fine then RUNNING else s.row.status)
            && e.session.container == (if reached && f != Lost then Running else s.container)
            && e.session.volume == s.volume
            && (e.outcome == Ok <==> (reached && f == Fine) || (op.AutoResume? && found && s.row.status == RUNNING))
  {
    hide CreateEffect;
  }

  // ----- which destroys and failed creates leave something behind -----

  ghost predicate Clean(s: Session) {
    s.container == Absent && !s.volume
  }

  /** A destroy always records DESTROYED; it leaves nothing behind exactly when the container and
      volume removals that had something to remove were reached and took effect. */
  lemma {:induction false} DestroyLeavesNothingIff(sid: string, s: Session, o: Oracle)
    requires Live(s.row.status)
    ensures var e := DestroyLocked(sid, s, o);
            && e.session.row.status == DESTROYED
            && e.trail == [DESTROYING, DESTROYED]
            && (e.outcome == Ok <==>
                (s.row.containerId.Some? ==> o.fault(sid, RemoveContainer) == Fine)
                && o.fault(sid, QuotaTeardown) == Fine && o.fault(sid, RemoveVolume) == Fine)
            && (Clean(e.session) <==>
                && (s.container == Absent || (s.row.containerId.Some? && Took(o.fault(sid, RemoveContainer))))
                && (!s.volume || ((s.row.containerId.Some? ==> o.fault(sid, RemoveContainer) == Fine)
                                  && o.fault(sid, QuotaTeardown) == Fine && Took(o.fault(sid, RemoveVolume)))))
  {
  }

  /** A create that fails leaves a container behind exactly when Docker had made one, because the rollback removes
      only the volume, and a running one when the start took effect; the volume exactly when it was made and its
      removal did not take effect; and the row DESTROYED
      unless removing the volume raised. */
  lemma {:induction false} FailedCreateLeavesContainerIff(sid: string, tenant: string, o: Oracle)
    ensures var e := CreateEffect(sid, tenant, o);
            && (e.outcome == Ok <==> forall c :: c in {CreateVolume, QuotaSetup, CreateContainer, StartContainer}
                                       ==> o.fault(sid, c) == Fine)
            && (e.outcome == Ok ==> e.session.row.status == RUNNING && e.session.row.containerId.Some?
                                    && e.session.container == Running && e.session.volume)
            && (e.outcome != Ok ==>
                && e.outcome == DockerError
                && (e.session.row.status == DESTROYED <==> o.fault(sid, RemoveVolume) == Fine)
                && (e.session.row.status != DESTROYED ==> e.session.row.status == CREATING)
                && (e.session.volume <==> Took(o.fault(sid, CreateVolume)) && !Took(o.fault(sid, RemoveVolume)))
                && (e.session.container != Absent <==>
                    o.fault(sid, CreateVolume) == Fine && o.fault(sid, QuotaSetup) == Fine
                    && Took(o.fault(sid, CreateContainer)))
                && (e.session.container == Running <==>
                    (forall c :: c in {CreateVolume, QuotaSetup, CreateContainer} ==> o.fault(sid, c) == Fine)
                    && Took(o.fault(sid, StartContainer))))
  {
    hide DestroyLocked;
    var e := CreateEffect(sid, tenant, o);
    var calls := {CreateVolume, QuotaSetup, CreateContainer, StartContainer};
    if e.outcome != Ok {
      assert CreateVolume in calls && QuotaSetup in calls && CreateContainer in calls && StartContainer in calls;
    }
  }

  /** So a failed create leaves nothing at all exactly when Docker never made the container, and never made the
      volume or removed it again. */
  lemma {:induction false} FailedCreateLeavesNothingIff(sid: string, tenant: string, o: Oracle)
    requires CreateEffect(sid, tenant, o).outcome != Ok
    ensures Clean(CreateEffect(sid, tenant, o).session) <==>
            && (Took(o.fault(sid, CreateVolume)) ==> Took(o.fault(sid, RemoveVolume)))
            && (o.fault(sid, CreateVolume) == Fine && o.fault(sid, QuotaSetup) == Fine ==>
                  o.fault(sid, CreateContainer) == Lost)
  {
    FailedCreateLeavesContainerIff(sid, tenant, o);
    hide CreateEffect;
  }

  /** The row a create leaves: named and dated by its arguments, stamped by its last write, and with the container's
      id once Docker has returned it. */
  lemma {:induction false} CreatedRow(sid: string, tenant: string, o: Oracle)
    ensures var r := CreateEffect(sid, tenant, o).session.row;
            && r.tenant == tenant && r.volumeName == "sandbox-vol-" + sid
            && r.createdAt == o.clock(sid, CREATING) && r.lastActivityAt == o.clock(sid, r.status)
            && r.destroyedAt == (if r.status == DESTROYED then Some(o.clock(sid, DESTROYED)) else None)
            && r.containerId == if forall c :: c in {CreateVolume, QuotaSetup, CreateContainer} ==>
                                             o.fault(sid, c) == Fine then Some(o.newContainer(sid)) else None
  {
    hide DestroyLocked;
    var calls := {CreateVolume, QuotaSetup, CreateContainer};
    assert CreateVolume in calls && QuotaSetup in calls && CreateContainer in calls;
  }

  // ----- the tenant cap in serial runs -----

  lemma {:induction false} EffectNeverRevives(op: Op, sid: string, s: Session, o: Oracle)
    ensures var e := EffectOn(op, sid, s, o);
            e.session.row.tenant == s.row.tenant && (Live(e.session.row.status) ==> Live(s.row.status))
  {
  }

  lemma {:induction false} ConcurrentShrinks(w: World, op: Op, o: Oracle, cap: int, tenant: string)
    requires !op.Create?
    ensures Concurrent(Apply(w, op, o, cap), tenant) <= Concurrent(w, tenant)
  {
    forall sid | sid in Concurrent(Apply(w, op, o, cap), tenant) ensures sid in Concurrent(w, tenant) {
      EffectNeverRevives(op, sid, w[sid], o);
    }
  }

  lemma {:induction false} ApplyKeepsCap(w: World, op: Op, o: Oracle, cap: nat, tenant: string)
    requires |Concurrent(w, tenant)| <= cap
    ensures |Concurrent(Apply(w, op, o, cap), tenant)| <= cap
  {
    var w' := Apply(w, op, o, cap);
    if op.Create? {
      if Admitted(w, op, o, cap) {
        assert CreateEffect(op.sid, op.tenant, o).session.row.tenant == op.tenant;
        if tenant == op.tenant {
          assert Concurrent(w', tenant) <= Concurrent(w, tenant) + {op.sid};
          SubsetSize(Concurrent(w', tenant), Concurrent(w, tenant) + {op.sid});
        } else {
          assert Concurrent(w', tenant) == Concurrent(w, tenant);
        }
      }
    } else {
      ConcurrentShrinks(w, op, o, cap, tenant);
      SubsetSize(Concurrent(w', tenant), Concurrent(w, tenant));
    }
  }

  /** In every serial run no tenant ever holds more than `cap` sessions that count against it. */
  lemma {:induction false} RunKeepsCap(w: World, es: seq<Event>, cap: nat, tenant: string)
    requires |Concurrent(w, tenant)| <= cap
    ensures |Concurrent(Run(w, es, cap), tenant)| <= cap
    decreases |es|
  {
    if es != [] {
      ApplyKeepsCap(w, es[0].op, es[0].oracle, cap, tenant);
      RunKeepsCap(Apply(w, es[0].op, es[0].oracle, cap), es[1..], cap, tenant);
    }
  }

  // ----- create as count, insert and writes of its own -----

  /** A session holds a place of its tenant's cap until it is DESTROYING. */
  function PlaceOf(tenant: string): Session -> Admission.Place {
    (s: Session) =>
      if s.row.tenant != tenant then Admission.Elsewhere
      else if Live(s.row.status) then Admission.Held else Admission.Vacated
  }

  /** What create inserts before it provisions. */
  function Fresh(sid: string, tenant: string, ts: int): Session {
    Session(NewRow(tenant, VolumeName(sid), ts), Absent, false)
  }

  lemma {:induction false} ConcurrentHold(w: World, tenant: string)
    ensures Concurrent(w, tenant) == Admission.Holders(w, PlaceOf(tenant))
  {
  }

  /** Done in one go, an admitted create is its count, its insert of a fresh row and one last write of the session
      that provisioning, or its rollback, leaves. */
  lemma {:induction false} CreateIsItsSteps(w: World, sid: string, tenant: string, o: Oracle, cap: nat)
    requires sid !in w
    ensures var s, count := Admission.Idle(w), Admission.Counts(0, sid, Fresh(sid, tenant, o.clock(sid, CREATING)));
            var write := Admission.Writes(0, CreateEffect(sid, tenant, o).session, true);
            Apply(w, Create(sid, tenant), o, cap) ==
            if o.auditHealthy && Admission.Enabled(s, count, PlaceOf(tenant), cap, false)
            then Admission.Next(Admission.Next(Admission.Next(s, count), Admission.Inserts(0)), write).table else w
  {
    ConcurrentHold(w, tenant);
    hide CreateEffect;
  }

  /** Whatever a whole operation does to a session is a step that gives it no place it did not hold; */
  lemma {:induction false} EffectIsStep(s: Admission.State<Session>, op: Op, sid: string, o: Oracle, tenant: string,
                                        cap: nat)
    requires sid in s.table
    ensures Admission.Enabled(s, Admission.Rewrites(sid, EffectOn(op, sid, s.table[sid], o).session), PlaceOf(tenant),
                              cap, false)
  {
    EffectNeverRevives(op, sid, s.table[sid], o);
  }

  /** and so is every edge of the table. */
  lemma {:induction false} EdgeIsStep(s: Admission.State<Session>, sid: string, to: Status, ts: int, tenant: string,
                                      cap: nat)
    requires sid in s.table && to in Transitions(s.table[sid].row.status)
    ensures var moved := s.table[sid].(row := Moved(s.table[sid].row, to, ts));
            Admission.Enabled(s, Admission.Rewrites(sid, moved), PlaceOf(tenant), cap, false)
  {
  }
}
