/** `SessionService` of `api/sessions.py`, updating the registry and Docker in place. Every method is
    proved to do to the addressed session what `SessionEffects` says, and nothing to any other. */
module Sessions {
  import opened Wrappers
  import opened Registry
  import opened SessionEffects
  import opened SessionRuns

  /** Docker's containers and volumes, by the session id in their label. A call is told how it ends;
      it returns whether it returned normally. */
  class Docker {
    var containers: map<string, Container>
    var volumes: set<string>

    constructor ()
      ensures containers == map[] && volumes == {}
    {
      containers, volumes := map[], {};
    }

    function ContainerOf(sid: string): Container
      reads this
    {
      if sid in containers then containers[sid] else Absent
    }

    method CreateVolume(sid: string, f: Fault) returns (ok: bool)
      modifies this`volumes
      ensures ok <==> f == Fine
      ensures volumes == if Took(f) then old(volumes) + {sid} else old(volumes)
    {
      if f != Lost {
        volumes := volumes + {sid};
      }
      ok := f == Fine;
    }

    method RemoveVolume(sid: string, f: Fault) returns (ok: bool)
      modifies this`volumes
      ensures ok <==> f == Fine
      ensures volumes == if Took(f) then old(volumes) - {sid} else old(volumes)
    {
      if f != Lost {
        volumes := volumes - {sid};
      }
      ok := f == Fine;
    }

    method CreateContainer(sid: string, f: Fault) returns (ok: bool)
      modifies this`containers
      ensures ok <==> f == Fine
      ensures containers == if Took(f) then old(containers)[sid := Stopped] else old(containers)
    {
      if f != Lost {
        containers := containers[sid := Stopped];
      }
      ok := f == Fine;
    }

    method StartContainer(sid: string, f: Fault) returns (ok: bool)
      modifies this`containers
      ensures ok <==> !StartRaises(old(ContainerOf(sid)), f)
      ensures containers == if old(ContainerOf(sid)) != Absent && Took(f)
                            then old(containers)[sid := Running] else old(containers)
    {
      var found := sid in containers && containers[sid] != Absent;
      if found && f != Lost {
        containers := containers[sid := Running];
      }
      ok := found && f == Fine;
    }

    method StopContainer(sid: string, f: Fault) returns (ok: bool)
      modifies this`containers
      ensures ok <==> f == Fine
      ensures containers == if old(ContainerOf(sid)) != Absent && Took(f)
                            then old(containers)[sid := Stopped] else old(containers)
    {
      if sid in containers && containers[sid] != Absent && f != Lost {
        containers := containers[sid := Stopped];
      }
      ok := f == Fine;
    }

    method RemoveContainer(sid: string, f: Fault) returns (ok: bool)
      modifies this`containers
      ensures ok <==> f == Fine
      ensures containers == if Took(f) then old(containers) - {sid} else old(containers)
    {
      if f != Lost {
        containers := containers - {sid};
      }
      ok := f == Fine;
    }
  }

  class SessionService {
    const registry: Registry
    const docker: Docker
    const maxConcurrent: int
    const pinOnActivity: bool

    constructor (registry: Registry, docker: Docker, maxConcurrent: int, pinOnActivity: bool)
      ensures this.registry == registry && this.docker == docker
      ensures this.maxConcurrent == maxConcurrent && this.pinOnActivity == pinOnActivity
    {
      this.registry, this.docker, this.maxConcurrent := registry, docker, maxConcurrent;
      this.pinOnActivity := pinOnActivity;
    }

    ghost function View(sid: string): Session
      requires sid in registry.rows
      reads registry, docker
    {
      Session(registry.rows[sid], docker.ContainerOf(sid), sid in docker.volumes)
    }

    ghost function Sessions(): (w: World)
      reads registry, docker
    {
      map sid | sid in registry.rows :: View(sid)
    }

    /** A transition on a row known to exist. */
    method MoveTo(sid: string, to: Status, o: Oracle) returns (moved: bool)
      requires sid in registry.rows
      modifies registry
      ensures moved <==> to in Transitions(old(View(sid)).row.status)
      ensures var s := old(View(sid));
              && sid in registry.rows
              && View(sid) == (if moved then s.(row := Moved(s.row, to, o.clock(sid, to))) else s)
              && Sessions() == old(Sessions())[sid := View(sid)]
    {
      var r := registry.Transition(sid, to, o.clock(sid, to));
      moved := r == Done;
    }

    method StopLocked(sid: string, row: Row, o: Oracle) returns (outcome: Outcome)
      requires sid in registry.rows && row == registry.rows[sid]
      modifies registry, docker
      ensures var e := SessionEffects.StopLocked(sid, old(View(sid)), o);
              outcome == e.outcome && Sessions() == old(Sessions())[sid := e.session]
    {
      if row.containerId == None {
        return AssertionFailed;
      }
      var ok := docker.StopContainer(sid, o.fault(sid, StopContainer));
      if !ok {
        return DockerError;
      }
      var moved := MoveTo(sid, STOPPED, o);
      outcome := if moved then Ok else InvalidTransition;
    }

    method Stop(sid: string, tenant: string, o: Oracle) returns (outcome: Outcome)
      modifies registry, docker
      ensures sid !in old(registry.rows) ==>
                && outcome == (if o.auditHealthy then SessionNotFound else AuditUnhealthy)
                && Sessions() == old(Sessions())
      ensures sid in old(registry.rows) ==>
                var e := StopEffect(sid, tenant, old(View(sid)), o);
                outcome == e.outcome && Sessions() == old(Sessions())[sid := e.session]
    {
      if !o.auditHealthy {
        return AuditUnhealthy;
      }
      if sid !in registry.rows || !VisibleTo(registry.rows[sid], tenant) {
        return SessionNotFound;
      }
      var row := registry.rows[sid];
      if row.status != RUNNING && row.status != IDLE {
        return InvalidState;
      }
      outcome := StopLocked(sid, row, o);
    }

    method ReapStop(sid: string, o: Oracle) returns (outcome: Outcome)
      modifies registry, docker
      ensures sid !in old(registry.rows) ==> outcome == Ok && Sessions() == old(Sessions())
      ensures sid in old(registry.rows) ==>
                var e := ReapStopEffect(sid, old(View(sid)), o);
                outcome == e.outcome && Sessions() == old(Sessions())[sid := e.session]
    {
      if sid !in registry.rows || (registry.rows[sid].status != RUNNING && registry.rows[sid].status != IDLE) {
        return Ok;
      }
      outcome := StopLocked(sid, registry.rows[sid], o);
    }

    method Restart(sid: string, row: Row, o: Oracle) returns (outcome: Outcome)
      requires sid in registry.rows && row == registry.rows[sid]
      modifies registry, docker
      ensures var e := SessionEffects.Restart(sid, old(View(sid)), o);
              outcome == e.outcome && Sessions() == old(Sessions())[sid := e.session]
    {
      if row.containerId == None {
        return AssertionFailed;
      }
      var ok := docker.StartContainer(sid, o.fault(sid, StartContainer));
      if !ok {
        return DockerError;
      }
      var moved := MoveTo(sid, RUNNING, o);
      outcome := if moved then Ok else InvalidTransition;
    }

    method Resume(sid: string, tenant: string, o: Oracle) returns (outcome: Outcome)
      modifies registry, docker
      ensures sid !in old(registry.rows) ==>
                && outcome == (if o.auditHealthy then SessionNotFound else AuditUnhealthy)
                && Sessions() == old(Sessions())
      ensures sid in old(registry.rows) ==>
                var e := ResumeEffect(sid, tenant, old(View(sid)), o);
                outcome == e.outcome && Sessions() == old(Sessions())[sid := e.session]
    {
      if !o.auditHealthy {
        return AuditUnhealthy;
      }
      if sid !in registry.rows || !VisibleTo(registry.rows[sid], tenant) {
        return SessionNotFound;
      }
      var row := registry.rows[sid];
      if row.status != STOPPED && row.status != IDLE {
        return InvalidState;
      }
      outcome := Restart(sid, row, o);
    }

    /** The session lookup shared by exec and the file operations. `valid`: whether exec's arguments are, which it
        looks at only once the session has been found. */
    method Prepare(sid: string, tenant: string, audited: bool, valid: bool, o: Oracle) returns (outcome: Outcome)
      modifies registry, docker
      ensures sid !in old(registry.rows) ==>
                && outcome == (if audited && !o.auditHealthy then AuditUnhealthy else SessionNotFound)
                && Sessions() == old(Sessions())
      ensures sid in old(registry.rows) ==>
                var e := AutoResumeEffect(sid, tenant, audited, old(View(sid)), o);
                if valid || e.outcome in {AuditUnhealthy, SessionNotFound}
                then outcome == e.outcome && Sessions() == old(Sessions())[sid := e.session]
                else outcome == InvalidArgument && Sessions() == old(Sessions())
    {
      if audited && !o.auditHealthy {
        return AuditUnhealthy;
      }
      if sid !in registry.rows || !VisibleTo(registry.rows[sid], tenant) {
        return SessionNotFound;
      }
      if !valid {
        return InvalidArgument;
      }
      var row := registry.rows[sid];
      if row.status !in {RUNNING, IDLE, STOPPED} {
        return InvalidState;
      }
      if row.status == RUNNING {
        return Ok;
      }
      outcome := Restart(sid, row, o);
    }

    /** Silent when the row is gone or the setting is off. */
    method BumpActivity(sid: string, o: Oracle)
      modifies registry
      ensures Sessions() == if pinOnActivity && sid in old(registry.rows)
                            then old(Sessions())[sid := TouchEffect(sid, old(View(sid)), o).session]
                            else old(Sessions())
    {
      if !pinOnActivity {
        return;
      }
      registry.TouchActivity(sid, if sid in registry.rows then o.clock(sid, registry.rows[sid].status) else 0);
    }

    method Teardown(sid: string, row: Row, o: Oracle) returns (clean: bool)
      requires sid in registry.rows && row == registry.rows[sid]
      modifies docker
      ensures var r := SessionEffects.Teardown(sid, old(View(sid)), o);
              && clean == r.1 && Sessions() == old(Sessions())[sid := r.0]
              && sid in registry.rows && View(sid) == r.0
    {
      if row.containerId.Some? {
        var gone := docker.RemoveContainer(sid, o.fault(sid, RemoveContainer));
        if !gone {
          return false;
        }
      }
      if o.fault(sid, QuotaTeardown) != Fine {
        return false;
      }
      clean := docker.RemoveVolume(sid, o.fault(sid, RemoveVolume));
    }

    method DestroyLocked(sid: string, row: Row, o: Oracle) returns (outcome: Outcome)
      requires sid in registry.rows && row == registry.rows[sid]
      modifies registry, docker
      ensures var e := SessionEffects.DestroyLocked(sid, old(View(sid)), o);
              outcome == e.outcome && Sessions() == old(Sessions())[sid := e.session]
    {
      hide SessionEffects.Teardown, Sessions;
      var moved := MoveTo(sid, DESTROYING, o);
      if !moved {
        assert old(Sessions())[sid := old(View(sid))] == Sessions();
        return InvalidTransition;
      }
      var clean := Teardown(sid, registry.rows[sid], o);
      moved := MoveTo(sid, DESTROYED, o);
      assert Sessions() == old(Sessions())[sid := View(sid)];
      outcome := if clean then Ok else DockerError;
    }

    method Destroy(sid: string, tenant: string, o: Oracle) returns (outcome: Outcome)
      modifies registry, docker
      ensures sid !in old(registry.rows) ==>
                && outcome == (if o.auditHealthy then SessionNotFound else AuditUnhealthy)
                && Sessions() == old(Sessions())
      ensures sid in old(registry.rows) ==>
                var e := DestroyEffect(sid, tenant, old(View(sid)), o);
                outcome == e.outcome && Sessions() == old(Sessions())[sid := e.session]
    {
      if !o.auditHealthy {
        return AuditUnhealthy;
      }
      if sid !in registry.rows || !VisibleTo(registry.rows[sid], tenant) {
        return SessionNotFound;
      }
      outcome := DestroyLocked(sid, registry.rows[sid], o);
    }

    method ReapDestroy(sid: string, o: Oracle) returns (outcome: Outcome)
      modifies registry, docker
      ensures sid !in old(registry.rows) ==> outcome == Ok && Sessions() == old(Sessions())
      ensures sid in old(registry.rows) ==>
                var e := ReapDestroyEffect(sid, old(View(sid)), o);
                outcome == e.outcome && Sessions() == old(Sessions())[sid := e.session]
    {
      if sid !in registry.rows || registry.rows[sid].status in {DESTROYING, DESTROYED} {
        return Ok;
      }
      outcome := DestroyLocked(sid, registry.rows[sid], o);
    }

    lemma {:induction false} DistinctSize(ids: seq<string>, s: set<string>)
      requires forall i, j :: 0 <= i < j < |ids| ==> ids[i] != ids[j]
      requires forall x :: x in ids <==> x in s
      ensures |ids| == |s|
    {
      if ids != [] {
        var last := ids[|ids| - 1];
        DistinctSize(ids[..|ids| - 1], s - {last});
      }
    }

    method CountConcurrent(tenant: string) returns (n: nat)
      ensures n == |Concurrent(Sessions(), tenant)|
    {
      var ids := registry.Select((r: Row) => r.tenant == tenant && Live(r.status));
      DistinctSize(ids, Concurrent(Sessions(), tenant));
      n := |ids|;
    }

    method ProvisionContainer(sid: string, o: Oracle) returns (ok: bool)
      requires sid in registry.rows
      modifies registry, docker
      ensures var r := SessionEffects.ProvisionContainer(sid, old(View(sid)), o);
              && ok == r.1 && sid in registry.rows && View(sid) == r.0
              && Sessions() == old(Sessions())[sid := r.0]
    {
      var made := docker.CreateContainer(sid, o.fault(sid, CreateContainer));
      if !made {
        return false;
      }
      registry.SetContainer(sid, o.newContainer(sid));
      ok := docker.StartContainer(sid, o.fault(sid, StartContainer));
    }

    method Provision(sid: string, o: Oracle) returns (ok: bool)
      requires sid in registry.rows
      modifies registry, docker
      ensures var r := SessionEffects.Provision(sid, old(View(sid)), o);
              && ok == r.1 && sid in registry.rows && View(sid) == r.0
              && Sessions() == old(Sessions())[sid := r.0]
    {
      var made := docker.CreateVolume(sid, o.fault(sid, CreateVolume));
      assert Sessions() == old(Sessions())[sid := View(sid)];
      hide SessionEffects.ProvisionContainer, Sessions;
      if !made || o.fault(sid, QuotaSetup) != Fine {
        return false;
      }
      ok := ProvisionContainer(sid, o);
    }

    /** The undo of a failed create. */
    method Rollback(sid: string, o: Oracle)
      requires sid in registry.rows && View(sid).row.status == CREATING
      modifies registry, docker
      ensures Sessions() == old(Sessions())[
                              sid := SessionEffects.Rollback(sid, Effect(old(View(sid)), Ok, [CREATING]), o).session]
    {
      var gone := docker.RemoveVolume(sid, o.fault(sid, RemoveVolume));
      assert Sessions() == old(Sessions())[sid := View(sid)];
      hide Sessions;
      if gone {
        var moved := MoveTo(sid, DESTROYING, o);
        moved := MoveTo(sid, DESTROYED, o);
        assert Sessions() == old(Sessions())[sid := View(sid)];
      }
    }

    method InsertRow(sid: string, tenant: string, o: Oracle)
      requires sid !in registry.rows && docker.ContainerOf(sid) == Absent && sid !in docker.volumes
      modifies registry
      ensures sid in registry.rows
      ensures View(sid) == Session(NewRow(tenant, VolumeName(sid), o.clock(sid, CREATING)), Absent, false)
      ensures Sessions() == old(Sessions())[sid := View(sid)]
    {
      var inserted := registry.Insert(sid, tenant, VolumeName(sid), o.clock(sid, CREATING));
    }

    /** The part of create after admission. */
    method Install(sid: string, tenant: string, o: Oracle) returns (outcome: Outcome)
      requires sid !in registry.rows && docker.ContainerOf(sid) == Absent && sid !in docker.volumes
      modifies registry, docker
      ensures var e := CreateEffect(sid, tenant, o);
              outcome == e.outcome && Sessions() == old(Sessions())[sid := e.session]
    {
      hide SessionEffects.Provision, SessionEffects.Rollback, View, Sessions;
      InsertRow(sid, tenant, o);
      var ok := Provision(sid, o);
      if ok {
        var moved := MoveTo(sid, RUNNING, o);
        outcome := Ok;
      } else {
        Rollback(sid, o);
        outcome := DockerError;
      }
    }

    /** `limitsValid`: whether the requested or default limits lie within the tenant's. */
    method Create(sid: string, tenant: string, limitsValid: bool, o: Oracle) returns (outcome: Outcome)
      // A ULID names nothing that already exists.
      requires sid !in registry.rows && docker.ContainerOf(sid) == Absent && sid !in docker.volumes
      modifies registry, docker
      ensures !(Admitted(old(Sessions()), Op.Create(sid, tenant), o, maxConcurrent) && limitsValid) ==>
                && Sessions() == old(Sessions())
                && outcome == if !o.auditHealthy then AuditUnhealthy
                              else if |Concurrent(old(Sessions()), tenant)| >= maxConcurrent then LimitExceeded
                              else InvalidLimits
      ensures Admitted(old(Sessions()), Op.Create(sid, tenant), o, maxConcurrent) && limitsValid ==>
                var e := CreateEffect(sid, tenant, o);
                outcome == e.outcome && Sessions() == old(Sessions())[sid := e.session]
    {
      if !o.auditHealthy {
        return AuditUnhealthy;
      }
      var n := CountConcurrent(tenant);
      if n >= maxConcurrent {
        return LimitExceeded;
      }
      if !limitsValid {
        return InvalidLimits;
      }
      outcome := Install(sid, tenant, o);
    }

    method Matching(p: Row -> bool) returns (ids: seq<string>)
      ensures forall i, j :: 0 <= i < j < |ids| ==> ids[i] != ids[j]
      ensures forall sid :: sid in ids <==> sid in Sessions() && p(Sessions()[sid].row)
    {
      ids := registry.Select(p);
    }

    /** The ids in `done` whose session satisfies `p`. */
    static ghost function Tally(w: World, done: set<string>, p: (string, Session) -> bool): set<string> {
      set sid | sid in done && sid in w && p(sid, w[sid])
    }

    static lemma {:induction false} TallyOneMore(w: World, done: set<string>, sid: string, p: (string, Session) -> bool)
      requires sid in w && sid !in done
      ensures sid !in Tally(w, done, p)
      ensures Tally(w, done + {sid}, p) == if p(sid, w[sid]) then Tally(w, done, p) + {sid} else Tally(w, done, p)
    {
    }

    /** Reconciliation as a function on one session. */
    static ghost function Healing(o: Oracle): (string, Session) -> Session {
      (sid, s) => ReconcileEffect(sid, s, o).session
    }

    static lemma {:induction false} FinishTotals(w: World, done: set<string>, o: Oracle)
      requires forall sid :: sid in done <==> sid in w && w[sid].row.status == DESTROYING
      ensures Tally(w, done, (sid: string, s: Session) => SessionEffects.Teardown(sid, s, o).1) == Finished(w, o)
      ensures Patched(w, done, Healing(o)) == map sid | sid in w :: if w[sid].row.status == DESTROYING
                                                              then ReconcileEffect(sid, w[sid], o).session else w[sid]
    {
    }

    static lemma {:induction false} OrphanTotals(w: World, done: set<string>, o: Oracle)
      requires forall sid :: sid in done <==> sid in w && Live(w[sid].row.status)
      ensures Tally(w, done, (sid: string, s: Session) => CountedOrphan(s)) == Orphans(w)
      ensures Patched(w, done, Healing(o)) == map sid | sid in w :: if Live(w[sid].row.status)
                                                              then ReconcileEffect(sid, w[sid], o).session else w[sid]
    {
    }

    method FinishDestroy(sid: string, o: Oracle) returns (finished: bool)
      requires sid in Sessions() && Sessions()[sid].row.status == DESTROYING
      modifies registry, docker
      ensures var s := old(Sessions())[sid];
              && finished == SessionEffects.Teardown(sid, s, o).1
              && Sessions() == old(Sessions())[sid := ReconcileEffect(sid, s, o).session]
    {
      finished := Teardown(sid, registry.rows[sid], o);
      ghost var s1 := SessionEffects.Teardown(sid, old(View(sid)), o).0;
      assert View(sid) == Sessions()[sid] == s1;
      if finished {
        var moved := MoveTo(sid, DESTROYED, o);
        assert Sessions() == old(Sessions())[sid := View(sid)];
      }
    }

    method FinishDestroys(o: Oracle) returns (finished: nat)
      modifies registry, docker
      ensures finished == |Finished(old(Sessions()), o)|
      ensures var w := old(Sessions());
              Sessions() == map sid | sid in w :: if w[sid].row.status == DESTROYING
                                                  then ReconcileEffect(sid, w[sid], o).session else w[sid]
    {
      hide View, Sessions, SessionEffects.Teardown, ReconcileEffect;
      hide Patched, Finished, Orphans;
      ghost var w := Sessions();
      ghost var p := (sid: string, s: Session) => SessionEffects.Teardown(sid, s, o).1;
      var ids := Matching((r: Row) => r.status == DESTROYING);
      ghost var done: set<string> := {};
      finished := 0;
      PatchNone(w, Healing(o));
      assert Tally(w, {}, p) == {};
      for k := 0 to |ids|
        invariant forall sid :: sid in done <==> sid in ids[..k]
        invariant Sessions() == Patched(w, done, Healing(o))
        invariant finished == |Tally(w, done, p)|
      {
        var sid := ids[k];
        assert sid in ids && sid !in done;
        PatchOneMore(w, done, sid, Healing(o));
        TallyOneMore(w, done, sid, p);
        var ok := FinishDestroy(sid, o);
        done := done + {sid};
        if ok {
          finished := finished + 1;
        }
      }
      FinishTotals(w, done, o);
    }

    method MarkOrphan(sid: string, o: Oracle) returns (orphaned: bool)
      requires sid in Sessions() && Live(Sessions()[sid].row.status)
      modifies registry
      ensures var s := old(Sessions())[sid];
              && orphaned == CountedOrphan(s)
              && Sessions() == old(Sessions())[sid := ReconcileEffect(sid, s, o).session]
    {
      var row := registry.rows[sid];
      var present := docker.ContainerOf(sid) != Absent;
      orphaned := row.containerId == None || (!present && row.status != STOPPED);
      if orphaned {
        registry.TransitionOrphaned(sid, o.clock(sid, STOPPED));
      }
    }

    method MarkOrphans(o: Oracle) returns (orphaned: nat)
      modifies registry
      ensures orphaned == |Orphans(old(Sessions()))|
      ensures var w := old(Sessions());
              Sessions() == map sid | sid in w :: if Live(w[sid].row.status)
                                                  then ReconcileEffect(sid, w[sid], o).session else w[sid]
    {
      hide View, Sessions, ReconcileEffect;
      hide Patched, Finished, Orphans;
      ghost var w := Sessions();
      ghost var p := (sid: string, s: Session) => CountedOrphan(s);
      var ids := Matching((r: Row) => Live(r.status));
      ghost var done: set<string> := {};
      orphaned := 0;
      PatchNone(w, Healing(o));
      assert Tally(w, {}, p) == {};
      for k := 0 to |ids|
        invariant forall sid :: sid in done <==> sid in ids[..k]
        invariant Sessions() == Patched(w, done, Healing(o))
        invariant orphaned == |Tally(w, done, p)|
      {
        var sid := ids[k];
        assert sid in ids && sid !in done;
        PatchOneMore(w, done, sid, Healing(o));
        TallyOneMore(w, done, sid, p);
        var ok := MarkOrphan(sid, o);
        done := done + {sid};
        if ok {
          orphaned := orphaned + 1;
        }
      }
      OrphanTotals(w, done, o);
    }

    /** The startup pass over the whole table, with the counts it reports. */
    method ReconcileOnStartup(o: Oracle) returns (finished: nat, orphaned: nat)
      modifies registry, docker
      ensures Sessions() == Apply(old(Sessions()), Reconcile, o, maxConcurrent)
      ensures finished == |Finished(old(Sessions()), o)| && orphaned == |Orphans(old(Sessions()))|
    {
      hide View, Sessions;
      finished := FinishDestroys(o);
      ghost var w := Sessions();
      orphaned := MarkOrphans(o);
      assert Orphans(w) == Orphans(old(Sessions()));
    }
  }
}
