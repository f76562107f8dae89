/** `api/sessions.py` run one operation at a time: what each lifecycle operation does to one
    session's row, container and volume, for every way the Docker calls it makes can end. */
module SessionEffects {
  import opened Wrappers
  import opened Registry

  datatype Container = Absent | Stopped | Running

  /** A registry row with the Docker resources labelled with its id. */
  datatype Session = Session(row: Row, container: Container, volume: bool)

  datatype Call = CreateVolume | QuotaSetup | CreateContainer | StartContainer | StopContainer
                | RemoveContainer | QuotaTeardown | RemoveVolume

  /** How a call ended: normally, raising with nothing done, or raising after taking effect. */
  datatype Fault = Fine | Lost | Late

  /** Everything an operation reads from outside: the clock at each row write (one write per target
      status), the ending of each Docker call, the id Docker gives a new container, the audit log's health. */
  datatype Oracle = Oracle(clock: (string, Status) -> int, fault: (string, Call) -> Fault,
                           newContainer: string -> string, auditHealthy: bool)

  ghost predicate CallsSucceed(o: Oracle, sid: string) {
    forall c :: o.fault(sid, c) == Fine
  }

  datatype Outcome = Ok | AuditUnhealthy | SessionNotFound | InvalidState | AssertionFailed
                   | InvalidTransition | DockerError | LimitExceeded | InvalidLimits
                   | InvalidArgument

  /** What an operation leaves: the session, how the call ended, and the statuses it wrote in order. */
  datatype Effect = Effect(session: Session, outcome: Outcome, trail: seq<Status>)

  function Unchanged(s: Session, outcome: Outcome): Effect {
    Effect(s, outcome, [])
  }

  predicate Took(f: Fault) {
    f != Lost
  }

  function VolumeName(sid: string): string {
    "sandbox-vol-" + sid
  }

  function Started(c: Container, f: Fault): Container {
    if c != Absent && Took(f) then Running else c
  }

  /** Starting a container that is gone raises. */
  predicate StartRaises(c: Container, f: Fault) {
    c == Absent || f != Fine
  }

  /** Stopping one that is gone is a no-op. */
  function Halted(c: Container, f: Fault): Container {
    if c != Absent && Took(f) then Stopped else c
  }

  function Removed(c: Container, f: Fault): Container {
    if Took(f) then Absent else c
  }

  function Move(e: Effect, sid: string, to: Status, o: Oracle): Effect {
    if to in Transitions(e.session.row.status) then
      Effect(e.session.(row := Moved(e.session.row, to, o.clock(sid, to))), e.outcome, e.trail + [to])
    else e.(outcome := InvalidTransition)
  }

  /** The part of stop shared by the API and the reaper, from a row found RUNNING or IDLE. */
  function StopLocked(sid: string, s: Session, o: Oracle): Effect {
    if s.row.containerId == None then Unchanged(s, AssertionFailed) else
    var f := o.fault(sid, StopContainer);
    var s1 := s.(container := Halted(s.container, f));
    if f != Fine then Unchanged(s1, DockerError) else Move(Unchanged(s1, Ok), sid, STOPPED, o)
  }

  function StopEffect(sid: string, tenant: string, s: Session, o: Oracle): Effect {
    if !o.auditHealthy then Unchanged(s, AuditUnhealthy)
    else if !VisibleTo(s.row, tenant) then Unchanged(s, SessionNotFound)
    else if !Sweepable(s.row.status) then Unchanged(s, InvalidState)
    else StopLocked(sid, s, o)
  }

  function ReapStopEffect(sid: string, s: Session, o: Oracle): Effect {
    if !Sweepable(s.row.status) then Unchanged(s, Ok) else StopLocked(sid, s, o)
  }

  /** Start the container again and record RUNNING. */
  function Restart(sid: string, s: Session, o: Oracle): Effect {
    if s.row.containerId == None then Unchanged(s, AssertionFailed) else
    var f := o.fault(sid, StartContainer);
    var s1 := s.(container := Started(s.container, f));
    if StartRaises(s.container, f) then Unchanged(s1, DockerError)
    else Move(Unchanged(s1, Ok), sid, RUNNING, o)
  }

  function ResumeEffect(sid: string, tenant: string, s: Session, o: Oracle): Effect {
    if !o.auditHealthy then Unchanged(s, AuditUnhealthy)
    else if !VisibleTo(s.row, tenant) then Unchanged(s, SessionNotFound)
    else if s.row.status !in {STOPPED, IDLE} then Unchanged(s, InvalidState)
    else Restart(sid, s, o)
  }

  /** What exec and file operations do to the session before they use its container; `audited` for those that
      check the audit log first, which reading and listing files do not. */
  function AutoResumeEffect(sid: string, tenant: string, audited: bool, s: Session, o: Oracle): Effect {
    if audited && !o.auditHealthy then Unchanged(s, AuditUnhealthy)
    else if !VisibleTo(s.row, tenant) then Unchanged(s, SessionNotFound)
    else if s.row.status !in {RUNNING, IDLE, STOPPED} then Unchanged(s, InvalidState)
    else if s.row.status == RUNNING then Unchanged(s, Ok)
    else Restart(sid, s, o)
  }

  /** Container, quota and volume removal in order, stopping at the first call that raises. */
  function Teardown(sid: string, s: Session, o: Oracle): (r: (Session, bool))
    ensures r.0.row == s.row
  {
    var hasId := s.row.containerId.Some?;
    var f := if hasId then o.fault(sid, RemoveContainer) else Fine;
    var s1 := if hasId then s.(container := Removed(s.container, f)) else s;
    if f != Fine then (s1, false)
    else if o.fault(sid, QuotaTeardown) != Fine then (s1, false)
    else
      var g := o.fault(sid, RemoveVolume);
      (if Took(g) then s1.(volume := false) else s1, g == Fine)
  }

  /** Destroy with the lock held: DESTROYED is recorded even when the teardown raised. */
  function DestroyLocked(sid: string, s: Session, o: Oracle): (e: Effect)
    ensures Live(s.row.status) ==>
              && e.trail == [DESTROYING, DESTROYED] && e.outcome in {Ok, DockerError}
              && e.session.row == Moved(Moved(s.row, DESTROYING, o.clock(sid, DESTROYING)), DESTROYED,
                                        o.clock(sid, DESTROYED))
    ensures !Live(s.row.status) ==> e == Unchanged(s, InvalidTransition)
  {
    var e := Move(Unchanged(s, Ok), sid, DESTROYING, o);
    if e.outcome != Ok then e else
    var (s1, clean) := Teardown(sid, e.session, o);
    Move(Effect(s1, if clean then Ok else DockerError, e.trail), sid, DESTROYED, o)
  }

  function DestroyEffect(sid: string, tenant: string, s: Session, o: Oracle): Effect {
    if !o.auditHealthy then Unchanged(s, AuditUnhealthy)
    else if !VisibleTo(s.row, tenant) then Unchanged(s, SessionNotFound)
    else DestroyLocked(sid, s, o)
  }

  function ReapDestroyEffect(sid: string, s: Session, o: Oracle): Effect {
    if !Live(s.row.status) then Unchanged(s, Ok) else DestroyLocked(sid, s, o)
  }

  /** Undo a failed create: the volume goes, the row ends DESTROYED; if removing the volume raises
      too, the row stays as it was. */
  function Rollback(sid: string, e: Effect, o: Oracle): (r: Effect)
    requires e.session.row.status == CREATING
    ensures r.outcome == DockerError && r.session.container == e.session.container
    ensures r.session.volume <==> e.session.volume && !Took(o.fault(sid, RemoveVolume))
    ensures o.fault(sid, RemoveVolume) != Fine ==> r.session.row == e.session.row && r.trail == e.trail
    ensures o.fault(sid, RemoveVolume) == Fine ==>
              && r.trail == e.trail + [DESTROYING, DESTROYED]
              && r.session.row == Moved(Moved(e.session.row, DESTROYING, o.clock(sid, DESTROYING)), DESTROYED,
                                        o.clock(sid, DESTROYED))
  {
    var f := o.fault(sid, RemoveVolume);
    var s := if Took(f) then e.session.(volume := false) else e.session;
    var e1 := Effect(s, DockerError, e.trail);
    if f != Fine then e1 else Move(Move(e1, sid, DESTROYING, o), sid, DESTROYED, o)
  }

  /** The container's part of provisioning. */
  function ProvisionContainer(sid: string, s: Session, o: Oracle): (r: (Session, bool))
    ensures r.0.row in {s.row, s.row.(containerId := Some(o.newContainer(sid)))}
    ensures r.1 ==> r.0.row.containerId.Some?
  {
    var g := o.fault(sid, CreateContainer);
    var s2 := if Took(g) then s.(container := Stopped) else s;
    if g != Fine then (s2, false) else
    var s3 := s2.(row := s2.row.(containerId := Some(o.newContainer(sid))));
    var h := o.fault(sid, StartContainer);
    (s3.(container := Started(s3.container, h)), h == Fine)
  }

  /** Volume, quota, container, recorded id and start, in order, stopping at the first call that raises. */
  function Provision(sid: string, s: Session, o: Oracle): (r: (Session, bool))
    ensures r.0.row in {s.row, s.row.(containerId := Some(o.newContainer(sid)))}
    ensures r.1 ==> r.0.row.containerId.Some?
  {
    var f := o.fault(sid, CreateVolume);
    var s1 := if Took(f) then s.(volume := true) else s;
    if f != Fine || o.fault(sid, QuotaSetup) != Fine then (s1, false) else ProvisionContainer(sid, s1, o)
  }

  function CreateEffect(sid: string, tenant: string, o: Oracle): (e: Effect)
    ensures e.session.row.tenant == tenant && e.session.row.createdAt == o.clock(sid, CREATING)
  {
    var s0 := Session(NewRow(tenant, VolumeName(sid), o.clock(sid, CREATING)), Absent, false);
    var (s1, ok) := Provision(sid, s0, o);
    var e := Effect(s1, Ok, [CREATING]);
    if ok then Move(e, sid, RUNNING, o) else Rollback(sid, e, o)
  }

  /** Startup reconciliation of one row: finish a destroy (a failure leaves it for the next boot), or
      mark a live row without a container STOPPED. */
  function ReconcileEffect(sid: string, s: Session, o: Oracle): Effect {
    if s.row.status == DESTROYING then
      var (s1, clean) := Teardown(sid, s, o);
      if clean then Move(Unchanged(s1, Ok), sid, DESTROYED, o) else Unchanged(s1, DockerError)
    else if Live(s.row.status) && s.row.status != STOPPED && (s.row.containerId == None || s.container == Absent) then
      Effect(s.(row := Orphaned(s.row, o.clock(sid, STOPPED))), Ok, [STOPPED])
    else Unchanged(s, Ok)
  }
}
