/** Crash recovery: the process may die between any two steps of a destroy, and again at any step of
    the reconciliations that follow. */
module Recovery {
  import opened Wrappers
  import opened Registry
  import opened SessionEffects
  import opened SessionRuns

  // ----- a completed reconciliation -----

  /** After reconciliation with succeeding Docker calls: no DESTROYING row is left, every row that still
      claims a container has one, a finished destroy has left nothing it knew of, and an orphaned
      session keeps its volume. */
  lemma {:induction false} ReconcileHeals(w: World, o: Oracle, cap: int)
    requires forall sid :: sid in w ==> CallsSucceed(o, sid)
    ensures var w' := Apply(w, Reconcile, o, cap);
            && w'.Keys == w.Keys
            && forall sid :: sid in w ==>
                 var s, s' := w[sid], w'[sid];
                 && s'.row.status != DESTROYING
                 && (s'.row.status in {CREATING, RUNNING, IDLE} ==> s'.row.containerId.Some? && s'.container != Absent)
                 && (s.row.status == DESTROYING ==>
                     s'.row.status == DESTROYED && !s'.volume && (s.row.containerId.Some? ==> s'.container == Absent))
                 && (s.row.status != DESTROYING ==>
                     && s'.volume == s.volume && s'.container == s.container
                     && (s' == s || (s'.row.status == STOPPED && (s.row.containerId == None || s.container == Absent))))
  {
    forall sid | sid in w ensures forall c :: o.fault(sid, c) == Fine {
      assert CallsSucceed(o, sid);
    }
  }

  /** Running it again, even with failing calls, changes nothing; it finishes no destroy and counts again
      exactly the live rows that have no container id. */
  lemma {:induction false} ReconcileIsIdempotent(w: World, o: Oracle, again: Oracle, cap: int)
    requires forall sid :: sid in w ==> CallsSucceed(o, sid)
    ensures var w' := Apply(w, Reconcile, o, cap);
            && Apply(w', Reconcile, again, cap) == w'
            && Finished(w', again) == {}
            && Orphans(w') == set sid | sid in w && Live(w[sid].row.status) && w[sid].row.containerId == None
  {
    ReconcileHeals(w, o, cap);
    var w' := Apply(w, Reconcile, o, cap);
    forall sid | sid in w'
      ensures ReconcileEffect(sid, w'[sid], again).session == w'[sid]
      ensures CountedOrphan(w'[sid]) <==> Live(w[sid].row.status) && w[sid].row.containerId == None
    {
      assert w'[sid] == ReconcileEffect(sid, w[sid], o).session;
      assert CallsSucceed(o, sid);
    }
  }

  /** The two counts: the destroys that reconciliation completes, and the rows it forces to STOPPED together with those
      already STOPPED that have no container id. */
  lemma {:induction false} ReconcileCounts(w: World, o: Oracle, cap: int)
    ensures var w' := Apply(w, Reconcile, o, cap);
            && Finished(w, o) == (set sid | sid in w && w[sid].row.status == DESTROYING
                                            && w'[sid].row.status == DESTROYED)
            && Orphans(w) == set sid | sid in w && w'[sid].row.status == STOPPED
                                       && (w[sid].row.status != STOPPED || w[sid].row.containerId == None)
  {
    forall sid | sid in w
      ensures var s, s' := w[sid], ReconcileEffect(sid, w[sid], o).session;
              && (sid in Finished(w, o) <==> s.row.status == DESTROYING && s'.row.status == DESTROYED)
              && (sid in Orphans(w) <==>
                  s'.row.status == STOPPED && (s.row.status != STOPPED || s.row.containerId == None))
    {
    }
    hide ReconcileEffect, Finished, Orphans;
  }

  // ----- dying part-way -----

  datatype Action = CommitDestroying | DropContainer | TearDownQuota | DropVolume | CommitDestroyed | CommitStopped

  /** One committed step. */
  function Act(s: Session, a: Action, clock: Status -> int): Session {
    match a
    case CommitDestroying => s.(row := Moved(s.row, DESTROYING, clock(DESTROYING)))
    case DropContainer => s.(container := Absent)
    case TearDownQuota => s
    case DropVolume => s.(volume := false)
    case CommitDestroyed => s.(row := Moved(s.row, DESTROYED, clock(DESTROYED)))
    case CommitStopped => s.(row := Orphaned(s.row, clock(STOPPED)))
  }

  function Removal(s: Session): seq<Action> {
    (if s.row.containerId.Some? then [DropContainer] else []) + [TearDownQuota, DropVolume, CommitDestroyed]
  }

  /** The steps of a destroy of a live session, in order. */
  function DestroySteps(s: Session): seq<Action> {
    [CommitDestroying] + Removal(s)
  }

  /** The steps reconciliation takes for one row. */
  function ReconcileSteps(s: Session): seq<Action> {
    if s.row.status == DESTROYING then Removal(s)
    else if Live(s.row.status) && s.row.status != STOPPED && (s.row.containerId == None || s.container == Absent)
    then [CommitStopped]
    else []
  }

  function Steps(s: Session, steps: seq<Action>, clock: Status -> int): Session
    decreases |steps|
  {
    if steps == [] then s else Steps(Act(s, steps[0], clock), steps[1..], clock)
  }

  /** What may happen to the row after the crash: a startup whose reconciliation dies after `steps` steps
      (or gets to the end), or a complete operation, a complete reconciliation included, on any row. */
  datatype Life = Restarts(steps: nat, clock: Status -> int) | Serves(op: Op, oracle: Oracle)

  /** The clock readings of one session's transitions. */
  function ClockOf(sid: string, o: Oracle): Status -> int {
    st => o.clock(sid, st)
  }

  function FirstSteps(steps: seq<Action>, n: nat): seq<Action> {
    if n < |steps| then steps[..n] else steps
  }

  function Endure(sid: string, s: Session, life: Life): Session {
    match life
    case Restarts(steps, clock) => Steps(s, FirstSteps(ReconcileSteps(s), steps), clock)
    case Serves(op, o) => EffectOn(op, sid, s, o).session
  }

  function Survive(sid: string, s: Session, lives: seq<Life>): Session
    decreases |lives|
  {
    if lives == [] then s else Survive(sid, Endure(sid, s, lives[0]), lives[1..])
  }

  lemma {:induction false} StepsAppend(s: Session, steps: seq<Action>, a: Action, clock: Status -> int)
    ensures Steps(s, steps + [a], clock) == Act(Steps(s, steps, clock), a, clock)
    decreases |steps|
  {
    if steps == [] {
      assert steps + [a] == [a] && [a][1..] == [];
    } else {
      assert (steps + [a])[0] == steps[0] && (steps + [a])[1..] == steps[1..] + [a];
      StepsAppend(Act(s, steps[0], clock), steps[1..], a, clock);
    }
  }

  /** How many steps a removal has before the quota's. */
  function Containers(s: Session): nat {
    if s.row.containerId.Some? then 1 else 0
  }

  /** What `n` steps of a removal leave. */
  function AfterRemoval(s: Session, n: nat, clock: Status -> int): Session {
    var k := Containers(s);
    var s1 := if k == 1 && n >= 1 then s.(container := Absent) else s;
    var s2 := if n >= k + 2 then s1.(volume := false) else s1;
    if n >= k + 3 then Act(s2, CommitDestroyed, clock) else s2
  }

  lemma {:induction false} RemovalComesTo(s: Session, n: nat, clock: Status -> int)
    ensures Steps(s, FirstSteps(Removal(s), n), clock) == AfterRemoval(s, n, clock)
    decreases n
  {
    var r := Removal(s);
    if n == 0 {
      assert FirstSteps(r, 0) == [];
    } else {
      RemovalComesTo(s, n - 1, clock);
      hide Steps;
      if n <= |r| {
        assert FirstSteps(r, n) == FirstSteps(r, n - 1) + [r[n - 1]];
        StepsAppend(s, FirstSteps(r, n - 1), r[n - 1], clock);
      } else {
        assert FirstSteps(r, n) == FirstSteps(r, n - 1) == r;
      }
    }
  }

  /** A destroy that dies after `n` steps: nothing, or the commit and a part of the removal. */
  lemma {:induction false} DestroyComesTo(s: Session, n: nat, clock: Status -> int)
    ensures n == 0 ==> Steps(s, FirstSteps(DestroySteps(s), n), clock) == s
    ensures n > 0 ==> Steps(s, FirstSteps(DestroySteps(s), n), clock)
                      == AfterRemoval(Act(s, CommitDestroying, clock), n - 1, clock)
  {
    var s1 := Act(s, CommitDestroying, clock);
    assert Removal(s1) == Removal(s);
    if n > 0 {
      var steps := FirstSteps(DestroySteps(s), n);
      assert steps[0] == CommitDestroying && steps[1..] == FirstSteps(Removal(s), n - 1);
      RemovalComesTo(s1, n - 1, clock);
    }
  }

  /** The uninterrupted destroy is all of its steps. */
  lemma {:induction false} DestroyIsItsSteps(sid: string, s: Session, o: Oracle)
    requires Live(s.row.status) && CallsSucceed(o, sid)
    ensures DestroyLocked(sid, s, o).session == Steps(s, DestroySteps(s), ClockOf(sid, o))
  {
    var n := |DestroySteps(s)|;
    assert FirstSteps(DestroySteps(s), n) == DestroySteps(s);
    DestroyComesTo(s, n, ClockOf(sid, o));
    hide Steps;
    assert o.fault(sid, RemoveContainer) == Fine && o.fault(sid, QuotaTeardown) == Fine &&
           o.fault(sid, RemoveVolume) == Fine;
  }

  /** The steps of a removal that take effect before a call raises. */
  function StepsTaken(sid: string, s: Session, o: Oracle): nat {
    var k := Containers(s);
    if k == 1 && o.fault(sid, RemoveContainer) != Fine then if Took(o.fault(sid, RemoveContainer)) then 1 else 0
    else if o.fault(sid, QuotaTeardown) != Fine then k
    else if o.fault(sid, RemoveVolume) != Fine then if Took(o.fault(sid, RemoveVolume)) then k + 2 else k + 1
    else k + 3
  }

  /** A reconciliation in which any Docker call fails, with or without taking effect, stops after some
      number of its steps. */
  lemma {:induction false} ReconcileIsSomeSteps(sid: string, s: Session, o: Oracle) returns (n: nat)
    ensures ReconcileEffect(sid, s, o).session == Steps(s, FirstSteps(ReconcileSteps(s), n), ClockOf(sid, o))
    ensures CallsSucceed(o, sid) ==> n >= |ReconcileSteps(s)|
  {
    var clock, steps := ClockOf(sid, o), ReconcileSteps(s);
    if s.row.status == DESTROYING {
      n := StepsTaken(sid, s, o);
      RemovalComesTo(s, n, clock);
      hide Steps, ReconcileEffect, AfterRemoval;
    } else {
      n := |steps|;
      assert FirstSteps(steps, n) == steps;
      if steps != [] {
        assert steps == [CommitStopped] && steps[1..] == [];
        assert Steps(s, steps, clock) == Act(s, CommitStopped, clock);
      }
    }
  }

  /** What holds from the DESTROYING commit on, whatever happens. */
  ghost predicate Doomed(s: Session) {
    && s.row.status in {DESTROYING, DESTROYED}
    && (s.container != Absent ==> s.row.containerId.Some?)
    && (s.row.status == DESTROYED ==> Clean(s))
  }

  lemma {:induction false} RemovalPrefixKeepsDoomed(s: Session, n: nat, clock: Status -> int)
    requires s.row.status == DESTROYING && Doomed(s)
    ensures Doomed(Steps(s, FirstSteps(Removal(s), n), clock))
  {
    RemovalComesTo(s, n, clock);
    hide Steps;
  }

  lemma {:induction false} EnduringKeepsDoomed(sid: string, s: Session, life: Life)
    requires Doomed(s)
    ensures Doomed(Endure(sid, s, life))
  {
    match life
    case Restarts(steps, clock) =>
      if s.row.status == DESTROYING {
        RemovalPrefixKeepsDoomed(s, steps, clock);
      }
    case Serves(op, o) =>
      if op.Reconcile? && s.row.status == DESTROYING {
        var n := ReconcileIsSomeSteps(sid, s, o);
        RemovalPrefixKeepsDoomed(s, n, ClockOf(sid, o));
      }
  }

  lemma {:induction false} SurvivalKeepsDoomed(sid: string, s: Session, lives: seq<Life>)
    requires Doomed(s)
    ensures Doomed(Survive(sid, s, lives))
    decreases |lives|
  {
    if lives != [] {
      EnduringKeepsDoomed(sid, s, lives[0]);
      SurvivalKeepsDoomed(sid, Endure(sid, s, lives[0]), lives[1..]);
    }
  }

  /** Crash recovery. A destroy dies after `n` of its steps, then any number of reconciliations die or fail, each
      at any step, with any operations between them. If nothing had been committed, nothing was touched.
      Otherwise the next reconciliation whose Docker calls succeed leaves the row DESTROYED and no container or
      volume. */
  lemma {:induction false} CrashRecovery(sid: string, s: Session, n: nat, clock: Status -> int, lives: seq<Life>,
                                         o: Oracle)
    requires Live(s.row.status) && CallsSucceed(o, sid)
    requires s.container != Absent ==> s.row.containerId.Some?
    ensures var crashed := Steps(s, FirstSteps(DestroySteps(s), n), clock);
            && (n == 0 ==> crashed == s)
            && (n > 0 ==> var r := ReconcileEffect(sid, Survive(sid, crashed, lives), o).session;
                          r.row.status == DESTROYED && Clean(r))
  {
    DestroyComesTo(s, n, clock);
    if n > 0 {
      var s1 := Act(s, CommitDestroying, clock);
      RemovalComesTo(s1, n - 1, clock);
      RemovalPrefixKeepsDoomed(s1, n - 1, clock);
      var crashed := Steps(s, FirstSteps(DestroySteps(s), n), clock);
      hide Steps, AfterRemoval;
      SurvivalKeepsDoomed(sid, crashed, lives);
      assert o.fault(sid, RemoveContainer) == Fine && o.fault(sid, QuotaTeardown) == Fine &&
             o.fault(sid, RemoveVolume) == Fine;
    }
  }

  /** The condition on the container id is exact: a container Docker made but the row never recorded
      survives the whole destroy, and the row ends DESTROYED all the same. */
  lemma {:induction false} UnrecordedContainerSurvives(sid: string, s: Session, o: Oracle)
    requires Live(s.row.status) && CallsSucceed(o, sid)
    ensures var r := DestroyLocked(sid, s, o).session;
            && r.row.status == DESTROYED && !r.volume
            && (r.container == Absent <==> (s.container != Absent ==> s.row.containerId.Some?))
  {
    assert o.fault(sid, RemoveContainer) == Fine && o.fault(sid, QuotaTeardown) == Fine &&
           o.fault(sid, RemoveVolume) == Fine;
  }

  // ----- a create that dies part-way -----

  /** The session after `n` steps of a create whose calls succeed: its row, volume, quota, container, recorded id,
      start and RUNNING, in that order. */
  function AfterCreate(sid: string, tenant: string, n: nat, o: Oracle): Session
    requires n >= 1
  {
    var s1 := Fresh(sid, tenant, o.clock(sid, CREATING));
    var s2 := if n >= 2 then s1.(volume := true) else s1;
    var s4 := if n >= 4 then s2.(container := Stopped) else s2;
    var s5 := if n >= 5 then s4.(row := s4.row.(containerId := Some(o.newContainer(sid)))) else s4;
    var s6 := if n >= 6 then s5.(container := Running) else s5;
    if n >= 7 then s6.(row := Moved(s6.row, RUNNING, o.clock(sid, RUNNING))) else s6
  }

  lemma {:induction false} CreateIsSevenSteps(sid: string, tenant: string, n: nat, o: Oracle)
    requires CallsSucceed(o, sid) && n >= 7
    ensures CreateEffect(sid, tenant, o).session == AfterCreate(sid, tenant, n, o)
  {
    assert o.fault(sid, CreateVolume) == Fine && o.fault(sid, QuotaSetup) == Fine;
    assert o.fault(sid, CreateContainer) == Fine && o.fault(sid, StartContainer) == Fine;
  }

  /** What a create that dies after `n` steps comes to. Reconciliation with succeeding calls makes a row without a
      recorded id STOPPED and leaves its volume, and its unrecorded container, where they are; a row with one it
      leaves CREATING for good, and it counts against the cap. A later destroy with succeeding calls cleans up after
      every one of them but the one that died between making the container and recording it. */
  lemma {:induction false} CreateCrash(sid: string, tenant: string, n: nat, o: Oracle, boot: Oracle, later: Oracle)
    requires n >= 1 && CallsSucceed(boot, sid) && CallsSucceed(later, sid)
    ensures var s := AfterCreate(sid, tenant, n, o);
            var r := ReconcileEffect(sid, s, boot).session;
            var d := DestroyLocked(sid, r, later).session;
            && (n <= 4 ==> r.row.status == STOPPED && r.row.containerId == None)
            && (n <= 4 ==> r.volume == (n >= 2) && r.container == if n == 4 then Stopped else Absent)
            && (5 <= n <= 6 ==> r == s && r.row.status == CREATING)
            && (n >= 7 ==> r == s && r.row.status == RUNNING && r.container == Running && r.volume)
            && d.row.status == DESTROYED
            && (Clean(d) <==> n != 4)
  {
    assert later.fault(sid, RemoveContainer) == Fine && later.fault(sid, QuotaTeardown) == Fine;
    assert later.fault(sid, RemoveVolume) == Fine;
  }
}
