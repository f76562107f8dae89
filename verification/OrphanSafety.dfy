/** The orphan sweeper next to everything else that runs: creates interleaved step by step with each other,
    with removals by lifecycle operations, with resources appearing from outside, and with sweeps, whose
    listing, lookup and removal are separate steps. */
module OrphanSafety {
  import opened SessionEffects
  import opened OrphanReaper

  /** A Docker resource is known by kind and name. */
  type Id = (Kind, string)

  /** `made`: by a create of the session `owner` names. */
  datatype Resource = Resource(owner: string, made: bool)

  datatype Pending = Pending(id: Id, owner: string)

  /** A sweep under way: what it listed and has not dealt with; `condemned` when it has decided to remove the
      first of them. */
  datatype SweepTask = SweepTask(todo: seq<Pending>, condemned: bool)

  datatype Stage = NeedsVolume | NeedsContainer | Provisioned

  datatype CreateTask = CreateTask(sid: string, stage: Stage)

  /** `rows`: the ids in the session table. `lost`: resources a create made and a sweep removed. */
  datatype State = State(rows: set<string>, resources: map<Id, Resource>, creates: map<nat, CreateTask>,
                         sweeps: map<nat, SweepTask>, lost: set<Id>)

  datatype Event =
    | InsertsRow(task: nat, sid: string)            // the first step of create
    | MakesNext(task: nat)                          // its volume, then its container
    | RollsBack(task: nat)
    | Removed(id: Id)                               // by a lifecycle operation or from outside
    | Appears(id: Id, owner: string)                // a labelled resource nobody's create made
    | Lists(task: nat, found: seq<Id>)
    | Looks(task: nat, young: bool)                 // registry lookup and grace check of the next item
    | SweepsAway(task: nat, ok: bool)
    | Restores(rows: set<string>)                   // the table is replaced by a backup

  function NameOf(kind: Kind, sid: string): string {
    if kind == VolumeKind then VolumeName(sid) else "sandbox-" + sid
  }

  /** No resource and no listed item carries a name made from `sid`. */
  ghost predicate Unused(s: State, sid: string) {
    && sid !in s.rows
    && (forall kind :: (kind, NameOf(kind, sid)) !in s.resources)
    && (forall t, i :: t in s.sweeps && 0 <= i < |s.sweeps[t].todo| ==>
          s.sweeps[t].todo[i].id.1 != NameOf(s.sweeps[t].todo[i].id.0, sid))
  }

  /** The name belongs to a session in the table. */
  ghost predicate Reserved(rows: set<string>, id: Id) {
    exists sid :: sid in rows && id.1 == NameOf(id.0, sid)
  }

  ghost predicate Enabled(s: State, e: Event) {
    match e
    case InsertsRow(t, sid) => t !in s.creates && sid != "" && Unused(s, sid)
    case MakesNext(t) => t in s.creates && !s.creates[t].stage.Provisioned?
    case RollsBack(t) => t in s.creates
    case Removed(id) => true
    case Appears(id, _) => id !in s.resources && !Reserved(s.rows, id)
    case Lists(t, found) => forall id :: id in found ==> id in s.resources
    case Looks(t, _) => t in s.sweeps && s.sweeps[t].todo != [] && !s.sweeps[t].condemned
    case SweepsAway(t, _) => t in s.sweeps && s.sweeps[t].todo != [] && s.sweeps[t].condemned
    case Restores(_) => true
  }

  function Make(s: State, t: nat): State
    requires t in s.creates && !s.creates[t].stage.Provisioned?
  {
    var c := s.creates[t];
    var kind := if c.stage == NeedsVolume then VolumeKind else ContainerKind;
    var id := (kind, NameOf(kind, c.sid));
    s.(resources := if id in s.resources then s.resources else s.resources[id := Resource(c.sid, true)],
       creates := s.creates[t := c.(stage := if c.stage == NeedsVolume then NeedsContainer else Provisioned)])
  }

  function Look(s: State, t: nat, young: bool): State
    requires t in s.sweeps && s.sweeps[t].todo != []
  {
    var sw := s.sweeps[t];
    var owner := sw.todo[0].owner;
    s.(sweeps := s.sweeps[t := if owner == "" || owner in s.rows || young then sw.(todo := sw.todo[1..])
                               else sw.(condemned := true)])
  }

  function SweepAway(s: State, t: nat, ok: bool): State
    requires t in s.sweeps && s.sweeps[t].todo != []
  {
    var sw := s.sweeps[t];
    var id := sw.todo[0].id;
    var s1 := s.(sweeps := s.sweeps[t := SweepTask(sw.todo[1..], false)]);
    if !ok then s1
    else s1.(resources := s.resources - {id},
             lost := if id in s.resources && s.resources[id].made then s.lost + {id} else s.lost)
  }

  function Next(s: State, e: Event): State
    requires Enabled(s, e)
  {
    match e
    case InsertsRow(t, sid) => s.(rows := s.rows + {sid}, creates := s.creates[t := CreateTask(sid, NeedsVolume)])
    case MakesNext(t) => Make(s, t)
    case RollsBack(t) =>
      s.(resources := s.resources - {(VolumeKind, VolumeName(s.creates[t].sid))}, creates := s.creates - {t})
    case Removed(id) => s.(resources := s.resources - {id})
    case Appears(id, owner) => s.(resources := s.resources[id := Resource(owner, false)])
    case Lists(t, found) =>
      s.(sweeps := s.sweeps[t := SweepTask(seq(|found|, i requires 0 <= i < |found| =>
                                                 Pending(found[i], s.resources[found[i]].owner)), false)])
    case Looks(t, young) => Look(s, t, young)
    case SweepsAway(t, ok) => SweepAway(s, t, ok)
    case Restores(rows) => s.(rows := rows)
  }

  ghost predicate ResourceSound(s: State, id: Id)
    requires id in s.resources
  {
    var r := s.resources[id];
    if r.made then r.owner in s.rows && id.1 == NameOf(id.0, r.owner) && r.owner != ""
    else !Reserved(s.rows, id)
  }

  /** A listed item whose name belongs to a session in the table is labelled with that session, and has not been
      condemned. */
  ghost predicate ItemSound(s: State, item: Pending, condemned: bool) {
    forall sid :: sid in s.rows && item.id.1 == NameOf(item.id.0, sid) ==> item.owner == sid && !condemned
  }

  ghost predicate SweepSound(s: State, t: nat)
    requires t in s.sweeps
  {
    forall i :: 0 <= i < |s.sweeps[t].todo| ==> ItemSound(s, s.sweeps[t].todo[i], i == 0 && s.sweeps[t].condemned)
  }

  /** A create that will still make something has its row. */
  ghost predicate CreateSound(s: State, t: nat)
    requires t in s.creates
  {
    !s.creates[t].stage.Provisioned? ==> s.creates[t].sid in s.rows && s.creates[t].sid != ""
  }

  ghost predicate Inv(s: State) {
    && (forall id :: id in s.resources ==> ResourceSound(s, id))
    && (forall t :: t in s.sweeps ==> SweepSound(s, t))
    && (forall t :: t in s.creates ==> CreateSound(s, t))
    && s.lost == {}
  }

  lemma {:induction false} NameIsInjective(kind: Kind, a: string, b: string)
    requires NameOf(kind, a) == NameOf(kind, b)
    ensures a == b
  {
    var prefix := if kind == VolumeKind then "sandbox-vol-" else "sandbox-";
    assert NameOf(kind, a)[|prefix|..] == a && NameOf(kind, b)[|prefix|..] == b;
  }

  lemma {:induction false} InsertKeepsInv(s: State, t: nat, sid: string)
    requires Inv(s) && Enabled(s, InsertsRow(t, sid))
    ensures Inv(Next(s, InsertsRow(t, sid)))
  {
    hide NameOf;
    var s1 := Next(s, InsertsRow(t, sid));
    forall u | u in s1.creates ensures CreateSound(s1, u) {
      assert u != t ==> CreateSound(s, u);
    }
    forall id | id in s1.resources ensures ResourceSound(s1, id) {
      assert ResourceSound(s, id);
      assert (id.0, NameOf(id.0, sid)) !in s.resources;
    }
    forall u | u in s1.sweeps ensures SweepSound(s1, u) {
      assert SweepSound(s, u);
      forall i | 0 <= i < |s1.sweeps[u].todo|
        ensures ItemSound(s1, s1.sweeps[u].todo[i], i == 0 && s1.sweeps[u].condemned)
      {
        assert ItemSound(s, s.sweeps[u].todo[i], i == 0 && s.sweeps[u].condemned);
        assert s.sweeps[u].todo[i].id.1 != NameOf(s.sweeps[u].todo[i].id.0, sid);
      }
    }
  }

  lemma {:induction false} ListedItemSound(s: State, id: Id)
    requires id in s.resources && ResourceSound(s, id)
    ensures ItemSound(s, Pending(id, s.resources[id].owner), false)
  {
    hide NameOf;
    var owner := s.resources[id].owner;
    forall sid | sid in s.rows && id.1 == NameOf(id.0, sid) ensures owner == sid {
      assert Reserved(s.rows, id);
      NameIsInjective(id.0, owner, sid);
    }
  }

  lemma {:induction false} SweepStepKeepsInv(s: State, e: Event)
    requires Inv(s) && Enabled(s, e) && (e.Looks? || e.SweepsAway? || e.Lists?)
    ensures Inv(Next(s, e))
  {
    hide NameOf;
    var s1 := Next(s, e);
    if !e.Lists? {
      assert SweepSound(s, e.task);
      assert ItemSound(s, s.sweeps[e.task].todo[0], s.sweeps[e.task].condemned);
    }
    if e.SweepsAway? {
      var id := s.sweeps[e.task].todo[0].id;
      assert id in s.resources ==> ResourceSound(s, id);
    }
    forall id | id in s1.resources ensures ResourceSound(s1, id) {
      assert ResourceSound(s, id);
    }
    forall t | t in s1.creates ensures CreateSound(s1, t) {
      assert CreateSound(s, t);
    }
    forall u | u in s1.sweeps ensures SweepSound(s1, u) {
      if u in s.sweeps {
        assert SweepSound(s, u);
      }
      forall i | 0 <= i < |s1.sweeps[u].todo|
        ensures ItemSound(s1, s1.sweeps[u].todo[i], i == 0 && s1.sweeps[u].condemned)
      {
        if e.Lists? && u == e.task {
          ListedItemSound(s, e.found[i]);
        } else if u == e.task && s1.sweeps[u].todo == s.sweeps[u].todo[1..] {
          assert ItemSound(s, s.sweeps[u].todo[i + 1], false);
        } else {
          assert ItemSound(s, s.sweeps[u].todo[i], i == 0 && s.sweeps[u].condemned);
        }
      }
    }
  }

  lemma {:induction false} OtherStepKeepsInv(s: State, e: Event)
    requires Inv(s) && Enabled(s, e) && (e.MakesNext? || e.RollsBack? || e.Removed? || e.Appears?)
    ensures Inv(Next(s, e))
  {
    var s1 := Next(s, e);
    forall t | t in s1.creates ensures CreateSound(s1, t) {
      assert CreateSound(s, t);
    }
    forall id | id in s1.resources ensures ResourceSound(s1, id) {
      if id in s.resources {
        assert ResourceSound(s, id);
      }
    }
    forall u | u in s1.sweeps ensures SweepSound(s1, u) {
      assert SweepSound(s, u);
      forall i | 0 <= i < |s1.sweeps[u].todo|
        ensures ItemSound(s1, s1.sweeps[u].todo[i], i == 0 && s1.sweeps[u].condemned)
      {
        assert ItemSound(s, s.sweeps[u].todo[i], i == 0 && s.sweeps[u].condemned);
      }
    }
  }

  // ----- runs -----

  ghost predicate Possible(s: State, es: seq<Event>)
    decreases |es|
  {
    es == [] || (Enabled(s, es[0]) && Possible(Next(s, es[0]), es[1..]))
  }

  ghost function Exec(s: State, es: seq<Event>): State
    requires Possible(s, es)
    decreases |es|
  {
    if es == [] then s else Exec(Next(s, es[0]), es[1..])
  }

  const EMPTY := State({}, map[], map[], map[], {})

  ghost predicate Intact(es: seq<Event>) {
    forall e :: e in es ==> !e.Restores?
  }

  lemma {:induction false} ExecKeepsInv(s: State, es: seq<Event>)
    requires Inv(s) && Possible(s, es) && Intact(es)
    ensures Inv(Exec(s, es))
    decreases |es|
  {
    if es != [] {
      hide Inv, Next, Enabled;
      assert es[0] in es;
      if es[0].InsertsRow? {
        InsertKeepsInv(s, es[0].task, es[0].sid);
      } else if es[0].Lists? || es[0].Looks? || es[0].SweepsAway? {
        SweepStepKeepsInv(s, es[0]);
      } else {
        OtherStepKeepsInv(s, es[0]);
      }
      assert Intact(es[1..]);
      ExecKeepsInv(Next(s, es[0]), es[1..]);
    }
  }

  /** Safety. While the session table is intact, no interleaving lets a sweep, whatever its grace window,
      remove a volume or container that a create made, in progress, finished or failed: its row was there
      before it was, and rows are never deleted. */
  lemma {:induction false} SweepsNeverTakeWhatCreateMade(es: seq<Event>)
    requires Possible(EMPTY, es) && Intact(es)
    ensures Exec(EMPTY, es).lost == {}
  {
    ExecKeepsInv(EMPTY, es);
  }

  /** An intact table is needed: restore a backup older than the session and a sweep takes its volume. */
  lemma {:induction false} RestoredBackupLosesData(sid: string) returns (es: seq<Event>)
    requires sid != ""
    ensures Possible(EMPTY, es) && (VolumeKind, VolumeName(sid)) in Exec(EMPTY, es).lost
  {
    var id := (VolumeKind, VolumeName(sid));
    var e0, e1, e2 := InsertsRow(0, sid), MakesNext(0), Restores({});
    var s1 := Next(EMPTY, e0);
    var s2 := Next(s1, e1);
    var s3 := Next(s2, e2);
    assert Enabled(EMPTY, e0) && Enabled(s1, e1) && Enabled(s2, e2);
    assert s3.resources[id] == Resource(sid, true) && s3.rows == {};
    hide Next, Enabled;
    var rest := UnownedIsSwept(s3, id);
    OneMore(s2, e2, rest);
    OneMore(s1, e1, [e2] + rest);
    OneMore(EMPTY, e0, [e1] + ([e2] + rest));
    es := [e0] + ([e1] + ([e2] + rest));
  }

  lemma {:induction false} OneMore(s: State, e: Event, rest: seq<Event>)
    requires Enabled(s, e) && Possible(Next(s, e), rest)
    ensures Possible(s, [e] + rest) && Exec(s, [e] + rest) == Exec(Next(s, e), rest)
  {
    assert ([e] + rest)[1..] == rest;
  }

  // ----- these steps are create's -----

  /** The steps of a create that nothing interrupts: which of its resources come to be made, and whether its rollback
      takes effect. */
  function CreateEvents(t: nat, sid: string, volume: bool, container: bool, undone: bool): seq<Event> {
    [InsertsRow(t, sid)]
    + ((if volume then [MakesNext(t)] else [])
       + ((if container then [MakesNext(t)] else [])
          + ((if undone then [RollsBack(t)] else []) + [])))
  }

  /** At most one more event. */
  lemma {:induction false} MaybeOneMore(s: State, e: Event, happens: bool, rest: seq<Event>) returns (s1: State)
    requires happens ==> Enabled(s, e)
    ensures s1 == if happens then Next(s, e) else s
    ensures Possible(s1, rest) ==>
              && Possible(s, (if happens then [e] else []) + rest)
              && Exec(s, (if happens then [e] else []) + rest) == Exec(s1, rest)
  {
    s1 := if happens then Next(s, e) else s;
    hide Next, Enabled;
    if happens && Possible(s1, rest) {
      OneMore(s, e, rest);
    } else {
      assert [] + rest == rest;
    }
  }

  function CreatedOf(rs: map<Id, Resource>, sid: string, volume: bool, container: bool, undone: bool)
      : map<Id, Resource>
  {
    var v, c := (VolumeKind, NameOf(VolumeKind, sid)), (ContainerKind, NameOf(ContainerKind, sid));
    var made := if volume then rs[v := Resource(sid, true)] else rs;
    var both := if container then made[c := Resource(sid, true)] else made;
    if undone then both - {v} else both
  }

  lemma {:induction false} CreatedAre(rs: map<Id, Resource>, sid: string, volume: bool, container: bool, undone: bool)
    requires forall kind :: (kind, NameOf(kind, sid)) !in rs
    ensures var v, c := (VolumeKind, NameOf(VolumeKind, sid)), (ContainerKind, NameOf(ContainerKind, sid));
            var rs1 := CreatedOf(rs, sid, volume, container, undone);
            && (v in rs1 <==> volume && !undone) && (c in rs1 <==> container) && rs1 - {v, c} == rs
  {
    hide NameOf;
  }

  lemma {:induction false} CreateRuns(s: State, t: nat, sid: string, volume: bool, container: bool, undone: bool)
      returns (s1: State)
    requires Enabled(s, InsertsRow(t, sid)) && (container ==> volume)
    ensures Possible(s, CreateEvents(t, sid, volume, container, undone))
    ensures Exec(s, CreateEvents(t, sid, volume, container, undone)) == s1 && s1.rows == s.rows + {sid}
    ensures s1.resources == CreatedOf(s.resources, sid, volume, container, undone)
  {
    var last := (if undone then [RollsBack(t)] else []) + [];
    var more := (if container then [MakesNext(t)] else []) + last;
    var all := (if volume then [MakesNext(t)] else []) + more;
    var v, c := (VolumeKind, NameOf(VolumeKind, sid)), (ContainerKind, NameOf(ContainerKind, sid));
    assert v !in s.resources && c !in s.resources && VolumeName(sid) == NameOf(VolumeKind, sid);
    s1 := Next(s, InsertsRow(t, sid));
    var s0 := s1;
    assert s1 == s.(rows := s.rows + {sid}, creates := s.creates[t := CreateTask(sid, NeedsVolume)]);
    assert CreateEvents(t, sid, volume, container, undone) == [InsertsRow(t, sid)] + all;
    hide NameOf, Unused, CreateEvents, Make;
    s1 := MaybeOneMore(s0, MakesNext(t), volume, more);
    var s2 := s1;
    s1 := MaybeOneMore(s2, MakesNext(t), container, last);
    var s3 := s1;
    assert t in s3.creates && s3.creates[t].sid == sid;
    s1 := MaybeOneMore(s3, RollsBack(t), undone, []);
    assert Possible(s1, []) && Exec(s1, []) == s1;
    hide Possible, Exec;
    OneMore(s, InsertsRow(t, sid), all);
  }

  /** Left alone, a create of this model leaves of its resources what `create` leaves, whatever its calls do, and
      touches no other. */
  lemma {:induction false} CreateIsTheseSteps(s: State, t: nat, sid: string, tenant: string, o: Oracle)
      returns (es: seq<Event>)
    requires Enabled(s, InsertsRow(t, sid))
    ensures Possible(s, es)
    ensures var e, s1 := CreateEffect(sid, tenant, o).session, Exec(s, es);
            var volume, container := (VolumeKind, NameOf(VolumeKind, sid)), (ContainerKind, NameOf(ContainerKind, sid));
            && s1.rows == s.rows + {sid}
            && (volume in s1.resources <==> e.volume)
            && (container in s1.resources <==> e.container != Absent)
            && s1.resources - {volume, container} == s.resources
  {
    var made := o.fault(sid, CreateVolume);
    var reached := made == Fine && o.fault(sid, QuotaSetup) == Fine;
    var contained := o.fault(sid, CreateContainer);
    var succeeded := reached && contained == Fine && o.fault(sid, StartContainer) == Fine;
    var undone := !succeeded && Took(o.fault(sid, RemoveVolume));
    es := CreateEvents(t, sid, Took(made), reached && Took(contained), undone);
    var volume, container := (VolumeKind, NameOf(VolumeKind, sid)), (ContainerKind, NameOf(ContainerKind, sid));
    assert volume !in s.resources && container !in s.resources;
    CreateLeaves(sid, tenant, o);
    CreatedAre(s.resources, sid, Took(made), reached && Took(contained), undone);
    hide Possible, Exec, CreateEffect, CreateEvents, Unused, NameOf, Next, Enabled, CreatedOf;
    var s1 := CreateRuns(s, t, sid, Took(made), reached && Took(contained), undone);
  }

  lemma {:induction false} CreateLeaves(sid: string, tenant: string, o: Oracle)
    ensures var made := o.fault(sid, CreateVolume);
            var reached := made == Fine && o.fault(sid, QuotaSetup) == Fine;
            var contained := o.fault(sid, CreateContainer);
            var succeeded := reached && contained == Fine && o.fault(sid, StartContainer) == Fine;
            var e := CreateEffect(sid, tenant, o).session;
            && (e.volume <==> Took(made) && (succeeded || !Took(o.fault(sid, RemoveVolume))))
            && (e.container != Absent <==> reached && Took(contained))
  {
    hide DestroyLocked;
  }

  // ----- these steps are the sweeper's -----

  /** The steps of a sweep over `ls` that nothing interrupts: each item is looked at, and removed if condemned. */
  function PassOver(t: nat, ls: seq<Listed>, sw: Sweep): seq<Event>
    decreases |ls|
  {
    if ls == [] then []
    else
      var young := ls[0].item.createdAt > 0.0 && sw.now < ls[0].item.createdAt + sw.grace;
      [Looks(t, young)] + ((if Orphan(ls[0].item, sw) then [SweepsAway(t, ls[0].removable)] else [])
                           + PassOver(t, ls[1..], sw))
  }

  /** The sweep has just listed `ls`. */
  ghost predicate HasListed(s: State, t: nat, ls: seq<Listed>) {
    && t in s.sweeps && !s.sweeps[t].condemned && |s.sweeps[t].todo| == |ls|
    && forall i :: 0 <= i < |ls| ==> s.sweeps[t].todo[i] == Pending((ls[i].kind, ls[i].item.name), ls[i].item.sessionId)
  }

  /** The resources that an unlimited pass of the sweeper removes. */
  function Swept(ls: seq<Listed>, sw: Sweep): set<Id> {
    set r | r in AllReaped(ls, sw) :: (r.kind, r.name)
  }

  lemma {:induction false} SweptFirst(ls: seq<Listed>, sw: Sweep)
    requires ls != []
    ensures Swept(ls, sw) == Swept(ls[1..], sw) + if Reapable(ls[0], sw) then {(ls[0].kind, ls[0].item.name)} else {}
  {
    assert ls == [ls[0]] + ls[1..];
    AllReapedConcat([ls[0]], ls[1..], sw);
    assert [ls[0]][..0] == [] && AllReaped([ls[0]][..0], sw) == [];
    var first := AllReaped([ls[0]], sw);
    assert first == if Reapable(ls[0], sw) then [Removal(ls[0].kind, ls[0].item.name)] else [];
    hide AllReaped, Reapable;
  }

  /** Looking condemns exactly the orphans of the sweeper; what is condemned goes if its removal succeeds. */
  lemma {:induction false} OneItemIsSwept(s: State, t: nat, ls: seq<Listed>, sw: Sweep) returns (s1: State)
    requires ls != [] && HasListed(s, t, ls) && s.rows == sw.known
    ensures HasListed(s1, t, ls[1..]) && s1.rows == s.rows
    ensures s1.resources == s.resources - if Reapable(ls[0], sw) then {(ls[0].kind, ls[0].item.name)} else {}
    ensures forall es :: Possible(s1, es) ==>
              var young := ls[0].item.createdAt > 0.0 && sw.now < ls[0].item.createdAt + sw.grace;
              var all := [Looks(t, young)]
                         + ((if Orphan(ls[0].item, sw) then [SweepsAway(t, ls[0].removable)] else []) + es);
              Possible(s, all) && Exec(s, all) == Exec(s1, es)
  {
    var young := ls[0].item.createdAt > 0.0 && sw.now < ls[0].item.createdAt + sw.grace;
    var looks, sweeps := Looks(t, young), SweepsAway(t, ls[0].removable);
    assert s.sweeps[t].todo[0] == Pending((ls[0].kind, ls[0].item.name), ls[0].item.sessionId);
    assert Enabled(s, looks);
    s1 := Next(s, looks);
    if Orphan(ls[0].item, sw) {
      assert Enabled(s1, sweeps);
      var s2 := Next(s1, sweeps);
      forall es | Possible(s2, es)
        ensures Possible(s, [looks] + ([sweeps] + es))
        ensures Exec(s, [looks] + ([sweeps] + es)) == Exec(s2, es)
      {
        OneMore(s1, sweeps, es);
        OneMore(s, looks, [sweeps] + es);
      }
      s1 := s2;
    } else {
      forall es | Possible(s1, es)
        ensures Possible(s, [looks] + ([] + es)) && Exec(s, [looks] + ([] + es)) == Exec(s1, es)
      {
        assert [] + es == es;
        OneMore(s, looks, es);
      }
    }
  }

  /** Left alone, a sweep of this model removes exactly what a pass of the sweeper with no cap removes; a cap makes it
      stop before some item, which every run here may do. */
  lemma {:induction false} SweepIsSweeperPass(s: State, t: nat, ls: seq<Listed>, sw: Sweep)
    requires HasListed(s, t, ls) && s.rows == sw.known
    ensures Possible(s, PassOver(t, ls, sw))
    ensures Exec(s, PassOver(t, ls, sw)).resources == s.resources - Swept(ls, sw)
    decreases |ls|
  {
    if ls != [] {
      SweptFirst(ls, sw);
      var s1 := OneItemIsSwept(s, t, ls, sw);
      hide Swept, Possible, Exec, HasListed, Reapable, Orphan;
      SweepIsSweeperPass(s1, t, ls[1..], sw);
    }
  }

  // ----- which restores are safe -----

  /** What an operator can check before restoring a table with the rows `kept`: it has the row of every session
      that owns a resource some create made, and of every create that has not made all of its own. */
  ghost predicate KeepsOwners(s: State, kept: set<string>) {
    && (forall id :: id in s.resources && s.resources[id].made ==> s.resources[id].owner in kept)
    && (forall t :: t in s.creates && !s.creates[t].stage.Provisioned? ==> s.creates[t].sid in kept)
  }

  /** Nothing is lost in any run from here without another restore. */
  ghost predicate NeverLoses(s: State) {
    forall es :: Possible(s, es) && Intact(es) ==> Exec(s, es).lost == {}
  }

  lemma {:induction false} RestoreKeepsInv(s: State, kept: set<string>)
    requires Inv(s) && kept <= s.rows && KeepsOwners(s, kept)
    ensures Inv(s.(rows := kept))
  {
    hide NameOf;
    var r := s.(rows := kept);
    forall id | id in r.resources ensures ResourceSound(r, id) {
      assert ResourceSound(s, id);
    }
    forall t | t in r.creates ensures CreateSound(r, t) {
      assert CreateSound(s, t);
    }
    forall t | t in r.sweeps ensures SweepSound(r, t) {
      assert SweepSound(s, t);
      forall i | 0 <= i < |r.sweeps[t].todo|
        ensures ItemSound(r, r.sweeps[t].todo[i], i == 0 && r.sweeps[t].condemned)
      {
        assert ItemSound(s, s.sweeps[t].todo[i], i == 0 && s.sweeps[t].condemned);
      }
    }
  }

  /** A resource some create made, whose owner has no row, goes in one sweep. */
  lemma {:induction false} UnownedIsSwept(s: State, id: Id) returns (es: seq<Event>)
    requires id in s.resources && s.resources[id].made && s.resources[id].owner !in s.rows + {""}
    ensures Possible(s, es) && Intact(es) && id in Exec(s, es).lost
  {
    var lists, looks, sweeps := Lists(0, [id]), Looks(0, false), SweepsAway(0, true);
    var s1 := Next(s, lists);
    assert s1.sweeps[0].todo == [Pending(id, s.resources[id].owner)];
    var s2 := Next(s1, looks);
    var s3 := Next(s2, sweeps);
    assert Enabled(s, lists) && Enabled(s1, looks) && Enabled(s2, sweeps);
    assert id in s3.lost;
    hide Next, Enabled;
    es := [lists] + ([looks] + ([sweeps] + []));
    OneMore(s2, sweeps, []);
    OneMore(s1, looks, [sweeps] + []);
    OneMore(s, lists, [looks] + ([sweeps] + []));
  }

  /** A create that goes on without its row makes something a sweep can take. */
  lemma {:induction false} RowlessCreateIsSwept(s: State, t: nat) returns (es: seq<Event>)
    requires t in s.creates && !s.creates[t].stage.Provisioned? && s.creates[t].sid !in s.rows + {""}
    requires var kind := if s.creates[t].stage == NeedsVolume then VolumeKind else ContainerKind;
             (kind, NameOf(kind, s.creates[t].sid)) !in s.resources
    ensures Possible(s, es) && Intact(es) && Exec(s, es).lost != {}
  {
    var kind := if s.creates[t].stage == NeedsVolume then VolumeKind else ContainerKind;
    var id := (kind, NameOf(kind, s.creates[t].sid));
    var s1 := Next(s, MakesNext(t));
    assert Enabled(s, MakesNext(t)) && s1.resources[id] == Resource(s.creates[t].sid, true) && s1.rows == s.rows;
    hide Next, Enabled, NameOf;
    var rest := UnownedIsSwept(s1, id);
    OneMore(s, MakesNext(t), rest);
    es := [MakesNext(t)] + rest;
  }

  /** The exact condition on a restored table: nothing is ever lost if and only if it has kept those rows. */
  lemma {:induction false} RestoreIsSafeIffOwnersKept(es: seq<Event>, kept: set<string>)
    requires Possible(EMPTY, es) && Intact(es) && kept <= Exec(EMPTY, es).rows
    ensures var s := Exec(EMPTY, es);
            NeverLoses(Next(s, Restores(kept))) <==> KeepsOwners(s, kept)
  {
    ExecKeepsInv(EMPTY, es);
    var s := Exec(EMPTY, es);
    var r := Next(s, Restores(kept));
    if KeepsOwners(s, kept) {
      RestoreKeepsInv(s, kept);
      forall fs | Possible(r, fs) && Intact(fs) ensures Exec(r, fs).lost == {} {
        ExecKeepsInv(r, fs);
      }
    } else {
      LosingRun(s, kept);
    }
  }

  lemma {:induction false} LosingRun(s: State, kept: set<string>)
    requires Inv(s) && kept <= s.rows && !KeepsOwners(s, kept)
    ensures !NeverLoses(s.(rows := kept))
  {
    var r := s.(rows := kept);
    if id :| id in s.resources && s.resources[id].made && s.resources[id].owner !in kept {
      assert ResourceSound(s, id);
      var es := UnownedIsSwept(r, id);
    } else {
      var t :| t in s.creates && !s.creates[t].stage.Provisioned? && s.creates[t].sid !in kept;
      assert CreateSound(s, t);
      var sid := s.creates[t].sid;
      var kind := if s.creates[t].stage == NeedsVolume then VolumeKind else ContainerKind;
      var id := (kind, NameOf(kind, sid));
      hide NameOf;
      if id in s.resources {
        assert ResourceSound(s, id) && Reserved(s.rows, id);
        NameIsInjective(kind, s.resources[id].owner, sid);
      }
      var es := RowlessCreateIsSwept(r, t);
    }
  }
}
