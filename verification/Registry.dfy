/** The session table of `api/registry.py`: its status machine, its guarded row updates
    and the class whose methods perform them in place. */
module Registry {
  import opened Wrappers

  datatype Status = CREATING | RUNNING | IDLE | STOPPED | DESTROYING | DESTROYED

  /** The statuses a session may move to from `s`. */
  function Transitions(s: Status): set<Status> {
    match s
    case CREATING => {RUNNING, DESTROYING}
    case RUNNING => {IDLE, STOPPED, DESTROYING}
    case IDLE => {RUNNING, STOPPED, DESTROYING}
    case STOPPED => {RUNNING, DESTROYING}
    case DESTROYING => {DESTROYED}
    case DESTROYED => {}
  }

  /** Neither being destroyed nor destroyed. */
  predicate Live(s: Status) {
    s != DESTROYING && s != DESTROYED
  }

  /** The statuses the idle sweep looks at. */
  predicate Sweepable(s: Status) {
    s == RUNNING || s == IDLE
  }

  datatype Row = Row(tenant: string, status: Status, containerId: Option<string>, volumeName: string,
                     createdAt: int, lastActivityAt: int, destroyedAt: Option<int>)

  function NewRow(tenant: string, volumeName: string, ts: int): Row {
    Row(tenant, CREATING, None, volumeName, ts, ts, None)
  }

  /** The row after a permitted transition to `to` at time `ts`. */
  function Moved(r: Row, to: Status, ts: int): Row {
    if to == DESTROYED then r.(status := to, destroyedAt := Some(ts), lastActivityAt := ts)
    else r.(status := to, lastActivityAt := ts)
  }

  function Touched(r: Row, ts: int): Row {
    if Sweepable(r.status) then r.(lastActivityAt := ts) else r
  }

  /** The recovery update: anything still live is forced to STOPPED, outside the transition table. */
  function Orphaned(r: Row, ts: int): Row {
    if Live(r.status) && r.status != STOPPED then r.(status := STOPPED, lastActivityAt := ts) else r
  }

  /** A tenant's lookup finds its own rows only, and no destroyed one. */
  predicate VisibleTo(r: Row, tenant: string) {
    r.tenant == tenant && r.status != DESTROYED
  }

  predicate IdleSince(r: Row, threshold: int) {
    Sweepable(r.status) && r.lastActivityAt < threshold
  }

  predicate ExpiredBefore(r: Row, threshold: int) {
    Live(r.status) && r.createdAt < threshold
  }

  datatype MoveResult = Done | NoSuchRow | Refused

  class Registry {
    var rows: map<string, Row>

    constructor ()
      ensures rows == map[]
    {
      rows := map[];
    }

    method Insert(sid: string, tenant: string, volumeName: string, ts: int) returns (ok: bool)
      modifies this
      ensures ok <==> sid !in old(rows)
      ensures rows == if ok then old(rows)[sid := NewRow(tenant, volumeName, ts)] else old(rows)
    {
      ok := sid !in rows;
      if ok {
        rows := rows[sid := NewRow(tenant, volumeName, ts)];
      }
    }

    method SetContainer(sid: string, cid: string)
      modifies this
      ensures rows == if sid in old(rows)
                      then old(rows)[sid := old(rows)[sid].(containerId := Some(cid))] else old(rows)
    {
      if sid in rows {
        rows := rows[sid := rows[sid].(containerId := Some(cid))];
      }
    }

    method Transition(sid: string, to: Status, ts: int) returns (r: MoveResult)
      modifies this
      ensures r == if sid !in old(rows) then NoSuchRow
                   else if to in Transitions(old(rows)[sid].status) then Done else Refused
      ensures rows == if r == Done then old(rows)[sid := Moved(old(rows)[sid], to, ts)] else old(rows)
    {
      if sid !in rows {
        return NoSuchRow;
      }
      var current := rows[sid].status;
      if to !in Transitions(current) {
        return Refused;
      }
      if to == DESTROYED {
        rows := rows[sid := rows[sid].(status := to, destroyedAt := Some(ts), lastActivityAt := ts)];
      } else {
        rows := rows[sid := rows[sid].(status := to, lastActivityAt := ts)];
      }
      r := Done;
    }

    method TouchActivity(sid: string, ts: int)
      modifies this
      ensures rows == if sid in old(rows) && old(rows)[sid].status in {RUNNING, IDLE}
                      then old(rows)[sid := old(rows)[sid].(lastActivityAt := ts)] else old(rows)
    {
      if sid in rows && (rows[sid].status == RUNNING || rows[sid].status == IDLE) {
        rows := rows[sid := rows[sid].(lastActivityAt := ts)];
      }
    }

    method TransitionOrphaned(sid: string, ts: int)
      modifies this
      ensures rows == if sid in old(rows) && old(rows)[sid].status !in {STOPPED, DESTROYING, DESTROYED}
                      then old(rows)[sid := old(rows)[sid].(status := STOPPED, lastActivityAt := ts)] else old(rows)
    {
      if sid in rows && rows[sid].status !in {DESTROYING, DESTROYED, STOPPED} {
        rows := rows[sid := rows[sid].(status := STOPPED, lastActivityAt := ts)];
      }
    }

    /** `SELECT ... WHERE p`: each matching id once, in an order the caller may not rely on. */
    method Select(p: Row -> bool) returns (ids: seq<string>)
      ensures forall i, j :: 0 <= i < j < |ids| ==> ids[i] != ids[j]
      ensures forall sid :: sid in ids <==> sid in rows && p(rows[sid])
    {
      ids := [];
      var todo := rows.Keys;
      while todo != {}
        invariant todo <= rows.Keys
        invariant forall i, j :: 0 <= i < j < |ids| ==> ids[i] != ids[j]
        invariant forall sid :: sid in ids <==> sid in rows && sid !in todo && p(rows[sid])
        decreases todo
      {
        var sid :| sid in todo;
        todo := todo - {sid};
        if p(rows[sid]) {
          ids := ids + [sid];
        }
      }
    }
  }
}
