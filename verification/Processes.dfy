/** Background processes: the process rows of `api/registry.py` and `ProcessService` of `api/processes.py`. */
module Processes {
  import opened Wrappers
  import Admission
  import Paths

  datatype State = Running | Exited

  datatype ProcessRow = ProcessRow(sessionId: string, tenant: string, ospid: Option<int>, state: State,
                                   exitCode: Option<int>, startedAt: int, exitedAt: Option<int>,
                                   lastPolledAt: Option<int>)

  type Table = map<string, ProcessRow>

  function NewProcess(sessionId: string, tenant: string, ospid: Option<int>, ts: int): ProcessRow {
    ProcessRow(sessionId, tenant, ospid, Running, None, ts, None, Some(ts))
  }

  /** The registry's writes; each is one atomic statement. */
  datatype Write =
    | Insert(id: string, row: ProcessRow)
    | MarkExited(id: string, exitCode: Option<int>, ts: int)
    | TouchPolled(id: string, ts: int)
    | Delete(sessionId: string, id: string)

  /** The guard of the exit update: only a running row is marked. */
  function Marked(r: ProcessRow, exitCode: Option<int>, ts: int): ProcessRow {
    if r.state != Running then r
    else r.(state := Exited, exitCode := exitCode, exitedAt := Some(ts), lastPolledAt := Some(ts))
  }

  function Written(t: Table, w: Write): Table {
    match w
    case Insert(id, row) => if id in t then t else t[id := row]
    case MarkExited(id, exitCode, ts) => if id in t then t[id := Marked(t[id], exitCode, ts)] else t
    case TouchPolled(id, ts) => if id in t then t[id := t[id].(lastPolledAt := Some(ts))] else t
    case Delete(sid, id) => if id in t && t[id].sessionId == sid then t - {id} else t
  }

  /** Any interleaving of the service's tasks comes down to some sequence of these writes. */
  function Replay(t: Table, ws: seq<Write>): Table
    decreases |ws|
  {
    if ws == [] then t else Replay(Written(t, ws[0]), ws[1..])
  }

  // ----- an exit is recorded once -----

  predicate NeverDeletes(ws: seq<Write>, id: string) {
    forall i :: 0 <= i < |ws| ==> !(ws[i].Delete? && ws[i].id == id)
  }

  /** The exit code and time of the first mark of this process, if any. */
  function FirstMark(ws: seq<Write>, id: string): Option<(Option<int>, int)>
    decreases |ws|
  {
    if ws == [] then None
    else if ws[0].MarkExited? && ws[0].id == id then Some((ws[0].exitCode, ws[0].ts))
    else FirstMark(ws[1..], id)
  }

  /** The row `r` but for the time of the last poll. */
  predicate SameButPolled(r: ProcessRow, s: ProcessRow) {
    r == s.(lastPolledAt := r.lastPolledAt)
  }

  /** The row with that exit, unless it had one before. */
  function Settled(r: ProcessRow, mark: Option<(Option<int>, int)>): ProcessRow {
    if mark.Some? && r.state != Exited
    then r.(state := Exited, exitCode := mark.value.0, exitedAt := Some(mark.value.1)) else r
  }

  /** Of any number of tasks that refresh, stop or reap one process at once, the first to mark it decides its
      exit code and time, and nothing after that changes them while the row exists. */
  lemma {:induction false} FirstMarkDecides(t: Table, ws: seq<Write>, id: string)
    requires id in t && NeverDeletes(ws, id)
    ensures id in Replay(t, ws)
    ensures SameButPolled(Replay(t, ws)[id], Settled(t[id], FirstMark(ws, id)))
    decreases |ws|
  {
    if ws != [] {
      var u := Written(t, ws[0]);
      assert NeverDeletes(ws[1..], id);
      FirstMarkDecides(u, ws[1..], id);
    }
  }

  lemma {:induction false} ExitIsFinal(t: Table, ws: seq<Write>, id: string)
    requires id in t && t[id].state == Exited && NeverDeletes(ws, id)
    ensures id in Replay(t, ws) && SameButPolled(Replay(t, ws)[id], t[id])
  {
    FirstMarkDecides(t, ws, id);
  }

  // ----- the cap -----

  function RunningIds(t: Table, sid: string): set<string> {
    set id | id in t && t[id].sessionId == sid && t[id].state == Running
  }

  /** One serial operation: a start, which counts before it inserts, or any write but an insert. */
  datatype SerialOp = StartOp(id: string, row: ProcessRow) | Other(write: Write)

  function Limit(maxProcesses: int, tenantMax: int): int {
    if maxProcesses <= tenantMax then maxProcesses else tenantMax
  }

  function Performed(t: Table, op: SerialOp, caps: map<string, int>, tenantMax: int): Table {
    match op
    case StartOp(id, row) =>
      if row.sessionId in caps && |RunningIds(t, row.sessionId)| < Limit(caps[row.sessionId], tenantMax)
      then Written(t, Insert(id, row)) else t
    case Other(w) => if w.Insert? then t else Written(t, w)
  }

  function SerialRun(t: Table, ops: seq<SerialOp>, caps: map<string, int>, tenantMax: int): Table
    decreases |ops|
  {
    if ops == [] then t else SerialRun(Performed(t, ops[0], caps, tenantMax), ops[1..], caps, tenantMax)
  }

  lemma {:induction false} OnlyInsertsRun(t: Table, w: Write, sid: string)
    ensures var started := if w.Insert? && w.row.sessionId == sid then {w.id} else {};
            RunningIds(Written(t, w), sid) <= RunningIds(t, sid) + started
  {
  }

  lemma {:induction false} PerformedKeepsCap(t: Table, op: SerialOp, caps: map<string, int>, tenantMax: int,
                                             sid: string)
    requires sid in caps && |RunningIds(t, sid)| <= caps[sid] && |RunningIds(t, sid)| <= tenantMax
    ensures var n := |RunningIds(Performed(t, op, caps, tenantMax), sid)|; n <= caps[sid] && n <= tenantMax
  {
    var u := Performed(t, op, caps, tenantMax);
    var w := if op.StartOp? then Insert(op.id, op.row) else op.write;
    OnlyInsertsRun(t, w, sid);
    hide RunningIds, Written;
    if u != t {
      if op.StartOp? && op.row.sessionId == sid {
        SubsetSize(RunningIds(u, sid), RunningIds(t, sid) + {op.id});
      } else {
        assert RunningIds(t, sid) + {} == RunningIds(t, sid);
        SubsetSize(RunningIds(u, sid), RunningIds(t, sid));
      }
    }
  }

  /** While starts are serial no session ever has more running processes than its own and the tenant's limit. */
  lemma {:induction false} SerialRunKeepsCap(t: Table, ops: seq<SerialOp>, caps: map<string, int>, tenantMax: int,
                                             sid: string)
    requires sid in caps && |RunningIds(t, sid)| <= caps[sid] && |RunningIds(t, sid)| <= tenantMax
    ensures var n := |RunningIds(SerialRun(t, ops, caps, tenantMax), sid)|; n <= caps[sid] && n <= tenantMax
    decreases |ops|
  {
    if ops != [] {
      PerformedKeepsCap(t, ops[0], caps, tenantMax, sid);
      hide RunningIds, Performed;
      SerialRunKeepsCap(Performed(t, ops[0], caps, tenantMax), ops[1..], caps, tenantMax, sid);
    }
  }

  // ----- the cap when starts overlap -----

  /** An exited process has given its place up for good. */
  function PlaceOf(sid: string): ProcessRow -> Admission.Place {
    (r: ProcessRow) =>
      if r.sessionId != sid then Admission.Elsewhere
      else if r.state == Running then Admission.Held else Admission.Vacated
  }

  function Room(maxProcesses: int, tenantMax: int): nat {
    if Limit(maxProcesses, tenantMax) < 0 then 0 else Limit(maxProcesses, tenantMax)
  }

  lemma {:induction false} RunningIdsHold(t: Table, sid: string)
    ensures RunningIds(t, sid) == Admission.Holders(t, PlaceOf(sid))
  {
  }

  /** A start is a count and, some awaits later, an insert; done in one go it is the serial operation. */
  lemma {:induction false} StartIsCountThenInsert(t: Table, id: string, row: ProcessRow, maxProcesses: int,
                                                  tenantMax: int)
    requires row.state == Running
    ensures var s, count := Admission.Idle(t), Admission.Counts(0, id, row);
            var room, caps := Room(maxProcesses, tenantMax), map[row.sessionId := maxProcesses];
            Performed(t, StartOp(id, row), caps, tenantMax) ==
            if Admission.Enabled(s, count, PlaceOf(row.sessionId), room, false)
            then Admission.Next(Admission.Next(s, count), Admission.Inserts(0)).table else t
  {
    RunningIdsHold(t, row.sessionId);
  }

  /** Any other write is at most one step, and none gives a row its place back. */
  lemma {:induction false} WriteIsStep(s: Admission.State<ProcessRow>, w: Write, sid: string, room: nat)
      returns (e: Option<Admission.Event<ProcessRow>>)
    requires !w.Insert?
    ensures e == None ==> Written(s.table, w) == s.table
    ensures e.Some? ==> Admission.Enabled(s, e.value, PlaceOf(sid), room, false) && Admission.Alive(s, e.value)
                        && Admission.Next(s, e.value) == s.(table := Written(s.table, w))
  {
    if w.id !in s.table || (w.Delete? && s.table[w.id].sessionId != w.sessionId) {
      e := None;
    } else if w.Delete? {
      e := Some(Admission.Deletes(w.id));
    } else {
      e := Some(Admission.Rewrites(w.id, Written(s.table, w)[w.id]));
    }
  }

  /** A run of starts and other process writes, from no rows, with at most `n` starts of the session in flight; a
      start is over with its insert. */
  ghost predicate StartsRun(es: seq<Admission.Event<ProcessRow>>, sid: string, room: nat, n: nat) {
    Admission.Possible(Admission.Idle(map[]), es, PlaceOf(sid), room, n, false)
  }

  ghost function TableAfter(es: seq<Admission.Event<ProcessRow>>, sid: string, room: nat, n: nat): Table
    requires StartsRun(es, sid, room, n)
  {
    Admission.Exec(Admission.Idle(map[]), es, PlaceOf(sid), room, n, false).table
  }

  /** However starts, exits, polls and deletions interleave, a session's running processes exceed its limit by
      less than the number of starts that are between their count and their insert at once. */
  lemma {:induction false} StartsStayBelowPeak(es: seq<Admission.Event<ProcessRow>>, sid: string, room: nat, n: nat)
    requires StartsRun(es, sid, room, n)
    ensures |RunningIds(TableAfter(es, sid, room, n), sid)| <= Admission.Peak(room, n)
  {
    assert Admission.Holders(map[], PlaceOf(sid)) == {};
    RunningIdsHold(TableAfter(es, sid, room, n), sid);
    hide Admission.Possible, Admission.Exec;
    Admission.NeverAbovePeak(map[], es, PlaceOf(sid), room, n);
  }

  /** And they come to exceed it by that much: `n` starts that all count before any of them inserts. */
  lemma {:induction false} OverlappingStartsExceedCap(sid: string, tenant: string, maxProcesses: int, tenantMax: int,
                                                      n: nat)
      returns (es: seq<Admission.Event<ProcessRow>>)
    requires Limit(maxProcesses, tenantMax) >= 1 && n >= 1
    ensures var room := Room(maxProcesses, tenantMax);
            && StartsRun(es, sid, room, n)
            && |RunningIds(TableAfter(es, sid, room, n), sid)| == Limit(maxProcesses, tenantMax) + n - 1
  {
    var row := NewProcess(sid, tenant, None, 0);
    var room := Room(maxProcesses, tenantMax);
    assert PlaceOf(sid)(row) == Admission.Held;
    hide Admission.Possible, Admission.Exec;
    es := Admission.PeakIsReached(row, PlaceOf(sid), room, n);
    RunningIdsHold(TableAfter(es, sid, room, n), sid);
  }

  /** The cap holds in every run with at most `n` overlapping starts of the session. */
  ghost predicate StartsKeepCap(sid: string, room: nat, n: nat) {
    forall es :: StartsRun(es, sid, room, n) ==> |RunningIds(TableAfter(es, sid, room, n), sid)| <= room
  }

  /** The exact condition: no process may run at all, or no two starts of the session overlap. */
  lemma {:induction false} StartsKeepCapIff(sid: string, room: nat, n: nat)
    ensures StartsKeepCap(sid, room, n) <==> room == 0 || n <= 1
  {
    var row := NewProcess(sid, "", None, 0);
    var place := PlaceOf(sid);
    assert place(row) == Admission.Held && place(row.(state := Exited)) == Admission.Vacated;
    hide Admission.Possible, Admission.Exec, PlaceOf;
    Admission.WithinIffSerial(row, row.(state := Exited), place, room, n, false);
    forall es | StartsRun(es, sid, room, n)
      ensures RunningIds(TableAfter(es, sid, room, n), sid) == Admission.Holders(TableAfter(es, sid, room, n), place)
    {
      RunningIdsHold(TableAfter(es, sid, room, n), sid);
    }
    if StartsKeepCap(sid, room, n) {
      forall es | Admission.Possible(Admission.Idle(map[]), es, place, room, n, false)
        ensures var t := Admission.Exec(Admission.Idle(map[]), es, place, room, n, false).table;
                |Admission.Holders(t, place)| <= room
      {
        assert StartsRun(es, sid, room, n);
      }
    }
  }

  // ----- the rows -----

  class ProcessTable {
    var rows: Table

    constructor ()
      ensures rows == map[]
    {
      rows := map[];
    }

    method InsertProcess(id: string, row: ProcessRow) returns (ok: bool)
      modifies this
      ensures ok <==> id !in old(rows)
      ensures rows == Written(old(rows), Insert(id, row))
    {
      ok := id !in rows;
      if ok {
        rows := rows[id := row];
      }
    }

    method GetProcess(sid: string, id: string, tenant: string) returns (row: Option<ProcessRow>)
      ensures row == if id in rows && rows[id].sessionId == sid && rows[id].tenant == tenant then Some(rows[id])
                     else None
    {
      row := None;
      if id in rows && rows[id].sessionId == sid && rows[id].tenant == tenant {
        row := Some(rows[id]);
      }
    }

    /** The running processes of a session, in no promised order. */
    method ListRunning(sid: string) returns (ids: seq<string>)
      ensures forall id :: id in ids <==> id in RunningIds(rows, sid)
      ensures forall i, j :: 0 <= i < j < |ids| ==> ids[i] != ids[j]
      ensures |ids| == |RunningIds(rows, sid)|
    {
      ids := [];
      var todo := rows.Keys;
      ghost var seen: set<string> := {};
      while todo != {}
        invariant todo <= rows.Keys && seen == (set id | id in RunningIds(rows, sid) && id !in todo)
        invariant |ids| == |seen| && forall id :: id in ids <==> id in seen
        invariant forall i, j :: 0 <= i < j < |ids| ==> ids[i] != ids[j]
        decreases |todo|
      {
        var id :| id in todo;
        if rows[id].sessionId == sid && rows[id].state == Running {
          assert id !in seen;
          ids := ids + [id];
          seen := seen + {id};
        }
        todo := todo - {id};
      }
      assert seen == RunningIds(rows, sid);
    }

    method CountRunning(sid: string) returns (n: nat)
      ensures n == |RunningIds(rows, sid)|
    {
      var ids := ListRunning(sid);
      n := |ids|;
    }

    method MarkProcessExited(id: string, exitCode: Option<int>, ts: int)
      modifies this
      ensures rows == Written(old(rows), MarkExited(id, exitCode, ts))
    {
      if id in rows && rows[id].state == Running {
        var row := rows[id].(state := Exited, exitCode := exitCode, exitedAt := Some(ts), lastPolledAt := Some(ts));
        rows := rows[id := row];
      }
    }

    method TouchProcessPolled(id: string, ts: int)
      modifies this
      ensures rows == Written(old(rows), TouchPolled(id, ts))
    {
      if id in rows {
        rows := rows[id := rows[id].(lastPolledAt := Some(ts))];
      }
    }

    method DeleteProcess(sid: string, id: string)
      modifies this
      ensures rows == Written(old(rows), Delete(sid, id))
    {
      if id in rows && rows[id].sessionId == sid {
        rows := rows - {id};
      }
    }
  }

  // ----- reading the exit file -----

  predicate Digit(c: char) {
    '0' <= c <= '9'
  }

  predicate AllDigits(s: string) {
    s != "" && forall i :: 0 <= i < |s| ==> Digit(s[i])
  }

  predicate Space(c: char) {
    c == ' ' || '\t' <= c <= '\r'
  }

  function Stripped(s: string): string
    decreases |s|
  {
    if s != "" && Space(s[0]) then Stripped(s[1..])
    else if s != "" && Space(s[|s| - 1]) then Stripped(s[..|s| - 1])
    else s
  }

  function DigitValue(c: char): (v: nat)
    requires Digit(c)
    ensures v < 10
  {
    c as int - '0' as int
  }

  function DecimalValue(s: string): nat
    requires forall i :: 0 <= i < |s| ==> Digit(s[i])
    decreases |s|
  {
    if s == "" then 0 else 10 * DecimalValue(s[..|s| - 1]) + DigitValue(s[|s| - 1])
  }

  /** The exit code an exit file holds, once the supervisor has written it. */
  function ParsedExit(text: string): Option<int> {
    var s := Stripped(text);
    if AllDigits(s) then Some(DecimalValue(s))
    else if s != "" && s[0] == '-' && AllDigits(s[1..]) then Some(-(DecimalValue(s[1..]) as int))
    else None
  }

  function DigitChar(d: nat): (c: char)
    requires d < 10
    ensures Digit(c) && DigitValue(c) == d
  {
    ('0' as int + d) as char
  }

  /** What `echo $?` writes. */
  function Decimal(n: nat): string {
    (if n < 10 then "" else Decimal(n / 10)) + [DigitChar(n % 10)]
  }

  lemma {:induction false} DecimalIsRead(n: nat)
    ensures AllDigits(Decimal(n)) && DecimalValue(Decimal(n)) == n
    decreases n
  {
    var front := if n < 10 then "" else Decimal(n / 10);
    assert Decimal(n) == front + [DigitChar(n % 10)];
    if n >= 10 {
      DecimalIsRead(n / 10);
    }
    assert DecimalValue("") == 0;
    assert n == 10 * (n / 10) + n % 10;
  }

  predicate Spaces(s: string) {
    forall i :: 0 <= i < |s| ==> Space(s[i])
  }

  lemma {:induction false} StripsSpaces(pre: string, s: string, post: string)
    requires Spaces(pre) && Spaces(post) && s != "" && !Space(s[0]) && !Space(s[|s| - 1])
    ensures Stripped(pre + s + post) == s
    decreases |pre| + |post|
  {
    var t := pre + s + post;
    if pre != "" {
      assert t[0] == pre[0] && t[1..] == pre[1..] + s + post;
      StripsSpaces(pre[1..], s, post);
    } else if post != "" {
      var n := |post| - 1;
      assert t[0] == s[0] && t[|t| - 1] == post[n] && t[..|t| - 1] == pre + s + post[..n];
      StripsSpaces(pre, s, post[..n]);
    } else {
      assert t == s;
    }
  }

  function Numeral(code: int): string {
    if code < 0 then "-" + Decimal(-code) else Decimal(code)
  }

  /** The code the supervisor writes is the code that is read, whatever its sign and whatever blank space surrounds
      it. */
  lemma {:induction false} ExitFileRoundTrip(code: int, pre: string, post: string)
    requires Spaces(pre) && Spaces(post)
    ensures ParsedExit(pre + Numeral(code) + post) == Some(code)
  {
    DecimalIsRead(if code < 0 then -code else code);
    var s := Numeral(code);
    hide Decimal;
    assert code < 0 ==> s[1..] == Decimal(-code) && !Digit(s[0]);
    assert !Space(s[0]) && !Space(s[|s| - 1]);
    StripsSpaces(pre, s, post);
  }

  lemma {:induction false} StrippedKeeps(s: string) returns (pre: string, post: string)
    ensures s == pre + Stripped(s) + post && Spaces(pre) && Spaces(post)
    decreases |s|
  {
    pre, post := "", "";
    if s != "" && Space(s[0]) {
      pre, post := StrippedKeeps(s[1..]);
      assert Stripped(s) == Stripped(s[1..]);
      hide Stripped;
      assert s == [s[0]] + (pre + Stripped(s) + post);
      pre := [s[0]] + pre;
    } else if s != "" && Space(s[|s| - 1]) {
      var n := |s| - 1;
      pre, post := StrippedKeeps(s[..n]);
      assert Stripped(s) == Stripped(s[..n]);
      hide Stripped;
      assert s == (pre + Stripped(s) + post) + [s[n]];
      post := post + [s[n]];
    }
  }

  /** Nothing but a numeral between blanks is taken for a code. */
  lemma {:induction false} OnlyNumeralsAreRead(text: string)
    requires ParsedExit(text).Some?
    ensures exists pre, digits, post ::
              && Spaces(pre) && AllDigits(digits) && Spaces(post)
              && (text == pre + digits + post || text == pre + ("-" + digits) + post)
  {
    var pre, post := StrippedKeeps(text);
    var s := Stripped(text);
    hide Stripped, AllDigits, Spaces;
    if !AllDigits(s) {
      assert s == "-" + s[1..];
      assert AllDigits(s[1..]) && text == pre + ("-" + s[1..]) + post;
    }
  }

  const EXIT_READ_ATTEMPTS: nat := 5

  /** The first code among what the attempts found. */
  function FirstCode(texts: seq<Option<string>>): Option<int>
    decreases |texts|
  {
    if texts == [] then None
    else if texts[0].Some? && ParsedExit(texts[0].value).Some? then ParsedExit(texts[0].value)
    else FirstCode(texts[1..])
  }

  /** It is read from the first attempt that can be read, and there is none only if none can. */
  lemma {:induction false} FirstCodeIs(texts: seq<Option<string>>)
    ensures FirstCode(texts) == None ==>
              forall i :: 0 <= i < |texts| && texts[i].Some? ==> ParsedExit(texts[i].value) == None
    ensures FirstCode(texts).Some? ==>
              exists n: nat :: n < |texts| && texts[n].Some? && ParsedExit(texts[n].value) == FirstCode(texts)
                               && forall i :: 0 <= i < n && texts[i].Some? ==> ParsedExit(texts[i].value) == None
    decreases |texts|
  {
    if texts != [] {
      FirstCodeIs(texts[1..]);
      assert forall i :: 0 < i < |texts| ==> texts[i] == texts[1..][i - 1];
      if !(texts[0].Some? && ParsedExit(texts[0].value).Some?) && FirstCode(texts).Some? {
        var n: nat :| n < |texts[1..]| && texts[1..][n].Some? && ParsedExit(texts[1..][n].value) == FirstCode(texts)
                      && forall i :: 0 <= i < n && texts[1..][i].Some? ==> ParsedExit(texts[1..][i].value) == None;
        assert texts[n + 1].Some?;
        forall i | 0 <= i < n + 1 && texts[i].Some? ensures ParsedExit(texts[i].value) == None {
          assert i > 0 ==> texts[1..][i - 1] == texts[i];
        }
      }
    }
  }

  /** `texts` is what each attempt finds; all five fit into the back-off. */
  method ReadExitCode(texts: seq<Option<string>>) returns (code: Option<int>)
    requires |texts| == 5
    ensures code == FirstCode(texts)
  {
    code := None;
    var attempt := 0;
    while attempt < EXIT_READ_ATTEMPTS
      invariant 0 <= attempt <= EXIT_READ_ATTEMPTS && code == None
      invariant FirstCode(texts) == FirstCode(texts[attempt..])
    {
      assert texts[attempt..][0] == texts[attempt] && texts[attempt..][1..] == texts[attempt + 1..];
      if texts[attempt].Some? {
        var parsed := ParsedExit(texts[attempt].value);
        if parsed.Some? {
          code := parsed;
          break;
        }
      }
      attempt := attempt + 1;
    }
  }

  const SIGTERM := 15
  const SIGKILL := 9
  const REAPED_EXIT_CODE := 137

  /** `alive` is what the polls within the grace period find: the process is killed only if it outlives them all. */
  method SigtermThenSigkill(alive: seq<bool>) returns (signals: seq<int>)
    ensures signals == if false in alive then [15] else [15, 9]
  {
    signals := [SIGTERM];
    for i := 0 to |alive|
      invariant false !in alive[..i]
    {
      if !alive[i] {
        return;
      }
    }
    signals := signals + [SIGKILL];
  }

  // ----- the service -----

  /** What the world answers while a row is refreshed; `raises` when a Docker call of the refresh does. */
  datatype Probe = Probe(hasContainer: bool, raises: bool, alive: bool, exitTexts: seq<Option<string>>, now: int)

  datatype StartResult = Started(row: ProcessRow) | BadCwd | NotRunning | CapReached | SpawnFailed | IdTaken

  datatype StopResult = NoSuchProcess | DockerRaised | Stopped(row: ProcessRow)

  /** The write a refresh makes, if any. */
  function RefreshWrite(id: string, row: ProcessRow, throttled: bool, probe: Probe): Option<Write> {
    if row.ospid.None? || throttled || !probe.hasContainer || probe.raises then None
    else if probe.alive then Some(TouchPolled(id, probe.now))
    else Some(MarkExited(id, FirstCode(probe.exitTexts), probe.now))
  }

  /** The row a refresh hands back: read again after an exit was marked, the caller's otherwise. */
  function RefreshedRow(t: Table, id: string, row: ProcessRow, sid: string, write: Option<Write>): ProcessRow {
    if write.Some? && write.value.MarkExited? && Owned(t, sid, row.tenant, id) then t[id] else row
  }

  predicate Owned(t: Table, sid: string, tenant: string, id: string) {
    id in t && t[id].sessionId == sid && t[id].tenant == tenant
  }

  function WrittenIfAny(t: Table, w: Option<Write>): Table {
    if w.Some? then Written(t, w.value) else t
  }

  /** The rows once the running processes of a session have been reaped. */
  function Reaped(t: Table, sid: string, clock: string -> int): Table {
    map id | id in t :: if id in RunningIds(t, sid) then Marked(t[id], Some(REAPED_EXIT_CODE), clock(id)) else t[id]
  }

  /** The rows `was` once exactly the processes `done` have been reaped. */
  ghost predicate MarkedAll(was: Table, rows: Table, done: seq<string>, clock: string -> int) {
    && rows.Keys == was.Keys
    && forall id :: id in was ==>
         rows[id] == if id in done then Marked(was[id], Some(REAPED_EXIT_CODE), clock(id)) else was[id]
  }

  /** Exactly the known pids of `done` have been sent the signal. */
  ghost predicate KilledAll(was: Table, killed: seq<int>, done: seq<string>) {
    forall pid :: pid in killed <==> exists id :: id in done && id in was && was[id].ospid == Some(pid)
  }

  /** A reaped process ends EXITED with the code of a killed one, at its own time; nothing else changes. */
  lemma {:induction false} ReapedRows(t: Table, sid: string, clock: string -> int, id: string)
    requires id in t
    ensures Reaped(t, sid, clock).Keys == t.Keys
    ensures Reaped(t, sid, clock)[id] ==
            if t[id].sessionId == sid && t[id].state == Running
            then t[id].(state := Exited, exitCode := Some(128 + 9), exitedAt := Some(clock(id)),
                        lastPolledAt := Some(clock(id)))
            else t[id]
  {
  }

  lemma {:induction false} MarkOneMore(was: Table, rows: Table, done: seq<string>, id: string, clock: string -> int)
    requires MarkedAll(was, rows, done, clock) && id in was && id !in done
    ensures MarkedAll(was, Written(rows, MarkExited(id, Some(REAPED_EXIT_CODE), clock(id))), done + [id], clock)
    ensures id in rows && rows[id] == was[id]
  {
  }

  lemma {:induction false} KillOneMore(was: Table, killed: seq<int>, done: seq<string>, id: string)
    requires KilledAll(was, killed, done) && id in was
    ensures KilledAll(was, if was[id].ospid.Some? then killed + [was[id].ospid.value] else killed, done + [id])
  {
    var now := if was[id].ospid.Some? then killed + [was[id].ospid.value] else killed;
    forall pid
      ensures pid in now <==> exists x :: x in done + [id] && x in was && was[x].ospid == Some(pid)
    {
      if pid in killed {
        var x :| x in done && x in was && was[x].ospid == Some(pid);
        assert x in done + [id];
      } else if was[id].ospid == Some(pid) {
        assert id in done + [id];
      }
    }
  }

  // ----- what refreshing comes to -----

  /** A refresh: the snapshot it works from, whether it is too early, and what the world answers. */
  datatype Refresh = Refresh(row: ProcessRow, throttled: bool, probe: Probe)

  /** It gets as far as asking Docker about the process, and gets an answer. */
  predicate Asks(r: Refresh) {
    r.row.ospid.Some? && !r.throttled && r.probe.hasContainer && !r.probe.raises
  }

  /** The writes of the refreshes of one process, in order. */
  function WritesOf(id: string, rs: seq<Refresh>): seq<Write>
    decreases |rs|
  {
    if rs == [] then []
    else
      var w := RefreshWrite(id, rs[0].row, rs[0].throttled, rs[0].probe);
      (if w.Some? then [w.value] else []) + WritesOf(id, rs[1..])
  }

  /** The first refresh that found the process gone. */
  function FirstGone(rs: seq<Refresh>): (n: nat)
    ensures n <= |rs|
    decreases |rs|
  {
    if rs == [] then 0 else if Asks(rs[0]) && !rs[0].probe.alive then 0 else 1 + FirstGone(rs[1..])
  }

  /** When the process was last polled while the row was running, or found alive after that. */
  function LastPoll(r: ProcessRow, rs: seq<Refresh>): Option<int>
    decreases |rs|
  {
    if rs == [] then r.lastPolledAt
    else
      var last := rs[|rs| - 1];
      if Asks(last) && (last.probe.alive || (r.state == Running && FirstGone(rs) == |rs| - 1)) then Some(last.probe.now)
      else LastPoll(r, rs[..|rs| - 1])
  }

  lemma {:induction false} WritesAppend(id: string, rs: seq<Refresh>, r: Refresh)
    ensures var w := RefreshWrite(id, r.row, r.throttled, r.probe);
            WritesOf(id, rs + [r]) == WritesOf(id, rs) + if w.Some? then [w.value] else []
    ensures FirstGone(rs + [r]) == if FirstGone(rs) < |rs| then FirstGone(rs)
                                   else if Asks(r) && !r.probe.alive then |rs| else |rs| + 1
    decreases |rs|
  {
    if rs == [] {
      assert (rs + [r])[1..] == [] && WritesOf(id, []) == [] && FirstGone([]) == 0;
      hide RefreshWrite;
    } else {
      var w0 := RefreshWrite(id, rs[0].row, rs[0].throttled, rs[0].probe);
      var first := if w0.Some? then [w0.value] else [];
      assert (rs + [r])[1..] == rs[1..] + [r] && (rs + [r])[0] == rs[0];
      assert WritesOf(id, rs + [r]) == first + WritesOf(id, rs[1..] + [r]);
      assert WritesOf(id, rs) == first + WritesOf(id, rs[1..]);
      assert FirstGone(rs + [r]) == if Asks(rs[0]) && !rs[0].probe.alive then 0 else 1 + FirstGone(rs[1..] + [r]);
      hide WritesOf, RefreshWrite, Asks;
      WritesAppend(id, rs[1..], r);
    }
  }

  lemma {:induction false} ReplayAppend(t: Table, ws: seq<Write>, w: Write)
    ensures Replay(t, ws + [w]) == Written(Replay(t, ws), w)
    decreases |ws|
  {
    if ws == [] {
      assert (ws + [w])[1..] == [];
    } else {
      assert (ws + [w])[1..] == ws[1..] + [w];
      hide Written;
      ReplayAppend(Written(t, ws[0]), ws[1..], w);
    }
  }

  /** However many refreshes there are, whatever snapshots they work from and whatever the world answers: a running
      row exits exactly when one of them has found the process gone, with the first code found by the first of them,
      and at its time; every poll that finds it alive is recorded; nothing else in the row changes, and no other
      row does. */
  lemma {:induction false} RefreshesFollowTheProcess(t: Table, id: string, rs: seq<Refresh>)
    requires id in t
    ensures var t', n := Replay(t, WritesOf(id, rs)), FirstGone(rs);
            && t'.Keys == t.Keys && (forall other :: other in t && other != id ==> t'[other] == t[other])
            && t'[id] == (if t[id].state == Running && n < |rs|
                          then t[id].(state := Exited, exitCode := FirstCode(rs[n].probe.exitTexts),
                                      exitedAt := Some(rs[n].probe.now))
                          else t[id]).(lastPolledAt := LastPoll(t[id], rs))
    decreases |rs|
  {
    if rs != [] {
      var k := |rs| - 1;
      var front, r := rs[..k], rs[k];
      assert rs == front + [r];
      WritesAppend(id, front, r);
      RefreshesFollowTheProcess(t, id, front);
      var w := RefreshWrite(id, r.row, r.throttled, r.probe);
      assert LastPoll(t[id], rs) == if Asks(r) && (r.probe.alive || (t[id].state == Running && FirstGone(rs) == k))
                                    then Some(r.probe.now) else LastPoll(t[id], front);
      if w.Some? {
        ReplayAppend(t, WritesOf(id, front), w.value);
      } else {
        assert WritesOf(id, front) + [] == WritesOf(id, front);
      }
      hide WritesOf, FirstGone, LastPoll, Replay, FirstCode;
    }
  }

  /** The caller of a refresh that finds the process gone is shown the exit; any other gets its own snapshot back. */
  lemma {:induction false} RefreshShowsExit(t: Table, id: string, sid: string, r: Refresh)
    requires Owned(t, sid, r.row.tenant, id)
    ensures var write := RefreshWrite(id, r.row, r.throttled, r.probe);
            var t' := WrittenIfAny(t, write);
            var shown := RefreshedRow(t', id, r.row, sid, write);
            if Asks(r) && !r.probe.alive then shown == t'[id] && shown.state == Exited else shown == r.row
  {
  }

  class ProcessService {
    const table: ProcessTable
    const tenantMax: int
    const watcherInterval: real

    constructor (table: ProcessTable, tenantMax: int, watcherInterval: real)
      ensures this.table == table && this.tenantMax == tenantMax && this.watcherInterval == watcherInterval
    {
      this.table, this.tenantMax, this.watcherInterval := table, tenantMax, watcherInterval;
    }

    /** `running`: whether the session is RUNNING once a stopped one has been resumed. `spawned`: whether the
        spawn went through, and then the pid, if the supervisor's pid file turned up in time. */
    method Start(sid: string, tenant: string, cwd: Option<string>, running: bool, maxProcesses: int, id: string,
                 spawned: Option<Option<int>>, ts: int)
      returns (r: StartResult)
      modifies table
      ensures var n := |RunningIds(old(table.rows), sid)|;
              && (r.Started? <==> && (cwd.Some? ==> Paths.IsSafeRelativeCwd(cwd.value)) && running && spawned.Some?
                                  && n < maxProcesses && n < tenantMax && id !in old(table.rows))
              && (r == CapReached <==> && (cwd.Some? ==> Paths.IsSafeRelativeCwd(cwd.value)) && running
                                       && (n >= maxProcesses || n >= tenantMax))
      ensures r.Started? ==> r.row == ProcessRow(sid, tenant, spawned.value, Running, None, ts, None, Some(ts))
      ensures table.rows == if r.Started? then old(table.rows)[id := r.row] else old(table.rows)
      ensures (cwd.Some? ==> Paths.IsSafeRelativeCwd(cwd.value)) && running && spawned.Some? ==>
                table.rows == Performed(old(table.rows), StartOp(id, NewProcess(sid, tenant, spawned.value, ts)),
                                        map[sid := maxProcesses], tenantMax)
    {
      if cwd.Some? && !Paths.IsSafeRelativeCwd(cwd.value) {
        return BadCwd;
      }
      if !running {
        return NotRunning;
      }
      var count := table.CountRunning(sid);
      if count >= Limit(maxProcesses, tenantMax) {
        return CapReached;
      }
      if spawned.None? {
        return SpawnFailed;
      }
      var row := NewProcess(sid, tenant, spawned.value, ts);
      var ok := table.InsertProcess(id, row);
      r := if ok then Started(row) else IdTaken;
    }

    /** Mark the row if its process is gone; `row` is the caller's snapshot, which may be out of date. `None`
        when a Docker call raised. */
    method MaybeRefresh(id: string, row: ProcessRow, sid: string, force: bool, probe: Probe, now: int)
      returns (r: Option<ProcessRow>)
      requires |probe.exitTexts| == EXIT_READ_ATTEMPTS
      modifies table
      ensures var throttled := !force && row.lastPolledAt.Some?
                               && (now - row.lastPolledAt.value) as real / 1000.0 < watcherInterval;
              var write := RefreshWrite(id, row, throttled, probe);
              && table.rows == WrittenIfAny(old(table.rows), write)
              && (r == None <==> row.ospid.Some? && !throttled && probe.hasContainer && probe.raises)
              && (r.Some? ==> r.value == RefreshedRow(table.rows, id, row, sid, write))
    {
      r := Some(row);
      if row.ospid.None? {
        return;
      }
      if !force && row.lastPolledAt.Some? {
        var elapsed := (now - row.lastPolledAt.value) as real / 1000.0;
        if elapsed < watcherInterval {
          return;
        }
      }
      if !probe.hasContainer {
        return;
      }
      if probe.raises {
        return None;
      }
      if probe.alive {
        table.TouchProcessPolled(id, probe.now);
        return;
      }
      var code := ReadExitCode(probe.exitTexts);
      table.MarkProcessExited(id, code, probe.now);
      var refreshed := table.GetProcess(sid, id, row.tenant);
      r := if refreshed.Some? then refreshed else Some(row);
    }

    /** `signalRaises`: a Docker call of the signalling raises. */
    method Stop(sid: string, tenant: string, id: string, polls: seq<bool>, signalRaises: bool, probe: Probe)
      returns (r: StopResult, signals: seq<int>)
      requires |probe.exitTexts| == EXIT_READ_ATTEMPTS
      modifies table
      ensures r == NoSuchProcess <==> !Owned(old(table.rows), sid, tenant, id)
      ensures r == NoSuchProcess ==> table.rows == old(table.rows) && signals == []
      ensures r != NoSuchProcess ==>
                var was := old(table.rows)[id];
                && (was.state == Exited || was.ospid.None? ==>
                      table.rows == old(table.rows) && r == Stopped(was) && signals == [])
                && (was.state == Running && was.ospid.Some? && signalRaises ==>
                      table.rows == old(table.rows) && r == DockerRaised)
                && (was.state == Running && was.ospid.Some? && !signalRaises ==>
                      var write := RefreshWrite(id, was, false, probe);
                      && signals == (if false in polls then [SIGTERM] else [SIGTERM, SIGKILL])
                      && table.rows == WrittenIfAny(old(table.rows), write)
                      && r == if probe.hasContainer && probe.raises then DockerRaised
                              else Stopped(RefreshedRow(table.rows, id, was, sid, write)))
    {
      signals := [];
      var row := table.GetProcess(sid, id, tenant);
      if row.None? {
        return NoSuchProcess, signals;
      }
      if row.value.state == Exited || row.value.ospid.None? {
        return Stopped(row.value), signals;
      }
      if signalRaises {
        return DockerRaised, signals;
      }
      signals := SigtermThenSigkill(polls);
      var after := MaybeRefresh(id, row.value, sid, true, probe, probe.now);
      r := if after.Some? then Stopped(after.value) else DockerRaised;
    }

    /** Stop, then drop the row, whether or not the process is gone; a stop that raises keeps it. */
    method DeleteRow(sid: string, tenant: string, id: string, polls: seq<bool>, signalRaises: bool, probe: Probe)
      returns (r: StopResult)
      requires |probe.exitTexts| == EXIT_READ_ATTEMPTS
      modifies table
      ensures r == NoSuchProcess <==> !Owned(old(table.rows), sid, tenant, id)
      ensures Owned(old(table.rows), sid, tenant, id) ==>
                var was := old(table.rows)[id];
                r == DockerRaised <==> was.state == Running && was.ospid.Some?
                                       && (signalRaises || (probe.hasContainer && probe.raises))
      ensures table.rows == if r.Stopped? then old(table.rows) - {id} else old(table.rows)
    {
      var signals;
      r, signals := Stop(sid, tenant, id, polls, signalRaises, probe);
      if r.Stopped? {
        table.DeleteProcess(sid, id);
      }
    }

    /** The hook that destroying a session runs before the container goes: every running process of the session
        is killed and marked, and no other row changes. A signal that fails is only logged. */
    method ReapSessionProcesses(sid: string, hasContainer: bool, clock: string -> int)
      returns (reaped: nat, killed: seq<int>)
      modifies table
      ensures !hasContainer ==> table.rows == old(table.rows) && reaped == 0 && killed == []
      ensures hasContainer ==> RunningIds(table.rows, sid) == {} && reaped == |RunningIds(old(table.rows), sid)|
      ensures hasContainer ==> table.rows == Reaped(old(table.rows), sid, clock)
      ensures hasContainer ==>
                forall pid :: pid in killed <==>
                              exists id :: id in RunningIds(old(table.rows), sid) &&
                                old(table.rows)[id].ospid == Some(pid)
    {
      killed := [];
      if !hasContainer {
        return 0, killed;
      }
      var ids := table.ListRunning(sid);
      ghost var was := table.rows;
      for i := 0 to |ids|
        invariant MarkedAll(was, table.rows, ids[..i], clock) && KilledAll(was, killed, ids[..i])
      {
        var id := ids[i];
        assert id in RunningIds(was, sid) && id !in ids[..i];
        assert ids[..i + 1] == ids[..i] + [id];
        MarkOneMore(was, table.rows, ids[..i], id, clock);
        KillOneMore(was, killed, ids[..i], id);
        var row := table.rows[id];
        hide MarkedAll, KilledAll, RunningIds;
        if row.ospid.Some? {
          killed := killed + [row.ospid.value];
        }
        table.MarkProcessExited(id, Some(REAPED_EXIT_CODE), clock(id));
      }
      assert ids[..|ids|] == ids;
      reaped := |ids|;
    }
  }

  /** After the hook, as long as nothing is started, the session never has a running process again. */
  lemma {:induction false} NothingRunsAfterReaping(t: Table, ws: seq<Write>, sid: string)
    requires RunningIds(t, sid) == {}
    requires forall i :: 0 <= i < |ws| ==> !(ws[i].Insert? && ws[i].row.sessionId == sid)
    ensures RunningIds(Replay(t, ws), sid) == {}
    decreases |ws|
  {
    if ws != [] {
      OnlyInsertsRun(t, ws[0], sid);
      hide RunningIds;
      NothingRunsAfterReaping(Written(t, ws[0]), ws[1..], sid);
    }
  }
}
