/** The admission pattern of `create` (`api/sessions.py`) and process `start` (`api/processes.py`): count the rows
    that hold a place, refuse at the limit, and insert a row some awaits later, while other tasks do the same and
    other writes change or delete rows. */
module Admission {
  import opened Wrappers

  /** What a row means to the limit: it belongs to someone else, it has had a place, or it holds one. */
  datatype Place = Elsewhere | Vacated | Held

  /** A task that has been admitted and is not done: it may have inserted its row. */
  datatype Claim<R> = Claim(id: string, row: R, inserted: bool)

  datatype State<R> = State(table: map<string, R>, pending: map<nat, Claim<R>>)

  /** A refused request leaves nothing behind, so it is no event. `Writes` is a task's write to the row it has
      inserted, `last` when it returns with it. */
  datatype Event<R> =
    | Counts(task: nat, id: string, row: R)
    | Inserts(task: nat)
    | Writes(task: nat, row: R, last: bool)
    | Finishes(task: nat)
    | Rewrites(id: string, row: R)
    | Deletes(id: string)

  /** The rows that hold a place. */
  function Holders<R>(table: map<string, R>, place: R -> Place): set<string> {
    set id | id in table && place(table[id]) == Held
  }

  /** The tasks between their count and their end, of those that compete for these places. */
  function InFlight<R>(s: State<R>, place: R -> Place): set<nat> {
    set t | t in s.pending && place(s.pending[t].row) != Elsewhere
  }

  /** Rows do not change owner. A task does as it likes with its own row; a rewrite by anyone else gives a row a
      place it did not hold only if `revives`. */
  predicate Enabled<R>(s: State<R>, e: Event<R>, place: R -> Place, limit: nat, revives: bool) {
    match e
    case Counts(t, _, row) => t !in s.pending && (place(row) != Elsewhere ==> |Holders(s.table, place)| < limit)
    case Inserts(t) => t in s.pending && !s.pending[t].inserted
    case Writes(t, row, _) =>
      && t in s.pending && s.pending[t].inserted && s.pending[t].id in s.table
      && (place(row) == Elsewhere <==> place(s.pending[t].row) == Elsewhere)
    case Finishes(t) => t in s.pending
    case Rewrites(id, row) =>
      && id in s.table
      && (place(row) == Elsewhere <==> place(s.table[id]) == Elsewhere)
      && (place(row) == Held && place(s.table[id]) != Held ==> revives)
    case Deletes(id) => id in s.table
  }

  /** The primary key refuses a second row with the same id, and the task is over. */
  function Insert<R>(s: State<R>, t: nat): State<R>
    requires t in s.pending
  {
    var c := s.pending[t];
    if c.id in s.table then s.(pending := s.pending - {t})
    else State(s.table[c.id := c.row], s.pending[t := c.(inserted := true)])
  }

  predicate Alive<R>(s: State<R>, e: Event<R>) {
    e.Inserts? || e.Writes? || e.Finishes? ==> e.task in s.pending
  }

  function Next<R>(s: State<R>, e: Event<R>): State<R>
    requires Alive(s, e)
  {
    match e
    case Counts(t, id, row) => s.(pending := s.pending[t := Claim(id, row, false)])
    case Inserts(t) => Insert(s, t)
    case Writes(t, row, last) =>
      State(s.table[s.pending[t].id := row], if last then s.pending - {t} else s.pending)
    case Finishes(t) => s.(pending := s.pending - {t})
    case Rewrites(id, row) => s.(table := s.table[id := row])
    case Deletes(id) => s.(table := s.table - {id})
  }

  /** A run in which never more than `n` competing tasks are in flight. */
  predicate Possible<R>(s: State<R>, es: seq<Event<R>>, place: R -> Place, limit: nat, n: nat, revives: bool)
    decreases |es|
  {
    es == [] || (Enabled(s, es[0], place, limit, revives) && |InFlight(Next(s, es[0]), place)| <= n
                 && Possible(Next(s, es[0]), es[1..], place, limit, n, revives))
  }

  function Exec<R>(s: State<R>, es: seq<Event<R>>, place: R -> Place, limit: nat, n: nat, revives: bool): State<R>
    requires Possible(s, es, place, limit, n, revives)
    decreases |es|
  {
    if es == [] then s else Exec(Next(s, es[0]), es[1..], place, limit, n, revives)
  }

  function Idle<R>(table: map<string, R>): State<R> {
    State(table, map[])
  }

  // ----- the bound -----

  /** The most rows that can come to hold a place. */
  function Peak(limit: nat, n: nat): nat {
    if limit == 0 || n == 0 then limit else limit + n - 1
  }

  function IdsOf<R>(s: State<R>, tasks: set<nat>): set<string>
    requires tasks <= s.pending.Keys
  {
    set t | t in tasks :: s.pending[t].id
  }

  lemma {:induction false} IdsOfSize<R>(s: State<R>, tasks: set<nat>)
    requires tasks <= s.pending.Keys
    ensures |IdsOf(s, tasks)| <= |tasks|
    decreases |tasks|
  {
    if tasks != {} {
      var t :| t in tasks;
      IdsOfSize(s, tasks - {t});
      assert IdsOf(s, tasks) == IdsOf(s, tasks - {t}) + {s.pending[t].id};
    }
  }

  /** The ids that hold a place, or for which a task in flight has been admitted. */
  function Reserved<R>(s: State<R>, place: R -> Place): set<string> {
    Holders(s.table, place) + IdsOf(s, InFlight(s, place))
  }

  ghost predicate WithinPeak<R>(s: State<R>, place: R -> Place, limit: nat, n: nat) {
    |InFlight(s, place)| <= n && |Reserved(s, place)| <= Peak(limit, n)
  }

  /** Only a count reserves anything new: an insert takes the place its own task reserved. */
  lemma {:induction false} ReservedAfter<R>(s: State<R>, e: Event<R>, place: R -> Place, limit: nat)
    requires Enabled(s, e, place, limit, false) && !e.Counts?
    ensures Reserved(Next(s, e), place) <= Reserved(s, place)
  {
    var s1 := Next(s, e);
    forall id | id in Reserved(s1, place) ensures id in Reserved(s, place) {
      if id in Holders(s1.table, place) && id !in Holders(s.table, place) {
        assert (e.Inserts? || e.Writes?) && id == s.pending[e.task].id && e.task in InFlight(s, place);
      } else if id !in Holders(s1.table, place) {
        var t :| t in InFlight(s1, place) && s1.pending[t].id == id;
        assert t in InFlight(s, place) && s.pending[t].id == id;
      }
    }
  }

  lemma {:induction false} CountKeepsPeak<R>(s: State<R>, e: Event<R>, place: R -> Place, limit: nat, n: nat)
    requires e.Counts? && Enabled(s, e, place, limit, false) && place(e.row) != Elsewhere
    requires |InFlight(Next(s, e), place)| <= n
    ensures |Reserved(Next(s, e), place)| <= Peak(limit, n)
  {
    var s1 := Next(s, e);
    var flight := InFlight(s1, place);
    assert e.task in flight;
    assert |Holders(s1.table, place)| < limit;
    hide Next, Holders, InFlight, Enabled;
    assert n > 0 by {
      SubsetSize({e.task}, flight);
    }
    assert flight <= s1.pending.Keys by {
      InFlightIsPending(s1, place);
    }
    IdsOfSize(s1, flight);
  }

  lemma {:induction false} InFlightIsPending<R>(s: State<R>, place: R -> Place)
    ensures InFlight(s, place) <= s.pending.Keys
  {
  }

  /** The count of a row that belongs to someone else. */
  lemma {:induction false} OtherCountReserves<R>(s: State<R>, e: Event<R>, place: R -> Place)
    requires e.Counts? && e.task !in s.pending && place(e.row) == Elsewhere
    ensures Reserved(Next(s, e), place) == Reserved(s, place)
  {
    var s1 := Next(s, e);
    assert InFlight(s1, place) == InFlight(s, place);
    assert IdsOf(s1, InFlight(s1, place)) == IdsOf(s, InFlight(s, place));
  }

  lemma {:induction false} StepKeepsPeak<R>(s: State<R>, e: Event<R>, place: R -> Place, limit: nat, n: nat)
    requires WithinPeak(s, place, limit, n) && Enabled(s, e, place, limit, false) && |InFlight(Next(s, e), place)| <= n
    ensures WithinPeak(Next(s, e), place, limit, n)
  {
    assert e.Counts? ==> e.task !in s.pending;
    hide Next, Reserved, InFlight, Enabled;
    if !e.Counts? {
      ReservedAfter(s, e, place, limit);
      SubsetSize(Reserved(Next(s, e), place), Reserved(s, place));
    } else if place(e.row) == Elsewhere {
      OtherCountReserves(s, e, place);
    } else {
      CountKeepsPeak(s, e, place, limit, n);
    }
  }

  lemma {:induction false} ExecKeepsPeak<R>(s: State<R>, es: seq<Event<R>>, place: R -> Place, limit: nat, n: nat)
    requires WithinPeak(s, place, limit, n) && Possible(s, es, place, limit, n, false)
    ensures WithinPeak(Exec(s, es, place, limit, n, false), place, limit, n)
    decreases |es|
  {
    if es != [] {
      hide WithinPeak, Next, Enabled;
      assert Alive(s, es[0]);
      StepKeepsPeak(s, es[0], place, limit, n);
      ExecKeepsPeak(Next(s, es[0]), es[1..], place, limit, n);
    }
  }

  /** With at most `n` requests in flight, the limit is exceeded by at most `n - 1`. */
  lemma {:induction false} NeverAbovePeak<R>(table: map<string, R>, es: seq<Event<R>>, place: R -> Place,
                                             limit: nat, n: nat)
    requires |Holders(table, place)| <= limit && Possible(Idle(table), es, place, limit, n, false)
    ensures |Holders(Exec(Idle(table), es, place, limit, n, false).table, place)| <= Peak(limit, n)
  {
    assert InFlight(Idle(table), place) == {};
    assert Reserved(Idle(table), place) == Holders(table, place);
    ExecKeepsPeak(Idle(table), es, place, limit, n);
    var s := Exec(Idle(table), es, place, limit, n, false);
    SubsetSize(Holders(s.table, place), Reserved(s, place));
  }

  // ----- the bound is reached -----

  ghost predicate Reaches<R>(es: seq<Event<R>>, s: State<R>, place: R -> Place, limit: nat, n: nat, revives: bool) {
    Possible(Idle(map[]), es, place, limit, n, revives) && Exec(Idle(map[]), es, place, limit, n, revives) == s
  }

  lemma {:induction false} ExecAppend<R>(s: State<R>, es: seq<Event<R>>, e: Event<R>, place: R -> Place,
                                         limit: nat, n: nat, revives: bool)
    requires Possible(s, es, place, limit, n, revives)
    requires var s1 := Exec(s, es, place, limit, n, revives);
             Enabled(s1, e, place, limit, revives) && |InFlight(Next(s1, e), place)| <= n
    ensures Possible(s, es + [e], place, limit, n, revives)
    ensures Exec(s, es + [e], place, limit, n, revives) == Next(Exec(s, es, place, limit, n, revives), e)
    decreases |es|
  {
    if es == [] {
      assert (es + [e])[0] == e && (es + [e])[1..] == [];
    } else {
      assert (es + [e])[0] == es[0] && (es + [e])[1..] == es[1..] + [e];
      assert Alive(s, es[0]);
      hide Next, InFlight;
      ExecAppend(Next(s, es[0]), es[1..], e, place, limit, n, revives);
    }
  }

  lemma {:induction false} Continue<R>(es: seq<Event<R>>, s: State<R>, e: Event<R>, place: R -> Place,
                                       limit: nat, n: nat, revives: bool)
      returns (es1: seq<Event<R>>)
    requires Reaches(es, s, place, limit, n, revives)
    requires Enabled(s, e, place, limit, revives) && |InFlight(Next(s, e), place)| <= n
    ensures es1 == es + [e] && Reaches(es1, Next(s, e), place, limit, n, revives)
  {
    es1 := es + [e];
    ExecAppend(Idle(map[]), es, e, place, limit, n, revives);
  }

  lemma {:induction false} LongerThanAll(names: set<string>) returns (n: nat)
    ensures forall x :: x in names ==> |x| < n
    decreases |names|
  {
    n := 0;
    if names != {} {
      var x :| x in names;
      n := LongerThanAll(names - {x});
      if n <= |x| {
        n := |x| + 1;
      }
    }
  }

  lemma {:induction false} AboveAll(tasks: set<nat>) returns (n: nat)
    ensures forall x :: x in tasks ==> x < n
    decreases |tasks|
  {
    n := 0;
    if tasks != {} {
      var x :| x in tasks;
      n := AboveAll(tasks - {x});
      assert forall y :: y in tasks ==> y == x || y in tasks - {x};
      if n <= x {
        n := x + 1;
      }
    }
  }

  /** Every claim is for `row`, not inserted yet, and no two for the same or a taken id. */
  ghost predicate Distinct<R>(s: State<R>, row: R) {
    && (forall t :: t in s.pending ==>
          s.pending[t].row == row && !s.pending[t].inserted && s.pending[t].id !in s.table)
    && (forall t, u :: t in s.pending && u in s.pending && t != u ==> s.pending[t].id != s.pending[u].id)
  }

  /** The events of requests for `row` that do nothing after their insert. */
  predicate Requests<R(==)>(es: seq<Event<R>>, row: R) {
    forall e :: e in es ==> (e.Counts? && e.row == row) || e.Inserts? || e.Finishes?
  }

  /** One request more is admitted. */
  lemma {:induction false} CountOne<R>(es: seq<Event<R>>, s: State<R>, row: R, place: R -> Place,
                                       limit: nat, n: nat, revives: bool)
      returns (es1: seq<Event<R>>, s1: State<R>)
    requires Reaches(es, s, place, limit, n, revives) && Distinct(s, row) && place(row) == Held
    requires |Holders(s.table, place)| < limit && |InFlight(s, place)| < n
    ensures Reaches(es1, s1, place, limit, n, revives) && Distinct(s1, row)
    ensures s1.table == s.table && |InFlight(s1, place)| == |InFlight(s, place)| + 1
    ensures Requests(es, row) ==> Requests(es1, row)
  {
    var t := AboveAll(s.pending.Keys);
    assert t !in s.pending;
    var id := UnclaimedId(s);
    var e := Counts(t, id, row);
    s1 := Next(s, e);
    CountKeepsDistinct(s, t, id, row);
    CountedFlight(s, t, id, row, place);
    hide Holders, InFlight, Distinct, Reaches;
    es1 := Continue(es, s, e, place, limit, n, revives);
  }

  lemma {:induction false} CountedFlight<R>(s: State<R>, t: nat, id: string, row: R, place: R -> Place)
    requires t !in s.pending && place(row) != Elsewhere
    ensures |InFlight(Next(s, Counts(t, id, row)), place)| == |InFlight(s, place)| + 1
  {
    var f := InFlight(s, place);
    assert t !in f;
    assert InFlight(Next(s, Counts(t, id, row)), place) == f + {t};
    hide InFlight, Next;
  }

  lemma {:induction false} UnclaimedId<R>(s: State<R>) returns (id: string)
    ensures id !in s.table && forall u :: u in s.pending ==> s.pending[u].id != id
  {
    var ids := set u | u in s.pending :: s.pending[u].id;
    var length := LongerThanAll(s.table.Keys + ids);
    id := seq(length, _ => ' ');
    assert forall u :: u in s.pending ==> s.pending[u].id in ids;
  }

  lemma {:induction false} CountKeepsDistinct<R>(s: State<R>, t: nat, id: string, row: R)
    requires Distinct(s, row) && t !in s.pending
    requires id !in s.table && forall u :: u in s.pending ==> s.pending[u].id != id
    ensures Distinct(Next(s, Counts(t, id, row)), row)
  {
  }

  /** What is left when a claim has been inserted and its task is over. */
  function Entered<R>(s: State<R>, t: nat): State<R>
    requires t in s.pending
  {
    State(s.table[s.pending[t].id := s.pending[t].row], s.pending - {t})
  }

  lemma {:induction false} EnteredIsDistinct<R>(s: State<R>, t: nat, row: R)
    requires Distinct(s, row) && t in s.pending
    ensures Distinct(Entered(s, t), row)
  {
    var s1 := Entered(s, t);
    assert forall u :: u in s1.pending ==> u in s.pending && u != t && s1.pending[u] == s.pending[u];
  }

  lemma {:induction false} EnteredFlight<R>(s: State<R>, t: nat, place: R -> Place)
    requires t in s.pending && place(s.pending[t].row) == Held
    ensures |InFlight(Entered(s, t), place)| == |InFlight(s, place)| - 1
  {
    var f := InFlight(s, place);
    assert t in f;
    assert InFlight(Entered(s, t), place) == f - {t};
    hide InFlight, Entered;
  }

  lemma {:induction false} EnteredHolders<R>(s: State<R>, t: nat, place: R -> Place)
    requires t in s.pending && place(s.pending[t].row) == Held && s.pending[t].id !in s.table
    ensures |Holders(Entered(s, t).table, place)| == |Holders(s.table, place)| + 1
  {
    var h, id := Holders(s.table, place), s.pending[t].id;
    assert id !in h;
    assert Holders(Entered(s, t).table, place) == h + {id};
    hide Holders, Entered;
  }

  /** One admitted request inserts its row, and is over. */
  lemma {:induction false} EnterOne<R>(es: seq<Event<R>>, s: State<R>, row: R, place: R -> Place,
                                       limit: nat, n: nat, revives: bool)
      returns (es1: seq<Event<R>>, s1: State<R>)
    requires Reaches(es, s, place, limit, n, revives) && Distinct(s, row) && place(row) == Held
    requires InFlight(s, place) != {} && |InFlight(s, place)| <= n
    ensures Reaches(es1, s1, place, limit, n, revives) && Distinct(s1, row)
    ensures |InFlight(s1, place)| == |InFlight(s, place)| - 1
    ensures |Holders(s1.table, place)| == |Holders(s.table, place)| + 1
    ensures s.table.Keys <= s1.table.Keys && forall id :: id in s.table ==> s1.table[id] == s.table[id]
    ensures Requests(es, row) ==> Requests(es1, row)
  {
    var t :| t in InFlight(s, place);
    var inserted := Next(s, Inserts(t));
    assert InFlight(inserted, place) == InFlight(s, place);
    EnteredIsDistinct(s, t, row);
    EnteredFlight(s, t, place);
    EnteredHolders(s, t, place);
    s1 := Next(inserted, Finishes(t));
    assert s1 == Entered(s, t) by {
      assert s.pending[t := s.pending[t].(inserted := true)] - {t} == s.pending - {t};
    }
    hide Holders, InFlight, Distinct, Reaches;
    es1 := Continue(es, s, Inserts(t), place, limit, n, revives);
    es1 := Continue(es1, inserted, Finishes(t), place, limit, n, revives);
  }

  /** One request at a time fills the table up to the limit. */
  lemma {:induction false} Fill<R>(k: nat, row: R, place: R -> Place, limit: nat, n: nat, revives: bool)
      returns (es: seq<Event<R>>, s: State<R>)
    requires k <= limit && n >= 1 && place(row) == Held
    ensures Reaches(es, s, place, limit, n, revives) && Distinct(s, row) && Requests(es, row)
    ensures |Holders(s.table, place)| == k && InFlight(s, place) == {}
  {
    if k == 0 {
      es, s := [], Idle(map[]);
    } else {
      es, s := Fill(k - 1, row, place, limit, n, revives);
      hide Reaches, Distinct, Holders, InFlight;
      es, s := CountOne(es, s, row, place, limit, n, revives);
      es, s := EnterOne(es, s, row, place, limit, n, revives);
    }
  }

  lemma {:induction false} CountMany<R>(k: nat, row: R, place: R -> Place, limit: nat, n: nat)
      returns (es: seq<Event<R>>, s: State<R>)
    requires 1 <= limit && k <= n && n >= 1 && place(row) == Held
    ensures Reaches(es, s, place, limit, n, false) && Distinct(s, row) && Requests(es, row)
    ensures |Holders(s.table, place)| == limit - 1 && |InFlight(s, place)| == k
  {
    if k == 0 {
      es, s := Fill(limit - 1, row, place, limit, n, false);
    } else {
      es, s := CountMany(k - 1, row, place, limit, n);
      hide Reaches, Distinct, Holders, InFlight;
      es, s := CountOne(es, s, row, place, limit, n, false);
    }
  }

  lemma {:induction false} EnterMany<R>(es: seq<Event<R>>, s: State<R>, row: R, place: R -> Place, limit: nat, n: nat)
      returns (es1: seq<Event<R>>, s1: State<R>)
    requires Reaches(es, s, place, limit, n, false) && Distinct(s, row) && place(row) == Held
    requires |InFlight(s, place)| <= n
    ensures Reaches(es1, s1, place, limit, n, false)
    ensures |Holders(s1.table, place)| == |Holders(s.table, place)| + |InFlight(s, place)|
    ensures Requests(es, row) ==> Requests(es1, row)
    decreases |InFlight(s, place)|
  {
    es1, s1 := es, s;
    if InFlight(s, place) != {} {
      hide Reaches, Distinct, Holders, InFlight;
      es1, s1 := EnterOne(es, s, row, place, limit, n, false);
      es1, s1 := EnterMany(es1, s1, row, place, limit, n);
    }
  }

  /** `n` requests that all count before any of them inserts reach the bound. */
  lemma {:induction false} PeakIsReached<R>(row: R, place: R -> Place, limit: nat, n: nat) returns (es: seq<Event<R>>)
    requires limit >= 1 && n >= 1 && place(row) == Held
    ensures Possible(Idle(map[]), es, place, limit, n, false) && Requests(es, row)
    ensures |Holders(Exec(Idle(map[]), es, place, limit, n, false).table, place)| == Peak(limit, n) == limit + n - 1
  {
    hide Distinct, Holders, InFlight, Possible, Exec;
    var s;
    es, s := CountMany(n, row, place, limit, n);
    es, s := EnterMany(es, s, row, place, limit, n);
  }

  /** A row gives its place up, and the next request takes it. */
  lemma {:induction false} PlaceTaken<R>(row: R, gone: R, place: R -> Place, limit: nat, n: nat)
      returns (es: seq<Event<R>>, s: State<R>, id: string)
    requires limit >= 1 && n >= 1 && place(row) == Held && place(gone) == Vacated
    ensures Reaches(es, s, place, limit, n, true) && id in s.table && s.table[id] == gone
    ensures |Holders(s.table, place)| == limit && |InFlight(s, place)| <= n
  {
    es, s := Fill(limit, row, place, limit, n, true);
    id :| id in Holders(s.table, place);
    var s1 := Next(s, Rewrites(id, gone));
    assert Holders(s1.table, place) == Holders(s.table, place) - {id} && InFlight(s1, place) == {};
    assert Distinct(s1, row);
    hide Reaches, Distinct, Holders, InFlight;
    es := Continue(es, s, Rewrites(id, gone), place, limit, n, true);
    es, s := CountOne(es, s1, row, place, limit, n, true);
    es, s := EnterOne(es, s, row, place, limit, n, true);
  }

  /** One request at a time is not enough if a row can be given its place back: another may have taken it. */
  lemma {:induction false} RevivalExceeds<R>(row: R, gone: R, place: R -> Place, limit: nat, n: nat)
      returns (es: seq<Event<R>>)
    requires limit >= 1 && n >= 1 && place(row) == Held && place(gone) == Vacated
    ensures Possible(Idle(map[]), es, place, limit, n, true)
    ensures |Holders(Exec(Idle(map[]), es, place, limit, n, true).table, place)| == limit + 1
  {
    hide Reaches, Possible, Exec;
    var s, id;
    es, s, id := PlaceTaken(row, gone, place, limit, n);
    var s1 := Next(s, Rewrites(id, row));
    var h := Holders(s.table, place);
    assert id !in h && Holders(s1.table, place) == h + {id};
    assert InFlight(s1, place) == InFlight(s, place);
    es := Continue(es, s, Rewrites(id, row), place, limit, n, true);
    hide Holders, InFlight;
    ReachedState(es, s1, place, limit, n, true);
  }

  lemma {:induction false} ReachedState<R>(es: seq<Event<R>>, s: State<R>, place: R -> Place,
                                           limit: nat, n: nat, revives: bool)
    requires Reaches(es, s, place, limit, n, revives)
    ensures Possible(Idle(map[]), es, place, limit, n, revives) && Exec(Idle(map[]), es, place, limit, n, revives) == s
  {
  }

  // ----- when the limit holds -----

  /** In every run from an empty table with at most `n` requests in flight. */
  ghost predicate AlwaysWithin<R(!new)>(place: R -> Place, limit: nat, n: nat, revives: bool) {
    forall es: seq<Event<R>> ::
      Possible(Idle(map[]), es, place, limit, n, revives) ==>
        |Holders(Exec(Idle(map[]), es, place, limit, n, revives).table, place)| <= limit
  }

  /** Nobody has been admitted. */
  ghost predicate Nobody<R>(s: State<R>, place: R -> Place) {
    && InFlight(s, place) == {}
    && forall id :: id in s.table ==> place(s.table[id]) == Elsewhere
  }

  lemma {:induction false} StepKeepsNobody<R>(s: State<R>, e: Event<R>, place: R -> Place, limit: nat, n: nat,
                                              revives: bool)
    requires Nobody(s, place) && Enabled(s, e, place, limit, revives) && |InFlight(Next(s, e), place)| <= n
    requires limit == 0 || n == 0
    ensures Nobody(Next(s, e), place)
  {
    var s1 := Next(s, e);
    if n > 0 {
      assert InFlight(s1, place) <= InFlight(s, place);
    }
    assert InFlight(s1, place) == {};
    if e.Inserts? || e.Writes? {
      assert e.task !in InFlight(s, place);
    }
  }

  lemma {:induction false} ExecKeepsNobody<R>(s: State<R>, es: seq<Event<R>>, place: R -> Place,
                                              limit: nat, n: nat, revives: bool)
    requires Nobody(s, place) && Possible(s, es, place, limit, n, revives) && (limit == 0 || n == 0)
    ensures Nobody(Exec(s, es, place, limit, n, revives), place)
    decreases |es|
  {
    if es != [] {
      assert Alive(s, es[0]);
      hide Nobody, Next, Enabled;
      StepKeepsNobody(s, es[0], place, limit, n, revives);
      ExecKeepsNobody(Next(s, es[0]), es[1..], place, limit, n, revives);
    }
  }

  /** The exact condition: nobody is ever admitted, or requests come one at a time and no row is given a place
      back. */
  lemma {:induction false} WithinIffSerial<R(!new)>(row: R, gone: R, place: R -> Place, limit: nat, n: nat,
                                             revives: bool)
    requires place(row) == Held && place(gone) == Vacated
    ensures AlwaysWithin(place, limit, n, revives) <==> limit == 0 || n == 0 || (n == 1 && !revives)
  {
    hide Possible, Exec;
    if limit == 0 || n == 0 {
      forall es: seq<Event<R>> | Possible(Idle(map[]), es, place, limit, n, revives)
        ensures |Holders(Exec(Idle(map[]), es, place, limit, n, revives).table, place)| <= limit
      {
        ExecKeepsNobody(Idle(map[]), es, place, limit, n, revives);
        assert Holders(Exec(Idle(map[]), es, place, limit, n, revives).table, place) == {};
      }
    } else if revives {
      var es := RevivalExceeds(row, gone, place, limit, n);
    } else if n == 1 {
      forall es: seq<Event<R>> | Possible(Idle(map[]), es, place, limit, n, revives)
        ensures |Holders(Exec(Idle(map[]), es, place, limit, n, revives).table, place)| <= limit
      {
        assert Holders(map[], place) == {};
        NeverAbovePeak(map[], es, place, limit, n);
      }
    } else {
      var es := PeakIsReached(row, place, limit, n);
    }
  }
}
