/** The fail-closed audit log of `api/audit.py`: a primary file, an in-memory buffer for the time the
    primary cannot be written, and a fallback file for when that time is too long. */
module Audit {
  import opened Wrappers

  datatype Line = Record(text: string) | Heartbeat(at: real)

  /** How the dump to the fallback file ended: all lines written, or an error after `persisted` of them. */
  datatype Dump = Written | Broken(persisted: nat)

  /** What one emit or tick meets: which of its writes to the primary succeed, by position; how a dump, if
      there is one, ends; and the clock when the failure is noticed and when the budget is checked. */
  datatype Weather = Weather(ok: nat -> bool, dump: Dump, failedAt: real, checkedAt: real)

  datatype Log = Log(primary: seq<Line>, fallback: seq<Line>, buffer: seq<Line>, unhealthySince: Option<real>)

  /** How many of the writes at positions `from`, `from + 1`, ... succeed before one fails, up to `n`. */
  function Succeeding(ok: nat -> bool, from: nat, n: nat): (k: nat)
    ensures k <= n
    ensures forall i :: from <= i < from + k ==> ok(i)
    ensures k < n ==> !ok(from + k)
    decreases n
  {
    if n == 0 || !ok(from) then 0 else 1 + Succeeding(ok, from + 1, n - 1)
  }

  function Min(a: nat, b: nat): nat {
    if a < b then a else b
  }

  /** Dump the buffer to the fallback file if the primary has been failing for the whole budget. */
  function MaybeDump(l: Log, w: Weather, budget: real): Log
    requires l.unhealthySince.Some?
  {
    if w.checkedAt - l.unhealthySince.value < budget || l.buffer == [] then l
    else match w.dump
      case Written => l.(fallback := l.fallback + l.buffer, buffer := [])
      case Broken(persisted) => l.(fallback := l.fallback + l.buffer[..Min(persisted, |l.buffer|)])
  }

  /** One dump: the buffer `held` at that moment; a complete dump takes it all out of the buffer, a broken one
      leaves the buffer as it was, after `persisted` of its lines have reached the file. */
  datatype Batch = Batch(held: seq<Line>, complete: bool, persisted: nat)

  /** The dump `MaybeDump` makes, if it makes one. */
  function DumpOf(l: Log, w: Weather, budget: real): seq<Batch>
    requires l.unhealthySince.Some?
  {
    if w.checkedAt - l.unhealthySince.value < budget || l.buffer == [] then []
    else [Batch(l.buffer, w.dump.Written?, if w.dump.Written? then 0 else w.dump.persisted)]
  }

  /** The log when an emit's writes have stopped after `k`, with the new line buffered. */
  function EmitFailed(l: Log, line: Line, k: nat, w: Weather): Log
    requires k <= |l.buffer|
  {
    l.(primary := l.primary + l.buffer[..k], buffer := l.buffer[k..] + [line],
       unhealthySince := if l.unhealthySince == None then Some(w.failedAt) else l.unhealthySince)
  }

  function Emitted(l: Log, line: Line, w: Weather, budget: real): Log {
    var n := |l.buffer|;
    var k := Succeeding(w.ok, 0, n + 1);
    if k == n + 1 then l.(primary := l.primary + l.buffer + [line], buffer := [], unhealthySince := None)
    else MaybeDump(EmitFailed(l, line, k, w), w, budget)
  }

  /** The log when a tick has written its heartbeat and `k` buffered lines, or nothing. */
  function TickProgress(l: Log, at: real, w: Weather): Log {
    if !w.ok(0) then l
    else
      var k := Succeeding(w.ok, 1, |l.buffer|);
      l.(primary := l.primary + [Heartbeat(at)] + l.buffer[..k], buffer := l.buffer[k..])
  }

  function Ticked(l: Log, at: real, w: Weather, budget: real): Log {
    if l.unhealthySince == None then l
    else
      var l1 := TickProgress(l, at, w);
      if w.ok(0) && l1.buffer == [] then l1.(unhealthySince := None) else MaybeDump(l1, w, budget)
  }

  class AuditEmitter {
    var primary: seq<Line>
    var fallback: seq<Line>
    var buffer: seq<Line>
    var unhealthySince: Option<real>
    const budget: real

    constructor (budget: real)
      ensures State() == Log([], [], [], None) && this.budget == budget
    {
      primary, fallback, buffer, unhealthySince := [], [], [], None;
      this.budget := budget;
    }

    function State(): Log
      reads this
    {
      Log(primary, fallback, buffer, unhealthySince)
    }

    /** Whether a mutation may proceed. */
    method Precheck() returns (passes: bool)
      ensures passes <==> State().unhealthySince == None
    {
      passes := unhealthySince == None;
    }

    /** One all-or-nothing write to the primary file. */
    method WriteLine(line: Line, ok: bool)
      modifies this`primary
      ensures primary == if ok then old(primary) + [line] else old(primary)
    {
      if ok {
        primary := primary + [line];
      }
    }

    /** Replay the buffer to the primary; what was written leaves the buffer, a failure keeps the rest. */
    method DrainBuffer(from: nat, w: Weather) returns (drained: bool)
      modifies this`primary, this`buffer
      ensures var k := Succeeding(w.ok, from, |old(buffer)|);
              && primary == old(primary) + old(buffer)[..k] && buffer == old(buffer)[k..]
              && drained == (k == |old(buffer)|)
    {
      var n := 0;
      while n < |buffer| && w.ok(from + n)
        invariant n <= |buffer| && buffer == old(buffer)
        invariant primary == old(primary) + buffer[..n]
        invariant forall i :: from <= i < from + n ==> w.ok(i)
      {
        assert buffer[..n + 1] == buffer[..n] + [buffer[n]];
        WriteLine(buffer[n], true);
        n := n + 1;
      }
      drained := n == |buffer|;
      buffer := buffer[n..];
    }

    method MaybeFlushToFallback(w: Weather)
      requires unhealthySince.Some?
      modifies this`fallback, this`buffer
      ensures State() == MaybeDump(old(State()), w, budget)
    {
      if w.checkedAt - unhealthySince.value < budget || buffer == [] {
        return;
      }
      var limit := if w.dump.Written? then |buffer| else Min(w.dump.persisted, |buffer|);
      for n := 0 to limit
        invariant buffer == old(buffer) && fallback == old(fallback) + buffer[..n]
      {
        assert buffer[..n + 1] == buffer[..n] + [buffer[n]];
        fallback := fallback + [buffer[n]];
      }
      if w.dump.Written? {
        assert buffer[..limit] == buffer;
        buffer := [];
      }
    }

    method Emit(line: Line, w: Weather)
      modifies this
      ensures State() == Emitted(old(State()), line, w, budget)
    {
      hide Succeeding, MaybeDump;
      ghost var was := State();
      var pending := |buffer|;
      ghost var k := Succeeding(w.ok, 0, pending);
      var drained := DrainBuffer(0, w);
      if drained && w.ok(pending) {
        assert was.buffer[..pending] == was.buffer && was.buffer[pending..] == [];
        WriteLine(line, true);
        unhealthySince := None;
      } else {
        if unhealthySince == None {
          unhealthySince := Some(w.failedAt);
        }
        buffer := buffer + [line];
        assert State() == EmitFailed(was, line, k, w);
        MaybeFlushToFallback(w);
      }
    }

    method MaintenanceTick(at: real, w: Weather)
      modifies this
      ensures State() == Ticked(old(State()), at, w, budget)
    {
      if unhealthySince == None {
        return;
      }
      WriteLine(Heartbeat(at), w.ok(0));
      if w.ok(0) {
        var drained := DrainBuffer(1, w);
        if drained {
          unhealthySince := None;
          return;
        }
      }
      MaybeFlushToFallback(w);
    }
  }

  // ----- runs -----

  datatype Call = Emit(text: string, weather: Weather) | Tick(at: real, weather: Weather)

  function Step(l: Log, c: Call, budget: real): Log {
    match c
    case Emit(text, w) => Emitted(l, Record(text), w, budget)
    case Tick(at, w) => Ticked(l, at, w, budget)
  }

  /** The dump a call makes, if it makes one. */
  function DumpsBy(l: Log, c: Call, budget: real): seq<Batch> {
    match c
    case Emit(text, w) =>
      var k := Succeeding(w.ok, 0, |l.buffer| + 1);
      if k == |l.buffer| + 1 then [] else DumpOf(EmitFailed(l, Record(text), k, w), w, budget)
    case Tick(at, w) =>
      if l.unhealthySince == None then []
      else
        var l1 := TickProgress(l, at, w);
        if w.ok(0) && l1.buffer == [] then [] else DumpOf(l1, w, budget)
  }

  function Run(l: Log, cs: seq<Call>, budget: real): Log
    decreases |cs|
  {
    if cs == [] then l else Run(Step(l, cs[0], budget), cs[1..], budget)
  }

  /** The dumps of a run, in order. */
  function Dumps(l: Log, cs: seq<Call>, budget: real): seq<Batch>
    decreases |cs|
  {
    if cs == [] then [] else DumpsBy(l, cs[0], budget) + Dumps(Step(l, cs[0], budget), cs[1..], budget)
  }

  /** The records handed to `emit`, in order. */
  function Emits(cs: seq<Call>): seq<Line>
    decreases |cs|
  {
    if cs == [] then []
    else (if cs[0].Emit? then [Record(cs[0].text)] else []) + Emits(cs[1..])
  }

  // ----- where every record is -----

  datatype Place = Primary | Fallback | Buffered

  /** The records of `lines` whose place is `p`, in order. */
  function At(lines: seq<Line>, places: seq<Place>, p: Place): seq<Line>
    requires |lines| == |places|
    decreases |lines|
  {
    if lines == [] then []
    else (if places[0] == p then [lines[0]] else []) + At(lines[1..], places[1..], p)
  }

  /** A file without its heartbeats. */
  function Records(lines: seq<Line>): seq<Line>
    decreases |lines|
  {
    if lines == [] then [] else (if lines[0].Record? then [lines[0]] else []) + Records(lines[1..])
  }

  /** What a dump has put into the fallback file: all it held, or a prefix of it. */
  function LinesOf(b: Batch): seq<Line> {
    if b.complete then b.held else b.held[..Min(b.persisted, |b.held|)]
  }

  function Flatten(bs: seq<Batch>): seq<Line>
    decreases |bs|
  {
    if bs == [] then [] else Flatten(bs[..|bs| - 1]) + LinesOf(bs[|bs| - 1])
  }

  function Completed(bs: seq<Batch>): seq<Line>
    decreases |bs|
  {
    if bs == [] then []
    else Completed(bs[..|bs| - 1]) + if bs[|bs| - 1].complete then bs[|bs| - 1].held else []
  }

  /** How many lines broken dumps have left in the fallback file without taking them from the buffer. */
  function Torn(bs: seq<Batch>): nat
    decreases |bs|
  {
    if bs == [] then 0
    else Torn(bs[..|bs| - 1]) + if bs[|bs| - 1].complete then 0 else |LinesOf(bs[|bs| - 1])|
  }

  function TornLines(l: Log, cs: seq<Call>, budget: real): nat {
    Torn(Dumps(l, cs, budget))
  }

  predicate SitsAt(part: seq<Line>, whole: seq<Line>, i: nat) {
    i + |part| <= |whole| && part == whole[i..i + |part|]
  }

  /** `part` is a stretch of `whole`. */
  ghost predicate Stretch(part: seq<Line>, whole: seq<Line>) {
    exists i :: SitsAt(part, whole, i)
  }

  /** `places` says where each emitted record is, and `dumps` what the fallback file is made of: the records
      in the primary file, those in complete dumps and the buffer partition the emitted ones, each in emit
      order; the buffer is the tail of what was emitted, and so was the buffer that each dump held. */
  ghost predicate Accounted(l: Log, emitted: seq<Line>, places: seq<Place>, dumps: seq<Batch>) {
    && |places| == |emitted| && |l.buffer| <= |emitted|
    && l.buffer == emitted[|emitted| - |l.buffer|..]
    && (forall i :: 0 <= i < |emitted| ==> (places[i] == Buffered <==> i >= |emitted| - |l.buffer|))
    && Records(l.primary) == At(emitted, places, Primary)
    && Completed(dumps) == At(emitted, places, Fallback)
    && l.fallback == Flatten(dumps)
    && (forall b :: b in dumps ==> Stretch(b.held, emitted))
    && (forall i :: 0 <= i < |emitted| ==> emitted[i].Record?)
  }

  function All(n: nat, p: Place): seq<Place> {
    seq(n, _ => p)
  }

  lemma {:induction false} AtConcat(a: seq<Line>, b: seq<Line>, pa: seq<Place>, pb: seq<Place>, p: Place)
    requires |a| == |pa| && |b| == |pb|
    ensures At(a + b, pa + pb, p) == At(a, pa, p) + At(b, pb, p)
    decreases |a|
  {
    if a == [] {
      assert a + b == b && pa + pb == pb && At(a, pa, p) == [];
      hide At;
      assert [] + At(b, pb, p) == At(b, pb, p);
    } else {
      var first := if pa[0] == p then [a[0]] else [];
      assert (a + b)[1..] == a[1..] + b && (pa + pb)[1..] == pa[1..] + pb;
      assert At(a + b, pa + pb, p) == first + At(a[1..] + b, pa[1..] + pb, p);
      assert At(a, pa, p) == first + At(a[1..], pa[1..], p);
      hide At;
      AtConcat(a[1..], b, pa[1..], pb, p);
      var more, rest := At(a[1..], pa[1..], p), At(b, pb, p);
      assert first + (more + rest) == first + more + rest;
    }
  }

  lemma {:induction false} AtThree(a: seq<Line>, b: seq<Line>, c: seq<Line>,
                                   pa: seq<Place>, pb: seq<Place>, pc: seq<Place>, p: Place)
    requires |a| == |pa| && |b| == |pb| && |c| == |pc|
    ensures At(a + b + c, pa + pb + pc, p) == At(a, pa, p) + At(b, pb, p) + At(c, pc, p)
  {
    AtConcat(a + b, c, pa + pb, pc, p);
    AtConcat(a, b, pa, pb, p);
  }

  lemma {:induction false} AtAll(a: seq<Line>, places: seq<Place>, q: Place, p: Place)
    requires |places| == |a| && forall i :: 0 <= i < |a| ==> places[i] == q
    ensures At(a, places, p) == if p == q then a else []
    decreases |a|
  {
    if a != [] {
      AtAll(a[1..], places[1..], q, p);
    }
  }

  lemma {:induction false} RecordsConcat(a: seq<Line>, b: seq<Line>)
    ensures Records(a + b) == Records(a) + Records(b)
    decreases |a|
  {
    if a == [] {
      assert a + b == b && Records(a) == [];
      hide Records;
      assert [] + Records(b) == Records(b);
    } else {
      var first := if a[0].Record? then [a[0]] else [];
      assert (a + b)[1..] == a[1..] + b;
      assert Records(a + b) == first + Records(a[1..] + b) && Records(a) == first + Records(a[1..]);
      hide Records;
      RecordsConcat(a[1..], b);
      assert first + (Records(a[1..]) + Records(b)) == first + Records(a[1..]) + Records(b);
    }
  }

  lemma {:induction false} RecordsOnly(a: seq<Line>)
    requires forall i :: 0 <= i < |a| ==> a[i].Record?
    ensures Records(a) == a
    decreases |a|
  {
    if a != [] {
      RecordsOnly(a[1..]);
    }
  }

  /** Move the first `k` buffered records to place `p`: they were `emitted[base..base + k]`. */
  function Relocated(places: seq<Place>, base: nat, k: nat, p: Place): seq<Place>
    requires base + k <= |places|
  {
    places[..base] + All(k, p) + places[base + k..]
  }

  lemma {:induction false} RelocatedAt(emitted: seq<Line>, places: seq<Place>, base: nat, k: nat, p: Place, q: Place)
    requires |places| == |emitted| && base + k <= |places| && p != Buffered && q != Buffered
    requires forall i :: 0 <= i < |places| ==> (places[i] == Buffered <==> i >= base)
    ensures At(emitted, Relocated(places, base, k, p), q)
         == At(emitted, places, q) + if p == q then emitted[base..base + k] else []
  {
    hide At;
    var a, b, c := emitted[..base], emitted[base..base + k], emitted[base + k..];
    assert emitted == a + b + c && places == places[..base] + places[base..base + k] + places[base + k..];
    AtThree(a, b, c, places[..base], places[base..base + k], places[base + k..], q);
    AtThree(a, b, c, places[..base], All(k, p), places[base + k..], q);
    AtAll(b, places[base..base + k], Buffered, q);
    AtAll(b, All(k, p), p, q);
    AtAll(c, places[base + k..], Buffered, q);
  }

  // ----- the moves that keep the account -----

  lemma {:induction false} DrainKeeps(l: Log, emitted: seq<Line>, places: seq<Place>, dumps: seq<Batch>, k: nat)
      returns (places1: seq<Place>)
    requires Accounted(l, emitted, places, dumps) && k <= |l.buffer|
    ensures Accounted(l.(primary := l.primary + l.buffer[..k], buffer := l.buffer[k..]), emitted, places1, dumps)
  {
    hide At, Records, Flatten, Completed, Stretch;
    var base := |emitted| - |l.buffer|;
    places1 := Relocated(places, base, k, Primary);
    RelocatedAt(emitted, places, base, k, Primary, Primary);
    RelocatedAt(emitted, places, base, k, Primary, Fallback);
    RecordsConcat(l.primary, l.buffer[..k]);
    RecordsOnly(l.buffer[..k]);
    assert emitted[base..base + k] == l.buffer[..k];
    assert l.buffer[k..] == emitted[base + k..];
  }

  lemma {:induction false} StretchKept(part: seq<Line>, whole: seq<Line>, line: Line)
    requires Stretch(part, whole)
    ensures Stretch(part, whole + [line])
  {
    var i: nat :| SitsAt(part, whole, i);
    assert whole[i..i + |part|] == (whole + [line])[i..i + |part|];
    assert SitsAt(part, whole + [line], i);
  }

  lemma {:induction false} BufferIsStretch(l: Log, emitted: seq<Line>, places: seq<Place>, dumps: seq<Batch>)
    requires Accounted(l, emitted, places, dumps)
    ensures Stretch(l.buffer, emitted)
  {
    var base := |emitted| - |l.buffer|;
    assert emitted[base..] == emitted[base..base + |l.buffer|];
    assert SitsAt(l.buffer, emitted, base);
  }

  lemma {:induction false} AppendKeeps(l: Log, emitted: seq<Line>, places: seq<Place>, dumps: seq<Batch>, line: Line)
    requires Accounted(l, emitted, places, dumps) && line.Record?
    ensures Accounted(l.(buffer := l.buffer + [line]), emitted + [line], places + [Buffered], dumps)
  {
    AtConcat(emitted, [line], places, [Buffered], Primary);
    AtConcat(emitted, [line], places, [Buffered], Fallback);
    AtAll([line], [Buffered], Buffered, Primary);
    AtAll([line], [Buffered], Buffered, Fallback);
    hide At, Records, Flatten, Completed, Stretch;
    assert (emitted + [line])[|emitted| - |l.buffer|..] == l.buffer + [line];
    assert At(emitted, places, Primary) + [] == At(emitted, places, Primary);
    assert At(emitted, places, Fallback) + [] == At(emitted, places, Fallback);
    forall b | b in dumps ensures Stretch(b.held, emitted + [line]) {
      StretchKept(b.held, emitted, line);
    }
  }

  lemma {:induction false} HeartbeatKeeps(l: Log, emitted: seq<Line>, places: seq<Place>, dumps: seq<Batch>, at: real)
    requires Accounted(l, emitted, places, dumps)
    ensures Accounted(l.(primary := l.primary + [Heartbeat(at)]), emitted, places, dumps)
  {
    RecordsConcat(l.primary, [Heartbeat(at)]);
  }

  lemma {:induction false} FlattenAppend(bs: seq<Batch>, b: Batch)
    ensures Flatten(bs + [b]) == Flatten(bs) + LinesOf(b)
    ensures Completed(bs + [b]) == Completed(bs) + if b.complete then b.held else []
    ensures Torn(bs + [b]) == Torn(bs) + if b.complete then 0 else |LinesOf(b)|
  {
    assert (bs + [b])[..|bs|] == bs;
  }

  /** Where the records are once the whole buffer has gone to the fallback file. */
  lemma {:induction false} DumpedPlaces(l: Log, emitted: seq<Line>, places: seq<Place>, dumps: seq<Batch>)
      returns (places1: seq<Place>)
    requires Accounted(l, emitted, places, dumps)
    ensures |places1| == |emitted| && forall i :: 0 <= i < |emitted| ==> places1[i] != Buffered
    ensures At(emitted, places1, Primary) == At(emitted, places, Primary)
    ensures At(emitted, places1, Fallback) == At(emitted, places, Fallback) + l.buffer
  {
    hide At, Records, Flatten, Completed, Stretch;
    var n := |l.buffer|;
    var base := |emitted| - n;
    places1 := Relocated(places, base, n, Fallback);
    RelocatedAt(emitted, places, base, n, Fallback, Primary);
    RelocatedAt(emitted, places, base, n, Fallback, Fallback);
    assert emitted[base..base + n] == emitted[base..] == l.buffer;
    assert At(emitted, places, Primary) + [] == At(emitted, places, Primary);
  }

  /** A dump of the whole buffer, */
  lemma {:induction false} CompleteDumpKeeps(l: Log, emitted: seq<Line>, places: seq<Place>, dumps: seq<Batch>,
                                             b: Batch)
      returns (places1: seq<Place>)
    requires Accounted(l, emitted, places, dumps) && b.complete && b.held == l.buffer
    ensures Accounted(l.(fallback := l.fallback + l.buffer, buffer := []), emitted, places1, dumps + [b])
  {
    hide At, Records, Flatten, Completed, Stretch;
    BufferIsStretch(l, emitted, places, dumps);
    FlattenAppend(dumps, b);
    places1 := DumpedPlaces(l, emitted, places, dumps);
    assert emitted[|emitted|..] == [];
  }

  /** and one that breaks. */
  lemma {:induction false} BrokenDumpKeeps(l: Log, emitted: seq<Line>, places: seq<Place>, dumps: seq<Batch>, b: Batch)
    requires Accounted(l, emitted, places, dumps) && !b.complete && b.held == l.buffer
    ensures Accounted(l.(fallback := l.fallback + LinesOf(b)), emitted, places, dumps + [b])
  {
    BufferIsStretch(l, emitted, places, dumps);
    FlattenAppend(dumps, b);
    hide At, Records, Flatten, Completed, Stretch;
    assert Completed(dumps) + [] == Completed(dumps);
  }

  lemma {:induction false} DumpKeeps(l: Log, emitted: seq<Line>, places: seq<Place>, dumps: seq<Batch>, w: Weather,
                                     budget: real)
      returns (places1: seq<Place>)
    requires Accounted(l, emitted, places, dumps) && l.unhealthySince.Some?
    ensures Accounted(MaybeDump(l, w, budget), emitted, places1, dumps + DumpOf(l, w, budget))
  {
    hide Accounted;
    places1 := places;
    if w.checkedAt - l.unhealthySince.value < budget || l.buffer == [] {
      assert dumps + [] == dumps;
    } else {
      var b := DumpOf(l, w, budget)[0];
      if w.dump.Written? {
        places1 := CompleteDumpKeeps(l, emitted, places, dumps, b);
      } else {
        BrokenDumpKeeps(l, emitted, places, dumps, b);
      }
    }
  }

  lemma {:induction false} EmitKeeps(l: Log, emitted: seq<Line>, places: seq<Place>, dumps: seq<Batch>,
                                     text: string, w: Weather, budget: real)
      returns (places1: seq<Place>)
    requires Accounted(l, emitted, places, dumps)
    ensures var c := Call.Emit(text, w);
            Accounted(Step(l, c, budget), emitted + [Record(text)], places1, dumps + DumpsBy(l, c, budget))
  {
    hide Accounted;
    var line := Record(text);
    var n := |l.buffer|;
    var k := Succeeding(w.ok, 0, n + 1);
    AppendKeeps(l, emitted, places, dumps, line);
    var l1 := l.(buffer := l.buffer + [line]);
    places1 := DrainKeeps(l1, emitted + [line], places + [Buffered], dumps, k);
    var l2 := l1.(primary := l1.primary + l1.buffer[..k], buffer := l1.buffer[k..]);
    if k == n + 1 {
      assert l1.buffer[..k] == l.buffer + [line] && l1.buffer[k..] == [];
      assert l2.primary == l.primary + l.buffer + [line];
      SinceIsFree(l2, emitted + [line], places1, dumps, None);
      assert dumps + [] == dumps;
    } else {
      assert l1.buffer[..k] == l.buffer[..k] && l1.buffer[k..] == l.buffer[k..] + [line];
      var l3 := EmitFailed(l, line, k, w);
      SinceIsFree(l2, emitted + [line], places1, dumps, l3.unhealthySince);
      assert l3 == l2.(unhealthySince := l3.unhealthySince);
      places1 := DumpKeeps(l3, emitted + [line], places1, dumps, w, budget);
    }
  }

  lemma {:induction false} SinceIsFree(l: Log, emitted: seq<Line>, places: seq<Place>, dumps: seq<Batch>,
                                       since: Option<real>)
    requires Accounted(l, emitted, places, dumps)
    ensures Accounted(l.(unhealthySince := since), emitted, places, dumps)
  {
  }

  lemma {:induction false} TickKeeps(l: Log, emitted: seq<Line>, places: seq<Place>, dumps: seq<Batch>,
                                     at: real, w: Weather, budget: real)
      returns (places1: seq<Place>)
    requires Accounted(l, emitted, places, dumps)
    ensures var c := Call.Tick(at, w);
            Accounted(Step(l, c, budget), emitted, places1, dumps + DumpsBy(l, c, budget))
  {
    hide Accounted;
    places1 := places;
    assert dumps + [] == dumps;
    if l.unhealthySince.Some? {
      var l1 := TickProgress(l, at, w);
      if w.ok(0) {
        var k := Succeeding(w.ok, 1, |l.buffer|);
        HeartbeatKeeps(l, emitted, places, dumps, at);
        places1 := DrainKeeps(l.(primary := l.primary + [Heartbeat(at)]), emitted, places, dumps, k);
      }
      if w.ok(0) && l1.buffer == [] {
        SinceIsFree(l1, emitted, places1, dumps, None);
      } else {
        places1 := DumpKeeps(l1, emitted, places1, dumps, w, budget);
      }
    }
  }

  lemma {:induction false} RunKeeps(l: Log, emitted: seq<Line>, places: seq<Place>, dumps: seq<Batch>,
                                    cs: seq<Call>, budget: real)
      returns (places1: seq<Place>)
    requires Accounted(l, emitted, places, dumps)
    ensures Accounted(Run(l, cs, budget), emitted + Emits(cs), places1, dumps + Dumps(l, cs, budget))
    decreases |cs|
  {
    hide Accounted;
    places1 := places;
    if cs == [] {
      assert emitted + Emits(cs) == emitted && dumps + Dumps(l, cs, budget) == dumps;
    } else {
      var c := cs[0];
      var now := if c.Emit? then emitted + [Record(c.text)] else emitted;
      var l1, dumps1 := Step(l, c, budget), dumps + DumpsBy(l, c, budget);
      if c.Emit? {
        places1 := EmitKeeps(l, emitted, places, dumps, c.text, c.weather, budget);
      } else {
        places1 := TickKeeps(l, emitted, places, dumps, c.at, c.weather, budget);
      }
      assert now + Emits(cs[1..]) == emitted + Emits(cs);
      assert dumps1 + Dumps(l1, cs[1..], budget) == dumps + Dumps(l, cs, budget);
      hide Step, DumpsBy;
      places1 := RunKeeps(l1, now, places1, dumps1, cs[1..], budget);
    }
  }

  const EMPTY_LOG := Log([], [], [], None)

  lemma {:induction false} EmptyIsAccounted()
    ensures Accounted(EMPTY_LOG, [], [], [])
  {
  }

  lemma {:induction false} RunFromEmpty(cs: seq<Call>, budget: real) returns (places: seq<Place>)
    ensures Accounted(Run(EMPTY_LOG, cs, budget), Emits(cs), places, Dumps(EMPTY_LOG, cs, budget))
  {
    EmptyIsAccounted();
    hide Accounted, Run, Emits, Dumps;
    places := RunKeeps(EMPTY_LOG, [], [], [], cs, budget);
    assert [] + Emits(cs) == Emits(cs) && [] + Dumps(EMPTY_LOG, cs, budget) == Dumps(EMPTY_LOG, cs, budget);
  }

  /** Delivery, over every sequence of emits, ticks and write failures: no record is ever lost, each is in
      exactly one of the primary file, a completed dump and the buffer, each of those in emit order, and the
      buffer is the tail of what was emitted. The fallback file is what the run's dumps have put there, one after
      the other: the whole buffer each held, or a prefix of it for a dump that broke part-way. */
  lemma {:induction false} EveryRecordIsAccountedFor(cs: seq<Call>, budget: real)
    ensures exists places :: Accounted(Run(EMPTY_LOG, cs, budget), Emits(cs), places, Dumps(EMPTY_LOG, cs, budget))
  {
    hide Accounted, Run, Emits, Dumps;
    var places := RunFromEmpty(cs, budget);
  }

  lemma {:induction false} PlacesPartition(emitted: seq<Line>, places: seq<Place>)
    requires |places| == |emitted|
    ensures |emitted| ==
            |At(emitted, places, Primary)| + |At(emitted, places, Fallback)| + |At(emitted, places, Buffered)|
    decreases |emitted|
  {
    if emitted != [] {
      PlacesPartition(emitted[1..], places[1..]);
    }
  }

  lemma {:induction false} BufferIsItsPlace(l: Log, emitted: seq<Line>, places: seq<Place>, dumps: seq<Batch>)
    requires Accounted(l, emitted, places, dumps)
    ensures At(emitted, places, Buffered) == l.buffer
  {
    var base := |emitted| - |l.buffer|;
    assert emitted == emitted[..base] + emitted[base..] && places == places[..base] + places[base..];
    AtConcat(emitted[..base], emitted[base..], places[..base], places[base..], Buffered);
    NoneAt(emitted[..base], places[..base], Buffered);
    AtAll(emitted[base..], places[base..], Buffered, Buffered);
  }

  lemma {:induction false} NoneAt(lines: seq<Line>, places: seq<Place>, p: Place)
    requires |places| == |lines| && forall i :: 0 <= i < |places| ==> places[i] != p
    ensures At(lines, places, p) == []
    decreases |lines|
  {
    if lines != [] {
      NoneAt(lines[1..], places[1..], p);
    }
  }

  /** Conservation: over any run the three places hold as many lines as were emitted, plus the ones broken
      dumps wrote. */
  lemma {:induction false} LinesAreConserved(cs: seq<Call>, budget: real)
    ensures var l := Run(EMPTY_LOG, cs, budget);
            |Records(l.primary)| + |l.fallback| + |l.buffer| == |Emits(cs)| + TornLines(EMPTY_LOG, cs, budget)
  {
    hide Run, Emits, Dumps, At, Records, Completed, Flatten, Torn;
    var places := RunFromEmpty(cs, budget);
    var l := Run(EMPTY_LOG, cs, budget);
    BufferIsItsPlace(l, Emits(cs), places, Dumps(EMPTY_LOG, cs, budget));
    FlattenSplits(Dumps(EMPTY_LOG, cs, budget));
    PlacesPartition(Emits(cs), places);
  }

  /** The three places hold exactly the emitted records, each once and in emit order. */
  ghost predicate ExactlyOnce(l: Log, emitted: seq<Line>) {
    exists places :: |places| == |emitted| && Holds(l, emitted, places)
  }

  ghost predicate Holds(l: Log, emitted: seq<Line>, places: seq<Place>)
    requires |places| == |emitted|
  {
    && Records(l.primary) == At(emitted, places, Primary)
    && l.fallback == At(emitted, places, Fallback)
    && l.buffer == At(emitted, places, Buffered)
    && (forall i, j :: 0 <= i < j < |places| && places[i] == Buffered ==> places[j] == Buffered)
  }

  /** The fallback file holds the complete dumps and the torn lines, and no others. */
  lemma {:induction false} FlattenSplits(dumps: seq<Batch>)
    ensures |Flatten(dumps)| == |Completed(dumps)| + Torn(dumps)
    decreases |dumps|
  {
    if dumps != [] {
      FlattenSplits(dumps[..|dumps| - 1]);
    }
  }

  lemma {:induction false} NothingTorn(dumps: seq<Batch>)
    requires Torn(dumps) == 0
    ensures Flatten(dumps) == Completed(dumps)
    decreases |dumps|
  {
    if dumps != [] {
      NothingTorn(dumps[..|dumps| - 1]);
    }
  }

  /** Delivery is exactly once if and only if no dump that broke had already written a line. */
  lemma {:induction false} ExactlyOnceIffNothingTorn(cs: seq<Call>, budget: real)
    ensures ExactlyOnce(Run(EMPTY_LOG, cs, budget), Emits(cs)) <==> TornLines(EMPTY_LOG, cs, budget) == 0
  {
    hide Run, Emits, Dumps, At, Records, Completed, Flatten, Torn;
    var l := Run(EMPTY_LOG, cs, budget);
    var dumps := Dumps(EMPTY_LOG, cs, budget);
    if Torn(dumps) == 0 {
      var places := RunFromEmpty(cs, budget);
      BufferIsItsPlace(l, Emits(cs), places, dumps);
      NothingTorn(dumps);
      assert Holds(l, Emits(cs), places);
    }
    if ExactlyOnce(l, Emits(cs)) {
      var places :| |places| == |Emits(cs)| && Holds(l, Emits(cs), places);
      PlacesPartition(Emits(cs), places);
      LinesAreConserved(cs, budget);
    }
  }

  /** Every broken dump of the run writes nothing. */
  ghost predicate AtomicDumps(cs: seq<Call>) {
    forall c :: c in cs ==> c.weather.dump.Written? || c.weather.dump.persisted == 0
  }

  lemma {:induction false} AtomicDumpsTearNothing(l: Log, cs: seq<Call>, budget: real)
    requires AtomicDumps(cs)
    ensures TornLines(l, cs, budget) == 0
  {
    DumpsAreAtomic(l, cs, budget);
    AtomicTearNothing(Dumps(l, cs, budget));
  }

  lemma {:induction false} DumpsAreAtomic(l: Log, cs: seq<Call>, budget: real)
    requires AtomicDumps(cs)
    ensures forall b :: b in Dumps(l, cs, budget) ==> b.persisted == 0
    decreases |cs|
  {
    if cs != [] {
      assert cs[0] in cs;
      assert AtomicDumps(cs[1..]);
      DumpsAreAtomic(Step(l, cs[0], budget), cs[1..], budget);
    }
  }

  lemma {:induction false} AtomicTearNothing(dumps: seq<Batch>)
    requires forall b :: b in dumps ==> b.persisted == 0
    ensures Torn(dumps) == 0
    decreases |dumps|
  {
    if dumps != [] {
      assert dumps[|dumps| - 1] in dumps;
      AtomicTearNothing(dumps[..|dumps| - 1]);
    }
  }

  lemma {:induction false} HealthyBufferEmpty(l: Log, cs: seq<Call>, budget: real)
    requires l.unhealthySince == None ==> l.buffer == []
    ensures var l' := Run(l, cs, budget); l'.unhealthySince == None ==> l'.buffer == []
    decreases |cs|
  {
    if cs != [] {
      HealthyBufferEmpty(Step(l, cs[0], budget), cs[1..], budget);
    }
  }

  lemma {:induction false} FoundInFile(lines: seq<Line>, places: seq<Place>, i: nat)
    requires |lines| == |places| && i < |lines|
    ensures lines[i] in At(lines, places, places[i])
    decreases |lines|
  {
    if i > 0 {
      FoundInFile(lines[1..], places[1..], i - 1);
    }
  }

  lemma {:induction false} RecordsAreIn(lines: seq<Line>)
    ensures forall x :: x in Records(lines) ==> x in lines
    decreases |lines|
  {
    if lines != [] {
      RecordsAreIn(lines[1..]);
    }
  }

  lemma {:induction false} CompletedAreIn(dumps: seq<Batch>)
    ensures forall x :: x in Completed(dumps) ==> x in Flatten(dumps)
    decreases |dumps|
  {
    if dumps != [] {
      CompletedAreIn(dumps[..|dumps| - 1]);
    }
  }

  /** Fail-closed: whenever `precheck` lets a mutation through, every record emitted so far is on disk: each has
      its own place in the primary file or in a completed dump, and none is left in the buffer. */
  lemma {:induction false} PrecheckPassesOnlyWhenAllIsOnDisk(cs: seq<Call>, budget: real)
    ensures var l := Run(EMPTY_LOG, cs, budget);
            l.unhealthySince == None ==>
              && l.buffer == []
              && (exists places :: Accounted(l, Emits(cs), places, Dumps(EMPTY_LOG, cs, budget)) && Buffered !in places)
              && (forall i :: 0 <= i < |Emits(cs)| ==> Emits(cs)[i] in l.primary || Emits(cs)[i] in l.fallback)
              && |Records(l.primary)| + |l.fallback| == |Emits(cs)| + TornLines(EMPTY_LOG, cs, budget)
  {
    HealthyBufferEmpty(EMPTY_LOG, cs, budget);
    LinesAreConserved(cs, budget);
    var l, dumps := Run(EMPTY_LOG, cs, budget), Dumps(EMPTY_LOG, cs, budget);
    var places := RunFromEmpty(cs, budget);
    hide Run, Emits, Dumps, At, Records, Completed, Flatten, Torn, TornLines;
    if l.unhealthySince == None {
      assert Buffered !in places;
      RecordsAreIn(l.primary);
      CompletedAreIn(dumps);
      forall i | 0 <= i < |Emits(cs)| ensures Emits(cs)[i] in l.primary || Emits(cs)[i] in l.fallback {
        FoundInFile(Emits(cs), places, i);
        assert places[i] == Primary || places[i] == Fallback;
      }
    }
  }

  // ----- what the outage clock says -----

  /** The call writes to the primary: an emit always, a tick only while an outage is recorded. */
  predicate Attempts(l: Log, c: Call) {
    c.Emit? || l.unhealthySince.Some?
  }

  /** The backlog and one more line, the new record or the heartbeat, can all be written. */
  ghost predicate AllWritten(l: Log, c: Call) {
    forall i :: 0 <= i <= |l.buffer| ==> c.weather.ok(i)
  }

  /** The run's `i`-th call attempted its writes, and one of them failed; */
  ghost predicate FailsAt(cs: seq<Call>, i: nat, budget: real) {
    i < |cs| && var l := Run(EMPTY_LOG, cs[..i], budget); Attempts(l, cs[i]) && !AllWritten(l, cs[i])
  }

  /** or none of them did. */
  ghost predicate SucceedsAt(cs: seq<Call>, i: nat, budget: real) {
    i < |cs| && var l := Run(EMPTY_LOG, cs[..i], budget); Attempts(l, cs[i]) && AllWritten(l, cs[i])
  }

  /** The `i`-th call failed and none after it has succeeded. */
  ghost predicate StillFailing(cs: seq<Call>, i: nat, budget: real) {
    FailsAt(cs, i, budget) && forall j :: i < j < |cs| ==> !SucceedsAt(cs, j, budget)
  }

  /** The first such call. */
  ghost predicate BeginsOutage(cs: seq<Call>, i: nat, budget: real) {
    StillFailing(cs, i, budget) && forall j :: 0 <= j < i ==> !StillFailing(cs, j, budget)
  }

  lemma {:induction false} RunAppend(l: Log, cs: seq<Call>, c: Call, budget: real)
    ensures Run(l, cs + [c], budget) == Step(Run(l, cs, budget), c, budget)
    decreases |cs|
  {
    if cs == [] {
      assert (cs + [c])[1..] == [];
    } else {
      assert (cs + [c])[1..] == cs[1..] + [c];
      hide Step;
      RunAppend(Step(l, cs[0], budget), cs[1..], c, budget);
    }
  }

  lemma {:induction false} StepOutage(l: Log, c: Call, budget: real)
    ensures Step(l, c, budget).unhealthySince ==
            if !Attempts(l, c) then l.unhealthySince
            else if AllWritten(l, c) then None
            else if l.unhealthySince.Some? then l.unhealthySince
            else Some(c.weather.failedAt)
  {
    var n := |l.buffer|;
    if c.Emit? {
      var k := Succeeding(c.weather.ok, 0, n + 1);
      assert AllWritten(l, c) <==> k == n + 1;
    } else {
      var k := Succeeding(c.weather.ok, 1, n);
      assert AllWritten(l, c) <==> c.weather.ok(0) && k == n;
    }
    hide Succeeding;
  }

  /** What the last call of a run adds: itself, and an end to earlier failures if it succeeds. */
  lemma {:induction false} LastCallDecides(cs: seq<Call>, c: Call, budget: real)
    ensures forall i :: 0 <= i < |cs| ==> (StillFailing(cs + [c], i, budget) <==>
                                           StillFailing(cs, i, budget) && !SucceedsAt(cs + [c], |cs|, budget))
    ensures StillFailing(cs + [c], |cs|, budget) <==> FailsAt(cs + [c], |cs|, budget)
  {
    var all := cs + [c];
    forall i | 0 <= i < |cs|
      ensures FailsAt(all, i, budget) <==> FailsAt(cs, i, budget)
      ensures SucceedsAt(all, i, budget) <==> SucceedsAt(cs, i, budget)
    {
      assert all[..i] == cs[..i] && all[i] == cs[i];
    }
    hide FailsAt, SucceedsAt;
  }

  /** Over every run: precheck passes if and only if every call whose writes failed was followed by one whose writes
      all succeeded; and an outage is recorded with the time of its first failure since the last such call. */
  lemma {:induction false} OutageIsExact(cs: seq<Call>, budget: real)
    ensures var since := Run(EMPTY_LOG, cs, budget).unhealthySince;
            && (since == None <==> forall i :: 0 <= i < |cs| ==> !StillFailing(cs, i, budget))
            && (since.Some? ==>
                  exists i: nat :: BeginsOutage(cs, i, budget) && since == Some(cs[i].weather.failedAt))
    decreases |cs|
  {
    if cs != [] {
      var n := |cs| - 1;
      var front, c := cs[..n], cs[n];
      assert cs == front + [c] && cs[..n] == front;
      OutageIsExact(front, budget);
      RunAppend(EMPTY_LOG, front, c, budget);
      var l := Run(EMPTY_LOG, front, budget);
      StepOutage(l, c, budget);
      LastCallDecides(front, c, budget);
      assert FailsAt(cs, n, budget) <==> Attempts(l, c) && !AllWritten(l, c);
      assert SucceedsAt(cs, n, budget) <==> Attempts(l, c) && AllWritten(l, c);
      hide Run, Step, FailsAt, SucceedsAt, StillFailing, AllWritten;
      if !SucceedsAt(cs, n, budget) {
        OutageKept(front, c, budget);
      }
      if l.unhealthySince == None && FailsAt(cs, n, budget) {
        assert BeginsOutage(cs, n, budget);
      }
    }
  }

  lemma {:induction false} OutageKept(cs: seq<Call>, c: Call, budget: real)
    requires !SucceedsAt(cs + [c], |cs|, budget)
    ensures forall i: nat :: BeginsOutage(cs, i, budget) ==>
                               BeginsOutage(cs + [c], i, budget) && (cs + [c])[i] == cs[i]
  {
    LastCallDecides(cs, c, budget);
    forall i: nat | BeginsOutage(cs, i, budget)
      ensures BeginsOutage(cs + [c], i, budget) && (cs + [c])[i] == cs[i]
    {
      assert FailsAt(cs, i, budget);
    }
  }

  /** A call dumps the buffer exactly when its writes failed, the outage has lasted the whole budget, and a record is
      left unwritten. */
  lemma {:induction false} DumpsIffOverdue(l: Log, c: Call, budget: real)
    ensures DumpsBy(l, c, budget) != [] <==>
            && Attempts(l, c) && !AllWritten(l, c) && (c.Emit? || l.buffer != [])
            && c.weather.checkedAt - Step(l, c, budget).unhealthySince.value >= budget
  {
    StepOutage(l, c, budget);
    var n := |l.buffer|;
    if c.Emit? {
      var k := Succeeding(c.weather.ok, 0, n + 1);
      assert AllWritten(l, c) <==> k == n + 1;
    } else {
      var k := Succeeding(c.weather.ok, 1, n);
      assert AllWritten(l, c) <==> c.weather.ok(0) && k == n;
    }
    hide Succeeding, Step, AllWritten;
  }

  /** A torn dump really duplicates: one record, one dump that breaks after writing it, one recovery. */
  lemma {:induction false} TornDumpDuplicates(text: string, budget: real) returns (cs: seq<Call>)
    ensures var l := Run(EMPTY_LOG, cs, budget);
            Emits(cs) == [Record(text)] && Records(l.primary) == [Record(text)] && l.fallback == [Record(text)]
  {
    var bad := Weather(_ => false, Broken(1), 0.0, budget);
    var good := Weather(_ => true, Written, 0.0, budget);
    cs := [Call.Emit(text, bad), Tick(0.0, good)];
    var l1 := Step(EMPTY_LOG, cs[0], budget);
    assert l1 == Log([], [Record(text)], [Record(text)], Some(0.0));
    assert cs[1..] == [cs[1]] && cs[1..][1..] == [];
    assert Emits(cs[1..]) == Emits(cs[1..][1..]) == [];
    var l2 := Step(l1, cs[1], budget);
    assert Run(EMPTY_LOG, cs, budget) == Run(l1, cs[1..], budget) == Run(l2, [], budget);
    assert l2.primary == [Heartbeat(0.0)] + [Record(text)];
    assert Records(l2.primary) == Records([Record(text)]) by {
      assert l2.primary[1..] == [Record(text)];
    }
    RecordsOnly([Record(text)]);
  }
}
