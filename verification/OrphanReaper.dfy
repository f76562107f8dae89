/** One tick of the orphan sweeper (`api/orphan_reaper.py`): containers first, then volumes, out of one
    budget of removals. */
module OrphanReaper {

  /** A labelled Docker resource as listed: a missing label value is empty, an unknown creation time 0. */
  datatype Item = Item(name: string, sessionId: string, createdAt: real)

  datatype Kind = ContainerKind | VolumeKind

  datatype Removal = Removal(kind: Kind, name: string)

  /** The registry's ids, the clock and grace window, and whether removing the i-th item listed succeeds. */
  datatype Sweep = Sweep(known: set<string>, now: real, grace: real)

  predicate OldEnough(item: Item, sw: Sweep) {
    !(item.createdAt > 0.0) || !(sw.now - item.createdAt < sw.grace)
  }

  /** Labelled, unknown to the registry and past the grace window: the sweeper tries to remove it. */
  predicate Orphan(item: Item, sw: Sweep) {
    item.sessionId != "" && item.sessionId !in sw.known && OldEnough(item, sw)
  }

  // ----- the specification: one greedy pass over one list -----

  datatype Listed = Listed(kind: Kind, item: Item, removable: bool)

  predicate Reapable(l: Listed, sw: Sweep) {
    Orphan(l.item, sw) && l.removable
  }

  /** All that one unlimited pass would remove. */
  function AllReaped(ls: seq<Listed>, sw: Sweep): (r: seq<Removal>)
    ensures |r| <= |ls|
    decreases |ls|
  {
    if ls == [] then []
    else AllReaped(ls[..|ls| - 1], sw)
         + if Reapable(ls[|ls| - 1], sw) then [Removal(ls[|ls| - 1].kind, ls[|ls| - 1].item.name)] else []
  }

  function Take<T>(s: seq<T>, n: int): seq<T> {
    if n <= 0 then [] else if n < |s| then s[..n] else s
  }

  function Tag(kind: Kind, items: seq<Item>, ok: nat -> bool): (ls: seq<Listed>)
    ensures |ls| == |items|
  {
    seq(|items|, i requires 0 <= i < |items| => Listed(kind, items[i], ok(i)))
  }

  lemma {:induction false} AllReapedConcat(a: seq<Listed>, b: seq<Listed>, sw: Sweep)
    ensures AllReaped(a + b, sw) == AllReaped(a, sw) + AllReaped(b, sw)
    decreases |b|
  {
    if b == [] {
      assert a + b == a;
    } else {
      assert (a + b)[..|a + b| - 1] == a + b[..|b| - 1];
      AllReapedConcat(a, b[..|b| - 1], sw);
    }
  }

  /** The promise, on a listing: at most the cap is removed; only listed items that carry a session's label, whose
      session the registry does not know, that are of unknown age or have outlived the grace window, and whose removal
      succeeded; and below the cap all of them. */
  ghost predicate TakesExactly(ls: seq<Listed>, sw: Sweep, cap: int, removed: seq<Removal>) {
    && |removed| <= (if cap < 0 then 0 else cap)
    && (forall r :: r in removed ==>
          exists i :: 0 <= i < |ls| && r == Removal(ls[i].kind, ls[i].item.name) && ls[i].removable
                      && ls[i].item.sessionId != "" && ls[i].item.sessionId !in sw.known
                      && (ls[i].item.createdAt <= 0.0 || ls[i].item.createdAt + sw.grace <= sw.now))
    && (|removed| < cap ==>
          forall i :: 0 <= i < |ls| && ls[i].removable
                      && ls[i].item.sessionId != "" && ls[i].item.sessionId !in sw.known
                      && (ls[i].item.createdAt <= 0.0 || ls[i].item.createdAt + sw.grace <= sw.now) ==>
                        Removal(ls[i].kind, ls[i].item.name) in removed)
  }

  // ----- the sweeper -----

  /** One pass: how much of the budget is left, and what was removed, in order. */
  method SweepPass(kind: Kind, items: seq<Item>, sw: Sweep, budget: int, ok: nat -> bool)
      returns (left: int, removed: seq<Removal>)
    ensures removed == Take(AllReaped(Tag(kind, items, ok), sw), budget)
    ensures left == budget - |removed|
  {
    left, removed := budget, [];
    ghost var ls := Tag(kind, items, ok);
    for i := 0 to |items|
      invariant removed == Take(AllReaped(ls[..i], sw), budget)
      invariant left == budget - |removed|
    {
      ghost var before := AllReaped(ls[..i], sw);
      assert ls[..i + 1][..i] == ls[..i] && ls[..i + 1][i] == ls[i];
      assert AllReaped(ls[..i + 1], sw) == before + if Reapable(ls[i], sw) then [Removal(kind, items[i].name)] else [];
      if left <= 0 {
        continue;
      }
      if items[i].sessionId == "" {
        continue;
      }
      if items[i].sessionId in sw.known {
        continue;
      }
      if items[i].createdAt > 0.0 && sw.now - items[i].createdAt < sw.grace {
        continue;
      }
      if ok(i) {
        removed := removed + [Removal(kind, items[i].name)];
        left := left - 1;
      }
    }
    assert ls[..|items|] == ls;
  }

  /** A whole tick. `containersOk` and `volumesOk` say which removals succeed, by position in each listing;
      a listing that failed is empty. */
  method Tick(containers: seq<Item>, volumes: seq<Item>, sw: Sweep, maxPerTick: int,
              containersOk: nat -> bool, volumesOk: nat -> bool)
      returns (removed: seq<Removal>)
    ensures var listed := Tag(ContainerKind, containers, containersOk) + Tag(VolumeKind, volumes, volumesOk);
            removed == Take(AllReaped(listed, sw), maxPerTick) && TakesExactly(listed, sw, maxPerTick, removed)
  {
    ReapedExactly(Tag(ContainerKind, containers, containersOk) + Tag(VolumeKind, volumes, volumesOk), sw, maxPerTick);
    hide TakesExactly;
    AllReapedConcat(Tag(ContainerKind, containers, containersOk), Tag(VolumeKind, volumes, volumesOk), sw);
    var left, first := SweepPass(ContainerKind, containers, sw, maxPerTick, containersOk);
    if left <= 0 {
      return first;
    }
    var rest, second := SweepPass(VolumeKind, volumes, sw, left, volumesOk);
    removed := first + second;
  }

  // ----- what that means -----

  /** One greedy pass within the cap keeps the promise. */
  lemma {:induction false} ReapedExactly(ls: seq<Listed>, sw: Sweep, cap: int)
    ensures TakesExactly(ls, sw, cap, Take(AllReaped(ls, sw), cap))
  {
    AllReapedElements(ls, sw);
    var all := AllReaped(ls, sw);
    hide AllReaped;
    forall r | r in Take(all, cap)
      ensures exists i :: 0 <= i < |ls| && r == Removal(ls[i].kind, ls[i].item.name) && ls[i].removable
                          && ls[i].item.sessionId != "" && ls[i].item.sessionId !in sw.known
                          && (ls[i].item.createdAt <= 0.0 || ls[i].item.createdAt + sw.grace <= sw.now)
    {
      assert r in all;
      var i :| 0 <= i < |ls| && Reapable(ls[i], sw) && r == Removal(ls[i].kind, ls[i].item.name);
    }
  }

  lemma {:induction false} AllReapedElements(ls: seq<Listed>, sw: Sweep)
    ensures forall r :: r in AllReaped(ls, sw) ==>
              exists i :: 0 <= i < |ls| && Reapable(ls[i], sw) && r == Removal(ls[i].kind, ls[i].item.name)
    ensures forall i :: 0 <= i < |ls| && Reapable(ls[i], sw) ==>
                          Removal(ls[i].kind, ls[i].item.name) in AllReaped(ls, sw)
    decreases |ls|
  {
    if ls != [] {
      var front := ls[..|ls| - 1];
      AllReapedElements(front, sw);
      forall r | r in AllReaped(ls, sw)
        ensures exists i :: 0 <= i < |ls| && Reapable(ls[i], sw) && r == Removal(ls[i].kind, ls[i].item.name)
      {
        if r in AllReaped(front, sw) {
          var i :| 0 <= i < |front| && Reapable(front[i], sw) && r == Removal(front[i].kind, front[i].item.name);
          assert ls[i] == front[i];
        }
      }
      forall i | 0 <= i < |ls| && Reapable(ls[i], sw)
        ensures Removal(ls[i].kind, ls[i].item.name) in AllReaped(ls, sw)
      {
        if i < |front| {
          assert front[i] == ls[i];
        }
      }
    }
  }
}
