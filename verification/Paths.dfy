/** Workspace paths: `resolve_workspace_path` of `api/files.py`, with `posixpath.join` and `posixpath.normpath`
    as it uses them, and `_is_safe_relative_cwd` of `api/processes.py`. */
module Paths {

  const SLASH: char := '/'

  /** The name of the one directory that paths may lead to. */
  function Top(): string {
    "workspace"
  }

  function Workspace(): string {
    [SLASH] + Top()
  }

  // ----- strings and segments -----

  predicate Has(s: string, c: char) {
    exists i :: 0 <= i < |s| && s[i] == c
  }

  function Split(s: string): (segs: seq<string>)
    ensures |segs| >= 1
  {
    if s == "" then [""]
    else
      var more := Split(s[1..]);
      if s[0] == SLASH then [""] + more else [[s[0]] + more[0]] + more[1..]
  }

  function Join(segs: seq<string>): string {
    if segs == [] then "" else if |segs| == 1 then segs[0] else segs[0] + [SLASH] + Join(segs[1..])
  }

  lemma {:induction false} SplitFree(s: string)
    requires !Has(s, SLASH)
    ensures Split(s) == [s]
    decreases |s|
  {
    if s != "" {
      assert s[0] != SLASH;
      forall i | 0 <= i < |s[1..]|
        ensures s[1..][i] != SLASH
      {
        assert s[1..][i] == s[i + 1];
      }
      SplitFree(s[1..]);
      assert [s[0]] + s[1..] == s;
    }
  }

  function Led(c: char, more: seq<string>): seq<string>
    requires more != []
  {
    if c == SLASH then [""] + more else [[c] + more[0]] + more[1..]
  }

  lemma {:induction false} LedConcat(c: char, a: seq<string>, b: seq<string>)
    requires a != []
    ensures Led(c, a + b) == Led(c, a) + b
  {
    assert (a + b)[1..] == a[1..] + b;
  }

  lemma {:induction false} SplitAround(a: string, b: string)
    ensures Split(a + [SLASH] + b) == Split(a) + Split(b)
    decreases |a|
  {
    var s := a + [SLASH] + b;
    if a == "" {
      assert s[1..] == b;
    } else {
      assert s[1..] == a[1..] + [SLASH] + b && s[0] == a[0];
      assert Split(s) == Led(a[0], Split(s[1..])) && Split(a) == Led(a[0], Split(a[1..]));
      hide Split, Led;
      SplitAround(a[1..], b);
      LedConcat(a[0], Split(a[1..]), Split(b));
    }
  }

  predicate SlashFree(segs: seq<string>) {
    forall i :: 0 <= i < |segs| ==> !Has(segs[i], SLASH)
  }

  /** Splitting undoes joining, for segments without slashes. */
  lemma {:induction false} SplitOfJoin(segs: seq<string>)
    requires segs != [] && SlashFree(segs)
    ensures Split(Join(segs)) == segs
    decreases |segs|
  {
    SplitFree(segs[0]);
    if |segs| > 1 {
      SplitOfJoin(segs[1..]);
      SplitAround(segs[0], Join(segs[1..]));
      assert segs == [segs[0]] + segs[1..];
    } else {
      assert segs == [segs[0]];
    }
  }

  /** The pieces of a split hold no slash, and only characters of the string. */
  lemma {:induction false} SplitPieces(s: string, c: char)
    ensures SlashFree(Split(s))
    ensures !Has(s, c) ==> forall i :: 0 <= i < |Split(s)| ==> !Has(Split(s)[i], c)
    decreases |s|
  {
    if s != "" {
      SplitPieces(s[1..], c);
      assert forall i :: 0 <= i < |s[1..]| ==> s[1..][i] == s[i + 1];
      var more := Split(s[1..]);
      var head := [s[0]] + more[0];
      assert forall i :: 0 < i < |head| ==> head[i] == more[0][i - 1];
    }
  }

  // ----- normpath -----

  function InitialSlashes(path: string): nat {
    if |path| == 0 || path[0] != SLASH then 0
    else if |path| >= 2 && path[1] == SLASH && !(|path| >= 3 && path[2] == SLASH) then 2
    else 1
  }

  /** One component of normpath's loop. */
  function Step(stack: seq<string>, comp: string, rooted: bool): seq<string> {
    if comp == "" || comp == "." then stack
    else if comp != ".." || (!rooted && stack == []) || (stack != [] && stack[|stack| - 1] == "..") then stack + [comp]
    else if stack != [] then stack[..|stack| - 1]
    else stack
  }

  function NewComponents(stack: seq<string>, comps: seq<string>, rooted: bool): seq<string>
    decreases |comps|
  {
    if comps == [] then stack else NewComponents(Step(stack, comps[0], rooted), comps[1..], rooted)
  }

  function NormPath(path: string): string {
    if path == "" then "."
    else
      var slashes := InitialSlashes(path);
      var joined := Join(NewComponents([], Split(path), slashes > 0));
      var r := seq(slashes, _ => SLASH) + joined;
      if r == "" then "." else r
  }

  function PathJoin(base: string, rel: string): string {
    if rel != "" && rel[0] == SLASH then rel
    else if base == "" || base[|base| - 1] == SLASH then base + rel
    else base + [SLASH] + rel
  }

  // ----- resolve_workspace_path -----

  datatype SubCode = NullOrRequired | AbsolutePath | WorkspaceRoot | EscapedWorkspace

  datatype Resolution = Resolved(path: string) | Rejected(subCode: SubCode)

  function ResolveWorkspacePath(rel: string, allowWorkspaceRoot: bool): Resolution {
    if rel == "" || Has(rel, '\0') then Rejected(NullOrRequired)
    else if rel[0] == SLASH then Rejected(AbsolutePath)
    else
      var absolute := NormPath(PathJoin(Workspace(), rel));
      if absolute == Workspace() then if allowWorkspaceRoot then Resolved(absolute) else Rejected(WorkspaceRoot)
      else if !(Workspace() + [SLASH] <= absolute) then Rejected(EscapedWorkspace)
      else Resolved(absolute)
  }

  // ----- the meaning: a walk over directories -----

  /** Where one segment leads from the directory `at`; the root is its own parent. */
  function Go(at: seq<string>, seg: string): seq<string> {
    if seg == "" || seg == "." then at
    else if seg == ".." then if at == [] then [] else at[..|at| - 1]
    else at + [seg]
  }

  function Walk(at: seq<string>, segs: seq<string>): seq<string>
    decreases |segs|
  {
    if segs == [] then at else Walk(Go(at, segs[0]), segs[1..])
  }

  function Destination(rel: string): seq<string> {
    Walk([Top()], Split(rel))
  }

  predicate Proper(seg: string) {
    seg != "" && seg != "." && seg != ".." && !Has(seg, SLASH)
  }

  predicate AllProper(segs: seq<string>) {
    forall i :: 0 <= i < |segs| ==> Proper(segs[i])
  }

  lemma {:induction false} WalkStaysProper(at: seq<string>, segs: seq<string>)
    requires AllProper(at) && SlashFree(segs)
    ensures AllProper(Walk(at, segs))
    decreases |segs|
  {
    if segs != [] {
      WalkStaysProper(Go(at, segs[0]), segs[1..]);
    }
  }

  /** Under a root, normpath's stack never holds a `..`, so its loop is the walk. */
  lemma {:induction false} RootedLoopIsWalk(stack: seq<string>, comps: seq<string>)
    requires AllProper(stack) && SlashFree(comps)
    ensures NewComponents(stack, comps, true) == Walk(stack, comps)
    decreases |comps|
  {
    if comps != [] {
      RootedLoopIsWalk(Go(stack, comps[0]), comps[1..]);
    }
  }

  lemma {:induction false} WalkTwice(at: seq<string>, a: seq<string>, b: seq<string>)
    ensures Walk(at, a + b) == Walk(Walk(at, a), b)
    decreases |a|
  {
    if a == [] {
      assert a + b == b;
    } else {
      assert (a + b)[1..] == a[1..] + b;
      WalkTwice(Go(at, a[0]), a[1..], b);
    }
  }

  lemma {:induction false} SplitBelow(top: string, rel: string)
    requires !Has(top, SLASH)
    ensures Split([SLASH] + top + [SLASH] + rel) == [""] + ([top] + Split(rel))
  {
    SplitFree(top);
    hide Split, Has;
    var base := [SLASH] + top;
    assert base == "" + [SLASH] + top;
    SplitAround("", top);
    SplitAround(base, rel);
    assert ([""] + [top]) + Split(rel) == [""] + ([top] + Split(rel));
  }

  lemma {:induction false} WalkFromRoot(top: string, segs: seq<string>)
    requires Proper(top)
    ensures Walk([], [""] + ([top] + segs)) == Walk([top], segs)
  {
    assert Go([], "") == [] && Go([], top) == [top];
    hide Walk, Go, Proper;
    WalkTwice([], [""], [top] + segs);
    WalkTwice([], [top], segs);
  }

  /** The canonical form of a path below a top directory is where the walk from that directory ends. */
  lemma {:induction false} NormalizedIsWalk(top: string, rel: string)
    requires Proper(top)
    ensures NormPath([SLASH] + top + [SLASH] + rel) == [SLASH] + Join(Walk([top], Split(rel)))
    ensures AllProper(Walk([top], Split(rel)))
  {
    var path := [SLASH] + top + [SLASH] + rel;
    assert path != "" && InitialSlashes(path) == 1;
    assert seq(1, _ => SLASH) == [SLASH];
    SplitBelow(top, rel);
    WalkFromRoot(top, Split(rel));
    SplitPieces(path, SLASH);
    SplitPieces(rel, SLASH);
    hide Split, Join, Has, InitialSlashes, Walk;
    RootedLoopIsWalk([], Split(path));
    WalkStaysProper([top], Split(rel));
  }

  /** The two string tests of the result decide where the destination lies: at the top directory itself, */
  lemma {:induction false} EqualityTestDecides(top: string, at: seq<string>)
    requires Proper(top) && AllProper(at)
    ensures [SLASH] + Join(at) == [SLASH] + top <==> at == [top]
  {
    var s := Join(at);
    assert ([SLASH] + s)[1..] == s && ([SLASH] + top)[1..] == top;
    assert at == [] ==> s == "";
    assert at == [top] ==> s == top;
    ProperIsSlashFree(at);
    SplitFree(top);
    hide Split, Join, AllProper, SlashFree;
    if at != [] {
      SplitOfJoin(at);
    }
  }

  /** A list of segments whose joined form starts with a name and a slash starts with that name and goes on; */
  lemma {:induction false} StartsWithName(top: string, at: seq<string>)
    requires at != [] && SlashFree(at) && !Has(top, SLASH) && top + [SLASH] <= Join(at)
    ensures |at| >= 2 && at[0] == top
  {
    var s := Join(at);
    var rest := s[|top| + 1..];
    assert s == top + [SLASH] + rest;
    SplitFree(top);
    hide Split, Join, SlashFree, Has;
    SplitOfJoin(at);
    SplitAround(top, rest);
    assert at == [top] + Split(rest);
  }

  lemma {:induction false} AfterSlash(a: string, b: string)
    ensures [SLASH] + a <= [SLASH] + b <==> a <= b
  {
    assert ([SLASH] + a)[1..] == a && ([SLASH] + b)[1..] == b;
    if a <= b {
      assert b == a + b[|a|..] && [SLASH] + b == ([SLASH] + a) + b[|a|..];
    }
    if [SLASH] + a <= [SLASH] + b {
      assert ([SLASH] + b)[..|a| + 1] == [SLASH] + a;
      assert b[..|a|] == ([SLASH] + b)[1..][..|a|] == ([SLASH] + b)[..|a| + 1][1..];
    }
  }

  /** and so the test decides whether it lies below. */
  lemma {:induction false} PrefixTestDecides(top: string, at: seq<string>)
    requires Proper(top) && AllProper(at)
    ensures [SLASH] + top + [SLASH] <= [SLASH] + Join(at) <==> |at| >= 2 && at[0] == top
  {
    assert at == [] ==> Join(at) == "";
    assert |at| >= 2 ==> Join(at) == at[0] + [SLASH] + Join(at[1..]);
    assert !Has(top, SLASH);
    ProperIsSlashFree(at);
    hide Join, AllProper, SlashFree, Proper, Has;
    AfterSlash(top + [SLASH], Join(at));
    assert [SLASH] + (top + [SLASH]) == [SLASH] + top + [SLASH];
    if top + [SLASH] <= Join(at) {
      StartsWithName(top, at);
    }
  }

  /** The outcome a destination deserves: inside the workspace, the workspace itself, or elsewhere. */
  function OutcomeAt(at: seq<string>, allowWorkspaceRoot: bool): Resolution {
    if at == [Top()] && !allowWorkspaceRoot then Rejected(WorkspaceRoot)
    else if at != [] && at[0] == Top() then Resolved([SLASH] + Join(at))
    else Rejected(EscapedWorkspace)
  }

  lemma {:induction false} ResolvesByDestination(rel: string, allowWorkspaceRoot: bool)
    ensures AllProper(Destination(rel))
    ensures ResolveWorkspacePath(rel, allowWorkspaceRoot) ==
            if rel == "" || Has(rel, '\0') then Rejected(NullOrRequired)
            else if rel[0] == SLASH then Rejected(AbsolutePath)
            else OutcomeAt(Destination(rel), allowWorkspaceRoot)
  {
    assert rel != "" && rel[0] != SLASH ==> PathJoin(Workspace(), rel) == [SLASH] + Top() + [SLASH] + rel;
    assert Join([Top()]) == Top();
    hide NormPath, Join, Walk, Split, Top, Has;
    var at := Destination(rel);
    TopIsProper();
    NormalizedIsWalk(Top(), rel);
    EqualityTestDecides(Top(), at);
    PrefixTestDecides(Top(), at);
    assert at != [] && at[0] == Top() && |at| < 2 ==> at == [Top()];
  }

  lemma {:induction false} TopIsProper()
    ensures Proper(Top()) && !Has(Top(), '\0')
  {
  }

  /** Every accepted path is `/workspace` and then segments that are never empty, `.` or `..`, and it is where
      the input leads; an accepted input is relative and NUL-free. */
  lemma {:induction false} AcceptedIsCanonical(rel: string, allowWorkspaceRoot: bool)
    ensures var at := Destination(rel);
            ResolveWorkspacePath(rel, allowWorkspaceRoot).Resolved? ==>
              && rel != "" && !Has(rel, '\0') && rel[0] != SLASH
              && AllProper(at) && at != [] && at[0] == Top() && (|at| == 1 ==> allowWorkspaceRoot)
              && ResolveWorkspacePath(rel, allowWorkspaceRoot) == Resolved([SLASH] + Join(at))
              && Split([SLASH] + Join(at)) == [""] + at
  {
    if ResolveWorkspacePath(rel, allowWorkspaceRoot).Resolved? {
      assert rel != "" && !Has(rel, '\0') && rel[0] != SLASH;
      hide Has, ResolveWorkspacePath, Destination, Split, Join, Proper, Top;
      ResolvesByDestination(rel, allowWorkspaceRoot);
      var at := Destination(rel);
      assert at != [] && at[0] == Top() && (|at| == 1 ==> at == [Top()]);
      ProperIsSlashFree(at);
      SplitOfJoin(at);
      SplitAround("", Join(at));
      assert "" + [SLASH] + Join(at) == [SLASH] + Join(at);
    }
  }

  lemma {:induction false} ProperIsSlashFree(segs: seq<string>)
    requires AllProper(segs)
    ensures SlashFree(segs)
  {
    assert forall i :: 0 <= i < |segs| ==> Proper(segs[i]);
  }

  lemma {:induction false} WalkProper(at: seq<string>, segs: seq<string>)
    requires AllProper(segs)
    ensures Walk(at, segs) == at + segs
    decreases |segs|
  {
    if segs == [] {
      assert at + segs == at;
    } else {
      WalkProper(at + [segs[0]], segs[1..]);
      assert at + segs == (at + [segs[0]]) + segs[1..];
    }
  }

  /** The path below the workspace, as a caller would name it again. */
  function Below(path: string): string
    requires Workspace() + [SLASH] <= path
  {
    path[|Workspace()| + 1..]
  }

  lemma {:induction false} PathOfDestination(at: seq<string>)
    requires |at| >= 2 && at[0] == Top()
    ensures Workspace() + [SLASH] <= [SLASH] + Join(at)
    ensures Below([SLASH] + Join(at)) == Join(at[1..])
  {
    assert Join(at) == Top() + [SLASH] + Join(at[1..]);
    hide Join, Top;
    assert [SLASH] + Join(at) == Workspace() + [SLASH] + Join(at[1..]);
  }

  lemma {:induction false} DestinationOfJoin(segs: seq<string>)
    requires segs != [] && AllProper(segs)
    ensures Destination(Join(segs)) == [Top()] + segs
  {
    ProperIsSlashFree(segs);
    hide Proper, Split, Join, Top;
    SplitOfJoin(segs);
    WalkProper([Top()], segs);
  }

  /** A list of segments below the workspace, named again, leads where it led. */
  lemma {:induction false} NamedAgain(segs: seq<string>, allowWorkspaceRoot: bool)
    requires segs != [] && AllProper(segs) && forall i :: 0 <= i < |segs| ==> !Has(segs[i], '\0')
    ensures ResolveWorkspacePath(Join(segs), allowWorkspaceRoot) == OutcomeAt([Top()] + segs, allowWorkspaceRoot)
  {
    hide ResolveWorkspacePath, Split, Destination, Join, Top, Proper, Has, OutcomeAt;
    DestinationOfJoin(segs);
    JoinHas(segs, '\0');
    JoinStarts(segs);
    ResolvesByDestination(Join(segs), allowWorkspaceRoot);
  }

  lemma {:induction false} AcceptedBelow(rel: string, allowWorkspaceRoot: bool)
    requires var r := ResolveWorkspacePath(rel, allowWorkspaceRoot); r.Resolved? && r.path != Workspace()
    ensures var at := Destination(rel);
            && |at| >= 2 && at[0] == Top() && AllProper(at) && rel != "" && !Has(rel, '\0') && rel[0] != SLASH
            && ResolveWorkspacePath(rel, allowWorkspaceRoot) == Resolved([SLASH] + Join(at))
  {
    assert [SLASH] + Join([Top()]) == Workspace();
    hide ResolveWorkspacePath, Split, Destination, Join, Top, Proper, Has, Workspace, OutcomeAt;
    AcceptedIsCanonical(rel, allowWorkspaceRoot);
    var at := Destination(rel);
    assert |at| == 1 ==> at == [Top()];
  }

  /** What follows `/workspace/` in an accepted path is accepted, as the same path. */
  lemma {:induction false} ResolvingAgainChangesNothing(rel: string, allowWorkspaceRoot: bool)
    requires var r := ResolveWorkspacePath(rel, allowWorkspaceRoot); r.Resolved? && r.path != Workspace()
    ensures var r := ResolveWorkspacePath(rel, allowWorkspaceRoot);
            Workspace() + [SLASH] <= r.path && ResolveWorkspacePath(Below(r.path), allowWorkspaceRoot) == r
  {
    hide ResolveWorkspacePath, Split, Destination, Join, Top, Proper, Has, Workspace, Below, OutcomeAt;
    AcceptedBelow(rel, allowWorkspaceRoot);
    var at := Destination(rel);
    PathOfDestination(at);
    DestinationKeepsNulFree(rel);
    ResolvesByDestination(rel, allowWorkspaceRoot);
    var segs := at[1..];
    NamedAgain(segs, allowWorkspaceRoot);
    assert [Top()] + segs == at;
  }

  lemma {:induction false} WalkKeepsNulFree(at: seq<string>, segs: seq<string>)
    requires forall i :: 0 <= i < |at| ==> !Has(at[i], '\0')
    requires forall i :: 0 <= i < |segs| ==> !Has(segs[i], '\0')
    ensures forall i :: 0 <= i < |Walk(at, segs)| ==> !Has(Walk(at, segs)[i], '\0')
    decreases |segs|
  {
    if segs != [] {
      WalkKeepsNulFree(Go(at, segs[0]), segs[1..]);
    }
  }

  lemma {:induction false} DestinationKeepsNulFree(rel: string)
    requires !Has(rel, '\0')
    ensures forall i :: 0 <= i < |Destination(rel)| ==> !Has(Destination(rel)[i], '\0')
  {
    TopIsProper();
    SplitPieces(rel, '\0');
    WalkKeepsNulFree([Top()], Split(rel));
  }

  lemma {:induction false} JoinHas(segs: seq<string>, c: char)
    requires c != SLASH && forall i :: 0 <= i < |segs| ==> !Has(segs[i], c)
    ensures !Has(Join(segs), c)
    decreases |segs|
  {
    if |segs| > 1 {
      JoinHas(segs[1..], c);
    }
  }

  lemma {:induction false} JoinStarts(segs: seq<string>)
    requires segs != [] && AllProper(segs)
    ensures Join(segs) != "" && Join(segs)[0] != SLASH
  {
    assert segs[0] != "" && segs[0][0] != SLASH;
  }

  // ----- working directories of processes -----

  function WithoutEmpty(segs: seq<string>): seq<string> {
    if segs == [] then [] else (if segs[0] != "" then [segs[0]] else []) + WithoutEmpty(segs[1..])
  }

  predicate IsSafeRelativeCwd(cwd: string) {
    if cwd == "" || cwd[0] == SLASH || cwd[0] == '~' then false
    else
      var parts := WithoutEmpty(Split(cwd));
      forall i :: 0 <= i < |parts| ==> parts[i] != ".."
  }

  lemma {:induction false} WithoutEmptyKeeps(segs: seq<string>)
    ensures forall x :: x in WithoutEmpty(segs) <==> x in segs && x != ""
  {
    if segs != [] {
      WithoutEmptyKeeps(segs[1..]);
      assert segs == [segs[0]] + segs[1..];
    }
  }

  lemma {:induction false} SafeCwdHasNoParent(cwd: string)
    ensures IsSafeRelativeCwd(cwd) <==> cwd != "" && cwd[0] != SLASH && cwd[0] != '~' && ".." !in Split(cwd)
  {
    var parts := WithoutEmpty(Split(cwd));
    WithoutEmptyKeeps(Split(cwd));
    hide Split, WithoutEmpty;
    assert ".." in Split(cwd) <==> ".." in parts;
    assert ".." in parts <==> exists i :: 0 <= i < |parts| && parts[i] == "..";
  }

  lemma {:induction false} WalkOnlyDown(at: seq<string>, segs: seq<string>)
    requires ".." !in segs
    ensures at <= Walk(at, segs)
    decreases |segs|
  {
    if segs != [] {
      WalkOnlyDown(Go(at, segs[0]), segs[1..]);
    }
  }

  /** A working directory that the process service lets through, if NUL-free, the file service would accept, and
      the directory the process gets stays below the workspace at every step of the walk. */
  lemma {:induction false} SafeCwdIsAccepted(cwd: string, n: nat)
    requires IsSafeRelativeCwd(cwd) && !Has(cwd, '\0') && n <= |Split(cwd)|
    ensures ResolveWorkspacePath(cwd, true) == Resolved([SLASH] + Join(Destination(cwd)))
    ensures [Top()] <= Walk([Top()], Split(cwd)[..n]) <= Destination(cwd)
  {
    var segs := Split(cwd);
    SafeCwdHasNoParent(cwd);
    var inner := Walk([Top()], segs[..n]);
    WalkOnlyDown([Top()], segs[..n]);
    WalkOnlyDown(inner, segs[n..]);
    assert segs == segs[..n] + segs[n..];
    WalkTwice([Top()], segs[..n], segs[n..]);
    WalkOnlyDown([Top()], segs);
    assert Destination(cwd)[0] == Top();
    hide Split, Walk, Join, Has, IsSafeRelativeCwd, Destination, Top;
    ResolvesByDestination(cwd, true);
  }

  /** The first segment that goes up. */
  lemma {:induction false} FirstUp(segs: seq<string>) returns (k: nat)
    requires ".." in segs
    ensures k < |segs| && segs[k] == ".." && ".." !in segs[..k]
    decreases |segs|
  {
    var n := |segs| - 1;
    if ".." in segs[..n] {
      k := FirstUp(segs[..n]);
      assert segs[..n][..k] == segs[..k];
    } else {
      k := n;
      assert segs == segs[..n] + [segs[n]];
    }
  }

  /** The process service lets through exactly the directories that are named, start with neither `/` nor `~`, and
      whose walk never goes up. */
  lemma {:induction false} SafeCwdIffNeverUp(cwd: string)
    ensures var segs := Split(cwd);
            IsSafeRelativeCwd(cwd) <==>
              && cwd != "" && cwd[0] != '/' && cwd[0] != '~'
              && forall k :: 0 <= k < |segs| ==> Walk([Top()], segs[..k]) <= Walk([Top()], segs[..k + 1])
  {
    var segs := Split(cwd);
    SafeCwdHasNoParent(cwd);
    hide IsSafeRelativeCwd, Split, Walk, Top, Height;
    if ".." in segs {
      var k := FirstUp(segs);
      WalkOneMore(segs, k);
      WalkOnlyDown([Top()], segs[..k]);
      assert !(Walk([Top()], segs[..k]) <= Walk([Top()], segs[..k + 1]));
    } else {
      forall k | 0 <= k < |segs| ensures Walk([Top()], segs[..k]) <= Walk([Top()], segs[..k + 1]) {
        WalkOneMore(segs, k);
      }
    }
  }

  /** How far a walk has gone down, counting each `..` as one up. */
  function Height(segs: seq<string>): int
    decreases |segs|
  {
    if segs == [] then 0
    else
      var last := segs[|segs| - 1];
      Height(segs[..|segs| - 1]) + if last == "" || last == "." then 0 else if last == ".." then -1 else 1
  }

  /** The walk from the workspace is inside it after each of its first `n` segments. */
  ghost predicate StaysInside(segs: seq<string>, n: nat)
    requires n <= |segs|
  {
    forall k :: 0 <= k <= n ==> [Top()] <= Walk([Top()], segs[..k])
  }

  lemma {:induction false} WalkOneMore(segs: seq<string>, n: nat)
    requires n < |segs|
    ensures Walk([Top()], segs[..n + 1]) == Go(Walk([Top()], segs[..n]), segs[n])
    ensures Height(segs[..n + 1]) ==
            Height(segs[..n]) + if segs[n] == "" || segs[n] == "." then 0 else if segs[n] == ".." then -1 else 1
  {
    assert segs[..n + 1] == segs[..n] + [segs[n]];
    assert segs[..n + 1][..n] == segs[..n];
    hide Go, Top;
    WalkTwice([Top()], segs[..n], [segs[n]]);
  }

  /** As long as the walk has stayed inside, it is as deep as its height says. */
  lemma {:induction false} InsideIffNeverBelow(segs: seq<string>, n: nat)
    requires n <= |segs|
    ensures StaysInside(segs, n) <==> forall k :: 0 <= k <= n ==> Height(segs[..k]) >= 0
    ensures StaysInside(segs, n) ==> |Walk([Top()], segs[..n])| == 1 + Height(segs[..n])
    decreases n
  {
    if n == 0 {
      assert segs[..0] == [];
    } else {
      InsideIffNeverBelow(segs, n - 1);
      WalkOneMore(segs, n - 1);
      hide Walk, Height, Top;
      assert StaysInside(segs, n) <==> StaysInside(segs, n - 1) && [Top()] <= Walk([Top()], segs[..n]);
    }
  }

  /** Which accepted inputs leave the workspace on the way: those whose walk has at some point more `..` behind it
      than directories; and an input that never does so is accepted. */
  lemma {:induction false} LeavesIffHeightFalls(rel: string)
    requires rel != "" && !Has(rel, '\0') && rel[0] != SLASH
    ensures var segs := Split(rel);
            var inside := StaysInside(segs, |segs|);
            && (inside <==> forall k :: 0 <= k <= |segs| ==> Height(segs[..k]) >= 0)
            && (inside ==> ResolveWorkspacePath(rel, true).Resolved?)
            && (ResolveWorkspacePath(rel, true).Resolved? <==> [Top()] <= Destination(rel))
  {
    var segs := Split(rel);
    assert segs[..|segs|] == segs;
    assert Destination(rel) == Walk([Top()], segs);
    hide Split, Walk, Height, Has, Top, Destination, ResolveWorkspacePath, Join;
    InsideIffNeverBelow(segs, |segs|);
    ResolvesByDestination(rel, true);
    assert StaysInside(segs, |segs|) ==> [Top()] <= Walk([Top()], segs[..|segs|]);
  }

  lemma {:induction false} ReturningSegments(below: string)
    requires below == Top() + [SLASH] + "x"
    ensures Split(".." + [SLASH] + below) == [".."] + ([Top()] + ["x"])
    ensures Join([Top(), "x"]) == below
  {
    TopIsProper();
    assert [Top(), "x"][1..] == ["x"];
    assert Join(["x"]) == "x";
    assert Join([Top(), "x"]) == below;
    hide Top, Join;
    SplitFree("..");
    SplitFree("x");
    SplitFree(Top());
    hide Split;
    SplitAround(Top(), "x");
    SplitAround("..", below);
  }

  lemma {:induction false} ReturningDestination(rel: string)
    requires Split(rel) == [".."] + ([Top()] + ["x"])
    ensures Destination(rel) == [Top(), "x"]
  {
    TopIsProper();
    hide Split, Top;
    assert Go([Top()], "..") == [] && Go([], Top()) == [Top()] && Go([Top()], "x") == [Top(), "x"];
    hide Walk, Go, Proper;
    WalkTwice([Top()], [".."], [Top()] + ["x"]);
    WalkTwice([], [Top()], ["x"]);
  }

  /** The file service judges only the destination: a path that leaves the workspace and comes back by name is
      accepted, one the process service would turn down. */
  lemma {:induction false} LeavingAndReturningIsAccepted()
    ensures ResolveWorkspacePath("../workspace/x", false) == Resolved("/workspace/x")
    ensures !IsSafeRelativeCwd("../workspace/x")
  {
    var rel := "../workspace/x";
    var below := Top() + [SLASH] + "x";
    assert rel == ".." + [SLASH] + below && "/workspace/x" == [SLASH] + below;
    assert !Has(rel, '\0') && rel[0] != SLASH;
    hide Split, Has, Join, ResolveWorkspacePath, Top, IsSafeRelativeCwd, Destination;
    ReturningSegments(below);
    ReturningDestination(rel);
    ResolvesByDestination(rel, false);
    SafeCwdHasNoParent(rel);
    assert Split(rel)[0] == "..";
  }
}
