/** Which sandbox files the starter sends back, and under which names (internal/starter/transfer.go). */
module OutputPlan {
  import opened Basics

  const STDOUT_NAME := "_condor_stdout"
  const STDERR_NAME := "_condor_stderr"
  const NULL_FILE := "/dev/null"

  datatype Stamp = Stamp(size: int, mtime: int)

  datatype File = Regular(stamp: Stamp, mode: int, content: string) | Irregular

  /** The sandbox after the job: its directory entries by name, and what Stat finds under a relative path. */
  datatype Sandbox = Sandbox(top: map<string, File>, paths: map<string, File>) {
    /** Stat of a regular directory entry finds that entry. */
    ghost predicate Consistent() { forall n :: n in top && top[n].Regular? ==> n in paths && paths[n] == top[n] }
  }

  /** A stdio path of the job ad, as written and as filepath.Clean gives it. */
  datatype Stdio = Stdio(path: string, cleaned: string) {
    /** Captured in the sandbox: not absent, not the null file, not absolute. */
    predicate Captured() { path != "" && path != NULL_FILE && path[0] != '/' }
  }

  datatype Job = Job(out: Stdio, err: Stdio, outputs: Option<seq<string>>)

  datatype FileSpec = FileSpec(wire: string, mode: int, size: int, content: string)

  function Spec(wire: string, f: File): FileSpec
    requires f.Regular?
  {
    FileSpec(wire, f.mode, f.stamp.size, f.content)
  }

  /** snapshotSandbox: the stamps of the regular directory entries. */
  function Snapshot(top: map<string, File>): map<string, Stamp> {
    map n | n in top && top[n].Regular? :: top[n].stamp
  }

  // -------------------------------------------------------------------- the specification

  function Wires(files: seq<FileSpec>): seq<string> { seq(|files|, i requires 0 <= i < |files| => files[i].wire) }

  ghost predicate SentOnce(files: seq<FileSpec>) { NoDup(Wires(files)) }

  predicate Has(files: seq<FileSpec>, wire: string) { exists i :: 0 <= i < |files| && files[i].wire == wire }

  /** The add closure: None is an error. */
  function Added(files: seq<FileSpec>, sb: Sandbox, wire: string, path: string, required: bool): Option<seq<FileSpec>> {
    if wire == "" || Has(files, wire) then Some(files)
    else if path in sb.paths && sb.paths[path].Regular? then Some(files + [Spec(wire, sb.paths[path])])
    else if required then None
    else Some(files)
  }

  /** A captured stdio file goes under its remap name if it is there. */
  function StdioFile(s: Stdio, wire: string, sb: Sandbox): seq<FileSpec> {
    if s.Captured() && s.path in sb.paths && sb.paths[s.path].Regular? then [Spec(wire, sb.paths[s.path])] else []
  }

  function StdioFiles(job: Job, sb: Sandbox, outFirst: bool): seq<FileSpec> {
    var o, e := StdioFile(job.out, STDOUT_NAME, sb), StdioFile(job.err, STDERR_NAME, sb);
    if outFirst then o + e else e + o
  }

  predicate IsStdio(job: Job, n: string) {
    (job.out.Captured() && n == job.out.cleaned) || (job.err.Captured() && n == job.err.cleaned)
  }

  predicate Reserved(n: string) { n == STDOUT_NAME || n == STDERR_NAME }

  /** New or changed since the snapshot. */
  predicate Changed(n: string, f: File, snapshot: map<string, Stamp>) {
    f.Regular? && (n in snapshot ==> snapshot[n] != f.stamp)
  }

  /** What the default selection sends, in the order of names. */
  function Selected(names: seq<string>, job: Job, sb: Sandbox, snapshot: map<string, Stamp>): seq<FileSpec> {
    if names == [] then []
    else
      var n := names[|names| - 1];
      Selected(names[..|names| - 1], job, sb, snapshot)
      + (if Picks(n, job, sb, snapshot) then [Spec(n, sb.top[n])] else [])
  }

  predicate Picks(n: string, job: Job, sb: Sandbox, snapshot: map<string, Stamp>) {
    n in sb.top && !IsStdio(job, n) && !Reserved(n) && Changed(n, sb.top[n], snapshot) && n != ""
  }

  /** The explicit list, each file required. */
  function Listed(files: seq<FileSpec>, list: seq<string>, sb: Sandbox): Option<seq<FileSpec>> {
    if list == [] then Some(files)
    else
      match Listed(files, list[..|list| - 1], sb)
      case None => None
      case Some(more) => Added(more, sb, list[|list| - 1], list[|list| - 1], true)
  }

  // ----------------------------------------------------------------------- sorted names

  predicate LessEq(a: string, b: string) {
    a == "" || (b != "" && (a[0] < b[0] || (a[0] == b[0] && LessEq(a[1..], b[1..]))))
  }

  lemma {:induction false} LessEqTotal(a: string, b: string)
    ensures LessEq(a, b) || LessEq(b, a)
  {
    if a != "" && b != "" && a[0] == b[0] { LessEqTotal(a[1..], b[1..]); }
  }

  /** Byte order: a prefix comes first, else the first difference decides. */
  lemma {:induction false} LessEqIsByteOrder(common: string, x: char, y: char, s: string, t: string)
    requires x < y
    ensures LessEq(common, common + s)
    ensures LessEq(common + ([x] + s), common + ([y] + t)) && !LessEq(common + ([y] + t), common + ([x] + s))
  {
    if common == "" {
      assert "" + ([x] + s) == [x] + s && "" + ([y] + t) == [y] + t;
    } else {
      var less, more := common + ([x] + s), common + ([y] + t);
      assert less[1..] == common[1..] + ([x] + s) && more[1..] == common[1..] + ([y] + t) && (common + s)[1..] == common[1..] + s;
      LessEqIsByteOrder(common[1..], x, y, s, t);
    }
  }

  ghost predicate Ascending(s: seq<string>) { forall i :: 0 < i < |s| ==> LessEq(s[i - 1], s[i]) }

  function Insert(x: string, s: seq<string>): seq<string> {
    if s == [] || LessEq(x, s[0]) then [x] + s else [s[0]] + Insert(x, s[1..])
  }

  /** sort.Strings, as far as its result goes. */
  function Sort(s: seq<string>): seq<string> { if s == [] then [] else Insert(s[0], Sort(s[1..])) }

  lemma {:induction false} InsertSorts(x: string, s: seq<string>)
    requires Ascending(s)
    ensures Ascending(Insert(x, s)) && multiset(Insert(x, s)) == multiset(s) + multiset{x}
  {
    if s != [] && !LessEq(x, s[0]) {
      LessEqTotal(x, s[0]);
      InsertSorts(x, s[1..]);
      var r := Insert(x, s[1..]);
      assert s == [s[0]] + s[1..];
      assert |s| > 1 ==> LessEq(s[0], s[1]);
      assert r[0] == x || (|s| > 1 && r[0] == s[1]);
    }
  }

  lemma {:induction false} SortSorts(s: seq<string>)
    ensures Ascending(Sort(s)) && multiset(Sort(s)) == multiset(s)
  {
    if s != [] {
      SortSorts(s[1..]);
      InsertSorts(s[0], Sort(s[1..]));
      assert s == [s[0]] + s[1..];
    }
  }

  lemma SameElements(a: seq<string>, b: seq<string>)
    requires multiset(a) == multiset(b)
    ensures forall x :: x in a <==> x in b
    ensures NoDup(a) ==> NoDup(b)
  {
    forall x ensures x in a <==> x in b {
      assert x in a <==> x in multiset(a);
      assert x in b <==> x in multiset(b);
    }
    if NoDup(a) { NoDupIsSet(a); SetIsNoDup(b); }
  }

  lemma {:induction false} NoDupIsSet(a: seq<string>)
    requires NoDup(a)
    ensures forall x :: multiset(a)[x] <= 1
  {
    if a != [] {
      TailNoDup(a);
      NoDupIsSet(a[1..]);
      assert a == [a[0]] + a[1..];
      assert a[0] !in multiset(a[1..]);
    }
  }

  lemma {:induction false} SetIsNoDup(b: seq<string>)
    requires forall x :: multiset(b)[x] <= 1
    ensures NoDup(b)
  {
    forall i, j | 0 <= i < j < |b| ensures b[i] != b[j] {
      assert b == b[..j] + [b[j]] + b[j + 1..];
      assert multiset(b) == multiset(b[..j]) + multiset{b[j]} + multiset(b[j + 1..]);
      assert multiset(b)[b[j]] == multiset(b[..j])[b[j]] + 1 + multiset(b[j + 1..])[b[j]];
      assert b[..j][i] == b[i] && b[i] in multiset(b[..j]);
    }
  }

  // -------------------------------------------------------------------------- the planner

  /** The plan under construction and the wire names already taken. */
  class Planner {
    var files: seq<FileSpec>
    var seen: set<string>

    ghost predicate Valid()
      reads this
    {
      SentOnce(files) && forall w :: w in seen <==> Has(files, w)
    }

    constructor ()
      ensures Valid() && files == []
    {
      files, seen := [], {};
    }

    /** add: refuses a name already taken, and a missing or irregular file only when it is required. */
    method Add(sb: Sandbox, wire: string, path: string, required: bool) returns (ok: bool)
      requires Valid()
      modifies this
      ensures Valid()
      ensures match Added(old(files), sb, wire, path, required)
              case None => !ok && files == old(files)
              case Some(more) => ok && files == more
    {
      if wire == "" || wire in seen { return true; }
      if path !in sb.paths || sb.paths[path].Irregular? { return !required; }
      AddedOnce(files, Spec(wire, sb.paths[path]));
      files := files + [Spec(wire, sb.paths[path])];
      seen := seen + {wire};
      return true;
    }
  }

  lemma AddedOnce(files: seq<FileSpec>, f: FileSpec)
    requires SentOnce(files) && !Has(files, f.wire)
    ensures SentOnce(files + [f])
    ensures forall w :: Has(files + [f], w) <==> Has(files, w) || w == f.wire
  {
    assert Wires(files + [f]) == Wires(files) + [f.wire];
    assert f.wire !in Wires(files);
    AppendNoDup(Wires(files), f.wire);
    var more := files + [f];
    forall w ensures Has(more, w) <==> Has(files, w) || w == f.wire {
      assert more[|files|] == f;
      assert forall i :: 0 <= i < |files| ==> more[i] == files[i];
    }
  }

  lemma StdioWires(job: Job, sb: Sandbox, outFirst: bool, w: string)
    ensures Has(StdioFiles(job, sb, outFirst), w) ==> Reserved(w)
  {
  }

  /** What is selected from distinct names goes under those names. */
  lemma {:induction false} SelectedHas(names: seq<string>, job: Job, sb: Sandbox, snapshot: map<string, Stamp>, w: string)
    ensures Has(Selected(names, job, sb, snapshot), w) <==> w in names && Picks(w, job, sb, snapshot)
  {
    if names != [] {
      hide Picks;
      var k := |names| - 1;
      SelectedHas(names[..k], job, sb, snapshot, w);
      var r, q := Selected(names, job, sb, snapshot), Selected(names[..k], job, sb, snapshot);
      assert names == names[..k] + [names[k]];
      assert forall i :: 0 <= i < |q| ==> r[i] == q[i];
      assert Picks(names[k], job, sb, snapshot) ==> r[|q|].wire == names[k];
    }
  }

  lemma HasConcat(a: seq<FileSpec>, b: seq<FileSpec>, w: string)
    ensures Has(a + b, w) <==> Has(a, w) || Has(b, w)
  {
    assert forall i :: 0 <= i < |a| ==> (a + b)[i] == a[i];
    assert forall i :: 0 <= i < |b| ==> (a + b)[|a| + i] == b[i];
  }

  /** One more name of the default selection. */
  lemma NextSelected(base: seq<FileSpec>, names: seq<string>, k: nat, job: Job, sb: Sandbox, snapshot: map<string, Stamp>)
    requires k < |names| && NoDup(names) && sb.Consistent()
    requires forall w :: Has(base, w) ==> Reserved(w)
    ensures var files := base + Selected(names[..k], job, sb, snapshot);
            Some(base + Selected(names[..k + 1], job, sb, snapshot))
            == if Picks(names[k], job, sb, snapshot) then Added(files, sb, names[k], names[k], false) else Some(files)
  {
    var n := names[k];
    var q := Selected(names[..k], job, sb, snapshot);
    assert names[..k + 1][..k] == names[..k];
    assert Selected(names[..k + 1], job, sb, snapshot) == q + (if Picks(n, job, sb, snapshot) then [Spec(n, sb.top[n])] else []);
    assert base + (q + []) == base + q;
    if Picks(n, job, sb, snapshot) {
      SelectedHas(names[..k], job, sb, snapshot, n);
      HasConcat(base, q, n);
      assert base + (q + [Spec(n, sb.top[n])]) == base + q + [Spec(n, sb.top[n])];
    }
  }

  /** The names of the regular entries, in ascending order. */
  method RegularNames(top: map<string, File>) returns (names: seq<string>)
    ensures NoDup(names) && Ascending(names)
    ensures forall n :: n in names <==> n in top && top[n].Regular?
  {
    var now := Snapshot(top);
    var left, found := now.Keys, [];
    while left != {}
      invariant left <= now.Keys && NoDup(found)
      invariant forall n :: n in found <==> n in now && n !in left
      decreases left
    {
      var n :| n in left;
      AppendNoDup(found, n);
      found := found + [n];
      left := left - {n};
    }
    names := Sort(found);
    SortSorts(found);
    SameElements(found, names);
  }

  /**
   * buildOutputPlan. outFirst is the order in which the two stdio attributes happen to be visited.
   * With no explicit list: the stdio files, then every changed top-level regular file in name order.
   * With one: the stdio files, then exactly the listed ones, all of them required.
   */
  method BuildOutputPlan(job: Job, sb: Sandbox, snapshot: map<string, Stamp>, outFirst: bool)
    returns (plan: Option<seq<FileSpec>>)
    requires sb.Consistent()
    ensures plan.Some? ==> SentOnce(plan.value)
    ensures job.outputs.Some? ==> plan == Listed(StdioFiles(job, sb, outFirst), job.outputs.value, sb)
    ensures job.outputs.None? ==>
              exists names :: DefaultOrder(names, sb)
                              && plan == Some(StdioFiles(job, sb, outFirst) + Selected(names, job, sb, snapshot))
  {
    var p := new Planner();
    var ok := AddStdio(p, job, sb, outFirst);
    ghost var base := p.files;
    assert base == StdioFiles(job, sb, outFirst);
    if job.outputs.Some? {
      var list := job.outputs.value;
      assert list[..0] == [];
      for i := 0 to |list|
        invariant p.Valid() && fresh(p)
        invariant Listed(base, list[..i], sb) == Some(p.files)
      {
        assert list[..i + 1][..i] == list[..i];
        ok := p.Add(sb, list[i], list[i], true);
        if !ok {
          FailsForGood(base, list, i + 1, sb);
          return None;
        }
      }
      assert list[..|list|] == list;
      return Some(p.files);
    }
    var names := RegularNames(sb.top);
    assert names[..0] == [] && base + [] == base;
    forall w ensures Has(base, w) ==> Reserved(w) { StdioWires(job, sb, outFirst, w); }
    for i := 0 to |names|
      invariant p.Valid() && fresh(p)
      invariant p.files == base + Selected(names[..i], job, sb, snapshot)
    {
      NextSelected(base, names, i, job, sb, snapshot);
      if Picks(names[i], job, sb, snapshot) {
        ok := p.Add(sb, names[i], names[i], false);
      }
    }
    assert names[..|names|] == names;
    assert DefaultOrder(names, sb);
    return Some(p.files);
  }

  /** The names the default selection goes through: the regular entries, ascending, each once. */
  ghost predicate DefaultOrder(names: seq<string>, sb: Sandbox) {
    NoDup(names) && Ascending(names) && forall n :: n in names <==> n in sb.top && sb.top[n].Regular?
  }

  lemma {:induction false} FailsForGood(files: seq<FileSpec>, list: seq<string>, k: nat, sb: Sandbox)
    requires k <= |list| && Listed(files, list[..k], sb).None?
    ensures Listed(files, list, sb).None?
    decreases |list| - k
  {
    if k < |list| {
      assert list[..k + 1][..k] == list[..k];
      FailsForGood(files, list, k + 1, sb);
    } else {
      assert list[..k] == list;
    }
  }

  method AddStdio(p: Planner, job: Job, sb: Sandbox, outFirst: bool) returns (ok: bool)
    requires p.Valid() && p.files == []
    modifies p
    ensures ok && p.Valid() && p.files == StdioFiles(job, sb, outFirst)
  {
    var first, second := if outFirst then job.out else job.err, if outFirst then job.err else job.out;
    var w1, w2 := if outFirst then STDOUT_NAME else STDERR_NAME, if outFirst then STDERR_NAME else STDOUT_NAME;
    assert w1 != w2 && w1 != "" && w2 != "";
    ok := true;
    if first.Captured() { ok := p.Add(sb, w1, first.path, false); }
    assert p.files == StdioFile(first, w1, sb);
    if ok && second.Captured() { ok := p.Add(sb, w2, second.path, false); }
    assert p.files == StdioFile(first, w1, sb) + StdioFile(second, w2, sb);
  }

  // --------------------------------------------------------------------------- correctness

  /** What the receiver has after landing the files. */
  function Overlay(before: map<string, string>, files: seq<FileSpec>): map<string, string> {
    if files == [] then before
    else Overlay(before, files[..|files| - 1])[files[|files| - 1].wire := files[|files| - 1].content]
  }

  lemma {:induction false} OverlayAt(before: map<string, string>, files: seq<FileSpec>, i: nat)
    requires SentOnce(files) && i < |files|
    ensures files[i].wire in Overlay(before, files) && Overlay(before, files)[files[i].wire] == files[i].content
  {
    var k := |files| - 1;
    if i < k {
      assert Wires(files)[i] != Wires(files)[k];
      assert Wires(files[..k]) == Wires(files)[..k];
      OverlayAt(before, files[..k], i);
    }
  }

  lemma {:induction false} OverlayElsewhere(before: map<string, string>, files: seq<FileSpec>, w: string)
    requires !Has(files, w)
    ensures w in Overlay(before, files) <==> w in before
    ensures w in before ==> Overlay(before, files)[w] == before[w]
  {
    if files != [] {
      var k := |files| - 1;
      assert files[k].wire != w;
      assert forall i :: 0 <= i < k ==> files[..k][i] == files[i];
      OverlayElsewhere(before, files[..k], w);
    }
  }

  lemma {:induction false} SelectedContent(names: seq<string>, job: Job, sb: Sandbox, snapshot: map<string, Stamp>, i: nat)
    requires i < |Selected(names, job, sb, snapshot)|
    ensures var f := Selected(names, job, sb, snapshot)[i];
            f.wire in sb.top && sb.top[f.wire].Regular? && f == Spec(f.wire, sb.top[f.wire])
  {
    if names != [] && i < |Selected(names[..|names| - 1], job, sb, snapshot)| {
      SelectedContent(names[..|names| - 1], job, sb, snapshot, i);
    }
  }

  /** Equal size and mtime mean equal content, for every file that was there before. */
  ghost predicate StampsTell(before: map<string, string>, snapshot: map<string, Stamp>, sb: Sandbox) {
    forall n :: n in snapshot && n in sb.top && sb.top[n].Regular? && snapshot[n] == sb.top[n].stamp ==>
                  n in before && before[n] == sb.top[n].content
  }

  /**
   * Overlaying the default plan on what was there before the job reproduces every final top-level
   * regular file other than the stdio files and the two reserved names, and sends no name twice.
   */
  lemma DefaultPlanReproduces(job: Job, sb: Sandbox, snapshot: map<string, Stamp>, outFirst: bool, names: seq<string>,
                              before: map<string, string>, n: string)
    requires DefaultOrder(names, sb) && StampsTell(before, snapshot, sb)
    requires SentOnce(StdioFiles(job, sb, outFirst) + Selected(names, job, sb, snapshot))
    requires n in sb.top && sb.top[n].Regular? && n != "" && !IsStdio(job, n) && !Reserved(n)
    ensures var after := Overlay(before, StdioFiles(job, sb, outFirst) + Selected(names, job, sb, snapshot));
            n in after && after[n] == sb.top[n].content
  {
    var base, picked := StdioFiles(job, sb, outFirst), Selected(names, job, sb, snapshot);
    var files := base + picked;
    SelectedHas(names, job, sb, snapshot, n);
    HasConcat(base, picked, n);
    StdioWires(job, sb, outFirst, n);
    hide StdioFiles, Selected, SentOnce, IsStdio, Overlay;
    if Changed(n, sb.top[n], snapshot) {
      var i :| 0 <= i < |picked| && picked[i].wire == n;
      SelectedContent(names, job, sb, snapshot, i);
      assert files[|base| + i] == picked[i];
      OverlayAt(before, files, |base| + i);
    } else {
      OverlayElsewhere(before, files, n);
    }
  }

  /** The plan entry sends the regular file at that path, with its own mode, size and content. */
  predicate Sends(f: FileSpec, sb: Sandbox, path: string) {
    && path in sb.paths && sb.paths[path].Regular?
    && f.mode == sb.paths[path].mode && f.size == sb.paths[path].stamp.size && f.content == sb.paths[path].content
  }

  /** A stdio path that was captured in the sandbox, as a regular file that is there. */
  predicate Written(path: string, sb: Sandbox) {
    path != "" && path != "/dev/null" && path[0] != '/' && path in sb.paths && sb.paths[path].Regular?
  }

  /** The stdio part of a plan: stdout and stderr, each if it was captured and is there, in one order or the other. */
  lemma StdioSent(job: Job, sb: Sandbox, outFirst: bool)
    ensures var files := StdioFiles(job, sb, outFirst);
            && (Has(files, STDOUT_NAME) <==> Written(job.out.path, sb)) && (Has(files, STDERR_NAME) <==> Written(job.err.path, sb))
            && forall i :: 0 <= i < |files| ==>
                 || (files[i].wire == STDOUT_NAME && Sends(files[i], sb, job.out.path))
                 || (files[i].wire == STDERR_NAME && Sends(files[i], sb, job.err.path))
  {
    var o, e := StdioFile(job.out, STDOUT_NAME, sb), StdioFile(job.err, STDERR_NAME, sb);
    assert STDOUT_NAME != STDERR_NAME by { assert STDOUT_NAME[11] != STDERR_NAME[11]; }
    OneStdio(job.out, STDOUT_NAME, sb, STDOUT_NAME);
    OneStdio(job.out, STDOUT_NAME, sb, STDERR_NAME);
    OneStdio(job.err, STDERR_NAME, sb, STDOUT_NAME);
    OneStdio(job.err, STDERR_NAME, sb, STDERR_NAME);
    hide StdioFile, Has, Written, Sends;
    HasConcat(o, e, STDOUT_NAME);
    HasConcat(o, e, STDERR_NAME);
    HasConcat(e, o, STDOUT_NAME);
    HasConcat(e, o, STDERR_NAME);
  }

  lemma OneStdio(s: Stdio, wire: string, sb: Sandbox, w: string)
    ensures var files := StdioFile(s, wire, sb);
            && (Has(files, w) <==> w == wire && Written(s.path, sb))
            && forall i :: 0 <= i < |files| ==> files[i].wire == wire && Sends(files[i], sb, s.path)
  {
    var files := StdioFile(s, wire, sb);
    assert Written(s.path, sb) ==> files[0].wire == wire;
  }

  /** Captured stdio arrives under its remap name. */
  lemma StdioArrives(job: Job, sb: Sandbox, outFirst: bool, more: seq<FileSpec>, before: map<string, string>)
    requires SentOnce(StdioFiles(job, sb, outFirst) + more)
    ensures var after := Overlay(before, StdioFiles(job, sb, outFirst) + more);
            && (Written(job.out.path, sb) ==> STDOUT_NAME in after && after[STDOUT_NAME] == sb.paths[job.out.path].content)
            && (Written(job.err.path, sb) ==> STDERR_NAME in after && after[STDERR_NAME] == sb.paths[job.err.path].content)
  {
    StdioSent(job, sb, outFirst);
    hide StdioFiles, SentOnce;
    if Written(job.out.path, sb) { WireArrives(job, sb, outFirst, more, before, STDOUT_NAME); }
    if Written(job.err.path, sb) { WireArrives(job, sb, outFirst, more, before, STDERR_NAME); }
  }

  lemma WireArrives(job: Job, sb: Sandbox, outFirst: bool, more: seq<FileSpec>, before: map<string, string>, wire: string)
    requires SentOnce(StdioFiles(job, sb, outFirst) + more) && wire in {STDOUT_NAME, STDERR_NAME} && Has(StdioFiles(job, sb, outFirst), wire)
    ensures var after := Overlay(before, StdioFiles(job, sb, outFirst) + more);
            var path := if wire == STDOUT_NAME then job.out.path else job.err.path;
            wire in after && path in sb.paths && sb.paths[path].Regular? && after[wire] == sb.paths[path].content
  {
    assert STDOUT_NAME[11] != STDERR_NAME[11];
    StdioSent(job, sb, outFirst);
    hide StdioFiles, SentOnce, Overlay;
    var base := StdioFiles(job, sb, outFirst);
    var i :| 0 <= i < |base| && base[i].wire == wire;
    assert (base + more)[i] == base[i];
    OverlayAt(before, base + more, i);
  }

  /** A top-level regular file that is new or has another size or time than before, and is neither stdio nor reserved. */
  predicate New(n: string, job: Job, sb: Sandbox, snapshot: map<string, Stamp>) {
    && n != "" && n in sb.top && sb.top[n].Regular? && n != "_condor_stdout" && n != "_condor_stderr"
    && !(n == job.out.cleaned && job.out.path != "" && job.out.path != "/dev/null" && job.out.path[0] != '/')
    && !(n == job.err.cleaned && job.err.path != "" && job.err.path != "/dev/null" && job.err.path[0] != '/')
    && (n in snapshot ==> snapshot[n].size != sb.top[n].stamp.size || snapshot[n].mtime != sb.top[n].stamp.mtime)
  }

  /** The default plan sends exactly the stdio files and the new files, each as it is. */
  lemma DefaultPlanSends(job: Job, sb: Sandbox, snapshot: map<string, Stamp>, outFirst: bool, names: seq<string>, w: string)
    requires DefaultOrder(names, sb) && sb.Consistent()
    ensures var files := StdioFiles(job, sb, outFirst) + Selected(names, job, sb, snapshot);
            && (Has(files, w) <==> (w == STDOUT_NAME && Written(job.out.path, sb)) || (w == STDERR_NAME && Written(job.err.path, sb))
                                   || New(w, job, sb, snapshot))
            && forall i :: 0 <= i < |files| ==>
                 Sends(files[i], sb, if files[i].wire == STDOUT_NAME then job.out.path
                                     else if files[i].wire == STDERR_NAME then job.err.path else files[i].wire)
  {
    var base, picked := StdioFiles(job, sb, outFirst), Selected(names, job, sb, snapshot);
    StdioSent(job, sb, outFirst);
    StdioWires(job, sb, outFirst, w);
    SelectedHas(names, job, sb, snapshot, w);
    HasConcat(base, picked, w);
    assert STDOUT_NAME[11] != STDERR_NAME[11];
    assert Picks(w, job, sb, snapshot) <==> New(w, job, sb, snapshot);
    hide StdioFiles, Selected, Has;
    var files := base + picked;
    forall i | 0 <= i < |files|
      ensures Sends(files[i], sb, if files[i].wire == STDOUT_NAME then job.out.path
                                  else if files[i].wire == STDERR_NAME then job.err.path else files[i].wire)
    {
      if i >= |base| { PickedSends(names, job, sb, snapshot, i - |base|); }
    }
  }

  lemma PickedSends(names: seq<string>, job: Job, sb: Sandbox, snapshot: map<string, Stamp>, i: nat)
    requires sb.Consistent() && i < |Selected(names, job, sb, snapshot)|
    ensures var f := Selected(names, job, sb, snapshot)[i]; !Reserved(f.wire) && Sends(f, sb, f.wire)
  {
    SelectedContent(names, job, sb, snapshot, i);
    var f := Selected(names, job, sb, snapshot)[i];
    assert Has(Selected(names, job, sb, snapshot), f.wire);
    SelectedHas(names, job, sb, snapshot, f.wire);
    hide Selected;
  }

  /** A sandbox the job has not touched gives nothing but stdio. */
  lemma UntouchedSendsNothing(job: Job, sb: Sandbox, n: string)
    ensures !New(n, job, sb, Snapshot(sb.top))
  {
  }

  /** The explicit plan fails exactly at a named file that is missing or irregular, unless its name is taken. */
  lemma {:induction false} ListedFailsIff(files: seq<FileSpec>, list: seq<string>, sb: Sandbox)
    ensures Listed(files, list, sb).None? <==>
              exists i :: 0 <= i < |list| && list[i] != "" && !Has(files, list[i])
                          && !(list[i] in sb.paths && sb.paths[list[i]].Regular?)
    ensures Listed(files, list, sb).Some? ==>
              forall w :: Has(Listed(files, list, sb).value, w) <==> Has(files, w) || (w in list && w != "")
    ensures Listed(files, list, sb).Some? ==>
              var all := Listed(files, list, sb).value;
              |files| <= |all| && all[..|files|] == files && forall i :: |files| <= i < |all| ==> Sends(all[i], sb, all[i].wire)
  {
    if list != [] {
      var k := |list| - 1;
      ListedFailsIff(files, list[..k], sb);
      assert list == list[..k] + [list[k]];
      assert forall i :: 0 <= i < k ==> list[..k][i] == list[i];
      if Listed(files, list[..k], sb).Some? {
        var more := Listed(files, list[..k], sb).value;
        ListedStep(more, list[k], sb);
      }
    }
  }

  lemma ListedStep(more: seq<FileSpec>, w: string, sb: Sandbox)
    ensures Added(more, sb, w, w, true).Some? ==>
              forall x :: Has(Added(more, sb, w, w, true).value, x) <==> Has(more, x) || (x == w && w != "")
  {
    if w != "" && !Has(more, w) && w in sb.paths && sb.paths[w].Regular? {
      forall x ensures Has(more + [Spec(w, sb.paths[w])], x) <==> Has(more, x) || x == w {
        HasConcat(more, [Spec(w, sb.paths[w])], x);
        assert [Spec(w, sb.paths[w])][0].wire == w;
      }
    }
  }
}
