/**
 * The release order of the workspace: `release_graph`, `stage_manifest` and the loop of
 * `static_closure`.
 *
 * A manifest's dependency tables are listed in the order in which `_deps` yields them. Files,
 * archives and the index are outside; checks on them may fail.
 */
module ReleaseGraph {
  import opened Checked

  const REGISTRY: string := "p24-stage"

  datatype Error =
    | DagPublic | DagDep | DagCycle
    | ManifestPath | ManifestPackage | ManifestWorkspace | ManifestVersion | ManifestDep
    | StageNotReady | ArchiveId | Outside

  datatype Result<+T> = Done(value: T) | Failed(error: Error) {
    predicate IsFailure() { Failed? }

    function PropagateFailure<U>(): Result<U>
      requires IsFailure()
    {
      Failed(error)
    }

    function Extract(): T
      requires !IsFailure()
    {
      value
    }
  }

  /** `Bare` is a plain version string. */
  datatype Dep = Bare | Spec(package: Option<string>, path: Option<string>, version: Option<string>,
      registry: Option<string>)

  datatype Entry = Entry(alias: string, dep: Dep)

  datatype Table = NotTable | Table(entries: seq<Entry>)

  datatype Value = Inherited | Text(text: string) | Flag(on: bool) | Other(code: nat)

  /** `pathsGood` stands for the checks of `_manifest_paths`. */
  datatype Manifest = Manifest(package: map<string, Value>, pathsGood: bool, tables: seq<Table>)

  function PackageOf(e: Entry): string {
    if e.dep.Spec? && e.dep.package.Some? then e.dep.package.value else e.alias
  }

  predicate IsPathDep(e: Entry) { e.dep.Spec? && e.dep.path.Some? }

  predicate InternalPath(path: string, package: string) { path == "../" + package }

  ghost predicate HasEntry(m: Manifest, e: Entry) {
    exists t :: t in m.tables && t.Table? && e in t.entries
  }

  /** The packages of the manifest's path dependencies. */
  ghost predicate LinksTo(m: Manifest, package: string) {
    exists e :: HasEntry(m, e) && IsPathDep(e) && PackageOf(e) == package
  }

  /** Path dependencies are on the workspace's own packages, at their places, and these are never named otherwise. */
  predicate GoodEntry(e: Entry, names: set<string>) {
    e.dep.Spec? ==>
      if e.dep.path.Some? then PackageOf(e) in names && InternalPath(e.dep.path.value, PackageOf(e))
      else PackageOf(e) !in names
  }

  ghost predicate GoodManifest(name: string, m: Manifest, names: set<string>) {
    && "name" in m.package && m.package["name"] == Text(name)
    && NotTable !in m.tables
    && forall e :: HasEntry(m, e) ==> GoodEntry(e, names)
  }

  // Sorted lists without repetition.

  predicate Less(a: string, b: string) {
    b != [] && (a == [] || a[0] < b[0] || (a[0] == b[0] && Less(a[1..], b[1..])))
  }

  lemma {:induction false} LessIsTotal(a: string, b: string)
    ensures a == b || Less(a, b) || Less(b, a)
  {
    if a != [] && b != [] && a[0] == b[0] {
      LessIsTotal(a[1..], b[1..]);
      assert a == [a[0]] + a[1..] && b == [b[0]] + b[1..];
    }
  }

  lemma {:induction false} LessIsTransitive(a: string, b: string, c: string)
    requires Less(a, b) && Less(b, c)
    ensures Less(a, c)
  {
    if a != [] && a[0] == b[0] == c[0] {
      LessIsTransitive(a[1..], b[1..], c[1..]);
    }
  }

  predicate Sorted(s: seq<string>) {
    forall i, j :: 0 <= i < j < |s| ==> Less(s[i], s[j])
  }

  function Insert(s: seq<string>, x: string): (r: seq<string>)
    ensures forall y :: y in r <==> y in s || y == x
  {
    if s == [] then [x]
    else if x == s[0] then s
    else if Less(x, s[0]) then [x] + s
    else
      assert s == [s[0]] + s[1..];
      [s[0]] + Insert(s[1..], x)
  }

  lemma {:induction false} InsertSorted(s: seq<string>, x: string)
    requires Sorted(s)
    ensures Sorted(Insert(s, x))
  {
    if s != [] && x != s[0] {
      LessIsTotal(x, s[0]);
      if Less(x, s[0]) {
        forall i | 0 <= i < |s| ensures Less(x, s[i]) {
          if i != 0 {
            LessIsTransitive(x, s[0], s[i]);
          }
        }
      } else {
        InsertSorted(s[1..], x);
        var r := Insert(s[1..], x);
        forall i | 0 <= i < |r| ensures Less(s[0], r[i]) {
          assert r[i] in r;
        }
      }
    }
  }

  // Graphs.

  type Graph = map<string, seq<string>>

  /** Every link leads to a package of the graph. */
  ghost predicate Closed(g: Graph) {
    forall n, d :: n in g && d in g[n] ==> d in g
  }

  ghost predicate Walk(g: Graph, w: seq<string>) {
    && (forall i :: 0 <= i < |w| ==> w[i] in g)
    && (forall i :: 0 <= i < |w| - 1 ==> w[i + 1] in g[w[i]])
  }

  ghost predicate HasCycle(g: Graph) {
    exists w :: 2 <= |w| && Walk(g, w) && w[0] == w[|w| - 1]
  }

  /** Each package comes once, after everything it links to. */
  ghost predicate DepsFirst(g: Graph, ordered: seq<string>) {
    && Distinct(ordered)
    && (forall k :: 0 <= k < |ordered| ==> ordered[k] in g)
    && (forall k, d :: 0 <= k < |ordered| && d in g[ordered[k]] ==> d in ordered[..k])
  }

  lemma {:induction false} WalksGoDown(g: Graph, ordered: seq<string>, w: seq<string>, i: nat, j: nat)
    requires DepsFirst(g, ordered) && Walk(g, w) && w != []
    requires i < |ordered| && ordered[i] == w[0] && j < |ordered| && ordered[j] == w[|w| - 1] && 2 <= |w|
    ensures j < i
    decreases |w|
  {
    assert w[1] in g[w[0]];
    var k :| 0 <= k < i && ordered[..i][k] == w[1];
    if 2 < |w| {
      var rest := w[1..];
      assert forall n :: 0 <= n < |rest| - 1 ==> rest[n + 1] in g[rest[n]];
      WalksGoDown(g, ordered, rest, k, j);
    }
  }

  lemma OrderExcludesCycles(g: Graph, ordered: seq<string>)
    requires DepsFirst(g, ordered) && forall n :: n in g ==> n in ordered
    ensures !HasCycle(g)
  {
    if w :| 2 <= |w| && Walk(g, w) && w[0] == w[|w| - 1] {
      assert w[0] in ordered;
      var i :| 0 <= i < |ordered| && ordered[i] == w[0];
      WalksGoDown(g, ordered, w, i, i);
    }
  }

  /** States 1 and 2 are open and done; `path` holds the open packages, each linked from the one before. */
  ghost predicate Marks(g: Graph, state: map<string, nat>, ordered: seq<string>, path: seq<string>) {
    && (forall n :: n in state ==> n in g && state[n] in {1, 2})
    && Walk(g, path) && Distinct(path)
    && (forall n :: n in path <==> n in state && state[n] == 1)
    && (forall n :: n in ordered <==> n in state && state[n] == 2)
    && DepsFirst(g, ordered)
  }

  lemma Opens(g: Graph, state: map<string, nat>, ordered: seq<string>, path: seq<string>, name: string)
    requires Marks(g, state, ordered, path) && name in g && name !in state
    requires path != [] ==> name in g[path[|path| - 1]]
    ensures Marks(g, state[name := 1], ordered, path + [name])
  {
    PathGrows(g, path, name);
  }

  lemma Closes(g: Graph, state: map<string, nat>, ordered: seq<string>, path: seq<string>, name: string)
    requires Marks(g, state, ordered, path + [name]) && name in g && name !in path
    requires forall d :: d in g[name] ==> d in ordered
    ensures Marks(g, state[name := 2], ordered + [name], path)
  {
    var longer := path + [name];
    assert longer[|path|] == name;
    assert name in longer && name !in ordered;
    OrderGrows(g, ordered, name);
    forall i | 0 <= i < |path| ensures path[i] == longer[i] && path[i] in g {
    }
    forall n ensures n in path <==> n in longer && n != name {
    }
  }

  lemma Revisits(g: Graph, state: map<string, nat>, ordered: seq<string>, path: seq<string>, name: string)
    requires Marks(g, state, ordered, path) && name in state && name in g
    requires path != [] ==> name in g[path[|path| - 1]]
    ensures if state[name] == 1 then HasCycle(g) else state[name] == 2 && name in ordered
  {
    if state[name] == 1 {
      CycleFound(g, path, name);
    }
  }

  /** The nested function `visit` with the variables it changes. */
  class Visitor {
    const g: Graph
    var state: map<string, nat>
    var ordered: seq<string>

    ghost predicate Valid(path: seq<string>)
      reads this
    {
      Closed(g) && Marks(g, state, ordered, path)
    }

    constructor (g: Graph)
      requires Closed(g)
      ensures Valid([]) && this.g == g
    {
      this.g, state, ordered := g, map[], [];
    }

    method Visit(name: string, ghost path: seq<string>) returns (ok: bool)
      requires Valid(path) && name in g && (path != [] ==> name in g[path[|path| - 1]])
      modifies this
      ensures ok ==> Valid(path) && name in ordered && old(ordered) <= ordered && old(state.Keys) <= state.Keys
      ensures !ok ==> HasCycle(g)
      decreases g.Keys - state.Keys
    {
      hide Marks, HasCycle;
      if name in state {
        Revisits(g, state, ordered, path, name);
        return state[name] == 2;
      }
      Opens(g, state, ordered, path, name);
      NotOnPath(g, state, ordered, path, name);
      state := state[name := 1];
      ghost var longer := path + [name];
      var deps := g[name];
      for i := 0 to |deps|
        invariant Valid(longer) && old(ordered) <= ordered && old(state.Keys) + {name} <= state.Keys
        invariant forall k :: 0 <= k < i ==> deps[k] in ordered
      {
        assert deps[i] in g[name] && deps[i] in g;
        var visited := Visit(deps[i], longer);
        if !visited {
          return false;
        }
      }
      Closes(g, state, ordered, path, name);
      state := state[name := 2];
      ordered := ordered + [name];
      return true;
    }
  }

  lemma NotOnPath(g: Graph, state: map<string, nat>, ordered: seq<string>, path: seq<string>, name: string)
    requires Marks(g, state, ordered, path) && name !in state
    ensures name !in path
  {
  }

  lemma CycleFound(g: Graph, path: seq<string>, name: string)
    requires Walk(g, path) && name in path && name in g[path[|path| - 1]] && name in g
    ensures HasCycle(g)
  {
    var i :| 0 <= i < |path| && path[i] == name;
    var w := path[i..] + [name];
    assert forall n :: 0 <= n < |w| - 1 ==> w[n] == path[i + n];
    assert Walk(g, w);
  }

  lemma PathGrows(g: Graph, path: seq<string>, name: string)
    requires Walk(g, path) && Distinct(path) && name in g && name !in path
    requires path != [] ==> name in g[path[|path| - 1]]
    ensures Walk(g, path + [name]) && Distinct(path + [name])
  {
  }

  lemma OrderGrows(g: Graph, ordered: seq<string>, name: string)
    requires DepsFirst(g, ordered) && name in g && name !in ordered
    requires forall d :: d in g[name] ==> d in ordered
    ensures DepsFirst(g, ordered + [name])
  {
    var more := ordered + [name];
    forall k, d | 0 <= k < |more| && d in g[more[k]] ensures d in more[..k] {
      if k < |ordered| {
        assert more[..k] == ordered[..k];
      } else {
        assert more[..k] == ordered;
      }
    }
  }

  // Reading the links.

  method LinksOfEntries(entries: seq<Entry>, names: set<string>, links0: seq<string>) returns (r: Result<seq<string>>)
    requires Sorted(links0)
    ensures r.Done? <==> forall e :: e in entries ==> GoodEntry(e, names)
    ensures r.Failed? ==> r.error == DagDep
    ensures r.Done? ==> Sorted(r.value)
    ensures r.Done? ==>
              forall p :: p in r.value <==> p in links0 || exists e :: e in entries && IsPathDep(e) && PackageOf(e) == p
  {
    hide GoodEntry, Sorted;
    var links := links0;
    for i := 0 to |entries|
      invariant Sorted(links) && forall k :: 0 <= k < i ==> GoodEntry(entries[k], names)
      invariant forall p ::
                  p in links <==> p in links0 || exists e :: e in entries[..i] && IsPathDep(e) && PackageOf(e) == p
    {
      var e := entries[i];
      assert e in entries && entries[..i + 1] == entries[..i] + [e];
      EntryCases(e, names);
      if e.dep.Spec? {
        if e.dep.path.Some? {
          if PackageOf(e) !in names || !InternalPath(e.dep.path.value, PackageOf(e)) {
            return Failed(DagDep);
          }
          InsertSorted(links, PackageOf(e));
          links := Insert(links, PackageOf(e));
        } else if PackageOf(e) in names {
          return Failed(DagDep);
        }
      }
    }
    assert entries[..|entries|] == entries;
    return Done(links);
  }

  lemma EntryCases(e: Entry, names: set<string>)
    ensures GoodEntry(e, names) <==>
              (e.dep.Spec? ==>
                 if e.dep.path.Some? then PackageOf(e) in names && InternalPath(e.dep.path.value, PackageOf(e))
                 else PackageOf(e) !in names)
  {
  }

  ghost predicate EntryIn(tables: seq<Table>, e: Entry) {
    exists t :: t in tables && t.Table? && e in t.entries
  }

  lemma EntryInMore(tables: seq<Table>, entries: seq<Entry>, e: Entry)
    ensures EntryIn(tables + [Table(entries)], e) <==> EntryIn(tables, e) || e in entries
  {
    var more := tables + [Table(entries)];
    if EntryIn(tables, e) {
      var t :| t in tables && t.Table? && e in t.entries;
      assert t in more;
    }
    if e in entries {
      assert more[|tables|] == Table(entries);
    }
  }

  /** The first fault that reading the tables one after the other meets. */
  function LinkError(tables: seq<Table>, names: set<string>): Option<Error> {
    if tables == [] then None
    else if tables[0].NotTable? then Some(ManifestDep)
    else if exists e :: e in tables[0].entries && !GoodEntry(e, names) then Some(DagDep)
    else LinkError(tables[1..], names)
  }

  /** The body of the loop over the manifests: the packages it links to, sorted, or its first fault. */
  method LinksOf(name: string, m: Manifest, names: set<string>) returns (r: Result<seq<string>>)
    ensures r.Done? <==> GoodManifest(name, m, names)
    ensures r.Failed? ==>
              Some(r.error)
              == if "name" !in m.package || m.package["name"] != Text(name) then Some(DagPublic)
                 else LinkError(m.tables, names)
    ensures r.Done? ==> Sorted(r.value) && forall p :: p in r.value <==> LinksTo(m, p)
  {
    hide Sorted, GoodEntry, EntryIn, IsPathDep;
    if "name" !in m.package || m.package["name"] != Text(name) {
      return Failed(DagPublic);
    }
    var links: seq<string> := [];
    assert Sorted(links) by { NothingIsSorted(); }
    assert m.tables[0..] == m.tables;
    NothingEntered(m.tables);
    for i := 0 to |m.tables|
      invariant Sorted(links) && forall k :: 0 <= k < i ==> m.tables[k] != NotTable
      invariant LinkError(m.tables, names) == LinkError(m.tables[i..], names)
      invariant forall e :: EntryIn(m.tables[..i], e) ==> GoodEntry(e, names)
      invariant forall p :: p in links <==> exists e :: EntryIn(m.tables[..i], e) && IsPathDep(e) && PackageOf(e) == p
    {
      var table := m.tables[i];
      assert m.tables[i..][0] == table && m.tables[i..][1..] == m.tables[i + 1..];
      if table.NotTable? {
        assert NotTable in m.tables;
        return Failed(ManifestDep);
      }
      assert m.tables[..i + 1] == m.tables[..i] + [Table(table.entries)];
      forall e ensures EntryIn(m.tables[..i + 1], e) <==> EntryIn(m.tables[..i], e) || e in table.entries {
        EntryInMore(m.tables[..i], table.entries, e);
      }
      var more := LinksOfEntries(table.entries, names, links);
      if more.Failed? {
        BadEntry(name, m, names, i);
        return Failed(more.error);
      }
      links := more.value;
    }
    assert m.tables[..|m.tables|] == m.tables;
    HasEntryIsIn(m);
    return Done(links);
  }

  lemma {:induction false} LinkErrors(tables: seq<Table>, names: set<string>)
    ensures LinkError(tables, names) in {None, Some(DagDep), Some(ManifestDep)}
  {
    if tables != [] {
      LinkErrors(tables[1..], names);
    }
  }

  lemma NothingIsSorted()
    ensures Sorted([])
  {
  }

  lemma NothingEntered(tables: seq<Table>)
    ensures forall e :: !EntryIn(tables[..0], e)
  {
  }

  lemma HasEntryIsIn(m: Manifest)
    ensures forall e :: HasEntry(m, e) <==> EntryIn(m.tables, e)
  {
  }

  lemma BadEntry(name: string, m: Manifest, names: set<string>, i: nat)
    requires i < |m.tables| && m.tables[i].Table? && exists e :: e in m.tables[i].entries && !GoodEntry(e, names)
    ensures !GoodManifest(name, m, names)
  {
    var e :| e in m.tables[i].entries && !GoodEntry(e, names);
    assert m.tables[i] in m.tables;
    assert HasEntry(m, e);
  }

  // The release order.

  type Manifests = map<string, Manifest>

  ghost predicate LinkWalk(manifests: Manifests, w: seq<string>) {
    && (forall i :: 0 <= i < |w| ==> w[i] in manifests)
    && (forall i :: 0 <= i < |w| - 1 ==> LinksTo(manifests[w[i]], w[i + 1]))
  }

  ghost predicate LinksHaveCycle(manifests: Manifests) {
    exists w :: 2 <= |w| && LinkWalk(manifests, w) && w[0] == w[|w| - 1]
  }

  ghost predicate AllGood(manifests: Manifests) {
    forall n :: n in manifests ==> GoodManifest(n, manifests[n], manifests.Keys)
  }

  /** Each package once, after every package that it has a path dependency on. */
  ghost predicate ReleaseOrder(manifests: Manifests, ordered: seq<string>) {
    && Distinct(ordered)
    && (forall n :: n in ordered <==> n in manifests)
    && (forall k, p :: 0 <= k < |ordered| && LinksTo(manifests[ordered[k]], p) ==> p in ordered[..k])
  }

  /** The graph holds exactly the links of the manifests. */
  ghost predicate Depicts(g: Graph, manifests: Manifests) {
    && g.Keys == manifests.Keys
    && forall n, p :: n in g ==> (p in g[n] <==> LinksTo(manifests[n], p))
  }

  lemma DepictedCycles(g: Graph, manifests: Manifests)
    requires Depicts(g, manifests)
    ensures HasCycle(g) <==> LinksHaveCycle(manifests)
  {
    hide LinksTo;
    if w :| 2 <= |w| && Walk(g, w) && w[0] == w[|w| - 1] {
      assert LinkWalk(manifests, w);
    }
    if w :| 2 <= |w| && LinkWalk(manifests, w) && w[0] == w[|w| - 1] {
      assert Walk(g, w);
    }
  }

  lemma GoodLinksAreClosed(g: Graph, manifests: Manifests)
    requires Depicts(g, manifests) && AllGood(manifests)
    ensures Closed(g)
  {
    forall n, d | n in g && d in g[n] ensures d in g {
      var e :| HasEntry(manifests[n], e) && IsPathDep(e) && PackageOf(e) == d;
      assert GoodEntry(e, manifests.Keys);
    }
  }

  method BuildGraph(manifests: Manifests, order: seq<string>) returns (r: Result<Graph>)
    requires forall n :: n in order <==> n in manifests
    ensures r.Done? <==> AllGood(manifests)
    ensures r.Failed? ==> r.error in {DagPublic, DagDep, ManifestDep}
    ensures r.Done? ==> Depicts(r.value, manifests)
  {
    hide GoodManifest, LinksTo, Sorted;
    var g: Graph := map[];
    for i := 0 to |order|
      invariant forall n :: n in g <==> n in order[..i]
      invariant forall k :: 0 <= k < i ==> GoodManifest(order[k], manifests[order[k]], manifests.Keys)
      invariant forall n, p :: n in g ==> (p in g[n] <==> LinksTo(manifests[n], p))
    {
      var name := order[i];
      assert name in order && order[..i + 1] == order[..i] + [name];
      var links := LinksOf(name, manifests[name], manifests.Keys);
      if links.Failed? {
        LinkErrors(manifests[name].tables, manifests.Keys);
        return Failed(links.error);
      }
      g := g[name := links.value];
    }
    assert order[..|order|] == order;
    return Done(g);
  }

  method SortedNames(order: seq<string>) returns (names: seq<string>)
    ensures Sorted(names) && forall n :: n in names <==> n in order
  {
    names := [];
    for i := 0 to |order|
      invariant Sorted(names) && forall n :: n in names <==> n in order[..i]
    {
      assert order[..i + 1] == order[..i] + [order[i]];
      InsertSorted(names, order[i]);
      names := Insert(names, order[i]);
    }
    assert order[..|order|] == order;
  }

  /**
   * `release_graph`. `order` is the order in which the dictionary lists its keys. A cycle is
   * reported exactly if the links, all valid, contain one; otherwise there is a release order.
   */
  method ReleaseList(manifests: Manifests, order: seq<string>, public: set<string>, workspaceGiven: bool)
    returns (r: Result<seq<string>>)
    requires forall n :: n in order <==> n in manifests
    ensures r.Done? <==>
              manifests.Keys == public && workspaceGiven && AllGood(manifests) && !LinksHaveCycle(manifests)
    ensures r == Failed(DagCycle) <==>
              manifests.Keys == public && workspaceGiven && AllGood(manifests) && LinksHaveCycle(manifests)
    ensures r.Done? ==> ReleaseOrder(manifests, r.value)
    ensures r.Failed? ==> r.error in {DagPublic, DagDep, ManifestDep, DagCycle}
  {
    hide AllGood, LinksHaveCycle, Depicts, HasCycle, Closed;
    if manifests.Keys != public || !workspaceGiven {
      return Failed(DagPublic);
    }
    var g :- BuildGraph(manifests, order);
    GoodLinksAreClosed(g, manifests);
    DepictedCycles(g, manifests);
    var sorted := SortedNames(order);
    var list := VisitAll(g, sorted, manifests);
    if list.None? {
      return Failed(DagCycle);
    }
    return Done(list.value);
  }

  method VisitAll(g: Graph, names: seq<string>, ghost manifests: Manifests) returns (r: Option<seq<string>>)
    requires Closed(g) && Depicts(g, manifests) && forall n :: n in names <==> n in manifests
    ensures r.None? <==> HasCycle(g)
    ensures r.Some? ==> ReleaseOrder(manifests, r.value)
  {
    hide HasCycle, Marks, LinksTo;
    var visitor := new Visitor(g);
    for i := 0 to |names|
      invariant visitor.Valid([]) && visitor.g == g
      invariant forall k :: 0 <= k < i ==> names[k] in visitor.ordered
    {
      assert names[i] in names && names[i] in g;
      var ok := visitor.Visit(names[i], []);
      if !ok {
        return None;
      }
    }
    MarkedOrder(g, visitor.state, visitor.ordered);
    assert forall n :: n in g ==> n in names;
    OrderExcludesCycles(g, visitor.ordered);
    return Some(visitor.ordered);
  }

  lemma MarkedOrder(g: Graph, state: map<string, nat>, ordered: seq<string>)
    requires Marks(g, state, ordered, [])
    ensures DepsFirst(g, ordered)
  {
  }

  // Staging one manifest.

  /** The pattern `[0-9]+\.[0-9]+\.[0-9]+`, from part number `part` on. */
  predicate ReleaseFrom(v: string, part: nat, digits: bool) {
    if v == [] then part == 2 && digits
    else if '0' <= v[0] <= '9' then ReleaseFrom(v[1..], part, true)
    else v[0] == '.' && digits && part < 2 && ReleaseFrom(v[1..], part + 1, false)
  }

  predicate IsRelease(v: string) { ReleaseFrom(v, 0, false) }

  predicate AllDigits(s: string) { forall i :: 0 <= i < |s| ==> '0' <= s[i] <= '9' }

  lemma {:induction false} DigitsThenDot(a: string, rest: string, part: nat, digits: bool)
    requires AllDigits(a) && part < 2 && (digits || a != [])
    ensures ReleaseFrom(a + "." + rest, part, digits) == ReleaseFrom(rest, part + 1, false)
  {
    var v := a + "." + rest;
    if a == [] {
      assert v[0] == '.' && v[1..] == rest;
    } else {
      assert v[0] == a[0] && v[1..] == a[1..] + "." + rest;
      if |a| == 1 {
        DigitsThenDot([], rest, part, true);
        assert a[1..] == [];
      } else {
        DigitsThenDot(a[1..], rest, part, true);
      }
    }
  }

  lemma {:induction false} LastPart(v: string, digits: bool)
    ensures ReleaseFrom(v, 2, digits) <==> AllDigits(v) && (digits || v != [])
  {
    if v != [] {
      LastPart(v[1..], true);
      assert v == [v[0]] + v[1..];
    }
  }

  lemma {:induction false} SplitPart(v: string, part: nat, digits: bool) returns (a: string, rest: string)
    requires part < 2 && ReleaseFrom(v, part, digits)
    ensures v == a + "." + rest && AllDigits(a) && (digits || a != []) && ReleaseFrom(rest, part + 1, false)
  {
    if v[0] == '.' {
      a, rest := [], v[1..];
      assert v == ['.'] + v[1..];
    } else {
      a, rest := SplitPart(v[1..], part, true);
      assert v == [v[0]] + v[1..];
      a := [v[0]] + a;
    }
  }

  ghost predicate ThreeNumbers(v: string, a: string, b: string, c: string) {
    && a != [] && b != [] && c != [] && AllDigits(a) && AllDigits(b) && AllDigits(c)
    && v == a + "." + (b + "." + c)
  }

  /** A released version is three decimal numbers separated by dots, and nothing else. */
  lemma ReleaseIsThreeNumbers(v: string)
    ensures IsRelease(v) <==> exists a, b, c :: ThreeNumbers(v, a, b, c)
  {
    if IsRelease(v) {
      var a, rest := SplitPart(v, 0, false);
      var b, c := SplitPart(rest, 1, false);
      LastPart(c, false);
      assert ThreeNumbers(v, a, b, c);
    }
    if a, b, c :| ThreeNumbers(v, a, b, c) {
      DigitsThenDot(a, b + "." + c, 0, false);
      DigitsThenDot(b, c, 1, false);
      LastPart(c, false);
    }
  }

  predicate IsReady(ready: map<string, string>, name: string) { name in ready && IsRelease(ready[name]) }

  function StagedEntry(e: Entry, public: set<string>, ready: map<string, string>): (r: Result<Entry>)
    ensures r.Done? ==> !IsPathDep(r.value) && PackageOf(r.value) == PackageOf(e)
    ensures r == Failed(StageNotReady) ==> IsPathDep(e) && !IsReady(ready, PackageOf(e))
  {
    if !IsPathDep(e) then Done(e)
    else
      var name := PackageOf(e);
      if name !in public || !InternalPath(e.dep.path.value, name) then Failed(ManifestDep)
      else if !IsReady(ready, name) then Failed(StageNotReady)
      else
        var exact := "=" + ready[name];
        if e.dep.registry.Some? || (e.dep.version.Some?
            && e.dep.version.value !in {ready[name], exact}) then Failed(ManifestDep)
        else Done(Entry(e.alias, e.dep.(path := None, version := Some(exact), registry := Some(REGISTRY))))
  }

  /** Entry by entry, what staging makes of a table. */
  ghost predicate StagedTable(t: Table, u: Table, public: set<string>, ready: map<string, string>) {
    && t.Table? && u.Table? && |u.entries| == |t.entries|
    && forall i :: 0 <= i < |t.entries| ==> StagedEntry(t.entries[i], public, ready) == Done(u.entries[i])
  }

  ghost predicate StagedTables(ts: seq<Table>, us: seq<Table>, public: set<string>, ready: map<string, string>) {
    |us| == |ts| && forall i :: 0 <= i < |ts| ==> StagedTable(ts[i], us[i], public, ready)
  }

  /** No path is left, and every path dependency is pinned to the released version. */
  lemma StagedHasNoPaths(ts: seq<Table>, us: seq<Table>, public: set<string>, ready: map<string, string>, i: nat,
      k: nat)
    requires StagedTables(ts, us, public, ready) && i < |ts| && k < |us[i].entries|
    ensures !IsPathDep(us[i].entries[k])
    ensures IsPathDep(ts[i].entries[k]) ==>
              var name := PackageOf(ts[i].entries[k]);
              && IsReady(ready, name) && us[i].entries[k].dep.version == Some("=" + ready[name])
              && us[i].entries[k].dep.registry == Some(REGISTRY)
    ensures !IsPathDep(ts[i].entries[k]) ==> us[i].entries[k] == ts[i].entries[k]
  {
    var t, u := ts[i], us[i];
    assert StagedTable(t, u, public, ready);
    assert StagedEntry(t.entries[k], public, ready) == Done(u.entries[k]);
  }

  /** The first fault in the entries of a table, and in all tables. */
  function EntriesError(entries: seq<Entry>, public: set<string>, ready: map<string, string>): Option<Error> {
    if entries == [] then None
    else
      var first := StagedEntry(entries[0], public, ready);
      if first.Failed? then Some(first.error) else EntriesError(entries[1..], public, ready)
  }

  function TablesError(tables: seq<Table>, public: set<string>, ready: map<string, string>): Option<Error> {
    if tables == [] then None
    else if tables[0].NotTable? then Some(ManifestDep)
    else
      var first := EntriesError(tables[0].entries, public, ready);
      if first.Some? then first else TablesError(tables[1..], public, ready)
  }

  /** The version after inheritance. */
  function FilledVersion(package: map<string, Value>, workspace: map<string, Value>): Option<Value> {
    if "version" !in package then None
    else if package["version"] != Inherited then Some(package["version"])
    else if "version" in workspace then Some(workspace["version"])
    else None
  }

  /** The fault with which staging a manifest ends, if it does: the checks in their order. */
  ghost function StageError(m: Manifest, workspace: map<string, Value>, public: set<string>, ready: map<string, string>)
    : Option<Error>
  {
    var version := FilledVersion(m.package, workspace);
    if !m.pathsGood then Some(ManifestPath)
    else if "name" !in m.package || !m.package["name"].Text?
        || m.package["name"].text !in public then Some(ManifestPackage)
    else if "publish" in m.package && m.package["publish"] == Flag(false) then Some(ManifestPackage)
    else if exists k :: k in m.package && m.package[k] == Inherited && k !in workspace then Some(ManifestWorkspace)
    else if version.None? || !version.value.Text? then Some(ManifestVersion)
    else TablesError(m.tables, public, ready)
  }

  method StageEntries(entries: seq<Entry>, public: set<string>, ready: map<string, string>)
      returns (r: Result<seq<Entry>>)
    ensures r.Done? ==> StagedTable(Table(entries), Table(r.value), public, ready)
    ensures EntriesError(entries, public, ready) == if r.Failed? then Some(r.error) else None
    ensures r == Failed(StageNotReady) ==> exists e :: e in entries && IsPathDep(e) && !IsReady(ready, PackageOf(e))
  {
    hide IsRelease, StagedEntry;
    var staged: seq<Entry> := [];
    assert entries[0..] == entries;
    for i := 0 to |entries|
      invariant |staged| == i && forall k :: 0 <= k < i ==> StagedEntry(entries[k], public, ready) == Done(staged[k])
      invariant EntriesError(entries, public, ready) == EntriesError(entries[i..], public, ready)
    {
      assert entries[i..][0] == entries[i] && entries[i..][1..] == entries[i + 1..];
      var e := StagedEntry(entries[i], public, ready);
      if e.Failed? {
        assert entries[i] in entries;
        return Failed(e.error);
      }
      staged := staged + [e.value];
    }
    return Done(staged);
  }

  method StageTables(m: Manifest, public: set<string>, ready: map<string, string>) returns (r: Result<seq<Table>>)
    ensures r.Done? ==> StagedTables(m.tables, r.value, public, ready)
    ensures TablesError(m.tables, public, ready) == if r.Failed? then Some(r.error) else None
    ensures r == Failed(StageNotReady) ==> exists p :: LinksTo(m, p) && !IsReady(ready, p)
  {
    hide StagedTable, IsReady, IsPathDep, EntriesError;
    var tables: seq<Table> := [];
    assert m.tables[0..] == m.tables;
    for i := 0 to |m.tables|
      invariant |tables| == i && forall k :: 0 <= k < i ==> StagedTable(m.tables[k], tables[k], public, ready)
      invariant TablesError(m.tables, public, ready) == TablesError(m.tables[i..], public, ready)
    {
      assert m.tables[i..][0] == m.tables[i] && m.tables[i..][1..] == m.tables[i + 1..];
      if m.tables[i].NotTable? {
        return Failed(ManifestDep);
      }
      var entries := StageEntries(m.tables[i].entries, public, ready);
      if entries.Failed? {
        if entries.error == StageNotReady {
          var e :| e in m.tables[i].entries && IsPathDep(e) && !IsReady(ready, PackageOf(e));
          assert m.tables[i] in m.tables && HasEntry(m, e);
          assert LinksTo(m, PackageOf(e));
        }
        return Failed(entries.error);
      }
      tables := tables + [Table(entries.value)];
    }
    return Done(tables);
  }

  /** Fields marked as inherited take the workspace's value; nothing else changes. */
  ghost predicate Inherits(package: map<string, Value>, workspace: map<string, Value>, filled: map<string, Value>) {
    && filled.Keys == package.Keys
    && forall k :: k in package ==>
         if package[k] == Inherited then k in workspace && filled[k] == workspace[k] else filled[k] == package[k]
  }

  method FillPackage(package: map<string, Value>, workspace: map<string, Value>) returns (r: Result<map<string, Value>>)
    ensures r.Done? ==> Inherits(package, workspace, r.value)
    ensures r.Failed? ==> r.error == ManifestWorkspace
    ensures r.Failed? ==> exists k :: k in package && package[k] == Inherited && k !in workspace
  {
    var filled, todo := package, package.Keys;
    while todo != {}
      invariant todo <= package.Keys && filled.Keys == package.Keys
      invariant forall k :: k in todo ==> filled[k] == package[k]
      invariant forall k :: k in package && k !in todo ==>
                  if package[k] == Inherited then k in workspace && filled[k] == workspace[k]
                  else filled[k] == package[k]
      decreases |todo|
    {
      var key :| key in todo;
      if package[key] == Inherited {
        if key !in workspace {
          return Failed(ManifestWorkspace);
        }
        filled := filled[key := workspace[key]];
      }
      todo := todo - {key};
    }
    return Done(filled);
  }

  method StageManifest(m: Manifest, workspace: map<string, Value>, public: set<string>, ready: map<string, string>)
    returns (r: Result<Manifest>)
    ensures r.Done? ==>
              && Inherits(m.package, workspace, r.value.package)
              && "version" in r.value.package && r.value.package["version"].Text?
              && StagedTables(m.tables, r.value.tables, public, ready)
    ensures StageError(m, workspace, public, ready) == if r.Failed? then Some(r.error) else None
    ensures r == Failed(StageNotReady) ==> exists p :: LinksTo(m, p) && !IsReady(ready, p)
  {
    hide LinksTo, IsReady, StagedTables, TablesError;
    if !m.pathsGood {
      return Failed(ManifestPath);
    }
    if "name" !in m.package || !m.package["name"].Text? || m.package["name"].text !in public {
      return Failed(ManifestPackage);
    }
    if "publish" in m.package && m.package["publish"] == Flag(false) {
      return Failed(ManifestPackage);
    }
    var package := FillPackage(m.package, workspace);
    if package.Failed? {
      return Failed(ManifestWorkspace);
    }
    if "version" !in package.value || !package.value["version"].Text? {
      return Failed(ManifestVersion);
    }
    var tables := StageTables(m, public, ready);
    if tables.Failed? {
      return Failed(tables.error);
    }
    return Done(Manifest(package.value, m.pathsGood, tables.value));
  }

  /**
   * The loop of `static_closure`: because packages come after what they depend on, and an
   * archive's version is checked before it counts as ready, staging never meets a dependency
   * that is not ready.
   */
  method StaticClosure(manifests: Manifests, order: seq<string>, workspace: map<string, Value>, public: set<string>)
    returns (r: Result<map<string, string>>)
    requires forall n :: n in order <==> n in manifests
    ensures r != Failed(StageNotReady)
    ensures r.Done? ==> r.value.Keys == public && forall n :: n in r.value ==> IsRelease(r.value[n])
  {
    hide LinksTo, AllGood, LinksHaveCycle, IsRelease;
    var ordered :- ReleaseList(manifests, order, public, workspace != map[]);
    var checked: map<string, string> := map[];
    for i := 0 to |ordered|
      invariant forall n :: n in checked <==> n in ordered[..i]
      invariant forall n :: n in checked ==> IsRelease(checked[n])
    {
      var name := ordered[i];
      assert name in ordered && ordered[..i + 1] == ordered[..i] + [name];
      var staged := StageManifest(manifests[name], workspace, public, checked);
      if staged.Failed? {
        return Failed(staged.error);
      }
      var version := staged.value.package["version"].text;
      var fails := *;
      if fails {
        return Failed(Outside);
      }
      if !IsRelease(version) {
        return Failed(ArchiveId);
      }
      checked := checked[name := version];
    }
    assert ordered[..|ordered|] == ordered;
    return Done(checked);
  }
}
