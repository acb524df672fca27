/**
 * Which modules a native grant accepts, and in which order the bridge loads them.
 *
 * The file system, the artifact checks (hashes, ABI identity, unwind attestation, visibility)
 * and the dynamic loader are outside: the first two are parameters, the last may fail.
 */
module NativeGrant {
  import opened Checked
  import opened JsonParse
  import opened JsonRoundTrip

  const MAX_MODULES: nat := 64
  const MAX_EXPORTS: nat := 64
  const MAX_DEPENDENCIES: nat := 16
  const MAX_SYMBOL: nat := 1024

  /** Paths are compared by their parts, so repeated separators and a `.` after the first part do not matter. */
  datatype Path = Path(absolute: bool, parts: seq<string>)

  function PathOf(text: string): Path {
    Path(text != [] && text[0] == '/', (if text == "." || "./" <= text then ["."] else []) + Parts(text, []))
  }

  /** The parts between slashes, after the unfinished part `current`. */
  function Parts(text: string, current: string): seq<string> {
    if text == [] then Kept(current)
    else if text[0] == '/' then Kept(current) + Parts(text[1..], [])
    else Parts(text[1..], current + [text[0]])
  }

  function Kept(part: string): seq<string> { if part == "" || part == "." then [] else [part] }

  datatype Module = Module(path: Path, exports: seq<string>, dependencies: seq<Path>)

  /** `files` are the acceptable canonical paths; `checks` stands for the other checks of a module. */
  datatype Host = Host(files: set<Path>, checks: Json -> bool)

  // Looking up fields.

  function ModuleFields(): seq<string> {
    ["canonical_path", "sha256", "source_sha256", "header_binding", "abi_identity", "unwind", "exports", "visibility",
     "dependencies"]
  }

  /** `exact_fields`: as many fields as expected, and none with another name. */
  predicate ExactFields(fields: seq<Field>, expected: seq<string>) {
    |fields| == |expected| && forall i :: 0 <= i < |fields| ==> fields[i].name in expected
  }

  function FieldOf(fields: seq<Field>, name: string): Option<Json> {
    if fields == [] then None
    else if fields[0].name == name then Some(fields[0].value)
    else FieldOf(fields[1..], name)
  }

  lemma {:induction false} FieldIsFound(fields: seq<Field>, name: string)
    ensures FieldOf(fields, name).Some? <==> name in Names(fields)
  {
    if fields != [] {
      FieldIsFound(fields[1..], name);
      assert Names(fields) == [fields[0].name] + Names(fields[1..]);
    }
  }

  /** A sequence without repetition over `t` that is as long as `t` leaves out nothing of `t`. */
  lemma {:induction false} PigeonHole(s: seq<string>, t: seq<string>, x: string)
    requires Distinct(s) && |s| == |t| && x in t
    requires forall i :: 0 <= i < |s| ==> s[i] in t
    ensures x in s
    decreases |s|
  {
    if s == [] {
      assert false;
    } else if s[0] != x {
      var k :| 0 <= k < |t| && t[k] == s[0];
      var rest := t[..k] + t[k + 1..];
      forall i | 0 <= i < |s[1..]| ensures s[1..][i] in rest {
        var j :| 0 <= j < |t| && t[j] == s[i + 1];
        assert rest[if j < k then j else j - 1] == t[j];
      }
      var m :| 0 <= m < |t| && t[m] == x;
      assert rest[if m < k then m else m - 1] == x;
      PigeonHole(s[1..], rest, x);
    }
  }

  /**
   * The parser refuses repeated names, so the count and the names alone show that every
   * expected field is there: no later lookup can fail.
   */
  lemma ExactFieldsAreComplete(fields: seq<Field>, expected: seq<string>, name: string)
    requires DistinctNames(fields) && ExactFields(fields, expected) && name in expected
    ensures FieldOf(fields, name).Some?
  {
    PigeonHole(Names(fields), expected, name);
    FieldIsFound(fields, name);
  }

  // What is accepted.

  predicate ValidSymbol(s: string) {
    && 0 < |s| <= MAX_SYMBOL
    && ('a' <= s[0] <= 'z' || 'A' <= s[0] <= 'Z' || s[0] == '_')
    && forall i :: 0 <= i < |s| ==> 'a' <= s[i] <= 'z' || 'A' <= s[i] <= 'Z' || '0' <= s[i] <= '9' || s[i] == '_'
  }

  predicate AllText(values: seq<Json>) {
    forall i :: 0 <= i < |values| ==> values[i].Text?
  }

  function Texts(values: seq<Json>): (r: seq<string>)
    requires AllText(values)
    ensures |r| == |values| && forall i :: 0 <= i < |r| ==> r[i] == values[i].text
  {
    seq(|values|, i requires 0 <= i < |values| => values[i].text)
  }

  function PathsOf(texts: seq<string>): (r: seq<Path>)
    ensures |r| == |texts| && forall i :: 0 <= i < |r| ==> r[i] == PathOf(texts[i])
  {
    seq(|texts|, i requires 0 <= i < |texts| => PathOf(texts[i]))
  }

  predicate Lists(modules: seq<Module>, path: Path) {
    exists m :: m in modules && m.path == path
  }

  predicate GoodExports(values: seq<Json>) {
    && 0 < |values| <= MAX_EXPORTS && AllText(values)
    && Distinct(Texts(values))
    && forall i :: 0 <= i < |values| ==> ValidSymbol(values[i].text)
  }

  predicate GoodDependencies(values: seq<Json>, preceding: seq<Module>) {
    && |values| <= MAX_DEPENDENCIES && AllText(values)
    && Distinct(PathsOf(Texts(values)))
    && forall i :: 0 <= i < |values| ==> Lists(preceding, PathOf(values[i].text))
  }

  /** What an entry of the grant stands for after the entries before it, if it is accepted. */
  function ModuleOf(value: Json, preceding: seq<Module>, host: Host): Option<Module> {
    if !value.Object? || !ExactFields(value.fields, ModuleFields()) then None
    else
      var path, exports := FieldOf(value.fields, "canonical_path"), FieldOf(value.fields, "exports");
      var dependencies := FieldOf(value.fields, "dependencies");
      if && path.Some? && path.value.Text? && PathOf(path.value.text) in host.files
         && !Lists(preceding, PathOf(path.value.text)) && host.checks(value)
         && exports.Some? && exports.value.Array? && GoodExports(exports.value.items)
         && dependencies.Some? && dependencies.value.Array? && GoodDependencies(dependencies.value.items, preceding)
      then
        Some(Module(PathOf(path.value.text), Texts(exports.value.items), PathsOf(Texts(dependencies.value.items))))
      else None
  }

  /** Paths are unique, and a module depends only on earlier ones. */
  ghost predicate WellOrdered(modules: seq<Module>) {
    && (forall i, j :: 0 <= i < j < |modules| ==> modules[i].path != modules[j].path)
    && (forall i, p :: 0 <= i < |modules| && p in modules[i].dependencies ==> Lists(modules[..i], p))
  }

  // Reading the grant.

  method ReadExports(values: seq<Json>) returns (r: Option<seq<string>>)
    ensures r == if GoodExports(values) then Some(Texts(values)) else None
  {
    if values == [] || MAX_EXPORTS < |values| {
      return None;
    }
    var exports: seq<string> := [];
    for i := 0 to |values|
      invariant |exports| == i && Distinct(exports)
      invariant forall k :: 0 <= k < i ==> values[k].Text? && exports[k] == values[k].text && ValidSymbol(exports[k])
    {
      if !values[i].Text? {
        return None;
      }
      var symbol := values[i].text;
      if !ValidSymbol(symbol) {
        return None;
      }
      if symbol in exports {
        var k :| 0 <= k < i && exports[k] == symbol;
        assert AllText(values) ==> Texts(values)[k] == Texts(values)[i];
        return None;
      }
      exports := exports + [symbol];
    }
    assert exports == Texts(values);
    return Some(exports);
  }

  method ReadDependencies(values: seq<Json>, preceding: seq<Module>) returns (r: Option<seq<Path>>)
    ensures r == if GoodDependencies(values, preceding) then Some(PathsOf(Texts(values))) else None
  {
    hide PathOf, Lists;
    if MAX_DEPENDENCIES < |values| {
      return None;
    }
    var dependencies: seq<Path> := [];
    for i := 0 to |values|
      invariant |dependencies| == i && Distinct(dependencies)
      invariant forall k :: 0 <= k < i ==>
                  values[k].Text? && dependencies[k] == PathOf(values[k].text) && Lists(preceding, dependencies[k])
    {
      if !values[i].Text? {
        return None;
      }
      var path := PathOf(values[i].text);
      if !Lists(preceding, path) {
        return None;
      }
      if path in dependencies {
        var k :| 0 <= k < i && dependencies[k] == path;
        assert AllText(values) ==> PathsOf(Texts(values))[k] == PathsOf(Texts(values))[i];
        return None;
      }
      dependencies := dependencies + [path];
    }
    assert dependencies == PathsOf(Texts(values));
    return Some(dependencies);
  }

  method ParseModule(value: Json, preceding: seq<Module>, host: Host) returns (r: Option<Module>)
    ensures r == ModuleOf(value, preceding, host)
  {
    hide GoodExports, GoodDependencies;
    if !value.Object? || !ExactFields(value.fields, ModuleFields()) {
      return None;
    }
    var path := FieldOf(value.fields, "canonical_path");
    if path.None? || !path.value.Text? || PathOf(path.value.text) !in host.files {
      return None;
    }
    if Lists(preceding, PathOf(path.value.text)) || !host.checks(value) {
      return None;
    }
    var exportsField := FieldOf(value.fields, "exports");
    if exportsField.None? || !exportsField.value.Array? {
      return None;
    }
    var exports := ReadExports(exportsField.value.items);
    if exports.None? {
      return None;
    }
    var dependenciesField := FieldOf(value.fields, "dependencies");
    if dependenciesField.None? || !dependenciesField.value.Array? {
      return None;
    }
    var dependencies := ReadDependencies(dependenciesField.value.items, preceding);
    if dependencies.None? {
      return None;
    }
    return Some(Module(PathOf(path.value.text), exports.value, dependencies.value));
  }

  /** Every entry is accepted after those before it. */
  ghost predicate AllAccepted(entries: seq<Json>, modules: seq<Module>, host: Host) {
    && |modules| <= |entries|
    && forall i :: 0 <= i < |modules| ==> ModuleOf(entries[i], modules[..i], host) == Some(modules[i])
  }

  /** The module list of an accepted grant; a grant is refused only at an entry that is not acceptable. */
  method ParseModules(entries: seq<Json>, host: Host) returns (r: Option<seq<Module>>)
    ensures r.Some? ==> WellOrdered(r.value) && |r.value| == |entries| && AllAccepted(entries, r.value, host)
    ensures r.None? ==>
              || entries == [] || MAX_MODULES < |entries|
              || exists before :: |before| < |entries| && AllAccepted(entries, before, host)
                                  && ModuleOf(entries[|before|], before, host) == None
  {
    if entries == [] || MAX_MODULES < |entries| {
      return None;
    }
    var modules: seq<Module> := [];
    for i := 0 to |entries|
      invariant |modules| == i && WellOrdered(modules) && AllAccepted(entries, modules, host)
    {
      var entry := ParseModule(entries[i], modules, host);
      if entry.None? {
        return None;
      }
      OneMore(entries, modules, host, entry.value);
      modules := modules + [entry.value];
    }
    return Some(modules);
  }

  lemma AcceptedModule(value: Json, preceding: seq<Module>, host: Host, m: Module)
    requires ModuleOf(value, preceding, host) == Some(m)
    ensures !Lists(preceding, m.path) && forall p :: p in m.dependencies ==> Lists(preceding, p)
  {
    forall p | p in m.dependencies ensures Lists(preceding, p) {
      var i :| 0 <= i < |m.dependencies| && m.dependencies[i] == p;
    }
  }

  lemma OneMore(entries: seq<Json>, modules: seq<Module>, host: Host, m: Module)
    requires |modules| < |entries| && WellOrdered(modules) && AllAccepted(entries, modules, host)
    requires ModuleOf(entries[|modules|], modules, host) == Some(m)
    ensures WellOrdered(modules + [m]) && AllAccepted(entries, modules + [m], host)
  {
    hide ModuleOf;
    AcceptedModule(entries[|modules|], modules, host, m);
    var more := modules + [m];
    forall i | 0 <= i <= |modules| ensures more[..i] == modules[..i] {
    }
    assert modules[..|modules|] == modules;
    forall i, j | 0 <= i < j < |more| ensures more[i].path != more[j].path {
      assert more[i] in modules;
    }
  }

  // Loading.

  /** The place of the module with a path; in a well-ordered list there is only one. */
  method Position(modules: seq<Module>, path: Path) returns (r: Option<nat>)
    ensures r.Some? ==> r.value < |modules| && modules[r.value].path == path
    ensures r.None? ==> !Lists(modules, path)
  {
    for i := 0 to |modules|
      invariant forall k :: 0 <= k < i ==> modules[k].path != path
    {
      if modules[i].path == path {
        return Some(i);
      }
    }
    return None;
  }

  lemma DependencyIsEarlier(modules: seq<Module>, index: nat, path: Path, found: nat)
    requires WellOrdered(modules) && index < |modules| && path in modules[index].dependencies
    requires found < |modules| && modules[found].path == path
    ensures found < index
  {
    var m :| m in modules[..index] && m.path == path;
    var k :| 0 <= k < index && modules[..index][k] == m;
    assert modules[k].path == modules[found].path;
  }

  lemma DependencyIsListed(modules: seq<Module>, index: nat, path: Path)
    requires WellOrdered(modules) && index < |modules| && path in modules[index].dependencies
    ensures exists k :: 0 <= k < index && modules[k].path == path
  {
    var m :| m in modules[..index] && m.path == path;
    var k :| 0 <= k < index && modules[..index][k] == m;
  }

  /** The module itself and what it needs, directly or not. */
  ghost predicate Needs(modules: seq<Module>, index: nat, path: Path)
    requires WellOrdered(modules) && index < |modules|
    decreases index
  {
    || path == modules[index].path
    || exists k :: 0 <= k < index && modules[k].path in modules[index].dependencies && Needs(modules, k, path)
  }

  /** Distinct, granted, and each path after the paths that its module depends on. */
  ghost predicate Ordered(modules: seq<Module>, loaded: seq<Path>) {
    && Distinct(loaded)
    && (forall k :: 0 <= k < |loaded| ==> Lists(modules, loaded[k]))
    && (forall k, m, p :: 0 <= k < |loaded| && m in modules && m.path == loaded[k] && p in m.dependencies ==>
        p in loaded[..k])
  }

  lemma LoadedOneMore(modules: seq<Module>, loaded: seq<Path>, m: Module)
    requires WellOrdered(modules) && m in modules && Ordered(modules, loaded) && m.path !in loaded
    requires forall p :: p in m.dependencies ==> p in loaded
    ensures Ordered(modules, loaded + [m.path])
  {
    var more := loaded + [m.path];
    forall k, n, p | 0 <= k < |more| && n in modules && n.path == more[k]
        && p in n.dependencies ensures p in more[..k] {
      if k < |loaded| {
        assert more[..k] == loaded[..k];
      } else {
        assert more[..k] == loaded && n == m;
      }
    }
  }

  /** A list in this order is closed: with a module it holds everything that module needs. */
  lemma {:induction false} LoadedIsClosed(modules: seq<Module>, loaded: seq<Path>, index: nat, path: Path)
    requires WellOrdered(modules) && Ordered(modules, loaded)
    requires index < |modules| && modules[index].path in loaded && Needs(modules, index, path)
    ensures path in loaded
    decreases index
  {
    if path != modules[index].path {
      var k :| 0 <= k < index && modules[k].path in modules[index].dependencies && Needs(modules, k, path);
      var n :| 0 <= n < |loaded| && loaded[n] == modules[index].path;
      assert modules[index] in modules && modules[k].path in loaded[..n];
      LoadedIsClosed(modules, loaded, k, path);
    }
  }

  class Bridge {
    const modules: seq<Module>
    var loaded: seq<Path>

    ghost predicate Valid()
      reads this
    {
      WellOrdered(modules) && Ordered(modules, loaded)
    }

    constructor (modules: seq<Module>)
      requires WellOrdered(modules)
      ensures Valid() && this.modules == modules && loaded == []
    {
      this.modules, loaded := modules, [];
    }

    /**
     * Every load, whether it succeeds or fails anywhere below, keeps the order and only adds
     * modules that the wanted one needs and that open. It succeeds exactly if every needed module
     * that is not loaded yet opens; then exactly these are added.
     */
    method EnsureLoaded(index: nat, opens: Path -> bool) returns (ok: bool)
      requires Valid()
      modifies this`loaded
      ensures Valid() && old(loaded) <= loaded
      ensures ok <==> index < |modules| && AllOpen(modules, index, old(loaded), opens)
      ensures ok ==> modules[index].path in loaded
      ensures index < |modules| ==>
                forall k :: |old(loaded)| <= k < |loaded| ==> Needs(modules, index, loaded[k]) && opens(loaded[k])
      ensures |modules| <= index ==> loaded == old(loaded)
      decreases index
    {
      hide WellOrdered, Ordered, AllOpen;
      if |modules| <= index {
        return false;
      }
      var m := modules[index];
      if m.path in loaded {
        LoadedIsOpen(modules, index, loaded, opens);
        return true;
      }
      for i := 0 to |m.dependencies|
        invariant Valid() && old(loaded) <= loaded
        invariant forall k :: 0 <= k < i ==> m.dependencies[k] in loaded
        invariant forall k :: |old(loaded)| <= k < |loaded| ==>
                    NeedsBelow(modules, index, loaded[k]) && opens(loaded[k])
      {
        var place := Position(modules, m.dependencies[i]);
        DependencyIsListed(modules, index, m.dependencies[i]);
        if place.None? {
          return false;
        }
        DependencyIsEarlier(modules, index, m.dependencies[i], place.value);
        ghost var before := loaded;
        var ready := EnsureLoaded(place.value, opens);
        assert forall k :: |before| <= k < |loaded| ==> NeedsBelow(modules, index, loaded[k]);
        if !ready {
          NeverOpen(modules, index, place.value, old(loaded), before, opens);
          return false;
        }
      }
      OnlyItself(modules, index, old(loaded), loaded, opens);
      if !opens(m.path) {
        return false;
      }
      forall k | 0 <= k < |loaded| ensures loaded[k] != m.path {
        if |old(loaded)| <= k {
          NeededBelowIsOther(modules, index, loaded[k]);
        } else {
          assert loaded[k] == old(loaded)[k];
        }
      }
      LoadedOneMore(modules, loaded, m);
      loaded := loaded + [m.path];
      return true;
    }

    /** Opening a symbol of a candidate path, which the file system resolves or not. */
    method LoadOpener(candidate: Option<Path>, symbol: string, opens: Path -> bool, bound: bool) returns (ok: bool)
      requires Valid()
      modifies this`loaded
      ensures Valid() && old(loaded) <= loaded
      ensures ok <==>
                && candidate.Some? && bound
                && exists i :: 0 <= i < |modules| && modules[i].path == candidate.value && symbol in modules[i].exports
                               && AllOpen(modules, i, old(loaded), opens)
      ensures ok ==> candidate.value in loaded
    {
      hide Ordered, AllOpen;
      if candidate.None? {
        return false;
      }
      var place := Position(modules, candidate.value);
      if place.None? || symbol !in modules[place.value].exports {
        return false;
      }
      ok := EnsureLoaded(place.value, opens);
      ok := ok && bound;
    }
  }

  /** Every module that this one needs, itself included, is loaded or can be opened. */
  ghost predicate AllOpen(modules: seq<Module>, index: nat, loaded: seq<Path>, opens: Path -> bool)
    requires WellOrdered(modules) && index < |modules|
  {
    forall p :: Needs(modules, index, p) ==> p in loaded || opens(p)
  }

  lemma LoadedIsOpen(modules: seq<Module>, index: nat, loaded: seq<Path>, opens: Path -> bool)
    requires WellOrdered(modules) && Ordered(modules, loaded) && index < |modules| && modules[index].path in loaded
    ensures AllOpen(modules, index, loaded, opens)
  {
    forall p | Needs(modules, index, p) ensures p in loaded {
      LoadedIsClosed(modules, loaded, index, p);
    }
  }

  /** What keeps a dependency from opening keeps the module from opening; what was opened before does not matter. */
  lemma NeverOpen(
    modules: seq<Module>, index: nat, place: nat, first: seq<Path>, loaded: seq<Path>, opens: Path -> bool)
    requires WellOrdered(modules) && place < index < |modules| && modules[place].path in modules[index].dependencies
    requires first <= loaded && !AllOpen(modules, place, loaded, opens)
    ensures !AllOpen(modules, index, first, opens)
  {
    var p :| Needs(modules, place, p) && p !in loaded && !opens(p);
    assert Needs(modules, index, p);
    assert p in first ==> p in loaded;
  }

  /** Once all dependencies are loaded, by opening what was missing, only the module itself counts. */
  lemma OnlyItself(modules: seq<Module>, index: nat, first: seq<Path>, loaded: seq<Path>, opens: Path -> bool)
    requires WellOrdered(modules) && Ordered(modules, loaded) && index < |modules|
    requires forall k :: 0 <= k < |modules[index].dependencies| ==> modules[index].dependencies[k] in loaded
    requires first <= loaded && forall k :: |first| <= k < |loaded| ==> opens(loaded[k])
    requires modules[index].path !in first
    ensures AllOpen(modules, index, first, opens) <==> opens(modules[index].path)
  {
    assert Needs(modules, index, modules[index].path);
    forall p | Needs(modules, index, p) && p != modules[index].path ensures p in first || opens(p) {
      var k :| 0 <= k < index && modules[k].path in modules[index].dependencies && Needs(modules, k, p);
      LoadedIsClosed(modules, loaded, k, p);
      var n :| 0 <= n < |loaded| && loaded[n] == p;
      assert n < |first| ==> first[n] == p;
    }
  }

  /** Needed through a dependency, hence the path of an earlier module. */
  ghost predicate NeedsBelow(modules: seq<Module>, index: nat, path: Path)
    requires WellOrdered(modules) && index < |modules|
  {
    exists k :: 0 <= k < index && modules[k].path in modules[index].dependencies && Needs(modules, k, path)
  }

  lemma {:induction false} NeededIsEarlier(modules: seq<Module>, index: nat, path: Path)
    requires WellOrdered(modules) && index < |modules| && Needs(modules, index, path)
    ensures exists j :: 0 <= j <= index && modules[j].path == path
    decreases index
  {
    if path != modules[index].path {
      var k :| 0 <= k < index && modules[k].path in modules[index].dependencies && Needs(modules, k, path);
      NeededIsEarlier(modules, k, path);
    }
  }

  lemma NeededBelowIsOther(modules: seq<Module>, index: nat, path: Path)
    requires WellOrdered(modules) && index < |modules| && NeedsBelow(modules, index, path)
    ensures path != modules[index].path
  {
    var k :| 0 <= k < index && modules[k].path in modules[index].dependencies && Needs(modules, k, path);
    NeededIsEarlier(modules, k, path);
  }
}
